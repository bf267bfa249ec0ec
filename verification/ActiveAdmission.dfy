/**
 The active side of the session container pool, cut at the awaits of
 `acquireForSession` and `acquireFresh`: every action below is the code between two
 suspension points, so an interleaving of calls is a sequence of actions.

 A session can be counted twice, once as a live entry and once as a reservation,
 between the insert of its container and the release of its reservation. The bound
 the pool owes its operator is on the union of the two.
 */
module ActiveAdmission {
  import opened Prelude

  type SessionId = string

  // Where a session's in-flight `acquireFresh` stands. A session is pending from the
  // moment it enters until its promise settles.
  datatype Phase =
    | Waiting    // queued on the admission lock
    | Draining   // holds the lock, awaits the eviction of a victim
    | Booting    // admitted: claims a warm container or spawns one
    | Inserted   // its container is live, its reservation not yet released
    | Settling   // past the release, or refused; the promise has not settled

  datatype State = State(
    active: map<SessionId, int>,      // live sessions and their lastUsedAt
    reservations: set<SessionId>,
    pending: map<SessionId, Phase>,
    lock: seq<SessionId>              // FIFO: the head holds the admission lock
  )

  const Empty := State(map[], {}, map[], [])

  datatype Action =
    | Enter(sid: SessionId)
    | Admit(sid: SessionId, busy: set<SessionId>, victim: Option<SessionId>)
    | Insert(sid: SessionId, now: int)
    | Release(sid: SessionId)
    | Settle(sid: SessionId)
    | Evict(sid: SessionId)
    | Touch(sid: SessionId, now: int)
    | Adopt(sid: SessionId, now: int)

  /** What the admission loop compares with the cap: the requester's own reservation is left out. */
  function Occupied(s: State, requester: SessionId): nat {
    |s.active| + |s.reservations - {requester}|
  }

  /** The sessions that hold a slot, each counted once. */
  function Holders(s: State): set<SessionId> {
    s.active.Keys + s.reservations
  }

  predicate Idle(s: State, busy: set<SessionId>, requester: SessionId, v: SessionId) {
    v in s.active && v != requester && v !in busy
  }

  /** `v` is idle and no idle session was used longer ago. */
  ghost predicate LeastRecentlyUsed(s: State, busy: set<SessionId>, requester: SessionId, v: SessionId) {
    && Idle(s, busy, requester, v)
    && forall w :: Idle(s, busy, requester, w) ==> s.active[v] <= s.active[w]
  }

  /** The session already holds a slot, so the lock's body returns at once. */
  predicate AlreadyHolds(s: State, sid: SessionId) {
    sid in s.pending && s.pending[sid] == Waiting && (sid in s.reservations || sid in s.active)
  }

  predicate Full(max: nat, s: State, sid: SessionId) {
    !AlreadyHolds(s, sid) && Occupied(s, sid) >= max
  }

  ghost predicate Enabled(max: nat, s: State, a: Action) {
    match a
    case Enter(sid) => sid !in s.pending
    case Admit(sid, busy, victim) =>
      && |s.lock| > 0 && s.lock[0] == sid
      && sid in s.pending && s.pending[sid] in {Waiting, Draining}
      && (match victim
          case Some(v) => Full(max, s, sid) && LeastRecentlyUsed(s, busy, sid, v)
          case None => Full(max, s, sid) ==> forall w :: !Idle(s, busy, sid, w))
    case Insert(sid, _) => sid in s.pending && s.pending[sid] == Booting
    case Release(sid) => sid in s.pending && s.pending[sid] in {Booting, Inserted}
    case Settle(sid) => sid in s.pending && s.pending[sid] == Settling
    case Evict(_) => true
    case Touch(_, _) => true
    case Adopt(_, _) => true   // it looks for a live entry before it awaits the probe
  }

  function Apply(max: nat, s: State, a: Action): State {
    match a
    case Enter(sid) =>
      if max == 0 then s.(pending := s.pending[sid := Booting])
      else s.(pending := s.pending[sid := Waiting], lock := s.lock + [sid])
    case Admit(sid, _, victim) =>
      if |s.lock| == 0 then s
      else if AlreadyHolds(s, sid) then
        s.(pending := s.pending[sid := Booting], lock := s.lock[1..])
      else if Occupied(s, sid) >= max then
        match victim {
          case Some(v) => s.(active := s.active - {v}, pending := s.pending[sid := Draining])
          case None => s.(pending := s.pending[sid := Settling], lock := s.lock[1..])
        }
      else
        s.(reservations := s.reservations + {sid}, pending := s.pending[sid := Booting], lock := s.lock[1..])
    case Insert(sid, now) =>
      s.(active := s.active[sid := now], pending := s.pending[sid := Inserted])
    case Release(sid) =>
      s.(reservations := s.reservations - {sid}, pending := s.pending[sid := Settling])
    case Settle(sid) => s.(pending := s.pending - {sid})
    case Evict(sid) => s.(active := s.active - {sid})
    case Touch(sid, now) => if sid in s.active then s.(active := s.active[sid := now]) else s
    case Adopt(sid, now) => s.(active := s.active[sid := now])
  }

  /** The actions are enabled one after the other from an empty pool. */
  ghost predicate IsRun(max: nat, acts: seq<Action>) {
    acts == [] ||
    (IsRun(max, acts[..|acts|-1]) && Enabled(max, Exec(max, acts[..|acts|-1]), acts[|acts|-1]))
  }

  function Exec(max: nat, acts: seq<Action>): State {
    if acts == [] then Empty
    else Apply(max, Exec(max, acts[..|acts|-1]), acts[|acts|-1])
  }

  /** No container is adopted, and a session enters only when it has no live entry. */
  ghost predicate Disciplined(max: nat, acts: seq<Action>) {
    forall i :: 0 <= i < |acts| ==>
      && !acts[i].Adopt?
      && (acts[i].Enter? ==> acts[i].sid !in Exec(max, acts[..i]).active)
  }

  ghost predicate Distinct(lock: seq<SessionId>) {
    forall i, j :: 0 <= i < j < |lock| ==> lock[i] != lock[j]
  }

  predicate InPhase(s: State, sid: SessionId, phases: set<Phase>) {
    sid in s.pending && s.pending[sid] in phases
  }

  /** Reservations and lock positions follow the phases, and no session waiting for its turn is live. */
  ghost predicate Consistent(s: State) {
    && (forall sid :: sid in s.reservations <==> InPhase(s, sid, {Booting, Inserted}))
    && (forall sid :: sid in s.lock <==> InPhase(s, sid, {Waiting, Draining}))
    && Distinct(s.lock)
    && (forall sid :: InPhase(s, sid, {Waiting}) ==> sid !in s.active)
  }

  /** Reserving under the comparison the loop makes never pushes the union past the cap. */
  lemma ReserveFits(max: nat, s: State, sid: SessionId)
    requires Occupied(s, sid) < max
    ensures |s.active.Keys + (s.reservations + {sid})| <= max
  {
  }

  lemma LockTail(lock: seq<SessionId>)
    requires lock != [] && Distinct(lock)
    ensures Distinct(lock[1..]) && lock[0] !in lock[1..]
    ensures forall w :: w in lock <==> w == lock[0] || w in lock[1..]
  {
  }

  lemma EnterKeepsConsistent(max: nat, s: State, sid: SessionId)
    requires max > 0 && Consistent(s) && sid !in s.pending && sid !in s.active
    ensures Consistent(Apply(max, s, Enter(sid)))
  {
    var t := Apply(max, s, Enter(sid));
    assert !InPhase(s, sid, {Waiting, Draining});
    assert forall x, p :: x != sid ==> InPhase(t, x, p) == InPhase(s, x, p);
  }

  /** The head leaves the lock, with a reservation or with nothing. */
  lemma LeaveKeepsConsistent(s: State, sid: SessionId, p: Phase, reservations: set<SessionId>)
    requires Consistent(s) && s.lock != [] && s.lock[0] == sid && p in {Booting, Settling}
    requires reservations == if p == Booting then s.reservations + {sid} else s.reservations
    ensures Consistent(s.(reservations := reservations, pending := s.pending[sid := p], lock := s.lock[1..]))
  {
    LockTail(s.lock);
    assert s.lock[0] in s.lock;
    assert sid !in s.reservations;
  }

  lemma DrainKeepsConsistent(s: State, sid: SessionId, v: SessionId)
    requires Consistent(s) && s.lock != [] && s.lock[0] == sid
    ensures Consistent(s.(active := s.active - {v}, pending := s.pending[sid := Draining]))
  {
    assert s.lock[0] in s.lock;
  }

  lemma AdmitKeepsConsistent(max: nat, s: State, sid: SessionId, busy: set<SessionId>, victim: Option<SessionId>)
    requires Consistent(s) && s.lock != [] && s.lock[0] == sid && (victim.Some? ==> victim.value in s.active)
    ensures !AlreadyHolds(s, sid)
    ensures Consistent(Apply(max, s, Admit(sid, busy, victim)))
  {
    assert s.lock[0] in s.lock;
    assert AlreadyHolds(s, sid) ==> InPhase(s, sid, {Waiting});
    if Occupied(s, sid) < max {
      LeaveKeepsConsistent(s, sid, Booting, s.reservations + {sid});
    } else if victim.Some? {
      DrainKeepsConsistent(s, sid, victim.value);
    } else {
      LeaveKeepsConsistent(s, sid, Settling, s.reservations);
    }
  }

  lemma StepKeepsConsistent(max: nat, s: State, a: Action)
    requires max > 0
    requires Consistent(s) && Enabled(max, s, a)
    requires !a.Adopt? && (a.Enter? ==> a.sid !in s.active)
    ensures Consistent(Apply(max, s, a))
  {
    match a {
      case Enter(sid) => EnterKeepsConsistent(max, s, sid);
      case Admit(sid, busy, victim) => AdmitKeepsConsistent(max, s, sid, busy, victim);
      case _ =>
    }
  }

  lemma StepKeepsCap(max: nat, s: State, a: Action)
    requires max > 0
    requires Consistent(s) && Enabled(max, s, a) && !a.Adopt?
    requires |Holders(s)| <= max
    ensures |Holders(Apply(max, s, a))| <= max
  {
    var t := Apply(max, s, a);
    if a.Admit? && !AlreadyHolds(s, a.sid) && Occupied(s, a.sid) < max {
      ReserveFits(max, s, a.sid);
      assert Holders(t) == s.active.Keys + (s.reservations + {a.sid});
    } else {
      SubsetSize(Holders(t), Holders(s));
    }
  }

  /** In every interleaving from an empty pool the sessions live or reserved never exceed a positive cap. */
  lemma {:induction false} ActiveCapHolds(max: nat, acts: seq<Action>)
    requires max > 0
    requires IsRun(max, acts) && Disciplined(max, acts)
    ensures |Holders(Exec(max, acts))| <= max
    ensures Consistent(Exec(max, acts))
  {
    if acts == [] {
    } else {
      var before := acts[..|acts|-1];
      assert forall i :: 0 <= i < |before| ==> before[..i] == acts[..i];
      ActiveCapHolds(max, before);
      StepKeepsConsistent(max, Exec(max, before), acts[|acts|-1]);
      StepKeepsCap(max, Exec(max, before), acts[|acts|-1]);
    }
  }

  /** The sessions that asked for the lock, in the order they asked. */
  function Entered(acts: seq<Action>): seq<SessionId> {
    if acts == [] then []
    else
      var last := acts[|acts|-1];
      Entered(acts[..|acts|-1]) + if last.Enter? then [last.sid] else []
  }

  /** The sessions whose turn at the lock ended, admitted or refused, in that order. */
  function Served(max: nat, acts: seq<Action>): seq<SessionId> {
    if acts == [] then []
    else
      var before := acts[..|acts|-1];
      var last := acts[|acts|-1];
      Served(max, before) +
      if last.Admit? && |Exec(max, acts).lock| < |Exec(max, before).lock| then [last.sid] else []
  }

  /** A turn that ends takes the head off the lock, an entry joins its tail, nothing else touches it. */
  lemma LockMoves(max: nat, s: State, a: Action)
    requires max > 0 && (a.Admit? ==> s.lock != [] && s.lock[0] == a.sid)
    ensures var t := Apply(max, s, a);
            if a.Enter? then t.lock == s.lock + [a.sid]
            else if a.Admit? && |t.lock| < |s.lock| then s.lock == [a.sid] + t.lock
            else t.lock == s.lock
  {
    if a.Admit? {
      assert s.lock == [a.sid] + s.lock[1..];
    }
  }

  /** Admission is first come, first served: whoever has not been served still queues behind whoever has. */
  lemma {:induction false} AdmissionIsFifo(max: nat, acts: seq<Action>)
    requires max > 0 && IsRun(max, acts)
    ensures Entered(acts) == Served(max, acts) + Exec(max, acts).lock
  {
    if acts == [] {
    } else {
      var before, last := acts[..|acts|-1], acts[|acts|-1];
      AdmissionIsFifo(max, before);
      var s, t := Exec(max, before), Exec(max, acts);
      LockMoves(max, s, last);
      FifoStep(Entered(before), Served(max, before), s.lock, t.lock, last);
    }
  }

  lemma FifoStep(entered: seq<SessionId>, served: seq<SessionId>, lock: seq<SessionId>, lock': seq<SessionId>, a: Action)
    requires entered == served + lock
    requires if a.Enter? then lock' == lock + [a.sid]
             else if a.Admit? && |lock'| < |lock| then lock == [a.sid] + lock'
             else lock' == lock
    ensures entered + (if a.Enter? then [a.sid] else []) ==
            served + (if a.Admit? && |lock'| < |lock| then [a.sid] else []) + lock'
  {
  }

  /** When the session's entry was last inserted, touched or adopted. */
  function LastUse(acts: seq<Action>, sid: SessionId): Option<int> {
    if acts == [] then None
    else
      var last := acts[|acts|-1];
      if (last.Insert? || last.Touch? || last.Adopt?) && last.sid == sid then Some(last.now)
      else LastUse(acts[..|acts|-1], sid)
  }

  /** The stamp victims are chosen by is the last use. */
  lemma {:induction false} StampIsLastUse(max: nat, acts: seq<Action>, sid: SessionId)
    requires IsRun(max, acts) && sid in Exec(max, acts).active
    ensures LastUse(acts, sid) == Some(Exec(max, acts).active[sid])
  {
    var before, last := acts[..|acts|-1], acts[|acts|-1];
    if !((last.Insert? || last.Touch? || last.Adopt?) && last.sid == sid) {
      assert sid in Exec(max, before).active && Exec(max, acts).active[sid] == Exec(max, before).active[sid];
      StampIsLastUse(max, before, sid);
    }
  }

  // ---- When a session may enter, and when a container may be adopted ----

  /** A step that adopts nothing and enters no live session. */
  predicate Orderly(s: State, a: Action) {
    !a.Adopt? && (a.Enter? ==> a.sid !in s.active)
  }

  function After(max: nat, s: State, acts: seq<Action>): State
    decreases |acts|
  {
    if acts == [] then s else After(max, Apply(max, s, acts[0]), acts[1..])
  }

  ghost predicate IsOrderly(max: nat, s: State, acts: seq<Action>)
    decreases |acts|
  {
    acts == []
    || (Enabled(max, s, acts[0]) && Orderly(s, acts[0]) && IsOrderly(max, Apply(max, s, acts[0]), acts[1..]))
  }

  /** Every orderly continuation keeps the cap. */
  ghost predicate CapSafe(max: nat, s: State) {
    forall more :: IsOrderly(max, s, more) ==> |Holders(After(max, s, more))| <= max
  }

  lemma {:induction false} OrderlyKeepsCap(max: nat, s: State, acts: seq<Action>)
    requires max > 0 && Consistent(s) && |Holders(s)| <= max && IsOrderly(max, s, acts)
    ensures |Holders(After(max, s, acts))| <= max
    decreases |acts|
  {
    if acts != [] {
      StepKeepsConsistent(max, s, acts[0]);
      StepKeepsCap(max, s, acts[0]);
      OrderlyKeepsCap(max, Apply(max, s, acts[0]), acts[1..]);
    }
  }

  lemma ConsistentIsSafe(max: nat, s: State)
    requires max > 0 && Consistent(s) && |Holders(s)| <= max
    ensures CapSafe(max, s)
  {
    forall more | IsOrderly(max, s, more) ensures |Holders(After(max, s, more))| <= max {
      OrderlyKeepsCap(max, s, more);
    }
  }

  lemma Prepend(max: nat, s: State, a: Action, rest: seq<Action>)
    requires Enabled(max, s, a) && Orderly(s, a) && IsOrderly(max, Apply(max, s, a), rest)
    ensures IsOrderly(max, s, [a] + rest) && After(max, s, [a] + rest) == After(max, Apply(max, s, a), rest)
  {
    assert ([a] + rest)[1..] == rest;
  }

  ghost predicate Queued(s: State) {
    Distinct(s.lock) && forall x :: x in s.lock ==> InPhase(s, x, {Waiting, Draining})
  }

  /** A session that will boot without a reservation: it waits although it is live, or has passed its turn so. */
  ghost predicate Unreserved(s: State, sid: SessionId) {
    && sid !in s.reservations
    && (if sid in s.lock then InPhase(s, sid, {Waiting}) && sid in s.active else InPhase(s, sid, {Booting}))
  }

  /** A turn at which every live session is busy passes the lock on and evicts nothing. */
  lemma BusyTurn(max: nat, s: State, sid: SessionId)
    requires max > 0 && Queued(s) && Unreserved(s, sid) && s.lock != []
    ensures var a := Admit(s.lock[0], s.active.Keys, None);
            var t := Apply(max, s, a);
            && Enabled(max, s, a) && Orderly(s, a) && t.lock == s.lock[1..] && Queued(t) && Unreserved(t, sid)
  {
    assert s.lock[0] in s.lock;
    LockTail(s.lock);
  }

  /** Its insert comes on top of a pool full of reservations. */
  lemma BreakByInsert(max: nat, s: State, sid: SessionId) returns (acts: seq<Action>)
    requires max > 0 && Unreserved(s, sid) && s.lock == [] && s.active == map[] && |s.reservations| >= max
    ensures IsOrderly(max, s, acts) && |Holders(After(max, s, acts))| > max
  {
    var t := Apply(max, s, Insert(sid, 0));
    acts := [Insert(sid, 0)] + [];
    Prepend(max, s, Insert(sid, 0), []);
    assert Holders(t) == s.reservations + {sid};
  }

  lemma BreakByFilling(max: nat, s: State, sid: SessionId) returns (acts: seq<Action>)
    requires max > 0 && Unreserved(s, sid) && s.lock == [] && s.active == map[]
    ensures IsOrderly(max, s, acts) && |Holders(After(max, s, acts))| > max
    decreases max - |s.reservations|
  {
    if |s.reservations| >= max {
      acts := BreakByInsert(max, s, sid);
    } else {
      var c := FreshId(s.pending.Keys + s.reservations);
      var waiting := Apply(max, s, Enter(c));
      acts := BreakByFilling(max, Apply(max, waiting, Admit(c, {}, None)), sid);
      Prepend(max, waiting, Admit(c, {}, None), acts);
      Prepend(max, s, Enter(c), [Admit(c, {}, None)] + acts);
      acts := [Enter(c)] + ([Admit(c, {}, None)] + acts);
    }
  }

  lemma BreakByEvicting(max: nat, s: State, sid: SessionId) returns (acts: seq<Action>)
    requires max > 0 && Unreserved(s, sid) && s.lock == []
    ensures IsOrderly(max, s, acts) && |Holders(After(max, s, acts))| > max
    decreases |s.active|
  {
    if s.active == map[] {
      acts := BreakByFilling(max, s, sid);
    } else {
      var x :| x in s.active;
      var t := Apply(max, s, Evict(x));
      assert s.active.Keys == t.active.Keys + {x};
      acts := BreakByEvicting(max, t, sid);
      Prepend(max, s, Evict(x), acts);
      acts := [Evict(x)] + acts;
    }
  }

  /** From a state where a live session waits for its turn, an orderly continuation exceeds the cap. */
  lemma BreakByTurns(max: nat, s: State, sid: SessionId) returns (acts: seq<Action>)
    requires max > 0 && Queued(s) && Unreserved(s, sid)
    ensures IsOrderly(max, s, acts) && |Holders(After(max, s, acts))| > max
    decreases |s.lock|
  {
    if s.lock == [] {
      acts := BreakByEvicting(max, s, sid);
    } else {
      var turn := Admit(s.lock[0], s.active.Keys, None);
      BusyTurn(max, s, sid);
      acts := BreakByTurns(max, Apply(max, s, turn), sid);
      Prepend(max, s, turn, acts);
      acts := [turn] + acts;
    }
  }

  lemma EntrySafety(max: nat, s: State, sid: SessionId)
    requires max > 0 && Consistent(s) && |Holders(s)| <= max && sid !in s.pending
    ensures CapSafe(max, Apply(max, s, Enter(sid))) <==> sid !in s.active
  {
    var t := Apply(max, s, Enter(sid));
    if sid !in s.active {
      EnterKeepsConsistent(max, s, sid);
      assert Holders(t) == Holders(s);
      ConsistentIsSafe(max, t);
    } else {
      EntryUnreserved(max, s, sid);
      var more := BreakByTurns(max, t, sid);
    }
  }

  lemma EntryUnreserved(max: nat, s: State, sid: SessionId)
    requires max > 0 && Consistent(s) && sid !in s.pending && sid in s.active
    ensures Queued(Apply(max, s, Enter(sid))) && Unreserved(Apply(max, s, Enter(sid)), sid)
  {
    assert !InPhase(s, sid, {Waiting, Draining}) && !InPhase(s, sid, {Booting, Inserted});
  }

  /**
   Exactly when an entry is safe: after a disciplined run, every orderly continuation of a
   session's entry keeps the cap if and only if the session is not live when it enters.
   */
  lemma EnterIsSafeIff(max: nat, acts: seq<Action>, sid: SessionId)
    requires max > 0 && IsRun(max, acts) && Disciplined(max, acts) && sid !in Exec(max, acts).pending
    ensures CapSafe(max, Apply(max, Exec(max, acts), Enter(sid))) <==> sid !in Exec(max, acts).active
  {
    ActiveCapHolds(max, acts);
    EntrySafety(max, Exec(max, acts), sid);
  }

  lemma AdoptKeepsConsistent(max: nat, s: State, sid: SessionId, now: int)
    requires Consistent(s) && !InPhase(s, sid, {Waiting})
    ensures Consistent(Apply(max, s, Adopt(sid, now)))
  {
  }

  lemma AdoptUnreserved(max: nat, s: State, sid: SessionId, now: int)
    requires Consistent(s) && InPhase(s, sid, {Waiting})
    ensures Queued(Apply(max, s, Adopt(sid, now))) && Unreserved(Apply(max, s, Adopt(sid, now)), sid)
  {
  }

  lemma AdoptionSafety(max: nat, s: State, sid: SessionId, now: int)
    requires max > 0 && Consistent(s)
    ensures CapSafe(max, Apply(max, s, Adopt(sid, now))) <==>
      !InPhase(s, sid, {Waiting}) && |Holders(s) + {sid}| <= max
  {
    var t := Apply(max, s, Adopt(sid, now));
    assert Holders(t) == Holders(s) + {sid};
    if |Holders(t)| > max {
      assert IsOrderly(max, t, []) && After(max, t, []) == t;
    } else if InPhase(s, sid, {Waiting}) {
      AdoptUnreserved(max, s, sid, now);
      var more := BreakByTurns(max, t, sid);
    } else {
      AdoptKeepsConsistent(max, s, sid, now);
      ConsistentIsSafe(max, t);
    }
  }

  /**
   Exactly when an adoption is safe: after a disciplined run, every orderly continuation of an
   adoption keeps the cap if and only if the session is not waiting for its turn and the pool has
   room for it, or counts it already.
   */
  lemma AdoptIsSafeIff(max: nat, acts: seq<Action>, sid: SessionId, now: int)
    requires max > 0 && IsRun(max, acts) && Disciplined(max, acts)
    ensures CapSafe(max, Apply(max, Exec(max, acts), Adopt(sid, now))) <==>
      !InPhase(Exec(max, acts), sid, {Waiting}) && |Holders(Exec(max, acts)) + {sid}| <= max
  {
    ActiveCapHolds(max, acts);
    AdoptionSafety(max, Exec(max, acts), sid, now);
  }

  /** A disciplined run that ends in `s`. */
  ghost predicate Reaches(max: nat, acts: seq<Action>, s: State) {
    IsRun(max, acts) && Disciplined(max, acts) && Exec(max, acts) == s
  }

  lemma Take(max: nat, acts: seq<Action>, s: State, a: Action, t: State) returns (longer: seq<Action>)
    requires Reaches(max, acts, s) && Enabled(max, s, a) && Orderly(s, a) && Apply(max, s, a) == t
    ensures Reaches(max, longer, t)
  {
    longer := acts + [a];
    assert longer[..|longer|-1] == acts;
    assert forall i :: 0 <= i < |acts| ==> longer[..i] == acts[..i];
  }

  lemma OneBooting(max: nat, a: SessionId) returns (acts: seq<Action>)
    requires max > 0
    ensures Reaches(max, acts, State(map[], {a}, map[a := Booting], []))
  {
    assert Reaches(max, [], Empty);
    var waiting := State(map[], {}, map[a := Waiting], [a]);
    assert Occupied(waiting, a) == 0;
    acts := Take(max, [], Empty, Enter(a), waiting);
    acts := Take(max, acts, waiting, Admit(a, {}, None), State(map[], {a}, map[a := Booting], []));
  }

  lemma OneLiveSession(max: nat, a: SessionId) returns (acts: seq<Action>)
    requires max > 0
    ensures Reaches(max, acts, State(map[a := 0], {}, map[], []))
  {
    var inserted, settling := State(map[a := 0], {a}, map[a := Inserted], []), State(map[a := 0], {}, map[a := Settling], []);
    acts := OneBooting(max, a);
    acts := Take(max, acts, State(map[], {a}, map[a := Booting], []), Insert(a, 0), inserted);
    acts := Take(max, acts, inserted, Release(a), settling);
    acts := Take(max, acts, settling, Settle(a), State(map[a := 0], {}, map[], []));
  }

  /**
   The discipline is needed under every cap: a session that enters on a stale look at its own
   live entry is let through without a reservation, and a continuation exceeds the cap.
   */
  lemma StaleEntryBreaksCap(max: nat, sid: SessionId) returns (acts: seq<Action>, more: seq<Action>)
    requires max > 0
    ensures IsRun(max, acts) && Disciplined(max, acts) && Enabled(max, Exec(max, acts), Enter(sid))
    ensures var s := Apply(max, Exec(max, acts), Enter(sid));
            IsOrderly(max, s, more) && |Holders(After(max, s, more))| > max
  {
    acts := OneLiveSession(max, sid);
    more := BreakByTurns(max, Apply(max, State(map[sid := 0], {}, map[], []), Enter(sid)), sid);
  }

  // What `reserveActiveSlot` does with its turn at the lock.
  datatype Outcome = Admitted | Evicted(victim: SessionId) | CapacityError

  /** The active side of the pool object; each method is the code between two awaits. */
  class SessionContainerPool {
    const maxActive: nat
    var active: map<SessionId, int>
    var reservations: set<SessionId>
    var pending: map<SessionId, Phase>
    var lock: seq<SessionId>

    ghost function View(): State reads this { State(active, reservations, pending, lock) }

    constructor (maxActive: nat)
      ensures this.maxActive == maxActive && View() == Empty
    {
      this.maxActive := maxActive;
      active, reservations, pending, lock := map[], {}, map[], [];
    }

    /** A second acquire of a pending session joins the first one's promise. */
    method EnterAcquire(sid: SessionId) returns (entered: bool)
      modifies this
      ensures entered == Enabled(maxActive, old(View()), Enter(sid))
      ensures View() == if entered then Apply(maxActive, old(View()), Enter(sid)) else old(View())
      ensures entered <==> sid !in old(pending)
      ensures entered && maxActive > 0 ==> lock == old(lock) + [sid]
      ensures reservations == old(reservations) && active == old(active)
    {
      if sid in pending {
        return false;
      }
      if maxActive == 0 {
        pending := pending[sid := Booting];
      } else {
        pending := pending[sid := Waiting];
        lock := lock + [sid];
      }
      entered := true;
    }

    method CountWithReservations(requester: SessionId) returns (n: nat)
      ensures n == Occupied(View(), requester)
    {
      var reserved := 0;
      var rest := reservations;
      while rest != {}
        invariant reserved + |rest - {requester}| == |reservations - {requester}|
        decreases |rest|
      {
        var sid :| sid in rest;
        if sid != requester {
          reserved := reserved + 1;
        }
        rest := rest - {sid};
      }
      n := |active| + reserved;
    }

    /** The oldest of the sessions that are not busy, if there is one besides the requester. */
    method PickCapacityVictim(requester: SessionId, busy: set<SessionId>) returns (oldest: Option<SessionId>)
      ensures oldest.None? ==> forall w :: !Idle(View(), busy, requester, w)
      ensures oldest.Some? ==> LeastRecentlyUsed(View(), busy, requester, oldest.value)
    {
      oldest := FindOldest(active, busy + {requester});
    }

    /**
     One pass of the admission loop, for the session at the head of the lock. An eviction
     removes the least recently used idle session; the error means no other live session
     is idle and the cap is reached.
     */
    method AdmitTurn(sid: SessionId, busy: set<SessionId>) returns (outcome: Outcome)
      requires |lock| > 0 && lock[0] == sid && sid in pending && pending[sid] in {Waiting, Draining}
      modifies this
      ensures var a := Admit(sid, busy, if outcome.Evicted? then Some(outcome.victim) else None);
              Enabled(maxActive, old(View()), a) && View() == Apply(maxActive, old(View()), a)
      ensures outcome.Evicted? ==> LeastRecentlyUsed(old(View()), busy, sid, outcome.victim)
      ensures outcome.Admitted? <==> AlreadyHolds(old(View()), sid) || Occupied(old(View()), sid) < maxActive
      ensures outcome.Admitted? && !AlreadyHolds(old(View()), sid) ==> sid in reservations
      ensures !outcome.Evicted? ==> lock == old(lock)[1..] && active == old(active)
      ensures outcome.CapacityError? ==>
        Occupied(old(View()), sid) >= maxActive && forall w :: w in old(active) && w != sid ==> w in busy
    {
      if pending[sid] == Waiting && (sid in reservations || sid in active) {
        pending := pending[sid := Booting];
        lock := lock[1..];
        return Admitted;
      }
      var n := CountWithReservations(sid);
      if n >= maxActive {
        var victim := PickCapacityVictim(sid, busy);
        if victim.None? {
          assert forall w :: w in active && w != sid && w !in busy ==> Idle(View(), busy, sid, w);
          pending := pending[sid := Settling];
          lock := lock[1..];
          return CapacityError;
        }
        active := active - {victim.value};
        pending := pending[sid := Draining];
        return Evicted(victim.value);
      }
      reservations := reservations + {sid};
      pending := pending[sid := Booting];
      lock := lock[1..];
      outcome := Admitted;
    }

    method InsertLive(sid: SessionId, now: int)
      requires sid in pending && pending[sid] == Booting
      modifies this
      ensures View() == Apply(maxActive, old(View()), Insert(sid, now))
      ensures active == old(active)[sid := now] && reservations == old(reservations)
    {
      active := active[sid := now];
      pending := pending[sid := Inserted];
    }

    method ReleaseReservation(sid: SessionId)
      requires sid in pending && pending[sid] in {Booting, Inserted}
      modifies this
      ensures View() == Apply(maxActive, old(View()), Release(sid))
      ensures reservations == old(reservations) - {sid} && active == old(active)
    {
      reservations := reservations - {sid};
      pending := pending[sid := Settling];
    }

    method EvictSession(sid: SessionId)
      modifies this
      ensures View() == Apply(maxActive, old(View()), Evict(sid))
      ensures active == old(active) - {sid} && reservations == old(reservations)
    {
      if sid in active {
        active := active - {sid};
      }
    }
  }
}
