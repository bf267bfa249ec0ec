/**
 The warm side of the session container pool: speculative boots, their reservations and
 the warm entries they leave behind, cut at the awaits of `warmForAgent` and
 `doWarmForAgent`. Requests queue on the warm admission lock in the order they are made.

 A reservation is stored as a signature only; `holder` remembers which boot made it. It is
 history: no step reads it.
 */
module WarmAdmission {
  import opened Prelude

  type AgentId = string
  type Signature = string

  datatype Warm = Warm(sig: Signature, spawnedAt: int)
  datatype Ask = Ask(agent: AgentId, sig: Signature)

  datatype Phase =
    | Admitted   // holds a reservation, reaps what it displaced
    | Spawning   // spawn, readiness probe and handshake
    | Landed     // its entry went into the warm map
    | Missed     // failed, or found its signature no longer wanted
    | Released   // past the release of its reservation

  datatype Boot = Boot(agent: AgentId, sig: Signature, phase: Phase)

  datatype State = State(
    warm: map<AgentId, Warm>,
    reserved: map<AgentId, Signature>,
    desired: map<AgentId, Signature>,
    inflight: map<AgentId, Signature>,   // pendingByAgent
    asks: seq<Ask>,                      // requests queued on the lock
    boots: map<nat, Boot>,
    next: nat,
    holder: map<AgentId, nat>
  )

  const Empty := State(map[], map[], map[], map[], [], map[], 0, map[])

  datatype Action =
    | Want(agent: AgentId, sig: Signature)
    | Reserve(victim: Option<AgentId>)
    | Start(boot: nat)
    | Land(boot: nat, now: int)
    | Fail(boot: nat)
    | Release(boot: nat)
    | Finish(boot: nat)
    | Drop(agent: AgentId)
    | Take(agent: AgentId)     // a claim, or a reap

  predicate HasWarm(s: State, a: AgentId, sig: Signature) {
    a in s.warm && s.warm[a].sig == sig
  }

  predicate Wanted(s: State, a: AgentId, sig: Signature) {
    a in s.desired && s.desired[a] == sig
  }

  /** The head of the lock has nothing to do: the entry or the reservation exists. */
  predicate Covered(s: State, ask: Ask) {
    HasWarm(s, ask.agent, ask.sig) || (ask.agent in s.reserved && s.reserved[ask.agent] == ask.sig)
  }

  ghost predicate OldestWarm(warm: map<AgentId, Warm>, v: AgentId) {
    v in warm && forall w :: w in warm ==> warm[v].spawnedAt <= warm[w].spawnedAt
  }

  function Occupied(s: State, ask: Ask): nat {
    |s.warm - {ask.agent}| + |s.reserved|
  }

  predicate InPhase(s: State, b: nat, phases: set<Phase>) {
    b in s.boots && s.boots[b].phase in phases
  }

  ghost predicate Enabled(max: nat, s: State, act: Action) {
    match act
    case Want(_, _) => true
    case Reserve(victim) =>
      && |s.asks| > 0
      && (match victim
          case Some(v) =>
            && !Covered(s, s.asks[0]) && Occupied(s, s.asks[0]) >= max
            && OldestWarm(s.warm - {s.asks[0].agent}, v)
          case None =>
            Covered(s, s.asks[0]) || Occupied(s, s.asks[0]) < max || s.warm - {s.asks[0].agent} == map[])
    case Start(b) => InPhase(s, b, {Admitted})
    case Land(b, _) => InPhase(s, b, {Spawning})
    case Fail(b) => InPhase(s, b, {Spawning})
    case Release(b) => InPhase(s, b, {Landed, Missed})
    case Finish(b) => InPhase(s, b, {Released})
    case Drop(_) => true
    case Take(_) => true
  }

  function SetPhase(s: State, b: nat, p: Phase): State
    requires b in s.boots
  {
    s.(boots := s.boots[b := s.boots[b].(phase := p)])
  }

  /** A reservation for the head of the lock, and the boot that goes with it. */
  function Book(s: State, ask: Ask): State {
    s.(reserved := s.reserved[ask.agent := ask.sig],
       holder := s.holder[ask.agent := s.next],
       boots := s.boots[s.next := Boot(ask.agent, ask.sig, Admitted)],
       next := s.next + 1)
  }

  /** The head of the lock gets a reservation: a slot is free, or a victim makes room. */
  predicate Books(max: nat, s: State, victim: Option<AgentId>) {
    s.asks != [] && !Covered(s, s.asks[0]) && (Occupied(s, s.asks[0]) < max || victim.Some?)
  }

  /** What the head's turn leaves warm: its stale entry goes, then the victim if every slot is taken. */
  function Spared(max: nat, s: State, victim: Option<AgentId>): map<AgentId, Warm>
    requires |s.asks| > 0
  {
    if Covered(s, s.asks[0]) then s.warm
    else if victim.None? || Occupied(s, s.asks[0]) < max then s.warm - {s.asks[0].agent}
    else s.warm - {s.asks[0].agent} - {victim.value}
  }

  function DoReserve(max: nat, s: State, victim: Option<AgentId>): State
    requires |s.asks| > 0
  {
    var t := s.(asks := s.asks[1..], warm := Spared(max, s, victim));
    if Books(max, s, victim) then Book(t, s.asks[0]) else t
  }

  predicate Lands(s: State, b: nat)
    requires b in s.boots
  {
    Wanted(s, s.boots[b].agent, s.boots[b].sig) && !HasWarm(s, s.boots[b].agent, s.boots[b].sig)
  }

  function DoWant(s: State, a: AgentId, sig: Signature): State {
    if HasWarm(s, a, sig) then s
    else s.(desired := s.desired[a := sig],
            asks := if a in s.inflight && s.inflight[a] == sig then s.asks else s.asks + [Ask(a, sig)])
  }

  function DoStart(s: State, b: nat): State
    requires b in s.boots
  {
    var boot := s.boots[b];
    SetPhase(s.(inflight := s.inflight[boot.agent := boot.sig]), b,
             if Wanted(s, boot.agent, boot.sig) then Spawning else Missed)
  }

  function DoLand(s: State, b: nat, now: int): State
    requires b in s.boots
  {
    if Lands(s, b) then SetPhase(s.(warm := s.warm[s.boots[b].agent := Warm(s.boots[b].sig, now)]), b, Landed)
    else SetPhase(s, b, Missed)
  }

  function DoRelease(s: State, b: nat): State
    requires b in s.boots
  {
    var boot := s.boots[b];
    if boot.agent in s.reserved && s.reserved[boot.agent] == boot.sig then
      SetPhase(s.(reserved := s.reserved - {boot.agent}, holder := s.holder - {boot.agent}), b, Released)
    else SetPhase(s, b, Released)
  }

  function DoFinish(s: State, b: nat): State
    requires b in s.boots
  {
    var boot := s.boots[b];
    s.(boots := s.boots - {b},
       inflight := if boot.agent in s.inflight && s.inflight[boot.agent] == boot.sig
                   then s.inflight - {boot.agent} else s.inflight)
  }

  function Apply(max: nat, s: State, act: Action): State {
    match act
    case Want(a, sig) => DoWant(s, a, sig)
    case Reserve(victim) => if s.asks == [] then s else DoReserve(max, s, victim)
    case Start(b) => if b in s.boots then DoStart(s, b) else s
    case Land(b, now) => if b in s.boots then DoLand(s, b, now) else s
    case Fail(b) => if b in s.boots then SetPhase(s, b, Missed) else s
    case Release(b) => if b in s.boots then DoRelease(s, b) else s
    case Finish(b) => if b in s.boots then DoFinish(s, b) else s
    case Drop(a) => s.(desired := s.desired - {a}, warm := s.warm - {a})
    case Take(a) => s.(warm := s.warm - {a})
  }

  // ---- Reservations and slots ----

  type Boots = map<nat, Boot>
  type Signatures = map<AgentId, Signature>

  predicate InFlight(boots: Boots, b: nat, ask: Ask) {
    b in boots && boots[b].agent == ask.agent && boots[b].sig == ask.sig && boots[b].phase != Released
  }

  /** The map has the request's signature for its agent. */
  predicate Gives(signatures: Signatures, ask: Ask) {
    ask.agent in signatures && signatures[ask.agent] == ask.sig
  }

  /** Every reservation was made by a boot in flight that has its signature. */
  ghost predicate HoldersFit(boots: Boots, next: nat, reserved: Signatures, holder: map<AgentId, nat>) {
    && (forall b :: b in boots ==> b < next)
    && (forall a :: a in reserved <==> a in holder)
    && (forall a :: a in holder ==> InFlight(boots, holder[a], Ask(a, reserved[a])))
  }

  predicate Pending(boots: Boots, b: nat) {
    b in boots && boots[b].phase in {Admitted, Spawning, Missed}
  }

  /** The agents whose reservation has not turned into a warm entry. */
  function Unlanded(boots: Boots, holder: map<AgentId, nat>): set<AgentId> {
    set a | a in holder && Pending(boots, holder[a])
  }

  function SlotsUsed(s: State): nat {
    |s.warm| + |Unlanded(s.boots, s.holder)|
  }

  /** The agent's reservation is the boot's. */
  predicate Holds(s: State, a: AgentId, b: nat) {
    a in s.holder && s.holder[a] == b
  }

  lemma BookKeepsFit(boots: Boots, next: nat, reserved: Signatures, holder: map<AgentId, nat>, ask: Ask)
    requires HoldersFit(boots, next, reserved, holder)
    ensures HoldersFit(boots[next := Boot(ask.agent, ask.sig, Admitted)], next + 1,
                       reserved[ask.agent := ask.sig], holder[ask.agent := next])
  {
  }

  lemma ReleaseKeepsFit(boots: Boots, next: nat, reserved: Signatures, holder: map<AgentId, nat>, b: nat)
    requires HoldersFit(boots, next, reserved, holder) && b in boots
    ensures var a, boots' := boots[b].agent, boots[b := boots[b].(phase := Released)];
            if a in reserved && reserved[a] == boots[b].sig then HoldersFit(boots', next, reserved - {a}, holder - {a})
            else boots[b].phase != Released ==> HoldersFit(boots', next, reserved, holder)
  {
  }

  lemma MapSize<K, V>(m: map<K, V>)
    ensures |m| == |m.Keys|
  {
  }

  /** Fewer warm entries, fewer reservations or boots further on use no more slots. */
  lemma SlotsShrink(s: State, t: State)
    requires forall a :: a in t.warm ==> a in s.warm
    requires forall a :: a in t.holder && Pending(t.boots, t.holder[a]) ==>
      a in s.holder && t.holder[a] == s.holder[a] && Pending(s.boots, s.holder[a])
    ensures SlotsUsed(t) <= SlotsUsed(s)
  {
    MapSize(s.warm);
    MapSize(t.warm);
    SubsetSize(t.warm.Keys, s.warm.Keys);
    SubsetSize(Unlanded(t.boots, t.holder), Unlanded(s.boots, s.holder));
  }

  /** A booking in a pool with room, counting every reservation as a slot. */
  lemma BookWithRoom(max: nat, s: State, ask: Ask)
    requires forall a :: a in s.holder ==> a in s.reserved
    requires |s.warm| + |s.reserved| < max
    ensures SlotsUsed(Book(s, ask)) <= max
  {
    var t := Book(s, ask);
    MapSize(s.reserved);
    SubsetSize(Unlanded(t.boots, t.holder), s.reserved.Keys + {ask.agent});
  }

  /** A booking in the place of a warm entry just removed. */
  lemma BookInPlace(s: State, warm: map<AgentId, Warm>, v: AgentId, ask: Ask)
    requires forall b :: b in s.boots ==> b < s.next
    requires forall a :: a in s.holder ==> s.holder[a] in s.boots
    requires warm.Keys <= s.warm.Keys && v in s.warm && v !in warm
    ensures SlotsUsed(Book(s.(warm := warm), ask)) <= SlotsUsed(s)
  {
    var t := Book(s.(warm := warm), ask);
    MapSize(s.warm);
    MapSize(warm);
    SubsetSize(warm.Keys + {v}, s.warm.Keys);
    SubsetSize(Unlanded(t.boots, t.holder), Unlanded(s.boots, s.holder) + {ask.agent});
  }

  lemma ReserveKeepsSlots(max: nat, s: State, victim: Option<AgentId>)
    requires HoldersFit(s.boots, s.next, s.reserved, s.holder)
    requires Enabled(max, s, Reserve(victim)) && SlotsUsed(s) <= max
    ensures SlotsUsed(DoReserve(max, s, victim)) <= max
  {
    var ask, popped := s.asks[0], s.(asks := s.asks[1..]);
    if !Books(max, s, victim) {
      SlotsShrink(s, popped.(warm := Spared(max, s, victim)));
    } else if Occupied(s, ask) < max {
      BookWithRoom(max, popped.(warm := s.warm - {ask.agent}), ask);
    } else {
      BookInPlace(popped, Spared(max, s, victim), victim.value, ask);
    }
  }

  lemma LandedLeavesUnlanded(boots: Boots, holder: map<AgentId, nat>, a: AgentId, boot: Boot)
    requires a in holder && Pending(boots, holder[a]) && boot.phase == Landed
    ensures |Unlanded(boots[holder[a] := boot], holder)| < |Unlanded(boots, holder)|
  {
    var before, after := Unlanded(boots, holder), Unlanded(boots[holder[a] := boot], holder);
    assert a in before && a !in after;
    SubsetSize(after + {a}, before);
  }

  lemma LandKeepsSlots(s: State, b: nat, now: int)
    requires InPhase(s, b, {Spawning}) && (Lands(s, b) ==> Holds(s, s.boots[b].agent, b))
    ensures SlotsUsed(DoLand(s, b, now)) <= SlotsUsed(s)
  {
    if Lands(s, b) {
      LandedLeavesUnlanded(s.boots, s.holder, s.boots[b].agent, s.boots[b].(phase := Landed));
    } else {
      SlotsShrink(s, DoLand(s, b, now));
    }
  }

  lemma PhaseKeepsSlots(s: State, t: State, b: nat, p: Phase)
    requires b in s.boots && (p in {Admitted, Spawning, Missed} ==> Pending(s.boots, b))
    requires t.warm == s.warm && t.boots == s.boots[b := s.boots[b].(phase := p)]
    requires forall a :: a in t.holder ==> a in s.holder && t.holder[a] == s.holder[a]
    ensures SlotsUsed(t) <= SlotsUsed(s)
  {
    SlotsShrink(s, t);
  }

  lemma StartKeepsSlots(s: State, b: nat)
    requires InPhase(s, b, {Admitted})
    ensures SlotsUsed(DoStart(s, b)) <= SlotsUsed(s)
  {
    PhaseKeepsSlots(s, DoStart(s, b), b, DoStart(s, b).boots[b].phase);
  }

  lemma ReleasedUnlanded(boots: Boots, holder: map<AgentId, nat>, holder': map<AgentId, nat>, b: nat)
    requires b in boots
    requires forall a :: a in holder' ==> a in holder && holder'[a] == holder[a]
    ensures |Unlanded(boots[b := boots[b].(phase := Released)], holder')| <= |Unlanded(boots, holder)|
  {
    SubsetSize(Unlanded(boots[b := boots[b].(phase := Released)], holder'), Unlanded(boots, holder));
  }

  lemma ReleaseKeepsSlots(s: State, b: nat)
    requires InPhase(s, b, {Landed, Missed})
    ensures SlotsUsed(DoRelease(s, b)) <= SlotsUsed(s)
  {
    ReleasedUnlanded(s.boots, s.holder, s.holder - {s.boots[b].agent}, b);
    ReleasedUnlanded(s.boots, s.holder, s.holder, b);
  }

  lemma FinishKeepsSlots(s: State, b: nat)
    requires b in s.boots
    ensures SlotsUsed(DoFinish(s, b)) <= SlotsUsed(s)
  {
    var t := DoFinish(s, b);
    assert forall x :: Pending(t.boots, x) ==> Pending(s.boots, x);
    SlotsShrink(s, t);
  }

  lemma BootStepKeepsSlots(max: nat, s: State, act: Action)
    requires Enabled(max, s, act) && (act.Start? || act.Fail? || act.Release? || act.Finish?)
    ensures SlotsUsed(Apply(max, s, act)) <= SlotsUsed(s)
  {
    match act {
      case Start(b) => StartKeepsSlots(s, b);
      case Fail(b) => PhaseKeepsSlots(s, SetPhase(s, b, Missed), b, Missed);
      case Release(b) => ReleaseKeepsSlots(s, b);
      case Finish(b) => FinishKeepsSlots(s, b);
    }
  }

  lemma DropKeepsSlots(s: State, a: AgentId, desired: Signatures)
    ensures SlotsUsed(s.(desired := desired, warm := s.warm - {a})) <= SlotsUsed(s)
  {
  }

  lemma StepKeepsSlots(max: nat, s: State, act: Action)
    requires HoldersFit(s.boots, s.next, s.reserved, s.holder)
    requires Enabled(max, s, act) && SlotsUsed(s) <= max
    requires act.Land? && Lands(s, act.boot) ==> Holds(s, s.boots[act.boot].agent, act.boot)
    ensures SlotsUsed(Apply(max, s, act)) <= max
  {
    match act {
      case Reserve(victim) => ReserveKeepsSlots(max, s, victim);
      case Land(b, now) => LandKeepsSlots(s, b, now);
      case Want(a, sig) =>
      case Drop(a) => DropKeepsSlots(s, a, s.desired - {a});
      case Take(a) => DropKeepsSlots(s, a, s.desired);
      case _ => BootStepKeepsSlots(max, s, act);
    }
  }

  /** The warm side of the pool object; each method is the code between two awaits. */
  class WarmPool {
    const maxWarm: nat
    var warm: map<AgentId, Warm>
    var reserved: map<AgentId, Signature>
    var desired: map<AgentId, Signature>
    var inflight: map<AgentId, Signature>
    var asks: seq<Ask>
    var boots: map<nat, Boot>
    var next: nat
    ghost var holder: map<AgentId, nat>

    ghost function View(): State reads this {
      State(warm, reserved, desired, inflight, asks, boots, next, holder)
    }

    constructor (maxWarm: nat)
      ensures this.maxWarm == maxWarm && View() == Empty
    {
      this.maxWarm := maxWarm;
      warm, reserved, desired, inflight, asks, boots, next := map[], map[], map[], map[], [], map[], 0;
      holder := map[];
    }

    /** A disabled pool does nothing; otherwise the request joins the lock unless it is already served. */
    method WarmForAgent(a: AgentId, sig: Signature)
      modifies this
      ensures View() == if maxWarm == 0 then old(View()) else Apply(maxWarm, old(View()), Want(a, sig))
      ensures maxWarm == 0 || (a in old(warm) && old(warm)[a].sig == sig) ==> View() == old(View())
      ensures maxWarm > 0 && !(a in old(warm) && old(warm)[a].sig == sig) ==>
        && a in desired && desired[a] == sig
        && (a in inflight && inflight[a] == sig ==> asks == old(asks))
        && (!(a in inflight && inflight[a] == sig) ==> asks == old(asks) + [Ask(a, sig)])
    {
      if maxWarm == 0 {
        return;
      }
      if a in warm && warm[a].sig == sig {
        return;
      }
      desired := desired[a := sig];
      if a in inflight && inflight[a] == sig {
        return;
      }
      asks := asks + [Ask(a, sig)];
    }

    method FindOldestWarm() returns (oldest: Option<AgentId>)
      ensures oldest.None? ==> warm == map[]
      ensures oldest.Some? ==> OldestWarm(warm, oldest.value)
    {
      var stamps := map a | a in warm :: warm[a].spawnedAt;
      oldest := FindOldest(stamps, {});
      assert forall w :: w in warm ==> w in stamps && w !in {};
    }

    method BookSlot(ask: Ask)
      modifies this
      ensures View() == Book(old(View()), ask)
    {
      reserved := reserved[ask.agent := ask.sig];
      holder := holder[ask.agent := next];
      boots := boots[next := Boot(ask.agent, ask.sig, Admitted)];
      next := next + 1;
    }

    /** The head of the lock: a stale entry goes, then the oldest one if every slot is taken. */
    method ReserveTurn() returns (victim: Option<AgentId>, shouldSpawn: bool)
      requires |asks| > 0
      modifies this
      ensures Enabled(maxWarm, old(View()), Reserve(victim))
      ensures View() == DoReserve(maxWarm, old(View()), victim)
      ensures shouldSpawn == (next == old(next) + 1)
      ensures asks == old(asks)[1..] && var ask := old(asks)[0];
        && (shouldSpawn ==> ask.agent in reserved && reserved[ask.agent] == ask.sig && ask.agent !in warm)
        && (!shouldSpawn ==> reserved == old(reserved))
        && (!shouldSpawn && !Covered(old(View()), ask) ==> warm == map[] && |reserved| >= maxWarm)
    {
      var ask := asks[0];
      asks := asks[1..];
      if (ask.agent in warm && warm[ask.agent].sig == ask.sig) || (ask.agent in reserved && reserved[ask.agent] == ask.sig) {
        return None, false;
      }
      warm := warm - {ask.agent};
      if |warm| + |reserved| < maxWarm {
        BookSlot(ask);
        return None, true;
      }
      victim := FindOldestWarm();
      if victim.None? {
        return None, false;
      }
      warm := warm - {victim.value};
      BookSlot(ask);
      shouldSpawn := true;
    }

    method StartBoot(b: nat)
      requires b in boots && boots[b].phase == Admitted
      modifies this
      ensures View() == Apply(maxWarm, old(View()), Start(b))
      ensures var boot := old(boots)[b];
              && b in boots && boots[b].agent == boot.agent && boots[b].sig == boot.sig
              && (boots[b].phase == if Gives(old(desired), Ask(boot.agent, boot.sig)) then Spawning else Missed)
              && Gives(inflight, Ask(boot.agent, boot.sig))
    {
      var boot := boots[b];
      inflight := inflight[boot.agent := boot.sig];
      if boot.agent in desired && desired[boot.agent] == boot.sig {
        boots := boots[b := boot.(phase := Spawning)];
      } else {
        boots := boots[b := boot.(phase := Missed)];
      }
    }

    /** The insert under the lock: only if still wanted and not already there. */
    method LandBoot(b: nat, now: int) returns (inserted: bool)
      requires b in boots && boots[b].phase == Spawning
      modifies this
      ensures inserted == Lands(old(View()), b)
      ensures View() == Apply(maxWarm, old(View()), Land(b, now))
      ensures var boot := old(boots)[b];
              var has := boot.agent in old(warm) && old(warm)[boot.agent].sig == boot.sig;
              && (inserted <==> Gives(old(desired), Ask(boot.agent, boot.sig)) && !has)
              && warm == if inserted then old(warm)[boot.agent := Warm(boot.sig, now)] else old(warm)
    {
      var boot := boots[b];
      if !(boot.agent in desired && desired[boot.agent] == boot.sig) || (boot.agent in warm && warm[boot.agent].sig == boot.sig) {
        boots := boots[b := boot.(phase := Missed)];
        return false;
      }
      warm := warm[boot.agent := Warm(boot.sig, now)];
      boots := boots[b := boot.(phase := Landed)];
      inserted := true;
    }

    method ReleaseReservation(b: nat)
      requires b in boots && boots[b].phase in {Landed, Missed}
      modifies this
      ensures View() == Apply(maxWarm, old(View()), Release(b))
      ensures !Gives(reserved, Ask(old(boots)[b].agent, old(boots)[b].sig))
      ensures forall a :: a in old(reserved) && a != old(boots)[b].agent ==> a in reserved && reserved[a] == old(reserved)[a]
    {
      var boot := boots[b];
      if boot.agent in reserved && reserved[boot.agent] == boot.sig {
        reserved := reserved - {boot.agent};
        holder := holder - {boot.agent};
      }
      boots := boots[b := boot.(phase := Released)];
    }

    method DropWarmForAgent(a: AgentId)
      modifies this
      ensures View() == Apply(maxWarm, old(View()), Drop(a))
      ensures a !in desired && a !in warm && reserved == old(reserved) && boots == old(boots) && asks == old(asks)
    {
      desired := desired - {a};
      if a in warm {
        warm := warm - {a};
      }
    }

    method TakeWarm(a: AgentId) returns (entry: Option<Warm>)
      modifies this
      ensures entry == if a in old(warm) then Some(old(warm)[a]) else None
      ensures View() == Apply(maxWarm, old(View()), Take(a))
    {
      entry := None;
      if a in warm {
        entry := Some(warm[a]);
        warm := warm - {a};
      }
    }
  }
}
