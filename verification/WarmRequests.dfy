/**
 Exactly which requests keep the warm cap safe: a check on the boots of the signature asked for
 and on the requests waiting for its agent, made before the request. No step between requests can
 exceed the cap as long as every request passes it.
 */
module WarmRequests {
  import opened Prelude
  import opened WarmAdmission
  import opened WarmSafety

  type Holders = map<AgentId, nat>

  predicate Held(holder: Holders, a: AgentId, b: nat) {
    a in holder && holder[a] == b
  }

  /** The boot landed, failed or gave up, and has its release ahead. */
  predicate Ended(boots: Boots, b: nat, x: Ask) {
    b in boots && boots[b].agent == x.agent && boots[b].sig == x.sig && boots[b].phase in {Landed, Missed}
  }

  // What must hold of the desired signature `x` of an agent.

  /** Boots that may still land have the agent's reservation. */
  ghost predicate LandersHold(boots: Boots, holder: Holders, x: Ask) {
    forall b :: Underway(boots, b, x) ==> Held(holder, x.agent, b)
  }

  ghost predicate NoneUnderway(boots: Boots, x: Ask) {
    forall b :: !Underway(boots, b, x)
  }

  /** An ended boot that lost the reservation is the last of its signature. */
  ghost predicate LosersAreLast(boots: Boots, holder: Holders, asks: seq<Ask>, x: Ask) {
    forall b :: Ended(boots, b, x) && !Held(holder, x.agent, b) ==> x !in asks && NoneUnderway(boots, x)
  }

  /** While a boot may still land no other signature is waited for. */
  ghost predicate LandersUnrivalled(boots: Boots, asks: seq<Ask>, x: Ask) {
    forall b, z :: Underway(boots, b, x) && z in asks && z.agent == x.agent ==> z == x
  }

  /** No other signature waits behind it. */
  ghost predicate NoneBehind(asks: seq<Ask>, x: Ask) {
    forall i, j :: 0 <= i < j < |asks| && asks[i] == x && asks[j].agent == x.agent ==> asks[j] == x
  }

  /** While a boot has its release ahead, it does not wait behind another signature. */
  ghost predicate NoneAhead(boots: Boots, asks: seq<Ask>, x: Ask) {
    forall b, i, j :: Ended(boots, b, x) && 0 <= i < j < |asks| && asks[j] == x && asks[i].agent == x.agent ==> asks[i] == x
  }

  ghost predicate Steady(boots: Boots, holder: Holders, asks: seq<Ask>, x: Ask) {
    && LandersHold(boots, holder, x) && LosersAreLast(boots, holder, asks, x)
    && LandersUnrivalled(boots, asks, x) && NoneBehind(asks, x) && NoneAhead(boots, asks, x)
  }

  /** Checked before a request: what it asks for is warm, or is steady once it waits. */
  ghost predicate Fine(s: State, a: AgentId, sig: Signature) {
    HasWarm(s, a, sig) || Steady(s.boots, s.holder, DoWant(s, a, sig).asks, Ask(a, sig))
  }

  ghost predicate AllSteady(s: State) {
    forall x :: Gives(s.desired, x) ==> Steady(s.boots, s.holder, s.asks, x)
  }

  /** The actions are enabled one after the other, and every request is fine when it is made. */
  ghost predicate IsFine(max: nat, s: State, acts: seq<Action>)
    decreases |acts|
  {
    acts == []
    || (&& Enabled(max, s, acts[0]) && (acts[0].Want? ==> Fine(s, acts[0].agent, acts[0].sig))
        && IsFine(max, Apply(max, s, acts[0]), acts[1..]))
  }

  /** Every continuation of fine requests keeps the cap. */
  ghost predicate StaysWithin(max: nat, s: State) {
    forall more :: IsFine(max, s, more) ==> SlotsUsed(After(max, s, more)) <= max
  }

  // ---- What every step keeps ----

  lemma FewerStaySteady(boots: Boots, boots': Boots, holder: Holders, holder': Holders, asks: seq<Ask>, x: Ask)
    requires Steady(boots, holder, asks, x)
    requires forall b :: Underway(boots', b, x) ==> Underway(boots, b, x)
    requires forall b :: Ended(boots', b, x) ==> Ended(boots, b, x)
    requires forall b :: Underway(boots', b, x) || Ended(boots', b, x) ==> Held(holder', x.agent, b) == Held(holder, x.agent, b)
    ensures Steady(boots', holder', asks, x)
  {
  }

  lemma EndStaysSteady(boots: Boots, holder: Holders, asks: seq<Ask>, x: Ask, b: nat, p: Phase)
    requires Steady(boots, holder, asks, x) && Underway(boots, b, x) && p in {Landed, Missed}
    ensures Steady(boots[b := boots[b].(phase := p)], holder, asks, x)
  {
  }

  lemma PopStaysSteady(boots: Boots, holder: Holders, asks: seq<Ask>, x: Ask)
    requires Steady(boots, holder, asks, x) && asks != []
    ensures Steady(boots, holder, asks[1..], x)
  {
  }

  lemma AppendStaysSteady(boots: Boots, holder: Holders, asks: seq<Ask>, x: Ask, z: Ask)
    requires Steady(boots, holder, asks, x) && z.agent != x.agent
    ensures Steady(boots, holder, asks + [z], x)
  {
  }

  /** The signature itself is booked: it has no boot yet, or its only boots are long released. */
  lemma BookStaysSteady(boots: Boots, holder: Holders, asks: seq<Ask>, x: Ask, next: nat)
    requires Steady(boots, holder, asks, x) && asks != [] && asks[0] == x && next !in boots
    requires forall b :: Held(holder, x.agent, b) ==> !Underway(boots, b, x) && !Ended(boots, b, x)
    ensures Steady(boots[next := Boot(x.agent, x.sig, Admitted)], holder[x.agent := next], asks[1..], x)
  {
    var boots' := boots[next := Boot(x.agent, x.sig, Admitted)];
    PopStaysSteady(boots, holder, asks, x);
    assert asks[0] in asks;
    assert forall q :: !Underway(boots, q, x);
    assert forall q :: !Ended(boots, q, x);
    assert forall q :: Underway(boots', q, x) ==> q == next || Underway(boots, q, x);
    assert forall q :: Ended(boots', q, x) ==> Ended(boots, q, x);
    assert forall z :: z in asks[1..] && z.agent == x.agent ==> z == x;
  }

  /** Another signature of the agent is booked. */
  lemma RivalStaysSteady(boots: Boots, holder: Holders, asks: seq<Ask>, x: Ask, next: nat)
    requires Steady(boots, holder, asks, x) && asks != [] && asks[0].agent == x.agent && asks[0] != x && next !in boots
    ensures Steady(boots[next := Boot(asks[0].agent, asks[0].sig, Admitted)], holder[x.agent := next], asks[1..], x)
  {
    var boots' := boots[next := Boot(asks[0].agent, asks[0].sig, Admitted)];
    PopStaysSteady(boots, holder, asks, x);
    assert asks[0] in asks && NoneUnderway(boots, x);
    assert forall q :: Underway(boots', q, x) <==> Underway(boots, q, x);
    assert forall q :: Ended(boots', q, x) <==> Ended(boots, q, x);
    assert forall b :: Ended(boots, b, x) ==> x !in asks[1..];
  }

  /** A boot of another agent is booked. */
  lemma StrangerStaysSteady(boots: Boots, holder: Holders, asks: seq<Ask>, x: Ask, next: nat)
    requires Steady(boots, holder, asks, x) && asks != [] && asks[0].agent != x.agent && next !in boots
    ensures Steady(boots[next := Boot(asks[0].agent, asks[0].sig, Admitted)], holder[asks[0].agent := next], asks[1..], x)
  {
    PopStaysSteady(boots, holder, asks, x);
    FewerStaySteady(boots, boots[next := Boot(asks[0].agent, asks[0].sig, Admitted)], holder, holder[asks[0].agent := next], asks[1..], x);
  }

  lemma ReserveStaysSteady(max: nat, s: State, victim: Option<AgentId>, x: Ask)
    requires Fits(s) && s.asks != [] && Steady(s.boots, s.holder, s.asks, x)
    ensures var t := DoReserve(max, s, victim); Steady(t.boots, t.holder, t.asks, x)
  {
    var head := s.asks[0];
    if !Books(max, s, victim) {
      PopStaysSteady(s.boots, s.holder, s.asks, x);
    } else if head.agent != x.agent {
      StrangerStaysSteady(s.boots, s.holder, s.asks, x, s.next);
    } else if head != x {
      RivalStaysSteady(s.boots, s.holder, s.asks, x, s.next);
    } else {
      forall b | Held(s.holder, x.agent, b) ensures !Underway(s.boots, b, x) && !Ended(s.boots, b, x) {
        assert InFlight(s.boots, b, Ask(x.agent, s.reserved[x.agent]));
      }
      BookStaysSteady(s.boots, s.holder, s.asks, x, s.next);
    }
  }

  /** A release, of a boot of the signature or of another one. */
  lemma ReleaseStaysSteady(s: State, b: nat, x: Ask)
    requires Fits(s) && InPhase(s, b, {Landed, Missed}) && Steady(s.boots, s.holder, s.asks, x)
    ensures var t := DoRelease(s, b); Steady(t.boots, t.holder, t.asks, x)
  {
    var boots' := s.boots[b := s.boots[b].(phase := Released)];
    if Ended(s.boots, b, x) && Gives(s.reserved, x) {
      FreedStaysSteady(s, b, x);
    } else {
      if x.agent in s.holder {
        assert InFlight(s.boots, s.holder[x.agent], Ask(x.agent, s.reserved[x.agent]));
      }
      FewerStaySteady(s.boots, boots', s.holder, DoRelease(s, b).holder, s.asks, x);
    }
  }

  lemma FreedStaysSteady(s: State, b: nat, x: Ask)
    requires Fits(s) && Ended(s.boots, b, x) && Gives(s.reserved, x) && Steady(s.boots, s.holder, s.asks, x)
    ensures Steady(s.boots[b := s.boots[b].(phase := Released)], s.holder - {x.agent}, s.asks, x)
  {
    var boots', h := s.boots[b := s.boots[b].(phase := Released)], s.holder[x.agent];
    assert InFlight(s.boots, h, x);
    assert forall q :: Underway(boots', q, x) ==> Underway(s.boots, q, x);
    assert forall q :: Ended(boots', q, x) <==> Ended(s.boots, q, x) && q != b;
    if h == b {
      assert NoneUnderway(boots', x);
    }
  }

  /** A boot moves on; one of the signature ends, or stays under way. */
  lemma MoveStaysSteady(boots: Boots, holder: Holders, asks: seq<Ask>, x: Ask, b: nat, p: Phase)
    requires Steady(boots, holder, asks, x) && b in boots && boots[b].phase in {Admitted, Spawning}
    requires p in {Landed, Missed} || p == Spawning
    ensures Steady(boots[b := boots[b].(phase := p)], holder, asks, x)
  {
    if Underway(boots, b, x) && p != Spawning {
      EndStaysSteady(boots, holder, asks, x, b, p);
    } else {
      FewerStaySteady(boots, boots[b := boots[b].(phase := p)], holder, holder, asks, x);
    }
  }

  lemma BootStepStaysSteady(max: nat, s: State, act: Action, x: Ask)
    requires Steady(s.boots, s.holder, s.asks, x)
    requires Enabled(max, s, act) && (act.Start? || act.Land? || act.Fail? || act.Finish?)
    ensures var t := Apply(max, s, act); Steady(t.boots, t.holder, t.asks, x)
  {
    match act {
      case Start(b) => MoveStaysSteady(s.boots, s.holder, s.asks, x, b, DoStart(s, b).boots[b].phase);
      case Land(b, now) => MoveStaysSteady(s.boots, s.holder, s.asks, x, b, DoLand(s, b, now).boots[b].phase);
      case Fail(b) => MoveStaysSteady(s.boots, s.holder, s.asks, x, b, Missed);
      case Finish(b) => FewerStaySteady(s.boots, s.boots - {b}, s.holder, s.holder, s.asks, x);
    }
  }

  lemma StepStaysSteady(max: nat, s: State, act: Action, x: Ask)
    requires Fits(s) && Gives(s.desired, x) && Steady(s.boots, s.holder, s.asks, x)
    requires Enabled(max, s, act) && (act.Want? && act.agent == x.agent ==> HasWarm(s, act.agent, act.sig))
    ensures var t := Apply(max, s, act); Steady(t.boots, t.holder, t.asks, x)
  {
    match act {
      case Want(a, sig) =>
        if a != x.agent {
          AppendStaysSteady(s.boots, s.holder, s.asks, x, Ask(a, sig));
        }
      case Reserve(victim) => ReserveStaysSteady(max, s, victim, x);
      case Release(b) => ReleaseStaysSteady(s, b, x);
      case Drop(_) =>
      case Take(_) =>
      case _ => BootStepStaysSteady(max, s, act, x);
    }
  }

  lemma DesiredBefore(max: nat, s: State, act: Action, x: Ask)
    requires Enabled(max, s, act) && Gives(Apply(max, s, act).desired, x)
    ensures Gives(s.desired, x) || (act == Want(x.agent, x.sig) && !HasWarm(s, x.agent, x.sig))
  {
  }

  lemma StepKeepsAllSteady(max: nat, s: State, act: Action)
    requires Fits(s) && AllSteady(s) && Enabled(max, s, act) && (act.Want? ==> Fine(s, act.agent, act.sig))
    ensures AllSteady(Apply(max, s, act))
  {
    var t := Apply(max, s, act);
    forall x | Gives(t.desired, x) ensures Steady(t.boots, t.holder, t.asks, x) {
      DesiredBefore(max, s, act, x);
      if act.Want? && act.agent == x.agent && !HasWarm(s, act.agent, act.sig) {
        assert x == Ask(act.agent, act.sig);
      } else {
        StepStaysSteady(max, s, act, x);
      }
    }
  }

  lemma SteadyIsUnexposed(s: State)
    requires AllSteady(s)
    ensures !Exposed(s)
  {
    forall b | Astray(s.boots, s.desired, s.holder, b) ensures false {
      var x := Ask(s.boots[b].agent, s.boots[b].sig);
      assert Gives(s.desired, x) && LandersHold(s.boots, s.holder, x) && Underway(s.boots, b, x);
    }
  }

  lemma {:induction false} FineKeepsCap(max: nat, s: State, acts: seq<Action>)
    requires Fits(s) && AllSteady(s) && SlotsUsed(s) <= max && IsFine(max, s, acts)
    ensures var t := After(max, s, acts); Fits(t) && AllSteady(t) && SlotsUsed(t) <= max
    decreases |acts|
  {
    if acts != [] {
      SteadyIsUnexposed(s);
      if acts[0].Land? {
        assert !Astray(s.boots, s.desired, s.holder, acts[0].boot);
      }
      StepKeepsSlots(max, s, acts[0]);
      StepKeepsFit(max, s, acts[0]);
      StepKeepsAllSteady(max, s, acts[0]);
      FineKeepsCap(max, Apply(max, s, acts[0]), acts[1..]);
    }
  }

  /**
   Warm entries and reservations that have not landed never exceed the cap, under any cap and in
   any interleaving of boots, drops, claims and requests that are fine when made.
   */
  lemma WarmCapHolds(max: nat, acts: seq<Action>)
    requires IsFine(max, Empty, acts)
    ensures SlotsUsed(After(max, Empty, acts)) <= max
  {
    EmptyIsSafe();
    FineKeepsCap(max, Empty, acts);
  }

  /** A signature nothing in the pool has, in flight or waited for, is always fine to ask for. */
  lemma NewSignatureIsFine(s: State, a: AgentId, sig: Signature)
    requires Ask(a, sig) !in s.asks && forall b :: !InFlight(s.boots, b, Ask(a, sig))
    ensures Fine(s, a, sig)
  {
    var x, asks := Ask(a, sig), DoWant(s, a, sig).asks;
    assert forall b :: !Underway(s.boots, b, x) && !Ended(s.boots, b, x) by {
      assert forall b :: Underway(s.boots, b, x) || Ended(s.boots, b, x) ==> InFlight(s.boots, b, x);
    }
    assert forall i :: 0 <= i < |s.asks| ==> asks[i] in s.asks;
  }

  // ---- What goes wrong otherwise ----

  lemma {:induction false} NewIsFine(max: nat, s: State, acts: seq<Action>)
    requires IsCareful(max, s, acts) && AsksNew(max, s, acts)
    ensures IsFine(max, s, acts)
    decreases |acts|
  {
    if acts != [] {
      if acts[0].Want? {
        NewSignatureIsFine(s, acts[0].agent, acts[0].sig);
      }
      NewIsFine(max, Apply(max, s, acts[0]), acts[1..]);
    }
  }

  /** A continuation of fine requests that exceeds the cap. */
  ghost predicate Exceeds(max: nat, s: State, acts: seq<Action>) {
    IsFine(max, s, acts) && SlotsUsed(After(max, s, acts)) > max
  }

  lemma LooseExceeds(max: nat, s: State, b: nat) returns (acts: seq<Action>)
    requires Loose(s, b)
    ensures Exceeds(max, s, acts)
  {
    acts := BreakByTaking(max, s, b);
    NewIsFine(max, s, acts);
  }

  ghost predicate Leads(max: nat, s: State, acts: seq<Action>, t: State) {
    IsFine(max, s, acts) && After(max, s, acts) == t
  }

  lemma LeadsFromFirst(max: nat, s: State, acts: seq<Action>, t: State)
    requires Leads(max, s, acts, t) && acts != []
    ensures Enabled(max, s, acts[0]) && (acts[0].Want? ==> Fine(s, acts[0].agent, acts[0].sig))
    ensures Leads(max, Apply(max, s, acts[0]), acts[1..], t)
  {
  }

  lemma HeadApart(acts: seq<Action>, rest: seq<Action>)
    requires acts != []
    ensures acts + rest == [acts[0]] + (acts[1..] + rest)
  {
  }

  lemma {:induction false} Join(max: nat, s: State, acts: seq<Action>, t: State, rest: seq<Action>)
    requires Leads(max, s, acts, t) && IsFine(max, t, rest)
    ensures IsFine(max, s, acts + rest) && After(max, s, acts + rest) == After(max, t, rest)
    decreases |acts|
  {
    if acts == [] {
      assert acts + rest == rest;
    } else {
      LeadsFromFirst(max, s, acts, t);
      Join(max, Apply(max, s, acts[0]), acts[1..], t, rest);
      FirstThen(max, s, acts[0], acts[1..] + rest);
      HeadApart(acts, rest);
    }
  }

  lemma FirstThen(max: nat, s: State, act: Action, rest: seq<Action>)
    requires Enabled(max, s, act) && (act.Want? ==> Fine(s, act.agent, act.sig)) && IsFine(max, Apply(max, s, act), rest)
    ensures IsFine(max, s, [act] + rest) && After(max, s, [act] + rest) == After(max, Apply(max, s, act), rest)
  {
  }

  lemma One(max: nat, s: State, act: Action)
    requires Enabled(max, s, act) && !act.Want?
    ensures Leads(max, s, [act], Apply(max, s, act))
  {
  }

  lemma Then(max: nat, s: State, act: Action, rest: seq<Action>) returns (acts: seq<Action>)
    requires Enabled(max, s, act) && !act.Want? && IsFine(max, Apply(max, s, act), rest)
    ensures IsFine(max, s, acts) && After(max, s, acts) == After(max, Apply(max, s, act), rest)
  {
    FirstThen(max, s, act, rest);
    acts := [act] + rest;
  }

  /** Some reservations are gone and the boots that had them have moved on; all else is as it was. */
  ghost predicate Purged(s: State, t: State, keep: set<AgentId>) {
    && Fits(t) && t.warm == s.warm && t.asks == s.asks && t.desired == s.desired
    && t.holder.Keys <= s.holder.Keys
    && (forall a :: a in t.holder ==> t.holder[a] == s.holder[a] && Gives(s.reserved, Ask(a, t.reserved[a])))
    && (forall a :: a in keep && a in s.holder ==> a in t.holder)
    && (forall b :: b in s.boots && (Held(s.holder, s.boots[b].agent, b) ==> s.boots[b].agent in keep) ==>
          b in t.boots && t.boots[b] == s.boots[b])
  }

  lemma MovedIsPurged(s: State, t: State, keep: set<AgentId>, h: nat)
    requires Fits(s) && Fits(t) && h in s.boots && s.boots[h].agent !in keep && Held(s.holder, s.boots[h].agent, h)
    requires t.warm == s.warm && t.asks == s.asks && t.desired == s.desired
    requires forall b :: b in s.boots && b != h ==> b in t.boots && t.boots[b] == s.boots[b]
    requires (t.holder == s.holder && t.reserved == s.reserved)
          || (t.holder == s.holder - {s.boots[h].agent} && t.reserved == s.reserved - {s.boots[h].agent})
    ensures Purged(s, t, keep)
  {
  }

  /** The boot that has the reservation starts, fails and releases it. */
  lemma PurgeOne(max: nat, s: State, a: AgentId, keep: set<AgentId>) returns (acts: seq<Action>, t: State)
    requires Fits(s) && a in s.holder && a !in keep
    ensures Leads(max, s, acts, t) && Purged(s, t, keep) && a !in t.holder
    decreases if s.boots[s.holder[a]].phase == Admitted then 2 else if s.boots[s.holder[a]].phase == Spawning then 1 else 0
  {
    var h := s.holder[a];
    assert InFlight(s.boots, h, Ask(a, s.reserved[a]));
    var act := match s.boots[h].phase case Admitted => Start(h) case Spawning => Fail(h) case _ => Release(h);
    var u := Apply(max, s, act);
    StepKeepsFit(max, s, act);
    MovedIsPurged(s, u, keep, h);
    if act.Release? {
      acts, t := [act], u;
      One(max, s, act);
    } else {
      var more;
      more, t := PurgeOne(max, u, a, keep);
      acts := Then(max, s, act, more);
    }
  }

  lemma PurgeAll(max: nat, s: State, keep: set<AgentId>) returns (acts: seq<Action>, t: State)
    requires Fits(s)
    ensures Leads(max, s, acts, t) && Purged(s, t, keep) && t.holder.Keys <= keep
    decreases |s.holder|
  {
    if a :| a in s.holder && a !in keep {
      var u, more;
      acts, u := PurgeOne(max, s, a, keep);
      SmallerMap(u.holder, s.holder, a);
      more, t := PurgeAll(max, u, keep);
      Join(max, s, acts, u, more);
      acts := acts + more;
    } else {
      acts, t := [], s;
    }
  }

  lemma SmallerMap(small: Holders, large: Holders, a: AgentId)
    requires small.Keys <= large.Keys && a in large && a !in small
    ensures |small| < |large|
  {
    SubsetSize(small.Keys + {a}, large.Keys);
    MapSize(small);
    MapSize(large);
  }

  lemma TakeAll(max: nat, s: State) returns (acts: seq<Action>)
    ensures Leads(max, s, acts, s.(warm := map[]))
    decreases |s.warm|
  {
    if s.warm == map[] {
      acts := [];
    } else {
      var a :| a in s.warm;
      var t := Apply(max, s, Take(a));
      assert |t.warm| < |s.warm|;
      acts := TakeAll(max, t);
      acts := Then(max, s, Take(a), acts);
    }
  }

  /** The head's turn when nothing is warm and a slot is free. */
  lemma HeadTurn(max: nat, s: State)
    requires Fits(s) && s.warm == map[] && s.asks != [] && |s.reserved| < max
    ensures Enabled(max, s, Reserve(None))
    ensures var t, head := DoReserve(max, s, None), s.asks[0];
            && Fits(t) && t.warm == map[] && t.desired == s.desired && t.asks == s.asks[1..]
            && (if Gives(s.reserved, head) then t.boots == s.boots && t.holder == s.holder && t.reserved == s.reserved
                else && t.boots == s.boots[s.next := Boot(head.agent, head.sig, Admitted)] && s.next !in s.boots
                     && t.holder == s.holder[head.agent := s.next] && t.reserved == s.reserved[head.agent := head.sig])
  {
    assert s.warm - {s.asks[0].agent} == map[];
    ReserveKeepsFit(max, s, None);
  }

  lemma FewReserved(s: State, a: AgentId)
    requires Fits(s) && s.holder.Keys <= {a}
    ensures |s.reserved| <= 1
  {
    MapSize(s.reserved);
    SubsetSize(s.reserved.Keys, {a});
  }

  /** A continuation after some actions. */
  lemma AfterThem(max: nat, s: State, acts: seq<Action>, t: State, rest: seq<Action>) returns (all: seq<Action>)
    requires Leads(max, s, acts, t) && Exceeds(max, t, rest)
    ensures Exceeds(max, s, all)
  {
    Join(max, s, acts, t, rest);
    all := acts + rest;
  }

  /** What the cases below have in common: room above one slot, nothing warm, and `x` is desired. */
  ghost predicate Ready(max: nat, s: State, x: Ask) {
    max >= 2 && Fits(s) && s.warm == map[] && Gives(s.desired, x)
  }

  lemma ReadyToTurn(max: nat, s: State, x: Ask, keep: set<AgentId>) returns (acts: seq<Action>, u: State)
    requires Ready(max, s, x) && s.asks != [] && keep <= {x.agent}
    ensures Leads(max, s, acts, u) && Purged(s, u, keep) && u.holder.Keys <= keep
    ensures Ready(max, u, x) && u.asks == s.asks && |u.reserved| < max
  {
    acts, u := PurgeAll(max, s, keep);
    FewReserved(u, x.agent);
  }

  /** The boot keeps its reservation while others are purged. */
  lemma KeepsBoot(s: State, u: State, x: Ask, b: nat)
    requires Fits(s) && Purged(s, u, {x.agent}) && b in s.boots && s.boots[b].agent == x.agent && Held(s.holder, x.agent, b)
    requires s.boots[b].sig == x.sig
    ensures b in u.boots && u.boots[b] == s.boots[b] && Held(u.holder, x.agent, b) && Gives(u.reserved, x)
  {
  }

  lemma TurnLeads(max: nat, s: State, acts: seq<Action>, u: State) returns (more: seq<Action>)
    requires Leads(max, s, acts, u) && u.asks != [] && Enabled(max, u, Reserve(None))
    ensures Leads(max, s, more, DoReserve(max, u, None))
  {
    One(max, u, Reserve(None));
    Join(max, s, acts, u, [Reserve(None)]);
    more := acts + [Reserve(None)];
  }

  /** Every reservation is purged and the head is booked. */
  lemma TurnAlone(max: nat, s: State, x: Ask) returns (acts: seq<Action>, t: State, n: nat)
    requires Ready(max, s, x) && s.asks != []
    ensures Leads(max, s, acts, t) && Ready(max, t, x) && t.asks == s.asks[1..]
    ensures n in t.boots && t.boots[n] == Boot(s.asks[0].agent, s.asks[0].sig, Admitted) && Held(t.holder, s.asks[0].agent, n)
    ensures forall b :: b in s.boots && !Held(s.holder, s.boots[b].agent, b) ==>
      b in t.boots && t.boots[b] == s.boots[b] && !Held(t.holder, s.boots[b].agent, b)
  {
    var u;
    acts, u := ReadyToTurn(max, s, x, {});
    HeadTurn(max, u);
    acts := TurnLeads(max, s, acts, u);
    t, n := DoReserve(max, u, None), u.next;
  }

  /** Every other reservation is purged and the head has its turn; only another signature of the agent takes the boot's. */
  lemma TurnBeside(max: nat, s: State, x: Ask, b: nat) returns (acts: seq<Action>, t: State)
    requires Ready(max, s, x) && s.asks != []
    requires b in s.boots && s.boots[b].agent == x.agent && s.boots[b].sig == x.sig && Held(s.holder, x.agent, b)
    ensures Leads(max, s, acts, t) && Ready(max, t, x) && t.asks == s.asks[1..]
    ensures b in t.boots && t.boots[b] == s.boots[b]
    ensures Held(t.holder, x.agent, b) <==> s.asks[0].agent != x.agent || s.asks[0] == x
  {
    var u;
    acts, u := ReadyToTurn(max, s, x, {x.agent});
    KeepsBoot(s, u, x, b);
    HeadTurn(max, u);
    acts := TurnLeads(max, s, acts, u);
    t := DoReserve(max, u, None);
  }

  /** A boot may still land and another signature waits: its turn takes the reservation away. */
  lemma RivalExceeds(max: nat, s: State, x: Ask, b: nat, z: Ask) returns (acts: seq<Action>)
    requires Ready(max, s, x) && Underway(s.boots, b, x) && Held(s.holder, x.agent, b)
    requires z in s.asks && z.agent == x.agent && z != x
    ensures Exceeds(max, s, acts)
    decreases |s.asks|
  {
    var t, rest;
    acts, t := TurnBeside(max, s, x, b);
    if Held(t.holder, x.agent, b) {
      assert s.asks[0] != z;
      rest := RivalExceeds(max, t, x, b, z);
    } else {
      rest := LooseExceeds(max, t, b);
    }
    acts := AfterThem(max, s, acts, t, rest);
  }

  lemma LanderExceeds(max: nat, s: State, x: Ask, b: nat, z: Ask) returns (acts: seq<Action>)
    requires Ready(max, s, x) && Underway(s.boots, b, x) && z in s.asks && z.agent == x.agent && z != x
    ensures Exceeds(max, s, acts)
  {
    if Held(s.holder, x.agent, b) {
      acts := RivalExceeds(max, s, x, b, z);
    } else {
      acts := LooseExceeds(max, s, b);
    }
  }

  /** Another signature waits behind: once the signature is booked, its turn comes. */
  lemma BehindExceeds(max: nat, s: State, x: Ask, i: nat, j: nat) returns (acts: seq<Action>)
    requires Ready(max, s, x) && i < j < |s.asks| && s.asks[i] == x && s.asks[j].agent == x.agent && s.asks[j] != x
    ensures Exceeds(max, s, acts)
    decreases |s.asks|
  {
    var t, n, rest;
    acts, t, n := TurnAlone(max, s, x);
    assert t.asks[j - 1] == s.asks[j];
    if i == 0 {
      rest := LanderExceeds(max, t, x, n, s.asks[j]);
    } else {
      assert t.asks[i - 1] == x;
      rest := BehindExceeds(max, t, x, i - 1, j - 1);
    }
    acts := AfterThem(max, s, acts, t, rest);
  }

  /** An ended boot frees by signature what a boot under way has. */
  lemma FreeingExceeds(max: nat, s: State, x: Ask, b: nat, q: nat) returns (acts: seq<Action>)
    requires Fits(s) && Gives(s.desired, x) && Ended(s.boots, b, x) && !Held(s.holder, x.agent, b) && Underway(s.boots, q, x)
    ensures Exceeds(max, s, acts)
  {
    if Held(s.holder, x.agent, q) {
      assert InFlight(s.boots, q, Ask(x.agent, s.reserved[x.agent]));
      StepKeepsFit(max, s, Release(b));
      acts := LooseExceeds(max, Apply(max, s, Release(b)), q);
      acts := Then(max, s, Release(b), acts);
    } else {
      acts := LooseExceeds(max, s, q);
    }
  }

  /** An ended boot that lost the reservation, and its signature waits to be booked again. */
  lemma LoserExceeds(max: nat, s: State, x: Ask, b: nat) returns (acts: seq<Action>)
    requires Ready(max, s, x) && Ended(s.boots, b, x) && !Held(s.holder, x.agent, b) && x in s.asks
    ensures Exceeds(max, s, acts)
    decreases |s.asks|
  {
    var t, n, rest;
    acts, t, n := TurnAlone(max, s, x);
    if s.asks[0] == x {
      rest := FreeingExceeds(max, t, x, b, n);
    } else {
      rest := LoserExceeds(max, t, x, b);
    }
    acts := AfterThem(max, s, acts, t, rest);
  }

  /** An ended boot with its release ahead, another signature waiting, and its own behind that. */
  lemma AheadExceeds(max: nat, s: State, x: Ask, b: nat, i: nat, j: nat) returns (acts: seq<Action>)
    requires Ready(max, s, x) && Ended(s.boots, b, x)
    requires i < j < |s.asks| && s.asks[j] == x && s.asks[i].agent == x.agent && s.asks[i] != x
    ensures Exceeds(max, s, acts)
    decreases |s.asks|
  {
    if !Held(s.holder, x.agent, b) {
      acts := LoserExceeds(max, s, x, b);
    } else {
      var t, rest;
      acts, t := TurnBeside(max, s, x, b);
      assert t.asks[j - 1] == x;
      if Held(t.holder, x.agent, b) {
        assert t.asks[i - 1] == s.asks[i];
        rest := AheadExceeds(max, t, x, b, i - 1, j - 1);
      } else {
        rest := LoserExceeds(max, t, x, b);
      }
      acts := AfterThem(max, s, acts, t, rest);
    }
  }

  lemma UnsteadyExceeds(max: nat, s: State, x: Ask) returns (acts: seq<Action>)
    requires Ready(max, s, x) && !Steady(s.boots, s.holder, s.asks, x)
    ensures Exceeds(max, s, acts)
  {
    if b :| Underway(s.boots, b, x) && !Held(s.holder, x.agent, b) {
      acts := LooseExceeds(max, s, b);
    } else if !LosersAreLast(s.boots, s.holder, s.asks, x) {
      var b :| Ended(s.boots, b, x) && !Held(s.holder, x.agent, b) && !(x !in s.asks && NoneUnderway(s.boots, x));
      if x in s.asks {
        acts := LoserExceeds(max, s, x, b);
      } else {
        var q :| Underway(s.boots, q, x);
        acts := FreeingExceeds(max, s, x, b, q);
      }
    } else if !LandersUnrivalled(s.boots, s.asks, x) {
      var b, z :| Underway(s.boots, b, x) && z in s.asks && z.agent == x.agent && z != x;
      acts := LanderExceeds(max, s, x, b, z);
    } else if !NoneBehind(s.asks, x) {
      var i: nat, j: nat :| i < j < |s.asks| && s.asks[i] == x && s.asks[j].agent == x.agent && s.asks[j] != x;
      acts := BehindExceeds(max, s, x, i, j);
    } else {
      var b, i: nat, j: nat :|
        Ended(s.boots, b, x) && i < j < |s.asks| && s.asks[j] == x && s.asks[i].agent == x.agent && s.asks[i] != x;
      acts := AheadExceeds(max, s, x, b, i, j);
    }
  }

  lemma UnfineExceeds(max: nat, s: State, a: AgentId, sig: Signature) returns (acts: seq<Action>)
    requires max >= 2 && Fits(s) && !Fine(s, a, sig)
    ensures Exceeds(max, Apply(max, s, Want(a, sig)), acts)
  {
    var t := Apply(max, s, Want(a, sig));
    var taken := TakeAll(max, t);
    StepKeepsFit(max, s, Want(a, sig));
    acts := UnsteadyExceeds(max, t.(warm := map[]), Ask(a, sig));
    Join(max, t, taken, t.(warm := map[]), acts);
    acts := taken + acts;
  }

  /**
   Exactly when a request keeps the warm cap safe: after an interleaving of fine requests a fine
   one leaves every such continuation within the cap, whatever the cap; and under a cap above one
   only a fine one does.
   */
  lemma RequestIsSafeIff(max: nat, acts: seq<Action>, a: AgentId, sig: Signature)
    requires IsFine(max, Empty, acts)
    ensures var s := After(max, Empty, acts);
            && (Fine(s, a, sig) ==> StaysWithin(max, Apply(max, s, Want(a, sig))))
            && (max >= 2 && StaysWithin(max, Apply(max, s, Want(a, sig))) ==> Fine(s, a, sig))
  {
    var s := After(max, Empty, acts);
    EmptyIsSafe();
    FineKeepsCap(max, Empty, acts);
    if Fine(s, a, sig) {
      FineStaysWithin(max, s, a, sig);
    } else if max >= 2 {
      var more := UnfineExceeds(max, s, a, sig);
    }
  }

  lemma FineStaysWithin(max: nat, s: State, a: AgentId, sig: Signature)
    requires Fits(s) && AllSteady(s) && SlotsUsed(s) <= max && Fine(s, a, sig)
    ensures StaysWithin(max, Apply(max, s, Want(a, sig)))
  {
    var t := Apply(max, s, Want(a, sig));
    StepKeepsFit(max, s, Want(a, sig));
    StepKeepsSlots(max, s, Want(a, sig));
    StepKeepsAllSteady(max, s, Want(a, sig));
    forall more | IsFine(max, t, more) ensures SlotsUsed(After(max, t, more)) <= max {
      FineKeepsCap(max, t, more);
    }
  }
}
