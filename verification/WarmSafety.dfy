/**
 Exactly when the warm pool meets its two promises: that a boot which lands replaces no live
 warm entry, and that warm entries and reservations stay within the cap. Both depend on what
 an agent's signature changes back to while one of its boots has not landed.
 */
module WarmSafety {
  import opened Prelude
  import opened WarmAdmission

  function After(max: nat, s: State, acts: seq<Action>): State
    decreases |acts|
  {
    if acts == [] then s else After(max, Apply(max, s, acts[0]), acts[1..])
  }

  /** The boot may still land. */
  predicate Underway(boots: Boots, b: nat, ask: Ask) {
    b in boots && boots[b].agent == ask.agent && boots[b].sig == ask.sig && boots[b].phase in {Admitted, Spawning}
  }

  /** The actions are enabled one after the other. */
  ghost predicate IsRun(max: nat, s: State, acts: seq<Action>)
    decreases |acts|
  {
    acts == [] || (Enabled(max, s, acts[0]) && IsRun(max, Apply(max, s, acts[0]), acts[1..]))
  }

  // ---- What is dropped, and what a request joins ----

  predicate Cold(s: State, a: AgentId) {
    a !in s.desired && a !in s.warm
  }

  lemma LandStaysCold(s: State, b: nat, now: int, a: AgentId)
    requires b in s.boots && Cold(s, a)
    ensures Cold(DoLand(s, b, now), a)
  {
  }

  lemma ReserveStaysCold(max: nat, s: State, victim: Option<AgentId>, a: AgentId)
    requires s.asks != [] && Cold(s, a)
    ensures Cold(DoReserve(max, s, victim), a)
  {
  }

  lemma ColdStep(max: nat, s: State, act: Action, a: AgentId)
    requires Enabled(max, s, act) && Cold(s, a) && !(act.Want? && act.agent == a)
    ensures Cold(Apply(max, s, act), a)
  {
    match act {
      case Reserve(victim) => ReserveStaysCold(max, s, victim, a);
      case Land(b, now) => LandStaysCold(s, b, now, a);
      case _ =>
    }
  }

  lemma {:induction false} ColdRun(max: nat, s: State, acts: seq<Action>, a: AgentId)
    requires Cold(s, a) && IsRun(max, s, acts)
    requires forall act :: act in acts ==> !(act.Want? && act.agent == a)
    ensures Cold(After(max, s, acts), a)
    decreases |acts|
  {
    if acts != [] {
      assert acts[0] in acts;
      ColdStep(max, s, acts[0], a);
      ColdRun(max, Apply(max, s, acts[0]), acts[1..], a);
    }
  }

  /** Once an agent is dropped nothing of it gets warm, whatever is in flight, until it is asked for again. */
  lemma DroppedStaysCold(max: nat, s: State, acts: seq<Action>, a: AgentId)
    requires IsRun(max, Apply(max, s, Drop(a)), acts)
    requires forall act :: act in acts ==> !(act.Want? && act.agent == a)
    ensures Cold(After(max, Apply(max, s, Drop(a)), acts), a)
  {
    ColdRun(max, Apply(max, s, Drop(a)), acts, a);
  }

  /** A request that joins what is in flight joins a boot of its signature that has started and not finished. */
  ghost predicate JoinsABoot(boots: Boots, inflight: Signatures) {
    forall x :: Gives(inflight, x) ==> SomeStarted(boots, x)
  }

  ghost predicate SomeStarted(boots: Boots, x: Ask) {
    exists b :: b in boots && boots[b].agent == x.agent && boots[b].sig == x.sig && boots[b].phase != Admitted
  }

  /** No started boot is lost or changes its signature. */
  ghost predicate KeepsStarted(boots: Boots, boots': Boots) {
    forall b :: b in boots && boots[b].phase != Admitted ==>
      b in boots' && boots'[b].phase != Admitted && boots'[b].agent == boots[b].agent && boots'[b].sig == boots[b].sig
  }

  lemma StillJoins(boots: Boots, boots': Boots, inflight: Signatures)
    requires JoinsABoot(boots, inflight) && KeepsStarted(boots, boots')
    ensures JoinsABoot(boots', inflight)
  {
    forall x | Gives(inflight, x) ensures SomeStarted(boots', x) {
      var b :| b in boots && boots[b].agent == x.agent && boots[b].sig == x.sig && boots[b].phase != Admitted;
      assert boots'[b].agent == x.agent;
    }
  }

  lemma StartJoins(boots: Boots, inflight: Signatures, b: nat, p: Phase)
    requires JoinsABoot(boots, inflight) && b in boots && p != Admitted
    ensures JoinsABoot(boots[b := boots[b].(phase := p)], inflight[boots[b].agent := boots[b].sig])
  {
    var boots' := boots[b := boots[b].(phase := p)];
    StillJoins(boots, boots', inflight);
    assert boots'[b].agent == boots[b].agent;
    assert forall x :: Gives(inflight[boots[b].agent := boots[b].sig], x) ==> Gives(inflight, x) || x == Ask(boots[b].agent, boots[b].sig);
  }

  lemma FinishJoins(boots: Boots, inflight: Signatures, b: nat)
    requires JoinsABoot(boots, inflight) && b in boots
    ensures var x := Ask(boots[b].agent, boots[b].sig);
            JoinsABoot(boots - {b}, if Gives(inflight, x) then inflight - {x.agent} else inflight)
  {
    var mine := Ask(boots[b].agent, boots[b].sig);
    forall x | Gives(inflight, x) && x != mine && x.agent in inflight ensures SomeStarted(boots - {b}, x) {
      var q :| q in boots && boots[q].agent == x.agent && boots[q].sig == x.sig && boots[q].phase != Admitted;
      assert q != b && (boots - {b})[q].agent == x.agent;
    }
  }

  ghost predicate Joins(s: State) {
    JoinsABoot(s.boots, s.inflight)
  }

  lemma BookJoins(boots: Boots, inflight: Signatures, next: nat, boot: Boot)
    requires JoinsABoot(boots, inflight) && next !in boots
    ensures JoinsABoot(boots[next := boot], inflight)
  {
    StillJoins(boots, boots[next := boot], inflight);
  }

  lemma ReserveJoins(max: nat, s: State, victim: Option<AgentId>)
    requires s.next !in s.boots && Joins(s) && s.asks != []
    ensures Joins(DoReserve(max, s, victim))
  {
    BookJoins(s.boots, s.inflight, s.next, Boot(s.asks[0].agent, s.asks[0].sig, Admitted));
  }

  lemma StartStepJoins(s: State, b: nat)
    requires Joins(s) && b in s.boots
    ensures Joins(DoStart(s, b))
  {
    StartJoins(s.boots, s.inflight, b, DoStart(s, b).boots[b].phase);
  }

  lemma LandJoins(s: State, b: nat, now: int)
    requires Joins(s) && InPhase(s, b, {Spawning})
    ensures Joins(DoLand(s, b, now))
  {
    StillJoins(s.boots, DoLand(s, b, now).boots, s.inflight);
  }

  lemma ReleaseJoins(s: State, b: nat)
    requires Joins(s) && b in s.boots
    ensures Joins(DoRelease(s, b))
  {
    StillJoins(s.boots, s.boots[b := s.boots[b].(phase := Released)], s.inflight);
  }

  lemma FinishStepJoins(s: State, b: nat)
    requires Joins(s) && b in s.boots
    ensures Joins(DoFinish(s, b))
  {
    FinishJoins(s.boots, s.inflight, b);
  }

  lemma StepKeepsJoins(max: nat, s: State, act: Action)
    requires Fits(s) && Joins(s) && Enabled(max, s, act)
    ensures Joins(Apply(max, s, act))
  {
    match act {
      case Want(_, _) =>
      case Reserve(victim) => ReserveJoins(max, s, victim);
      case Start(b) => StartStepJoins(s, b);
      case Land(b, now) => LandJoins(s, b, now);
      case Fail(b) => StillJoins(s.boots, s.boots[b := s.boots[b].(phase := Missed)], s.inflight);
      case Release(b) => ReleaseJoins(s, b);
      case Finish(b) => FinishStepJoins(s, b);
      case Drop(_) =>
      case Take(_) =>
    }
  }

  /** In every run, what is recorded as in flight is the signature of a boot that is. */
  lemma {:induction false} InflightIsBooting(max: nat, s: State, acts: seq<Action>)
    requires Fits(s) && Joins(s) && IsRun(max, s, acts)
    ensures Joins(After(max, s, acts))
    decreases |acts|
  {
    if acts != [] {
      StepKeepsFit(max, s, acts[0]);
      StepKeepsJoins(max, s, acts[0]);
      InflightIsBooting(max, Apply(max, s, acts[0]), acts[1..]);
    }
  }

  // ---- Live entries replaced ----

  /** The boot lands on a live entry of its agent. */
  predicate Overwrites(s: State, act: Action) {
    && act.Land? && InPhase(s, act.boot, {Spawning}) && Lands(s, act.boot)
    && s.boots[act.boot].agent in s.warm
  }

  /** Checked before a request: it asks for what is warm, or nothing is warm, or no boot of its signature may still land. */
  ghost predicate SafeWant(s: State, a: AgentId, sig: Signature) {
    HasWarm(s, a, sig) || a !in s.warm || forall b :: !Underway(s.boots, b, Ask(a, sig))
  }

  /** The actions are enabled one after the other and every request is safe when it is made. */
  ghost predicate IsCalm(max: nat, s: State, acts: seq<Action>)
    decreases |acts|
  {
    acts == []
    || (&& Enabled(max, s, acts[0]) && (acts[0].Want? ==> SafeWant(s, acts[0].agent, acts[0].sig))
        && IsCalm(max, Apply(max, s, acts[0]), acts[1..]))
  }

  /** No calm continuation leads to a landing on a live entry. */
  ghost predicate NeverOverwrites(max: nat, s: State) {
    forall more, act :: IsCalm(max, s, more) ==> !Overwrites(After(max, s, more), act)
  }

  /** A boot of the desired signature that may still land meets no other signature of its agent. */
  ghost predicate MeetsNothing(boots: Boots, desired: Signatures, warm: map<AgentId, Warm>) {
    forall b, ask :: Underway(boots, b, ask) && Gives(desired, ask) && ask.agent in warm ==> warm[ask.agent].sig == ask.sig
  }

  ghost predicate Clear(s: State) {
    MeetsNothing(s.boots, s.desired, s.warm)
  }

  lemma ClearOverwritesNothing(s: State, act: Action)
    requires Clear(s)
    ensures !Overwrites(s, act)
  {
    if act.Land? && InPhase(s, act.boot, {Spawning}) {
      assert Underway(s.boots, act.boot, Ask(s.boots[act.boot].agent, s.boots[act.boot].sig));
    }
  }

  lemma BookStaysClear(boots: Boots, b: nat, desired: Signatures, was: map<AgentId, Warm>, warm: map<AgentId, Warm>, ask: Ask)
    requires MeetsNothing(boots, desired, was)
    requires forall a :: a in warm ==> a in was && warm[a] == was[a] && a != ask.agent
    ensures MeetsNothing(boots[b := Boot(ask.agent, ask.sig, Admitted)], desired, warm)
  {
    var boots' := boots[b := Boot(ask.agent, ask.sig, Admitted)];
    assert forall x, other :: Underway(boots', x, other) ==> other == ask || Underway(boots, x, other);
  }

  lemma LessStaysClear(boots: Boots, desired: Signatures, desired': Signatures, was: map<AgentId, Warm>, warm: map<AgentId, Warm>)
    requires MeetsNothing(boots, desired, was)
    requires forall a :: a in warm ==> a in was && warm[a] == was[a]
    requires forall ask :: Gives(desired', ask) ==> Gives(desired, ask)
    ensures MeetsNothing(boots, desired', warm)
  {
  }

  lemma PhaseStaysClear(boots: Boots, boots': Boots, desired: Signatures, warm: map<AgentId, Warm>)
    requires MeetsNothing(boots, desired, warm)
    requires forall b, ask :: Underway(boots', b, ask) ==> Underway(boots, b, ask)
    ensures MeetsNothing(boots', desired, warm)
  {
  }

  lemma LandStaysClear(boots: Boots, desired: Signatures, warm: map<AgentId, Warm>, b: nat, now: int)
    requires MeetsNothing(boots, desired, warm) && b in boots && Gives(desired, Ask(boots[b].agent, boots[b].sig))
    ensures MeetsNothing(boots[b := boots[b].(phase := Landed)], desired, warm[boots[b].agent := Warm(boots[b].sig, now)])
  {
    var boots' := boots[b := boots[b].(phase := Landed)];
    assert forall x, ask :: Underway(boots', x, ask) ==> Underway(boots, x, ask);
  }

  lemma ReserveStaysClear(max: nat, s: State, victim: Option<AgentId>)
    requires Clear(s) && s.asks != []
    ensures Clear(DoReserve(max, s, victim))
  {
    if Books(max, s, victim) {
      BookStaysClear(s.boots, s.next, s.desired, s.warm, Spared(max, s, victim), s.asks[0]);
    } else {
      LessStaysClear(s.boots, s.desired, s.desired, s.warm, Spared(max, s, victim));
    }
  }

  lemma BootStepStaysClear(max: nat, s: State, act: Action)
    requires Clear(s) && Enabled(max, s, act) && (act.Start? || act.Land? || act.Fail? || act.Release? || act.Finish?)
    ensures Clear(Apply(max, s, act))
  {
    var boots := s.boots;
    match act {
      case Start(b) => PhaseStaysClear(boots, DoStart(s, b).boots, s.desired, s.warm);
      case Land(b, now) =>
        if Lands(s, b) {
          LandStaysClear(boots, s.desired, s.warm, b, now);
        } else {
          PhaseStaysClear(boots, boots[b := boots[b].(phase := Missed)], s.desired, s.warm);
        }
      case Fail(b) => PhaseStaysClear(boots, boots[b := boots[b].(phase := Missed)], s.desired, s.warm);
      case Release(b) => PhaseStaysClear(boots, boots[b := boots[b].(phase := Released)], s.desired, s.warm);
      case Finish(b) => PhaseStaysClear(boots, boots - {b}, s.desired, s.warm);
    }
  }

  lemma StepStaysClear(max: nat, s: State, act: Action)
    requires Clear(s) && Enabled(max, s, act) && (act.Want? ==> SafeWant(s, act.agent, act.sig))
    ensures Clear(Apply(max, s, act))
  {
    match act {
      case Want(a, sig) =>
      case Reserve(victim) => ReserveStaysClear(max, s, victim);
      case Drop(a) => LessStaysClear(s.boots, s.desired, s.desired - {a}, s.warm, s.warm - {a});
      case Take(a) => LessStaysClear(s.boots, s.desired, s.desired, s.warm, s.warm - {a});
      case _ => BootStepStaysClear(max, s, act);
    }
  }

  lemma {:induction false} CalmStaysClear(max: nat, s: State, acts: seq<Action>)
    requires Clear(s) && IsCalm(max, s, acts)
    ensures Clear(After(max, s, acts))
    decreases |acts|
  {
    if acts != [] {
      StepStaysClear(max, s, acts[0]);
      CalmStaysClear(max, Apply(max, s, acts[0]), acts[1..]);
    }
  }

  lemma ClearIsSafe(max: nat, s: State)
    requires Clear(s)
    ensures NeverOverwrites(max, s)
  {
    forall more, act | IsCalm(max, s, more) ensures !Overwrites(After(max, s, more), act) {
      CalmStaysClear(max, s, more);
      ClearOverwritesNothing(After(max, s, more), act);
    }
  }

  /** In no interleaving of safe requests, boots, drops and claims a landing replaces a live warm entry. */
  lemma NoLandingOverwrites(max: nat, acts: seq<Action>, act: Action)
    requires IsCalm(max, Empty, acts)
    ensures !Overwrites(After(max, Empty, acts), act)
  {
    ClearIsSafe(max, Empty);
  }

  /** After a request that is not safe its boot lands on the live entry, at once or after its start. */
  lemma UnsafeWantOverwrites(max: nat, s: State, a: AgentId, sig: Signature) returns (more: seq<Action>, act: Action)
    requires !SafeWant(s, a, sig)
    ensures var t := Apply(max, s, Want(a, sig));
            IsCalm(max, t, more) && Enabled(max, After(max, t, more), act) && Overwrites(After(max, t, more), act)
  {
    var t := Apply(max, s, Want(a, sig));
    var b :| Underway(s.boots, b, Ask(a, sig));
    act := Land(b, 0);
    if s.boots[b].phase == Spawning {
      more := [];
    } else {
      more := [Start(b)];
      assert After(max, Apply(max, t, Start(b)), more[1..]) == Apply(max, t, Start(b));
    }
  }

  /**
   Exactly when a request is safe: after an interleaving of safe requests, no calm continuation
   of a request replaces a live entry if and only if the request is safe.
   */
  lemma WantIsSafeIff(max: nat, acts: seq<Action>, a: AgentId, sig: Signature)
    requires IsCalm(max, Empty, acts)
    ensures var s := After(max, Empty, acts);
            NeverOverwrites(max, Apply(max, s, Want(a, sig))) <==> SafeWant(s, a, sig)
  {
    var s := After(max, Empty, acts);
    CalmStaysClear(max, Empty, acts);
    if SafeWant(s, a, sig) {
      StepStaysClear(max, s, Want(a, sig));
      ClearIsSafe(max, Apply(max, s, Want(a, sig)));
    } else {
      var more, act := UnsafeWantOverwrites(max, s, a, sig);
    }
  }

  // ---- The warm cap ----

  /** The boot may still land, and its signature is the desired one. */
  predicate Awaited(boots: Boots, desired: Signatures, b: nat) {
    b in boots && boots[b].phase in {Admitted, Spawning} && Gives(desired, Ask(boots[b].agent, boots[b].sig))
  }

  /** An awaited boot is not the one its agent's reservation stands for. */
  ghost predicate Exposed(s: State) {
    Strays(s.boots, s.desired, s.holder)
  }

  ghost predicate Strays(boots: Boots, desired: Signatures, holder: map<AgentId, nat>) {
    exists b :: Astray(boots, desired, holder, b)
  }

  predicate Astray(boots: Boots, desired: Signatures, holder: map<AgentId, nat>, b: nat) {
    Awaited(boots, desired, b) && !(boots[b].agent in holder && holder[boots[b].agent] == b)
  }

  /**
   Checked before a step: a request turns back to a boot that lost its reservation, a booking
   takes the reservation of an awaited boot, or a release by signature frees that of another.
   */
  ghost predicate Exposes(max: nat, s: State, act: Action) {
    match act
    case Want(a, sig) =>
      !HasWarm(s, a, sig) && exists b :: Underway(s.boots, b, Ask(a, sig)) && !Holds(s, a, b)
    case Reserve(victim) =>
      && Books(max, s, victim) && s.asks[0].agent in s.holder && Awaited(s.boots, s.desired, s.holder[s.asks[0].agent])
    case Release(b) =>
      && b in s.boots && Gives(s.reserved, Ask(s.boots[b].agent, s.boots[b].sig))
      && s.boots[b].agent in s.holder && s.holder[s.boots[b].agent] != b && Awaited(s.boots, s.desired, s.holder[s.boots[b].agent])
    case _ => false
  }

  /** Nothing exposes a pool that is not exposed. */
  ghost predicate IsCareful(max: nat, s: State, acts: seq<Action>)
    decreases |acts|
  {
    acts == []
    || (&& Enabled(max, s, acts[0]) && (Exposed(s) || !Exposes(max, s, acts[0]))
        && IsCareful(max, Apply(max, s, acts[0]), acts[1..]))
  }

  ghost predicate CapSafe(max: nat, s: State) {
    forall more :: IsCareful(max, s, more) ==> SlotsUsed(After(max, s, more)) <= max
  }

  ghost predicate Fits(s: State) {
    HoldersFit(s.boots, s.next, s.reserved, s.holder)
  }

  lemma PhaseKeepsFit(boots: Boots, next: nat, reserved: Signatures, holder: map<AgentId, nat>, b: nat, p: Phase)
    requires HoldersFit(boots, next, reserved, holder) && b in boots && p != Released
    ensures HoldersFit(boots[b := boots[b].(phase := p)], next, reserved, holder)
  {
  }

  lemma ReserveKeepsFit(max: nat, s: State, victim: Option<AgentId>)
    requires Fits(s) && s.asks != []
    ensures Fits(DoReserve(max, s, victim))
  {
    BookKeepsFit(s.boots, s.next, s.reserved, s.holder, s.asks[0]);
  }

  lemma StepKeepsFit(max: nat, s: State, act: Action)
    requires Fits(s) && Enabled(max, s, act)
    ensures Fits(Apply(max, s, act))
  {
    match act {
      case Reserve(victim) => ReserveKeepsFit(max, s, victim);
      case Start(b) => PhaseKeepsFit(s.boots, s.next, s.reserved, s.holder, b, DoStart(s, b).boots[b].phase);
      case Land(b, now) => PhaseKeepsFit(s.boots, s.next, s.reserved, s.holder, b, DoLand(s, b, now).boots[b].phase);
      case Fail(b) => PhaseKeepsFit(s.boots, s.next, s.reserved, s.holder, b, Missed);
      case Release(b) => ReleaseKeepsFit(s.boots, s.next, s.reserved, s.holder, b);
      case Finish(b) =>
      case _ =>
    }
  }

  lemma WantExposes(s: State, a: AgentId, sig: Signature)
    requires !Exposed(s)
    ensures Exposed(DoWant(s, a, sig)) <==> Exposes(0, s, Want(a, sig))
  {
    if !HasWarm(s, a, sig) {
      var desired := s.desired[a := sig];
      assert DoWant(s, a, sig).desired == desired;
      assert forall b :: Astray(s.boots, desired, s.holder, b) <==>
        Astray(s.boots, s.desired, s.holder, b) || (Underway(s.boots, b, Ask(a, sig)) && !Holds(s, a, b));
    }
  }

  lemma BookExposes(boots: Boots, desired: Signatures, holder: map<AgentId, nat>, next: nat, ask: Ask)
    requires next !in boots && (ask.agent in holder && holder[ask.agent] in boots ==> boots[holder[ask.agent]].agent == ask.agent)
    requires !Strays(boots, desired, holder)
    ensures Strays(boots[next := Boot(ask.agent, ask.sig, Admitted)], desired, holder[ask.agent := next]) <==>
      ask.agent in holder && Awaited(boots, desired, holder[ask.agent])
  {
    var boots', holder' := boots[next := Boot(ask.agent, ask.sig, Admitted)], holder[ask.agent := next];
    forall b | Astray(boots', desired, holder', b)
      ensures ask.agent in holder && b == holder[ask.agent] && Awaited(boots, desired, b)
    {
      assert !Astray(boots, desired, holder, b);
    }
    if ask.agent in holder && Awaited(boots, desired, holder[ask.agent]) {
      assert Astray(boots', desired, holder', holder[ask.agent]);
    }
  }

  lemma ReserveExposes(max: nat, s: State, victim: Option<AgentId>)
    requires Fits(s) && !Exposed(s) && s.asks != []
    ensures Exposed(DoReserve(max, s, victim)) <==> Exposes(max, s, Reserve(victim))
  {
    var ask := s.asks[0];
    if Books(max, s, victim) {
      assert ask.agent in s.holder ==> InFlight(s.boots, s.holder[ask.agent], Ask(ask.agent, s.reserved[ask.agent]));
      BookExposes(s.boots, s.desired, s.holder, s.next, ask);
    }
  }

  lemma FreeExposes(boots: Boots, desired: Signatures, holder: map<AgentId, nat>, b: nat)
    requires b in boots && boots[b].phase in {Landed, Missed}
    requires var a := boots[b].agent; a in holder && holder[a] in boots && boots[holder[a]].agent == a
    requires !Strays(boots, desired, holder)
    ensures Strays(boots[b := boots[b].(phase := Released)], desired, holder - {boots[b].agent}) <==>
      holder[boots[b].agent] != b && Awaited(boots, desired, holder[boots[b].agent])
  {
    var a := boots[b].agent;
    var boots', holder' := boots[b := boots[b].(phase := Released)], holder - {a};
    forall x | Astray(boots', desired, holder', x) ensures x == holder[a] && x != b && Awaited(boots, desired, x) {
      assert !Astray(boots, desired, holder, x);
    }
    if holder[a] != b && Awaited(boots, desired, holder[a]) {
      assert Astray(boots', desired, holder', holder[a]);
    }
  }

  lemma PhaseExposesNothing(boots: Boots, boots': Boots, desired: Signatures, desired': Signatures, holder: map<AgentId, nat>)
    requires forall b :: Awaited(boots', desired', b) ==> Awaited(boots, desired, b) && boots'[b].agent == boots[b].agent
    requires !Strays(boots, desired, holder)
    ensures !Strays(boots', desired', holder)
  {
    forall b | Astray(boots', desired', holder, b) ensures false {
      assert Astray(boots, desired, holder, b);
    }
  }

  lemma MovingExposesNothing(boots: Boots, desired: Signatures, holder: map<AgentId, nat>, b: nat, p: Phase)
    requires b in boots && boots[b].phase in {Admitted, Spawning} && !Strays(boots, desired, holder)
    ensures !Strays(boots[b := boots[b].(phase := p)], desired, holder)
  {
    PhaseExposesNothing(boots, boots[b := boots[b].(phase := p)], desired, desired, holder);
  }

  lemma ReleaseExposes(s: State, b: nat)
    requires Fits(s) && !Exposed(s) && InPhase(s, b, {Landed, Missed})
    ensures Exposed(DoRelease(s, b)) <==> Exposes(0, s, Release(b))
  {
    var a := s.boots[b].agent;
    if a in s.reserved && s.reserved[a] == s.boots[b].sig {
      assert InFlight(s.boots, s.holder[a], Ask(a, s.reserved[a]));
      FreeExposes(s.boots, s.desired, s.holder, b);
    } else {
      PhaseExposesNothing(s.boots, s.boots[b := s.boots[b].(phase := Released)], s.desired, s.desired, s.holder);
    }
  }

  lemma BootStepExposesNothing(max: nat, s: State, act: Action)
    requires !Exposed(s) && Enabled(max, s, act) && (act.Start? || act.Land? || act.Fail? || act.Finish?)
    ensures !Exposed(Apply(max, s, act))
  {
    var boots := s.boots;
    match act {
      case Start(b) => MovingExposesNothing(boots, s.desired, s.holder, b, DoStart(s, b).boots[b].phase);
      case Land(b, now) => MovingExposesNothing(boots, s.desired, s.holder, b, DoLand(s, b, now).boots[b].phase);
      case Fail(b) => MovingExposesNothing(boots, s.desired, s.holder, b, Missed);
      case Finish(b) => PhaseExposesNothing(boots, boots - {b}, s.desired, s.desired, s.holder);
    }
  }

  /** A step exposes a pool exactly when the check before it says so. */
  lemma ExposesIff(max: nat, s: State, act: Action)
    requires Fits(s) && !Exposed(s) && Enabled(max, s, act)
    ensures Exposed(Apply(max, s, act)) <==> Exposes(max, s, act)
  {
    match act {
      case Want(a, sig) => WantExposes(s, a, sig);
      case Reserve(victim) => ReserveExposes(max, s, victim);
      case Release(b) => ReleaseExposes(s, b);
      case Drop(a) => PhaseExposesNothing(s.boots, s.boots, s.desired, s.desired - {a}, s.holder);
      case Take(_) =>
      case _ => BootStepExposesNothing(max, s, act);
    }
  }

  lemma {:induction false} CarefulKeepsCap(max: nat, s: State, acts: seq<Action>)
    requires Fits(s) && !Exposed(s) && SlotsUsed(s) <= max && IsCareful(max, s, acts)
    ensures var t := After(max, s, acts); Fits(t) && !Exposed(t) && SlotsUsed(t) <= max
    decreases |acts|
  {
    if acts != [] {
      if acts[0].Land? {
        assert !Astray(s.boots, s.desired, s.holder, acts[0].boot);
      }
      StepKeepsSlots(max, s, acts[0]);
      StepKeepsFit(max, s, acts[0]);
      ExposesIff(max, s, acts[0]);
      CarefulKeepsCap(max, Apply(max, s, acts[0]), acts[1..]);
    }
  }

  lemma UnexposedIsSafe(max: nat, s: State)
    requires Fits(s) && !Exposed(s) && SlotsUsed(s) <= max
    ensures CapSafe(max, s)
  {
    forall more | IsCareful(max, s, more) ensures SlotsUsed(After(max, s, more)) <= max {
      CarefulKeepsCap(max, s, more);
    }
  }

  /** The agent has no boots and no request waits for it. */
  ghost predicate IsNew(s: State, a: AgentId) {
    (forall b :: b in s.boots ==> s.boots[b].agent != a) && (forall ask :: ask in s.asks ==> ask.agent != a)
  }

  function Booting(boots: Boots): set<AgentId> {
    set b | b in boots :: boots[b].agent
  }

  /** Whoever asks is new. */
  ghost predicate AsksNew(max: nat, s: State, acts: seq<Action>)
    decreases |acts|
  {
    acts == []
    || ((acts[0].Want? ==> IsNew(s, acts[0].agent)) && AsksNew(max, Apply(max, s, acts[0]), acts[1..]))
  }

  /** A continuation that exceeds the cap, exposes nothing more and has only new agents ask. */
  ghost predicate Breaks(max: nat, s: State, acts: seq<Action>) {
    IsCareful(max, s, acts) && AsksNew(max, s, acts) && SlotsUsed(After(max, s, acts)) > max
  }

  /** From a pool that is exposed any enabled step may follow. */
  lemma Prepend(max: nat, s: State, a: Action, rest: seq<Action>)
    requires Exposed(s) && Enabled(max, s, a) && (a.Want? ==> IsNew(s, a.agent)) && Breaks(max, Apply(max, s, a), rest)
    ensures Breaks(max, s, [a] + rest)
  {
  }

  /** Boot `b` is awaited without its agent's reservation, in a pool whose reservations fit. */
  ghost predicate Loose(s: State, b: nat) {
    Fits(s) && Astray(s.boots, s.desired, s.holder, b)
  }

  ghost predicate AllPending(boots: Boots, holder: map<AgentId, nat>) {
    forall a :: a in holder ==> Pending(boots, holder[a])
  }

  lemma FullPlusOne(s: State, b: nat)
    requires Loose(s, b) && AllPending(s.boots, s.holder) && s.warm == map[] && s.boots[b].phase == Spawning
    ensures SlotsUsed(DoLand(s, b, 0)) == |s.reserved| + 1
  {
    var t := DoLand(s, b, 0);
    assert s.holder.Keys == s.reserved.Keys;
    MapSize(s.reserved);
    assert Unlanded(t.boots, t.holder) == s.holder.Keys;
  }

  lemma LooseStarts(max: nat, s: State, b: nat)
    requires Loose(s, b) && AllPending(s.boots, s.holder) && s.boots[b].phase == Admitted
    ensures var t := DoStart(s, b);
            && Loose(t, b) && AllPending(t.boots, t.holder) && t.boots[b].phase == Spawning
            && t.warm == s.warm && t.reserved == s.reserved
  {
    PhaseKeepsFit(s.boots, s.next, s.reserved, s.holder, b, Spawning);
  }

  /** The loose boot lands beside a pool full of reservations. */
  lemma BreakByLanding(max: nat, s: State, b: nat) returns (acts: seq<Action>)
    requires Loose(s, b) && AllPending(s.boots, s.holder) && s.warm == map[] && |s.reserved| >= max
    ensures Breaks(max, s, acts)
  {
    if s.boots[b].phase == Spawning {
      FullPlusOne(s, b);
      acts := [Land(b, 0)] + [];
      Prepend(max, s, Land(b, 0), []);
    } else {
      LooseStarts(max, s, b);
      FullPlusOne(DoStart(s, b), b);
      Prepend(max, DoStart(s, b), Land(b, 0), []);
      Prepend(max, s, Start(b), [Land(b, 0)] + []);
      acts := [Start(b)] + ([Land(b, 0)] + []);
    }
  }

  /** A request and its turn, in a pool with nothing warm, nobody queued and a free slot. */
  function Joined(s: State, a: AgentId, sig: Signature): State {
    Book(s.(desired := s.desired[a := sig]), Ask(a, sig))
  }

  lemma JoinTurn(max: nat, s: State, a: AgentId, sig: Signature)
    requires s.warm == map[] && s.asks == [] && |s.reserved| < max
    requires !Gives(s.reserved, Ask(a, sig)) && !Gives(s.inflight, Ask(a, sig))
    ensures var asked := Apply(max, s, Want(a, sig));
            Enabled(max, asked, Reserve(None)) && Apply(max, asked, Reserve(None)) == Joined(s, a, sig)
  {
    var asked := Apply(max, s, Want(a, sig));
    assert asked.asks == [Ask(a, sig)] && asked.asks[1..] == [];
    assert asked.warm - {a} == map[];
  }

  lemma NewAgentLeavesLoose(s: State, b: nat, c: AgentId)
    requires Loose(s, b) && AllPending(s.boots, s.holder) && c !in s.desired && c !in s.reserved
    ensures var t := Joined(s, c, "");
            Loose(t, b) && AllPending(t.boots, t.holder) && |t.reserved| == |s.reserved| + 1
  {
    BookKeepsFit(s.boots, s.next, s.reserved, s.holder, Ask(c, ""));
  }

  lemma NewAgentAsks(max: nat, s: State, b: nat, c: AgentId)
    requires Loose(s, b) && c !in s.desired
    ensures Loose(Apply(max, s, Want(c, "")), b)
  {
  }

  lemma BreakByFilling(max: nat, s: State, b: nat) returns (acts: seq<Action>)
    requires Loose(s, b) && AllPending(s.boots, s.holder) && s.warm == map[] && s.asks == []
    ensures Breaks(max, s, acts)
    decreases max - |s.reserved|
  {
    if |s.reserved| >= max {
      acts := BreakByLanding(max, s, b);
    } else {
      var c := FreshId(s.desired.Keys + s.reserved.Keys + s.inflight.Keys + Booting(s.boots));
      assert forall b :: b in s.boots ==> s.boots[b].agent in Booting(s.boots);
      JoinTurn(max, s, c, "");
      NewAgentAsks(max, s, b, c);
      NewAgentLeavesLoose(s, b, c);
      acts := BreakByFilling(max, Joined(s, c, ""), b);
      Prepend(max, Apply(max, s, Want(c, "")), Reserve(None), acts);
      Prepend(max, s, Want(c, ""), [Reserve(None)] + acts);
      acts := [Want(c, "")] + ([Reserve(None)] + acts);
    }
  }

  /** The reservation of a boot that has landed is released. */
  lemma LandedReleases(s: State, b: nat, a: AgentId)
    requires Loose(s, b) && a in s.holder && !Pending(s.boots, s.holder[a])
    ensures InPhase(s, s.holder[a], {Landed})
    ensures var t := DoRelease(s, s.holder[a]);
            Loose(t, b) && t.warm == s.warm && t.asks == s.asks && |t.reserved| < |s.reserved|
  {
    var h := s.holder[a];
    assert InFlight(s.boots, h, Ask(a, s.reserved[a]));
    ReleaseKeepsFit(s.boots, s.next, s.reserved, s.holder, h);
  }

  lemma BreakByReleasing(max: nat, s: State, b: nat) returns (acts: seq<Action>)
    requires Loose(s, b) && s.warm == map[] && s.asks == []
    ensures Breaks(max, s, acts)
    decreases |s.reserved|
  {
    if AllPending(s.boots, s.holder) {
      acts := BreakByFilling(max, s, b);
    } else {
      var a :| a in s.holder && !Pending(s.boots, s.holder[a]);
      LandedReleases(s, b, a);
      acts := BreakByReleasing(max, DoRelease(s, s.holder[a]), b);
      Prepend(max, s, Release(s.holder[a]), acts);
      acts := [Release(s.holder[a])] + acts;
    }
  }

  lemma TurnLeavesLoose(max: nat, s: State, b: nat)
    requires Loose(s, b) && s.warm == map[] && s.asks != []
    ensures Enabled(max, s, Reserve(None))
    ensures var t := DoReserve(max, s, None); Loose(t, b) && t.warm == map[] && t.asks == s.asks[1..]
  {
    assert s.warm - {s.asks[0].agent} == map[];
    ReserveKeepsFit(max, s, None);
  }

  lemma BreakByTurns(max: nat, s: State, b: nat) returns (acts: seq<Action>)
    requires Loose(s, b) && s.warm == map[]
    ensures Breaks(max, s, acts)
    decreases |s.asks|
  {
    if s.asks == [] {
      acts := BreakByReleasing(max, s, b);
    } else {
      TurnLeavesLoose(max, s, b);
      acts := BreakByTurns(max, DoReserve(max, s, None), b);
      Prepend(max, s, Reserve(None), acts);
      acts := [Reserve(None)] + acts;
    }
  }

  /** From an exposed pool a continuation exceeds the cap. */
  lemma BreakByTaking(max: nat, s: State, b: nat) returns (acts: seq<Action>)
    requires Loose(s, b)
    ensures Breaks(max, s, acts)
    decreases |s.warm|
  {
    if s.warm == map[] {
      acts := BreakByTurns(max, s, b);
    } else {
      var a :| a in s.warm;
      var t := Apply(max, s, Take(a));
      assert Loose(t, b) && |t.warm| < |s.warm|;
      acts := BreakByTaking(max, t, b);
      Prepend(max, s, Take(a), acts);
      acts := [Take(a)] + acts;
    }
  }

  /**
   Exactly when a step keeps the warm cap safe: after an interleaving in which nothing exposes the
   pool, every continuation in which nothing more does keeps the cap if and only if the step does
   not expose it.
   */
  lemma StepIsSafeIff(max: nat, acts: seq<Action>, act: Action)
    requires IsCareful(max, Empty, acts) && Enabled(max, After(max, Empty, acts), act)
    ensures var s := After(max, Empty, acts);
            CapSafe(max, Apply(max, s, act)) <==> !Exposes(max, s, act)
  {
    EmptyIsSafe();
    CarefulKeepsCap(max, Empty, acts);
    StepSafety(max, After(max, Empty, acts), act);
  }

  lemma EmptyIsSafe()
    ensures Fits(Empty) && !Exposed(Empty) && SlotsUsed(Empty) == 0
  {
  }

  lemma StepSafety(max: nat, s: State, act: Action)
    requires Fits(s) && !Exposed(s) && SlotsUsed(s) <= max && Enabled(max, s, act)
    ensures CapSafe(max, Apply(max, s, act)) <==> !Exposes(max, s, act)
  {
    var t := Apply(max, s, act);
    StepKeepsFit(max, s, act);
    ExposesIff(max, s, act);
    if Exposed(t) {
      var b :| Astray(t.boots, t.desired, t.holder, b);
      var more := BreakByTaking(max, t, b);
    } else {
      if act.Land? {
        assert !Astray(s.boots, s.desired, s.holder, act.boot);
      }
      StepKeepsSlots(max, s, act);
      UnexposedIsSafe(max, t);
    }
  }

  // ---- A flip back that fails both ----

  /** The actions are enabled in turn, and no boot lands while a request waits on the lock. */
  ghost predicate InTurn(max: nat, s: State, acts: seq<Action>)
    decreases |acts|
  {
    acts == []
    || (&& Enabled(max, s, acts[0]) && (acts[0].Land? ==> s.asks == [])
        && InTurn(max, Apply(max, s, acts[0]), acts[1..]))
  }

  lemma TurnFirst(max: nat, s: State, a: Action, rest: seq<Action>)
    requires Enabled(max, s, a) && (a.Land? ==> s.asks == []) && InTurn(max, Apply(max, s, a), rest)
    ensures InTurn(max, s, [a] + rest) && After(max, s, [a] + rest) == After(max, Apply(max, s, a), rest)
  {
  }

  /** Past the cap; and when `a` asks for `x` again, nobody waits and boot 1 lands on its live entry. */
  ghost predicate Failed(max: nat, s: State, a: AgentId, x: Signature) {
    && SlotsUsed(s) > max
    && Apply(max, s, Want(a, x)).asks == [] && Overwrites(Apply(max, s, Want(a, x)), Land(1, 0))
  }

  /** A boot of `y` and a later one of `x`, which has the reservation; nothing is warm and nobody waits. */
  ghost predicate TwoBoots(s: State, a: AgentId, x: Signature, y: Signature) {
    && Fits(s) && AllPending(s.boots, s.holder) && s.warm == map[] && s.asks == []
    && 0 in s.boots && s.boots[0] == Boot(a, y, Spawning) && 1 in s.boots && s.boots[1] == Boot(a, x, Spawning)
    && Gives(s.desired, Ask(a, x)) && Gives(s.inflight, Ask(a, x)) && Gives(s.reserved, Ask(a, x)) && Holds(s, a, 1)
  }

  /** Every slot is reserved, so the request for `y` books nothing; boot 0 lands all the same. */
  lemma FlipWhenFull(max: nat, s: State, a: AgentId, x: Signature, y: Signature) returns (acts: seq<Action>)
    requires x != y && TwoBoots(s, a, x, y) && |s.reserved| == max
    ensures InTurn(max, s, acts) && Failed(max, After(max, s, acts), a, x)
  {
    var asked := Apply(max, s, Want(a, y));
    var skipped := Apply(max, asked, Reserve(None));
    assert asked.asks == [Ask(a, y)] && asked.asks[1..] == [] && asked.warm - {a} == map[];
    assert skipped == s.(desired := s.desired[a := y]);
    FullTurnsOver(max, skipped, a, x, y);
    TurnFirst(max, skipped, Land(0, 0), []);
    TurnFirst(max, asked, Reserve(None), [Land(0, 0)] + []);
    TurnFirst(max, s, Want(a, y), [Reserve(None)] + ([Land(0, 0)] + []));
    acts := [Want(a, y)] + ([Reserve(None)] + ([Land(0, 0)] + []));
  }

  lemma FullTurnsOver(max: nat, s: State, a: AgentId, x: Signature, y: Signature)
    requires x != y && TwoBoots(s.(desired := s.desired[a := x]), a, x, y) && |s.reserved| == max
    requires Gives(s.desired, Ask(a, y))
    ensures Failed(max, DoLand(s, 0, 0), a, x)
  {
    var t := DoLand(s, 0, 0);
    assert s.holder.Keys == s.reserved.Keys;
    MapSize(s.reserved);
    assert Unlanded(t.boots, t.holder) == s.holder.Keys;
  }

  lemma NewAgentLeavesTwo(max: nat, s: State, a: AgentId, x: Signature, y: Signature, c: AgentId)
    requires TwoBoots(s, a, x, y) && c !in s.reserved
    ensures TwoBoots(Joined(s, c, ""), a, x, y) && |Joined(s, c, "").reserved| == |s.reserved| + 1
  {
    BookKeepsFit(s.boots, s.next, s.reserved, s.holder, Ask(c, ""));
  }

  lemma FlipBackFrom(max: nat, s: State, a: AgentId, x: Signature, y: Signature) returns (acts: seq<Action>)
    requires x != y && TwoBoots(s, a, x, y) && |s.reserved| <= max
    ensures InTurn(max, s, acts) && Failed(max, After(max, s, acts), a, x)
    decreases max - |s.reserved|
  {
    if |s.reserved| == max {
      acts := FlipWhenFull(max, s, a, x, y);
    } else {
      var c := FreshId(s.reserved.Keys + s.inflight.Keys);
      JoinTurn(max, s, c, "");
      NewAgentLeavesTwo(max, s, a, x, y, c);
      acts := FlipBackFrom(max, Joined(s, c, ""), a, x, y);
      TurnFirst(max, Apply(max, s, Want(c, "")), Reserve(None), acts);
      TurnFirst(max, s, Want(c, ""), [Reserve(None)] + acts);
      acts := [Want(c, "")] + ([Reserve(None)] + acts);
    }
  }

  /** A request, its turn and the start of its boot. */
  function Started(s: State, a: AgentId, sig: Signature): State {
    DoStart(Joined(s, a, sig), s.next)
  }

  lemma BootTurns(max: nat, s: State, a: AgentId, sig: Signature, rest: seq<Action>) returns (acts: seq<Action>)
    requires s.warm == map[] && s.asks == [] && |s.reserved| < max
    requires !Gives(s.reserved, Ask(a, sig)) && !Gives(s.inflight, Ask(a, sig))
    requires InTurn(max, Started(s, a, sig), rest)
    ensures InTurn(max, s, acts) && After(max, s, acts) == After(max, Started(s, a, sig), rest)
  {
    JoinTurn(max, s, a, sig);
    TurnFirst(max, Joined(s, a, sig), Start(s.next), rest);
    TurnFirst(max, Apply(max, s, Want(a, sig)), Reserve(None), [Start(s.next)] + rest);
    TurnFirst(max, s, Want(a, sig), [Reserve(None)] + ([Start(s.next)] + rest));
    acts := [Want(a, sig)] + ([Reserve(None)] + ([Start(s.next)] + rest));
  }

  /**
   The signature of one agent goes from `y` to `x` and back to `y` while both boots are in flight
   and every slot is reserved. Under any cap above one the first boot then lands past the cap, and
   if the signature turns to `x` once more the second boot replaces the live entry.
   */
  lemma FlipBackFails(max: nat, a: AgentId, x: Signature, y: Signature) returns (acts: seq<Action>)
    requires max >= 2 && x != y
    ensures InTurn(max, Empty, acts) && Failed(max, After(max, Empty, acts), a, x)
  {
    var one := Started(Empty, a, y);
    var two := Started(one, a, x);
    assert two.reserved == map[a := x] && two.boots == map[0 := Boot(a, y, Spawning), 1 := Boot(a, x, Spawning)];
    assert TwoBoots(two, a, x, y);
    acts := FlipBackFrom(max, two, a, x, y);
    acts := BootTurns(max, one, a, x, acts);
    acts := BootTurns(max, Empty, a, y, acts);
  }
}
