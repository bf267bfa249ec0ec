/**
 What startup does with the state a previous process left: adopt or stop the containers it
 finds, fail the runs it cannot pick up, and re-dispatch queued messages. Queued runs are
 posted again through `runEvent`, which may refuse them: `gates` is its verdict.
 */
module Recovery {
  import opened Prelude
  import opened QueueStore
  import opened SessionProtocol

  type ContainerId = string

  datatype Role = AgentRole | EgressProxy | OtherRole

  datatype ContainerInfo = ContainerInfo(
    id: ContainerId, role: Role, running: bool, hasGateway: bool, labelSession: Option<SessionId>)

  // A row of the persisted session-container map.
  datatype Mapping = Mapping(sid: SessionId, limited: bool)

  const WARM_LABEL: SessionId := "__warm__"

  function SessionOf(info: ContainerInfo, persisted: map<ContainerId, Mapping>): Option<SessionId> {
    if info.id in persisted then Some(persisted[info.id].sid) else info.labelSession
  }

  /** The running state of the last proxy listed for a session. */
  function SidecarRuns(infos: seq<ContainerInfo>, sid: SessionId): bool {
    if infos == [] then false
    else
      var last := infos[|infos|-1];
      if last.role == EgressProxy && last.labelSession == Some(sid) then last.running
      else SidecarRuns(infos[..|infos|-1], sid)
  }

  /** A container startup tries to attach to: an agent's, running, of a session that is not failed. */
  predicate Eligible(info: ContainerInfo, infos: seq<ContainerInfo>, persisted: map<ContainerId, Mapping>,
                     sessions: map<SessionId, Session>) {
    && info.role == AgentRole && info.hasGateway && info.running
    && SessionOf(info, persisted).Some? && SessionOf(info, persisted).value != WARM_LABEL
    && SessionOf(info, persisted).value in sessions
    && sessions[SessionOf(info, persisted).value].status != Failed
    && (info.id in persisted && persisted[info.id].limited ==> SidecarRuns(infos, SessionOf(info, persisted).value))
  }

  /** Container `k` is one its session could attach to and its probe and handshake succeed. */
  predicate Answers(infos: seq<ContainerInfo>, persisted: map<ContainerId, Mapping>, sessions: map<SessionId, Session>,
                    answers: ContainerId -> bool, sid: SessionId, k: nat) {
    && k < |infos| && Eligible(infos[k], infos, persisted, sessions)
    && SessionOf(infos[k], persisted).value == sid && answers(infos[k].id)
  }

  /** Each session in `first` has there the first container that answers for it, among the first `n`. */
  ghost predicate Firsts(infos: seq<ContainerInfo>, persisted: map<ContainerId, Mapping>, sessions: map<SessionId, Session>,
                         answers: ContainerId -> bool, n: nat, first: map<SessionId, nat>) {
    && (forall sid :: sid in first ==> first[sid] < n && Answers(infos, persisted, sessions, answers, sid, first[sid]))
    && (forall sid, k: nat :: k < n && Answers(infos, persisted, sessions, answers, sid, k) ==> sid in first && first[sid] <= k)
  }

  /** Container `k` is the one its session chose. */
  predicate Chosen(infos: seq<ContainerInfo>, persisted: map<ContainerId, Mapping>, first: map<SessionId, nat>, k: nat)
    requires k < |infos|
  {
    var owner := SessionOf(infos[k], persisted);
    owner.Some? && owner.value in first && first[owner.value] == k
  }

  /** The containers stopped among the first `n`: every one but the proxies and the chosen. */
  function Unchosen(infos: seq<ContainerInfo>, persisted: map<ContainerId, Mapping>, first: map<SessionId, nat>, n: nat): set<ContainerId>
    requires n <= |infos|
  {
    if n == 0 then {}
    else
      Unchosen(infos, persisted, first, n - 1) +
      if infos[n-1].role != EgressProxy && !Chosen(infos, persisted, first, n - 1) then {infos[n-1].id} else {}
  }

  lemma {:induction false} LaterChoiceStopsTheSame(infos: seq<ContainerInfo>, persisted: map<ContainerId, Mapping>,
                                                   first: map<SessionId, nat>, sid: SessionId, i: nat, n: nat)
    requires n <= i <= |infos| && sid !in first
    ensures Unchosen(infos, persisted, first[sid := i], n) == Unchosen(infos, persisted, first, n)
  {
    if n > 0 {
      LaterChoiceStopsTheSame(infos, persisted, first, sid, i, n - 1);
    }
  }

  lemma {:induction false} InUnchosen(infos: seq<ContainerInfo>, persisted: map<ContainerId, Mapping>,
                                      first: map<SessionId, nat>, n: nat, id: ContainerId)
    requires n <= |infos|
    ensures id in Unchosen(infos, persisted, first, n) <==> exists k ::
      0 <= k < n && infos[k].id == id && infos[k].role != EgressProxy && !Chosen(infos, persisted, first, k)
  {
    if n > 0 {
      InUnchosen(infos, persisted, first, n - 1, id);
    }
  }

  /** The checks a container passes before startup tries to attach to it. */
  method Inspect(info: ContainerInfo, infos: seq<ContainerInfo>, persisted: map<ContainerId, Mapping>,
                 sessions: map<SessionId, Session>) returns (target: Option<SessionId>)
    ensures target == if Eligible(info, infos, persisted, sessions) then SessionOf(info, persisted) else None
  {
    if info.role != AgentRole || !info.hasGateway {
      return None;
    }
    var owner := if info.id in persisted then Some(persisted[info.id].sid) else info.labelSession;
    if owner.None? || owner.value == WARM_LABEL {
      return None;
    }
    if owner.value !in sessions || sessions[owner.value].status == Failed {
      return None;
    }
    if !info.running {
      return None;
    }
    if info.id in persisted && persisted[info.id].limited && !SidecarRuns(infos, owner.value) {
      return None;
    }
    target := owner;
  }

  /** The next container changes the choices only if it is the first to answer for its session. */
  lemma FirstsGrow(infos: seq<ContainerInfo>, persisted: map<ContainerId, Mapping>, sessions: map<SessionId, Session>,
                   answers: ContainerId -> bool, i: nat, first: map<SessionId, nat>)
    requires i < |infos| && Firsts(infos, persisted, sessions, answers, i, first)
    ensures !Chosen(infos, persisted, first, i)
    ensures var owner := SessionOf(infos[i], persisted);
            if Eligible(infos[i], infos, persisted, sessions) && owner.value !in first && answers(infos[i].id)
            then Firsts(infos, persisted, sessions, answers, i + 1, first[owner.value := i])
            else Firsts(infos, persisted, sessions, answers, i + 1, first)
  {
  }

  /** Among the first `n` containers: each session adopted the first that answers, the others are stopped. */
  ghost predicate Outcome(infos: seq<ContainerInfo>, persisted: map<ContainerId, Mapping>, sessions: map<SessionId, Session>,
                          answers: ContainerId -> bool, n: nat, first: map<SessionId, nat>,
                          adopted: map<SessionId, ContainerId>, stopped: set<ContainerId>)
    requires n <= |infos|
  {
    && Firsts(infos, persisted, sessions, answers, n, first)
    && adopted.Keys == first.Keys
    && (forall sid :: sid in first ==> adopted[sid] == infos[first[sid]].id)
    && stopped == Unchosen(infos, persisted, first, n)
  }

  predicate Adopts(infos: seq<ContainerInfo>, persisted: map<ContainerId, Mapping>, sessions: map<SessionId, Session>,
                   answers: ContainerId -> bool, i: nat, adopted: map<SessionId, ContainerId>)
    requires i < |infos|
  {
    && Eligible(infos[i], infos, persisted, sessions)
    && SessionOf(infos[i], persisted).value !in adopted && answers(infos[i].id)
  }

  lemma NotAdopted(infos: seq<ContainerInfo>, persisted: map<ContainerId, Mapping>, sessions: map<SessionId, Session>,
                   answers: ContainerId -> bool, i: nat, first: map<SessionId, nat>,
                   adopted: map<SessionId, ContainerId>, stopped: set<ContainerId>)
    requires i < |infos| && Outcome(infos, persisted, sessions, answers, i, first, adopted, stopped)
    requires !Adopts(infos, persisted, sessions, answers, i, adopted)
    ensures Outcome(infos, persisted, sessions, answers, i + 1, first, adopted,
                    if infos[i].role == EgressProxy then stopped else stopped + {infos[i].id})
  {
    FirstsGrow(infos, persisted, sessions, answers, i, first);
  }

  lemma NewlyAdopted(infos: seq<ContainerInfo>, persisted: map<ContainerId, Mapping>, sessions: map<SessionId, Session>,
                     answers: ContainerId -> bool, i: nat, first: map<SessionId, nat>,
                     adopted: map<SessionId, ContainerId>, stopped: set<ContainerId>)
    requires i < |infos| && Outcome(infos, persisted, sessions, answers, i, first, adopted, stopped)
    requires Adopts(infos, persisted, sessions, answers, i, adopted)
    ensures var sid := SessionOf(infos[i], persisted).value;
            Outcome(infos, persisted, sessions, answers, i + 1, first[sid := i], adopted[sid := infos[i].id], stopped)
  {
    FirstsGrow(infos, persisted, sessions, answers, i, first);
    LaterChoiceStopsTheSame(infos, persisted, first, SessionOf(infos[i], persisted).value, i, i);
  }

  /**
   The adoption loop. A session adopts the first of its containers that answers, and every
   other container that is not a proxy is stopped.
   */
  method AdoptContainers(infos: seq<ContainerInfo>, persisted: map<ContainerId, Mapping>,
                         sessions: map<SessionId, Session>, answers: ContainerId -> bool)
    returns (adopted: map<SessionId, ContainerId>, stopped: set<ContainerId>)
    ensures exists first :: Outcome(infos, persisted, sessions, answers, |infos|, first, adopted, stopped)
    ensures FollowsRows(infos, persisted, sessions, answers, adopted)
  {
    adopted, stopped := map[], {};
    ghost var first: map<SessionId, nat> := map[];
    for i := 0 to |infos|
      invariant Outcome(infos, persisted, sessions, answers, i, first, adopted, stopped)
    {
      var info := infos[i];
      if info.role == EgressProxy {
        NotAdopted(infos, persisted, sessions, answers, i, first, adopted, stopped);
        continue;
      }
      var target := Inspect(info, infos, persisted, sessions);
      if target.None? || target.value in adopted || !answers(info.id) {
        NotAdopted(infos, persisted, sessions, answers, i, first, adopted, stopped);
        stopped := stopped + {info.id};
        continue;
      }
      NewlyAdopted(infos, persisted, sessions, answers, i, first, adopted, stopped);
      adopted := adopted[target.value := info.id];
      first := first[target.value := i];
    }
    RowDecides(infos, persisted, sessions, answers, first, adopted, stopped);
  }

  // ---- What is adopted, said of the containers and the rows alone ----

  /** The container is an agent's, runs and has a gateway, and startup reaches it. */
  predicate Reachable(info: ContainerInfo, answers: ContainerId -> bool) {
    info.role == AgentRole && info.running && info.hasGateway && answers(info.id)
  }

  /** Proxy `k` is the last one listed for the session. */
  predicate LastProxy(infos: seq<ContainerInfo>, sid: SessionId, k: nat) {
    && k < |infos| && infos[k].role == EgressProxy && infos[k].labelSession == Some(sid)
    && forall j :: k < j < |infos| && infos[j].role == EgressProxy ==> infos[j].labelSession != Some(sid)
  }

  ghost predicate ProxyRuns(infos: seq<ContainerInfo>, sid: SessionId) {
    exists k: nat :: LastProxy(infos, sid, k) && infos[k].running
  }

  lemma {:induction false} SidecarRunsIff(infos: seq<ContainerInfo>, sid: SessionId)
    ensures SidecarRuns(infos, sid) <==> ProxyRuns(infos, sid)
  {
    if infos != [] {
      var before, last := infos[..|infos|-1], infos[|infos|-1];
      SidecarRunsIff(before, sid);
      if last.role == EgressProxy && last.labelSession == Some(sid) {
        assert LastProxy(infos, sid, |infos| - 1);
        assert forall k :: LastProxy(infos, sid, k) ==> k == |infos| - 1;
      } else {
        forall k: nat ensures LastProxy(infos, sid, k) <==> LastProxy(before, sid, k) {
          if LastProxy(infos, sid, k) {
            assert forall j :: k < j < |before| ==> before[j] == infos[j];
          }
          if LastProxy(before, sid, k) {
            assert forall j :: k < j < |before| ==> infos[j] == before[j];
          }
        }
      }
    }
  }

  /** The session whose row names the container: known, not failed, and with its proxy if it is limited. */
  ghost predicate RowFits(infos: seq<ContainerInfo>, sessions: map<SessionId, Session>, row: Mapping) {
    && row.sid in sessions && sessions[row.sid].status != Failed && row.sid != "__warm__"
    && (row.limited ==> ProxyRuns(infos, row.sid))
  }

  /** The session has a container, listed no later than the `k`-th. */
  ghost predicate AdoptedByThen(infos: seq<ContainerInfo>, adopted: map<SessionId, ContainerId>, sid: SessionId, k: nat)
    requires k < |infos|
  {
    sid in adopted && exists j: nat :: j <= k && infos[j].id == adopted[sid]
  }

  ghost predicate HasFittingRow(infos: seq<ContainerInfo>, persisted: map<ContainerId, Mapping>,
                                sessions: map<SessionId, Session>, answers: ContainerId -> bool, k: nat)
    requires k < |infos|
  {
    infos[k].id in persisted && Reachable(infos[k], answers) && RowFits(infos, sessions, persisted[infos[k].id])
  }

  /** No row names the container, and its label is that of a known session that has not failed. */
  predicate HasFittingLabel(info: ContainerInfo, persisted: map<ContainerId, Mapping>, sessions: map<SessionId, Session>,
                            answers: ContainerId -> bool, sid: SessionId) {
    && info.id !in persisted && Reachable(info, answers) && info.labelSession == Some(sid)
    && sid != "__warm__" && sid in sessions && sessions[sid].status != Failed
  }

  /**
   A persisted row decides whose a container is, whatever its label says; without a row the label
   does, unless it says the container is a spare. So a claimed warm container, whose label still
   does, is attached to its session again.
   */
  ghost predicate FollowsRows(infos: seq<ContainerInfo>, persisted: map<ContainerId, Mapping>, sessions: map<SessionId, Session>,
                              answers: ContainerId -> bool, adopted: map<SessionId, ContainerId>) {
    && (forall k :: 0 <= k < |infos| && HasFittingRow(infos, persisted, sessions, answers, k) ==>
          AdoptedByThen(infos, adopted, persisted[infos[k].id].sid, k))
    && (forall sid :: sid in adopted && adopted[sid] in persisted ==>
          persisted[adopted[sid]].sid == sid && RowFits(infos, sessions, persisted[adopted[sid]]))
    && (forall sid :: sid in adopted ==> sid != "__warm__" && exists k ::
          && 0 <= k < |infos| && infos[k].id == adopted[sid] && Reachable(infos[k], answers)
          && (adopted[sid] !in persisted ==> infos[k].labelSession == Some(sid)))
    && (forall k, sid :: 0 <= k < |infos| && HasFittingLabel(infos[k], persisted, sessions, answers, sid) ==>
          AdoptedByThen(infos, adopted, sid, k))
  }

  lemma RowDecides(infos: seq<ContainerInfo>, persisted: map<ContainerId, Mapping>, sessions: map<SessionId, Session>,
                   answers: ContainerId -> bool, first: map<SessionId, nat>,
                   adopted: map<SessionId, ContainerId>, stopped: set<ContainerId>)
    requires Outcome(infos, persisted, sessions, answers, |infos|, first, adopted, stopped)
    ensures FollowsRows(infos, persisted, sessions, answers, adopted)
  {
    forall sid, k: nat | Answers(infos, persisted, sessions, answers, sid, k) ensures AdoptedByThen(infos, adopted, sid, k) {
      assert sid in first && first[sid] <= k && infos[first[sid]].id == adopted[sid];
    }
    forall k | 0 <= k < |infos| && HasFittingRow(infos, persisted, sessions, answers, k)
      ensures AdoptedByThen(infos, adopted, persisted[infos[k].id].sid, k)
    {
      SidecarRunsIff(infos, persisted[infos[k].id].sid);
      assert Answers(infos, persisted, sessions, answers, persisted[infos[k].id].sid, k);
    }
    forall k, sid | 0 <= k < |infos| && HasFittingLabel(infos[k], persisted, sessions, answers, sid)
      ensures AdoptedByThen(infos, adopted, sid, k)
    {
      assert Answers(infos, persisted, sessions, answers, sid, k);
    }
    forall sid | sid in adopted
      ensures sid != "__warm__" && exists k ::
        && 0 <= k < |infos| && infos[k].id == adopted[sid] && Reachable(infos[k], answers)
        && (adopted[sid] !in persisted ==> infos[k].labelSession == Some(sid))
      ensures adopted[sid] in persisted ==> persisted[adopted[sid]].sid == sid && RowFits(infos, sessions, persisted[adopted[sid]])
    {
      SidecarRunsIff(infos, sid);
      assert Answers(infos, persisted, sessions, answers, sid, first[sid]);
    }
  }

  /**
   What the adoption loop leaves: every container that is not a proxy is adopted or stopped
   and not both, no container is adopted twice, and a session has one exactly when some
   container of it answers.
   */
  lemma AdoptedOrStopped(infos: seq<ContainerInfo>, persisted: map<ContainerId, Mapping>, sessions: map<SessionId, Session>,
                         answers: ContainerId -> bool, first: map<SessionId, nat>,
                         adopted: map<SessionId, ContainerId>, stopped: set<ContainerId>)
    requires forall i, j :: 0 <= i < j < |infos| ==> infos[i].id != infos[j].id
    requires Outcome(infos, persisted, sessions, answers, |infos|, first, adopted, stopped)
    ensures forall k :: 0 <= k < |infos| && infos[k].role != EgressProxy ==>
      (infos[k].id in stopped <==> forall sid :: sid in adopted ==> adopted[sid] != infos[k].id)
    ensures forall k :: 0 <= k < |infos| && infos[k].role == EgressProxy ==> infos[k].id !in stopped
    ensures forall id :: id in stopped ==> exists k :: 0 <= k < |infos| && infos[k].id == id
    ensures forall s, t :: s in adopted && t in adopted && s != t ==> adopted[s] != adopted[t]
    ensures forall sid :: sid in adopted <==> exists k :: Answers(infos, persisted, sessions, answers, sid, k)
    ensures forall sid :: sid in adopted ==> sid in sessions && sessions[sid].status != Failed
  {
    forall sid | sid in adopted
      ensures Answers(infos, persisted, sessions, answers, sid, first[sid]) && adopted[sid] == infos[first[sid]].id
    {
    }
    forall id ensures id in stopped <==> exists k ::
      0 <= k < |infos| && infos[k].id == id && infos[k].role != EgressProxy && !Chosen(infos, persisted, first, k)
    {
      InUnchosen(infos, persisted, first, |infos|, id);
    }
    forall k | 0 <= k < |infos| && infos[k].role != EgressProxy
      ensures infos[k].id in stopped <==> forall sid :: sid in adopted ==> adopted[sid] != infos[k].id
    {
      if Chosen(infos, persisted, first, k) {
        assert adopted[SessionOf(infos[k], persisted).value] == infos[k].id;
      }
    }
  }

  // ---- Runs that cannot be picked up ----

  const INTERRUPTED := "orchestrator restarted mid-run; post a new message to resume"

  /** Sessions left in flight without an adopted container fail and lose their queue. */
  predicate Orphan(s: State, adopted: set<SessionId>, sid: SessionId) {
    sid in s.sessions && s.sessions[sid].Inflight() && sid !in adopted
  }

  function OrphansFailed(s: State, adopted: set<SessionId>): State {
    s.(sessions := map sid | sid in s.sessions ::
         if Orphan(s, adopted, sid) then s.sessions[sid].EndRunFailure(INTERRUPTED) else s.sessions[sid],
       queues := map sid | sid in s.queues && !Orphan(s, adopted, sid) :: s.queues[sid])
  }

  /** The same with the sessions in `rest` not yet looked at. */
  function FailedBut(s: State, adopted: set<SessionId>, rest: set<SessionId>): State {
    s.(sessions := map sid | sid in s.sessions ::
         if Orphan(s, adopted, sid) && sid !in rest then s.sessions[sid].EndRunFailure(INTERRUPTED) else s.sessions[sid],
       queues := map sid | sid in s.queues && !(Orphan(s, adopted, sid) && sid !in rest) :: s.queues[sid])
  }

  lemma FailNext(s: State, adopted: set<SessionId>, rest: set<SessionId>, sid: SessionId)
    requires sid in rest && sid in s.sessions
    ensures var t := FailedBut(s, adopted, rest);
            FailedBut(s, adopted, rest - {sid}) ==
              if Orphan(s, adopted, sid)
              then t.(sessions := t.sessions[sid := s.sessions[sid].EndRunFailure(INTERRUPTED)], queues := t.queues - {sid})
              else t
  {
  }

  method FailOrphans(router: AgentRouter, adopted: set<SessionId>)
    modifies router, router.queue
    ensures router.View() == OrphansFailed(old(router.View()), adopted)
    ensures forall sid :: sid in router.sessions <==> sid in old(router.sessions)
    ensures forall sid :: sid in router.sessions ==>
      if old(router.sessions)[sid].Inflight() && sid !in adopted then
        && router.sessions[sid].status == Failed
        && router.sessions[sid].error == Some("orchestrator restarted mid-run; post a new message to resume")
        && QueueOf(router.queue.bySession, sid) == []
      else router.sessions[sid] == old(router.sessions)[sid]
  {
    ghost var s := router.View();
    var rest := router.sessions.Keys;
    assert FailedBut(s, adopted, rest).sessions == s.sessions && FailedBut(s, adopted, rest).queues == s.queues;
    while rest != {}
      invariant rest <= s.sessions.Keys && router.sessions.Keys == s.sessions.Keys
      invariant router.View() == FailedBut(s, adopted, rest)
    {
      var sid :| sid in rest;
      FailNext(s, adopted, rest, sid);
      rest := rest - {sid};
      if router.sessions[sid].Inflight() && sid !in adopted {
        router.sessions := router.sessions[sid := router.sessions[sid].EndRunFailure(INTERRUPTED)];
        var dropped := router.queue.ClearEvents(sid);
      }
    }
    assert FailedBut(s, adopted, {}).sessions == OrphansFailed(s, adopted).sessions;
    assert FailedBut(s, adopted, {}).queues == OrphansFailed(s, adopted).queues;
  }

  // ---- Queued messages ----

  datatype Step =
    | Drain(sid: SessionId, gate: Gate)                      // one pass of the startup drain loop
    | Finalize(sid: SessionId, usage: Usage, gate: Gate)     // an adopted run completed, its price is known
    | Abandon(sid: SessionId)                                // an adopted run failed: the queue is cleared
    | Collapse(sid: SessionId, message: string)              // its container is evicted: the session fails
    | Advance(action: Action)                                // another run, or a client

  /** Posts the head of an idle session's queue again and removes it; a refused post leaves it. */
  function Redispatch(s: State, sid: SessionId, gate: Gate): State {
    match HeadOf(QueueOf(s.queues, sid))
    case None => s
    case Some(head) =>
      if gate == Open then
        var t := DoPost(s, sid, head, gate, false);
        t.(queues := Shifted(t.queues, sid))
      else s
  }

  function ApplyStep(s: State, step: Step): State {
    match step
    case Drain(sid, gate) =>
      if sid !in s.sessions then s.(queues := s.queues - {sid})
      else if s.sessions[sid].status != Idle then s
      else Redispatch(s, sid, gate)
    case Finalize(sid, usage, gate) =>
      if sid !in s.sessions then s
      else Redispatch(s.(sessions := s.sessions[sid := s.sessions[sid].EndRunSuccess(usage)]), sid, gate)
    case Abandon(sid) =>
      if sid !in s.sessions || !s.sessions[sid].Inflight() then s
      else s.(queues := s.queues - {sid})
    case Collapse(sid, message) =>
      if sid !in s.sessions then s
      else s.(sessions := s.sessions[sid := s.sessions[sid].EndRunFailure(message)])
    case Advance(action) => Apply(s, action)
  }

  function ExecSteps(s: State, steps: seq<Step>): State {
    if steps == [] then s else ApplyStep(ExecSteps(s, steps[..|steps|-1]), steps[|steps|-1])
  }

  ghost predicate Observed(steps: seq<Step>, sid: SessionId) {
    exists i :: 0 <= i < |steps| && (steps[i].Finalize? || steps[i].Abandon?) && steps[i].sid == sid
  }

  /** The session's queue was cleared and its container is being evicted. */
  predicate Evicting(steps: seq<Step>, sid: SessionId) {
    steps != [] &&
    var last := steps[|steps|-1];
    last == Abandon(sid) || (!(last.Collapse? && last.sid == sid) && Evicting(steps[..|steps|-1], sid))
  }

  predicate MovesRun(a: Action) {
    a.Acquired? || a.Complete? || a.Fail?
  }

  /**
   An observer watches a session that was in flight when startup found it, and speaks once.
   Runs started since may be acquired, complete or fail. Nobody posts: the server does not listen.
   */
  ghost predicate May(base: State, before: seq<Step>, step: Step) {
    match step
    case Drain(_, _) => true
    case Finalize(sid, _, _) => sid in base.sessions && base.sessions[sid].Inflight() && !Observed(before, sid)
    case Abandon(sid) => sid in base.sessions && base.sessions[sid].Inflight() && !Observed(before, sid)
    case Collapse(sid, _) => Evicting(before, sid)
    case Advance(action) => MovesRun(action) && Enabled(ExecSteps(base, before), action)
  }

  ghost predicate Schedule(base: State, steps: seq<Step>) {
    steps == [] || (Schedule(base, steps[..|steps|-1]) && May(base, steps[..|steps|-1], steps[|steps|-1]))
  }

  // ---- One session among others ----

  predicate IsRunOf(runs: map<nat, Run>, sid: SessionId, r: nat) {
    r in runs && runs[r].sid == sid
  }

  ghost predicate NoRun(runs: map<nat, Run>, sid: SessionId) {
    forall r: nat :: !IsRunOf(runs, sid, r)
  }

  ghost predicate OneRun(runs: map<nat, Run>, sid: SessionId, event: QueuedEvent) {
    exists r: nat :: IsRunOf(runs, sid, r) && runs[r].event == event && forall q: nat :: IsRunOf(runs, sid, q) ==> q == r
  }

  ghost predicate RunIds(s: State) {
    forall r :: r in s.runs ==> r < s.nextRun && s.runs[r].sid in s.sessions
  }

  /** The messages of a session that were dispatched or dropped, in order. */
  function Gone(s: State, sid: SessionId): seq<QueuedEvent> {
    Messages(HistoryOf(s, sid).settled)
  }

  /** What concerns this session is the same in both states. */
  ghost predicate SameFor(s: State, t: State, sid: SessionId) {
    && (sid in t.sessions <==> sid in s.sessions) && (sid in s.sessions ==> t.sessions[sid] == s.sessions[sid])
    && QueueOf(t.queues, sid) == QueueOf(s.queues, sid) && Gone(t, sid) == Gone(s, sid)
    && forall r: nat :: (IsRunOf(t.runs, sid, r) <==> IsRunOf(s.runs, sid, r)) && (IsRunOf(s.runs, sid, r) ==> t.runs[r] == s.runs[r])
  }

  /** The session a step is about, if it is about one. */
  predicate Concerns(s: State, step: Step, sid: SessionId) {
    match step
    case Drain(x, _) => x == sid
    case Finalize(x, _, _) => x == sid
    case Abandon(x) => x == sid
    case Collapse(x, _) => x == sid
    case Advance(a) => MovesRun(a) && IsRunOf(s.runs, sid, a.run)
  }

  function Begun(s: State, x: SessionId, event: QueuedEvent): State
    requires x in s.sessions
  {
    Dispatch(Accept(s.(sessions := s.sessions[x := s.sessions[x].BeginRun().BumpTurns()]), x, event), x, event)
  }

  lemma RedispatchElsewhere(s: State, x: SessionId, gate: Gate, sid: SessionId)
    requires RunIds(s) && x in s.sessions && s.sessions[x].status == Idle && x != sid
    ensures RunIds(Redispatch(s, x, gate)) && SameFor(s, Redispatch(s, x, gate), sid)
  {
    if QueueOf(s.queues, x) != [] && gate == Open {
      var head := QueueOf(s.queues, x)[0];
      assert DoPost(s, x, head, gate, false) == Begun(s, x, head);
    }
  }

  lemma FailElsewhere(s: State, r: nat, message: string, sid: SessionId)
    requires RunIds(s) && r in s.runs && s.runs[r].sid != sid
    ensures RunIds(DoFail(s, r, message)) && SameFor(s, DoFail(s, r, message), sid)
  {
  }

  lemma PassElsewhere(s: State, step: Step, sid: SessionId)
    requires RunIds(s) && (step.Drain? || step.Finalize?) && step.sid != sid
    ensures RunIds(ApplyStep(s, step)) && SameFor(s, ApplyStep(s, step), sid)
  {
    var x := step.sid;
    if x in s.sessions {
      if step.Finalize? {
        RedispatchElsewhere(s.(sessions := s.sessions[x := s.sessions[x].EndRunSuccess(step.usage)]), x, step.gate, sid);
      } else if s.sessions[x].status == Idle {
        RedispatchElsewhere(s, x, step.gate, sid);
      }
    }
  }

  /** A step about one session leaves every other as it is. */
  lemma StepElsewhere(s: State, step: Step, sid: SessionId)
    requires RunIds(s) && !Concerns(s, step, sid) && (step.Advance? ==> MovesRun(step.action) && Enabled(s, step.action))
    ensures RunIds(ApplyStep(s, step)) && SameFor(s, ApplyStep(s, step), sid)
  {
    match step {
      case Drain(_, _) => PassElsewhere(s, step, sid);
      case Finalize(_, _, _) => PassElsewhere(s, step, sid);
      case Abandon(_) =>
      case Collapse(_, _) =>
      case Advance(Acquired(_)) =>
      case Advance(Complete(r, usage)) =>
      case Advance(Fail(r, message)) => FailElsewhere(s, r, message, sid);
      case Advance(_) =>
    }
  }

  // ---- The fate of a session ----

  datatype Fate =
    | Untouched
    | Chained(k: nat)   // the head was posted, and its run is now at the k-th queued message
    | Emptied           // the head was posted, and its chain of runs has ended
    | WentIdle          // its run completed and nothing was posted
    | Doomed            // its run failed, its queue is cleared, its container is being evicted
    | WentFailed        // its run failed

  /** What a fate means for a session that startup found as it is in `base`. */
  ghost predicate Has(base: State, s: State, sid: SessionId, fate: Fate)
    requires sid in base.sessions
  {
    var queue, was := QueueOf(base.queues, sid), base.sessions[sid];
    sid in s.sessions &&
    match fate
    case Untouched =>
      NoRun(s.runs, sid) && QueueOf(s.queues, sid) == queue && s.sessions[sid] == was && Gone(s, sid) == Gone(base, sid)
    case Chained(k) =>
      && 1 <= k <= |queue| && QueueOf(s.queues, sid) == queue[k..] && OneRun(s.runs, sid, queue[k-1])
      && s.sessions[sid].Inflight() && s.sessions[sid].turns == was.turns + 1
      && Gone(s, sid) == Gone(base, sid) + queue[..k]
    case Emptied =>
      && queue != [] && QueueOf(s.queues, sid) == [] && NoRun(s.runs, sid)
      && !s.sessions[sid].Inflight() && s.sessions[sid].turns == was.turns + 1
      && Gone(s, sid) == Gone(base, sid) + queue
    case WentIdle =>
      && NoRun(s.runs, sid) && QueueOf(s.queues, sid) == queue && was.Inflight()
      && s.sessions[sid].status == Idle && s.sessions[sid].turns == was.turns && Gone(s, sid) == Gone(base, sid)
    case Doomed =>
      NoRun(s.runs, sid) && QueueOf(s.queues, sid) == [] && s.sessions[sid] == was && was.Inflight()
    case WentFailed =>
      NoRun(s.runs, sid) && QueueOf(s.queues, sid) == [] && s.sessions[sid].status == Failed && was.Inflight()
  }

  /** The fate after a step about the session. */
  function NextFate(queue: seq<QueuedEvent>, was: Session, step: Step, fate: Fate): Fate {
    match step
    case Drain(_, gate) =>
      var idle := fate == WentIdle || (fate == Untouched && was.status == Idle);
      if idle && queue != [] && gate == Open then Chained(1) else fate
    case Finalize(_, _, gate) =>
      if fate != Untouched then fate else if queue != [] && gate == Open then Chained(1) else WentIdle
    case Abandon(_) => if fate != Untouched then fate else Doomed
    case Collapse(_, _) => if fate != Doomed then fate else WentFailed
    case Advance(a) =>
      if !fate.Chained? || a.Acquired? then fate
      else if a.Complete? && fate.k < |queue| then Chained(fate.k + 1)
      else Emptied
  }

  function FateOf(base: State, steps: seq<Step>, sid: SessionId): Fate
    requires sid in base.sessions
  {
    if steps == [] then Untouched
    else
      var before, step := steps[..|steps|-1], steps[|steps|-1];
      var fate := FateOf(base, before, sid);
      if Concerns(ExecSteps(base, before), step, sid)
      then NextFate(QueueOf(base.queues, sid), base.sessions[sid], step, fate)
      else fate
  }

  lemma SameForKeepsFate(base: State, s: State, t: State, sid: SessionId, fate: Fate)
    requires sid in base.sessions && Has(base, s, sid, fate) && SameFor(s, t, sid)
    ensures Has(base, t, sid, fate)
  {
  }

  lemma MessagesOf(settled: seq<Settled>, more: seq<Settled>)
    ensures Messages(settled + more) == Messages(settled) + Messages(more)
  {
  }

  /** A dispatch adds one run, of a session that had none, and settles its message. */
  lemma DispatchHere(s: State, sid: SessionId, event: QueuedEvent)
    requires RunIds(s) && sid in s.sessions && NoRun(s.runs, sid)
    ensures var t := Dispatch(s, sid, event);
            && RunIds(t) && t.sessions == s.sessions && t.queues == s.queues
            && OneRun(t.runs, sid, event) && Gone(t, sid) == Gone(s, sid) + [event]
  {
    var t := Dispatch(s, sid, event);
    MessagesOf(HistoryOf(s, sid).settled, [Settled(event, true)]);
    assert IsRunOf(t.runs, sid, s.nextRun);
    assert forall q: nat :: IsRunOf(t.runs, sid, q) && q != s.nextRun ==> IsRunOf(s.runs, sid, q);
  }

  /** Posting the head again takes it off the queue and puts it in flight, once. */
  lemma RedispatchHere(s: State, sid: SessionId, gate: Gate)
    requires RunIds(s) && sid in s.sessions && s.sessions[sid].status == Idle && NoRun(s.runs, sid)
    ensures var t, queue := Redispatch(s, sid, gate), QueueOf(s.queues, sid);
            if queue != [] && gate == Open then
              && RunIds(t) && sid in t.sessions && OneRun(t.runs, sid, queue[0]) && QueueOf(t.queues, sid) == queue[1..]
              && t.sessions[sid].Inflight() && t.sessions[sid].turns == s.sessions[sid].turns + 1
              && Gone(t, sid) == Gone(s, sid) + [queue[0]]
            else t == s
  {
    var queue := QueueOf(s.queues, sid);
    if queue != [] && gate == Open {
      var begun := Accept(s.(sessions := s.sessions[sid := s.sessions[sid].BeginRun().BumpTurns()]), sid, queue[0]);
      DispatchHere(begun, sid, queue[0]);
    }
  }

  lemma RedispatchFate(base: State, s: State, sid: SessionId, gate: Gate)
    requires RunIds(s) && sid in base.sessions && sid in s.sessions && s.sessions[sid].status == Idle && NoRun(s.runs, sid)
    requires QueueOf(s.queues, sid) == QueueOf(base.queues, sid) && Gone(s, sid) == Gone(base, sid)
    requires s.sessions[sid].turns == base.sessions[sid].turns
    ensures QueueOf(base.queues, sid) != [] && gate == Open ==>
      RunIds(Redispatch(s, sid, gate)) && Has(base, Redispatch(s, sid, gate), sid, Chained(1))
    ensures !(QueueOf(base.queues, sid) != [] && gate == Open) ==> Redispatch(s, sid, gate) == s
  {
    RedispatchHere(s, sid, gate);
    var queue := QueueOf(base.queues, sid);
    assert queue != [] ==> queue[..1] == [queue[0]];
  }

  lemma DrainFate(base: State, s: State, sid: SessionId, gate: Gate, fate: Fate)
    requires RunIds(s) && sid in base.sessions && Has(base, s, sid, fate)
    ensures RunIds(ApplyStep(s, Drain(sid, gate)))
    ensures Has(base, ApplyStep(s, Drain(sid, gate)), sid,
                NextFate(QueueOf(base.queues, sid), base.sessions[sid], Drain(sid, gate), fate))
  {
    if s.sessions[sid].status == Idle {
      if fate.Emptied? {
        assert HeadOf(QueueOf(s.queues, sid)) == None;
      } else {
        RedispatchFate(base, s, sid, gate);
      }
    }
  }

  lemma FinalizeFate(base: State, s: State, sid: SessionId, usage: Usage, gate: Gate)
    requires RunIds(s) && sid in base.sessions && base.sessions[sid].Inflight() && Has(base, s, sid, Untouched)
    ensures RunIds(ApplyStep(s, Finalize(sid, usage, gate)))
    ensures Has(base, ApplyStep(s, Finalize(sid, usage, gate)), sid,
                if QueueOf(base.queues, sid) != [] && gate == Open then Chained(1) else WentIdle)
  {
    RedispatchFate(base, s.(sessions := s.sessions[sid := s.sessions[sid].EndRunSuccess(usage)]), sid, gate);
  }

  lemma RunEnds(runs: map<nat, Run>, sid: SessionId, r: nat, event: QueuedEvent)
    requires IsRunOf(runs, sid, r) && OneRun(runs, sid, event)
    ensures NoRun(runs - {r}, sid)
  {
    assert forall q: nat :: IsRunOf(runs - {r}, sid, q) ==> IsRunOf(runs, sid, q);
  }

  lemma CompleteFate(base: State, s: State, r: nat, usage: Usage, k: nat)
    requires RunIds(s) && r in s.runs && s.runs[r].sid in base.sessions && Has(base, s, s.runs[r].sid, Chained(k))
    ensures RunIds(DoComplete(s, r, usage))
    ensures var sid := s.runs[r].sid;
            Has(base, DoComplete(s, r, usage), sid, if k < |QueueOf(base.queues, sid)| then Chained(k + 1) else Emptied)
  {
    var sid := s.runs[r].sid;
    var queue := QueueOf(base.queues, sid);
    var done := Earn(s.(runs := s.runs - {r}), sid, usage);
    RunEnds(s.runs, sid, r, queue[k-1]);
    if k < |queue| {
      var t := done.(queues := Shifted(s.queues, sid), sessions := s.sessions[sid := s.sessions[sid].AddUsage(usage)]);
      assert QueueOf(s.queues, sid)[0] == queue[k] && QueueOf(s.queues, sid)[1..] == queue[k+1..];
      DispatchHere(t, sid, queue[k]);
      assert Gone(base, sid) + queue[..k] + [queue[k]] == Gone(base, sid) + queue[..k+1];
    } else {
      assert queue[..k] == queue;
    }
  }

  lemma FailFate(base: State, s: State, r: nat, message: string, k: nat)
    requires RunIds(s) && r in s.runs && s.runs[r].sid in base.sessions && Has(base, s, s.runs[r].sid, Chained(k))
    ensures RunIds(DoFail(s, r, message)) && Has(base, DoFail(s, r, message), s.runs[r].sid, Emptied)
  {
    var sid := s.runs[r].sid;
    var queue := QueueOf(base.queues, sid);
    RunEnds(s.runs, sid, r, queue[k-1]);
    MessagesOf(HistoryOf(s, sid).settled, Dropped(queue[k..]));
    assert Messages(Dropped(queue[k..])) == queue[k..];
    assert Gone(base, sid) + queue[..k] + queue[k..] == Gone(base, sid) + queue;
  }

  /** A step about a session whose run has been started meanwhile. */
  lemma AdvanceFate(base: State, s: State, a: Action, sid: SessionId, fate: Fate)
    requires RunIds(s) && sid in base.sessions && Has(base, s, sid, fate)
    requires MovesRun(a) && Enabled(s, a) && IsRunOf(s.runs, sid, a.run)
    ensures fate.Chained? && RunIds(Apply(s, a))
    ensures Has(base, Apply(s, a), sid, NextFate(QueueOf(base.queues, sid), base.sessions[sid], Advance(a), fate))
  {
    match a {
      case Acquired(r) =>
        var t := Apply(s, a);
        assert forall q: nat :: IsRunOf(t.runs, sid, q) <==> IsRunOf(s.runs, sid, q);
      case Complete(r, usage) => CompleteFate(base, s, r, usage, fate.k);
      case Fail(r, message) => FailFate(base, s, r, message, fate.k);
      case _ =>
    }
  }

  lemma StepFate(base: State, before: seq<Step>, s: State, step: Step, sid: SessionId, fate: Fate)
    requires RunIds(s) && sid in base.sessions && Has(base, s, sid, fate) && s == ExecSteps(base, before)
    requires May(base, before, step) && Concerns(s, step, sid)
    requires base.sessions[sid].Inflight() && !Observed(before, sid) ==> fate == Untouched
    requires Evicting(before, sid) ==> fate == Doomed
    ensures RunIds(ApplyStep(s, step))
    ensures Has(base, ApplyStep(s, step), sid, NextFate(QueueOf(base.queues, sid), base.sessions[sid], step, fate))
  {
    match step {
      case Drain(_, gate) => DrainFate(base, s, sid, gate, fate);
      case Finalize(_, usage, gate) => FinalizeFate(base, s, sid, usage, gate);
      case Abandon(_) =>
        var t := ApplyStep(s, step);
        assert forall q: nat :: IsRunOf(t.runs, sid, q) <==> IsRunOf(s.runs, sid, q);
      case Collapse(_, message) =>
        var t := ApplyStep(s, step);
        assert forall q: nat :: IsRunOf(t.runs, sid, q) <==> IsRunOf(s.runs, sid, q);
      case Advance(a) => AdvanceFate(base, s, a, sid, fate);
    }
  }

  lemma ObservedStep(steps: seq<Step>, sid: SessionId)
    requires steps != []
    ensures var last := steps[|steps|-1];
            Observed(steps, sid) <==>
              Observed(steps[..|steps|-1], sid) || ((last.Finalize? || last.Abandon?) && last.sid == sid)
  {
  }

  /** The fate of every session after any interleaving of drain passes, observers and new runs. */
  lemma {:induction false} FateAfter(base: State, steps: seq<Step>, sid: SessionId)
    requires base.runs == map[] && Schedule(base, steps) && sid in base.sessions
    ensures RunIds(ExecSteps(base, steps)) && Has(base, ExecSteps(base, steps), sid, FateOf(base, steps, sid))
    ensures base.sessions[sid].Inflight() && !Observed(steps, sid) ==> FateOf(base, steps, sid) == Untouched
    ensures Evicting(steps, sid) <==> FateOf(base, steps, sid) == Doomed
  {
    if steps != [] {
      var before, step := steps[..|steps|-1], steps[|steps|-1];
      var s := ExecSteps(base, before);
      FateAfter(base, before, sid);
      ObservedStep(steps, sid);
      if Concerns(s, step, sid) {
        StepFate(base, before, s, step, sid, FateOf(base, before, sid));
      } else {
        StepElsewhere(s, step, sid);
        SameForKeepsFate(base, s, ApplyStep(s, step), sid, FateOf(base, before, sid));
      }
    }
  }

  // ---- What startup achieves ----

  /** An idle session's head was offered and accepted in some pass. */
  ghost predicate Accepted(steps: seq<Step>, sid: SessionId) {
    exists i :: 0 <= i < |steps| && steps[i] == Drain(sid, Open)
  }

  /** The session's run was seen to complete, its head refused then and in every later pass. */
  ghost predicate Refused(steps: seq<Step>, sid: SessionId) {
    exists i :: 0 <= i < |steps| && RefusedAt(steps, sid, i)
  }

  ghost predicate RefusedAt(steps: seq<Step>, sid: SessionId, i: nat)
    requires i < |steps|
  {
    && steps[i].Finalize? && steps[i].sid == sid && steps[i].gate != Open
    && forall j :: i < j < |steps| ==> steps[j] != Drain(sid, Open)
  }

  ghost predicate Drained(steps: seq<Step>, sid: SessionId) {
    exists i :: 0 <= i < |steps| && steps[i].Drain? && steps[i].sid == sid
  }

  lemma AcceptedStep(steps: seq<Step>, sid: SessionId)
    requires steps != []
    ensures Accepted(steps, sid) <==> Accepted(steps[..|steps|-1], sid) || steps[|steps|-1] == Drain(sid, Open)
  {
  }

  lemma RefusedStep(steps: seq<Step>, sid: SessionId)
    requires steps != []
    ensures var before, last := steps[..|steps|-1], steps[|steps|-1];
            Refused(steps, sid) <==>
              || (last.Finalize? && last.sid == sid && last.gate != Open)
              || (Refused(before, sid) && last != Drain(sid, Open))
  {
    var before, last := steps[..|steps|-1], steps[|steps|-1];
    if last.Finalize? && last.sid == sid && last.gate != Open {
      assert RefusedAt(steps, sid, |steps|-1);
    }
    if Refused(before, sid) && last != Drain(sid, Open) {
      var i :| 0 <= i < |before| && RefusedAt(before, sid, i);
      assert steps[i] == before[i];
      assert forall j :: i < j < |before| ==> steps[j] == before[j];
      assert RefusedAt(steps, sid, i);
    }
    if Refused(steps, sid) {
      var i :| 0 <= i < |steps| && RefusedAt(steps, sid, i);
      if i < |before| {
        assert steps[i] == before[i];
        assert forall j :: i < j < |before| ==> before[j] == steps[j];
        assert RefusedAt(before, sid, i);
      }
    }
  }

  /** When a fate leaves the queue behind no run. */
  lemma {:induction false} StrandedFate(base: State, steps: seq<Step>, sid: SessionId)
    requires base.runs == map[] && Schedule(base, steps) && sid in base.sessions && QueueOf(base.queues, sid) != []
    ensures base.sessions[sid].status == Failed ==> FateOf(base, steps, sid) == Untouched
    ensures base.sessions[sid].status == Idle ==>
      (FateOf(base, steps, sid) == Untouched <==> !Accepted(steps, sid)) && FateOf(base, steps, sid) != WentIdle
    ensures base.sessions[sid].Inflight() ==> (FateOf(base, steps, sid) == WentIdle <==> Refused(steps, sid))
  {
    if steps != [] {
      var before, step := steps[..|steps|-1], steps[|steps|-1];
      StrandedFate(base, before, sid);
      FateAfter(base, before, sid);
      AcceptedStep(steps, sid);
      RefusedStep(steps, sid);
      var s := ExecSteps(base, before);
      if Concerns(s, step, sid) && step.Advance? {
        AdvanceFate(base, s, step.action, sid, FateOf(base, before, sid));
      }
    }
  }

  /**
   Which sessions keep queued messages behind no run, whatever the order of drain passes,
   observers and runs: those that were failed with a queue, those that were idle and whose head
   every pass found refused, and those whose adopted run completed and whose head was refused.
   */
  lemma LeftBehindIff(left: State, adopted: set<SessionId>, steps: seq<Step>, sid: SessionId)
    requires left.runs == map[] && sid in left.sessions && Schedule(OrphansFailed(left, adopted), steps)
    ensures var t, queue, was := ExecSteps(OrphansFailed(left, adopted), steps), QueueOf(left.queues, sid), left.sessions[sid];
            sid in t.sessions &&
            ((QueueOf(t.queues, sid) != [] && !t.sessions[sid].Inflight()) <==>
             (queue != [] &&
              (|| was.status == Failed
               || (was.status == Idle && !Accepted(steps, sid))
               || (was.Inflight() && sid in adopted && Refused(steps, sid)))))
  {
    var base := OrphansFailed(left, adopted);
    FateAfter(base, steps, sid);
    if QueueOf(base.queues, sid) != [] {
      StrandedFate(base, steps, sid);
    }
    if Orphan(left, adopted, sid) {
      assert QueueOf(base.queues, sid) == [] && base.sessions[sid].status == Failed;
    } else {
      assert QueueOf(base.queues, sid) == QueueOf(left.queues, sid) && base.sessions[sid] == left.sessions[sid];
    }
  }

  lemma {:induction false} SameSessions(base: State, steps: seq<Step>)
    requires Schedule(base, steps)
    ensures ExecSteps(base, steps).sessions.Keys == base.sessions.Keys
  {
    if steps != [] {
      SameSessions(base, steps[..|steps|-1]);
      StepKeepsSessions(ExecSteps(base, steps[..|steps|-1]), steps[|steps|-1]);
    }
  }

  lemma StepKeepsSessions(s: State, step: Step)
    requires step.Advance? ==> MovesRun(step.action)
    ensures ApplyStep(s, step).sessions.Keys == s.sessions.Keys
  {
  }

  lemma {:induction false} RunIdsAfter(base: State, steps: seq<Step>)
    requires base.runs == map[] && Schedule(base, steps)
    ensures RunIds(ExecSteps(base, steps))
  {
    if sid :| sid in base.sessions {
      FateAfter(base, steps, sid);
    } else {
      assert base.sessions.Keys == {};
      NothingToRun(base, steps);
    }
  }

  lemma {:induction false} NothingToRun(base: State, steps: seq<Step>)
    requires base.runs == map[] && base.sessions.Keys == {} && Schedule(base, steps)
    ensures ExecSteps(base, steps).runs == map[]
  {
    if steps != [] {
      NothingToRun(base, steps[..|steps|-1]);
      SameSessions(base, steps[..|steps|-1]);
    }
  }

  lemma {:induction false} EvictingIsKnown(base: State, steps: seq<Step>, sid: SessionId)
    requires Schedule(base, steps) && Evicting(steps, sid)
    ensures sid in base.sessions
  {
    if steps[|steps|-1] != Abandon(sid) {
      EvictingIsKnown(base, steps[..|steps|-1], sid);
    }
  }

  /** A drain pass for a session that no longer exists clears its queue for good. */
  lemma {:induction false} MissingQueueGoes(base: State, steps: seq<Step>, sid: SessionId)
    requires base.runs == map[] && Schedule(base, steps) && sid !in base.sessions
    requires Drained(steps, sid) || QueueOf(base.queues, sid) == []
    ensures QueueOf(ExecSteps(base, steps).queues, sid) == []
  {
    if steps != [] {
      var before, step := steps[..|steps|-1], steps[|steps|-1];
      var s := ExecSteps(base, before);
      SameSessions(base, before);
      RunIdsAfter(base, before);
      if step.Drain? && step.sid == sid {
      } else {
        if Drained(steps, sid) {
          var i :| 0 <= i < |steps| && steps[i].Drain? && steps[i].sid == sid;
          assert before[i] == steps[i];
        }
        MissingQueueGoes(base, before, sid);
        if Evicting(before, sid) {
          EvictingIsKnown(base, before, sid);
        }
        StepElsewhere(s, step, sid);
      }
    }
  }

  /** The first `k` queued messages were dispatched in order, one run is at the last of them, the others wait. */
  ghost predicate AtMessage(left: State, t: State, sid: SessionId, k: nat)
    requires sid in left.sessions && sid in t.sessions
  {
    var queue := QueueOf(left.queues, sid);
    && 1 <= k <= |queue| && OneRun(t.runs, sid, queue[k-1]) && QueueOf(t.queues, sid) == queue[k..]
    && Gone(t, sid) == Gone(left, sid) + queue[..k] && t.sessions[sid].turns == left.sessions[sid].turns + 1
  }

  /**
   Whatever state a crash left, once startup has drained every listed queue, with observers
   speaking and new runs moving in between: queues of missing sessions are gone; an interrupted
   session that was not adopted is failed with an empty queue; every session in flight is either
   an adopted one still being watched or about to fail, or had its queue's head posted again
   exactly once.
   Posting again counts the message as a further turn.
   */
  lemma RestartRecovers(left: State, adopted: set<SessionId>, steps: seq<Step>, sid: SessionId)
    requires left.runs == map[] && Schedule(OrphansFailed(left, adopted), steps)
    requires forall x :: x in OrphansFailed(left, adopted).queues ==> Drained(steps, x)
    ensures var t := ExecSteps(OrphansFailed(left, adopted), steps);
            && (sid !in left.sessions ==> QueueOf(t.queues, sid) == [])
            && (sid in left.sessions ==>
                  && sid in t.sessions
                  && (Orphan(left, adopted, sid) ==>
                        t.sessions[sid].status == Failed && QueueOf(t.queues, sid) == [] && NoRun(t.runs, sid))
                  && (t.sessions[sid].Inflight() ==>
                        || (sid in adopted && left.sessions[sid].Inflight() && !Observed(steps, sid) && NoRun(t.runs, sid)
                            && QueueOf(t.queues, sid) == QueueOf(left.queues, sid) && t.sessions[sid] == left.sessions[sid])
                        || (sid in adopted && Evicting(steps, sid) && NoRun(t.runs, sid) && QueueOf(t.queues, sid) == [])
                        || exists k :: AtMessage(left, t, sid, k)))
  {
    var base := OrphansFailed(left, adopted);
    var t := ExecSteps(base, steps);
    if sid in left.sessions {
      FateAfter(base, steps, sid);
      var fate := FateOf(base, steps, sid);
      if Orphan(left, adopted, sid) {
        assert QueueOf(base.queues, sid) == [] && base.sessions[sid].status == Failed;
        FailedStays(base, steps, sid);
      } else {
        assert QueueOf(base.queues, sid) == QueueOf(left.queues, sid) && base.sessions[sid] == left.sessions[sid];
        if fate.Chained? {
          assert AtMessage(left, t, sid, fate.k);
        } else if fate == Untouched && base.sessions[sid].Inflight() {
          ObservedChanges(base, steps, sid);
        }
      }
    } else {
      MissingQueueGoes(base, steps, sid);
    }
  }

  lemma {:induction false} FailedStays(base: State, steps: seq<Step>, sid: SessionId)
    requires base.runs == map[] && Schedule(base, steps) && sid in base.sessions && base.sessions[sid].status == Failed
    ensures FateOf(base, steps, sid) == Untouched
  {
    if steps != [] {
      FailedStays(base, steps[..|steps|-1], sid);
    }
  }

  lemma {:induction false} ObservedChanges(base: State, steps: seq<Step>, sid: SessionId)
    requires base.runs == map[] && Schedule(base, steps) && sid in base.sessions && base.sessions[sid].Inflight()
    ensures FateOf(base, steps, sid) == Untouched <==> !Observed(steps, sid)
  {
    if steps != [] {
      var before, step := steps[..|steps|-1], steps[|steps|-1];
      ObservedChanges(base, before, sid);
      FateAfter(base, before, sid);
      ObservedStep(steps, sid);
      if Concerns(ExecSteps(base, before), step, sid) && step.Advance? {
        AdvanceFate(base, ExecSteps(base, before), step.action, sid, FateOf(base, before, sid));
      }
    }
  }

  /**
   A crash state that startup does not repair: the adopted run of a session is seen to complete
   and brings it over its quota, so its queued message is refused, and nothing is left to post it.
   */
  lemma CompletionCanStrand(sid: SessionId, e: QueuedEvent, usage: Usage)
    ensures var left := State(map[sid := NewSession.MarkRunning()], map[sid := [e]], map[], 0, map[]);
            var steps := [Drain(sid, OverQuota), Finalize(sid, usage, OverQuota)];
            var t := ExecSteps(OrphansFailed(left, {sid}), steps);
            && Schedule(OrphansFailed(left, {sid}), steps)
            && sid in t.sessions && t.sessions[sid].status == Idle && QueueOf(t.queues, sid) == [e] && t.runs == map[]
  {
    var left := State(map[sid := NewSession.MarkRunning()], map[sid := [e]], map[], 0, map[]);
    var base := OrphansFailed(left, {sid});
    assert base.sessions == left.sessions && base.queues == left.queues;
    var first, steps := [Drain(sid, OverQuota)], [Drain(sid, OverQuota), Finalize(sid, usage, OverQuota)];
    assert first[..0] == [] && steps[..1] == first;
    assert ExecSteps(base, first) == base;
    assert Schedule(base, []) && Schedule(base, first);
  }

  // ---- A failing run and the posts meanwhile ----

  function ExecFrom(s: State, steps: seq<Step>): State
    decreases |steps|
  {
    if steps == [] then s else ExecFrom(ApplyStep(s, steps[0]), steps[1..])
  }

  /** The observer of the session is silent; clients, other sessions and the drain loop are not. */
  ghost predicate Bystander(s: State, step: Step, sid: SessionId) {
    match step
    case Drain(_, _) => true
    case Finalize(x, _, _) => x != sid
    case Abandon(x) => x != sid
    case Collapse(x, _) => x != sid
    case Advance(a) => Enabled(s, a)
  }

  ghost predicate Bystanders(s: State, steps: seq<Step>, sid: SessionId)
    decreases |steps|
  {
    steps == [] || (Bystander(s, steps[0], sid) && Bystanders(ApplyStep(s, steps[0]), steps[1..], sid))
  }

  /** A post for the session that is within quota and does not insist on an idle session. */
  predicate Posts(step: Step, sid: SessionId) {
    step.Advance? && step.action.Post? && step.action.sid == sid && step.action.gate == Open && !step.action.rejectIfBusy
  }

  function PostedFor(steps: seq<Step>, sid: SessionId): seq<QueuedEvent>
    decreases |steps|
  {
    if steps == [] then []
    else (if Posts(steps[0], sid) then [steps[0].action.event] else []) + PostedFor(steps[1..], sid)
  }

  /** In flight without a run of its own, as an adopted session is. */
  ghost predicate Adopted(s: State, sid: SessionId) {
    RunIds(s) && NoRun(s.runs, sid) && sid in s.sessions && s.sessions[sid].Inflight()
  }

  lemma PostElsewhere(s: State, a: Action, sid: SessionId)
    requires RunIds(s) && sid in s.sessions && Enabled(s, a)
    requires (a.Post? && a.sid != sid) || a.Create?
    ensures RunIds(Apply(s, a)) && SameFor(s, Apply(s, a), sid)
  {
    if a.Post? && ReplyTo(s, a.sid, a.gate, a.rejectIfBusy) == Started {
      assert Apply(s, a) == Begun(s, a.sid, a.event);
    }
  }

  lemma PostHere(s: State, a: Action, sid: SessionId)
    requires Adopted(s, sid) && a.Post? && a.sid == sid
    ensures Adopted(Apply(s, a), sid)
    ensures QueueOf(Apply(s, a).queues, sid) == QueueOf(s.queues, sid) + if Posts(Advance(a), sid) then [a.event] else []
  {
    var t := Apply(s, a);
    assert forall r: nat :: IsRunOf(t.runs, sid, r) <==> IsRunOf(s.runs, sid, r);
  }

  lemma BystanderStep(s: State, step: Step, sid: SessionId)
    requires Adopted(s, sid) && Bystander(s, step, sid)
    ensures Adopted(ApplyStep(s, step), sid)
    ensures QueueOf(ApplyStep(s, step).queues, sid) ==
            QueueOf(s.queues, sid) + if Posts(step, sid) then [step.action.event] else []
  {
    if step.Advance? && step.action.Post? && step.action.sid == sid {
      PostHere(s, step.action, sid);
    } else if step.Advance? && (step.action.Post? || step.action.Create?) {
      PostElsewhere(s, step.action, sid);
    } else if !(step.Drain? && step.sid == sid) {
      StepElsewhere(s, step, sid);
    }
  }

  lemma {:induction false} BystandersQueue(s: State, steps: seq<Step>, sid: SessionId)
    requires Adopted(s, sid) && Bystanders(s, steps, sid)
    ensures Adopted(ExecFrom(s, steps), sid)
    ensures QueueOf(ExecFrom(s, steps).queues, sid) == QueueOf(s.queues, sid) + PostedFor(steps, sid)
    decreases |steps|
  {
    if steps != [] {
      BystanderStep(s, steps[0], sid);
      BystandersQueue(ApplyStep(s, steps[0]), steps[1..], sid);
      Regroup(QueueOf(s.queues, sid), if Posts(steps[0], sid) then [steps[0].action.event] else [], PostedFor(steps[1..], sid));
    }
  }

  lemma {:induction false} PostedIff(steps: seq<Step>, sid: SessionId)
    ensures PostedFor(steps, sid) != [] <==> exists i :: 0 <= i < |steps| && Posts(steps[i], sid)
    decreases |steps|
  {
    if steps != [] {
      PostedIff(steps[1..], sid);
      if i :| 0 <= i < |steps[1..]| && Posts(steps[1..][i], sid) {
        assert Posts(steps[i + 1], sid);
      }
      if i :| 0 <= i < |steps| && Posts(steps[i], sid) {
        assert i > 0 ==> steps[1..][i - 1] == steps[i];
      }
    }
  }

  /**
   A failing adopted run clears the queue, waits for the eviction, then fails the session. Whatever
   others do meanwhile, the session ends failed and its queue is what was posted for it meanwhile,
   in order; so it keeps a queue if and only if something was.
   */
  lemma AbandonStrandsIff(s: State, sid: SessionId, steps: seq<Step>, message: string)
    requires Adopted(s, sid) && Bystanders(ApplyStep(s, Abandon(sid)), steps, sid)
    ensures var t := ApplyStep(ExecFrom(ApplyStep(s, Abandon(sid)), steps), Collapse(sid, message));
            && sid in t.sessions && t.sessions[sid].status == Failed && NoRun(t.runs, sid)
            && QueueOf(t.queues, sid) == PostedFor(steps, sid)
            && (QueueOf(t.queues, sid) != [] <==> exists i :: 0 <= i < |steps| && Posts(steps[i], sid))
  {
    var cleared := ApplyStep(s, Abandon(sid));
    assert forall r: nat :: IsRunOf(cleared.runs, sid, r) <==> IsRunOf(s.runs, sid, r);
    BystandersQueue(cleared, steps, sid);
    PostedIff(steps, sid);
    var last := ExecFrom(cleared, steps);
    assert forall r: nat :: IsRunOf(ApplyStep(last, Collapse(sid, message)).runs, sid, r) <==> IsRunOf(last.runs, sid, r);
  }

  /** One post is enough. */
  lemma PostDuringAbandonStrands(s: State, sid: SessionId, e: QueuedEvent, message: string)
    requires Adopted(s, sid)
    ensures var cleared, steps := ApplyStep(s, Abandon(sid)), [Advance(Post(sid, e, Open, false))];
            var t := ApplyStep(ExecFrom(cleared, steps), Collapse(sid, message));
            && Bystanders(cleared, steps, sid)
            && sid in t.sessions && t.sessions[sid].status == Failed && QueueOf(t.queues, sid) == [e] && NoRun(t.runs, sid)
  {
    var steps := [Advance(Post(sid, e, Open, false))];
    assert steps[1..] == [];
    AbandonStrandsIff(s, sid, steps, message);
  }

  // ---- The drain loop ----

  /** The guard with which `finalizeFromJsonl` starts, before it awaits the price. */
  method StillInflight(router: AgentRouter, sid: SessionId) returns (ok: bool)
    ensures ok <==> sid in router.sessions && router.sessions[sid].Inflight()
  {
    ok := sid in router.sessions && router.sessions[sid].Inflight();
  }

  /** Its succeeding half once the price is known, and the post of the queued head. */
  method FinalizeFromJsonl(router: AgentRouter, sid: SessionId, usage: Usage, gate: Gate)
    modifies router, router.queue
    ensures router.View() == ApplyStep(old(router.View()), Finalize(sid, usage, gate))
    ensures sid in old(router.sessions) ==>
      sid in router.sessions && router.sessions[sid].used == Plus(old(router.sessions)[sid].used, usage)
  {
    if sid in router.sessions {
      router.sessions := router.sessions[sid := router.sessions[sid].EndRunSuccess(usage)];
      RedispatchHead(router, sid, gate);
    }
  }

  /** The failing half up to the eviction: the queue goes. */
  method AbandonRun(router: AgentRouter, sid: SessionId)
    modifies router.queue
    ensures router.View() == ApplyStep(old(router.View()), Abandon(sid))
    ensures sid in router.sessions && router.sessions[sid].Inflight() ==> QueueOf(router.queue.bySession, sid) == []
  {
    var inflight := StillInflight(router, sid);
    if inflight {
      var dropped := router.queue.ClearEvents(sid);
    }
  }

  /** And after it: the session fails. */
  method FailAbandoned(router: AgentRouter, sid: SessionId, message: string)
    modifies router
    ensures router.View() == ApplyStep(old(router.View()), Collapse(sid, message))
    ensures sid in old(router.sessions) ==>
      sid in router.sessions && router.sessions[sid].status == Failed && router.sessions[sid].error == Some(message)
  {
    if sid in router.sessions {
      router.sessions := router.sessions[sid := router.sessions[sid].EndRunFailure(message)];
    }
  }

  /** Peek, post, and remove the head once the post is accepted. */
  method RedispatchHead(router: AgentRouter, sid: SessionId, gate: Gate)
    requires sid in router.sessions && router.sessions[sid].status == Idle
    modifies router, router.queue
    ensures router.View() == Redispatch(old(router.View()), sid, gate)
  {
    var head := router.queue.PeekEvent(sid);
    if head.None? {
      return;
    }
    var reply := router.RunEvent(sid, head.value, gate, false);
    if reply == Started || reply == Queued {
      var gone := router.queue.ShiftEvent(sid);
    }
  }

  method DrainSession(router: AgentRouter, sid: SessionId, gate: Gate)
    modifies router, router.queue
    ensures router.View() == ApplyStep(old(router.View()), Drain(sid, gate))
  {
    if sid !in router.sessions {
      var dropped := router.queue.ClearEvents(sid);
      return;
    }
    if router.sessions[sid].status != Idle {
      return;
    }
    RedispatchHead(router, sid, gate);
  }

  lemma AddStep(base: State, steps: seq<Step>, step: Step) returns (more: seq<Step>)
    requires Schedule(base, steps) && May(base, steps, step)
    ensures more == steps + [step] && Schedule(base, more)
    ensures ExecSteps(base, more) == ApplyStep(ExecSteps(base, steps), step)
    ensures forall sid :: Drained(steps, sid) || (step.Drain? && step.sid == sid) ==> Drained(more, sid)
    ensures forall sid :: Observed(more, sid) <==>
      Observed(steps, sid) || ((step.Finalize? || step.Abandon?) && step.sid == sid)
    ensures forall sid :: Evicting(more, sid) <==>
      step == Abandon(sid) || (!(step.Collapse? && step.sid == sid) && Evicting(steps, sid))
  {
    more := steps + [step];
    assert more[..|more|-1] == steps;
    forall sid ensures Observed(more, sid) <==> Observed(steps, sid) || ((step.Finalize? || step.Abandon?) && step.sid == sid) {
      ObservedStep(more, sid);
    }
    forall sid | Drained(steps, sid) || (step.Drain? && step.sid == sid) ensures Drained(more, sid) {
      if Drained(steps, sid) {
        var i :| 0 <= i < |steps| && steps[i].Drain? && steps[i].sid == sid;
        assert more[i] == steps[i];
      } else {
        assert more[|steps|] == step;
      }
    }
  }

  // Where the observers of the adopted runs stand: waiting for the run to end, for the price, for the eviction.
  datatype Observers = Observers(watching: set<SessionId>, pricing: set<SessionId>, evicting: set<SessionId>)

  ghost predicate ObserversFit(base: State, steps: seq<Step>, o: Observers) {
    && (forall sid :: sid in o.watching || sid in o.pricing ==>
          sid in base.sessions && base.sessions[sid].Inflight() && !Observed(steps, sid))
    && (forall sid :: sid in o.evicting ==> Evicting(steps, sid))
    && o.watching !! o.pricing
  }

  function Awaiting(o: Observers): set<SessionId> {
    o.watching + o.pricing + o.evicting
  }

  /** The last step is the one that ends the session's run. */
  predicate Settles(steps: seq<Step>, sid: SessionId) {
    steps != [] && var last := steps[|steps|-1];
    (last.Finalize? || last.Collapse?) && last.sid == sid
  }

  /** One step of an observer. */
  method Observe(router: AgentRouter, o: Observers, ghost base: State, ghost steps: seq<Step>)
    returns (next: Observers, ghost more: seq<Step>)
    requires Schedule(base, steps) && router.View() == ExecSteps(base, steps) && ObserversFit(base, steps, o)
    modifies router, router.queue
    ensures Schedule(base, more) && router.View() == ExecSteps(base, more) && ObserversFit(base, more, next)
    ensures forall sid :: Drained(steps, sid) ==> Drained(more, sid)
    ensures forall sid :: sid in Awaiting(o) && sid !in Awaiting(next) ==>
      Settles(more, sid) || !(sid in router.sessions && router.sessions[sid].Inflight())
    ensures forall sid :: sid in next.pricing && sid !in o.pricing ==>
      sid in o.watching && sid in router.sessions && router.sessions[sid].Inflight()
  {
    next, more := o, steps;
    var kind: int := *;
    if kind == 0 && o.watching != {} {
      var w :| w in o.watching;
      var inflight := StillInflight(router, w);
      next := o.(watching := o.watching - {w}, pricing := if inflight then o.pricing + {w} else o.pricing);
    } else if kind == 1 && o.pricing != {} {
      var p :| p in o.pricing;
      next := o.(pricing := o.pricing - {p});
      var usage: Usage := *;
      var gate: Gate := *;
      more := AddStep(base, steps, Finalize(p, usage, gate));
      FinalizeFromJsonl(router, p, usage, gate);
    } else if kind == 2 && o.watching != {} {
      var w :| w in o.watching;
      next := o.(watching := o.watching - {w}, evicting := o.evicting + {w});
      more := AddStep(base, steps, Abandon(w));
      AbandonRun(router, w);
    } else if kind == 3 && o.evicting != {} {
      var e :| e in o.evicting;
      next := o.(evicting := o.evicting - {e});
      var message: string := *;
      more := AddStep(base, steps, Collapse(e, message));
      FailAbandoned(router, e, message);
    }
  }

  /** One thing that happens while the loop awaits: a new run moves, or an observer does. */
  method Meanwhile(router: AgentRouter, o: Observers, ghost base: State, ghost steps: seq<Step>)
    returns (next: Observers, ghost more: seq<Step>)
    requires base.runs == map[] && Schedule(base, steps) && router.View() == ExecSteps(base, steps)
    requires ObserversFit(base, steps, o)
    modifies router, router.queue
    ensures Schedule(base, more) && router.View() == ExecSteps(base, more) && ObserversFit(base, more, next)
    ensures forall sid :: Drained(steps, sid) ==> Drained(more, sid)
    ensures forall sid :: sid in Awaiting(o) && sid !in Awaiting(next) ==>
      Settles(more, sid) || !(sid in router.sessions && router.sessions[sid].Inflight())
    ensures forall sid :: sid in next.pricing && sid !in o.pricing ==>
      sid in o.watching && sid in router.sessions && router.sessions[sid].Inflight()
  {
    next, more := o, steps;
    var runMoves: bool := *;
    if runMoves && router.runs != map[] {
      var r :| r in router.runs;
      RunIdsAfter(base, steps);
      var kind: int := *;
      if kind == 0 {
        more := AddStep(base, steps, Advance(Acquired(r)));
        router.MarkRunning(r);
      } else if kind == 1 {
        var usage: Usage := *;
        more := AddStep(base, steps, Advance(Complete(r, usage)));
        router.FinishRun(r, usage);
      } else {
        var message: string := *;
        more := AddStep(base, steps, Advance(Fail(r, message)));
        router.HandleBackgroundFailure(r, message);
      }
    } else {
      next, more := Observe(router, o, base, steps);
    }
  }

  /** The drain loop over the sessions listed when it starts, with anything happening in between. */
  method DrainQueues(router: AgentRouter, watched: set<SessionId>) returns (ghost steps: seq<Step>)
    requires router.runs == map[]
    requires forall sid :: sid in watched ==> sid in router.sessions && router.sessions[sid].Inflight()
    modifies router, router.queue
    ensures router.View() == ExecSteps(old(router.View()), steps)
    ensures Schedule(old(router.View()), steps)
    ensures forall sid :: sid in old(router.View()).queues ==> Drained(steps, sid)
  {
    ghost var base := router.View();
    steps := [];
    var rest := router.queue.bySession.Keys;
    var observers := Observers(watched, {}, {});
    while rest != {}
      invariant router.View() == ExecSteps(base, steps) && Schedule(base, steps) && ObserversFit(base, steps, observers)
      invariant forall sid :: sid in base.queues && sid !in rest ==> Drained(steps, sid)
      decreases rest
    {
      var sid :| sid in rest;
      rest := rest - {sid};
      var gate: Gate := *;
      steps := AddStep(base, steps, Drain(sid, gate));
      DrainSession(router, sid, gate);
      var times: nat := *;
      while times > 0
        invariant router.View() == ExecSteps(base, steps) && Schedule(base, steps) && ObserversFit(base, steps, observers)
        invariant forall sid :: sid in base.queues && sid !in rest ==> Drained(steps, sid)
      {
        times := times - 1;
        observers, steps := Meanwhile(router, observers, base, steps);
      }
    }
  }
}
