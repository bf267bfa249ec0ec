/**
 The run and queue protocol of a session: posts start a run or queue behind it, the run
 that finishes drains the queue, a run that fails drops it. Each action is the code between
 two awaits of `runEvent` and `executeInBackground`; actions of all sessions interleave.
 Streaming and cancellation are not among them.
 */
module SessionProtocol {
  import opened Prelude
  import opened QueueStore

  datatype Status = Idle | Starting | Running | Failed

  datatype Usage = Usage(tokensIn: int, tokensOut: int, costUsd: real)

  const NoUsage := Usage(0, 0, 0.0)

  function Plus(a: Usage, b: Usage): Usage {
    Usage(a.tokensIn + b.tokensIn, a.tokensOut + b.tokensOut, a.costUsd + b.costUsd)
  }

  datatype Session = Session(status: Status, turns: nat, used: Usage, error: Option<string>) {
    predicate Inflight() { status == Starting || status == Running }

    // The session store's updates.
    function BeginRun(): Session { this.(status := Starting, error := None) }
    function MarkRunning(): Session { this.(status := Running, error := None) }
    function EndRunSuccess(usage: Usage): Session { this.(status := Idle, used := Plus(used, usage)) }
    function EndRunFailure(message: string): Session { this.(status := Failed, error := Some(message)) }
    function AddUsage(usage: Usage): Session { this.(used := Plus(used, usage)) }
    function BumpTurns(): Session { this.(turns := turns + 1) }
  }

  const NewSession := Session(Idle, 0, NoUsage, None)

  datatype Run = Run(sid: SessionId, event: QueuedEvent)

  // What became of an accepted message once it left the queue, or never entered it.
  datatype Settled = Settled(event: QueuedEvent, dispatched: bool)

  // What happened to a session; no step reads it.
  datatype History = History(accepted: seq<QueuedEvent>, settled: seq<Settled>, usages: seq<Usage>)

  datatype State = State(
    sessions: map<SessionId, Session>,
    queues: Queues,
    runs: map<nat, Run>,      // background runs in flight
    nextRun: nat,
    history: map<SessionId, History>
  )

  const Empty := State(map[], map[], map[], 0, map[])

  // What the checks before the busy test of `runEvent` say.
  datatype Gate = Open | AgentMissing | OverQuota

  datatype Action =
    | Create(sid: SessionId)
    | Post(sid: SessionId, event: QueuedEvent, gate: Gate, rejectIfBusy: bool)
    | Acquired(run: nat)
    | Complete(run: nat, usage: Usage)
    | Fail(run: nat, message: string)

  datatype PostReply = SessionNotFound | AgentNotFound | QuotaExceeded | SessionBusy | Queued | Started

  predicate Enabled(s: State, a: Action) {
    match a
    case Create(sid) => sid !in s.sessions
    case Post(_, _, _, _) => true
    case Acquired(r) => r in s.runs && s.runs[r].sid in s.sessions
    case Complete(r, _) => r in s.runs && s.runs[r].sid in s.sessions
    case Fail(r, _) => r in s.runs && s.runs[r].sid in s.sessions
  }

  function ReplyTo(s: State, sid: SessionId, gate: Gate, rejectIfBusy: bool): PostReply {
    if sid !in s.sessions then SessionNotFound
    else if gate == AgentMissing then AgentNotFound
    else if gate == OverQuota then QuotaExceeded
    else if s.sessions[sid].Inflight() then (if rejectIfBusy then SessionBusy else Queued)
    else Started
  }

  function HistoryOf(s: State, sid: SessionId): History {
    if sid in s.history then s.history[sid] else History([], [], [])
  }

  function Dispatch(s: State, sid: SessionId, event: QueuedEvent): State {
    var h := HistoryOf(s, sid);
    s.(runs := s.runs[s.nextRun := Run(sid, event)], nextRun := s.nextRun + 1,
       history := s.history[sid := h.(settled := h.settled + [Settled(event, true)])])
  }

  function Accept(s: State, sid: SessionId, event: QueuedEvent): State {
    var h := HistoryOf(s, sid);
    s.(history := s.history[sid := h.(accepted := h.accepted + [event])])
  }

  function Earn(s: State, sid: SessionId, usage: Usage): State {
    var h := HistoryOf(s, sid);
    s.(history := s.history[sid := h.(usages := h.usages + [usage])])
  }

  function Dropped(events: seq<QueuedEvent>): seq<Settled> {
    seq(|events|, i requires 0 <= i < |events| => Settled(events[i], false))
  }

  function DoPost(s: State, sid: SessionId, event: QueuedEvent, gate: Gate, rejectIfBusy: bool): State {
    match ReplyTo(s, sid, gate, rejectIfBusy)
    case Queued =>
      Accept(s.(queues := Enqueued(s.queues, sid, event), sessions := s.sessions[sid := s.sessions[sid].BumpTurns()]),
             sid, event)
    case Started =>
      Dispatch(Accept(s.(sessions := s.sessions[sid := s.sessions[sid].BeginRun().BumpTurns()]), sid, event), sid, event)
    case _ => s
  }

  /** The end of a successful run: chain the head of the queue, or go idle. */
  function DoComplete(s: State, r: nat, usage: Usage): State
    requires r in s.runs && s.runs[r].sid in s.sessions
  {
    var sid := s.runs[r].sid;
    var done := Earn(s.(runs := s.runs - {r}), sid, usage);
    match HeadOf(QueueOf(s.queues, sid))
    case Some(head) =>
      Dispatch(done.(queues := Shifted(s.queues, sid), sessions := s.sessions[sid := s.sessions[sid].AddUsage(usage)]),
               sid, head)
    case None => done.(sessions := s.sessions[sid := s.sessions[sid].EndRunSuccess(usage)])
  }

  /** A failure drops the queue, unless the session has already left the run. */
  function DoFail(s: State, r: nat, message: string): State
    requires r in s.runs && s.runs[r].sid in s.sessions
  {
    var sid := s.runs[r].sid;
    var done := s.(runs := s.runs - {r});
    if !s.sessions[sid].Inflight() then done
    else
      var h := HistoryOf(s, sid);
      done.(queues := s.queues - {sid},
            sessions := s.sessions[sid := s.sessions[sid].EndRunFailure(message)],
            history := s.history[sid := h.(settled := h.settled + Dropped(QueueOf(s.queues, sid)))])
  }

  function Apply(s: State, a: Action): State {
    match a
    case Create(sid) =>
      s.(sessions := s.sessions[sid := NewSession], history := s.history[sid := History([], [], [])])
    case Post(sid, event, gate, rejectIfBusy) => DoPost(s, sid, event, gate, rejectIfBusy)
    case Acquired(r) =>
      if r in s.runs && s.runs[r].sid in s.sessions then
        s.(sessions := s.sessions[s.runs[r].sid := s.sessions[s.runs[r].sid].MarkRunning()])
      else s
    case Complete(r, usage) => if r in s.runs && s.runs[r].sid in s.sessions then DoComplete(s, r, usage) else s
    case Fail(r, message) => if r in s.runs && s.runs[r].sid in s.sessions then DoFail(s, r, message) else s
  }

  function Exec(acts: seq<Action>): State {
    if acts == [] then Empty else Apply(Exec(acts[..|acts|-1]), acts[|acts|-1])
  }

  predicate IsRun(acts: seq<Action>) {
    acts == [] || (IsRun(acts[..|acts|-1]) && Enabled(Exec(acts[..|acts|-1]), acts[|acts|-1]))
  }

  // ---- What every interleaving keeps ----

  function Messages(settled: seq<Settled>): seq<QueuedEvent> {
    seq(|settled|, i requires 0 <= i < |settled| => settled[i].event)
  }

  function Sum(usages: seq<Usage>): Usage {
    if usages == [] then Usage(0, 0, 0.0)
    else
      var sum, last := Sum(usages[..|usages|-1]), usages[|usages|-1];
      Usage(sum.tokensIn + last.tokensIn, sum.tokensOut + last.tokensOut, sum.costUsd + last.costUsd)
  }

  ghost predicate HasRun(s: State, sid: SessionId) {
    exists r :: r in s.runs && s.runs[r].sid == sid
  }

  /** One session's bookkeeping. */
  ghost predicate Orderly(session: Session, queue: seq<QueuedEvent>, h: History) {
    && (queue != [] ==> session.Inflight())
    && h.accepted == Messages(h.settled) + queue
    && session.turns == |h.accepted|
    && session.used == Sum(h.usages)
  }

  /** No session has two runs. */
  ghost predicate OneRunEach(runs: map<nat, Run>, next: nat) {
    && (forall r :: r in runs ==> r < next)
    && (forall r, t :: r in runs && t in runs && runs[r].sid == runs[t].sid ==> r == t)
  }

  ghost predicate RunsFit(s: State) {
    && OneRunEach(s.runs, s.nextRun)
    && (forall r :: r in s.runs ==> s.runs[r].sid in s.sessions && s.sessions[s.runs[r].sid].Inflight())
    && (forall sid :: sid in s.sessions && s.sessions[sid].Inflight() ==> HasRun(s, sid))
  }

  ghost predicate AllOrderly(s: State) {
    && s.history.Keys == s.sessions.Keys
    && (forall sid :: sid in s.sessions ==> Orderly(s.sessions[sid], QueueOf(s.queues, sid), s.history[sid]))
    && (forall sid :: sid in s.queues ==> sid in s.sessions)
  }

  ghost predicate Consistent(s: State) {
    RunsFit(s) && AllOrderly(s)
  }

  lemma OrderlyQueued(session: Session, queue: seq<QueuedEvent>, h: History, e: QueuedEvent)
    requires Orderly(session, queue, h) && session.Inflight()
    ensures Orderly(session.BumpTurns(), queue + [e], h.(accepted := h.accepted + [e]))
  {
  }

  lemma OrderlyStarted(session: Session, queue: seq<QueuedEvent>, h: History, e: QueuedEvent)
    requires Orderly(session, queue, h) && !session.Inflight()
    ensures queue == []
    ensures Orderly(session.BeginRun().BumpTurns(), queue,
                    h.(accepted := h.accepted + [e], settled := h.settled + [Settled(e, true)]))
  {
  }

  lemma OrderlyChained(session: Session, queue: seq<QueuedEvent>, h: History, usage: Usage)
    requires Orderly(session, queue, h) && queue != []
    ensures Orderly(session.AddUsage(usage), queue[1..],
                    h.(usages := h.usages + [usage], settled := h.settled + [Settled(queue[0], true)]))
  {
  }

  lemma OrderlyIdled(session: Session, h: History, usage: Usage)
    requires Orderly(session, [], h)
    ensures Orderly(session.EndRunSuccess(usage), [], h.(usages := h.usages + [usage]))
  {
  }

  lemma OrderlyFailed(session: Session, queue: seq<QueuedEvent>, h: History, message: string)
    requires Orderly(session, queue, h)
    ensures Orderly(session.EndRunFailure(message), [], h.(settled := h.settled + Dropped(queue)))
  {
  }

  lemma QueuedOrderly(s: State, sid: SessionId, e: QueuedEvent)
    requires AllOrderly(s) && sid in s.sessions && s.sessions[sid].Inflight()
    ensures AllOrderly(DoPost(s, sid, e, Open, false))
  {
    var t := DoPost(s, sid, e, Open, false);
    OrderlyQueued(s.sessions[sid], QueueOf(s.queues, sid), s.history[sid], e);
    assert QueueOf(t.queues, sid) == QueueOf(s.queues, sid) + [e];
  }

  lemma StartedOrderly(s: State, sid: SessionId, e: QueuedEvent, rejectIfBusy: bool)
    requires AllOrderly(s) && sid in s.sessions && !s.sessions[sid].Inflight()
    ensures AllOrderly(DoPost(s, sid, e, Open, rejectIfBusy))
  {
    OrderlyStarted(s.sessions[sid], QueueOf(s.queues, sid), s.history[sid], e);
  }

  lemma PostOrderly(s: State, sid: SessionId, e: QueuedEvent, gate: Gate, rejectIfBusy: bool)
    requires AllOrderly(s)
    ensures AllOrderly(DoPost(s, sid, e, gate, rejectIfBusy))
  {
    match ReplyTo(s, sid, gate, rejectIfBusy) {
      case Queued => QueuedOrderly(s, sid, e);
      case Started => StartedOrderly(s, sid, e, rejectIfBusy);
      case _ =>
    }
  }

  lemma ChainOrderly(s: State, r: nat, usage: Usage)
    requires AllOrderly(s) && r in s.runs && s.runs[r].sid in s.sessions && QueueOf(s.queues, s.runs[r].sid) != []
    ensures AllOrderly(DoComplete(s, r, usage))
  {
    var t := DoComplete(s, r, usage);
    var sid := s.runs[r].sid;
    OrderlyChained(s.sessions[sid], QueueOf(s.queues, sid), s.history[sid], usage);
    assert QueueOf(t.queues, sid) == QueueOf(s.queues, sid)[1..];
  }

  lemma IdleOrderly(s: State, r: nat, usage: Usage)
    requires AllOrderly(s) && r in s.runs && s.runs[r].sid in s.sessions && QueueOf(s.queues, s.runs[r].sid) == []
    ensures AllOrderly(DoComplete(s, r, usage))
  {
    var sid := s.runs[r].sid;
    OrderlyIdled(s.sessions[sid], s.history[sid], usage);
  }

  lemma CompleteOrderly(s: State, r: nat, usage: Usage)
    requires AllOrderly(s) && r in s.runs && s.runs[r].sid in s.sessions
    ensures AllOrderly(DoComplete(s, r, usage))
  {
    if QueueOf(s.queues, s.runs[r].sid) == [] {
      IdleOrderly(s, r, usage);
    } else {
      ChainOrderly(s, r, usage);
    }
  }

  lemma FailOrderly(s: State, r: nat, message: string)
    requires AllOrderly(s) && r in s.runs && s.runs[r].sid in s.sessions
    ensures AllOrderly(DoFail(s, r, message))
  {
    var sid := s.runs[r].sid;
    OrderlyFailed(s.sessions[sid], QueueOf(s.queues, sid), s.history[sid], message);
  }

  // ---- Runs ----

  /** A run added for a session that has none. */
  lemma RunsAfterStart(s: State, t: State, sid: SessionId, e: QueuedEvent)
    requires RunsFit(s) && sid in s.sessions && !s.sessions[sid].Inflight()
    requires t.runs == s.runs[s.nextRun := Run(sid, e)] && t.nextRun == s.nextRun + 1
    requires t.sessions.Keys == s.sessions.Keys && t.sessions[sid].Inflight()
    requires forall x :: x in s.sessions && x != sid ==> t.sessions[x] == s.sessions[x]
    ensures RunsFit(t)
  {
    forall x | x in t.sessions && t.sessions[x].Inflight() ensures HasRun(t, x) {
      if x == sid {
        assert t.runs[s.nextRun].sid == sid;
      } else {
        var r :| r in s.runs && s.runs[r].sid == x;
        assert r in t.runs && t.runs[r].sid == x;
      }
    }
  }

  lemma RunsAfterQueue(s: State, t: State)
    requires RunsFit(s) && t.runs == s.runs && t.nextRun == s.nextRun && t.sessions.Keys == s.sessions.Keys
    requires forall x :: x in s.sessions ==> t.sessions[x].Inflight() == s.sessions[x].Inflight()
    ensures RunsFit(t)
  {
  }

  lemma RunsAfterPost(s: State, sid: SessionId, e: QueuedEvent, gate: Gate, rejectIfBusy: bool)
    requires RunsFit(s)
    ensures RunsFit(DoPost(s, sid, e, gate, rejectIfBusy))
  {
    match ReplyTo(s, sid, gate, rejectIfBusy) {
      case Queued => RunsAfterQueue(s, DoPost(s, sid, e, gate, rejectIfBusy));
      case Started => RunsAfterStart(s, DoPost(s, sid, e, gate, rejectIfBusy), sid, e);
      case _ =>
    }
  }

  /** Run `r` ended: its session left the run, or went on in a new one. */
  ghost predicate EndsRun(s: State, t: State, r: nat, e: Option<QueuedEvent>)
    requires r in s.runs
  {
    var sid := s.runs[r].sid;
    sid in t.sessions &&
    match e
    case None => t.nextRun == s.nextRun && t.runs == s.runs - {r} && !t.sessions[sid].Inflight()
    case Some(event) =>
      t.nextRun == s.nextRun + 1 && t.runs == (s.runs - {r})[s.nextRun := Run(sid, event)] && t.sessions[sid].Inflight()
  }

  lemma EndLeavesOneEach(runs: map<nat, Run>, next: nat, r: nat, run: Run)
    requires OneRunEach(runs, next) && r in runs && run.sid == runs[r].sid
    ensures OneRunEach(runs - {r}, next) && OneRunEach((runs - {r})[next := run], next + 1)
  {
  }

  /** The other sessions in flight keep their runs. */
  lemma OthersHaveRuns(s: State, t: State, r: nat)
    requires RunsFit(s) && r in s.runs
    requires t.sessions.Keys == s.sessions.Keys
    requires forall x :: x in s.sessions && x != s.runs[r].sid ==> t.sessions[x] == s.sessions[x]
    requires forall q :: q in s.runs && q != r ==> q in t.runs && t.runs[q] == s.runs[q]
    ensures forall x :: x in t.sessions && x != s.runs[r].sid && t.sessions[x].Inflight() ==> HasRun(t, x)
  {
  }

  lemma RunsAfterEnd(s: State, t: State, r: nat, e: Option<QueuedEvent>)
    requires RunsFit(s) && r in s.runs
    requires t.sessions.Keys == s.sessions.Keys
    requires forall x :: x in s.sessions && x != s.runs[r].sid ==> t.sessions[x] == s.sessions[x]
    requires EndsRun(s, t, r, e)
    ensures RunsFit(t)
  {
    OthersHaveRuns(s, t, r);
    EndLeavesOneEach(s.runs, s.nextRun, r, if e.Some? then Run(s.runs[r].sid, e.value) else s.runs[r]);
    if e.Some? {
      assert t.runs[s.nextRun].sid == s.runs[r].sid;
    }
  }

  lemma RunsAfterComplete(s: State, r: nat, usage: Usage)
    requires RunsFit(s) && r in s.runs
    ensures RunsFit(DoComplete(s, r, usage))
  {
    RunsAfterEnd(s, DoComplete(s, r, usage), r, HeadOf(QueueOf(s.queues, s.runs[r].sid)));
  }

  lemma RunsAfterFail(s: State, r: nat, message: string)
    requires RunsFit(s) && r in s.runs
    ensures RunsFit(DoFail(s, r, message))
  {
    RunsAfterEnd(s, DoFail(s, r, message), r, None);
  }

  lemma RunsAfterCreate(s: State, t: State, sid: SessionId)
    requires RunsFit(s) && sid !in s.sessions
    requires t.runs == s.runs && t.nextRun == s.nextRun && t.sessions == s.sessions[sid := NewSession]
    ensures RunsFit(t)
  {
  }

  lemma CreateOrderly(s: State, t: State, sid: SessionId)
    requires AllOrderly(s) && sid !in s.sessions
    requires t.queues == s.queues && t.sessions == s.sessions[sid := NewSession]
    requires t.history == s.history[sid := History([], [], [])]
    ensures AllOrderly(t)
  {
    forall x | x in t.sessions ensures Orderly(t.sessions[x], QueueOf(t.queues, x), t.history[x]) {
      if x != sid {
        assert Orderly(s.sessions[x], QueueOf(s.queues, x), s.history[x]);
      } else {
        assert Messages([]) == [];
      }
    }
  }

  lemma AfterCreate(s: State, sid: SessionId)
    requires Consistent(s) && sid !in s.sessions
    ensures Consistent(Apply(s, Create(sid)))
  {
    RunsAfterCreate(s, Apply(s, Create(sid)), sid);
    CreateOrderly(s, Apply(s, Create(sid)), sid);
  }

  lemma StepKeepsConsistent(s: State, a: Action)
    requires Consistent(s) && Enabled(s, a)
    ensures Consistent(Apply(s, a))
  {
    match a {
      case Create(sid) => AfterCreate(s, sid);
      case Post(sid, e, gate, rejectIfBusy) =>
        PostOrderly(s, sid, e, gate, rejectIfBusy);
        RunsAfterPost(s, sid, e, gate, rejectIfBusy);
      case Acquired(r) =>
      case Complete(r, usage) =>
        CompleteOrderly(s, r, usage);
        RunsAfterComplete(s, r, usage);
      case Fail(r, message) =>
        FailOrderly(s, r, message);
        RunsAfterFail(s, r, message);
    }
  }

  /**
   In every interleaving of posts, completions and failures: a queued message has a run
   ahead of it, a session has at most one run, and exactly one while it is in flight; what
   was accepted is, in order, what was dispatched or dropped and then what is queued; turns
   count the accepted messages and totals sum the successful runs, chained or not.
   */
  lemma {:induction false} QueueProtocolHolds(acts: seq<Action>)
    requires IsRun(acts)
    ensures Consistent(Exec(acts))
  {
    if acts == [] {
    } else {
      QueueProtocolHolds(acts[..|acts|-1]);
      StepKeepsConsistent(Exec(acts[..|acts|-1]), acts[|acts|-1]);
    }
  }

  // ---- The same told by the actions ----

  /** The message a step accepts: a post that was answered by a queued or a started run. */
  function AcceptedIn(s: State, a: Action, sid: SessionId): seq<QueuedEvent> {
    if a.Post? && a.sid == sid && ReplyTo(s, sid, a.gate, a.rejectIfBusy) in {Queued, Started} then [a.event] else []
  }

  /** The message of the run that is there after a step and was not before. */
  function BegunIn(s: State, t: State, sid: SessionId): seq<QueuedEvent> {
    if s.nextRun < t.nextRun && s.nextRun in t.runs && t.runs[s.nextRun].sid == sid then [t.runs[s.nextRun].event] else []
  }

  /** What a run that fails takes with it. */
  function DroppedIn(s: State, a: Action, sid: SessionId): seq<QueuedEvent> {
    if a.Fail? && a.run in s.runs && s.runs[a.run].sid == sid && sid in s.sessions && s.sessions[sid].Inflight()
    then QueueOf(s.queues, sid) else []
  }

  function UsageIn(s: State, a: Action, sid: SessionId): seq<Usage> {
    if a.Complete? && a.run in s.runs && s.runs[a.run].sid == sid then [a.usage] else []
  }

  function AcceptedBy(acts: seq<Action>, sid: SessionId): seq<QueuedEvent> {
    if acts == [] then []
    else AcceptedBy(acts[..|acts|-1], sid) + AcceptedIn(Exec(acts[..|acts|-1]), acts[|acts|-1], sid)
  }

  function BegunBy(acts: seq<Action>, sid: SessionId): seq<QueuedEvent> {
    if acts == [] then []
    else BegunBy(acts[..|acts|-1], sid) + BegunIn(Exec(acts[..|acts|-1]), Exec(acts), sid)
  }

  function DroppedBy(acts: seq<Action>, sid: SessionId): seq<QueuedEvent> {
    if acts == [] then []
    else DroppedBy(acts[..|acts|-1], sid) + DroppedIn(Exec(acts[..|acts|-1]), acts[|acts|-1], sid)
  }

  function UsagesBy(acts: seq<Action>, sid: SessionId): seq<Usage> {
    if acts == [] then []
    else UsagesBy(acts[..|acts|-1], sid) + UsageIn(Exec(acts[..|acts|-1]), acts[|acts|-1], sid)
  }

  function Only(settled: seq<Settled>, dispatched: bool): seq<QueuedEvent> {
    if settled == [] then []
    else (if settled[0].dispatched == dispatched then [settled[0].event] else []) + Only(settled[1..], dispatched)
  }

  lemma {:induction false} OnlyInParts(a: seq<Settled>, b: seq<Settled>, dispatched: bool)
    ensures Only(a + b, dispatched) == Only(a, dispatched) + Only(b, dispatched)
  {
    if a == [] {
      assert a + b == b;
    } else {
      assert (a + b)[1..] == a[1..] + b;
      OnlyInParts(a[1..], b, dispatched);
      Regroup(if a[0].dispatched == dispatched then [a[0].event] else [], Only(a[1..], dispatched), Only(b, dispatched));
    }
  }

  lemma {:induction false} OnlyDropped(events: seq<QueuedEvent>)
    ensures Only(Dropped(events), false) == events && Only(Dropped(events), true) == []
  {
    if events != [] {
      assert Dropped(events)[1..] == Dropped(events[1..]);
      OnlyDropped(events[1..]);
    }
  }

  lemma OnlyOne(event: QueuedEvent)
    ensures Only([Settled(event, true)], true) == [event] && Only([Settled(event, true)], false) == []
  {
  }

  /** What a step settles in the history of a session. */
  function SettledIn(s: State, a: Action, sid: SessionId): seq<Settled> {
    var begun := BegunIn(s, Apply(s, a), sid);
    if begun != [] then [Settled(begun[0], true)] else Dropped(DroppedIn(s, a, sid))
  }

  lemma QueuedHistory(s: State, x: SessionId, e: QueuedEvent, sid: SessionId)
    requires x in s.sessions
    ensures var t := Accept(s.(queues := Enqueued(s.queues, x, e), sessions := s.sessions[x := s.sessions[x].BumpTurns()]), x, e);
            && HistoryOf(t, sid) == HistoryOf(s, sid).(accepted := HistoryOf(s, sid).accepted + if sid == x then [e] else [])
            && BegunIn(s, t, sid) == []
  {
  }

  lemma StartedHistory(s: State, x: SessionId, e: QueuedEvent, sid: SessionId)
    requires x in s.sessions
    ensures var accepted := Accept(s.(sessions := s.sessions[x := s.sessions[x].BeginRun().BumpTurns()]), x, e);
            var t, h := Dispatch(accepted, x, e), HistoryOf(s, sid);
            && HistoryOf(t, sid) == (if sid == x then h.(accepted := h.accepted + [e], settled := h.settled + [Settled(e, true)]) else h)
            && BegunIn(s, t, sid) == if sid == x then [e] else []
  {
  }

  lemma PostHistory(s: State, a: Action, sid: SessionId)
    requires a.Post?
    ensures HistoryOf(Apply(s, a), sid) == History(HistoryOf(s, sid).accepted + AcceptedIn(s, a, sid),
                                                   HistoryOf(s, sid).settled + SettledIn(s, a, sid), HistoryOf(s, sid).usages)
  {
    var h := HistoryOf(s, sid);
    assert h.accepted + [] == h.accepted && h.settled + [] == h.settled && Dropped([]) == [];
    if ReplyTo(s, a.sid, a.gate, a.rejectIfBusy) == Queued {
      QueuedHistory(s, a.sid, a.event, sid);
    } else if ReplyTo(s, a.sid, a.gate, a.rejectIfBusy) == Started {
      StartedHistory(s, a.sid, a.event, sid);
    }
  }

  lemma CompleteHistory(s: State, a: Action, sid: SessionId)
    requires Consistent(s) && a.Complete? && Enabled(s, a)
    ensures HistoryOf(Apply(s, a), sid) == History(HistoryOf(s, sid).accepted, HistoryOf(s, sid).settled + SettledIn(s, a, sid),
                                                   HistoryOf(s, sid).usages + UsageIn(s, a, sid))
  {
  }

  lemma FailHistory(s: State, a: Action, sid: SessionId)
    requires Consistent(s) && a.Fail? && Enabled(s, a)
    ensures HistoryOf(Apply(s, a), sid) == HistoryOf(s, sid).(settled := HistoryOf(s, sid).settled + SettledIn(s, a, sid))
  {
  }

  lemma StepHistory(s: State, a: Action, sid: SessionId)
    requires Consistent(s) && Enabled(s, a)
    ensures HistoryOf(Apply(s, a), sid) == History(HistoryOf(s, sid).accepted + AcceptedIn(s, a, sid),
                                                   HistoryOf(s, sid).settled + SettledIn(s, a, sid),
                                                   HistoryOf(s, sid).usages + UsageIn(s, a, sid))
  {
    match a {
      case Post(_, _, _, _) => PostHistory(s, a, sid);
      case Complete(_, _) => CompleteHistory(s, a, sid);
      case Fail(_, _) => FailHistory(s, a, sid);
      case _ =>
    }
  }

  /** What a step settles is what it begins and what it drops. */
  lemma SettledInParts(s: State, a: Action, sid: SessionId)
    requires Consistent(s) && Enabled(s, a)
    ensures Only(SettledIn(s, a, sid), true) == BegunIn(s, Apply(s, a), sid)
    ensures Only(SettledIn(s, a, sid), false) == DroppedIn(s, a, sid)
  {
    var begun := BegunIn(s, Apply(s, a), sid);
    if begun != [] {
      OnlyOne(begun[0]);
      assert !a.Fail?;
    } else {
      OnlyDropped(DroppedIn(s, a, sid));
    }
  }

  /** The history kept in the state is that of the actions. */
  lemma {:induction false} HistoryIsOfActions(acts: seq<Action>, sid: SessionId)
    requires IsRun(acts)
    ensures var h := HistoryOf(Exec(acts), sid);
            && h.accepted == AcceptedBy(acts, sid) && h.usages == UsagesBy(acts, sid)
            && Only(h.settled, true) == BegunBy(acts, sid) && Only(h.settled, false) == DroppedBy(acts, sid)
  {
    if acts != [] {
      var before, a := acts[..|acts|-1], acts[|acts|-1];
      var s := Exec(before);
      QueueProtocolHolds(before);
      HistoryIsOfActions(before, sid);
      StepHistory(s, a, sid);
      SettledInParts(s, a, sid);
      OnlyInParts(HistoryOf(s, sid).settled, SettledIn(s, a, sid), true);
      OnlyInParts(HistoryOf(s, sid).settled, SettledIn(s, a, sid), false);
    }
  }

  /**
   Told by the actions alone: the messages the posts of a session were accepted with are, in order,
   those its runs began with and those its failures dropped, interleaved, and then those queued;
   turns count them, and totals sum the usage of the runs that completed.
   */
  lemma MessagesAccountedFor(acts: seq<Action>, sid: SessionId) returns (settled: seq<Settled>)
    requires IsRun(acts)
    ensures AcceptedBy(acts, sid) == Messages(settled) + QueueOf(Exec(acts).queues, sid)
    ensures Only(settled, true) == BegunBy(acts, sid) && Only(settled, false) == DroppedBy(acts, sid)
    ensures sid in Exec(acts).sessions ==>
      Exec(acts).sessions[sid].turns == |AcceptedBy(acts, sid)| && Exec(acts).sessions[sid].used == Sum(UsagesBy(acts, sid))
  {
    QueueProtocolHolds(acts);
    HistoryIsOfActions(acts, sid);
    settled := HistoryOf(Exec(acts), sid).settled;
    if sid in Exec(acts).sessions {
      assert Orderly(Exec(acts).sessions[sid], QueueOf(Exec(acts).queues, sid), Exec(acts).history[sid]);
    }
  }

  /** The router's share of the protocol, over the session store and the queue store. */
  class AgentRouter {
    var sessions: map<SessionId, Session>
    const queue: InMemoryQueueStore
    var runs: map<nat, Run>
    var nextRun: nat
    ghost var history: map<SessionId, History>

    ghost function View(): State reads this, queue { State(sessions, queue.bySession, runs, nextRun, history) }

    constructor (queue: InMemoryQueueStore)
      requires queue.bySession == map[]
      ensures this.queue == queue && View() == Empty
    {
      this.queue := queue;
      sessions, runs, nextRun, history := map[], map[], 0, map[];
    }

    method RunEvent(sid: SessionId, event: QueuedEvent, gate: Gate, rejectIfBusy: bool) returns (reply: PostReply)
      modifies this, queue
      ensures reply == ReplyTo(old(View()), sid, gate, rejectIfBusy)
      ensures View() == Apply(old(View()), Post(sid, event, gate, rejectIfBusy))
      ensures sid !in old(sessions) <==> reply == SessionNotFound
      ensures sid in old(sessions) ==>
        && (reply == AgentNotFound <==> gate == AgentMissing) && (reply == QuotaExceeded <==> gate == OverQuota)
        && (reply == SessionBusy <==> gate == Open && old(sessions)[sid].Inflight() && rejectIfBusy)
        && (reply == Queued <==> gate == Open && old(sessions)[sid].Inflight() && !rejectIfBusy)
      ensures reply !in {Queued, Started} ==> View() == old(View())
      ensures reply == Queued ==> runs == old(runs) && sid in sessions && sessions[sid].status == old(sessions)[sid].status
      ensures reply == Started ==>
        && sid in sessions && sessions[sid].status == Starting && sessions[sid].error == None
        && runs == old(runs)[old(nextRun) := Run(sid, event)]
    {
      ghost var s := View();
      if sid !in sessions {
        return SessionNotFound;
      }
      if gate == AgentMissing {
        return AgentNotFound;
      }
      if gate == OverQuota {
        return QuotaExceeded;
      }
      if sessions[sid].Inflight() {
        if rejectIfBusy {
          return SessionBusy;
        }
        queue.EnqueueEvent(sid, event);
        sessions := sessions[sid := sessions[sid].BumpTurns()];
        history := DoPost(s, sid, event, gate, rejectIfBusy).history;
        return Queued;
      }
      var running := sessions[sid].BeginRun();
      sessions := sessions[sid := running.BumpTurns()];
      runs := runs[nextRun := Run(sid, event)];
      nextRun := nextRun + 1;
      history := DoPost(s, sid, event, gate, rejectIfBusy).history;
      reply := Started;
    }

    /** The container is there: the run is under way. */
    method MarkRunning(r: nat)
      requires r in runs && runs[r].sid in sessions
      modifies this
      ensures View() == Apply(old(View()), Acquired(r))
      ensures runs[r].sid in sessions && sessions[runs[r].sid].status == Running && sessions[runs[r].sid].error == None
    {
      sessions := sessions[runs[r].sid := sessions[runs[r].sid].MarkRunning()];
    }

    /** The end of `executeInBackground`, after the last await. */
    method FinishRun(r: nat, usage: Usage)
      requires r in runs && runs[r].sid in sessions
      modifies this, queue
      ensures View() == Apply(old(View()), Complete(r, usage))
      ensures var sid := old(runs)[r].sid;
              && sid in sessions && sessions[sid].error == old(sessions)[sid].error
              && sessions[sid].used == Plus(old(sessions)[sid].used, usage)
              && (sessions[sid].status == if QueueOf(old(queue.bySession), sid) == [] then Idle else old(sessions)[sid].status)
    {
      ghost var s := View();
      var sid := runs[r].sid;
      runs := runs - {r};
      var head := queue.ShiftEvent(sid);
      if head.Some? {
        sessions := sessions[sid := sessions[sid].AddUsage(usage)];
        runs := runs[nextRun := Run(sid, head.value)];
        nextRun := nextRun + 1;
        history := Dispatch(Earn(s, sid, usage), sid, head.value).history;
        return;
      }
      sessions := sessions[sid := sessions[sid].EndRunSuccess(usage)];
      history := Earn(s, sid, usage).history;
    }

    method HandleBackgroundFailure(r: nat, message: string)
      requires r in runs && runs[r].sid in sessions
      modifies this, queue
      ensures View() == Apply(old(View()), Fail(r, message))
      ensures var sid := old(runs)[r].sid;
              old(sessions)[sid].Inflight() ==>
                && sid in sessions && sessions[sid].status == Failed && sessions[sid].error == Some(message)
                && QueueOf(queue.bySession, sid) == []
    {
      ghost var s := View();
      var sid := runs[r].sid;
      runs := runs - {r};
      if !sessions[sid].Inflight() {
        return;
      }
      var dropped := queue.ClearEvents(sid);
      sessions := sessions[sid := sessions[sid].EndRunFailure(message)];
      history := DoFail(s, r, message).history;
    }
  }
}
