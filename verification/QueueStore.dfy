/**
 The two stores of queued events: the in-memory one keeps a list per session, the durable
 one keeps all sessions in one table whose row ids only grow. The durable store is shown to
 answer every sequence of operations as the in-memory one does.
 */
module QueueStore {
  import opened Prelude

  type SessionId = string

  datatype QueuedEvent =
    QueuedEvent(content: string, model: Option<string>, thinkingLevel: Option<string>, enqueuedAt: int)

  datatype Op =
    | Enqueue(sid: SessionId, event: QueuedEvent)
    | Peek(sid: SessionId)
    | Shift(sid: SessionId)
    | Size(sid: SessionId)
    | Clear(sid: SessionId)
    | ListSessions

  datatype Reply =
    | Done
    | Event(event: Option<QueuedEvent>)
    | Count(n: nat)
    | Sessions(sids: set<SessionId>)

  // ---- In memory ----

  type Queues = map<SessionId, seq<QueuedEvent>>

  function QueueOf(q: Queues, sid: SessionId): seq<QueuedEvent> {
    if sid in q then q[sid] else []
  }

  function HeadOf(events: seq<QueuedEvent>): Option<QueuedEvent> {
    if events == [] then None else Some(events[0])
  }

  function Enqueued(q: Queues, sid: SessionId, event: QueuedEvent): Queues {
    q[sid := QueueOf(q, sid) + [event]]
  }

  function Shifted(q: Queues, sid: SessionId): Queues {
    var events := QueueOf(q, sid);
    if events == [] then q
    else if |events| == 1 then q - {sid}
    else q[sid := events[1..]]
  }

  function MemoryStep(q: Queues, op: Op): (Queues, Reply) {
    match op
    case Enqueue(sid, event) => (Enqueued(q, sid, event), Done)
    case Peek(sid) => (q, Event(HeadOf(QueueOf(q, sid))))
    case Shift(sid) => (Shifted(q, sid), Event(HeadOf(QueueOf(q, sid))))
    case Size(sid) => (q, Count(|QueueOf(q, sid)|))
    case Clear(sid) => (q - {sid}, Count(|QueueOf(q, sid)|))
    case ListSessions => (q, Sessions(q.Keys))
  }

  // ---- One table ----

  // NULL columns are None.
  datatype Row = Row(sid: SessionId, content: string, model: Option<string>, thinkingLevel: Option<string>, enqueuedAt: int)

  datatype Table = Table(rows: map<nat, Row>, next: nat)

  function RowOf(sid: SessionId, e: QueuedEvent): Row {
    Row(sid, e.content, e.model, e.thinkingLevel, e.enqueuedAt)
  }

  function EventOf(r: Row): QueuedEvent {
    QueuedEvent(r.content, r.model, r.thinkingLevel, r.enqueuedAt)
  }

  predicate Mine(rows: map<nat, Row>, sid: SessionId, id: nat) {
    id in rows && rows[id].sid == sid
  }

  /** ORDER BY id ASC LIMIT 1, from row `id` on. */
  function FirstRow(t: Table, sid: SessionId, id: nat): Option<nat>
    decreases t.next - id
  {
    if id >= t.next then None
    else if Mine(t.rows, sid, id) then Some(id)
    else FirstRow(t, sid, id + 1)
  }

  function RowsOf(rows: map<nat, Row>, sid: SessionId): set<nat> {
    set id | id in rows && rows[id].sid == sid
  }

  function TableStep(t: Table, op: Op): (Table, Reply) {
    match op
    case Enqueue(sid, event) => (Table(t.rows[t.next := RowOf(sid, event)], t.next + 1), Done)
    case Peek(sid) =>
      (match FirstRow(t, sid, 0)
       case None => (t, Event(None))
       case Some(id) => if id in t.rows then (t, Event(Some(EventOf(t.rows[id])))) else (t, Event(None)))
    case Shift(sid) =>
      (match FirstRow(t, sid, 0)
       case None => (t, Event(None))
       case Some(id) =>
         if id in t.rows then (t.(rows := t.rows - {id}), Event(Some(EventOf(t.rows[id])))) else (t, Event(None)))
    case Size(sid) => (t, Count(|RowsOf(t.rows, sid)|))
    case Clear(sid) => (t.(rows := t.rows - RowsOf(t.rows, sid)), Count(|RowsOf(t.rows, sid)|))
    case ListSessions => (t, Sessions(set id | id in t.rows :: t.rows[id].sid))
  }

  // ---- Simulation ----

  /** The session's rows from `id` on, in id order. */
  function EventsFrom(t: Table, sid: SessionId, id: nat): seq<QueuedEvent>
    decreases t.next - id
  {
    if id >= t.next then []
    else (if Mine(t.rows, sid, id) then [EventOf(t.rows[id])] else []) + EventsFrom(t, sid, id + 1)
  }

  /** Same queue for every session, no session listed with an empty one, no row beyond the counter. */
  ghost predicate Agree(q: Queues, t: Table) {
    && (forall sid :: QueueOf(q, sid) == EventsFrom(t, sid, 0))
    && (forall sid :: sid in q ==> q[sid] != [])
    && (forall id :: id in t.rows ==> id < t.next)
  }

  lemma {:induction false} FrameFrom(t: Table, u: Table, sid: SessionId, id: nat)
    requires t.next == u.next
    requires forall i: nat :: id <= i < t.next ==>
      Mine(t.rows, sid, i) == Mine(u.rows, sid, i) && (Mine(t.rows, sid, i) ==> t.rows[i] == u.rows[i])
    ensures EventsFrom(t, sid, id) == EventsFrom(u, sid, id)
    decreases t.next - id
  {
    if id < t.next {
      FrameFrom(t, u, sid, id + 1);
    }
  }

  lemma {:induction false} InsertedLast(t: Table, row: Row, sid: SessionId, id: nat)
    requires id <= t.next && t.next !in t.rows
    ensures EventsFrom(Table(t.rows[t.next := row], t.next + 1), sid, id) ==
            EventsFrom(t, sid, id) + if row.sid == sid then [EventOf(row)] else []
    decreases t.next - id
  {
    var u := Table(t.rows[t.next := row], t.next + 1);
    if id < t.next {
      InsertedLast(t, row, sid, id + 1);
    } else {
      assert EventsFrom(u, sid, id + 1) == [];
    }
  }

  /** The first row is the head of the queue, and deleting it leaves the tail. */
  lemma {:induction false} FirstRowIsHead(t: Table, sid: SessionId, id: nat)
    ensures FirstRow(t, sid, id).None? ==> EventsFrom(t, sid, id) == []
    ensures FirstRow(t, sid, id).Some? ==>
      var first := FirstRow(t, sid, id).value;
      && id <= first < t.next && Mine(t.rows, sid, first)
      && EventsFrom(t, sid, id) == [EventOf(t.rows[first])] + EventsFrom(t.(rows := t.rows - {first}), sid, id)
    decreases t.next - id
  {
    if id < t.next {
      if Mine(t.rows, sid, id) {
        FrameFrom(t, t.(rows := t.rows - {id}), sid, id + 1);
      } else {
        FirstRowIsHead(t, sid, id + 1);
      }
    }
  }

  lemma {:induction false} CountIsLength(t: Table, sid: SessionId, id: nat)
    requires forall i :: i in t.rows ==> i < t.next
    ensures |set i | i in RowsOf(t.rows, sid) && i >= id| == |EventsFrom(t, sid, id)|
    decreases t.next - id
  {
    var rest := set i | i in RowsOf(t.rows, sid) && i >= id;
    if id < t.next {
      CountIsLength(t, sid, id + 1);
      var after := set i | i in RowsOf(t.rows, sid) && i >= id + 1;
      assert rest == after + if Mine(t.rows, sid, id) then {id} else {};
    } else {
      assert rest == {};
    }
  }

  lemma RowCount(t: Table, sid: SessionId)
    requires forall i :: i in t.rows ==> i < t.next
    ensures |RowsOf(t.rows, sid)| == |EventsFrom(t, sid, 0)|
  {
    CountIsLength(t, sid, 0);
    assert (set i | i in RowsOf(t.rows, sid) && i >= 0) == RowsOf(t.rows, sid);
  }

  lemma EnqueueAgrees(q: Queues, t: Table, sid: SessionId, event: QueuedEvent)
    requires Agree(q, t)
    ensures Agree(MemoryStep(q, Enqueue(sid, event)).0, TableStep(t, Enqueue(sid, event)).0)
  {
    var q', t' := MemoryStep(q, Enqueue(sid, event)).0, TableStep(t, Enqueue(sid, event)).0;
    forall x ensures QueueOf(q', x) == EventsFrom(t', x, 0) {
      InsertedLast(t, RowOf(sid, event), x, 0);
      assert QueueOf(q, x) == EventsFrom(t, x, 0);
    }
  }

  lemma ShiftAgrees(q: Queues, t: Table, sid: SessionId)
    requires Agree(q, t)
    ensures Agree(MemoryStep(q, Shift(sid)).0, TableStep(t, Shift(sid)).0)
    ensures MemoryStep(q, Shift(sid)).1 == TableStep(t, Shift(sid)).1
    ensures MemoryStep(q, Peek(sid)) == (q, TableStep(t, Peek(sid)).1)
  {
    FirstRowIsHead(t, sid, 0);
    assert QueueOf(q, sid) == EventsFrom(t, sid, 0);
    var q', t' := MemoryStep(q, Shift(sid)).0, TableStep(t, Shift(sid)).0;
    forall x ensures QueueOf(q', x) == EventsFrom(t', x, 0) {
      assert QueueOf(q, x) == EventsFrom(t, x, 0);
      if x != sid {
        FrameFrom(t, t', x, 0);
      }
    }
  }

  lemma ClearAgrees(q: Queues, t: Table, sid: SessionId)
    requires Agree(q, t)
    ensures Agree(MemoryStep(q, Clear(sid)).0, TableStep(t, Clear(sid)).0)
    ensures MemoryStep(q, Clear(sid)).1 == TableStep(t, Clear(sid)).1
  {
    RowCount(t, sid);
    assert QueueOf(q, sid) == EventsFrom(t, sid, 0);
    var q', t' := MemoryStep(q, Clear(sid)).0, TableStep(t, Clear(sid)).0;
    RowCount(t', sid);
    assert RowsOf(t'.rows, sid) == {};
    forall x ensures QueueOf(q', x) == EventsFrom(t', x, 0) {
      assert QueueOf(q, x) == EventsFrom(t, x, 0);
      if x != sid {
        FrameFrom(t, t', x, 0);
      }
    }
  }

  lemma ListAgrees(q: Queues, t: Table)
    requires Agree(q, t)
    ensures MemoryStep(q, ListSessions).1 == TableStep(t, ListSessions).1
  {
    var listed := set id | id in t.rows :: t.rows[id].sid;
    forall sid ensures sid in q <==> sid in listed {
      assert QueueOf(q, sid) == EventsFrom(t, sid, 0);
      RowCount(t, sid);
      if sid in q {
        assert RowsOf(t.rows, sid) != {};
        var id :| id in RowsOf(t.rows, sid);
        assert t.rows[id].sid in listed;
      }
      if sid in listed {
        var id :| id in t.rows && t.rows[id].sid == sid;
        assert id in RowsOf(t.rows, sid);
      }
    }
  }

  lemma StepAgrees(q: Queues, t: Table, op: Op)
    requires Agree(q, t)
    ensures Agree(MemoryStep(q, op).0, TableStep(t, op).0)
    ensures MemoryStep(q, op).1 == TableStep(t, op).1
  {
    match op {
      case Enqueue(sid, event) => EnqueueAgrees(q, t, sid, event);
      case Peek(sid) => ShiftAgrees(q, t, sid);
      case Shift(sid) => ShiftAgrees(q, t, sid);
      case Size(sid) => RowCount(t, sid); assert QueueOf(q, sid) == EventsFrom(t, sid, 0);
      case Clear(sid) => ClearAgrees(q, t, sid);
      case ListSessions => ListAgrees(q, t);
    }
  }

  function MemoryReplies(q: Queues, ops: seq<Op>): seq<Reply>
    decreases |ops|
  {
    if ops == [] then []
    else
      var (q', r) := MemoryStep(q, ops[0]);
      [r] + MemoryReplies(q', ops[1..])
  }

  function TableReplies(t: Table, ops: seq<Op>): seq<Reply>
    decreases |ops|
  {
    if ops == [] then []
    else
      var (t', r) := TableStep(t, ops[0]);
      [r] + TableReplies(t', ops[1..])
  }

  lemma {:induction false} AgreeOnReplies(q: Queues, t: Table, ops: seq<Op>)
    requires Agree(q, t)
    ensures MemoryReplies(q, ops) == TableReplies(t, ops)
    decreases |ops|
  {
    if ops == [] {
    } else {
      StepAgrees(q, t, ops[0]);
      AgreeOnReplies(MemoryStep(q, ops[0]).0, TableStep(t, ops[0]).0, ops[1..]);
    }
  }

  /** From empty stores every sequence of operations gets the same replies. */
  lemma DurableQueueRefinesMemory(ops: seq<Op>)
    ensures MemoryReplies(map[], ops) == TableReplies(Table(map[], 0), ops)
  {
    AgreeOnReplies(map[], Table(map[], 0), ops);
  }

  // ---- What the replies are, told by the operations ----

  function After(ops: seq<Op>): Queues {
    if ops == [] then map[] else MemoryStep(After(ops[..|ops|-1]), ops[|ops|-1]).0
  }

  /** What was put in for the session since it was last cleared. */
  function Put(ops: seq<Op>, sid: SessionId): seq<QueuedEvent> {
    if ops == [] || ops[|ops|-1] == Clear(sid) then []
    else Put(ops[..|ops|-1], sid) + if ops[|ops|-1].Enqueue? && ops[|ops|-1].sid == sid then [ops[|ops|-1].event] else []
  }

  /** What its shifts have answered since then. */
  function Taken(ops: seq<Op>, sid: SessionId): seq<QueuedEvent> {
    if ops == [] || ops[|ops|-1] == Clear(sid) then []
    else
      var reply := MemoryStep(After(ops[..|ops|-1]), ops[|ops|-1]).1;
      Taken(ops[..|ops|-1], sid)
      + if ops[|ops|-1] == Shift(sid) && reply.Event? && reply.event.Some? then [reply.event.value] else []
  }

  lemma QueueStep(q: Queues, op: Op, sid: SessionId)
    requires sid in q ==> q[sid] != []
    ensures var (q', reply) := MemoryStep(q, op);
            && (sid in q' ==> q'[sid] != [])
            && (if op.Enqueue? && op.sid == sid then QueueOf(q', sid) == QueueOf(q, sid) + [op.event]
                else if op == Clear(sid) then QueueOf(q', sid) == []
                else if op == Shift(sid) && reply.event.Some? then QueueOf(q, sid) == [reply.event.value] + QueueOf(q', sid)
                else QueueOf(q', sid) == QueueOf(q, sid))
  {
  }

  /** First in, first out: what was taken and then what is there is what was put in. */
  lemma {:induction false} FirstInFirstOut(ops: seq<Op>, sid: SessionId)
    ensures Put(ops, sid) == Taken(ops, sid) + QueueOf(After(ops), sid)
    ensures sid in After(ops) ==> After(ops)[sid] != []
  {
    if ops != [] {
      var before, op := ops[..|ops|-1], ops[|ops|-1];
      FirstInFirstOut(before, sid);
      QueueStep(After(before), op, sid);
      if op.Enqueue? && op.sid == sid {
        Regroup(Taken(before, sid), QueueOf(After(before), sid), [op.event]);
      } else if op == Shift(sid) && MemoryStep(After(before), op).1.event.Some? {
        Regroup(Taken(before, sid), [MemoryStep(After(before), op).1.event.value], QueueOf(After(ops), sid));
      }
    }
  }

  function Left(ops: seq<Op>, sid: SessionId): seq<QueuedEvent> {
    if |Taken(ops, sid)| <= |Put(ops, sid)| then Put(ops, sid)[|Taken(ops, sid)|..] else []
  }

  function Oldest(left: seq<QueuedEvent>): Option<QueuedEvent> {
    if left == [] then None else Some(left[0])
  }

  ghost predicate IsReply(ops: seq<Op>, op: Op, reply: Reply) {
    match op
    case Enqueue(_, _) => reply == Done
    case Peek(x) => reply == Event(Oldest(Left(ops, x)))
    case Shift(x) => reply == Event(Oldest(Left(ops, x)))
    case Size(x) => reply == Count(|Left(ops, x)|)
    case Clear(x) => reply == Count(|Left(ops, x)|)
    case ListSessions => reply.Sessions? && forall x :: x in reply.sids <==> Left(ops, x) != []
  }

  /**
   Every reply is that of a queue per session: the oldest message put in and not yet taken, for a
   look or for good; how many there are; the sessions that have any.
   */
  lemma RepliesOfQueues(ops: seq<Op>, op: Op)
    ensures IsReply(ops, op, MemoryStep(After(ops), op).1)
  {
    forall sid ensures Left(ops, sid) == QueueOf(After(ops), sid) && (sid in After(ops) <==> Left(ops, sid) != []) {
      FirstInFirstOut(ops, sid);
    }
  }

  // ---- The store objects ----

  class InMemoryQueueStore {
    var bySession: Queues

    constructor ()
      ensures bySession == map[]
    {
      bySession := map[];
    }

    method EnqueueEvent(sid: SessionId, event: QueuedEvent)
      modifies this
      ensures bySession == MemoryStep(old(bySession), Enqueue(sid, event)).0
    {
      if sid in bySession {
        bySession := bySession[sid := bySession[sid] + [event]];
      } else {
        assert [] + [event] == [event];
        bySession := bySession[sid := [event]];
      }
    }

    method PeekEvent(sid: SessionId) returns (event: Option<QueuedEvent>)
      ensures Event(event) == MemoryStep(bySession, Peek(sid)).1
    {
      if sid in bySession && |bySession[sid]| > 0 {
        return Some(bySession[sid][0]);
      }
      event := None;
    }

    method ShiftEvent(sid: SessionId) returns (event: Option<QueuedEvent>)
      modifies this
      ensures (bySession, Event(event)) == MemoryStep(old(bySession), Shift(sid))
    {
      if sid !in bySession || |bySession[sid]| == 0 {
        return None;
      }
      var queue := bySession[sid];
      event := Some(queue[0]);
      queue := queue[1..];
      if |queue| == 0 {
        bySession := bySession - {sid};
      } else {
        bySession := bySession[sid := queue];
      }
    }

    method QueueSize(sid: SessionId) returns (n: nat)
      ensures Count(n) == MemoryStep(bySession, Size(sid)).1
    {
      n := if sid in bySession then |bySession[sid]| else 0;
    }

    method ListSessionsWithQueued() returns (sids: set<SessionId>)
      ensures Sessions(sids) == MemoryStep(bySession, ListSessions).1
    {
      sids := bySession.Keys;
    }

    method ClearEvents(sid: SessionId) returns (dropped: nat)
      modifies this
      ensures (bySession, Count(dropped)) == MemoryStep(old(bySession), Clear(sid))
    {
      dropped := if sid in bySession then |bySession[sid]| else 0;
      bySession := bySession - {sid};
    }
  }

  class SqliteQueueStore {
    var rows: map<nat, Row>
    var next: nat

    ghost function Contents(): Table reads this { Table(rows, next) }

    constructor ()
      ensures Contents() == Table(map[], 0)
    {
      rows, next := map[], 0;
    }

    method EnqueueEvent(sid: SessionId, event: QueuedEvent)
      modifies this
      ensures Contents() == TableStep(old(Contents()), Enqueue(sid, event)).0
    {
      rows := rows[next := Row(sid, event.content, event.model, event.thinkingLevel, event.enqueuedAt)];
      next := next + 1;
    }

    method PeekEvent(sid: SessionId) returns (event: Option<QueuedEvent>)
      ensures Event(event) == TableStep(Contents(), Peek(sid)).1
    {
      var first := FirstRow(Table(rows, next), sid, 0);
      if first.None? || first.value !in rows {
        return None;
      }
      var row := rows[first.value];
      event := Some(QueuedEvent(row.content, row.model, row.thinkingLevel, row.enqueuedAt));
    }

    method QueueSize(sid: SessionId) returns (n: nat)
      ensures Count(n) == TableStep(Contents(), Size(sid)).1
    {
      n := |RowsOf(rows, sid)|;
    }

    method ListSessionsWithQueued() returns (sids: set<SessionId>)
      ensures Sessions(sids) == TableStep(Contents(), ListSessions).1
    {
      sids := set id | id in rows :: rows[id].sid;
    }

    /** Peek then delete: two statements, one synchronous call. */
    method ShiftEvent(sid: SessionId) returns (event: Option<QueuedEvent>)
      modifies this
      ensures (Contents(), Event(event)) == TableStep(old(Contents()), Shift(sid))
    {
      var first := FirstRow(Table(rows, next), sid, 0);
      if first.None? || first.value !in rows {
        return None;
      }
      var row := rows[first.value];
      rows := rows - {first.value};
      event := Some(QueuedEvent(row.content, row.model, row.thinkingLevel, row.enqueuedAt));
    }

    method ClearEvents(sid: SessionId) returns (changes: nat)
      modifies this
      ensures (Contents(), Count(changes)) == TableStep(old(Contents()), Clear(sid))
    {
      var mine := RowsOf(rows, sid);
      rows := rows - mine;
      changes := |mine|;
    }
  }
}
