/**
 The gateway client's table of requests awaiting a response over one WebSocket at a time. What
 happens to a request's promise is recorded as the calls of its resolve and reject.
 */
module GatewayRequests {
  import opened Prelude

  type RequestId = string

  datatype Outcome =
    | Resolved(payload: string)
    | Rejected(code: string)

  type Calls = map<RequestId, seq<Outcome>>

  /** `timers` are the armed timeouts; `calls` has every resolve and reject called so far. */
  datatype State = State(
    connected: bool, closed: bool, socket: bool, next: nat,
    pending: set<RequestId>, timers: set<RequestId>, calls: Calls)

  const START := State(false, false, false, 1, {}, {}, map[])

  function CallsOf(calls: Calls, id: RequestId): seq<Outcome> {
    if id in calls then calls[id] else []
  }

  function Settle(calls: Calls, id: RequestId, outcome: Outcome): Calls {
    calls[id := CallsOf(calls, id) + [outcome]]
  }

  function SettleAll(calls: Calls, ids: set<RequestId>, outcome: Outcome): Calls {
    map id | id in calls.Keys + ids :: CallsOf(calls, id) + if id in ids then [outcome] else []
  }

  datatype Step =
    | BeginConnect
    | HandshakeOk
    | Request(sendOk: bool)
    | Response(id: RequestId, outcome: Outcome)
    | Timeout(id: RequestId)
    | SocketError
    | SocketClose
    | Close

  predicate Enabled(s: State, step: Step) {
    match step
    case BeginConnect => !s.connected && !s.closed
    case HandshakeOk => true
    case Timeout(id) => id in s.timers
    case _ => true
  }

  function Failed(s: State, code: string): State {
    s.(connected := false, pending := {}, timers := s.timers - s.pending, calls := SettleAll(s.calls, s.pending, Rejected(code)))
  }

  function Apply(s: State, step: Step): State {
    match step
    case BeginConnect => s.(socket := true)
    case HandshakeOk => s.(connected := true)
    case Request(sendOk) =>
      if s.closed || !s.connected || !s.socket then s
      else
        var id := Decimal(s.next);
        if sendOk then s.(next := s.next + 1, pending := s.pending + {id}, timers := s.timers + {id})
        else
          s.(next := s.next + 1, pending := s.pending - {id}, timers := s.timers - {id},
             calls := Settle(s.calls, id, Rejected("send_failed")))
    case Response(id, outcome) =>
      if id !in s.pending then s
      else s.(pending := s.pending - {id}, timers := s.timers - {id}, calls := Settle(s.calls, id, outcome))
    case Timeout(id) =>
      s.(pending := s.pending - {id}, timers := s.timers - {id}, calls := Settle(s.calls, id, Rejected("request_timeout")))
    case SocketError => Failed(s, "socket_error")
    case SocketClose => Failed(s, "socket_closed")
    case Close => if s.closed then s else Failed(s, "closed").(closed := true, socket := false)
  }

  class GatewayWebSocketClient {
    var connected: bool
    var closed: bool
    var socket: bool
    var nextRequestId: nat
    var pending: set<RequestId>
    var timers: set<RequestId>
    var calls: Calls

    function Contents(): State
      reads this
    {
      State(connected, closed, socket, nextRequestId, pending, timers, calls)
    }

    constructor ()
      ensures Contents() == START
    {
      connected, closed, socket, nextRequestId := false, false, false, 1;
      pending, timers, calls := {}, {}, map[];
    }

    method BeginConnect() returns (error: Option<string>)
      modifies this
      ensures error == if !old(connected) && old(closed) then Some("closed") else None
      ensures Contents() == if old(connected) || old(closed) then old(Contents()) else Apply(old(Contents()), Step.BeginConnect)
      ensures !old(connected) && !old(closed) ==> socket
    {
      if connected {
        return None;
      }
      if closed {
        return Some("closed");
      }
      socket := true;
      return None;
    }

    method HandshakeDone()
      modifies this
      ensures Contents() == Apply(old(Contents()), HandshakeOk)
      ensures connected && closed == old(closed)
    {
      connected := true;
    }

    /** `sendOk` is whether the socket takes the frame. */
    method Request(sendOk: bool) returns (result: Option<RequestId>, refused: string)
      modifies this
      ensures Contents() == Apply(old(Contents()), Step.Request(sendOk))
      ensures result.Some? <==> !old(closed) && old(connected) && old(socket)
      ensures result.Some? ==> result.value == Decimal(old(nextRequestId))
      ensures result.Some? && sendOk ==> result.value in pending && result.value in timers && calls == old(calls)
      ensures result.Some? && !sendOk ==> result.value !in pending && result.value in calls
      ensures result.None? ==> refused == if old(closed) then "closed" else "not_connected"
    {
      refused := "";
      if closed {
        return None, "closed";
      }
      if !connected || !socket {
        return None, "not_connected";
      }
      var id := Decimal(nextRequestId);
      nextRequestId := nextRequestId + 1;
      timers := timers + {id};
      pending := pending + {id};
      if !sendOk {
        timers := timers - {id};
        pending := pending - {id};
        calls := Settle(calls, id, Rejected("send_failed"));
      }
      result := Some(id);
    }

    method HandleResponse(id: RequestId, outcome: Outcome)
      modifies this
      ensures Contents() == Apply(old(Contents()), Response(id, outcome))
    {
      if id !in pending {
        return;
      }
      pending := pending - {id};
      timers := timers - {id};
      calls := Settle(calls, id, outcome);
    }

    method RejectAll(code: string)
      modifies this`pending, this`timers, this`calls
      ensures pending == {} && timers == old(timers) - old(pending)
      ensures calls == SettleAll(old(calls), old(pending), Rejected(code))
    {
      var rest := pending;
      SettleNone(calls, Rejected(code));
      assert old(pending) - rest == {};
      while rest != {}
        invariant rest <= pending == old(pending)
        invariant timers == old(timers) - (old(pending) - rest)
        invariant calls == SettleAll(old(calls), old(pending) - rest, Rejected(code))
      {
        var id :| id in rest;
        SettleOneMore(old(calls), old(pending) - rest, id, Rejected(code));
        assert old(pending) - (rest - {id}) == old(pending) - rest + {id};
        rest := rest - {id};
        timers := timers - {id};
        calls := Settle(calls, id, Rejected(code));
      }
      pending := {};
    }

    method HandleSocketError()
      modifies this
      ensures Contents() == Apply(old(Contents()), SocketError)
      ensures !connected && pending == {}
    {
      RejectAll("socket_error");
      connected := false;
    }

    method HandleSocketClose()
      modifies this
      ensures Contents() == Apply(old(Contents()), SocketClose)
      ensures !connected && pending == {}
    {
      RejectAll("socket_closed");
      connected := false;
    }

    method Close()
      modifies this
      ensures Contents() == Apply(old(Contents()), Step.Close)
      ensures closed && (!old(closed) ==> !connected && !socket && pending == {})
    {
      if closed {
        return;
      }
      closed := true;
      connected := false;
      RejectAll("closed");
      socket := false;
    }
  }

  lemma SettleOneMore(calls: Calls, ids: set<RequestId>, id: RequestId, outcome: Outcome)
    requires id !in ids
    ensures SettleAll(calls, ids + {id}, outcome) == Settle(SettleAll(calls, ids, outcome), id, outcome)
  {
    var before, after := SettleAll(calls, ids, outcome), SettleAll(calls, ids + {id}, outcome);
    assert after.Keys == before.Keys + {id};
    assert CallsOf(before, id) == CallsOf(calls, id) by { assert CallsOf(calls, id) + [] == CallsOf(calls, id); }
  }

  lemma SettleNone(calls: Calls, outcome: Outcome)
    ensures SettleAll(calls, {}, outcome) == calls
  {
    forall id | id in calls ensures SettleAll(calls, {}, outcome)[id] == calls[id] {
      assert calls[id] + [] == calls[id];
    }
  }

  // ---- Runs ----

  /** Issued ids are pending or settled, never both, and settled once. */
  ghost predicate SettledOnce(s: State) {
    && s.timers == s.pending
    && (forall id :: id in s.pending ==> id !in s.calls && IssuedBefore(id, s.next))
    && (forall id :: id in s.calls ==> |s.calls[id]| == 1 && IssuedBefore(id, s.next))
    && (forall n: nat :: 1 <= n < s.next ==> Decimal(n) in s.pending || Decimal(n) in s.calls)
    && s.next >= 1
    && (s.closed ==> s.pending == {})
  }

  ghost predicate IssuedBefore(id: RequestId, next: nat) {
    exists n: nat :: 1 <= n < next && id == Decimal(n)
  }

  lemma NextIsNew(next: nat)
    requires next >= 1
    ensures !IssuedBefore(Decimal(next), next)
  {
    forall n: nat | 1 <= n < next ensures Decimal(n) != Decimal(next) {
      if Decimal(n) == Decimal(next) {
        DecimalInjective(n, next);
      }
    }
  }

  lemma IssuedLater(id: RequestId, next: nat)
    requires IssuedBefore(id, next)
    ensures IssuedBefore(id, next + 1)
  {
  }

  lemma RequestKeepsOnce(s: State, sendOk: bool)
    requires SettledOnce(s)
    ensures SettledOnce(Apply(s, Request(sendOk)))
  {
    if !s.closed && s.connected && s.socket {
      var after := Apply(s, Request(sendOk));
      NextIsNew(s.next);
      assert 1 <= s.next < s.next + 1;
      forall id | id in after.pending ensures id !in after.calls && IssuedBefore(id, after.next) {
        if id in s.pending {
          IssuedLater(id, s.next);
        }
      }
      forall id | id in after.calls ensures |after.calls[id]| == 1 && IssuedBefore(id, after.next) {
        if id in s.calls {
          IssuedLater(id, s.next);
        }
      }
    }
  }

  lemma StepKeepsOnce(s: State, step: Step)
    requires SettledOnce(s) && Enabled(s, step)
    ensures SettledOnce(Apply(s, step))
  {
    if step.Request? {
      RequestKeepsOnce(s, step.sendOk);
    }
  }

  ghost predicate IsRun(s: State, steps: seq<Step>)
    decreases |steps|
  {
    steps == [] || (Enabled(s, steps[0]) && IsRun(Apply(s, steps[0]), steps[1..]))
  }

  function Replay(s: State, steps: seq<Step>): State
    decreases |steps|
  {
    if steps == [] then s else Replay(Apply(s, steps[0]), steps[1..])
  }

  lemma {:induction false} RunKeepsOnce(s: State, steps: seq<Step>)
    requires SettledOnce(s) && IsRun(s, steps)
    ensures SettledOnce(Replay(s, steps))
    decreases |steps|
  {
    if steps != [] {
      StepKeepsOnce(s, steps[0]);
      RunKeepsOnce(Apply(s, steps[0]), steps[1..]);
    }
  }

  /** What a step does to requests other than the one it names, and to their promises. */
  ghost predicate Touches(step: Step, id: RequestId, next: nat) {
    match step
    case Request(_) => id == Decimal(next)
    case Response(other, _) => id == other
    case Timeout(other) => id == other
    case SocketError => true
    case SocketClose => true
    case Close => true
    case _ => false
  }

  /**
   In every order of events the pending ids are exactly those issued and not settled, each is
   settled once, an id is never issued again, and a response to no pending request does nothing.
   */
  lemma RequestsSettleOnce(steps: seq<Step>)
    requires IsRun(START, steps)
    ensures var s := Replay(START, steps);
            && (forall n: nat :: 1 <= n < s.next ==> (Decimal(n) in s.pending <==> CallsOf(s.calls, Decimal(n)) == []))
            && (forall id :: id in s.pending || id in s.calls ==> IssuedBefore(id, s.next))
            && (forall id :: |CallsOf(s.calls, id)| <= 1)
            && Decimal(s.next) !in s.pending && Decimal(s.next) !in s.calls
            && s.timers == s.pending
            && (forall id, outcome :: id !in s.pending ==> Apply(s, Response(id, outcome)) == s)
  {
    RunKeepsOnce(START, steps);
    NextIsNew(Replay(START, steps).next);
  }

  /** Nothing is left pending when the socket fails or the client closes, and a closed client stays so. */
  lemma {:induction false} NothingLeftPending(steps: seq<Step>, last: Step, more: seq<Step>)
    requires IsRun(START, steps) && (last.SocketError? || last.SocketClose? || last.Close?)
    requires var s := Apply(Replay(START, steps), last); IsRun(s, more)
    ensures var s := Apply(Replay(START, steps), last);
            && s.pending == {} && s.timers == {} && (s.closed || !s.connected)
            && (forall id :: id in Replay(START, steps).pending ==> |s.calls[id]| == 1 && s.calls[id][0].Rejected?)
            && (last.Close? ==> s.closed && Replay(s, more).closed && Replay(s, more).pending == {} && Replay(s, more).calls == s.calls)
  {
    RunKeepsOnce(START, steps);
    var before := Replay(START, steps);
    var s := Apply(before, last);
    StepKeepsOnce(before, last);
    if last.Close? {
      ClosedStays(s, more);
    }
  }

  lemma {:induction false} ClosedStays(s: State, steps: seq<Step>)
    requires SettledOnce(s) && s.closed && IsRun(s, steps)
    ensures Replay(s, steps).closed && Replay(s, steps).pending == {} && Replay(s, steps).calls == s.calls
    decreases |steps|
  {
    if steps != [] {
      StepKeepsOnce(s, steps[0]);
      var after := Apply(s, steps[0]);
      SettleNone(s.calls, Rejected("socket_error"));
      SettleNone(s.calls, Rejected("socket_closed"));
      assert after.closed && after.calls == s.calls;
      ClosedStays(after, steps[1..]);
    }
  }

  /** A request is settled by its own response, its own timeout or failing send, or the socket's end. */
  lemma SettledBy(s: State, step: Step, id: RequestId)
    requires SettledOnce(s) && Enabled(s, step)
    ensures var after := Apply(s, step);
            && (CallsOf(after.calls, id) != CallsOf(s.calls, id) ==> Touches(step, id, s.next))
            && (id in s.pending && step.Response? && step.id == id ==> after.calls[id] == [step.outcome])
            && (id in s.pending && step.Timeout? && step.id == id ==> after.calls[id] == [Rejected("request_timeout")])
  {
  }

  /** What an event settles a pending request with, if it does. */
  function Fate(step: Step, id: RequestId): Option<Outcome> {
    match step
    case Response(other, outcome) => if other == id then Some(outcome) else None
    case Timeout(other) => if other == id then Some(Rejected("request_timeout")) else None
    case SocketError => Some(Rejected("socket_error"))
    case SocketClose => Some(Rejected("socket_closed"))
    case Close => Some(Rejected("closed"))
    case _ => None
  }

  function FirstFate(steps: seq<Step>, id: RequestId): Option<Outcome> {
    if steps == [] then None
    else if Fate(steps[0], id).Some? then Fate(steps[0], id)
    else FirstFate(steps[1..], id)
  }

  lemma PendingMeetsFate(s: State, step: Step, id: RequestId)
    requires SettledOnce(s) && Enabled(s, step) && id in s.pending
    ensures var after := Apply(s, step);
            if Fate(step, id).Some? then id !in after.pending && after.calls[id] == [Fate(step, id).value]
            else id in after.pending
  {
    if step.Request? {
      NextIsNew(s.next);
    }
  }

  lemma {:induction false} SettledStays(s: State, steps: seq<Step>, id: RequestId)
    requires SettledOnce(s) && IsRun(s, steps) && id in s.calls
    ensures id in Replay(s, steps).calls && Replay(s, steps).calls[id] == s.calls[id]
    decreases |steps|
  {
    if steps != [] {
      StepKeepsOnce(s, steps[0]);
      if steps[0].Request? {
        NextIsNew(s.next);
      }
      assert s.calls[id] + [] == s.calls[id];
      SettledStays(Apply(s, steps[0]), steps[1..], id);
    }
  }

  /**
   A pending request is settled by the first event that has an answer for it, its own response or
   timeout, the end of the socket or the closing of the client, with that answer and no other; as
   long as there is none it stays pending.
   */
  lemma {:induction false} SettledByFirst(s: State, steps: seq<Step>, id: RequestId)
    requires SettledOnce(s) && IsRun(s, steps) && id in s.pending
    ensures var after, fate := Replay(s, steps), FirstFate(steps, id);
            if fate.Some? then id !in after.pending && CallsOf(after.calls, id) == [fate.value]
            else id in after.pending && CallsOf(after.calls, id) == []
    decreases |steps|
  {
    if steps != [] {
      StepKeepsOnce(s, steps[0]);
      PendingMeetsFate(s, steps[0], id);
      if Fate(steps[0], id).Some? {
        RunKeepsOnce(Apply(s, steps[0]), steps[1..]);
        SettledStays(Apply(s, steps[0]), steps[1..], id);
      } else {
        SettledByFirst(Apply(s, steps[0]), steps[1..], id);
      }
    }
  }

  /** A request is issued by an open, connected client and by no other: pending once it is sent, rejected if it cannot be. */
  lemma RequestIssues(s: State, sendOk: bool)
    requires SettledOnce(s)
    ensures var after, id := Apply(s, Request(sendOk)), Decimal(s.next);
            if !s.closed && s.connected && s.socket then
              && after.next == s.next + 1
              && after.pending == (if sendOk then s.pending + {id} else s.pending) && after.timers == after.pending
              && CallsOf(after.calls, id) == (if sendOk then [] else [Rejected("send_failed")])
              && forall other :: other != id ==> CallsOf(after.calls, other) == CallsOf(s.calls, other)
            else after == s
  {
    NextIsNew(s.next);
  }
}
