/**
 Posting events with an Idempotency-Key. A step runs between two awaits of one request: it
 arrives, its action's promise settles, its owner resumes, or a request waiting on it resumes.
 */
module Idempotency {
  import opened Prelude

  datatype JsonReply = JsonReply(status: int, body: string)

  datatype Cached = Cached(reply: JsonReply, expiresAt: int)

  const TTL_MS := 300000

  /** The key of a request: none without an Idempotency-Key, or with a blank one. */
  function RequestKey(sessionId: string, idempotencyKey: Option<string>): Option<string> {
    if idempotencyKey.None? || idempotencyKey.value == "" then None
    else Some(sessionId + ":" + idempotencyKey.value)
  }

  /** Session ids have no ':', so only requests with the same session and key share a request key. */
  lemma KeysApart(a: string, x: Option<string>, b: string, y: Option<string>)
    requires ':' !in a && ':' !in b
    requires RequestKey(a, x).Some? && RequestKey(a, x) == RequestKey(b, y)
    ensures a == b && x == y
  {
    var s := a + ":" + x.value;
    assert s == b + ":" + y.value;
    assert s[|a|] == ':' && s[..|a|] == a && s[|b|] == ':' && s[..|b|] == b;
    FirstAt(s, ':', |a|);
    FirstAt(s, ':', |b|);
    assert s[|a| + 1..] == x.value && s[|b| + 1..] == y.value;
  }

  // ---- The tables ----

  type Cache = map<string, Cached>

  function Reaped(cache: Cache, now: int): Cache {
    map key | key in cache && now < cache[key].expiresAt :: cache[key]
  }

  datatype Arrival = Hit(reply: JsonReply) | Wait(action: nat) | Start

  function Arrived(cache: Cache, inflight: map<string, nat>, key: string, now: int): Arrival {
    var live := Reaped(cache, now);
    if key in live then Hit(live[key].reply)
    else if key in inflight then Wait(inflight[key])
    else Start
  }

  class EventReplies {
    var eventReplyCache: Cache
    var eventInflight: map<string, nat>
    var started: nat

    constructor ()
      ensures eventReplyCache == map[] && eventInflight == map[] && started == 0
    {
      eventReplyCache, eventInflight, started := map[], map[], 0;
    }

    method ReapExpiredEventReplies(now: int)
      modifies this`eventReplyCache
      ensures eventReplyCache == Reaped(old(eventReplyCache), now)
      ensures forall key :: key in old(eventReplyCache) && now < old(eventReplyCache)[key].expiresAt ==>
        key in eventReplyCache && eventReplyCache[key] == old(eventReplyCache)[key]
      ensures forall key :: key in eventReplyCache ==> key in old(eventReplyCache) && now < eventReplyCache[key].expiresAt
    {
      ghost var was := eventReplyCache;
      var keys := eventReplyCache.Keys;
      while keys != {}
        invariant keys <= eventReplyCache.Keys <= was.Keys
        invariant forall key :: key in eventReplyCache ==> eventReplyCache[key] == was[key]
        invariant forall key :: key in was && key !in keys ==>
          (key in eventReplyCache <==> now < was[key].expiresAt)
      {
        var key :| key in keys;
        keys := keys - {key};
        if eventReplyCache[key].expiresAt <= now {
          eventReplyCache := eventReplyCache - {key};
        }
      }
    }

    /** Up to the first await: a cached reply, an action to wait for, or a new action. */
    method Arrive(key: string, now: int) returns (arrival: Arrival)
      modifies this
      ensures arrival == Arrived(old(eventReplyCache), old(eventInflight), key, now)
      ensures eventReplyCache == Reaped(old(eventReplyCache), now)
      ensures eventInflight == if arrival.Start? then old(eventInflight)[key := old(started)] else old(eventInflight)
      ensures started == if arrival.Start? then old(started) + 1 else old(started)
    {
      ReapExpiredEventReplies(now);
      if key in eventReplyCache {
        return Hit(eventReplyCache[key].reply);
      }
      if key in eventInflight {
        return Wait(eventInflight[key]);
      }
      eventInflight := eventInflight[key := started];
      started := started + 1;
      return Start;
    }

    /** The owner resumes with the reply of its action. */
    method Finish(key: string, reply: JsonReply, now: int)
      modifies this
      ensures eventReplyCache == if reply.status < 500 then old(eventReplyCache)[key := Cached(reply, now + TTL_MS)] else old(eventReplyCache)
      ensures eventInflight == old(eventInflight) - {key} && started == old(started)
    {
      if reply.status < 500 {
        eventReplyCache := eventReplyCache[key := Cached(reply, now + TTL_MS)];
      }
      eventInflight := eventInflight - {key};
    }
  }

  // ---- Runs ----

  /** An action started for a key; `finishedAt` is when its owner resumed. */
  datatype Action = Action(key: string, startedAt: int, reply: Option<JsonReply>, finishedAt: Option<int>)

  /** A request: the action it started or joined, how many were started by then, what it was served. */
  datatype Request = Request(key: string, at: int, action: nat, started: nat, owner: bool, served: Option<JsonReply>)

  datatype State = State(
    cache: Cache, inflight: map<string, nat>, actions: seq<Action>, requests: seq<Request>, clock: int)

  const START := State(map[], map[], [], [], 0)

  datatype Step =
    | Arrive(key: string, now: int)
    | Settle(action: nat, reply: JsonReply)
    | OwnerResumes(request: nat, now: int)
    | WaiterResumes(request: nat)

  /** The last action started for a key, or `|actions|` when there is none. */
  function LastFor(actions: seq<Action>, key: string): (i: nat)
    ensures i <= |actions|
    ensures i < |actions| ==> actions[i].key == key
    ensures forall j :: 0 <= j < |actions| && actions[j].key == key ==> i < |actions| && j <= i
  {
    if actions == [] then 0
    else if actions[|actions| - 1].key == key then |actions| - 1
    else
      var i := LastFor(actions[..|actions| - 1], key);
      if i == |actions| - 1 then |actions| else i
  }

  predicate Enabled(s: State, step: Step) {
    match step
    case Arrive(_, now) => s.clock <= now
    case Settle(action, _) => action < |s.actions| && s.actions[action].reply.None?
    case OwnerResumes(r, now) =>
      && s.clock <= now && r < |s.requests| && s.requests[r].owner && s.requests[r].served.None?
      && s.requests[r].action < |s.actions| && s.actions[s.requests[r].action].reply.Some?
    case WaiterResumes(r) =>
      && r < |s.requests| && !s.requests[r].owner && s.requests[r].served.None?
      && s.requests[r].action < |s.actions| && s.actions[s.requests[r].action].reply.Some?
  }

  function Apply(s: State, step: Step): State
    requires Enabled(s, step)
  {
    match step
    case Arrive(key, now) =>
      var t := s.(cache := Reaped(s.cache, now), clock := now);
      (match Arrived(s.cache, s.inflight, key, now)
       case Hit(reply) =>
         t.(requests := s.requests + [Request(key, now, LastFor(s.actions, key), |s.actions|, false, Some(reply))])
       case Wait(action) =>
         t.(requests := s.requests + [Request(key, now, action, |s.actions|, false, None)])
       case Start =>
         t.(inflight := s.inflight[key := |s.actions|],
            actions := s.actions + [Action(key, now, None, None)],
            requests := s.requests + [Request(key, now, |s.actions|, |s.actions| + 1, true, None)]))
    case Settle(action, reply) =>
      s.(actions := s.actions[action := s.actions[action].(reply := Some(reply))])
    case OwnerResumes(r, now) =>
      var action := s.requests[r].action;
      var key, reply := s.actions[action].key, s.actions[action].reply.value;
      State(if reply.status < 500 then s.cache[key := Cached(reply, now + TTL_MS)] else s.cache,
            s.inflight - {key},
            s.actions[action := s.actions[action].(finishedAt := Some(now))],
            s.requests[r := s.requests[r].(served := Some(reply))],
            now)
    case WaiterResumes(r) =>
      s.(requests := s.requests[r := s.requests[r].(served := s.actions[s.requests[r].action].reply)])
  }

  predicate IsRun(s: State, steps: seq<Step>)
    decreases |steps|
  {
    steps == [] || (Enabled(s, steps[0]) && IsRun(Apply(s, steps[0]), steps[1..]))
  }

  function Replay(s: State, steps: seq<Step>): State
    requires IsRun(s, steps)
    decreases |steps|
  {
    if steps == [] then s else Replay(Apply(s, steps[0]), steps[1..])
  }

  // ---- What every run keeps ----

  /** The action no longer stands in the way of another: it failed, or its reply has expired. */
  predicate Over(a: Action, now: int) {
    && a.reply.Some? && a.finishedAt.Some?
    && (a.reply.value.status >= 500 || a.finishedAt.value + TTL_MS <= now)
  }

  ghost predicate Sequential(actions: seq<Action>) {
    forall i, j :: 0 <= i < j < |actions| && actions[i].key == actions[j].key ==> Over(actions[i], actions[j].startedAt)
  }

  ghost predicate Timely(actions: seq<Action>, clock: int) {
    forall i :: 0 <= i < |actions| ==>
      && actions[i].startedAt <= clock
      && (actions[i].finishedAt.Some? ==> actions[i].reply.Some? && actions[i].finishedAt.value <= clock)
  }

  ghost predicate InflightFits(inflight: map<string, nat>, actions: seq<Action>) {
    && (forall key :: key in inflight ==>
          inflight[key] < |actions| && actions[inflight[key]].key == key && actions[inflight[key]].finishedAt.None?)
    && (forall i :: 0 <= i < |actions| && actions[i].finishedAt.None? ==>
          actions[i].key in inflight && inflight[actions[i].key] == i)
  }

  predicate CachedFor(a: Action, c: Cached) {
    && a.reply == Some(c.reply) && c.reply.status < 500
    && a.finishedAt.Some? && c.expiresAt == a.finishedAt.value + TTL_MS
  }

  predicate IsOfLast(c: Cached, actions: seq<Action>, key: string) {
    LastFor(actions, key) < |actions| && CachedFor(actions[LastFor(actions, key)], c)
  }

  /** A cached reply is that of the key's last action. */
  ghost predicate CachesLast(cache: Cache, actions: seq<Action>) {
    forall key :: key in cache ==> IsOfLast(cache[key], actions, key)
  }

  /** An action of a key that is not cached is unfinished or over. */
  ghost predicate UncachedOver(cache: Cache, actions: seq<Action>, clock: int) {
    forall i :: 0 <= i < |actions| && actions[i].finishedAt.Some? && actions[i].key !in cache ==> Over(actions[i], clock)
  }

  ghost predicate CacheFits(cache: Cache, actions: seq<Action>, clock: int) {
    CachesLast(cache, actions) && UncachedOver(cache, actions, clock)
  }

  /** A request joined the last action started for its key, and is served that action's reply. */
  predicate Joined(r: Request, actions: seq<Action>) {
    && r.action < r.started <= |actions|
    && LastFor(actions[..r.started], r.key) == r.action
    && actions[r.action].startedAt <= r.at
    && (r.served.Some? ==> r.served == actions[r.action].reply)
    && (r.owner ==> r.action == r.started - 1 && r.served.Some? == actions[r.action].finishedAt.Some?)
  }

  ghost predicate RequestsFit(requests: seq<Request>, actions: seq<Action>, clock: int) {
    && (forall r :: 0 <= r < |requests| ==> Joined(requests[r], actions) && requests[r].at <= clock)
    && (forall q, r :: 0 <= q < r < |requests| && requests[q].owner && requests[r].owner ==> requests[q].action != requests[r].action)
  }

  ghost predicate Consistent(s: State) {
    && Sequential(s.actions) && Timely(s.actions, s.clock) && InflightFits(s.inflight, s.actions)
    && CacheFits(s.cache, s.actions, s.clock) && RequestsFit(s.requests, s.actions, s.clock)
  }

  lemma OverLater(a: Action, t: int, u: int)
    requires Over(a, t) && t <= u
    ensures Over(a, u)
  {
  }

  lemma ReapKeepsCache(cache: Cache, actions: seq<Action>, clock: int, now: int)
    requires CacheFits(cache, actions, clock) && Sequential(actions) && Timely(actions, now) && clock <= now
    ensures CacheFits(Reaped(cache, now), actions, now)
  {
    forall i | 0 <= i < |actions| && actions[i].finishedAt.Some? && actions[i].key !in Reaped(cache, now)
      ensures Over(actions[i], now)
    {
      var key := actions[i].key;
      if key !in cache {
        OverLater(actions[i], clock, now);
      } else {
        var last := LastFor(actions, key);
        if i < last {
          OverLater(actions[i], actions[last].startedAt, now);
        }
      }
    }
  }

  /** When a new action may start, every action its key has had is over. */
  lemma StartAfterOver(s: State, key: string, now: int, i: nat)
    requires Consistent(s) && s.clock <= now && key !in Reaped(s.cache, now) && key !in s.inflight
    requires i < |s.actions| && s.actions[i].key == key
    ensures Over(s.actions[i], now)
  {
  }

  lemma LastInLonger(actions: seq<Action>, a: Action, n: nat, key: string)
    requires n <= |actions|
    ensures LastFor((actions + [a])[..n], key) == LastFor(actions[..n], key)
  {
    assert (actions + [a])[..n] == actions[..n];
  }

  ghost predicate SameKeys(a: seq<Action>, b: seq<Action>) {
    |a| == |b| && forall i :: 0 <= i < |a| ==> a[i].key == b[i].key && a[i].startedAt == b[i].startedAt
  }

  lemma LastOfSamePrefixes(a: seq<Action>, b: seq<Action>, n: nat, key: string)
    requires SameKeys(a, b) && n <= |a|
    ensures LastFor(a[..n], key) == LastFor(b[..n], key)
  {
  }

  // ---- Steps ----

  lemma RequestAdded(s: State, r: Request, now: int)
    requires RequestsFit(s.requests, s.actions, s.clock) && s.clock <= now
    requires Joined(r, s.actions) && r.at == now && r.started == |s.actions| && !r.owner
    ensures RequestsFit(s.requests + [r], s.actions, now)
  {
  }

  lemma OwnerAdded(s: State, key: string, now: int)
    requires RequestsFit(s.requests, s.actions, s.clock) && s.clock <= now
    ensures RequestsFit(
      s.requests + [Request(key, now, |s.actions|, |s.actions| + 1, true, None)],
      s.actions + [Action(key, now, None, None)], now)
  {
    var a, r := Action(key, now, None, None), Request(key, now, |s.actions|, |s.actions| + 1, true, None);
    var requests, actions := s.requests + [r], s.actions + [a];
    assert actions[..|actions|] == actions;
    forall i | 0 <= i < |s.requests| ensures Joined(s.requests[i], actions) {
      var q := s.requests[i];
      assert Joined(q, s.actions);
      LastInLonger(s.actions, a, q.started, q.key);
    }
    forall i | 0 <= i < |requests| ensures Joined(requests[i], actions) && requests[i].at <= now {
      if i < |s.requests| {
        assert requests[i] == s.requests[i];
      }
    }
  }

  lemma StartKeepsRest(s: State, key: string, now: int)
    requires Consistent(s) && s.clock <= now && key !in Reaped(s.cache, now) && key !in s.inflight
    ensures var actions := s.actions + [Action(key, now, None, None)];
            Sequential(actions) && Timely(actions, now) && InflightFits(s.inflight[key := |s.actions|], actions)
  {
    var actions := s.actions + [Action(key, now, None, None)];
    forall i, j | 0 <= i < j < |actions| && actions[i].key == actions[j].key
      ensures Over(actions[i], actions[j].startedAt)
    {
      if j == |s.actions| {
        StartAfterOver(s, key, now, i);
      }
    }
  }

  lemma HitKeepsConsistent(s: State, key: string, now: int)
    requires Consistent(s) && s.clock <= now && key in Reaped(s.cache, now)
    ensures Consistent(Apply(s, Arrive(key, now)))
  {
    ReapKeepsCache(s.cache, s.actions, s.clock, now);
    assert s.actions[..|s.actions|] == s.actions;
    var reply := Reaped(s.cache, now)[key].reply;
    RequestAdded(s, Request(key, now, LastFor(s.actions, key), |s.actions|, false, Some(reply)), now);
  }

  lemma WaitKeepsConsistent(s: State, key: string, now: int)
    requires Consistent(s) && s.clock <= now && key !in Reaped(s.cache, now) && key in s.inflight
    ensures Consistent(Apply(s, Arrive(key, now)))
  {
    ReapKeepsCache(s.cache, s.actions, s.clock, now);
    assert s.actions[..|s.actions|] == s.actions;
    var action := s.inflight[key];
    forall j | action < j < |s.actions| ensures s.actions[j].key != key {
      assert s.actions[j].key == key ==> Over(s.actions[action], s.actions[j].startedAt);
    }
    RequestAdded(s, Request(key, now, action, |s.actions|, false, None), now);
  }

  lemma StartKeepsConsistent(s: State, key: string, now: int)
    requires Consistent(s) && s.clock <= now && key !in Reaped(s.cache, now) && key !in s.inflight
    ensures Consistent(Apply(s, Arrive(key, now)))
  {
    ReapKeepsCache(s.cache, s.actions, s.clock, now);
    OwnerAdded(s, key, now);
    StartKeepsRest(s, key, now);
  }

  lemma ArriveKeepsConsistent(s: State, key: string, now: int)
    requires Consistent(s) && s.clock <= now
    ensures Consistent(Apply(s, Arrive(key, now)))
  {
    if key in Reaped(s.cache, now) {
      HitKeepsConsistent(s, key, now);
    } else if key in s.inflight {
      WaitKeepsConsistent(s, key, now);
    } else {
      StartKeepsConsistent(s, key, now);
    }
  }

  lemma LastWhenOneChanges(actions: seq<Action>, action: nat, a: Action, key: string)
    requires action < |actions| && a.key == actions[action].key && a.startedAt == actions[action].startedAt
    ensures LastFor(actions[action := a], key) == LastFor(actions, key)
  {
    assert SameKeys(actions, actions[action := a]);
  }

  /** A reply to an unfinished action touches no other action and nothing that is cached. */
  lemma SettleKeepsCache(actions: seq<Action>, action: nat, reply: JsonReply, cache: Cache, clock: int)
    requires CacheFits(cache, actions, clock) && action < |actions| && actions[action].finishedAt.None?
    ensures CacheFits(cache, actions[action := actions[action].(reply := Some(reply))], clock)
  {
    forall key | key in cache
      ensures IsOfLast(cache[key], actions[action := actions[action].(reply := Some(reply))], key)
    {
      LastWhenOneChanges(actions, action, actions[action].(reply := Some(reply)), key);
    }
  }

  lemma SettleKeepsConsistent(s: State, action: nat, reply: JsonReply)
    requires Consistent(s) && Enabled(s, Settle(action, reply))
    ensures Consistent(Apply(s, Settle(action, reply)))
  {
    var actions := s.actions[action := s.actions[action].(reply := Some(reply))];
    assert SameKeys(s.actions, actions);
    SettleKeepsCache(s.actions, action, reply, s.cache, s.clock);
    forall i | 0 <= i < |s.requests| ensures Joined(s.requests[i], actions) {
      var r := s.requests[i];
      assert Joined(r, s.actions);
      LastOfSamePrefixes(s.actions, actions, r.started, r.key);
    }
  }

  lemma FinishKeepsCached(actions: seq<Action>, action: nat, a: Action, cache: Cache, after: Cache)
    requires action < |actions| && LastFor(actions, a.key) == action
    requires a.key == actions[action].key && a.startedAt == actions[action].startedAt
    requires CachesLast(cache, actions)
    requires forall key :: key in after && key != a.key ==> key in cache && after[key] == cache[key]
    requires a.key in after ==> CachedFor(a, after[a.key])
    ensures CachesLast(after, actions[action := a])
  {
    forall key | key in after ensures IsOfLast(after[key], actions[action := a], key) {
      LastWhenOneChanges(actions, action, a, key);
    }
  }

  lemma FinishKeepsCache(s: State, action: nat, now: int)
    requires Consistent(s) && s.clock <= now
    requires action < |s.actions| && s.actions[action].finishedAt.None? && s.actions[action].reply.Some?
    ensures var a := s.actions[action];
            var cache := if a.reply.value.status < 500 then s.cache[a.key := Cached(a.reply.value, now + TTL_MS)] else s.cache;
            CacheFits(cache, s.actions[action := a.(finishedAt := Some(now))], now)
  {
    var a := s.actions[action];
    var cache := if a.reply.value.status < 500 then s.cache[a.key := Cached(a.reply.value, now + TTL_MS)] else s.cache;
    FinishKeepsCached(s.actions, action, a.(finishedAt := Some(now)), s.cache, cache);
  }

  lemma FinishKeepsRequests(s: State, r: nat, now: int)
    requires Consistent(s) && Enabled(s, OwnerResumes(r, now))
    ensures var after := Apply(s, OwnerResumes(r, now)); RequestsFit(after.requests, after.actions, now)
  {
    var after := Apply(s, OwnerResumes(r, now));
    assert SameKeys(s.actions, after.actions);
    forall i | 0 <= i < |after.requests| ensures Joined(after.requests[i], after.actions) {
      var q := s.requests[i];
      assert Joined(q, s.actions) && Joined(s.requests[r], s.actions);
      LastOfSamePrefixes(s.actions, after.actions, q.started, q.key);
      if i != r && q.owner {
        assert q.action != s.requests[r].action;
      }
    }
  }

  lemma OwnerKeepsConsistent(s: State, r: nat, now: int)
    requires Consistent(s) && Enabled(s, OwnerResumes(r, now))
    ensures Consistent(Apply(s, OwnerResumes(r, now)))
  {
    assert Joined(s.requests[r], s.actions);
    FinishKeepsCache(s, s.requests[r].action, now);
    FinishKeepsRequests(s, r, now);
  }

  lemma StepKeepsConsistent(s: State, step: Step)
    requires Consistent(s) && Enabled(s, step)
    ensures Consistent(Apply(s, step))
  {
    match step
    case Arrive(key, now) => ArriveKeepsConsistent(s, key, now);
    case Settle(action, reply) => SettleKeepsConsistent(s, action, reply);
    case OwnerResumes(r, now) => OwnerKeepsConsistent(s, r, now);
    case WaiterResumes(r) =>
  }

  lemma {:induction false} RunKeepsConsistent(s: State, steps: seq<Step>)
    requires Consistent(s) && IsRun(s, steps)
    ensures Consistent(Replay(s, steps))
    decreases |steps|
  {
    if steps != [] {
      StepKeepsConsistent(s, steps[0]);
      RunKeepsConsistent(Apply(s, steps[0]), steps[1..]);
    }
  }

  /** A key's actions never overlap: one starts only when those before it have failed or expired. */
  lemma OneActionAtATime(steps: seq<Step>, i: nat, j: nat)
    requires IsRun(START, steps)
    requires var actions := Replay(START, steps).actions; i < j < |actions| && actions[i].key == actions[j].key
    ensures var actions := Replay(START, steps).actions; Over(actions[i], actions[j].startedAt)
  {
    RunKeepsConsistent(START, steps);
  }

  /**
   A request joins the key's action that is not yet over when it arrives, if there is one, and
   whatever it is served is that action's reply.
   */
  lemma ServedByItsAction(steps: seq<Step>, r: nat, i: nat)
    requires IsRun(START, steps)
    requires r < |Replay(START, steps).requests|
    requires i < Replay(START, steps).requests[r].started
    ensures var s := Replay(START, steps);
            var request := s.requests[r];
            && request.started <= |s.actions| && request.action < |s.actions|
            && s.actions[request.action].key == request.key
            && (request.served.Some? ==> request.served == s.actions[request.action].reply)
            && (s.actions[i].key == request.key && !Over(s.actions[i], request.at) ==> request.action == i)
  {
    RunKeepsConsistent(START, steps);
    var s := Replay(START, steps);
    var request := s.requests[r];
    assert Joined(request, s.actions);
    assert s.actions[..request.started][i] == s.actions[i];
    if s.actions[i].key == request.key && i != request.action {
      OverLater(s.actions[i], s.actions[request.action].startedAt, request.at);
    }
  }

  // ---- What an arriving request gets ----

  /** The action answered with a server error, or its reply is five minutes (300000 ms) old. */
  predicate Past(a: Action, now: int) {
    a.finishedAt.Some? && a.reply.Some? && (a.reply.value.status >= 500 || a.finishedAt.value + 300000 <= now)
  }

  lemma CachedIsNotPast(s: State, key: string, now: int)
    requires Consistent(s) && key in Reaped(s.cache, now)
    ensures var last := LastFor(s.actions, key);
            && last < |s.actions| && s.actions[last].key == key && !Past(s.actions[last], now)
            && s.actions[last].finishedAt.Some? && s.actions[last].reply == Some(s.cache[key].reply)
  {
    assert IsOfLast(s.cache[key], s.actions, key);
  }

  /**
   After any run a request starts an action if and only if every action its key has had is past.
   Otherwise it belongs to one that is not: it gets that action's reply at once if the action has
   finished, which then was less than five minutes ago, and waits for it if not.
   */
  lemma StartsIffAllPast(steps: seq<Step>, key: string, now: int)
    requires IsRun(START, steps) && Replay(START, steps).clock <= now
    ensures var s := Replay(START, steps);
            var t := Apply(s, Arrive(key, now));
            && |t.requests| == |s.requests| + 1
            && var r := t.requests[|s.requests|];
               && r.key == key && r.at == now
               && (r.owner <==> forall i :: 0 <= i < |s.actions| && s.actions[i].key == key ==> Past(s.actions[i], now))
               && (r.owner ==> t.actions == s.actions + [Action(key, now, None, None)] && r.action == |s.actions|)
               && (!r.owner ==>
                     && t.actions == s.actions && r.action < |s.actions|
                     && s.actions[r.action].key == key && !Past(s.actions[r.action], now)
                     && (if s.actions[r.action].finishedAt.Some? then r.served == s.actions[r.action].reply && r.served.Some?
                         else r.served.None?))
  {
    RunKeepsConsistent(START, steps);
    var s := Replay(START, steps);
    if key in Reaped(s.cache, now) {
      CachedIsNotPast(s, key, now);
    } else if key !in s.inflight {
      forall i | 0 <= i < |s.actions| && s.actions[i].key == key ensures Past(s.actions[i], now) {
        StartAfterOver(s, key, now, i);
      }
    }
  }

  predicate Resumes(step: Step, r: nat) {
    (step.OwnerResumes? || step.WaiterResumes?) && step.request == r
  }

  lemma {:induction false} ServedStays(s: State, steps: seq<Step>, r: nat)
    requires IsRun(s, steps) && r < |s.requests| && s.requests[r].served.Some?
    ensures r < |Replay(s, steps).requests| && Replay(s, steps).requests[r].served.Some?
    decreases |steps|
  {
    if steps != [] {
      ServedStays(Apply(s, steps[0]), steps[1..], r);
    }
  }

  /** Whoever resumes, the owner of an action or one that waited for it, has been served. */
  lemma {:induction false} ResumedIsServed(s: State, steps: seq<Step>, k: nat, r: nat)
    requires IsRun(s, steps) && k < |steps| && Resumes(steps[k], r)
    ensures r < |Replay(s, steps).requests| && Replay(s, steps).requests[r].served.Some?
    decreases |steps|
  {
    if k == 0 {
      ServedStays(Apply(s, steps[0]), steps[1..], r);
    } else {
      ResumedIsServed(Apply(s, steps[0]), steps[1..], k - 1, r);
    }
  }
}
