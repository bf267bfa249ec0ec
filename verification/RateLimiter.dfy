/**
 The token bucket in front of the API: at most `rpm` tokens per key, refilled at rpm per minute,
 one spent per allowed request. Times are milliseconds, tokens are reals.
 */
module RateLimiting {
  datatype Bucket = Bucket(tokens: real, last: real)

  type Buckets = map<string, Bucket>

  datatype Decision =
    | Unlimited
    | Allowed(remaining: int)
    | Denied(retryAfter: int)

  const GC_AFTER_MS := 600000.0

  function Min(a: real, b: real): real {
    if a < b then a else b
  }

  function Max(a: real, b: real): real {
    if a < b then b else a
  }

  function Ceil(x: real): int {
    -((-x).Floor)
  }

  function Rate(rpm: nat): real {
    rpm as real / 60000.0
  }

  /** The tokens that flow in during `ms` milliseconds. */
  function Refill(rpm: nat, ms: real): real {
    ms * Rate(rpm)
  }

  /** The bucket as a check at `now` finds it: full when new, otherwise refilled since its last use. */
  function Refilled(rpm: nat, buckets: Buckets, key: string, now: real): Bucket {
    if key in buckets then
      var b := buckets[key];
      Bucket(Min(rpm as real, b.tokens + Refill(rpm, Max(0.0, now - b.last))), now)
    else Bucket(rpm as real, now)
  }

  function Decide(rpm: nat, tokens: real): Decision
    requires rpm > 0
  {
    if tokens >= 1.0 then Allowed((tokens - 1.0).Floor)
    else
      var seconds := Ceil((1.0 - tokens) / Rate(rpm) / 1000.0);
      Denied(if seconds > 1 then seconds else 1)
  }

  function Spent(tokens: real): real {
    if tokens >= 1.0 then tokens - 1.0 else tokens
  }

  function Checked(rpm: nat, buckets: Buckets, key: string, now: real): (Buckets, Decision) {
    if rpm == 0 then (buckets, Unlimited)
    else
      var b := Refilled(rpm, buckets, key, now);
      (buckets[key := b.(tokens := Spent(b.tokens))], Decide(rpm, b.tokens))
  }

  function Collected(buckets: Buckets, now: real): Buckets {
    map key | key in buckets && now - buckets[key].last <= GC_AFTER_MS :: buckets[key]
  }

  class RateLimiter {
    const rpm: nat
    var buckets: Buckets

    constructor (configured: real)
      ensures rpm == (if configured.Floor > 0 then configured.Floor else 0) && buckets == map[]
    {
      rpm := if configured.Floor > 0 then configured.Floor else 0;
      buckets := map[];
    }

    method Check(key: string, now: real) returns (decision: Decision)
      modifies this
      ensures (buckets, decision) == Checked(rpm, old(buckets), key, now)
      ensures decision.Unlimited? <==> rpm == 0
      ensures rpm == 0 ==> buckets == old(buckets)
    {
      if rpm == 0 {
        return Unlimited;
      }
      var bucket := Bucket(rpm as real, now);
      if key in buckets {
        var existing := buckets[key];
        var elapsed := Max(0.0, now - existing.last);
        var refill := Refill(rpm, elapsed);
        bucket := Bucket(Min(rpm as real, existing.tokens + refill), now);
      }
      if bucket.tokens >= 1.0 {
        bucket := bucket.(tokens := bucket.tokens - 1.0);
        buckets := buckets[key := bucket];
        return Allowed(bucket.tokens.Floor);
      }
      var missing := 1.0 - bucket.tokens;
      var waitMs := missing / Rate(rpm);
      buckets := buckets[key := bucket];
      var seconds := Ceil(waitMs / 1000.0);
      return Denied(if seconds > 1 then seconds else 1);
    }

    method Gc(now: real)
      modifies this
      ensures buckets == Collected(old(buckets), now)
      ensures forall key :: key in buckets <==> key in old(buckets) && now - old(buckets)[key].last <= 600000.0
    {
      ghost var was := buckets;
      var keys := buckets.Keys;
      while keys != {}
        invariant keys <= buckets.Keys <= was.Keys
        invariant forall key :: key in buckets ==> buckets[key] == was[key]
        invariant forall key :: key in was && key !in keys ==>
          (key in buckets <==> now - was[key].last <= GC_AFTER_MS)
      {
        var key :| key in keys;
        keys := keys - {key};
        if now - buckets[key].last > GC_AFTER_MS {
          buckets := buckets - {key};
        }
      }
    }
  }

  // ---- Runs ----

  datatype Op = Check(key: string, now: real) | Gc(now: real)

  function Step(rpm: nat, buckets: Buckets, op: Op): Buckets {
    if op.Check? then Checked(rpm, buckets, op.key, op.now).0 else Collected(buckets, op.now)
  }

  function Replay(rpm: nat, buckets: Buckets, ops: seq<Op>): Buckets
    decreases |ops|
  {
    if ops == [] then buckets else Replay(rpm, Step(rpm, buckets, ops[0]), ops[1..])
  }

  /** The decisions of the checks, in order. */
  function Decisions(rpm: nat, buckets: Buckets, ops: seq<Op>): seq<Decision>
    decreases |ops|
  {
    if ops == [] then []
    else 
      var rest := Decisions(rpm, Step(rpm, buckets, ops[0]), ops[1..]);
      if ops[0].Check? then [Checked(rpm, buckets, ops[0].key, ops[0].now).1] + rest else rest
  }

  /** The clock does not go back, nor before `clock`. */
  predicate InOrder(ops: seq<Op>, clock: real) {
    ops == [] || (clock <= ops[0].now && InOrder(ops[1..], ops[0].now))
  }

  // ---- The level of a bucket ----

  /** The tokens a check at `v` finds. Everything a limiter decides depends on this alone. */
  function Level(rpm: nat, buckets: Buckets, key: string, v: real): real {
    Refilled(rpm, buckets, key, v).tokens
  }

  ghost predicate Sound(rpm: nat, buckets: Buckets, clock: real) {
    forall key :: key in buckets ==> 0.0 <= buckets[key].tokens <= rpm as real && buckets[key].last <= clock
  }

  lemma RefillAdds(rpm: nat, a: real, b: real)
    ensures Refill(rpm, a) + Refill(rpm, b) == Refill(rpm, a + b)
    ensures a >= 0.0 ==> Refill(rpm, a) >= 0.0
    ensures a >= b ==> Refill(rpm, a) >= Refill(rpm, b)
  {
  }

  lemma LevelBounds(rpm: nat, buckets: Buckets, key: string, v: real)
    requires Sound(rpm, buckets, v)
    ensures 0.0 <= Level(rpm, buckets, key, v) <= rpm as real
  {
  }

  lemma LaterLevel(rpm: nat, buckets: Buckets, key: string, u: real, v: real)
    requires Sound(rpm, buckets, u) && u <= v
    ensures Level(rpm, buckets, key, v) == Min(rpm as real, Level(rpm, buckets, key, u) + Refill(rpm, v - u))
  {
    RefillAdds(rpm, v - u, 0.0);
    if key in buckets {
      RefillAdds(rpm, u - buckets[key].last, v - u);
    }
  }

  lemma CheckLevel(rpm: nat, buckets: Buckets, key: string, u: real, other: string, v: real)
    requires rpm > 0 && Sound(rpm, buckets, u) && u <= v
    ensures var after := Checked(rpm, buckets, key, u).0;
            && Sound(rpm, after, u)
            && Level(rpm, after, other, v)
               == if other == key then Min(rpm as real, Spent(Level(rpm, buckets, key, u)) + Refill(rpm, v - u))
                  else Level(rpm, buckets, other, v)
  {
  }

  /** Collecting a bucket does not change what any later check finds. */
  lemma GcLevel(rpm: nat, buckets: Buckets, now: real, key: string, v: real)
    requires Sound(rpm, buckets, now) && now <= v
    ensures Sound(rpm, Collected(buckets, now), now)
    ensures Level(rpm, Collected(buckets, now), key, v) == Level(rpm, buckets, key, v)
  {
    if key in buckets && key !in Collected(buckets, now) {
      RefillAdds(rpm, v - buckets[key].last, GC_AFTER_MS);
      assert Refill(rpm, GC_AFTER_MS) == 10.0 * rpm as real;
    }
  }

  // ---- Garbage collection cannot be seen ----

  ghost predicate SameLevels(rpm: nat, a: Buckets, b: Buckets, clock: real) {
    forall key: string, v: real :: v >= clock ==> Level(rpm, a, key, v) == Level(rpm, b, key, v)
  }

  function ChecksOf(ops: seq<Op>): seq<Op> {
    if ops == [] then []
    else if ops[0].Check? then [ops[0]] + ChecksOf(ops[1..])
    else ChecksOf(ops[1..])
  }

  lemma SoundLater(rpm: nat, buckets: Buckets, u: real, v: real)
    requires Sound(rpm, buckets, u) && u <= v
    ensures Sound(rpm, buckets, v)
  {
  }

  lemma SameAfterCheck(rpm: nat, a: Buckets, b: Buckets, key: string, u: real)
    requires rpm > 0 && Sound(rpm, a, u) && Sound(rpm, b, u) && SameLevels(rpm, a, b, u)
    ensures Checked(rpm, a, key, u).1 == Checked(rpm, b, key, u).1
    ensures Sound(rpm, Checked(rpm, a, key, u).0, u) && Sound(rpm, Checked(rpm, b, key, u).0, u)
    ensures SameLevels(rpm, Checked(rpm, a, key, u).0, Checked(rpm, b, key, u).0, u)
  {
    var a', b' := Checked(rpm, a, key, u).0, Checked(rpm, b, key, u).0;
    CheckLevel(rpm, a, key, u, key, u);
    CheckLevel(rpm, b, key, u, key, u);
    forall other: string, v: real | v >= u ensures Level(rpm, a', other, v) == Level(rpm, b', other, v) {
      CheckLevel(rpm, a, key, u, other, v);
      CheckLevel(rpm, b, key, u, other, v);
      assert Level(rpm, a, other, v) == Level(rpm, b, other, v);
    }
  }

  lemma {:induction false} GcInvisibleFrom(rpm: nat, a: Buckets, b: Buckets, ops: seq<Op>, clock: real)
    requires rpm > 0 && InOrder(ops, clock)
    requires Sound(rpm, a, clock) && Sound(rpm, b, clock) && SameLevels(rpm, a, b, clock)
    ensures Decisions(rpm, a, ops) == Decisions(rpm, b, ChecksOf(ops))
    decreases |ops|
  {
    if ops != [] {
      var op := ops[0];
      SoundLater(rpm, a, clock, op.now);
      SoundLater(rpm, b, clock, op.now);
      if op.Check? {
        SameAfterCheck(rpm, a, b, op.key, op.now);
        GcInvisibleFrom(rpm, Step(rpm, a, op), Step(rpm, b, op), ops[1..], op.now);
        assert ChecksOf(ops) == [op] + ChecksOf(ops[1..]);
      } else {
        var a' := Collected(a, op.now);
        forall key: string, v: real | v >= op.now ensures Level(rpm, a', key, v) == Level(rpm, b, key, v) {
          GcLevel(rpm, a, op.now, key, v);
        }
        GcLevel(rpm, a, op.now, "", op.now);
        GcInvisibleFrom(rpm, a', b, ops[1..], op.now);
      }
    }
  }

  /** A limiter that collects at any moments decides every check as one that never does. */
  lemma GcInvisible(rpm: nat, ops: seq<Op>, clock: real)
    requires InOrder(ops, clock)
    ensures Decisions(rpm, map[], ops) == Decisions(rpm, map[], ChecksOf(ops))
  {
    if rpm == 0 {
      GcInvisibleUnlimited(map[], map[], ops);
    } else {
      GcInvisibleFrom(rpm, map[], map[], ops, clock);
    }
  }

  lemma {:induction false} GcInvisibleUnlimited(a: Buckets, b: Buckets, ops: seq<Op>)
    ensures Decisions(0, a, ops) == Decisions(0, b, ChecksOf(ops))
    decreases |ops|
  {
    if ops != [] {
      var op := ops[0];
      if op.Check? {
        GcInvisibleUnlimited(Step(0, a, op), Step(0, b, op), ops[1..]);
        assert ChecksOf(ops) == [op] + ChecksOf(ops[1..]);
      } else {
        GcInvisibleUnlimited(Step(0, a, op), b, ops[1..]);
      }
    }
  }

  // ---- The rate bound ----

  /** How many checks of `key` between `lo` and `hi` are allowed. */
  function AllowedIn(rpm: nat, buckets: Buckets, ops: seq<Op>, key: string, lo: real, hi: real): nat
    decreases |ops|
  {
    if ops == [] then 0
    else
      var op := ops[0];
      (if op.Check? && op.key == key && lo <= op.now <= hi && Checked(rpm, buckets, key, op.now).1.Allowed? then 1 else 0)
      + AllowedIn(rpm, Step(rpm, buckets, op), ops[1..], key, lo, hi)
  }

  lemma StepLevel(rpm: nat, buckets: Buckets, op: Op, clock: real, key: string)
    requires rpm > 0 && Sound(rpm, buckets, clock) && clock <= op.now
    ensures Sound(rpm, Step(rpm, buckets, op), op.now)
    ensures Level(rpm, Step(rpm, buckets, op), key, op.now)
         == if op.Check? && op.key == key then Spent(Level(rpm, buckets, key, op.now)) else Level(rpm, buckets, key, op.now)
  {
    SoundLater(rpm, buckets, clock, op.now);
    if op.Check? {
      CheckLevel(rpm, buckets, op.key, op.now, key, op.now);
      LevelBounds(rpm, buckets, key, op.now);
    } else {
      GcLevel(rpm, buckets, op.now, key, op.now);
    }
  }

  lemma {:induction false} NoneAfter(rpm: nat, buckets: Buckets, ops: seq<Op>, key: string, lo: real, hi: real, clock: real)
    requires InOrder(ops, clock) && hi < clock
    ensures AllowedIn(rpm, buckets, ops, key, lo, hi) == 0
    decreases |ops|
  {
    if ops != [] {
      NoneAfter(rpm, Step(rpm, buckets, ops[0]), ops[1..], key, lo, hi, ops[0].now);
    }
  }

  /** From `clock` on, no more than the tokens at hand and those still to come by `hi`. */
  lemma {:induction false} BoundFrom(rpm: nat, buckets: Buckets, ops: seq<Op>, key: string, lo: real, hi: real, clock: real)
    requires rpm > 0 && Sound(rpm, buckets, clock) && InOrder(ops, clock) && lo <= clock <= hi
    ensures AllowedIn(rpm, buckets, ops, key, lo, hi) as real <= Level(rpm, buckets, key, clock) + Refill(rpm, hi - clock)
    decreases |ops|
  {
    LevelBounds(rpm, buckets, key, clock);
    RefillAdds(rpm, hi - clock, 0.0);
    if ops != [] {
      var op := ops[0];
      var after := Step(rpm, buckets, op);
      if hi < op.now {
        NoneAfter(rpm, after, ops[1..], key, lo, hi, op.now);
      } else {
        StepLevel(rpm, buckets, op, clock, key);
        LaterLevel(rpm, buckets, key, clock, op.now);
        BoundFrom(rpm, after, ops[1..], key, lo, hi, op.now);
        RefillAdds(rpm, hi - op.now, op.now - clock);
        assert hi - op.now + (op.now - clock) == hi - clock;
      }
    }
  }

  lemma {:induction false} BoundBefore(rpm: nat, buckets: Buckets, ops: seq<Op>, key: string, lo: real, hi: real, clock: real)
    requires rpm > 0 && Sound(rpm, buckets, clock) && InOrder(ops, clock) && lo <= hi
    ensures AllowedIn(rpm, buckets, ops, key, lo, hi) as real <= rpm as real + Refill(rpm, hi - lo)
    decreases |ops|
  {
    RefillAdds(rpm, hi - lo, 0.0);
    if ops != [] {
      var op := ops[0];
      if hi < op.now {
        NoneAfter(rpm, buckets, ops, key, lo, hi, op.now);
      } else if op.now < lo {
        StepLevel(rpm, buckets, op, clock, key);
        BoundBefore(rpm, Step(rpm, buckets, op), ops[1..], key, lo, hi, op.now);
      } else {
        SoundLater(rpm, buckets, clock, op.now);
        BoundFrom(rpm, buckets, ops, key, lo, hi, op.now);
        LevelBounds(rpm, buckets, key, op.now);
        RefillAdds(rpm, hi - lo, hi - op.now);
      }
    }
  }

  /** In any window of `length` milliseconds a key is allowed at most rpm + length * rpm / 60000 times. */
  lemma RateBound(rpm: nat, ops: seq<Op>, clock: real, key: string, start: real, length: real)
    requires rpm > 0 && InOrder(ops, clock) && length >= 0.0
    ensures AllowedIn(rpm, map[], ops, key, start, start + length) as real
         <= rpm as real + length * rpm as real / 60000.0
  {
    BoundBefore(rpm, map[], ops, key, start, start + length, clock);
    assert Refill(rpm, length) == length * rpm as real / 60000.0;
  }

  // ---- Retry-After ----

  ghost predicate AllDenied(rpm: nat, buckets: Buckets, ops: seq<Op>, key: string)
    decreases |ops|
  {
    ops == []
    || ((ops[0].Check? && ops[0].key == key ==> Checked(rpm, buckets, key, ops[0].now).1.Denied?)
        && AllDenied(rpm, Step(rpm, buckets, ops[0]), ops[1..], key))
  }

  predicate UpTo(ops: seq<Op>, u: real) {
    forall i :: 0 <= i < |ops| ==> ops[i].now <= u
  }

  /** Denied checks leave the bucket filling as if they had not been made. */
  lemma {:induction false} DeniedChecksCostNothing(rpm: nat, buckets: Buckets, ops: seq<Op>, key: string, t: real, u: real)
    requires rpm > 0 && Sound(rpm, buckets, t) && InOrder(ops, t) && UpTo(ops, u) && t <= u
    requires AllDenied(rpm, buckets, ops, key)
    ensures Sound(rpm, Replay(rpm, buckets, ops), u)
    ensures Level(rpm, Replay(rpm, buckets, ops), key, u) == Min(rpm as real, Level(rpm, buckets, key, t) + Refill(rpm, u - t))
    decreases |ops|
  {
    if ops == [] {
      SoundLater(rpm, buckets, t, u);
      LaterLevel(rpm, buckets, key, t, u);
    } else {
      var op := ops[0];
      assert op.now <= u;
      StepLevel(rpm, buckets, op, t, key);
      LaterLevel(rpm, buckets, key, t, op.now);
      DeniedChecksCostNothing(rpm, Step(rpm, buckets, op), ops[1..], key, op.now, u);
      RefillAdds(rpm, op.now - t, u - op.now);
      RefillAdds(rpm, u - op.now, 0.0);
      assert op.now - t + (u - op.now) == u - t;
    }
  }

  /** No check is allowed before the bucket can hold a token again. */
  lemma {:induction false} DeniedUntilFilled(rpm: nat, buckets: Buckets, ops: seq<Op>, key: string, t: real, u: real)
    requires rpm > 0 && Sound(rpm, buckets, t) && InOrder(ops, t) && UpTo(ops, u) && t <= u
    requires Level(rpm, buckets, key, t) + Refill(rpm, u - t) < 1.0
    ensures AllDenied(rpm, buckets, ops, key)
    decreases |ops|
  {
    if ops != [] {
      var op := ops[0];
      assert op.now <= u;
      RefillAdds(rpm, op.now - t, u - op.now);
      RefillAdds(rpm, u - op.now, 0.0);
      assert op.now - t + (u - op.now) == u - t;
      StepLevel(rpm, buckets, op, t, key);
      LaterLevel(rpm, buckets, key, t, op.now);
      DeniedUntilFilled(rpm, Step(rpm, buckets, op), ops[1..], key, op.now, u);
    }
  }

  lemma WaitTime(rpm: nat, tokens: real, elapsed: real)
    requires rpm > 0 && tokens < 1.0
    ensures var r := Decide(rpm, tokens).retryAfter as real;
            && (0.0 <= elapsed <= 1000.0 * (r - 1.0) ==> tokens + Refill(rpm, elapsed) < 1.0)
            && (elapsed >= 1000.0 * r ==> tokens + Refill(rpm, elapsed) >= 1.0)
  {
    var wait := (1.0 - tokens) / Rate(rpm);
    assert Refill(rpm, wait) == 1.0 - tokens;
    RefillAdds(rpm, elapsed, wait);
    if elapsed < wait {
      assert Refill(rpm, wait - elapsed) > 0.0;
      RefillAdds(rpm, wait - elapsed, elapsed);
    }
  }

  /**
   After a denial at `t` with `r` seconds, every check up to t + 1000(r-1) is denied, and while
   checks are denied one at or after t + 1000r is allowed: asking early costs nothing.
   */
  lemma RetryAfterIsExact(rpm: nat, before: seq<Op>, key: string, t: real, between: seq<Op>, u: real, clock: real)
    requires rpm > 0 && t <= u && UpTo(before, t) && InOrder(before, clock) && clock <= t
    requires InOrder(between, t) && UpTo(between, u)
    requires Checked(rpm, Replay(rpm, map[], before), key, t).1.Denied?
    ensures var denied := Checked(rpm, Replay(rpm, map[], before), key, t);
            var r := denied.1.retryAfter as real;
            var decision := Checked(rpm, Replay(rpm, denied.0, between), key, u).1;
            && (u <= t + 1000.0 * (r - 1.0) ==> AllDenied(rpm, denied.0, between, key) && decision.Denied?)
            && (u >= t + 1000.0 * r && AllDenied(rpm, denied.0, between, key) ==> decision.Allowed?)
  {
    var reached := Replay(rpm, map[], before);
    ReplaySound(rpm, map[], before, clock, t);
    var denied := Checked(rpm, reached, key, t);
    var tokens := Level(rpm, reached, key, t);
    CheckLevel(rpm, reached, key, t, key, t);
    LevelBounds(rpm, reached, key, t);
    assert Level(rpm, denied.0, key, t) == tokens;
    WaitTime(rpm, tokens, u - t);
    if u <= t + 1000.0 * (denied.1.retryAfter as real - 1.0) {
      DeniedUntilFilled(rpm, denied.0, between, key, t, u);
    }
    if AllDenied(rpm, denied.0, between, key) {
      DeniedChecksCostNothing(rpm, denied.0, between, key, t, u);
    }
  }

  lemma {:induction false} ReplaySound(rpm: nat, buckets: Buckets, ops: seq<Op>, clock: real, t: real)
    requires rpm > 0 && Sound(rpm, buckets, clock) && InOrder(ops, clock) && UpTo(ops, t) && clock <= t
    ensures Sound(rpm, Replay(rpm, buckets, ops), t)
    decreases |ops|
  {
    if ops != [] {
      assert ops[0].now <= t;
      StepLevel(rpm, buckets, ops[0], clock, "");
      ReplaySound(rpm, Step(rpm, buckets, ops[0]), ops[1..], ops[0].now, t);
    }
  }

  // ---- What a key may do at once ----

  /** The same check, `n` times at one moment. */
  function Burst(key: string, now: real, n: nat): seq<Op> {
    seq(n, _ => Check(key, now))
  }

  lemma {:induction false} BurstFrom(rpm: nat, buckets: Buckets, key: string, now: real, n: nat)
    requires rpm > 0 && n <= rpm && key in buckets && buckets[key] == Bucket(n as real, now)
    ensures Decisions(rpm, buckets, Burst(key, now, n + 1)) == seq(n, i requires 0 <= i < n => Allowed(n - 1 - i)) + [Denied(WaitFor(rpm))]
    decreases n
  {
    var ops := Burst(key, now, n + 1);
    assert ops[1..] == Burst(key, now, n);
    assert Refill(rpm, 0.0) == 0.0;
    if n == 0 {
      assert Decisions(rpm, Step(rpm, buckets, ops[0]), ops[1..]) == [];
    } else {
      var after := Step(rpm, buckets, ops[0]);
      assert after[key] == Bucket((n - 1) as real, now);
      BurstFrom(rpm, after, key, now, n - 1);
      assert seq(n, i requires 0 <= i < n => Allowed(n - 1 - i))
          == [Allowed(n - 1)] + seq(n - 1, i requires 0 <= i < n - 1 => Allowed(n - 2 - i));
    }
  }

  /** The seconds an empty bucket needs for one token, at least one. */
  function WaitFor(rpm: nat): int
    requires rpm > 0
  {
    Decide(rpm, 0.0).retryAfter
  }

  /**
   A key nobody used may send `rpm` requests at once, told each time how many are left, and the next
   one is denied.
   */
  lemma FirstBurst(rpm: nat, buckets: Buckets, key: string, now: real)
    requires rpm > 0 && key !in buckets
    ensures Decisions(rpm, buckets, Burst(key, now, rpm + 1)) ==
            seq(rpm, i requires 0 <= i < rpm => Allowed(rpm - 1 - i)) + [Denied(WaitFor(rpm))]
  {
    var ops := Burst(key, now, rpm + 1);
    var after := Step(rpm, buckets, ops[0]);
    assert ops[1..] == Burst(key, now, rpm);
    assert after[key] == Bucket((rpm - 1) as real, now);
    BurstFrom(rpm, after, key, now, rpm - 1);
    assert seq(rpm, i requires 0 <= i < rpm => Allowed(rpm - 1 - i))
        == [Allowed(rpm - 1)] + seq(rpm - 1, i requires 0 <= i < rpm - 1 => Allowed(rpm - 2 - i));
  }
}
