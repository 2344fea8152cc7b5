/** What the in-memory limiter admits over whole runs, and what its cleanup changes: no answer. */
module BucketRuns {
  import opened Durations
  import opened TokenBucket

  datatype Call = Call(n: int, now: int)

  function After(b: Bucket, calls: seq<Call>): Bucket
    decreases |calls|
  {
    if calls == [] then b else After(Charged(b, calls[0].n, calls[0].now), calls[1..])
  }

  /** The units granted by a run of calls. */
  function Granted(b: Bucket, calls: seq<Call>): int
    decreases |calls|
  {
    if calls == [] then 0 else
      (if Grants(b, calls[0].n, calls[0].now) then calls[0].n else 0) +
      Granted(Charged(b, calls[0].n, calls[0].now), calls[1..])
  }

  /** No call asks for a negative amount, and the clock, at `from` before, never goes back. */
  predicate Orderly(calls: seq<Call>, from: int, to: int) {
    && from <= to
    && (forall i :: 0 <= i < |calls| ==> 0 <= calls[i].n && from <= calls[i].now <= to)
    && forall i, j :: 0 <= i < j < |calls| ==> calls[i].now <= calls[j].now
  }

  predicate Sound(b: Bucket) { 0 <= b.tokens <= b.capacity && 0 <= b.refillRate }

  lemma {:induction false} FloorAdds(x: int, y: int)
    requires 0 <= x && 0 <= y
    ensures x / SECOND + y / SECOND <= (x + y) / SECOND
  {
  }

  lemma {:induction false} Scaled(rate: int, x: int, y: int)
    requires 0 <= rate && x <= y
    ensures rate * x <= rate * y
  {
  }

  /** One refill adds no more than the whole seconds since the last one allow. */
  lemma {:induction false} RefillIsPaid(b: Bucket, now: int, to: int)
    requires Sound(b) && b.lastRefill <= now <= to
    ensures var r := Refilled(b, now);
      && Sound(r) && b.lastRefill <= r.lastRefill <= now
      && r.tokens + r.refillRate * ((to - r.lastRefill) / SECOND)
           <= b.tokens + b.refillRate * ((to - b.lastRefill) / SECOND)
  {
    var r, rate := Refilled(b, now), b.refillRate;
    if TokensToAdd(b, now) > 0 {
      FloorAdds(now - b.lastRefill, to - now);
      var x, y, z := (now - b.lastRefill) / SECOND, (to - now) / SECOND, (to - b.lastRefill) / SECOND;
      Scaled(rate, x + y, z);
      assert rate * (x + y) == rate * x + rate * y;
      assert TokensToAdd(b, now) == x * rate;
    }
  }

  lemma {:induction false} GrantedIsPaid(b: Bucket, calls: seq<Call>, to: int)
    requires Sound(b) && Orderly(calls, b.lastRefill, to)
    ensures Granted(b, calls) <= b.tokens + b.refillRate * ((to - b.lastRefill) / SECOND)
    ensures Sound(After(b, calls))
    decreases |calls|
  {
    if calls == [] {
      Scaled(b.refillRate, 0, (to - b.lastRefill) / SECOND);
    } else {
      RefillIsPaid(b, calls[0].now, to);
      var next := Charged(b, calls[0].n, calls[0].now);
      assert calls[0] in calls;
      GrantedIsPaid(next, calls[1..], to);
    }
  }

  /** From its creation a bucket grants at most its capacity and the whole seconds' refill. */
  lemma {:induction false} AdmissionFromCreation(capacity: int, rate: int, start: int, calls: seq<Call>, to: int)
    requires 0 <= capacity && 0 <= rate && Orderly(calls, start, to)
    ensures Granted(New(capacity, rate, start), calls) <= capacity + rate * ((to - start) / SECOND)
  {
    GrantedIsPaid(New(capacity, rate, start), calls, to);
  }

  lemma {:induction false} ClockBehind(b: Bucket, calls: seq<Call>, to: int)
    requires Sound(b) && Orderly(calls, b.lastRefill, to)
    ensures After(b, calls).lastRefill <= to
    ensures After(b, calls).capacity == b.capacity && After(b, calls).refillRate == b.refillRate
    decreases |calls|
  {
    if calls != [] {
      RefillIsPaid(b, calls[0].now, to);
      assert calls[0] in calls;
      ClockBehind(Charged(b, calls[0].n, calls[0].now), calls[1..], to);
    }
  }

  /** A refill leaves less than a second of the past unused, unless it adds nothing at all. */
  lemma {:induction false} RefillCatchesUp(b: Bucket, now: int)
    requires b.refillRate > 0 && b.lastRefill <= now
    ensures now - Refilled(b, now).lastRefill < SECOND
  {
  }

  lemma {:induction false} RefillTwice(b: Bucket, calls: seq<Call>)
    requires calls != [] && Sound(b) && b.lastRefill <= calls[0].now
    ensures Granted(Refilled(b, calls[0].now), calls) == Granted(b, calls)
  {
  }

  lemma {:induction false} WindowSeconds(x: int, y: int)
    requires 0 <= x < y + SECOND
    ensures x / SECOND <= CeilSeconds(y)
  {
  }

  lemma {:induction false} WindowFrom(b: Bucket, calls: seq<Call>, a: int, to: int)
    requires Sound(b) && calls != [] && b.lastRefill <= calls[0].now && Orderly(calls, a, to)
    ensures Granted(b, calls) <= b.capacity + b.refillRate * CeilSeconds(to - a)
  {
    var first, rate := calls[0].now, b.refillRate;
    var r := Refilled(b, first);
    RefillIsPaid(b, first, to);
    RefillTwice(b, calls);
    GrantedIsPaid(r, calls, to);
    if rate > 0 {
      RefillCatchesUp(b, first);
      WindowSeconds(to - r.lastRefill, to - a);
      Scaled(rate, (to - r.lastRefill) / SECOND, CeilSeconds(to - a));
    }
  }

  /** Over any window [a, to] of a bucket's life, whatever happened before it, the units granted are
      at most the capacity and one refill for every started second. */
  lemma {:induction false} AdmissionInWindow(
      capacity: int, rate: int, start: int, before: seq<Call>, calls: seq<Call>, a: int, to: int)
    requires 0 <= capacity && 0 <= rate && a <= to
    requires Orderly(before, start, if calls == [] then to else calls[0].now) && Orderly(calls, a, to)
    ensures Granted(After(New(capacity, rate, start), before), calls) <= capacity + rate * CeilSeconds(to - a)
  {
    var born := New(capacity, rate, start);
    if calls == [] {
      Scaled(rate, 0, CeilSeconds(to - a));
    } else {
      GrantedIsPaid(born, before, calls[0].now);
      ClockBehind(born, before, calls[0].now);
      hide After; hide Granted; hide Orderly;
      WindowFrom(After(born, before), calls, a, to);
    }
  }

  // ---- how much a refill can lose ----

  /** No refill of the run meets the capacity. */
  predicate NeverFull(b: Bucket, calls: seq<Call>)
    decreases |calls|
  {
    calls == [] ||
    (Refilled(b, calls[0].now).tokens < b.capacity && NeverFull(Charged(b, calls[0].n, calls[0].now), calls[1..]))
  }

  lemma {:induction false} RefillEarnsHalf(b: Bucket, now: int)
    requires 0 <= b.refillRate && b.lastRefill <= now && Refilled(b, now).tokens < b.capacity
    ensures var r := Refilled(b, now);
      b.refillRate * (r.lastRefill - b.lastRefill) <= 2 * SECOND * (r.tokens - b.tokens)
  {
    var d := now - b.lastRefill;
    if TokensToAdd(b, now) > 0 {
      var x := d / SECOND;
      assert x >= 1 && d <= 2 * SECOND * x;
      Scaled(b.refillRate, d, 2 * SECOND * x);
      assert b.refillRate * (2 * SECOND * x) == 2 * SECOND * (x * b.refillRate);
    }
  }

  /** Each refill forgets the fraction of a second it was late, yet a bucket that never fills earns at
      least half its nominal rate up to its last refill. */
  lemma {:induction false} EarnsAtLeastHalfTheRate(b: Bucket, calls: seq<Call>, to: int)
    requires Sound(b) && Orderly(calls, b.lastRefill, to) && NeverFull(b, calls)
    ensures var b' := After(b, calls);
      b.refillRate * (b'.lastRefill - b.lastRefill) <= 2 * SECOND * (b'.tokens + Granted(b, calls) - b.tokens)
    decreases |calls|
  {
    if calls != [] {
      var now := calls[0].now;
      hide Refilled; hide Charged; hide Grants;
      RefillIsPaid(b, now, to);
      RefillEarnsHalf(b, now);
      ChargeTakes(b, calls[0].n, now);
      var r, next := Refilled(b, now), Charged(b, calls[0].n, now);
      assert calls[0] in calls;
      EarnsAtLeastHalfTheRate(next, calls[1..], to);
      var b' := After(next, calls[1..]);
      Halves(b.refillRate, b'.lastRefill - r.lastRefill, r.lastRefill - b.lastRefill,
             b'.tokens + Granted(next, calls[1..]) - next.tokens, r.tokens - b.tokens);
    }
  }

  lemma {:induction false} ChargeTakes(b: Bucket, n: int, now: int)
    ensures var r, c := Refilled(b, now), Charged(b, n, now);
      && c == r.(tokens := r.tokens - if Grants(b, n, now) then n else 0)
      && r.capacity == b.capacity && r.refillRate == b.refillRate
      && (Grants(b, n, now) ==> n <= r.tokens)
  {
  }

  lemma {:induction false} Halves(rate: int, d1: int, d2: int, e1: int, e2: int)
    requires rate * d1 <= 2 * SECOND * e1 && rate * d2 <= 2 * SECOND * e2
    ensures rate * (d1 + d2) <= 2 * SECOND * (e1 + e2)
  {
  }

  const LATE := 2 * SECOND - 1

  /** k polls that take nothing, each a nanosecond short of two seconds after the last. */
  function LatePolls(from: int, k: nat): seq<Call>
    decreases k
  {
    if k == 0 then [] else [Call(0, from + LATE)] + LatePolls(from + LATE, k - 1)
  }

  /** Half the rate is all such polls earn: one second's tokens for nearly two. */
  lemma {:induction false} LatePollsEarnHalf(b: Bucket, k: nat)
    requires 0 < b.refillRate && 0 <= b.tokens && b.tokens + b.refillRate * k <= b.capacity
    ensures var b' := After(b, LatePolls(b.lastRefill, k));
      b'.lastRefill == b.lastRefill + LATE * k && b'.tokens == b.tokens + b.refillRate * k
    decreases k
  {
    if k > 0 {
      var calls, now := LatePolls(b.lastRefill, k), b.lastRefill + LATE;
      assert calls[0] == Call(0, now) && calls[1..] == LatePolls(now, k - 1);
      Times(b.refillRate, k);
      LatePollEarnsOne(b);
      hide Charged; hide LatePolls;
      var next := Charged(b, 0, now);
      assert After(b, calls) == After(next, calls[1..]);
      LatePollsEarnHalf(next, k - 1);
    }
  }

  lemma {:induction false} Times(rate: int, k: nat)
    requires k > 0 && 0 < rate
    ensures rate * k == rate + rate * (k - 1) && 0 <= rate * (k - 1)
  {
  }

  lemma {:induction false} LatePollEarnsOne(b: Bucket)
    requires 0 < b.refillRate && 0 <= b.tokens && b.tokens + b.refillRate <= b.capacity
    ensures Charged(b, 0, b.lastRefill + LATE) ==
            b.(tokens := b.tokens + b.refillRate, lastRefill := b.lastRefill + LATE)
  {
    assert WholeSeconds(LATE) == 1;
  }

  // ---- cleanup ----

  datatype Op = Ask(key: string, n: int, now: int) | Cleanup(now: int) | Reset(key: string, now: int)

  function Step(l: Limits, op: Op): Limits {
    match op
    case Ask(key, n, now) => AfterCall(l, key, n, now)
    case Cleanup(now) => AfterCleanup(l, now)
    case Reset(key, _) => AfterReset(l, key)
  }

  function Final(l: Limits, ops: seq<Op>): Limits
    decreases |ops|
  {
    if ops == [] then l else Final(Step(l, ops[0]), ops[1..])
  }

  /** The answers to the questions of a run, in order. */
  function Answers(l: Limits, ops: seq<Op>): seq<bool>
    decreases |ops|
  {
    if ops == [] then [] else
      (if ops[0].Ask? then [Grants(BucketFor(l, ops[0].key, ops[0].now), ops[0].n, ops[0].now)] else []) +
      Answers(Step(l, ops[0]), ops[1..])
  }

  function WithoutCleanup(ops: seq<Op>): seq<Op> {
    if ops == [] then [] else
      (if ops[0].Cleanup? then [] else [ops[0]]) + WithoutCleanup(ops[1..])
  }

  predicate Clocked(ops: seq<Op>, from: int) {
    && (forall i :: 0 <= i < |ops| ==> from <= ops[i].now)
    && forall i, j :: 0 <= i < j < |ops| ==> ops[i].now <= ops[j].now
  }

  /** Two buckets no caller can tell apart: without a refill the time of the last one is idle. */
  predicate Twins(b: Bucket, c: Bucket, now: int) {
    && b.capacity == c.capacity && b.refillRate == c.refillRate && b.tokens == c.tokens
    && b.lastRefill <= now && c.lastRefill <= now
    && (b.refillRate > 0 ==> b.lastRefill == c.lastRefill)
  }

  /** A bucket that behaves like one that does not exist yet. */
  predicate AsGoodAsNew(b: Bucket, now: int) {
    && b.tokens == b.capacity && b.lastRefill <= now
    && (b.refillRate > 0 ==> now - b.lastRefill > CLEANUP_INTERVAL)
  }

  /** `kept` never cleans up, `cleaned` does. */
  predicate Alike(kept: Limits, cleaned: Limits, now: int) {
    && kept.capacity == cleaned.capacity && kept.refillRate == cleaned.refillRate
    && cleaned.buckets.Keys <= kept.buckets.Keys
    && forall k :: k in kept.buckets ==>
         var b := kept.buckets[k];
         && b.capacity == kept.capacity && b.refillRate == kept.refillRate
         && if k in cleaned.buckets then Twins(b, cleaned.buckets[k], now) else AsGoodAsNew(b, now)
  }

  lemma {:induction false} TwinsAnswerAlike(b: Bucket, c: Bucket, from: int, n: int, now: int)
    requires Twins(b, c, from) && from <= now
    ensures Grants(b, n, now) == Grants(c, n, now) && Twins(Charged(b, n, now), Charged(c, n, now), now)
  {
  }

  lemma {:induction false} NewAnswersAlike(b: Bucket, from: int, n: int, now: int)
    requires AsGoodAsNew(b, from) && from <= now
    ensures var c := New(b.capacity, b.refillRate, now);
      Grants(b, n, now) == Grants(c, n, now) && Twins(Charged(b, n, now), Charged(c, n, now), now)
  {
  }

  lemma {:induction false} BucketsAnswerAlike(
      kept: Limits, cleaned: Limits, from: int, key: string, n: int, now: int)
    requires Alike(kept, cleaned, from) && from <= now
    ensures var b, c := BucketFor(kept, key, now), BucketFor(cleaned, key, now);
      && Grants(b, n, now) == Grants(c, n, now) && Twins(Charged(b, n, now), Charged(c, n, now), now)
      && Charged(b, n, now).capacity == kept.capacity && Charged(b, n, now).refillRate == kept.refillRate
  {
    hide Charged; hide Grants; hide Refilled;
    if key in cleaned.buckets {
      TwinsAnswerAlike(kept.buckets[key], cleaned.buckets[key], from, n, now);
    } else if key in kept.buckets {
      NewAnswersAlike(kept.buckets[key], from, n, now);
    } else {
      var b := New(kept.capacity, kept.refillRate, now);
      TwinsAnswerAlike(b, b, now, n, now);
    }
    ChargeTakes(BucketFor(kept, key, now), n, now);
  }

  lemma {:induction false} AskKeepsAlike(kept: Limits, cleaned: Limits, from: int, key: string, n: int, now: int)
    requires Alike(kept, cleaned, from) && from <= now
    ensures Grants(BucketFor(kept, key, now), n, now) == Grants(BucketFor(cleaned, key, now), n, now)
    ensures Alike(AfterCall(kept, key, n, now), AfterCall(cleaned, key, n, now), now)
  {
    hide Charged; hide Grants; hide BucketFor;
    BucketsAnswerAlike(kept, cleaned, from, key, n, now);
  }

  lemma {:induction false} StepKeepsAlike(kept: Limits, cleaned: Limits, from: int, op: Op)
    requires Alike(kept, cleaned, from) && from <= op.now
    ensures Alike(if op.Cleanup? then kept else Step(kept, op), Step(cleaned, op), op.now)
    ensures op.Ask? ==>
              Grants(BucketFor(kept, op.key, op.now), op.n, op.now) ==
              Grants(BucketFor(cleaned, op.key, op.now), op.n, op.now)
  {
    hide Charged; hide Grants; hide Refilled; hide New; hide AfterCall;
    match op
    case Ask(key, n, now) => AskKeepsAlike(kept, cleaned, from, key, n, now);
    case _ =>
  }

  /** A limiter that cleans up at arbitrary points gives every caller the answers of one that never
      does, for any capacity, rate and amounts, including negative ones. */
  lemma {:induction false} CleanupIsUnobservable(kept: Limits, cleaned: Limits, from: int, ops: seq<Op>)
    requires Alike(kept, cleaned, from) && Clocked(ops, from)
    ensures Answers(cleaned, ops) == Answers(kept, WithoutCleanup(ops))
    decreases |ops|
  {
    if ops != [] {
      var op, rest := ops[0], ops[1..];
      StepKeepsAlike(kept, cleaned, from, op);
      CleanupIsUnobservable(if op.Cleanup? then kept else Step(kept, op), Step(cleaned, op), op.now, rest);
      if op.Cleanup? {
        assert WithoutCleanup(ops) == WithoutCleanup(rest);
      } else {
        assert WithoutCleanup(ops) == [op] + WithoutCleanup(rest);
        assert WithoutCleanup(ops)[1..] == WithoutCleanup(rest);
      }
    }
  }

  lemma {:induction false} FreshCleanupIsUnobservable(capacity: int, rate: int, from: int, ops: seq<Op>)
    requires Clocked(ops, from)
    ensures var l := Limits(capacity, rate, map[]); Answers(l, ops) == Answers(l, WithoutCleanup(ops))
  {
    var l := Limits(capacity, rate, map[]);
    CleanupIsUnobservable(l, l, from, ops);
  }

  /** Which calls leave a bucket a later cleanup can delete: those that take nothing from a full one. */
  lemma {:induction false} ReclaimedExactlyWhen(b: Bucket, n: int, now: int, later: int)
    requires Sound(b) && 0 <= n
    ensures var c := Charged(b, n, now);
      Idle(c, later) <==>
        Refilled(b, now).tokens == b.capacity && (n == 0 || n > b.capacity) && later - c.lastRefill > 600_000_000_000
  {
  }

  predicate Modest(ops: seq<Op>, capacity: int) {
    forall op :: op in ops && op.Ask? ==> 1 <= op.n <= capacity
  }

  predicate AllInUse(l: Limits) {
    forall k :: k in l.buckets ==>
      l.buckets[k].tokens < l.buckets[k].capacity && l.buckets[k].capacity == l.capacity
  }

  /** The cleanup is meant to drop unused buckets, but when every call asks for something a bucket can
      give, it never deletes one: the limiter keeps every key it has ever seen. */
  lemma {:induction false} CleanupReclaimsNothing(l: Limits, ops: seq<Op>)
    requires AllInUse(l) && Modest(ops, l.capacity)
    ensures Final(l, ops) == Final(l, WithoutCleanup(ops))
    decreases |ops|
  {
    if ops != [] {
      var op, rest := ops[0], ops[1..];
      assert op in ops && Modest(rest, l.capacity) by {
        forall o | o in rest && o.Ask? ensures 1 <= o.n <= l.capacity { assert o in ops; }
      }
      if op.Cleanup? { assert AfterCleanup(l, op.now) == l; }
      CleanupReclaimsNothing(Step(l, op), rest);
      if op.Cleanup? {
        assert WithoutCleanup(ops) == WithoutCleanup(rest);
      } else {
        assert WithoutCleanup(ops) == [op] + WithoutCleanup(rest);
        assert WithoutCleanup(ops)[1..] == WithoutCleanup(rest);
      }
    }
  }
}
