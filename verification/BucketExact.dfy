/** Exactly which calls the in-memory limiter grants: told from the amounts granted before, the clock and
    nothing else. */
module BucketExact {
  import opened TokenBucket
  import opened BucketRuns

  /** The answer to the m-th call. */
  predicate Answer(b: Bucket, calls: seq<Call>, m: nat)
    requires m < |calls|
  {
    Grants(After(b, calls[..m]), calls[m].n, calls[m].now)
  }

  function Amount(b: Bucket, calls: seq<Call>, m: nat): int
    requires m < |calls|
  {
    if Answer(b, calls, m) then calls[m].n else 0
  }

  /** Granted from the j-th call on, before the m-th. */
  function AmountsBetween(b: Bucket, calls: seq<Call>, j: nat, m: nat): int
    requires m <= |calls|
  {
    if m <= j then 0 else AmountsBetween(b, calls, j, m - 1) + Amount(b, calls, m - 1)
  }

  /** When the bucket was last refilled before the m-th call: by the latest call that came a second or
      more after the refill before. */
  function LastRefill(start: int, calls: seq<Call>, m: nat): int
    requires m <= |calls|
  {
    if m == 0 then start else
      var last := LastRefill(start, calls, m - 1);
      if calls[m - 1].now - last >= 1_000_000_000 then calls[m - 1].now else last
  }

  /** What the m-th call's refill would add to an empty bucket: the rate for every whole second. */
  function RefillAt(rate: int, start: int, calls: seq<Call>, m: nat): int
    requires m < |calls|
  {
    rate * ((calls[m].now - LastRefill(start, calls, m)) / 1_000_000_000)
  }

  /** Refills after the j-th call, up to and with the m-th. */
  function RefillsBetween(rate: int, start: int, calls: seq<Call>, j: nat, m: nat): int
    requires m < |calls|
  {
    if m <= j then 0 else RefillsBetween(rate, start, calls, j, m - 1) + RefillAt(rate, start, calls, m)
  }

  lemma {:induction false} AfterOneMore(b: Bucket, calls: seq<Call>, m: nat)
    requires m < |calls|
    ensures After(b, calls[..m + 1]) == Charged(After(b, calls[..m]), calls[m].n, calls[m].now)
    decreases m
  {
    hide Charged;
    if m == 0 {
      assert calls[..0] == [] && calls[..1][1..] == [];
    } else {
      assert calls[..m + 1][1..] == calls[1..][..m] && calls[..m][1..] == calls[1..][..m - 1];
      AfterOneMore(Charged(b, calls[0].n, calls[0].now), calls[1..], m - 1);
    }
  }

  /** The m-th call finds the bucket refilled to this. */
  function Level(b: Bucket, calls: seq<Call>, m: nat): int
    requires m < |calls|
  {
    Refilled(After(b, calls[..m]), calls[m].now).tokens
  }

  predicate InOrder(calls: seq<Call>, start: int) {
    && (forall i :: 0 <= i < |calls| ==> 0 <= calls[i].n && start <= calls[i].now)
    && forall i, j :: 0 <= i < j < |calls| ==> calls[i].now <= calls[j].now
  }

  lemma {:induction false} OneRefill(b: Bucket, now: int)
    requires Sound(b) && b.lastRefill <= now
    ensures var r, seconds := Refilled(b, now), (now - b.lastRefill) / 1_000_000_000;
      && Sound(r) && r.capacity == b.capacity && r.refillRate == b.refillRate
      && r.tokens == Min(b.capacity, b.tokens + b.refillRate * seconds)
      && (b.refillRate > 0 ==> r.lastRefill == if seconds >= 1 then now else b.lastRefill)
      && b.lastRefill <= r.lastRefill <= now
  {
    var seconds := (now - b.lastRefill) / 1_000_000_000;
    assert TokensToAdd(b, now) == seconds * b.refillRate;
    Scaled(b.refillRate, 0, seconds);
    if b.refillRate > 0 && seconds >= 1 { Scaled(b.refillRate, 1, seconds); }
  }

  lemma {:induction false} LastRefillIsPast(start: int, calls: seq<Call>, m: nat)
    requires m < |calls| && InOrder(calls, start)
    ensures start <= LastRefill(start, calls, m) <= calls[m].now
    decreases m
  {
    if m > 0 { LastRefillIsPast(start, calls, m - 1); }
  }

  /** Before the m-th call: the clock of the refills is the reference's, whatever was granted. */
  lemma {:induction false} BucketBefore(capacity: int, rate: int, start: int, calls: seq<Call>, m: nat)
    requires 0 <= capacity && 0 <= rate && m < |calls| && InOrder(calls, start)
    ensures var b := After(New(capacity, rate, start), calls[..m]);
      && Sound(b) && b.capacity == capacity && b.refillRate == rate && b.lastRefill <= calls[m].now
      && (rate > 0 ==> b.lastRefill == LastRefill(start, calls, m))
    decreases m
  {
    var born := New(capacity, rate, start);
    if m == 0 {
      assert calls[..0] == [];
    } else {
      BucketBefore(capacity, rate, start, calls, m - 1);
      AfterOneMore(born, calls, m - 1);
      var b, call := After(born, calls[..m - 1]), calls[m - 1];
      hide After; hide Refilled;
      OneRefill(b, call.now);
      ChargeTakes(b, call.n, call.now);
      hide Charged; hide Grants;
      assert call.n >= 0;
    }
  }

  lemma {:induction false} LevelAt(capacity: int, rate: int, start: int, calls: seq<Call>, m: nat)
    requires 0 <= capacity && 0 <= rate && m < |calls| && InOrder(calls, start)
    ensures var born := New(capacity, rate, start);
      && Level(born, calls, m) ==
         Min(capacity, After(born, calls[..m]).tokens + RefillAt(rate, start, calls, m))
      && After(born, calls[..m]).tokens <= capacity && 0 <= RefillAt(rate, start, calls, m)
      && (Answer(born, calls, m) <==> Level(born, calls, m) >= calls[m].n)
  {
    var b := After(New(capacity, rate, start), calls[..m]);
    BucketBefore(capacity, rate, start, calls, m);
    LastRefillIsPast(start, calls, m);
    hide After; hide LastRefill;
    OneRefill(b, calls[m].now);
    Scaled(rate, 0, (calls[m].now - LastRefill(start, calls, m)) / 1_000_000_000);
    hide Refilled;
  }

  lemma {:induction false} TokensAfter(capacity: int, rate: int, start: int, calls: seq<Call>, m: nat)
    requires 0 <= capacity && 0 <= rate && m < |calls| && InOrder(calls, start)
    ensures var born := New(capacity, rate, start);
      After(born, calls[..m + 1]).tokens == Level(born, calls, m) - Amount(born, calls, m)
  {
    var born := New(capacity, rate, start);
    AfterOneMore(born, calls, m);
    ChargeTakes(After(born, calls[..m]), calls[m].n, calls[m].now);
    hide After; hide Charged; hide Grants; hide Refilled;
  }

  /** Capacity and refills since the j-th call, less what was granted since. */
  function Left(capacity: int, rate: int, start: int, calls: seq<Call>, j: nat, m: nat): int
    requires m < |calls|
  {
    capacity + RefillsBetween(rate, start, calls, j, m)
    - AmountsBetween(New(capacity, rate, start), calls, j, m)
  }

  /** The level is the least that any stretch of calls up to now leaves. */
  lemma {:induction false} LevelIsLeast(capacity: int, rate: int, start: int, calls: seq<Call>, m: nat)
    requires 0 <= capacity && 0 <= rate && m < |calls| && InOrder(calls, start)
    ensures var level := Level(New(capacity, rate, start), calls, m);
      && (forall j :: 0 <= j <= m ==> level <= Left(capacity, rate, start, calls, j, m))
      && exists j :: 0 <= j <= m && level == Left(capacity, rate, start, calls, j, m)
    decreases m
  {
    LevelAt(capacity, rate, start, calls, m);
    var born := New(capacity, rate, start);
    if m == 0 {
      assert calls[..0] == [] && Left(capacity, rate, start, calls, 0, 0) == capacity;
    } else {
      LevelIsLeast(capacity, rate, start, calls, m - 1);
      TokensAfter(capacity, rate, start, calls, m - 1);
      hide Level; hide Amount; hide RefillAt; hide After;
      forall j | 0 <= j <= m - 1
        ensures Left(capacity, rate, start, calls, j, m) ==
                Left(capacity, rate, start, calls, j, m - 1) + RefillAt(rate, start, calls, m)
                - Amount(born, calls, m - 1)
      {
      }
      assert Left(capacity, rate, start, calls, m, m) == capacity;
      var k :| 0 <= k <= m - 1 && Level(born, calls, m - 1) == Left(capacity, rate, start, calls, k, m - 1);
      hide Left;
      assert Level(born, calls, m) ==
             Min(Left(capacity, rate, start, calls, m, m), Left(capacity, rate, start, calls, k, m));
    }
  }

  /** A call in any run of a new bucket is granted exactly when, since any earlier call or the start, the
      amounts granted and its own fit into the capacity and the refills. So it is refused only if some
      stretch of the run has already used up too much. */
  lemma {:induction false} GrantedExactlyWhenPaidFor(
      capacity: int, rate: int, start: int, calls: seq<Call>, m: nat)
    requires 0 <= capacity && 0 <= rate && m < |calls| && InOrder(calls, start)
    ensures var born := New(capacity, rate, start);
      Answer(born, calls, m) <==>
      forall j :: 0 <= j <= m ==>
        AmountsBetween(born, calls, j, m) + calls[m].n <= capacity + RefillsBetween(rate, start, calls, j, m)
  {
    LevelIsLeast(capacity, rate, start, calls, m);
    LevelAt(capacity, rate, start, calls, m);
    var born, n := New(capacity, rate, start), calls[m].n;
    hide Answer; hide Level; hide AmountsBetween; hide RefillsBetween; hide RefillAt; hide After;
    if Level(born, calls, m) >= n {
      forall j | 0 <= j <= m
        ensures AmountsBetween(born, calls, j, m) + n <= capacity + RefillsBetween(rate, start, calls, j, m)
      {
        assert Level(born, calls, m) <= Left(capacity, rate, start, calls, j, m);
      }
    } else {
      var k :| 0 <= k <= m && Level(born, calls, m) == Left(capacity, rate, start, calls, k, m);
      assert AmountsBetween(born, calls, k, m) + n > capacity + RefillsBetween(rate, start, calls, k, m);
    }
  }

  // ---- a burst ----

  function Burst(k: nat, t: int): seq<Call> { seq(k, i => Call(1, t)) }

  lemma {:induction false} NoRefillInBurst(rate: int, t: int, k: nat, j: nat, m: nat)
    requires m < k
    ensures LastRefill(t, Burst(k, t), m) == t && RefillsBetween(rate, t, Burst(k, t), j, m) == 0
    decreases m
  {
    if m > 0 { NoRefillInBurst(rate, t, k, j, m - 1); }
  }

  /** Of k calls for one unit at one instant a new bucket grants exactly the first ones up to its
      capacity. */
  lemma {:induction false} BurstIsExact(capacity: nat, rate: nat, t: int, k: nat, m: nat)
    requires m <= k
    ensures AmountsBetween(New(capacity, rate, t), Burst(k, t), 0, m) == if m < capacity then m else capacity
    ensures m < k ==> (Answer(New(capacity, rate, t), Burst(k, t), m) <==> m < capacity)
    decreases m
  {
    var born, calls := New(capacity, rate, t), Burst(k, t);
    if m > 0 { BurstIsExact(capacity, rate, t, k, m - 1); }
    if m < k {
      GrantedExactlyWhenPaidFor(capacity, rate, t, calls, m);
      forall j | 0 <= j <= m ensures RefillsBetween(rate, t, calls, j, m) == 0 { NoRefillInBurst(rate, t, k, j, m); }
      forall j | 0 <= j <= m ensures AmountsBetween(born, calls, j, m) <= AmountsBetween(born, calls, 0, m) {
        LaterIsLess(born, calls, j, m);
      }
    }
  }

  lemma {:induction false} LaterIsLess(b: Bucket, calls: seq<Call>, j: nat, m: nat)
    requires m <= |calls| && forall i :: 0 <= i < |calls| ==> 0 <= calls[i].n
    ensures 0 <= AmountsBetween(b, calls, j, m) <= AmountsBetween(b, calls, 0, m)
    decreases m
  {
    hide Answer;
    if m > 0 { LaterIsLess(b, calls, j, m - 1); }
  }

  /** The amounts are those the admission bounds count. */
  lemma {:induction false} AmountsAreGranted(b: Bucket, calls: seq<Call>, m: nat)
    requires m <= |calls|
    ensures Granted(b, calls[..m]) == AmountsBetween(b, calls, 0, m)
    decreases m
  {
    if m == 0 {
      assert calls[..0] == [];
    } else {
      AmountsAreGranted(b, calls, m - 1);
      GrantedOneMore(b, calls[..m - 1], calls[m - 1]);
      assert calls[..m] == calls[..m - 1] + [calls[m - 1]];
    }
  }

  lemma {:induction false} GrantedOneMore(b: Bucket, calls: seq<Call>, call: Call)
    ensures Granted(b, calls + [call]) ==
            Granted(b, calls) + if Grants(After(b, calls), call.n, call.now) then call.n else 0
    decreases |calls|
  {
    hide Grants; hide Charged;
    if calls == [] {
      assert [call][1..] == [];
    } else {
      assert (calls + [call])[1..] == calls[1..] + [call];
      GrantedOneMore(Charged(b, calls[0].n, calls[0].now), calls[1..], call);
    }
  }

  // ---- one key at a time ----

  function AnswersFor(l: Limits, ops: seq<Op>, key: string): seq<bool>
    decreases |ops|
  {
    if ops == [] then [] else
      var op := ops[0];
      (if op.Ask? && op.key == key then [Grants(BucketFor(l, key, op.now), op.n, op.now)] else [])
      + AnswersFor(Step(l, op), ops[1..], key)
  }

  /** The run as if nobody used any other key. */
  function OnlyKey(ops: seq<Op>, key: string): seq<Op> {
    if ops == [] then [] else
      (if ops[0].Cleanup? || ops[0].key == key then [ops[0]] else []) + OnlyKey(ops[1..], key)
  }

  predicate SameFor(l: Limits, l': Limits, key: string) {
    && l.capacity == l'.capacity && l.refillRate == l'.refillRate
    && (key in l.buckets <==> key in l'.buckets)
    && (key in l.buckets ==> l.buckets[key] == l'.buckets[key])
  }

  /** What a key is answered depends on the calls for that key alone. */
  lemma {:induction false} KeysAreIndependent(l: Limits, l': Limits, ops: seq<Op>, key: string)
    requires SameFor(l, l', key)
    ensures AnswersFor(l, ops, key) == AnswersFor(l', OnlyKey(ops, key), key)
    decreases |ops|
  {
    if ops != [] {
      var op, rest := ops[0], ops[1..];
      if op.Cleanup? || op.key == key {
        assert OnlyKey(ops, key) == [op] + OnlyKey(rest, key);
        assert OnlyKey(ops, key)[1..] == OnlyKey(rest, key);
        KeysAreIndependent(Step(l, op), Step(l', op), rest, key);
      } else {
        assert OnlyKey(ops, key) == OnlyKey(rest, key);
        KeysAreIndependent(Step(l, op), l', rest, key);
      }
    }
  }

  /** After a reset the key is answered like one that was never used, and no other key notices. */
  lemma {:induction false} ResetStartsAnew(l: Limits, ops: seq<Op>, key: string, other: string)
    requires other != key
    ensures AnswersFor(AfterReset(l, key), ops, key) == AnswersFor(l.(buckets := map[]), ops, key)
    ensures AnswersFor(AfterReset(l, key), ops, other) == AnswersFor(l, ops, other)
  {
    var reset, unused := AfterReset(l, key), l.(buckets := map[]);
    KeysAreIndependent(reset, unused, ops, key);
    KeysAreIndependent(unused, unused, ops, key);
    KeysAreIndependent(reset, l, ops, other);
    KeysAreIndependent(l, l, ops, other);
  }

  /** A cleanup forgets exactly the full buckets that were not refilled for more than ten minutes. */
  lemma {:induction false} CleanupForgetsExactly(l: Limits, now: int, key: string)
    ensures var after := AfterCleanup(l, now);
      && (key in after.buckets <==>
            key in l.buckets
            && !(l.buckets[key].tokens == l.buckets[key].capacity && now - l.buckets[key].lastRefill > 600_000_000_000))
      && (key in after.buckets ==> after.buckets[key] == l.buckets[key])
      && after.capacity == l.capacity && after.refillRate == l.refillRate
  {
  }

  /** The calls as questions about one key. */
  function Asking(calls: seq<Call>, key: string): seq<Op> {
    if calls == [] then [] else [Ask(key, calls[0].n, calls[0].now)] + Asking(calls[1..], key)
  }

  function AnswersOf(b: Bucket, calls: seq<Call>): seq<bool>
    decreases |calls|
  {
    if calls == [] then [] else
      [Grants(b, calls[0].n, calls[0].now)] + AnswersOf(Charged(b, calls[0].n, calls[0].now), calls[1..])
  }

  lemma {:induction false} KeyIsItsBucket(l: Limits, calls: seq<Call>, key: string)
    requires key in l.buckets
    ensures AnswersFor(l, Asking(calls, key), key) == AnswersOf(l.buckets[key], calls)
    decreases |calls|
  {
    if calls != [] {
      var ask := Ask(key, calls[0].n, calls[0].now);
      assert Asking(calls, key) == [ask] + Asking(calls[1..], key);
      assert Asking(calls, key)[1..] == Asking(calls[1..], key);
      hide Grants; hide Charged;
      KeyIsItsBucket(Step(l, ask), calls[1..], key);
    }
  }

  /** A key never used before is answered, call by call, like a new bucket of the limiter's capacity and
      rate, made at the first call. */
  lemma {:induction false} UnusedKeyIsNewBucket(l: Limits, calls: seq<Call>, key: string)
    requires key !in l.buckets && calls != []
    ensures AnswersFor(l, Asking(calls, key), key) == AnswersOf(New(l.capacity, l.refillRate, calls[0].now), calls)
  {
    var ask := Ask(key, calls[0].n, calls[0].now);
    assert Asking(calls, key) == [ask] + Asking(calls[1..], key);
    assert Asking(calls, key)[1..] == Asking(calls[1..], key);
    hide Grants; hide Charged;
    KeyIsItsBucket(Step(l, ask), calls[1..], key);
  }

  lemma {:induction false} AnswersAreAnswers(b: Bucket, calls: seq<Call>, m: nat)
    requires m < |calls|
    ensures |AnswersOf(b, calls)| == |calls| && AnswersOf(b, calls)[m] == Answer(b, calls, m)
    decreases |calls|
  {
    hide Grants; hide Charged;
    var next := Charged(b, calls[0].n, calls[0].now);
    if m == 0 {
      assert calls[..0] == [];
      if |calls| > 1 { AnswersAreAnswers(next, calls[1..], 0); }
    } else {
      AnswersAreAnswers(next, calls[1..], m - 1);
      assert calls[..m][1..] == calls[1..][..m - 1];
    }
  }
}
