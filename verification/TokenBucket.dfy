/** The in-memory token bucket and the limiter that keeps one bucket a key. Times are nanoseconds. */
module TokenBucket {
  import opened Durations

  const CLEANUP_INTERVAL := 600 * SECOND

  function CeilSeconds(elapsed: int): int { -(-elapsed / SECOND) }

  datatype Bucket = Bucket(capacity: int, refillRate: int, tokens: int, lastRefill: int)

  function New(capacity: int, refillRate: int, now: int): Bucket { Bucket(capacity, refillRate, capacity, now) }

  function Min(a: int, b: int): int { if a < b then a else b }

  function TokensToAdd(b: Bucket, now: int): int { WholeSeconds(now - b.lastRefill) * b.refillRate }

  function Refilled(b: Bucket, now: int): Bucket {
    if TokensToAdd(b, now) > 0
    then b.(tokens := Min(b.capacity, b.tokens + TokensToAdd(b, now)), lastRefill := now)
    else b
  }

  predicate Grants(b: Bucket, n: int, now: int) { Refilled(b, now).tokens >= n }

  function Charged(b: Bucket, n: int, now: int): Bucket {
    var r := Refilled(b, now);
    if Grants(b, n, now) then r.(tokens := r.tokens - n) else r
  }

  /** cleanup's test: full, and not refilled for longer than the interval. */
  predicate Idle(b: Bucket, now: int) {
    b.tokens == b.capacity && now - b.lastRefill > CLEANUP_INTERVAL
  }

  class TokenBucket {
    const capacity: int
    const refillRate: int
    var tokens: int
    var lastRefill: int

    function Value(): Bucket
      reads this
    {
      Bucket(capacity, refillRate, tokens, lastRefill)
    }

    constructor (capacity: int, refillRate: int, now: int)
      ensures Value() == New(capacity, refillRate, now)
    {
      this.capacity, this.refillRate := capacity, refillRate;
      tokens, lastRefill := capacity, now;
    }

    method Refill(now: int)
      modifies this
      ensures Value() == Refilled(old(Value()), now)
    {
      var elapsed := now - lastRefill;
      var tokensToAdd := WholeSeconds(elapsed) * refillRate;
      if tokensToAdd > 0 {
        tokens := tokens + tokensToAdd;
        if tokens > capacity {
          tokens := capacity;
        }
        lastRefill := now;
      }
    }

    method AllowN(n: int, now: int) returns (allowed: bool)
      modifies this
      ensures allowed == old(Grants(Value(), n, now))
      ensures Value() == Charged(old(Value()), n, now)
    {
      Refill(now);
      if tokens >= n {
        tokens := tokens - n;
        return true;
      }
      return false;
    }
  }

  /** A limiter as a value: what its buckets hold. */
  datatype Limits = Limits(capacity: int, refillRate: int, buckets: map<string, Bucket>)

  function BucketFor(l: Limits, key: string, now: int): Bucket {
    if key in l.buckets then l.buckets[key] else New(l.capacity, l.refillRate, now)
  }

  function AfterCall(l: Limits, key: string, n: int, now: int): Limits {
    l.(buckets := l.buckets[key := Charged(BucketFor(l, key, now), n, now)])
  }

  function AfterCleanup(l: Limits, now: int): Limits {
    l.(buckets := map k | k in l.buckets && !Idle(l.buckets[k], now) :: l.buckets[k])
  }

  function AfterReset(l: Limits, key: string): Limits { l.(buckets := l.buckets - {key}) }

  class RateLimiter {
    const capacity: int
    const refillRate: int
    var buckets: map<string, TokenBucket>
    var lastCleanup: int

    ghost predicate Valid()
      reads this
    {
      forall j, k :: j in buckets && k in buckets && buckets[j] == buckets[k] ==> j == k
    }

    function Contents(): Limits
      reads this, buckets.Values
    {
      Limits(capacity, refillRate, map k | k in buckets :: buckets[k].Value())
    }

    constructor (capacity: int, refillRate: int, now: int)
      ensures Valid() && Contents() == Limits(capacity, refillRate, map[]) && lastCleanup == now
    {
      this.capacity, this.refillRate := capacity, refillRate;
      buckets, lastCleanup := map[], now;
    }

    method GetBucket(key: string, now: int) returns (bucket: TokenBucket)
      requires Valid()
      modifies this`buckets
      ensures Valid() && key in buckets && buckets[key] == bucket
      ensures fresh(buckets.Values - old(buckets.Values))
      ensures Contents() == old(Contents().(buckets := Contents().buckets[key := BucketFor(Contents(), key, now)]))
    {
      if key in buckets {
        return buckets[key];
      }
      bucket := new TokenBucket(capacity, refillRate, now);
      buckets := buckets[key := bucket];
    }

    /** The bucket is found and charged with one reading of the clock. */
    method AllowN(key: string, n: int, now: int) returns (allowed: bool)
      requires Valid()
      modifies this`buckets, buckets.Values
      ensures Valid() && fresh(buckets.Values - old(buckets.Values))
      ensures allowed == old(Grants(BucketFor(Contents(), key, now), n, now))
      ensures Contents() == AfterCall(old(Contents()), key, n, now)
    {
      hide Charged; hide Grants; hide New;
      var bucket := GetBucket(key, now);
      ghost var before := Contents();
      assert bucket.Value() == before.buckets[key];
      allowed := bucket.AllowN(n, now);
      assert Contents().buckets == before.buckets[key := bucket.Value()];
    }

    method Cleanup(now: int)
      requires Valid()
      modifies this`buckets, this`lastCleanup
      ensures Valid() && buckets.Values <= old(buckets.Values)
      ensures Contents() == AfterCleanup(old(Contents()), now) && lastCleanup == now
    {
      var unseen := buckets.Keys;
      while unseen != {}
        invariant unseen <= old(buckets).Keys
        invariant forall k :: k in buckets <==>
                    k in old(buckets) && (k in unseen || !Idle(old(buckets)[k].Value(), now))
        invariant forall k :: k in buckets ==> buckets[k] == old(buckets)[k]
        decreases unseen
      {
        var key :| key in unseen;
        unseen := unseen - {key};
        var bucket := buckets[key];
        if bucket.tokens == bucket.capacity && now - bucket.lastRefill > CLEANUP_INTERVAL {
          buckets := buckets - {key};
        }
      }
      lastCleanup := now;
    }

    method Reset(key: string)
      requires Valid()
      modifies this`buckets
      ensures Valid() && Contents() == AfterReset(old(Contents()), key)
    {
      buckets := buckets - {key};
    }
  }
}
