/** Exactly which calls the Redis limiter admits on one key, told from the timestamps and the calls
    admitted before, and what its two counts promise. */
module RateExact {
  import opened Options
  import opened RedisRateLimit
  import opened RateRuns

  predicate AdmittedAt(limit: int, window: int, stamps: seq<int>, m: nat)
    requires window > 0 && m < |stamps|
  {
    Admits(After(None, limit, window, stamps[..m]), limit, window, stamps[m])
  }

  /** Calls admitted from the j-th on, before the m-th. */
  function AdmittedBetween(limit: int, window: int, stamps: seq<int>, j: nat, m: nat): int
    requires window > 0 && m <= |stamps|
  {
    if m <= j then 0 else
      AdmittedBetween(limit, window, stamps, j, m - 1) + if AdmittedAt(limit, window, stamps, m - 1) then 1 else 0
  }

  /** The tokens the m-th call finds. */
  function Level(limit: int, window: int, stamps: seq<int>, m: nat): real
    requires window > 0 && m < |stamps|
  {
    Refill(Initial(After(None, limit, window, stamps[..m]), limit, stamps[m]), limit, window, stamps[m])
  }

  /** The limit and what the time since the j-th call is worth, less the calls admitted since. */
  function Left(limit: int, window: int, stamps: seq<int>, j: nat, m: nat): real
    requires window > 0 && j <= m < |stamps|
  {
    limit as real + Earned(limit, window, stamps[m] - stamps[j])
    - AdmittedBetween(limit, window, stamps, j, m) as real
  }

  lemma {:induction false} FirstLevel(limit: int, window: int, stamps: seq<int>)
    requires window > 0 && stamps != []
    ensures Level(limit, window, stamps, 0) == limit as real
    ensures Left(limit, window, stamps, 0, 0) == limit as real
  {
    assert stamps[..0] == [];
  }

  lemma {:induction false} NextLevel(limit: int, window: int, stamps: seq<int>, m: nat)
    requires window > 0 && 0 < m < |stamps|
    ensures var admitted := if AdmittedAt(limit, window, stamps, m - 1) then 1.0 else 0.0;
      Level(limit, window, stamps, m) ==
      Min(limit as real,
          Level(limit, window, stamps, m - 1) - admitted + Earned(limit, window, stamps[m] - stamps[m - 1]))
  {
    var st := After(None, limit, window, stamps[..m - 1]);
    LastCall(None, limit, window, stamps[..m]);
    assert stamps[..m][..m - 1] == stamps[..m - 1] && stamps[..m][m - 1] == stamps[m - 1];
    var s := Next(st, limit, window, stamps[m - 1]);
    RefillIsEarned(s, limit, window, stamps[m]);
    hide Refill; hide Earned; hide After; hide Initial; hide Min;
  }

  lemma {:induction false} LeftMoves(limit: int, window: int, stamps: seq<int>, j: nat, m: nat)
    requires window > 0 && j < m < |stamps|
    ensures var admitted := if AdmittedAt(limit, window, stamps, m - 1) then 1.0 else 0.0;
      Left(limit, window, stamps, j, m) ==
      Left(limit, window, stamps, j, m - 1) - admitted + Earned(limit, window, stamps[m] - stamps[m - 1])
  {
    hide Earned; hide AdmittedAt;
    EarnedAdds(limit, window, stamps[m] - stamps[m - 1], stamps[m - 1] - stamps[j]);
  }

  /** The level is the least that any stretch of calls up to now leaves. */
  lemma {:induction false} LevelIsLeast(limit: int, window: int, stamps: seq<int>, m: nat)
    requires window > 0 && m < |stamps|
    ensures var level := Level(limit, window, stamps, m);
      && (forall j :: 0 <= j <= m ==> level <= Left(limit, window, stamps, j, m))
      && exists j :: 0 <= j <= m && level == Left(limit, window, stamps, j, m)
    decreases m
  {
    FirstLevel(limit, window, stamps);
    if m > 0 {
      LevelIsLeast(limit, window, stamps, m - 1);
      NextLevel(limit, window, stamps, m);
      LeftNow(limit, window, stamps, m);
      hide Level; hide Left; hide Earned; hide AdmittedAt;
      forall j | 0 <= j < m
        ensures Left(limit, window, stamps, j, m) ==
                Left(limit, window, stamps, j, m - 1)
                - (if AdmittedAt(limit, window, stamps, m - 1) then 1.0 else 0.0)
                + Earned(limit, window, stamps[m] - stamps[m - 1])
      {
        LeftMoves(limit, window, stamps, j, m);
      }
      var k :| 0 <= k < m && Level(limit, window, stamps, m - 1) == Left(limit, window, stamps, k, m - 1);
      assert Level(limit, window, stamps, m) ==
             Min(Left(limit, window, stamps, m, m), Left(limit, window, stamps, k, m));
    }
  }

  lemma {:induction false} LeftNow(limit: int, window: int, stamps: seq<int>, m: nat)
    requires window > 0 && m < |stamps|
    ensures Left(limit, window, stamps, m, m) == limit as real
  {
  }

  /** On a key new at the first call, and not expired since, the m-th call is admitted exactly when for
      every call before it the calls admitted since and this one are within the limit and what the time in
      between is worth, whichever way the timestamps move. */
  lemma {:induction false} AdmittedExactlyWhenPaidFor(limit: int, window: int, stamps: seq<int>, m: nat)
    requires window > 0 && m < |stamps|
    ensures AdmittedAt(limit, window, stamps, m) <==>
            forall j :: 0 <= j <= m ==>
              AdmittedBetween(limit, window, stamps, j, m) as real + 1.0
                <= limit as real + Earned(limit, window, stamps[m] - stamps[j])
  {
    LevelIsLeast(limit, window, stamps, m);
    assert AdmittedAt(limit, window, stamps, m) <==> Level(limit, window, stamps, m) >= 1.0;
    hide AdmittedAt; hide Level; hide Earned; hide AdmittedBetween;
    if Level(limit, window, stamps, m) >= 1.0 {
      forall j | 0 <= j <= m
        ensures AdmittedBetween(limit, window, stamps, j, m) as real + 1.0
                  <= limit as real + Earned(limit, window, stamps[m] - stamps[j])
      {
        assert Level(limit, window, stamps, m) <= Left(limit, window, stamps, j, m);
      }
    } else {
      var k :| 0 <= k <= m && Level(limit, window, stamps, m) == Left(limit, window, stamps, k, m);
      assert AdmittedBetween(limit, window, stamps, k, m) as real + 1.0
               > limit as real + Earned(limit, window, stamps[m] - stamps[k]);
    }
  }

  // ---- what the answer promises ----

  lemma {:induction false} BurstTakesWholeTokens(s: Stored, limit: int, window: int, k: nat)
    requires limit > 0 && window > 0 && 0.0 <= s.tokens <= limit as real
    ensures Admitted(Some(s), limit, window, seq(k, i => s.stamp)) == if k < s.tokens.Floor then k else s.tokens.Floor
    decreases k
  {
    if k > 0 {
      RefillIsEarned(s, limit, window, s.stamp);
      assert Earned(limit, window, 0) == 0.0;
      var n := Next(Some(s), limit, window, s.stamp);
      assert Refill(s, limit, window, s.stamp) == s.tokens;
      assert seq(k, i => s.stamp)[0] == s.stamp;
      assert seq(k, i => s.stamp)[1..] == seq(k - 1, i => n.stamp);
      hide Refill; hide Earned;
      BurstTakesWholeTokens(n, limit, window, k - 1);
      FloorLessOne(s.tokens);
    }
  }

  lemma {:induction false} FloorLessOne(x: real)
    requires x >= 0.0
    ensures x >= 1.0 ==> (x - 1.0).Floor == x.Floor - 1
    ensures x < 1.0 ==> x.Floor == 0
  {
  }

  lemma {:induction false} NextIsWithin(st: Option<Stored>, limit: int, window: int, now: int)
    requires limit > 0 && window > 0
    ensures Next(st, limit, window, now).tokens <= limit as real && Next(st, limit, window, now).stamp == now
  {
  }

  /** The remaining count of an answer is how many more calls at that second would be admitted. */
  lemma {:induction false} RemainingIsWhatABurstGets(st: Option<Stored>, limit: int, window: int, now: int, k: nat)
    requires limit > 0 && window > 0
    requires st.Some? ==> st.value.tokens >= 0.0 && st.value.stamp <= now
    ensures var left := Reply(st, limit, window, now).remaining;
      Admitted(Some(Next(st, limit, window, now)), limit, window, seq(k, i => now)) == if k < left then k else left
  {
    NoNegativeTokens(st, limit, window, now);
    NextIsWithin(st, limit, window, now);
    BurstTakesWholeTokens(Next(st, limit, window, now), limit, window, k);
  }

  /** By the reset time of an answer the bucket the call found would be full again, had it not come; one
      that was empty then would not be before. */
  lemma {:induction false} FullByResetTime(st: Option<Stored>, limit: int, window: int, now: int, t: int)
    requires limit > 0 && window > 0 && (st.Some? ==> st.value.tokens >= 0.0)
    ensures var s, reset := Initial(st, limit, now), Reply(st, limit, window, now).reset;
      && (t >= reset ==> Refill(s, limit, window, t) == limit as real)
      && (t < reset && s.tokens == 0.0 ==> Refill(s, limit, window, t) < limit as real)
  {
    var s, reset := Initial(st, limit, now), Reply(st, limit, window, now).reset;
    RefillIsEarned(s, limit, window, t);
    WindowFillsBucket(limit, window);
    if t >= reset {
      EarnedGrows(limit, window, window, t - s.stamp);
    } else {
      EarnedGrows(limit, window, t - s.stamp, window - 1);
      EarnedAdds(limit, window, window - 1, 1);
      EarnsSomething(limit, window);
    }
    hide Refill; hide Earned;
  }

  lemma {:induction false} EarnsSomething(limit: int, window: int)
    requires limit > 0 && window > 0
    ensures Earned(limit, window, 1) > 0.0
  {
  }

  /** The keys live for exactly two windows of 1000 milliseconds a second, by the script's clock and
      Redis's. */
  lemma {:induction false} KeysLiveTwoWindows(s: Stored, written: int, window: int, millis: int)
    ensures Surviving(Some(s), written, window, millis) == (if millis < written + 2_000 * window then Some(s) else None)
    ensures 1_000 * Seconds(millis) <= millis < 1_000 * (Seconds(millis) + 1)
  {
  }
}
