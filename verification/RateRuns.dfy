/** What the Redis limiter admits on one key over whole runs, and what its key expiry changes. */
module RateRuns {
  import opened Options
  import opened RedisRateLimit

  /** What is stored after calls with these timestamps, none of which found the keys expired. */
  function After(st: Option<Stored>, limit: int, window: int, stamps: seq<int>): Option<Stored>
    requires window > 0
    decreases |stamps|
  {
    if stamps == [] then st else
      After(Some(Next(st, limit, window, stamps[0])), limit, window, stamps[1..])
  }

  function Admitted(st: Option<Stored>, limit: int, window: int, stamps: seq<int>): nat
    requires window > 0
    decreases |stamps|
  {
    if stamps == [] then 0 else
      (if Admits(st, limit, window, stamps[0]) then 1 else 0) +
      Admitted(Some(Next(st, limit, window, stamps[0])), limit, window, stamps[1..])
  }

  /** The tokens a stretch of time is worth. */
  function Earned(limit: int, window: int, elapsed: int): real
    requires window > 0
  {
    elapsed as real * (limit as real / window as real)
  }

  lemma {:induction false} EarnedAdds(limit: int, window: int, x: int, y: int)
    requires window > 0
    ensures Earned(limit, window, x + y) == Earned(limit, window, x) + Earned(limit, window, y)
  {
  }

  lemma {:induction false} NextIsPaid(s: Stored, limit: int, window: int, now: int)
    requires window > 0
    ensures var n := Next(Some(s), limit, window, now);
      && n.stamp == now
      && n.tokens + (if Admits(Some(s), limit, window, now) then 1.0 else 0.0)
           <= s.tokens + Earned(limit, window, now - s.stamp)
  {
  }

  /** Tokens and elapsed time pay for every admission, whichever way the timestamps move. */
  lemma {:induction false} AdmissionsArePaid(s: Stored, limit: int, window: int, stamps: seq<int>)
    requires window > 0
    ensures After(Some(s), limit, window, stamps).Some?
    ensures var e := After(Some(s), limit, window, stamps).value;
      && e.stamp == (if stamps == [] then s.stamp else stamps[|stamps| - 1])
      && Admitted(Some(s), limit, window, stamps) as real + e.tokens
           <= s.tokens + Earned(limit, window, e.stamp - s.stamp)
    decreases |stamps|
  {
    if stamps != [] {
      hide Next; hide Admits; hide Earned;
      var n := Next(Some(s), limit, window, stamps[0]);
      NextIsPaid(s, limit, window, stamps[0]);
      AdmissionsArePaid(n, limit, window, stamps[1..]);
      var e := After(Some(n), limit, window, stamps[1..]).value;
      EarnedAdds(limit, window, e.stamp - n.stamp, n.stamp - s.stamp);
    }
  }

  lemma {:induction false} LastCall(st: Option<Stored>, limit: int, window: int, stamps: seq<int>)
    requires window > 0 && stamps != []
    ensures var n := |stamps| - 1;
      After(st, limit, window, stamps) ==
        Some(Next(After(st, limit, window, stamps[..n]), limit, window, stamps[n]))
    decreases |stamps|
  {
    var n := |stamps| - 1;
    if n > 0 {
      hide Next;
      LastCall(Some(Next(st, limit, window, stamps[0])), limit, window, stamps[1..]);
      assert stamps[..n][1..] == stamps[1..][..n - 1];
    }
  }

  /** Between a first admitted call stamped t1 and a last admitted call stamped tn at most
      limit + (tn - t1) * limit / window calls are admitted, from any stored state and even when
      timestamps in between go backwards. */
  lemma {:induction false} AdmissionBound(st: Option<Stored>, limit: int, window: int, stamps: seq<int>)
    requires limit > 0 && window > 0 && stamps != []
    requires Admits(st, limit, window, stamps[0])
    requires Admits(After(st, limit, window, stamps[..|stamps| - 1]), limit, window, stamps[|stamps| - 1])
    ensures Admitted(st, limit, window, stamps) as real
              <= limit as real + Earned(limit, window, stamps[|stamps| - 1] - stamps[0])
  {
    var first, last := stamps[0], stamps[|stamps| - 1];
    var s := Next(st, limit, window, first);
    assert s.tokens <= limit as real - 1.0 && s.stamp == first;
    LastCall(st, limit, window, stamps);
    var e := After(st, limit, window, stamps).value;
    assert e.tokens >= 0.0;
    hide Next; hide Admits; hide Earned;
    AdmissionsArePaid(s, limit, window, stamps[1..]);
  }

  // ---- and what it does admit ----

  lemma {:induction false} BurstFrom(s: Stored, limit: int, window: int, k: nat, left: nat)
    requires limit > 0 && window > 0 && s.tokens == left as real && left <= limit
    ensures Admitted(Some(s), limit, window, seq(k, i => s.stamp)) == if k < left then k else left
    decreases k
  {
    if k > 0 {
      var n := Next(Some(s), limit, window, s.stamp);
      assert Refill(s, limit, window, s.stamp) == s.tokens;
      assert seq(k, i => s.stamp)[1..] == seq(k - 1, i => n.stamp);
      BurstFrom(n, limit, window, k - 1, if left > 0 then left - 1 else 0);
    }
  }

  /** A burst on a new key is admitted up to the limit, to the call. */
  lemma {:induction false} BurstIsExact(limit: int, window: int, now: int, k: nat)
    requires limit > 0 && window > 0
    ensures Admitted(None, limit, window, seq(k, i => now)) == if k < limit then k else limit
  {
    if k > 0 {
      var full := Stored(limit as real, now);
      assert Next(None, limit, window, now) == Next(Some(full), limit, window, now);
      assert Admits(None, limit, window, now) == Admits(Some(full), limit, window, now);
      BurstFrom(full, limit, window, k, limit);
    }
  }

  lemma {:induction false} EnoughForOne(limit: int, window: int, gap: int)
    requires limit > 0 && window > 0 && gap * limit >= window
    ensures Earned(limit, window, gap) >= 1.0
  {
  }

  /** Callers that leave a token's time between calls are never refused. */
  lemma {:induction false} PacedCallsAreAdmitted(s: Stored, limit: int, window: int, stamps: seq<int>)
    requires limit > 0 && window > 0 && s.tokens >= 0.0
    requires stamps != [] ==> (stamps[0] - s.stamp) * limit >= window
    requires forall i :: 0 <= i < |stamps| - 1 ==> (stamps[i + 1] - stamps[i]) * limit >= window
    ensures Admitted(Some(s), limit, window, stamps) == |stamps|
    decreases |stamps|
  {
    if stamps != [] {
      EnoughForOne(limit, window, stamps[0] - s.stamp);
      var n := Next(Some(s), limit, window, stamps[0]);
      assert Admits(Some(s), limit, window, stamps[0]) && n.tokens >= 0.0 && n.stamp == stamps[0];
      hide Next; hide Admits; hide Earned;
      forall i | 0 <= i < |stamps[1..]| - 1 ensures (stamps[1..][i + 1] - stamps[1..][i]) * limit >= window {
        assert stamps[1..][i] == stamps[i + 1] && stamps[1..][i + 1] == stamps[i + 2];
      }
      PacedCallsAreAdmitted(n, limit, window, stamps[1..]);
    }
  }

  // ---- key expiry ----

  /** Calls at these milliseconds; the script's timestamp is the clock's whole seconds. */
  function Seconds(millis: int): int { millis / MILLIS }

  /** What a call finds when the keys last written at `written` expire after two windows. */
  function Surviving(st: Option<Stored>, written: int, window: int, millis: int): Option<Stored> {
    if millis < written + 2 * window * MILLIS then st else None
  }

  datatype Seen = Seen(allowed: bool, remaining: int, stored: Stored)

  function Observe(st: Option<Stored>, limit: int, window: int, millis: int): Seen
    requires window > 0
  {
    var a := Reply(st, limit, window, Seconds(millis));
    Seen(a.allowed, a.remaining, Next(st, limit, window, Seconds(millis)))
  }

  /** Everything but the reset time, call by call, of a store that never forgets. */
  function EternalRun(st: Option<Stored>, limit: int, window: int, calls: seq<int>): seq<Seen>
    requires window > 0
    decreases |calls|
  {
    if calls == [] then [] else
      var o := Observe(st, limit, window, calls[0]);
      [o] + EternalRun(Some(o.stored), limit, window, calls[1..])
  }

  /** The same of a store whose keys expire two windows after they were written. */
  function ExpiringRun(st: Option<Stored>, written: int, limit: int, window: int, calls: seq<int>): seq<Seen>
    requires window > 0
    decreases |calls|
  {
    if calls == [] then [] else
      var o := Observe(Surviving(st, written, window, calls[0]), limit, window, calls[0]);
      [o] + ExpiringRun(Some(o.stored), calls[0], limit, window, calls[1..])
  }

  predicate Ascending(calls: seq<int>, from: int) {
    && (forall i :: 0 <= i < |calls| ==> from <= calls[i])
    && forall i, j :: 0 <= i < j < |calls| ==> calls[i] <= calls[j]
  }

  lemma {:induction false} EarnedGrows(limit: int, window: int, x: int, y: int)
    requires limit > 0 && window > 0 && x <= y
    ensures Earned(limit, window, x) <= Earned(limit, window, y)
  {
    var rate := limit as real / window as real;
    assert rate >= 0.0 && (y - x) as real * rate >= 0.0;
    assert y as real * rate == x as real * rate + (y - x) as real * rate;
  }

  lemma {:induction false} NoNegativeTokens(st: Option<Stored>, limit: int, window: int, now: int)
    requires limit > 0 && window > 0
    requires st.Some? ==> st.value.tokens >= 0.0 && st.value.stamp <= now
    ensures Next(st, limit, window, now).tokens >= 0.0
  {
    var s := Initial(st, limit, now);
    EarnedGrows(limit, window, 0, now - s.stamp);
    assert Earned(limit, window, 0) == 0.0;
    RefillIsEarned(s, limit, window, now);
    hide Earned; hide Refill;
  }

  lemma {:induction false} WindowFillsBucket(limit: int, window: int)
    requires limit > 0 && window > 0
    ensures Earned(limit, window, window) == limit as real
  {
    var l, w := limit as real, window as real;
    assert w * (l / w) == l;
  }

  /** After two windows a bucket is full again, so forgetting it changes nothing. */
  lemma {:induction false} ForgettingIsHarmless(s: Stored, written: int, limit: int, window: int, millis: int)
    requires limit > 0 && window > 0 && s.tokens >= 0.0
    requires s.stamp == Seconds(written) && written + 2 * window * MILLIS <= millis
    ensures Observe(Some(s), limit, window, millis) == Observe(None, limit, window, millis)
    ensures Seconds(millis) - s.stamp >= 2 * window
  {
    var now := Seconds(millis);
    assert now - s.stamp >= 2 * window;
    EarnedGrows(limit, window, window, now - s.stamp);
    WindowFillsBucket(limit, window);
    RefillIsEarned(s, limit, window, now);
    RefillIsEarned(Initial(None, limit, now), limit, window, now);
    assert Earned(limit, window, 0) == 0.0;
    hide Earned; hide Refill;
  }

  lemma {:induction false} RefillIsEarned(s: Stored, limit: int, window: int, now: int)
    requires window > 0
    ensures Refill(s, limit, window, now) == Min(limit as real, s.tokens + Earned(limit, window, now - s.stamp))
  {
  }

  /** On one non-decreasing clock the expiry of the keys is invisible: every call returns the same
      flag and remaining count and leaves the same stored tokens and timestamp. */
  lemma {:induction false} ExpiryIsUnobservable(s: Stored, written: int, limit: int, window: int, calls: seq<int>)
    requires limit > 0 && window > 0 && s.tokens >= 0.0
    requires s.stamp == Seconds(written) && Ascending(calls, written)
    ensures ExpiringRun(Some(s), written, limit, window, calls) == EternalRun(Some(s), limit, window, calls)
    decreases |calls|
  {
    if calls != [] {
      var now := calls[0];
      if written + 2 * window * MILLIS <= now { ForgettingIsHarmless(s, written, limit, window, now); }
      var o := Observe(Some(s), limit, window, now);
      NoNegativeTokens(Some(s), limit, window, Seconds(now));
      ExpiryIsUnobservable(o.stored, now, limit, window, calls[1..]);
    }
  }

  /** From a key never used before. */
  lemma {:induction false} FreshExpiryIsUnobservable(limit: int, window: int, written: int, calls: seq<int>)
    requires limit > 0 && window > 0 && Ascending(calls, written)
    ensures ExpiringRun(None, written, limit, window, calls) == EternalRun(None, limit, window, calls)
  {
    if calls != [] {
      NoNegativeTokens(None, limit, window, Seconds(calls[0]));
      ExpiryIsUnobservable(Observe(None, limit, window, calls[0]).stored, calls[0], limit, window, calls[1..]);
    }
  }

  // ---- admission with expiring keys ----

  function AllowedIn(run: seq<Seen>): nat {
    if run == [] then 0 else (if run[0].allowed then 1 else 0) + AllowedIn(run[1..])
  }

  /** With the clock never running back, a run that forgets nothing admits what time pays for. */
  lemma {:induction false} EternalIsPaid(s: Stored, limit: int, window: int, calls: seq<int>, from: int)
    requires limit > 0 && window > 0 && s.tokens >= 0.0 && s.stamp == Seconds(from) && Ascending(calls, from)
    ensures var last := if calls == [] then from else calls[|calls| - 1];
      AllowedIn(EternalRun(Some(s), limit, window, calls)) as real
        <= s.tokens + Earned(limit, window, Seconds(last) - s.stamp)
    decreases |calls|
  {
    if calls == [] {
      assert Earned(limit, window, 0) == 0.0;
    } else {
      var now, last := Seconds(calls[0]), calls[|calls| - 1];
      var n := Next(Some(s), limit, window, now);
      NoNegativeTokens(Some(s), limit, window, now);
      NextIsPaid(s, limit, window, now);
      EternalSplits(Some(s), limit, window, calls);
      hide Next; hide Admits; hide Earned; hide Seconds; hide EternalRun; hide AllowedIn;
      EternalIsPaid(n, limit, window, calls[1..], calls[0]);
      EarnedAdds(limit, window, Seconds(last) - n.stamp, n.stamp - s.stamp);
    }
  }

  lemma {:induction false} EternalSplits(st: Option<Stored>, limit: int, window: int, calls: seq<int>)
    requires window > 0 && calls != []
    ensures var now := Seconds(calls[0]);
      AllowedIn(EternalRun(st, limit, window, calls)) ==
        (if Admits(st, limit, window, now) then 1 else 0)
        + AllowedIn(EternalRun(Some(Next(st, limit, window, now)), limit, window, calls[1..]))
  {
    hide Refill;
    var o := Observe(st, limit, window, calls[0]);
    assert EternalRun(st, limit, window, calls)[1..] == EternalRun(Some(o.stored), limit, window, calls[1..]);
  }

  lemma {:induction false} FirstLeavesLess(st: Option<Stored>, limit: int, window: int, now: int)
    requires limit > 0 && window > 0
    ensures var n := Next(st, limit, window, now);
      n.stamp == now && n.tokens + (if Admits(st, limit, window, now) then 1.0 else 0.0) <= limit as real
  {
  }

  /** Keys expiring as they may, any stretch of calls on one clock admits at most the limit and what the
      time between its first and its last call is worth. */
  lemma {:induction false} AdmissionBoundWithExpiry(
      st: Option<Stored>, written: int, limit: int, window: int, calls: seq<int>)
    requires limit > 0 && window > 0 && calls != [] && Ascending(calls, written)
    requires st.Some? ==> st.value.tokens >= 0.0 && st.value.stamp == Seconds(written)
    ensures AllowedIn(ExpiringRun(st, written, limit, window, calls)) as real
              <= limit as real + Earned(limit, window, Seconds(calls[|calls| - 1]) - Seconds(calls[0]))
  {
    if st.Some? {
      ExpiryIsUnobservable(st.value, written, limit, window, calls);
    } else {
      FreshExpiryIsUnobservable(limit, window, written, calls);
    }
    var now := Seconds(calls[0]);
    NoNegativeTokens(st, limit, window, now);
    FirstLeavesLess(st, limit, window, now);
    EternalSplits(st, limit, window, calls);
    hide Next; hide Admits; hide Earned; hide EternalRun; hide ExpiringRun; hide AllowedIn;
    EternalIsPaid(Next(st, limit, window, now), limit, window, calls[1..], calls[0]);
  }

  /** The reset time does show it: a call that found the keys expired always reports a later one. */
  lemma {:induction false} ResetTimeShowsExpiry(s: Stored, written: int, limit: int, window: int, millis: int)
    requires limit > 0 && window > 0 && s.tokens >= 0.0
    requires s.stamp == Seconds(written) && written + 2 * window * MILLIS <= millis
    ensures Reply(None, limit, window, Seconds(millis)).reset >=
            Reply(Some(s), limit, window, Seconds(millis)).reset + 2 * window
  {
  }
}
