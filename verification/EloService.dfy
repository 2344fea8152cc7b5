/** ELO arithmetic over exact reals. The expected score, a power of ten in the source, is an input
    between 0 and 1 here. */
module EloService {

  const DEFAULT_K := 32.0

  datatype Ratings = Ratings(new1: int, new2: int, change1: int, change2: int)

  /** math.Round: to the nearest integer, halves away from zero. */
  function Round(x: real): int {
    if x >= 0.0 then (x + 0.5).Floor else -((0.5 - x).Floor)
  }

  /** K-factors are whole numbers of points. */
  function KPoints(matchCount: int): int { if matchCount < 10 then 40 else if matchCount < 20 then 32 else 24 }

  function GetKFactor(matchCount: int): real { KPoints(matchCount) as real }

  function WithKFactors(elo1: int, elo2: int, k1: real, k2: real, result: real, expected1: real): Ratings {
    var new1 := Round(elo1 as real + k1 * (result - expected1));
    var new2 := Round(elo2 as real + k2 * ((1.0 - result) - (1.0 - expected1)));
    Ratings(new1, new2, new1 - elo1, new2 - elo2)
  }

  function CalculateNewRatings(elo1: int, elo2: int, result: real, expected1: real): Ratings {
    WithKFactors(elo1, elo2, DEFAULT_K, DEFAULT_K, result, expected1)
  }

  function CalculateNewRatingsWithMatchCounts(
      elo1: int, elo2: int, matches1: int, matches2: int, result: real, expected1: real): Ratings
  {
    WithKFactors(elo1, elo2, GetKFactor(matches1), GetKFactor(matches2), result, expected1)
  }

  // ---- rounding ----

  /** The change of a rating when d points are due. */
  function Change(elo: int, d: real): int { Round(elo as real + d) - elo }

  lemma {:induction false} ChangeNear(elo: int, d: real)
    ensures d - 0.5 <= Change(elo, d) as real <= d + 0.5
  {
  }

  lemma {:induction false} ChangesOfShares(elo1: int, elo2: int, k1: real, k2: real, result: real, expected1: real)
    ensures var r, share := WithKFactors(elo1, elo2, k1, k2, result, expected1), result - expected1;
      r.change1 == Change(elo1, k1 * share) && r.change2 == Change(elo2, k2 * -share)
  {
    hide Round;
    assert (1.0 - result) - (1.0 - expected1) == -(result - expected1);
  }

  lemma {:induction false} ChangesOfShare(
      elo1: int, elo2: int, k1: real, k2: real, result: real, expected1: real, share: real, back: real)
    requires share == result - expected1 && back == expected1 - result
    ensures var r := WithKFactors(elo1, elo2, k1, k2, result, expected1);
      r.change1 == Change(elo1, k1 * share) && r.change2 == Change(elo2, k2 * back)
  {
    hide Change; hide WithKFactors;
    ChangesOfShares(elo1, elo2, k1, k2, result, expected1);
    SameChange(elo1, k1 * share, k1 * (result - expected1));
    SameChange(elo2, k2 * back, k2 * -(result - expected1));
  }

  lemma {:induction false} SameChange(elo: int, d: real, d': real)
    requires d == d'
    ensures Change(elo, d) == Change(elo, d')
  {
  }

  // ---- bounds ----

  predicate IsResult(result: real) { result == 0.0 || result == 0.5 || result == 1.0 }

  /** Between two whole numbers of points due the change stays between them. */
  lemma {:induction false} ChangeBetween(elo: int, lo: int, d: real, hi: int)
    requires lo as real <= d <= hi as real
    ensures lo <= Change(elo, d) <= hi
  {
  }

  /** A share between lo and hi of a K-factor is between as many times the points. */
  lemma {:induction false} SharePoints(k: int, share: real, lo: int, hi: int)
    requires 0 <= k && lo as real <= share <= hi as real
    ensures (lo * k) as real <= k as real * share <= (hi * k) as real
  {
    assert k as real * (share - lo as real) >= 0.0 && k as real * (hi as real - share) >= 0.0;
    assert (lo * k) as real == k as real * lo as real && (hi * k) as real == k as real * hi as real;
  }

  /** No match moves a rating by more than the agent's K-factor, a winner never loses points and a
      loser never gains any. */
  lemma {:induction false} ChangesAreBounded(
      elo1: int, elo2: int, matches1: int, matches2: int, result: real, expected1: real)
    requires IsResult(result) && 0.0 <= expected1 <= 1.0
    ensures var r := CalculateNewRatingsWithMatchCounts(elo1, elo2, matches1, matches2, result, expected1);
      && -KPoints(matches1) <= r.change1 <= KPoints(matches1)
      && -KPoints(matches2) <= r.change2 <= KPoints(matches2)
      && (result == 1.0 ==> r.change1 >= 0 && r.change2 <= 0)
      && (result == 0.0 ==> r.change1 <= 0 && r.change2 >= 0)
      && r.new1 == elo1 + r.change1 && r.new2 == elo2 + r.change2
  {
    var k1, k2, share := KPoints(matches1), KPoints(matches2), result - expected1;
    hide Change; hide Round;
    ChangesOfShares(elo1, elo2, k1 as real, k2 as real, result, expected1);
    ChangeOfShare(elo1, k1, share);
    ChangeOfShare(elo2, k2, -share);
  }

  lemma {:induction false} ChangeOfShare(elo: int, k: int, share: real)
    requires 0 <= k && -1.0 <= share <= 1.0
    ensures -k <= Change(elo, k as real * share) <= k
    ensures share >= 0.0 ==> Change(elo, k as real * share) >= 0
    ensures share <= 0.0 ==> Change(elo, k as real * share) <= 0
  {
    hide Change;
    var lo, hi := if share >= 0.0 then 0 else -1, if share <= 0.0 then 0 else 1;
    SharePoints(k, share, lo, hi);
    ChangeBetween(elo, lo * k, k as real * share, hi * k);
  }

  /** Who scores at least what was expected does not fall, and the other does not rise. */
  lemma {:induction false} ChangesFollowShare(
      elo1: int, elo2: int, matches1: int, matches2: int, result: real, expected1: real)
    requires -1.0 <= result - expected1 <= 1.0
    ensures var r := CalculateNewRatingsWithMatchCounts(elo1, elo2, matches1, matches2, result, expected1);
      && (result >= expected1 ==> r.change1 >= 0 && r.change2 <= 0)
      && (result <= expected1 ==> r.change1 <= 0 && r.change2 >= 0)
  {
    hide Change; hide WithKFactors;
    KPointsOfFactor(matches1);
    KPointsOfFactor(matches2);
    hide GetKFactor; hide KPoints;
    FollowShare(elo1, elo2, KPoints(matches1), KPoints(matches2), result, expected1);
  }

  lemma {:induction false} KPointsOfFactor(matches: int)
    ensures GetKFactor(matches) == KPoints(matches) as real && KPoints(matches) >= 0
  {
  }

  lemma {:induction false} FollowShare(elo1: int, elo2: int, k1: int, k2: int, result: real, expected1: real)
    requires -1.0 <= result - expected1 <= 1.0 && 0 <= k1 && 0 <= k2
    ensures var r := WithKFactors(elo1, elo2, k1 as real, k2 as real, result, expected1);
      && (result >= expected1 ==> r.change1 >= 0 && r.change2 <= 0)
      && (result <= expected1 ==> r.change1 <= 0 && r.change2 >= 0)
  {
    hide Change; hide WithKFactors;
    var share, back := result - expected1, expected1 - result;
    ChangesOfShare(elo1, elo2, k1 as real, k2 as real, result, expected1, share, back);
    ChangeOfShare(elo1, k1, share);
    ChangeOfShare(elo2, k2, back);
  }

  function Abs(x: int): int { if x < 0 then -x else x }

  /** What one agent gains the other all but loses: the changes sum to at most the difference of the
      K-factors and one more for the rounding. */
  lemma {:induction false} ChangesNearlyCancel(
      elo1: int, elo2: int, matches1: int, matches2: int, result: real, expected1: real)
    requires IsResult(result) && 0.0 <= expected1 <= 1.0
    ensures var r := CalculateNewRatingsWithMatchCounts(elo1, elo2, matches1, matches2, result, expected1);
      Abs(r.change1 + r.change2) <= Abs(KPoints(matches1) - KPoints(matches2)) + 1
  {
    var k1, k2, share := KPoints(matches1), KPoints(matches2), result - expected1;
    hide Change; hide WithKFactors;
    assert -1.0 <= share <= 1.0;
    assert GetKFactor(matches1) == k1 as real && GetKFactor(matches2) == k2 as real;
    ChangesOfShares(elo1, elo2, k1 as real, k2 as real, result, expected1);
    SharesCancel(elo1, elo2, k1, k2, share);
  }

  lemma {:induction false} SharesCancel(elo1: int, elo2: int, k1: int, k2: int, share: real)
    requires -1.0 <= share <= 1.0
    ensures Abs(Change(elo1, k1 as real * share) + Change(elo2, k2 as real * -share)) <= Abs(k1 - k2) + 1
  {
    hide Change;
    ChangeNear(elo1, k1 as real * share);
    ChangeNear(elo2, k2 as real * -share);
    assert k1 as real * share + k2 as real * -share == (k1 - k2) as real * share;
    if k1 >= k2 { SharePoints(k1 - k2, share, -1, 1); } else { SharePoints(k2 - k1, -share, -1, 1); }
  }

  /** Points due that are exactly half a point. */
  predicate IsHalf(d: real) { (d + 0.5).Floor as real == d + 0.5 }

  /** What the rounding of two new ratings adds to a sum of zero: halves go away from zero on each side. */
  function HalvesMade(new1: real, new2: real): int {
    if new1 >= 0.0 && new2 >= 0.0 then 1 else if new1 < 0.0 && new2 < 0.0 then -1 else 0
  }

  /** Between equal K-factors rating points are made or lost only when exactly half a point is due and
      both new ratings, before any clamping, have the same sign. */
  lemma {:induction false} EqualKFactorsZeroSumExactlyWhen(
      elo1: int, elo2: int, k: real, result: real, expected1: real)
    ensures var r, d := WithKFactors(elo1, elo2, k, k, result, expected1), k * (result - expected1);
      r.change1 + r.change2 == if IsHalf(d) then HalvesMade(elo1 as real + d, elo2 as real - d) else 0
  {
    var d := k * (result - expected1);
    ChangesOfShares(elo1, elo2, k, k, result, expected1);
    assert k * -(result - expected1) == -d;
    hide WithKFactors;
    RoundedChange(elo1, d);
    RoundedChange(elo2, -d);
    FloorsMeet(d);
  }

  /** So it is for the service's default K-factor. */
  lemma {:induction false} DefaultZeroSumExactlyWhen(elo1: int, elo2: int, result: real, expected1: real)
    ensures var r, d := CalculateNewRatings(elo1, elo2, result, expected1), DEFAULT_K * (result - expected1);
      r.change1 + r.change2 == if IsHalf(d) then HalvesMade(elo1 as real + d, elo2 as real - d) else 0
  {
    EqualKFactorsZeroSumExactlyWhen(elo1, elo2, DEFAULT_K, result, expected1);
    hide WithKFactors; hide IsHalf;
  }

  lemma {:induction false} RoundedChange(elo: int, d: real)
    ensures Change(elo, d) == if elo as real + d >= 0.0 then (d + 0.5).Floor else -((-d + 0.5).Floor)
  {
  }

  lemma {:induction false} FloorsMeet(d: real)
    ensures (d + 0.5).Floor + (-d + 0.5).Floor == if IsHalf(d) then 1 else 0
    ensures IsHalf(-d) == IsHalf(d)
  {
  }

  /** Equal players who draw keep their ratings. */
  lemma {:induction false} EqualDrawChangesNothing(elo: int, matches1: int, matches2: int)
    ensures CalculateNewRatingsWithMatchCounts(elo, elo, matches1, matches2, 0.5, 0.5) == Ratings(elo, elo, 0, 0)
  {
  }

  // ---- what is due ----

  /** A change is what is due, rounded: K-factor times the points scored beyond the expected ones. */
  lemma {:induction false} ChangesAreDue(
      elo1: int, elo2: int, matches1: int, matches2: int, result: real, expected1: real)
    ensures var r := CalculateNewRatingsWithMatchCounts(elo1, elo2, matches1, matches2, result, expected1);
      var k1 := if matches1 < 10 then 40.0 else if matches1 < 20 then 32.0 else 24.0;
      var k2 := if matches2 < 10 then 40.0 else if matches2 < 20 then 32.0 else 24.0;
      && k1 * (result - expected1) - 0.5 <= r.change1 as real <= k1 * (result - expected1) + 0.5
      && k2 * (expected1 - result) - 0.5 <= r.change2 as real <= k2 * (expected1 - result) + 0.5
  {
    hide Change; hide WithKFactors;
    KFactorIs(matches1);
    KFactorIs(matches2);
    hide GetKFactor;
    DueFrom(elo1, elo2, GetKFactor(matches1), GetKFactor(matches2), result, expected1);
  }

  lemma {:induction false} KFactorIs(matches: int)
    ensures GetKFactor(matches) == if matches < 10 then 40.0 else if matches < 20 then 32.0 else 24.0
  {
  }

  lemma {:induction false} DueFrom(elo1: int, elo2: int, k1: real, k2: real, result: real, expected1: real)
    ensures var r := WithKFactors(elo1, elo2, k1, k2, result, expected1);
      && k1 * (result - expected1) - 0.5 <= r.change1 as real <= k1 * (result - expected1) + 0.5
      && k2 * (expected1 - result) - 0.5 <= r.change2 as real <= k2 * (expected1 - result) + 0.5
  {
    var share := result - expected1;
    ChangesOfShares(elo1, elo2, k1, k2, result, expected1);
    assert -share == expected1 - result;
    hide Change; hide WithKFactors;
    ChangeNear(elo1, k1 * share);
    ChangeNear(elo2, k2 * -share);
  }

  /** A win among equals is worth half the K-factor: 20, 16 or 12 points, and 16 by default. */
  lemma {:induction false} WinAmongEquals(elo: int, matches: int)
    ensures var points := if matches < 10 then 20 else if matches < 20 then 16 else 12;
      CalculateNewRatingsWithMatchCounts(elo, elo, matches, matches, 1.0, 0.5) ==
      Ratings(elo + points, elo - points, points, -points)
    ensures CalculateNewRatings(elo, elo, 1.0, 0.5) == Ratings(elo + 16, elo - 16, 16, -16)
  {
  }
}
