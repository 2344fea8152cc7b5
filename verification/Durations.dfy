/** Durations in nanoseconds, and their conversion to whole seconds. */
module Durations {
  const SECOND := 1_000_000_000

  /** int64(d.Seconds()): truncated toward zero. */
  function WholeSeconds(d: int): int { if d >= 0 then d / SECOND else -(-d / SECOND) }

  /** The number of whole seconds a duration of either sign holds. */
  lemma {:induction false} WholeSecondsFit(d: int)
    ensures var s := WholeSeconds(d);
      if d >= 0 then 1_000_000_000 * s <= d < 1_000_000_000 * (s + 1)
      else 1_000_000_000 * (s - 1) < d <= 1_000_000_000 * s
  {
  }
}
