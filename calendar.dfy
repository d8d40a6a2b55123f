/** Calendar arithmetic on timestamps counted in whole seconds. */
module Calendar {

  const MINUTE: int := 60
  const DAY: int := 86400

  /**
   * The properties the local calendar's day boundary is relied on to have:
   * every instant lies in the day that starts at its start of day, and the
   * start of a day is its own start of day.
   */
  ghost predicate IsStartOfDay(startOfDay: int -> int)
  {
    && (forall t :: startOfDay(t) <= t < startOfDay(t) + DAY)
    && (forall t {:trigger startOfDay(startOfDay(t))} :: startOfDay(startOfDay(t)) == startOfDay(t))
  }

  /** Day boundaries of a calendar fixed at UTC: one function meeting IsStartOfDay. */
  function UtcStartOfDay(t: int): int
  {
    t - t % DAY
  }

  lemma UtcStartOfDayIsStartOfDay()
    ensures IsStartOfDay(UtcStartOfDay)
  {
    forall t ensures UtcStartOfDay(UtcStartOfDay(t)) == UtcStartOfDay(t) {
      var s := UtcStartOfDay(t);
      assert s % DAY == 0;
    }
  }

  /**
   * The instant at which the year/month/day/hour/minute components of `t`
   * begin: `t` with its seconds dropped.
   */
  function TruncateToMinute(t: int): (r: int)
    ensures r % MINUTE == 0
    ensures r <= t < r + MINUTE
  {
    t - t % MINUTE
  }

  /** The minute truncation is the only whole minute in the 60 seconds ending at `t`. */
  lemma TruncateToMinuteUnique(t: int, m: int)
    requires m % MINUTE == 0 && m <= t < m + MINUTE
    ensures m == TruncateToMinute(t)
  {
    var r := TruncateToMinute(t);
    assert (m - r) % MINUTE == 0;
  }
}
