/** Instants are whole minutes since 2021-10-01 00:00 UTC. Local time is taken to be
    UTC (a zero fixed offset), so a local day is a run of 1440 minutes. */
module Instants {

  const MinutesPerDay: int := 1440

  /** `.date()`: the Gregorian day number (days since 2021-10-01) an instant falls on. */
  function DateOf(t: int): (d: int)
    ensures d * MinutesPerDay <= t < (d + 1) * MinutesPerDay
  {
    t / MinutesPerDay
  }

  /** Midnight at the start of the local day holding `t`. */
  function StartOfLocalDay(t: int): (r: int)
    ensures r <= t < r + MinutesPerDay
    ensures r % MinutesPerDay == 0
    ensures DateOf(r) == DateOf(t)
  {
    t - t % MinutesPerDay
  }

  /** Two instants share a date exactly when they share the start of their local day. */
  lemma SameDateIffSameStartOfDay(t1: int, t2: int)
    ensures DateOf(t1) == DateOf(t2) <==> StartOfLocalDay(t1) == StartOfLocalDay(t2)
  {
  }
}
