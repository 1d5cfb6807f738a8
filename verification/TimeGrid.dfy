/** Instants are microseconds since 1970-01-01 UTC, so hour and day boundaries are
    the multiples of HOUR and DAY (zerver/lib/timestamp.py). */
module TimeGrid {
  const MINUTE := 60_000_000
  const HOUR := 3_600_000_000
  const DAY := 86_400_000_000

  datatype Frequency = Hour | Day {
    function Step(): (step: int)
      ensures HOUR <= step
    {
      match this
      case Hour => HOUR
      case Day => DAY
    }
  }

  predicate OnGrid(t: int, f: Frequency) {
    match f
    case Hour => t / HOUR * HOUR == t
    case Day => t / DAY * DAY == t
  }

  /** floor_to_hour, floor_to_day: the greatest grid point that is not after t. */
  function Floor(t: int, f: Frequency): (g: int)
    ensures OnGrid(g, f) && g <= t < g + f.Step()
  {
    match f
    case Hour => t / HOUR * HOUR
    case Day => t / DAY * DAY
  }

  /** ceiling_to_hour, ceiling_to_day: the least grid point that is not before t. */
  function Ceiling(t: int, f: Frequency): (g: int)
    ensures OnGrid(g, f) && g - f.Step() < t <= g
  {
    var floor := Floor(t, f);
    if floor == t then floor else floor + f.Step()
  }

  lemma Units()
    ensures MINUTE == 60 * 1_000_000 && HOUR == 60 * MINUTE && DAY == 24 * HOUR
  {
  }

  lemma GridIsMultiples(t: int)
    ensures OnGrid(t, Hour) <==> t % HOUR == 0
    ensures OnGrid(t, Day) <==> t % DAY == 0
  {
  }

  lemma HourMultiple(q: int)
    ensures q * HOUR / HOUR == q
  {
  }

  lemma DayMultiple(q: int)
    ensures q * DAY / DAY == q
  {
  }

  lemma GridGap(t: int, u: int, f: Frequency)
    requires OnGrid(t, f) && OnGrid(u, f) && t < u
    ensures t + f.Step() <= u
  {
    match f
    case Hour => assert t / HOUR < u / HOUR;
    case Day => assert t / DAY < u / DAY;
  }

  lemma GridStep(t: int, f: Frequency)
    requires OnGrid(t, f)
    ensures OnGrid(t + f.Step(), f) && OnGrid(t - f.Step(), f)
  {
    match f
    case Hour => HourMultiple(t / HOUR + 1); HourMultiple(t / HOUR - 1);
    case Day => DayMultiple(t / DAY + 1); DayMultiple(t / DAY - 1);
  }

  lemma DayIsOnHourGrid(t: int, f: Frequency)
    requires OnGrid(t, Day)
    ensures OnGrid(t, f)
  {
    HourMultiple(t / DAY * 24);
  }

  /** Whatever lies on the grid and not after t is not after Floor(t) either; dually for Ceiling. */
  lemma FloorAndCeilingAreTight(t: int, g: int, f: Frequency)
    requires OnGrid(g, f)
    ensures g <= t <==> g <= Floor(t, f)
    ensures t <= g <==> Ceiling(t, f) <= g
  {
    if g > Floor(t, f) { GridGap(Floor(t, f), g, f); }
    if g < Ceiling(t, f) { GridGap(g, Ceiling(t, f), f); }
  }
}
