/**
 The spot-FX trading week, kept in New York local time.

 `offset` gives New York's distance from UTC, in whole hours, for each UTC hour
 counted from the epoch: its two values are -5 and -4, and it changes only on the
 hour.  Which hours have which value is left open.
 */
module MarketSession {
  import opened Division
  import opened CivilDate
  import opened Timeframes

  type Offset = int -> int

  ghost predicate NewYork(offset: Offset) {
    forall h :: -5 <= offset(h) <= -4
  }

  const ROLLOVER_HOUR := 17

  /** Hours of New York local time since its own 1970-01-01T00:00. */
  function LocalHour(t: int, offset: Offset): int {
    t / HOUR + offset(t / HOUR)
  }

  function LocalWeekday(t: int, offset: Offset): int {
    (LocalHour(t, offset) / 24 + 4) % 7
  }

  predicate IsWithinWeeklyClosure(t: int, offset: Offset) {
    var weekday, hour := LocalWeekday(t, offset), LocalHour(t, offset) % 24;
    || weekday == 6
    || (weekday == 5 && hour >= ROLLOVER_HOUR)
    || (weekday == 0 && hour < ROLLOVER_HOUR)
  }

  /** The closure is the 48 hours of each local week from Friday 17:00, which is
      41 hours into a week that starts on a Thursday. */
  lemma ClosureIsTheWeekend(t: int, offset: Offset)
    ensures IsWithinWeeklyClosure(t, offset) <==> (LocalHour(t, offset) - 41) % 168 < 48
  {
    var local := LocalHour(t, offset);
    var week, rest := (local - 41) / 168, (local - 41) % 168;
    var dayInto, hour := (rest + 41) / 24, (rest + 41) % 24;
    DivisionIs(local, 24, 7 * week + dayInto, hour);
    var weekday := (dayInto + 4) % 7;
    DivisionIs(7 * week + dayInto + 4, 7, week + (dayInto + 4) / 7, weekday);
  }

  /** In UTC: the 48 hours from Friday 22:00 while New York is five hours behind, and from Friday
      21:00 while it is four. */
  lemma ClosureInUtc(t: int, offset: Offset)
    requires NewYork(offset)
    ensures IsWithinWeeklyClosure(t, offset) <==>
      (t / HOUR - (if offset(t / HOUR) == -5 then 24 + 22 else 24 + 21)) % 168 < 48
  {
    ClosureIsTheWeekend(t, offset);
    hide IsWithinWeeklyClosure;
  }

  ghost predicate AllClosed(from: int, to: int, offset: Offset) {
    forall t :: from <= t < to ==> IsWithinWeeklyClosure(t, offset)
  }

  /** Once an hour is sampled closed, so is each second of it. */
  lemma SampledHour(from: int, to: int, instant: int, offset: Offset)
    requires forall t :: from <= t < to && t / HOUR < instant / HOUR ==> IsWithinWeeklyClosure(t, offset)
    requires IsWithinWeeklyClosure(instant, offset)
    ensures (instant + HOUR) / HOUR == instant / HOUR + 1
    ensures forall t :: from <= t < to && t / HOUR < (instant + HOUR) / HOUR ==> IsWithinWeeklyClosure(t, offset)
  {
  }

  /** The hours up to a probe past the end, and the last second, cover everything. */
  lemma SamplesCover(from: int, to: int, instant: int, offset: Offset)
    requires from < to <= instant
    requires forall t :: from <= t < to && t / HOUR < instant / HOUR ==> IsWithinWeeklyClosure(t, offset)
    ensures IsWithinWeeklyClosure(to - 1, offset) <==> AllClosed(from, to, offset)
  {
  }

  /** Probing once an hour and at the last second misses nothing: the answer is yes
      exactly when each second of the interval is closed, however it is aligned. */
  method SpansOnlyClosedMarket(from: int, to: int, offset: Offset) returns (closed: bool)
    ensures closed <==> from < to && AllClosed(from, to, offset)
  {
    hide IsWithinWeeklyClosure;
    if to <= from { return false; }
    var instant := from;
    while instant < to
      invariant from <= instant
      invariant forall t :: from <= t < to && t / HOUR < instant / HOUR ==> IsWithinWeeklyClosure(t, offset)
    {
      if !IsWithinWeeklyClosure(instant, offset) { return false; }
      SampledHour(from, to, instant, offset);
      instant := instant + HOUR;
    }
    SamplesCover(from, to, instant, offset);
    return IsWithinWeeklyClosure(to - 1, offset);
  }

  /** Wednesday noon in UTC is a trading hour in New York at either offset. */
  lemma WednesdayTrades(t: int, offset: Offset)
    requires NewYork(offset) && (t / HOUR) % 168 == 6 * 24 + 12
    ensures !IsWithinWeeklyClosure(t, offset)
  {
  }

  /** Any 168 hours from an hour mark include a Wednesday noon. */
  lemma LongBarTrades(start: int, tf: Timeframe, offset: Offset)
    requires !Fixed(tf)
    ensures NewYork(offset) && Aligned(start, tf) ==> !AllClosed(start, BucketEnd(start, tf), offset)
  {
    hide IsWithinWeeklyClosure, BucketEnd, Aligned;
    if NewYork(offset) && Aligned(start, tf) {
      LongBarLength(start, tf);
      var h := start / HOUR;
      var wait := (156 - h) % 168;
      var noon := (h + wait) * HOUR;
      WaitForNoon(h);
      assert noon / HOUR == h + wait;
      WednesdayTrades(noon, offset);
    }
  }

  lemma WaitForNoon(h: int)
    ensures (h + (156 - h) % 168) % 168 == 156
  {
  }

  lemma LongBarLength(start: int, tf: Timeframe)
    requires !Fixed(tf) && Aligned(start, tf)
    ensures start % HOUR == 0 && start + 168 * HOUR <= BucketEnd(start, tf)
  {
    hide BucketStart, Aligned, NextMonthStart, CivilOf;
    AlignedMeans(start, tf);
    CalendarBuckets(start);
    MidnightIsOnTheHour(start);
  }

  lemma MidnightIsOnTheHour(t: int)
    requires t % DAY == 0
    ensures t % HOUR == 0
  {
  }

  datatype BarSessionState = Regular | OutOfSession

  /** A bar is out of session exactly when the market is shut for every second it
      covers.  Weekly and monthly bars, which the code never examines, obey the same
      rule, because New York always trades within a week. */
  method ClassifyBarSession(startTime: int, tf: Timeframe, offset: Offset) returns (state: BarSessionState)
    ensures Fixed(tf) ==>
      (state == OutOfSession <==> AllClosed(startTime, BucketEnd(startTime, tf), offset))
    ensures NewYork(offset) && Aligned(startTime, tf) ==>
      (state == OutOfSession <==> AllClosed(startTime, BucketEnd(startTime, tf), offset))
  {
    hide IsWithinWeeklyClosure, Aligned;
    if tf == W1 || tf == Month1 {
      LongBarTrades(startTime, tf, offset);
      return Regular;
    }
    var end := BucketEnd(startTime, tf);
    var instant := startTime;
    while instant < end
      invariant startTime <= instant
      invariant forall t :: startTime <= t < end && t / HOUR < instant / HOUR ==> IsWithinWeeklyClosure(t, offset)
    {
      if !IsWithinWeeklyClosure(instant, offset) { return Regular; }
      SampledHour(startTime, end, instant, offset);
      instant := instant + HOUR;
    }
    SamplesCover(startTime, end, instant, offset);
    var last := if end - 1 > startTime then end - 1 else startTime;
    return if IsWithinWeeklyClosure(last, offset) then OutOfSession else Regular;
  }
}
