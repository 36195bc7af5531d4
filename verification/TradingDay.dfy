/** Where one trading day ends and the next begins, on instants in milliseconds. */
module TradingDay {
  import opened Division
  import opened CivilDate
  import opened Timeframes

  const DAY_MS := 86400000

  /** The UTC calendar day of an instant. */
  function TradingDayOf(now: int): Civil {
    CivilOf(now / DAY_MS)
  }

  /** Rolls a copy of the date back to midnight and on by one date: the result is
      the end of the 1D candle bucket `now` falls in, at most a day away, and a
      date past the end of its month rolls into the next. */
  method NextResetAt(now: int) returns (next: int)
    ensures next == BucketEnd(BucketStartMs(now, D1), D1) * 1000
    ensures now < next <= now + DAY_MS
    ensures TradingDayOf(now) == CivilOf(BucketStartMs(now, D1) / DAY)
  {
    hide BucketStart, CivilOf, DayFromYear;
    next := now;
    next := next / DAY_MS * DAY_MS;
    var c := CivilOf(next / DAY_MS);
    next := MakeDay(c.year, c.month, c.date + 1) * DAY_MS + next % DAY_MS;
    ResetDay(now);
  }

  lemma ResetDay(now: int)
    ensures now / DAY_MS * DAY_MS / DAY_MS == now / DAY_MS && now / DAY_MS * DAY_MS % DAY_MS == 0
    ensures BucketStartMs(now, D1) == now / DAY_MS * DAY && BucketStartMs(now, D1) / DAY == now / DAY_MS
    ensures var c := CivilOf(now / DAY_MS); MakeDay(c.year, c.month, c.date + 1) == now / DAY_MS + 1
  {
    hide BucketStart, CivilOf, MakeDay;
    var day := now / DAY_MS;
    assert now == DAY_MS * day + now % DAY_MS;
    SecondsOfDay(now);
    DivisionIs(now / 1000, DAY, day, now % DAY_MS / 1000);
    FixedBucket(now / 1000, D1);
    DayRoundTrip(day);
    var c := CivilOf(day);
    DateOffset(c.year, c.month, c.date);
    DateOffset(c.year, c.month, c.date + 1);
  }

  lemma SecondsOfDay(now: int)
    ensures now / 1000 == DAY * (now / DAY_MS) + now % DAY_MS / 1000
    ensures 0 <= now % DAY_MS / 1000 < DAY
  {
  }

  method MillisecondsUntilReset(now: int) returns (remaining: int)
    ensures 0 < remaining <= DAY_MS
    ensures (now + remaining) % DAY_MS == 0
  {
    var next := NextResetAt(now);
    remaining := if 0 > next - now then 0 else next - now;
    ResetDay(now);
    BoundaryIsMidnight(now);
  }

  lemma BoundaryIsMidnight(now: int)
    ensures BucketEnd(BucketStartMs(now, D1), D1) * 1000 % DAY_MS == 0
  {
    hide BucketStart;
    ResetDay(now);
    DivisionIs(BucketEnd(BucketStartMs(now, D1), D1) * 1000, DAY_MS, now / DAY_MS + 1, 0);
  }

  /** Two instants are on the same trading day exactly when they share a 1D bucket. */
  lemma TradingDayIsBucket(a: int, b: int)
    ensures TradingDayOf(a) == TradingDayOf(b) <==> BucketStartMs(a, D1) == BucketStartMs(b, D1)
  {
    hide BucketStart, CivilOf, MakeDay;
    ResetDay(a);
    ResetDay(b);
    DayRoundTrip(a / DAY_MS);
    DayRoundTrip(b / DAY_MS);
  }
}
