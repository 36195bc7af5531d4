/**
 Candle buckets: thirteen timeframes, the bucket an instant falls in, and where
 that bucket ends.  Instants are epoch seconds unless a name says otherwise.
 */
module Timeframes {
  import opened Division
  import opened CivilDate

  datatype Timeframe =
    | S5 | S15 | S30
    | M1 | M3 | M5 | M15 | M30
    | H1 | H4
    | D1 | W1 | Month1

  const DAY := 86400
  const HOUR := 3600

  /** Nominal length; only a calendar month is not this long. */
  function Seconds(tf: Timeframe): (d: int)
    ensures 0 < d
  {
    match tf
    case S5 => 5
    case S15 => 15
    case S30 => 30
    case M1 => 60
    case M3 => 180
    case M5 => 300
    case M15 => 900
    case M30 => 1800
    case H1 => 3600
    case H4 => 14400
    case D1 => 86400
    case W1 => 604800
    case Month1 => 30 * 86400
  }

  /** Start of the bucket an instant in milliseconds belongs to. */
  function BucketStartMs(milliseconds: int, tf: Timeframe): int {
    BucketStart(milliseconds / 1000, tf)
  }

  /** Date.UTC of a day's own year, month and date. */
  function DayMidnight(day: int): int {
    var c := CivilOf(day);
    MakeDay(c.year, c.month, c.date) * DAY
  }

  function IsoDay(day: int): int {
    if WeekDay(day) == 0 then 7 else WeekDay(day)
  }

  function BucketStart(seconds: int, tf: Timeframe): int {
    var day := seconds / DAY;
    match tf
    case D1 =>
      DayMidnight(day)
    case W1 =>
      DayMidnight(day) - (IsoDay(day) - 1) * DAY
    case Month1 =>
      MonthStart(day) * DAY
    // floor(seconds / Seconds(tf)) * Seconds(tf), one constant divisor a line
    case S5 => seconds / 5 * 5
    case S15 => seconds / 15 * 15
    case S30 => seconds / 30 * 30
    case M1 => seconds / 60 * 60
    case M3 => seconds / 180 * 180
    case M5 => seconds / 300 * 300
    case M15 => seconds / 900 * 900
    case M30 => seconds / 1800 * 1800
    case H1 => seconds / 3600 * 3600
    case H4 => seconds / 14400 * 14400
  }

  /** Exclusive end of the bucket starting at `start`. */
  function BucketEnd(start: int, tf: Timeframe): int {
    if tf == Month1 then NextMonthStart(start / DAY) * DAY else start + Seconds(tf)
  }

  predicate Aligned(start: int, tf: Timeframe) {
    BucketStartMs(start * 1000, tf) == start
  }

  lemma AlignedMeans(start: int, tf: Timeframe)
    ensures Aligned(start, tf) <==> BucketStart(start, tf) == start
  {
    assert start * 1000 / 1000 == start;
  }

  // ---- Tiling -----------------------------------------------------------

  /** What makes `lo..hi` the cell of `t`: it holds `t`, and `u` is in it exactly
      when it has the same start. */
  predicate IsCell(lo: int, hi: int, t: int, u: int, startOfU: int) {
    lo <= t < hi && (lo <= u < hi <==> startOfU == lo)
  }

  lemma DivisionCell(t: int, u: int, n: int)
    requires 0 < n
    ensures IsCell(t / n * n, t / n * n + n, t, u, u / n * n)
  {
    var lo := t / n * n;
    assert t == n * (t / n) + t % n && u == n * (u / n) + u % n;
    if lo <= u < lo + n {
      DivisionIs(u, n, t / n, u - lo);
    }
  }

  predicate Fixed(tf: Timeframe) {
    !tf.W1? && !tf.Month1?
  }

  /** A fixed interval, the UTC day among them, is the epoch-aligned floor. */
  lemma FixedBucket(t: int, tf: Timeframe)
    requires Fixed(tf)
    ensures BucketStart(t, tf) == t / Seconds(tf) * Seconds(tf)
  {
    if tf == D1 { DayRoundTrip(t / DAY); }
  }

  lemma WeekBucket(t: int)
    ensures BucketStart(t, W1) == ((t / DAY + 3) / 7 * 7 - 3) * DAY
  {
    DayRoundTrip(t / DAY);
    MondayOf(t / DAY);
  }

  lemma MondayOf(day: int)
    ensures day - (IsoDay(day) - 1) == (day + 3) / 7 * 7 - 3
    ensures WeekDay((day + 3) / 7 * 7 - 3) == 1
  {
  }

  lemma DaysOfSeconds(t: int, lo: int, hi: int)
    ensures lo * DAY <= t < hi * DAY <==> lo <= t / DAY < hi
  {
  }

  lemma WeekCell(t: int, u: int)
    ensures IsCell(BucketStart(t, W1), BucketStart(t, W1) + Seconds(W1), t, u, BucketStart(u, W1))
  {
    WeekBucket(t);
    WeekBucket(u);
    var lo := (t / DAY + 3) / 7 * 7 - 3;
    DivisionCell(t / DAY + 3, u / DAY + 3, 7);
    DaysOfSeconds(t, lo, lo + 7);
    DaysOfSeconds(u, lo, lo + 7);
  }

  lemma MonthCell(t: int, u: int)
    ensures IsCell(BucketStart(t, Month1), NextMonthStart(t / DAY) * DAY, t, u, BucketStart(u, Month1))
  {
    var day := t / DAY;
    MonthInterval(day, u / DAY);
    MonthInterval(day, day);
    DaysOfSeconds(t, MonthStart(day), NextMonthStart(day));
    DaysOfSeconds(u, MonthStart(day), NextMonthStart(day));
  }

  lemma MonthEnd(t: int)
    ensures BucketEnd(BucketStart(t, Month1), Month1) == NextMonthStart(t / DAY) * DAY
  {
    var day := t / DAY;
    var lo := MonthStart(day);
    MonthInterval(day, lo);
    assert lo * DAY / DAY == lo;
    SameNextMonth(day, lo);
  }

  lemma Cell(t: int, u: int, tf: Timeframe)
    ensures IsCell(BucketStart(t, tf), BucketEnd(BucketStart(t, tf), tf), t, u, BucketStart(u, tf))
  {
    match tf
    case W1 => WeekCell(t, u);
    case Month1 =>
      MonthCell(t, u);
      MonthEnd(t);
    case _ =>
      FixedBucket(t, tf);
      FixedBucket(u, tf);
      DivisionCell(t, u, Seconds(tf));
  }

  /** Buckets tile time: each instant is inside its own bucket and no other, a
      bucket's start is aligned, and a bucket ends exactly where the next begins. */
  lemma Tiling(t: int, u: int, tf: Timeframe)
    ensures BucketStart(t, tf) <= t < BucketEnd(BucketStart(t, tf), tf)
    ensures BucketStart(u, tf) == BucketStart(t, tf)
       <==> BucketStart(t, tf) <= u < BucketEnd(BucketStart(t, tf), tf)
    ensures Aligned(BucketStart(t, tf), tf)
    ensures Aligned(BucketEnd(BucketStart(t, tf), tf), tf)
  {
    var lo := BucketStart(t, tf);
    var hi := BucketEnd(lo, tf);
    Cell(t, u, tf);
    Cell(t, lo, tf);
    AlignedMeans(lo, tf);
    AlignedMeans(hi, tf);
    // Were the bucket of `hi` to begin earlier, it would have to share `lo`.
    var p := BucketStart(hi, tf);
    Cell(hi, p, tf);
    Cell(hi, lo, tf);
    Cell(t, p, tf);
    Cell(t, hi, tf);
  }

  /** The same facts for a start already known to be aligned. */
  lemma AlignedTiling(s: int, u: int, tf: Timeframe)
    requires Aligned(s, tf)
    ensures s < BucketEnd(s, tf) && Aligned(BucketEnd(s, tf), tf)
    ensures BucketStart(u, tf) == s <==> s <= u < BucketEnd(s, tf)
    ensures Aligned(u, tf) && s < u ==> BucketEnd(s, tf) <= u
  {
    AlignedMeans(s, tf);
    AlignedMeans(u, tf);
    Tiling(s, u, tf);
  }

  lemma BucketsAscend(t: int, u: int, tf: Timeframe)
    requires t <= u
    ensures BucketStart(t, tf) <= BucketStart(u, tf)
  {
    Tiling(t, u, tf);
    Tiling(u, t, tf);
  }

  /** What the calendar buckets are: UTC days, weeks from Monday, months from the
      first; a month bucket lasts 28 to 31 days and keeps its year and month. */
  lemma CalendarBuckets(t: int)
    ensures BucketStart(t, D1) == t - t % DAY
    ensures BucketStart(t, W1) % DAY == 0 && WeekDay(BucketStart(t, W1) / DAY) == 1
    ensures BucketStart(t, Month1) % DAY == 0
    ensures CivilOf(BucketStart(t, Month1) / DAY)
         == Civil(CivilOf(t / DAY).year, CivilOf(t / DAY).month, 1)
    ensures BucketEnd(BucketStart(t, Month1), Month1) - BucketStart(t, Month1)
         == DaysInMonth(CivilOf(t / DAY).year, CivilOf(t / DAY).month) * DAY
    ensures 28 * DAY <= BucketEnd(BucketStart(t, Month1), Month1) - BucketStart(t, Month1) <= 31 * DAY
  {
    FixedBucket(t, D1);
    WeekStartsMonday(t);
    MonthBucket(t);
  }

  lemma WeekStartsMonday(t: int)
    ensures BucketStart(t, W1) % DAY == 0 && WeekDay(BucketStart(t, W1) / DAY) == 1
  {
    WeekBucket(t);
    MondayOf(t / DAY);
    MidnightOf((t / DAY + 3) / 7 * 7 - 3);
  }

  lemma MidnightOf(day: int)
    ensures day * DAY % DAY == 0 && day * DAY / DAY == day
  {
  }

  lemma MonthBucket(t: int)
    ensures BucketStart(t, Month1) % DAY == 0
    ensures CivilOf(BucketStart(t, Month1) / DAY)
         == Civil(CivilOf(t / DAY).year, CivilOf(t / DAY).month, 1)
    ensures BucketEnd(BucketStart(t, Month1), Month1) - BucketStart(t, Month1)
         == DaysInMonth(CivilOf(t / DAY).year, CivilOf(t / DAY).month) * DAY
    ensures 28 * DAY <= BucketEnd(BucketStart(t, Month1), Month1) - BucketStart(t, Month1) <= 31 * DAY
  {
    var day := t / DAY;
    MonthEnd(t);
    MonthInterval(day, day);
    MidnightOf(MonthStart(day));
    FirstOfMonth(CivilOf(day).year, CivilOf(day).month);
  }

  // ---- Nesting ----------------------------------------------------------

  /** Bucketing to `fine` first loses nothing that `coarse` needs. */
  ghost predicate Nests(fine: Timeframe, coarse: Timeframe) {
    forall t :: BucketStart(BucketStart(t, fine), coarse) == BucketStart(t, coarse)
  }

  /** The pairs that nest: a fixed interval into any interval it divides and into
      every calendar interval, a day into week and month, and each into itself. */
  predicate Divides(fine: Timeframe, coarse: Timeframe) {
    || fine == coarse
    || (Fixed(fine) && !Fixed(coarse))
    || (Fixed(fine) && Fixed(coarse) && Seconds(coarse) % Seconds(fine) == 0)
  }

  lemma WholeMultiple(s: int, n: int)
    requires 0 < n
    ensures s / n * n == s <==> s % n == 0
  {
  }

  lemma FixedAligned(s: int, tf: Timeframe)
    requires Fixed(tf)
    ensures Aligned(s, tf) <==> s % Seconds(tf) == 0
  {
    hide BucketStart, Aligned;
    AlignedMeans(s, tf);
    FixedBucket(s, tf);
    WholeMultiple(s, Seconds(tf));
  }

  lemma MultipleOfMultiple(s: int, a: int, b: int)
    requires 0 < a && 0 < b && b % a == 0 && s % b == 0
    ensures s % a == 0
  {
    var k, m := b / a, s / b;
    assert b == a * k && s == b * m;
    assert s == a * (k * m) + 0;
    DivisionIs(s, a, k * m, 0);
  }

  /** Where the pair divides, every coarse boundary is a fine boundary. */
  lemma CoarseBoundaryIsFine(s: int, fine: Timeframe, coarse: Timeframe)
    requires Divides(fine, coarse) && Aligned(s, coarse)
    ensures Aligned(s, fine)
  {
    hide BucketStart, BucketEnd, Aligned, CivilOf;
    if fine != coarse {
      FixedAligned(s, fine);
      if !Fixed(coarse) {
        AlignedMeans(s, coarse);
        CalendarBuckets(s);
        MultipleOfMultiple(s, Seconds(fine), DAY);
      } else {
        FixedAligned(s, coarse);
        MultipleOfMultiple(s, Seconds(fine), Seconds(coarse));
      }
    }
  }

  lemma NestsAt(t: int, fine: Timeframe, coarse: Timeframe)
    requires Divides(fine, coarse)
    ensures BucketStart(BucketStart(t, fine), coarse) == BucketStart(t, coarse)
  {
    var b, c := BucketStart(t, fine), BucketStart(t, coarse);
    Tiling(t, b, coarse);
    CoarseBoundaryIsFine(c, fine, coarse);
    AlignedMeans(c, fine);
    BucketsAscend(c, t, fine);
    Tiling(t, t, fine);
  }

  /** For a pair that does not divide, an instant where bucketing twice differs. */
  function Misfit(fine: Timeframe, coarse: Timeframe): int {
    if fine == W1 then 0
    else if fine == Month1 then (if coarse == W1 then -3 * DAY else DAY)
    else Seconds(coarse)
  }

  lemma DayAfterEpoch()
    ensures CivilOf(1).date == 2
  {
  }

  lemma MondayBeforeEpoch()
    ensures CivilOf(-3).date == 29
  {
  }

  lemma EpochMonth(epoch: int)
    requires epoch == 0
    ensures Aligned(epoch, Month1)
  {
  }

  lemma NotFirstOfMonth(day: int)
    requires CivilOf(day).date != 1
    ensures !Aligned(day * DAY, Month1)
  {
    AlignedMeans(day * DAY, Month1);
    MidnightOf(day);
    MonthBucket(day * DAY);
  }

  lemma WeekMisfit(epoch: int, coarse: Timeframe)
    requires epoch == 0 && coarse != W1
    ensures Aligned(epoch, coarse) && !Aligned(epoch, W1)
  {
    hide BucketStart, CivilOf, Aligned;
    AlignedMeans(epoch, W1);
    WeekBucket(epoch);
    if coarse == Month1 {
      EpochMonth(epoch);
    } else {
      FixedAligned(epoch, coarse);
    }
  }

  lemma MonthMisfit(coarse: Timeframe)
    requires coarse != Month1
    ensures Aligned(Misfit(Month1, coarse), coarse) && !Aligned(Misfit(Month1, coarse), Month1)
  {
    hide BucketStart, CivilOf, Aligned;
    var p := Misfit(Month1, coarse);
    if coarse == W1 {
      MondayBeforeEpoch();
      NotFirstOfMonth(-3);
      AlignedMeans(p, W1);
      WeekBucket(p);
    } else {
      DayAfterEpoch();
      NotFirstOfMonth(1);
      FixedAligned(p, coarse);
    }
  }

  lemma FixedMisfit(fine: Timeframe, coarse: Timeframe)
    requires !Divides(fine, coarse) && Fixed(fine)
    ensures Aligned(Seconds(coarse), coarse) && !Aligned(Seconds(coarse), fine)
  {
    FixedAligned(Seconds(coarse), fine);
    FixedAligned(Seconds(coarse), coarse);
  }

  /** Bucketing finely and then coarsely equals bucketing coarsely, at every
      instant, exactly for the pairs that divide. */
  lemma Nesting(fine: Timeframe, coarse: Timeframe)
    ensures Nests(fine, coarse) <==> Divides(fine, coarse)
  {
    hide BucketStart, BucketEnd, Aligned;
    if Divides(fine, coarse) {
      forall t
        ensures BucketStart(BucketStart(t, fine), coarse) == BucketStart(t, coarse)
      {
        NestsAt(t, fine, coarse);
      }
    } else {
      var p := Misfit(fine, coarse);
      match fine {
        case W1 => WeekMisfit(0, coarse);
        case Month1 => MonthMisfit(coarse);
        case _ => FixedMisfit(fine, coarse);
      }
      AlignedMeans(p, fine);
      AlignedMeans(p, coarse);
      Tiling(p, p, fine);
      Tiling(BucketStart(p, fine), p, coarse);
      assert BucketStart(BucketStart(p, fine), coarse) != BucketStart(p, coarse);
    }
  }
}
