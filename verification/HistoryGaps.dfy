/** What a missing bucket means: finding and classifying the holes of a series. */
module HistoryGaps {
  import opened Division
  import opened Options
  import opened CivilDate
  import opened Timeframes
  import opened MarketCandles
  import opened MarketSession

  datatype GapKind = ExpectedSession | Recoverable | ProviderData | Unrecoverable

  datatype Gap = Gap(from: int, to: int, kind: GapKind)

  datatype Setup = Setup(
    timeframe: Timeframe,
    providerCanRepair: bool,
    providerEarliest: Option<int>,
    offset: Offset)

  datatype Summary = Summary(
    gaps: seq<Gap>,
    expectedSession: nat,
    recoverable: nat,
    providerData: nat,
    unrecoverable: nat,
    unexpected: int)

  // ---- Kinds ------------------------------------------------------------

  predicate IsWeekend(day: int) {
    WeekDay(day) == 0 || WeekDay(day) == 6
  }

  /** Each probe, a day apart from the start of the hole, is on a weekend day. */
  ghost predicate WeekendProbes(from: int, to: int) {
    forall i: nat :: from + i * DAY < to ==> IsWeekend((from + i * DAY) / DAY)
  }

  method SpansOnlyWeekendDays(from: int, to: int) returns (weekend: bool)
    ensures weekend <==> from < to && WeekendProbes(from, to)
  {
    if to <= from { return false; }
    var instant := from;
    ghost var n: nat := 0;
    while instant < to
      invariant instant == from + n * DAY
      invariant forall i: nat :: i < n ==> IsWeekend((from + i * DAY) / DAY)
    {
      if !IsWeekend(instant / DAY) { return false; }
      instant := instant + DAY;
      n := n + 1;
    }
    return true;
  }

  ghost predicate WeekendSeconds(from: int, to: int) {
    forall t :: from <= t < to ==> IsWeekend(t / DAY)
  }

  /** The daily probes and the last second together speak for every second, wherever the
      hole starts. */
  lemma WeekendExactly(from: int, to: int)
    requires from < to
    ensures WeekendSeconds(from, to) <==> WeekendProbes(from, to) && IsWeekend((to - 1) / DAY)
  {
    hide IsWeekend;
    if WeekendSeconds(from, to) {
      forall i: nat | from + i * DAY < to ensures IsWeekend((from + i * DAY) / DAY) {
        assert from <= from + i * DAY < to;
      }
    } else if WeekendProbes(from, to) {
      var t :| from <= t < to && !IsWeekend(t / DAY);
      SameDayAsProbe(from, to, t);
    }
  }

  /** Each second is on the day of the probe before it, of the next, or of the end. */
  lemma SameDayAsProbe(from: int, to: int, t: int)
    requires from <= t < to
    ensures var i: nat := (t - from) / DAY;
      && from + i * DAY <= t
      && (t / DAY == (from + i * DAY) / DAY
          || (from + (i + 1) * DAY < to && t / DAY == (from + (i + 1) * DAY) / DAY)
          || t / DAY == (to - 1) / DAY)
  {
    var i: nat := (t - from) / DAY;
    assert t - from == DAY * i + (t - from) % DAY;
    assert from == DAY * (from / DAY) + from % DAY;
    var rest := from % DAY + (t - from) % DAY;
    if rest < DAY {
      DivisionIs(t, DAY, from / DAY + i, rest);
      DivisionIs(from + i * DAY, DAY, from / DAY + i, from % DAY);
    } else {
      DivisionIs(t, DAY, from / DAY + i + 1, rest - DAY);
      DivisionIs(from + (i + 1) * DAY, DAY, from / DAY + i + 1, from % DAY);
      if to <= from + (i + 1) * DAY {
        DivisionIs(to - 1, DAY, from / DAY + i + 1, to - 1 - DAY * (from / DAY + i + 1));
      }
    }
  }

  /** So the probes alone are right exactly when they say no or the last second is a
      weekend's; and for a hole that starts at midnight they always are. */
  lemma ProbesRight(from: int, to: int)
    requires from < to
    ensures (WeekendProbes(from, to) <==> WeekendSeconds(from, to)) <==>
      !WeekendProbes(from, to) || IsWeekend((to - 1) / DAY)
    ensures from % DAY == 0 ==> (WeekendProbes(from, to) <==> WeekendSeconds(from, to))
  {
    WeekendExactly(from, to);
    if from % DAY == 0 && WeekendProbes(from, to) {
      hide IsWeekend;
      var i: nat := (to - 1 - from) / DAY;
      assert from + i * DAY <= to - 1;
      assert (from + i * DAY) / DAY == (to - 1) / DAY;
    }
  }

  /** They are not always: from Saturday noon to Monday at six they find a weekend, and
      Monday is none.  The first Saturday of 1970 was its third day. */
  lemma ProbesMissMonday()
    ensures var from, to := 2 * DAY + 12 * HOUR, 4 * DAY + 6 * HOUR;
      WeekendProbes(from, to) && !WeekendSeconds(from, to)
  {
    var from, to := 2 * DAY + 12 * HOUR, 4 * DAY + 6 * HOUR;
    forall i: nat | from + i * DAY < to ensures IsWeekend((from + i * DAY) / DAY) {
      assert i < 2;
    }
    assert !IsWeekend((to - 1) / DAY);
  }

  /** Holes the trading calendar explains. */
  ghost predicate IsExpected(from: int, to: int, setup: Setup) {
    if setup.timeframe == D1 then from < to && WeekendProbes(from, to)
    else Fixed(setup.timeframe) && from < to && AllClosed(from, to, setup.offset)
  }

  ghost function KindOf(from: int, to: int, setup: Setup): GapKind {
    if IsExpected(from, to, setup) then ExpectedSession
    else if setup.providerEarliest.Some? && to <= setup.providerEarliest.value then ProviderData
    else if setup.providerCanRepair then Recoverable
    else Unrecoverable
  }

  /** The trading calendar explains a hole of a daily series that is all weekend, a hole of an
      intraday one that lies within the 48 hours of a closure, second by second, and none of a
      weekly or monthly one.  Any other hole is beyond the provider's coverage, or else can be
      repaired exactly when a provider can. */
  lemma KindExactly(from: int, to: int, setup: Setup)
    requires from < to
    ensures var kind, tf := KindOf(from, to, setup), setup.timeframe;
      && (tf == D1 ==> (kind == ExpectedSession <==> WeekendProbes(from, to)))
      && (tf == D1 && from % DAY == 0 ==> (kind == ExpectedSession <==> WeekendSeconds(from, to)))
      && (tf == W1 || tf == Month1 ==> kind != ExpectedSession)
      && (tf != D1 && tf != W1 && tf != Month1 ==>
            (kind == ExpectedSession <==>
               forall t :: from <= t < to ==> (LocalHour(t, setup.offset) - 41) % 168 < 48))
      && (kind != ExpectedSession ==>
            kind == if exists earliest :: setup.providerEarliest == Some(earliest) && to <= earliest then ProviderData
                    else if setup.providerCanRepair then Recoverable else Unrecoverable)
  {
    hide IsWeekend, WeekendProbes, WeekendSeconds, IsWithinWeeklyClosure, LocalHour;
    ProbesRight(from, to);
    if setup.timeframe == D1 && WeekendSeconds(from, to) { WeekendExactly(from, to); }
    forall t ensures IsWithinWeeklyClosure(t, setup.offset) <==> (LocalHour(t, setup.offset) - 41) % 168 < 48 {
      ClosureIsTheWeekend(t, setup.offset);
    }
  }

  method ClassifyOne(from: int, to: int, setup: Setup) returns (kind: GapKind)
    ensures kind == KindOf(from, to, setup)
  {
    if setup.timeframe == D1 {
      var weekend := SpansOnlyWeekendDays(from, to);
      if weekend { return ExpectedSession; }
    } else if setup.timeframe != W1 && setup.timeframe != Month1 {
      var closed := SpansOnlyClosedMarket(from, to, setup.offset);
      if closed { return ExpectedSession; }
    }
    if setup.providerEarliest.Some? && to <= setup.providerEarliest.value {
      return ProviderData;
    }
    return if setup.providerCanRepair then Recoverable else Unrecoverable;
  }

  // ---- Finding the holes ------------------------------------------------

  /** The holes between neighbours, in order. */
  ghost function GapsOf<P>(cs: seq<Candle<P>>, setup: Setup): seq<Gap> {
    if |cs| <= 1 then [] else
      var n := |cs| - 1;
      var from, to := BucketEnd(cs[n - 1].startTime, setup.timeframe), cs[n].startTime;
      GapsOf(cs[..n], setup) + (if from < to then [Gap(from, to, KindOf(from, to, setup))] else [])
  }

  function Count(gaps: seq<Gap>, kind: GapKind): (n: nat)
    ensures n <= |gaps|
  {
    if gaps == [] then 0 else
      Count(gaps[..|gaps| - 1], kind) + (if gaps[|gaps| - 1].kind == kind then 1 else 0)
  }

  lemma NoGaps<P>(cs: seq<Candle<P>>, setup: Setup)
    requires |cs| <= 1
    ensures GapsOf(cs, setup) == []
  {
  }

  lemma NextGap<P>(cs: seq<Candle<P>>, n: nat, setup: Setup)
    requires 1 <= n < |cs|
    ensures var from, to := BucketEnd(cs[n - 1].startTime, setup.timeframe), cs[n].startTime;
      GapsOf(cs[..n + 1], setup) ==
      GapsOf(cs[..n], setup) + (if from < to then [Gap(from, to, KindOf(from, to, setup))] else [])
  {
    hide BucketEnd, KindOf;
    assert cs[..n + 1][..n] == cs[..n];
  }

  method ClassifyGaps<P>(cs: seq<Candle<P>>, setup: Setup) returns (s: Summary)
    ensures s.gaps == GapsOf(cs, setup)
    ensures s.expectedSession == Count(s.gaps, ExpectedSession)
    ensures s.recoverable == Count(s.gaps, Recoverable)
    ensures s.providerData == Count(s.gaps, ProviderData)
    ensures s.unrecoverable == Count(s.gaps, Unrecoverable)
    ensures s.unexpected == s.recoverable + s.providerData + s.unrecoverable
  {
    hide BucketEnd, KindOf, GapsOf;
    var gaps: seq<Gap> := [];
    var index := 1;
    NoGaps(cs[..if cs == [] then 0 else 1], setup);
    while index < |cs|
      invariant 1 <= index && (cs == [] || index <= |cs|)
      invariant gaps == GapsOf(if cs == [] then [] else cs[..index], setup)
    {
      var from := BucketEnd(cs[index - 1].startTime, setup.timeframe);
      NextGap(cs, index, setup);
      if from < cs[index].startTime {
        var kind := ClassifyOne(from, cs[index].startTime, setup);
        gaps := gaps + [Gap(from, cs[index].startTime, kind)];
      }
      index := index + 1;
    }
    assert |cs| > 0 ==> cs[..|cs|] == cs;
    var expected: nat, recoverable: nat, providerData: nat, unrecoverable: nat := 0, 0, 0, 0;
    for i := 0 to |gaps|
      invariant expected == Count(gaps[..i], ExpectedSession)
      invariant recoverable == Count(gaps[..i], Recoverable)
      invariant providerData == Count(gaps[..i], ProviderData)
      invariant unrecoverable == Count(gaps[..i], Unrecoverable)
    {
      assert gaps[..i + 1][..i] == gaps[..i];
      match gaps[i].kind {
        case ExpectedSession => expected := expected + 1;
        case Recoverable => recoverable := recoverable + 1;
        case ProviderData => providerData := providerData + 1;
        case Unrecoverable => unrecoverable := unrecoverable + 1;
      }
    }
    assert gaps[..|gaps|] == gaps;
    KindsPartition(gaps);
    return Summary(gaps, expected, recoverable, providerData, unrecoverable, |gaps| - expected);
  }

  lemma {:induction false} KindsPartition(gaps: seq<Gap>)
    ensures Count(gaps, ExpectedSession) + Count(gaps, Recoverable)
          + Count(gaps, ProviderData) + Count(gaps, Unrecoverable) == |gaps|
  {
    if gaps != [] { KindsPartition(gaps[..|gaps| - 1]); }
  }

  // ---- What the holes are ------------------------------------------------

  ghost predicate Regular<P>(cs: seq<Candle<P>>, tf: Timeframe) {
    Ascending(cs) && forall c :: c in cs ==> Aligned(c.startTime, tf)
  }

  ghost predicate Covered<P>(t: int, cs: seq<Candle<P>>, tf: Timeframe) {
    exists c :: c in cs && c.startTime <= t < BucketEnd(c.startTime, tf)
  }

  ghost predicate InGap(t: int, gaps: seq<Gap>) {
    exists g :: g in gaps && g.from <= t < g.to
  }

  /** `n` buckets on from an aligned instant. */
  function Advance(s: int, n: nat, tf: Timeframe): int
    decreases n
  {
    if n == 0 then s else Advance(BucketEnd(s, tf), n - 1, tf)
  }

  /** Between two aligned instants lies a whole number of buckets. */
  lemma {:induction false} WholeBuckets(from: int, end: int, tf: Timeframe)
    requires Aligned(from, tf) && Aligned(end, tf) && from <= end
    ensures exists n: nat :: (from < end ==> 0 < n) && Advance(from, n, tf) == end
    decreases end - from
  {
    hide BucketStart, BucketEnd, Aligned;
    if from == end {
      assert Advance(from, 0, tf) == end;
    } else {
      AlignedTiling(from, end, tf);
      WholeBuckets(BucketEnd(from, tf), end, tf);
      var n: nat :| Advance(BucketEnd(from, tf), n, tf) == end;
      assert Advance(from, n + 1, tf) == end;
    }
  }

  function Lengths(gaps: seq<Gap>): int {
    if gaps == [] then 0 else Lengths(gaps[..|gaps| - 1]) + gaps[|gaps| - 1].to - gaps[|gaps| - 1].from
  }

  function Durations<P>(cs: seq<Candle<P>>, tf: Timeframe): int {
    if cs == [] then 0 else
      var s := cs[|cs| - 1].startTime;
      Durations(cs[..|cs| - 1], tf) + BucketEnd(s, tf) - s
  }

  ghost predicate Maximal<P>(g: Gap, cs: seq<Candle<P>>, tf: Timeframe) {
    && g.from < g.to
    && (exists c :: c in cs && BucketEnd(c.startTime, tf) == g.from)
    && (exists c :: c in cs && c.startTime == g.to)
    && exists n: nat :: 0 < n && Advance(g.from, n, tf) == g.to
  }

  ghost predicate Disjoint(gaps: seq<Gap>) {
    forall i, j :: 0 <= i < j < |gaps| ==> gaps[i].to < gaps[j].from
  }

  /** The holes and the buckets partition the span of a regular series: every
      instant is in a bucket or in a hole and not in both, holes come in order with
      buckets between them, each is bounded by two buckets and is a whole number of
      missing ones, and all lengths add up. */
  ghost predicate Partition<P>(gaps: seq<Gap>, cs: seq<Candle<P>>, tf: Timeframe)
    requires cs != []
  {
    var first, end := cs[0].startTime, BucketEnd(cs[|cs| - 1].startTime, tf);
    && (forall t :: first <= t < end ==> (Covered(t, cs, tf) <==> !InGap(t, gaps)))
    && (forall g :: g in gaps ==> first <= g.from && g.to < end && Maximal(g, cs, tf))
    && Disjoint(gaps)
    && Durations(cs, tf) + Lengths(gaps) == end - first
  }

  lemma {:induction false} GapPartition<P>(cs: seq<Candle<P>>, setup: Setup)
    requires cs != [] && Regular(cs, setup.timeframe)
    ensures Partition(GapsOf(cs, setup), cs, setup.timeframe)
  {
    hide BucketStart, BucketEnd, Aligned, KindOf;
    var n := |cs| - 1;
    if n == 0 {
      OneBucket(cs, setup.timeframe);
    } else {
      GapPartition(cs[..n], setup);
      AddBucket(cs, GapsOf(cs[..n], setup), setup);
    }
  }

  lemma OneBucket<P>(cs: seq<Candle<P>>, tf: Timeframe)
    requires |cs| == 1
    ensures Partition([], cs, tf)
  {
  }

  lemma AddBucket<P>(cs: seq<Candle<P>>, gaps: seq<Gap>, setup: Setup)
    requires |cs| > 1 && Regular(cs, setup.timeframe)
    requires Partition(gaps, cs[..|cs| - 1], setup.timeframe)
    ensures var n := |cs| - 1;
      var from, to := BucketEnd(cs[n - 1].startTime, setup.timeframe), cs[n].startTime;
      Partition(gaps + (if from < to then [Gap(from, to, KindOf(from, to, setup))] else []), cs, setup.timeframe)
  {
    hide BucketStart, BucketEnd, Aligned, KindOf, Maximal, Covered, InGap;
    var tf, n := setup.timeframe, |cs| - 1;
    var before, last, next := cs[..n], cs[n - 1], cs[n];
    var from, to := BucketEnd(last.startTime, tf), next.startTime;
    assert before[n - 1] == last && last in cs && next in cs;
    AlignedTiling(last.startTime, to, tf);
    AlignedTiling(to, to, tf);
    var more := if from < to then [Gap(from, to, KindOf(from, to, setup))] else [];
    var all := gaps + more;
    forall g | g in gaps ensures Maximal(g, cs, tf) {
      MaximalGrows(g, cs, tf);
    }
    if from < to {
      NewGapMaximal(more[0], cs, tf);
    } else {
      assert all == gaps;
    }
    assert (gaps + more)[..|gaps|] == gaps;
    var end := BucketEnd(next.startTime, tf);
    forall t | cs[0].startTime <= t < end
      ensures Covered(t, cs, tf) <==> !InGap(t, all)
    {
      CoverAfter(t, cs, gaps, more, tf);
    }
  }

  lemma MaximalGrows<P>(g: Gap, cs: seq<Candle<P>>, tf: Timeframe)
    requires cs != [] && Maximal(g, cs[..|cs| - 1], tf)
    ensures Maximal(g, cs, tf)
  {
  }

  lemma NewGapMaximal<P>(g: Gap, cs: seq<Candle<P>>, tf: Timeframe)
    requires |cs| > 1 && g.from < g.to
    requires Aligned(cs[|cs| - 2].startTime, tf) && Aligned(cs[|cs| - 1].startTime, tf)
    requires g.from == BucketEnd(cs[|cs| - 2].startTime, tf) && g.to == cs[|cs| - 1].startTime
    ensures Maximal(g, cs, tf)
  {
    hide BucketStart, BucketEnd, Aligned, Maximal, Advance;
    AlignedTiling(cs[|cs| - 2].startTime, 0, tf);
    WholeBuckets(g.from, g.to, tf);
    var n: nat :| 0 < n && Advance(g.from, n, tf) == g.to;
    MaximalBy(g, cs, |cs| - 2, |cs| - 1, n, tf);
  }

  lemma MaximalBy<P>(g: Gap, cs: seq<Candle<P>>, i: nat, j: nat, n: nat, tf: Timeframe)
    requires g.from < g.to && i < |cs| && j < |cs|
    requires BucketEnd(cs[i].startTime, tf) == g.from && cs[j].startTime == g.to
    requires 0 < n && Advance(g.from, n, tf) == g.to
    ensures Maximal(g, cs, tf)
  {
    hide BucketEnd, Advance;
    assert cs[i] in cs && cs[j] in cs;
  }

  /** Where an instant lies once the series has one more bucket. */
  lemma CoverAfter<P>(t: int, cs: seq<Candle<P>>, gaps: seq<Gap>, more: seq<Gap>, tf: Timeframe)
    requires |cs| > 1 && Regular(cs, tf)
    requires var before := cs[..|cs| - 1];
      && (forall u :: cs[0].startTime <= u < BucketEnd(cs[|cs| - 2].startTime, tf) ==>
            (Covered(u, before, tf) <==> !InGap(u, gaps)))
      && (forall g :: g in gaps ==> g.to < BucketEnd(cs[|cs| - 2].startTime, tf))
    requires var from, to := BucketEnd(cs[|cs| - 2].startTime, tf), cs[|cs| - 1].startTime;
      && from <= to
      && (if from < to then |more| == 1 && more[0].from == from && more[0].to == to else more == [])
    requires cs[0].startTime <= t < BucketEnd(cs[|cs| - 1].startTime, tf)
    ensures Covered(t, cs, tf) <==> !InGap(t, gaps + more)
  {
    hide BucketStart, BucketEnd, Aligned;
    var n := |cs| - 1;
    var before, next := cs[..n], cs[n];
    var from, to := BucketEnd(cs[n - 1].startTime, tf), next.startTime;
    assert next in cs;
    assert Covered(t, cs, tf) <==> Covered(t, before, tf) || to <= t by { CoveredSplit(t, cs, tf); }
    assert Covered(t, before, tf) ==> t < from by { CoveredEarlier(t, cs, tf); }
    InGapSplit(t, gaps, more);
  }

  lemma InGapSplit(t: int, gaps: seq<Gap>, more: seq<Gap>)
    requires |more| <= 1
    ensures InGap(t, gaps + more) <==> InGap(t, gaps) || (more != [] && more[0].from <= t < more[0].to)
  {
  }

  lemma CoveredSplit<P>(t: int, cs: seq<Candle<P>>, tf: Timeframe)
    requires cs != [] && t < BucketEnd(cs[|cs| - 1].startTime, tf)
    ensures Covered(t, cs, tf) <==> Covered(t, cs[..|cs| - 1], tf) || cs[|cs| - 1].startTime <= t
  {
  }

  lemma CoveredEarlier<P>(t: int, cs: seq<Candle<P>>, tf: Timeframe)
    requires |cs| > 1 && Regular(cs, tf)
    ensures Covered(t, cs[..|cs| - 1], tf) ==> t < BucketEnd(cs[|cs| - 2].startTime, tf)
  {
    hide BucketStart, BucketEnd, Aligned;
    var n := |cs| - 1;
    var before := cs[..n];
    if Covered(t, before, tf) {
      var c :| c in before && c.startTime <= t < BucketEnd(c.startTime, tf);
      var i :| 0 <= i < n && before[i] == c;
      assert cs[i] in cs && cs[n - 1] in cs;
      assert i < n - 1 ==> cs[i].startTime < cs[n - 1].startTime;
      EndsInOrder(cs[i].startTime, cs[n - 1].startTime, tf);
    }
  }

  lemma EndsInOrder(a: int, b: int, tf: Timeframe)
    requires Aligned(a, tf) && Aligned(b, tf) && a <= b
    ensures BucketEnd(a, tf) <= BucketEnd(b, tf)
  {
    hide BucketStart, BucketEnd, Aligned;
    AlignedTiling(a, b, tf);
    AlignedTiling(b, b, tf);
  }

  // ---- What a reconnect asks for -----------------------------------------

  datatype Range = Range(from: int, to: int)

  function ReconnectRepairRange(lastDurableBarStart: Option<int>, now: int, tf: Timeframe, maxSpan: int)
    : Option<Range>
  {
    if lastDurableBarStart.None? then None
    else
      var from := BucketEnd(lastDurableBarStart.value, tf);
      if from >= now then None
      else Some(Range(if from > now - maxSpan then from else now - maxSpan, now))
  }

  /** A range is asked for exactly when some past instant lies in a later bucket than
      the last durable bar's, and it then holds exactly those instants within the span. */
  lemma RepairRangeCovers(last: int, now: int, tf: Timeframe, maxSpan: int)
    requires Aligned(last, tf)
    ensures var range := ReconnectRepairRange(Some(last), now, tf, maxSpan);
      && (range.Some? <==> last < BucketStart(now - 1, tf))
      && (range.Some? ==> forall t ::
            range.value.from <= t < range.value.to <==> now - maxSpan <= t < now && last < BucketStart(t, tf))
  {
    hide BucketStart, BucketEnd, Aligned;
    forall t ensures last < BucketStart(t, tf) <==> BucketEnd(last, tf) <= t {
      LaterBucket(last, t, tf);
    }
  }

  lemma LaterBucket(s: int, t: int, tf: Timeframe)
    requires Aligned(s, tf)
    ensures s < BucketStart(t, tf) <==> BucketEnd(s, tf) <= t
  {
    hide BucketStart, BucketEnd, Aligned;
    AlignedMeans(s, tf);
    AlignedTiling(s, t, tf);
    if s <= t { BucketsAscend(s, t, tf); } else { BucketsAscend(t, s, tf); }
  }
}
