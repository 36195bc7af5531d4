/**
 The figures shown for a trading record: averages, expectancy, best and worst day,
 results by holding time and the current streak.  Quotients are exact.
 */
module PerformanceKpis {
  import opened Options
  import opened Analytics

  // ---- Wins and losses ---------------------------------------------------

  lemma {:induction false} WinsAndLosses(trades: seq<Trade>)
    ensures Sum(trades) == Sum(Wins(trades)) + Sum(Losses(trades))
    ensures |Wins(trades)| + |Losses(trades)| <= |trades|
    ensures Sum(Wins(trades)) >= 0.0 && (Wins(trades) != [] ==> Sum(Wins(trades)) > 0.0)
    ensures Sum(Losses(trades)) <= 0.0 && (Losses(trades) != [] <==> Sum(Losses(trades)) < 0.0)
  {
    if trades != [] {
      var init, last := trades[..|trades| - 1], trades[|trades| - 1];
      WinsAndLosses(init);
      SumAppend(Wins(init), last);
      SumAppend(Losses(init), last);
      hide Sum;
      assert Wins(init) + [] == Wins(init) && Losses(init) + [] == Losses(init);
    }
    assert Sum(trades) == if trades == [] then 0.0 else Sum(trades[..|trades| - 1]) + trades[|trades| - 1].pnl;
  }

  lemma SumAppend(trades: seq<Trade>, trade: Trade)
    ensures Sum(trades + [trade]) == Sum(trades) + trade.pnl
  {
  }

  // ---- Expectancy --------------------------------------------------------

  function Expectancy(wins: nat, losses: nat, count: nat, averageWin: real, averageLoss: real): real
    requires count > 0
  {
    wins as real / count as real * averageWin - losses as real / count as real * averageLoss
  }

  /** When there are wins and losses, the expectancy formula is the net result spread
      over all trades, break-even trades included. */
  lemma ExpectancyIsMean(trades: seq<Trade>)
    requires Wins(trades) != [] && Losses(trades) != []
    ensures var wins, losses := Wins(trades), Losses(trades);
      |trades| > 0 &&
      Expectancy(|wins|, |losses|, |trades|, Sum(wins) / |wins| as real, -Sum(losses) / |losses| as real)
      == Sum(trades) / |trades| as real
  {
    hide Sum, Wins, Losses;
    WinsAndLosses(trades);
    var wins, losses := Wins(trades), Losses(trades);
    Cancel(|wins| as real, |trades| as real, Sum(wins));
    Cancel(|losses| as real, |trades| as real, -Sum(losses));
    SpreadOver(Sum(wins), Sum(losses), |trades| as real);
  }

  lemma Cancel(part: real, whole: real, total: real)
    requires part > 0.0 && whole > 0.0
    ensures part / whole * (total / part) == total / whole
  {
  }

  lemma SpreadOver(a: real, b: real, n: real)
    requires n > 0.0
    ensures a / n - (-b) / n == (a + b) / n
  {
  }

  // ---- By holding time ---------------------------------------------------

  const BOUNDS: seq<int> := [60000, 300000, 1800000, 7200000]
  const LABELS: seq<string> := ["0-1 min", "1-5 min", "5-30 min", "30 min-2 h", "2 h+"]

  datatype DurationBucket = DurationBucket(name: string, wins: nat, losses: nat)

  /** The first bucket whose bound the duration stays under; the last has none. */
  function BucketIndex(duration: int): (i: nat)
    ensures i <= 4
    ensures i < 4 ==> duration < BOUNDS[i]
    ensures i > 0 ==> BOUNDS[i - 1] <= duration
  {
    if duration < BOUNDS[0] then 0
    else if duration < BOUNDS[1] then 1
    else if duration < BOUNDS[2] then 2
    else if duration < BOUNDS[3] then 3
    else 4
  }

  /** The trades whose duration is known. */
  function Timed(trades: seq<Trade>): seq<Trade> {
    if trades == [] then [] else
      var last := trades[|trades| - 1];
      Timed(trades[..|trades| - 1]) + (if last.durationMs.Some? then [last] else [])
  }

  /** The timed trades of one bucket. */
  function Held(trades: seq<Trade>, i: nat): seq<Trade> {
    if trades == [] then [] else
      var last := trades[|trades| - 1];
      Held(trades[..|trades| - 1], i) +
      (if last.durationMs.Some? && BucketIndex(last.durationMs.value) == i then [last] else [])
  }

  function Bucket(trades: seq<Trade>, i: nat): DurationBucket
    requires i < 5
  {
    WinsWithin(Held(trades, i));
    DurationBucket(LABELS[i], |Wins(Held(trades, i))|, |Held(trades, i)| - |Wins(Held(trades, i))|)
  }

  lemma {:induction false} WinsWithin(trades: seq<Trade>)
    ensures |Wins(trades)| <= |trades|
  {
    if trades != [] { WinsWithin(trades[..|trades| - 1]); }
  }

  /** The buckets that hold anything, among the first `n`. */
  function Drawn(buckets: seq<DurationBucket>): seq<DurationBucket> {
    if buckets == [] then [] else
      var last := buckets[|buckets| - 1];
      Drawn(buckets[..|buckets| - 1]) + (if last.wins + last.losses > 0 then [last] else [])
  }

  function WinTotal(buckets: seq<DurationBucket>): nat {
    if buckets == [] then 0 else WinTotal(buckets[..|buckets| - 1]) + buckets[|buckets| - 1].wins
  }

  function LossTotal(buckets: seq<DurationBucket>): nat {
    if buckets == [] then 0 else LossTotal(buckets[..|buckets| - 1]) + buckets[|buckets| - 1].losses
  }

  function Buckets(trades: seq<Trade>): seq<DurationBucket> {
    [Bucket(trades, 0), Bucket(trades, 1), Bucket(trades, 2), Bucket(trades, 3), Bucket(trades, 4)]
  }

  lemma TotalsWith(buckets: seq<DurationBucket>, b: DurationBucket)
    ensures WinTotal(buckets + [b]) == WinTotal(buckets) + b.wins
    ensures LossTotal(buckets + [b]) == LossTotal(buckets) + b.losses
  {
  }

  lemma {:induction false} DrawnKeepsTotals(buckets: seq<DurationBucket>)
    ensures WinTotal(Drawn(buckets)) == WinTotal(buckets) && LossTotal(Drawn(buckets)) == LossTotal(buckets)
  {
    if buckets != [] {
      hide WinTotal, LossTotal;
      var init, last := buckets[..|buckets| - 1], buckets[|buckets| - 1];
      DrawnKeepsTotals(init);
      assert buckets == init + [last];
      TotalsWith(init, last);
      TotalsWith(Drawn(init), last);
      assert Drawn(init) + [] == Drawn(init);
    }
  }

  /** How a trade enters the bucket it belongs to. */
  function Counted(b: DurationBucket, trade: Trade): DurationBucket {
    if trade.pnl > 0.0 then b.(wins := b.wins + 1) else b.(losses := b.losses + 1)
  }

  lemma BucketAfter(trades: seq<Trade>, trade: Trade, i: nat)
    requires i < 5
    ensures Bucket(trades + [trade], i) ==
      if trade.durationMs.Some? && BucketIndex(trade.durationMs.value) == i
      then Counted(Bucket(trades, i), trade) else Bucket(trades, i)
  {
    hide BucketIndex, BOUNDS, LABELS;
    assert (trades + [trade])[..|trades|] == trades;
    var held := Held(trades, i);
    assert (held + [trade])[..|held|] == held;
    assert held + [] == held;
  }

  lemma TotalsAfter(trades: seq<Trade>, trade: Trade)
    ensures WinTotal(Buckets(trades + [trade])) ==
      WinTotal(Buckets(trades)) + (if trade.durationMs.Some? && trade.pnl > 0.0 then 1 else 0)
    ensures LossTotal(Buckets(trades + [trade])) ==
      LossTotal(Buckets(trades)) + (if trade.durationMs.Some? && !(trade.pnl > 0.0) then 1 else 0)
  {
    EachBucketAfter(trades, trade);
    hide Bucket, BucketIndex, WinTotal, LossTotal;
    FiveTotals(Buckets(trades));
    FiveTotals(Buckets(trades + [trade]));
  }

  /** A timed trade is counted in exactly one bucket, a trade without a duration in
      none, and the buckets shown lose nothing. */
  lemma {:induction false} DurationsConserve(trades: seq<Trade>)
    ensures WinTotal(Drawn(Buckets(trades))) == |Wins(Timed(trades))|
    ensures WinTotal(Drawn(Buckets(trades))) + LossTotal(Drawn(Buckets(trades))) == |Timed(trades)|
  {
    DrawnKeepsTotals(Buckets(trades));
    if trades == [] {
      NothingHeld();
    } else {
      hide Buckets, Wins, Drawn, WinTotal, LossTotal;
      var init, last := trades[..|trades| - 1], trades[|trades| - 1];
      assert trades == init + [last];
      DurationsConserve(init);
      DrawnKeepsTotals(Buckets(init));
      TotalsAfter(init, last);
      WinsAppend(Timed(init), last);
      assert Timed(init) + [] == Timed(init);
    }
  }

  lemma WinsAppend(trades: seq<Trade>, trade: Trade)
    ensures |Wins(trades + [trade])| == |Wins(trades)| + (if trade.pnl > 0.0 then 1 else 0)
  {
  }

  lemma FiveTotals(b: seq<DurationBucket>)
    requires |b| == 5
    ensures WinTotal(b) == b[0].wins + b[1].wins + b[2].wins + b[3].wins + b[4].wins
    ensures LossTotal(b) == b[0].losses + b[1].losses + b[2].losses + b[3].losses + b[4].losses
  {
    assert b[..4][..3] == b[..3] && b[..3][..2] == b[..2] && b[..2][..1] == b[..1] && b[..1][..0] == [];
    assert WinTotal(b[..1]) == b[0].wins && LossTotal(b[..1]) == b[0].losses;
    assert WinTotal(b[..2]) == WinTotal(b[..1]) + b[1].wins && LossTotal(b[..2]) == LossTotal(b[..1]) + b[1].losses;
    assert WinTotal(b[..3]) == WinTotal(b[..2]) + b[2].wins && LossTotal(b[..3]) == LossTotal(b[..2]) + b[2].losses;
    assert WinTotal(b[..4]) == WinTotal(b[..3]) + b[3].wins && LossTotal(b[..4]) == LossTotal(b[..3]) + b[3].losses;
  }

  method GroupByDuration(trades: seq<Trade>) returns (drawn: seq<DurationBucket>)
    ensures drawn == Drawn(Buckets(trades))
    ensures WinTotal(drawn) == |Wins(Timed(trades))|
    ensures WinTotal(drawn) + LossTotal(drawn) == |Timed(trades)|
  {
    hide BucketIndex, Held, Wins;
    var buckets := seq(5, i requires 0 <= i < 5 => DurationBucket(LABELS[i], 0, 0));
    NothingHeld();
    assert trades[..0] == [];
    for n := 0 to |trades|
      invariant buckets == Buckets(trades[..n])
    {
      var result := trades[n];
      assert trades[..n + 1] == trades[..n] + [result];
      EachBucketAfter(trades[..n], result);
      if result.durationMs.Some? {
        var index := BucketIndex(result.durationMs.value);
        var bucket := buckets[index];
        buckets := buckets[index :=
          if result.pnl > 0.0 then bucket.(wins := bucket.wins + 1) else bucket.(losses := bucket.losses + 1)];
      }
    }
    assert trades[..|trades|] == trades;
    drawn := [];
    for i := 0 to 5
      invariant drawn == Drawn(buckets[..i])
    {
      assert buckets[..i + 1][..i] == buckets[..i];
      if buckets[i].wins + buckets[i].losses > 0 { drawn := drawn + [buckets[i]]; }
    }
    assert buckets[..5] == buckets;
    DurationsConserve(trades);
  }

  lemma NothingHeld()
    ensures Buckets([]) == seq(5, i requires 0 <= i < 5 => DurationBucket(LABELS[i], 0, 0))
    ensures WinTotal(Buckets([])) == LossTotal(Buckets([])) == 0
    ensures Drawn(Buckets([])) == []
  {
    FiveTotals(Buckets([]));
    NoneDrawn(Buckets([]));
  }

  lemma {:induction false} NoneDrawn(buckets: seq<DurationBucket>)
    requires forall i :: 0 <= i < |buckets| ==> buckets[i].wins + buckets[i].losses == 0
    ensures Drawn(buckets) == []
  {
    if buckets != [] { NoneDrawn(buckets[..|buckets| - 1]); }
  }

  lemma EachBucketAfter(trades: seq<Trade>, trade: Trade)
    ensures Buckets(trades + [trade]) ==
      if trade.durationMs.None? then Buckets(trades)
      else
        var i := BucketIndex(trade.durationMs.value);
        Buckets(trades)[i := Counted(Buckets(trades)[i], trade)]
  {
    hide Bucket, BucketIndex, Counted;
    BucketAfter(trades, trade, 0);
    BucketAfter(trades, trade, 1);
    BucketAfter(trades, trade, 2);
    BucketAfter(trades, trade, 3);
    BucketAfter(trades, trade, 4);
  }

  // ---- The streak --------------------------------------------------------

  function Sign(x: real): int {
    if x > 0.0 then 1 else if x < 0.0 then -1 else 0
  }

  /** The sign of a result, or 2 where there is none. */
  function SignAt(pnls: seq<real>, i: int): int {
    if 0 <= i < |pnls| then Sign(pnls[i]) else 2
  }

  function SignOf(n: int): int {
    if n > 0 then 1 else if n < 0 then -1 else 0
  }

  function Magnitude(n: int): nat {
    if n < 0 then -n else n
  }

  /** The last results all have the sign of the streak, as many as it says, and the one
      before them does not; no streak means no last result, or a break-even one. */
  ghost predicate IsStreak(pnls: seq<real>, streak: int) {
    && Magnitude(streak) <= |pnls|
    && (forall i :: |pnls| - Magnitude(streak) <= i < |pnls| ==> SignAt(pnls, i) == SignOf(streak))
    && (streak != 0 ==> SignAt(pnls, |pnls| - Magnitude(streak) - 1) != SignOf(streak))
    && (streak == 0 && pnls != [] ==> SignAt(pnls, |pnls| - 1) == 0)
  }

  /** There is only one such number. */
  lemma StreakUnique(pnls: seq<real>, a: int, b: int)
    requires IsStreak(pnls, a) && IsStreak(pnls, b)
    ensures a == b
  {
  }

  method ComputeStreak(pnls: seq<real>) returns (streak: int)
    ensures IsStreak(pnls, streak)
  {
    streak := 0;
    var index := |pnls| - 1;
    while index >= 0
      invariant -1 <= index < |pnls| && Magnitude(streak) == |pnls| - 1 - index
      invariant forall i :: index < i < |pnls| ==> SignAt(pnls, i) == SignOf(streak)
    {
      var pnl := pnls[index];
      if pnl == 0.0 { break; }
      var winning := pnl > 0.0;
      if streak == 0 { streak := if winning then 1 else -1; }
      else if winning && streak > 0 { streak := streak + 1; }
      else if !winning && streak < 0 { streak := streak - 1; }
      else { break; }
      assert SignAt(pnls, index) == SignOf(streak);
      index := index - 1;
    }
  }

  // ---- The whole record --------------------------------------------------

  datatype Kpis = Kpis(
    tradeCount: nat,
    netPnl: real,
    winRatePercent: Option<int>,
    wins: nat,
    losses: nat,
    profitFactor: Option<real>,
    averageWin: Option<real>,
    averageLoss: Option<real>,
    winLossRatio: Option<real>,
    expectancy: Option<real>,
    bestDay: Option<Row<int>>,
    worstDay: Option<Row<int>>,
    tradingDays: nat,
    averageDurationMs: Option<int>,
    currentStreak: int)

  datatype Performance = Performance(
    kpis: Kpis,
    daily: seq<Row<int>>,
    bySymbol: seq<Row<string>>,
    winRates: seq<int>,
    byDuration: seq<DurationBucket>,
    empty: bool)

  const NO_KPIS := Kpis(0, 0.0, None, 0, 0, None, None, None, None, None, None, None, 0, None, 0)

  function Trades(fills: seq<Fill>): seq<Trade> {
    seq(|fills|, i requires 0 <= i < |fills| => TradeOf(fills[i]))
  }

  function Pnls(trades: seq<Trade>): seq<real> {
    seq(|trades|, i requires 0 <= i < |trades| => trades[i].pnl)
  }

  function DurationSum(trades: seq<Trade>): int {
    if trades == [] then 0 else
      var last := trades[|trades| - 1];
      DurationSum(trades[..|trades| - 1]) + (if last.durationMs.Some? then last.durationMs.value else 0)
  }

  /** The mean holding time of the timed trades, rounded to a millisecond. */
  ghost predicate DurationAgrees(average: Option<int>, trades: seq<Trade>) {
    && (average.Some? <==> Timed(trades) != [])
    && (Timed(trades) != [] ==>
          var mean := DurationSum(trades) as real / |Timed(trades)| as real;
          mean - 0.5 < average.value as real <= mean + 0.5)
  }

  method AverageDuration(trades: seq<Trade>) returns (average: Option<int>)
    ensures DurationAgrees(average, trades)
  {
    var sum, count: nat := 0, 0;
    for i := 0 to |trades|
      invariant sum == DurationSum(trades[..i]) && count == |Timed(trades[..i])|
    {
      assert trades[..i + 1][..i] == trades[..i];
      if trades[i].durationMs.Some? {
        sum, count := sum + trades[i].durationMs.value, count + 1;
      }
    }
    assert trades[..|trades|] == trades;
    return if count > 0 then Some((sum as real / count as real + 0.5).Floor) else None;
  }

  /** A quotient is shown exactly when it has a divisor, and the expectancy is the mean
      result of all trades. */
  ghost predicate QuotientsAgree(k: Kpis, trades: seq<Trade>) {
    var wins, losses := Wins(trades), Losses(trades);
    && (k.averageWin.Some? <==> wins != [])
    && (wins != [] ==> IsQuotient(k.averageWin.value, Sum(wins), |wins| as real))
    && (k.averageLoss.Some? <==> losses != [])
    && (losses != [] ==> IsQuotient(k.averageLoss.value, Sum(losses), |losses| as real))
    && (k.profitFactor.Some? <==> losses != [])
    && (losses != [] ==> IsQuotient(k.profitFactor.value, Sum(wins), -Sum(losses)))
    && (k.winLossRatio.Some? <==> wins != [] && losses != [])
    && (wins != [] && losses != [] ==> IsQuotient(k.winLossRatio.value, k.averageWin.value, -k.averageLoss.value))
    && (k.expectancy.Some? <==> wins != [] && losses != [])
    && (wins != [] && losses != [] ==> IsQuotient(k.expectancy.value, Sum(trades), |trades| as real))
  }

  /** The best day is the latest of those whose displayed result is highest, the worst
      the earliest of those where it is lowest. */
  ghost predicate DaysAgree(k: Kpis, daily: seq<Row<int>>) {
    && k.tradingDays == |daily|
    && (exists i :: LastHighest(daily, ByNet<int>, i) && k.bestDay == Some(daily[i]))
    && (exists i :: FirstLowest(daily, ByNet<int>, i) && k.worstDay == Some(daily[i]))
  }

  /** The figures agree with the record. */
  ghost predicate Agrees(k: Kpis, trades: seq<Trade>, daily: seq<Row<int>>)
    requires trades != []
  {
    && k.tradeCount == |trades| && k.netPnl == Sum(trades) == Net(daily)
    && k.wins == |Wins(trades)| && k.losses == |Losses(trades)|
    && k.winRatePercent.Some? && Near(k.winRatePercent.value, k.wins, k.tradeCount)
    && QuotientsAgree(k, trades)
    && DaysAgree(k, daily)
    && DurationAgrees(k.averageDurationMs, trades)
    && IsStreak(Pnls(trades), k.currentStreak)
  }

  predicate IsQuotient(q: real, total: real, part: real) {
    part != 0.0 && q * part == total
  }

  lemma Quotient(total: real, part: real)
    requires part > 0.0
    ensures IsQuotient(total / part, total, part)
    ensures IsQuotient(-(total / part), -total, part)
    ensures total > 0.0 ==> total / part > 0.0
  {
  }

  /** The averages and what is computed from them, filled into an empty record. */
  method Quotients(trades: seq<Trade>) returns (k: Kpis)
    ensures QuotientsAgree(k, trades)
  {
    hide Sum, Wins, Losses, Expectancy, IsQuotient;
    var wins, losses := Wins(trades), Losses(trades);
    WinsAndLosses(trades);
    var grossProfit, grossLoss := Sum(wins), -Sum(losses);
    k := NO_KPIS;
    if |wins| > 0 {
      k := k.(averageWin := Some(grossProfit / |wins| as real));
      Quotient(grossProfit, |wins| as real);
    }
    if |losses| > 0 {
      var averageLoss := grossLoss / |losses| as real;
      k := k.(averageLoss := Some(-averageLoss));
      Quotient(grossLoss, |losses| as real);
      if k.averageWin.Some? {
        k := k.(expectancy := Some(Expectancy(|wins|, |losses|, |trades|, k.averageWin.value, averageLoss)));
        ExpectancyIsMean(trades);
        Quotient(grossLoss, |losses| as real);
        MeanOf(Sum(trades), |trades| as real);
        if averageLoss != 0.0 {
          k := k.(winLossRatio := Some(k.averageWin.value / averageLoss));
          Quotient(k.averageWin.value, averageLoss);
        }
      }
    }
    if grossLoss != 0.0 {
      k := k.(profitFactor := Some(grossProfit / grossLoss));
      Quotient(grossProfit, grossLoss);
    }
  }

  method Figures(trades: seq<Trade>, daily: seq<Row<int>>) returns (k: Kpis)
    requires trades != [] && daily != [] && Net(daily) == Sum(trades)
    ensures Agrees(k, trades, daily)
  {
    hide Sum, Wins, Losses, Net, IsStreak, Near, Ranked, QuotientsAgree, DurationAgrees;
    var wins, losses := Wins(trades), Losses(trades);
    WinsAndLosses(trades);
    var quotients := Quotients(trades);
    var winRate := Percent(|wins|, |trades|);
    var averageDuration := AverageDuration(trades);
    var sortedDays := Ranked(daily, ByNet<int>);
    ghost var low, high := RankedEnds(daily, ByNet<int>);
    var streak := ComputeStreak(Pnls(trades));
    k := quotients.(
      tradeCount := |trades|, netPnl := Sum(trades), winRatePercent := Some(winRate),
      wins := |wins|, losses := |losses|, bestDay := Some(sortedDays[|sortedDays| - 1]),
      worstDay := Some(sortedDays[0]), tradingDays := |daily|, averageDurationMs := averageDuration,
      currentStreak := streak);
    SameQuotients(quotients, k, trades);
    assert DaysAgree(k, daily);
  }

  lemma MeanOf(total: real, count: real)
    requires count > 0.0
    ensures IsQuotient(total / count, total, count)
  {
  }

  lemma SameQuotients(a: Kpis, b: Kpis, trades: seq<Trade>)
    requires QuotientsAgree(a, trades)
    requires a.averageWin == b.averageWin && a.averageLoss == b.averageLoss && a.profitFactor == b.profitFactor
    requires a.winLossRatio == b.winLossRatio && a.expectancy == b.expectancy
    ensures QuotientsAgree(b, trades)
  {
  }

  method BuildPerformance(fills: seq<Fill>) returns (p: Performance)
    ensures p.empty <==> fills == []
    ensures fills == [] ==> p == Performance(NO_KPIS, [], [], [], [], true)
    ensures p.daily == Daily(Trades(fills)) && p.bySymbol == BySymbol(Trades(fills))
    ensures |p.winRates| == |p.bySymbol| && forall i :: 0 <= i < |p.bySymbol| ==>
      p.bySymbol[i].tally.count > 0
      && Near(p.winRates[i], p.bySymbol[i].tally.wins, p.bySymbol[i].tally.count)
    ensures p.byDuration == Drawn(Buckets(Trades(fills)))
    ensures Totals(p.daily) == Totals(p.bySymbol) == TallyOf(Trades(fills))
    ensures fills != [] ==> Agrees(p.kpis, Trades(fills), p.daily)
  {
    hide Agrees, BucketIndex, Wins, Held, TallyOf, Near;
    var trades := Trades(fills);
    var daily := GroupByDay(trades);
    var bySymbol, winRates := GroupBySymbol(trades);
    var byDuration := GroupByDuration(trades);
    if |fills| == 0 {
      assert trades == [];
      NothingHeld();
      return Performance(NO_KPIS, [], [], [], [], true);
    }
    assert trades[0] in trades;
    NetOf(trades, daily);
    var kpis := Figures(trades, daily);
    return Performance(kpis, daily, bySymbol, winRates, byDuration, false);
  }

  lemma NetOf(trades: seq<Trade>, daily: seq<Row<int>>)
    requires Totals(daily) == TallyOf(trades)
    ensures Net(daily) == Sum(trades)
  {
  }
}
