/** What a trading record says, told from the fills alone. */
module RecordLaws {
  import opened Decimals
  import opened Analytics
  import opened PerformanceKpis
  import TradingDay

  // ---- Reading the fills --------------------------------------------------

  /** The net results of the fills that have one. */
  function NetTotal(fills: seq<Fill>): real {
    if fills == [] then 0.0 else
      var last := fills[|fills| - 1];
      NetTotal(fills[..|fills| - 1]) + (if last.net.Some? then last.net.value else 0.0)
  }

  /** The realized results of the fills that have no net one. */
  function OldTotal(fills: seq<Fill>): real {
    if fills == [] then 0.0 else
      var last := fills[|fills| - 1];
      OldTotal(fills[..|fills| - 1]) + (if last.net.Some? then 0.0 else last.realized)
  }

  predicate Won(fill: Fill) {
    (fill.net.Some? && fill.net.value > 0.0) || (fill.net.None? && fill.realized > 0.0)
  }

  function Where(fills: seq<Fill>, p: Fill -> bool): seq<Fill> {
    if fills == [] then [] else
      var last := fills[|fills| - 1];
      Where(fills[..|fills| - 1], p) + (if p(last) then [last] else [])
  }

  predicate HasSymbol(fill: Fill, symbol: string) {
    fill.symbol == symbol
  }

  /** The fill fell in the day of this number. */
  predicate OnDay(fill: Fill, day: int) {
    day * TradingDay.DAY_MS <= fill.occurredAt < (day + 1) * TradingDay.DAY_MS
  }

  /** Where the buckets begin, in minutes. */
  const FROM: seq<int> := [0, 1, 5, 30, 120]

  /** The fill was held for a time within the bucket; the first bucket takes what is shorter
      than any, the last what is longer. */
  predicate HeldFor(fill: Fill, i: nat)
    requires i < 5
  {
    && fill.durationMs.Some?
    && (i == 0 || FROM[i] * 60000 <= fill.durationMs.value)
    && (i == 4 || fill.durationMs.value < FROM[i + 1] * 60000)
  }

  lemma TradesAppend(fills: seq<Fill>)
    requires fills != []
    ensures var n := |fills| - 1;
      Trades(fills) == Trades(fills[..n]) + [TradeOf(fills[n])] && Trades(fills)[..n] == Trades(fills[..n])
  {
    hide TradeOf;
  }

  lemma {:induction false} FiltersAgree<K>(fills: seq<Fill>, key: Trade -> K, k: K, p: Fill -> bool)
    requires forall f :: p(f) <==> key(TradeOf(f)) == k
    ensures Of(Trades(fills), key, k) == Trades(Where(fills, p))
  {
    hide TradeOf;
    if fills != [] {
      TradesAppend(fills);
      FiltersAgree(fills[..|fills| - 1], key, k, p);
    }
  }

  lemma DayExactly(fill: Fill, day: int)
    ensures DayOf(TradeOf(fill)) == day <==> OnDay(fill, day)
  {
  }

  /** A bucket takes exactly the fills held for a time within its bounds. */
  lemma BucketExactly(fill: Fill, i: nat)
    requires i < 5
    ensures HeldFor(fill, i) <==> fill.durationMs.Some? && BucketIndex(fill.durationMs.value) == i
  {
  }

  lemma {:induction false} HeldAgree(fills: seq<Fill>, i: nat)
    requires i < 5
    ensures Held(Trades(fills), i) == Trades(Where(fills, f => HeldFor(f, i)))
  {
    hide HeldFor, BucketIndex;
    if fills != [] {
      var n := |fills| - 1;
      TradesAppend(fills);
      HeldAgree(fills[..n], i);
      BucketExactly(fills[n], i);
    }
  }

  /** What trades add up to: the net results where there are any and the realized ones
      elsewhere, with the number of fills and of those won. */
  lemma {:induction false} TallyOfFills(fills: seq<Fill>)
    ensures TallyOf(Trades(fills)) == Tally(NetTotal(fills) + OldTotal(fills), |fills|, |Where(fills, Won)|)
  {
    if fills == [] {
      NothingTallied();
      assert Trades([]) == [];
    } else {
      var n := |fills| - 1;
      TallyOfFills(fills[..n]);
      TradesAppend(fills);
      TallyAppend(Trades(fills[..n]), TradeOf(fills[n]));
      hide TallyOf, Trades;
      assert TallyOf(Trades(fills)) == Plus(TallyOf(Trades(fills[..n])), TradeOf(fills[n]));
    }
  }

  function Tallied(fills: seq<Fill>): Tally {
    Tally(NetTotal(fills) + OldTotal(fills), |fills|, |Where(fills, Won)|)
  }

  /** The row of a symbol, of a day and of a holding time sum up exactly the fills with that
      symbol, on that day and held for such a time. */
  lemma RowsOfFills(fills: seq<Fill>, symbol: string, day: int, i: nat)
    requires i < 5
    ensures TallyOf(Of(Trades(fills), SymbolOf, symbol)) == Tallied(Where(fills, f => HasSymbol(f, symbol)))
    ensures TallyOf(Of(Trades(fills), DayOf, day)) == Tallied(Where(fills, f => OnDay(f, day)))
    ensures var held := Where(fills, f => HeldFor(f, i)); var b := Bucket(Trades(fills), i);
      && b.wins == |Where(held, Won)| && b.wins + b.losses == |held|
      && b.name == ["0-1 min", "1-5 min", "5-30 min", "30 min-2 h", "2 h+"][i]
  {
    hide TallyOf, OnDay, HeldFor, TradeOf, DayOf, Of, Held, Where;
    forall f ensures HasSymbol(f, symbol) <==> SymbolOf(TradeOf(f)) == symbol { SymbolKept(f); }
    FiltersAgree(fills, SymbolOf, symbol, f => HasSymbol(f, symbol));
    TallyOfFills(Where(fills, f => HasSymbol(f, symbol)));
    forall f ensures OnDay(f, day) <==> DayOf(TradeOf(f)) == day { DayExactly(f, day); }
    FiltersAgree(fills, DayOf, day, f => OnDay(f, day));
    TallyOfFills(Where(fills, f => OnDay(f, day)));
    HeldAgree(fills, i);
    var held := Where(fills, f => HeldFor(f, i));
    TallyOfFills(held);
    TallyParts(Trades(held));
  }

  lemma SymbolKept(fill: Fill)
    ensures SymbolOf(TradeOf(fill)) == fill.symbol
  {
  }

  lemma TallyParts(trades: seq<Trade>)
    ensures TallyOf(trades) == Tally(Sum(trades), |trades|, |Wins(trades)|)
  {
  }

  /** The durations of the fills that have one. */
  function TimeTotal(fills: seq<Fill>): int {
    if fills == [] then 0 else
      var last := fills[|fills| - 1];
      TimeTotal(fills[..|fills| - 1]) + (if last.durationMs.Some? then last.durationMs.value else 0)
  }

  /** The mean holding time is that of the fills whose time is known. */
  lemma {:induction false} TimesOfFills(fills: seq<Fill>)
    ensures DurationSum(Trades(fills)) == TimeTotal(fills)
    ensures |Timed(Trades(fills))| == |Where(fills, (f: Fill) => f.durationMs.Some?)|
  {
    if fills != [] {
      TradesAppend(fills);
      TimesOfFills(fills[..|fills| - 1]);
    }
  }

  /** An amount is shown as the nearest hundredth, on a tie the one farther from zero. */
  lemma CentsExactly(pnl: real, cents: int)
    ensures Cents(pnl) == cents <==> Nearest(cents, 100.0 * pnl)
  {
    RoundExactly(pnl * 100.0, cents);
  }

  // ---- The order of rows --------------------------------------------------

  /** The rows of one rank, in order. */
  function Same<T>(rows: seq<T>, rank: T -> int, r: int): seq<T> {
    if rows == [] then [] else
      var last := rows[|rows| - 1];
      Same(rows[..|rows| - 1], rank, r) + (if rank(last) == r then [last] else [])
  }

  lemma SameAppend<T>(rows: seq<T>, row: T, rank: T -> int, r: int)
    ensures Same(rows + [row], rank, r) == Same(rows, rank, r) + (if rank(row) == r then [row] else [])
  {
  }

  lemma {:induction false} InsertKeepsTies<T>(rows: seq<T>, row: T, rank: T -> int, r: int)
    ensures Same(Insert(rows, row, rank), rank, r) == Same(rows + [row], rank, r)
  {
    hide Same;
    SameAppend(rows, row, rank, r);
    if rows == [] {
      assert Insert(rows, row, rank) == rows + [row];
    } else if rank(rows[|rows| - 1]) > rank(row) {
      var init, last := rows[..|rows| - 1], rows[|rows| - 1];
      InsertKeepsTies(init, row, rank, r);
      SameAppend(Insert(init, row, rank), last, rank, r);
      SameAppend(init, row, rank, r);
      SameAppend(init, last, rank, r);
      assert rows == init + [last];
    }
  }

  /** Rows of the same rank keep their order. */
  lemma {:induction false} TiesKeepOrder<T>(rows: seq<T>, rank: T -> int, r: int)
    ensures Same(Ranked(rows, rank), rank, r) == Same(rows, rank, r)
  {
    hide Insert;
    if rows != [] {
      var init, last := rows[..|rows| - 1], rows[|rows| - 1];
      TiesKeepOrder(init, rank, r);
      InsertKeepsTies(Ranked(init, rank), last, rank, r);
      SameAppend(Ranked(init, rank), last, rank, r);
      assert rows == init + [last];
    }
  }

  /** The first trade with this key. */
  function First<K(==)>(trades: seq<Trade>, key: Trade -> K, k: K): nat {
    if trades == [] || key(trades[0]) == k then 0 else 1 + First(trades[1..], key, k)
  }

  lemma {:induction false} FirstAppend<K>(trades: seq<Trade>, trade: Trade, key: Trade -> K, k: K)
    ensures First(trades, key, k) <= |trades|
    ensures First(trades, key, k) < |trades| ==> First(trades + [trade], key, k) == First(trades, key, k)
    ensures First(trades, key, k) == |trades| && key(trade) == k ==> First(trades + [trade], key, k) == |trades|
  {
    if trades != [] {
      assert (trades + [trade])[1..] == trades[1..] + [trade];
      FirstAppend(trades[1..], trade, key, k);
    }
  }

  lemma {:induction false} FirstNone<K>(trades: seq<Trade>, key: Trade -> K, k: K)
    ensures k !in Order(trades, key) ==> First(trades, key, k) == |trades|
    ensures k in Order(trades, key) ==> First(trades, key, k) < |trades|
  {
    if trades != [] {
      var init, last := trades[..|trades| - 1], trades[|trades| - 1];
      FirstNone(init, key, k);
      assert trades == init + [last];
      FirstAppend(init, last, key, k);
      if k !in Order(trades, key) { FirstMisses(init, last, key, k); }
    }
  }

  lemma {:induction false} FirstMisses<K>(trades: seq<Trade>, trade: Trade, key: Trade -> K, k: K)
    requires First(trades, key, k) == |trades| && key(trade) != k
    ensures First(trades + [trade], key, k) == |trades| + 1
  {
    if trades != [] {
      assert (trades + [trade])[1..] == trades[1..] + [trade];
      FirstMisses(trades[1..], trade, key, k);
    } else {
      assert (trades + [trade])[1..] == [];
    }
  }

  /** Keys are listed by their first trade. */
  lemma {:induction false} ListedByFirst<K>(trades: seq<Trade>, key: Trade -> K)
    ensures forall i, j :: 0 <= i < j < |Order(trades, key)| ==>
      First(trades, key, Order(trades, key)[i]) < First(trades, key, Order(trades, key)[j])
  {
    if trades != [] {
      var init, last := trades[..|trades| - 1], trades[|trades| - 1];
      var keys := Order(trades, key);
      ListedByFirst(init, key);
      assert trades == init + [last];
      forall i, j | 0 <= i < j < |keys| ensures First(trades, key, keys[i]) < First(trades, key, keys[j]) {
        FirstNone(init, key, keys[i]);
        FirstNone(init, key, keys[j]);
        FirstAppend(init, last, key, keys[i]);
        FirstAppend(init, last, key, keys[j]);
      }
    }
  }
}
