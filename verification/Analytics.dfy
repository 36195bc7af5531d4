/**
 What a trader's closed trades add up to: the totals, their regroupings by day, by
 symbol and by duration, and the current streak.  Amounts are exact; display rounding
 appears only where the order of rows depends on it.
 */
module Analytics {
  import opened Options
  import opened Decimals
  import TradingDay

  /** A closing fill.  `net` is absent on rows older than the eligibility rules. */
  datatype Fill = Fill(symbol: string, realized: real, net: Option<real>, durationMs: Option<int>, occurredAt: int)

  datatype Trade = Trade(symbol: string, pnl: real, durationMs: Option<int>, occurredAt: int)

  datatype Tally = Tally(pnl: real, count: nat, wins: nat)

  /** One group of trades. */
  datatype Row<K> = Row(key: K, tally: Tally)

  function TradeOf(fill: Fill): Trade {
    Trade(fill.symbol, if fill.net.Some? then fill.net.value else fill.realized, fill.durationMs, fill.occurredAt)
  }

  function Sum(trades: seq<Trade>): real {
    if trades == [] then 0.0 else Sum(trades[..|trades| - 1]) + trades[|trades| - 1].pnl
  }

  function Wins(trades: seq<Trade>): seq<Trade> {
    if trades == [] then [] else
      var last := trades[|trades| - 1];
      Wins(trades[..|trades| - 1]) + (if last.pnl > 0.0 then [last] else [])
  }

  function Losses(trades: seq<Trade>): seq<Trade> {
    if trades == [] then [] else
      var last := trades[|trades| - 1];
      Losses(trades[..|trades| - 1]) + (if last.pnl < 0.0 then [last] else [])
  }

  // ---- Grouping ----------------------------------------------------------

  /** The trades of one group, in order. */
  function Of<K(==)>(trades: seq<Trade>, key: Trade -> K, k: K): seq<Trade> {
    if trades == [] then [] else
      var last := trades[|trades| - 1];
      Of(trades[..|trades| - 1], key, k) + (if key(last) == k then [last] else [])
  }

  function TallyOf(trades: seq<Trade>): Tally {
    Tally(Sum(trades), |trades|, |Wins(trades)|)
  }

  function Plus(t: Tally, trade: Trade): Tally {
    Tally(t.pnl + trade.pnl, t.count + 1, t.wins + (if trade.pnl > 0.0 then 1 else 0))
  }

  lemma TallyAppend(trades: seq<Trade>, trade: Trade)
    ensures TallyOf(trades + [trade]) == Plus(TallyOf(trades), trade)
  {
  }

  const NOTHING := Tally(0.0, 0, 0)

  function Entry<K(==)>(m: map<K, Tally>, k: K): Tally {
    if k in m then m[k] else NOTHING
  }

  lemma NothingTallied()
    ensures TallyOf([]) == NOTHING
  {
  }

  /** The map a grouping loop fills. */
  function Tallied<K(==)>(trades: seq<Trade>, key: Trade -> K): map<K, Tally> {
    if trades == [] then map[] else
      var done, last := Tallied(trades[..|trades| - 1], key), trades[|trades| - 1];
      done[key(last) := Plus(Entry(done, key(last)), last)]
  }

  /** The keys in the order they first occur, which is the order the map lists them. */
  function Order<K(==)>(trades: seq<Trade>, key: Trade -> K): seq<K> {
    if trades == [] then [] else
      var done, last := Order(trades[..|trades| - 1], key), trades[|trades| - 1];
      if key(last) in done then done else done + [key(last)]
  }

  function RowsOf<K(==)>(keys: seq<K>, m: map<K, Tally>): seq<Row<K>> {
    if keys == [] then [] else
      RowsOf(keys[..|keys| - 1], m) + [Row(keys[|keys| - 1], Entry(m, keys[|keys| - 1]))]
  }

  function Grouped<K(==)>(trades: seq<Trade>, key: Trade -> K): seq<Row<K>> {
    RowsOf(Order(trades, key), Tallied(trades, key))
  }

  /** The map and the order hold the same keys, each once, and every entry is the
      tally of its group. */
  lemma {:induction false} TalliedAt<K>(trades: seq<Trade>, key: Trade -> K, k: K)
    ensures (k in Tallied(trades, key)) == (k in Order(trades, key))
    ensures Entry(Tallied(trades, key), k) == TallyOf(Of(trades, key, k))
    ensures k in Order(trades, key) <==> Of(trades, key, k) != []
  {
    if trades == [] {
      NothingTallied();
    } else {
      hide TallyOf, Plus;
      TalliedAt(trades[..|trades| - 1], key, k);
      var group, last := Of(trades[..|trades| - 1], key, k), trades[|trades| - 1];
      if key(last) == k { TallyAppend(group, last); } else { assert Of(trades, key, k) == group; }
    }
  }

  ghost predicate Unique<T>(s: seq<T>) {
    forall i, j :: 0 <= i < j < |s| ==> s[i] != s[j]
  }

  lemma {:induction false} OrderUnique<K>(trades: seq<Trade>, key: Trade -> K)
    ensures Unique(Order(trades, key))
  {
    if trades != [] {
      OrderUnique(trades[..|trades| - 1], key);
    }
  }

  // ---- Conservation ------------------------------------------------------

  function Net<K>(rows: seq<Row<K>>): real {
    if rows == [] then 0.0 else Net(rows[..|rows| - 1]) + rows[|rows| - 1].tally.pnl
  }

  function Count<K>(rows: seq<Row<K>>): nat {
    if rows == [] then 0 else Count(rows[..|rows| - 1]) + rows[|rows| - 1].tally.count
  }

  function WinCount<K>(rows: seq<Row<K>>): nat {
    if rows == [] then 0 else WinCount(rows[..|rows| - 1]) + rows[|rows| - 1].tally.wins
  }

  /** Everything a grouping must add up to. */
  function Totals<K>(rows: seq<Row<K>>): Tally {
    Tally(Net(rows), Count(rows), WinCount(rows))
  }

  function Add(a: Tally, b: Tally): Tally {
    Tally(a.pnl + b.pnl, a.count + b.count, a.wins + b.wins)
  }

  lemma TotalsAppend<K>(rows: seq<Row<K>>, row: Row<K>)
    ensures Totals(rows + [row]) == Add(Totals(rows), row.tally)
  {
  }

  /** Counting a trade into the map adds it to the rows listed from it, once if its
      key is listed and not at all otherwise. */
  lemma {:induction false} RowsAfter<K>(keys: seq<K>, m: map<K, Tally>, k: K, trade: Trade)
    requires Unique(keys)
    ensures Totals(RowsOf(keys, m[k := Plus(Entry(m, k), trade)])) ==
      if k in keys then Plus(Totals(RowsOf(keys, m)), trade) else Totals(RowsOf(keys, m))
  {
    hide Totals;
    if keys != [] {
      var init, last := keys[..|keys| - 1], keys[|keys| - 1];
      var after := m[k := Plus(Entry(m, k), trade)];
      RowsAfter(init, m, k, trade);
      TotalsAppend(RowsOf(init, m), Row(last, Entry(m, last)));
      TotalsAppend(RowsOf(init, after), Row(last, Entry(after, last)));
      assert keys == init + [last];
      assert last !in init;
    } else {
      assert RowsOf(keys, m[k := Plus(Entry(m, k), trade)]) == RowsOf(keys, m);
    }
  }

  /** Grouping by any key loses nothing and counts nothing twice. */
  lemma {:induction false} GroupsConserve<K>(trades: seq<Trade>, key: Trade -> K)
    ensures Totals(Grouped(trades, key)) == TallyOf(trades)
  {
    if trades == [] {
      NothingTallied();
    } else {
      hide Totals, TallyOf, Plus, RowsOf;
      var init, last := trades[..|trades| - 1], trades[|trades| - 1];
      assert trades == init + [last];
      TallyAppend(init, last);
      GroupsConserve(init, key);
      OrderUnique(init, key);
      var keys, m, k := Order(init, key), Tallied(init, key), key(last);
      TalliedAt(init, key, k);
      OneMore(keys, m, k, last);
    }
  }

  lemma PlusIsAdd(t: Tally, trade: Trade)
    ensures Plus(t, trade) == Add(t, Plus(NOTHING, trade))
  {
  }

  lemma OneMore<K>(keys: seq<K>, m: map<K, Tally>, k: K, trade: Trade)
    requires Unique(keys) && (k in m) == (k in keys)
    ensures var after := m[k := Plus(Entry(m, k), trade)];
      Totals(RowsOf(if k in keys then keys else keys + [k], after)) == Plus(Totals(RowsOf(keys, m)), trade)
  {
    hide Totals;
    var after := m[k := Plus(Entry(m, k), trade)];
    RowsAfter(keys, m, k, trade);
    if k !in keys {
      assert (keys + [k])[..|keys|] == keys;
      assert RowsOf(keys + [k], after) == RowsOf(keys, after) + [Row(k, after[k])];
      hide RowsOf;
      TotalsAppend(RowsOf(keys, after), Row(k, after[k]));
      PlusIsAdd(Totals(RowsOf(keys, m)), trade);
    }
  }

  // ---- Sorting rows ------------------------------------------------------

  /** Stable ascending order by a rank. */
  function Ranked<T>(rows: seq<T>, rank: T -> int): seq<T> {
    if rows == [] then [] else Insert(Ranked(rows[..|rows| - 1], rank), rows[|rows| - 1], rank)
  }

  /** After every row of the same rank. */
  function Insert<T>(rows: seq<T>, row: T, rank: T -> int): seq<T> {
    if rows == [] then [row]
    else if rank(rows[|rows| - 1]) <= rank(row) then rows + [row]
    else Insert(rows[..|rows| - 1], row, rank) + [rows[|rows| - 1]]
  }

  ghost predicate Ascending<T>(rows: seq<T>, rank: T -> int) {
    forall i, j :: 0 <= i < j < |rows| ==> rank(rows[i]) <= rank(rows[j])
  }

  lemma {:induction false} InsertAdds<T>(rows: seq<T>, row: T, rank: T -> int)
    ensures multiset(Insert(rows, row, rank)) == multiset(rows) + multiset{row}
  {
    if rows != [] && rank(rows[|rows| - 1]) > rank(row) {
      InsertAdds(rows[..|rows| - 1], row, rank);
      assert rows == rows[..|rows| - 1] + [rows[|rows| - 1]];
    }
  }

  lemma {:induction false} InsertAscends<T>(rows: seq<T>, row: T, rank: T -> int)
    requires Ascending(rows, rank)
    ensures Ascending(Insert(rows, row, rank), rank)
    ensures forall i :: 0 <= i < |Insert(rows, row, rank)| ==>
      || rank(Insert(rows, row, rank)[i]) <= rank(row)
      || (rows != [] && rank(Insert(rows, row, rank)[i]) <= rank(rows[|rows| - 1]))
  {
    if rows != [] && rank(rows[|rows| - 1]) > rank(row) {
      InsertAscends(rows[..|rows| - 1], row, rank);
    }
  }

  /** The rows, neither lost nor repeated, in ascending order. */
  lemma {:induction false} RankedIsSorted<T>(rows: seq<T>, rank: T -> int)
    ensures multiset(Ranked(rows, rank)) == multiset(rows) && Ascending(Ranked(rows, rank), rank)
  {
    if rows != [] {
      var init, last := rows[..|rows| - 1], rows[|rows| - 1];
      RankedIsSorted(init, rank);
      assert rows == init + [last];
      assert Ranked(rows, rank) == Insert(Ranked(init, rank), last, rank);
      hide Ranked, Insert, Ascending;
      InsertAdds(Ranked(init, rank), last, rank);
      InsertAscends(Ranked(init, rank), last, rank);
    }
  }

  lemma {:induction false} InsertConserves<K>(rows: seq<Row<K>>, row: Row<K>, rank: Row<K> -> int)
    ensures Totals(Insert(rows, row, rank)) == Add(Totals(rows), row.tally)
  {
    hide Totals;
    if rows != [] && rank(rows[|rows| - 1]) > rank(row) {
      var init, last := rows[..|rows| - 1], rows[|rows| - 1];
      InsertConserves(init, row, rank);
      TotalsAppend(Insert(init, row, rank), last);
      TotalsAppend(init, last);
      assert rows == init + [last];
    } else {
      assert rows == [] ==> rows + [row] == [row];
      TotalsAppend(rows, row);
    }
  }

  lemma {:induction false} RankedConserves<K>(rows: seq<Row<K>>, rank: Row<K> -> int)
    ensures Totals(Ranked(rows, rank)) == Totals(rows)
  {
    hide Totals;
    if rows != [] {
      var init, last := rows[..|rows| - 1], rows[|rows| - 1];
      RankedConserves(init, rank);
      InsertConserves(Ranked(init, rank), last, rank);
      TotalsAppend(init, last);
      assert rows == init + [last];
    }
  }

  /** The last of the highest rows, and the first of the lowest. */
  ghost predicate LastHighest<T>(rows: seq<T>, rank: T -> int, k: int) {
    && 0 <= k < |rows|
    && (forall i :: 0 <= i < |rows| ==> rank(rows[i]) <= rank(rows[k]))
    && (forall i :: k < i < |rows| ==> rank(rows[i]) < rank(rows[k]))
  }

  ghost predicate FirstLowest<T>(rows: seq<T>, rank: T -> int, k: int) {
    && 0 <= k < |rows|
    && (forall i :: 0 <= i < |rows| ==> rank(rows[k]) <= rank(rows[i]))
    && (forall i :: 0 <= i < k ==> rank(rows[k]) < rank(rows[i]))
  }

  lemma InsertEnds<T>(rows: seq<T>, row: T, rank: T -> int)
    requires rows != [] && Ascending(rows, rank)
    ensures var after := Insert(rows, row, rank);
      && |after| == |rows| + 1
      && after[|after| - 1] == (if rank(rows[|rows| - 1]) <= rank(row) then row else rows[|rows| - 1])
      && after[0] == (if rank(rows[0]) <= rank(row) then rows[0] else row)
    decreases |rows|
  {
  }

  lemma {:induction false} RankedEnds<T>(rows: seq<T>, rank: T -> int) returns (low: int, high: int)
    requires rows != []
    ensures |Ranked(rows, rank)| == |rows|
    ensures FirstLowest(rows, rank, low) && Ranked(rows, rank)[0] == rows[low]
    ensures LastHighest(rows, rank, high) && Ranked(rows, rank)[|rows| - 1] == rows[high]
  {
    var init, last := rows[..|rows| - 1], rows[|rows| - 1];
    assert Ranked(rows, rank) == Insert(Ranked(init, rank), last, rank);
    assert rows == init + [last];
    if init == [] {
      low, high := 0, 0;
    } else {
      var l, h := RankedEnds(init, rank);
      RankedIsSorted(init, rank);
      InsertEnds(Ranked(init, rank), last, rank);
      EndsAppend(init, last, rank, l, h);
      hide Ranked, Insert, Ascending, FirstLowest, LastHighest;
      low := if rank(init[l]) > rank(last) then |init| else l;
      high := if rank(init[h]) <= rank(last) then |init| else h;
    }
  }

  lemma EndsAppend<T>(rows: seq<T>, row: T, rank: T -> int, low: int, high: int)
    requires FirstLowest(rows, rank, low) && LastHighest(rows, rank, high)
    ensures FirstLowest(rows + [row], rank, if rank(rows[low]) > rank(row) then |rows| else low)
    ensures LastHighest(rows + [row], rank, if rank(rows[high]) <= rank(row) then |rows| else high)
  {
  }

  // ---- By day and by symbol ----------------------------------------------

  /** The UTC day of a trade, by its number. */
  function DayOf(trade: Trade): int {
    trade.occurredAt / TradingDay.DAY_MS
  }

  /** Grouping by day number is grouping by calendar date. */
  lemma SameDate(a: Trade, b: Trade)
    ensures DayOf(a) == DayOf(b) <==> TradingDay.TradingDayOf(a.occurredAt) == TradingDay.TradingDayOf(b.occurredAt)
  {
  }

  function SymbolOf(trade: Trade): string {
    trade.symbol
  }

  /** A net result as displayed, in hundredths. */
  function Cents(pnl: real): int {
    Round(pnl * 100.0)
  }

  function ByDate(row: Row<int>): int {
    row.key
  }

  function ByNet<K>(row: Row<K>): int {
    Cents(row.tally.pnl)
  }

  function ByNetDown<K>(row: Row<K>): int {
    -Cents(row.tally.pnl)
  }

  function Daily(trades: seq<Trade>): seq<Row<int>> {
    Ranked(Grouped(trades, DayOf), ByDate)
  }

  function BySymbol(trades: seq<Trade>): seq<Row<string>> {
    Ranked(Grouped(trades, SymbolOf), ByNetDown<string>)
  }

  method Listing<K(==)>(order: seq<K>, m: map<K, Tally>) returns (rows: seq<Row<K>>)
    requires forall k :: k in order ==> k in m
    ensures rows == RowsOf(order, m)
  {
    rows := [];
    for i := 0 to |order|
      invariant rows == RowsOf(order[..i], m)
    {
      assert order[..i + 1][..i] == order[..i];
      rows := rows + [Row(order[i], m[order[i]])];
    }
    assert order[..|order|] == order;
  }

  method GroupByDay(trades: seq<Trade>) returns (days: seq<Row<int>>)
    ensures days == Daily(trades)
    ensures Totals(days) == TallyOf(trades)
    ensures forall i, j :: 0 <= i < j < |days| ==> days[i].key < days[j].key
    ensures forall t :: t in trades ==> Row(DayOf(t), TallyOf(Of(trades, DayOf, DayOf(t)))) in days
    ensures forall row :: row in days ==>
      row.tally == TallyOf(Of(trades, DayOf, row.key)) && Of(trades, DayOf, row.key) != []
  {
    hide Plus, TallyOf;
    var byDate: map<int, Tally>, order: seq<int> := map[], [];
    for i := 0 to |trades|
      invariant byDate == Tallied(trades[..i], DayOf)
      invariant order == Order(trades[..i], DayOf)
    {
      assert trades[..i + 1][..i] == trades[..i];
      TalliedAt(trades[..i], DayOf, DayOf(trades[i]));
      var result := trades[i];
      var date := result.occurredAt / TradingDay.DAY_MS;
      var entry := Entry(byDate, date);
      if date !in byDate { order := order + [date]; }
      byDate := byDate[date := Plus(entry, result)];
    }
    assert trades[..|trades|] == trades;
    forall k | k in order ensures k in byDate { TalliedAt(trades, DayOf, k); }
    var rows := Listing(order, byDate);
    days := Ranked(rows, ByDate);
    GroupedRows(trades, DayOf, ByDate);
    DaysAscend(trades);
  }

  /** A percentage rounded to a whole number. */
  predicate Near(percent: int, part: nat, whole: nat)
    requires whole > 0
  {
    Nearest(percent, part as real / whole as real * 100.0)
  }

  function Percent(part: nat, whole: nat): (percent: int)
    requires whole > 0
    ensures Near(percent, part, whole)
  {
    RoundExactly(part as real / whole as real * 100.0, Round(part as real / whole as real * 100.0));
    Round(part as real / whole as real * 100.0)
  }

  method GroupBySymbol(trades: seq<Trade>) returns (rows: seq<Row<string>>, winRates: seq<int>)
    ensures rows == BySymbol(trades)
    ensures Totals(rows) == TallyOf(trades)
    ensures forall i, j :: 0 <= i < j < |rows| ==>
      rows[i].key != rows[j].key && Cents(rows[i].tally.pnl) >= Cents(rows[j].tally.pnl)
    ensures forall t :: t in trades ==> Row(t.symbol, TallyOf(Of(trades, SymbolOf, t.symbol))) in rows
    ensures |winRates| == |rows| && forall i :: 0 <= i < |rows| ==>
      rows[i].tally.count > 0 && Near(winRates[i], rows[i].tally.wins, rows[i].tally.count)
    ensures forall row :: row in rows ==>
      row.tally == TallyOf(Of(trades, SymbolOf, row.key)) && Of(trades, SymbolOf, row.key) != []
  {
    hide Plus, TallyOf;
    var bySymbol: map<string, Tally>, order: seq<string> := map[], [];
    for i := 0 to |trades|
      invariant bySymbol == Tallied(trades[..i], SymbolOf)
      invariant order == Order(trades[..i], SymbolOf)
    {
      assert trades[..i + 1][..i] == trades[..i];
      TalliedAt(trades[..i], SymbolOf, SymbolOf(trades[i]));
      var result := trades[i];
      var entry := Entry(bySymbol, result.symbol);
      if result.symbol !in bySymbol { order := order + [result.symbol]; }
      bySymbol := bySymbol[result.symbol := Plus(entry, result)];
    }
    assert trades[..|trades|] == trades;
    forall k | k in order ensures k in bySymbol { TalliedAt(trades, SymbolOf, k); }
    var listed := Listing(order, bySymbol);
    rows := Ranked(listed, ByNetDown<string>);
    GroupedRows(trades, SymbolOf, ByNetDown<string>);
    SymbolsApart(trades);
    winRates := WinRates(rows, trades);
  }

  method WinRates(rows: seq<Row<string>>, ghost trades: seq<Trade>) returns (rates: seq<int>)
    requires forall row :: row in rows ==>
      row.tally == TallyOf(Of(trades, SymbolOf, row.key)) && Of(trades, SymbolOf, row.key) != []
    ensures |rates| == |rows| && forall i :: 0 <= i < |rows| ==>
      rows[i].tally.count > 0 && Near(rates[i], rows[i].tally.wins, rows[i].tally.count)
  {
    hide Near, Of, Sum, Wins;
    rates := [];
    for i := 0 to |rows|
      invariant |rates| == i
      invariant forall j :: 0 <= j < i ==>
        rows[j].tally.count > 0 && Near(rates[j], rows[j].tally.wins, rows[j].tally.count)
    {
      assert rows[i] in rows;
      rates := rates + [Percent(rows[i].tally.wins, rows[i].tally.count)];
    }
  }

  lemma {:induction false} RowsOfAt<K>(keys: seq<K>, m: map<K, Tally>)
    ensures |RowsOf(keys, m)| == |keys|
    ensures forall i :: 0 <= i < |keys| ==> RowsOf(keys, m)[i] == Row(keys[i], Entry(m, keys[i]))
  {
    if keys != [] {
      RowsOfAt(keys[..|keys| - 1], m);
    }
  }

  lemma {:induction false} KeyListed<K>(trades: seq<Trade>, key: Trade -> K, t: Trade)
    requires t in trades
    ensures key(t) in Order(trades, key)
  {
    var init, last := trades[..|trades| - 1], trades[|trades| - 1];
    if t != last {
      assert t in init;
      KeyListed(init, key, t);
    }
  }

  /** The rows of a sorted grouping: one for each key that occurs, with the tally of its
      group, adding up to the whole. */
  lemma GroupedRows<K>(trades: seq<Trade>, key: Trade -> K, rank: Row<K> -> int)
    ensures var rows := Ranked(Grouped(trades, key), rank);
      && Totals(rows) == TallyOf(trades)
      && (forall t :: t in trades ==> Row(key(t), TallyOf(Of(trades, key, key(t)))) in rows)
      && forall row :: row in rows ==>
           row.tally == TallyOf(Of(trades, key, row.key)) && Of(trades, key, row.key) != []
  {
    hide Totals, TallyOf, Of, Order, Tallied, RowsOf, Ranked;
    var grouped := Grouped(trades, key);
    GroupsConserve(trades, key);
    RankedConserves(grouped, rank);
    RankedIsSorted(grouped, rank);
    var rows := Ranked(grouped, rank);
    var keys, m := Order(trades, key), Tallied(trades, key);
    RowsOfAt(keys, m);
    forall t | t in trades ensures Row(key(t), TallyOf(Of(trades, key, key(t)))) in rows {
      KeyListed(trades, key, t);
      TalliedAt(trades, key, key(t));
      var i :| 0 <= i < |keys| && keys[i] == key(t);
      assert grouped[i] in multiset(rows);
    }
    forall row | row in rows
      ensures row.tally == TallyOf(Of(trades, key, row.key)) && Of(trades, key, row.key) != []
    {
      assert row in multiset(grouped);
      var i :| 0 <= i < |grouped| && grouped[i] == row;
      TalliedAt(trades, key, keys[i]);
    }
  }

  /** No key twice. */
  ghost predicate Apart<K(!new)>(rows: seq<Row<K>>) {
    forall i, j :: 0 <= i < j < |rows| ==> rows[i].key != rows[j].key
  }

  lemma {:induction false} InsertApart<K(!new)>(rows: seq<Row<K>>, row: Row<K>, rank: Row<K> -> int)
    requires Apart(rows) && forall i :: 0 <= i < |rows| ==> rows[i].key != row.key
    ensures Apart(Insert(rows, row, rank))
    ensures forall r :: r in Insert(rows, row, rank) <==> r in rows || r == row
  {
    if rows != [] && rank(rows[|rows| - 1]) > rank(row) {
      var init, last := rows[..|rows| - 1], rows[|rows| - 1];
      InsertApart(init, row, rank);
      var inserted := Insert(init, row, rank);
      assert rows == init + [last];
      forall i | 0 <= i < |inserted| ensures inserted[i].key != last.key {
        assert inserted[i] in inserted;
        if inserted[i] != row {
          var j :| 0 <= j < |init| && init[j] == inserted[i];
          assert rows[j] == init[j];
        }
      }
    }
  }

  lemma {:induction false} RankedApart<K(!new)>(rows: seq<Row<K>>, rank: Row<K> -> int)
    requires Apart(rows)
    ensures Apart(Ranked(rows, rank))
    ensures forall r :: r in Ranked(rows, rank) <==> r in rows
  {
    if rows != [] {
      var init, last := rows[..|rows| - 1], rows[|rows| - 1];
      RankedApart(init, rank);
      var ranked := Ranked(init, rank);
      assert rows == init + [last];
      forall i | 0 <= i < |ranked| ensures ranked[i].key != last.key {
        assert ranked[i] in init;
        var j :| 0 <= j < |init| && init[j] == ranked[i];
        assert rows[j] == init[j];
      }
      InsertApart(ranked, last, rank);
    }
  }

  lemma GroupedApart<K(!new)>(trades: seq<Trade>, key: Trade -> K, rank: Row<K> -> int)
    ensures Apart(Ranked(Grouped(trades, key), rank))
  {
    hide Ranked, RowsOf;
    OrderUnique(trades, key);
    RowsOfAt(Order(trades, key), Tallied(trades, key));
    RankedApart(Grouped(trades, key), rank);
  }

  lemma DaysAscend(trades: seq<Trade>)
    ensures var days := Daily(trades); forall i, j :: 0 <= i < j < |days| ==> days[i].key < days[j].key
  {
    hide Ranked, Grouped;
    GroupedApart(trades, DayOf, ByDate);
    RankedIsSorted(Grouped(trades, DayOf), ByDate);
    var days := Daily(trades);
    forall i, j | 0 <= i < j < |days| ensures days[i].key < days[j].key {
      assert ByDate(days[i]) <= ByDate(days[j]);
    }
  }

  lemma SymbolsApart(trades: seq<Trade>)
    ensures var rows := BySymbol(trades);
      forall i, j :: 0 <= i < j < |rows| ==>
        rows[i].key != rows[j].key && Cents(rows[i].tally.pnl) >= Cents(rows[j].tally.pnl)
  {
    hide Ranked, Grouped;
    GroupedApart(trades, SymbolOf, ByNetDown<string>);
    RankedIsSorted(Grouped(trades, SymbolOf), ByNetDown<string>);
    var rows := BySymbol(trades);
    forall i, j | 0 <= i < j < |rows| ensures Cents(rows[i].tally.pnl) >= Cents(rows[j].tally.pnl) {
      assert ByNetDown(rows[i]) <= ByNetDown(rows[j]);
    }
  }
}
