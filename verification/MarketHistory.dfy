/**
 The history contract between server and browser: the replay watermark, the
 window validator and the merge of finalized candles.
 */
module MarketHistory {
  import opened Options
  import opened Timeframes
  import opened MarketCandles
  import opened Sorting

  /** The sequence up to which a window already represents the stream; None asks
      for the whole buffer. */
  function ReplayAfterSequence<P>(
    currentCandle: Option<Candle<P>>,
    currentThrough: Option<int>,
    finalizedThrough: Option<int>): Option<int>
  {
    if currentCandle.Some? && currentThrough.Some? then currentThrough else finalizedThrough
  }

  /** The boundary is the open candle's where it comes with one, and the finalized candles'
      otherwise; the whole buffer is asked for exactly when neither is known. */
  lemma BoundaryExactly<P>(currentCandle: Option<Candle<P>>, currentThrough: Option<int>, finalizedThrough: Option<int>)
    ensures var r := ReplayAfterSequence(currentCandle, currentThrough, finalizedThrough);
      && (r.None? <==> finalizedThrough.None? && (currentCandle.None? || currentThrough.None?))
      && (currentCandle.Some? && currentThrough.Some? ==> r == currentThrough)
      && (currentCandle.None? ==> r == finalizedThrough)
      && (currentThrough.None? ==> r == finalizedThrough)
  {
  }

  // ---- Validation -------------------------------------------------------

  /** A price as it travels: a decimal string with its numeric value in the
      symbol's smallest unit, or text that is no decimal. */
  datatype WirePrice = Decimal(value: int, text: string) | NotDecimal(text: string)

  datatype Window = Window(
    timeframe: Timeframe,
    candles: seq<Candle<WirePrice>>,
    currentCandle: Option<Candle<WirePrice>>,
    historyThrough: Option<int>,
    nextCursor: Option<int>)

  const MAX_CANDLES := 1000

  datatype Relation = HighBelowLow | HighBelowOpen | HighBelowClose | LowAboveOpen | LowAboveClose

  datatype Fault =
    | TooMany(count: int)
    | Misaligned(startTime: int)
    | PriceNotDecimal(startTime: int)
    | BrokenPrices(startTime: int, relation: Relation)
    | Duplicate(startTime: int)
    | NotAscending(startTime: int, previous: int)
    | CurrentNotLater(startTime: int, newest: int)
    | WrongThrough(expected: int)
    | WrongCursor(oldest: int)
    | ThroughWithoutCandles

  /** Conversion to a binary number never reverses an order. */
  ghost predicate Monotone(toNumber: int -> real) {
    forall x, y :: x <= y ==> toNumber(x) <= toNumber(y)
  }

  predicate AllDecimal(c: Candle<WirePrice>) {
    c.open.Decimal? && c.high.Decimal? && c.low.Decimal? && c.close.Decimal?
  }

  /** Prices are compared as converted numbers. */
  function BrokenRelation(c: Candle<WirePrice>, toNumber: int -> real): Option<Relation>
    requires AllDecimal(c)
  {
    var open, high, low, close :=
      toNumber(c.open.value), toNumber(c.high.value), toNumber(c.low.value), toNumber(c.close.value);
    if high < low then Some(HighBelowLow)
    else if high < open then Some(HighBelowOpen)
    else if high < close then Some(HighBelowClose)
    else if low > open then Some(LowAboveOpen)
    else if low > close then Some(LowAboveClose)
    else None
  }

  predicate Holds(r: Relation, open: real, high: real, low: real, close: real) {
    match r
    case HighBelowLow => high < low
    case HighBelowOpen => high < open
    case HighBelowClose => high < close
    case LowAboveOpen => open < low
    case LowAboveClose => close < low
  }

  /** In the order of the declaration. */
  function Rank(r: Relation): nat {
    match r
    case HighBelowLow => 0
    case HighBelowOpen => 1
    case HighBelowClose => 2
    case LowAboveOpen => 3
    case LowAboveClose => 4
  }

  /** A relation is reported exactly if it is broken and none before it is. */
  lemma ReportedExactly(c: Candle<WirePrice>, toNumber: int -> real, r: Relation)
    requires AllDecimal(c)
    ensures var open, high, low, close :=
        toNumber(c.open.value), toNumber(c.high.value), toNumber(c.low.value), toNumber(c.close.value);
      BrokenRelation(c, toNumber) == Some(r) <==>
      Holds(r, open, high, low, close) && forall q: Relation :: Rank(q) < Rank(r) ==> !Holds(q, open, high, low, close)
  {
    var open, high, low, close :=
      toNumber(c.open.value), toNumber(c.high.value), toNumber(c.low.value), toNumber(c.close.value);
    var found := BrokenRelation(c, toNumber);
    if found.Some? {
      assert Holds(found.value, open, high, low, close) && Rank(found.value) < 5;
      assert Rank(found.value) <= Rank(r) || !Holds(r, open, high, low, close);
    } else {
      assert !Holds(r, open, high, low, close);
    }
  }

  predicate WellShaped(c: Candle<WirePrice>, tf: Timeframe, toNumber: int -> real) {
    && Aligned(c.startTime, tf)
    && AllDecimal(c)
    && toNumber(c.low.value) <= toNumber(c.open.value) <= toNumber(c.high.value)
    && toNumber(c.low.value) <= toNumber(c.close.value) <= toNumber(c.high.value)
  }

  function CandleFault(c: Candle<WirePrice>, tf: Timeframe, toNumber: int -> real): (fault: Option<Fault>)
    ensures fault == None <==> WellShaped(c, tf, toNumber)
  {
    if !Aligned(c.startTime, tf) then Some(Misaligned(c.startTime))
    else if !AllDecimal(c) then Some(PriceNotDecimal(c.startTime))
    else match BrokenRelation(c, toNumber)
      case Some(relation) => Some(BrokenPrices(c.startTime, relation))
      case None => None
  }

  /** What an accepted window is: bounded, well shaped, strictly ascending, with a
      later current candle and a boundary that matches its newest and oldest. */
  ghost predicate ValidWindow(w: Window, limit: int, toNumber: int -> real) {
    && |w.candles| <= limit && |w.candles| <= MAX_CANDLES
    && (forall c :: c in w.candles ==> WellShaped(c, w.timeframe, toNumber))
    && Ascending(w.candles)
    && (w.currentCandle.Some? ==>
          && WellShaped(w.currentCandle.value, w.timeframe, toNumber)
          && forall c :: c in w.candles ==> c.startTime < w.currentCandle.value.startTime)
    && (if w.candles == [] then w.historyThrough == None else
          && w.historyThrough == Some(BucketEnd(w.candles[|w.candles| - 1].startTime, w.timeframe))
          && (w.nextCursor == None || w.nextCursor == Some(w.candles[0].startTime)))
  }

  lemma {:induction false} NeighboursAscend<P>(cs: seq<Candle<P>>)
    requires forall i :: 0 < i < |cs| ==> cs[i - 1].startTime < cs[i].startTime
    ensures Ascending(cs)
  {
    if cs != [] {
      var init := cs[..|cs| - 1];
      NeighboursAscend(init);
      if init != [] { assert forall i :: 0 <= i < |init| - 1 ==> init[i].startTime < init[|init| - 1].startTime; }
    }
  }

  /** Looking at neighbours, at the newest and at the oldest candle is enough: a window is valid
      exactly if each candle is well shaped and later than the one before it, the current one
      later than the newest, and boundary and cursor those of the newest and the oldest. */
  lemma NeighboursSuffice(w: Window, limit: int, toNumber: int -> real)
    ensures var cs, n := w.candles, |w.candles|;
      ValidWindow(w, limit, toNumber) <==>
      && n <= (if limit < 1000 then limit else 1000)
      && (forall i :: 0 <= i < n ==> WellShaped(cs[i], w.timeframe, toNumber))
      && (forall i :: 0 < i < n ==> cs[i - 1].startTime < cs[i].startTime)
      && (w.currentCandle.Some? ==> WellShaped(w.currentCandle.value, w.timeframe, toNumber))
      && (w.currentCandle.Some? && n > 0 ==> cs[n - 1].startTime < w.currentCandle.value.startTime)
      && (w.historyThrough.Some? <==> n > 0)
      && (n > 0 ==> w.historyThrough.value == BucketEnd(cs[n - 1].startTime, w.timeframe))
      && (n > 0 && w.nextCursor.Some? ==> w.nextCursor.value == cs[0].startTime)
  {
    hide WellShaped, BucketEnd;
    if forall i :: 0 < i < |w.candles| ==> w.candles[i - 1].startTime < w.candles[i].startTime {
      NeighboursAscend(w.candles);
    }
  }

  /** The reported fault is really there. */
  ghost predicate Shows(fault: Fault, w: Window, limit: int, toNumber: int -> real) {
    match fault
    case TooMany(count) => count == |w.candles| && (count > limit || count > MAX_CANDLES)
    case Misaligned(_) => ShownByCandle(fault, w, toNumber)
    case PriceNotDecimal(_) => ShownByCandle(fault, w, toNumber)
    case BrokenPrices(_, _) => ShownByCandle(fault, w, toNumber)
    case Duplicate(start) =>
      exists i :: 0 < i < |w.candles| && w.candles[i - 1].startTime == w.candles[i].startTime == start
    case NotAscending(start, previous) =>
      && start < previous
      && exists i :: 0 < i < |w.candles| && w.candles[i - 1].startTime == previous && w.candles[i].startTime == start
    case CurrentNotLater(start, newest) =>
      && w.currentCandle.Some? && w.currentCandle.value.startTime == start <= newest
      && exists c :: c in w.candles && c.startTime == newest
    case WrongThrough(expected) =>
      && w.candles != [] && w.historyThrough != Some(expected)
      && expected == BucketEnd(w.candles[|w.candles| - 1].startTime, w.timeframe)
    case WrongCursor(oldest) =>
      w.candles != [] && oldest == w.candles[0].startTime && w.nextCursor.Some? && w.nextCursor != Some(oldest)
    case ThroughWithoutCandles => w.candles == [] && w.historyThrough.Some?
  }

  ghost predicate ShownByCandle(fault: Fault, w: Window, toNumber: int -> real) {
    || (w.currentCandle.Some? && CandleFault(w.currentCandle.value, w.timeframe, toNumber) == Some(fault))
    || exists c :: c in w.candles && CandleFault(c, w.timeframe, toNumber) == Some(fault)
  }

  method ValidateHistoryWindow(w: Window, limit: int, toNumber: int -> real) returns (fault: Option<Fault>)
    ensures fault == None <==> ValidWindow(w, limit, toNumber)
    ensures fault.Some? ==> Shows(fault.value, w, limit, toNumber)
  {
    hide CandleFault, WellShaped, BucketEnd;
    if |w.candles| > limit || |w.candles| > MAX_CANDLES {
      return Some(TooMany(|w.candles|));
    }
    var previousStart: Option<int> := None;
    for i := 0 to |w.candles|
      invariant previousStart == if i == 0 then None else Some(w.candles[i - 1].startTime)
      invariant forall k :: 0 <= k < i ==> WellShaped(w.candles[k], w.timeframe, toNumber)
      invariant forall j, k :: 0 <= j < k < i ==> w.candles[j].startTime < w.candles[k].startTime
    {
      var candle := w.candles[i];
      var shape := CandleFault(candle, w.timeframe, toNumber);
      if shape.Some? {
        FaultOfCandle(w, i, limit, toNumber);
        return shape;
      }
      if previousStart.Some? {
        if candle.startTime == previousStart.value {
          return Some(Duplicate(candle.startTime));
        }
        if candle.startTime < previousStart.value {
          return Some(NotAscending(candle.startTime, previousStart.value));
        }
      }
      previousStart := Some(candle.startTime);
    }
    var newest := previousStart;
    if w.currentCandle.Some? {
      var shape := CandleFault(w.currentCandle.value, w.timeframe, toNumber);
      if shape.Some? {
        FaultOfCurrent(w, limit, toNumber);
        return shape;
      }
      if newest.Some? && w.currentCandle.value.startTime <= newest.value {
        assert w.candles[|w.candles| - 1] in w.candles;
        return Some(CurrentNotLater(w.currentCandle.value.startTime, newest.value));
      }
    }
    if newest.Some? {
      var expected := BucketEnd(newest.value, w.timeframe);
      if w.historyThrough != Some(expected) {
        return Some(WrongThrough(expected));
      }
      if w.nextCursor.Some? && w.nextCursor != Some(w.candles[0].startTime) {
        return Some(WrongCursor(w.candles[0].startTime));
      }
    } else if w.historyThrough.Some? {
      return Some(ThroughWithoutCandles);
    }
    return None;
  }

  lemma FaultOfCandle(w: Window, i: int, limit: int, toNumber: int -> real)
    requires 0 <= i < |w.candles| && CandleFault(w.candles[i], w.timeframe, toNumber).Some?
    ensures Shows(CandleFault(w.candles[i], w.timeframe, toNumber).value, w, limit, toNumber)
    ensures !ValidWindow(w, limit, toNumber)
  {
  }

  lemma FaultOfCurrent(w: Window, limit: int, toNumber: int -> real)
    requires w.currentCandle.Some? && CandleFault(w.currentCandle.value, w.timeframe, toNumber).Some?
    ensures Shows(CandleFault(w.currentCandle.value, w.timeframe, toNumber).value, w, limit, toNumber)
    ensures !ValidWindow(w, limit, toNumber)
  {
  }

  // ---- Merging ----------------------------------------------------------

  datatype MergeResult<P> = Merged(candles: seq<Candle<P>>) | Conflict(startTime: int)

  /** The last candle given for each start. */
  function ByStart<P>(cs: seq<Candle<P>>): map<int, Candle<P>> {
    if cs == [] then map[] else
      ByStart(cs[..|cs| - 1])[cs[|cs| - 1].startTime := cs[|cs| - 1]]
  }

  lemma ByStartNone<P>()
    ensures ByStart<P>([]) == map[]
  {
  }

  lemma ByStartAppend<P>(cs: seq<Candle<P>>, c: Candle<P>)
    ensures ByStart(cs + [c]) == ByStart(cs)[c.startTime := c]
  {
  }

  predicate Keyed<P>(m: map<int, Candle<P>>) {
    forall k :: k in m ==> m[k].startTime == k
  }

  lemma {:induction false} ByStartKeyed<P>(cs: seq<Candle<P>>)
    ensures Keyed(ByStart(cs))
    ensures forall k :: k in ByStart(cs) ==> ByStart(cs)[k] in cs
    ensures forall c :: c in cs ==> c.startTime in ByStart(cs)
  {
    if cs != [] { ByStartKeyed(cs[..|cs| - 1]); }
  }

  lemma SortedByTime<P>(m: map<int, Candle<P>>)
    requires Keyed(m)
    ensures var cs := SortedValues(m); Ascending(cs) && forall c :: c in cs ==> c.startTime in m && m[c.startTime] == c
  {
    hide SortedValues, SortedKeys;
    var cs, ks := SortedValues(m), SortedKeys(m.Keys);
    forall i | 0 <= i < |cs|
      ensures i < |ks| && ks[i] in m && cs[i] == m[ks[i]]
    {
      ValueAt(m, i);
    }
    StartsAreKeys(m, ks, cs);
  }

  lemma StartsAreKeys<P>(m: map<int, Candle<P>>, ks: seq<int>, cs: seq<Candle<P>>)
    requires Keyed(m) && Increasing(ks)
    requires forall i :: 0 <= i < |cs| ==> i < |ks| && ks[i] in m && cs[i] == m[ks[i]]
    ensures Ascending(cs)
    ensures forall c :: c in cs ==> c.startTime in m && m[c.startTime] == c
  {
    forall c | c in cs ensures c.startTime in m && m[c.startTime] == c {
      var i :| 0 <= i < |cs| && cs[i] == c;
      assert m[ks[i]] == c;
    }
  }

  /** The candles of a map from starts, sorted by start. */
  function ByTime<P>(m: map<int, Candle<P>>): (cs: seq<Candle<P>>)
    requires Keyed(m)
    ensures Ascending(cs)
    ensures forall c :: c in cs ==> c.startTime in m && m[c.startTime] == c
    ensures forall k :: k in m ==> m[k] in cs
  {
    SortedByTime(m);
    SortedValues(m)
  }

  /** The candle at `i` contradicts what is already held for its start. */
  predicate Clashes<P(==)>(existing: seq<Candle<P>>, incoming: seq<Candle<P>>, i: int)
    requires 0 <= i < |incoming|
  {
    var held := ByStart(existing + incoming[..i]);
    incoming[i].startTime in held && held[incoming[i].startTime] != incoming[i]
  }

  /** The merged series, unless some incoming candle clashes. */
  ghost function Merge<P>(existing: seq<Candle<P>>, incoming: seq<Candle<P>>): Option<seq<Candle<P>>> {
    if exists i :: 0 <= i < |incoming| && Clashes(existing, incoming, i) then None
    else
      ByStartKeyed(existing + incoming);
      Some(ByTime(ByStart(existing + incoming)))
  }

  /** The earliest incoming candle to clash has this start. */
  ghost predicate FirstClash<P>(existing: seq<Candle<P>>, incoming: seq<Candle<P>>, startTime: int) {
    exists i ::
      && 0 <= i < |incoming| && incoming[i].startTime == startTime && Clashes(existing, incoming, i)
      && forall j :: 0 <= j < i ==> !Clashes(existing, incoming, j)
  }

  method MergeFinalizedCandles<P(==)>(existing: seq<Candle<P>>, incoming: seq<Candle<P>>)
    returns (r: MergeResult<P>)
    ensures r.Merged? ==> Merge(existing, incoming) == Some(r.candles)
    ensures r.Conflict? ==> FirstClash(existing, incoming, r.startTime)
  {
    hide ByStart;
    var byStart: map<int, Candle<P>> := map[];
    ByStartNone<P>();
    assert existing[..0] == [];
    for i := 0 to |existing|
      invariant byStart == ByStart(existing[..i])
    {
      ByStartAppend(existing[..i], existing[i]);
      assert existing[..i + 1] == existing[..i] + [existing[i]];
      byStart := byStart[existing[i].startTime := existing[i]];
    }
    assert existing[..|existing|] == existing + incoming[..0];
    for i := 0 to |incoming|
      invariant byStart == ByStart(existing + incoming[..i])
      invariant forall j :: 0 <= j < i ==> !Clashes(existing, incoming, j)
    {
      var candle := incoming[i];
      ByStartKeyed(existing + incoming[..i]);
      if candle.startTime in byStart && !SameCandle(byStart[candle.startTime], candle) {
        return Conflict(candle.startTime);
      }
      ByStartAppend(existing + incoming[..i], candle);
      assert existing + incoming[..i + 1] == existing + incoming[..i] + [candle];
      byStart := byStart[candle.startTime := candle];
    }
    assert existing + incoming[..|incoming|] == existing + incoming;
    ByStartKeyed(existing + incoming);
    return Merged(ByTime(byStart));
  }

  predicate SameCandle<P(==)>(a: Candle<P>, b: Candle<P>) {
    a.open == b.open && a.high == b.high && a.low == b.low && a.close == b.close
  }

  ghost predicate Distinct<P>(cs: seq<Candle<P>>) {
    forall i, j :: 0 <= i < j < |cs| ==> cs[i].startTime != cs[j].startTime
  }

  ghost predicate Agree<P>(a: seq<Candle<P>>, b: seq<Candle<P>>) {
    forall c, d :: c in a && d in b && c.startTime == d.startTime ==> c == d
  }

  /** Without clashes among them, a list's map holds exactly its candles. */
  lemma {:induction false} HoldsAll<P>(cs: seq<Candle<P>>)
    requires Agree(cs, cs)
    ensures forall c :: c in cs <==> c.startTime in ByStart(cs) && ByStart(cs)[c.startTime] == c
  {
    ByStartKeyed(cs);
    forall c | c in cs
      ensures ByStart(cs)[c.startTime] == c
    {
      assert ByStart(cs)[c.startTime] in cs;
    }
  }

  lemma ListsUnion<P>(a: seq<Candle<P>>, b: seq<Candle<P>>)
    requires Agree(a + b, a + b)
    ensures Keyed(ByStart(a + b))
    ensures forall c :: c in ByTime(ByStart(a + b)) <==> c in a || c in b
  {
    hide ByStart, ByTime;
    ByStartKeyed(a + b);
    HoldsAll(a + b);
    var m := ByStart(a + b);
    forall c | c in a + b ensures c in ByTime(m) {
      assert m[c.startTime] == c;
    }
    forall c | c in ByTime(m) ensures c in a + b {
      assert m[c.startTime] == c;
    }
  }

  /** On series with one candle a start, merging succeeds exactly when the two
      agree on every shared bucket, and then gives the ascending union. */
  lemma MergeIsUnion<P>(a: seq<Candle<P>>, b: seq<Candle<P>>)
    requires Distinct(a) && Distinct(b)
    ensures Merge(a, b).Some? <==> Agree(a, b)
    ensures Merge(a, b).Some? ==>
      Ascending(Merge(a, b).value) && forall c :: c in Merge(a, b).value <==> c in a || c in b
  {
    hide ByStart, ByTime;
    if Agree(a, b) {
      forall i | 0 <= i < |b| ensures !Clashes(a, b, i) {
        ByStartKeyed(a + b[..i]);
      }
      ListsUnion(a, b);
    } else {
      var c, d :| c in a && d in b && c.startTime == d.startTime && c != d;
      var i :| 0 <= i < |b| && b[i] == d;
      var before := a + b[..i];
      assert Agree(before, before) || exists j :: 0 <= j < i && Clashes(a, b, j) by {
        if !Agree(before, before) { ClashWithin(a, b, i); }
      }
      if Agree(before, before) {
        HoldsAll(before);
        assert c in before;
        assert Clashes(a, b, i);
      }
    }
  }

  lemma {:induction false} ClashWithin<P>(a: seq<Candle<P>>, b: seq<Candle<P>>, n: int)
    requires Distinct(a) && Distinct(b) && 0 <= n <= |b|
    requires !Agree(a + b[..n], a + b[..n])
    ensures exists j :: 0 <= j < n && Clashes(a, b, j)
    decreases n
  {
    assert a + b[..0] == a;
    if n > 0 {
      var before := a + b[..n - 1];
      if Agree(before, before) {
        HoldsAll(before);
        assert a + b[..n] == before + [b[n - 1]];
        var c :| c in before && c.startTime == b[n - 1].startTime && c != b[n - 1];
        assert Clashes(a, b, n - 1);
      } else {
        ClashWithin(a, b, n - 1);
      }
    }
  }

  /** Some candle held has this one's start and is not this one. */
  ghost predicate Contradicts<P>(held: seq<Candle<P>>, d: Candle<P>) {
    exists c :: c in held && c.startTime == d.startTime && c != d
  }

  lemma ClashesIs<P>(a: seq<Candle<P>>, b: seq<Candle<P>>, i: int)
    requires Distinct(a) && Distinct(b) && 0 <= i < |b|
    ensures Clashes(a, b, i) <==> Contradicts(a, b[i])
  {
    hide ByStart;
    var before := a + b[..i];
    ByStartKeyed(before);
    if c :| c in a && c.startTime == b[i].startTime {
      assert c in before;
      assert ByStart(before)[c.startTime] in before;
    }
  }

  /** The start that a conflict reports is that of the first incoming candle that contradicts
      the series it is merged into; there is none exactly when the merge succeeds. */
  lemma ConflictExactly<P>(a: seq<Candle<P>>, b: seq<Candle<P>>, start: int)
    requires Distinct(a) && Distinct(b)
    ensures FirstClash(a, b, start) <==>
      exists i :: 0 <= i < |b| && b[i].startTime == start && Contradicts(a, b[i])
                  && forall j :: 0 <= j < i ==> !Contradicts(a, b[j])
    ensures Merge(a, b).Some? <==> forall i :: 0 <= i < |b| ==> !Contradicts(a, b[i])
  {
    hide Clashes, Contradicts, ByTime;
    forall i | 0 <= i < |b| ensures Clashes(a, b, i) <==> Contradicts(a, b[i]) { ClashesIs(a, b, i); }
  }

  /** Merging a series with itself, or with what it already took in, changes nothing. */
  lemma MergeIdempotent<P>(a: seq<Candle<P>>, b: seq<Candle<P>>)
    requires Ascending(a) && Distinct(b)
    ensures Merge(a, a) == Some(a)
    ensures Merge(a, b).Some? ==> Merge(Merge(a, b).value, b) == Merge(a, b)
  {
    MergeIsUnion(a, a);
    AscendingUnique(Merge(a, a).value, a);
    MergeIsUnion(a, b);
    if Merge(a, b).Some? {
      var m := Merge(a, b).value;
      MergeIsUnion(m, b);
      AscendingUnique(Merge(m, b).value, m);
    }
  }

  /** The order of the two sides does not matter, conflicts included. */
  lemma MergeCommutative<P>(a: seq<Candle<P>>, b: seq<Candle<P>>)
    requires Distinct(a) && Distinct(b)
    ensures Merge(a, b) == Merge(b, a)
  {
    MergeIsUnion(a, b);
    MergeIsUnion(b, a);
    if Merge(a, b).Some? {
      AscendingUnique(Merge(a, b).value, Merge(b, a).value);
    }
  }

  /** Merging where either side may already have failed. */
  ghost function MergeBoth<P>(a: Option<seq<Candle<P>>>, b: Option<seq<Candle<P>>>): Option<seq<Candle<P>>> {
    if a.None? || b.None? then None else Merge(a.value, b.value)
  }

  /** Nor does the grouping: either way of merging three series conflicts when the
      other does, and otherwise gives the same candles. */
  lemma MergeAssociative<P>(a: seq<Candle<P>>, b: seq<Candle<P>>, c: seq<Candle<P>>)
    requires Distinct(a) && Distinct(b) && Distinct(c)
    ensures MergeBoth(Merge(a, b), Some(c)) == MergeBoth(Some(a), Merge(b, c))
  {
    hide Merge;
    MergeIsUnion(a, b);
    MergeIsUnion(b, c);
    if Merge(a, b).Some? && Merge(b, c).Some? {
      var ab, bc := Merge(a, b).value, Merge(b, c).value;
      MergeIsUnion(ab, c);
      MergeIsUnion(a, bc);
      if Merge(ab, c).Some? {
        AscendingUnique(Merge(ab, c).value, Merge(a, bc).value);
      }
    } else if Merge(a, b).Some? {
      StillClashes(b, Merge(a, b).value, c);
      MergeIsUnion(Merge(a, b).value, c);
    } else if Merge(b, c).Some? {
      StillClashes(b, Merge(b, c).value, a);
      MergeIsUnion(a, Merge(b, c).value);
    }
  }

  /** A larger series contradicts all that a part of it contradicts. */
  lemma StillClashes<P>(part: seq<Candle<P>>, whole: seq<Candle<P>>, other: seq<Candle<P>>)
    requires forall c :: c in part ==> c in whole
    ensures !Agree(part, other) ==> !Agree(whole, other)
    ensures !Agree(other, part) ==> !Agree(other, whole)
  {
  }
}
