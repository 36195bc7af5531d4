/** Producer and consumer agree: what the store sends, the browser accepts and merges. */
module Windows {
  import opened Options
  import opened Timeframes
  import opened MarketCandles
  import opened MarketHistory
  import opened TickGate
  import opened HistoryStore
  import opened Cutover

  function ToWire(c: Candle<int>, format: int -> string): Candle<WirePrice> {
    Candle(c.startTime,
           Decimal(c.open, format(c.open)), Decimal(c.high, format(c.high)),
           Decimal(c.low, format(c.low)), Decimal(c.close, format(c.close)))
  }

  function Sent(w: HistoryWindow, tf: Timeframe, format: int -> string): Window {
    Window(tf,
           seq(|w.candles|, i requires 0 <= i < |w.candles| => ToWire(w.candles[i], format)),
           if w.currentCandle.None? then None else Some(ToWire(w.currentCandle.value, format)),
           w.historyThrough,
           w.nextCursor)
  }

  ghost predicate Sound(c: Candle<int>, tf: Timeframe) {
    Consistent(c) && Aligned(c.startTime, tf)
  }

  lemma SoundOnTheWire(c: Candle<int>, tf: Timeframe, format: int -> string, toNumber: int -> real)
    requires Sound(c, tf) && Monotone(toNumber)
    ensures WellShaped(ToWire(c, format), tf, toNumber)
  {
  }

  lemma SeriesSound(raw: seq<MarketTick>, tf: Timeframe)
    ensures var cs := Candles(SeriesOf(AsTicks(raw, tf)));
      Ascending(cs) && forall c :: c in cs ==> Sound(c, tf)
  {
    hide BucketStart, Aligned, Run, IsBatch;
    var ts := AsTicks(raw, tf);
    var os := Observations(ts);
    RunShape(os);
    forall c | c in Candles(SeriesOf(ts))
      ensures Sound(c, tf)
    {
      var i :| 0 <= i < |os| && os[i].bucket == c.startTime;
      Tiling(raw[i].timestampMs / 1000, 0, tf);
    }
  }

  ghost predicate InTime(cs: seq<Stored>) {
    forall i, j :: 0 <= i < j < |cs| ==> cs[i].candle.startTime < cs[j].candle.startTime
  }

  lemma {:induction false} BeforeKeeps(cs: seq<Stored>, before: int)
    requires InTime(cs)
    ensures InTime(Before(cs, before))
    ensures forall f :: f in Before(cs, before) ==> f in cs
  {
    if cs != [] {
      var n := |cs| - 1;
      BeforeKeeps(cs[..n], before);
      var rest := Before(cs[..n], before);
      forall i | 0 <= i < |rest| ensures rest[i].candle.startTime < cs[n].candle.startTime {
        assert rest[i] in cs[..n];
      }
      InTimeAppend(rest, cs[n]);
    }
  }

  lemma {:induction false} BeforeIsEarlier(cs: seq<Stored>, before: int)
    ensures forall f :: f in Before(cs, before) ==> f.candle.startTime < before
  {
    if cs != [] { BeforeIsEarlier(cs[..|cs| - 1], before); }
  }

  /** A page before a cursor holds only older candles. */
  lemma PageIsOlder(s: StoreState, tf: Timeframe, limit: nat, before: int)
    ensures forall c :: c in Read(s, tf, limit, Some(before)).candles ==> c.startTime < before
  {
    hide BucketEnd;
    BeforeIsEarlier(s.finalized, before);
    var page := Newest(Before(s.finalized, before), limit);
    forall c | c in CandlesOf(page) ensures c.startTime < before {
      var i :| 0 <= i < |page| && CandlesOf(page)[i] == c;
      assert page[i] in page && page[i] in Before(s.finalized, before);
    }
  }

  lemma InTimeAppend(cs: seq<Stored>, f: Stored)
    requires InTime(cs) && forall i :: 0 <= i < |cs| ==> cs[i].candle.startTime < f.candle.startTime
    ensures InTime(cs + [f]) && InTime(cs + [])
  {
  }

  /** A stored list in time whose candles all belong to `full`. */
  ghost predicate PartOf(cs: seq<Stored>, full: Series) {
    InTime(cs) && forall f :: f in cs ==> f.candle in full.finalized
  }

  lemma NewestPartOf(cs: seq<Stored>, full: Series, n: nat)
    requires PartOf(cs, full)
    ensures PartOf(Newest(cs, n), full)
  {
  }

  lemma NewestLength(cs: seq<Stored>, n: nat)
    ensures |Newest(cs, n)| <= n
  {
  }

  lemma BeforePartOf(cs: seq<Stored>, full: Series, before: Option<int>)
    requires PartOf(cs, full)
    ensures before.Some? ==> PartOf(Before(cs, before.value), full)
  {
    if before.Some? { BeforeKeeps(cs, before.value); }
  }

  lemma PartOfCandles(cs: seq<Stored>, full: Series)
    requires PartOf(cs, full)
    ensures |CandlesOf(cs)| == |cs|
    ensures cs != [] ==> CandlesOf(cs)[0] == cs[0].candle && CandlesOf(cs)[|cs| - 1] == cs[|cs| - 1].candle
    ensures Ascending(CandlesOf(cs))
    ensures forall c :: c in CandlesOf(cs) ==> c in full.finalized
  {
  }

  lemma StorePartOf(s: StoreState, full: Series, retention: nat)
    requires CandlesOf(s.finalized) == Newest(full.finalized, retention) && Ascending(full.finalized)
    ensures PartOf(s.finalized, full)
  {
  }

  ghost predicate WindowOf(w: HistoryWindow, full: Series, tf: Timeframe, limit: nat) {
    && |w.candles| <= limit
    && Ascending(w.candles)
    && (forall c :: c in w.candles ==> c in full.finalized)
    && (w.currentCandle.Some? ==> w.currentCandle == full.current)
    && w.historyThrough == (if w.candles == [] then None
                            else Some(BucketEnd(w.candles[|w.candles| - 1].startTime, tf)))
    && w.nextCursor == (if w.candles == [] then None else Some(w.candles[0].startTime))
  }

  /** What a page of the store contains, at the live edge or before a cursor. */
  lemma PageOfSeries(s: StoreState, full: Series, tf: Timeframe, retention: nat, limit: nat, before: Option<int>)
    requires s.current == full.current && CandlesOf(s.finalized) == Newest(full.finalized, retention)
    requires Ascending(full.finalized)
    ensures WindowOf(Read(s, tf, limit, before), full, tf, limit)
  {
    hide BucketStart, BucketEnd, Before, PartOf, CandlesOf, Newest, Ascending;
    StorePartOf(s, full, retention);
    BeforePartOf(s.finalized, full, before);
    var pool := if before.None? then s.finalized else Before(s.finalized, before.value);
    NewestPartOf(pool, full, limit);
    PartOfCandles(Newest(pool, limit), full);
    NewestLength(pool, limit);
  }

  lemma FinalizedBeforeCurrent(full: Series, tf: Timeframe)
    requires Ascending(Candles(full)) && forall c :: c in Candles(full) ==> Sound(c, tf)
    ensures Ascending(full.finalized)
    ensures forall c :: c in full.finalized ==> Sound(c, tf)
    ensures full.current.Some? ==> Sound(full.current.value, tf)
    ensures full.current.Some? ==> forall c :: c in full.finalized ==> c.startTime < full.current.value.startTime
  {
    hide Sound;
    var cs, n := Candles(full), |full.finalized|;
    assert forall i :: 0 <= i < n ==> cs[i] == full.finalized[i];
    assert forall c :: c in full.finalized ==> c in cs;
    assert full.current.Some? ==> cs[n] == full.current.value;
  }

  /** Every window the store can send is accepted by the browser's validator: any
      stream, ordered or not, any retention, any page at the live edge or before any
      cursor, as long as the page size is what the browser asked for. */
  lemma SentIsAccepted(raw: seq<MarketTick>, tf: Timeframe, retention: nat, limit: nat, before: Option<int>,
                       expected: int, format: int -> string, toNumber: int -> real)
    requires limit <= expected && limit <= MAX_CANDLES && Monotone(toNumber)
    ensures var w := Read(StoreRun(AsTicks(raw, tf), retention), tf, limit, before);
      ValidWindow(Sent(w, tf, format), expected, toNumber)
  {
    hide BucketStart, BucketEnd, Aligned, Read, StoreRun, SeriesOf, Sound, WellShaped, AsTicks;
    var ts := AsTicks(raw, tf);
    var w := Read(StoreRun(ts, retention), tf, limit, before);
    SeriesSound(raw, tf);
    FinalizedBeforeCurrent(SeriesOf(ts), tf);
    StoreHolds(ts, retention);
    PageOfSeries(StoreRun(ts, retention), SeriesOf(ts), tf, retention, limit, before);
    var sent := Sent(w, tf, format);
    forall i | 0 <= i < |sent.candles|
      ensures WellShaped(sent.candles[i], tf, toNumber)
    {
      assert w.candles[i] in w.candles;
      SoundOnTheWire(w.candles[i], tf, format, toNumber);
    }
    if w.currentCandle.Some? {
      SoundOnTheWire(w.currentCandle.value, tf, format, toNumber);
      forall i | 0 <= i < |sent.candles|
        ensures sent.candles[i].startTime < sent.currentCandle.value.startTime
      {
        assert w.candles[i] in w.candles;
      }
    }
  }

  /** What a chart shows after adopting a window and replaying, against the whole
      stream: only its candles, in order, none missing from the window on, and its open
      candle. */
  ghost predicate Faithful(s: Series, w: HistoryWindow, atRead: Series, full: Series) {
    && s.current == full.current
    && Ascending(s.finalized)
    && (forall c :: c in s.finalized ==> c in full.finalized)
    && |w.candles| <= |atRead.finalized| <= |full.finalized|
    && forall i :: |atRead.finalized| - |w.candles| <= i < |full.finalized| ==> full.finalized[i] in s.finalized
  }

  lemma RehydrateOn(ts: seq<Tick>, k: nat, j: nat, tf: Timeframe, retention: nat, limit: nat, held: seq<Candle<int>>)
    requires Sequenced(ts) && j <= k <= |ts|
    requires Ascending(held) && forall c :: c in held ==> c in SeriesOf(ts[..k]).finalized
    ensures var w := Read(StoreRun(ts[..k], retention), tf, limit, None);
      && Merge(held, w.candles).Some?
      && Faithful(Onto(Merge(held, w.candles).value, w, ts[j..]), w, SeriesOf(ts[..k]), SeriesOf(ts))
  {
    hide Read, StoreRun, SeriesOf, Run, Merge, Replayed, BucketStart, Watermark;
    var w := Read(StoreRun(ts[..k], retention), tf, limit, None);
    CutoverExact(ts, k, j, tf, retention, limit);
    WindowIsNewest(ts[..k], tf, retention, limit);
    var atRead, full := SeriesOf(ts[..k]).finalized, SeriesOf(ts).finalized;
    FinalizedAscends(ts);
    var replay := Observations(Replayed(ts[j..], Watermark(w)));
    MergeWithin(held, w.candles, atRead, full);
    var merged := Merge(held, w.candles).value;
    RunFromCurrent(Series(merged, w.currentCandle), replay);
    RunFromCurrent(Series(w.candles, w.currentCandle), replay);
    var since := full[|atRead|..];
    var own := Run(Series([], w.currentCandle), replay).finalized;
    assert w.candles + own == w.candles + since;
    assert own == since by { CancelLeft(w.candles, own, since); }
    MergedThenSince(merged, atRead, full);
    NoneMissing(merged, w.candles, atRead, full);
  }

  lemma NoneMissing<T>(merged: seq<T>, page: seq<T>, atRead: seq<T>, full: seq<T>)
    requires atRead <= full && |page| <= |atRead| && page == atRead[|atRead| - |page|..]
    requires forall c :: c in page ==> c in merged
    ensures forall i :: |atRead| - |page| <= i < |full| ==> full[i] in merged + full[|atRead|..]
  {
    var all := merged + full[|atRead|..];
    forall i | |atRead| - |page| <= i < |full| ensures full[i] in all {
      if i < |atRead| {
        assert page[i - |atRead| + |page|] == full[i];
        assert page[i - |atRead| + |page|] in page;
      } else {
        assert all[|merged| + i - |atRead|] == full[i];
      }
    }
  }

  /** Reconnecting to the same store: a chart that holds any candles of the series
      merges without conflict and ends up faithful to the uninterrupted series. */
  lemma RehydrateExact(raw: seq<MarketTick>, symbol: string, k: nat, j: nat, tf: Timeframe,
                       retention: nat, limit: nat, held: seq<Candle<int>>)
    requires j <= k <= |Gated(raw, symbol, tf)|
    requires Ascending(held)
    requires forall c :: c in held ==> c in SeriesOf(Gated(raw, symbol, tf)[..k]).finalized
    ensures var ts := Gated(raw, symbol, tf);
      var w := Read(StoreRun(ts[..k], retention), tf, limit, None);
      && Merge(held, w.candles).Some?
      && Faithful(Onto(Merge(held, w.candles).value, w, ts[j..]), w, SeriesOf(ts[..k]), SeriesOf(ts))
  {
    hide Read, StoreRun, SeriesOf, Gated, Merge, Onto, Faithful;
    GatedInOrder(raw, symbol, tf);
    RehydrateOn(Gated(raw, symbol, tf), k, j, tf, retention, limit, held);
  }

  lemma CancelLeft<T>(a: seq<T>, b: seq<T>, c: seq<T>)
    requires a + b == a + c
    ensures b == c
  {
    assert (a + b)[|a|..] == b && (a + c)[|a|..] == c;
  }

  lemma FinalizedAscends(ts: seq<Tick>)
    ensures Ascending(SeriesOf(ts).finalized)
  {
    hide SeriesOf;
    ShapeOfSeries(ts);
    assert forall i :: 0 <= i < |SeriesOf(ts).finalized| ==> Candles(SeriesOf(ts))[i] == SeriesOf(ts).finalized[i];
  }

  lemma MergeWithin<P>(held: seq<Candle<P>>, page: seq<Candle<P>>, atRead: seq<Candle<P>>, full: seq<Candle<P>>)
    requires Ascending(held) && Ascending(full) && atRead <= full
    requires forall c :: c in held ==> c in atRead
    requires |page| <= |atRead| && page == atRead[|atRead| - |page|..]
    ensures Merge(held, page).Some?
    ensures Ascending(Merge(held, page).value)
    ensures forall c :: c in Merge(held, page).value ==> c in atRead
    ensures forall c :: c in page ==> c in Merge(held, page).value
  {
    hide Merge;
    SliceWithin(page, atRead, full);
    MergeIsUnion(held, page);
    UnionWithin(Merge(held, page).value, held, page, atRead);
  }

  lemma UnionWithin<T>(m: seq<T>, a: seq<T>, b: seq<T>, whole: seq<T>)
    requires forall x :: x in m <==> x in a || x in b
    requires forall x :: x in a ==> x in whole
    requires forall x :: x in b ==> x in whole
    ensures forall x :: x in m ==> x in whole
  {
  }

  lemma SliceWithin<P>(page: seq<Candle<P>>, atRead: seq<Candle<P>>, full: seq<Candle<P>>)
    requires Ascending(full) && atRead <= full
    requires |page| <= |atRead| && page == atRead[|atRead| - |page|..]
    ensures Ascending(atRead) && Ascending(page)
    ensures forall c :: c in page ==> c in atRead
  {
  }

  lemma MergedThenSince(merged: seq<Candle<int>>, atRead: seq<Candle<int>>, full: seq<Candle<int>>)
    requires Ascending(merged) && Ascending(full) && atRead <= full
    requires forall c :: c in merged ==> c in atRead
    ensures Ascending(merged + full[|atRead|..])
    ensures forall c :: c in merged + full[|atRead|..] ==> c in full
  {
    var all := merged + full[|atRead|..];
    forall i, j | 0 <= i < j < |all|
      ensures all[i].startTime < all[j].startTime
    {
      if i < |merged| <= j {
        assert merged[i] in atRead;
        var k :| 0 <= k < |atRead| && atRead[k] == merged[i];
        assert full[k] == atRead[k];
      }
    }
    forall c | c in merged ensures c in full {
      var k :| 0 <= k < |atRead| && atRead[k] == c;
      assert full[k] == c;
    }
  }
}
