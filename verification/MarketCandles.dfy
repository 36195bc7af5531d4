/**
 The candle aggregator, and the batch reading of a stream that it computes one
 observation at a time.

 Prices are integers in the symbol's smallest unit: the aggregator only ever
 compares them and passes them on.
 */
module MarketCandles {
  import opened Options
  import opened Timeframes

  datatype Candle<+P> = Candle(startTime: int, open: P, high: P, low: P, close: P)

  /** A price seen in a bucket. */
  datatype Observation = Observation(bucket: int, price: int)

  datatype CandleUpdate = CandleUpdate(
    current: Candle<int>,
    finalized: Option<Candle<int>>,
    openedNewBucket: bool)

  function Observe(current: Option<Candle<int>>, o: Observation): CandleUpdate {
    if current == None || o.bucket > current.value.startTime then
      CandleUpdate(Candle(o.bucket, o.price, o.price, o.price, o.price), current, true)
    else if o.bucket < current.value.startTime then
      CandleUpdate(current.value, None, false)
    else
      var c := current.value;
      CandleUpdate(
        c.(high := if o.price > c.high then o.price else c.high,
           low := if o.price < c.low then o.price else c.low,
           close := o.price),
        None, false)
  }

  /** A bucket opens with the first observation of all or with one of a later bucket, which hands
      out the candle that was open; a late one leaves that as it is. */
  lemma OpensExactly(current: Option<Candle<int>>, o: Observation)
    ensures var u, opens := Observe(current, o), current.None? || current.value.startTime < o.bucket;
      && (u.openedNewBucket <==> opens)
      && u.finalized == (if opens then current else None)
      && (opens ==> u.current == Candle(o.bucket, o.price, o.price, o.price, o.price))
      && (current.Some? && o.bucket < current.value.startTime ==> u.current == current.value)
  {
  }

  class CandleAggregator {
    const timeframe: Timeframe
    var current: Option<Candle<int>>

    constructor (timeframe: Timeframe)
      ensures this.timeframe == timeframe && current == None
    {
      this.timeframe := timeframe;
      current := None;
    }

    method Reset()
      modifies this
      ensures current == None
    {
      current := None;
    }

    method Seed(candle: Candle<int>)
      modifies this
      ensures current == Some(candle)
    {
      current := Some(candle);
    }

    method ObserveTick(timestampMs: int, price: int) returns (u: CandleUpdate)
      modifies this
      ensures u == Observe(old(current), Observation(BucketStartMs(timestampMs, timeframe), price))
      ensures current == Some(u.current)
    {
      var startTime := BucketStartMs(timestampMs, timeframe);
      if current == None || startTime > current.value.startTime {
        var finalized := current;
        current := Some(Candle(startTime, price, price, price, price));
        return CandleUpdate(current.value, finalized, true);
      }
      var c := current.value;
      if startTime < c.startTime {
        return CandleUpdate(c, None, false);
      }
      current := Some(Candle(c.startTime, c.open,
                             if price > c.high then price else c.high,
                             if price < c.low then price else c.low,
                             price));
      return CandleUpdate(current.value, None, false);
    }
  }

  // ---- Runs -------------------------------------------------------------

  /** What an owner of the aggregator holds: the candles handed out, and the open one. */
  datatype Series = Series(finalized: seq<Candle<int>>, current: Option<Candle<int>>)

  const NOTHING := Series([], None)

  function Candles(s: Series): seq<Candle<int>> {
    s.finalized + (if s.current == None then [] else [s.current.value])
  }

  function Extend(s: Series, o: Observation): Series {
    var u := Observe(s.current, o);
    Series(if u.finalized == None then s.finalized else s.finalized + [u.finalized.value], Some(u.current))
  }

  function Run(s: Series, os: seq<Observation>): Series {
    if os == [] then s else Extend(Run(s, os[..|os| - 1]), os[|os| - 1])
  }

  lemma {:induction false} RunAppend(s: Series, a: seq<Observation>, b: seq<Observation>)
    ensures Run(s, a + b) == Run(Run(s, a), b)
  {
    if b == [] {
      assert a + b == a;
    } else {
      var init := b[..|b| - 1];
      assert (a + b)[..|a + b| - 1] == a + init;
      RunAppend(s, a, init);
    }
  }

  /** What was handed out earlier plays no part in what comes next. */
  lemma {:induction false} RunFromCurrent(s: Series, os: seq<Observation>)
    ensures Run(s, os).finalized == s.finalized + Run(Series([], s.current), os).finalized
    ensures Run(s, os).current == Run(Series([], s.current), os).current
  {
    if os != [] {
      RunFromCurrent(s, os[..|os| - 1]);
    }
  }

  // ---- The batch definition ---------------------------------------------

  /** An observation is kept when no earlier one fell in a later bucket. */
  predicate Kept(os: seq<Observation>, i: int)
    requires 0 <= i < |os|
  {
    forall j :: 0 <= j < i ==> os[j].bucket <= os[i].bucket
  }

  /** Prices of the kept observations of one bucket, in order of arrival. */
  function PricesIn(os: seq<Observation>, bucket: int): seq<int> {
    if os == [] then [] else
      var n := |os| - 1;
      PricesIn(os[..n], bucket) + (if os[n].bucket == bucket && Kept(os, n) then [os[n].price] else [])
  }

  ghost predicate Summarizes(c: Candle<int>, prices: seq<int>) {
    && prices != []
    && c.open == prices[0]
    && c.close == prices[|prices| - 1]
    && c.high in prices && (forall p :: p in prices ==> p <= c.high)
    && c.low in prices && (forall p :: p in prices ==> c.low <= p)
  }

  ghost predicate Ascending<P>(cs: seq<Candle<P>>) {
    forall i, j :: 0 <= i < j < |cs| ==> cs[i].startTime < cs[j].startTime
  }

  /** One candle for each bucket that kept an observation, in order of time, each
      summing up exactly that bucket's prices. */
  ghost predicate IsBatch(cs: seq<Candle<int>>, os: seq<Observation>) {
    && Ascending(cs)
    && (forall c :: c in cs ==> Summarizes(c, PricesIn(os, c.startTime)))
    && (forall b :: PricesIn(os, b) != [] ==> exists c :: c in cs && c.startTime == b)
  }

  /** The batch reading of a stream is unique. */
  lemma {:induction false} BatchUnique(a: seq<Candle<int>>, b: seq<Candle<int>>, os: seq<Observation>)
    requires IsBatch(a, os) && IsBatch(b, os)
    ensures a == b
  {
    forall c | c in a ensures c in b { SameBucket(c, b, os); }
    forall c | c in b ensures c in a { SameBucket(c, a, os); }
    AscendingUnique(a, b);
  }

  lemma SameBucket(c: Candle<int>, b: seq<Candle<int>>, os: seq<Observation>)
    requires Summarizes(c, PricesIn(os, c.startTime)) && IsBatch(b, os)
    ensures c in b
  {
  }

  /** An ascending series is determined by its set of candles. */
  lemma {:induction false} AscendingUnique<P>(a: seq<Candle<P>>, b: seq<Candle<P>>)
    requires Ascending(a) && Ascending(b)
    requires forall c :: c in a <==> c in b
    ensures a == b
    decreases |a|
  {
    if a == [] || b == [] {
      HasMember(a);
      HasMember(b);
    } else {
      assert a[0] in b && b[0] in a;
      assert a[0] == b[0];
      forall c | c in a[1..] ensures c in b[1..] { assert c in a && c != a[0]; }
      forall c | c in b[1..] ensures c in a[1..] { assert c in b && c != b[0]; }
      AscendingUnique(a[1..], b[1..]);
    }
  }

  lemma HasMember<T>(s: seq<T>)
    ensures s != [] ==> exists x :: x in s
  {
    if s != [] { assert s[0] in s; }
  }

  /** The open bucket is the latest one reached so far. */
  lemma {:induction false} CurrentIsLatest(os: seq<Observation>)
    ensures Run(NOTHING, os).current == None <==> os == []
    ensures os != [] ==> forall j :: 0 <= j < |os| ==> os[j].bucket <= Run(NOTHING, os).current.value.startTime
    ensures os != [] ==> exists j :: 0 <= j < |os| && os[j].bucket == Run(NOTHING, os).current.value.startTime
  {
    if os != [] {
      var n := |os| - 1;
      CurrentIsLatest(os[..n]);
      if n > 0 && os[n].bucket < Run(NOTHING, os[..n]).current.value.startTime {
        var j :| 0 <= j < n && os[..n][j].bucket == Run(NOTHING, os[..n]).current.value.startTime;
        assert os[j].bucket == Run(NOTHING, os).current.value.startTime;
      }
    }
  }

  lemma {:induction false} NoPricesBeyond(os: seq<Observation>, bucket: int)
    requires forall j :: 0 <= j < |os| ==> os[j].bucket < bucket
    ensures PricesIn(os, bucket) == []
  {
    if os != [] {
      NoPricesBeyond(os[..|os| - 1], bucket);
    }
  }

  lemma NothingIsBatch()
    ensures IsBatch(Candles(NOTHING), [])
  {
  }

  /** Aggregating a stream one observation at a time yields its batch reading,
      whatever the order in which the observations arrive. */
  lemma {:induction false} RunIsBatch(os: seq<Observation>)
    ensures IsBatch(Candles(Run(NOTHING, os)), os)
  {
    hide IsBatch, PricesIn, Extend, Candles;
    if os == [] {
      NothingIsBatch();
    } else {
      var n := |os| - 1;
      RunIsBatch(os[..n]);
      CurrentIsLatest(os[..n]);
      KeptAgainstLatest(os);
      ExtendIsBatch(Run(NOTHING, os[..n]), os);
    }
  }

  lemma KeptAgainstLatest(os: seq<Observation>)
    requires os != []
    ensures var before := Run(NOTHING, os[..|os| - 1]);
      Kept(os, |os| - 1) <==> before.current == None || before.current.value.startTime <= os[|os| - 1].bucket
  {
    var n := |os| - 1;
    var before := os[..n];
    CurrentIsLatest(before);
    if n > 0 {
      var j :| 0 <= j < n && before[j].bucket == Run(NOTHING, before).current.value.startTime;
      assert os[j].bucket == before[j].bucket;
      assert forall i :: 0 <= i < n ==> os[i] == before[i];
    }
  }

  lemma ExtendIsBatch(s: Series, os: seq<Observation>)
    requires os != [] && IsBatch(Candles(s), os[..|os| - 1])
    requires Kept(os, |os| - 1) <==> s.current == None || s.current.value.startTime <= os[|os| - 1].bucket
    requires s.current == None ==> s.finalized == [] && |os| == 1
    requires forall j :: 0 <= j < |os| - 1 ==> s.current != None && os[j].bucket <= s.current.value.startTime
    ensures IsBatch(Candles(Extend(s, os[|os| - 1])), os)
  {
    var n := |os| - 1;
    var o, cs := os[n], Candles(s);
    var ds := Candles(Extend(s, o));
    if s.current == None || o.bucket > s.current.value.startTime {
      assert ds == cs + [Candle(o.bucket, o.price, o.price, o.price, o.price)];
      assert s.current != None ==> cs[|s.finalized|] == s.current.value;
      assert forall i :: 0 <= i < |cs| ==> cs[i].startTime < o.bucket;
      NewBucketIsBatch(cs, os);
    } else if o.bucket < s.current.value.startTime {
      assert ds == cs;
      assert forall b :: PricesIn(os, b) == PricesIn(os[..n], b);
    } else {
      assert cs[..|cs| - 1] == s.finalized;
      SameBucketIsBatch(cs, os, Extend(s, o).current.value);
      assert ds == cs[..|cs| - 1] + [Extend(s, o).current.value];
    }
  }

  lemma OtherBuckets(os: seq<Observation>)
    requires os != []
    ensures forall b :: b != os[|os| - 1].bucket ==> PricesIn(os, b) == PricesIn(os[..|os| - 1], b)
  {
  }

  lemma NewBucketIsBatch(cs: seq<Candle<int>>, os: seq<Observation>)
    requires os != [] && IsBatch(cs, os[..|os| - 1]) && Kept(os, |os| - 1)
    requires forall i :: 0 <= i < |cs| ==> cs[i].startTime < os[|os| - 1].bucket
    requires forall j :: 0 <= j < |os| - 1 ==> os[j].bucket < os[|os| - 1].bucket
    ensures var o := os[|os| - 1]; IsBatch(cs + [Candle(o.bucket, o.price, o.price, o.price, o.price)], os)
  {
    var n := |os| - 1;
    var o, before := os[n], os[..n];
    var c := Candle(o.bucket, o.price, o.price, o.price, o.price);
    NoPricesBeyond(before, o.bucket);
    assert PricesIn(os, o.bucket) == [o.price];
    OtherBuckets(os);
    CoversByLast(cs, c, os);
  }

  /** The open bucket's candle replaced by `c`, which takes in one more price. */
  lemma SameBucketIsBatch(cs: seq<Candle<int>>, os: seq<Observation>, c: Candle<int>)
    requires os != [] && IsBatch(cs, os[..|os| - 1]) && Kept(os, |os| - 1)
    requires cs != [] && cs[|cs| - 1].startTime == os[|os| - 1].bucket
    requires c == Observe(Some(cs[|cs| - 1]), os[|os| - 1]).current
    ensures IsBatch(cs[..|cs| - 1] + [c], os)
  {
    hide Summarizes, Observe;
    var n := |os| - 1;
    var o, before, last := os[n], os[..n], cs[|cs| - 1];
    assert last in cs;
    assert PricesIn(os, o.bucket) == PricesIn(before, o.bucket) + [o.price];
    SummaryExtends(last, PricesIn(before, o.bucket), o);
    OtherBuckets(os);
    AllButLast(cs);
    CoversByLast(cs[..|cs| - 1], c, os);
  }

  lemma AllButLast(cs: seq<Candle<int>>)
    requires cs != [] && Ascending(cs)
    ensures var rest, last := cs[..|cs| - 1], cs[|cs| - 1];
      && (forall i :: 0 <= i < |rest| ==> rest[i].startTime < last.startTime)
      && (forall d :: d in rest ==> d in cs)
      && (forall d :: d in cs && d.startTime != last.startTime ==> d in rest)
  {
  }

  /** Assembling a batch reading from all buckets but the last, and the last. */
  lemma CoversByLast(rest: seq<Candle<int>>, c: Candle<int>, os: seq<Observation>)
    requires Ascending(rest)
    requires forall i :: 0 <= i < |rest| ==> rest[i].startTime < c.startTime
    requires forall d :: d in rest ==> Summarizes(d, PricesIn(os, d.startTime))
    requires Summarizes(c, PricesIn(os, c.startTime))
    requires forall b :: b != c.startTime && PricesIn(os, b) != [] ==> exists d :: d in rest && d.startTime == b
    ensures IsBatch(rest + [c], os)
  {
    var all := rest + [c];
    forall b | PricesIn(os, b) != []
      ensures exists d :: d in all && d.startTime == b
    {
      if b == c.startTime {
        assert c in all;
      } else {
        var d :| d in rest && d.startTime == b;
        assert d in all;
      }
    }
  }

  lemma SummaryExtends(c: Candle<int>, prices: seq<int>, o: Observation)
    requires Summarizes(c, prices) && o.bucket == c.startTime
    ensures Summarizes(Observe(Some(c), o).current, prices + [o.price])
    ensures Observe(Some(c), o).current.startTime == c.startTime
  {
  }

  /** Every candle a run produces is consistent and starts at an observed bucket. */
  predicate Consistent(c: Candle<int>) {
    c.low <= c.open <= c.high && c.low <= c.close <= c.high
  }

  lemma RunShape(os: seq<Observation>)
    ensures Ascending(Candles(Run(NOTHING, os)))
    ensures forall c :: c in Candles(Run(NOTHING, os)) ==> Consistent(c)
    ensures forall c :: c in Candles(Run(NOTHING, os)) ==> exists i :: 0 <= i < |os| && os[i].bucket == c.startTime
  {
    RunIsBatch(os);
    var cs := Candles(Run(NOTHING, os));
    forall c | c in cs
      ensures Consistent(c)
      ensures exists i :: 0 <= i < |os| && os[i].bucket == c.startTime
    {
      SummaryShape(c, os);
    }
  }

  lemma SummaryShape(c: Candle<int>, os: seq<Observation>)
    requires Summarizes(c, PricesIn(os, c.startTime))
    ensures Consistent(c)
    ensures exists i :: 0 <= i < |os| && os[i].bucket == c.startTime
  {
    var prices := PricesIn(os, c.startTime);
    assert prices[0] in prices && prices[|prices| - 1] in prices;
    PricesHaveSource(os, c.startTime);
  }

  lemma {:induction false} PricesHaveSource(os: seq<Observation>, bucket: int)
    requires PricesIn(os, bucket) != []
    ensures exists i :: 0 <= i < |os| && os[i].bucket == bucket
  {
    var n := |os| - 1;
    if os[n].bucket != bucket || !Kept(os, n) {
      PricesHaveSource(os[..n], bucket);
      var i :| 0 <= i < n && os[..n][i].bucket == bucket;
      assert os[i].bucket == bucket;
    }
  }
}
