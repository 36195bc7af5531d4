/**
 What goes wrong on the browser's chart when it draws a tick after missing one, exactly
 when, and what later windows of history do about it.
 */
module ChartFaults {
  import opened Options
  import opened Timeframes
  import opened MarketCandles
  import opened MarketHistory
  import opened TickGate
  import opened HistoryStore
  import opened Cutover
  import opened Windows
  import opened ChartHistory
  import opened ChartRuns

  // ---- One gap ------------------------------------------------------------

  /** The prices seen in a bucket before any later one. */
  function OwnPrices(os: seq<Observation>, bucket: int): seq<int> {
    if os == [] || os[0].bucket > bucket then []
    else (if os[0].bucket == bucket then [os[0].price] else []) + OwnPrices(os[1..], bucket)
  }

  /** The candle after more prices of its bucket. */
  function Grown(c: Candle<int>, prices: seq<int>): Candle<int>
    decreases |prices|
  {
    if prices == [] then c
    else Grown(Observe(Some(c), Observation(c.startTime, prices[0])).current, prices[1..])
  }

  predicate Within(c: Candle<int>, prices: seq<int>) {
    forall p :: p in prices ==> c.low <= p <= c.high
  }

  /** The prices stay within the candle's range, and the last of them is its close. */
  predicate Unmoved(c: Candle<int>, prices: seq<int>) {
    && Within(c, prices)
    && (prices != [] ==> prices[|prices| - 1] == c.close)
  }

  lemma {:induction false} GrownShape(c: Candle<int>, prices: seq<int>)
    ensures var g := Grown(c, prices);
      && g.startTime == c.startTime && g.open == c.open && g.low <= c.low && c.high <= g.high
      && Within(g, prices)
      && (Within(c, prices) ==> g.low == c.low && g.high == c.high)
      && g.close == if prices == [] then c.close else prices[|prices| - 1]
    decreases |prices|
  {
    if prices != [] {
      assert forall p :: p in prices[1..] ==> p in prices;
      var d := Observe(Some(c), Observation(c.startTime, prices[0])).current;
      GrownShape(d, prices[1..]);
      assert forall p :: p in prices <==> p == prices[0] || p in prices[1..];
      if Within(c, prices) {
        assert prices[0] in prices && d.low == c.low && d.high == c.high;
        assert Within(d, prices[1..]);
      }
    }
  }

  /** The first candle that a run closes is the one it began with, grown by the prices of
      its bucket. */
  lemma {:induction false} FirstClosed(c: Candle<int>, os: seq<Observation>, later: nat)
    requires later < |os| && os[later].bucket > c.startTime
    ensures var closed := Run(Series([], Some(c)), os).finalized;
      closed != [] && closed[0] == Grown(c, OwnPrices(os, c.startTime))
    decreases |os|
  {
    hide Observe;
    var one, rest := os[..1], os[1..];
    var s := Series([], Some(c));
    assert os == one + rest && one == [os[0]] && one[..0] == [];
    RunAppend(s, one, rest);
    assert Run(s, one) == Extend(s, os[0]);
    RunFromCurrent(Run(s, one), rest);
    FirstStep(c, os[0]);
    if os[0].bucket <= c.startTime {
      var own := OwnPrices(rest, c.startTime);
      assert ([os[0].price] + own)[1..] == own && [] + own == own;
      FirstClosed(Observe(Some(c), os[0]).current, rest, later - 1);
    }
  }

  lemma FirstStep(c: Candle<int>, o: Observation)
    ensures var s, u := Extend(Series([], Some(c)), o), Observe(Some(c), o);
      && s.current == Some(u.current)
      && s.finalized == (if o.bucket > c.startTime then [c] else [])
      && (o.bucket <= c.startTime ==> u.current.startTime == c.startTime)
      && (o.bucket < c.startTime ==> u.current == c)
      && (o.bucket == c.startTime ==> o == Observation(c.startTime, o.price))
  {
  }

  /** Among candles in order, there is one for a start. */
  lemma OneForStart(full: seq<Candle<int>>, x: Candle<int>, y: Candle<int>)
    requires Ascending(full) && y in full && x.startTime == y.startTime
    ensures x in full <==> x == y
  {
  }

  /** A chart in step with the first `through` ticks misses some and then draws a tick of a
      later bucket.  The candle this closes is the stream's if and only if the missed ticks
      of its bucket stay within its range and the last of them was at its close. */
  lemma SkipSpoils(s: Session, f: Feed)
    requires InStep(s, f) && Draws(s.chart) && s.passed < |f.ts|
    requires Closes(s.chart.series.current, f.ts[s.passed])
    ensures var c, missed := s.chart.series.current.value, f.ts[s.through..s.passed + 1];
      && Step(s, f, Sent(true)).chart.series.finalized == s.chart.series.finalized + [c]
      && Ascending(s.chart.series.finalized + [c])
      && (forall n :: s.passed < n <= |f.ts| ==>
           && (exists y :: y in SeriesOf(f.ts[..n]).finalized && y.startTime == c.startTime)
           && (c in SeriesOf(f.ts[..n]).finalized <==> Unmoved(c, OwnPrices(Observations(missed), c.startTime))))
  {
    hide SeriesOf, Run, Observe;
    var c, p := s.chart.series.current.value, s.through;
    forall n: nat | s.passed < n <= |f.ts|
      ensures exists y :: y in SeriesOf(f.ts[..n]).finalized && y.startTime == c.startTime
      ensures c in SeriesOf(f.ts[..n]).finalized <==>
              Unmoved(c, OwnPrices(Observations(f.ts[p..s.passed + 1]), c.startTime))
    {
      var rest := Observations(f.ts[p..n]);
      assert f.ts[..n] == f.ts[..p] + f.ts[p..n];
      FinalizedGrows(f.ts[..p], f.ts[p..n]);
      FirstClosed(c, rest, s.passed - p);
      var start, full := SeriesOf(f.ts[..p]).finalized, SeriesOf(f.ts[..n]).finalized;
      var prices := OwnPrices(rest, c.startTime);
      OwnPricesPrefix(rest, Observations(f.ts[p..s.passed + 1]), c.startTime);
      GrownShape(c, prices);
      var y := Grown(c, prices);
      assert full[|start|] == y;
      FinalizedAscends(f.ts[..n]);
      OneForStart(full, c, y);
    }
    ClosesInOrder(s, f);
  }

  lemma {:induction false} OwnPricesPrefix(os: seq<Observation>, prefix: seq<Observation>, bucket: int)
    requires prefix != [] && prefix <= os && prefix[|prefix| - 1].bucket > bucket
    ensures OwnPrices(os, bucket) == OwnPrices(prefix, bucket)
    decreases |prefix|
  {
    if os[0].bucket <= bucket {
      assert prefix[1..] <= os[1..];
      OwnPricesPrefix(os[1..], prefix[1..], bucket);
    }
  }

  lemma ClosesInOrder(s: Session, f: Feed)
    requires InStep(s, f) && Draws(s.chart) && s.passed < |f.ts|
    requires Closes(s.chart.series.current, f.ts[s.passed])
    ensures var c := s.chart.series.current.value;
      && Step(s, f, Sent(true)).chart.series.finalized == s.chart.series.finalized + [c]
      && Ascending(s.chart.series.finalized + [c])
  {
    hide SeriesOf;
    var c, held, full := s.chart.series.current.value, s.chart.series.finalized, SeriesOf(f.ts[..s.through]);
    ShapeOfSeries(f.ts[..s.through]);
    assert Candles(full)[|full.finalized|] == c;
    forall i | 0 <= i < |held| ensures held[i].startTime < c.startTime {
      assert held[i] in full.finalized;
      var k :| 0 <= k < |full.finalized| && full.finalized[k] == held[i];
      assert Candles(full)[k] == held[i];
    }
  }

  /** The window goes back to this start. */
  predicate Reaches(w: HistoryWindow, start: int) {
    w.candles != [] && w.candles[0].startTime <= start
  }

  lemma InReach(f: Feed, read: nat, y: Candle<int>)
    requires read <= |f.ts| && y in SeriesOf(f.ts[..read]).finalized && Reaches(WindowAt(f, read), y.startTime)
    ensures y in WindowAt(f, read).candles
  {
    hide SeriesOf, Read, StoreRun;
    var w, full := WindowAt(f, read), SeriesOf(f.ts[..read]).finalized;
    WindowIsNewest(f.ts[..read], f.tf, f.retention, f.limit);
    FinalizedAscends(f.ts[..read]);
    var m := |full| - |w.candles|;
    var j :| 0 <= j < |full| && full[j] == y;
    assert full[m] == w.candles[0];
    assert m <= j;
    assert w.candles[j - m] == y;
  }

  /** A window that reaches a candle the stream does not have conflicts with it. */
  lemma ForeignConflicts(held: seq<Candle<int>>, f: Feed, read: nat, x: Candle<int>)
    requires read <= |f.ts| && Ascending(held) && x in held && x !in SeriesOf(f.ts[..read]).finalized
    requires exists y :: y in SeriesOf(f.ts[..read]).finalized && y.startTime == x.startTime
    requires Reaches(WindowAt(f, read), x.startTime)
    ensures Merge(held, WindowAt(f, read).candles).None?
  {
    hide SeriesOf, Merge, WindowAt;
    var y :| y in SeriesOf(f.ts[..read]).finalized && y.startTime == x.startTime;
    InReach(f, read, y);
    WindowAscends(f, read);
    MergeIsUnion(held, WindowAt(f, read).candles);
    assert !Agree(held, WindowAt(f, read).candles);
  }

  /** And so the next hydration that reaches it drops the whole chart. */
  lemma SkipThenConflict(s: Session, f: Feed)
    requires InStep(s, f) && Draws(s.chart) && s.passed < |f.ts|
    requires Closes(s.chart.series.current, f.ts[s.passed])
    ensures var c, t := s.chart.series.current.value, Step(Step(s, f, Sent(true)), f, Opened);
      && Possible(t, f, WindowCame(t.passed))
      && (!Unmoved(c, OwnPrices(Observations(f.ts[s.through..t.passed]), c.startTime))
          && Reaches(WindowAt(f, t.passed), c.startTime) ==>
            && Merging(t, f, t.passed).None?
            && var u := Land(t, f, t.passed).chart;
               u.series == NOTHING && u.hydration.Some? && u.conflicts == 1)
  {
    hide SeriesOf, Merge, WindowAt, Extend, Next, OwnPrices, Unmoved;
    SkipSpoils(s, f);
    var c, t := s.chart.series.current.value, Step(Step(s, f, Sent(true)), f, Opened);
    var held := s.chart.series.finalized + [c];
    assert t.chart.series.finalized == held && held[|held| - 1] == c;
    if !Unmoved(c, OwnPrices(Observations(f.ts[s.through..t.passed]), c.startTime))
       && Reaches(WindowAt(f, t.passed), c.startTime) {
      ForeignConflicts(held, f, t.passed, c);
    }
  }

  // ---- Any session --------------------------------------------------------

  /** The accepted stream never goes back in time. */
  ghost predicate InOrder(ts: seq<Tick>) {
    forall i, j :: 0 <= i < j < |ts| ==> ts[i].at.bucket <= ts[j].at.bucket
  }

  /** What the gate lets through is in order. */
  lemma AcceptedIsInOrder(raw: seq<MarketTick>, symbol: string, tf: Timeframe)
    ensures Sequenced(Gated(raw, symbol, tf)) && InOrder(Gated(raw, symbol, tf))
  {
    hide Gated;
    GatedInOrder(raw, symbol, tf);
  }

  /** Among the first `n` ticks one fell in this bucket at this price. */
  ghost predicate Saw(ts: seq<Tick>, n: nat, bucket: int, price: int)
    requires n <= |ts|
  {
    exists i :: 0 <= i < n && ts[i].at == Observation(bucket, price)
  }

  /** All four prices of the candle are prices of its bucket. */
  ghost predicate Built(c: Candle<int>, ts: seq<Tick>, n: nat)
    requires n <= |ts|
  {
    && Consistent(c)
    && Saw(ts, n, c.startTime, c.open) && Saw(ts, n, c.startTime, c.high)
    && Saw(ts, n, c.startTime, c.low) && Saw(ts, n, c.startTime, c.close)
  }

  ghost predicate Past(ts: seq<Tick>, n: nat, bucket: int)
    requires n <= |ts|
  {
    exists i :: 0 <= i < n && ts[i].at.bucket > bucket
  }

  /** A series drawn from some of the first `n` ticks. */
  ghost predicate Sketched(x: Series, ts: seq<Tick>, n: nat) {
    && n <= |ts|
    && Ascending(x.finalized)
    && (forall c :: c in x.finalized ==> Built(c, ts, n) && Past(ts, n, c.startTime))
    && (x.current.None? ==> x.finalized == [])
    && (x.current.Some? ==>
          Built(x.current.value, ts, n) && forall c :: c in x.finalized ==> c.startTime < x.current.value.startTime)
  }

  /** The ticks that what is on screen may come from. */
  function Horizon(s: Session): nat {
    if s.chart.hydration.Some? then s.began else s.passed
  }

  /** Every tick heard is one the server observed, perhaps sent again. */
  ghost predicate Observed(s: Session, f: Feed, e: Event)
    requires s.passed <= |f.ts|
  {
    e.Other? ==> e.t in f.ts[..s.passed]
  }

  ghost predicate ObservedFrom(s: Session, f: Feed, es: seq<Event>)
    requires PossibleFrom(s, f, es)
  {
    es == [] ||
    (ObservedFrom(s, f, es[..|es| - 1]) && Observed(RunFrom(s, f, es[..|es| - 1]), f, es[|es| - 1]))
  }

  /** The chart is fed by this one source. */
  ghost predicate OneSource(c: ChartState, f: Feed) {
    && c.attached && (c.epoch.Some? ==> c.epoch.value == f.epoch)
    && Rests(c)
  }

  ghost predicate Plausible(s: Session, f: Feed) {
    && s.through <= s.passed <= |f.ts|
    && Horizon(s) <= s.passed
    && (s.chart.hydration.Some? ==> forall t :: t in s.chart.hydration.value.buffer ==> t in f.ts[..s.passed])
    && OneSource(s.chart, f)
    && PagesFit(s.chart)
    && Sketched(s.chart.series, f.ts, Horizon(s))
  }

  lemma SeenLonger(x: Series, ts: seq<Tick>, m: nat, n: nat)
    requires m <= n <= |ts| && Sketched(x, ts, m)
    ensures Sketched(x, ts, n)
  {
    forall c | Built(c, ts, m) ensures Built(c, ts, n) { BuiltLonger(c, ts, m, n); }
  }

  lemma BuiltLonger(c: Candle<int>, ts: seq<Tick>, m: nat, n: nat)
    requires m <= n <= |ts| && Built(c, ts, m)
    ensures Built(c, ts, n)
  {
  }

  lemma ObserveBuilt(current: Option<Candle<int>>, ts: seq<Tick>, n: nat, o: Observation)
    requires n <= |ts| && Saw(ts, n, o.bucket, o.price) && (current.Some? ==> Built(current.value, ts, n))
    ensures Built(Observe(current, o).current, ts, n)
  {
    hide Saw;
  }

  lemma DrawnSketched(x: Series, ts: seq<Tick>, n: nat, t: Tick)
    requires Sketched(x, ts, n) && t in ts[..n]
    ensures Sketched(Extend(x, t.at), ts, n)
  {
    hide Built;
    var i :| 0 <= i < n && ts[..n][i] == t;
    assert ts[i].at == t.at == Observation(t.at.bucket, t.at.price);
    ObserveBuilt(x.current, ts, n, t.at);
    if Closes(x.current, t) {
      var c := x.current.value;
      assert Past(ts, n, c.startTime);
      assert Extend(x, t.at).finalized == x.finalized + [c];
    }
  }

  lemma {:induction false} RunSketched(x: Series, ts: seq<Tick>, n: nat, drawn: seq<Tick>)
    requires Sketched(x, ts, n) && forall t :: t in drawn ==> t in ts[..n]
    ensures Sketched(Run(x, Observations(drawn)), ts, n)
  {
    hide Sketched, Extend;
    if drawn != [] {
      var m := |drawn| - 1;
      RunSketched(x, ts, n, drawn[..m]);
      assert Observations(drawn)[..m] == Observations(drawn[..m]);
      DrawnSketched(Run(x, Observations(drawn[..m])), ts, n, drawn[m]);
    }
  }

  lemma SeriesSketched(ts: seq<Tick>, n: nat)
    requires n <= |ts|
    ensures Sketched(SeriesOf(ts[..n]), ts, n)
  {
    RunSketched(NOTHING, ts, n, ts[..n]);
  }

  /** A merged window leaves a series that may come from any tick before it was read. */
  lemma MergedSketched(x: Series, f: Feed, n: nat, read: nat)
    requires Sketched(x, f.ts, n) && n <= read <= |f.ts|
    requires Merge(x.finalized, WindowAt(f, read).candles).Some?
    ensures var w := WindowAt(f, read);
      Sketched(Series(Merge(x.finalized, w.candles).value, w.currentCandle), f.ts, read)
  {
    hide SeriesOf, Read, StoreRun, ByStart, ByTime, Built;
    var held, w, full := x.finalized, WindowAt(f, read), SeriesOf(f.ts[..read]);
    WindowAscends(f, read);
    MergeIsUnion(held, w.candles);
    SeriesSketched(f.ts, read);
    SeenLonger(x, f.ts, n, read);
    var merged := Merge(held, w.candles).value;
    assert forall c :: c in merged ==> c in held || c in w.candles;
    forall c | c in merged
      ensures Built(c, f.ts, read) && Past(f.ts, read, c.startTime)
      ensures w.currentCandle.Some? && c.startTime < w.currentCandle.value.startTime
    {
      assert c in held || c in full.finalized;
      PastIsBehind(f.ts, read, c.startTime);
    }
    assert merged != [] ==> merged[0] in merged;
  }

  lemma PastIsBehind(ts: seq<Tick>, n: nat, bucket: int)
    requires n <= |ts| && Past(ts, n, bucket)
    ensures var current := SeriesOf(ts[..n]).current; current.Some? && bucket < current.value.startTime
  {
    var i :| 0 <= i < n && ts[i].at.bucket > bucket;
    CurrentIsLatest(Observations(ts[..n]));
    assert Observations(ts[..n])[i] == ts[i].at;
  }

  lemma {:induction false} ReplayedWithin(buffer: seq<Tick>, watermark: Option<int>)
    ensures forall t :: t in Replayed(buffer, watermark) ==> t in buffer
  {
    if buffer != [] { ReplayedWithin(buffer[..|buffer| - 1], watermark); }
  }

  lemma HeardPlausible(s: Session, f: Feed, t: Tick)
    requires Plausible(s, f) && t in f.ts[..s.passed]
    ensures Plausible(Hear(s, f, t), f)
  {
    OldestStays(s.chart.series, t.at);
    hide Sketched, Next, Extend;
    if Draws(s.chart) {
      DrawnSketched(s.chart.series, f.ts, s.passed, t);
    } else if s.chart.status != Idle && |s.chart.hydration.value.buffer| >= f.bufferMax {
      SeenLonger(s.chart.series, f.ts, s.began, s.passed);
    }
  }

  lemma LandPlausible(s: Session, f: Feed, read: nat)
    requires Plausible(s, f) && Possible(s, f, WindowCame(read))
    ensures Plausible(Land(s, f, read), f)
  {
    hide Merge, WindowAt, Track, SeriesOf, Replayed, Watermark;
    if Merging(s, f, read).Some? {
      var w, drawn := WindowAt(f, read), ReplayedAt(s, f, read);
      MergedSketched(s.chart.series, f, s.began, read);
      var seeded := Series(Merging(s, f, read).value, w.currentCandle);
      SeenLonger(seeded, f.ts, read, s.passed);
      ReplayedWithin(s.chart.hydration.value.buffer, Watermark(w));
      RunSketched(seeded, f.ts, s.passed, drawn);
      LandPages(s, f, read);
    } else {
      SeenLonger(s.chart.series, f.ts, s.began, s.passed);
    }
  }

  /** A page never conflicts with the chart, whatever is on it. */
  lemma PageNeverConflicts(s: Session, f: Feed, read: nat)
    requires Plausible(s, f) && Possible(s, f, PageCame(read))
    requires s.chart.older.page.value.generation == s.chart.generation
    ensures var held, w := s.chart.series.finalized, PageAt(f, read, s.chart.older.page.value.before);
      && Merge(held, w.candles) == Some(w.candles + held)
      && (forall c :: c in w.candles ==> c in SeriesOf(f.ts).finalized)
  {
    hide SeriesOf, Merge, PageAt, Built;
    var held, before := s.chart.series.finalized, s.chart.older.page.value.before;
    PageGoesInFront(held, f, read, before);
    assert f.ts[..|f.ts|] == f.ts;
    forall c | c in PageAt(f, read, before).candles ensures c in SeriesOf(f.ts).finalized {
      StillFinalized(f.ts, read, |f.ts|, c);
    }
  }

  lemma PagePlausible(s: Session, f: Feed, read: nat)
    requires Plausible(s, f) && Possible(s, f, PageCame(read))
    ensures Plausible(LandPage(s, f, read), f)
  {
    hide SeriesOf, Merge, PageAt, Built;
    var page, held := s.chart.older.page.value, s.chart.series.finalized;
    if page.generation == s.chart.generation && s.chart.status != Idle && Some(f.epoch) == s.chart.epoch
       && f.epoch == page.epoch {
      var w := PageAt(f, read, page.before);
      PageGoesInFront(held, f, read, page.before);
      assert held[0] in held;
      SeriesSketched(f.ts, read);
      SeenLonger(SeriesOf(f.ts[..read]), f.ts, read, s.passed);
      assert forall c :: c in w.candles ==> Built(c, f.ts, s.passed) && Past(f.ts, s.passed, c.startTime);
    }
  }

  lemma StepPlausible(s: Session, f: Feed, e: Event)
    requires Plausible(s, f) && Possible(s, f, e) && Observed(s, f, e)
    ensures Plausible(Step(s, f, e), f)
  {
    hide Sketched, Hear, Land, LandPage;
    match e
    case Opened => SeenLonger(s.chart.series, f.ts, Horizon(s), s.passed);
    case Sent(heard) =>
      var next := s.(passed := s.passed + 1);
      GoneOut(s, f);
      if heard {
        assert f.ts[..next.passed][s.passed] == f.ts[s.passed];
        HeardPlausible(next, f, f.ts[s.passed]);
      }
    case Other(t) => HeardPlausible(s, f, t);
    case WindowCame(read) => LandPlausible(s, f, read);
    case NoWindowCame(_) => SeenLonger(s.chart.series, f.ts, s.began, s.passed);
    case PageCame(read) => PagePlausible(s, f, read);
    case StopCalled => NothingSketched(f.ts, s.passed);
    case _ =>
  }

  lemma NothingSketched(ts: seq<Tick>, n: nat)
    requires n <= |ts|
    ensures Sketched(NOTHING, ts, n)
  {
  }

  lemma GoneOut(s: Session, f: Feed)
    requires Plausible(s, f) && s.passed < |f.ts|
    ensures Plausible(s.(passed := s.passed + 1), f)
  {
    hide Sketched;
    var next := s.(passed := s.passed + 1);
    SeenLonger(s.chart.series, f.ts, Horizon(s), Horizon(next));
    assert forall t :: t in f.ts[..s.passed] ==> t in f.ts[..next.passed] by {
      assert f.ts[..next.passed] == f.ts[..s.passed] + [f.ts[s.passed]];
    }
  }

  lemma {:induction false} RunPlausible(s: Session, f: Feed, es: seq<Event>)
    requires Plausible(s, f) && PossibleFrom(s, f, es) && ObservedFrom(s, f, es)
    ensures Plausible(RunFrom(s, f, es), f)
  {
    hide Plausible, Step, Observed;
    if es != [] {
      var before := RunFrom(s, f, es[..|es| - 1]);
      RunPlausible(s, f, es[..|es| - 1]);
      StepPlausible(before, f, es[|es| - 1]);
    }
  }

  /** In every session that hears only observed ticks, what is on screen is made of prices of
      its own buckets, in order, and the cursor is its oldest candle. */
  lemma SessionPlausible(f: Feed, es: seq<Event>)
    requires PossibleFrom(START, f, es) && ObservedFrom(START, f, es)
    ensures Plausible(RunFrom(START, f, es), f)
  {
    hide RunFrom, ObservedFrom;
    assert Plausible(START, f);
    RunPlausible(START, f, es);
  }

  // ---- Which candles are the stream's -------------------------------------

  /** The candle opens at the first price of its bucket, closes at the last, and no price
      of the bucket lies outside its range. */
  ghost predicate Fits(c: Candle<int>, ts: seq<Tick>) {
    var prices := PricesIn(Observations(ts), c.startTime);
    prices != [] && prices[0] == c.open && prices[|prices| - 1] == c.close && Within(c, prices)
  }

  lemma {:induction false} SawPrices(os: seq<Observation>, i: nat)
    requires i < |os| && forall j, k :: 0 <= j < k < |os| ==> os[j].bucket <= os[k].bucket
    ensures os[i].price in PricesIn(os, os[i].bucket)
  {
    var n := |os| - 1;
    if i < n { SawPrices(os[..n], i); }
  }

  lemma SawIsIn(ts: seq<Tick>, n: nat, bucket: int, price: int)
    requires InOrder(ts) && n <= |ts| && Saw(ts, n, bucket, price)
    ensures price in PricesIn(Observations(ts), bucket)
  {
    var i :| 0 <= i < n && ts[i].at == Observation(bucket, price);
    SawPrices(Observations(ts), i);
  }

  /** A candle made of prices of a closed bucket is the stream's exactly when it fits. */
  lemma FitsExactly(c: Candle<int>, ts: seq<Tick>, n: nat)
    requires InOrder(ts) && n <= |ts| && Built(c, ts, n) && Past(ts, n, c.startTime)
    ensures c in SeriesOf(ts).finalized <==> Fits(c, ts)
  {
    hide PricesIn, Run;
    var os, full := Observations(ts), SeriesOf(ts);
    var all := Candles(full);
    RunIsBatch(os);
    SawIsIn(ts, n, c.startTime, c.high);
    SawIsIn(ts, n, c.startTime, c.low);
    PastOfAll(ts, n, c.startTime);
    if Fits(c, ts) {
      SameBucket(c, all, os);
      var k :| 0 <= k < |all| && all[k] == c;
      assert full.finalized[k] == c;
    }
    if c in full.finalized {
      var k :| 0 <= k < |full.finalized| && full.finalized[k] == c;
      assert all[k] == c;
      assert Summarizes(c, PricesIn(os, c.startTime));
    }
  }

  lemma PastOfAll(ts: seq<Tick>, n: nat, bucket: int)
    requires n <= |ts| && Past(ts, n, bucket)
    ensures SeriesOf(ts).current.Some? && bucket < SeriesOf(ts).current.value.startTime
  {
    hide SeriesOf;
    assert ts[..|ts|] == ts && Past(ts, |ts|, bucket);
    PastIsBehind(ts, |ts|, bucket);
  }

  /** The stream has a closed candle for every bucket the chart closed. */
  lemma BucketIsClosed(c: Candle<int>, ts: seq<Tick>, n: nat)
    requires InOrder(ts) && n <= |ts| && Built(c, ts, n) && Past(ts, n, c.startTime)
    ensures exists y :: y in SeriesOf(ts[..n]).finalized && y.startTime == c.startTime
  {
    hide Past, Built, SeriesOf;
    var full := SeriesOf(ts[..n]);
    var y := BucketHasCandle(c, ts, n);
    PastIsBehind(ts, n, c.startTime);
    var k :| 0 <= k < |Candles(full)| && Candles(full)[k] == y;
    assert full.finalized[k] == y;
  }

  lemma BucketHasCandle(c: Candle<int>, ts: seq<Tick>, n: nat) returns (y: Candle<int>)
    requires InOrder(ts) && n <= |ts| && Built(c, ts, n)
    ensures y in Candles(SeriesOf(ts[..n])) && y.startTime == c.startTime
  {
    var os := Observations(ts[..n]);
    var i :| 0 <= i < n && ts[i].at == Observation(c.startTime, c.open);
    assert os[i] == ts[i].at;
    SawPrices(os, i);
    hide PricesIn, Run, Candles;
    RunIsBatch(os);
    assert PricesIn(os, c.startTime) != [];
    y :| y in Candles(SeriesOf(ts[..n])) && y.startTime == c.startTime;
  }

  ghost predicate Genuine(s: Session, f: Feed) {
    forall c :: c in s.chart.series.finalized ==> c in SeriesOf(f.ts).finalized
  }

  /** In any session a window conflicts exactly when the chart shows a candle the stream does
      not have and the window reaches it. */
  lemma ConflictsExactly(s: Session, f: Feed, read: nat)
    requires InOrder(f.ts) && Plausible(s, f) && Possible(s, f, WindowCame(read))
    ensures Merging(s, f, read).None? <==>
      exists x :: x in s.chart.series.finalized && x !in SeriesOf(f.ts).finalized
                  && Reaches(WindowAt(f, read), x.startTime)
  {
    hide SeriesOf, Read, StoreRun, Merge, Built;
    var held, w, full := s.chart.series.finalized, WindowAt(f, read), SeriesOf(f.ts[..read]).finalized;
    assert f.ts[..|f.ts|] == f.ts;
    WindowAscends(f, read);
    FinalizedAscends(f.ts);
    MergeIsUnion(held, w.candles);
    if Merging(s, f, read).None? {
      var x, y :| x in held && y in w.candles && x.startTime == y.startTime && x != y;
      StillFinalized(f.ts, read, |f.ts|, y);
      OneForStart(SeriesOf(f.ts).finalized, x, y);
      assert w.candles[0].startTime <= y.startTime;
    }
    forall x | x in held && x !in SeriesOf(f.ts).finalized && Reaches(w, x.startTime)
      ensures Merging(s, f, read).None?
    {
      BucketIsClosed(x, f.ts, s.began);
      var y :| y in SeriesOf(f.ts[..s.began]).finalized && y.startTime == x.startTime;
      StillFinalized(f.ts, s.began, read, y);
      StillFinalized(f.ts, read, |f.ts|, y);
      InReach(f, read, y);
      assert !Agree(held, w.candles);
    }
  }

  function ClosedByHearing(c: ChartState, t: Tick): seq<Candle<int>> {
    if Draws(c) && Closes(c.series.current, t) then [c.series.current.value] else []
  }

  /** The candles that the ticks drawn by an event close. */
  ghost function NewlyClosed(s: Session, f: Feed, e: Event): seq<Candle<int>>
    requires s.passed <= |f.ts| && Possible(s, f, e)
  {
    match e
    case Sent(heard) => if heard then ClosedByHearing(s.chart, f.ts[s.passed]) else []
    case Other(t) => ClosedByHearing(s.chart, t)
    case WindowCame(read) =>
      if Merging(s, f, read).None? then []
      else Run(Series([], WindowAt(f, read).currentCandle), Observations(ReplayedAt(s, f, read))).finalized
    case _ => []
  }

  lemma StepOneSource(s: Session, f: Feed, e: Event)
    requires s.through <= s.passed <= |f.ts| && OneSource(s.chart, f) && Possible(s, f, e)
    ensures OneSource(Step(s, f, e).chart, f)
  {
    hide SeriesOf, Merge, WindowAt, PageAt, Extend, Next, Track, Run;
  }

  lemma HearCloses(s: Session, f: Feed, t: Tick)
    requires s.through <= s.passed <= |f.ts| && s.chart.attached
    ensures Hear(s, f, t).chart.series.finalized == s.chart.series.finalized + ClosedByHearing(s.chart, t)
  {
  }

  lemma MergedWithin(held: seq<Candle<int>>, incoming: seq<Candle<int>>)
    requires Merge(held, incoming).Some?
    ensures forall c :: c in Merge(held, incoming).value ==> c in held || c in incoming
  {
    hide ByTime;
    ByStartKeyed(held + incoming);
  }

  lemma PageWithin(f: Feed, read: nat, before: int)
    requires read <= |f.ts|
    ensures forall c :: c in PageAt(f, read, before).candles ==> c in SeriesOf(f.ts).finalized
  {
    hide SeriesOf, Read, StoreRun;
    StoreHolds(f.ts[..read], f.retention);
    FinalizedAscends(f.ts[..read]);
    PageOfSeries(StoreRun(f.ts[..read], f.retention), SeriesOf(f.ts[..read]), f.tf, f.retention, f.pageLimit,
                 Some(before));
    assert f.ts[..|f.ts|] == f.ts;
    forall c | c in PageAt(f, read, before).candles ensures c in SeriesOf(f.ts).finalized {
      StillFinalized(f.ts, read, |f.ts|, c);
    }
  }

  lemma WindowWithin(f: Feed, read: nat)
    requires read <= |f.ts|
    ensures forall c :: c in WindowAt(f, read).candles ==> c in SeriesOf(f.ts).finalized
  {
    hide SeriesOf, WindowAt;
    WindowAscends(f, read);
    assert f.ts[..|f.ts|] == f.ts;
    forall c | c in WindowAt(f, read).candles ensures c in SeriesOf(f.ts).finalized {
      StillFinalized(f.ts, read, |f.ts|, c);
    }
  }

  lemma LandCloses(s: Session, f: Feed, read: nat)
    requires s.through <= s.passed <= |f.ts| && OneSource(s.chart, f) && Possible(s, f, WindowCame(read))
    requires Merging(s, f, read).Some?
    ensures var closed, after := NewlyClosed(s, f, WindowCame(read)), Land(s, f, read).chart.series.finalized;
      && after == Merging(s, f, read).value + closed
      && forall c :: c in Merging(s, f, read).value ==>
           c in s.chart.series.finalized || c in SeriesOf(f.ts).finalized
  {
    hide SeriesOf, Read, StoreRun, Merge, Run, Replayed, Watermark, Track;
    var held, w := s.chart.series.finalized, WindowAt(f, read);
    WindowWithin(f, read);
    MergedWithin(held, w.candles);
    RunFromCurrent(Series(Merge(held, w.candles).value, w.currentCandle), Observations(ReplayedAt(s, f, read)));
  }

  lemma ConflictKeepsOrDrops(s: Session, f: Feed, read: nat)
    requires s.through <= s.passed <= |f.ts| && OneSource(s.chart, f) && Possible(s, f, WindowCame(read))
    requires Merging(s, f, read).None?
    ensures var t, after := s.chart, Land(s, f, read).chart;
      if t.conflicts >= MAX_CONFLICT_REHYDRATES then after == Fail(t, CandleConflict)
      else after.series == NOTHING && after.hydration.Some? && after.conflicts == t.conflicts + 1
  {
    hide SeriesOf, Merge, WindowAt;
  }

  lemma PageCloses(s: Session, f: Feed, read: nat)
    requires s.through <= s.passed <= |f.ts| && Possible(s, f, PageCame(read))
    ensures forall c :: c in LandPage(s, f, read).chart.series.finalized ==>
              c in s.chart.series.finalized || c in SeriesOf(f.ts).finalized
  {
    hide SeriesOf, Merge, PageAt;
    var held, w := s.chart.series.finalized, PageAt(f, read, s.chart.older.page.value.before);
    PageWithin(f, read, s.chart.older.page.value.before);
    if Merge(held, w.candles).Some? { MergedWithin(held, w.candles); }
  }

  /** From a chart whose candles are all the stream's, they still are after an event
      exactly when the ones it closes are. */
  lemma StepGenuine(s: Session, f: Feed, e: Event)
    requires s.through <= s.passed <= |f.ts| && OneSource(s.chart, f) && Possible(s, f, e) && Genuine(s, f)
    ensures Genuine(Step(s, f, e), f) <==> forall c :: c in NewlyClosed(s, f, e) ==> c in SeriesOf(f.ts).finalized
  {
    hide SeriesOf, Hear, Land, LandPage, Merging, Run, Draws, Closes;
    match e
    case Sent(heard) => if heard { HearCloses(s.(passed := s.passed + 1), f, f.ts[s.passed]); }
    case Other(t) => HearCloses(s, f, t);
    case WindowCame(read) =>
      if Merging(s, f, read).Some? {
        LandCloses(s, f, read);
      } else {
        ConflictKeepsOrDrops(s, f, read);
      }
    case PageCame(read) => PageCloses(s, f, read);
    case _ =>
  }

  /** The candle is first, highest, lowest and last price of its bucket, which is over. */
  ghost predicate SumsUp(c: Candle<int>, ts: seq<Tick>) {
    Summarizes(c, PricesIn(Observations(ts), c.startTime)) && Past(ts, |ts|, c.startTime)
  }

  lemma SumsUpExactly(c: Candle<int>, ts: seq<Tick>)
    ensures c in SeriesOf(ts).finalized <==> SumsUp(c, ts)
  {
    hide PricesIn, Run, Summarizes;
    var os, full := Observations(ts), SeriesOf(ts);
    var all := Candles(full);
    RunIsBatch(os);
    CurrentIsLatest(os);
    if ts == [] { NoTicks(0); }
    if SumsUp(c, ts) {
      PastOfAll(ts, |ts|, c.startTime);
      SameBucket(c, all, os);
      var k :| 0 <= k < |all| && all[k] == c;
      assert full.finalized[k] == c;
    }
    if c in full.finalized {
      var k :| 0 <= k < |full.finalized| && full.finalized[k] == c;
      assert all[k] == c && all[|full.finalized|] == full.current.value;
      var j :| 0 <= j < |os| && os[j].bucket == full.current.value.startTime;
      assert ts[j].at.bucket > c.startTime;
    }
  }

  ghost predicate GenuineThroughout(f: Feed, es: seq<Event>)
    requires PossibleFrom(START, f, es)
  {
    es == [] || (GenuineThroughout(f, es[..|es| - 1]) && Genuine(RunFrom(START, f, es), f))
  }

  ghost predicate SumsUpThroughout(f: Feed, es: seq<Event>)
    requires PossibleFrom(START, f, es)
  {
    es == [] ||
    (SumsUpThroughout(f, es[..|es| - 1])
     && forall c :: c in NewlyClosed(RunFrom(START, f, es[..|es| - 1]), f, es[|es| - 1]) ==> SumsUp(c, f.ts))
  }

  /** In every session, whatever is lost, heard twice or never observed, and whenever windows
      and pages land or fail: at every moment all closed candles on the chart are the
      stream's, if and only if every candle closed by drawing sums up its bucket. */
  lemma {:induction false} GenuineExactly(f: Feed, es: seq<Event>)
    requires PossibleFrom(START, f, es)
    ensures GenuineThroughout(f, es) <==> SumsUpThroughout(f, es)
    ensures OneSource(RunFrom(START, f, es).chart, f)
    ensures GenuineThroughout(f, es) ==> Genuine(RunFrom(START, f, es), f)
  {
    hide OneSource, Step, NewlyClosed, SumsUp, Genuine;
    if es != [] {
      var init, e := es[..|es| - 1], es[|es| - 1];
      var s := RunFrom(START, f, init);
      GenuineExactly(f, init);
      StepOneSource(s, f, e);
      if GenuineThroughout(f, init) {
        StepGenuine(s, f, e);
        forall c | c in NewlyClosed(s, f, e) ensures c in SeriesOf(f.ts).finalized <==> SumsUp(c, f.ts) {
          SumsUpExactly(c, f.ts);
        }
      }
    } else {
      StartGenuine(f);
    }
  }

  lemma StartGenuine(f: Feed)
    ensures Genuine(START, f) && OneSource(START.chart, f)
  {
  }

  /** Where only observed ticks of an ordered stream are heard, it is enough to look at the
      open, the close and the range of a candle that drawing closes. */
  lemma ClosedFit(s: Session, f: Feed, e: Event)
    requires InOrder(f.ts) && Plausible(s, f) && Possible(s, f, e) && Observed(s, f, e)
    ensures forall c :: c in NewlyClosed(s, f, e) ==> (SumsUp(c, f.ts) <==> Fits(c, f.ts))
  {
    hide SeriesOf, Fits, SumsUp, Hear, Land, LandPage, Merging, Run, Built, Past, Draws, Closes;
    var t := Step(s, f, e);
    StepPlausible(s, f, e);
    ClosedAreShown(s, f, e);
    forall c | c in NewlyClosed(s, f, e) ensures SumsUp(c, f.ts) <==> Fits(c, f.ts) {
      FitsExactly(c, f.ts, Horizon(t));
      SumsUpExactly(c, f.ts);
    }
  }

  lemma ClosedAreShown(s: Session, f: Feed, e: Event)
    requires s.through <= s.passed <= |f.ts| && OneSource(s.chart, f) && Possible(s, f, e)
    ensures forall c :: c in NewlyClosed(s, f, e) ==> c in Step(s, f, e).chart.series.finalized
  {
    hide SeriesOf, Hear, Land, LandPage, Run, Draws, Closes, Merging;
    match e
    case Sent(heard) => if heard { HearCloses(s.(passed := s.passed + 1), f, f.ts[s.passed]); }
    case Other(t) => HearCloses(s, f, t);
    case WindowCame(read) => if Merging(s, f, read).Some? { LandCloses(s, f, read); }
    case _ =>
  }

  // ---- Recovery -----------------------------------------------------------

  /** A window whose replay is clean puts the chart in step if and only if every closed
      candle on it is the stream's, whatever became of the open one. */
  lemma LandingHealsExactly(s: Session, f: Feed, read: nat)
    requires InOrder(f.ts) && Plausible(s, f) && Possible(s, f, WindowCame(read)) && Clean(s, f, WindowCame(read))
    ensures InStep(Land(s, f, read), f) <==> Genuine(s, f)
  {
    hide SeriesOf, WindowAt, Merge, Built, Track, Run, Replayed, Watermark;
    var held := s.chart.series.finalized;
    assert f.ts[..|f.ts|] == f.ts;
    FinalizedAscends(f.ts);
    if Genuine(s, f) {
      forall x | x in held ensures x in SeriesOf(f.ts[..s.began]).finalized {
        BucketIsClosed(x, f.ts, s.began);
        var y :| y in SeriesOf(f.ts[..s.began]).finalized && y.startTime == x.startTime;
        StillFinalized(f.ts, s.began, |f.ts|, y);
        OneForStart(SeriesOf(f.ts).finalized, x, y);
      }
      LandRestores(s, f, read, s.began);
    } else if Merging(s, f, read).None? {
      ConflictKeepsOrDrops(s, f, read);
    } else {
      LandCloses(s, f, read);
      WindowAscends(f, read);
      MergeTakesIn(held, WindowAt(f, read).candles);
      var x :| x in held && x !in SeriesOf(f.ts).finalized;
      var t := Land(s, f, read);
      assert x in t.chart.series.finalized;
      if x in SeriesOf(f.ts[..t.through]).finalized { StillFinalized(f.ts, t.through, |f.ts|, x); }
    }
  }

  /** The chart is not stopped, and every window that comes goes back to this start. */
  ghost predicate AllReach(f: Feed, es: seq<Event>, start: int) {
    && (forall n :: 0 <= n < |es| ==> !es[n].StopCalled?)
    && (forall n :: 0 <= n < |es| && es[n].WindowCame? ==>
          es[n].read <= |f.ts| && Reaches(WindowAt(f, es[n].read), start))
  }

  /** A first conflict drops the chart and asks again; a second one, before any window has
      landed, does not.  From then on a foreign candle stays, and every hydration that
      reaches it fails, whatever else is heard or lost. */
  lemma {:induction false} NeverRepaired(s: Session, f: Feed, es: seq<Event>, x: Candle<int>)
    requires InOrder(f.ts) && Plausible(s, f) && PossibleFrom(s, f, es) && ObservedFrom(s, f, es)
    requires s.chart.conflicts >= MAX_CONFLICT_REHYDRATES && s.chart.status != Idle
    requires x in s.chart.series.finalized && x !in SeriesOf(f.ts).finalized && AllReach(f, es, x.startTime)
    ensures var t := RunFrom(s, f, es).chart;
      && x in t.series.finalized && t.conflicts >= MAX_CONFLICT_REHYDRATES && t.status != Idle
      && (es != [] && es[|es| - 1].WindowCame? ==> t.hydration.None? && t.status == Failed(Some(CandleConflict)))
  {
    hide SeriesOf, WindowAt, Plausible, Step, Observed, Reaches;
    if es != [] {
      var init, e := es[..|es| - 1], es[|es| - 1];
      NeverRepaired(s, f, init, x);
      RunPlausible(s, f, init);
      StaysForeign(RunFrom(s, f, init), f, e, x);
    }
  }

  lemma PageStays(s: Session, f: Feed, read: nat)
    requires Plausible(s, f) && Possible(s, f, PageCame(read))
    ensures var held, after := s.chart.series.finalized, LandPage(s, f, read).chart;
      && (forall c :: c in held ==> c in after.series.finalized)
      && after.conflicts == s.chart.conflicts && (after.status == Idle <==> s.chart.status == Idle)
  {
    hide SeriesOf, Merge, PageAt, Sketched;
    if s.chart.older.page.value.generation == s.chart.generation { PageNeverConflicts(s, f, read); }
  }

  lemma StaysForeign(s: Session, f: Feed, e: Event, x: Candle<int>)
    requires InOrder(f.ts) && Plausible(s, f) && Possible(s, f, e)
    requires s.chart.conflicts >= MAX_CONFLICT_REHYDRATES && s.chart.status != Idle
    requires x in s.chart.series.finalized && x !in SeriesOf(f.ts).finalized
    requires !e.StopCalled? && (e.WindowCame? ==> Reaches(WindowAt(f, e.read), x.startTime))
    ensures var t := Step(s, f, e).chart;
      && x in t.series.finalized && t.conflicts >= MAX_CONFLICT_REHYDRATES && t.status != Idle
      && (e.WindowCame? ==> t.hydration.None? && t.status == Failed(Some(CandleConflict)))
  {
    hide SeriesOf, WindowAt, Sketched, Land, LandPage, Merging, Reaches, Next;
    match e
    case Sent(heard) => if heard { HearCloses(s.(passed := s.passed + 1), f, f.ts[s.passed]); }
    case Other(t) => HearCloses(s, f, t);
    case WindowCame(read) =>
      ConflictsExactly(s, f, read);
      ConflictKeepsOrDrops(s, f, read);
    case PageCame(read) => PageStays(s, f, read);
    case _ =>
  }
}
