/** The server's observed-history store for one symbol and timeframe. */
module HistoryStore {
  import opened Options
  import opened Timeframes
  import opened MarketCandles
  import opened TickGate

  /** An accepted tick as the store sees it: its sequence, bucket and mid. */
  datatype Tick = Tick(sequence: int, at: Observation)

  function AsTick(t: MarketTick, tf: Timeframe): Tick {
    Tick(t.sequence, Observation(BucketStartMs(t.timestampMs, tf), t.price))
  }

  function Observations(ts: seq<Tick>): (os: seq<Observation>)
    ensures |os| == |ts| && forall i :: 0 <= i < |ts| ==> os[i] == ts[i].at
  {
    seq(|ts|, i requires 0 <= i < |ts| => ts[i].at)
  }

  // ---- The store --------------------------------------------------------

  datatype Stored = Stored(candle: Candle<int>, firstSequence: int, lastSequence: int)

  datatype StoreState = StoreState(
    finalized: seq<Stored>,
    current: Option<Candle<int>>,
    firstSequence: Option<int>,
    lastSequence: Option<int>,
    staleObservations: nat)

  const EMPTY := StoreState([], None, None, None, 0)

  function Newest<T>(s: seq<T>, n: nat): seq<T> {
    if |s| > n then s[|s| - n..] else s
  }

  function OrElse(o: Option<int>, otherwise: int): int {
    if o.Some? then o.value else otherwise
  }

  function Store(s: StoreState, t: Tick, retention: nat): StoreState {
    if s.current.Some? && t.at.bucket < s.current.value.startTime then
      s.(staleObservations := s.staleObservations + 1)
    else
      var u := Observe(s.current, t.at);
      if u.finalized.Some? then
        var first, last := OrElse(s.firstSequence, t.sequence), OrElse(s.lastSequence, t.sequence);
        var closed := Stored(u.finalized.value, first, last);
        StoreState(Newest(s.finalized + [closed], retention), Some(u.current),
                   Some(t.sequence), Some(t.sequence), s.staleObservations)
      else if u.openedNewBucket then
        s.(current := Some(u.current), firstSequence := Some(t.sequence), lastSequence := Some(t.sequence))
      else
        s.(current := Some(u.current), lastSequence := Some(t.sequence))
  }

  /** What the store tells its observer about a bar. */
  datatype BarUpdate = BarUpdate(candle: Candle<int>, final: bool, first: Option<int>, through: Option<int>)

  /** The updates one tick gives rise to: the bar it closed, if any, then the open one. */
  function Updates(s: StoreState, t: Tick): seq<BarUpdate> {
    if s.current.Some? && t.at.bucket < s.current.value.startTime then []
    else
      var u := Observe(s.current, t.at);
      (if u.finalized.None? then [] else
         [BarUpdate(u.finalized.value, true, Some(OrElse(s.firstSequence, t.sequence)),
                    Some(OrElse(s.lastSequence, t.sequence)))])
      + [BarUpdate(u.current, false, if u.openedNewBucket then Some(t.sequence) else s.firstSequence,
                   Some(t.sequence))]
  }

  /** The store after taking over a bar that was stored while it was open. */
  function Seeded(s: StoreState, bar: BarUpdate): StoreState {
    s.(current := Some(bar.candle), firstSequence := bar.first, lastSequence := bar.through)
  }

  class TimeframeState {
    const aggregator: CandleAggregator
    const retention: nat
    var finalized: seq<Stored>
    var currentFirstSequence: Option<int>
    var currentLastSequence: Option<int>
    var staleObservations: nat
    var published: seq<BarUpdate>

    ghost function State(): StoreState
      reads this, aggregator
    {
      StoreState(finalized, aggregator.current, currentFirstSequence, currentLastSequence, staleObservations)
    }

    constructor (timeframe: Timeframe, retention: nat)
      ensures fresh(aggregator) && aggregator.timeframe == timeframe && this.retention == retention
      ensures State() == EMPTY && published == []
    {
      aggregator := new CandleAggregator(timeframe);
      this.retention := retention;
      finalized := [];
      currentFirstSequence, currentLastSequence := None, None;
      staleObservations := 0;
      published := [];
    }

    method SeedCurrentBar(bar: BarUpdate)
      modifies this, aggregator
      ensures State() == Seeded(old(State()), bar)
      ensures published == old(published)
    {
      aggregator.Seed(bar.candle);
      currentFirstSequence := bar.first;
      currentLastSequence := bar.through;
    }

    method ApplyToTimeframe(tick: MarketTick)
      modifies this, aggregator
      ensures State() == Store(old(State()), AsTick(tick, aggregator.timeframe), retention)
      ensures published == old(published) + Updates(old(State()), AsTick(tick, aggregator.timeframe))
    {
      hide BucketStart;
      var bucket := BucketStartMs(tick.timestampMs, aggregator.timeframe);
      var open := aggregator.current;
      if open.Some? && bucket < open.value.startTime {
        staleObservations := staleObservations + 1;
        assert published == published + [];
        return;
      }
      var update := aggregator.ObserveTick(tick.timestampMs, tick.price);
      if update.finalized.Some? {
        var first, last := OrElse(currentFirstSequence, tick.sequence), OrElse(currentLastSequence, tick.sequence);
        finalized := finalized + [Stored(update.finalized.value, first, last)];
        published := published + [BarUpdate(update.finalized.value, true, Some(first), Some(last))];
        if |finalized| > retention {
          finalized := finalized[|finalized| - retention..];
        }
        currentFirstSequence := Some(tick.sequence);
        currentLastSequence := Some(tick.sequence);
        published := published + [BarUpdate(update.current, false, Some(tick.sequence), Some(tick.sequence))];
        return;
      }
      if update.openedNewBucket {
        currentFirstSequence := Some(tick.sequence);
        currentLastSequence := Some(tick.sequence);
        published := published + [BarUpdate(update.current, false, Some(tick.sequence), Some(tick.sequence))];
        return;
      }
      currentLastSequence := Some(tick.sequence);
      published := published + [BarUpdate(update.current, false, currentFirstSequence, Some(tick.sequence))];
    }

    method ReadWindow(limit: nat, before: Option<int>) returns (w: HistoryWindow)
      ensures w == Read(State(), aggregator.timeframe, limit, before)
    {
      hide BucketEnd, Before, CandlesOf;
      var pool := if before.None? then finalized else Before(finalized, before.value);
      var page := Newest(pool, limit);
      var newest := if page == [] then None else Some(page[|page| - 1]);
      var oldest := if page == [] then None else Some(page[0]);
      var currentCandle := if before.None? then aggregator.current else None;
      w := HistoryWindow(
        CandlesOf(page),
        currentCandle,
        if newest.None? then None else Some(newest.value.lastSequence),
        if currentCandle.None? then None else currentLastSequence,
        if newest.None? then None else Some(BucketEnd(newest.value.candle.startTime, aggregator.timeframe)),
        |pool| > |page|,
        if oldest.None? then None else Some(oldest.value.candle.startTime));
    }
  }

  function StoreOn(s: StoreState, ts: seq<Tick>, retention: nat): StoreState {
    if ts == [] then s else Store(StoreOn(s, ts[..|ts| - 1], retention), ts[|ts| - 1], retention)
  }

  function StoreRun(ts: seq<Tick>, retention: nat): StoreState {
    StoreOn(EMPTY, ts, retention)
  }

  // ---- Reading a window -------------------------------------------------

  datatype HistoryWindow = HistoryWindow(
    candles: seq<Candle<int>>,
    currentCandle: Option<Candle<int>>,
    finalizedThrough: Option<int>,
    currentThrough: Option<int>,
    historyThrough: Option<int>,
    hasMore: bool,
    nextCursor: Option<int>)

  function Before(cs: seq<Stored>, before: int): seq<Stored> {
    if cs == [] then [] else
      Before(cs[..|cs| - 1], before) + (if cs[|cs| - 1].candle.startTime < before then [cs[|cs| - 1]] else [])
  }

  function CandlesOf(page: seq<Stored>): (cs: seq<Candle<int>>)
    ensures |cs| == |page| && forall i :: 0 <= i < |page| ==> cs[i] == page[i].candle
  {
    seq(|page|, i requires 0 <= i < |page| => page[i].candle)
  }

  function Read(s: StoreState, tf: Timeframe, limit: nat, before: Option<int>): HistoryWindow {
    var pool := if before.None? then s.finalized else Before(s.finalized, before.value);
    var page := Newest(pool, limit);
    var currentCandle := if before.None? then s.current else None;
    HistoryWindow(
      CandlesOf(page),
      currentCandle,
      if page == [] then None else Some(page[|page| - 1].lastSequence),
      if currentCandle.None? then None else s.lastSequence,
      if page == [] then None else Some(BucketEnd(page[|page| - 1].candle.startTime, tf)),
      |pool| > |page|,
      if page == [] then None else Some(page[0].candle.startTime))
  }

  // ---- What the store holds ---------------------------------------------

  function SeriesOf(ts: seq<Tick>): Series {
    Run(NOTHING, Observations(ts))
  }

  /** The index of the last tick that was not late. */
  function LastKept(ts: seq<Tick>): (p: nat)
    requires ts != []
    ensures p < |ts|
  {
    var n := |ts| - 1;
    if n == 0 || Kept(Observations(ts), n) then n else LastKept(ts[..n])
  }

  lemma SeriesStep(ts: seq<Tick>)
    requires ts != []
    ensures SeriesOf(ts) == Extend(SeriesOf(ts[..|ts| - 1]), ts[|ts| - 1].at)
    ensures Observations(ts)[..|ts| - 1] == Observations(ts[..|ts| - 1])
  {
    assert Observations(ts)[..|ts| - 1] == Observations(ts[..|ts| - 1]);
  }

  lemma SeriesAppend(a: seq<Tick>, b: seq<Tick>)
    ensures SeriesOf(a + b) == Run(SeriesOf(a), Observations(b))
  {
    assert Observations(a + b) == Observations(a) + Observations(b);
    RunAppend(NOTHING, Observations(a), Observations(b));
  }

  lemma NoTicks(retention: nat)
    ensures SeriesOf([]) == NOTHING && Newest(NOTHING.finalized, retention) == []
  {
  }

  /** The last kept index moves to a tick exactly when it is not late. */
  lemma LastKeptStep(ts: seq<Tick>)
    requires ts != []
    ensures var n, before := |ts| - 1, SeriesOf(ts[..|ts| - 1]).current;
      && (before.None? <==> n == 0)
      && LastKept(ts) == if before.Some? && ts[n].at.bucket < before.value.startTime then LastKept(ts[..n]) else n
  {
    SeriesStep(ts);
    KeptAgainstLatest(Observations(ts));
    CurrentIsLatest(Observations(ts[..|ts| - 1]));
  }

  /** The store's open candle is the aggregator's, its sequence is the last kept
      tick's, and its finalized candles are the newest of the whole series. */
  lemma {:induction false} StoreHolds(ts: seq<Tick>, retention: nat)
    ensures var s, full := StoreRun(ts, retention), SeriesOf(ts);
      && s.current == full.current
      && (s.current.None? <==> ts == [])
      && CandlesOf(s.finalized) == Newest(full.finalized, retention)
      && s.lastSequence == (if ts == [] then None else Some(ts[LastKept(ts)].sequence))
      && (ts != [] ==> s.firstSequence.Some?)
  {
    hide SeriesOf, Newest, LastKept, Store, Extend;
    if ts != [] {
      var n := |ts| - 1;
      StoreHolds(ts[..n], retention);
      SeriesStep(ts);
      LastKeptStep(ts);
      StoreMirrors(StoreRun(ts[..n], retention), SeriesOf(ts[..n]), ts[n], retention);
    } else {
      NoTicks(retention);
    }
  }

  /** One tick keeps the store and the aggregated series in step. */
  lemma StoreMirrors(s: StoreState, full: Series, t: Tick, retention: nat)
    requires s.current == full.current
    requires s.current.Some? ==> s.firstSequence.Some? && s.lastSequence.Some?
    requires CandlesOf(s.finalized) == Newest(full.finalized, retention)
    ensures var s', full' := Store(s, t, retention), Extend(full, t.at);
      && s'.current == full'.current && s'.current.Some?
      && s'.firstSequence.Some?
      && s'.lastSequence == (if s.current.Some? && t.at.bucket < s.current.value.startTime
                             then s.lastSequence else Some(t.sequence))
      && CandlesOf(s'.finalized) == Newest(full'.finalized, retention)
  {
  }

  // ---- What the store publishes ------------------------------------------

  function PublishedOn(s: StoreState, ts: seq<Tick>, retention: nat): seq<BarUpdate> {
    if ts == [] then [] else
      var before := ts[..|ts| - 1];
      PublishedOn(s, before, retention) + Updates(StoreOn(s, before, retention), ts[|ts| - 1])
  }

  function PublishedOver(ts: seq<Tick>, retention: nat): seq<BarUpdate> {
    PublishedOn(EMPTY, ts, retention)
  }

  /** The bars published as final, in order. */
  function Finals(us: seq<BarUpdate>): seq<Candle<int>> {
    if us == [] then [] else
      Finals(us[..|us| - 1]) + (if us[|us| - 1].final then [us[|us| - 1].candle] else [])
  }

  lemma {:induction false} FinalsAppend(a: seq<BarUpdate>, b: seq<BarUpdate>)
    ensures Finals(a + b) == Finals(a) + Finals(b)
  {
    if b == [] {
      assert a + b == a;
    } else {
      FinalsAppend(a, b[..|b| - 1]);
      assert (a + b)[..|a + b| - 1] == a + b[..|b| - 1];
    }
  }

  /** Every candle of the stream is published as final exactly once, in order, however
      few of them the store keeps. */
  lemma {:induction false} FinalsAreTheSeries(ts: seq<Tick>, retention: nat)
    ensures Finals(PublishedOver(ts, retention)) == SeriesOf(ts).finalized
  {
    hide SeriesOf, Store, Updates, Extend;
    if ts == [] {
      NoTicks(retention);
    } else {
      var before, t := ts[..|ts| - 1], ts[|ts| - 1];
      FinalsAreTheSeries(before, retention);
      StoreHolds(before, retention);
      SeriesStep(ts);
      UpdatesClose(StoreRun(before, retention), SeriesOf(before), t);
      FinalsAppend(PublishedOver(before, retention), Updates(StoreRun(before, retention), t));
    }
  }

  lemma OneFinal(u: BarUpdate)
    ensures Finals([u]) == if u.final then [u.candle] else []
  {
    assert [u][..0] == [];
  }

  lemma UpdatesClose(s: StoreState, full: Series, t: Tick)
    requires s.current == full.current
    ensures Extend(full, t.at).finalized == full.finalized + Finals(Updates(s, t))
  {
    var us := Updates(s, t);
    if us != [] {
      var open := us[|us| - 1];
      OneFinal(open);
      if |us| == 2 {
        OneFinal(us[0]);
        FinalsAppend([us[0]], [open]);
        assert us == [us[0]] + [open];
      } else {
        assert us == [open];
      }
    }
  }

  // ---- A store that starts again ------------------------------------------

  /** A store seeded with the open bar of a prefix holds what a store that had seen the
      prefix would: the open candle, the newest of the candles closed since, and the
      sequence of the last tick that was not late. */
  lemma {:induction false} SeededStoreHolds(ts: seq<Tick>, k: nat, bar: BarUpdate, retention: nat)
    requires 0 < k <= |ts| && SeriesOf(ts[..k]).current == Some(bar.candle)
    ensures var s, full := StoreOn(Seeded(EMPTY, bar), ts[k..], retention), SeriesOf(ts);
      && s.current == full.current
      && SeriesOf(ts[..k]).finalized <= full.finalized
      && CandlesOf(s.finalized) == Newest(full.finalized[|SeriesOf(ts[..k]).finalized|..], retention)
      && s.lastSequence == (if LastKept(ts) < k then bar.through else Some(ts[LastKept(ts)].sequence))
    decreases |ts|
  {
    hide SeriesOf, Newest, LastKept, Store, Extend;
    var n := |ts| - 1;
    if k == |ts| {
      assert ts[..k] == ts && SeriesOf(ts).finalized[|SeriesOf(ts).finalized|..] == NOTHING.finalized;
      NoTicks(retention);
    } else {
      assert ts[..n][..k] == ts[..k] && ts[..n][k..] == ts[k..][..n - k];
      SeededStoreHolds(ts[..n], k, bar, retention);
      SeriesStep(ts);
      LastKeptStep(ts);
      StoreMirrorsRest(StoreOn(Seeded(EMPTY, bar), ts[k..n], retention), SeriesOf(ts[..n]),
                       SeriesOf(ts[..k]).finalized, ts[n], retention);
    }
  }

  lemma StoreMirrorsRest(s: StoreState, full: Series, start: seq<Candle<int>>, t: Tick, retention: nat)
    requires s.current == full.current && s.current.Some? && start <= full.finalized
    requires CandlesOf(s.finalized) == Newest(full.finalized[|start|..], retention)
    ensures var s', full' := Store(s, t, retention), Extend(full, t.at);
      && s'.current == full'.current && start <= full'.finalized
      && s'.lastSequence == (if t.at.bucket < s.current.value.startTime then s.lastSequence else Some(t.sequence))
      && CandlesOf(s'.finalized) == Newest(full'.finalized[|start|..], retention)
  {
  }

  /** And it publishes as final exactly the candles closed since, once and in order. */
  lemma {:induction false} SeededFinals(ts: seq<Tick>, k: nat, bar: BarUpdate, retention: nat)
    requires 0 < k <= |ts| && SeriesOf(ts[..k]).current == Some(bar.candle)
    ensures SeriesOf(ts).finalized ==
            SeriesOf(ts[..k]).finalized + Finals(PublishedOn(Seeded(EMPTY, bar), ts[k..], retention))
    decreases |ts|
  {
    hide SeriesOf, Store, Updates, Extend, Newest;
    var n := |ts| - 1;
    if k == |ts| {
      assert ts[..k] == ts;
    } else {
      assert ts[..n][..k] == ts[..k] && ts[..n][k..] == ts[k..][..n - k];
      var s := StoreOn(Seeded(EMPTY, bar), ts[k..n], retention);
      SeededFinals(ts[..n], k, bar, retention);
      SeededStoreHolds(ts[..n], k, bar, retention);
      SeriesStep(ts);
      UpdatesClose(s, SeriesOf(ts[..n]), ts[n]);
      var before := PublishedOn(Seeded(EMPTY, bar), ts[k..n], retention);
      assert PublishedOn(Seeded(EMPTY, bar), ts[k..], retention) == before + Updates(s, ts[n]);
      hide Finals, PublishedOn, StoreOn;
      FinalsAppend(before, Updates(s, ts[n]));
    }
  }
}
