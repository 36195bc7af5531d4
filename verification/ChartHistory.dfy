/**
 The browser's chart controller for one symbol and timeframe: it asks the server for a
 window of history, buffers the ticks it hears until the window lands, draws the ticks it
 hears otherwise, and asks for older pages as the trader pans back.
 */
module ChartHistory {
  import opened Options
  import opened Timeframes
  import opened MarketCandles
  import opened MarketHistory
  import opened TickGate
  import opened HistoryStore
  import opened Cutover

  const BUFFER_MAX := 500
  const MAX_CONFLICT_REHYDRATES := 1

  datatype Reason = BufferExceeded | Refused | WindowInvalid | CandleConflict

  datatype Status = Idle | Loading | Ready | Empty | Failed(reason: Option<Reason>)

  /** Fresh identifiers: no two requests share one. */
  datatype RequestId = ForWindow(generation: nat) | ForPage(count: nat)

  /** A request under way, and the ticks heard since it was made. */
  datatype Hydration = Hydration(request: RequestId, buffer: seq<Tick>)

  datatype PageRequest = PageRequest(request: RequestId, generation: nat, epoch: string, before: int)

  /** Whether there is more to page back to, from where, and the page under way. */
  datatype Older = Older(hasMore: bool, cursor: Option<int>, page: Option<PageRequest>, asked: nat)

  datatype ChartState = ChartState(
    series: Series,
    epoch: Option<string>,
    attached: bool,
    conflicts: nat,
    generation: nat,
    hydration: Option<Hydration>,
    older: Older,
    status: Status)

  const IDLE := ChartState(NOTHING, None, true, 0, 0, None, Older(false, None, None, 0), Idle)

  /** A history answer; `valid` is the verdict of the window validator, `attached` tells
      whether live ticks continue this history. */
  datatype Answer = Answer(request: RequestId, epoch: string, attached: bool, valid: bool, window: HistoryWindow)

  function Begin(c: ChartState): ChartState {
    c.(generation := c.generation + 1, hydration := Some(Hydration(ForWindow(c.generation + 1), [])),
       status := Loading)
  }

  function Cleared(c: ChartState): ChartState {
    c.(series := NOTHING, epoch := None, attached := true,
       older := c.older.(hasMore := false, cursor := None, page := None))
  }

  function Fail(c: ChartState, reason: Reason): ChartState {
    c.(hydration := None, status := Failed(Some(reason)))
  }

  /** A start after a stop finds nothing to keep; any other only asks again. */
  function Started(c: ChartState): ChartState {
    Begin(if c.status == Idle then Cleared(c).(conflicts := 0) else c)
  }

  function Stopped(c: ChartState): ChartState {
    Cleared(c).(hydration := None, status := Idle)
  }

  predicate Closes(current: Option<Candle<int>>, t: Tick) {
    current.Some? && current.value.startTime < t.at.bucket
  }

  function Draw(c: ChartState, t: Tick): ChartState {
    if !c.attached then c
    else
      c.(series := Extend(c.series, t.at),
         status := if c.status == Empty && Closes(c.series.current, t) then Ready else c.status)
  }

  function Heard(c: ChartState, t: Tick, bufferMax: nat): ChartState {
    if c.status == Idle then c
    else if c.hydration.None? then Draw(c, t)
    else
      var h := c.hydration.value;
      if |h.buffer| >= bufferMax then Fail(c, BufferExceeded)
      else c.(hydration := Some(h.(buffer := h.buffer + [t])))
  }

  /** Another source's history does not continue what is on screen. */
  function Partitioned(c: ChartState, epoch: string): ChartState {
    if c.epoch.Some? && c.epoch.value != epoch then Cleared(c) else c
  }

  function OrCursor(a: Option<int>, b: Option<int>): Option<int> {
    if a.Some? then a else b
  }

  function Adopted(c: ChartState, merged: seq<Candle<int>>, a: Answer, buffer: seq<Tick>): ChartState {
    var series := Onto(merged, a.window, if a.attached then buffer else []);
    var cursor := OrCursor(OldestStart(merged), a.window.nextCursor);
    c.(series := series, epoch := Some(a.epoch), attached := a.attached, conflicts := 0, hydration := None,
       older := c.older.(hasMore := a.window.hasMore, cursor := cursor),
       status := if series.finalized == [] then Empty else Ready)
  }

  /** What a candle on screen that contradicts an answer leads to. */
  function Conflicted(c: ChartState): ChartState {
    if c.conflicts >= MAX_CONFLICT_REHYDRATES then Fail(c, CandleConflict)
    else Begin(Cleared(c).(conflicts := c.conflicts + 1))
  }

  ghost function Answered(c: ChartState, a: Answer): ChartState {
    if c.hydration.None? || c.hydration.value.request != a.request then c
    else if !a.valid then Fail(c, WindowInvalid)
    else
      var base := Partitioned(c, a.epoch);
      var merged := Merge(base.series.finalized, a.window.candles);
      if merged.Some? then Adopted(base, merged.value, a, c.hydration.value.buffer)
      else Conflicted(base)
  }

  /** Announcing a status again drops the reason of a failure. */
  function Again(status: Status): Status {
    if status.Failed? then Failed(None) else status
  }

  /** A page is asked for when there is one and nothing else is under way. */
  function AskedOlder(c: ChartState, near: bool): ChartState {
    if c.status == Idle || c.hydration.Some? || c.older.page.Some? || !near
       || !c.older.hasMore || c.older.cursor.None? || c.epoch.None? then c
    else
      var page := PageRequest(ForPage(c.older.asked + 1), c.generation, c.epoch.value, c.older.cursor.value);
      c.(older := c.older.(page := Some(page), asked := c.older.asked + 1), status := Again(c.status))
  }

  predicate IsPage(c: ChartState, request: RequestId) {
    c.older.page.Some? && c.older.page.value.request == request
  }

  /** A page of an earlier generation, or of another source, is dropped. */
  ghost function PageAnswered(c: ChartState, a: Answer): ChartState
    requires c.older.page.Some?
  {
    var page, d := c.older.page.value, c.(older := c.older.(page := None));
    if page.generation != c.generation || c.status == Idle
       || Some(a.epoch) != c.epoch || a.epoch != page.epoch then d
    else if !a.valid then d.(older := d.older.(hasMore := false), status := Again(d.status))
    else
      var merged := Merge(d.series.finalized, a.window.candles);
      if merged.None? then Conflicted(d)
      else
        var cursor := OrCursor(a.window.nextCursor, d.older.cursor);
        d.(series := d.series.(finalized := merged.value),
           older := d.older.(hasMore := a.window.hasMore, cursor := cursor),
           status := if merged.value == [] then Empty else Ready)
  }

  function PageRefused(c: ChartState): ChartState {
    c.(older := c.older.(page := None), status := Again(c.status))
  }

  /** A result goes to the page it answers, or else to the hydration. */
  ghost function Resulted(c: ChartState, a: Answer): ChartState {
    if IsPage(c, a.request) then PageAnswered(c, a) else Answered(c, a)
  }

  function AnsweredWithError(c: ChartState, request: RequestId): ChartState {
    if IsPage(c, request) then PageRefused(c)
    else if c.hydration.None? || c.hydration.value.request != request then c else Fail(c, Refused)
  }

  class ChartController {
    const symbol: string
    const bufferMax: nat
    const chart: ChartSeries
    var epoch: Option<string>
    var attached: bool
    var conflicts: nat
    var generation: nat
    var pending: Option<RequestId>
    var buffer: seq<MarketTick>
    var older: Older
    var status: Status

    ghost function State(): ChartState
      reads this, chart, chart.aggregator
    {
      ChartState(chart.Contents(), epoch, attached, conflicts, generation,
                 if pending.None? then None
                 else Some(Hydration(pending.value, AsTicks(buffer, chart.aggregator.timeframe))),
                 older, status)
    }

    constructor (symbol: string, timeframe: Timeframe, bufferMax: nat)
      ensures fresh(chart) && fresh(chart.aggregator) && chart.aggregator.timeframe == timeframe
      ensures this.symbol == symbol && this.bufferMax == bufferMax
      ensures State() == IDLE
    {
      this.symbol, this.bufferMax := symbol, bufferMax;
      chart := new ChartSeries(timeframe);
      epoch, attached, conflicts, generation := None, true, 0, 0;
      pending, buffer, older, status := None, [], Older(false, None, None, 0), Idle;
    }

    method BeginHydration()
      modifies this
      ensures State() == Begin(old(State()))
    {
      generation := generation + 1;
      pending := Some(ForWindow(generation));
      buffer := [];
      status := Loading;
    }

    method FailHydration(reason: Reason)
      modifies this
      ensures State() == Fail(old(State()), reason)
    {
      pending := None;
      status := Failed(Some(reason));
    }

    method ResetSeries()
      modifies this, chart, chart.aggregator
      ensures State() == Cleared(old(State()))
    {
      chart.Reset();
      epoch := None;
      attached := true;
      older := older.(hasMore := false, cursor := None, page := None);
    }

    method Start()
      modifies this, chart, chart.aggregator
      ensures State() == Started(old(State()))
    {
      if status == Idle {
        ResetSeries();
        conflicts := 0;
      }
      BeginHydration();
    }

    method Stop()
      modifies this, chart, chart.aggregator
      ensures State() == Stopped(old(State()))
    {
      ResetSeries();
      pending := None;
      status := Idle;
    }

    method OnSocketOpen()
      modifies this
      ensures State() == if old(State()).status == Idle then old(State()) else Begin(old(State()))
    {
      if status != Idle {
        BeginHydration();
      }
    }

    method OnTick(tick: MarketTick)
      modifies this, chart, chart.aggregator
      ensures State() == if tick.symbol != symbol then old(State())
        else Heard(old(State()), AsTick(tick, chart.aggregator.timeframe), bufferMax)
    {
      hide BucketStart;
      if status == Idle || tick.symbol != symbol { return; }
      if pending.Some? {
        if |buffer| >= bufferMax {
          FailHydration(BufferExceeded);
          return;
        }
        ghost var tf := chart.aggregator.timeframe;
        assert AsTicks(buffer + [tick], tf) == AsTicks(buffer, tf) + [AsTick(tick, tf)];
        buffer := buffer + [tick];
        return;
      }
      ApplyTick(tick);
    }

    method ApplyTick(tick: MarketTick)
      modifies this, chart, chart.aggregator
      ensures State() == Draw(old(State()), AsTick(tick, chart.aggregator.timeframe))
    {
      hide BucketStart;
      if !attached { return; }
      var before := |chart.finalized|;
      chart.ApplyTick(tick);
      if |chart.finalized| > before && status == Empty {
        status := Ready;
      }
    }

    method OnResult(a: Answer)
      modifies this, chart, chart.aggregator
      ensures State() == Resulted(old(State()), a)
    {
      hide BucketStart, Merge, Onto, AsTicks;
      if older.page.Some? && older.page.value.request == a.request {
        OnOlderPage(a);
      } else {
        OnWindow(a);
      }
    }

    /** A candle on screen contradicts an answer: the first time, drop the chart and ask
        again; the second time, give up. */
    method OnConflict()
      modifies this, chart, chart.aggregator
      ensures State() == Conflicted(old(State()))
    {
      hide BucketStart, AsTicks;
      if conflicts >= MAX_CONFLICT_REHYDRATES {
        FailHydration(CandleConflict);
        return;
      }
      conflicts := conflicts + 1;
      ResetSeries();
      BeginHydration();
    }

    method OnWindow(a: Answer)
      modifies this, chart, chart.aggregator
      ensures State() == Answered(old(State()), a)
    {
      hide BucketStart, Merge, Onto, AsTicks;
      if pending != Some(a.request) { return; }
      if !a.valid {
        FailHydration(WindowInvalid);
        return;
      }
      if epoch.Some? && epoch.value != a.epoch {
        ResetSeries();
      }
      var heard := if a.attached then buffer else [];
      NoTicksAsTicks(chart.aggregator.timeframe);
      var oldest := chart.Hydrate(a.window, heard);
      if oldest.Conflicts? {
        OnConflict();
        return;
      }
      var cursor := OrCursor(oldest.start, a.window.nextCursor);
      older := older.(hasMore := a.window.hasMore, cursor := cursor);
      epoch, attached, conflicts, pending := Some(a.epoch), a.attached, 0, None;
      status := if chart.finalized == [] then Empty else Ready;
    }

    method MaybeRequestOlder(near: bool)
      modifies this
      ensures State() == AskedOlder(old(State()), near)
    {
      if status == Idle || pending.Some? || older.page.Some? || !near
         || !older.hasMore || older.cursor.None? || epoch.None? {
        return;
      }
      var page := PageRequest(ForPage(older.asked + 1), generation, epoch.value, older.cursor.value);
      older := older.(page := Some(page), asked := older.asked + 1);
      status := Again(status);
    }

    method OnOlderPage(a: Answer)
      requires older.page.Some?
      modifies this, chart, chart.aggregator
      ensures State() == PageAnswered(old(State()), a)
    {
      hide BucketStart, Merge, AsTicks;
      var page := older.page.value;
      older := older.(page := None);
      if page.generation != generation || status == Idle || Some(a.epoch) != epoch || a.epoch != page.epoch {
        return;
      }
      if !a.valid {
        older := older.(hasMore := false);
        status := Again(status);
        return;
      }
      var conflict := chart.Prepend(a.window.candles);
      if conflict {
        OnConflict();
        return;
      }
      var cursor := OrCursor(a.window.nextCursor, older.cursor);
      older := older.(hasMore := a.window.hasMore, cursor := cursor);
      status := if chart.finalized == [] then Empty else Ready;
    }

    method OnError(request: RequestId)
      modifies this
      ensures State() == AnsweredWithError(old(State()), request)
    {
      if older.page.Some? && older.page.value.request == request {
        older := older.(page := None);
        status := Again(status);
        return;
      }
      if pending == Some(request) {
        FailHydration(Refused);
      }
    }
  }

  lemma NoTicksAsTicks(tf: Timeframe)
    ensures AsTicks([], tf) == []
  {
  }
}
