/** What the chart's controller tells its listeners, and which answers it takes. */
module ChartAnswers {
  import opened Options
  import opened MarketCandles
  import opened MarketHistory
  import opened HistoryStore
  import opened Cutover
  import opened ChartHistory
  import opened ChartRuns

  // ---- The status ---------------------------------------------------------

  /** The status tells what is under way and whether there is anything to see. */
  ghost predicate Tells(c: ChartState) {
    && Rests(c)
    && (c.status == Loading <==> c.hydration.Some?)
    && (c.status == Empty ==> c.series.finalized == [])
    && (c.status == Ready ==> c.series.finalized != [])
    && (c.older.page.Some? ==> c.older.page.value.generation <= c.generation)
    && (c.older.page.Some? && c.older.page.value.generation == c.generation ==> c.hydration.None?)
  }

  lemma HeardTells(c: ChartState, t: Tick, bufferMax: nat)
    requires Tells(c)
    ensures Tells(Heard(c, t, bufferMax))
  {
  }

  lemma AnsweredTells(c: ChartState, a: Answer)
    requires Tells(c)
    ensures Tells(Answered(c, a))
    ensures c.older.page.Some? ==> Tells(PageAnswered(c, a))
  {
    hide Merge, Onto;
  }

  lemma StepTells(s: Session, f: Feed, e: Event)
    requires s.through <= s.passed <= |f.ts| && Possible(s, f, e) && Tells(s.chart)
    ensures Tells(Step(s, f, e).chart)
  {
    hide Tells, Answered, PageAnswered, Heard, SeriesOf, WindowAt, PageAt, Next, Track, Merging;
    match e
    case Sent(_) => HeardTells(s.chart, f.ts[s.passed], f.bufferMax);
    case Other(t) => HeardTells(s.chart, t, f.bufferMax);
    case WindowCame(read) => AnsweredTells(s.chart, AnswerAt(s, f, read));
    case PageCame(read) => AnsweredTells(s.chart, PageAnswerAt(s, f, read));
    case NoPageCame(_) =>
      AnsweredTells(s.chart, PageAnswerAt(s, f, 0).(valid := false));
      OthersTell(s.chart, Refused);
    case NoWindowCame(reason) => OthersTell(s.chart, reason);
    case _ => OthersTell(s.chart, Refused);
  }

  lemma OthersTell(c: ChartState, reason: Reason)
    requires Tells(c)
    ensures Tells(Started(c)) && Tells(Stopped(c)) && Tells(AskedOlder(c, true))
    ensures c.hydration.Some? ==> Tells(Fail(c, reason))
    ensures c.older.page.Some? ==> Tells(PageRefused(c))
  {
  }

  /** In every session the chart says it is loading exactly while a hydration is under way,
      says ready only with candles and empty only without, and rests when it was stopped. */
  lemma {:induction false} SessionTells(f: Feed, es: seq<Event>)
    requires PossibleFrom(START, f, es)
    ensures Tells(RunFrom(START, f, es).chart)
  {
    hide Tells, Step;
    if es == [] {
      assert Tells(IDLE) by { IdleTells(); }
    } else {
      SessionTells(f, es[..|es| - 1]);
      StepTells(RunFrom(START, f, es[..|es| - 1]), f, es[|es| - 1]);
    }
  }

  lemma IdleTells()
    ensures Tells(IDLE)
  {
  }

  /** The status without the reason of a failure, as it is when it is announced again. */
  function Plain(status: Status): Status {
    if status.Failed? then Failed(None) else status
  }

  /** A failure names its reason until the status is announced again. */
  lemma FailuresTold(c: ChartState, a: Answer, t: Tick, bufferMax: nat)
    requires c.hydration.Some?
    ensures a.request == c.hydration.value.request && !a.valid ==>
      Answered(c, a) == c.(hydration := None, status := Failed(Some(WindowInvalid)))
    ensures c.status != Idle && |c.hydration.value.buffer| >= bufferMax ==>
      Heard(c, t, bufferMax) == c.(hydration := None, status := Failed(Some(BufferExceeded)))
  {
  }

  /** A tick that is drawn changes the series and, where it closes the first candle of a chart
      that said it was empty, the status, and nothing else. */
  lemma DrawnExactly(c: ChartState, t: Tick, bufferMax: nat)
    requires Draws(c)
    ensures var d, closed := Heard(c, t, bufferMax), |Extend(c.series, t.at).finalized| > |c.series.finalized|;
      d == c.(series := Extend(c.series, t.at), status := if c.status == Empty && closed then Ready else c.status)
  {
  }

  // ---- Which answers count ------------------------------------------------

  ghost predicate AsksForPage(c: ChartState, request: RequestId) {
    exists page :: c.older.page == Some(page) && page.request == request
  }

  ghost predicate AsksForWindow(c: ChartState, request: RequestId) {
    exists h :: c.hydration == Some(h) && h.request == request
  }

  /** An answer to the page under way goes to it, one to the hydration under way to that, and
      any other changes nothing. */
  lemma ResultExactly(c: ChartState, a: Answer)
    ensures Resulted(c, a) ==
      if AsksForPage(c, a.request) then PageAnswered(c, a)
      else if AsksForWindow(c, a.request) then Answered(c, a)
      else c
  {
    hide PageAnswered, Partitioned, Conflicted, Adopted, Merge;
  }

  /** So does an error: it takes the page with it, or fails the hydration. */
  lemma ErrorExactly(c: ChartState, request: RequestId)
    ensures AnsweredWithError(c, request) ==
      if AsksForPage(c, request) then c.(older := c.older.(page := None), status := Plain(c.status))
      else if AsksForWindow(c, request) then c.(hydration := None, status := Failed(Some(Refused)))
      else c
  {
  }

  /** An invalid page ends paging, and leaves what is on screen. */
  lemma InvalidPageEnds(c: ChartState, a: Answer)
    requires c.older.page.Some? && c.older.page.value.generation == c.generation && c.status != Idle
    requires Some(a.epoch) == c.epoch && a.epoch == c.older.page.value.epoch && !a.valid
    ensures PageAnswered(c, a) == c.(older := c.older.(page := None, hasMore := false), status := Plain(c.status))
  {
  }

  lemma MergeWithNothing(cs: seq<Candle<int>>)
    requires MarketCandles.Ascending(cs)
    ensures Merge([], cs) == Some(cs)
  {
    MergeIsUnion([], cs);
    AscendingUnique(Merge([], cs).value, cs);
  }

  /** History of another source is never spliced onto what is on screen: the window is adopted
      as on an empty chart, and cannot conflict. */
  lemma OtherSourceDiscards(c: ChartState, a: Answer)
    requires c.hydration.Some? && c.hydration.value.request == a.request && a.valid
    requires MarketCandles.Ascending(a.window.candles) && c.epoch.Some? && c.epoch.value != a.epoch
    ensures var t, empty := Answered(c, a), c.(series := NOTHING);
      && t == Answered(empty, a) && t.hydration.None? && t.epoch == Some(a.epoch)
      && t.series == Onto(a.window.candles, a.window, if a.attached then c.hydration.value.buffer else [])
  {
    hide Merge, Onto;
    MergeWithNothing(a.window.candles);
  }

  /** A page of another source, or of an earlier generation, brings nothing. */
  lemma OtherPageDropped(c: ChartState, a: Answer)
    requires c.older.page.Some?
    requires Some(a.epoch) != c.epoch || a.epoch != c.older.page.value.epoch
             || c.older.page.value.generation != c.generation || c.status == Idle
    ensures PageAnswered(c, a) == c.(older := c.older.(page := None))
  {
  }

  /** Where live ticks do not continue the history, none is drawn: neither the buffered ones
      nor those heard later. */
  lemma DetachedDrawsNothing(c: ChartState, a: Answer, t: Tick, bufferMax: nat)
    requires c.hydration.Some? && c.hydration.value.request == a.request && a.valid && !a.attached
    requires c.status != Idle && c.series == NOTHING && MarketCandles.Ascending(a.window.candles)
    ensures var d := Answered(c, a);
      && d.series == Series(a.window.candles, a.window.currentCandle) && !d.attached
      && Heard(d, t, bufferMax).series == d.series
  {
    hide Merge;
    MergeWithNothing(a.window.candles);
    assert Replayed([], Watermark(a.window)) == [];
  }

  // ---- Which pages are asked for ------------------------------------------

  /** A page is asked for exactly when the viewport is near the edge, the chart is up with
      nothing under way, and there is more; and from the cursor, under a new request. */
  lemma AsksExactly(c: ChartState, near: bool)
    ensures var d := AskedOlder(c, near);
      var asks := near && c.status != Idle && c.hydration.None? && c.older.page.None?
                  && c.older.hasMore && c.older.cursor.Some? && c.epoch.Some?;
      if asks then
        var n := c.older.asked + 1;
        var page := PageRequest(ForPage(n), c.generation, c.epoch.value, c.older.cursor.value);
        d == c.(older := c.older.(page := Some(page), asked := n), status := Plain(c.status))
      else d == c
  {
  }

  /** Stopping forgets everything, and a start after it begins as the first did. */
  lemma StopForgets(c: ChartState)
    ensures var t := Started(Stopped(c));
      && t.series == NOTHING && t.epoch == None && t.attached && t.conflicts == 0
      && t.hydration == Some(Hydration(ForWindow(c.generation + 1), []))
      && !t.older.hasMore && t.older.cursor == None && t.older.page == None && t.status == Loading
  {
  }
}
