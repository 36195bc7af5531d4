/**
 Sessions in which the browser's chart goes wrong: a tick missed, a tick that was never
 observed, and a conflict whose recovery fails too.
 */
module ChartFailures {
  import opened Options
  import opened Timeframes
  import opened MarketCandles
  import opened MarketHistory
  import opened HistoryStore
  import opened Cutover
  import opened Windows
  import opened ChartHistory
  import opened ChartRuns
  import opened ChartFaults

  /** A tick that was broadcast but never observed is drawn like any other.  The candle it
      falls into is closed as the stream's exactly when it moved nothing. */
  lemma UnobservedShows(s: Session, f: Feed, t: Tick)
    requires InStep(s, f) && Draws(s.chart) && s.through == s.passed < |f.ts|
    requires Closes(s.chart.series.current, f.ts[s.passed]) && t.at.bucket == s.chart.series.current.value.startTime
    ensures var c, d := s.chart.series.current.value, Grown(s.chart.series.current.value, [t.at.price]);
      && Step(Step(s, f, Other(t)), f, Sent(true)).chart.series.finalized == s.chart.series.finalized + [d]
      && (forall n :: s.passed < n <= |f.ts| ==> (d in SeriesOf(f.ts[..n]).finalized <==> Unmoved(c, [t.at.price])))
  {
    hide SeriesOf;
    var c, prices := s.chart.series.current.value, [t.at.price];
    assert t.at == Observation(c.startTime, prices[0]) && prices[1..] == [];
    GrownShape(c, prices);
    SkipSpoils(s, f);
    var missed := Observations(f.ts[s.through..s.passed + 1]);
    assert missed[0].bucket > c.startTime;
    forall n: nat | s.passed < n <= |f.ts|
      ensures Grown(c, prices) in SeriesOf(f.ts[..n]).finalized <==> Unmoved(c, prices)
    {
      assert c in SeriesOf(f.ts[..n]).finalized;
      FinalizedAscends(f.ts[..n]);
      OneForStart(SeriesOf(f.ts[..n]).finalized, Grown(c, prices), c);
    }
  }

  /** The first window landed empty, and `series` has been drawn since. */
  function Landed(series: Series, passed: nat, through: nat): Session {
    Session(ChartState(series, Some("source"), true, 0, 1, None, Older(false, None, None, 0), Empty),
            passed, 0, through, 0)
  }

  const FIVE_TICKS :=
    [Tick(1, Observation(0, 5)), Tick(2, Observation(0, 9)), Tick(3, Observation(60, 5)),
     Tick(4, Observation(60, 1)), Tick(5, Observation(120, 5))]

  function FiveTicks(retention: nat, limit: nat): Feed {
    Feed(FIVE_TICKS, M1, retention, limit, limit, BUFFER_MAX, "source")
  }

  /** The second tick is missed: on a socket that stays open, or over a reconnect whose
      history request is refused. */
  function MissingRun(refused: bool): seq<Event> {
    [Opened, WindowCame(0), Sent(true), Sent(false)]
    + (if refused then [Opened, NoWindowCame(Refused)] else [])
  }

  lemma OneMore(f: Feed, es: seq<Event>, e: Event)
    requires PossibleFrom(START, f, es) && Possible(RunFrom(START, f, es), f, e)
    ensures PossibleFrom(START, f, es + [e])
    ensures RunFrom(START, f, es + [e]) == Step(RunFrom(START, f, es), f, e)
  {
    hide Step, Possible;
    assert (es + [e])[..|es + [e]| - 1] == es;
  }

  const FIRST := Candle(0, 5, 5, 5, 5)
  const WHOLE := Candle(0, 5, 9, 5, 9)

  lemma EmptyLands(f: Feed)
    requires f.epoch == "source"
    ensures var s := Step(START, f, Opened);
      && Possible(s, f, WindowCame(0)) && Clean(s, f, WindowCame(0))
      && Step(s, f, WindowCame(0)) ==
         Landed(NOTHING, 0, 0)
  {
    hide Read, StoreRun, BucketEnd;
    var s := Step(START, f, Opened);
    EmptyWindow(f.tf, f.retention, f.limit);
    assert f.ts[..0] == [];
    var w := WindowAt(f, 0);
    assert [] + w.candles == [];
    MergeIsUnion<int>([], w.candles);
    AscendingUnique(Merge<int>([], []).value, []);
    NoTicks(f.retention);
  }

  lemma FirstTwo(f: Feed)
    requires f.epoch == "source"
    ensures PossibleFrom(START, f, [Opened, WindowCame(0)])
    ensures var s := RunFrom(START, f, [Opened, WindowCame(0)]);
      s == Landed(NOTHING, 0, 0) && InStep(s, f)
  {
    hide Land, InStep, WindowAt;
    StartInStep(f);
    OneMore(f, [], Opened);
    StepKeeps(START, f, Opened);
    assert [] + [Opened] == [Opened];
    EmptyLands(f);
    OneMore(f, [Opened], WindowCame(0));
    StepKeeps(Step(START, f, Opened), f, WindowCame(0));
    assert [Opened] + [WindowCame(0)] == [Opened, WindowCame(0)];
  }

  /** One tick drawn, the next one missed. */
  lemma FirstFour(retention: nat, limit: nat)
    ensures var f, es := FiveTicks(retention, limit), [Opened, WindowCame(0), Sent(true), Sent(false)];
      && PossibleFrom(START, f, es)
      && var s := RunFrom(START, f, es);
         && s == Landed(Series([], Some(FIRST)), 2, 1)
         && InStep(s, f)
  {
    hide Land, Next, InStep, WindowAt, PossibleFrom, RunFrom;
    var f, es := FiveTicks(retention, limit), [Opened, WindowCame(0)];
    FirstTwo(f);
    var landed := RunFrom(START, f, es);
    FirstIsNext(f.ts);
    OneMore(f, es, Sent(true));
    StepKeeps(landed, f, Sent(true));
    OneMore(f, es + [Sent(true)], Sent(false));
    StepKeeps(Step(landed, f, Sent(true)), f, Sent(false));
    assert es + [Sent(true)] + [Sent(false)] == [Opened, WindowCame(0), Sent(true), Sent(false)];
  }

  lemma FirstIsNext(ts: seq<Tick>)
    requires ts != []
    ensures Next(ts[..1], 0, ts[0]) == Some(1)
  {
  }

  lemma AfterThree(ts: seq<Tick>)
    requires ts == FIVE_TICKS
    ensures SeriesOf(ts[..3]) == Series([WHOLE], Some(Candle(60, 5, 5, 5, 5)))
  {
    hide SeriesOf;
    assert ts[..3][..2] == ts[..2] && ts[..2][..1] == ts[..1] && ts[..1][..0] == [];
    NoTicks(0);
    SeriesStep(ts[..1]);
    assert SeriesOf(ts[..1]) == Series([], Some(FIRST));
    SeriesStep(ts[..2]);
    assert SeriesOf(ts[..2]) == Series([], Some(WHOLE));
    SeriesStep(ts[..3]);
  }

  /** After three ticks the stream has closed its first candle, at its true range. */
  lemma FirstCloses(f: Feed)
    requires f.ts == FIVE_TICKS && 0 < f.retention && 0 < f.limit
    ensures SeriesOf(f.ts[..3]) == Series([WHOLE], Some(Candle(60, 5, 5, 5, 5)))
    ensures WindowAt(f, 3).candles == [WHOLE]
  {
    hide SeriesOf, Read, StoreRun;
    AfterThree(f.ts);
    WindowIsNewest(f.ts[..3], f.tf, f.retention, f.limit);
  }

  lemma RefusedAgain(f: Feed, es: seq<Event>)
    requires PossibleFrom(START, f, es) && InStep(RunFrom(START, f, es), f)
    ensures var t, more := RunFrom(START, f, es), es + [Opened, NoWindowCame(Refused)];
      && PossibleFrom(START, f, more)
      && InStep(RunFrom(START, f, more), f)
      && RunFrom(START, f, more) == t.(began := t.passed, chart := Fail(Started(t.chart), Refused))
  {
    hide InStep, PossibleFrom, RunFrom, Land, LandPage, Hear;
    var t := RunFrom(START, f, es);
    OneMore(f, es, Opened);
    StepKeeps(t, f, Opened);
    OneMore(f, es + [Opened], NoWindowCame(Refused));
    StepKeeps(Step(t, f, Opened), f, NoWindowCame(Refused));
    assert es + [Opened] + [NoWindowCame(Refused)] == es + [Opened, NoWindowCame(Refused)];
  }

  lemma ConflictClears(s: Session, f: Feed, read: nat)
    requires s.through <= s.passed && Possible(s, f, WindowCame(read)) && Merging(s, f, read).None?
    requires s.chart.conflicts == 0 && (s.chart.epoch.Some? ==> s.chart.epoch.value == f.epoch)
    ensures Land(s, f, read) ==
      Session(Begin(Cleared(s.chart).(conflicts := 1)), s.passed, s.passed, 0, 0)
  {
    hide SeriesOf, Merge, WindowAt;
  }

  lemma MissedMatters(f: Feed)
    requires f.ts == FIVE_TICKS
    ensures !Unmoved(FIRST, OwnPrices(Observations(f.ts[1..3]), 0))
  {
    var os := Observations(f.ts[1..3]);
    assert os[0] == Observation(0, 9) && os[1..][0] == Observation(60, 5);
    assert OwnPrices(os, 0) == [9];
    assert 9 in [9];
  }

  /** Both sessions fail: the third tick closes a candle that the stream does not have,
      the window read after it conflicts, and the chart is dropped. */
  lemma FailingSession(retention: nat, limit: nat, refused: bool)
    requires 0 < retention && 0 < limit
    ensures var f, drawn := FiveTicks(retention, limit), MissingRun(refused) + [Sent(true)];
      var asked, landed := drawn + [Opened], drawn + [Opened] + [WindowCame(3)];
      && PossibleFrom(START, f, drawn) && PossibleFrom(START, f, asked) && PossibleFrom(START, f, landed)
      && RunFrom(START, f, drawn).chart.series.finalized == [FIRST] && FIRST !in SeriesOf(f.ts).finalized
      && Merging(RunFrom(START, f, asked), f, 3).None?
      && var t := RunFrom(START, f, landed);
         && t.chart.series == NOTHING && t.chart.hydration.Some? && t.chart.conflicts == 1
         && t.chart.status == Loading && t.chart.epoch == None && t.chart.attached && t.passed == 3
  {
    hide Land, Next, InStep, WindowAt, SeriesOf, Merging, PossibleFrom, RunFrom;
    var f, es := FiveTicks(retention, limit), MissingRun(refused);
    FirstFour(retention, limit);
    var first := [Opened, WindowCame(0), Sent(true), Sent(false)];
    if refused { RefusedAgain(f, first); } else { assert es == first; }
    var s := RunFrom(START, f, es);
    MissedMatters(f);
    FirstCloses(f);
    SkipSpoils(s, f);
    SkipThenConflict(s, f);
    var drawn, asked := Step(s, f, Sent(true)), Step(Step(s, f, Sent(true)), f, Opened);
    OneMore(f, es, Sent(true));
    OneMore(f, es + [Sent(true)], Opened);
    OneMore(f, es + [Sent(true)] + [Opened], WindowCame(3));
    ConflictClears(asked, f, 3);
    assert f.ts[..5] == f.ts;
  }

  const LATE := Candle(60, 1, 1, 1, 1)

  /** Ticks drawn on a chart that a conflict emptied. */
  lemma DrawnOnEmpty(s: Session, f: Feed)
    requires f.ts == FIVE_TICKS && s.passed == 3 && s.through <= 3
    requires s.chart.hydration.Some? && s.chart.series == NOTHING && s.chart.attached
    ensures var t := Step(Step(Step(s, f, NoWindowCame(Refused)), f, Sent(true)), f, Sent(true)).chart;
      t.series.finalized == [LATE] && t.conflicts == s.chart.conflicts && t.status != Idle
  {
    hide Next;
    assert [] + [LATE] == [LATE];
  }

  lemma LateIsForeign(f: Feed)
    requires f.ts == FIVE_TICKS
    ensures LATE !in SeriesOf(f.ts).finalized
  {
    hide SeriesOf;
    AfterThree(f.ts);
    assert f.ts[..5][..4] == f.ts[..4] && f.ts[..4][..3] == f.ts[..3] && f.ts[..5] == f.ts;
    SeriesStep(f.ts[..4]);
    SeriesStep(f.ts[..5]);
  }

  /** And if the request made after the conflict fails too, ticks are drawn on an empty
      chart, its first candle misses the start of its bucket, and the second conflict of
      `NeverRepaired` lies ahead. */
  lemma StuckSession(retention: nat, limit: nat, refused: bool)
    requires 0 < retention && 0 < limit
    ensures var f := FiveTicks(retention, limit);
      var es := MissingRun(refused) + [Sent(true)] + [Opened] + [WindowCame(3)]
                + [NoWindowCame(Refused)] + [Sent(true)] + [Sent(true)];
      && PossibleFrom(START, f, es)
      && var t := RunFrom(START, f, es).chart;
         && t.conflicts >= MAX_CONFLICT_REHYDRATES && t.status != Idle
         && t.series.finalized == [LATE] && LATE !in SeriesOf(f.ts).finalized
  {
    hide Land, Hear, InStep, WindowAt, SeriesOf, Merging;
    var f := FiveTicks(retention, limit);
    FailingSession(retention, limit, refused);
    var es := MissingRun(refused) + [Sent(true)] + [Opened] + [WindowCame(3)];
    OneMore(f, es, NoWindowCame(Refused));
    OneMore(f, es + [NoWindowCame(Refused)], Sent(true));
    OneMore(f, es + [NoWindowCame(Refused)] + [Sent(true)], Sent(true));
    DrawnOnEmpty(RunFrom(START, f, es), f);
    LateIsForeign(f);
  }
}
