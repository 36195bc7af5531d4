/**
 Whole sessions of the browser's chart against the stream the server observes: ticks are
 heard, lost, heard again or never observed; connections open; history answers land, fail
 or conflict.
 */
module ChartRuns {
  import opened Options
  import opened Timeframes
  import opened MarketCandles
  import opened MarketHistory
  import opened HistoryStore
  import opened Cutover
  import opened Windows
  import opened ChartHistory

  /** The stream the server observes and what the two sides are configured with. */
  datatype Feed = Feed(ts: seq<Tick>, tf: Timeframe, retention: nat, limit: nat, pageLimit: nat, bufferMax: nat,
                       epoch: string)

  /** `passed` ticks of the stream have gone out, `began` of them before the request under
      way.  The open candle accounts for the first `through` ticks, and from candle `base`
      of the stream on none of those is missing. */
  datatype Session = Session(chart: ChartState, passed: nat, began: nat, through: nat, base: nat)

  const START := Session(IDLE, 0, 0, 0, 0)

  /** `Opened` is a start or a new socket, `Sent` the next tick of the stream, which the
      browser hears or not, `Other` any other tick it hears: one sent again, or one that was
      broadcast without being observed.  A window or an older page is read after `read`
      ticks. */
  datatype Event =
    | Opened
    | Sent(heard: bool)
    | Other(t: Tick)
    | WindowCame(read: nat)
    | NoWindowCame(reason: Reason)
    | OlderAsked
    | PageCame(read: nat)
    | NoPageCame(invalid: bool)
    | StopCalled

  /** The server had produced all that went out before the request when it read, and all
      that it had produced went out before its answer. */
  predicate Possible(s: Session, f: Feed, e: Event) {
    match e
    case Opened => true
    case Sent(_) => s.passed < |f.ts|
    case Other(_) => true
    case WindowCame(read) => s.chart.hydration.Some? && s.began <= read <= s.passed <= |f.ts|
    case NoWindowCame(_) => s.chart.hydration.Some?
    case OlderAsked => true
    case PageCame(read) => s.chart.older.page.Some? && read <= s.passed <= |f.ts|
    case NoPageCame(_) => s.chart.older.page.Some?
    case StopCalled => true
  }

  function WindowAt(f: Feed, read: nat): HistoryWindow
    requires read <= |f.ts|
  {
    Read(StoreRun(f.ts[..read], f.retention), f.tf, f.limit, None)
  }

  function AnswerAt(s: Session, f: Feed, read: nat): Answer
    requires s.chart.hydration.Some? && read <= |f.ts|
  {
    Answer(s.chart.hydration.value.request, f.epoch, true, true, WindowAt(f, read))
  }

  function PageAt(f: Feed, read: nat, before: int): HistoryWindow
    requires read <= |f.ts|
  {
    Read(StoreRun(f.ts[..read], f.retention), f.tf, f.pageLimit, Some(before))
  }

  function PageAnswerAt(s: Session, f: Feed, read: nat): Answer
    requires s.chart.older.page.Some? && read <= |f.ts|
  {
    var page := s.chart.older.page.value;
    Answer(page.request, f.epoch, true, true, PageAt(f, read, page.before))
  }

  /** The ticks an answer replays. */
  function ReplayedAt(s: Session, f: Feed, read: nat): seq<Tick>
    requires s.chart.hydration.Some? && read <= |f.ts|
  {
    Replayed(s.chart.hydration.value.buffer, Watermark(WindowAt(f, read)))
  }

  // ---- What the chart accounts for --------------------------------------

  /** How far a series that accounts for the first `p` ticks gets by drawing `t`: one
      further if it is the next tick, nowhere if it is the last one again or a late one. */
  function Next(ts: seq<Tick>, p: nat, t: Tick): Option<nat>
    requires p <= |ts|
    ensures Next(ts, p, t).Some? ==> Next(ts, p, t).value <= |ts|
  {
    var current := SeriesOf(ts[..p]).current;
    if p < |ts| && ts[p] == t then Some(p + 1)
    else if 0 < p && ts[p - 1] == t then Some(p)
    else if current.Some? && t.at.bucket < current.value.startTime then Some(p)
    else None
  }

  function Track(ts: seq<Tick>, p: nat, drawn: seq<Tick>): Option<nat>
    requires p <= |ts|
    ensures Track(ts, p, drawn).Some? ==> Track(ts, p, drawn).value <= |ts|
  {
    if drawn == [] then Some(p) else
      var q := Track(ts, p, drawn[..|drawn| - 1]);
      if q.None? then None else Next(ts, q.value, drawn[|drawn| - 1])
  }

  function Reached(q: Option<nat>, otherwise: nat): nat {
    if q.Some? then q.value else otherwise
  }

  predicate Draws(c: ChartState) {
    c.status != Idle && c.hydration.None? && c.attached
  }

  function Hear(s: Session, f: Feed, t: Tick): Session
    requires s.through <= s.passed <= |f.ts|
  {
    s.(chart := Heard(s.chart, t, f.bufferMax),
       through := if Draws(s.chart) then Reached(Next(f.ts[..s.passed], s.through, t), s.passed) else s.through)
  }

  ghost function Merging(s: Session, f: Feed, read: nat): Option<seq<Candle<int>>>
    requires read <= |f.ts|
  {
    Merge(Partitioned(s.chart, f.epoch).series.finalized, WindowAt(f, read).candles)
  }

  ghost function LandedChart(s: Session, f: Feed, read: nat): ChartState
    requires Possible(s, f, WindowCame(read))
  {
    Answered(s.chart, AnswerAt(s, f, read))
  }

  ghost function Land(s: Session, f: Feed, read: nat): Session
    requires Possible(s, f, WindowCame(read))
  {
    var chart := LandedChart(s, f, read);
    if Merging(s, f, read).Some? then
      var closed, page := |SeriesOf(f.ts[..read]).finalized|, |WindowAt(f, read).candles|;
      s.(chart := chart,
         through := Reached(Track(f.ts[..s.passed], read, ReplayedAt(s, f, read)), s.passed),
         base := if page <= closed then closed - page else 0)
    else if chart.hydration.Some? then Session(chart, s.passed, s.passed, 0, 0)
    else s.(chart := chart)
  }

  ghost function LandPage(s: Session, f: Feed, read: nat): Session
    requires Possible(s, f, PageCame(read))
  {
    var chart := PageAnswered(s.chart, PageAnswerAt(s, f, read));
    if chart.generation == s.chart.generation then s.(chart := chart)
    else Session(chart, s.passed, s.passed, 0, 0)
  }

  ghost function Step(s: Session, f: Feed, e: Event): Session
    requires s.through <= s.passed <= |f.ts| && Possible(s, f, e)
    ensures Step(s, f, e).through <= Step(s, f, e).passed <= |f.ts|
    ensures Step(s, f, e).passed == if e.Sent? then s.passed + 1 else s.passed
  {
    match e
    case Opened => s.(chart := Started(s.chart), began := s.passed)
    case Sent(heard) =>
      var next := s.(passed := s.passed + 1);
      if heard then Hear(next, f, f.ts[s.passed]) else next
    case Other(t) => Hear(s, f, t)
    case WindowCame(read) => Land(s, f, read)
    case NoWindowCame(reason) => s.(chart := Fail(s.chart, reason))
    case OlderAsked => s.(chart := AskedOlder(s.chart, true))
    case PageCame(read) => LandPage(s, f, read)
    case NoPageCame(invalid) =>
      s.(chart := if invalid then PageAnswered(s.chart, PageAnswerAt(s, f, 0).(valid := false))
                  else PageRefused(s.chart))
    case StopCalled => Session(Stopped(s.chart), s.passed, s.passed, 0, 0)
  }

  ghost predicate PossibleFrom(s: Session, f: Feed, es: seq<Event>)
    decreases |es|, 0
  {
    if es == [] then s.through <= s.passed <= |f.ts|
    else
      && PossibleFrom(s, f, es[..|es| - 1])
      && Possible(RunFrom(s, f, es[..|es| - 1]), f, es[|es| - 1])
  }

  ghost function RunFrom(s: Session, f: Feed, es: seq<Event>): (t: Session)
    requires PossibleFrom(s, f, es)
    ensures t.through <= t.passed <= |f.ts|
    decreases |es|, 1
  {
    if es == [] then s else Step(RunFrom(s, f, es[..|es| - 1]), f, es[|es| - 1])
  }

  // ---- Sessions that draw only what continues the chart -------------------

  /** Every tick this event draws continues what the chart accounts for. */
  ghost predicate Clean(s: Session, f: Feed, e: Event)
    requires s.through <= s.passed <= |f.ts| && Possible(s, f, e)
  {
    match e
    case Sent(heard) =>
      heard && Draws(s.chart) ==> Next(f.ts[..s.passed + 1], s.through, f.ts[s.passed]).Some?
    case Other(t) => Draws(s.chart) ==> Next(f.ts[..s.passed], s.through, t).Some?
    case WindowCame(read) => Track(f.ts[..s.passed], read, ReplayedAt(s, f, read)).Some?
    case _ => true
  }

  ghost predicate CleanFrom(s: Session, f: Feed, es: seq<Event>)
    requires PossibleFrom(s, f, es)
  {
    es == [] ||
    (CleanFrom(s, f, es[..|es| - 1]) && Clean(RunFrom(s, f, es[..|es| - 1]), f, es[|es| - 1]))
  }

  ghost predicate NoneMissingFrom(base: nat, shown: seq<Candle<int>>, full: seq<Candle<int>>) {
    forall i :: base <= i < |full| ==> full[i] in shown
  }

  /** The open candle is that of the first `p` ticks, the closed ones are among theirs, in
      order, and none is missing from `base` on. */
  ghost predicate Follows(x: Series, ts: seq<Tick>, p: nat, base: nat) {
    && p <= |ts|
    && Ascending(x.finalized)
    && x.current == SeriesOf(ts[..p]).current
    && (forall c :: c in x.finalized ==> c in SeriesOf(ts[..p]).finalized)
    && NoneMissingFrom(base, x.finalized, SeriesOf(ts[..p]).finalized)
  }

  ghost predicate InStep(s: Session, f: Feed) {
    && s.through <= s.passed <= |f.ts|
    && (s.chart.hydration.Some? ==> s.through <= s.began <= s.passed)
    && s.chart.attached && s.chart.conflicts == 0
    && Rests(s.chart)
    && (s.chart.epoch.Some? ==> s.chart.epoch.value == f.epoch)
    && PagesFit(s.chart)
    && Follows(s.chart.series, f.ts, s.through, s.base)
  }

  /** A chart that was not started or was stopped shows nothing and waits for nothing. */
  predicate Rests(c: ChartState) {
    c.status == Idle ==> c.series == NOTHING && c.hydration.None? && c.older.page.None?
  }

  /** The cursor is the oldest candle on screen, and a page of this generation was asked
      from there while nothing else was under way. */
  ghost predicate PagesFit(c: ChartState) {
    && (c.older.cursor.Some? ==> OldestStart(c.series.finalized) == c.older.cursor)
    && (c.older.page.Some? ==> c.older.page.value.generation <= c.generation)
    && (c.older.page.Some? && c.older.page.value.generation == c.generation ==>
          c.hydration.None? && c.older.cursor == Some(c.older.page.value.before))
  }

  /** Two series with the same open candle close the same candles. */
  lemma ExtendAlike(s: Series, full: Series, o: Observation, base: nat)
    requires s.current == full.current && Ascending(s.finalized)
    requires forall x :: x in s.finalized ==> x in full.finalized
    requires NoneMissingFrom(base, s.finalized, full.finalized)
    requires Ascending(Extend(full, o).finalized)
    ensures var t, fuller := Extend(s, o), Extend(full, o);
      && t.current == fuller.current && Ascending(t.finalized)
      && (forall x :: x in t.finalized ==> x in fuller.finalized)
      && NoneMissingFrom(base, t.finalized, fuller.finalized)
  {
    var t, fuller, u := Extend(s, o), Extend(full, o), Observe(s.current, o);
    if u.finalized.Some? {
      var closed, n := u.finalized.value, |full.finalized|;
      assert fuller.finalized == full.finalized + [closed] && t.finalized == s.finalized + [closed];
      hide Observe;
      forall i | 0 <= i < |s.finalized| ensures s.finalized[i].startTime < closed.startTime {
        assert s.finalized[i] in full.finalized;
        var k :| 0 <= k < n && full.finalized[k] == s.finalized[i];
        assert fuller.finalized[k].startTime < fuller.finalized[n].startTime;
      }
      assert t.finalized[|s.finalized|] == closed && fuller.finalized[n] == closed;
      assert closed in t.finalized && closed in fuller.finalized;
      assert forall x :: x in s.finalized ==> x in t.finalized;
      assert forall x :: x in full.finalized ==> x in fuller.finalized;
      assert forall i :: 0 <= i < n ==> fuller.finalized[i] == full.finalized[i];
    }
  }

  /** Candles stay finalized as the stream goes on. */
  lemma StillFinalized(ts: seq<Tick>, m: nat, n: nat, x: Candle<int>)
    requires m <= n <= |ts| && x in SeriesOf(ts[..m]).finalized
    ensures x in SeriesOf(ts[..n]).finalized
  {
    hide SeriesOf;
    assert ts[..n] == ts[..m] + ts[m..n];
    FinalizedGrows(ts[..m], ts[m..n]);
  }

  /** Observing the same tick twice is observing it once. */
  lemma AgainChangesNothing(s: Series, o: Observation)
    ensures Extend(Extend(s, o), o) == Extend(s, o)
  {
  }

  lemma LateChangesNothing(s: Series, o: Observation)
    requires s.current.Some? && o.bucket < s.current.value.startTime
    ensures Extend(s, o) == s
  {
  }

  lemma SameCurrent(a: Series, b: Series, o: Observation)
    requires a.current == b.current && Extend(b, o) == b
    ensures Extend(a, o) == a
  {
  }

  lemma NextFollows(x: Series, ts: seq<Tick>, p: nat, base: nat, t: Tick)
    requires Follows(x, ts, p, base) && Next(ts, p, t).Some?
    ensures Follows(Extend(x, t.at), ts, Next(ts, p, t).value, base)
  {
    hide SeriesOf, Extend;
    if p < |ts| && ts[p] == t {
      SeriesStep(ts[..p + 1]);
      assert ts[..p + 1][..p] == ts[..p];
      FinalizedAscends(ts[..p + 1]);
      ExtendAlike(x, SeriesOf(ts[..p]), t.at, base);
    } else if 0 < p && ts[p - 1] == t {
      SeriesStep(ts[..p]);
      assert ts[..p][..p - 1] == ts[..p - 1];
      AgainChangesNothing(SeriesOf(ts[..p - 1]), t.at);
      SameCurrent(x, SeriesOf(ts[..p]), t.at);
    } else {
      LateChangesNothing(x, t.at);
    }
  }

  lemma {:induction false} TrackFollows(x: Series, ts: seq<Tick>, p: nat, base: nat, drawn: seq<Tick>)
    requires p <= |ts| && Follows(x, ts, p, base) && Track(ts, p, drawn).Some?
    ensures Follows(Run(x, Observations(drawn)), ts, Track(ts, p, drawn).value, base)
  {
    hide Follows, Next, Extend;
    if drawn != [] {
      var n := |drawn| - 1;
      TrackFollows(x, ts, p, base, drawn[..n]);
      assert Observations(drawn)[..n] == Observations(drawn[..n]);
      NextFollows(Run(x, Observations(drawn[..n])), ts, Track(ts, p, drawn[..n]).value, base, drawn[n]);
    }
  }

  /** To follow a prefix of the stream up to `p` is to follow the stream up to `p`. */
  lemma FollowsPrefix(x: Series, ts: seq<Tick>, n: nat, p: nat, base: nat)
    requires p <= n <= |ts|
    ensures Follows(x, ts[..n], p, base) <==> Follows(x, ts, p, base)
  {
    hide SeriesOf;
    assert ts[..n][..p] == ts[..p];
  }

  lemma OldestStays(x: Series, o: Observation)
    ensures x.finalized != [] ==> OldestStart(Extend(x, o).finalized) == OldestStart(x.finalized)
  {
  }

  lemma HearKeeps(s: Session, f: Feed, t: Tick)
    requires InStep(s, f) && (Draws(s.chart) ==> Next(f.ts[..s.passed], s.through, t).Some?)
    ensures InStep(Hear(s, f, t), f)
  {
    hide Follows, Next;
    OldestStays(s.chart.series, t.at);
    hide Extend;
    if Draws(s.chart) {
      FollowsPrefix(s.chart.series, f.ts, s.passed, s.through, s.base);
      NextFollows(s.chart.series, f.ts[..s.passed], s.through, s.base, t);
      FollowsPrefix(Hear(s, f, t).chart.series, f.ts, s.passed, Hear(s, f, t).through, s.base);
    }
  }

  /** A chart whose candles are all the stream's merges with any window, and then follows
      the stream from where the window was read. */
  lemma WindowFollows(held: seq<Candle<int>>, f: Feed, known: nat, read: nat)
    requires known <= read <= |f.ts| && Ascending(held)
    requires forall c :: c in held ==> c in SeriesOf(f.ts[..known]).finalized
    ensures var w, closed := WindowAt(f, read), |SeriesOf(f.ts[..read]).finalized|;
      && |w.candles| <= closed
      && Merge(held, w.candles).Some?
      && Follows(Series(Merge(held, w.candles).value, w.currentCandle), f.ts, read, closed - |w.candles|)
  {
    hide SeriesOf, Merge, Read, StoreRun;
    var w, full := WindowAt(f, read), SeriesOf(f.ts[..read]).finalized;
    WindowIsNewest(f.ts[..read], f.tf, f.retention, f.limit);
    FinalizedAscends(f.ts[..read]);
    forall c | c in held ensures c in full { StillFinalized(f.ts, known, read, c); }
    MergeWithin(held, w.candles, full, full);
    forall i | |full| - |w.candles| <= i < |full| ensures full[i] in Merge(held, w.candles).value {
      assert full[i] == w.candles[i - (|full| - |w.candles|)];
    }
  }

  /** A window that lands cleanly on a chart whose closed candles are all the stream's puts
      it in step, whatever became of its open candle. */
  lemma LandRestores(s: Session, f: Feed, read: nat, known: nat)
    requires s.through <= s.passed <= |f.ts| && Possible(s, f, WindowCame(read)) && Clean(s, f, WindowCame(read))
    requires s.chart.epoch.Some? ==> s.chart.epoch.value == f.epoch
    requires known <= read && Ascending(s.chart.series.finalized)
    requires forall c :: c in s.chart.series.finalized ==> c in SeriesOf(f.ts[..known]).finalized
    requires PagesFit(s.chart)
    ensures Merging(s, f, read).Some?
    ensures InStep(Land(s, f, read), f) && Land(s, f, read).chart.hydration.None?
  {
    hide SeriesOf, Merge, WindowAt, Watermark, Replayed, Track;
    var held, w := s.chart.series.finalized, WindowAt(f, read);
    WindowFollows(held, f, known, read);
    var drawn, base := ReplayedAt(s, f, read), |SeriesOf(f.ts[..read]).finalized| - |w.candles|;
    var seeded := Series(Merge(held, w.candles).value, w.currentCandle);
    FollowsPrefix(seeded, f.ts, s.passed, read, base);
    hide Follows;
    TrackFollows(seeded, f.ts[..s.passed], read, base, drawn);
    FollowsPrefix(Run(seeded, Observations(drawn)), f.ts, s.passed, Land(s, f, read).through, base);
    LandPages(s, f, read);
  }

  lemma WindowAscends(f: Feed, read: nat)
    requires read <= |f.ts|
    ensures var w, full := WindowAt(f, read), SeriesOf(f.ts[..read]).finalized;
      && Ascending(w.candles) && (forall y :: y in w.candles ==> y in full)
      && w.currentCandle == SeriesOf(f.ts[..read]).current
  {
    hide SeriesOf, Read, StoreRun;
    var w, full := WindowAt(f, read), SeriesOf(f.ts[..read]).finalized;
    WindowIsNewest(f.ts[..read], f.tf, f.retention, f.limit);
    FinalizedAscends(f.ts[..read]);
    SliceWithin(w.candles, full, full);
  }

  /** A window that lands leaves the cursor at the oldest candle on screen. */
  lemma LandPages(s: Session, f: Feed, read: nat)
    requires Possible(s, f, WindowCame(read)) && Merging(s, f, read).Some? && PagesFit(s.chart)
    requires Distinct(Partitioned(s.chart, f.epoch).series.finalized)
    ensures PagesFit(LandedChart(s, f, read))
  {
    hide SeriesOf, Merge, Read, StoreRun, Watermark, Replayed;
    var merged, w := Merging(s, f, read).value, WindowAt(f, read);
    WindowAscends(f, read);
    MergeTakesIn(Partitioned(s.chart, f.epoch).series.finalized, w.candles);
    NoCandlesNoCursor(f, read);
    assert w.candles != [] ==> w.candles[0] in merged;
    var seeded, drawn := Series(merged, w.currentCandle), Observations(ReplayedAt(s, f, read));
    RunFromCurrent(seeded, drawn);
    assert merged != [] ==> OldestStart(Run(seeded, drawn).finalized) == OldestStart(merged);
  }

  lemma NoCandlesNoCursor(f: Feed, read: nat)
    requires read <= |f.ts|
    ensures WindowAt(f, read).candles == [] ==> WindowAt(f, read).nextCursor == None
  {
    hide StoreRun, BucketEnd;
  }

  lemma MergeTakesIn<P>(held: seq<Candle<P>>, page: seq<Candle<P>>)
    requires Distinct(held) && Distinct(page) && Merge(held, page).Some?
    ensures forall c :: c in held ==> c in Merge(held, page).value
    ensures forall c :: c in page ==> c in Merge(held, page).value
  {
    MergeIsUnion(held, page);
  }

  // ---- Older pages --------------------------------------------------------

  lemma FrontAscends(page: seq<Candle<int>>, held: seq<Candle<int>>)
    requires Ascending(page) && Ascending(held) && held != []
    requires forall c :: c in page ==> c.startTime < held[0].startTime
    ensures Ascending(page + held) && forall c :: c in held ==> held[0].startTime <= c.startTime
  {
    var all := page + held;
    forall i, j | 0 <= i < j < |all| ensures all[i].startTime < all[j].startTime {
      if i < |page| <= j { assert page[i] in page; }
    }
  }

  /** A page before the oldest candle on screen never conflicts: it goes in front. */
  lemma PageGoesInFront(held: seq<Candle<int>>, f: Feed, read: nat, before: int)
    requires read <= |f.ts| && Ascending(held) && held != [] && held[0].startTime == before
    ensures var w := PageAt(f, read, before);
      && Ascending(w.candles) && (forall c :: c in w.candles ==> c in SeriesOf(f.ts[..read]).finalized)
      && (forall c :: c in w.candles ==> c.startTime < before)
      && Merge(held, w.candles) == Some(w.candles + held) && Ascending(w.candles + held)
      && OldestStart(w.candles + held) == OrCursor(w.nextCursor, Some(before))
  {
    hide SeriesOf, Read, StoreRun, ByStart, ByTime;
    var s, w := StoreRun(f.ts[..read], f.retention), PageAt(f, read, before);
    StoreHolds(f.ts[..read], f.retention);
    FinalizedAscends(f.ts[..read]);
    PageOfSeries(s, SeriesOf(f.ts[..read]), f.tf, f.retention, f.pageLimit, Some(before));
    PageIsOlder(s, f.tf, f.pageLimit, before);
    MergeIsUnion(held, w.candles);
    FrontAscends(w.candles, held);
    AscendingUnique(Merge(held, w.candles).value, w.candles + held);
  }

  /** What is older than a candle of the first `p` ticks was closed by them too. */
  lemma OlderIsKnown(ts: seq<Tick>, p: nat, n: nat, x: Candle<int>, y: Candle<int>)
    requires p <= |ts| && n <= |ts|
    requires x in SeriesOf(ts[..p]).finalized && y in SeriesOf(ts[..n]).finalized && y.startTime < x.startTime
    ensures y in SeriesOf(ts[..p]).finalized
  {
    hide SeriesOf;
    if n <= p {
      StillFinalized(ts, n, p, y);
    } else {
      assert ts[..n] == ts[..p] + ts[p..n];
      FinalizedGrows(ts[..p], ts[p..n]);
      FinalizedAscends(ts[..n]);
      var short, long := SeriesOf(ts[..p]).finalized, SeriesOf(ts[..n]).finalized;
      var i, j :| 0 <= i < |short| && short[i] == x && 0 <= j < |long| && long[j] == y;
      assert long[i] == x;
      assert j < i;
      assert short[j] == y;
    }
  }

  lemma PageKeeps(s: Session, f: Feed, read: nat)
    requires InStep(s, f) && Possible(s, f, PageCame(read))
    ensures InStep(LandPage(s, f, read), f)
  {
    hide SeriesOf, Merge, PageAt;
    var page, held := s.chart.older.page.value, s.chart.series.finalized;
    if page.generation == s.chart.generation && s.chart.status != Idle && Some(f.epoch) == s.chart.epoch
       && f.epoch == page.epoch {
      var w := PageAt(f, read, page.before);
      PageGoesInFront(held, f, read, page.before);
      assert held[0] in held;
      forall c | c in w.candles + held ensures c in SeriesOf(f.ts[..s.through]).finalized {
        if c in w.candles { OlderIsKnown(f.ts, s.through, read, held[0], c); }
      }
      assert forall c :: c in held ==> c in w.candles + held;
    }
  }

  /** Through any session in which every tick drawn continues what the chart accounts for,
      however many are lost, whatever requests fail and whenever windows land: no window
      ever conflicts, and the chart shows candles of the stream only. */
  lemma {:induction false} ChartStaysInStep(f: Feed, es: seq<Event>)
    requires PossibleFrom(START, f, es) && CleanFrom(START, f, es)
    ensures InStep(RunFrom(START, f, es), f)
    ensures es != [] && es[|es| - 1].WindowCame? ==>
      Merging(RunFrom(START, f, es[..|es| - 1]), f, es[|es| - 1].read).Some?
  {
    hide InStep, Land, LandPage, Hear, Next, Merging, Clean;
    if es == [] {
      StartInStep(f);
    } else {
      var s, e := RunFrom(START, f, es[..|es| - 1]), es[|es| - 1];
      ChartStaysInStep(f, es[..|es| - 1]);
      StepKeeps(s, f, e);
    }
  }

  lemma NothingFollows(ts: seq<Tick>)
    ensures Follows(NOTHING, ts, 0, 0)
  {
    assert ts[..0] == [];
    NoTicks(0);
  }

  lemma StartInStep(f: Feed)
    ensures InStep(START, f)
  {
    NothingFollows(f.ts);
  }

  lemma StepKeeps(s: Session, f: Feed, e: Event)
    requires InStep(s, f) && Possible(s, f, e) && Clean(s, f, e)
    ensures InStep(Step(s, f, e), f)
    ensures e.WindowCame? ==> Merging(s, f, e.read).Some?
  {
    hide SeriesOf, Land, LandPage, Hear, Next, Merging;
    match e
    case Sent(heard) => if heard { HearKeeps(s.(passed := s.passed + 1), f, f.ts[s.passed]); }
    case Other(t) => HearKeeps(s, f, t);
    case WindowCame(read) => LandRestores(s, f, read, s.through);
    case PageCame(read) => PageKeeps(s, f, read);
    case StopCalled => NothingFollows(f.ts);
    case _ =>
  }

  // ---- A whole buffer catches up ------------------------------------------

  /** The ticks from `from` up to `p` are late for the series of the first `p`. */
  ghost predicate LateFrom(ts: seq<Tick>, p: nat, from: nat)
    requires from <= p <= |ts|
  {
    forall i :: from <= i < p ==>
      SeriesOf(ts[..p]).current.Some? && ts[i].at.bucket < SeriesOf(ts[..p]).current.value.startTime
  }

  lemma {:induction false} TrackRest(ts: seq<Tick>, p: nat, from: nat, n: nat)
    requires Sequenced(ts) && from <= p <= |ts| && from <= n <= |ts|
    requires LateFrom(ts, p, from)
    ensures Track(ts, p, ts[from..n]) == Some(if n <= p then p else n)
    decreases n
  {
    hide SeriesOf;
    if from < n {
      TrackRest(ts, p, from, n - 1);
      assert ts[from..n][..n - 1 - from] == ts[from..n - 1];
    }
  }

  /** Of a buffer without holes, the replay takes the ticks from some point on, and those
      among them that the window represents are late for it. */
  lemma ReplayedIsTail(f: Feed, began: nat, read: nat, n: nat) returns (from: nat)
    requires Sequenced(f.ts) && began <= read <= n <= |f.ts|
    ensures from <= read && LateFrom(f.ts[..n], read, from)
    ensures Replayed(f.ts[began..n], Watermark(WindowAt(f, read))) == f.ts[from..n]
  {
    hide SeriesOf, Read, StoreRun, Replayed, LastKept;
    var seen := f.ts[..n];
    assert seen[began..] == f.ts[began..n] && seen[..read] == f.ts[..read];
    if read == 0 {
      EmptyWindow(f.tf, f.retention, f.limit);
      assert f.ts[..read] == [];
      ReplayAll(f.ts[began..n]);
      from := 0;
    } else {
      WindowIsNewest(f.ts[..read], f.tf, f.retention, f.limit);
      PrefixLastKept(f.ts, read);
      var p := LastKept(f.ts[..read]);
      ReplayFrom(seen, began, p);
      from := if began <= p then p + 1 else began;
      assert seen[from..] == f.ts[from..n];
      assert forall i :: from <= i < read ==> seen[i] == f.ts[i];
    }
  }

  /** A hydration whose buffer holds every tick that went out since it began is clean, and
      when it lands the chart accounts for the whole stream so far. */
  lemma HydrationCatchesUp(s: Session, f: Feed, read: nat)
    requires Sequenced(f.ts) && InStep(s, f) && Possible(s, f, WindowCame(read))
    requires s.chart.hydration.value.buffer == f.ts[s.began..s.passed]
    ensures Clean(s, f, WindowCame(read))
    ensures Land(s, f, read).through == s.passed
  {
    hide SeriesOf, Merge, WindowAt, Watermark, Replayed, Track, Follows, LateFrom;
    LandMerges(s, f, read);
    var from := ReplayedIsTail(f, s.began, read, s.passed);
    var seen := f.ts[..s.passed];
    assert seen[from..|seen|] == f.ts[from..s.passed];
    TrackRest(seen, read, from, |seen|);
  }

  /** And then it shows every candle that the stream has closed from the window's oldest on. */
  lemma CaughtUpShowsAll(s: Session, f: Feed, read: nat, i: nat)
    requires Sequenced(f.ts) && InStep(s, f) && Possible(s, f, WindowCame(read))
    requires s.chart.hydration.value.buffer == f.ts[s.began..s.passed]
    requires |SeriesOf(f.ts[..read]).finalized| - |WindowAt(f, read).candles| <= i
    requires i < |SeriesOf(f.ts[..s.passed]).finalized|
    ensures SeriesOf(f.ts[..s.passed]).finalized[i] in Land(s, f, read).chart.series.finalized
  {
    hide SeriesOf, Merge, WindowAt, Watermark, Replayed, Track, LateFrom;
    HydrationCatchesUp(s, f, read);
    StepKeeps(s, f, WindowCame(read));
    WindowFollows(s.chart.series.finalized, f, s.through, read);
  }

  lemma LandMerges(s: Session, f: Feed, read: nat)
    requires InStep(s, f) && Possible(s, f, WindowCame(read))
    ensures Merging(s, f, read).Some?
  {
    hide SeriesOf, Merge, WindowAt;
    WindowFollows(s.chart.series.finalized, f, s.through, read);
  }

  function AllHeard(k: nat): seq<Event> {
    seq(k, _ => Sent(true))
  }

  /** While a request is under way and every tick is heard, the buffer holds them all up to
      its bound; the next one drops them all and the request with them. */
  lemma {:induction false} BufferHolds(s: Session, f: Feed, k: nat)
    requires s.through <= s.passed && s.passed + k <= |f.ts| && k <= f.bufferMax + 1
    ensures var asked := Step(s, f, Opened);
      && PossibleFrom(asked, f, AllHeard(k))
      && var t := RunFrom(asked, f, AllHeard(k));
         && t.passed == s.passed + k && t.through == s.through && t.chart.series == asked.chart.series
         && (if k <= f.bufferMax
             then t.began == s.passed && t.chart == asked.chart.(hydration := t.chart.hydration)
                  && t.chart.hydration == Some(Hydration(asked.chart.hydration.value.request, f.ts[s.passed..t.passed]))
             else t.chart == Fail(asked.chart, BufferExceeded))
  {
    hide Next;
    if k > 0 {
      BufferHolds(s, f, k - 1);
      assert AllHeard(k)[..k - 1] == AllHeard(k - 1);
      assert f.ts[s.passed..s.passed + k] == f.ts[s.passed..s.passed + k - 1] + [f.ts[s.passed + k - 1]];
    } else {
      assert f.ts[s.passed..s.passed] == [];
    }
  }
}
