/** Paging back through the store, and what paging brings to a chart. */
module HistoryPages {
  import opened Options
  import opened Timeframes
  import opened MarketCandles
  import opened MarketHistory
  import opened HistoryStore
  import opened Cutover
  import opened Windows
  import opened ChartHistory
  import opened ChartRuns

  // ---- The store ----------------------------------------------------------

  /** The stored candles a read chooses its page from. */
  function Pool(cs: seq<Stored>, before: Option<int>): seq<Stored> {
    if before.None? then cs else Before(cs, before.value)
  }

  lemma {:induction false} AllBefore(cs: seq<Stored>, before: int)
    requires forall i :: 0 <= i < |cs| ==> cs[i].candle.startTime < before
    ensures Before(cs, before) == cs
  {
    if cs != [] { AllBefore(cs[..|cs| - 1], before); }
  }

  lemma {:induction false} BeforeIsPrefix(cs: seq<Stored>, before: int) returns (k: nat)
    requires InTime(cs)
    ensures k <= |cs| && Before(cs, before) == cs[..k]
  {
    if cs == [] {
      k := 0;
    } else if cs[|cs| - 1].candle.startTime < before {
      AllBefore(cs, before);
      k := |cs|;
    } else {
      var n := |cs| - 1;
      k := BeforeIsPrefix(cs[..n], before);
      assert cs[..n][..k] == cs[..k];
    }
  }

  lemma PoolIsPrefix(cs: seq<Stored>, before: Option<int>) returns (m: nat)
    requires InTime(cs)
    ensures m <= |cs| && Pool(cs, before) == cs[..m]
  {
    m := |cs|;
    if before.Some? { m := BeforeIsPrefix(cs, before.value); }
  }

  /** Before the candle at `j` come the first `j`. */
  lemma {:induction false} BeforePlace(cs: seq<Stored>, j: nat)
    requires InTime(cs) && j < |cs|
    ensures Before(cs, cs[j].candle.startTime) == cs[..j]
  {
    var n := |cs| - 1;
    if j < n {
      BeforePlace(cs[..n], j);
      assert cs[..n][..j] == cs[..j];
    } else {
      AllBefore(cs[..n], cs[j].candle.startTime);
    }
  }

  lemma CandlesFrom(cs: seq<Stored>, j: nat)
    requires j <= |cs|
    ensures CandlesOf(cs)[j..] == CandlesOf(cs[j..]) && CandlesOf(cs)[..j] == CandlesOf(cs[..j])
  {
  }

  /** A page takes the newest of its pool, says whether any is left, and its cursor leaves
      exactly those for the next page. */
  lemma PageSplits(s: StoreState, tf: Timeframe, limit: nat, before: Option<int>)
    requires InTime(s.finalized) && 0 < limit
    ensures var w, pool := Read(s, tf, limit, before), Pool(s.finalized, before);
      && |w.candles| <= |pool| && CandlesOf(pool)[|pool| - |w.candles|..] == w.candles
      && (w.hasMore <==> |w.candles| < |pool|)
      && (w.nextCursor.Some? <==> pool != [])
      && (w.nextCursor.Some? ==> Pool(s.finalized, w.nextCursor) == pool[..|pool| - |w.candles|])
      && (pool != [] ==> w.candles != [])
  {
    hide Read, Before, InTime, CandlesOf, Newest, Pool;
    var pool := Pool(s.finalized, before);
    ReadOf(s, tf, limit, before);
    NewestIsTail(pool, limit);
    CandlesFrom(pool, |pool| - |Newest(pool, limit)|);
    PageCursor(s, tf, limit, before);
  }

  lemma PageCursor(s: StoreState, tf: Timeframe, limit: nat, before: Option<int>)
    requires InTime(s.finalized) && 0 < limit
    ensures var w, pool := Read(s, tf, limit, before), Pool(s.finalized, before);
      && |w.candles| <= |pool| && (w.nextCursor.Some? <==> pool != []) && (pool != [] ==> w.candles != [])
      && (w.candles != [] ==> w.nextCursor == Some(w.candles[0].startTime))
      && (w.nextCursor.Some? ==> Pool(s.finalized, w.nextCursor) == pool[..|pool| - |w.candles|])
  {
    hide Read, Before, InTime, Newest, Pool;
    var pool := Pool(s.finalized, before);
    ReadOf(s, tf, limit, before);
    NewestIsTail(pool, limit);
    if pool != [] { CursorLeaves(s.finalized, before, |pool| - |Newest(pool, limit)|); }
  }

  /** Before a candle of the pool come those that the pool has before it. */
  lemma CursorLeaves(cs: seq<Stored>, before: Option<int>, j: nat)
    requires InTime(cs) && j < |Pool(cs, before)|
    ensures var pool := Pool(cs, before); Pool(cs, Some(pool[j].candle.startTime)) == pool[..j]
  {
    hide Before, InTime;
    var m := PoolIsPrefix(cs, before);
    var pool := Pool(cs, before);
    assert pool[j] == cs[j] && pool[..j] == cs[..j];
    BeforePlace(cs, j);
  }

  lemma ReadOf(s: StoreState, tf: Timeframe, limit: nat, before: Option<int>)
    ensures var w, pool := Read(s, tf, limit, before), Pool(s.finalized, before);
      var page := Newest(pool, limit);
      && w.candles == CandlesOf(page) && |w.candles| == |page| && (w.hasMore <==> |pool| > |page|)
      && w.nextCursor == if page == [] then None else Some(page[0].candle.startTime)
  {
    hide BucketEnd, Before;
  }

  lemma NewestIsTail<T>(s: seq<T>, n: nat)
    requires 0 < n
    ensures var t := Newest(s, n); |t| <= |s| && t == s[|s| - |t|..] && (s != [] ==> t != [])
  {
  }

  /** A page is finalized through the newest candle of its pool; the open candle, with its
      watermark, comes with a page at the live edge and with no other. */
  lemma PageCarries(s: StoreState, tf: Timeframe, limit: nat, before: Option<int>)
    requires 0 < limit
    ensures var w, pool := Read(s, tf, limit, before), Pool(s.finalized, before);
      && w.finalizedThrough == (if pool == [] then None else Some(pool[|pool| - 1].lastSequence))
      && w.currentCandle == (if before.None? then s.current else None)
      && w.currentThrough == (if before.None? && s.current.Some? then s.lastSequence else None)
      && w.historyThrough
         == if pool == [] then None else Some(BucketEnd(pool[|pool| - 1].candle.startTime, tf))
  {
    hide BucketEnd, Before;
    NewestIsTail(Pool(s.finalized, before), limit);
  }

  /** All that the pages from here bring, oldest first. */
  ghost function Collected(s: StoreState, tf: Timeframe, limit: nat, before: Option<int>): seq<Candle<int>>
    requires InTime(s.finalized) && 0 < limit
    decreases |Pool(s.finalized, before)|
  {
    PageSplits(s, tf, limit, before);
    var w := Read(s, tf, limit, before);
    if w.hasMore then Collected(s, tf, limit, w.nextCursor) + w.candles else w.candles
  }

  /** Following the cursor while there is more brings every stored candle before the first
      cursor, each once and in order, whatever the page size. */
  lemma {:induction false} PagesBringAll(s: StoreState, tf: Timeframe, limit: nat, before: Option<int>)
    requires InTime(s.finalized) && 0 < limit
    ensures Collected(s, tf, limit, before) == CandlesOf(Pool(s.finalized, before))
    decreases |Pool(s.finalized, before)|
  {
    hide Read, Before;
    PageSplits(s, tf, limit, before);
    var w, pool := Read(s, tf, limit, before), Pool(s.finalized, before);
    var j := |pool| - |w.candles|;
    assert CandlesOf(pool) == CandlesOf(pool[..j]) + CandlesOf(pool)[j..];
    if w.hasMore {
      PagesBringAll(s, tf, limit, w.nextCursor);
    } else {
      assert j == 0;
      assert CandlesOf(pool)[0..] == CandlesOf(pool);
    }
  }

  // ---- The chart ----------------------------------------------------------

  /** What the store keeps of the first `read` ticks. */
  function Kept(f: Feed, read: nat): seq<Stored>
    requires read <= |f.ts|
  {
    StoreRun(f.ts[..read], f.retention).finalized
  }

  lemma KeptInTime(f: Feed, read: nat)
    requires read <= |f.ts|
    ensures InTime(Kept(f, read))
    ensures forall x :: x in CandlesOf(Kept(f, read)) ==> x in SeriesOf(f.ts[..read]).finalized
  {
    hide SeriesOf, StoreRun;
    StoreHolds(f.ts[..read], f.retention);
    FinalizedAscends(f.ts[..read]);
    StorePartOf(StoreRun(f.ts[..read], f.retention), SeriesOf(f.ts[..read]), f.retention);
    PartOfCandles(Kept(f, read), SeriesOf(f.ts[..read]));
  }

  /** The chart is up and waits for nothing; it has every kept candle from its oldest on, and
      knows that there is more if there is. */
  ghost predicate Paged(c: ChartState, f: Feed, read: nat)
    requires read <= |f.ts|
  {
    && c.status != Idle && c.hydration.None? && c.older.page.None? && c.epoch == Some(f.epoch)
    && Ascending(c.series.finalized) && c.series.finalized != []
    && c.older.cursor == Some(c.series.finalized[0].startTime)
    && (Left(c, f, read) != [] ==> c.older.hasMore)
    && (forall x :: x in Kept(f, read) && x !in Left(c, f, read) ==> x.candle in c.series.finalized)
  }

  /** The kept candles older than the chart. */
  function Left(c: ChartState, f: Feed, read: nat): seq<Stored>
    requires read <= |f.ts|
  {
    if c.older.cursor.None? then [] else Before(Kept(f, read), c.older.cursor.value)
  }

  /** One page asked for and answered. */
  ghost function Round(s: Session, f: Feed, read: nat): Session
    requires s.through <= s.passed <= |f.ts| && read <= s.passed
  {
    var asked := Step(s, f, OlderAsked);
    if asked.chart.older.page.Some? then Step(asked, f, PageCame(read)) else asked
  }

  /** A round that asks for a page puts it in front of what is on screen. */
  lemma RoundBrings(s: Session, f: Feed, read: nat)
    requires s.through <= s.passed <= |f.ts| && read <= s.passed
    requires Paged(s.chart, f, read) && s.chart.older.hasMore
    ensures var c, t := s.chart, Round(s, f, read);
      var w := PageAt(f, read, c.older.cursor.value);
      && t.passed == s.passed && t.chart.status != Idle && t.chart.hydration.None? && t.chart.older.page.None?
      && t.chart.epoch == c.epoch && t.chart.series.finalized == w.candles + c.series.finalized
      && Ascending(w.candles + c.series.finalized)
      && t.chart.older.cursor == Some((w.candles + c.series.finalized)[0].startTime)
      && t.chart.older.hasMore == w.hasMore
  {
    hide SeriesOf, Merge, PageAt, Left, Kept;
    var c := s.chart;
    PageGoesInFront(c.series.finalized, f, read, c.older.cursor.value);
  }

  lemma RoundRests(s: Session, f: Feed, read: nat)
    requires s.through <= s.passed <= |f.ts| && read <= s.passed
    requires Paged(s.chart, f, read) && !s.chart.older.hasMore
    ensures Round(s, f, read) == s
  {
    hide Left, Kept;
  }

  /** A round brings what it can, and leaves the chart paged: with less left, or knowing that
      nothing is. */
  lemma RoundPages(s: Session, f: Feed, read: nat)
    requires s.through <= s.passed <= |f.ts| && read <= s.passed && 0 < f.pageLimit
    requires Paged(s.chart, f, read)
    ensures var t := Round(s, f, read);
      && t.passed == s.passed && Paged(t.chart, f, read)
      && (s.chart.older.hasMore ==> |Left(t.chart, f, read)| < |Left(s.chart, f, read)| || !t.chart.older.hasMore)
      && (!s.chart.older.hasMore ==> t.chart == s.chart)
  {
    hide Round, StoreRun, Read, Before, CandlesOf, InTime, Ascending;
    if s.chart.older.hasMore {
      var c, t := s.chart, Round(s, f, read);
      var before, left := c.older.cursor.value, Left(c, f, read);
      var w := PageAt(f, read, before);
      RoundBrings(s, f, read);
      KeptInTime(f, read);
      PageSplits(StoreRun(f.ts[..read], f.retention), f.tf, f.pageLimit, Some(before));
      PageLeaves(s, f, read);
      forall x | x in Kept(f, read) && x !in Left(t.chart, f, read) ensures x.candle in t.chart.series.finalized {
        if x in left { PageHas(left, w.candles, x); }
      }
    } else {
      RoundRests(s, f, read);
    }
  }

  /** What is left after the page is what was left without it. */
  lemma PageLeaves(s: Session, f: Feed, read: nat)
    requires s.through <= s.passed <= |f.ts| && read <= s.passed && 0 < f.pageLimit
    requires Paged(s.chart, f, read) && s.chart.older.hasMore
    ensures var c, t := s.chart, Round(s, f, read);
      var w, left := PageAt(f, read, c.older.cursor.value), Left(c, f, read);
      && |w.candles| <= |left| && Left(t.chart, f, read) == left[..|left| - |w.candles|]
  {
    hide Round, StoreRun, Read, Before, InTime, Ascending;
    RoundBrings(s, f, read);
    KeptInTime(f, read);
    NextLeft(StoreRun(f.ts[..read], f.retention), f.tf, f.pageLimit, s.chart.series.finalized);
  }

  /** Of what is older than `held`, a page takes the newest. */
  lemma NextLeft(s: StoreState, tf: Timeframe, limit: nat, held: seq<Candle<int>>)
    requires InTime(s.finalized) && 0 < limit && held != []
    ensures var before := held[0].startTime;
      var w, left := Read(s, tf, limit, Some(before)), Before(s.finalized, before);
      && |w.candles| <= |left|
      && Before(s.finalized, (w.candles + held)[0].startTime) == left[..|left| - |w.candles|]
  {
    hide Read, Before, InTime, CandlesOf, Newest, Pool;
    var before := held[0].startTime;
    var w, left := Read(s, tf, limit, Some(before)), Before(s.finalized, before);
    PoolBefore(s.finalized, before);
    PageCursor(s, tf, limit, Some(before));
    if w.candles == [] {
      assert w.candles + held == held;
    } else {
      PoolBefore(s.finalized, w.candles[0].startTime);
    }
  }

  lemma PoolBefore(cs: seq<Stored>, before: int)
    ensures Pool(cs, Some(before)) == Before(cs, before)
  {
    hide Before;
  }

  lemma PageHas(left: seq<Stored>, page: seq<Candle<int>>, x: Stored)
    requires |page| <= |left| && CandlesOf(left)[|left| - |page|..] == page
    requires x in left && x !in left[..|left| - |page|]
    ensures x.candle in page
  {
    var j := |left| - |page|;
    assert forall k :: 0 <= k < j ==> left[..j][k] in left[..j] && left[..j][k] == left[k];
    var i :| 0 <= i < |left| && left[i] == x;
    assert page[i - j] == x.candle;
  }

  ghost function Rounds(s: Session, f: Feed, read: nat, n: nat): (t: Session)
    requires s.through <= s.passed <= |f.ts| && read <= s.passed
    ensures t.through <= t.passed <= |f.ts| && t.passed == s.passed
  {
    if n == 0 then s else Round(Rounds(s, f, read, n - 1), f, read)
  }

  /** As many rounds as there are kept candles, and one, bring the chart all of them; then it
      asks no more. */
  lemma {:induction false} PagingCompletes(s: Session, f: Feed, read: nat, n: nat)
    requires s.through <= s.passed <= |f.ts| && read <= s.passed && 0 < f.pageLimit
    requires Paged(s.chart, f, read)
    ensures var t := Rounds(s, f, read, n).chart;
      && Paged(t, f, read)
      && (n > |Left(s.chart, f, read)| ==>
            !t.older.hasMore && AskedOlder(t, true) == t
            && forall x :: x in CandlesOf(Kept(f, read)) ==> x in t.series.finalized)
      && (t.older.hasMore ==> |Left(t, f, read)| + n <= |Left(s.chart, f, read)|)
  {
    hide Round, Left, Kept;
    if n > 0 {
      var t := Rounds(s, f, read, n - 1);
      PagingCompletes(s, f, read, n - 1);
      RoundPages(t, f, read);
    }
  }

  /** A first window that lands cleanly, on a chart that shows nothing: the chart begins with
      its candles, from the oldest of which paging goes on. */
  lemma FirstWindowLands(s: Session, f: Feed, read: nat)
    requires InStep(s, f) && Possible(s, f, WindowCame(read)) && Clean(s, f, WindowCame(read))
    requires s.chart.series == NOTHING && WindowAt(f, read).candles != []
    ensures var t, w := LandedChart(s, f, read), WindowAt(f, read);
      && w.candles <= t.series.finalized && Ascending(t.series.finalized)
      && t.status != Idle && t.hydration.None? && t.epoch == Some(f.epoch) && t.older.page == s.chart.older.page
      && t.older.cursor == Some(w.candles[0].startTime) && t.older.hasMore == w.hasMore
  {
    hide SeriesOf, WindowAt, Merge, Watermark, Replayed, Follows, Track;
    var w := WindowAt(f, read);
    LandRestores(s, f, read, s.through);
    FollowsAscends(Land(s, f, read), f);
    WindowAscends(f, read);
    MergeIsUnion([], w.candles);
    AscendingUnique(Merge([], w.candles).value, w.candles);
    RunFromCurrent(Series(w.candles, w.currentCandle), Observations(ReplayedAt(s, f, read)));
  }

  /** So it leaves the chart paged. */
  lemma FirstWindowPages(s: Session, f: Feed, read: nat)
    requires InStep(s, f) && Possible(s, f, WindowCame(read)) && Clean(s, f, WindowCame(read)) && 0 < f.limit
    requires s.chart.series == NOTHING && s.chart.older.page.None? && WindowAt(f, read).candles != []
    ensures Paged(Land(s, f, read).chart, f, read)
  {
    hide InStep, Clean, LandedChart, Merging, StoreRun, Read, Before, InTime, CandlesOf, Track, ReplayedAt, SeriesOf;
    var state, w, t := StoreRun(f.ts[..read], f.retention), WindowAt(f, read), Land(s, f, read).chart;
    FirstWindowLands(s, f, read);
    assert t == LandedChart(s, f, read);
    KeptInTime(f, read);
    PageKeepsRest(state, f.tf, f.limit);
    forall x | x in w.candles ensures x in t.series.finalized {
      var k :| 0 <= k < |w.candles| && w.candles[k] == x;
      assert t.series.finalized[k] == x;
    }
  }

  /** A window has every stored candle that is not older than its oldest. */
  lemma PageKeepsRest(s: StoreState, tf: Timeframe, limit: nat)
    requires InTime(s.finalized) && 0 < limit && Read(s, tf, limit, None).candles != []
    ensures var w := Read(s, tf, limit, None);
      var left := Before(s.finalized, w.candles[0].startTime);
      && (left != [] ==> w.hasMore)
      && forall x :: x in s.finalized && x !in left ==> x.candle in w.candles
  {
    hide Read, Before, InTime, CandlesOf, Newest;
    var w, pool := Read(s, tf, limit, None), s.finalized;
    PageCursor(s, tf, limit, None);
    PageSplits(s, tf, limit, None);
    PoolBefore(s.finalized, w.candles[0].startTime);
    forall x | x in pool && x !in Before(s.finalized, w.candles[0].startTime) ensures x.candle in w.candles {
      PageHas(pool, w.candles, x);
    }
  }

  /** A round adds only what is older than the chart. */
  lemma RoundAddsOlder(s: Session, f: Feed, read: nat, y: Candle<int>)
    requires InStep(s, f) && read <= s.passed && s.chart.series.finalized != []
    requires y !in s.chart.series.finalized && s.chart.series.finalized[0].startTime <= y.startTime
    ensures var t := Round(s, f, read);
      && InStep(t, f) && t.passed == s.passed && t.chart.series.finalized != []
      && y !in t.chart.series.finalized && t.chart.series.finalized[0].startTime <= y.startTime
  {
    hide Follows, Merge, PageAt, SeriesOf;
    StepKeeps(s, f, OlderAsked);
    var asked := Step(s, f, OlderAsked);
    assert Ascending(s.chart.series.finalized) by { FollowsAscends(s, f); }
    if asked.chart.older.page.Some? {
      StepKeeps(asked, f, PageCame(read));
      var page, held := asked.chart.older.page.value, asked.chart.series.finalized;
      if page.generation == asked.chart.generation { PageGoesInFront(held, f, read, page.before); }
    }
  }

  lemma FollowsAscends(s: Session, f: Feed)
    requires InStep(s, f)
    ensures Ascending(s.chart.series.finalized)
  {
    hide SeriesOf;
  }

  /** A chart that was away for longer than a window reaches has a hole that paging never
      fills: its cursor is its oldest candle, not the edge of the window. */
  lemma {:induction false} HoleStays(s: Session, f: Feed, read: nat, n: nat, y: Candle<int>)
    requires InStep(s, f) && read <= s.passed && s.chart.series.finalized != []
    requires y !in s.chart.series.finalized && s.chart.series.finalized[0].startTime <= y.startTime
    ensures var t := Rounds(s, f, read, n);
      && InStep(t, f) && t.chart.series.finalized != []
      && y !in t.chart.series.finalized && t.chart.series.finalized[0].startTime <= y.startTime
  {
    hide Follows, Round;
    if n > 0 {
      HoleStays(s, f, read, n - 1, y);
      RoundAddsOlder(Rounds(s, f, read, n - 1), f, read, y);
    }
  }

  /** The hole: newer than the oldest candle on screen, not on screen, and out of the window's
      reach.  Landing leaves it. */
  lemma HoleOpens(s: Session, f: Feed, read: nat, y: Candle<int>)
    requires InStep(s, f) && Possible(s, f, WindowCame(read)) && s.chart.hydration.value.buffer == []
    requires s.chart.series.finalized != [] && s.chart.series.finalized[0].startTime < y.startTime
    requires y !in s.chart.series.finalized && y !in WindowAt(f, read).candles
    ensures var t := Land(s, f, read);
      && InStep(t, f) && t.chart.series.finalized != []
      && y !in t.chart.series.finalized && t.chart.series.finalized[0].startTime <= y.startTime
  {
    hide SeriesOf, Merge, WindowAt, Watermark, Follows;
    assert Replayed([], Watermark(WindowAt(f, read))) == [];
    assert Ascending(s.chart.series.finalized) by { FollowsAscends(s, f); }
    LandMerges(s, f, read);
    StepKeeps(s, f, WindowCame(read));
    WindowAscends(f, read);
    var held, w := s.chart.series.finalized, WindowAt(f, read).candles;
    MergeIsUnion(held, w);
    var merged := Merge(held, w).value;
    assert held[0] in merged;
    assert Land(s, f, read).chart.series.finalized == merged;
    assert merged[0].startTime <= held[0].startTime;
  }
}
