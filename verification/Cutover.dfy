/**
 Joining history to live ticks: the browser seeds its series from a window the
 server read after some prefix of the stream, then replays only the buffered
 ticks beyond the window's watermark.  The result is compared with aggregating
 the whole stream without interruption.
 */
module Cutover {
  import opened Options
  import opened Timeframes
  import opened MarketCandles
  import opened MarketHistory
  import opened TickGate
  import opened HistoryStore

  /** The buffered ticks a window does not represent yet. */
  function Replayed(buffer: seq<Tick>, watermark: Option<int>): seq<Tick> {
    if buffer == [] then [] else
      var t := buffer[|buffer| - 1];
      Replayed(buffer[..|buffer| - 1], watermark) +
      (if watermark.None? || t.sequence > watermark.value then [t] else [])
  }

  function Watermark(w: HistoryWindow): Option<int> {
    ReplayAfterSequence(w.currentCandle, w.currentThrough, w.finalizedThrough)
  }

  /** The series after adopting `w` over merged candles and replaying a buffer. */
  function Onto(merged: seq<Candle<int>>, w: HistoryWindow, buffer: seq<Tick>): Series {
    Run(Series(merged, w.currentCandle), Observations(Replayed(buffer, Watermark(w))))
  }

  function OldestStart(cs: seq<Candle<int>>): Option<int> {
    if cs == [] then None else Some(cs[0].startTime)
  }

  /** Where the merged candles of an adopted window begin, unless they conflict. */
  datatype Adoption = Conflicts | Adopts(start: Option<int>)

  /** The browser's chart: its finalized candles and its own aggregator. */
  class ChartSeries {
    const aggregator: CandleAggregator
    var finalized: seq<Candle<int>>

    ghost function Contents(): Series
      reads this, aggregator
    {
      Series(finalized, aggregator.current)
    }

    constructor (timeframe: Timeframe)
      ensures fresh(aggregator) && aggregator.timeframe == timeframe && Contents() == NOTHING
    {
      aggregator := new CandleAggregator(timeframe);
      finalized := [];
    }

    method ApplyTick(tick: MarketTick)
      modifies this, aggregator
      ensures Contents() == Extend(old(Contents()), AsTick(tick, aggregator.timeframe).at)
    {
      hide BucketStart;
      var update := aggregator.ObserveTick(tick.timestampMs, tick.price);
      if update.finalized.Some? {
        finalized := finalized + [update.finalized.value];
      }
    }

    method Reset()
      modifies this, aggregator
      ensures Contents() == NOTHING
    {
      finalized := [];
      aggregator.Reset();
    }

    /** Merges older candles in, unless one on screen contradicts them. */
    method Prepend(older: seq<Candle<int>>) returns (conflict: bool)
      modifies this
      ensures conflict <==> Merge(old(finalized), older).None?
      ensures conflict ==> finalized == old(finalized)
      ensures !conflict ==> finalized == Merge(old(finalized), older).value
    {
      hide Merge;
      var merge := MergeFinalizedCandles(finalized, older);
      if merge.Conflict? {
        ConflictMeansNone(finalized, older, merge.startTime);
        return true;
      }
      finalized := merge.candles;
      return false;
    }

    /** Adopts a window and replays the buffer past its watermark, unless a
        finalized candle on screen contradicts the window. */
    method Hydrate(w: HistoryWindow, buffer: seq<MarketTick>) returns (r: Adoption)
      modifies this, aggregator
      ensures r.Conflicts? <==> Merge(old(finalized), w.candles).None?
      ensures r.Conflicts? ==> Contents() == old(Contents())
      ensures r.Adopts? ==>
        && Contents() == Onto(Merge(old(finalized), w.candles).value, w, AsTicks(buffer, aggregator.timeframe))
        && r.start == OldestStart(Merge(old(finalized), w.candles).value)
    {
      hide BucketStart, Merge, Run, Replayed, AsTicks;
      var merge := MergeFinalizedCandles(finalized, w.candles);
      if merge.Conflict? {
        ConflictMeansNone(old(finalized), w.candles, merge.startTime);
        return Conflicts;
      }
      finalized := merge.candles;
      aggregator.Reset();
      if w.currentCandle.Some? {
        aggregator.Seed(w.currentCandle.value);
      }
      var watermark := Watermark(w);
      ghost var start := Series(merge.candles, w.currentCandle);
      ghost var tf := aggregator.timeframe;
      ReplayNothing(start, watermark, tf);
      assert buffer[..0] == [];
      for i := 0 to |buffer|
        invariant Contents() == Replay(start, buffer[..i], watermark, tf)
      {
        assert buffer[..i + 1] == buffer[..i] + [buffer[i]];
        ReplayOne(start, buffer[..i], buffer[i], watermark, tf);
        if watermark.None? || buffer[i].sequence > watermark.value {
          ApplyTick(buffer[i]);
        }
      }
      assert buffer[..|buffer|] == buffer;
      return Adopts(OldestStart(merge.candles));
    }
  }

  /** Replaying raw ticks past a watermark. */
  function Replay(s: Series, raw: seq<MarketTick>, watermark: Option<int>, tf: Timeframe): Series {
    Run(s, Observations(Replayed(AsTicks(raw, tf), watermark)))
  }

  lemma ReplayNothing(s: Series, watermark: Option<int>, tf: Timeframe)
    ensures Replay(s, [], watermark, tf) == s
  {
  }

  lemma ReplayOne(s: Series, raw: seq<MarketTick>, t: MarketTick, watermark: Option<int>, tf: Timeframe)
    ensures Replay(s, raw + [t], watermark, tf) ==
      if watermark.None? || t.sequence > watermark.value
      then Extend(Replay(s, raw, watermark, tf), AsTick(t, tf).at)
      else Replay(s, raw, watermark, tf)
  {
    hide BucketStart;
    var ts, one := AsTicks(raw, tf), AsTick(t, tf);
    assert AsTicks(raw + [t], tf) == ts + [one];
    assert (ts + [one])[..|ts|] == ts;
    var before := Replayed(ts, watermark);
    assert Observations(before + [one])[..|before|] == Observations(before);
    assert before + [] == before;
  }

  function AsTicks(raw: seq<MarketTick>, tf: Timeframe): (ts: seq<Tick>)
    ensures |ts| == |raw| && forall i :: 0 <= i < |raw| ==> ts[i] == AsTick(raw[i], tf)
  {
    seq(|raw|, i requires 0 <= i < |raw| => AsTick(raw[i], tf))
  }

  lemma ConflictMeansNone(a: seq<Candle<int>>, b: seq<Candle<int>>, startTime: int)
    requires FirstClash(a, b, startTime)
    ensures Merge(a, b).None?
  {
  }

  // ---- The watermark picks the right ticks ------------------------------

  ghost predicate Sequenced(ts: seq<Tick>) {
    forall i, j :: 0 <= i < j < |ts| ==> ts[i].sequence < ts[j].sequence
  }

  lemma {:induction false} ReplayedIsSuffix(ts: seq<Tick>, watermark: int, cut: int)
    requires 0 <= cut <= |ts|
    requires forall i :: 0 <= i < cut ==> ts[i].sequence <= watermark
    requires forall i :: cut <= i < |ts| ==> watermark < ts[i].sequence
    ensures Replayed(ts, Some(watermark)) == ts[cut..]
  {
    if ts != [] {
      var n := |ts| - 1;
      assert Replayed(ts, Some(watermark)) ==
        Replayed(ts[..n], Some(watermark)) + if ts[n].sequence > watermark then [ts[n]] else [];
      hide Replayed;
      if cut == |ts| {
        ReplayedIsSuffix(ts[..n], watermark, n);
      } else {
        ReplayedIsSuffix(ts[..n], watermark, cut);
        assert ts[cut..] == ts[..n][cut..] + [ts[n]];
      }
    }
  }

  lemma {:induction false} ReplayAll(ts: seq<Tick>)
    ensures Replayed(ts, None) == ts
  {
    if ts != [] { ReplayAll(ts[..|ts| - 1]); }
  }

  /** Beyond the last kept tick of `ts[..k]`, in a buffer that starts at `j`. */
  lemma ReplayFrom(ts: seq<Tick>, j: int, p: int)
    requires Sequenced(ts) && 0 <= j <= |ts| && 0 <= p < |ts|
    ensures Replayed(ts[j..], Some(ts[p].sequence)) == if j <= p then ts[p + 1..] else ts[j..]
  {
    var cut := if j <= p then p + 1 - j else 0;
    ReplayedIsSuffix(ts[j..], ts[p].sequence, cut);
    assert ts[j..][cut..] == ts[j + cut..];
  }

  lemma {:induction false} LateTicks(s: Series, ts: seq<Tick>)
    requires s.current.Some?
    requires forall i :: 0 <= i < |ts| ==> ts[i].at.bucket < s.current.value.startTime
    ensures Run(s, Observations(ts)) == s
  {
    if ts != [] {
      var n := |ts| - 1;
      LateTicks(s, ts[..n]);
      assert Observations(ts)[..n] == Observations(ts[..n]);
    }
  }

  lemma {:induction false} AfterLastKept(ts: seq<Tick>)
    requires ts != []
    ensures SeriesOf(ts).current.Some?
    ensures ts[LastKept(ts)].at.bucket == SeriesOf(ts).current.value.startTime
    ensures forall i :: LastKept(ts) < i < |ts| ==> ts[i].at.bucket < SeriesOf(ts).current.value.startTime
  {
    var n := |ts| - 1;
    SeriesStep(ts);
    KeptAgainstLatest(Observations(ts));
    if n > 0 {
      AfterLastKept(ts[..n]);
    }
  }

  // ---- With a current candle --------------------------------------------

  /** What the browser ends up with, starting from an empty chart. */
  function Stitched(w: HistoryWindow, buffer: seq<Tick>): Series {
    Onto(w.candles, w, buffer)
  }

  /** `s` agrees with the uninterrupted `full`: same open candle, and finalized
      candles that are the window's followed by all those closed since. */
  ghost predicate Exact(s: Series, w: HistoryWindow, atRead: Series, full: Series) {
    && s.current == full.current
    && atRead.finalized <= full.finalized
    && s.finalized == w.candles + full.finalized[|atRead.finalized|..]
    && |s.finalized| <= |full.finalized|
    && s.finalized == full.finalized[|full.finalized| - |s.finalized|..]
  }

  lemma FinalizedGrows(a: seq<Tick>, b: seq<Tick>)
    ensures SeriesOf(a).finalized <= SeriesOf(a + b).finalized
    ensures SeriesOf(a + b).finalized[|SeriesOf(a).finalized|..] ==
            Run(Series([], SeriesOf(a).current), Observations(b)).finalized
    ensures SeriesOf(a + b).current == Run(Series([], SeriesOf(a).current), Observations(b)).current
  {
    SeriesAppend(a, b);
    RunFromCurrent(SeriesOf(a), Observations(b));
  }

  lemma LiveEdge(s: StoreState, tf: Timeframe, limit: nat)
    ensures var w := Read(s, tf, limit, None);
      && w.candles == Newest(CandlesOf(s.finalized), limit)
      && w.currentCandle == s.current
      && w.currentThrough == (if s.current.None? then None else s.lastSequence)
  {
  }

  lemma NewestIsSuffix<T>(s: seq<T>, retention: nat, limit: nat)
    ensures var n := Newest(Newest(s, retention), limit); |n| <= |s| && n == s[|s| - |n|..]
  {
  }

  lemma WindowIsNewest(ts: seq<Tick>, tf: Timeframe, retention: nat, limit: nat)
    ensures var w, full := Read(StoreRun(ts, retention), tf, limit, None), SeriesOf(ts);
      && w.candles == Newest(Newest(full.finalized, retention), limit)
      && |w.candles| <= |full.finalized|
      && w.candles == full.finalized[|full.finalized| - |w.candles|..]
      && w.currentCandle == full.current
      && w.currentThrough == (if ts == [] then None else Some(ts[LastKept(ts)].sequence))
  {
    hide Read, LastKept, SeriesOf, StoreRun;
    StoreHolds(ts, retention);
    LiveEdge(StoreRun(ts, retention), tf, limit);
    NewestIsSuffix(SeriesOf(ts).finalized, retention, limit);
  }

  /** Replaying a buffer past the last kept tick of `ts[..k]` is replaying `ts[k..]`. */
  lemma ReplayIsTheRest(ts: seq<Tick>, k: nat, j: nat, seeded: Series)
    requires Sequenced(ts) && j <= k <= |ts| && 0 < k
    requires seeded.current == SeriesOf(ts[..k]).current
    ensures Run(seeded, Observations(Replayed(ts[j..], Some(ts[LastKept(ts[..k])].sequence))))
         == Run(seeded, Observations(ts[k..]))
  {
    hide LastKept, SeriesOf, Run, Replayed;
    PrefixLastKept(ts, k);
    var p := LastKept(ts[..k]);
    ReplayFrom(ts, j, p);
    var from := if j <= p then p + 1 else j;
    LateTicks(seeded, ts[from..k]);
    assert ts[from..] == ts[from..k] + ts[k..];
    RunAppendTicks(seeded, ts[from..k], ts[k..]);
  }

  lemma RunAppendTicks(s: Series, a: seq<Tick>, b: seq<Tick>)
    ensures Run(s, Observations(a + b)) == Run(Run(s, Observations(a)), Observations(b))
  {
    hide Run;
    assert Observations(a + b) == Observations(a) + Observations(b);
    RunAppend(s, Observations(a), Observations(b));
  }

  /** Splitting a stream anywhere and stitching it back gives the uninterrupted
      series: for every split `k`, every buffer that began by then, every page size
      and retention, and whether or not some ticks arrive late. */
  lemma CutoverExact(ts: seq<Tick>, k: nat, j: nat, tf: Timeframe, retention: nat, limit: nat)
    requires Sequenced(ts) && j <= k <= |ts|
    ensures var w := Read(StoreRun(ts[..k], retention), tf, limit, None);
      Exact(Stitched(w, ts[j..]), w, SeriesOf(ts[..k]), SeriesOf(ts))
  {
    hide Read, StoreRun, SeriesOf, LastKept, Run;
    var w := Read(StoreRun(ts[..k], retention), tf, limit, None);
    var seeded := Series(w.candles, w.currentCandle);
    WindowIsNewest(ts[..k], tf, retention, limit);
    assert Stitched(w, ts[j..]) == Run(seeded, Observations(ts[k..])) by {
      if k == 0 {
        EmptyWindow(tf, retention, limit);
        assert ts[..k] == [] && ts[j..] == ts && ts[k..] == ts;
        ReplayAll(ts);
      } else {
        AfterLastKept(ts[..k]);
        ReplayIsTheRest(ts, k, j, seeded);
      }
    }
    assert ts[..k] + ts[k..] == ts;
    FinalizedGrows(ts[..k], ts[k..]);
    RunFromCurrent(seeded, Observations(ts[k..]));
    SuffixPlusRest(SeriesOf(ts[..k]).finalized, SeriesOf(ts).finalized, w.candles);
  }

  lemma SuffixPlusRest<T>(start: seq<T>, full: seq<T>, suffix: seq<T>)
    requires start <= full && |suffix| <= |start| && suffix == start[|start| - |suffix|..]
    ensures var s := suffix + full[|start|..]; |s| <= |full| && s == full[|full| - |s|..]
  {
  }

  lemma EmptyWindow(tf: Timeframe, retention: nat, limit: nat)
    ensures var w := Read(StoreRun([], retention), tf, limit, None);
      && w.finalizedThrough == None && w.candles == [] && w.currentCandle == None
      && !w.hasMore && w.nextCursor == None
  {
  }

  // ---- With only the finalized watermark --------------------------------

  /** The index of the tick that opened the bucket now open. */
  function Opening(ts: seq<Tick>): (m: nat)
    requires ts != []
    ensures m < |ts|
  {
    var n := |ts| - 1;
    var before := SeriesOf(ts[..n]).current;
    if n == 0 || before.None? || ts[n].at.bucket > before.value.startTime then n else Opening(ts[..n])
  }

  /** Around the opening tick: nothing has been finalized since, and if anything
      was finalized before, the newest is the candle that tick closed, with the
      sequence of the last tick kept before it. */
  lemma {:induction false} AroundOpening(ts: seq<Tick>, retention: nat)
    requires ts != [] && 0 < retention
    ensures var m, s := Opening(ts), StoreRun(ts, retention);
      && SeriesOf(ts).finalized == SeriesOf(ts[..m + 1]).finalized
      && (m == 0 ==> SeriesOf(ts).finalized == [])
      && (0 < m ==>
            && SeriesOf(ts[..m]).current.Some? && SeriesOf(ts[..m]).current.value.startTime < ts[m].at.bucket
            && SeriesOf(ts).finalized == SeriesOf(ts[..m]).finalized + [SeriesOf(ts[..m]).current.value]
            && s.finalized != []
            && s.finalized[|s.finalized| - 1].lastSequence == ts[LastKept(ts[..m])].sequence)
  {
    hide SeriesOf, Store, LastKept, Extend, Newest;
    var n := |ts| - 1;
    var before := ts[..n];
    StoreHolds(before, retention);
    SeriesStep(ts);
    StoreCloses(StoreRun(before, retention), ts[n], retention);
    ExtendCloses(SeriesOf(before), ts[n].at);
    if Opening(ts) == n {
      assert ts[..n + 1] == ts;
      if n == 0 { NothingYet(before); }
    } else {
      AroundOpening(before, retention);
      var m := Opening(before);
      assert before[..m] == ts[..m] && before[..m + 1] == ts[..m + 1];
    }
  }

  lemma NothingYet(ts: seq<Tick>)
    requires ts == []
    ensures SeriesOf(ts) == NOTHING
  {
  }

  lemma StoreCloses(s: StoreState, t: Tick, retention: nat)
    requires 0 < retention && (s.current.Some? ==> s.lastSequence.Some?)
    ensures var fs := Store(s, t, retention).finalized;
      if s.current.Some? && s.current.value.startTime < t.at.bucket
      then fs != [] && fs[|fs| - 1].lastSequence == s.lastSequence.value
      else fs == s.finalized
  {
  }

  lemma ExtendCloses(s: Series, o: Observation)
    ensures Extend(s, o).finalized ==
      if s.current.Some? && s.current.value.startTime < o.bucket
      then s.finalized + [s.current.value] else s.finalized
  {
  }

  /** A window stripped of its current candle. */
  function FinalizedOnly(w: HistoryWindow): HistoryWindow {
    w.(currentCandle := None, currentThrough := None)
  }

  /** When the window names only its finalized candles, the replay must reach back
      to the watermark tick `q`, and stitching is exact if and only if the very next
      tick falls in a later bucket, that is, it is not a late one. */
  lemma CutoverFromFinalized(ts: seq<Tick>, k: nat, j: nat, tf: Timeframe, retention: nat, limit: nat, q: nat)
    requires Sequenced(ts) && k <= |ts| && 0 < retention && 0 < limit
    requires var w := Read(StoreRun(ts[..k], retention), tf, limit, None);
      w.candles != [] && q < |ts| && Some(ts[q].sequence) == w.finalizedThrough
    requires j <= q + 1
    ensures q + 1 < k
    ensures var w := Read(StoreRun(ts[..k], retention), tf, limit, None);
      Exact(Stitched(FinalizedOnly(w), ts[j..]), w, SeriesOf(ts[..k]), SeriesOf(ts))
      <==> w.candles[|w.candles| - 1].startTime < ts[q + 1].at.bucket
  {
    hide Read, StoreRun, SeriesOf, LastKept, Run, Opening, Stitched, Exact;
    var w := Read(StoreRun(ts[..k], retention), tf, limit, None);
    WindowIsNewest(ts[..k], tf, retention, limit);
    var m := WatermarkTick(ts, k, tf, retention, limit, q);
    ReplayPastWatermark(ts, j, q, w);
    if q + 1 == m {
      ResumesAtOpening(ts, k, m, w);
    } else {
      LateTickSplits(ts, k, m, q, w);
    }
  }

  /** It does happen that the next tick is late: of three ticks the second falls behind
      the first, the third closes the first one's candle, and the watermark names the
      first tick. */
  lemma LateTickHappens()
    ensures var ts := [Tick(1, Observation(60, 7)), Tick(2, Observation(0, 8)), Tick(3, Observation(120, 9))];
      var w := Read(StoreRun(ts, 1), M1, 1, None);
      && w.candles != [] && w.finalizedThrough == Some(ts[0].sequence)
      && ts[1].at.bucket < w.candles[|w.candles| - 1].startTime
      && !Exact(Stitched(FinalizedOnly(w), ts), w, SeriesOf(ts), SeriesOf(ts))
  {
    hide SeriesOf, Exact, Stitched, BucketEnd;
    var ts := [Tick(1, Observation(60, 7)), Tick(2, Observation(0, 8)), Tick(3, Observation(120, 9))];
    assert ts[..2] == [ts[0], ts[1]] && [ts[0], ts[1]][..1] == [ts[0]] && [ts[0]][..0] == [];
    var first := Candle(60, 7, 7, 7, 7);
    assert StoreOn(EMPTY, [], 1) == EMPTY;
    assert StoreRun([ts[0]], 1) == StoreState([], Some(first), Some(1), Some(1), 0);
    assert StoreRun([ts[0], ts[1]], 1) == StoreState([], Some(first), Some(1), Some(1), 1);
    assert StoreRun(ts, 1).finalized == [Stored(first, 1, 1)];
    assert ts[..3] == ts && ts[0..] == ts;
    CutoverFromFinalized(ts, 3, 0, M1, 1, 1, 0);
  }

  lemma ReplayPastWatermark(ts: seq<Tick>, j: nat, q: nat, w: HistoryWindow)
    requires Sequenced(ts) && q < |ts| && j <= q + 1 && Some(ts[q].sequence) == w.finalizedThrough
    ensures Stitched(FinalizedOnly(w), ts[j..]) == Run(Series(w.candles, None), Observations(ts[q + 1..]))
  {
    hide Run, Replayed;
    ReplayFrom(ts, j, q);
  }

  /** Where the window's watermark tick lies: the last kept before the opening `m`. */
  lemma WatermarkTick(ts: seq<Tick>, k: nat, tf: Timeframe, retention: nat, limit: nat, q: nat)
    returns (m: nat)
    requires Sequenced(ts) && k <= |ts| && 0 < retention && 0 < limit
    requires var w := Read(StoreRun(ts[..k], retention), tf, limit, None);
      w.candles != [] && q < |ts| && Some(ts[q].sequence) == w.finalizedThrough
    ensures q < m < k
    ensures SeriesOf(ts[..k]).finalized == SeriesOf(ts[..m + 1]).finalized
    ensures SeriesOf(ts[..m]).current.Some? && SeriesOf(ts[..m]).current.value.startTime < ts[m].at.bucket
    ensures var w := Read(StoreRun(ts[..k], retention), tf, limit, None);
      w.candles[|w.candles| - 1] == SeriesOf(ts[..m]).current.value
    ensures ts[q].at.bucket == SeriesOf(ts[..m]).current.value.startTime
    ensures forall i :: q < i < m ==> ts[i].at.bucket < SeriesOf(ts[..m]).current.value.startTime
  {
    hide Read, StoreRun, SeriesOf, LastKept, Run, Opening;
    WindowIsNewest(ts[..k], tf, retention, limit);
    WindowNeedsTicks(ts, k, tf, retention, limit);
    m := Opening(ts[..k]);
    AroundOpening(ts[..k], retention);
    assert ts[..k][..m] == ts[..m] && ts[..k][..m + 1] == ts[..m + 1];
    NewestThrough(StoreRun(ts[..k], retention), tf, limit);
    PrefixLastKept(ts, m);
    SameSequence(ts, q, LastKept(ts[..m]));
  }

  lemma WindowNeedsTicks(ts: seq<Tick>, k: nat, tf: Timeframe, retention: nat, limit: nat)
    requires k <= |ts|
    ensures Read(StoreRun(ts[..k], retention), tf, limit, None).candles != [] ==> k > 0
  {
  }

  lemma PrefixLastKept(ts: seq<Tick>, m: nat)
    requires 0 < m <= |ts|
    ensures var p, current := LastKept(ts[..m]), SeriesOf(ts[..m]).current;
      && p < m && current.Some? && ts[p].at.bucket == current.value.startTime
      && forall i :: p < i < m ==> ts[i].at.bucket < current.value.startTime
  {
    hide LastKept, SeriesOf;
    AfterLastKept(ts[..m]);
    assert forall i :: 0 <= i < m ==> ts[..m][i] == ts[i];
  }

  lemma NewestThrough(s: StoreState, tf: Timeframe, limit: nat)
    requires 0 < limit
    ensures var w := Read(s, tf, limit, None);
      s.finalized != [] ==>
        && w.finalizedThrough == Some(s.finalized[|s.finalized| - 1].lastSequence)
        && w.candles != [] && w.candles[|w.candles| - 1] == s.finalized[|s.finalized| - 1].candle
  {
    hide BucketEnd;
  }

  lemma SameSequence(ts: seq<Tick>, a: int, b: int)
    requires Sequenced(ts) && 0 <= a < |ts| && 0 <= b < |ts| && ts[a].sequence == ts[b].sequence
    ensures a == b
  {
  }

  /** The replay begins with the tick that opens the next bucket. */
  lemma ResumesAtOpening(ts: seq<Tick>, k: nat, m: nat, w: HistoryWindow)
    requires 0 < m < k <= |ts|
    requires SeriesOf(ts[..k]).finalized == SeriesOf(ts[..m + 1]).finalized
    requires SeriesOf(ts[..m]).current.Some? && SeriesOf(ts[..m]).current.value.startTime < ts[m].at.bucket
    requires |w.candles| <= |SeriesOf(ts[..k]).finalized|
    requires w.candles == SeriesOf(ts[..k]).finalized[|SeriesOf(ts[..k]).finalized| - |w.candles|..]
    ensures Exact(Run(Series(w.candles, None), Observations(ts[m..])), w, SeriesOf(ts[..k]), SeriesOf(ts))
  {
    hide SeriesOf, Run;
    var first := [ts[m]];
    assert ts[m..] == first + ts[m + 1..];
    RunAppendTicks(Series(w.candles, None), first, ts[m + 1..]);
    OneTick(Series(w.candles, None), first);
    assert ts[..m + 1][..m] == ts[..m];
    SeriesStep(ts[..m + 1]);
    var seeded := Extend(Series(w.candles, None), ts[m].at);
    RunFromCurrent(seeded, Observations(ts[m + 1..]));
    assert ts[..m + 1] + ts[m + 1..] == ts;
    FinalizedGrows(ts[..m + 1], ts[m + 1..]);
    SuffixPlusRest(SeriesOf(ts[..k]).finalized, SeriesOf(ts).finalized, w.candles);
  }

  lemma OneTick(s: Series, one: seq<Tick>)
    requires |one| == 1
    ensures Run(s, Observations(one)) == Extend(s, one[0].at)
  {
  }

  /** The replay begins with a late tick, whose bucket then becomes a candle of its
      own, out of order behind the window. */
  lemma LateTickSplits(ts: seq<Tick>, k: nat, m: nat, q: nat, w: HistoryWindow)
    requires q + 1 < m < k <= |ts|
    requires w.candles != [] && ts[q + 1].at.bucket < w.candles[|w.candles| - 1].startTime
    requires ts[q + 1].at.bucket < ts[m].at.bucket
    ensures !Exact(Run(Series(w.candles, None), Observations(ts[q + 1..])), w, SeriesOf(ts[..k]), SeriesOf(ts))
  {
    hide SeriesOf, Run;
    var rest := Observations(ts[q + 1..]);
    var seeded := Series(w.candles, None);
    var result := Run(seeded, rest);
    RunFromCurrent(seeded, rest);
    FirstOpens(rest);
    CurrentIsLatest(rest);
    assert rest[m - q - 1] == ts[m].at;
    var own := Run(NOTHING, rest);
    assert own.finalized != [] && own.finalized[0].startTime == ts[q + 1].at.bucket;
    assert result.finalized == w.candles + own.finalized;
    var n := |w.candles|;
    assert result.finalized[n - 1].startTime > result.finalized[n].startTime;
    ExactAscends(result, w, SeriesOf(ts[..k]), ts);
  }

  lemma ExactAscends(s: Series, w: HistoryWindow, atRead: Series, ts: seq<Tick>)
    ensures Exact(s, w, atRead, SeriesOf(ts)) ==> Ascending(s.finalized)
  {
    hide SeriesOf;
    ShapeOfSeries(ts);
    var full := SeriesOf(ts).finalized;
    assert forall i :: 0 <= i < |full| ==> Candles(SeriesOf(ts))[i] == full[i];
  }

  lemma ShapeOfSeries(ts: seq<Tick>)
    ensures Ascending(Candles(SeriesOf(ts)))
  {
    RunShape(Observations(ts));
  }

  lemma {:induction false} FirstOpens(os: seq<Observation>)
    requires os != []
    ensures Candles(Run(NOTHING, os)) != [] && Candles(Run(NOTHING, os))[0].startTime == os[0].bucket
  {
    if |os| > 1 {
      FirstOpens(os[..|os| - 1]);
      CurrentIsLatest(os[..|os| - 1]);
    } else {
      assert os[..0] == [];
    }
  }

  // ---- Behind the gate --------------------------------------------------

  /** The ticks of one symbol that the gate accepted, placed in buckets. */
  function Gated(raw: seq<MarketTick>, symbol: string, tf: Timeframe): seq<Tick> {
    AsTicks(Passed(raw, symbol), tf)
  }

  lemma GatedInOrder(raw: seq<MarketTick>, symbol: string, tf: Timeframe)
    ensures var ts := Gated(raw, symbol, tf);
      Sequenced(ts) && forall i, j :: 0 <= i < j < |ts| ==> ts[i].at.bucket <= ts[j].at.bucket
  {
    hide BucketStart;
    GateOrders(raw, symbol);
    var passed := Passed(raw, symbol);
    forall i, j | 0 <= i < j < |passed|
      ensures BucketStartMs(passed[i].timestampMs, tf) <= BucketStartMs(passed[j].timestampMs, tf)
    {
      BucketsAscend(passed[i].timestampMs / 1000, passed[j].timestampMs / 1000, tf);
    }
  }

  /** On the accepted stream both cutovers are exact, with the current candle and
      with the finalized watermark alone. */
  lemma GatedCutoverExact(raw: seq<MarketTick>, symbol: string, k: nat, j: nat, tf: Timeframe,
                          retention: nat, limit: nat)
    requires j <= k <= |Gated(raw, symbol, tf)| && 0 < retention && 0 < limit
    ensures var ts := Gated(raw, symbol, tf);
      var w := Read(StoreRun(ts[..k], retention), tf, limit, None);
      && Exact(Stitched(w, ts[j..]), w, SeriesOf(ts[..k]), SeriesOf(ts))
      && (w.candles != [] ==>
            forall i :: 0 <= i <= j && BufferReaches(ts, i, w.finalizedThrough)
              ==> Exact(Stitched(FinalizedOnly(w), ts[i..]), w, SeriesOf(ts[..k]), SeriesOf(ts)))
  {
    hide Read, StoreRun, SeriesOf, LastKept, Run, Opening, Gated, Exact, Stitched;
    var ts := Gated(raw, symbol, tf);
    var w := Read(StoreRun(ts[..k], retention), tf, limit, None);
    GatedInOrder(raw, symbol, tf);
    CutoverExact(ts, k, j, tf, retention, limit);
    if w.candles != [] {
      forall i | 0 <= i <= j && BufferReaches(ts, i, w.finalizedThrough)
        ensures Exact(Stitched(FinalizedOnly(w), ts[i..]), w, SeriesOf(ts[..k]), SeriesOf(ts))
      {
        var q :| 0 <= q < |ts| && i <= q + 1 && Some(ts[q].sequence) == w.finalizedThrough;
        CutoverFromFinalized(ts, k, i, tf, retention, limit, q);
        NextIsLater(ts, k, tf, retention, limit, q);
      }
    }
  }

  /** The buffer holds everything after the tick the watermark names. */
  ghost predicate BufferReaches(ts: seq<Tick>, i: int, watermark: Option<int>) {
    exists q :: 0 <= q < |ts| && i <= q + 1 && Some(ts[q].sequence) == watermark
  }

  /** In a stream that never goes back, the tick after the watermark is not late. */
  lemma NextIsLater(ts: seq<Tick>, k: nat, tf: Timeframe, retention: nat, limit: nat, q: nat)
    requires Sequenced(ts) && k <= |ts| && 0 < retention && 0 < limit
    requires forall i, j :: 0 <= i < j < |ts| ==> ts[i].at.bucket <= ts[j].at.bucket
    requires var w := Read(StoreRun(ts[..k], retention), tf, limit, None);
      w.candles != [] && q + 1 < k && Some(ts[q].sequence) == w.finalizedThrough
    ensures var w := Read(StoreRun(ts[..k], retention), tf, limit, None);
      w.candles[|w.candles| - 1].startTime < ts[q + 1].at.bucket
  {
    hide Read, StoreRun, SeriesOf, LastKept, Run, Opening;
    var m := WatermarkTick(ts, k, tf, retention, limit, q);
    assert ts[q].at.bucket <= ts[q + 1].at.bucket;
  }
}
