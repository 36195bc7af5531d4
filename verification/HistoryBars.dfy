/** What the store publishes about its bars, and a store that starts again from it. */
module HistoryBars {
  import opened Options
  import opened MarketCandles
  import opened HistoryStore
  import opened Cutover

  /** The tick is behind the open bucket. */
  predicate IsLate(ts: seq<Tick>) {
    ts != [] && var open := SeriesOf(ts[..|ts| - 1]).current;
      open.Some? && ts[|ts| - 1].at.bucket < open.value.startTime
  }

  /** The open bar after these ticks: the candle of the whole stream, from the tick that opened
      its bucket through the last that was not late. */
  function OpenBar(ts: seq<Tick>): BarUpdate
    requires ts != [] && SeriesOf(ts).current.Some?
  {
    BarUpdate(SeriesOf(ts).current.value, false, Some(ts[Opening(ts)].sequence), Some(ts[LastKept(ts)].sequence))
  }

  lemma {:induction false} FirstIsOpening(ts: seq<Tick>, retention: nat)
    requires ts != []
    ensures StoreRun(ts, retention).firstSequence == Some(ts[Opening(ts)].sequence)
  {
    hide SeriesOf, Newest, Extend;
    var n := |ts| - 1;
    StoreHolds(ts[..n], retention);
    if n > 0 { FirstIsOpening(ts[..n], retention); }
  }

  lemma HasCurrent(ts: seq<Tick>)
    requires ts != []
    ensures SeriesOf(ts).current.Some?
  {
    hide SeriesOf;
    AfterLastKept(ts);
  }

  /** A late tick publishes nothing.  Any other ends its updates with the open bar, and if it
      closed a bucket they begin with that bucket's bar, final, as it last was open; the
      store keeps it with the same sequences. */
  lemma UpdatesExactly(ts: seq<Tick>, retention: nat)
    requires ts != [] && SeriesOf(ts).current.Some?
    ensures var n := |ts| - 1;
      var before, us := ts[..n], Updates(StoreRun(ts[..n], retention), ts[n]);
      && (IsLate(ts) ==> us == [])
      && (!IsLate(ts) ==> us != [] && us[|us| - 1] == OpenBar(ts) && LastKept(ts) == n)
      && (!IsLate(ts) && Closed(ts) ==>
            && SeriesOf(before).current.Some? && us == [OpenBar(before).(final := true), OpenBar(ts)]
            && SeriesOf(ts).finalized == SeriesOf(before).finalized + [OpenBar(before).candle])
      && (!IsLate(ts) && !Closed(ts) ==> us == [OpenBar(ts)] && SeriesOf(ts).finalized == SeriesOf(before).finalized)
  {
    hide SeriesOf, LastKept, Newest;
    var n := |ts| - 1;
    var before := ts[..n];
    StoreHolds(before, retention);
    StoreHolds(ts, retention);
    FirstIsOpening(ts, retention);
    SeriesStep(ts);
    LastKeptStep(ts);
    if n > 0 { FirstIsOpening(before, retention); }
  }

  /** The last tick closed the bucket that was open before it. */
  predicate Closed(ts: seq<Tick>)
    requires ts != []
  {
    var open := SeriesOf(ts[..|ts| - 1]).current;
    open.Some? && open.value.startTime < ts[|ts| - 1].at.bucket
  }

  /** What has been published last over a stream is the bar that is open now. */
  lemma {:induction false} LastPublished(ts: seq<Tick>, retention: nat)
    requires ts != [] && SeriesOf(ts).current.Some?
    ensures var us := PublishedOver(ts, retention); us != [] && us[|us| - 1] == OpenBar(ts)
  {
    hide SeriesOf, LastKept, Updates, Opening;
    var n := |ts| - 1;
    UpdatesExactly(ts, retention);
    if n == 0 { NoTicks(retention); }
    if IsLate(ts) {
      HasCurrent(ts[..n]);
      LastPublished(ts[..n], retention);
      LateKeepsBar(ts);
    }
  }

  lemma LateKeepsBar(ts: seq<Tick>)
    requires |ts| > 1 && IsLate(ts) && SeriesOf(ts).current.Some? && SeriesOf(ts[..|ts| - 1]).current.Some?
    ensures OpenBar(ts) == OpenBar(ts[..|ts| - 1])
  {
    hide SeriesOf, LastKept;
    SeriesStep(ts);
    LastKeptStep(ts);
  }

  /** All that a store's next step and its updates depend on, but for what it keeps. */
  predicate SameBar(a: StoreState, b: StoreState) {
    a.current == b.current && a.firstSequence == b.firstSequence && a.lastSequence == b.lastSequence
  }

  lemma SameStep(a: StoreState, b: StoreState, t: Tick, one: nat, other: nat)
    requires SameBar(a, b)
    ensures SameBar(Store(a, t, one), Store(b, t, other)) && Updates(a, t) == Updates(b, t)
  {
    hide Newest;
  }

  lemma SeededSame(ts: seq<Tick>, retention: nat)
    requires ts != []
    ensures var us := PublishedOver(ts, retention);
      us != [] && SameBar(Seeded(EMPTY, us[|us| - 1]), StoreRun(ts, retention))
  {
    hide SeriesOf, LastKept, Opening, PublishedOver;
    HasCurrent(ts);
    LastPublished(ts, retention);
    StoreHolds(ts, retention);
    FirstIsOpening(ts, retention);
  }

  /** A store that starts again from the last bar published, with whatever retention, publishes
      from there on exactly what the store that was not interrupted would have. */
  lemma {:induction false} RestartPublishesOn(ts: seq<Tick>, k: nat, before: nat, after: nat)
    requires 0 < k <= |ts|
    ensures var us := PublishedOver(ts[..k], before);
      && us != []
      && var seeded := Seeded(EMPTY, us[|us| - 1]);
         && SameBar(StoreOn(seeded, ts[k..], after), StoreRun(ts, before))
         && PublishedOver(ts, before) == us + PublishedOn(seeded, ts[k..], after)
    decreases |ts|
  {
    hide Store, Updates, SameBar;
    SeededSame(ts[..k], before);
    var us := PublishedOver(ts[..k], before);
    var seeded, n := Seeded(EMPTY, us[|us| - 1]), |ts| - 1;
    if k == |ts| {
      assert ts[..k] == ts && ts[k..] == [];
      assert us + [] == us;
    } else {
      assert ts[..n][..k] == ts[..k] && ts[..n][k..] == ts[k..][..n - k];
      RestartPublishesOn(ts[..n], k, before, after);
      SameStep(StoreOn(seeded, ts[..n][k..], after), StoreRun(ts[..n], before), ts[n], after, before);
    }
  }

  /** A store that starts again from the last bar published over a prefix, and is fed the rest,
      ends with the open candle and the last sequence of the whole stream. */
  lemma RestartHolds(ts: seq<Tick>, k: nat, before: nat, after: nat)
    requires 0 < k <= |ts|
    ensures var us := PublishedOver(ts[..k], before);
      && us != []
      && var s := StoreOn(Seeded(EMPTY, us[|us| - 1]), ts[k..], after);
         && s.current == SeriesOf(ts).current
         && s.lastSequence == Some(ts[LastKept(ts)].sequence)
         && SeriesOf(ts).finalized ==
            SeriesOf(ts[..k]).finalized + Finals(PublishedOn(Seeded(EMPTY, us[|us| - 1]), ts[k..], after))
  {
    hide SeriesOf, LastKept, Store, PublishedOn, Finals;
    HasCurrent(ts[..k]);
    LastPublished(ts[..k], before);
    var us := PublishedOver(ts[..k], before);
    var bar := us[|us| - 1];
    SeededStoreHolds(ts, k, bar, after);
    SeededFinals(ts, k, bar, after);
    if LastKept(ts) < k { KeptInPrefix(ts, k); }
  }

  lemma {:induction false} KeptInPrefix(ts: seq<Tick>, k: nat)
    requires 0 < k <= |ts| && LastKept(ts) < k
    ensures LastKept(ts[..k]) == LastKept(ts)
    decreases |ts|
  {
    hide SeriesOf;
    if k < |ts| {
      var n := |ts| - 1;
      assert ts[..n][..k] == ts[..k];
      KeptInPrefix(ts[..n], k);
    } else {
      assert ts[..k] == ts;
    }
  }

  function CountLate(ts: seq<Tick>): nat {
    if ts == [] then 0 else CountLate(ts[..|ts| - 1]) + (if IsLate(ts) then 1 else 0)
  }

  /** The store counts exactly the late ticks, and keeps each closed candle with the first and
      the last sequence of its bucket. */
  lemma {:induction false} StoredExactly(ts: seq<Tick>, retention: nat)
    requires 0 < retention
    ensures var s := StoreRun(ts, retention);
      && s.staleObservations == CountLate(ts)
      && (ts != [] && !IsLate(ts) && Closed(ts) && SeriesOf(ts[..|ts| - 1]).current.Some? ==>
            var bar := OpenBar(ts[..|ts| - 1]);
            s.finalized != []
            && s.finalized[|s.finalized| - 1] == Stored(bar.candle, bar.first.value, bar.through.value))
  {
    hide SeriesOf, LastKept;
    if ts != [] {
      var n := |ts| - 1;
      StoredExactly(ts[..n], retention);
      StoreHolds(ts[..n], retention);
      if n > 0 { FirstIsOpening(ts[..n], retention); }
    }
  }
}
