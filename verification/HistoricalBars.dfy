/** The gate every page of provider bars passes through before it is stored. */
module HistoricalBars {
  import opened Options
  import opened Timeframes
  import opened MarketCandles
  import opened MarketHistory
  import opened Sorting

  /** A number off the wire, which need not be a safe integer. */
  datatype RawNumber = Whole(n: int) | Fraction(r: real) | NotFinite

  datatype Volume = Volume(value: WirePrice, knownSemantics: bool)

  datatype RawBar = RawBar(
    startTime: RawNumber,
    open: WirePrice, high: WirePrice, low: WirePrice, close: WirePrice,
    volume: Option<Volume>)

  datatype Bounds = Bounds(before: Option<int>, after: Option<int>)

  datatype Reason =
    | StartNotNonnegativeInteger
    | StartMisaligned
    | AtOrAfterCursor
    | BeforeLowerBound
    | PriceNotPositiveDecimal
    | HighBelowLowReason
    | HighBelowOpenOrClose
    | LowAboveOpenOrClose
    | VolumeNotDecimal
    | VolumeSemanticsUnknown
    | ConflictingDuplicate

  datatype Rejected = Rejected(startTime: Option<RawNumber>, reason: Reason)

  const MAX_SAFE := 0x1F_FFFF_FFFF_FFFF

  function PositiveDecimal(p: WirePrice): bool {
    p.Decimal? && p.value > 0
  }

  predicate Signed(text: string) {
    text != "" && text[0] == '-'
  }

  /** The pattern of a provider's decimal admits no sign, not even on a zero. */
  predicate UnsignedDecimal(p: WirePrice) {
    p.Decimal? && p.value >= 0 && !Signed(p.text)
  }

  function RejectionReason(bar: RawBar, tf: Timeframe, bounds: Bounds): Option<Reason> {
    if !bar.startTime.Whole? || bar.startTime.n > MAX_SAFE || bar.startTime.n < 0 then Some(StartNotNonnegativeInteger)
    else if !Aligned(bar.startTime.n, tf) then Some(StartMisaligned)
    else if bounds.before.Some? && bar.startTime.n >= bounds.before.value then Some(AtOrAfterCursor)
    else if bounds.after.Some? && bar.startTime.n < bounds.after.value then Some(BeforeLowerBound)
    else if !PositiveDecimal(bar.open) || !PositiveDecimal(bar.high)
            || !PositiveDecimal(bar.low) || !PositiveDecimal(bar.close) then
      Some(PriceNotPositiveDecimal)
    else if bar.high.value < bar.low.value then Some(HighBelowLowReason)
    else if bar.high.value < bar.open.value || bar.high.value < bar.close.value then Some(HighBelowOpenOrClose)
    else if bar.low.value > bar.open.value || bar.low.value > bar.close.value then Some(LowAboveOpenOrClose)
    else if bar.volume.Some? && !UnsignedDecimal(bar.volume.value.value) then
      Some(VolumeNotDecimal)
    else if bar.volume.Some? && !bar.volume.value.knownSemantics then Some(VolumeSemanticsUnknown)
    else None
  }

  /** A bar worth keeping: a safe aligned start within the bounds, positive prices with
      high and low enclosing open and close, and a volume that can be understood. */
  predicate Acceptable(bar: RawBar, tf: Timeframe, bounds: Bounds) {
    && bar.startTime.Whole? && 0 <= bar.startTime.n <= MAX_SAFE && Aligned(bar.startTime.n, tf)
    && (bounds.before.Some? ==> bar.startTime.n < bounds.before.value)
    && (bounds.after.Some? ==> bounds.after.value <= bar.startTime.n)
    && bar.open.Decimal? && bar.high.Decimal? && bar.low.Decimal? && bar.close.Decimal?
    && 0 < bar.low.value <= bar.open.value <= bar.high.value
    && bar.low.value <= bar.close.value <= bar.high.value
    && (bar.volume.Some? ==>
          && bar.volume.value.value.Decimal? && bar.volume.value.value.value >= 0
          && !("-" <= bar.volume.value.value.text) && bar.volume.value.knownSemantics)
  }

  /** The chain of checks lets through exactly the bars worth keeping. */
  lemma NoReasonMeansAcceptable(bar: RawBar, tf: Timeframe, bounds: Bounds)
    ensures RejectionReason(bar, tf, bounds) == None <==> Acceptable(bar, tf, bounds)
  {
    hide Aligned;
  }

  predicate Priced(bar: RawBar) {
    PositiveDecimal(bar.open) && PositiveDecimal(bar.high) && PositiveDecimal(bar.low) && PositiveDecimal(bar.close)
  }

  /** What a reason says of a bar. */
  predicate Applies(r: Reason, bar: RawBar, tf: Timeframe, bounds: Bounds) {
    match r
    case StartNotNonnegativeInteger => !(bar.startTime.Whole? && 0 <= bar.startTime.n <= MAX_SAFE)
    case StartMisaligned => bar.startTime.Whole? && !Aligned(bar.startTime.n, tf)
    case AtOrAfterCursor => bar.startTime.Whole? && bounds.before.Some? && bounds.before.value <= bar.startTime.n
    case BeforeLowerBound => bar.startTime.Whole? && bounds.after.Some? && bar.startTime.n < bounds.after.value
    case PriceNotPositiveDecimal => !Priced(bar)
    case HighBelowLowReason => Priced(bar) && bar.high.value < bar.low.value
    case HighBelowOpenOrClose =>
      Priced(bar) && !(bar.open.value <= bar.high.value && bar.close.value <= bar.high.value)
    case LowAboveOpenOrClose => Priced(bar) && !(bar.low.value <= bar.open.value && bar.low.value <= bar.close.value)
    case VolumeNotDecimal => bar.volume.Some? && !UnsignedDecimal(bar.volume.value.value)
    case VolumeSemanticsUnknown => bar.volume.Some? && !bar.volume.value.knownSemantics
    case ConflictingDuplicate => false
  }

  /** The order in which reasons are looked for. */
  const REASONS := [
    StartNotNonnegativeInteger, StartMisaligned, AtOrAfterCursor, BeforeLowerBound, PriceNotPositiveDecimal,
    HighBelowLowReason, HighBelowOpenOrClose, LowAboveOpenOrClose, VolumeNotDecimal, VolumeSemanticsUnknown]

  /** The reason reported is the first that applies. */
  lemma ReasonExactly(bar: RawBar, tf: Timeframe, bounds: Bounds, k: nat)
    requires k < |REASONS|
    ensures RejectionReason(bar, tf, bounds) == Some(REASONS[k]) <==>
      Applies(REASONS[k], bar, tf, bounds) && forall j :: 0 <= j < k ==> !Applies(REASONS[j], bar, tf, bounds)
  {
    hide Aligned, UnsignedDecimal, PositiveDecimal;
    ReasonsInOrder();
    var found := RejectionReason(bar, tf, bounds);
    if found.Some? {
      assert found.value in REASONS;
      var i :| 0 <= i < |REASONS| && REASONS[i] == found.value;
      assert Applies(REASONS[i], bar, tf, bounds);
    }
  }

  lemma ReasonsInOrder()
    ensures forall r: Reason :: r in REASONS <==> r != ConflictingDuplicate
  {
    assert REASONS[0] == StartNotNonnegativeInteger && REASONS[1] == StartMisaligned && REASONS[2] == AtOrAfterCursor;
    assert REASONS[3] == BeforeLowerBound && REASONS[4] == PriceNotPositiveDecimal && REASONS[5] == HighBelowLowReason;
    assert REASONS[6] == HighBelowOpenOrClose && REASONS[7] == LowAboveOpenOrClose;
    assert REASONS[8] == VolumeNotDecimal && REASONS[9] == VolumeSemanticsUnknown;
  }

  predicate SameOhlc(a: RawBar, b: RawBar) {
    a.open == b.open && a.high == b.high && a.low == b.low && a.close == b.close
  }

  function Reported(bar: RawBar, reason: Reason): Rejected {
    Rejected(if bar.startTime.NotFinite? then None else Some(bar.startTime), reason)
  }

  // ---- What becomes of each bar -----------------------------------------

  datatype Outcome = Accept | Refuse(rejected: Rejected) | Repeat

  /** The earlier acceptable bar for the same start, if there is one: the first. */
  function Earlier(raw: seq<RawBar>, start: RawNumber, tf: Timeframe, bounds: Bounds): Option<RawBar> {
    if raw == [] then None
    else if RejectionReason(raw[0], tf, bounds) == None && raw[0].startTime == start then Some(raw[0])
    else Earlier(raw[1..], start, tf, bounds)
  }

  /** A bar is refused for a reason of its own, or for contradicting the first
      acceptable bar of its bucket; an identical repeat is dropped in silence. */
  function OutcomeOf(before: seq<RawBar>, bar: RawBar, tf: Timeframe, bounds: Bounds): Outcome {
    match RejectionReason(bar, tf, bounds)
    case Some(reason) => Refuse(Reported(bar, reason))
    case None =>
      match Earlier(before, bar.startTime, tf, bounds)
      case None => Accept
      case Some(first) => if SameOhlc(first, bar) then Repeat else Refuse(Reported(bar, ConflictingDuplicate))
  }

  function Prices(bar: RawBar): seq<WirePrice> {
    [bar.open, bar.high, bar.low, bar.close]
  }

  /** A bar is accepted exactly if it is worth keeping and the first such of its bucket, dropped
      in silence exactly if it repeats the prices of that, and refused otherwise, as a
      contradiction if it was worth keeping. */
  lemma OutcomeExactly(before: seq<RawBar>, bar: RawBar, tf: Timeframe, bounds: Bounds)
    ensures var outcome, first := OutcomeOf(before, bar, tf, bounds), Earlier(before, bar.startTime, tf, bounds);
      && (outcome == Accept <==> Acceptable(bar, tf, bounds) && first.None?)
      && (outcome == Repeat <==> Acceptable(bar, tf, bounds) && first.Some? && Prices(first.value) == Prices(bar))
      && (outcome.Refuse? ==> outcome.rejected.startTime
                              == if bar.startTime == NotFinite then None else Some(bar.startTime))
      && (outcome.Refuse? && Acceptable(bar, tf, bounds) ==> outcome.rejected.reason == ConflictingDuplicate)
  {
    hide RejectionReason, Acceptable, Earlier;
    NoReasonMeansAcceptable(bar, tf, bounds);
  }

  /** The accepted bar of each bucket. */
  function Firsts(raw: seq<RawBar>, tf: Timeframe, bounds: Bounds): map<int, RawBar> {
    if raw == [] then map[] else
      var n := |raw| - 1;
      var m := Firsts(raw[..n], tf, bounds);
      if OutcomeOf(raw[..n], raw[n], tf, bounds) == Accept && raw[n].startTime.Whole? then
        m[raw[n].startTime.n := raw[n]]
      else m
  }

  function RefusedOf(raw: seq<RawBar>, tf: Timeframe, bounds: Bounds): seq<Rejected> {
    if raw == [] then [] else
      var n := |raw| - 1;
      var outcome := OutcomeOf(raw[..n], raw[n], tf, bounds);
      RefusedOf(raw[..n], tf, bounds) + (if outcome.Refuse? then [outcome.rejected] else [])
  }

  function RepeatsOf(raw: seq<RawBar>, tf: Timeframe, bounds: Bounds): nat {
    if raw == [] then 0 else
      var n := |raw| - 1;
      RepeatsOf(raw[..n], tf, bounds) + (if OutcomeOf(raw[..n], raw[n], tf, bounds) == Repeat then 1 else 0)
  }

  // ---- The gate ----------------------------------------------------------

  function Normalized(raw: seq<RawBar>, tf: Timeframe, bounds: Bounds): seq<RawBar> {
    SortedValues(Firsts(raw, tf, bounds))
  }

  /** Fills a map with first occurrences and a list with refusals, then sorts. */
  method NormalizeProviderBars(raw: seq<RawBar>, tf: Timeframe, bounds: Bounds)
    returns (bars: seq<RawBar>, rejected: seq<Rejected>)
    ensures bars == Normalized(raw, tf, bounds)
    ensures rejected == RefusedOf(raw, tf, bounds)
    ensures |raw| == |bars| + |rejected| + RepeatsOf(raw, tf, bounds)
  {
    hide RejectionReason, SortedValues, SortedKeys, Earlier, Reported;
    var byStartTime: map<int, RawBar> := map[];
    rejected := [];
    for i := 0 to |raw|
      invariant byStartTime == Firsts(raw[..i], tf, bounds)
      invariant rejected == RefusedOf(raw[..i], tf, bounds)
    {
      var bar := raw[i];
      assert raw[..i + 1][..i] == raw[..i];
      var reason := RejectionReason(bar, tf, bounds);
      if reason.Some? {
        rejected := rejected + [Reported(bar, reason.value)];
        continue;
      }
      AcceptableStart(bar, tf, bounds);
      FirstsAreEarliest(raw[..i], bar.startTime.n, tf, bounds);
      if bar.startTime.n in byStartTime {
        if !SameOhlc(byStartTime[bar.startTime.n], bar) {
          rejected := rejected + [Reported(bar, ConflictingDuplicate)];
        }
        continue;
      }
      byStartTime := byStartTime[bar.startTime.n := bar];
    }
    assert raw[..|raw|] == raw;
    EveryBarAccounted(raw, tf, bounds);
    bars := SortedValues(byStartTime);
  }

  lemma AcceptableStart(bar: RawBar, tf: Timeframe, bounds: Bounds)
    ensures RejectionReason(bar, tf, bounds) == None ==> bar.startTime.Whole?
  {
  }

  lemma {:induction false} EarlierAppend(raw: seq<RawBar>, bar: RawBar, start: RawNumber, tf: Timeframe, bounds: Bounds)
    ensures Earlier(raw + [bar], start, tf, bounds) ==
      if Earlier(raw, start, tf, bounds).Some? then Earlier(raw, start, tf, bounds)
      else if RejectionReason(bar, tf, bounds) == None && bar.startTime == start then Some(bar)
      else None
  {
    hide RejectionReason;
    if raw == [] {
      assert raw + [bar] == [bar] && [bar][1..] == [];
    } else {
      assert (raw + [bar])[1..] == raw[1..] + [bar];
      EarlierAppend(raw[1..], bar, start, tf, bounds);
    }
  }

  /** The map holds, for each start, the first acceptable bar given for it. */
  lemma {:induction false} FirstsAreEarliest(raw: seq<RawBar>, start: int, tf: Timeframe, bounds: Bounds)
    ensures start in Firsts(raw, tf, bounds) <==> Earlier(raw, Whole(start), tf, bounds).Some?
    ensures start in Firsts(raw, tf, bounds) ==>
      Firsts(raw, tf, bounds)[start] == Earlier(raw, Whole(start), tf, bounds).value
  {
    hide RejectionReason;
    if raw != [] {
      var n := |raw| - 1;
      FirstsAreEarliest(raw[..n], start, tf, bounds);
      assert raw == raw[..n] + [raw[n]];
      EarlierAppend(raw[..n], raw[n], Whole(start), tf, bounds);
      AcceptableStart(raw[n], tf, bounds);
    }
  }

  lemma {:induction false} EarlierIsAcceptable(raw: seq<RawBar>, start: RawNumber, tf: Timeframe, bounds: Bounds)
    ensures Earlier(raw, start, tf, bounds).Some? ==>
      var bar := Earlier(raw, start, tf, bounds).value;
      RejectionReason(bar, tf, bounds) == None && bar.startTime == start && bar in raw
  {
    hide RejectionReason;
    if raw != [] { EarlierIsAcceptable(raw[1..], start, tf, bounds); }
  }

  /** It is the first acceptable bar with this start. */
  lemma {:induction false} EarlierIsFirst(raw: seq<RawBar>, start: RawNumber, tf: Timeframe, bounds: Bounds, i: nat)
    requires i < |raw| && raw[i].startTime == start && Acceptable(raw[i], tf, bounds)
    requires forall j :: 0 <= j < i ==> raw[j].startTime != start || !Acceptable(raw[j], tf, bounds)
    ensures Earlier(raw, start, tf, bounds) == Some(raw[i])
  {
    hide RejectionReason, Acceptable;
    NoReasonMeansAcceptable(raw[0], tf, bounds);
    if i > 0 { EarlierIsFirst(raw[1..], start, tf, bounds, i - 1); }
  }

  lemma {:induction false} EveryBarAccounted(raw: seq<RawBar>, tf: Timeframe, bounds: Bounds)
    ensures |raw| == |Firsts(raw, tf, bounds)| + |RefusedOf(raw, tf, bounds)| + RepeatsOf(raw, tf, bounds)
  {
    hide RejectionReason;
    if raw != [] {
      var n := |raw| - 1;
      EveryBarAccounted(raw[..n], tf, bounds);
      AcceptableStart(raw[n], tf, bounds);
      if raw[n].startTime.Whole? { FirstsAreEarliest(raw[..n], raw[n].startTime.n, tf, bounds); }
    }
  }

  // ---- What comes out ----------------------------------------------------

  ghost predicate Canonical(bars: seq<RawBar>, tf: Timeframe, bounds: Bounds) {
    && (forall i :: 0 <= i < |bars| ==> bars[i].startTime.Whole? && RejectionReason(bars[i], tf, bounds) == None)
    && (forall i, j :: 0 <= i < j < |bars| ==> bars[i].startTime.n < bars[j].startTime.n)
  }

  lemma KeysAreStarts(raw: seq<RawBar>, tf: Timeframe, bounds: Bounds)
    ensures var m := Firsts(raw, tf, bounds);
      forall k :: k in m ==> m[k].startTime == Whole(k) && RejectionReason(m[k], tf, bounds) == None && m[k] in raw
  {
    hide RejectionReason, Firsts;
    var m := Firsts(raw, tf, bounds);
    forall k | k in m
      ensures m[k].startTime == Whole(k) && RejectionReason(m[k], tf, bounds) == None && m[k] in raw
    {
      FirstsAreEarliest(raw, k, tf, bounds);
      EarlierIsAcceptable(raw, Whole(k), tf, bounds);
    }
  }

  lemma SortedBars(m: map<int, RawBar>, tf: Timeframe, bounds: Bounds)
    requires forall k :: k in m ==> m[k].startTime == Whole(k) && RejectionReason(m[k], tf, bounds) == None
    ensures Canonical(SortedValues(m), tf, bounds)
  {
    hide RejectionReason, SortedValues, SortedKeys;
    var bars, ks := SortedValues(m), SortedKeys(m.Keys);
    forall i | 0 <= i < |bars|
      ensures i < |ks| && bars[i].startTime == Whole(ks[i]) && RejectionReason(bars[i], tf, bounds) == None
    {
      ValueAt(m, i);
    }
  }

  lemma SortedMembers(m: map<int, RawBar>)
    requires forall k :: k in m ==> m[k].startTime == Whole(k)
    ensures forall b :: b in SortedValues(m) <==> b.startTime.Whole? && b.startTime.n in m && m[b.startTime.n] == b
  {
    hide SortedValues, SortedKeys;
    var bars := SortedValues(m);
    forall b | b in bars
      ensures b.startTime.Whole? && b.startTime.n in m && m[b.startTime.n] == b
    {
      var i :| 0 <= i < |bars| && bars[i] == b;
      ValueAt(m, i);
    }
  }

  lemma InFirsts(raw: seq<RawBar>, b: RawBar, tf: Timeframe, bounds: Bounds)
    ensures var m := Firsts(raw, tf, bounds);
      (b.startTime.Whole? && b.startTime.n in m && m[b.startTime.n] == b)
      <==> b in raw && Earlier(raw, b.startTime, tf, bounds) == Some(b)
  {
    hide RejectionReason, Firsts, Earlier;
    EarlierIsAcceptable(raw, b.startTime, tf, bounds);
    AcceptableStart(b, tf, bounds);
    if b.startTime.Whole? { FirstsAreEarliest(raw, b.startTime.n, tf, bounds); }
  }

  /** The output is canonical: only acceptable bars, aligned and in bounds, in strict
      order of time; and it holds every acceptable bar that came first for its start. */
  lemma OutputIsCanonical(raw: seq<RawBar>, tf: Timeframe, bounds: Bounds)
    ensures Canonical(Normalized(raw, tf, bounds), tf, bounds)
    ensures forall b :: b in Normalized(raw, tf, bounds) <==>
      b in raw && Earlier(raw, b.startTime, tf, bounds) == Some(b)
  {
    hide RejectionReason, Firsts, Earlier, Canonical;
    KeysAreStarts(raw, tf, bounds);
    SortedBars(Firsts(raw, tf, bounds), tf, bounds);
    SortedMembers(Firsts(raw, tf, bounds));
    forall b
      ensures b in Normalized(raw, tf, bounds) <==> b in raw && Earlier(raw, b.startTime, tf, bounds) == Some(b)
    {
      InFirsts(raw, b, tf, bounds);
    }
  }

  lemma {:induction false} EarlierWants(raw: seq<RawBar>, start: RawNumber, tf: Timeframe, bounds: Bounds)
    requires forall i :: 0 <= i < |raw| ==> raw[i].startTime != start
    ensures Earlier(raw, start, tf, bounds) == None
  {
    hide RejectionReason;
    if raw != [] { EarlierWants(raw[1..], start, tf, bounds); }
  }

  lemma AcceptedAlone(before: seq<RawBar>, bar: RawBar, tf: Timeframe, bounds: Bounds)
    requires RejectionReason(bar, tf, bounds) == None && Earlier(before, bar.startTime, tf, bounds) == None
    ensures OutcomeOf(before, bar, tf, bounds) == Accept
  {
    hide RejectionReason, Earlier;
  }

  lemma {:induction false} CanonicalAllAccepted(bars: seq<RawBar>, tf: Timeframe, bounds: Bounds)
    requires Canonical(bars, tf, bounds)
    ensures RefusedOf(bars, tf, bounds) == [] && RepeatsOf(bars, tf, bounds) == 0
    ensures forall i :: 0 <= i < |bars| ==>
      bars[i].startTime.n in Firsts(bars, tf, bounds) && Firsts(bars, tf, bounds)[bars[i].startTime.n] == bars[i]
  {
    hide RejectionReason, SameOhlc, Reported, OutcomeOf, Earlier;
    if bars != [] {
      var n := |bars| - 1;
      var before := bars[..n];
      assert forall i :: 0 <= i < n ==> before[i] == bars[i];
      CanonicalAllAccepted(before, tf, bounds);
      EarlierWants(before, bars[n].startTime, tf, bounds);
      AcceptedAlone(before, bars[n], tf, bounds);
    }
  }

  /** Normalizing what has been normalized changes nothing and refuses nothing. */
  lemma NormalizeAgain(raw: seq<RawBar>, tf: Timeframe, bounds: Bounds)
    ensures var bars := Normalized(raw, tf, bounds);
      Normalized(bars, tf, bounds) == bars && RefusedOf(bars, tf, bounds) == [] && RepeatsOf(bars, tf, bounds) == 0
  {
    hide RejectionReason, Firsts, RefusedOf, RepeatsOf, Canonical;
    var bars := Normalized(raw, tf, bounds);
    OutputIsCanonical(raw, tf, bounds);
    CanonicalAllAccepted(bars, tf, bounds);
    CanonicalIsSorted(bars, tf, bounds);
  }

  function Starts(bars: seq<RawBar>): (starts: seq<int>)
    requires forall i :: 0 <= i < |bars| ==> bars[i].startTime.Whole?
    ensures |starts| == |bars| && forall i :: 0 <= i < |bars| ==> starts[i] == bars[i].startTime.n
  {
    seq(|bars|, i requires 0 <= i < |bars| => bars[i].startTime.n)
  }

  lemma CanonicalIsSorted(bars: seq<RawBar>, tf: Timeframe, bounds: Bounds)
    requires Canonical(bars, tf, bounds)
    ensures Normalized(bars, tf, bounds) == bars
  {
    hide RejectionReason, Firsts, Earlier;
    CanonicalAllAccepted(bars, tf, bounds);
    KeysAreStarts(bars, tf, bounds);
    var m := Firsts(bars, tf, bounds);
    forall k | k in m ensures m[k].startTime == Whole(k) && m[k] in bars {
      assert m[k].startTime == Whole(k);
    }
    StartsAreKeys(bars, m);
    SortedIsSelf(bars, m);
  }

  lemma StartsAreKeys(bars: seq<RawBar>, m: map<int, RawBar>)
    requires forall i :: 0 <= i < |bars| ==>
      bars[i].startTime.Whole? && bars[i].startTime.n in m && m[bars[i].startTime.n] == bars[i]
    requires forall i, j :: 0 <= i < j < |bars| ==> bars[i].startTime.n < bars[j].startTime.n
    requires forall k :: k in m ==> m[k].startTime == Whole(k) && m[k] in bars
    ensures SortedKeys(m.Keys) == Starts(bars)
  {
    hide SortedKeys;
    var ks, starts := SortedKeys(m.Keys), Starts(bars);
    forall i | 0 <= i < |ks| ensures ks[i] in starts {
      var j :| 0 <= j < |bars| && bars[j] == m[ks[i]];
      assert starts[j] == ks[i];
    }
    forall i | 0 <= i < |starts| ensures starts[i] in ks {
      assert bars[i].startTime.n in m.Keys;
    }
    IncreasingUnique(ks, starts);
  }

  lemma SortedIsSelf(bars: seq<RawBar>, m: map<int, RawBar>)
    requires forall i :: 0 <= i < |bars| ==>
      bars[i].startTime.Whole? && bars[i].startTime.n in m && m[bars[i].startTime.n] == bars[i]
    requires SortedKeys(m.Keys) == Starts(bars)
    ensures SortedValues(m) == bars
  {
  }

  function AsWire(bar: RawBar): Candle<WirePrice>
    requires bar.startTime.Whole?
  {
    Candle(bar.startTime.n, bar.open, bar.high, bar.low, bar.close)
  }

  lemma AcceptableIsWellShaped(bar: RawBar, tf: Timeframe, bounds: Bounds, toNumber: int -> real)
    requires RejectionReason(bar, tf, bounds) == None && Monotone(toNumber)
    ensures bar.startTime.Whole? && WellShaped(AsWire(bar), tf, toNumber)
  {
  }

  /** Every bar the gate lets through also passes the history validator's checks. */
  lemma OutputPassesValidator(raw: seq<RawBar>, tf: Timeframe, bounds: Bounds, toNumber: int -> real)
    requires Monotone(toNumber)
    ensures forall b :: b in Normalized(raw, tf, bounds) ==>
      b.startTime.Whole? && WellShaped(AsWire(b), tf, toNumber)
  {
    hide RejectionReason, WellShaped, Normalized;
    OutputIsCanonical(raw, tf, bounds);
    var bars := Normalized(raw, tf, bounds);
    forall b | b in bars
      ensures b.startTime.Whole? && WellShaped(AsWire(b), tf, toNumber)
    {
      var i :| 0 <= i < |bars| && bars[i] == b;
      AcceptableIsWellShaped(b, tf, bounds, toNumber);
    }
  }
}
