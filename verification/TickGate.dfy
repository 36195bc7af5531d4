/** The gate that decides which market ticks count as accepted. */
module TickGate {
  import opened Options

  /** A market tick: `price` is its mid, in the symbol's smallest unit. */
  datatype MarketTick = MarketTick(symbol: string, open: bool, sequence: int, timestampMs: int, price: int)

  datatype Decision = Accepted | Duplicate | OutOfOrder | NotOpen

  datatype Mark = Mark(sequence: int, timestampMs: int)

  function Decide(previous: Option<Mark>, tick: MarketTick): Decision {
    if !tick.open then NotOpen
    else if previous.Some? && tick.sequence == previous.value.sequence then Duplicate
    else if previous.Some?
            && (tick.sequence < previous.value.sequence || tick.timestampMs < previous.value.timestampMs) then
      OutOfOrder
    else Accepted
  }

  function Lookup<V>(m: map<string, V>, key: string): Option<V> {
    if key in m then Some(m[key]) else None
  }

  class MarketTickGate {
    var lastAccepted: map<string, Mark>

    constructor ()
      ensures lastAccepted == map[]
    {
      lastAccepted := map[];
    }

    method Evaluate(tick: MarketTick) returns (d: Decision)
      modifies this
      ensures d == Decide(Lookup(old(lastAccepted), tick.symbol), tick)
      ensures lastAccepted == if d == Accepted
        then old(lastAccepted)[tick.symbol := Mark(tick.sequence, tick.timestampMs)]
        else old(lastAccepted)
    {
      if !tick.open { return NotOpen; }
      if tick.symbol in lastAccepted {
        var previous := lastAccepted[tick.symbol];
        if tick.sequence == previous.sequence { return Duplicate; }
        if tick.sequence < previous.sequence || tick.timestampMs < previous.timestampMs {
          return OutOfOrder;
        }
      }
      lastAccepted := lastAccepted[tick.symbol := Mark(tick.sequence, tick.timestampMs)];
      return Accepted;
    }
  }

  /** The gate's memory after a stream, and the ticks of one symbol it let through. */
  function Memory(raw: seq<MarketTick>): map<string, Mark> {
    if raw == [] then map[] else
      var t := raw[|raw| - 1];
      var m := Memory(raw[..|raw| - 1]);
      if Decide(Lookup(m, t.symbol), t) == Accepted then m[t.symbol := Mark(t.sequence, t.timestampMs)] else m
  }

  function Passed(raw: seq<MarketTick>, symbol: string): seq<MarketTick> {
    if raw == [] then [] else
      var t := raw[|raw| - 1];
      Passed(raw[..|raw| - 1], symbol) +
      (if t.symbol == symbol && Decide(Lookup(Memory(raw[..|raw| - 1]), t.symbol), t) == Accepted then [t] else [])
  }

  ghost predicate InOrder(ts: seq<MarketTick>) {
    forall i, j :: 0 <= i < j < |ts| ==> ts[i].sequence < ts[j].sequence && ts[i].timestampMs <= ts[j].timestampMs
  }

  /** However the raw ticks of all symbols are duplicated, delayed and mixed, the
      ticks let through for one symbol ascend strictly in sequence and never go
      back in time; the memory marks the last of them. */
  lemma {:induction false} GateOrders(raw: seq<MarketTick>, symbol: string)
    ensures InOrder(Passed(raw, symbol))
    ensures var ts := Passed(raw, symbol);
      Lookup(Memory(raw), symbol) ==
        if ts == [] then None else Some(Mark(ts[|ts| - 1].sequence, ts[|ts| - 1].timestampMs))
  {
    hide InOrder;
    if raw == [] {
      NoneInOrder();
    } else {
      var before, t := raw[..|raw| - 1], raw[|raw| - 1];
      GateOrders(before, symbol);
      var ts := Passed(before, symbol);
      AppendInOrder(ts, t);
      assert ts + [] == ts;
    }
  }

  /** The open ticks of a symbol. */
  function OpenTicks(raw: seq<MarketTick>, symbol: string): seq<MarketTick> {
    if raw == [] then [] else
      var t := raw[|raw| - 1];
      OpenTicks(raw[..|raw| - 1], symbol) + (if t.symbol == symbol && t.open then [t] else [])
  }

  /** The gate holds nothing back without cause: it is transparent exactly to streams
      whose open ticks of the symbol are in order already. */
  lemma {:induction false} GateTransparent(raw: seq<MarketTick>, symbol: string)
    ensures Passed(raw, symbol) == OpenTicks(raw, symbol) <==> InOrder(OpenTicks(raw, symbol))
  {
    GateOrders(raw, symbol);
    if InOrder(OpenTicks(raw, symbol)) { AllPass(raw, symbol); }
  }

  lemma {:induction false} AllPass(raw: seq<MarketTick>, symbol: string)
    requires InOrder(OpenTicks(raw, symbol))
    ensures Passed(raw, symbol) == OpenTicks(raw, symbol)
  {
    if raw != [] {
      var before, t := raw[..|raw| - 1], raw[|raw| - 1];
      var ts := OpenTicks(before, symbol);
      assert t.symbol == symbol && t.open ==> OpenTicks(raw, symbol) == ts + [t];
      PrefixInOrder(ts, OpenTicks(raw, symbol));
      AllPass(before, symbol);
      GateOrders(before, symbol);
    }
  }

  lemma PrefixInOrder(a: seq<MarketTick>, b: seq<MarketTick>)
    requires a <= b && InOrder(b)
    ensures InOrder(a)
    ensures |b| == |a| + 1 && a != [] ==>
      a[|a| - 1].sequence < b[|a|].sequence && a[|a| - 1].timestampMs <= b[|a|].timestampMs
  {
    assert forall i :: 0 <= i < |a| ==> a[i] == b[i];
  }

  lemma {:induction false} PassedAreOpen(raw: seq<MarketTick>, symbol: string)
    ensures forall t :: t in Passed(raw, symbol) ==> t in raw && t.symbol == symbol && t.open
  {
    hide Memory, Lookup;
    if raw != [] {
      PassedAreOpen(raw[..|raw| - 1], symbol);
    }
  }

  lemma NoneInOrder()
    ensures InOrder([])
  {
  }

  lemma AppendInOrder(ts: seq<MarketTick>, t: MarketTick)
    requires InOrder(ts)
    ensures ts == [] || (ts[|ts| - 1].sequence < t.sequence && ts[|ts| - 1].timestampMs <= t.timestampMs)
            ==> InOrder(ts + [t])
  {
  }
}
