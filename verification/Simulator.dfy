/**
 The seeded market simulator: one random walk per symbol, paused and resumed one by
 one, and the prices quoted around it.

 Prices are reals in points, a point being one unit of the symbol's last decimal.
 The generator works on 32-bit words; a draw `u` stands for the number u / 2^32.
 Instants are milliseconds and come from the caller.
 */
module Simulator {
  import opened Decimals

  type Symbol = string

  const WORD := 0x1_0000_0000

  // ---- The generator -----------------------------------------------------

  function Mix(h: bv32, c: char): bv32 {
    h * 31 + (c as int as bv32)
  }

  function HashSymbol(seed: bv32, symbol: Symbol): bv32 {
    if symbol == "" then seed else Mix(HashSymbol(seed, symbol[..|symbol| - 1]), symbol[|symbol| - 1])
  }

  function Unsigned(word: bv32): (n: int)
    ensures 0 <= n < WORD
  {
    word as int
  }

  /** One draw: the generator's next state and the word drawn. */
  function Draw(state: bv32): (bv32, bv32) {
    var next := state + 0x6d2b79f5;
    (next, Scrambled(next))
  }

  function Scrambled(next: bv32): bv32 {
    var t := (next ^ (next >> 15)) * (1 | next);
    var u := (t + (t ^ (t >> 7)) * (61 | t)) ^ t;
    u ^ (u >> 14)
  }

  method HashSymbolToSeed(seed: bv32, symbol: Symbol) returns (h: bv32)
    ensures h == HashSymbol(seed, symbol)
  {
    hide Mix;
    h := seed;
    assert symbol[..|symbol|] == symbol;
    for i := 0 to |symbol|
      invariant h == HashSymbol(seed, symbol[..i])
    {
      assert symbol[..i + 1][..i] == symbol[..i];
      h := Mix(h, symbol[i]);
    }
  }

  /** A generator is an object of its own, advanced by every draw. */
  class Generator {
    var state: bv32

    constructor (seed: bv32)
      ensures state == seed
    {
      state := seed;
    }

    method Next() returns (word: bv32)
      modifies this
      ensures (state, word) == Draw(old(state))
    {
      hide Scrambled;
      state := state + 0x6d2b79f5;
      return Scrambled(state);
    }
  }

  // ---- One symbol --------------------------------------------------------

  datatype Config = Config(basePrice: real, spreadPoints: real, staleThreshold: int)

  /** What the walk of a symbol depends on. */
  datatype Walker = Walker(mid: real, sequence: nat, rng: bv32)

  datatype SymbolState = SymbolState(walker: Walker, paused: bool, lastTimestamp: int)

  function Direction(draw: int): int {
    if 2 * draw < WORD then -1 else 1
  }

  function Magnitude(draw: int): int {
    draw * 8 / WORD + 1
  }

  /** One step of the walk. */
  function Stride(w: Walker): Walker {
    var (afterDirection, first) := Draw(w.rng);
    var (afterMagnitude, second) := Draw(afterDirection);
    var moved := w.mid + (Magnitude(Unsigned(second)) * Direction(Unsigned(first))) as real;
    Walker(if moved > 1.0 then moved else 1.0, w.sequence + 1, afterMagnitude)
  }

  function Walk(w: Walker, steps: nat): Walker {
    if steps == 0 then w else Stride(Walk(w, steps - 1))
  }

  function Start(seed: bv32, symbol: Symbol, config: Config): Walker {
    Walker(config.basePrice, 0, HashSymbol(seed, symbol))
  }

  lemma StartIs(seed: bv32, symbol: Symbol, config: Config)
    ensures Start(seed, symbol, config) == Walker(config.basePrice, 0, HashSymbol(seed, symbol))
  {
  }

  lemma StrideBounds(w: Walker)
    ensures Stride(w).mid >= 1.0 && Stride(w).sequence == w.sequence + 1
    ensures w.mid >= 1.0 ==> w.mid - 8.0 <= Stride(w).mid <= w.mid + 8.0
    ensures OnGrid(w.mid) ==> OnGrid(Stride(w).mid)
  {
    hide Draw, Unsigned, Magnitude, Direction;
    var first, second := Unsigned(Draw(w.rng).1), Unsigned(Draw(Draw(w.rng).0).1);
    StepBounds(first, second);
    GridStep(w.mid, Magnitude(second) * Direction(first));
  }

  lemma StepBounds(first: int, second: int)
    requires 0 <= second < WORD
    ensures -8 <= Magnitude(second) * Direction(first) <= 8
  {
  }

  lemma GridStep(price: real, step: int)
    ensures OnGrid(price) ==> OnGrid(price + step as real)
    ensures OnGrid(1.0)
  {
    if OnGrid(price) {
      Whole(price + step as real, price.Floor + step);
    }
  }

  /** A walk counts its steps, never falls below one point once it has moved, moves by
      at most eight points a step, and stays on the price grid. */
  lemma {:induction false} WalkBounds(w: Walker, steps: nat)
    ensures Walk(w, steps).sequence == w.sequence + steps
    ensures steps > 0 || w.mid >= 1.0 ==> Walk(w, steps).mid >= 1.0
    ensures w.mid >= 1.0 ==> w.mid - (8 * steps) as real <= Walk(w, steps).mid <= w.mid + (8 * steps) as real
    ensures OnGrid(w.mid) ==> OnGrid(Walk(w, steps).mid)
  {
    hide Stride, OnGrid;
    if steps > 0 {
      WalkBounds(w, steps - 1);
      StrideBounds(Walk(w, steps - 1));
    }
  }

  // ---- Quotes ------------------------------------------------------------

  function Bid(mid: real, spread: real): int {
    Round(mid - spread / 2.0)
  }

  function Ask(mid: real, spread: real): int {
    Round(mid + spread / 2.0)
  }

  /** The mid price charts compute from a quote. */
  function MidPrice(bid: int, ask: int): int {
    Round((bid + ask) as real / 2.0)
  }

  /** A quote is never crossed, and the mid recomputed from it is within a point of the
      simulator's. */
  lemma QuoteBound(mid: real, spread: real)
    requires spread >= 0.0
    ensures Bid(mid, spread) <= Ask(mid, spread)
    ensures mid - 1.0 <= MidPrice(Bid(mid, spread), Ask(mid, spread)) as real <= mid + 1.0
  {
  }

  predicate OddWhole(x: real) {
    OnGrid(x) && x.Floor % 2 == 1
  }

  /** The recomputed mid is the simulator's exactly when that lies on the price grid
      and the spread is not an odd number of points narrower than twice the mid. */
  lemma QuoteExactly(mid: real, spread: real)
    requires mid > 0.0 && spread >= 0.0
    ensures MidPrice(Bid(mid, spread), Ask(mid, spread)) as real == mid <==>
      OnGrid(mid) && !(OddWhole(spread) && spread < 2.0 * mid)
  {
    if OnGrid(mid) {
      ExactOnGrid(mid.Floor, spread);
    }
  }

  /** The bound of one point is reached. */
  lemma BoundReached()
    ensures MidPrice(Bid(10.0, 3.0), Ask(10.0, 3.0)) == 11
  {
  }

  lemma ExactOnGrid(mid: int, spread: real)
    requires mid > 0 && spread >= 0.0
    ensures MidPrice(Bid(mid as real, spread), Ask(mid as real, spread)) == mid <==>
      !(OddWhole(spread) && spread < 2.0 * mid as real)
  {
    OddHalf(spread);
    var half := spread / 2.0;
    var up := (half + 0.5).Floor;
    assert Ask(mid as real, spread) == mid + up;
    if OddWhole(spread) {
      assert half + 0.5 == up as real;
      if spread < 2.0 * mid as real {
        assert Bid(mid as real, spread) == mid - up + 1;
        assert MidPrice(mid - up + 1, mid + up) == mid + 1;
      } else {
        assert Bid(mid as real, spread) == mid - up;
        assert MidPrice(mid - up, mid + up) == mid;
      }
    } else {
      assert Bid(mid as real, spread) == mid - up;
      assert MidPrice(mid - up, mid + up) == mid;
    }
  }

  lemma OddHalf(spread: real)
    ensures OddWhole(spread) <==> OnGrid(spread / 2.0 + 0.5)
  {
    var n, m := spread.Floor, (spread / 2.0 + 0.5).Floor;
    if OddWhole(spread) {
      HalfOf(n);
    }
    if OnGrid(spread / 2.0 + 0.5) {
      assert spread == (2 * m - 1) as real;
    }
  }

  lemma HalfOf(n: int)
    requires n % 2 == 1
    ensures OnGrid(n as real / 2.0 + 0.5)
  {
    var k := n / 2;
    assert n == 2 * k + 1;
    Whole(n as real / 2.0 + 0.5, k + 1);
  }

  // ---- The provider ------------------------------------------------------

  datatype MarketStatus = OpenMarket | StaleMarket

  datatype MarketTick =
    MarketTick(symbol: Symbol, bid: int, ask: int, timestamp: int, sequence: nat, status: MarketStatus)

  function Status(config: Config, s: SymbolState, clock: int): MarketStatus {
    if s.paused || clock - s.lastTimestamp > config.staleThreshold then StaleMarket else OpenMarket
  }

  function Quote(symbol: Symbol, config: Config, s: SymbolState, clock: int): MarketTick {
    MarketTick(symbol, Bid(s.walker.mid, config.spreadPoints), Ask(s.walker.mid, config.spreadPoints),
               s.lastTimestamp, s.walker.sequence, Status(config, s, clock))
  }

  type States = map<Symbol, SymbolState>

  function Advanced(s: SymbolState, now: int): SymbolState {
    if s.paused then s else s.(walker := Stride(s.walker), lastTimestamp := now)
  }

  predicate AllIn<V>(symbols: seq<Symbol>, m: map<Symbol, V>) {
    forall s :: s in symbols ==> s in m
  }

  /** The states once the first `n` symbols have taken their step. */
  function Swept(symbols: seq<Symbol>, n: nat, before: States, now: int): (after: States)
    requires n <= |symbols| && AllIn(symbols, before)
    ensures after.Keys == before.Keys
  {
    if n == 0 then before else
      var done := Swept(symbols, n - 1, before, now);
      done[symbols[n - 1] := Advanced(done[symbols[n - 1]], now)]
  }

  ghost predicate Distinct(symbols: seq<Symbol>) {
    forall i, j :: 0 <= i < j < |symbols| ==> symbols[i] != symbols[j]
  }

  lemma {:induction false} NotSwept(symbols: seq<Symbol>, n: nat, k: nat, before: States, now: int)
    requires n <= k < |symbols| && AllIn(symbols, before) && Distinct(symbols)
    ensures Swept(symbols, n, before, now)[symbols[k]] == before[symbols[k]]
  {
    hide Advanced;
    if n > 0 {
      NotSwept(symbols, n - 1, k, before, now);
    }
  }

  lemma {:induction false} SweptOnce(symbols: seq<Symbol>, n: nat, k: nat, before: States, now: int)
    requires k < n <= |symbols| && AllIn(symbols, before) && Distinct(symbols)
    ensures Swept(symbols, n, before, now)[symbols[k]] == Advanced(before[symbols[k]], now)
  {
    hide Advanced;
    if k == n - 1 {
      NotSwept(symbols, n - 1, k, before, now);
    } else {
      SweptOnce(symbols, n - 1, k, before, now);
    }
  }

  lemma SweptAll(symbols: seq<Symbol>, before: States, now: int)
    requires AllIn(symbols, before) && Distinct(symbols)
    ensures forall s :: s in symbols ==> Swept(symbols, |symbols|, before, now)[s] == Advanced(before[s], now)
  {
    hide Swept, Advanced, Distinct;
    forall s | s in symbols
      ensures Swept(symbols, |symbols|, before, now)[s] == Advanced(before[s], now)
    {
      var k :| 0 <= k < |symbols| && symbols[k] == s;
      SweptOnce(symbols, |symbols|, k, before, now);
    }
  }

  lemma SweptIsApply(symbols: seq<Symbol>, before: States, now: int)
    requires AllIn(symbols, before) && (forall s :: s in before ==> s in symbols) && Distinct(symbols)
    ensures Swept(symbols, |symbols|, before, now) == Apply(before, TickAll(now))
  {
    hide Swept, Advanced, Distinct;
    SweptAll(symbols, before, now);
  }

  /** The ticks a tick of the clock announces for the first `n` symbols: one for each
      that is not paused. */
  function Announced(symbols: seq<Symbol>, n: nat, configs: map<Symbol, Config>, before: States, now: int, clock: int)
    : seq<MarketTick>
    requires n <= |symbols| && AllIn(symbols, before) && AllIn(symbols, configs)
  {
    if n == 0 then [] else
      var s := symbols[n - 1];
      Announced(symbols, n - 1, configs, before, now, clock) + AnnouncedFor(s, configs[s], before[s], now, clock)
  }

  function AnnouncedFor(symbol: Symbol, config: Config, before: SymbolState, now: int, clock: int): seq<MarketTick> {
    if before.paused then [] else [Quote(symbol, config, Advanced(before, now), clock)]
  }

  /** The mutable state of one symbol, with the generator it draws from. */
  class SymbolSim {
    var mid: real
    var sequence: nat
    var paused: bool
    var lastTimestamp: int
    const rng: Generator

    function Value(): SymbolState
      reads this, rng
    {
      SymbolState(Walker(mid, sequence, rng.state), paused, lastTimestamp)
    }

    constructor (basePrice: real, seed: bv32, clock: int)
      ensures fresh(rng) && Value() == SymbolState(Walker(basePrice, 0, seed), false, clock)
    {
      mid, sequence, paused, lastTimestamp := basePrice, 0, false, clock;
      rng := new Generator(seed);
    }

    /** One step of the walk, from two draws. */
    method Advance(now: int)
      requires !paused
      modifies this, rng
      ensures Value() == Advanced(old(Value()), now)
    {
      hide Draw, Unsigned;
      var first := rng.Next();
      var direction := if 2 * Unsigned(first) < WORD then -1 else 1;
      var second := rng.Next();
      var magnitude := Unsigned(second) * 8 / WORD + 1;
      var moved := mid + (magnitude * direction) as real;
      mid := if moved > 1.0 then moved else 1.0;
      sequence := sequence + 1;
      lastTimestamp := now;
    }
  }

  /** One symbol more has taken its step, from the state it had before the tick. */
  lemma NextSwept(symbols: seq<Symbol>, n: nat, configs: map<Symbol, Config>, before: States, now: int, clock: int)
    requires n < |symbols| && Distinct(symbols) && AllIn(symbols, before) && AllIn(symbols, configs)
    ensures symbols[n] in configs && symbols[n] in before
    ensures var s, done := symbols[n], Swept(symbols, n, before, now);
      && done[s] == before[s]
      && Swept(symbols, n + 1, before, now) == done[s := Advanced(done[s], now)]
      && Announced(symbols, n + 1, configs, before, now, clock)
         == Announced(symbols, n, configs, before, now, clock) + AnnouncedFor(s, configs[s], before[s], now, clock)
  {
    hide Advanced, AnnouncedFor, Distinct;
    NotSwept(symbols, n, n, before, now);
  }

  class MarketSimulator {
    const symbols: seq<Symbol>
    const configs: map<Symbol, Config>
    const sims: map<Symbol, SymbolSim>

    /** Every object that holds state: the symbols' and their generators. */
    ghost const Repr: set<object>

    /** No two symbols share their state or their generator. */
    ghost predicate Apart() {
      forall s, t :: s in sims && t in sims && s != t ==> sims[s] != sims[t] && sims[s].rng != sims[t].rng
    }

    ghost predicate Valid() {
      && Distinct(symbols)
      && (forall s :: s in symbols <==> s in configs)
      && sims.Keys == configs.Keys
      && (forall s :: s in sims ==> sims[s] in Repr && sims[s].rng in Repr)
      && Apart()
    }

    function Snapshot(): States
      requires Valid()
      reads Repr
    {
      map s | s in sims :: sims[s].Value()
    }

    constructor (seed: bv32, symbols: seq<Symbol>, configs: map<Symbol, Config>, clock: int)
      requires Distinct(symbols)
      requires forall s :: s in symbols <==> s in configs
      ensures Valid() && fresh(Repr) && this.symbols == symbols && this.configs == configs
      ensures forall s :: s in configs ==> Snapshot()[s] == SymbolState(Start(seed, s, configs[s]), false, clock)
    {
      hide Start, Distinct;
      this.symbols, this.configs := symbols, configs;
      var made: map<Symbol, SymbolSim> := map[];
      ghost var objects: set<object> := {};
      for i := 0 to |symbols|
        invariant forall s :: s in made <==> s in symbols[..i]
        invariant forall s :: s in made ==> fresh(made[s]) && fresh(made[s].rng)
        invariant forall s :: s in made ==> made[s] in objects && made[s].rng in objects
        invariant fresh(objects)
        invariant forall s, t :: s in made && t in made && s != t ==>
          made[s] != made[t] && made[s].rng != made[t].rng
        invariant forall s :: s in made ==> made[s].Value() == SymbolState(Start(seed, s, configs[s]), false, clock)
      {
        var symbol := symbols[i];
        var h := HashSymbolToSeed(seed, symbol);
        StartIs(seed, symbol, configs[symbol]);
        var sim := new SymbolSim(configs[symbol].basePrice, h, clock);
        made := made[symbol := sim];
        objects := objects + {sim, sim.rng};
      }
      sims, Repr := made, objects;
    }

    method BuildTick(symbol: Symbol, clock: int) returns (tick: MarketTick)
      requires Valid() && symbol in configs
      ensures tick == Quote(symbol, configs[symbol], Snapshot()[symbol], clock)
    {
      var config, s := configs[symbol], sims[symbol].Value();
      var half := config.spreadPoints / 2.0;
      var status := Status(config, s, clock);
      return MarketTick(symbol, Round(s.walker.mid - half), Round(s.walker.mid + half), s.lastTimestamp,
                        s.walker.sequence, status);
    }

    /** Writing one symbol leaves the others alone, because nothing is shared. */
    twostate lemma OthersUntouched(symbol: Symbol)
      requires Valid() && symbol in sims
      requires forall s :: s in sims && s != symbol ==> unchanged(sims[s]) && unchanged(sims[s].rng)
      ensures Snapshot() == old(Snapshot())[symbol := sims[symbol].Value()]
    {
    }

    method TickOne(symbol: Symbol, now: int, clock: int) returns (ticks: seq<MarketTick>)
      requires Valid() && symbol in configs
      modifies Repr
      ensures Snapshot() == old(Snapshot())[symbol := Advanced(old(Snapshot())[symbol], now)]
      ensures ticks == AnnouncedFor(symbol, configs[symbol], old(Snapshot())[symbol], now, clock)
    {
      hide Stride, Quote;
      var s := sims[symbol];
      if s.paused {
        assert Snapshot() == old(Snapshot())[symbol := old(Snapshot())[symbol]];
        return [];
      }
      s.Advance(now);
      OthersUntouched(symbol);
      var tick := BuildTick(symbol, clock);
      return [tick];
    }

    lemma BeforeTick(before: States, now: int, clock: int)
      requires Valid() && before == Snapshot()
      ensures AllIn(symbols, before) && AllIn(symbols, configs)
      ensures Swept(symbols, 0, before, now) == before && Announced(symbols, 0, configs, before, now, clock) == []
      ensures Swept(symbols, |symbols|, before, now) == Apply(before, TickAll(now))
    {
      SweptIsApply(symbols, before, now);
    }

    /** The `n`-th symbol's turn within a tick. */
    method TickNext(n: nat, ghost before: States, now: int, clock: int) returns (ticks: seq<MarketTick>)
      requires Valid() && n < |symbols| && AllIn(symbols, before) && AllIn(symbols, configs)
      requires Snapshot() == Swept(symbols, n, before, now)
      modifies Repr
      ensures Snapshot() == Swept(symbols, n + 1, before, now)
      ensures Announced(symbols, n + 1, configs, before, now, clock)
           == Announced(symbols, n, configs, before, now, clock) + ticks
    {
      NextSwept(symbols, n, configs, before, now, clock);
      hide Quote, Advanced, AnnouncedFor, Distinct, Apart, Snapshot, Swept, Announced, Apply;
      ticks := TickOne(symbols[n], now, clock);
    }

    method Tick(now: int, clock: int) returns (ticks: seq<MarketTick>)
      requires Valid()
      modifies Repr
      ensures Snapshot() == Apply(old(Snapshot()), TickAll(now))
      ensures AllIn(symbols, old(Snapshot())) && AllIn(symbols, configs)
      ensures ticks == Announced(symbols, |symbols|, configs, old(Snapshot()), now, clock)
    {
      hide *;
      ghost var before := Snapshot();
      BeforeTick(before, now, clock);
      ticks := [];
      for i := 0 to |symbols|
        invariant Snapshot() == Swept(symbols, i, before, now)
        invariant ticks == Announced(symbols, i, configs, before, now, clock)
      {
        var announced := TickNext(i, before, now, clock);
        ticks := ticks + announced;
      }
    }

    method Pause(symbol: Symbol)
      requires Valid()
      modifies Repr
      ensures Snapshot() == Apply(old(Snapshot()), PauseOne(symbol))
    {
      if symbol in sims {
        sims[symbol].paused := true;
        OthersUntouched(symbol);
      }
    }

    method Resume(symbol: Symbol, clock: int)
      requires Valid()
      modifies Repr
      ensures Snapshot() == Apply(old(Snapshot()), ResumeOne(symbol, clock))
    {
      if symbol in sims {
        sims[symbol].paused := false;
        sims[symbol].lastTimestamp := clock;
        OthersUntouched(symbol);
      }
    }
  }

  // ---- Runs --------------------------------------------------------------

  datatype Operation = TickAll(now: int) | PauseOne(symbol: Symbol) | ResumeOne(symbol: Symbol, clock: int)

  function Apply(states: States, op: Operation): States {
    match op
    case TickAll(now) => map s | s in states :: Advanced(states[s], now)
    case PauseOne(symbol) => if symbol in states then states[symbol := states[symbol].(paused := true)] else states
    case ResumeOne(symbol, clock) =>
      if symbol in states then states[symbol := states[symbol].(paused := false, lastTimestamp := clock)] else states
  }

  function Run(states: States, ops: seq<Operation>): States {
    if ops == [] then states else Apply(Run(states, ops[..|ops| - 1]), ops[|ops| - 1])
  }

  /** Whether a symbol is paused, told from the operations that name it. */
  predicate Paused(ops: seq<Operation>, symbol: Symbol) {
    if ops == [] then false else
      match ops[|ops| - 1]
      case TickAll(_) => Paused(ops[..|ops| - 1], symbol)
      case PauseOne(s) => s == symbol || Paused(ops[..|ops| - 1], symbol)
      case ResumeOne(s, _) => s != symbol && Paused(ops[..|ops| - 1], symbol)
  }

  /** The ticks of the clock that found the symbol unpaused. */
  function Ticks(ops: seq<Operation>, symbol: Symbol): nat {
    if ops == [] then 0 else
      var init := ops[..|ops| - 1];
      Ticks(init, symbol) + (if ops[|ops| - 1].TickAll? && !Paused(init, symbol) then 1 else 0)
  }

  /** Symbols do not interfere: after any operations on any symbols, a symbol has taken
      as many steps of its own walk as there were ticks while it was unpaused. */
  lemma {:induction false} NonInterference(states: States, ops: seq<Operation>, symbol: Symbol)
    requires symbol in states && !states[symbol].paused
    ensures symbol in Run(states, ops)
    ensures Run(states, ops)[symbol].paused == Paused(ops, symbol)
    ensures Run(states, ops)[symbol].walker == Walk(states[symbol].walker, Ticks(ops, symbol))
  {
    hide Stride;
    if ops != [] {
      NonInterference(states, ops[..|ops| - 1], symbol);
    }
  }

  /** The same seed gives the same prices: in two simulators that share it, whatever
      else they carry and whatever was paused, a symbol that took as many ticks has the
      same mid, and its sequence number is that number of ticks. */
  lemma SameSeedSamePrices(seed: bv32, symbol: Symbol, config: Config, one: States, ops: seq<Operation>,
                           other: States, otherOps: seq<Operation>, clock: int, otherClock: int)
    requires symbol in one && one[symbol] == SymbolState(Start(seed, symbol, config), false, clock)
    requires symbol in other && other[symbol] == SymbolState(Start(seed, symbol, config), false, otherClock)
    ensures symbol in Run(one, ops) && symbol in Run(other, otherOps)
    ensures Run(one, ops)[symbol].walker.sequence == Ticks(ops, symbol)
    ensures Run(other, otherOps)[symbol].walker.sequence == Ticks(otherOps, symbol)
    ensures Ticks(ops, symbol) == Ticks(otherOps, symbol) ==>
      Run(one, ops)[symbol].walker == Run(other, otherOps)[symbol].walker
  {
    hide Walk, Run, Ticks, HashSymbol;
    NonInterference(one, ops, symbol);
    NonInterference(other, otherOps, symbol);
    WalkBounds(Start(seed, symbol, config), Ticks(ops, symbol));
    WalkBounds(Start(seed, symbol, config), Ticks(otherOps, symbol));
  }

  /** In every run the mid stays at or above one point if the base price does, and
      every quote is uncrossed. */
  lemma PricesStayPositive(states: States, ops: seq<Operation>, symbol: Symbol, config: Config, clock: int)
    requires symbol in states && !states[symbol].paused && states[symbol].walker.mid >= 1.0
    requires config.spreadPoints >= 0.0
    ensures symbol in Run(states, ops) && Run(states, ops)[symbol].walker.mid >= 1.0
    ensures var tick := Quote(symbol, config, Run(states, ops)[symbol], clock);
      tick.bid <= tick.ask && tick.ask >= 1
  {
    hide Walk, Run, Ticks, Round;
    NonInterference(states, ops, symbol);
    WalkBounds(states[symbol].walker, Ticks(ops, symbol));
    var mid := Run(states, ops)[symbol].walker.mid;
    QuoteBound(mid, config.spreadPoints);
    RoundNear(mid + config.spreadPoints / 2.0);
  }
}
