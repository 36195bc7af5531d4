/** What the simulator draws, when it quotes, and when a quote counts as fresh. */
module SimulatorLaws {
  import opened Decimals
  import opened Simulator

  // ---- The draws ----------------------------------------------------------

  /** The number between 0 and 1 that a drawn word stands for. */
  function Share(word: bv32): real {
    Unsigned(word) as real / WORD as real
  }

  /** A step goes down exactly for a share below one half, and its length is the floor of
      eight shares, and one. */
  lemma StepExactly(word: bv32)
    ensures Direction(Unsigned(word)) == (if Share(word) < 0.5 then -1 else 1)
    ensures Magnitude(Unsigned(word)) == (Share(word) * 8.0).Floor + 1
  {
    hide Unsigned;
    FloorOfQuotient(Unsigned(word) * 8, WORD);
  }

  lemma FloorOfQuotient(n: int, d: int)
    requires d > 0
    ensures (n as real / d as real).Floor == n / d
  {
    var q, r := n / d, n % d;
    assert n as real == q as real * d as real + r as real;
    assert n as real / d as real == q as real + r as real / d as real;
  }

  /** One step moves the mid by that length, down or up, unless that would leave it below one
      point: then it is one point. */
  lemma StrideExactly(w: Walker)
    ensures var (afterFirst, first) := Draw(w.rng); var (afterSecond, second) := Draw(afterFirst);
      var length := ((Share(second) * 8.0).Floor + 1) as real;
      var moved := if Share(first) < 0.5 then w.mid - length else w.mid + length;
      && Stride(w).rng == afterSecond
      && (moved >= 1.0 ==> Stride(w).mid == moved)
      && (moved < 1.0 ==> Stride(w).mid == 1.0)
  {
    hide Draw, Unsigned;
    var (afterFirst, first) := Draw(w.rng);
    var (_, second) := Draw(afterFirst);
    StepExactly(first);
    StepExactly(second);
  }

  /** The first words that the generator draws from the seeds 0, 1 and 42. */
  lemma KnownDraws()
    ensures Draw(0) == (0x6d2b79f5, 0x4434b462) && Draw(0x6d2b79f5) == (0xda56f3ea, 0x00159c37)
    ensures Draw(1) == (0x6d2b79f6, 0xa087eaf3) && Draw(0x6d2b79f6) == (0xda56f3eb, 0x00b349c9)
    ensures Draw(42) == (0x6d2b7a1f, 0x99e1ef7c) && Draw(0x6d2b7a1f) == (0xda56f414, 0x72c32b8a)
  {
  }

  /** Hashing goes on from where the first part of a symbol left off. */
  lemma {:induction false} HashChains(seed: bv32, a: Symbol, b: Symbol)
    ensures HashSymbol(seed, a + b) == HashSymbol(HashSymbol(seed, a), b)
    decreases |b|
  {
    hide Mix;
    if b == [] {
      assert a + b == a;
    } else {
      assert (a + b)[..|a + b| - 1] == a + b[..|b| - 1];
      HashChains(seed, a, b[..|b| - 1]);
    }
  }

  lemma KnownMixes()
    ensures Mix(0x0000002a, 'E') == 0x0000055b
    ensures Mix(0x0000055b, 'U') == 0x0000a65a
    ensures Mix(0x0000a65a, 'R') == 0x00142538
    ensures Mix(0x00142538, 'U') == 0x0270821d
    ensures Mix(0x0270821d, 'S') == 0x4b9fc1d6
    ensures Mix(0x4b9fc1d6, 'D') == 0x2858792e
  {
  }

  /** The state that the symbol EURUSD starts from under the seed 42. */
  lemma KnownHash()
    ensures HashSymbol(42, "EURUSD") == 0x2858792e
  {
    hide Mix, HashSymbol;
    KnownMixes();
    HashSteps(42, "EURUSD");
  }

  /** The characters are mixed in from the first to the last. */
  lemma HashSteps(seed: bv32, s: Symbol)
    requires |s| == 6
    ensures HashSymbol(seed, s) == Mix(Mix(Mix(Mix(Mix(Mix(seed, s[0]), s[1]), s[2]), s[3]), s[4]), s[5])
  {
    hide Mix;
    assert s[..5][..4] == s[..4] && s[..4][..3] == s[..3] && s[..3][..2] == s[..2] && s[..2][..1] == s[..1];
    assert s[..1][..0] == "";
    assert HashSymbol(seed, s[..1]) == Mix(seed, s[0]);
    assert HashSymbol(seed, s[..2]) == Mix(HashSymbol(seed, s[..1]), s[1]);
    assert HashSymbol(seed, s[..3]) == Mix(HashSymbol(seed, s[..2]), s[2]);
    assert HashSymbol(seed, s[..4]) == Mix(HashSymbol(seed, s[..3]), s[3]);
    assert HashSymbol(seed, s[..5]) == Mix(HashSymbol(seed, s[..4]), s[4]);
    assert HashSymbol(seed, s) == Mix(HashSymbol(seed, s[..5]), s[5]);
  }

  // ---- When a symbol last moved -------------------------------------------

  /** A symbol is paused exactly when some pause of it was not followed by a resume of it. */
  lemma {:induction false} PausedExactly(ops: seq<Operation>, symbol: Symbol)
    ensures Paused(ops, symbol) <==> exists i :: PausedSince(ops, i, symbol)
  {
    if ops != [] {
      var n := |ops| - 1;
      PausedExactly(ops[..n], symbol);
      if Paused(ops[..n], symbol) {
        var i :| PausedSince(ops[..n], i, symbol);
        assert ops[..n][i] == ops[i];
        assert forall j :: i < j < n ==> ops[..n][j] == ops[j];
        if !Resumes(ops[n], symbol) { assert PausedSince(ops, i, symbol); }
      }
      if ops[n] == PauseOne(symbol) { assert PausedSince(ops, n, symbol); }
      if i :| PausedSince(ops, i, symbol) && i != n {
        assert forall j :: i <= j < n ==> ops[..n][j] == ops[j];
        assert PausedSince(ops[..n], i, symbol);
      }
    }
  }

  predicate Resumes(op: Operation, symbol: Symbol) {
    op.ResumeOne? && op.symbol == symbol
  }

  ghost predicate PausedSince(ops: seq<Operation>, i: int, symbol: Symbol) {
    && 0 <= i < |ops| && ops[i] == PauseOne(symbol)
    && forall j :: i < j < |ops| ==> !Resumes(ops[j], symbol)
  }

  /** A tick of the clock that finds the symbol unpaused moves it, and so does its resume. */
  predicate Moves(ops: seq<Operation>, i: int, symbol: Symbol) {
    0 <= i < |ops| && (Resumes(ops[i], symbol) || (ops[i].TickAll? && !Paused(ops[..i], symbol)))
  }

  function Instant(op: Operation): int {
    match op
    case TickAll(now) => now
    case ResumeOne(_, clock) => clock
    case PauseOne(_) => 0
  }

  /** `t` is the instant of the last operation that moved the symbol, or its first one. */
  ghost predicate LastMoved(ops: seq<Operation>, symbol: Symbol, t: int, first: int) {
    || (t == first && forall i :: !Moves(ops, i, symbol))
    || exists i :: MovedLast(ops, i, symbol) && Instant(ops[i]) == t
  }

  ghost predicate MovedLast(ops: seq<Operation>, i: int, symbol: Symbol) {
    Moves(ops, i, symbol) && forall j :: Moves(ops, j, symbol) ==> j <= i
  }

  lemma MovesBefore(ops: seq<Operation>, i: int, symbol: Symbol)
    requires ops != [] && 0 <= i < |ops| - 1
    ensures Moves(ops[..|ops| - 1], i, symbol) == Moves(ops, i, symbol)
  {
    assert ops[..|ops| - 1][..i] == ops[..i];
  }

  lemma {:induction false} TimestampExactly(states: States, ops: seq<Operation>, symbol: Symbol)
    requires symbol in states && !states[symbol].paused
    ensures symbol in Run(states, ops)
    ensures LastMoved(ops, symbol, Run(states, ops)[symbol].lastTimestamp, states[symbol].lastTimestamp)
  {
    hide Stride, Paused;
    if ops != [] {
      var n := |ops| - 1;
      NonInterference(states, ops[..n], symbol);
      TimestampExactly(states, ops[..n], symbol);
      forall i | 0 <= i < n ensures Moves(ops[..n], i, symbol) == Moves(ops, i, symbol) {
        MovesBefore(ops, i, symbol);
      }
      hide Run;
      var before := Run(states, ops[..n]);
      AppliedTo(before, ops[n], symbol);
      var t := Apply(before, ops[n])[symbol].lastTimestamp;
      assert Run(states, ops) == Apply(before, ops[n]) by { RunStep(states, ops); }
      if Moves(ops, n, symbol) {
        assert MovedLast(ops, n, symbol) && Instant(ops[n]) == t;
      } else if i :| MovedLast(ops[..n], i, symbol) && Instant(ops[..n][i]) == t {
        assert MovedLast(ops, i, symbol) && Instant(ops[i]) == t;
      }
    }
  }

  lemma RunStep(states: States, ops: seq<Operation>)
    requires ops != []
    ensures Run(states, ops) == Apply(Run(states, ops[..|ops| - 1]), ops[|ops| - 1])
  {
  }

  lemma AppliedTo(states: States, op: Operation, symbol: Symbol)
    requires symbol in states
    ensures symbol in Apply(states, op)
    ensures Apply(states, op)[symbol].lastTimestamp ==
      if Resumes(op, symbol) || (op.TickAll? && !states[symbol].paused) then Instant(op)
      else states[symbol].lastTimestamp
  {
    hide Stride;
  }

  // ---- Quotes -------------------------------------------------------------

  /** After any operations the quote of a symbol carries the instant it last moved and the
      number of ticks that found it unpaused; it is open exactly when the symbol is not paused
      and that instant is no longer ago than the threshold; and its prices are half a spread
      below and above the mid, rounded. */
  lemma QuoteOfRun(seed: bv32, states: States, ops: seq<Operation>, symbol: Symbol, config: Config, start: int,
                   clock: int)
    requires symbol in states && states[symbol] == SymbolState(Start(seed, symbol, config), false, start)
    ensures symbol in Run(states, ops)
    ensures var s := Run(states, ops)[symbol]; var q := Quote(symbol, config, s, clock);
      && q.symbol == symbol && q.sequence == Ticks(ops, symbol)
      && LastMoved(ops, symbol, q.timestamp, start)
      && (q.status.OpenMarket? <==>
            (forall i :: !PausedSince(ops, i, symbol)) && clock - q.timestamp <= config.staleThreshold)
      && Nearest(q.bid, s.walker.mid - config.spreadPoints / 2.0)
      && Nearest(q.ask, s.walker.mid + config.spreadPoints / 2.0)
  {
    hide Run, Walk, Ticks, Paused, LastMoved, PausedSince, Start, Round, Nearest;
    NonInterference(states, ops, symbol);
    TimestampExactly(states, ops, symbol);
    PausedExactly(ops, symbol);
    StartIs(seed, symbol, config);
    WalkBounds(Start(seed, symbol, config), Ticks(ops, symbol));
    var mid := Run(states, ops)[symbol].walker.mid;
    RoundExactly(mid - config.spreadPoints / 2.0, Bid(mid, config.spreadPoints));
    RoundExactly(mid + config.spreadPoints / 2.0, Ask(mid, config.spreadPoints));
  }

  /** The symbols that are not paused, in order. */
  function Unpaused(symbols: seq<Symbol>, states: States): seq<Symbol>
    requires AllIn(symbols, states)
  {
    if symbols == [] then [] else
      var rest, last := Unpaused(symbols[..|symbols| - 1], states), symbols[|symbols| - 1];
      if states[last].paused then rest else rest + [last]
  }

  function SymbolsOf(ticks: seq<MarketTick>): seq<Symbol> {
    seq(|ticks|, i requires 0 <= i < |ticks| => ticks[i].symbol)
  }

  /** A tick of the clock announces one quote for each symbol that is not paused, in their
      order, and each is the quote of the state after the tick. */
  lemma {:induction false} AnnouncedExactly(symbols: seq<Symbol>, configs: map<Symbol, Config>, before: States,
                                            now: int, clock: int)
    requires AllIn(symbols, before) && AllIn(symbols, configs)
    ensures var ticks, after := Announced(symbols, |symbols|, configs, before, now, clock), Apply(before, TickAll(now));
      && SymbolsOf(ticks) == Unpaused(symbols, before)
      && forall q :: q in ticks ==>
           q.symbol in configs && q.symbol in after && !after[q.symbol].paused && q.timestamp == now
           && q == Quote(q.symbol, configs[q.symbol], after[q.symbol], clock)
  {
    hide Stride, Round;
    if symbols != [] {
      var n := |symbols| - 1;
      AnnouncedExactly(symbols[..n], configs, before, now, clock);
      AnnouncedPrefix(symbols, n, configs, before, now, clock);
    }
  }

  lemma {:induction false} AnnouncedPrefix(symbols: seq<Symbol>, n: nat, configs: map<Symbol, Config>,
                                           before: States, now: int, clock: int)
    requires n < |symbols| && AllIn(symbols, before) && AllIn(symbols, configs)
    ensures Announced(symbols[..|symbols| - 1], n, configs, before, now, clock)
         == Announced(symbols, n, configs, before, now, clock)
  {
    if n > 0 { AnnouncedPrefix(symbols, n - 1, configs, before, now, clock); }
  }
}
