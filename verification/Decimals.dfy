/** Rounding decimals to a grid of whole units. */
module Decimals {
  predicate OnGrid(price: real) {
    price.Floor as real == price
  }

  lemma Whole(x: real, n: int)
    requires x == n as real
    ensures OnGrid(x)
  {
  }

  /** Rounding to a whole unit, halves away from zero. */
  function Round(x: real): int {
    if x >= 0.0 then (x + 0.5).Floor else -(0.5 - x).Floor
  }

  lemma RoundNear(x: real)
    ensures x - 0.5 <= Round(x) as real <= x + 0.5
    ensures OnGrid(x) ==> Round(x) as real == x
  {
    if x >= 0.0 {
      FloorHalf(x);
    } else {
      FloorHalf(-x);
      assert Round(x) == -(-x + 0.5).Floor;
      GridNegated(x);
    }
  }

  /** Within half a unit, and on a tie the unit farther from zero. */
  predicate Nearest(n: int, x: real) {
    if x >= 0.0 then x - 0.5 < n as real <= x + 0.5 else x - 0.5 <= n as real < x + 0.5
  }

  /** Rounding yields the nearest unit, and there is only one. */
  lemma RoundExactly(x: real, n: int)
    ensures Round(x) == n <==> Nearest(n, x)
  {
    if x >= 0.0 {
      FloorExactly(x + 0.5, n);
    } else {
      FloorExactly(0.5 - x, -n);
    }
  }

  lemma FloorExactly(x: real, n: int)
    ensures x.Floor == n <==> n as real <= x < n as real + 1.0
  {
  }

  lemma GridNegated(x: real)
    ensures OnGrid(x) ==> OnGrid(-x)
  {
    if OnGrid(x) {
      Whole(-x, -x.Floor);
    }
  }

  lemma FloorHalf(x: real)
    ensures x - 0.5 <= (x + 0.5).Floor as real <= x + 0.5
    ensures OnGrid(x) ==> (x + 0.5).Floor == x.Floor
  {
  }
}
