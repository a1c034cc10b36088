/** Decimal rounding to eight places, half away from zero, as the settlement code applies it. */
module Money {

  const SCALE: real := 100000000.0

  function Round8(x: real): real {
    if x >= 0.0
    then (x * SCALE + 0.5).Floor as real / SCALE
    else -((-x * SCALE + 0.5).Floor as real / SCALE)
  }

  /** An amount with at most eight decimal places. */
  predicate OnGrid(x: real) {
    (x * SCALE).Floor as real == x * SCALE
  }

  /** Rounding moves an amount by at most half a unit in the eighth place, whatever its sign. */
  lemma {:induction false} RoundError(x: real)
    ensures -0.5 / SCALE <= Round8(x) - x <= 0.5 / SCALE
  {
    if x >= 0.0 {
      FloorBounds(x);
    } else {
      FloorBounds(-x);
    }
  }

  lemma {:induction false} FloorBounds(x: real)
    requires x >= 0.0
    ensures -0.5 / SCALE <= Round8(x) - x <= 0.5 / SCALE
    ensures Round8(x) >= 0.0
  {
    var y := x * SCALE + 0.5;
    assert y - 1.0 < y.Floor as real <= y;
    assert Round8(x) == y.Floor as real / SCALE;
    assert y.Floor >= 0;
  }

  /** The fixed points of rounding are exactly the amounts on the grid. */
  lemma {:induction false} RoundExact(x: real)
    ensures Round8(x) == x <==> OnGrid(x)
  {
    var y := x * SCALE;
    if x >= 0.0 {
      if OnGrid(x) {
        assert (y + 0.5).Floor == y.Floor;
      }
    } else {
      if OnGrid(x) {
        assert -y == (-y.Floor) as real;
        assert (-y + 0.5).Floor == -y.Floor;
      }
    }
  }

  /** An amount halfway between two points of the grid goes to the one further from zero. */
  lemma {:induction false} RoundTies(n: nat)
    ensures Round8((n as real + 0.5) / SCALE) == (n + 1) as real / SCALE
    ensures Round8(-(n as real + 0.5) / SCALE) == -((n + 1) as real) / SCALE
  {
    var x := (n as real + 0.5) / SCALE;
    assert x * SCALE + 0.5 == (n + 1) as real;
    assert -(n as real + 0.5) / SCALE == -x;
  }

  /** Rounded amounts are on the grid, so rounding twice is rounding once. */
  lemma {:induction false} RoundOnGrid(x: real)
    ensures OnGrid(Round8(x)) && Round8(Round8(x)) == Round8(x)
  {
    var n := if x >= 0.0 then (x * SCALE + 0.5).Floor else -(-x * SCALE + 0.5).Floor;
    assert Round8(x) * SCALE == n as real;
    WholeFloor(Round8(x) * SCALE, n);
    RoundExact(Round8(x));
  }

  lemma {:induction false} RoundMonotone(x: real, y: real)
    requires 0.0 <= x <= y
    ensures 0.0 <= Round8(x) <= Round8(y)
  {
    FloorBounds(x);
    assert (x * SCALE + 0.5).Floor <= (y * SCALE + 0.5).Floor;
  }

  lemma {:induction false} GridClosed(x: real, y: real)
    requires OnGrid(x) && OnGrid(y)
    ensures OnGrid(x + y) && OnGrid(x - y)
  {
    assert (x + y) * SCALE == x * SCALE + y * SCALE && (x - y) * SCALE == x * SCALE - y * SCALE;
    WholeClosed(x * SCALE, y * SCALE);
  }

  lemma {:induction false} WholeClosed(a: real, b: real)
    requires a.Floor as real == a && b.Floor as real == b
    ensures (a + b).Floor as real == a + b && (a - b).Floor as real == a - b
  {
    var m, n := a.Floor, b.Floor;
    WholeFloor(a + b, m + n);
    WholeFloor(a - b, m - n);
  }

  lemma {:induction false} WholeFloor(a: real, m: int)
    requires a == m as real
    ensures a.Floor as real == a
  {
  }
}
