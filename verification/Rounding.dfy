/** Rounding to a fixed number of decimals, half to even, on exact reals. */
module Rounding {

  /** The integer nearest to `x`; a tie goes to the even neighbour. */
  function Nearest(x: real): (n: int)
    ensures x - 0.5 <= n as real <= x + 0.5
  {
    var low := x.Floor;
    var part := x - low as real;
    if part < 0.5 || (part == 0.5 && low % 2 == 0) then low else low + 1
  }

  /** Half a unit or less away, and at exactly half a unit the even one: no other integer is meant. */
  lemma NearestIff(x: real, n: int)
    ensures n == Nearest(x) <==>
            n as real - 0.5 < x < n as real + 0.5 || ((x == n as real - 0.5 || x == n as real + 0.5) && n % 2 == 0)
  {
  }

  /** The three roundings scaled up are the nearest integers to the amount scaled up. */
  lemma RoundsAreNearest(x: real)
    ensures Round4(x) * 10000.0 == Nearest(x * 10000.0) as real
    ensures Round6(x) * 1000000.0 == Nearest(x * 1000000.0) as real
    ensures Round8(x) * 100000000.0 == Nearest(x * 100000000.0) as real
  {
  }

  lemma NearestMonotone(x: real, y: real)
    requires x <= y
    ensures Nearest(x) <= Nearest(y)
  {
  }

  lemma NearestOfWhole(n: int)
    ensures Nearest(n as real) == n
  {
  }

  /** A nonnegative factor keeps the order. */
  lemma Scaled(k: real, x: real, y: real)
    requires 0.0 <= k && x <= y
    ensures k * x <= k * y
  {
  }

  const CENTI4 := 10000.0
  const CENTI6 := 1000000.0
  const CENTI8 := 100000000.0

  /** `round(x, 4)`, used for delays. */
  function Round4(x: real): (r: real)
    ensures x - 0.00005 <= r <= x + 0.00005
  {
    Nearest(x * CENTI4) as real / CENTI4
  }

  /** `round(x, 6)`, used for percentiles. */
  function Round6(x: real): (r: real)
    ensures x - 0.0000005 <= r <= x + 0.0000005
  {
    Nearest(x * CENTI6) as real / CENTI6
  }

  /** `round(x, 8)`, used for costs. */
  function Round8(x: real): (r: real)
    ensures x - 0.000000005 <= r <= x + 0.000000005
  {
    Nearest(x * CENTI8) as real / CENTI8
  }

  lemma RoundMonotone(x: real, y: real)
    requires x <= y
    ensures Round4(x) <= Round4(y) && Round6(x) <= Round6(y) && Round8(x) <= Round8(y)
  {
    NearestMonotone(x * CENTI4, y * CENTI4);
    NearestMonotone(x * CENTI6, y * CENTI6);
    NearestMonotone(x * CENTI8, y * CENTI8);
  }

  /** Whole multiples of 0.00000001 are what `round(_, 8)` leaves alone. */
  ghost predicate OnCostGrid(x: real) {
    exists n: int :: x == GridPoint(n)
  }

  ghost function GridPoint(n: int): real {
    n as real / CENTI8
  }

  lemma Round8OnGrid(x: real)
    ensures OnCostGrid(Round8(x))
    ensures OnCostGrid(x) <==> Round8(x) == x
  {
    assert Round8(x) == GridPoint(Nearest(x * CENTI8));
    if OnCostGrid(x) {
      var n: int :| x == GridPoint(n);
      assert x * CENTI8 == n as real;
      NearestOfWhole(n);
    }
  }

  lemma GridClosed(x: real, y: real)
    requires OnCostGrid(x) && OnCostGrid(y)
    ensures OnCostGrid(x + y)
  {
    var m: int :| x == GridPoint(m);
    var n: int :| y == GridPoint(n);
    assert x + y == GridPoint(m + n);
  }

  /** An amount whose part beyond the eighth decimal is less than half a unit. */
  predicate RoundsDown(x: real) {
    x * CENTI8 - (x * CENTI8).Floor as real < 0.5
  }

  lemma GridRoundsDown(x: real)
    requires OnCostGrid(x)
    ensures RoundsDown(x)
  {
    var n: int :| x == GridPoint(n);
    assert x * CENTI8 == n as real;
  }

  lemma FloorShift(m: int, x: real)
    ensures (m as real + x).Floor == m + x.Floor
  {
  }

  lemma GridSum(m: int, x: real)
    ensures Round8(GridPoint(m) + x) == GridPoint(Nearest(m as real + x * CENTI8))
  {
  }

  lemma PointsBelow(n: int, y: real)
    ensures GridPoint(n) <= y <==> n as real <= y * CENTI8
  {
  }

  /** Added to a stored amount, one that rounds down never records more than it is. */
  lemma RoundsDownNeverGains(stored: real, x: real)
    requires OnCostGrid(stored) && RoundsDown(x)
    ensures Round8(stored + x) <= stored + x
  {
    var m: int :| stored == GridPoint(m);
    GridSum(m, x);
    FloorShift(m, x * CENTI8);
    PointsBelow(Nearest(m as real + x * CENTI8), stored + x);
  }

  /** One that does not records more than it is on top of some stored amount. */
  lemma RoundsUpSomewhere(x: real) returns (stored: real)
    requires !RoundsDown(x)
    ensures OnCostGrid(stored) && stored >= 0.0
    ensures Round8(stored + x) > stored + x
  {
    var m := if (x * CENTI8).Floor % 2 == 0 then 1 else 0;
    stored := GridPoint(m);
    GridSum(m, x);
    FloorShift(m, x * CENTI8);
    PointsBelow(Nearest(m as real + x * CENTI8), stored + x);
  }
}
