/**
 * Grid snapping as the draggable directives perform it, written exactly over
 * integer pixel coordinates.
 *
 * The directives snap with `Math.round(v / g) * g` (the current versions) or
 * `Math.floor(v / g) * g` (the older version) whenever the grid size `g` is
 * truthy. A grid of 0 (or an unset grid) is falsy and leaves `v` unchanged;
 * a negative grid is truthy and is snapped with like any other.
 * `Math.round` rounds halves towards +infinity, so round(t) == floor(t + 1/2).
 */
module Snapping {

  /** `k * g` for some integer `k`. */
  ghost predicate IsMultiple(r: int, g: int) {
    exists k: int :: k * g == r
  }

  /** Euclidean division by a positive divisor is floor division, and the
      quotient is the only integer q with q*d <= a < q*d + d. */
  lemma DivIsUnique(a: int, d: int, q: int)
    requires d > 0
    requires q * d <= a < q * d + d
    ensures a / d == q
  {
    var r := a / d;
    var m := a % d;
    assert a == r * d + m && 0 <= m < d;
    if r < q {
      MulAtLeast(q - r, d);
    } else if r > q {
      MulAtLeast(r - q, d);
    }
  }

  lemma MulAtLeast(n: int, d: int)
    requires n >= 1 && d > 0
    ensures n * d >= d
  {
    assert n * d == (n - 1) * d + d;
    assert (n - 1) * d >= 0;
  }

  // ---------------------------------------------------------------------
  // Round half up (Math.round)

  /** round(v / g) for g != 0, i.e. floor(v / g + 1/2) = floor((2v + g) / 2g):
      the integer k with k <= v / g + 1/2 < k + 1, written with both sides
      multiplied by 2g (which turns the inequalities round when g < 0). */
  function RoundQuotient(v: int, g: int): (k: int)
    requires g != 0
    ensures g > 0 ==> 2 * g * k <= 2 * v + g < 2 * g * k + 2 * g
    ensures g < 0 ==> 2 * g * k + 2 * g < 2 * v + g <= 2 * g * k
  {
    if g > 0 then
      FloorBounds(2 * v + g, 2 * g);
      (2 * v + g) / (2 * g)
    else
      FloorBounds(-(2 * v + g), -2 * g);
      (-(2 * v + g)) / (-2 * g)
  }

  /** Math.round(v / g) * g: the multiple of g nearest to v, halves going up
      the quotient scale. */
  function RoundToGrid(v: int, g: int): (r: int)
    requires g != 0
    ensures IsMultiple(r, g)
    ensures g > 0 ==> -g <= 2 * (v - r) < g
    ensures g < 0 ==> g < 2 * (v - r) <= -g
  {
    RoundQuotient(v, g) * g
  }

  lemma FloorBounds(a: int, d: int)
    requires d > 0
    ensures d * (a / d) <= a < d * (a / d) + d
  {
  }

  /** The rounding window determines the result: a multiple k*g of g whose
      distance to v lies in the half-open window of RoundToGrid IS
      RoundToGrid(v, g). */
  lemma RoundToGridUnique(v: int, g: int, k: int)
    requires g != 0
    requires g > 0 ==> -g <= 2 * (v - k * g) < g
    requires g < 0 ==> g < 2 * (v - k * g) <= -g
    ensures RoundToGrid(v, g) == k * g
  {
    if g > 0 {
      DivIsUnique(2 * v + g, 2 * g, k);
    } else {
      DivIsUnique(-(2 * v + g), -2 * g, k);
    }
  }

  /** Snapping an already snapped value changes nothing. */
  lemma RoundToGridIdempotent(v: int, g: int)
    requires g != 0
    ensures RoundToGrid(RoundToGrid(v, g), g) == RoundToGrid(v, g)
  {
    var r := RoundToGrid(v, g);
    var k := RoundQuotient(v, g);
    assert r == k * g;
    RoundToGridUnique(r, g, k);
  }

  /** `if (grid) { v = Math.round(v / grid) * grid }`. */
  function SnapRound(v: int, grid: int): (r: int)
    ensures grid == 0 ==> r == v
    ensures grid != 0 ==> r == RoundToGrid(v, grid)
  {
    if grid != 0 then RoundToGrid(v, grid) else v
  }

  lemma SnapRoundIdempotent(v: int, grid: int)
    ensures SnapRound(SnapRound(v, grid), grid) == SnapRound(v, grid)
  {
    if grid != 0 {
      RoundToGridIdempotent(v, grid);
    }
  }

  // ---------------------------------------------------------------------
  // Floor (Math.floor), used by the older draggable directive

  /** floor(v / g) for g != 0: the integer k with k <= v / g < k + 1,
      multiplied through by g. */
  function FloorQuotient(v: int, g: int): (k: int)
    requires g != 0
    ensures g > 0 ==> g * k <= v < g * k + g
    ensures g < 0 ==> g * k + g < v <= g * k
  {
    if g > 0 then
      FloorBounds(v, g);
      v / g
    else
      FloorBounds(-v, -g);
      (-v) / (-g)
  }

  /** Math.floor(v / g) * g: the multiple of g at or below v on the quotient scale. */
  function FloorToGrid(v: int, g: int): (r: int)
    requires g != 0
    ensures IsMultiple(r, g)
    ensures g > 0 ==> 0 <= v - r < g
    ensures g < 0 ==> g < v - r <= 0
  {
    FloorQuotient(v, g) * g
  }

  /** The floor window determines the result. */
  lemma FloorToGridUnique(v: int, g: int, k: int)
    requires g != 0
    requires g > 0 ==> 0 <= v - k * g < g
    requires g < 0 ==> g < v - k * g <= 0
    ensures FloorToGrid(v, g) == k * g
  {
    if g > 0 {
      DivIsUnique(v, g, k);
    } else {
      DivIsUnique(-v, -g, k);
    }
  }

  lemma FloorToGridIdempotent(v: int, g: int)
    requires g != 0
    ensures FloorToGrid(FloorToGrid(v, g), g) == FloorToGrid(v, g)
  {
    var k := FloorQuotient(v, g);
    FloorToGridUnique(k * g, g, k);
  }

  /** `if (grid) { v = Math.floor(v / grid) * grid }`. */
  function SnapFloor(v: int, grid: int): (r: int)
    ensures grid == 0 ==> r == v
    ensures grid != 0 ==> r == FloorToGrid(v, grid)
  {
    if grid != 0 then FloorToGrid(v, grid) else v
  }

  /** Where the two policies part: with a grid of 10 a displacement of 9
      floors to 0 but rounds to 10; halves round up, towards positive
      infinity, as `Math.round` does. */
  lemma FloorAndRoundDiffer()
    ensures SnapFloor(9, 10) == 0 && SnapFloor(10, 10) == 10
    ensures SnapRound(9, 10) == 10 && SnapRound(4, 10) == 0
    ensures SnapRound(5, 10) == 10 && SnapRound(-5, 10) == 0 && SnapRound(-6, 10) == -10
  {
    FloorToGridUnique(9, 10, 0);
    FloorToGridUnique(10, 10, 1);
    RoundToGridUnique(9, 10, 1);
    RoundToGridUnique(4, 10, 0);
    RoundToGridUnique(5, 10, 1);
    RoundToGridUnique(-5, 10, 0);
    RoundToGridUnique(-6, 10, -1);
  }
}
