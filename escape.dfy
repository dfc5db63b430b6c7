/**
  * The escape-time evaluators mb_get_color_from_pos and julia_get_color_from_pos,
  * over exact real arithmetic. Both iterate z := z^2 + c from the plane point
  * (xc, yc) until |z|^2 > 4 or the iteration cap is reached, and return the
  * palette entry of the iteration count. The Mandelbrot evaluator adds the
  * start point itself each step; the Julia evaluator adds a fixed seed.
  */
module Escape {
  import opened Palette

  /** The bail-out test: the point lies outside the circle of radius 2. */
  predicate Escaped(x: real, y: real)
  {
    x * x + y * y > 4.0
  }

  /** One step z := z^2 + c with z = x + iy and c = cx + i cy. */
  function Step(x: real, y: real, cx: real, cy: real): (real, real)
  {
    (x * x - y * y + cx, 2.0 * x * y + cy)
  }

  /** The point reached after `k` steps from (x, y). */
  function Orbit(k: nat, x: real, y: real, cx: real, cy: real): (real, real)
  {
    if k == 0 then (x, y)
    else var (x', y') := Step(x, y, cx, cy); Orbit(k - 1, x', y', cx, cy)
  }

  /**
    * How many steps the evaluator loop takes from (x, y) with at most `budget`
    * steps: it stops before stepping once the current point has escaped.
    */
  function EscapeCount(budget: nat, x: real, y: real, cx: real, cy: real): (n: nat)
    ensures n <= budget
    ensures budget > 0 && Escaped(x, y) ==> n == 0
    ensures budget > 0 && !Escaped(x, y) ==> n >= 1
  {
    if budget == 0 || Escaped(x, y) then 0
    else
      var (x', y') := Step(x, y, cx, cy);
      1 + EscapeCount(budget - 1, x', y', cx, cy)
  }

  /**
    * The count is the first escape along the orbit: no point before step `n`
    * has escaped, and when the budget was not used up the point at step `n` has.
    */
  lemma {:induction false} EscapeCountIsFirstEscape(budget: nat, x: real, y: real, cx: real, cy: real)
    ensures var n := EscapeCount(budget, x, y, cx, cy);
      && (forall k | 0 <= k < n :: !Escaped(Orbit(k, x, y, cx, cy).0, Orbit(k, x, y, cx, cy).1))
      && (n < budget ==> Escaped(Orbit(n, x, y, cx, cy).0, Orbit(n, x, y, cx, cy).1))
  {
    if budget > 0 && !Escaped(x, y) {
      var (x', y') := Step(x, y, cx, cy);
      EscapeCountIsFirstEscape(budget - 1, x', y', cx, cy);
      var n := EscapeCount(budget, x, y, cx, cy);
      forall k | 0 <= k < n
        ensures !Escaped(Orbit(k, x, y, cx, cy).0, Orbit(k, x, y, cx, cy).1)
      {
        if k > 0 {
          assert Orbit(k, x, y, cx, cy) == Orbit(k - 1, x', y', cx, cy);
        }
      }
      assert n > 0 ==> Orbit(n, x, y, cx, cy) == Orbit(n - 1, x', y', cx, cy);
    }
  }

  /**
    * Conversely, a step count `m` within the budget that has no earlier escape
    * and, unless it is the whole budget, escapes at step `m`, is the count.
    */
  lemma {:induction false} FirstEscapeIsEscapeCount(budget: nat, x: real, y: real, cx: real, cy: real, m: nat)
    requires m <= budget
    requires forall k | 0 <= k < m :: !Escaped(Orbit(k, x, y, cx, cy).0, Orbit(k, x, y, cx, cy).1)
    requires m < budget ==> Escaped(Orbit(m, x, y, cx, cy).0, Orbit(m, x, y, cx, cy).1)
    ensures EscapeCount(budget, x, y, cx, cy) == m
  {
    if m > 0 {
      assert !Escaped(Orbit(0, x, y, cx, cy).0, Orbit(0, x, y, cx, cy).1);
      var (x', y') := Step(x, y, cx, cy);
      forall k | 0 <= k < m - 1
        ensures !Escaped(Orbit(k, x', y', cx, cy).0, Orbit(k, x', y', cx, cy).1)
      {
        assert Orbit(k + 1, x, y, cx, cy) == Orbit(k, x', y', cx, cy);
      }
      assert Orbit(m, x, y, cx, cy) == Orbit(m - 1, x', y', cx, cy);
      FirstEscapeIsEscapeCount(budget - 1, x', y', cx, cy, m - 1);
    }
  }

  /** The loop cap: a cap of zero or less lets the loop run no step. */
  function Budget(maxIterations: int): nat
  {
    if maxIterations < 0 then 0 else maxIterations
  }

  /** Palette index of plane point (xc, yc) for the Mandelbrot set: the orbit of c = (xc, yc) from z = c. */
  function MandelbrotIndex(maxIterations: int, xc: real, yc: real): (n: nat)
    ensures n <= Budget(maxIterations)
  {
    EscapeCount(Budget(maxIterations), xc, yc, xc, yc)
  }

  /** Palette index of plane point (xc, yc) for the Julia set of seed (x0, y0): the orbit of c = (x0, y0) from z = (xc, yc). */
  function JuliaIndex(maxIterations: int, x0: real, y0: real, xc: real, yc: real): (n: nat)
    ensures n <= Budget(maxIterations)
  {
    EscapeCount(Budget(maxIterations), xc, yc, x0, y0)
  }

  /** A point that starts outside radius 2 gets palette entry 0 from either evaluator. */
  lemma FirstStepEscape(maxIterations: int, x0: real, y0: real, xc: real, yc: real)
    requires maxIterations >= 1 && Escaped(xc, yc)
    ensures MandelbrotIndex(maxIterations, xc, yc) == 0
    ensures JuliaIndex(maxIterations, x0, y0, xc, yc) == 0
  {
  }

  /** mb_get_color_from_pos: iterate from (xc, yc) adding (xc, yc) each step, then look up the palette. */
  method MbGetColorFromPos(palette: seq<Color>, maxIterations: int, xc: real, yc: real) returns (color: Color)
    requires |palette| == Budget(maxIterations) + 1
    ensures color == palette[MandelbrotIndex(maxIterations, xc, yc)]
  {
    var x, y := xc, yc;
    var iterations := 0;
    while iterations < maxIterations
      invariant 0 <= iterations <= Budget(maxIterations)
      invariant iterations + EscapeCount(Budget(maxIterations) - iterations, x, y, xc, yc)
        == MandelbrotIndex(maxIterations, xc, yc)
    {
      var xx := x * x;
      var yy := y * y;
      if xx + yy > 4.0 {
        break;
      }
      y := 2.0 * x * y + yc;
      x := xx - yy + xc;
      iterations := iterations + 1;
    }
    color := palette[iterations];
  }

  /** julia_get_color_from_pos: iterate from (xc, yc) adding the seed (x0, y0) each step, then look up the palette. */
  method JuliaGetColorFromPos(palette: seq<Color>, maxIterations: int, x0: real, y0: real, xc: real, yc: real)
    returns (color: Color)
    requires |palette| == Budget(maxIterations) + 1
    ensures color == palette[JuliaIndex(maxIterations, x0, y0, xc, yc)]
  {
    var x, y := xc, yc;
    var iterations := 0;
    while iterations < maxIterations
      invariant 0 <= iterations <= Budget(maxIterations)
      invariant iterations + EscapeCount(Budget(maxIterations) - iterations, x, y, x0, y0)
        == JuliaIndex(maxIterations, x0, y0, xc, yc)
    {
      var xx := x * x;
      var yy := y * y;
      if xx + yy > 4.0 {
        break;
      }
      y := 2.0 * x * y + y0;
      x := xx - yy + x0;
      iterations := iterations + 1;
    }
    color := palette[iterations];
  }
}
