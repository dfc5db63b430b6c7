/** Facts about Euclidean division used by the buffer layout and the timestamp arithmetic. */
module Arith {

  /** Multiplying by a positive `d` keeps distinct integers at least `d` apart. */
  lemma MulOrder(a: int, b: int, d: int)
    requires d >= 1
    ensures a < b ==> a * d + d <= b * d
  {
    if a < b {
      var k := b - a;
      assert b * d == a * d + k * d;
      assert k * d >= d;
    }
  }

  /** Euclidean quotient characterised by its bounds. */
  lemma DivByBounds(x: int, d: int, q: int)
    requires d >= 1 && q * d <= x < q * d + d
    ensures x / d == q && x % d == x - q * d
  {
    var q', r' := x / d, x % d;
    assert x == q' * d + r' && 0 <= r' < d;
    MulOrder(q', q, d);
    MulOrder(q, q', d);
  }

  /** The residue of `m * step + d`, for `0 <= d < step`, is `d`. */
  lemma ModOfMultiplePlus(m: int, step: int, d: int)
    requires step >= 1 && 0 <= d < step
    ensures (m * step + d) % step == d && (m * step + d) / step == m
  {
    DivByBounds(m * step + d, step, m);
  }
}
