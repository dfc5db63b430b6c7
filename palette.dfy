/**
  * The colour table built by mb_prepare: entry `i` of a table for `max`
  * iterations blends three cubic curves of `t = i / max`, each scaled by 256
  * and converted to a byte.
  */
module Palette {

  /** An unsigned 8-bit value (png_byte, uint8_t). */
  type Byte = b: int | 0 <= b < 256

  /** One RGB palette entry (png_color). */
  datatype Color = Color(red: Byte, green: Byte, blue: Byte)

  const Black: Color := Color(0, 0, 0)

  /** The `(png_byte)` conversion of a non-negative value below 256: truncation toward zero. */
  function ToByte(v: real): Byte
    requires 0.0 <= v < 256.0
  {
    v.Floor
  }

  /** Red intensity before conversion: 256 * 9.4 * (1 - t) * t^3. */
  function RedLevel(t: real): real
  {
    256.0 * 9.4 * (1.0 - t) * t * t * t
  }

  /** Green intensity before conversion: 256 * 15.9 * (1 - t)^2 * t^2. */
  function GreenLevel(t: real): real
  {
    256.0 * 15.9 * (1.0 - t) * (1.0 - t) * t * t
  }

  /** Blue intensity before conversion: 256 * 9.4 * (1 - t)^3 * t. */
  function BlueLevel(t: real): real
  {
    256.0 * 9.4 * (1.0 - t) * (1.0 - t) * (1.0 - t) * t
  }

  lemma MulNonNegative(a: real, b: real)
    requires a >= 0.0 && b >= 0.0
    ensures a * b >= 0.0
  {
  }

  /** On [0, 1], (1 - s) * s^3 peaks at s = 3/4 with value 27/256. */
  lemma CubicBound(s: real)
    requires 0.0 <= s <= 1.0
    ensures 0.0 <= (1.0 - s) * s * s * s <= 27.0 / 256.0
  {
    var u := (1.0 - s) * s * s * s;
    var g := (s - 0.75) * (s - 0.75);
    var h := s * s + s / 2.0 + 3.0 / 16.0;
    assert 27.0 / 256.0 - u == g * h;
    MulNonNegative(g, h);
    MulNonNegative(s * s, s);
    MulNonNegative(1.0 - s, s * s * s);
  }

  /** On [0, 1], (1 - s)^2 * s^2 is at most 1/16. */
  lemma SquareBound(s: real)
    requires 0.0 <= s <= 1.0
    ensures 0.0 <= (1.0 - s) * (1.0 - s) * s * s <= 1.0 / 16.0
  {
    var p := (1.0 - s) * s;
    assert 0.25 - p == (s - 0.5) * (s - 0.5);
    MulNonNegative(1.0 - s, s);
    assert (1.0 - s) * (1.0 - s) * s * s == p * p;
    MulNonNegative(p, 0.25 - p);
    MulNonNegative(0.25 - p, 0.25 + p);
  }

  /** No channel of the formula leaves the byte range, so the conversion never wraps. */
  lemma LevelsFitInByte(t: real)
    requires 0.0 <= t <= 1.0
    ensures 0.0 <= RedLevel(t) < 256.0
    ensures 0.0 <= GreenLevel(t) < 256.0
    ensures 0.0 <= BlueLevel(t) < 256.0
  {
    CubicBound(t);
    assert RedLevel(t) == 2406.4 * ((1.0 - t) * t * t * t);
    SquareBound(t);
    assert GreenLevel(t) == 4070.4 * ((1.0 - t) * (1.0 - t) * t * t);
    CubicBound(1.0 - t);
    assert BlueLevel(t) == 2406.4 * ((1.0 - (1.0 - t)) * (1.0 - t) * (1.0 - t) * (1.0 - t));
  }

  /**
    * Entry `i` of the table for `max` iterations. The two ends of the table are black:
    * at `i == 0` every curve has the factor t = 0, at `i == max` the factor 1 - t = 0.
    */
  function Entry(i: int, max: int): (c: Color)
    requires 1 <= max && 0 <= i <= max
    ensures i == 0 ==> c == Black
    ensures i == max ==> c == Black
  {
    var t := i as real / max as real;
    LevelsFitInByte(t);
    Color(ToByte(RedLevel(t)), ToByte(GreenLevel(t)), ToByte(BlueLevel(t)))
  }

  /** The whole table for `max` iterations: max + 1 entries, one per iteration count 0 .. max. */
  function Table(max: int): (p: seq<Color>)
    requires max >= 1
    ensures |p| == max + 1
    ensures p[0] == Black && p[max] == Black
  {
    seq(max + 1, i requires 0 <= i <= max => Entry(i, max))
  }
}
