/** Two-dimensional vectors over the reals, standing in for the game engine's
    vector objects. Lengths are compared through their squares so that no
    square root is needed: `length(v) < c` with `c >= 0` is `LengthSq(v) < c * c`. */
module Geometry {

  datatype Vec = Vec(x: real, y: real)

  const Zero: Vec := Vec(0.0, 0.0)

  function Sub(a: Vec, b: Vec): Vec {
    Vec(a.x - b.x, a.y - b.y)
  }

  function Scale(v: Vec, c: real): Vec {
    Vec(v.x * c, v.y * c)
  }

  /** The square of the Euclidean length. */
  function LengthSq(v: Vec): (r: real)
    ensures r >= 0.0
  {
    SquareNonNegative(v.x);
    SquareNonNegative(v.y);
    v.x * v.x + v.y * v.y
  }

  lemma SquareNonNegative(a: real)
    ensures a * a >= 0.0
  {
    if a < 0.0 {
      var b := 0.0 - a;
      assert b * b == a * a;
    }
  }

  function Abs(r: real): (a: real)
    ensures a >= 0.0 && (a == r || a == -r)
  {
    if r < 0.0 then -r else r
  }

  /** Scaling a vector by `c` scales its squared length by `c * c`. */
  lemma LengthSqScale(v: Vec, c: real)
    ensures LengthSq(Scale(v, c)) == c * c * LengthSq(v)
  {
    calc {
      LengthSq(Scale(v, c));
      (v.x * c) * (v.x * c) + (v.y * c) * (v.y * c);
      c * c * (v.x * v.x) + c * c * (v.y * v.y);
      c * c * LengthSq(v);
    }
  }

  /** Scaling by a factor in [0, 1] never makes a vector longer. */
  lemma ScaleShrinks(v: Vec, c: real)
    requires 0.0 <= c <= 1.0
    ensures LengthSq(Scale(v, c)) <= LengthSq(v)
  {
    var l := LengthSq(v);
    var k := c * c;
    LengthSqScale(v, c);
    assert k <= 1.0 by { assert c * c <= c * 1.0; }
    AtMostOneScales(k, l);
  }

  lemma AtMostOneScales(k: real, l: real)
    requires k <= 1.0 && l >= 0.0
    ensures k * l <= l
  {
    assert (1.0 - k) * l >= 0.0;
  }
}
