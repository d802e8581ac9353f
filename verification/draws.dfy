/**
 * The randomness of the particle field, made explicit.
 *
 * Every `Math.random()` call of script.js becomes an input of type `Unit`
 * (a real in [0, 1)), so that every spawner is a deterministic function of
 * its draws and each range it promises can be checked for all draws.
 */
module Draws {

  /** A value of `Math.random()`: a real in [0, 1). */
  type Unit = u: real | 0.0 <= u < 1.0

  /** The pair (cos a, sin a) for an angle a. */
  datatype Direction = Direction(cos: real, sin: real)

  /**
   * The direction of an angle drawn from [-pi, 0): a point of the lower half
   * of the unit circle, (1, 0) excluded and (-1, 0) included.
   */
  type Heading = h: Direction
    | && -1.0 <= h.cos <= 1.0 && -1.0 <= h.sin <= 0.0
      && h.cos * h.cos + h.sin * h.sin == 1.0
      && (h.sin < 0.0 || h.cos == -1.0)
    witness Direction(-1.0, 0.0)

  /**
   * `random(min, max)`: scales one draw of `Math.random()` onto the
   * half-open interval between `lo` and `hi`. When `hi < lo` (a viewport
   * narrower than the margins) the interval is mirrored.
   */
  function Random(u: Unit, lo: real, hi: real): (r: real)
    ensures lo < hi ==> lo <= r < hi
    ensures lo == hi ==> r == lo
    ensures hi < lo ==> hi < r <= lo
  {
    var w := hi - lo;
    var m := u * w;
    Scaled(u, w, m);
    m + lo
  }

  /** Every value of [lo, hi) is reached by exactly one draw. */
  lemma RandomOnto(lo: real, hi: real, r: real) returns (u: Unit)
    requires lo <= r < hi
    ensures Random(u, lo, hi) == r
    ensures forall v: Unit :: Random(v, lo, hi) == r ==> v == u
  {
    var w := hi - lo;
    var q := (r - lo) / w;
    assert q * w == r - lo;
    DivBelowOne(r - lo, w);
    u := q;
    forall v: Unit | Random(v, lo, hi) == r
      ensures v == u
    {
      assert v * w == u * w;
      assert (v - u) * w == v * w - u * w;
      assert !(v < u);
      assert !(u < v);
    }
  }

  /**
   * A larger draw never yields a smaller value when `lo <= hi`, and never a
   * larger one over a mirrored interval.
   */
  lemma RandomMonotone(u: Unit, v: Unit, lo: real, hi: real)
    requires u <= v
    ensures lo <= hi ==> Random(u, lo, hi) <= Random(v, lo, hi)
    ensures hi <= lo ==> Random(v, lo, hi) <= Random(u, lo, hi)
  {
    var w := hi - lo;
    assert (v - u) * w == v * w - u * w;
    assert Random(v, lo, hi) - Random(u, lo, hi) == v * w - u * w;
    if lo <= hi {
      NonNegative(v - u, w);
    } else {
      NonNegative(v - u, -w);
      assert (v - u) * -w == -((v - u) * w);
    }
  }

  /** `Math.round(x)`: the nearest integer, halves rounded up. */
  function Round(x: real): (n: int)
    ensures x - 0.5 < n as real <= x + 0.5
  {
    (x + 0.5).Floor
  }

  /** Rounding `Math.random() * k` gives one of 0, 1, ..., k. */
  lemma RoundScaledDraw(u: Unit, k: nat)
    ensures 0 <= Round(u * k as real) <= k
  {
    ScaledDraw(u, k as real);
  }

  /** Scaling a draw by w lands between 0 (included) and w (excluded). */
  lemma ScaledDraw(u: Unit, w: real)
    ensures 0.0 < w ==> 0.0 <= u * w < w
    ensures w < 0.0 ==> w < u * w <= 0.0
  {
    if 0.0 < w {
      Positive(1.0 - u, w);
      if u > 0.0 { Positive(u, w); }
    } else if w < 0.0 {
      Positive(1.0 - u, -w);
      if u > 0.0 { Positive(u, -w); }
    }
  }

  /** `ScaledDraw` for a product already bound to a name. */
  lemma Scaled(u: Unit, w: real, m: real)
    requires m == u * w
    ensures 0.0 < w ==> 0.0 <= m < w
    ensures w < 0.0 ==> w < m <= 0.0
  {
    ScaledDraw(u, w);
  }

  lemma DivBelowOne(a: real, w: real)
    requires 0.0 <= a < w
    ensures 0.0 <= a / w < 1.0
  {
    var q := a / w;
    assert q * w == a;
    var d := (w - a) / w;
    assert d * w == w - a;
    assert q + d == 1.0;
  }

  lemma Positive(a: real, b: real)
    requires 0.0 < a && 0.0 < b
    ensures 0.0 < a * b
  {
  }

  lemma NonNegative(a: real, b: real)
    requires 0.0 <= a && 0.0 <= b
    ensures 0.0 <= a * b
  {
    if 0.0 < a && 0.0 < b { Positive(a, b); }
  }
}
