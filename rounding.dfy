/**
 * Python's `round(x, 2)`, taken on exact decimals: the nearest multiple of
 * 0.01, ties going to the even hundredth. NaN (`None`) rounds to NaN.
 */
module Rounding {
  import opened Wrappers

  /** The integer nearest to `y`, ties to even. */
  function RoundHalfEven(y: real): (k: int)
    ensures -0.5 <= k as real - y <= 0.5
    ensures (k as real - y == 0.5 || y - k as real == 0.5) ==> k % 2 == 0
    ensures y == y.Floor as real ==> k == y.Floor
  {
    var f := y.Floor;
    var frac := y - f as real;
    if frac < 0.5 then f
    else if frac > 0.5 then f + 1
    else if f % 2 == 0 then f
    else f + 1
  }

  /** `round(x, 2)`. */
  function Round2(x: real): (r: real)
    ensures -0.005 <= r - x <= 0.005
    ensures (r * 100.0).Floor as real == r * 100.0
    ensures (r - x == 0.005 || x - r == 0.005) ==> (r * 100.0).Floor % 2 == 0
  {
    RoundHalfEven(x * 100.0) as real / 100.0
  }

  /** `round(x, 2)` on a value that may be NaN. */
  function RoundOption(x: Option<real>): (r: Option<real>)
    ensures r.Some? <==> x.Some?
  {
    match x
    case None => None
    case Some(v) => Some(Round2(v))
  }

  lemma RoundHalfEvenMonotone(y1: real, y2: real)
    requires y1 <= y2
    ensures RoundHalfEven(y1) <= RoundHalfEven(y2)
  {
    var f1, f2 := y1.Floor, y2.Floor;
    assert f1 <= f2;
    if f1 < f2 {
      assert RoundHalfEven(y1) <= f1 + 1 <= f2 <= RoundHalfEven(y2);
    }
  }

  /** Rounding keeps the order of its arguments. */
  lemma Round2Monotone(x1: real, x2: real)
    requires x1 <= x2
    ensures Round2(x1) <= Round2(x2)
  {
    RoundHalfEvenMonotone(x1 * 100.0, x2 * 100.0);
  }

  /** A whole number of hundredths is left unchanged. */
  lemma Round2Exact(k: int)
    ensures Round2(k as real / 100.0) == k as real / 100.0
  {
    var y := k as real / 100.0 * 100.0;
    assert y == k as real;
    assert RoundHalfEven(y) == k;
  }

  /** Rounding a value within [lo, hi], both whole hundredths, stays within them. */
  lemma Round2Within(x: real, lo: int, hi: int)
    requires lo as real / 100.0 <= x <= hi as real / 100.0
    ensures lo as real / 100.0 <= Round2(x) <= hi as real / 100.0
  {
    Round2Monotone(lo as real / 100.0, x);
    Round2Monotone(x, hi as real / 100.0);
    Round2Exact(lo);
    Round2Exact(hi);
  }

  /** The complement of a rounded percentage is already rounded: `round(100 - round(p, 2), 2)`. */
  lemma ComplementRounded(p: real)
    ensures Round2(100.0 - Round2(p)) == 100.0 - Round2(p)
  {
    var k := RoundHalfEven(p * 100.0);
    assert 100.0 - Round2(p) == (10000 - k) as real / 100.0;
    Round2Exact(10000 - k);
  }
}
