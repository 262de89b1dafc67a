/** Integer helpers and Python's round() on a quotient, taken as exact rational arithmetic. */
module Numeric {

  function Max(a: int, b: int): int {
    if a >= b then a else b
  }

  function Min(a: int, b: int): int {
    if a <= b then a else b
  }

  function Abs(a: int): nat {
    if a >= 0 then a else -a
  }

  /** `round(p / q)` with ties to even: the integer nearest to p/q, and the even one of the two when p/q lies
      exactly half-way between two integers. */
  function RoundHalfEven(p: int, q: int): (r: int)
    requires q > 0
    ensures 2 * Abs(p - r * q) <= q
    ensures 2 * Abs(p - r * q) == q ==> r % 2 == 0
  {
    var f := p / q;
    var m := p % q;
    assert p == f * q + m && 0 <= m < q;
    assert (f + 1) * q == f * q + q;
    if 2 * m < q then f
    else if 2 * m > q then f + 1
    else if f % 2 == 0 then f
    else f + 1
  }

  /** Whenever p/q lies strictly less than half a unit away from t, round(p / q) is t. */
  lemma RoundNearest(p: int, q: int, t: int)
    requires q > 0 && 2 * Abs(p - t * q) < q
    ensures RoundHalfEven(p, q) == t
  {
    var r := RoundHalfEven(p, q);
    MulSign(r - t, q);
    assert (r - t) * q == (p - t * q) - (p - r * q);
  }

  lemma MulSign(d: int, q: int)
    requires q > 0
    ensures d >= 1 ==> d * q >= q
    ensures d <= -1 ==> d * q <= -q
  {
    if d >= 1 {
      assert d * q == (d - 1) * q + q;
    } else if d <= -1 {
      assert d * q == (d + 1) * q - q;
    }
  }
}
