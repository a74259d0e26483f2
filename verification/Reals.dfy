/** Real arithmetic shared by the timed models. */
module Reals {

  function Max(a: real, b: real): real { if a < b then b else a }

  function Min(a: real, b: real): real { if a < b then a else b }

  lemma ProductNonNegative(a: real, b: real)
    requires 0.0 <= a && 0.0 <= b
    ensures 0.0 <= a * b
  {
  }

  lemma ScaleOrder(a: real, b: real, k: real)
    requires 0.0 < k
    ensures a <= b <==> a * k <= b * k
    ensures a * k - b * k == (a - b) * k
  {
    if a <= b {
      ProductNonNegative(b - a, k);
    } else {
      assert 0.0 < (a - b) * k;
    }
  }

  lemma QuotientTimesDivisor(a: real, k: real)
    requires 0.0 < k
    ensures a / k * k == a
  {
  }

  lemma CeilIsLeast(x: real, n: int)
    ensures -(-x).Floor <= n <==> x <= n as real
  {
    var f := (-x).Floor;
    assert f as real <= -x < (f + 1) as real;
    if -f <= n {
      assert (-f) as real <= n as real;
    } else {
      assert n + 1 <= -f;
      assert (n + 1) as real <= (-f) as real;
    }
  }

  /** How many whole steps fit in `span`. */
  function Wholes(span: real, step: real): nat
    requires 0.0 < step && 0.0 <= span
  {
    WholeSteps(0, step, span);
    (span / step).Floor
  }

  lemma WholeSteps(n: nat, step: real, span: real)
    requires 0.0 < step && 0.0 <= span && (n > 0 ==> n as real * step <= span)
    ensures n <= (span / step).Floor
  {
    QuotientTimesDivisor(span, step);
    ScaleOrder(0.0, span / step, step);
    ScaleOrder(n as real, span / step, step);
  }
}
