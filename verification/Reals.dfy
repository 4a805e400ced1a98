/** Products of reals: the few facts the solver is better told than left to find. */
module Reals {

  lemma Distribute(a: real, b: real, c: real)
    ensures (a + b) * c == a * c + b * c
  {
  }

  /** Scaling by something non-negative keeps an order, and by something positive a strict one. */
  lemma ScaleKeepsOrder(x: real, y: real, c: real)
    requires x <= y && c >= 0.0
    ensures x * c <= y * c
    ensures x < y && c > 0.0 ==> x * c < y * c
  {
    var d := y - x;
    assert d * c >= 0.0;
    Distribute(x, d, c);
  }
}
