/** Products and remainders the solver does not get on its own. */
module Arithmetic {

  lemma {:induction false} Monotone(a: nat, b: nat, r: nat)
    ensures a <= b ==> a * r <= b * r
    ensures a < b ==> a * r + r <= b * r
  {
    if a < b {
      Monotone(a, b - 1, r);
      assert (b - 1) * r + r == b * r;
    }
  }

  /** Quotient and remainder are the only such pair. */
  lemma DivIs(a: nat, q: nat, m: nat, r: nat)
    requires r > 0 && m < r && a == q * r + m
    ensures a / r == q && a % r == m
  {
    Monotone(q, a / r, r);
    Monotone(a / r, q, r);
  }

  lemma ModNext(x: nat, r: nat)
    requires r > 0
    ensures (x % r + 1) % r == (x + 1) % r
  {
    var q, m := x / r, x % r;
    if m + 1 < r {
      DivIs(x + 1, q, m + 1, r);
      DivIs(m + 1, 0, m + 1, r);
    } else {
      assert (q + 1) * r == q * r + r;
      DivIs(x + 1, q + 1, 0, r);
      DivIs(m + 1, 1, 0, r);
    }
  }
}
