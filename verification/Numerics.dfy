/** Facts about products and quotients that the solver does not find on its own. */
module Numerics {

  lemma MulMono(a: int, b: int, c: int)
    requires a <= b && 0 <= c
    ensures a * c <= b * c
    ensures c * a <= c * b
  {
  }

  lemma MulStep(a: int, b: int)
    ensures (a + 1) * b == a * b + b
    ensures b * (a + 1) == b * a + b
  {
  }

  lemma DivLower(k: int, r: int, x: int)
    requires r > 0 && k * r <= x
    ensures k <= x / r
  {
    var q := x / r;
    assert x < q * r + r;
    MulStep(q, r);
    if q < k {
      MulMono(q + 1, k, r);
      assert false;
    }
  }

  lemma DivUpper(k: int, r: int, x: int)
    requires r > 0 && x < (k + 1) * r
    ensures x / r <= k
  {
    var q := x / r;
    assert q * r <= x;
    if k < q {
      MulMono(k + 1, q, r);
      assert false;
    }
  }

  lemma DivUnique(q: int, r: int, x: int)
    requires r > 0 && q * r <= x < q * r + r
    ensures x / r == q && x % r == x - q * r
  {
    MulStep(q, r);
    DivLower(q, r, x);
    DivUpper(q, r, x);
  }
}
