/** Products and remainders, one fact at a time. */
module Arithmetic {

  lemma Products(c: real, a: real, b: real)
    requires c >= 0.0 && a <= b
    ensures c * a <= c * b && a * c <= b * c
  {
  }

  lemma ProductsStrict(c: real, a: real, b: real)
    requires c > 0.0 && a < b
    ensures a * c < b * c
  {
  }

  lemma Positive(a: real, b: real)
    requires a >= 0.0 && b >= 0.0
    ensures a * b >= 0.0
  {
  }

  lemma Negative(a: int, b: int)
    requires a <= 0 && b >= 0
    ensures a * b <= 0
  {
  }

  lemma ProductsInt(a: int, b: int, n: nat)
    requires a <= b
    ensures a * n <= b * n
  {
  }

  lemma ModIs(a: int, n: nat, q: int, r: nat)
    requires a == q * n + r && r < n
    ensures a % n == r
  {
    var q' := a / n;
    assert a == q' * n + a % n;
    if q' > q { ProductsInt(q + 1, q', n); }
    if q' < q { ProductsInt(q' + 1, q, n); }
  }
}
