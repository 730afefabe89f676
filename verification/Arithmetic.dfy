/** Facts of integer arithmetic the proofs use. */
module Arithmetic {

  function CeilDiv(n: nat, d: nat): nat
    requires d > 0
  {
    (n + d - 1) / d
  }

  function Min(a: nat, b: nat): nat { if a < b then a else b }

  lemma DivStep(n: nat, d: nat)
    requires 0 < d <= n
    ensures n / d == (n - d) / d + 1
    ensures n % d == (n - d) % d
  {
    var q, r := n / d, n % d;
    assert n == d * q + r;
    DivUnique(n - d, d, q - 1, r);
  }

  lemma DivUnique(n: int, d: int, q: int, r: int)
    requires d > 0 && 0 <= r < d && n == d * q + r
    ensures n / d == q && n % d == r
  {
    var k := n / d - q;
    assert d * k == r - n % d;
    MulBounds(d, k);
  }

  lemma MulBounds(d: int, k: int)
    requires d > 0
    ensures k >= 1 ==> d * k >= d
    ensures k <= -1 ==> d * k <= -d
  {
  }

  lemma CeilDivStep(n: nat, d: nat)
    requires 0 < d <= n
    ensures CeilDiv(n, d) == CeilDiv(n - d, d) + 1
  {
    DivStep(n + d - 1, d);
  }

  lemma CeilDivSmall(n: nat, d: nat)
    requires 0 < n <= d
    ensures CeilDiv(n, d) == 1
  {
    DivUnique(n + d - 1, d, 1, n - 1);
  }

  lemma CeilDivAbove(n: nat, d: nat, j: nat)
    requires d > 0 && d * j < n
    ensures j < CeilDiv(n, d)
  {
    var q, r := (n + d - 1) / d, (n + d - 1) % d;
    assert n + d - 1 == d * q + r;
    var k := q - j - 1;
    assert d * k == d * q - d * j - d;
    MulBounds(d, k);
  }
}
