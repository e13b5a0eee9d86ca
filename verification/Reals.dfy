/** Facts about products, quotients and sizes of real numbers, each proved away from larger contexts. */
module Reals {

  function Abs(x: real): real { if x < 0.0 then -x else x }

  /** The nearest number in [0, 1]. */
  function Unit(x: real): (y: real)
    ensures 0.0 <= y <= 1.0 && (0.0 <= x <= 1.0 ==> y == x)
  {
    if x < 0.0 then 0.0 else if x > 1.0 then 1.0 else x
  }

  // ---- Products and quotients that a proof opens only by asking ----

  // ProductAfter and QuotientAfter count down one step before they multiply or divide, so that the verifier
  // does not unfold them on its own; a proof that needs the definition calls ProductIs or QuotientIs. The same
  // is done for Lloyd.Round and for LifecycleRuns.Lifecycle, Given and Next, each opened by a lemma of its own.

  function ProductAfter(x: real, y: real, steps: nat): real
    decreases steps, x
  {
    if steps == 0 then x * y else ProductAfter(x, y, steps - 1)
  }

  /** x * y. */
  function Product(x: real, y: real): real { ProductAfter(x, y, 1) }

  lemma ProductIs(x: real, y: real)
    ensures Product(x, y) == x * y
  {
    assert ProductAfter(x, y, 1) == ProductAfter(x, y, 0);
  }

  function QuotientAfter(x: real, y: real, steps: nat): real
    requires y != 0.0
    decreases steps, x
  {
    if steps == 0 then x / y else QuotientAfter(x, y, steps - 1)
  }

  /** x / y. */
  function Quotient(x: real, y: real): real
    requires y != 0.0
  {
    QuotientAfter(x, y, 1)
  }

  lemma QuotientIs(x: real, y: real)
    requires y != 0.0
    ensures Quotient(x, y) == x / y
  {
    assert QuotientAfter(x, y, 1) == QuotientAfter(x, y, 0);
  }

  lemma ProductOfSum(a: real, b: real, c: real)
    ensures Product(a + b, c) == Product(a, c) + Product(b, c)
  {
    ProductIs(a + b, c);
    ProductIs(a, c);
    ProductIs(b, c);
    DistributeReal(a, b, c);
  }

  lemma ProductOfSize(x: real, c: real)
    requires c >= 0.0
    ensures Abs(Product(x, c)) == Product(Abs(x), c)
  {
    ProductIs(x, c);
    ProductIs(Abs(x), c);
    if x >= 0.0 {
      NonNegativeProduct(x, c);
    } else {
      NonNegativeProduct(-x, c);
    }
  }

  lemma ProductOfQuotient(a: real, r: real)
    requires a > 0.0
    ensures Product(a, Quotient(r, a)) == r
  {
    QuotientIs(r, a);
    ProductIs(a, r / a);
    DivideBack(r, a);
  }

  lemma ProductMono(x: real, r: real, q: real)
    requires x >= 0.0 && r <= q
    ensures Product(x, r) <= Product(x, q)
  {
    ProductIs(x, r);
    ProductIs(x, q);
    RealMono(r, q, x);
  }

  lemma ProductBelow(x: real, q: real)
    requires x >= 0.0 && q <= 1.0
    ensures Product(x, q) <= x
  {
    ProductIs(x, q);
    NonNegativeProduct(x, 1.0 - q);
    assert x * (1.0 - q) == x - x * q;
  }

  lemma ProductPositive(x: real, r: real)
    requires x >= 0.0 && r > 0.0
    ensures Product(x, r) >= 0.0 && (x > 0.0 ==> Product(x, r) > 0.0)
  {
    ProductIs(x, r);
    NonNegativeProduct(x, r);
    if x > 0.0 {
      PositiveProduct(x, r);
    }
  }

  // ---- Arithmetic ----

  lemma DivideBack(s: real, n: real)
    requires n > 0.0
    ensures n * (s / n) == s
  {
  }

  lemma DistributeReal(a: real, b: real, c: real)
    ensures (a + b) * c == a * c + b * c
  {
  }

  lemma PositiveProduct(a: real, b: real)
    requires a > 0.0 && b > 0.0
    ensures a * b > 0.0
  {
  }

  lemma PositiveQuotient(r: real, a: real)
    requires r > 0.0 && a > 0.0
    ensures r / a > 0.0
  {
  }

  lemma NonNegativeProduct(a: real, b: real)
    requires a >= 0.0 && b >= 0.0
    ensures a * b >= 0.0
  {
  }

  lemma RealMono(x: real, y: real, c: real)
    requires x <= y && c >= 0.0
    ensures c * x <= c * y
  {
    NonNegativeProduct(c, y - x);
    assert c * (y - x) == c * y - c * x;
  }

  /** With c at least zero, c * x lies as far from zero as c * a at most. */
  lemma Between(c: real, x: real, a: real, p: real, u: real)
    requires c >= 0.0 && Abs(x) <= a && p == c * x && u == c * a
    ensures -u <= p <= u
  {
    RealMono(x, a, c);
    RealMono(-x, a, c);
    assert c * -x == -(c * x);
  }

  lemma Reciprocal(t: real) returns (inv: real)
    requires t > 0.0
    ensures inv == 1.0 / t && t * inv == 1.0 && inv > 0.0
  {
    inv := 1.0 / t;
  }

  lemma SignOfProduct(d: real, n: real)
    requires n > 0.0
    ensures d >= 0.0 <==> d * n >= 0.0
  {
    if d >= 0.0 {
      NonNegativeProduct(d, n);
    } else {
      PositiveProduct(-d, n);
      assert (-d) * n == -(d * n);
    }
  }

  /** A ratio against a threshold. */
  lemma RatioIs(p: real, n: real, ratio: real, threshold: real)
    requires n > 0.0 && ratio == p / n
    ensures Product(ratio, n) == p
    ensures ratio >= threshold <==> p >= Product(threshold, n)
  {
    DivideBack(p, n);
    ProductIs(ratio, n);
    ProductIs(threshold, n);
    DistributeReal(ratio, -threshold, n);
    SignOfProduct(ratio - threshold, n);
  }

  lemma SumOfQuotients(p: real, q: real, t: real)
    requires t != 0.0
    ensures (p + q) / t == p / t + q / t
  {
  }
}
