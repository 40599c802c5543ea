/** Multiplication, division and remainder facts the solver is not asked to find twice. */
module Arith {

  lemma MulMonotone(a: nat, b: nat, k: nat)
    requires a <= b
    ensures a * k <= b * k
  {
    assert b * k == a * k + (b - a) * k;
  }

  lemma MulCancel(a: nat, b: nat, k: nat)
    requires a * k < b * k
    ensures a < b
  {
    if a >= b {
      MulMonotone(b, a, k);
    }
  }

  lemma MulSucc(a: nat, k: nat)
    ensures (a + 1) * k == a * k + k
  {
  }

  lemma DivMod(a: nat, k: nat)
    requires k > 0
    ensures a == (a / k) * k + a % k && a % k < k
  {
  }

  /** Quotient and remainder are unique. */
  lemma DivModUnique(a: nat, k: nat, q: nat, r: nat)
    requires a == q * k + r && r < k
    ensures a / k == q && a % k == r
  {
    DivMod(a, k);
    MulSucc(q, k);
    MulSucc(a / k, k);
    MulCancel(q, a / k + 1, k);
    MulCancel(a / k, q + 1, k);
  }

  lemma DivMonotone(a: nat, b: nat, k: nat)
    requires k > 0 && a <= b
    ensures a / k <= b / k
  {
    DivMod(a, k);
    DivMod(b, k);
    MulSucc(b / k, k);
    MulCancel(a / k, b / k + 1, k);
  }

  lemma DivBelow(a: nat, k: nat, q: nat)
    requires k > 0 && a < q * k
    ensures a / k < q
  {
    DivMod(a, k);
    MulCancel(a / k, q, k);
  }

  lemma MulDiv(a: nat, k: nat)
    requires k > 0
    ensures (a * k) / k == a && (a * k) % k == 0 && k * a == a * k
  {
    DivModUnique(a * k, k, a, 0);
  }

  lemma DivisionExact(n: nat, d: nat)
    requires d > 0 && n % d == 0
    ensures n == d * (n / d)
  {
  }

  /** `n` copies of `x` added up: the product, kept out of the solver's sight. */
  function Times(n: nat, x: real): real {
    if n == 0 then 0.0 else Times(n - 1, x) + x
  }

  lemma {:induction false} TimesIsProduct(n: nat, x: real)
    ensures Times(n, x) == Product(n as real, x)
  {
    if n > 0 {
      TimesIsProduct(n - 1, x);
      var m := (n - 1) as real;
      assert n as real == m + 1.0;
      assert (m + 1.0) * x == m * x + x;
    }
  }

  lemma {:induction false} TimesAdd(a: nat, b: nat, x: real)
    ensures Times(a + b, x) == Times(a, x) + Times(b, x)
  {
    if b > 0 {
      TimesAdd(a, b - 1, x);
    }
  }

  lemma {:induction false} TimesNonNegative(n: nat, x: real)
    requires x >= 0.0
    ensures Times(n, x) >= 0.0
  {
    if n > 0 {
      TimesNonNegative(n - 1, x);
    }
  }

  /** The product of two reals, and its sign. */
  function Product(x: real, y: real): real {
    x * y
  }

  lemma ProductPositive(x: real, y: real)
    requires x > 0.0 && y > 0.0
    ensures Product(x, y) > 0.0
  {
  }

  lemma ProductNegated(x: real, y: real)
    ensures Product(-x, -y) == Product(x, y)
  {
  }

  function Square(x: real): real {
    Product(x, x)
  }

  lemma SquareSign(x: real)
    ensures Square(x) >= 0.0 && (Square(x) == 0.0 <==> x == 0.0)
  {
    if x > 0.0 {
      ProductPositive(x, x);
    } else if x < 0.0 {
      ProductNegated(x, x);
      ProductPositive(-x, -x);
    }
  }

  function Quotient(x: real, y: real): real
    requires y != 0.0
  {
    x / y
  }

  lemma QuotientTimes(x: real, y: real)
    requires y != 0.0
    ensures Product(Quotient(x, y), y) == x
  {
  }

  lemma ProductGrows(a: real, b: real, x: real)
    requires a <= b && x > 0.0
    ensures Product(a, x) <= Product(b, x)
  {
    if a < b {
      ProductPositive(b - a, x);
      assert Product(b, x) == Product(a, x) + Product(b - a, x);
    }
  }

  function Pow(x: real, k: nat): real {
    if k == 0 then 1.0 else Product(x, Pow(x, k - 1))
  }

  // ---------------------------------------------------------------------
  // Exponentials
  // ---------------------------------------------------------------------

  ghost predicate Positive(e: real -> real) {
    forall x :: e(x) > 0.0
  }

  lemma PositiveAt(e: real -> real, x: real)
    requires Positive(e)
    ensures e(x) > 0.0
  {
  }

  ghost predicate TurnsSumsIntoProducts(e: real -> real) {
    forall x, y {:trigger Product(e(x), e(y))} :: Product(e(x), e(y)) == e(x + y)
  }
}
