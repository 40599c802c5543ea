/** Mean, spread and the Cauchy-Schwarz inequality for lists of reals. */
module Stats {
  import opened Arith
  import opened Seqs

  function Mean(vs: seq<real>): real
    requires |vs| > 0
  {
    RealSum(vs) / |vs| as real
  }

  function SquaredDistances(vs: seq<real>, from: real): seq<real> {
    seq(|vs|, i requires 0 <= i < |vs| => Square(vs[i] - from))
  }

  function Variance(vs: seq<real>): real
    requires |vs| > 0
  {
    RealSum(SquaredDistances(vs, Mean(vs))) / |vs| as real
  }

  lemma DistancesTail(vs: seq<real>, from: real)
    requires |vs| > 0
    ensures SquaredDistances(vs, from)[0] == Square(vs[0] - from)
    ensures SquaredDistances(vs, from)[1..] == SquaredDistances(vs[1..], from)
  {
  }

  ghost predicate AllEqual(vs: seq<real>, c: real) {
    forall i :: 0 <= i < |vs| ==> vs[i] == c
  }

  lemma AllEqualTail(vs: seq<real>, c: real)
    requires |vs| > 0
    ensures AllEqual(vs, c) <==> vs[0] == c && AllEqual(vs[1..], c)
  {
    assert forall i :: 0 < i < |vs| ==> vs[i] == vs[1..][i - 1];
  }

  lemma {:induction false} SquaresNonNegative(vs: seq<real>, from: real)
    ensures RealSum(SquaredDistances(vs, from)) >= 0.0
    ensures RealSum(SquaredDistances(vs, from)) == 0.0 <==> AllEqual(vs, from)
  {
    if |vs| > 0 {
      SquaresNonNegative(vs[1..], from);
      DistancesTail(vs, from);
      SquareSign(vs[0] - from);
      AllEqualTail(vs, from);
    }
  }

  lemma {:induction false} ConstantSum(vs: seq<real>, c: real)
    requires forall i :: 0 <= i < |vs| ==> vs[i] == c
    ensures RealSum(vs) == Times(|vs|, c)
  {
    if |vs| > 0 {
      ConstantSum(vs[1..], c);
    }
  }

  lemma ConstantMean(vs: seq<real>)
    requires |vs| > 0 && forall i :: 0 <= i < |vs| ==> vs[i] == vs[0]
    ensures Mean(vs) == vs[0]
  {
    ConstantSum(vs, vs[0]);
    TimesIsProduct(|vs|, vs[0]);
    QuotientOfProduct(|vs| as real, vs[0]);
  }

  lemma QuotientOfProduct(n: real, c: real)
    requires n > 0.0
    ensures Product(n, c) / n == c
  {
  }

  lemma PositiveQuotient(x: real, n: real)
    requires n > 0.0
    ensures x / n > 0.0 <==> x > 0.0
  {
  }

  // ---------------------------------------------------------------------
  // Cauchy-Schwarz
  // ---------------------------------------------------------------------

  function Squares(vs: seq<real>): seq<real> {
    seq(|vs|, i requires 0 <= i < |vs| => Square(vs[i]))
  }

  lemma SquareOfDifference(v: real, c: real)
    ensures Square(v - c) == Square(v) - Product(2.0 * c, v) + Square(c)
  {
  }

  lemma ProductOfSum(c: real, x: real, y: real)
    ensures Product(c, x + y) == Product(c, x) + Product(c, y)
  {
  }

  lemma {:induction false} ExpandDistances(vs: seq<real>, c: real)
    ensures RealSum(SquaredDistances(vs, c))
         == RealSum(Squares(vs)) - Product(2.0 * c, RealSum(vs)) + Times(|vs|, Square(c))
  {
    if |vs| == 0 {
      assert Product(2.0 * c, 0.0) == 0.0;
    } else {
      ExpandDistances(vs[1..], c);
      DistancesTail(vs, c);
      assert Squares(vs)[1..] == Squares(vs[1..]);
      SquareOfDifference(vs[0], c);
      ProductOfSum(2.0 * c, vs[0], RealSum(vs[1..]));
    }
  }

  /** The sum of squares is at least the count times the square of the mean. */
  lemma SquaresAboveMean(vs: seq<real>)
    requires |vs| > 0
    ensures RealSum(Squares(vs)) >= Times(|vs|, Square(Mean(vs)))
  {
    var n, m, total := |vs| as real, Mean(vs), RealSum(vs);
    SquaresNonNegative(vs, m);
    ExpandDistances(vs, m);
    TimesIsProduct(|vs|, Square(m));
    MeanTimesCount(total, n, m, Times(|vs|, Square(m)));
  }

  lemma MeanTimesCount(total: real, n: real, m: real, all: real)
    requires n > 0.0 && m == total / n && all == Product(n, Square(m))
    ensures Product(2.0 * m, total) == 2.0 * all
  {
    assert total == n * m;
    assert 2.0 * m * (n * m) == 2.0 * (n * (m * m));
  }
}
