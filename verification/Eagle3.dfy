/** The speculative draft model: attention over a dense block and cached diagonals, and the
    left shift of its training targets. */
module Eagle3 {
  import opened Arith
  import opened Seqs
  import opened Wrappers

  type Vec = seq<real>

  /** The projected inputs of one head. `keys[0]` and `values[0]` are the dense block; step `i`
      adds one key and value per position. `score` is the scaled dot product. */
  datatype Head = Head(
    q: seq<Vec>, keys: seq<seq<Vec>>, values: seq<seq<Vec>>, mask: seq<bool>, score: (Vec, Vec) -> real, width: nat)

  ghost predicate Shaped(h: Head) {
    && |h.keys| == |h.values| > 0 && |h.mask| == |h.q|
    && (forall i :: 0 <= i < |h.keys| ==> |h.keys[i]| == |h.values[i]| == |h.q|)
    && forall i, t :: 0 <= i < |h.values| && 0 <= t < |h.values[i]| ==> |h.values[i][t]| == h.width
  }

  ghost predicate Inverts(e: real -> real, l: real -> real) {
    forall y :: y > 0.0 ==> e(l(y)) == y
  }

  /** `e` and `l` behave like exponential and logarithm. */
  ghost predicate ExpLog(e: real -> real, l: real -> real) {
    Positive(e) && TurnsSumsIntoProducts(e) && Inverts(e, l)
  }

  // ---------------------------------------------------------------------
  // Masked softmax sums
  // ---------------------------------------------------------------------

  /** The exponential of a score; a masked one is minus infinity. */
  function Weight(e: real -> real, s: Option<real>): real {
    if s.Some? then e(s.value) else 0.0
  }

  function Mass(e: real -> real, scores: seq<Option<real>>): real {
    if |scores| == 0 then 0.0
    else Mass(e, scores[..|scores| - 1]) + Weight(e, scores[|scores| - 1])
  }

  /** The values weighted by their share of `mass`. */
  function Share(e: real -> real, scores: seq<Option<real>>, values: seq<real>, mass: real): real
    requires |scores| == |values| && mass != 0.0
  {
    if |scores| == 0 then 0.0
    else
      var n := |scores| - 1;
      Share(e, scores[..n], values[..n], mass) + Product(Quotient(Weight(e, scores[n]), mass), values[n])
  }

  lemma {:induction false} MassConcat(e: real -> real, a: seq<Option<real>>, b: seq<Option<real>>)
    ensures Mass(e, a + b) == Mass(e, a) + Mass(e, b)
  {
    if |b| == 0 {
      assert a + b == a;
    } else {
      assert (a + b)[..|a + b| - 1] == a + b[..|b| - 1];
      MassConcat(e, a, b[..|b| - 1]);
    }
  }

  lemma {:induction false} MassSign(e: real -> real, scores: seq<Option<real>>)
    requires Positive(e)
    ensures Mass(e, scores) >= 0.0
    ensures Mass(e, scores) > 0.0 <==> exists j :: 0 <= j < |scores| && scores[j].Some?
  {
    if |scores| > 0 {
      var n := |scores| - 1;
      MassSign(e, scores[..n]);
      if j :| 0 <= j < |scores| && scores[j].Some? && j < n {
        assert scores[..n][j].Some?;
      }
      if j :| 0 <= j < n && scores[..n][j].Some? {
        assert scores[j].Some?;
      }
      if scores[n].Some? {
        PositiveAt(e, scores[n].value);
      }
    }
  }

  /** Re-basing a share: scaling by the ratio of the masses. */
  lemma RebaseTerm(w: real, v: real, m: real, all: real)
    requires m != 0.0 && all != 0.0
    ensures Product(Product(Quotient(w, m), v), Quotient(m, all)) == Product(Quotient(w, all), v)
  {
    assert w / m * v * (m / all) == w / m * m / all * v;
    assert w / m * m == w;
  }

  lemma ProductAdds(x: real, y: real, z: real)
    ensures Product(x + y, z) == Product(x, z) + Product(y, z)
  {
  }

  lemma {:induction false} Rebase(e: real -> real, scores: seq<Option<real>>, values: seq<real>, m: real, all: real)
    requires |scores| == |values| && m != 0.0 && all != 0.0
    ensures Product(Share(e, scores, values, m), Quotient(m, all)) == Share(e, scores, values, all)
  {
    if |scores| == 0 {
      assert Product(0.0, Quotient(m, all)) == 0.0;
    } else {
      var n := |scores| - 1;
      Rebase(e, scores[..n], values[..n], m, all);
      RebaseTerm(Weight(e, scores[n]), values[n], m, all);
      ProductAdds(Share(e, scores[..n], values[..n], m), Product(Quotient(Weight(e, scores[n]), m), values[n]),
                  Quotient(m, all));
    }
  }

  // ---------------------------------------------------------------------
  // What attention means
  // ---------------------------------------------------------------------

  /** The dense scores of query `t`: itself and earlier positions, padding excluded. */
  function DenseScores(h: Head, t: nat): seq<Option<real>>
    requires Shaped(h) && t < |h.q|
  {
    seq(|h.q|, j requires 0 <= j < |h.q| => if j <= t && h.mask[j] then Some(h.score(h.q[t], h.keys[0][j])) else None)
  }

  /** The scores of the first `n` cached diagonals. */
  function DiagonalScores(h: Head, t: nat, n: nat): seq<Option<real>>
    requires Shaped(h) && t < |h.q| && n < |h.keys|
  {
    seq(n, i requires 0 <= i < n => Some(h.score(h.q[t], h.keys[i + 1][t])))
  }

  function AllScores(h: Head, t: nat): seq<Option<real>>
    requires Shaped(h) && t < |h.q|
  {
    DenseScores(h, t) + DiagonalScores(h, t, |h.keys| - 1)
  }

  function DenseValues(h: Head, d: nat): seq<real>
    requires Shaped(h) && d < h.width
  {
    seq(|h.q|, j requires 0 <= j < |h.q| => h.values[0][j][d])
  }

  /** The first `n` of them added to `from`, each by its share. */
  function AddDiagonals(e: real -> real, h: Head, t: nat, d: nat, n: nat, mass: real, from: real): real
    requires Shaped(h) && t < |h.q| && d < h.width && n < |h.keys| && mass != 0.0
  {
    if n == 0 then from
    else
      AddDiagonals(e, h, t, d, n - 1, mass, from)
      + Product(Quotient(e(h.score(h.q[t], h.keys[n][t])), mass), h.values[n][t][d])
  }

  /** One softmax over the concatenated scores, applied to all values: component `d` of the
      attention output at query `t`. */
  function Attention(e: real -> real, h: Head, t: nat, d: nat): real
    requires Shaped(h) && t < |h.q| && d < h.width && Mass(e, AllScores(h, t)) != 0.0
  {
    var mass := Mass(e, AllScores(h, t));
    AddDiagonals(e, h, t, d, |h.keys| - 1, mass, Share(e, DenseScores(h, t), DenseValues(h, d), mass))
  }

  function DiagonalValues(h: Head, t: nat, d: nat, n: nat): seq<real>
    requires Shaped(h) && t < |h.q| && d < h.width && n < |h.keys|
  {
    seq(n, i requires 0 <= i < n => h.values[i + 1][t][d])
  }

  lemma ShareSnoc(e: real -> real, scores: seq<Option<real>>, values: seq<real>, s: real, v: real, mass: real)
    requires |scores| == |values| && mass != 0.0
    ensures Share(e, scores + [Some(s)], values + [v], mass)
         == Share(e, scores, values, mass) + Product(Quotient(e(s), mass), v)
  {
    assert (scores + [Some(s)])[..|scores|] == scores && (values + [v])[..|values|] == values;
  }

  lemma DiagonalsSnoc(h: Head, t: nat, d: nat, n: nat)
    requires Shaped(h) && t < |h.q| && d < h.width && 0 < n < |h.keys|
    ensures DiagonalScores(h, t, n) == DiagonalScores(h, t, n - 1) + [Some(h.score(h.q[t], h.keys[n][t]))]
    ensures DiagonalValues(h, t, d, n) == DiagonalValues(h, t, d, n - 1) + [h.values[n][t][d]]
  {
  }

  lemma AppendLast<T>(a: seq<T>, b: seq<T>, x: T)
    ensures a + (b + [x]) == a + b + [x]
  {
  }

  lemma AppendNone<T>(a: seq<T>)
    ensures a + [] == a
  {
  }

  /** The same sum in one piece: every score with its own value. */
  lemma {:induction false} AttentionIsOneSoftmax(e: real -> real, h: Head, t: nat, d: nat, n: nat, mass: real)
    requires Shaped(h) && t < |h.q| && d < h.width && n < |h.keys| && mass != 0.0
    ensures AddDiagonals(e, h, t, d, n, mass, Share(e, DenseScores(h, t), DenseValues(h, d), mass))
         == Share(e, DenseScores(h, t) + DiagonalScores(h, t, n), DenseValues(h, d) + DiagonalValues(h, t, d, n), mass)
  {
    var dense, vals := DenseScores(h, t), DenseValues(h, d);
    if n == 0 {
      AppendNone(dense);
      AppendNone(vals);
    } else {
      AttentionIsOneSoftmax(e, h, t, d, n - 1, mass);
      DiagonalsSnoc(h, t, d, n);
      ShareLast(e, dense, DiagonalScores(h, t, n - 1), vals, DiagonalValues(h, t, d, n - 1),
                h.score(h.q[t], h.keys[n][t]), h.values[n][t][d], mass);
    }
  }

  lemma ShareLast(e: real -> real, dense: seq<Option<real>>, diagonal: seq<Option<real>>, vals: seq<real>,
                  more: seq<real>, s: real, v: real, mass: real)
    requires |dense| == |vals| && |diagonal| == |more| && mass != 0.0
    ensures Share(e, dense + (diagonal + [Some(s)]), vals + (more + [v]), mass)
         == Share(e, dense + diagonal, vals + more, mass) + Product(Quotient(e(s), mass), v)
  {
    ShareSnoc(e, dense + diagonal, vals + more, s, v, mass);
    AppendLast(dense, diagonal, Some(s));
    AppendLast(vals, more, v);
  }

  /** A real token sees at least itself. */
  lemma RealTokenHasMass(e: real -> real, h: Head, t: nat)
    requires Shaped(h) && t < |h.q| && h.mask[t] && Positive(e)
    ensures Mass(e, DenseScores(h, t)) > 0.0 && Mass(e, AllScores(h, t)) > 0.0
    ensures Mass(e, AllScores(h, t)) == Mass(e, DenseScores(h, t)) + Mass(e, DiagonalScores(h, t, |h.keys| - 1))
  {
    assert DenseScores(h, t)[t].Some?;
    MassSign(e, DenseScores(h, t));
    MassSign(e, DiagonalScores(h, t, |h.keys| - 1));
    MassConcat(e, DenseScores(h, t), DiagonalScores(h, t, |h.keys| - 1));
  }

  lemma {:induction false} ShareOfEqual(e: real -> real, scores: seq<Option<real>>, values: seq<real>, mass: real,
                                        c: real)
    requires |scores| == |values| && mass != 0.0
    requires forall j :: 0 <= j < |scores| && scores[j].Some? ==> values[j] == c
    ensures Share(e, scores, values, mass) == Product(Quotient(Mass(e, scores), mass), c)
  {
    NothingTimes(c);
    assert Quotient(0.0, mass) == 0.0;
    if |scores| > 0 {
      var n := |scores| - 1;
      ShareOfEqual(e, scores[..n], values[..n], mass, c);
      var w, rest := Weight(e, scores[n]), Mass(e, scores[..n]);
      QuotientAdds(rest, w, mass);
      ProductAdds(Quotient(rest, mass), Quotient(w, mass), c);
      NothingTimes(values[n]);
    }
  }

  lemma NothingTimes(x: real)
    ensures Product(0.0, x) == 0.0
  {
  }

  lemma QuotientAdds(x: real, y: real, z: real)
    requires z != 0.0
    ensures Quotient(x + y, z) == Quotient(x, z) + Quotient(y, z)
  {
  }

  /** The weights of a query add up to one: if all it sees, itself and earlier real tokens and its
      own cached steps, has value `c`, then so has the output. */
  lemma AttentionOfEqual(e: real -> real, h: Head, t: nat, d: nat, c: real)
    requires Shaped(h) && t < |h.q| && d < h.width && h.mask[t] && Positive(e)
    requires forall j :: 0 <= j <= t && h.mask[j] ==> h.values[0][j][d] == c
    requires forall i :: 1 <= i < |h.keys| ==> h.values[i][t][d] == c
    ensures Mass(e, AllScores(h, t)) > 0.0 && Attention(e, h, t, d) == c
  {
    RealTokenHasMass(e, h, t);
    var n, mass := |h.keys| - 1, Mass(e, AllScores(h, t));
    AttentionIsOneSoftmax(e, h, t, d, n, mass);
    ShareOfEqual(e, AllScores(h, t), DenseValues(h, d) + DiagonalValues(h, t, d, n), mass, c);
    WholeShare(mass, c);
  }

  lemma WholeShare(mass: real, c: real)
    requires mass != 0.0
    ensures Product(Quotient(mass, mass), c) == c
  {
    assert mass / mass == 1.0;
  }

  // ---------------------------------------------------------------------
  // The plain path
  // ---------------------------------------------------------------------

  function Softmax(e: real -> real, scores: seq<Option<real>>): seq<real> {
    var mass := Mass(e, scores);
    seq(|scores|, j requires 0 <= j < |scores| => if mass != 0.0 then Quotient(Weight(e, scores[j]), mass) else 0.0)
  }

  function WeightedSum(ps: seq<real>, vs: seq<real>): real
    requires |ps| == |vs|
  {
    if |ps| == 0 then 0.0
    else
      var n := |ps| - 1;
      WeightedSum(ps[..n], vs[..n]) + Product(ps[n], vs[n])
  }

  /** `ws[t]` times row `t` of `values`, added to row `t` of `out`. */
  function AddScaled(out: seq<Vec>, ws: seq<real>, values: seq<Vec>, width: nat): seq<Vec>
    requires |out| == |ws| == |values|
    requires forall t :: 0 <= t < |out| ==> |out[t]| == |values[t]| == width
  {
    seq(|out|, t requires 0 <= t < |out| =>
      seq(width, d requires 0 <= d < width => out[t][d] + Product(ws[t], values[t][d])))
  }

  lemma {:induction false} WeightedIsShare(e: real -> real, scores: seq<Option<real>>, ps: seq<real>, vs: seq<real>,
                                           mass: real)
    requires |scores| == |ps| == |vs| && mass != 0.0
    requires forall j :: 0 <= j < |ps| ==> ps[j] == Quotient(Weight(e, scores[j]), mass)
    ensures WeightedSum(ps, vs) == Share(e, scores, vs, mass)
  {
    if |ps| > 0 {
      var n := |ps| - 1;
      WeightedIsShare(e, scores[..n], ps[..n], vs[..n], mass);
    }
  }

  ghost predicate Rect(rows: seq<Vec>, n: nat, width: nat) {
    |rows| == n && forall t :: 0 <= t < n ==> |rows[t]| == width
  }

  /** `ws[t]` is the share of diagonal `i` at every query `t` marked in `live`. */
  ghost predicate SharesOf(e: real -> real, h: Head, i: nat, ws: seq<real>, mass: seq<real>, live: seq<bool>)
    requires Shaped(h) && 1 <= i < |h.keys| && |mass| == |live| == |h.q|
  {
    && |ws| == |h.q|
    && forall t :: 0 <= t < |h.q| && live[t] ==>
         mass[t] != 0.0 && ws[t] == Quotient(e(h.score(h.q[t], h.keys[i][t])), mass[t])
  }

  /** The live rows of `out` are `from` with `n` diagonals added. */
  ghost predicate Summed(e: real -> real, h: Head, out: seq<Vec>, from: seq<Vec>, n: nat, mass: seq<real>,
                         live: seq<bool>)
    requires Shaped(h) && n < |h.keys| && |mass| == |live| == |h.q|
    requires Rect(out, |h.q|, h.width) && Rect(from, |h.q|, h.width)
  {
    forall t, d :: 0 <= t < |h.q| && 0 <= d < h.width && live[t] ==>
                     mass[t] != 0.0 && out[t][d] == AddDiagonals(e, h, t, d, n, mass[t], from[t][d])
  }

  /** Adds the value of every cached step, each with its weight. */
  method AddCachedSteps(e: real -> real, h: Head, weights: seq<seq<real>>, from: seq<Vec>, ghost mass: seq<real>,
                        ghost live: seq<bool>)
      returns (out: seq<Vec>)
    requires Shaped(h) && |weights| == |h.keys| - 1 && |mass| == |live| == |h.q| && Rect(from, |h.q|, h.width)
    requires forall k :: 0 <= k < |weights| ==> SharesOf(e, h, k + 1, weights[k], mass, live)
    requires forall t :: 0 <= t < |h.q| && live[t] ==> mass[t] != 0.0
    ensures Rect(out, |h.q|, h.width) && Summed(e, h, out, from, |h.keys| - 1, mass, live)
  {
    out := from;
    for i := 1 to |h.keys|
      invariant Rect(out, |h.q|, h.width) && Summed(e, h, out, from, i - 1, mass, live)
    {
      assert SharesOf(e, h, i, weights[i - 1], mass, live);
      out := AddScaled(out, weights[i - 1], h.values[i], h.width);
    }
  }

  /** Every query's scores, step by step. */
  method ConcatScores(h: Head) returns (scores: seq<seq<Option<real>>>)
    requires Shaped(h)
    ensures |scores| == |h.q| && forall t :: 0 <= t < |h.q| ==> scores[t] == AllScores(h, t)
  {
    var T := |h.q|;
    scores := seq(T, t requires 0 <= t < T => DenseScores(h, t));
    for i := 1 to |h.keys|
      invariant |scores| == T
      invariant forall t :: 0 <= t < T ==> scores[t] == DenseScores(h, t) + DiagonalScores(h, t, i - 1)
    {
      ghost var before := scores;
      scores := seq(T, t requires 0 <= t < T => scores[t] + [Some(h.score(h.q[t], h.keys[i][t]))]);
      forall t | 0 <= t < T ensures scores[t] == DenseScores(h, t) + DiagonalScores(h, t, i) {
        assert scores[t] == before[t] + [Some(h.score(h.q[t], h.keys[i][t]))];
        assert DiagonalScores(h, t, i) == DiagonalScores(h, t, i - 1) + [Some(h.score(h.q[t], h.keys[i][t]))];
      }
    }
  }

  /** The dense part of the product of probabilities and values. */
  function DenseProduct(h: Head, probs: seq<seq<real>>): seq<Vec>
    requires Shaped(h) && |probs| == |h.q| && forall t :: 0 <= t < |probs| ==> |probs[t]| >= |h.q|
  {
    seq(|h.q|, t requires 0 <= t < |h.q| =>
      seq(h.width, d requires 0 <= d < h.width => WeightedSum(probs[t][..|h.q|], DenseValues(h, d))))
  }

  function Masses(e: real -> real, h: Head): seq<real>
    requires Shaped(h)
  {
    seq(|h.q|, t requires 0 <= t < |h.q| => Mass(e, AllScores(h, t)))
  }

  function Live(e: real -> real, h: Head): seq<bool>
    requires Shaped(h)
  {
    seq(|h.q|, t requires 0 <= t < |h.q| => Mass(e, AllScores(h, t)) != 0.0)
  }

  ghost predicate AreSoftmaxes(e: real -> real, h: Head, probs: seq<seq<real>>)
    requires Shaped(h)
  {
    && |probs| == |h.q|
    && forall t :: 0 <= t < |probs| ==> |probs[t]| == |h.q| + |h.keys| - 1 && probs[t] == Softmax(e, AllScores(h, t))
  }

  lemma DenseProductIsShare(e: real -> real, h: Head, probs: seq<seq<real>>, t: nat, d: nat)
    requires Shaped(h) && AreSoftmaxes(e, h, probs)
    requires t < |h.q| && d < h.width && Mass(e, AllScores(h, t)) != 0.0
    ensures DenseProduct(h, probs)[t][d] == Share(e, DenseScores(h, t), DenseValues(h, d), Mass(e, AllScores(h, t)))
  {
    WeightedIsShare(e, DenseScores(h, t), probs[t][..|h.q|], DenseValues(h, d), Mass(e, AllScores(h, t)));
  }

  lemma StepProbabilities(e: real -> real, h: Head, probs: seq<seq<real>>, i: nat, ws: seq<real>)
    requires Shaped(h) && AreSoftmaxes(e, h, probs)
    requires 1 <= i < |h.keys| && |ws| == |h.q|
    requires forall t :: 0 <= t < |h.q| ==> ws[t] == probs[t][|h.q| + i - 1]
    ensures SharesOf(e, h, i, ws, Masses(e, h), Live(e, h))
  {
    forall t | 0 <= t < |h.q| && Live(e, h)[t]
      ensures ws[t] == Quotient(e(h.score(h.q[t], h.keys[i][t])), Masses(e, h)[t])
    {
      assert AllScores(h, t)[|h.q| + i - 1] == DiagonalScores(h, t, |h.keys| - 1)[i - 1];
    }
  }

  /** The plain path: one softmax over the concatenated scores, then the sums. */
  method CachedAttnMatmul(e: real -> real, h: Head) returns (out: seq<Vec>)
    requires Shaped(h)
    ensures Rect(out, |h.q|, h.width)
    ensures forall t, d :: 0 <= t < |h.q| && 0 <= d < h.width && Mass(e, AllScores(h, t)) != 0.0 ==>
                             out[t][d] == Attention(e, h, t, d)
  {
    var T := |h.q|;
    var scores := ConcatScores(h);
    var probs := seq(T, t requires 0 <= t < T => Softmax(e, scores[t]));
    var dense := DenseProduct(h, probs);
    var weights := seq(|h.keys| - 1, i requires 0 <= i < |h.keys| - 1 =>
      seq(T, t requires 0 <= t < T => probs[t][T + i]));
    forall k | 0 <= k < |weights| ensures SharesOf(e, h, k + 1, weights[k], Masses(e, h), Live(e, h)) {
      StepProbabilities(e, h, probs, k + 1, weights[k]);
    }
    out := AddCachedSteps(e, h, weights, dense, Masses(e, h), Live(e, h));
    forall t, d | 0 <= t < T && 0 <= d < h.width && Mass(e, AllScores(h, t)) != 0.0
      ensures out[t][d] == Attention(e, h, t, d)
    {
      DenseProductIsShare(e, h, probs, t, d);
      assert Live(e, h)[t];
    }
  }

  // ---------------------------------------------------------------------
  // The fast path
  // ---------------------------------------------------------------------

  /** The positions that are not padding. */
  function Positions(mask: seq<bool>): (idx: seq<nat>)
    ensures InRange(idx, |mask|)
  {
    if |mask| == 0 then []
    else
      var n := |mask| - 1;
      Positions(mask[..n]) + if mask[n] then [n] else []
  }

  /** Plain causal scores of query `r` over a packed sequence. */
  function PackedScores(q: seq<Vec>, k: seq<Vec>, score: (Vec, Vec) -> real, r: nat): seq<Option<real>>
    requires r < |q| == |k|
  {
    seq(|k|, j requires 0 <= j < |k| => if j <= r then Some(score(q[r], k[j])) else None)
  }

  function Component(v: seq<Vec>, d: nat): seq<real>
    requires forall j :: 0 <= j < |v| ==> d < |v[j]|
  {
    seq(|v|, j requires 0 <= j < |v| => v[j][d])
  }

  /** What the kernel promises for a packed sequence: causal attention, and the logarithm of
      each query's mass. */
  function Kernel(e: real -> real, l: real -> real, q: seq<Vec>, k: seq<Vec>, v: seq<Vec>, score: (Vec, Vec) -> real,
                  width: nat): (seq<Vec>, seq<real>)
    requires |q| == |k| && Rect(v, |q|, width) && Positive(e)
  {
    (seq(|q|, r requires 0 <= r < |q| =>
       (PackedMass(e, q, k, score, r);
        seq(width, d requires 0 <= d < width =>
          Share(e, PackedScores(q, k, score, r), Component(v, d), Mass(e, PackedScores(q, k, score, r)))))),
     seq(|q|, r requires 0 <= r < |q| => l(Mass(e, PackedScores(q, k, score, r)))))
  }

  lemma PackedMass(e: real -> real, q: seq<Vec>, k: seq<Vec>, score: (Vec, Vec) -> real, r: nat)
    requires r < |q| == |k| && Positive(e)
    ensures Mass(e, PackedScores(q, k, score, r)) > 0.0
  {
    assert PackedScores(q, k, score, r)[r].Some?;
    MassSign(e, PackedScores(q, k, score, r));
  }

  lemma {:induction false} PositionsSorted(mask: seq<bool>)
    ensures forall a :: 0 <= a < |Positions(mask)| ==> mask[Positions(mask)[a]]
    ensures forall a, b :: 0 <= a < b < |Positions(mask)| ==> Positions(mask)[a] < Positions(mask)[b]
  {
    if |mask| > 0 {
      PositionsSorted(mask[..|mask| - 1]);
    }
  }

  /** Where position `t` sits in the packed sequence. */
  function Rank(mask: seq<bool>, t: nat): nat
    requires t < |mask|
  {
    |Positions(mask[..t])|
  }

  lemma {:induction false} RankFinds(mask: seq<bool>, t: nat)
    requires t < |mask| && mask[t]
    ensures Rank(mask, t) < |Positions(mask)| && Positions(mask)[Rank(mask, t)] == t
  {
    var n := |mask| - 1;
    if t < n {
      RankFinds(mask[..n], t);
      assert mask[..n][..t] == mask[..t];
    }
  }

  lemma GatherSnoc<T>(xs: seq<T>, mask: seq<bool>)
    requires |xs| == |mask| > 0
    ensures var n := |mask| - 1;
            Gather(xs, Positions(mask)) == Gather(xs[..n], Positions(mask[..n])) + if mask[n] then [xs[n]] else []
  {
  }

  /** Leaving out masked scores changes neither the mass nor the shares. */
  lemma {:induction false} PackedSums(e: real -> real, scores: seq<Option<real>>, values: seq<real>, mask: seq<bool>,
                                      mass: real)
    requires |scores| == |values| == |mask| && mass != 0.0
    requires forall j :: 0 <= j < |mask| && !mask[j] ==> scores[j].None?
    ensures Mass(e, Gather(scores, Positions(mask))) == Mass(e, scores)
    ensures Share(e, Gather(scores, Positions(mask)), Gather(values, Positions(mask)), mass)
         == Share(e, scores, values, mass)
  {
    if |mask| > 0 {
      var n := |mask| - 1;
      PackedSums(e, scores[..n], values[..n], mask[..n], mass);
      GatherSnoc(scores, mask);
      GatherSnoc(values, mask);
      var gs, gv := Gather(scores[..n], Positions(mask[..n])), Gather(values[..n], Positions(mask[..n]));
      if mask[n] {
        assert (gs + [scores[n]])[..|gs|] == gs && (gv + [values[n]])[..|gv|] == gv;
      } else {
        assert gs + [] == gs && gv + [] == gv;
        assert Product(Quotient(0.0, mass), values[n]) == 0.0 by {
          assert Quotient(0.0, mass) == 0.0;
        }
      }
    }
  }

  lemma PackedRow(h: Head, t: nat)
    requires Shaped(h) && t < |h.q| && h.mask[t]
    ensures var idx, r := Positions(h.mask), Rank(h.mask, t);
            && r < |idx|
            && PackedScores(Gather(h.q, idx), Gather(h.keys[0], idx), h.score, r) == Gather(DenseScores(h, t), idx)
  {
    var idx, r := Positions(h.mask), Rank(h.mask, t);
    PositionsSorted(h.mask);
    RankFinds(h.mask, t);
    forall a | 0 <= a < |idx| ensures a <= r <==> idx[a] <= t {
    }
  }

  /** The dense block's output and log-mass at one query. */
  ghost predicate DenseResult(e: real -> real, l: real -> real, h: Head, t: nat, row: Vec, lse: Option<real>)
    requires Shaped(h) && t < |h.q|
  {
    var mass := Mass(e, DenseScores(h, t));
    && mass > 0.0 && lse == Some(l(mass)) && |row| == h.width
    && forall d :: 0 <= d < h.width ==> row[d] == Share(e, DenseScores(h, t), DenseValues(h, d), mass)
  }

  lemma PackedResult(e: real -> real, l: real -> real, h: Head, t: nat)
    requires Shaped(h) && t < |h.q| && h.mask[t] && Positive(e)
    ensures var idx, r := Positions(h.mask), Rank(h.mask, t);
            var q, k, v := Gather(h.q, idx), Gather(h.keys[0], idx), Gather(h.values[0], idx);
            && r < |idx| && Rect(v, |idx|, h.width)
            && var (out, lse) := Kernel(e, l, q, k, v, h.score, h.width);
               DenseResult(e, l, h, t, out[r], Some(lse[r]))
  {
    var idx, r := Positions(h.mask), Rank(h.mask, t);
    PackedRow(h, t);
    RealTokenHasMass(e, h, t);
    var mass := Mass(e, DenseScores(h, t));
    var zeros := seq(|h.q|, _ => 0.0);
    PackedSums(e, DenseScores(h, t), zeros, h.mask, mass);
    forall d | 0 <= d < h.width
      ensures Share(e, Gather(DenseScores(h, t), idx), Component(Gather(h.values[0], idx), d), mass)
           == Share(e, DenseScores(h, t), DenseValues(h, d), mass)
    {
      PackedSums(e, DenseScores(h, t), DenseValues(h, d), h.mask, mass);
      assert Component(Gather(h.values[0], idx), d) == Gather(DenseValues(h, d), idx);
    }
  }

  /** Puts packed rows back at their positions. */
  method Unpack(packedOut: seq<Vec>, packedLse: seq<real>, mask: seq<bool>, width: nat)
      returns (out: seq<Vec>, lse: seq<Option<real>>)
    requires Rect(packedOut, |Positions(mask)|, width) && |packedLse| == |packedOut|
    ensures Rect(out, |mask|, width) && |lse| == |mask|
    ensures var idx := Positions(mask);
            forall a :: 0 <= a < |idx| ==> out[idx[a]] == packedOut[a] && lse[idx[a]] == Some(packedLse[a])
    ensures forall t :: 0 <= t < |mask| && !mask[t] ==> lse[t] == None
  {
    var idx := Positions(mask);
    PositionsSorted(mask);
    out := seq(|mask|, _ => seq(width, _ => 0.0));
    lse := seq(|mask|, _ => None);
    for r := 0 to |idx|
      invariant Rect(out, |mask|, width) && |lse| == |mask|
      invariant forall a :: 0 <= a < r ==> out[idx[a]] == packedOut[a] && lse[idx[a]] == Some(packedLse[a])
      invariant forall t :: 0 <= t < |mask| && !mask[t] ==> lse[t] == None
    {
      out := out[idx[r] := packedOut[r]];
      lse := lse[idx[r] := Some(packedLse[r])];
    }
  }

  /** Packs the real tokens, runs the kernel, and puts the rows back; padding gets zeros and
      minus infinity. */
  method VarlenCausalAttn(e: real -> real, l: real -> real, h: Head) returns (out: seq<Vec>, lse: seq<Option<real>>)
    requires Shaped(h) && Positive(e)
    ensures DenseResults(e, l, h, out, lse)
    ensures forall t :: 0 <= t < |h.q| && !h.mask[t] ==> lse[t] == None
  {
    var idx := Positions(h.mask);
    var (packedOut, packedLse) :=
      Kernel(e, l, Gather(h.q, idx), Gather(h.keys[0], idx), Gather(h.values[0], idx), h.score, h.width);
    out, lse := Unpack(packedOut, packedLse, h.mask, h.width);
    forall t | 0 <= t < |h.q| && h.mask[t] ensures DenseResult(e, l, h, t, out[t], lse[t]) {
      RankFinds(h.mask, t);
      PackedResult(e, l, h, t);
    }
  }

  /** The joint log-sum-exp; minus infinity is replaced by zero. */
  function JointLse(e: real -> real, l: real -> real, scores: seq<Option<real>>): real {
    if Mass(e, scores) > 0.0 then l(Mass(e, scores)) else 0.0
  }

  function Shifted(e: real -> real, s: Option<real>, lse: real): real {
    if s.Some? then e(s.value - lse) else 0.0
  }

  lemma ShiftIsQuotient(e: real -> real, l: real -> real, x: real, mass: real)
    requires ExpLog(e, l) && mass > 0.0
    ensures e(x - l(mass)) == Quotient(e(x), mass)
  {
    var y := x - l(mass);
    assert Product(e(y), e(l(mass))) == e(y + l(mass));
    assert y + l(mass) == x;
    assert Product(e(y), mass) == e(x);
    ProductQuotient(e(y), mass);
  }

  lemma ProductQuotient(x: real, y: real)
    requires y != 0.0
    ensures Quotient(Product(x, y), y) == x
  {
    assert x * y / y == x;
  }

  /** The diagonal scores at padding are minus infinity. */
  function MaskedDiagonal(h: Head, i: nat): seq<Option<real>>
    requires Shaped(h) && 1 <= i < |h.keys|
  {
    seq(|h.q|, t requires 0 <= t < |h.q| => if h.mask[t] then Some(h.score(h.q[t], h.keys[i][t])) else None)
  }

  function ColumnOf(diagonals: seq<seq<Option<real>>>, t: nat): seq<Option<real>>
    requires forall i :: 0 <= i < |diagonals| ==> t < |diagonals[i]|
  {
    seq(|diagonals|, i requires 0 <= i < |diagonals| => diagonals[i][t])
  }

  function ScaleRows(rows: seq<Vec>, ws: seq<real>, width: nat): seq<Vec>
    requires Rect(rows, |ws|, width)
  {
    seq(|rows|, t requires 0 <= t < |rows| =>
      seq(width, d requires 0 <= d < width => Product(rows[t][d], ws[t])))
  }

  /** At a real token the joint log-sum-exp is the logarithm of the whole mass. */
  lemma JointIsWhole(e: real -> real, l: real -> real, h: Head, t: nat)
    requires Shaped(h) && t < |h.q| && h.mask[t] && ExpLog(e, l)
    ensures var diagonal := DiagonalScores(h, t, |h.keys| - 1);
            JointLse(e, l, [Some(l(Mass(e, DenseScores(h, t))))] + diagonal) == l(Mass(e, AllScores(h, t)))
  {
    RealTokenHasMass(e, h, t);
    var first := [Some(l(Mass(e, DenseScores(h, t))))];
    MassConcat(e, first, DiagonalScores(h, t, |h.keys| - 1));
    assert first[..0] == [];
    assert Mass(e, first) == Mass(e, []) + Weight(e, first[0]);
  }

  /** The dense output scaled by its weight is its share of the whole. */
  lemma DenseRebased(e: real -> real, l: real -> real, h: Head, t: nat, d: nat, row: Vec, lse: Option<real>)
    requires Shaped(h) && t < |h.q| && h.mask[t] && d < h.width && ExpLog(e, l) && DenseResult(e, l, h, t, row, lse)
    ensures var mass := Mass(e, AllScores(h, t));
            && mass > 0.0
            && Product(row[d], Shifted(e, lse, l(mass))) == Share(e, DenseScores(h, t), DenseValues(h, d), mass)
  {
    RealTokenHasMass(e, h, t);
    var part, mass := Mass(e, DenseScores(h, t)), Mass(e, AllScores(h, t));
    ShiftIsQuotient(e, l, l(part), mass);
    Rebase(e, DenseScores(h, t), DenseValues(h, d), part, mass);
  }

  function AllDiagonals(h: Head, n: nat): seq<seq<Option<real>>>
    requires Shaped(h) && n < |h.keys|
  {
    seq(n, k requires 0 <= k < n => MaskedDiagonal(h, k + 1))
  }

  method ScoreDiagonals(h: Head) returns (diagonals: seq<seq<Option<real>>>)
    requires Shaped(h)
    ensures diagonals == AllDiagonals(h, |h.keys| - 1)
  {
    diagonals := [];
    for i := 1 to |h.keys|
      invariant diagonals == AllDiagonals(h, i - 1)
    {
      diagonals := diagonals + [MaskedDiagonal(h, i)];
    }
  }

  /** The joint log-sum-exp of every query. */
  function Joint(e: real -> real, l: real -> real, lse0: seq<Option<real>>,
                 diagonals: seq<seq<Option<real>>>): seq<real>
    requires forall i :: 0 <= i < |diagonals| ==> |diagonals[i]| == |lse0|
  {
    seq(|lse0|, t requires 0 <= t < |lse0| => JointLse(e, l, [lse0[t]] + ColumnOf(diagonals, t)))
  }

  function Shifts(e: real -> real, scores: seq<Option<real>>, joint: seq<real>): seq<real>
    requires |scores| == |joint|
  {
    seq(|scores|, t requires 0 <= t < |scores| => Shifted(e, scores[t], joint[t]))
  }

  ghost predicate DenseResults(e: real -> real, l: real -> real, h: Head, out0: seq<Vec>, lse0: seq<Option<real>>)
    requires Shaped(h)
  {
    && Rect(out0, |h.q|, h.width) && |lse0| == |h.q|
    && forall t :: 0 <= t < |h.q| && h.mask[t] ==> DenseResult(e, l, h, t, out0[t], lse0[t])
  }

  lemma JointAt(e: real -> real, l: real -> real, h: Head, out0: seq<Vec>, lse0: seq<Option<real>>, t: nat)
    requires Shaped(h) && t < |h.q| && h.mask[t] && ExpLog(e, l) && DenseResults(e, l, h, out0, lse0)
    ensures Joint(e, l, lse0, AllDiagonals(h, |h.keys| - 1))[t] == l(Mass(e, AllScores(h, t)))
  {
    JointIsWhole(e, l, h, t);
    assert ColumnOf(AllDiagonals(h, |h.keys| - 1), t) == DiagonalScores(h, t, |h.keys| - 1);
    assert DenseResult(e, l, h, t, out0[t], lse0[t]);
  }

  ghost predicate AttendsAt(e: real -> real, h: Head, t: nat, d: nat, x: real)
    requires Shaped(h) && t < |h.q| && d < h.width
  {
    Mass(e, AllScores(h, t)) > 0.0 && x == Attention(e, h, t, d)
  }

  /** At every real token `out` is the attention output. */
  ghost predicate Attends(e: real -> real, h: Head, out: seq<Vec>)
    requires Shaped(h)
  {
    && Rect(out, |h.q|, h.width)
    && forall t, d :: 0 <= t < |h.q| && 0 <= d < h.width && h.mask[t] ==> AttendsAt(e, h, t, d, out[t][d])
  }

  /** Rescales the dense output and adds the cached steps, all by their distance to the
      joint log-sum-exp. */
  method Combine(e: real -> real, l: real -> real, h: Head, out0: seq<Vec>, lse0: seq<Option<real>>,
                 diagonals: seq<seq<Option<real>>>)
      returns (out: seq<Vec>)
    requires Shaped(h) && ExpLog(e, l) && DenseResults(e, l, h, out0, lse0)
    requires diagonals == AllDiagonals(h, |h.keys| - 1)
    ensures Attends(e, h, out)
  {
    var joint := Joint(e, l, lse0, diagonals);
    var scaled := ScaleRows(out0, Shifts(e, lse0, joint), h.width);
    var weights := seq(|diagonals|, k requires 0 <= k < |diagonals| => Shifts(e, diagonals[k], joint));
    forall t | 0 <= t < |h.q| && h.mask[t]
      ensures Masses(e, h)[t] > 0.0 && joint[t] == l(Masses(e, h)[t])
    {
      JointAt(e, l, h, out0, lse0, t);
      RealTokenHasMass(e, h, t);
    }
    forall k | 0 <= k < |weights| ensures SharesOf(e, h, k + 1, weights[k], Masses(e, h), h.mask) {
      DiagonalShares(e, l, h, k + 1, weights[k], joint);
    }
    out := AddCachedSteps(e, h, weights, scaled, Masses(e, h), h.mask);
    RescaledIsAttention(e, l, h, out0, lse0, joint, out);
  }

  lemma RescaledIsAttention(e: real -> real, l: real -> real, h: Head, out0: seq<Vec>, lse0: seq<Option<real>>,
                            joint: seq<real>, out: seq<Vec>)
    requires Shaped(h) && ExpLog(e, l) && DenseResults(e, l, h, out0, lse0)
    requires |joint| == |h.q| && forall t :: 0 <= t < |h.q| && h.mask[t] ==> joint[t] == l(Masses(e, h)[t])
    requires Rect(out, |h.q|, h.width)
    requires Summed(e, h, out, ScaleRows(out0, Shifts(e, lse0, joint), h.width), |h.keys| - 1, Masses(e, h), h.mask)
    ensures Attends(e, h, out)
  {
    forall t, d | 0 <= t < |h.q| && 0 <= d < h.width && h.mask[t]
      ensures AttendsAt(e, h, t, d, out[t][d])
    {
      assert DenseResult(e, l, h, t, out0[t], lse0[t]);
      DenseRebased(e, l, h, t, d, out0[t], lse0[t]);
    }
  }

  lemma OnlyDense(e: real -> real, l: real -> real, h: Head, out0: seq<Vec>, lse0: seq<Option<real>>)
    requires Shaped(h) && |h.keys| <= 1 && DenseResults(e, l, h, out0, lse0)
    ensures Attends(e, h, out0)
  {
    forall t, d | 0 <= t < |h.q| && 0 <= d < h.width && h.mask[t]
      ensures AttendsAt(e, h, t, d, out0[t][d])
    {
      assert DenseResult(e, l, h, t, out0[t], lse0[t]);
      OnlyDenseAt(e, l, h, t, d, out0[t], lse0[t]);
    }
  }

  lemma OnlyDenseAt(e: real -> real, l: real -> real, h: Head, t: nat, d: nat, row: Vec, lse: Option<real>)
    requires Shaped(h) && |h.keys| <= 1 && t < |h.q| && d < h.width && DenseResult(e, l, h, t, row, lse)
    ensures AttendsAt(e, h, t, d, row[d])
  {
    AppendNone(DenseScores(h, t));
    assert DiagonalScores(h, t, 0) == [];
    assert AllScores(h, t) == DenseScores(h, t);
  }

  /** The fast path: the kernel's dense output and log-mass, combined with the cached steps
      through the joint log-sum-exp. At every real token the result is one softmax over all
      scores, as on the plain path. */
  method CachedAttnFlash(e: real -> real, l: real -> real, h: Head) returns (out: seq<Vec>)
    requires Shaped(h) && ExpLog(e, l)
    ensures Attends(e, h, out)
  {
    var out0, lse0 := VarlenCausalAttn(e, l, h);
    if |h.keys| <= 1 {
      OnlyDense(e, l, h, out0, lse0);
      return out0;
    }
    var diagonals := ScoreDiagonals(h);
    out := Combine(e, l, h, out0, lse0, diagonals);
  }

  lemma DiagonalShares(e: real -> real, l: real -> real, h: Head, i: nat, ws: seq<real>, joint: seq<real>)
    requires Shaped(h) && ExpLog(e, l) && 1 <= i < |h.keys| && |ws| == |joint| == |h.q|
    requires forall t :: 0 <= t < |h.q| && h.mask[t] ==> joint[t] == l(Mass(e, AllScores(h, t)))
    requires forall t :: 0 <= t < |h.q| ==> ws[t] == Shifted(e, MaskedDiagonal(h, i)[t], joint[t])
    ensures SharesOf(e, h, i, ws, Masses(e, h), h.mask)
  {
    forall t | 0 <= t < |h.q| && h.mask[t]
      ensures Masses(e, h)[t] != 0.0 && ws[t] == Quotient(e(h.score(h.q[t], h.keys[i][t])), Masses(e, h)[t])
    {
      DiagonalShareAt(e, l, h, i, t);
    }
  }

  lemma DiagonalShareAt(e: real -> real, l: real -> real, h: Head, i: nat, t: nat)
    requires Shaped(h) && ExpLog(e, l) && 1 <= i < |h.keys| && t < |h.q| && h.mask[t]
    ensures var mass := Mass(e, AllScores(h, t));
            && mass > 0.0
            && Shifted(e, MaskedDiagonal(h, i)[t], l(mass)) == Quotient(e(h.score(h.q[t], h.keys[i][t])), mass)
  {
    RealTokenHasMass(e, h, t);
    ShiftIsQuotient(e, l, h.score(h.q[t], h.keys[i][t]), Mass(e, AllScores(h, t)));
  }

  // ---------------------------------------------------------------------
  // The left shift of the targets
  // ---------------------------------------------------------------------

  /** What one speculative step sees of one row: inputs, target ids, loss mask and teacher
      states, each cut to the row's length. */
  datatype StepView = StepView(embeds: seq<Vec>, ids: seq<int>, mask: seq<bool>, teacher: seq<Vec>)

  function ShiftLeft<T>(xs: seq<T>, fill: T): seq<T> {
    if |xs| == 0 then [] else xs[1..] + [fill]
  }

  function Clamp(x: int, vocab: nat): int {
    if x < 0 then 0 else if x >= vocab then vocab - 1 else x
  }

  /** An id outside the vocabulary becomes the nearest one inside. */
  lemma ClampIsNearest(x: int, vocab: nat, y: nat)
    requires y < vocab
    ensures 0 <= Clamp(x, vocab) < vocab
    ensures var near, far := if Clamp(x, vocab) < x then x - Clamp(x, vocab) else Clamp(x, vocab) - x,
                             if y < x then x - y else y - x;
            near <= far
  {
  }

  function ClampAll(ids: seq<int>, vocab: nat): seq<int> {
    seq(|ids|, i requires 0 <= i < |ids| => Clamp(ids[i], vocab))
  }

  /** Entry `i` of the sequence, and `fill` past its end. */
  function At<T>(xs: seq<T>, i: nat, fill: T): T {
    if i < |xs| then xs[i] else fill
  }

  /** `cur` is `base` shifted left by `k`. */
  ghost predicate IsShift<T>(cur: seq<T>, base: seq<T>, k: nat, fill: T) {
    |cur| == |base| && forall i :: 0 <= i < |base| ==> cur[i] == At(base, i + k, fill)
  }

  lemma ShiftOnce<T>(cur: seq<T>, base: seq<T>, k: nat, fill: T)
    requires IsShift(cur, base, k, fill)
    ensures IsShift(ShiftLeft(cur, fill), base, k + 1, fill)
  {
    var next := ShiftLeft(cur, fill);
    forall i | 0 <= i < |base| ensures next[i] == At(base, i + (k + 1), fill) {
      if i + 1 < |base| {
        assert next[i] == cur[i + 1] == At(base, (i + 1) + k, fill);
      }
    }
  }

  /** The inputs of a step: given at the first, and later looked up from the shifted ids if
      there is an embedding table, or else shifted themselves. */
  ghost predicate Inputs(seen: seq<Vec>, s: nat, embeds: seq<Vec>, ids: seq<int>, table: Option<seq<Vec>>, zero: Vec)
    requires table.Some? ==> |table.value| > 0 && forall i :: 0 <= i < |ids| ==> 0 <= ids[i] < |table.value|
  {
    && |seen| == |embeds|
    && forall t {:trigger seen[t]} :: 0 <= t < |embeds| ==>
         seen[t] == if s == 0 then embeds[t]
                    else if table.Some? then table.value[At(ids, t + s, 0)]
                    else At(embeds, t + s, zero)
  }

  /** Position `t` of step `s` sees the targets of position `t + s`. */
  ghost predicate Targets(view: StepView, s: nat, n: nat, ids: seq<int>, mask: seq<bool>, teacher: seq<Vec>,
                          zero: Vec) {
    && |view.ids| == |view.mask| == |view.teacher| == n
    && forall t :: 0 <= t < n ==>
         && view.ids[t] == At(ids, t + s, 0)
         && view.mask[t] == At(mask, t + s, false)
         && view.teacher[t] == At(teacher, t + s, zero)
  }

  /** The step loop over one row. `zero` is the zero vector that pads teacher states. */
  method Steps(embeds: seq<Vec>, targetIds: seq<int>, lossMask: seq<bool>, teacher: seq<Vec>, table: Option<seq<Vec>>,
               length: nat, zero: Vec)
      returns (views: seq<StepView>)
    requires |targetIds| >= |embeds| && |lossMask| >= |embeds| && |teacher| >= |embeds|
    requires table.Some? ==> |table.value| > 0
    ensures |views| == length
    ensures var ids := if table.Some? then ClampAll(targetIds, |table.value|) else targetIds;
            forall s :: 0 <= s < length ==>
              && Targets(views[s], s, |embeds|, ids, lossMask, teacher, zero)
              && Inputs(views[s].embeds, s, embeds, ids, table, zero)
  {
    var n := |embeds|;
    var padded := teacher + seq(length, _ => zero);
    var ids := if table.Some? then ClampAll(targetIds, |table.value|) else targetIds;
    var currentIds, currentMask, currentEmbeds := ids, lossMask, embeds;
    views := [];
    for step := 0 to length
      invariant |views| == step
      invariant step < length ==> IsShift(currentIds, ids, step, 0) && IsShift(currentMask, lossMask, step, false)
      invariant step < length ==> Inputs(currentEmbeds, step, embeds, ids, table, zero)
      invariant forall s :: 0 <= s < step ==> Targets(views[s], s, n, ids, lossMask, teacher, zero)
      invariant forall s :: 0 <= s < step ==> Inputs(views[s].embeds, s, embeds, ids, table, zero)
    {
      var view := StepView(currentEmbeds, currentIds[..n], currentMask[..n], padded[step..step + n]);
      ViewIsTargets(view, step, n, currentIds, currentMask, ids, lossMask, teacher, length, zero);
      views := views + [view];
      if step < length - 1 {
        ShiftOnce(currentIds, ids, step, 0);
        ShiftOnce(currentMask, lossMask, step, false);
        currentIds := ShiftLeft(currentIds, 0);
        currentMask := ShiftLeft(currentMask, false);
        currentEmbeds := NextInputs(currentEmbeds, currentIds, table, zero);
        NextInputsAre(view.embeds, currentEmbeds, currentIds, step, embeds, ids, table, zero);
      }
    }
  }

  function NextInputs(current: seq<Vec>, ids: seq<int>, table: Option<seq<Vec>>, zero: Vec): seq<Vec>
    requires |ids| >= |current|
    requires table.Some? ==> |table.value| > 0 && forall i :: 0 <= i < |ids| ==> 0 <= ids[i] < |table.value|
  {
    if table.Some? then seq(|current|, t requires 0 <= t < |current| => table.value[ids[t]])
    else ShiftLeft(current, zero)
  }

  lemma NextInputsAre(current: seq<Vec>, next: seq<Vec>, shifted: seq<int>, s: nat, embeds: seq<Vec>, ids: seq<int>,
                      table: Option<seq<Vec>>, zero: Vec)
    requires table.Some? ==> |table.value| > 0 && forall i :: 0 <= i < |ids| ==> 0 <= ids[i] < |table.value|
    requires |ids| >= |embeds| && IsShift(shifted, ids, s + 1, 0)
    requires Inputs(current, s, embeds, ids, table, zero)
    requires next == NextInputs(current, shifted, table, zero)
    ensures Inputs(next, s + 1, embeds, ids, table, zero)
  {
    if table.None? {
      ShiftOnce(current, embeds, s, zero);
    }
  }

  lemma ViewIsTargets(view: StepView, s: nat, n: nat, currentIds: seq<int>, currentMask: seq<bool>, ids: seq<int>,
                      mask: seq<bool>, teacher: seq<Vec>, length: nat, zero: Vec)
    requires IsShift(currentIds, ids, s, 0) && IsShift(currentMask, mask, s, false)
    requires n <= |ids| && n <= |mask| && n <= |teacher| && s < length
    requires view.ids == currentIds[..n] && view.mask == currentMask[..n]
    requires view.teacher == (teacher + seq(length, _ => zero))[s..s + n]
    ensures Targets(view, s, n, ids, mask, teacher, zero)
  {
  }

  /** Position `t` of step `s` takes part in the loss and reads a zero-padded teacher state. */
  ghost predicate ReadsPadding(n: nat, length: nat, mask: seq<bool>, teacher: seq<Vec>, s: nat, t: nat) {
    s < length && t < n && At(mask, t + s, false) && t + s >= |teacher|
  }

  /** Main result: that happens if and only if the loss mask reaches past the teacher states,
      within the range the steps look at. With equal lengths it never happens. */
  lemma PaddingReadIff(n: nat, length: nat, mask: seq<bool>, teacher: seq<Vec>)
    requires n > 0 && |teacher| >= n
    ensures (exists s, t :: ReadsPadding(n, length, mask, teacher, s, t))
       <==> exists j :: |teacher| <= j < |mask| && j < n + length - 1 && mask[j]
    ensures |mask| <= |teacher| ==> !exists s, t :: ReadsPadding(n, length, mask, teacher, s, t)
  {
    if s, t :| ReadsPadding(n, length, mask, teacher, s, t) {
      assert mask[t + s];
    }
    if j :| |teacher| <= j < |mask| && j < n + length - 1 && mask[j] {
      assert ReadsPadding(n, length, mask, teacher, j - (n - 1), n - 1);
    }
  }
}
