/** Dynamic sampling's group filter: prompts whose samples all score alike are dropped. */
module GroupFilter {
  import opened Arith
  import opened Seqs
  import opened Stats
  import opened Wrappers

  /** The standard deviation, the non-negative root of the variance, is above `eps`. */
  predicate StdAbove(vs: seq<real>, eps: real)
    requires |vs| > 0
  {
    eps < 0.0 || Variance(vs) > eps * eps
  }

  predicate KeepsGroup(vs: seq<real>, eps: real)
    requires |vs| > 0
  {
    |vs| == 1 || StdAbove(vs, eps)
  }

  /** The values of the samples with id `u`, in order. */
  function ValuesOf<U(==)>(vals: seq<real>, uids: seq<U>, u: U): seq<real>
    requires |vals| == |uids|
  {
    if |uids| == 0 then []
    else
      var n := |uids| - 1;
      ValuesOf(vals[..n], uids[..n], u) + if uids[n] == u then [vals[n]] else []
  }

  /** The different ids, in order of first appearance. */
  function Distinct<U(==)>(uids: seq<U>): seq<U> {
    if |uids| == 0 then []
    else
      var n := |uids| - 1;
      Distinct(uids[..n]) + if uids[n] in uids[..n] then [] else [uids[n]]
  }

  predicate KeepsId<U(==)>(vals: seq<real>, uids: seq<U>, u: U, eps: real)
    requires |vals| == |uids|
  {
    var vs := ValuesOf(vals, uids, u);
    |vs| > 0 && KeepsGroup(vs, eps)
  }

  function KeptIds<U(==)>(vals: seq<real>, uids: seq<U>, order: seq<U>, eps: real): seq<U>
    requires |vals| == |uids|
  {
    if |order| == 0 then []
    else
      var n := |order| - 1;
      KeptIds(vals, uids, order[..n], eps) + if KeepsId(vals, uids, order[n], eps) then [order[n]] else []
  }

  lemma {:induction false} DistinctMembers<U>(uids: seq<U>, u: U)
    ensures u in Distinct(uids) <==> u in uids
  {
    if |uids| > 0 {
      DistinctMembers(uids[..|uids| - 1], u);
      assert uids == uids[..|uids| - 1] + [uids[|uids| - 1]];
    }
  }

  lemma {:induction false} ValuesExist<U>(vals: seq<real>, uids: seq<U>, u: U)
    requires |vals| == |uids|
    ensures |ValuesOf(vals, uids, u)| > 0 <==> u in uids
  {
    if |uids| > 0 {
      var n := |uids| - 1;
      ValuesExist(vals[..n], uids[..n], u);
      assert uids == uids[..n] + [uids[n]];
    }
  }

  lemma {:induction false} KeptIdsMembers<U>(vals: seq<real>, uids: seq<U>, order: seq<U>, eps: real, u: U)
    requires |vals| == |uids|
    ensures u in KeptIds(vals, uids, order, eps) <==> u in order && KeepsId(vals, uids, u, eps)
  {
    if |order| > 0 {
      KeptIdsMembers(vals, uids, order[..|order| - 1], eps, u);
      assert order == order[..|order| - 1] + [order[|order| - 1]];
    }
  }

  lemma StepValues<U>(vals: seq<real>, uids: seq<U>, i: nat, u: U)
    requires |vals| == |uids| && i < |uids|
    ensures ValuesOf(vals[..i + 1], uids[..i + 1], u)
         == ValuesOf(vals[..i], uids[..i], u) + if uids[i] == u then [vals[i]] else []
  {
    assert vals[..i + 1][..i] == vals[..i] && uids[..i + 1][..i] == uids[..i];
  }

  lemma StepDistinct<U>(uids: seq<U>, i: nat)
    requires i < |uids|
    ensures Distinct(uids[..i + 1]) == Distinct(uids[..i]) + if uids[i] in uids[..i] then [] else [uids[i]]
  {
    assert uids[..i + 1][..i] == uids[..i];
  }

  /** Groups the values by id, keeping ids in order of first appearance. */
  method GroupById<U(==)>(vals: seq<real>, uids: seq<U>) returns (order: seq<U>, groups: map<U, seq<real>>)
    requires |vals| == |uids|
    ensures order == Distinct(uids)
    ensures forall u :: u in groups <==> u in uids
    ensures forall u :: u in groups ==> groups[u] == ValuesOf(vals, uids, u)
  {
    order, groups := [], map[];
    for i := 0 to |uids|
      invariant order == Distinct(uids[..i])
      invariant forall u :: u in groups <==> u in uids[..i]
      invariant forall u :: u in groups ==> groups[u] == ValuesOf(vals[..i], uids[..i], u)
    {
      var u := uids[i];
      StepDistinct(uids, i);
      forall w ensures ValuesOf(vals[..i + 1], uids[..i + 1], w)
                    == ValuesOf(vals[..i], uids[..i], w) + if u == w then [vals[i]] else [] {
        StepValues(vals, uids, i, w);
      }
      ValuesExist(vals[..i], uids[..i], u);
      assert uids[..i + 1] == uids[..i] + [u];
      if u in groups {
        groups := groups[u := groups[u] + [vals[i]]];
      } else {
        order, groups := order + [u], groups[u := [vals[i]]];
      }
    }
    TakeAll(uids, |uids|);
    TakeAll(vals, |vals|);
  }

  /** Which samples to keep, and the ids kept: those of groups with one sample or with a
      standard deviation above `eps`. */
  method FilterGroupsKeepMask<U(==)>(vals: seq<real>, uids: seq<U>, eps: real)
      returns (r: Result<(seq<bool>, seq<U>)>)
    ensures r.Err? <==> |vals| != |uids|
    ensures r.Err? ==> r.error == ValueError
    ensures r.Ok? ==> |r.value.0| == |uids|
    ensures r.Ok? ==> forall i :: 0 <= i < |uids| ==> (r.value.0[i] <==> KeepsId(vals, uids, uids[i], eps))
    ensures r.Ok? ==> r.value.1 == KeptIds(vals, uids, Distinct(uids), eps)
  {
    if |vals| != |uids| {
      return Err(ValueError);
    }
    var order, groups := GroupById(vals, uids);
    var kept: seq<U> := [];
    for i := 0 to |order|
      invariant kept == KeptIds(vals, uids, order[..i], eps)
    {
      var u := order[i];
      DistinctMembers(uids, u);
      ValuesExist(vals, uids, u);
      assert order[..i + 1][..i] == order[..i];
      if KeepsGroup(groups[u], eps) {
        kept := kept + [u];
      }
    }
    TakeAll(order, |order|);
    var keep := seq(|uids|, i requires 0 <= i < |uids| => uids[i] in kept);
    forall i | 0 <= i < |uids| ensures keep[i] <==> KeepsId(vals, uids, uids[i], eps) {
      KeptIdsMembers(vals, uids, order, eps, uids[i]);
      DistinctMembers(uids, uids[i]);
    }
    r := Ok((keep, kept));
  }

  // ---------------------------------------------------------------------
  // What is dropped: exactly the groups without any spread
  // ---------------------------------------------------------------------

  /** A lone sample is kept; two are kept when half their distance, which is their standard
      deviation, is above the threshold. */
  lemma SmallGroups(a: real, b: real, eps: real)
    requires a <= b && eps >= 0.0
    ensures KeepsGroup([a], eps) && KeepsGroup([b], eps)
    ensures KeepsGroup([a, b], eps) <==> (b - a) / 2.0 > eps
  {
    var half := (b - a) / 2.0;
    assert [a, b][1..] == [b] && [b][1..] == [];
    assert RealSum([b]) == b + RealSum([b][1..]) == b;
    assert RealSum([a, b]) == a + b;
    assert |[a, b]| as real == 2.0;
    assert Mean([a, b]) == a + half == b - half;
    var squares := SquaredDistances([a, b], a + half);
    assert squares == [Square(-half), Square(half)];
    assert squares[1..] == [Square(half)] && squares[1..][1..] == [];
    assert RealSum(squares) == Square(-half) + Square(half);
    ProductNegated(half, half);
    assert Variance([a, b]) == Square(half);
    SquaresOrdered(half, eps);
  }

  lemma SquaresOrdered(x: real, y: real)
    requires x >= 0.0 && y >= 0.0
    ensures Square(x) > y * y <==> x > y
  {
    assert Square(x) - y * y == Product(x - y, x + y) == -Product(y - x, x + y);
    if x > y {
      ProductPositive(x - y, x + y);
    } else if x < y {
      ProductPositive(y - x, x + y);
    }
  }

  /** With the default threshold a group of several samples is kept if and only if two of
      its samples score differently. */
  lemma KeptIffSpread(vs: seq<real>)
    requires |vs| > 1
    ensures KeepsGroup(vs, 0.0) <==> exists i, j :: 0 <= i < j < |vs| && vs[i] != vs[j]
  {
    var m := Mean(vs);
    var total := RealSum(SquaredDistances(vs, m));
    SquaresNonNegative(vs, m);
    PositiveQuotient(total, |vs| as real);
    if total == 0.0 {
      assert AllEqual(vs, m);
    } else if AllEqual(vs, vs[0]) {
      ConstantMean(vs);
      assert false;
    }
  }

  // ---------------------------------------------------------------------
  // Ids given by position: `g` consecutive samples per prompt
  // ---------------------------------------------------------------------

  /** The ids of `prompts` groups of `g` samples. */
  function PositionIds(n: nat, g: nat): seq<nat>
    requires g > 0
  {
    seq(n, i requires 0 <= i => i / g)
  }

  function GroupVals(vals: seq<real>, g: nat, q: nat): seq<real>
    requires q * g + g <= |vals|
  {
    vals[q * g..q * g + g]
  }

  /** The prompts among the first `p` whose group is kept. */
  function KeptPrompts(vals: seq<real>, g: nat, p: nat, eps: real): seq<nat>
    requires g > 0 && p * g <= |vals|
  {
    if p == 0 then []
    else
      MulSucc(p - 1, g);
      KeptPrompts(vals, g, p - 1, eps) + if KeepsGroup(GroupVals(vals, g, p - 1), eps) then [p - 1] else []
  }

  lemma KeptPromptsNext(vals: seq<real>, g: nat, p: nat, eps: real)
    requires g > 0 && p * g + g <= |vals|
    ensures (p + 1) * g <= |vals|
    ensures KeptPrompts(vals, g, p + 1, eps)
         == KeptPrompts(vals, g, p, eps) + if KeepsGroup(GroupVals(vals, g, p), eps) then [p] else []
  {
    MulSucc(p, g);
  }

  /** Exactly the prompts with spread, each once, in order. */
  lemma {:induction false} KeptPromptsSorted(vals: seq<real>, g: nat, p: nat, eps: real)
    requires g > 0 && p * g <= |vals|
    ensures forall i :: 0 <= i < |KeptPrompts(vals, g, p, eps)| ==> KeptPrompts(vals, g, p, eps)[i] < p
    ensures forall i, j :: 0 <= i < j < |KeptPrompts(vals, g, p, eps)| ==>
                             KeptPrompts(vals, g, p, eps)[i] < KeptPrompts(vals, g, p, eps)[j]
  {
    if p > 0 {
      var q: nat := p - 1;
      MulSucc(q, g);
      KeptPromptsSorted(vals, g, q, eps);
      KeptPromptsNext(vals, g, q, eps);
    }
  }

  lemma {:induction false} KeptPromptsMember(vals: seq<real>, g: nat, p: nat, eps: real, q: nat)
    requires g > 0 && p * g <= |vals| && q < p
    ensures q * g + g <= |vals|
    ensures q in KeptPrompts(vals, g, p, eps) <==> KeepsGroup(GroupVals(vals, g, q), eps)
  {
    var before: nat := p - 1;
    MulSucc(before, g);
    BlockFits(q, p, g);
    KeptPromptsNext(vals, g, before, eps);
    KeptPromptsSorted(vals, g, before, eps);
    if q < before {
      KeptPromptsMember(vals, g, before, eps, q);
    }
  }

  lemma BlockIndex(i: nat, q: nat, k: nat, g: nat)
    requires k < g && i == q * g + k
    ensures i / g == q
  {
    DivModUnique(i, g, q, k);
  }

  /** Within the first `n` samples, `k` of them prompt `q`'s, prompt `q` has its first `k`
      and any later prompt none. */
  lemma {:induction false} ValuesSoFar(vals: seq<real>, g: nat, q: nat, k: nat, n: nat, u: nat)
    requires k <= g && g > 0 && n == q * g + k && n <= |vals| && u >= q
    ensures ValuesOf(vals[..n], PositionIds(n, g), u) == if u == q then vals[n - k..n] else []
    decreases q, k
  {
    if k > 0 {
      var i: nat := n - 1;
      ValuesSoFar(vals, g, q, k - 1, i, u);
      BlockIndex(i, q, k - 1, g);
      OneMoreValue(vals, g, q, k - 1, i, u);
    } else if q > 0 {
      MulSucc(q - 1, g);
      ValuesSoFar(vals, g, q - 1, g, n, u);
    }
  }

  lemma OneMoreValue(vals: seq<real>, g: nat, q: nat, k: nat, i: nat, u: nat)
    requires g > 0 && k <= i < |vals| && i / g == q
    requires ValuesOf(vals[..i], PositionIds(i, g), u) == if u == q then vals[i - k..i] else []
    ensures ValuesOf(vals[..i + 1], PositionIds(i + 1, g), u) == if u == q then vals[i - k..i + 1] else []
  {
    ValuesSnoc(vals, g, i, q, u);
    SliceSnoc(vals, i - k, i);
    if u != q {
      var none: seq<real> := [];
      assert none + [] == none;
    }
  }

  lemma SliceSnoc(vals: seq<real>, lo: nat, i: nat)
    requires lo <= i < |vals|
    ensures vals[lo..i] + [vals[i]] == vals[lo..i + 1]
  {
  }

  lemma ValuesSnoc(vals: seq<real>, g: nat, i: nat, q: nat, u: nat)
    requires g > 0 && i < |vals| && i / g == q
    ensures ValuesOf(vals[..i + 1], PositionIds(i + 1, g), u)
         == ValuesOf(vals[..i], PositionIds(i, g), u) + if q == u then [vals[i]] else []
  {
    var ids := PositionIds(i + 1, g);
    assert vals[..i + 1][..i] == vals[..i] && ids[..i] == PositionIds(i, g);
  }

  /** Later samples of other prompts change nothing. */
  lemma {:induction false} ValuesLater(vals: seq<real>, g: nat, u: nat, n: nat)
    requires g > 0 && u * g + g <= n <= |vals|
    ensures ValuesOf(vals[..n], PositionIds(n, g), u) == GroupVals(vals, g, u)
    decreases n
  {
    if n == u * g + g {
      ValuesSoFar(vals, g, u, g, n, u);
    } else {
      var i: nat := n - 1;
      ValuesLater(vals, g, u, i);
      MulSucc(u, g);
      DivMonotone((u + 1) * g, i, g);
      MulDiv(u + 1, g);
      ValuesSnoc(vals, g, i, i / g, u);
    }
  }

  lemma {:induction false} DistinctPositions(g: nat, p: nat, k: nat, n: nat)
    requires 0 < k <= g && n == p * g + k
    ensures Distinct(PositionIds(n, g)) == Iota(p + 1)
    decreases p, k
  {
    BlockIndex(n - 1, p, k - 1, g);
    var first: nat := n - k;
    BlockIndex(first, p, 0, g);
    if k > 1 {
      DistinctPositions(g, p, k - 1, n - 1);
      SeenPosition(g, n - 1, first);
    } else {
      EarlierPositions(g, p, first);
      if p > 0 {
        MulSucc(p - 1, g);
        DistinctPositions(g, p - 1, g, first);
      }
      NewPosition(g, first, p);
    }
  }

  lemma SeenPosition(g: nat, i: nat, first: nat)
    requires g > 0 && first < i && first / g == i / g
    ensures Distinct(PositionIds(i + 1, g)) == Distinct(PositionIds(i, g))
  {
    var ids := PositionIds(i + 1, g);
    assert ids[..i] == PositionIds(i, g);
    assert PositionIds(i, g)[first] == ids[i];
  }

  lemma NewPosition(g: nat, i: nat, p: nat)
    requires g > 0 && i / g == p && p !in PositionIds(i, g) && Distinct(PositionIds(i, g)) == Iota(p)
    ensures Distinct(PositionIds(i + 1, g)) == Iota(p + 1)
  {
    var ids := PositionIds(i + 1, g);
    assert ids[..i] == PositionIds(i, g);
    IotaSnoc(p + 1);
  }

  lemma EarlierPositions(g: nat, p: nat, first: nat)
    requires g > 0 && first == p * g
    ensures p !in PositionIds(first, g)
    ensures p == 0 ==> Distinct(PositionIds(first, g)) == Iota(0)
  {
    forall i | 0 <= i < first ensures i / g != p {
      DivBelow(i, g, p);
    }
  }

  lemma BlockFits(q: nat, p: nat, g: nat)
    requires q < p
    ensures q * g + g <= p * g
  {
    MulSucc(q, g);
    MulMonotone(q + 1, p, g);
  }

  lemma KeptIdsNext(vals: seq<real>, uids: seq<nat>, q: nat, eps: real)
    requires |vals| == |uids|
    ensures KeptIds(vals, uids, Iota(q + 1), eps)
         == KeptIds(vals, uids, Iota(q), eps) + if KeepsId(vals, uids, q, eps) then [q] else []
  {
    var order := Iota(q + 1);
    assert order[..q] == Iota(q) && order[q] == q;
  }

  lemma {:induction false} KeptIsKeptPrompts(vals: seq<real>, g: nat, q: nat, eps: real)
    requires g > 0 && q * g <= |vals|
    ensures KeptIds(vals, PositionIds(|vals|, g), Iota(q), eps) == KeptPrompts(vals, g, q, eps)
  {
    if q > 0 {
      var before: nat := q - 1;
      MulSucc(before, g);
      KeptIsKeptPrompts(vals, g, before, eps);
      KeptIdsNext(vals, PositionIds(|vals|, g), before, eps);
      KeptPromptsNext(vals, g, before, eps);
      KeepsPrompt(vals, g, before, eps);
    }
  }

  lemma KeepsPrompt(vals: seq<real>, g: nat, q: nat, eps: real)
    requires g > 0 && q * g + g <= |vals|
    ensures KeepsId(vals, PositionIds(|vals|, g), q, eps) <==> KeepsGroup(GroupVals(vals, g, q), eps)
  {
    ValuesLater(vals, g, q, |vals|);
    TakeAll(vals, |vals|);
  }

  lemma DistinctAll(g: nat, p: nat, n: nat)
    requires g > 0 && n == p * g
    ensures Distinct(PositionIds(n, g)) == Iota(p)
  {
    if p > 0 {
      MulSucc(p - 1, g);
      DistinctPositions(g, p - 1, g, n);
    }
  }

  /** On ids given by position the kept ids are the prompts whose own block of `g` scores
      has spread (or is a single sample), in order. */
  lemma FilterByPosition(vals: seq<real>, g: nat, p: nat, eps: real)
    requires g > 0 && |vals| == p * g
    ensures var ids := PositionIds(|vals|, g);
            KeptIds(vals, ids, Distinct(ids), eps) == KeptPrompts(vals, g, p, eps)
  {
    DistinctAll(g, p, |vals|);
    KeptIsKeptPrompts(vals, g, p, eps);
  }

  /** ... and a sample is kept exactly when its prompt is. */
  lemma SampleByPosition(vals: seq<real>, g: nat, p: nat, i: nat, eps: real)
    requires g > 0 && |vals| == p * g && i < |vals|
    ensures i / g < p && (i / g) * g + g <= |vals|
    ensures KeepsId(vals, PositionIds(|vals|, g), PositionIds(|vals|, g)[i], eps)
       <==> KeepsGroup(GroupVals(vals, g, i / g), eps)
  {
    DivBelow(i, g, p);
    BlockFits(i / g, p, g);
    KeepsPrompt(vals, g, i / g, eps);
  }
}
