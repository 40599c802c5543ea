/** Index maps over sequences: gathering, flattening, permuting and summing. */
module Seqs {
  import opened Arith

  function Iota(n: nat): seq<nat> {
    seq(n, i => i)
  }

  function Copies<T>(x: T, n: nat): seq<T> {
    seq(n, _ => x)
  }

  /** The positions lo, lo+1, .., hi-1. */
  function Span(lo: nat, hi: nat): seq<nat>
    requires lo <= hi
  {
    seq(hi - lo, i requires 0 <= i => lo + i)
  }

  predicate InRange(idx: seq<nat>, n: nat) {
    forall i :: 0 <= i < |idx| ==> idx[i] < n
  }

  /** Row `i` of the result is row `idx[i]` of `xs`. */
  function Gather<T>(xs: seq<T>, idx: seq<nat>): seq<T>
    requires InRange(idx, |xs|)
  {
    seq(|idx|, i requires 0 <= i < |idx| => xs[idx[i]])
  }

  function Flatten<T>(xss: seq<seq<T>>): seq<T> {
    if |xss| == 0 then [] else xss[0] + Flatten(xss[1..])
  }

  function Map<T, U>(f: T --> U, xs: seq<T>): (r: seq<U>)
    requires forall i :: 0 <= i < |xs| ==> f.requires(xs[i])
  {
    seq(|xs|, i requires 0 <= i < |xs| => f(xs[i]))
  }

  /** The non-empty members, in order. */
  function DropEmpty<T>(xss: seq<seq<T>>): seq<seq<T>> {
    if |xss| == 0 then []
    else if |xss[0]| == 0 then DropEmpty(xss[1..])
    else [xss[0]] + DropEmpty(xss[1..])
  }

  function Sum(xs: seq<nat>): nat {
    if |xs| == 0 then 0 else xs[0] + Sum(xs[1..])
  }

  function RealSum(xs: seq<real>): real {
    if |xs| == 0 then 0.0 else xs[0] + RealSum(xs[1..])
  }

  function Max(xs: seq<nat>): (m: nat)
    ensures forall i :: 0 <= i < |xs| ==> xs[i] <= m
    ensures |xs| > 0 ==> m in xs
  {
    if |xs| == 0 then 0
    else
      var rest := Max(xs[1..]);
      if |xs| > 1 && rest >= xs[0] then rest else xs[0]
  }

  /** `idx` lists every position below `n` exactly once. */
  ghost predicate IsPermutation(idx: seq<nat>, n: nat) {
    multiset(idx) == multiset(Iota(n))
  }

  lemma PermutationInRange(idx: seq<nat>, n: nat)
    requires IsPermutation(idx, n)
    ensures |idx| == n && InRange(idx, n)
  {
    assert |multiset(idx)| == |multiset(Iota(n))|;
    forall i | 0 <= i < |idx| ensures idx[i] < n {
      assert idx[i] in multiset(idx);
    }
  }

  lemma IotaSnoc(n: nat)
    requires n > 0
    ensures Iota(n) == Iota(n - 1) + [n - 1]
  {
  }

  lemma PermutationSnoc(idx: seq<nat>, longer: seq<nat>, n: nat)
    requires n > 0 && IsPermutation(idx, n - 1)
    requires multiset(longer) == multiset(idx) + multiset{(n - 1) as nat}
    ensures IsPermutation(longer, n)
  {
    IotaSnoc(n);
  }

  lemma GatherIota<T>(xs: seq<T>)
    ensures Gather(xs, Iota(|xs|)) == xs
  {
  }

  lemma GatherPrefix<T>(xs: seq<T>, n: nat)
    requires n <= |xs|
    ensures Gather(xs, Iota(n)) == xs[..n]
  {
  }

  lemma GatherSpan<T>(xs: seq<T>, lo: nat, hi: nat)
    requires lo <= hi <= |xs|
    ensures Gather(xs, Span(lo, hi)) == xs[lo..hi]
  {
  }

  lemma GatherConcat<T>(xs: seq<T>, a: seq<nat>, b: seq<nat>)
    requires InRange(a, |xs|) && InRange(b, |xs|)
    ensures InRange(a + b, |xs|) && Gather(xs, a + b) == Gather(xs, a) + Gather(xs, b)
  {
  }

  /** Gathering twice is gathering once with the composed index map. */
  lemma GatherCompose<T>(xs: seq<T>, a: seq<nat>, b: seq<nat>)
    requires InRange(a, |xs|) && InRange(b, |a|)
    ensures InRange(Gather(a, b), |xs|)
    ensures Gather(Gather(xs, a), b) == Gather(xs, Gather(a, b))
  {
  }

  lemma TakeMultiset<T>(xs: seq<T>, k: nat)
    requires 0 < k <= |xs|
    ensures multiset(xs[..k]) == multiset(xs[..k - 1]) + multiset{xs[k - 1]}
  {
    assert xs[..k] == xs[..k - 1] + [xs[k - 1]];
  }

  lemma TakeAll<T>(xs: seq<T>, n: nat)
    requires n == |xs|
    ensures xs[..n] == xs
  {
  }

  lemma RemoveAtMultiset<T>(b: seq<T>, k: nat)
    requires k < |b|
    ensures multiset(b[..k] + b[k + 1..]) == multiset(b) - multiset{b[k]}
  {
    assert b == b[..k] + [b[k]] + b[k + 1..];
  }

  lemma SameAfterRemoval<T>(a: seq<T>, b: seq<T>, k: nat)
    requires |a| > 0 && k < |b| && a[0] == b[k]
    ensures multiset(a[1..]) == multiset(b[..k] + b[k + 1..]) <==> multiset(a) == multiset(b)
  {
    RemoveAtMultiset(b, k);
    assert a == [a[0]] + a[1..];
    assert multiset(a) == multiset{a[0]} + multiset(a[1..]);
    assert multiset(b) == multiset{b[k]} + (multiset(b) - multiset{b[k]});
  }

  /** Reindexing by two rearrangements of the same positions keeps the same rows. */
  lemma {:induction false} GatherMultiset<T>(xs: seq<T>, a: seq<nat>, b: seq<nat>)
    requires InRange(a, |xs|) && InRange(b, |xs|)
    requires multiset(a) == multiset(b)
    ensures multiset(Gather(xs, a)) == multiset(Gather(xs, b))
    decreases |a|
  {
    if |a| == 0 {
      assert |multiset(b)| == 0;
    } else {
      assert a[0] in multiset(b);
      var k :| 0 <= k < |b| && b[k] == a[0];
      var b' := b[..k] + b[k + 1..];
      SameAfterRemoval(a, b, k);
      GatherMultiset(xs, a[1..], b');
      var ga, gb := Gather(xs, a), Gather(xs, b);
      assert gb[..k] + gb[k + 1..] == Gather(xs, b');
      assert ga[1..] == Gather(xs, a[1..]);
      SameAfterRemoval(ga, gb, k);
    }
  }

  lemma PermutedMultiset<T>(xs: seq<T>, idx: seq<nat>)
    requires IsPermutation(idx, |xs|)
    ensures InRange(idx, |xs|) && multiset(Gather(xs, idx)) == multiset(xs)
  {
    PermutationInRange(idx, |xs|);
    GatherMultiset(xs, idx, Iota(|xs|));
    GatherIota(xs);
  }

  lemma {:induction false} FlattenConcat<T>(a: seq<seq<T>>, b: seq<seq<T>>)
    ensures Flatten(a + b) == Flatten(a) + Flatten(b)
  {
    if |a| == 0 {
      assert a + b == b;
    } else {
      assert (a + b)[1..] == a[1..] + b;
      FlattenConcat(a[1..], b);
    }
  }

  lemma FlattenSnoc<T>(a: seq<seq<T>>, x: seq<T>)
    ensures Flatten(a + [x]) == Flatten(a) + x
  {
    FlattenConcat(a, [x]);
    assert Flatten([x]) == x + Flatten([]);
  }

  lemma {:induction false} SumConcat(a: seq<nat>, b: seq<nat>)
    ensures Sum(a + b) == Sum(a) + Sum(b)
  {
    if |a| == 0 {
      assert a + b == b;
    } else {
      assert (a + b)[1..] == a[1..] + b;
      SumConcat(a[1..], b);
    }
  }

  lemma {:induction false} RealSumConcat(a: seq<real>, b: seq<real>)
    ensures RealSum(a + b) == RealSum(a) + RealSum(b)
  {
    if |a| == 0 {
      assert a + b == b;
    } else {
      assert (a + b)[1..] == a[1..] + b;
      RealSumConcat(a[1..], b);
    }
  }

  lemma FlattenPair<T>(a: seq<T>, b: seq<T>)
    ensures Flatten([a, b]) == a + b
  {
    assert [a, b][1..] == [b];
    assert Flatten([b]) == b + Flatten([]);
  }

  lemma {:induction false} DropEmptyFlatten<T>(xss: seq<seq<T>>)
    ensures Flatten(DropEmpty(xss)) == Flatten(xss)
  {
    if |xss| > 0 {
      DropEmptyFlatten(xss[1..]);
      if |xss[0]| > 0 {
        assert DropEmpty(xss)[1..] == DropEmpty(xss[1..]);
      }
    }
  }

  lemma {:induction false} DropEmptyMembers<T>(xss: seq<seq<T>>)
    ensures forall i :: 0 <= i < |DropEmpty(xss)| ==> |DropEmpty(xss)[i]| > 0 && DropEmpty(xss)[i] in xss
  {
    if |xss| > 0 {
      DropEmptyMembers(xss[1..]);
    }
  }

  lemma {:induction false} FlattenLength<T>(xss: seq<seq<T>>, k: nat)
    requires forall i :: 0 <= i < |xss| ==> |xss[i]| == k
    ensures |Flatten(xss)| == |xss| * k
  {
    if |xss| > 0 {
      FlattenLength(xss[1..], k);
      assert |xss| * k == k + (|xss| - 1) * k;
    }
  }

  /** Equal-length blocks sit at multiples of their length. */
  lemma {:induction false} FlattenBlock<T>(xss: seq<seq<T>>, k: nat, i: nat)
    requires forall j :: 0 <= j < |xss| ==> |xss[j]| == k
    requires i < |xss|
    ensures |Flatten(xss)| == |xss| * k
    ensures 0 <= i * k <= (i + 1) * k <= |xss| * k
    ensures Flatten(xss)[i * k..(i + 1) * k] == xss[i]
  {
    FlattenLength(xss, k);
    assert (i + 1) * k <= |xss| * k by { MulMonotone(i + 1, |xss|, k); }
    assert i * k <= (i + 1) * k by { MulMonotone(i, i + 1, k); }
    if i == 0 {
      assert (i + 1) * k == k;
    } else {
      FlattenBlock(xss[1..], k, i - 1);
      assert i * k == k + (i - 1) * k;
      assert (i + 1) * k == k + i * k;
      assert Flatten(xss)[i * k..(i + 1) * k] == Flatten(xss[1..])[(i - 1) * k..i * k];
    }
  }
}
