/** Longest-first assignment of rows to equal-size bins, one bin a worker. */
module Balancer {
  import opened Arith
  import opened Seqs

  // ---------------------------------------------------------------------
  // The order rows are handed out in
  // ---------------------------------------------------------------------

  /** `i` goes before `j`: longer first, original order among equals. */
  predicate Before(lens: seq<nat>, i: nat, j: nat)
    requires i < |lens| && j < |lens|
  {
    lens[i] > lens[j] || (lens[i] == lens[j] && i < j)
  }

  ghost predicate IsLongestFirst(lens: seq<nat>, order: seq<nat>) {
    && InRange(order, |lens|)
    && forall a, b {:trigger Before(lens, order[a], order[b])} ::
      0 <= a < b < |order| ==> Before(lens, order[a], order[b])
  }

  function Insert(lens: seq<nat>, order: seq<nat>, i: nat): (r: seq<nat>)
    requires InRange(order, |lens|) && i < |lens|
    ensures |r| == |order| + 1
  {
    if |order| == 0 || Before(lens, i, order[0]) then [i] + order
    else [order[0]] + Insert(lens, order[1..], i)
  }

  /** A stable sort of the first `n` rows by decreasing length. */
  function LongestFirst(lens: seq<nat>, n: nat): (order: seq<nat>)
    requires n <= |lens|
    ensures InRange(order, |lens|) && |order| == n
  {
    if n == 0 then []
    else
      var rest := LongestFirst(lens, n - 1);
      InsertKeeps(lens, rest, n - 1);
      Insert(lens, rest, n - 1)
  }

  lemma {:induction false} InsertKeeps(lens: seq<nat>, order: seq<nat>, i: nat)
    requires InRange(order, |lens|) && i < |lens|
    ensures InRange(Insert(lens, order, i), |lens|)
    ensures multiset(Insert(lens, order, i)) == multiset(order) + multiset{i}
  {
    if |order| == 0 || Before(lens, i, order[0]) {
    } else {
      InsertKeeps(lens, order[1..], i);
      assert order == [order[0]] + order[1..];
    }
  }

  lemma {:induction false} InsertSorted(lens: seq<nat>, order: seq<nat>, i: nat)
    requires InRange(order, |lens|) && i < |lens|
    requires IsLongestFirst(lens, order) && i !in order
    ensures IsLongestFirst(lens, Insert(lens, order, i))
  {
    if |order| == 0 {
    } else if Before(lens, i, order[0]) {
      forall b | 0 <= b < |order| ensures Before(lens, i, order[b]) {
        assert b > 0 ==> Before(lens, order[0], order[b]);
      }
    } else {
      forall a, b | 0 <= a < b < |order[1..]| ensures Before(lens, order[1..][a], order[1..][b]) {
        assert Before(lens, order[a + 1], order[b + 1]);
      }
      InsertSorted(lens, order[1..], i);
      InsertKeeps(lens, order[1..], i);
      var tail := Insert(lens, order[1..], i);
      forall b | 0 <= b < |tail| ensures Before(lens, order[0], tail[b]) {
        assert tail[b] in multiset(order[1..]) + multiset{i};
        if tail[b] != i {
          var a :| 1 <= a < |order| && order[a] == tail[b];
          assert Before(lens, order[0], order[a]);
        }
      }
    }
  }

  lemma {:induction false} LongestFirstPermutes(lens: seq<nat>, n: nat)
    requires n <= |lens|
    ensures IsPermutation(LongestFirst(lens, n), n)
  {
    if n == 0 {
      assert Iota(0) == [];
    } else {
      LongestFirstPermutes(lens, n - 1);
      var rest := LongestFirst(lens, n - 1);
      InsertKeeps(lens, rest, n - 1);
      PermutationSnoc(rest, LongestFirst(lens, n), n);
    }
  }

  /** The order is the one stable descending sort of all the rows. */
  lemma {:induction false} LongestFirstSorts(lens: seq<nat>, n: nat)
    requires n <= |lens|
    ensures IsLongestFirst(lens, LongestFirst(lens, n))
    ensures IsPermutation(LongestFirst(lens, n), n)
  {
    LongestFirstPermutes(lens, n);
    if n > 0 {
      var rest := LongestFirst(lens, n - 1);
      LongestFirstSorts(lens, n - 1);
      PermutationInRange(rest, n - 1);
      InsertSorted(lens, rest, n - 1);
    }
  }

  // ---------------------------------------------------------------------
  // Handing out the rows
  // ---------------------------------------------------------------------

  /** Token count of the rows in one bin. */
  function Load(lens: seq<nat>, bin: seq<nat>): nat
    requires InRange(bin, |lens|)
  {
    Sum(Gather(lens, bin))
  }

  /** The first least-loaded bin among the first `n` that still has room; -1 if all are full. */
  function LeastLoadedOpen(bins: seq<seq<nat>>, loads: seq<nat>, cap: nat, n: nat): (b: int)
    requires n <= |bins| == |loads|
    ensures -1 <= b < n
  {
    if n == 0 then -1
    else
      var b := LeastLoadedOpen(bins, loads, cap, n - 1);
      if |bins[n - 1]| < cap && (b < 0 || loads[n - 1] < loads[b]) then n - 1 else b
  }

  /** It exists unless all are full, is open, is no heavier than any open bin and lighter
      than every open bin before it. */
  lemma {:induction false} LeastLoadedOpenIsLeast(bins: seq<seq<nat>>, loads: seq<nat>, cap: nat, n: nat)
    requires n <= |bins| == |loads|
    ensures var b := LeastLoadedOpen(bins, loads, cap, n);
            if b < 0 then forall j :: 0 <= j < n ==> |bins[j]| >= cap
            else |bins[b]| < cap && forall j :: 0 <= j < n && |bins[j]| < cap ==>
                                                loads[b] <= loads[j] && (j < b ==> loads[b] < loads[j])
  {
    if n > 0 {
      LeastLoadedOpenIsLeast(bins, loads, cap, n - 1);
    }
  }

  predicate ValidBins(lens: seq<nat>, bins: seq<seq<nat>>) {
    forall j :: 0 <= j < |bins| ==> InRange(bins[j], |lens|)
  }

  function Loads(lens: seq<nat>, bins: seq<seq<nat>>): seq<nat>
    requires ValidBins(lens, bins)
  {
    seq(|bins|, j requires 0 <= j < |bins| => Load(lens, bins[j]))
  }

  /** Hands row `x` to the least-loaded open bin. */
  function Place(lens: seq<nat>, bins: seq<seq<nat>>, x: nat, cap: nat): (r: seq<seq<nat>>)
    requires ValidBins(lens, bins) && x < |lens|
    ensures ValidBins(lens, r) && |r| == |bins|
  {
    var b := LeastLoadedOpen(bins, Loads(lens, bins), cap, |bins|);
    if b < 0 then bins else bins[b := bins[b] + [x]]
  }

  /** Bins after the first `k` rows of `order` were handed out one by one. */
  function Assigned(lens: seq<nat>, order: seq<nat>, workers: nat, cap: nat, k: nat): (bins: seq<seq<nat>>)
    requires InRange(order, |lens|) && k <= |order|
    ensures ValidBins(lens, bins) && |bins| == workers
  {
    if k == 0 then NoRows(workers)
    else Place(lens, Assigned(lens, order, workers, cap, k - 1), order[k - 1], cap)
  }

  /** Rows that fit in `workers` bins of `cap` rows. */
  ghost function Room(workers: nat, cap: nat): nat {
    if workers == 0 then 0 else cap + Room(workers - 1, cap)
  }

  lemma {:induction false} RoomIsProduct(workers: nat, cap: nat)
    ensures Room(workers, cap) == workers * cap
  {
    if workers > 0 {
      RoomIsProduct(workers - 1, cap);
      assert workers * cap == cap + (workers - 1) * cap;
    }
  }

  ghost predicate Fits(bins: seq<seq<nat>>, cap: nat, placed: multiset<nat>) {
    && (forall j :: 0 <= j < |bins| ==> |bins[j]| <= cap)
    && multiset(Flatten(bins)) == placed
  }

  /** As long as there is room in all, no row is lost and no bin overflows. */
  lemma {:induction false} AssignedFits(lens: seq<nat>, order: seq<nat>, workers: nat, cap: nat, k: nat)
    requires InRange(order, |lens|) && k <= |order| <= Room(workers, cap)
    ensures Fits(Assigned(lens, order, workers, cap, k), cap, multiset(order[..k]))
  {
    if k == 0 {
      EmptyBins(workers);
    } else {
      AssignedFits(lens, order, workers, cap, k - 1);
      var bins := Assigned(lens, order, workers, cap, k - 1);
      PlaceFits(lens, bins, order[k - 1], cap, multiset(order[..k - 1]));
      TakeMultiset(order, k);
    }
  }

  lemma PlaceFits(lens: seq<nat>, bins: seq<seq<nat>>, x: nat, cap: nat, placed: multiset<nat>)
    requires ValidBins(lens, bins) && x < |lens|
    requires Fits(bins, cap, placed) && |placed| < Room(|bins|, cap)
    ensures LeastLoadedOpen(bins, Loads(lens, bins), cap, |bins|) >= 0
    ensures Fits(Place(lens, bins, x, cap), cap, placed + multiset{x})
  {
    RoomLeft(bins, cap, placed);
    LeastLoadedOpenIsLeast(bins, Loads(lens, bins), cap, |bins|);
    var b := LeastLoadedOpen(bins, Loads(lens, bins), cap, |bins|);
    AppendToBin(bins, b, x);
  }

  function NoRows(workers: nat): seq<seq<nat>> {
    seq(workers, _ => [])
  }

  lemma {:induction false} EmptyBins(workers: nat)
    ensures Flatten(NoRows(workers)) == []
  {
    if workers > 0 {
      EmptyBins(workers - 1);
      assert NoRows(workers)[1..] == NoRows(workers - 1);
    }
  }

  lemma {:induction false} AppendToBin(bins: seq<seq<nat>>, b: nat, x: nat)
    requires b < |bins|
    ensures multiset(Flatten(bins[b := bins[b] + [x]])) == multiset(Flatten(bins)) + multiset{x}
  {
    if b > 0 {
      AppendToBin(bins[1..], b - 1, x);
      assert bins[b := bins[b] + [x]][1..] == bins[1..][b - 1 := bins[b] + [x]];
    }
  }

  lemma RoomLeft(bins: seq<seq<nat>>, cap: nat, placed: multiset<nat>)
    requires Fits(bins, cap, placed) && |placed| < Room(|bins|, cap)
    ensures exists j :: 0 <= j < |bins| && |bins[j]| < cap
  {
    if forall j :: 0 <= j < |bins| ==> |bins[j]| >= cap {
      FlattenLength(bins, cap);
      RoomIsProduct(|bins|, cap);
      assert false;
    }
  }

  /** The whole assignment. */
  function Bins(lens: seq<nat>, workers: nat): (bins: seq<seq<nat>>)
    requires workers > 0
    ensures ValidBins(lens, bins) && |bins| == workers
  {
    Assigned(lens, LongestFirst(lens, |lens|), workers, |lens| / workers, |lens|)
  }

  // ---------------------------------------------------------------------
  // The load bound
  // ---------------------------------------------------------------------

  /** Token count of the first `i` rows of a bin. */
  ghost function Prefix(lens: seq<nat>, bin: seq<nat>, i: nat): nat
    requires InRange(bin, |lens|) && i <= |bin|
  {
    Load(lens, bin[..i])
  }

  ghost function Min(a: nat, b: nat): nat {
    if a <= b then a else b
  }

  /** Bin `a` is never more than one longest row ahead of bin `b`, position by position. */
  ghost predicate Ahead(lens: seq<nat>, a: seq<nat>, b: seq<nat>, longest: nat)
    requires InRange(a, |lens|) && InRange(b, |lens|)
  {
    forall i :: 0 <= i <= |a| ==> Prefix(lens, a, i) <= Prefix(lens, b, Min(i, |b|)) + longest
  }

  lemma LoadSnoc(lens: seq<nat>, bin: seq<nat>, x: nat)
    requires InRange(bin, |lens|) && x < |lens|
    ensures Load(lens, bin + [x]) == Load(lens, bin) + lens[x]
  {
    GatherConcat(lens, bin, [x]);
    SumConcat(Gather(lens, bin), Gather(lens, [x]));
  }

  /** Growing the trailing bin keeps the bound. */
  lemma AheadGrowRight(lens: seq<nat>, a: seq<nat>, b: seq<nat>, x: nat, longest: nat)
    requires InRange(a, |lens|) && InRange(b, |lens|) && x < |lens|
    requires Ahead(lens, a, b, longest)
    ensures Ahead(lens, a, b + [x], longest)
  {
    var b' := b + [x];
    forall i | 0 <= i <= |a|
      ensures Prefix(lens, a, i) <= Prefix(lens, b', Min(i, |b'|)) + longest
    {
      if i <= |b| {
        assert b'[..i] == b[..i];
      } else {
        assert b'[..|b'|] == b + [x] && b[..|b|] == b;
        LoadSnoc(lens, b, x);
      }
    }
  }

  /** Growing the leading bin keeps the bound: either the other bin already holds a
      row at least as long at that position, or it was open and no lighter. */
  lemma AheadGrowLeft(lens: seq<nat>, a: seq<nat>, b: seq<nat>, x: nat, longest: nat)
    requires InRange(a, |lens|) && InRange(b, |lens|) && x < |lens|
    requires Ahead(lens, a, b, longest) && lens[x] <= longest
    requires forall p :: 0 <= p < |b| ==> lens[b[p]] >= lens[x]
    requires |b| <= |a| ==> Load(lens, a) <= Load(lens, b)
    ensures Ahead(lens, a + [x], b, longest)
  {
    var a' := a + [x];
    forall i | 0 <= i <= |a'|
      ensures Prefix(lens, a', i) <= Prefix(lens, b, Min(i, |b|)) + longest
    {
      if i <= |a| {
        assert a'[..i] == a[..i];
      } else {
        assert a'[..i] == a + [x] && a[..|a|] == a;
        LoadSnoc(lens, a, x);
        if |b| <= |a| {
          assert b[..|b|] == b;
        } else {
          assert b[..i] == b[..|a|] + [b[|a|]];
          LoadSnoc(lens, b[..|a|], b[|a|]);
          assert Prefix(lens, a, |a|) <= Prefix(lens, b, Min(|a|, |b|)) + longest;
        }
      }
    }
  }

  ghost predicate AllAhead(lens: seq<nat>, bins: seq<seq<nat>>, longest: nat)
    requires ValidBins(lens, bins)
  {
    forall p, q :: 0 <= p < |bins| && 0 <= q < |bins| && p != q ==> Ahead(lens, bins[p], bins[q], longest)
  }

  /** Every pair of bins keeps the bound while the rows are handed out. */
  lemma {:induction false} AssignedAhead(
    lens: seq<nat>, order: seq<nat>, workers: nat, cap: nat, k: nat, longest: nat)
    requires IsLongestFirst(lens, order) && k <= |order| <= Room(workers, cap)
    requires forall i :: 0 <= i < |lens| ==> lens[i] <= longest
    ensures AllAhead(lens, Assigned(lens, order, workers, cap, k), longest)
  {
    if k > 0 {
      AssignedAhead(lens, order, workers, cap, k - 1, longest);
      AssignedFits(lens, order, workers, cap, k - 1);
      var bins := Assigned(lens, order, workers, cap, k - 1);
      PlacedNoShorter(lens, order, k - 1, bins, cap);
      PlaceAhead(lens, bins, order[k - 1], cap, longest);
    }
  }

  lemma PlacedNoShorter(lens: seq<nat>, order: seq<nat>, k: nat, bins: seq<seq<nat>>, cap: nat)
    requires IsLongestFirst(lens, order) && k < |order|
    requires ValidBins(lens, bins) && Fits(bins, cap, multiset(order[..k]))
    ensures forall q, p :: 0 <= q < |bins| && 0 <= p < |bins[q]| ==> lens[bins[q][p]] >= lens[order[k]]
  {
    forall q, p | 0 <= q < |bins| && 0 <= p < |bins[q]| ensures lens[bins[q][p]] >= lens[order[k]] {
      InFlatten(bins, q, p);
      var a :| 0 <= a < k && order[a] == bins[q][p];
      assert Before(lens, order[a], order[k]);
    }
  }

  lemma PlaceAhead(lens: seq<nat>, bins: seq<seq<nat>>, x: nat, cap: nat, longest: nat)
    requires ValidBins(lens, bins) && x < |lens| && lens[x] <= longest
    requires AllAhead(lens, bins, longest)
    requires forall j :: 0 <= j < |bins| ==> |bins[j]| <= cap
    requires forall q, p :: 0 <= q < |bins| && 0 <= p < |bins[q]| ==> lens[bins[q][p]] >= lens[x]
    ensures AllAhead(lens, Place(lens, bins, x, cap), longest)
  {
    var b := LeastLoadedOpen(bins, Loads(lens, bins), cap, |bins|);
    LeastLoadedOpenIsLeast(bins, Loads(lens, bins), cap, |bins|);
    if b >= 0 {
      forall q | 0 <= q < |bins| && q != b
        ensures Ahead(lens, bins[b] + [x], bins[q], longest)
        ensures Ahead(lens, bins[q], bins[b] + [x], longest)
      {
        AheadGrowLeft(lens, bins[b], bins[q], x, longest);
        AheadGrowRight(lens, bins[q], bins[b], x, longest);
      }
    }
  }

  lemma {:induction false} InFlatten<T>(xss: seq<seq<T>>, q: nat, p: nat)
    requires q < |xss| && p < |xss[q]|
    ensures xss[q][p] in multiset(Flatten(xss))
  {
    if q > 0 {
      InFlatten(xss[1..], q - 1, p);
    }
  }

  /** Main result: the bins hold every row once, the same number each, and any two
      workers' token counts differ by at most the longest row. */
  lemma BalancedLoads(lens: seq<nat>, workers: nat)
    requires workers > 0 && |lens| % workers == 0
    ensures var bins := Bins(lens, workers);
            && IsPermutation(Flatten(bins), |lens|)
            && (forall j :: 0 <= j < workers ==> |bins[j]| == |lens| / workers)
            && (forall p, q :: 0 <= p < workers && 0 <= q < workers ==>
                  Load(lens, bins[p]) <= Load(lens, bins[q]) + Max(lens))
  {
    var bins, cap := Bins(lens, workers), |lens| / workers;
    BinsFull(lens, workers);
    AssignedAhead(lens, LongestFirst(lens, |lens|), workers, cap, |lens|, Max(lens));
    forall p, q | 0 <= p < workers && 0 <= q < workers
      ensures Load(lens, bins[p]) <= Load(lens, bins[q]) + Max(lens)
    {
      if p != q {
        assert Ahead(lens, bins[p], bins[q], Max(lens));
        assert Prefix(lens, bins[p], cap) <= Prefix(lens, bins[q], Min(cap, cap)) + Max(lens);
        assert bins[p][..cap] == bins[p] && bins[q][..cap] == bins[q];
      }
    }
  }

  lemma RoomForAll(n: nat, workers: nat)
    requires workers > 0 && n % workers == 0
    ensures n == Room(workers, n / workers)
  {
    DivisionExact(n, workers);
    RoomIsProduct(workers, n / workers);
  }

  lemma BinsFull(lens: seq<nat>, workers: nat)
    requires workers > 0 && |lens| % workers == 0
    ensures IsLongestFirst(lens, LongestFirst(lens, |lens|)) && |lens| == Room(workers, |lens| / workers)
    ensures IsPermutation(Flatten(Bins(lens, workers)), |lens|)
    ensures forall j :: 0 <= j < workers ==> |Bins(lens, workers)[j]| == |lens| / workers
  {
    LongestFirstSorts(lens, |lens|);
    var order, cap := LongestFirst(lens, |lens|), |lens| / workers;
    RoomForAll(|lens|, workers);
    AssignedFits(lens, order, workers, cap, |lens|);
    TakeAll(order, |lens|);
    FilledUp(Bins(lens, workers), cap, order);
  }

  lemma FilledUp(bins: seq<seq<nat>>, cap: nat, order: seq<nat>)
    requires Fits(bins, cap, multiset(order)) && |order| == Room(|bins|, cap)
    ensures forall j :: 0 <= j < |bins| ==> |bins[j]| == cap
  {
    assert |Flatten(bins)| == |multiset(Flatten(bins))| == |order|;
    AllFull(bins, cap);
  }

  lemma {:induction false} AllFull(bins: seq<seq<nat>>, cap: nat)
    requires forall j :: 0 <= j < |bins| ==> |bins[j]| <= cap
    requires |Flatten(bins)| >= Room(|bins|, cap)
    ensures forall j :: 0 <= j < |bins| ==> |bins[j]| == cap
  {
    if |bins| > 0 {
      FlattenAtMost(bins[1..], cap);
      AllFull(bins[1..], cap);
    }
  }

  lemma {:induction false} FlattenAtMost<T>(xss: seq<seq<T>>, cap: nat)
    requires forall j :: 0 <= j < |xss| ==> |xss[j]| <= cap
    ensures |Flatten(xss)| <= Room(|xss|, cap)
  {
    if |xss| > 0 {
      FlattenAtMost(xss[1..], cap);
    }
  }

  /** So no worker exceeds the average by more than (workers - 1) / workers longest rows. */
  lemma StragglerBound(lens: seq<nat>, workers: nat, p: nat)
    requires workers > 0 && |lens| % workers == 0 && p < workers
    ensures workers * Load(lens, Bins(lens, workers)[p]) <= Sum(lens) + (workers - 1) * Max(lens)
  {
    BalancedLoads(lens, workers);
    var bins := Bins(lens, workers);
    TotalLoad(lens, bins);
    var loads := Loads(lens, bins);
    SumWithin(loads, p, Max(lens));
    PermutedMultiset(lens, Flatten(bins));
    SumMultiset(Gather(lens, Flatten(bins)), lens);
  }

  /** If no entry is more than `d` below entry `p`, the sum is close to `|xs|` copies of it. */
  lemma SumWithin(xs: seq<nat>, p: nat, d: nat)
    requires p < |xs| && forall q :: 0 <= q < |xs| ==> xs[p] <= xs[q] + d
    ensures |xs| * xs[p] <= Sum(xs) + (|xs| - 1) * d
  {
    SumAbove(xs[..p], xs[p], d);
    SumAbove(xs[p + 1..], xs[p], d);
    assert xs == xs[..p] + ([xs[p]] + xs[p + 1..]);
    SumConcat(xs[..p], [xs[p]] + xs[p + 1..]);
    Distribute(p, |xs| - 1 - p, |xs|, xs[p], d);
  }

  lemma Distribute(a: nat, b: nat, n: nat, m: nat, d: nat)
    requires n == a + 1 + b
    ensures n * m == a * m + m + b * m
    ensures (n - 1) * d == a * d + b * d
  {
  }

  lemma {:induction false} SumAbove(xs: seq<nat>, m: nat, d: nat)
    requires forall q :: 0 <= q < |xs| ==> m <= xs[q] + d
    ensures |xs| * m <= Sum(xs) + |xs| * d
  {
    if |xs| > 0 {
      SumAbove(xs[1..], m, d);
      var k := |xs| - 1;
      assert |xs| * m == k * m + m;
      assert |xs| * d == k * d + d;
    }
  }

  lemma {:induction false} TotalLoad(lens: seq<nat>, bins: seq<seq<nat>>)
    requires ValidBins(lens, bins)
    ensures InRange(Flatten(bins), |lens|)
    ensures Sum(Loads(lens, bins)) == Sum(Gather(lens, Flatten(bins)))
  {
    if |bins| > 0 {
      TotalLoad(lens, bins[1..]);
      assert Loads(lens, bins)[1..] == Loads(lens, bins[1..]);
      GatherConcat(lens, bins[0], Flatten(bins[1..]));
      SumConcat(Gather(lens, bins[0]), Gather(lens, Flatten(bins[1..])));
    }
  }

  lemma {:induction false} SumMultiset(a: seq<nat>, b: seq<nat>)
    requires multiset(a) == multiset(b)
    ensures Sum(a) == Sum(b)
    decreases |a|
  {
    if |a| == 0 {
      assert |multiset(b)| == 0;
    } else {
      assert a[0] in multiset(b);
      var k :| 0 <= k < |b| && b[k] == a[0];
      SameAfterRemoval(a, b, k);
      SumMultiset(a[1..], b[..k] + b[k + 1..]);
      SumConcat(b[..k], b[k + 1..]);
      SumConcat(b[..k], [b[k]] + b[k + 1..]);
      assert b == b[..k] + ([b[k]] + b[k + 1..]);
    }
  }

  // ---------------------------------------------------------------------
  // The loop
  // ---------------------------------------------------------------------

  lemma LoadsAfter(lens: seq<nat>, bins: seq<seq<nat>>, b: nat, x: nat)
    requires ValidBins(lens, bins) && b < |bins| && x < |lens|
    ensures ValidBins(lens, bins[b := bins[b] + [x]])
    ensures Loads(lens, bins[b := bins[b] + [x]]) == Loads(lens, bins)[b := Load(lens, bins[b]) + lens[x]]
  {
    LoadSnoc(lens, bins[b], x);
  }

  /** While rows remain, a turn of the loop finds an open bin and hands out one more row of the order. */
  lemma AssignStep(lens: seq<nat>, order: seq<nat>, bins: seq<seq<nat>>, cap: nat, k: nat)
    requires InRange(order, |lens|) && k < |order| <= Room(|bins|, cap)
    requires bins == Assigned(lens, order, |bins|, cap, k)
    ensures var b := LeastLoadedOpen(bins, Loads(lens, bins), cap, |bins|);
            && 0 <= b < |bins|
            && Assigned(lens, order, |bins|, cap, k + 1) == bins[b := bins[b] + [order[k]]]
            && Loads(lens, bins[b := bins[b] + [order[k]]])
               == Loads(lens, bins)[b := Load(lens, bins[b]) + lens[order[k]]]
  {
    AssignedFits(lens, order, |bins|, cap, k);
    PlaceFits(lens, bins, order[k], cap, multiset(order[..k]));
    LoadsAfter(lens, bins, LeastLoadedOpen(bins, Loads(lens, bins), cap, |bins|), order[k]);
  }

  /** The assignment loop. */
  method AssignRows(lens: seq<nat>, workers: nat) returns (bins: seq<seq<nat>>)
    requires workers > 0 && |lens| % workers == 0
    ensures bins == Bins(lens, workers)
  {
    var perWorker: nat := |lens| / workers;
    var order := LongestFirst(lens, |lens|);
    bins := NoRows(workers);
    var loads := seq(workers, _ => 0);
    assert loads == Loads(lens, bins);
    RoomForAll(|lens|, workers);
    for k := 0 to |order|
      invariant bins == Assigned(lens, order, workers, perWorker, k)
      invariant loads == Loads(lens, bins)
    {
      var idx := order[k];
      AssignStep(lens, order, bins, perWorker, k);
      var b := LeastLoadedOpen(bins, loads, perWorker, workers);
      bins := bins[b := bins[b] + [idx]];
      loads := loads[b := loads[b] + lens[idx]];
    }
  }

  // ---------------------------------------------------------------------
  // One row a worker
  // ---------------------------------------------------------------------

  ghost predicate Descending(lens: seq<nat>) {
    forall i, j :: 0 <= i < j < |lens| ==> lens[i] >= lens[j]
  }

  lemma {:induction false} InsertLast(lens: seq<nat>, order: seq<nat>, i: nat)
    requires InRange(order, |lens|) && i < |lens|
    requires forall a :: 0 <= a < |order| ==> !Before(lens, i, order[a])
    ensures Insert(lens, order, i) == order + [i]
  {
    if |order| > 0 {
      InsertLast(lens, order[1..], i);
    }
  }

  lemma {:induction false} DescendingStays(lens: seq<nat>, n: nat)
    requires Descending(lens) && n <= |lens|
    ensures LongestFirst(lens, n) == Iota(n)
  {
    if n > 0 {
      DescendingStays(lens, n - 1);
      InsertLast(lens, Iota(n - 1), n - 1);
      IotaSnoc(n);
    }
  }

  /** The first `k` workers hold one row each, in the order handed out. */
  function Singles(order: seq<nat>, workers: nat, k: nat): seq<seq<nat>>
    requires k <= |order|
  {
    seq(workers, j => if 0 <= j < k then [order[j]] else [])
  }

  lemma {:induction false} AssignedSingles(lens: seq<nat>, order: seq<nat>, workers: nat, k: nat)
    requires InRange(order, |lens|) && k <= |order| <= workers
    ensures Assigned(lens, order, workers, 1, k) == Singles(order, workers, k)
  {
    if k > 0 {
      AssignedSingles(lens, order, workers, k - 1);
      var bins := Singles(order, workers, k - 1);
      LeastLoadedOpenIsLeast(bins, Loads(lens, bins), 1, workers);
      assert bins[k - 1] == [] && Loads(lens, bins)[k - 1] == 0;
      assert LeastLoadedOpen(bins, Loads(lens, bins), 1, workers) == k - 1;
      assert bins[k - 1] + [order[k - 1]] == [order[k - 1]];
      assert bins[k - 1 := [order[k - 1]]] == Singles(order, workers, k);
    } else {
      assert NoRows(workers) == Singles(order, workers, 0);
    }
  }

  /** As many rows as workers, longest first already: worker `j` gets row `j`. */
  lemma OneRowEach(lens: seq<nat>)
    requires Descending(lens) && |lens| > 0
    ensures Bins(lens, |lens|) == Singles(Iota(|lens|), |lens|, |lens|)
  {
    DescendingStays(lens, |lens|);
    DivModUnique(|lens|, |lens|, 1, 0);
    AssignedSingles(lens, Iota(|lens|), |lens|, |lens|);
  }
}
