/** The mutable batch object and the in-place balancing of its rows across workers. */
module DataProto {
  import opened Arith
  import opened Balancer
  import opened Protocol
  import opened RowOperations
  import opened Seqs
  import opened Wrappers

  class DataProto {
    var size: nat
    var tensors: map<string, Column>
    var ragged: map<string, seq<Routes>>
    var meta: map<string, Meta>

    constructor (b: Batch)
      ensures View() == b
    {
      size, tensors, ragged, meta := b.size, b.tensors, b.ragged, b.meta;
    }

    function View(): Batch
      reads this
    {
      Batch(size, tensors, ragged, meta)
    }

    /** Reorders the rows in place. A position out of range leaves the batch as it was. */
    method Reorder(idxs: seq<int>) returns (r: Result<()>)
      requires Valid(View())
      modifies this
      ensures Valid(View())
      ensures old(size) == 0 ==> r == Ok(()) && View() == old(View())
      ensures old(size) > 0 ==> (r.Ok? <==> SelectIdxs(old(View()), idxs).Ok?)
      ensures old(size) > 0 && r.Ok? ==> Ok(View()) == SelectIdxs(old(View()), idxs)
      ensures r.Err? ==> r.error == IndexError && View() == old(View())
    {
      if size == 0 {
        return Ok(());
      }
      var norm := NormalizeAll(idxs, size);
      if norm.None? {
        return Err(IndexError);
      }
      var index := norm.value;
      ghost var before := View();
      var todo := tensors.Keys;
      while todo != {}
        invariant todo <= tensors.Keys == before.tensors.Keys
        invariant ragged == before.ragged && meta == before.meta
        invariant forall k :: k in before.tensors ==>
                    tensors[k] == if k in todo then before.tensors[k] else before.tensors[k].Take(index)
        decreases todo
      {
        var key :| key in todo;
        tensors := tensors[key := tensors[key].Take(index)];
        todo := todo - {key};
      }
      ragged := map k | k in ragged :: Gather(ragged[k], index);
      size := |index|;
      ReindexIs(before, index, View());
      return Ok(());
    }

    /** Adds or replaces columns and metadata from another batch. */
    method Update(other: Batch)
      modifies this
      ensures tensors == old(tensors) + other.tensors
      ensures ragged == old(ragged) + other.ragged && meta == old(meta) + other.meta
      ensures Valid(old(View())) && Valid(other) && other.size == old(size) ==> Valid(View())
    {
      tensors := tensors + other.tensors;
      ragged := ragged + other.ragged;
      meta := meta + other.meta;
      assert tensors.Keys == old(tensors).Keys + other.tensors.Keys;
      assert ragged.Keys == old(ragged).Keys + other.ragged.Keys;
    }
  }

  // ---------------------------------------------------------------------
  // Balancing
  // ---------------------------------------------------------------------

  function CellSum(row: seq<Cell>): int {
    if |row| == 0 then 0 else row[0] + CellSum(row[1..])
  }

  predicate ZeroOne(row: seq<Cell>) {
    forall j :: 0 <= j < |row| ==> row[j] == 0 || row[j] == 1
  }

  lemma {:induction false} ZeroOneSum(row: seq<Cell>)
    requires ZeroOne(row)
    ensures 0 <= CellSum(row) <= |row|
  {
    if |row| > 0 {
      ZeroOneSum(row[1..]);
    }
  }

  function TokenCount(row: seq<Cell>): nat
    requires ZeroOne(row)
  {
    ZeroOneSum(row);
    CellSum(row)
  }

  /** An attention mask: zero or one in every position. */
  predicate IsMask(col: Column) {
    forall i :: 0 <= i < |col.rows| ==> ZeroOne(col.rows[i])
  }

  /** Real tokens of each row. */
  function TokenCounts(mask: Column): (lens: seq<nat>)
    requires IsMask(mask)
    ensures |lens| == |mask.rows|
  {
    seq(|mask.rows|, i requires 0 <= i < |mask.rows| => TokenCount(mask.rows[i]))
  }

  predicate MaskIfPresent(b: Batch) {
    ATTENTION_MASK in b.tensors ==> IsMask(b.tensors[ATTENTION_MASK])
  }

  /** The batch is balanced only over two or more workers that divide its rows evenly. */
  predicate Balances(b: Batch, workers: int) {
    ATTENTION_MASK in b.tensors && workers > 1 && b.size >= workers && b.size % workers == 0
  }

  /** Metadata lists with one entry a row follow the rows; other metadata stays. */
  function PermutedMeta(meta: map<string, Meta>, perm: seq<nat>): map<string, Meta> {
    map k | k in meta ::
      if meta[k].List? && |meta[k].values| == |perm| && InRange(perm, |perm|)
      then List(Gather(meta[k].values, perm)) else meta[k]
  }

  ghost function BalancedBins(b: Batch, workers: nat): seq<seq<nat>>
    requires Valid(b) && MaskIfPresent(b) && Balances(b, workers)
  {
    Bins(TokenCounts(b.tensors[ATTENTION_MASK]), workers)
  }

  lemma BinsPermute(b: Batch, workers: nat)
    requires Valid(b) && MaskIfPresent(b) && Balances(b, workers)
    ensures IsPermutation(Flatten(BalancedBins(b, workers)), b.size)
    ensures InRange(Flatten(BalancedBins(b, workers)), b.size) && |Flatten(BalancedBins(b, workers))| == b.size
    ensures |BalancedBins(b, workers)| == workers && AllInRange(BalancedBins(b, workers), b.size)
    ensures forall j :: 0 <= j < workers ==> |BalancedBins(b, workers)[j]| == b.size / workers
  {
    BinsFull(TokenCounts(b.tensors[ATTENTION_MASK]), workers);
    PermutationInRange(Flatten(BalancedBins(b, workers)), b.size);
  }

  /** The batch after balancing. */
  ghost function Balanced(b: Batch, workers: int): Batch
    requires Valid(b) && MaskIfPresent(b)
  {
    if !Balances(b, workers) then b
    else
      BinsPermute(b, workers);
      var perm := Flatten(BalancedBins(b, workers));
      Reindex(b, perm).(meta := PermutedMeta(b.meta, perm))
  }

  method BalanceRowsAcrossWorkers(batch: DataProto, workers: int)
    requires Valid(batch.View()) && MaskIfPresent(batch.View())
    modifies batch
    ensures Valid(batch.View())
    ensures batch.View() == Balanced(old(batch.View()), workers)
  {
    if ATTENTION_MASK !in batch.tensors || workers <= 1 || batch.size < workers || batch.size % workers != 0 {
      return;
    }
    ghost var before := batch.View();
    var n := batch.size;
    var lens := TokenCounts(batch.tensors[ATTENTION_MASK]);
    var bins := AssignRows(lens, workers);
    BinsPermute(before, workers);
    var perm := Flatten(bins);
    if perm == Iota(n) {
      ReindexIota(before);
      IdentityMeta(before.meta, n);
      return;
    }
    NormalizeNats(perm, n);
    var r := batch.Reorder(perm);
    PermuteMeta(batch, perm, n);
    assert Valid(Reindex(before, perm));
  }

  /** Applies the permutation to every list in the metadata that has one entry a row. */
  method PermuteMeta(batch: DataProto, perm: seq<nat>, n: nat)
    requires InRange(perm, n) && |perm| == n
    modifies batch`meta
    ensures batch.meta == PermutedMeta(old(batch.meta), perm)
  {
    ghost var before := batch.meta;
    var todo := batch.meta.Keys;
    while todo != {}
      invariant todo <= batch.meta.Keys == before.Keys
      invariant forall k :: k in before ==>
                  batch.meta[k] == if k in todo then before[k] else PermutedMeta(before, perm)[k]
      decreases todo
    {
      var key :| key in todo;
      var val := batch.meta[key];
      if val.List? && |val.values| == n {
        batch.meta := batch.meta[key := List(Gather(val.values, perm))];
      }
      todo := todo - {key};
    }
    assert batch.meta == PermutedMeta(before, perm);
  }

  lemma NormalizeNats(idxs: seq<nat>, n: nat)
    requires InRange(idxs, n)
    ensures NormalizeAll(idxs, n) == Some(idxs)
  {
    assert forall i :: 0 <= i < |idxs| ==> Normalize(idxs[i], n) == idxs[i];
    assert NormalizeAll(idxs, n).Some?;
    assert NormalizeAll(idxs, n).value == idxs;
  }

  lemma IdentityMeta(meta: map<string, Meta>, n: nat)
    ensures PermutedMeta(meta, Iota(n)) == meta
  {
    forall k | k in meta ensures PermutedMeta(meta, Iota(n))[k] == meta[k] {
      if meta[k].List? && |meta[k].values| == n {
        GatherIota(meta[k].values);
      }
    }
  }

  // ---------------------------------------------------------------------
  // What balancing is for
  // ---------------------------------------------------------------------

  /** Tokens in the rows `idx` of a batch. */
  ghost function TokensIn(b: Batch, idx: seq<nat>): nat
    requires Valid(b) && MaskIfPresent(b) && ATTENTION_MASK in b.tensors && InRange(idx, b.size)
  {
    Load(TokenCounts(b.tensors[ATTENTION_MASK]), idx)
  }

  ghost function LongestRow(b: Batch): nat
    requires Valid(b) && MaskIfPresent(b) && ATTENTION_MASK in b.tensors
  {
    Max(TokenCounts(b.tensors[ATTENTION_MASK]))
  }

  /** Main result: splitting the balanced batch over the workers gives worker `j` exactly
      the rows of bin `j`: every row goes to one worker, all workers get the same number of
      rows, and any two workers' token counts differ by at most the longest row. */
  lemma BalancedShards(b: Batch, workers: nat)
    requires Valid(b) && MaskIfPresent(b) && Balances(b, workers)
    ensures var bins := BalancedBins(b, workers);
            && |bins| == workers && AllInRange(bins, b.size) && IsPermutation(Flatten(bins), b.size)
            && Valid(Balanced(b, workers))
            && (forall j :: 0 <= j < workers ==>
                  && |bins[j]| == b.size / workers
                  && Valid(Split(Balanced(b, workers), workers)[j])
                  && RowsOf(Split(Balanced(b, workers), workers)[j]) == Gather(RowsOf(b), bins[j]))
            && (forall p, q :: 0 <= p < workers && 0 <= q < workers ==>
                  TokensIn(b, bins[p]) <= TokensIn(b, bins[q]) + LongestRow(b))
  {
    var bins := BalancedBins(b, workers);
    BinsPermute(b, workers);
    BalancedLoads(TokenCounts(b.tensors[ATTENTION_MASK]), workers);
    var r := Balanced(b, workers);
    assert Valid(Reindex(b, Flatten(bins)));
    forall j | 0 <= j < workers
      ensures Valid(Split(r, workers)[j])
      ensures RowsOf(Split(r, workers)[j]) == Gather(RowsOf(b), bins[j])
    {
      ShardRows(b, bins, r, j);
    }
  }

  lemma ShardRows(b: Batch, bins: seq<seq<nat>>, r: Batch, j: nat)
    requires Valid(b) && AllInRange(bins, b.size) && j < |bins| && b.size > 0
    requires InRange(Flatten(bins), b.size) && |Flatten(bins)| == b.size && b.size % |bins| == 0
    requires forall i :: 0 <= i < |bins| ==> |bins[i]| == b.size / |bins|
    requires Valid(r) && r.size == b.size
    requires r.tensors == Reindex(b, Flatten(bins)).tensors && r.ragged == Reindex(b, Flatten(bins)).ragged
    ensures Valid(Split(r, |bins|)[j])
    ensures RowsOf(Split(r, |bins|)[j]) == Gather(RowsOf(b), bins[j])
  {
    ChunkIsReindex(r, |bins|, j);
    ReindexRows(r, ChunkRows(r.size, |bins|, j));
    ReindexRows(b, Flatten(bins));
    assert RowsOf(r) == RowsOf(Reindex(b, Flatten(bins)));
    GatherCompose(RowsOf(b), Flatten(bins), ChunkRows(r.size, |bins|, j));
    EvenChunk(b.size, |bins|, j);
    FlattenBlock(bins, b.size / |bins|, j);
    GatherSpan(Flatten(bins), Cut(b.size, |bins|, j), Cut(b.size, |bins|, j + 1));
  }

  lemma EvenChunk(size: nat, n: nat, j: nat)
    requires j < n && size % n == 0
    ensures Cut(size, n, j) == j * (size / n) && Cut(size, n, j + 1) == (j + 1) * (size / n)
    ensures ChunkRows(size, n, j) == Span(Cut(size, n, j), Cut(size, n, j + 1))
  {
    DivisionExact(size, n);
    var k := size / n;
    assert j * size == (j * k) * n;
    assert (j + 1) * size == ((j + 1) * k) * n;
    MulDiv(j * k, n);
    MulDiv((j + 1) * k, n);
    CutBounds(size, n, j);
  }

  // ---------------------------------------------------------------------
  // Workers that share a data-parallel rank
  // ---------------------------------------------------------------------

  /** The bins in `dp` consecutive groups of `m`. */
  ghost function Grouped(bins: seq<seq<nat>>, dp: nat, m: nat): seq<seq<nat>>
    requires |bins| == dp * m
    decreases dp
  {
    if dp == 0 then []
    else
      MulSucc(dp - 1, m);
      [Flatten(bins[..m])] + Grouped(bins[m..], dp - 1, m)
  }

  lemma {:induction false} GroupedIs(bins: seq<seq<nat>>, dp: nat, m: nat, cap: nat, n: nat)
    requires |bins| == dp * m && AllInRange(bins, n)
    requires forall i :: 0 <= i < |bins| ==> |bins[i]| == cap
    ensures var groups := Grouped(bins, dp, m);
            && |groups| == dp && AllInRange(groups, n) && Flatten(groups) == Flatten(bins)
            && forall c :: 0 <= c < dp ==> |groups[c]| == m * cap
    decreases dp
  {
    if dp > 0 {
      MulSucc(dp - 1, m);
      GroupedIs(bins[m..], dp - 1, m, cap, n);
      FlattenLength(bins[..m], cap);
      assert bins == bins[..m] + bins[m..];
      FlattenConcat(bins[..m], bins[m..]);
      FlattenGathers(Iota(n), bins[..m]);
    }
  }

  /** Any `m` bins weigh at most `m` longest rows more than any other `m`. */
  lemma {:induction false} GroupsWithin(lens: seq<nat>, a: seq<seq<nat>>, b: seq<seq<nat>>, longest: nat)
    requires |a| == |b| && ValidBins(lens, a) && ValidBins(lens, b)
    requires forall i :: 0 <= i < |a| ==> Load(lens, a[i]) <= Load(lens, b[i]) + longest
    ensures InRange(Flatten(a), |lens|) && InRange(Flatten(b), |lens|)
    ensures Load(lens, Flatten(a)) <= Load(lens, Flatten(b)) + |a| * longest
  {
    if |a| > 0 {
      GroupsWithin(lens, a[1..], b[1..], longest);
      LoadConcat(lens, a[0], Flatten(a[1..]));
      LoadConcat(lens, b[0], Flatten(b[1..]));
      MulSucc(|a| - 1, longest);
    }
  }

  lemma LoadConcat(lens: seq<nat>, a: seq<nat>, b: seq<nat>)
    requires InRange(a, |lens|) && InRange(b, |lens|)
    ensures InRange(a + b, |lens|) && Load(lens, a + b) == Load(lens, a) + Load(lens, b)
  {
    GatherConcat(lens, a, b);
    SumConcat(Gather(lens, a), Gather(lens, b));
  }

  /** Balancing counts workers, dispatching counts data-parallel ranks. When `m` workers
      share each rank, a rank's shard is `m` consecutive bins, so shards stay within `m`
      longest rows of each other. */
  lemma SharedRankShards(b: Batch, workers: nat, dp: nat, m: nat, c: nat, d: nat)
    requires Valid(b) && MaskIfPresent(b) && Balances(b, workers)
    requires workers == dp * m && c < dp && d < dp
    ensures var groups := Grouped(BalancedBins(b, workers), dp, m);
            && |groups| == dp && AllInRange(groups, b.size)
            && Valid(Balanced(b, workers)) && Valid(Split(Balanced(b, workers), dp)[c])
            && RowsOf(Split(Balanced(b, workers), dp)[c]) == Gather(RowsOf(b), groups[c])
            && TokensIn(b, groups[c]) <= TokensIn(b, groups[d]) + m * LongestRow(b)
  {
    var bins, lens := BalancedBins(b, workers), TokenCounts(b.tensors[ATTENTION_MASK]);
    BinsPermute(b, workers);
    BalancedLoads(lens, workers);
    var cap := b.size / workers;
    GroupedIs(bins, dp, m, cap, b.size);
    var groups := Grouped(bins, dp, m);
    assert Valid(Reindex(b, Flatten(bins)));
    GroupSize(b.size, workers, dp, m);
    ShardRows(b, groups, Balanced(b, workers), c);
    GroupTokens(lens, bins, dp, m, c, d, Max(lens));
  }

  lemma GroupTokens(lens: seq<nat>, bins: seq<seq<nat>>, dp: nat, m: nat, c: nat, d: nat, longest: nat)
    requires |bins| == dp * m && c < dp && d < dp && ValidBins(lens, bins)
    requires forall p, q :: 0 <= p < |bins| && 0 <= q < |bins| ==> Load(lens, bins[p]) <= Load(lens, bins[q]) + longest
    ensures |Grouped(bins, dp, m)| == dp
    ensures InRange(Grouped(bins, dp, m)[c], |lens|) && InRange(Grouped(bins, dp, m)[d], |lens|)
    ensures Load(lens, Grouped(bins, dp, m)[c]) <= Load(lens, Grouped(bins, dp, m)[d]) + m * longest
  {
    GroupOf(bins, dp, m, c);
    GroupOf(bins, dp, m, d);
    RunsWithin(lens, bins, c * m, (c + 1) * m, d * m, (d + 1) * m, longest);
  }

  /** The same for two runs of equally many bins. */
  lemma RunsWithin(lens: seq<nat>, bins: seq<seq<nat>>, lo: nat, hi: nat, lo': nat, hi': nat, longest: nat)
    requires ValidBins(lens, bins) && lo <= hi <= |bins| && lo' <= hi' <= |bins| && hi - lo == hi' - lo'
    requires forall p, q :: 0 <= p < |bins| && 0 <= q < |bins| ==> Load(lens, bins[p]) <= Load(lens, bins[q]) + longest
    ensures InRange(Flatten(bins[lo..hi]), |lens|) && InRange(Flatten(bins[lo'..hi']), |lens|)
    ensures Load(lens, Flatten(bins[lo..hi])) <= Load(lens, Flatten(bins[lo'..hi'])) + (hi - lo) * longest
  {
    GroupsWithin(lens, bins[lo..hi], bins[lo'..hi'], longest);
  }

  lemma GroupSize(size: nat, workers: nat, dp: nat, m: nat)
    requires workers == dp * m && workers > 0 && size % workers == 0
    ensures dp > 0 && size % dp == 0 && size / dp == m * (size / workers)
  {
    DivisionExact(size, workers);
    var cap := size / workers;
    assert size == (m * cap) * dp;
    MulDiv(m * cap, dp);
  }

  lemma {:induction false} GroupOf(bins: seq<seq<nat>>, dp: nat, m: nat, d: nat)
    requires |bins| == dp * m && d < dp
    ensures 0 <= d * m <= (d + 1) * m <= |bins| && |bins[d * m..(d + 1) * m]| == m
    ensures |Grouped(bins, dp, m)| == dp && Grouped(bins, dp, m)[d] == Flatten(bins[d * m..(d + 1) * m])
    decreases dp
  {
    MulMonotone(d + 1, dp, m);
    MulSucc(d, m);
    MulSucc(dp - 1, m);
    GroupedLength(bins[m..], dp - 1, m);
    if d > 0 {
      GroupOf(bins[m..], dp - 1, m, d - 1);
      MulSucc(d - 1, m);
      assert bins[m..][(d - 1) * m..d * m] == bins[d * m..(d + 1) * m];
    } else {
      assert bins[..m] == bins[0..m];
    }
  }

  lemma {:induction false} GroupedLength(bins: seq<seq<nat>>, dp: nat, m: nat)
    requires |bins| == dp * m
    ensures |Grouped(bins, dp, m)| == dp
    decreases dp
  {
    if dp > 0 {
      MulSucc(dp - 1, m);
      GroupedLength(bins[m..], dp - 1, m);
    }
  }

  lemma GroupsInRange(b: Batch, dp: nat, m: nat)
    requires Valid(b) && MaskIfPresent(b) && Balances(b, dp * m)
    ensures |BalancedBins(b, dp * m)| == dp * m
    ensures |Grouped(BalancedBins(b, dp * m), dp, m)| == dp
    ensures AllInRange(Grouped(BalancedBins(b, dp * m), dp, m), b.size)
  {
    BinsPermute(b, dp * m);
    GroupedIs(BalancedBins(b, dp * m), dp, m, b.size / (dp * m), b.size);
  }

  /** Tokens in the shard of rank `c` after balancing over `m` workers a rank. */
  ghost function ShardTokens(b: Batch, dp: nat, m: nat, c: nat): nat
    requires Valid(b) && MaskIfPresent(b) && Balances(b, dp * m) && c < dp
  {
    GroupsInRange(b, dp, m);
    TokensIn(b, Grouped(BalancedBins(b, dp * m), dp, m)[c])
  }

  /** Every batch that is balanced at all leaves every two shards within the longest row. */
  ghost predicate WithinOneRow(dp: nat, m: nat) {
    forall b, c: nat, d: nat ::
      Valid(b) && MaskIfPresent(b) && Balances(b, dp * m) && c < dp && d < dp ==>
        ShardTokens(b, dp, m, c) <= ShardTokens(b, dp, m, d) + LongestRow(b)
  }

  /** Balancing over workers bounds the difference of two ranks' shards by the longest row, for
      all batches, if and only if no two workers share a rank. */
  lemma WithinOneRowIff(dp: nat, m: nat)
    requires dp >= 2
    ensures WithinOneRow(dp, m) <==> m <= 1
  {
    if m <= 1 {
      forall b, c: nat, d: nat |
        Valid(b) && MaskIfPresent(b) && Balances(b, dp * m) && c < dp && d < dp
        ensures ShardTokens(b, dp, m, c) <= ShardTokens(b, dp, m, d) + LongestRow(b)
      {
        assert dp * m <= dp;
        SharedRankShards(b, dp * m, dp, m, c, d);
      }
    } else {
      UnevenShards(dp, m);
    }
  }

  /** One row a worker: the first `m` rows of three tokens, all others of one. */
  function UnevenBatch(m: nat, n: nat): Batch {
    var mask := Column(Some(3), seq(n, i => if i < m then [1, 1, 1] else [1, 0, 0]));
    Batch(n, map[ATTENTION_MASK := mask], map[], map[])
  }

  function UnevenLens(m: nat, n: nat): seq<nat> {
    seq(n, i => if i < m then 3 else 1)
  }

  lemma UnevenCounts(m: nat, n: nat)
    ensures Valid(UnevenBatch(m, n)) && MaskIfPresent(UnevenBatch(m, n))
    ensures TokenCounts(UnevenBatch(m, n).tensors[ATTENTION_MASK]) == UnevenLens(m, n)
  {
    assert CellSum([1, 1, 1]) == 3 by { SumOfThree(1, 1, 1); }
    assert CellSum([1, 0, 0]) == 1 by { SumOfThree(1, 0, 0); }
  }

  lemma SumOfThree(x: Cell, y: Cell, z: Cell)
    ensures CellSum([x, y, z]) == x + y + z
  {
    assert [x, y, z][1..] == [y, z] && [y, z][1..] == [z];
    assert CellSum([z]) == z && CellSum([y, z]) == y + z;
  }

  lemma {:induction false} ConstantLoad(xs: seq<nat>, v: nat)
    requires forall i :: 0 <= i < |xs| ==> xs[i] == v
    ensures Sum(xs) == |xs| * v
  {
    if |xs| > 0 {
      ConstantLoad(xs[1..], v);
      MulSucc(|xs| - 1, v);
    }
  }

  lemma {:induction false} FlattenSingles(bins: seq<seq<nat>>, lo: nat)
    requires forall i :: 0 <= i < |bins| ==> bins[i] == [lo + i]
    ensures Flatten(bins) == Span(lo, lo + |bins|)
  {
    if |bins| > 0 {
      FlattenSingles(bins[1..], lo + 1);
      assert [lo] + Span(lo + 1, lo + |bins|) == Span(lo, lo + |bins|);
    }
  }

  /** The load of rank `c` when worker `j` holds row `j` and its `m` rows have `v` tokens. */
  lemma SinglesLoad(lens: seq<nat>, bins: seq<seq<nat>>, dp: nat, m: nat, c: nat, v: nat)
    requires |bins| == |lens| == dp * m && c < dp && bins == Singles(Iota(|lens|), |lens|, |lens|)
    requires forall i :: c * m <= i < (c + 1) * m && i < |lens| ==> lens[i] == v
    ensures |Grouped(bins, dp, m)| == dp && InRange(Grouped(bins, dp, m)[c], |lens|)
    ensures Load(lens, Grouped(bins, dp, m)[c]) == m * v
  {
    GroupOf(bins, dp, m, c);
    var lo, hi := c * m, (c + 1) * m;
    FlattenSingles(bins[lo..hi], lo);
    GatherSpan(lens, lo, hi);
    ConstantLoad(lens[lo..hi], v);
  }

  /** With `m` workers a rank the first rank gets all the long rows: for two ranks of two
      workers, rows of 3, 3, 1 and 1 tokens give shards of 6 and 2. */
  lemma UnevenShards(dp: nat, m: nat)
    requires dp >= 2 && m >= 2
    ensures var b := UnevenBatch(m, dp * m);
            && Valid(b) && MaskIfPresent(b) && Balances(b, dp * m)
            && ShardTokens(b, dp, m, 0) == 3 * m && ShardTokens(b, dp, m, 1) == m && LongestRow(b) == 3
  {
    var n := dp * m;
    MulMonotone(2, dp, m);
    DivModUnique(n, n, 1, 0);
    UnevenCounts(m, n);
    GroupsInRange(UnevenBatch(m, n), dp, m);
    UnevenLoads(dp, m, n);
  }

  lemma UnevenLoads(dp: nat, m: nat, n: nat)
    requires dp >= 2 && n == dp * m && n >= 2 * m > 0
    ensures var lens := UnevenLens(m, n);
            && |Bins(lens, n)| == n && |Grouped(Bins(lens, n), dp, m)| == dp && Max(lens) == 3
            && InRange(Grouped(Bins(lens, n), dp, m)[0], n) && InRange(Grouped(Bins(lens, n), dp, m)[1], n)
            && Load(lens, Grouped(Bins(lens, n), dp, m)[0]) == m * 3
            && Load(lens, Grouped(Bins(lens, n), dp, m)[1]) == m * 1
  {
    var lens := UnevenLens(m, n);
    assert lens[0] == 3;
    OneRowEach(lens);
    SinglesLoad(lens, Bins(lens, n), dp, m, 0, 3);
    SinglesLoad(lens, Bins(lens, n), dp, m, 1, 1);
  }
}
