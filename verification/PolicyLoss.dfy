/** The policy loss, and what sharding, reordering and chunking do to it: nothing. */
module PolicyLoss {
  import opened Arith
  import opened Chunker
  import opened Seqs
  import opened Stats
  import opened Wrappers

  // ---------------------------------------------------------------------
  // One token
  // ---------------------------------------------------------------------

  /** What the loss reads of one response position. */
  datatype Token = Token(logp: real, oldLogp: real, advantage: real, isWeight: real, mask: nat)

  datatype Config = Config(clipLow: real, clipHigh: real, clipC: real)

  function MinReal(a: real, b: real): real { if a <= b then a else b }
  function MaxReal(a: real, b: real): real { if a >= b then a else b }
  function Clamp(x: real, lo: real, hi: real): real { MinReal(MaxReal(x, lo), hi) }

  /** Clipped surrogate with a cap for negative advantages. */
  function TokenLoss(cfg: Config, exp: real -> real, t: Token): real {
    var ratio := exp(Clamp(t.logp - t.oldLogp, -20.0, 20.0));
    var clipped := Clamp(ratio, 1.0 - cfg.clipLow, 1.0 + cfg.clipHigh);
    var pg := MaxReal(-Product(t.advantage, ratio), -Product(t.advantage, clipped));
    var capped :=
      if cfg.clipC > 0.0 && t.advantage < 0.0 then MinReal(-Product(t.advantage, cfg.clipC), pg) else pg;
    Product(capped, t.isWeight)
  }

  // ---------------------------------------------------------------------
  // Aggregation
  // ---------------------------------------------------------------------

  datatype Mode = TokenMean | SeqMeanTokenSum | SeqMeanTokenSumNorm | SeqMeanTokenMean

  type Tokens = seq<Token>

  function RowMask(row: Tokens): nat {
    if |row| == 0 then 0 else row[0].mask + RowMask(row[1..])
  }

  /** Masked sum of the token losses of one row. */
  function RowLoss(cfg: Config, exp: real -> real, row: Tokens): real {
    if |row| == 0 then 0.0
    else
      (if row[0].mask != 0 then TokenLoss(cfg, exp, row[0]) else 0.0) * (row[0].mask as real)
      + RowLoss(cfg, exp, row[1..])
  }

  /** What one row adds to the numerator. `width` is the padded width of the mask. */
  function RowTerm(cfg: Config, exp: real -> real, mode: Mode, width: nat, row: Tokens): real {
    match mode
    case TokenMean => RowLoss(cfg, exp, row)
    case SeqMeanTokenSum => if RowMask(row) > 0 then RowLoss(cfg, exp, row) else 0.0
    case SeqMeanTokenSumNorm =>
      if RowMask(row) > 0 && width > 0 then RowLoss(cfg, exp, row) / (width as real) else 0.0
    case SeqMeanTokenMean =>
      if RowMask(row) > 0 then RowLoss(cfg, exp, row) / (RowMask(row) as real + 0.00000001) else 0.0
  }

  function RowTerms(cfg: Config, exp: real -> real, mode: Mode, width: nat, rows: seq<Tokens>): seq<real> {
    seq(|rows|, i requires 0 <= i < |rows| => RowTerm(cfg, exp, mode, width, rows[i]))
  }

  function MaskTotal(rows: seq<Tokens>): nat {
    if |rows| == 0 then 0 else RowMask(rows[0]) + MaskTotal(rows[1..])
  }

  function NonEmptyRows(rows: seq<Tokens>): nat {
    if |rows| == 0 then 0 else (if RowMask(rows[0]) > 0 then 1 else 0) + NonEmptyRows(rows[1..])
  }

  /** The denominator when the caller gives none. */
  function LocalCount(mode: Mode, rows: seq<Tokens>): nat {
    if mode.TokenMean? then MaskTotal(rows) else NonEmptyRows(rows)
  }

  /** Division by the count, at least one, and compensation for averaging over ranks. */
  function Scaled(x: real, ranks: nat, count: nat): real {
    x / (if count > 1 then count else 1) as real * ranks as real
  }

  /** Aggregated loss of one batch of rows. `count` is the global token or sequence count. */
  function AggLoss(
    cfg: Config, exp: real -> real, mode: Mode, width: nat, rows: seq<Tokens>, dp: nat, count: Option<nat>)
    : Result<real>
  {
    if count.None? && dp > 1 then Err(ValueError)
    else
      var n := if count.Some? then count.value else LocalCount(mode, rows);
      Ok(Scaled(RealSum(RowTerms(cfg, exp, mode, width, rows)), dp, n))
  }

  // ---------------------------------------------------------------------
  // One optimizer step on many ranks
  // ---------------------------------------------------------------------

  /** A row of the training batch; `length` is its real token count. */
  datatype TrainRow = TrainRow(tokens: Tokens, length: nat)

  function TokensOf(rows: seq<TrainRow>): seq<Tokens> {
    seq(|rows|, i requires 0 <= i < |rows| => rows[i].tokens)
  }

  function LengthsOf(rows: seq<TrainRow>): seq<nat> {
    seq(|rows|, i requires 0 <= i < |rows| => rows[i].length)
  }

  /** First row of rank `r`, and the row after its last. */
  function RankStart(total: nat, ranks: nat, r: nat): nat
    requires r < ranks
  {
    var chunk := if total / ranks > 1 then total / ranks else 1;
    if r * chunk < total then r * chunk else total
  }

  function RankEnd(total: nat, ranks: nat, r: nat): (e: nat)
    requires r < ranks
    ensures RankStart(total, ranks, r) <= e <= total
  {
    var chunk := if total / ranks > 1 then total / ranks else 1;
    if r == ranks - 1 then total
    else if r * chunk + chunk < total then r * chunk + chunk else total
  }

  function RankRows<T>(rows: seq<T>, ranks: nat, r: nat): seq<T>
    requires r < ranks
  {
    rows[RankStart(|rows|, ranks, r)..RankEnd(|rows|, ranks, r)]
  }

  function Sharded<T>(rows: seq<T>, ranks: nat): seq<seq<T>> {
    seq(ranks, r requires 0 <= r < ranks => RankRows(rows, ranks, r))
  }

  /** One rank's token-budget mini-batches, taking its rows in the order given. */
  ghost function MiniBatches(rows: seq<TrainRow>, order: seq<nat>, budget: int): seq<seq<TrainRow>>
    requires IsPermutation(order, |rows|)
  {
    PermutationInRange(order, |rows|);
    var ordered := Gather(rows, order);
    Cut(ordered, budget)
  }

  function Cut(rows: seq<TrainRow>, budget: int): seq<seq<TrainRow>> {
    var chunks := GreedyChunks(LengthsOf(rows), budget, 0);
    CutBounds(rows, budget);
    seq(|chunks|, i requires 0 <= i < |chunks| => rows[chunks[i].start..chunks[i].end])
  }

  lemma CutBounds(rows: seq<TrainRow>, budget: int)
    ensures Partition(GreedyChunks(LengthsOf(rows), budget, 0), 0, |rows|)
    ensures InRows(GreedyChunks(LengthsOf(rows), budget, 0), |rows|)
  {
    GreedyIsLegal(LengthsOf(rows), budget, 0);
    PartitionBounds(GreedyChunks(LengthsOf(rows), budget, 0), 0, |rows|);
  }

  /** A mini-batch with its response mask zeroed. */
  function Dummy(rows: seq<TrainRow>): seq<TrainRow> {
    seq(|rows|, i requires 0 <= i < |rows| => TrainRow(ZeroMask(rows[i].tokens), rows[i].length))
  }

  function ZeroMask(row: Tokens): Tokens {
    seq(|row|, j requires 0 <= j < |row| => row[j].(mask := 0))
  }

  /** Mini-batches of a rank after dummies bring it to `passes`. */
  ghost function Padded(minis: seq<seq<TrainRow>>, passes: nat): seq<seq<TrainRow>>
    requires |minis| > 0
  {
    minis + seq(if passes > |minis| then passes - |minis| else 0, _ => Dummy(minis[|minis| - 1]))
  }

  /** Sum of the losses of a rank's mini-batches, each given the global count. */
  ghost function RankLoss(
    cfg: Config, exp: real -> real, mode: Mode, width: nat, minis: seq<seq<TrainRow>>, ranks: nat, count: nat): real
  {
    if |minis| == 0 then 0.0
    else
      AggLoss(cfg, exp, mode, width, TokensOf(minis[0]), ranks, Some(count)).value
      + RankLoss(cfg, exp, mode, width, minis[1..], ranks, count)
  }

  /** Sum over the ranks. `orders[r]` is the order rank `r` takes its rows in. */
  ghost function TotalLoss(
    cfg: Config, exp: real -> real, mode: Mode, width: nat, shards: seq<seq<TrainRow>>, orders: seq<seq<nat>>,
    budget: int, passes: nat, ranks: nat, count: nat): real
    requires |shards| == |orders|
    requires forall r :: 0 <= r < |shards| ==> |shards[r]| > 0 && IsPermutation(orders[r], |shards[r]|)
  {
    if |shards| == 0 then 0.0
    else
      MiniBatchesExist(shards[0], orders[0], budget);
      RankLoss(cfg, exp, mode, width, Padded(MiniBatches(shards[0], orders[0], budget), passes), ranks, count)
      + TotalLoss(cfg, exp, mode, width, shards[1..], orders[1..], budget, passes, ranks, count)
  }

  // ---------------------------------------------------------------------
  // Every row is in exactly one mini-batch of one rank
  // ---------------------------------------------------------------------

  lemma RankBounds(total: nat, ranks: nat, r: nat)
    requires r < ranks
    ensures RankStart(total, ranks, 0) == 0
    ensures r + 1 < ranks ==> RankEnd(total, ranks, r) == RankStart(total, ranks, r + 1)
    ensures r + 1 == ranks ==> RankEnd(total, ranks, r) == total
  {
    var chunk := if total / ranks > 1 then total / ranks else 1;
    MulSucc(r, chunk);
  }

  lemma {:induction false} ShardedUpTo<T>(rows: seq<T>, ranks: nat, r: nat)
    requires 0 < r <= ranks
    ensures Flatten(Sharded(rows, ranks)[..r]) == rows[..RankEnd(|rows|, ranks, r - 1)]
  {
    var shards := Sharded(rows, ranks);
    RankBounds(|rows|, ranks, r - 1);
    assert shards[..r] == shards[..r - 1] + [shards[r - 1]];
    FlattenSnoc(shards[..r - 1], shards[r - 1]);
    if r > 1 {
      ShardedUpTo(rows, ranks, r - 1);
      RankBounds(|rows|, ranks, r - 2);
    }
  }

  /** The shards of the ranks are the rows, in order, none lost or repeated. */
  lemma ShardsPartition<T>(rows: seq<T>, ranks: nat)
    requires ranks > 0
    ensures Flatten(Sharded(rows, ranks)) == rows
  {
    ShardedUpTo(rows, ranks, ranks);
    RankBounds(|rows|, ranks, ranks - 1);
    TakeAll(Sharded(rows, ranks), ranks);
  }

  /** No rank is left without rows exactly when there are at least as many rows as ranks. */
  lemma EveryRankHasRows<T>(rows: seq<T>, ranks: nat)
    requires ranks > 0
    ensures |rows| >= ranks <==> forall r :: 0 <= r < ranks ==> |Sharded(rows, ranks)[r]| > 0
  {
    var total := |rows|;
    var chunk := if total / ranks > 1 then total / ranks else 1;
    if total >= ranks {
      DivMod(total, ranks);
      DivMonotone(ranks, total, ranks);
      MulDiv(1, ranks);
      forall r | 0 <= r < ranks ensures |Sharded(rows, ranks)[r]| > 0 {
        MulMonotone(r + 1, ranks, chunk);
        MulSucc(r, chunk);
        assert ranks * chunk <= total;
      }
    } else {
      DivModUnique(total, ranks, 0, total);
      assert RankStart(total, ranks, ranks - 1) == total;
      assert |Sharded(rows, ranks)[ranks - 1]| == 0;
    }
  }

  /** Every rank but the last takes its whole part of the rows, the last one what is left. */
  lemma ShardSizes<T>(rows: seq<T>, ranks: nat, r: nat)
    requires 0 < ranks <= |rows| && r < ranks
    ensures |Sharded(rows, ranks)[r]|
         == if r < ranks - 1 then |rows| / ranks else |rows| / ranks + |rows| % ranks
  {
    var total, chunk := |rows|, |rows| / ranks;
    DivMod(total, ranks);
    DivMonotone(ranks, total, ranks);
    MulDiv(1, ranks);
    MulMonotone(r + 1, ranks, chunk);
    MulSucc(r, chunk);
    assert ranks * chunk == chunk * ranks;
  }

  lemma {:induction false} CutCovers(rows: seq<TrainRow>, chunks: seq<Range>, from: nat)
    requires Partition(chunks, from, |rows|) && from <= |rows| && InRows(chunks, |rows|)
    ensures Flatten(seq(|chunks|, i requires 0 <= i < |chunks| => rows[chunks[i].start..chunks[i].end])) == rows[from..]
  {
    var parts := seq(|chunks|, i requires 0 <= i < |chunks| => rows[chunks[i].start..chunks[i].end]);
    if |chunks| > 0 {
      CutCovers(rows, chunks[1..], chunks[0].end);
      assert parts[1..] == seq(|chunks[1..]|, i requires 0 <= i < |chunks[1..]| =>
                               rows[chunks[1..][i].start..chunks[1..][i].end]);
      assert rows[from..] == rows[chunks[0].start..chunks[0].end] + rows[chunks[0].end..];
    }
  }

  lemma MiniBatchesExist(rows: seq<TrainRow>, order: seq<nat>, budget: int)
    requires IsPermutation(order, |rows|)
    ensures multiset(Flatten(MiniBatches(rows, order, budget))) == multiset(rows)
    ensures |rows| > 0 ==> |MiniBatches(rows, order, budget)| > 0
  {
    PermutationInRange(order, |rows|);
    var ordered := Gather(rows, order);
    CutBounds(ordered, budget);
    CutCovers(ordered, GreedyChunks(LengthsOf(ordered), budget, 0), 0);
    assert ordered[0..] == ordered;
    PermutedMultiset(rows, order);
  }

  // ---------------------------------------------------------------------
  // The loss is a sum over rows
  // ---------------------------------------------------------------------

  function Terms(cfg: Config, exp: real -> real, mode: Mode, width: nat, rows: seq<TrainRow>): seq<real> {
    seq(|rows|, i requires 0 <= i < |rows| => RowTerm(cfg, exp, mode, width, rows[i].tokens))
  }

  function Numerator(cfg: Config, exp: real -> real, mode: Mode, width: nat, rows: seq<TrainRow>): real {
    RealSum(Terms(cfg, exp, mode, width, rows))
  }

  lemma NumeratorConcat(cfg: Config, exp: real -> real, mode: Mode, width: nat, a: seq<TrainRow>, b: seq<TrainRow>)
    ensures Numerator(cfg, exp, mode, width, a + b)
         == Numerator(cfg, exp, mode, width, a) + Numerator(cfg, exp, mode, width, b)
  {
    var ta, tb := Terms(cfg, exp, mode, width, a), Terms(cfg, exp, mode, width, b);
    assert Terms(cfg, exp, mode, width, a + b) == ta + tb;
    RealSumConcat(ta, tb);
  }

  /** The numerator does not depend on the order of the rows. */
  lemma {:induction false} NumeratorMultiset(
    cfg: Config, exp: real -> real, mode: Mode, width: nat, a: seq<TrainRow>, b: seq<TrainRow>)
    requires multiset(a) == multiset(b)
    ensures Numerator(cfg, exp, mode, width, a) == Numerator(cfg, exp, mode, width, b)
    decreases |a|
  {
    if |a| == 0 {
      assert |multiset(b)| == 0;
    } else {
      assert a[0] in multiset(b);
      var k :| 0 <= k < |b| && b[k] == a[0];
      SameAfterRemoval(a, b, k);
      NumeratorMultiset(cfg, exp, mode, width, a[1..], b[..k] + b[k + 1..]);
      NumeratorWithout(cfg, exp, mode, width, a, 0);
      assert a[..0] + a[1..] == a[1..];
      NumeratorWithout(cfg, exp, mode, width, b, k);
    }
  }

  lemma NumeratorWithout(cfg: Config, exp: real -> real, mode: Mode, width: nat, b: seq<TrainRow>, k: nat)
    requires k < |b|
    ensures Numerator(cfg, exp, mode, width, b)
         == Numerator(cfg, exp, mode, width, b[..k] + b[k + 1..]) + Numerator(cfg, exp, mode, width, [b[k]])
  {
    NumeratorConcat(cfg, exp, mode, width, b[..k], b[k + 1..]);
    NumeratorConcat(cfg, exp, mode, width, b[..k], [b[k]] + b[k + 1..]);
    NumeratorConcat(cfg, exp, mode, width, [b[k]], b[k + 1..]);
    assert b == b[..k] + ([b[k]] + b[k + 1..]);
  }

  lemma {:induction false} ZeroMaskRow(cfg: Config, exp: real -> real, row: Tokens)
    ensures RowLoss(cfg, exp, ZeroMask(row)) == 0.0 && RowMask(ZeroMask(row)) == 0
  {
    if |row| > 0 {
      ZeroMaskRow(cfg, exp, row[1..]);
      assert ZeroMask(row)[1..] == ZeroMask(row[1..]);
    }
  }

  lemma {:induction false} DummyNumerator(cfg: Config, exp: real -> real, mode: Mode, width: nat, rows: seq<TrainRow>)
    ensures Numerator(cfg, exp, mode, width, Dummy(rows)) == 0.0
  {
    if |rows| > 0 {
      DummyNumerator(cfg, exp, mode, width, rows[1..]);
      ZeroMaskRow(cfg, exp, rows[0].tokens);
      assert Dummy(rows) == [TrainRow(ZeroMask(rows[0].tokens), rows[0].length)] + Dummy(rows[1..]);
      assert Terms(cfg, exp, mode, width, Dummy(rows))[1..] == Terms(cfg, exp, mode, width, Dummy(rows[1..]));
    }
  }

  lemma ScaledAdd(x: real, y: real, ranks: nat, count: nat)
    ensures Scaled(x, ranks, count) + Scaled(y, ranks, count) == Scaled(x + y, ranks, count)
  {
    var c, k := (if count > 1 then count else 1) as real, ranks as real;
    assert x / c + y / c == (x + y) / c;
    assert (x / c) * k + (y / c) * k == (x / c + y / c) * k;
  }

  lemma MiniLoss(
    cfg: Config, exp: real -> real, mode: Mode, width: nat, rows: seq<TrainRow>, ranks: nat, count: nat)
    ensures AggLoss(cfg, exp, mode, width, TokensOf(rows), ranks, Some(count))
         == Ok(Scaled(Numerator(cfg, exp, mode, width, rows), ranks, count))
  {
    assert RowTerms(cfg, exp, mode, width, TokensOf(rows)) == Terms(cfg, exp, mode, width, rows);
  }

  lemma {:induction false} RankLossIs(
    cfg: Config, exp: real -> real, mode: Mode, width: nat, minis: seq<seq<TrainRow>>, ranks: nat, count: nat)
    ensures RankLoss(cfg, exp, mode, width, minis, ranks, count)
         == Scaled(Numerator(cfg, exp, mode, width, Flatten(minis)), ranks, count)
  {
    if |minis| > 0 {
      RankLossIs(cfg, exp, mode, width, minis[1..], ranks, count);
      MiniLoss(cfg, exp, mode, width, minis[0], ranks, count);
      var x, y := Numerator(cfg, exp, mode, width, minis[0]), Numerator(cfg, exp, mode, width, Flatten(minis[1..]));
      ScaledAdd(x, y, ranks, count);
      NumeratorConcat(cfg, exp, mode, width, minis[0], Flatten(minis[1..]));
    }
  }

  lemma {:induction false} DummiesAddNothing(
    cfg: Config, exp: real -> real, mode: Mode, width: nat, last: seq<TrainRow>, n: nat)
    ensures Numerator(cfg, exp, mode, width, Flatten(seq(n, _ => Dummy(last)))) == 0.0
  {
    var dummies := seq(n, _ => Dummy(last));
    if n > 0 {
      DummiesAddNothing(cfg, exp, mode, width, last, n - 1);
      assert dummies[1..] == seq(n - 1, _ => Dummy(last));
      DummyNumerator(cfg, exp, mode, width, last);
      NumeratorConcat(cfg, exp, mode, width, Dummy(last), Flatten(dummies[1..]));
    }
  }

  lemma PaddedNumerator(
    cfg: Config, exp: real -> real, mode: Mode, width: nat, minis: seq<seq<TrainRow>>, passes: nat)
    requires |minis| > 0
    ensures Numerator(cfg, exp, mode, width, Flatten(Padded(minis, passes)))
         == Numerator(cfg, exp, mode, width, Flatten(minis))
  {
    var n := if passes > |minis| then passes - |minis| else 0;
    var dummies := seq(n, _ => Dummy(minis[|minis| - 1]));
    FlattenConcat(minis, dummies);
    NumeratorConcat(cfg, exp, mode, width, Flatten(minis), Flatten(dummies));
    DummiesAddNothing(cfg, exp, mode, width, minis[|minis| - 1], n);
  }

  lemma ShardLossIs(
    cfg: Config, exp: real -> real, mode: Mode, width: nat, shard: seq<TrainRow>, order: seq<nat>, budget: int,
    passes: nat, ranks: nat, count: nat)
    requires |shard| > 0 && IsPermutation(order, |shard|)
    ensures |MiniBatches(shard, order, budget)| > 0
    ensures RankLoss(cfg, exp, mode, width, Padded(MiniBatches(shard, order, budget), passes), ranks, count)
         == Scaled(Numerator(cfg, exp, mode, width, shard), ranks, count)
  {
    MiniBatchesExist(shard, order, budget);
    var minis := MiniBatches(shard, order, budget);
    RankLossIs(cfg, exp, mode, width, Padded(minis, passes), ranks, count);
    PaddedNumerator(cfg, exp, mode, width, minis, passes);
    NumeratorMultiset(cfg, exp, mode, width, Flatten(minis), shard);
  }

  lemma {:induction false} TotalLossIs(
    cfg: Config, exp: real -> real, mode: Mode, width: nat, shards: seq<seq<TrainRow>>, orders: seq<seq<nat>>,
    budget: int, passes: nat, ranks: nat, count: nat)
    requires |shards| == |orders|
    requires forall r :: 0 <= r < |shards| ==> |shards[r]| > 0 && IsPermutation(orders[r], |shards[r]|)
    ensures TotalLoss(cfg, exp, mode, width, shards, orders, budget, passes, ranks, count)
         == Scaled(Numerator(cfg, exp, mode, width, Flatten(shards)), ranks, count)
  {
    if |shards| > 0 {
      TotalLossIs(cfg, exp, mode, width, shards[1..], orders[1..], budget, passes, ranks, count);
      ShardLossIs(cfg, exp, mode, width, shards[0], orders[0], budget, passes, ranks, count);
      ScaledAdd(Numerator(cfg, exp, mode, width, shards[0]),
                Numerator(cfg, exp, mode, width, Flatten(shards[1..])), ranks, count);
      NumeratorConcat(cfg, exp, mode, width, shards[0], Flatten(shards[1..]));
    }
  }

  /** The count every rank is given: its own count summed over the ranks. */
  ghost function GlobalCount(mode: Mode, shards: seq<seq<TrainRow>>): nat {
    if |shards| == 0 then 0 else LocalCount(mode, TokensOf(shards[0])) + GlobalCount(mode, shards[1..])
  }

  lemma {:induction false} LocalCountConcat(mode: Mode, a: seq<Tokens>, b: seq<Tokens>)
    ensures LocalCount(mode, a + b) == LocalCount(mode, a) + LocalCount(mode, b)
  {
    if |a| == 0 {
      assert a + b == b;
    } else {
      LocalCountConcat(mode, a[1..], b);
      assert (a + b)[1..] == a[1..] + b;
    }
  }

  lemma {:induction false} GlobalCountIs(mode: Mode, shards: seq<seq<TrainRow>>)
    ensures GlobalCount(mode, shards) == LocalCount(mode, TokensOf(Flatten(shards)))
  {
    if |shards| > 0 {
      GlobalCountIs(mode, shards[1..]);
      assert TokensOf(Flatten(shards)) == TokensOf(shards[0]) + TokensOf(Flatten(shards[1..]));
      LocalCountConcat(mode, TokensOf(shards[0]), TokensOf(Flatten(shards[1..])));
    }
  }

  /** Main result: whatever the number of ranks, the token budget, the order each rank takes
      its rows in and the number of dummy passes, the rank-averaged sum of mini-batch losses
      is the loss one process computes on the whole batch; for every aggregation mode that is
      given the global count. */
  lemma ShardedLossIsWholeLoss(
    cfg: Config, exp: real -> real, mode: Mode, width: nat, rows: seq<TrainRow>, ranks: nat, orders: seq<seq<nat>>,
    budget: int, passes: nat)
    requires ranks > 0 && |rows| >= ranks && |orders| == ranks
    requires forall r :: 0 <= r < ranks ==> IsPermutation(orders[r], |RankRows(rows, ranks, r)|)
    ensures forall r :: 0 <= r < ranks ==>
              |Sharded(rows, ranks)[r]| > 0 && IsPermutation(orders[r], |Sharded(rows, ranks)[r]|)
    ensures var count := GlobalCount(mode, Sharded(rows, ranks));
            var total := TotalLoss(cfg, exp, mode, width, Sharded(rows, ranks), orders, budget, passes, ranks, count);
            AggLoss(cfg, exp, mode, width, TokensOf(rows), 1, None) == Ok(total / ranks as real)
  {
    var shards := Sharded(rows, ranks);
    EveryRankHasRows(rows, ranks);
    ShardsPartition(rows, ranks);
    GlobalCountIs(mode, shards);
    var count := GlobalCount(mode, shards);
    TotalLossIs(cfg, exp, mode, width, shards, orders, budget, passes, ranks, count);
    MiniLoss(cfg, exp, mode, width, rows, 1, count);
    AverageOfScaled(Numerator(cfg, exp, mode, width, rows), ranks, count);
  }

  lemma {:induction false} LocalCountMultiset(mode: Mode, a: seq<TrainRow>, b: seq<TrainRow>)
    requires multiset(a) == multiset(b)
    ensures LocalCount(mode, TokensOf(a)) == LocalCount(mode, TokensOf(b))
    decreases |a|
  {
    if |a| == 0 {
      assert |multiset(b)| == 0;
    } else {
      assert a[0] in multiset(b);
      var k :| 0 <= k < |b| && b[k] == a[0];
      SameAfterRemoval(a, b, k);
      var rest := b[..k] + b[k + 1..];
      LocalCountMultiset(mode, a[1..], rest);
      var ta, tb := TokensOf(a), TokensOf(b);
      assert ta == [a[0].tokens] + TokensOf(a[1..]);
      LocalCountConcat(mode, [a[0].tokens], TokensOf(a[1..]));
      assert TokensOf(rest) == tb[..k] + tb[k + 1..];
      LocalCountConcat(mode, tb[..k], tb[k + 1..]);
      assert tb == tb[..k] + ([tb[k]] + tb[k + 1..]);
      LocalCountConcat(mode, tb[..k], [tb[k]] + tb[k + 1..]);
      LocalCountConcat(mode, [tb[k]], tb[k + 1..]);
    }
  }

  /** The same when the rows are first shuffled, balanced or otherwise rearranged. */
  lemma ShuffledLossIsWholeLoss(
    cfg: Config, exp: real -> real, mode: Mode, width: nat, rows: seq<TrainRow>, perm: seq<nat>, ranks: nat,
    orders: seq<seq<nat>>, budget: int, passes: nat)
    requires IsPermutation(perm, |rows|)
    requires ranks > 0 && |rows| >= ranks && |orders| == ranks
    ensures InRange(perm, |rows|) && |Gather(rows, perm)| == |rows|
    ensures (forall r :: 0 <= r < ranks ==> IsPermutation(orders[r], |Sharded(Gather(rows, perm), ranks)[r]|)) ==>
              var shards := Sharded(Gather(rows, perm), ranks);
              && (forall r :: 0 <= r < ranks ==> |shards[r]| > 0)
              && var total := TotalLoss(cfg, exp, mode, width, shards, orders, budget, passes, ranks,
                                        GlobalCount(mode, shards));
                 AggLoss(cfg, exp, mode, width, TokensOf(rows), 1, None) == Ok(total / ranks as real)
  {
    PermutationInRange(perm, |rows|);
    PermutedMultiset(rows, perm);
    var shuffled := Gather(rows, perm);
    if forall r :: 0 <= r < ranks ==> IsPermutation(orders[r], |Sharded(shuffled, ranks)[r]|) {
      forall r | 0 <= r < ranks ensures IsPermutation(orders[r], |RankRows(shuffled, ranks, r)|) {
        assert Sharded(shuffled, ranks)[r] == RankRows(shuffled, ranks, r);
      }
      ShardedLossIsWholeLoss(cfg, exp, mode, width, shuffled, ranks, orders, budget, passes);
      SameLossWhateverOrder(cfg, exp, mode, width, shuffled, rows);
    }
  }

  lemma SameLossWhateverOrder(
    cfg: Config, exp: real -> real, mode: Mode, width: nat, a: seq<TrainRow>, b: seq<TrainRow>)
    requires multiset(a) == multiset(b)
    ensures AggLoss(cfg, exp, mode, width, TokensOf(a), 1, None) == AggLoss(cfg, exp, mode, width, TokensOf(b), 1, None)
  {
    LocalCountMultiset(mode, a, b);
    NumeratorMultiset(cfg, exp, mode, width, a, b);
    MiniLoss(cfg, exp, mode, width, a, 1, LocalCount(mode, TokensOf(a)));
    MiniLoss(cfg, exp, mode, width, b, 1, LocalCount(mode, TokensOf(b)));
  }

  lemma AverageOfScaled(x: real, ranks: nat, count: nat)
    requires ranks > 0
    ensures Scaled(x, ranks, count) / ranks as real == Scaled(x, 1, count)
  {
    var y := x / (if count > 1 then count else 1) as real;
    assert (y * ranks as real) / ranks as real == y;
  }

  // ---------------------------------------------------------------------
  // What the loss is
  // ---------------------------------------------------------------------

  ghost predicate ZeroOneMasks(rows: seq<Tokens>) {
    forall i, t :: 0 <= i < |rows| && 0 <= t < |rows[i]| ==> rows[i][t].mask <= 1
  }

  /** The losses of the marked tokens of one row, one by one. */
  function MarkedLosses(cfg: Config, exp: real -> real, row: Tokens): seq<real> {
    if |row| == 0 then []
    else (if row[0].mask == 1 then [TokenLoss(cfg, exp, row[0])] else []) + MarkedLosses(cfg, exp, row[1..])
  }

  /** The losses of all marked tokens, row after row. */
  function AllMarkedLosses(cfg: Config, exp: real -> real, rows: seq<Tokens>): seq<real> {
    if |rows| == 0 then [] else MarkedLosses(cfg, exp, rows[0]) + AllMarkedLosses(cfg, exp, rows[1..])
  }

  /** What a sequence with marked tokens counts for in the three sequence modes. */
  function SequenceLoss(mode: Mode, width: nat, losses: seq<real>): real
    requires |losses| > 0
  {
    match mode
    case SeqMeanTokenMean => RealSum(losses) / (|losses| as real + 0.00000001)
    case SeqMeanTokenSumNorm => if width > 0 then RealSum(losses) / width as real else 0.0
    case _ => RealSum(losses)
  }

  /** One entry for each row that has a marked token. */
  function SequenceLosses(cfg: Config, exp: real -> real, mode: Mode, width: nat, rows: seq<Tokens>): seq<real> {
    if |rows| == 0 then []
    else
      var losses := MarkedLosses(cfg, exp, rows[0]);
      (if |losses| > 0 then [SequenceLoss(mode, width, losses)] else [])
      + SequenceLosses(cfg, exp, mode, width, rows[1..])
  }

  lemma {:induction false} RowIsMarked(cfg: Config, exp: real -> real, row: Tokens)
    requires forall t :: 0 <= t < |row| ==> row[t].mask <= 1
    ensures RowLoss(cfg, exp, row) == RealSum(MarkedLosses(cfg, exp, row))
    ensures RowMask(row) == |MarkedLosses(cfg, exp, row)|
  {
    if |row| > 0 {
      RowIsMarked(cfg, exp, row[1..]);
      OneOrNothing(if row[0].mask != 0 then TokenLoss(cfg, exp, row[0]) else 0.0, row[0].mask);
      RealSumConcat(if row[0].mask == 1 then [TokenLoss(cfg, exp, row[0])] else [], MarkedLosses(cfg, exp, row[1..]));
    }
  }

  lemma OneOrNothing(x: real, mask: nat)
    requires mask == 0 || mask == 1
    ensures x * mask as real == if mask == 1 then x else 0.0
  {
  }

  lemma RowTermIs(cfg: Config, exp: real -> real, mode: Mode, width: nat, row: Tokens)
    requires !mode.TokenMean? && forall t :: 0 <= t < |row| ==> row[t].mask <= 1
    ensures var losses := MarkedLosses(cfg, exp, row);
            RowTerm(cfg, exp, mode, width, row) == if |losses| > 0 then SequenceLoss(mode, width, losses) else 0.0
  {
    RowIsMarked(cfg, exp, row);
  }

  lemma {:induction false} TokenSums(cfg: Config, exp: real -> real, width: nat, rows: seq<Tokens>)
    requires ZeroOneMasks(rows)
    ensures RealSum(RowTerms(cfg, exp, TokenMean, width, rows)) == RealSum(AllMarkedLosses(cfg, exp, rows))
    ensures LocalCount(TokenMean, rows) == |AllMarkedLosses(cfg, exp, rows)|
  {
    if |rows| > 0 {
      assert rows[0] == rows[..1][0];
      assert forall t :: 0 <= t < |rows[0]| ==> rows[0][t].mask <= 1;
      RowIsMarked(cfg, exp, rows[0]);
      assert forall i :: 0 <= i < |rows[1..]| ==> rows[1..][i] == rows[i + 1];
      TokenSums(cfg, exp, width, rows[1..]);
      assert RowTerms(cfg, exp, TokenMean, width, rows)[1..] == RowTerms(cfg, exp, TokenMean, width, rows[1..]);
      RealSumConcat(MarkedLosses(cfg, exp, rows[0]), AllMarkedLosses(cfg, exp, rows[1..]));
    }
  }

  lemma {:induction false} SequenceSums(cfg: Config, exp: real -> real, mode: Mode, width: nat, rows: seq<Tokens>)
    requires ZeroOneMasks(rows) && !mode.TokenMean?
    ensures RealSum(RowTerms(cfg, exp, mode, width, rows)) == RealSum(SequenceLosses(cfg, exp, mode, width, rows))
    ensures LocalCount(mode, rows) == |SequenceLosses(cfg, exp, mode, width, rows)|
  {
    if |rows| > 0 {
      assert forall t :: 0 <= t < |rows[0]| ==> rows[0][t].mask <= 1;
      RowTermIs(cfg, exp, mode, width, rows[0]);
      RowIsMarked(cfg, exp, rows[0]);
      assert forall i :: 0 <= i < |rows[1..]| ==> rows[1..][i] == rows[i + 1];
      SequenceSums(cfg, exp, mode, width, rows[1..]);
      var losses := MarkedLosses(cfg, exp, rows[0]);
      RealSumConcat(if |losses| > 0 then [SequenceLoss(mode, width, losses)] else [],
                    SequenceLosses(cfg, exp, mode, width, rows[1..]));
      assert RowTerms(cfg, exp, mode, width, rows)[1..] == RowTerms(cfg, exp, mode, width, rows[1..]);
    }
  }

  /** Main result: on one process token-mean is the mean of the losses of the marked tokens. */
  lemma TokenMeanIsMean(cfg: Config, exp: real -> real, width: nat, rows: seq<Tokens>)
    requires ZeroOneMasks(rows)
    ensures var losses := AllMarkedLosses(cfg, exp, rows);
            AggLoss(cfg, exp, TokenMean, width, rows, 1, None) == Ok(if |losses| > 0 then Mean(losses) else 0.0)
  {
    TokenSums(cfg, exp, width, rows);
    OnOneProcess(RealSum(AllMarkedLosses(cfg, exp, rows)), |AllMarkedLosses(cfg, exp, rows)|);
  }

  lemma OnOneProcess(total: real, count: nat)
    ensures Scaled(total, 1, count) == if count > 0 then total / count as real else total
  {
    var x := total / (if count > 1 then count else 1) as real;
    assert x * 1.0 == x;
  }

  /** And the sequence modes are the mean of what the sequences with marked tokens count for. */
  lemma SequenceModesAreMeans(cfg: Config, exp: real -> real, mode: Mode, width: nat, rows: seq<Tokens>)
    requires ZeroOneMasks(rows) && !mode.TokenMean?
    ensures var losses := SequenceLosses(cfg, exp, mode, width, rows);
            AggLoss(cfg, exp, mode, width, rows, 1, None) == Ok(if |losses| > 0 then Mean(losses) else 0.0)
  {
    var losses := SequenceLosses(cfg, exp, mode, width, rows);
    SequenceSums(cfg, exp, mode, width, rows);
    OnOneProcess(RealSum(losses), |losses|);
  }

  /** Every marked token has loss `c`. */
  ghost predicate ConstantLoss(cfg: Config, exp: real -> real, rows: seq<Tokens>, c: real) {
    forall i, t :: 0 <= i < |rows| && 0 <= t < |rows[i]| && rows[i][t].mask == 1 ==>
                     TokenLoss(cfg, exp, rows[i][t]) == c
  }

  /** The marked positions of a row. */
  ghost function MarkedPositions(row: Tokens): set<nat> {
    set t: nat | t < |row| && row[t].mask == 1
  }

  lemma {:induction false} CountMarkedPositions(cfg: Config, exp: real -> real, row: Tokens)
    ensures |MarkedLosses(cfg, exp, row)| == |MarkedPositions(row)|
  {
    if |row| > 0 {
      CountMarkedPositions(cfg, exp, row[1..]);
      var later := set t: nat | t < |row| && t > 0 && row[t].mask == 1;
      ShiftedSize(MarkedPositions(row[1..]), later);
      assert MarkedPositions(row) == later + if row[0].mask == 1 then {0} else {};
    }
  }

  lemma {:induction false} ShiftedSize(a: set<nat>, b: set<nat>)
    requires forall t: nat :: t + 1 in b <==> t in a
    requires 0 !in b
    ensures |a| == |b|
  {
    forall y | y in b ensures y - 1 in a {
      assert (y - 1) + 1 == y;
    }
    if x :| x in a {
      ShiftedSize(a - {x}, b - {x + 1});
    } else {
      assert b == {};
    }
  }

  lemma {:induction false} ConstantRow(cfg: Config, exp: real -> real, row: Tokens, c: real)
    requires forall t :: 0 <= t < |row| && row[t].mask == 1 ==> TokenLoss(cfg, exp, row[t]) == c
    ensures forall i :: 0 <= i < |MarkedLosses(cfg, exp, row)| ==> MarkedLosses(cfg, exp, row)[i] == c
    ensures RealSum(MarkedLosses(cfg, exp, row)) == Times(|MarkedPositions(row)|, c)
  {
    if |row| > 0 {
      ConstantRow(cfg, exp, row[1..], c);
    }
    CountMarkedPositions(cfg, exp, row);
    ConstantSum(MarkedLosses(cfg, exp, row), c);
  }

  lemma {:induction false} ConstantAll(cfg: Config, exp: real -> real, rows: seq<Tokens>, c: real)
    requires ConstantLoss(cfg, exp, rows, c)
    ensures forall i :: 0 <= i < |AllMarkedLosses(cfg, exp, rows)| ==> AllMarkedLosses(cfg, exp, rows)[i] == c
    ensures (exists i :: 0 <= i < |rows| && MarkedPositions(rows[i]) != {}) ==> |AllMarkedLosses(cfg, exp, rows)| > 0
  {
    if |rows| > 0 {
      ConstantRow(cfg, exp, rows[0], c);
      CountMarkedPositions(cfg, exp, rows[0]);
      assert forall i :: 0 <= i < |rows[1..]| ==> rows[1..][i] == rows[i + 1];
      ConstantAll(cfg, exp, rows[1..], c);
      if i :| 0 <= i < |rows| && MarkedPositions(rows[i]) != {} && i > 0 {
        assert rows[1..][i - 1] == rows[i];
      }
    }
  }

  /** If every marked token has loss `c`, the token-mean is `c`. */
  lemma ConstantTokenMean(cfg: Config, exp: real -> real, width: nat, rows: seq<Tokens>, c: real)
    requires ZeroOneMasks(rows) && ConstantLoss(cfg, exp, rows, c)
    requires exists i :: 0 <= i < |rows| && MarkedPositions(rows[i]) != {}
    ensures AggLoss(cfg, exp, TokenMean, width, rows, 1, None) == Ok(c)
  {
    TokenMeanIsMean(cfg, exp, width, rows);
    ConstantAll(cfg, exp, rows, c);
    ConstantMean(AllMarkedLosses(cfg, exp, rows));
  }

  /** `k` tokens are marked in every row that has any. */
  ghost predicate SameCount(rows: seq<Tokens>, k: nat) {
    forall i :: 0 <= i < |rows| && MarkedPositions(rows[i]) != {} ==> |MarkedPositions(rows[i])| == k
  }

  /** The loss of one such row in each sequence mode. */
  function ConstantSequence(mode: Mode, width: nat, k: nat, c: real): real {
    match mode
    case SeqMeanTokenMean => Times(k, c) / (k as real + 0.00000001)
    case SeqMeanTokenSumNorm => if width > 0 then Times(k, c) / width as real else 0.0
    case _ => Times(k, c)
  }

  lemma {:induction false} ConstantSequences(cfg: Config, exp: real -> real, mode: Mode, width: nat, rows: seq<Tokens>,
                                             k: nat, c: real)
    requires ConstantLoss(cfg, exp, rows, c) && SameCount(rows, k)
    ensures var losses := SequenceLosses(cfg, exp, mode, width, rows);
            && (forall i :: 0 <= i < |losses| ==> losses[i] == ConstantSequence(mode, width, k, c))
            && ((exists i :: 0 <= i < |rows| && MarkedPositions(rows[i]) != {}) ==> |losses| > 0)
  {
    if |rows| > 0 {
      ConstantRow(cfg, exp, rows[0], c);
      CountMarkedPositions(cfg, exp, rows[0]);
      assert forall i :: 0 <= i < |rows[1..]| ==> rows[1..][i] == rows[i + 1];
      ConstantSequences(cfg, exp, mode, width, rows[1..], k, c);
      if i :| 0 <= i < |rows| && MarkedPositions(rows[i]) != {} && i > 0 {
        assert rows[1..][i - 1] == rows[i];
      }
    }
  }

  /** If moreover `k` tokens are marked in every row that has any, the sequence modes give `c` times
      `k`, by itself, over the width, or over `k` kept away from zero. */
  lemma ConstantSequenceModes(cfg: Config, exp: real -> real, mode: Mode, width: nat, rows: seq<Tokens>, k: nat,
                              c: real)
    requires !mode.TokenMean? && ZeroOneMasks(rows) && ConstantLoss(cfg, exp, rows, c) && SameCount(rows, k)
    requires exists i :: 0 <= i < |rows| && MarkedPositions(rows[i]) != {}
    ensures AggLoss(cfg, exp, mode, width, rows, 1, None) == Ok(ConstantSequence(mode, width, k, c))
  {
    SequenceModesAreMeans(cfg, exp, mode, width, rows);
    ConstantSequences(cfg, exp, mode, width, rows, k, c);
    ConstantMean(SequenceLosses(cfg, exp, mode, width, rows));
  }

  /** The marked positions of a whole batch. */
  ghost function MarkedCells(rows: seq<Tokens>): set<(nat, nat)> {
    set i: nat, t: nat | i < |rows| && t < |rows[i]| && rows[i][t].mask == 1 :: (i, t)
  }

  ghost function MarkedRows(rows: seq<Tokens>): set<nat> {
    set i: nat | i < |rows| && exists t :: 0 <= t < |rows[i]| && rows[i][t].mask == 1
  }

  lemma {:induction false} RowMaskIs(row: Tokens)
    requires forall t :: 0 <= t < |row| ==> row[t].mask <= 1
    ensures RowMask(row) == |MarkedPositions(row)|
    ensures RowMask(row) > 0 <==> exists t :: 0 <= t < |row| && row[t].mask == 1
  {
    var cfg := Config(0.0, 0.0, 0.0);
    RowIsMarked(cfg, x => x, row);
    CountMarkedPositions(cfg, x => x, row);
    if t :| 0 <= t < |row| && row[t].mask == 1 {
      assert t in MarkedPositions(row);
    } else {
      assert MarkedPositions(row) == {};
    }
  }

  lemma LastRow(rows: seq<Tokens>)
    requires |rows| > 0
    ensures |MarkedCells(rows)| == |MarkedCells(rows[..|rows| - 1])| + |MarkedPositions(rows[|rows| - 1])|
  {
    var n := |rows| - 1;
    var own := set t: nat | t in MarkedPositions(rows[n]) :: (n, t);
    PairedSize(n, MarkedPositions(rows[n]), own);
    assert MarkedCells(rows) == MarkedCells(rows[..n]) + own;
    assert MarkedCells(rows[..n]) !! own;
  }

  lemma {:induction false} PairedSize(n: nat, a: set<nat>, b: set<(nat, nat)>)
    requires b == set t | t in a :: (n, t)
    ensures |a| == |b|
  {
    if x :| x in a {
      PairedSize(n, a - {x}, b - {(n, x)});
    } else {
      assert b == {};
    }
  }

  lemma LastCounts(rows: seq<Tokens>, mode: Mode)
    requires |rows| > 0 && ZeroOneMasks(rows)
    ensures LocalCount(mode, rows)
         == LocalCount(mode, rows[..|rows| - 1])
            + if mode.TokenMean? then |MarkedPositions(rows[|rows| - 1])|
              else if MarkedPositions(rows[|rows| - 1]) != {} then 1 else 0
  {
    var n := |rows| - 1;
    RowMaskIs(rows[n]);
    assert rows == rows[..n] + [rows[n]];
    LocalCountConcat(mode, rows[..n], [rows[n]]);
    OneRowCount(mode, rows[n]);
    assert |MarkedPositions(rows[n])| > 0 <==> MarkedPositions(rows[n]) != {};
  }

  lemma OneRowCount(mode: Mode, row: Tokens)
    ensures LocalCount(mode, [row]) == if mode.TokenMean? then RowMask(row) else if RowMask(row) > 0 then 1 else 0
  {
    assert [row][1..] == [];
    assert MaskTotal([row]) == RowMask(row) + MaskTotal([]);
    assert NonEmptyRows([row]) == (if RowMask(row) > 0 then 1 else 0) + NonEmptyRows([]);
  }

  lemma LastMarkedRow(rows: seq<Tokens>)
    requires |rows| > 0
    ensures |MarkedRows(rows)|
         == |MarkedRows(rows[..|rows| - 1])| + if MarkedPositions(rows[|rows| - 1]) != {} then 1 else 0
  {
    var n := |rows| - 1;
    if t :| t in MarkedPositions(rows[n]) {
      assert MarkedRows(rows) == MarkedRows(rows[..n]) + {n};
    } else {
      forall t | 0 <= t < |rows[n]| ensures rows[n][t].mask != 1 {
        assert t !in MarkedPositions(rows[n]);
      }
      assert MarkedRows(rows) == MarkedRows(rows[..n]);
    }
  }

  lemma {:induction false} CountsAre(rows: seq<Tokens>, mode: Mode)
    requires ZeroOneMasks(rows)
    ensures LocalCount(mode, rows) == if mode.TokenMean? then |MarkedCells(rows)| else |MarkedRows(rows)|
  {
    if |rows| == 0 {
      assert MarkedCells(rows) == {} && MarkedRows(rows) == {};
    } else {
      CountsAre(rows[..|rows| - 1], mode);
      LastCounts(rows, mode);
      LastRow(rows);
      LastMarkedRow(rows);
    }
  }

  /** The count every rank is given is the number of marked tokens of the whole batch in
      token-mean, and the number of rows with a marked token in the sequence modes. */
  lemma GlobalCountCounts(mode: Mode, shards: seq<seq<TrainRow>>)
    requires ZeroOneMasks(TokensOf(Flatten(shards)))
    ensures GlobalCount(mode, shards)
         == var rows := TokensOf(Flatten(shards));
            if mode.TokenMean? then |MarkedCells(rows)| else |MarkedRows(rows)|
  {
    GlobalCountIs(mode, shards);
    CountsAre(TokensOf(Flatten(shards)), mode);
  }

  /** Aggregating one rank's part without the global count is refused; with it, or on one process,
      there is always a loss. */
  lemma CountIsNeeded(cfg: Config, exp: real -> real, mode: Mode, width: nat, rows: seq<Tokens>, dp: nat,
                      count: Option<nat>)
    ensures AggLoss(cfg, exp, mode, width, rows, dp, count).Err? <==> count == None && dp > 1
    ensures AggLoss(cfg, exp, mode, width, rows, dp, count).Err? ==>
              AggLoss(cfg, exp, mode, width, rows, dp, count).error == ValueError
  {
  }

  // ---------------------------------------------------------------------
  // What one token's loss is
  // ---------------------------------------------------------------------

  /** With a positive advantage the probability ratio counts up to the upper clip only; with a
      negative one it counts from the lower clip on, and no further than the cap if there is one. */
  lemma TokenLossByAdvantage(cfg: Config, exp: real -> real, t: Token)
    requires cfg.clipLow >= 0.0 && cfg.clipHigh >= 0.0 && -20.0 <= t.logp - t.oldLogp <= 20.0
    ensures var ratio := exp(t.logp - t.oldLogp);
            && (t.advantage >= 0.0 ==>
                  var counted := if ratio <= 1.0 + cfg.clipHigh then ratio else 1.0 + cfg.clipHigh;
                  TokenLoss(cfg, exp, t) == Product(-Product(t.advantage, counted), t.isWeight))
            && (t.advantage < 0.0 ==>
                  var floor := if ratio >= 1.0 - cfg.clipLow then ratio else 1.0 - cfg.clipLow;
                  var counted := if cfg.clipC > 0.0 && floor > cfg.clipC then cfg.clipC else floor;
                  TokenLoss(cfg, exp, t) == Product(-Product(t.advantage, counted), t.isWeight))
  {
    TokenLossFactored(cfg, exp, t, exp(t.logp - t.oldLogp));
  }

  /** The ratio that counts, by the sign of the advantage. */
  function CountedRatio(cfg: Config, ratio: real, positive: bool): real {
    var clipped := Clamp(ratio, 1.0 - cfg.clipLow, 1.0 + cfg.clipHigh);
    if positive then MinReal(ratio, clipped)
    else if cfg.clipC > 0.0 then MinReal(cfg.clipC, MaxReal(ratio, clipped)) else MaxReal(ratio, clipped)
  }

  lemma TokenLossFactored(cfg: Config, exp: real -> real, t: Token, ratio: real)
    requires ratio == exp(Clamp(t.logp - t.oldLogp, -20.0, 20.0))
    ensures TokenLoss(cfg, exp, t)
         == Product(-Product(t.advantage, CountedRatio(cfg, ratio, t.advantage >= 0.0)), t.isWeight)
  {
    var clipped := Clamp(ratio, 1.0 - cfg.clipLow, 1.0 + cfg.clipHigh);
    FactorOut(t.advantage, ratio, clipped);
    FactorOut(t.advantage, cfg.clipC, MaxReal(ratio, clipped));
  }

  lemma FactorOut(a: real, x: real, y: real)
    ensures a >= 0.0 ==> MaxReal(-Product(a, x), -Product(a, y)) == -Product(a, MinReal(x, y))
    ensures a < 0.0 ==> MaxReal(-Product(a, x), -Product(a, y)) == -Product(a, MaxReal(x, y))
    ensures a < 0.0 ==> MinReal(-Product(a, x), -Product(a, y)) == -Product(a, MinReal(x, y))
  {
    if x <= y {
      Ordered(a, x, y);
    } else {
      Ordered(a, y, x);
    }
  }

  lemma Ordered(a: real, x: real, y: real)
    requires x <= y
    ensures if a >= 0.0 then Product(a, x) <= Product(a, y) else Product(a, x) >= Product(a, y)
  {
  }

  // ---------------------------------------------------------------------
  // The accumulation loop
  // ---------------------------------------------------------------------

  lemma {:induction false} RankLossSnoc(
    cfg: Config, exp: real -> real, mode: Mode, width: nat, minis: seq<seq<TrainRow>>, k: nat, ranks: nat, count: nat)
    requires k < |minis|
    ensures RankLoss(cfg, exp, mode, width, minis[..k + 1], ranks, count)
         == RankLoss(cfg, exp, mode, width, minis[..k], ranks, count)
            + AggLoss(cfg, exp, mode, width, TokensOf(minis[k]), ranks, Some(count)).value
  {
    if k > 0 {
      RankLossSnoc(cfg, exp, mode, width, minis[1..], k - 1, ranks, count);
      assert minis[..k + 1][1..] == minis[1..][..k] && minis[..k][1..] == minis[1..][..k - 1];
    }
  }

  /** One rank's part of a step: dummies until it has as many passes as the busiest rank,
      then one loss per mini-batch, accumulated. */
  method AccumulateRank(
    cfg: Config, exp: real -> real, mode: Mode, width: nat, minis: seq<seq<TrainRow>>, globalMax: nat, ranks: nat,
    count: nat)
    returns (r: Result<real>)
    ensures |minis| > 0 ==>
              r == Ok(RankLoss(cfg, exp, mode, width, Padded(minis, globalMax), ranks, count))
    ensures |minis| == 0 && globalMax > 0 ==> r == Err(IndexError)
  {
    var batches := minis;
    if |batches| < globalMax {
      if |batches| == 0 {
        return Err(IndexError);
      }
      var dummy := Dummy(minis[|minis| - 1]);
      while |batches| < globalMax
        invariant |minis| <= |batches| <= globalMax
        invariant batches == minis + seq(|batches| - |minis|, _ => dummy)
      {
        batches := batches + [dummy];
      }
    }
    var loss := 0.0;
    for i := 0 to |batches|
      invariant loss == RankLoss(cfg, exp, mode, width, batches[..i], ranks, count)
    {
      var m := AggLoss(cfg, exp, mode, width, TokensOf(batches[i]), ranks, Some(count));
      RankLossSnoc(cfg, exp, mode, width, batches, i, ranks, count);
      loss := loss + m.value;
    }
    assert batches[..|batches|] == batches;
    assert |minis| > 0 ==> batches == Padded(minis, globalMax);
    r := Ok(loss);
  }
}
