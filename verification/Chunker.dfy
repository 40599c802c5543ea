/** Cutting rows into chunks that respect a token budget. */
module Chunker {
  import opened Arith
  import Balancer
  import opened DataProto
  import opened Protocol
  import opened RowOperations
  import opened Seqs
  import opened Wrappers

  /** Rows `start` up to, not including, `end`. */
  datatype Range = Range(start: nat, end: nat)

  /** Where the chunk that began at `start` and holds `tok` tokens so far stops growing. */
  function GreedyEnd(lens: seq<nat>, budget: int, start: nat, end: nat, tok: nat): (e: nat)
    requires start <= end <= |lens|
    ensures end <= e <= |lens|
    decreases |lens| - end
  {
    if end == |lens| then end
    else if tok + lens[end] > budget && end > start then end
    else GreedyEnd(lens, budget, start, end + 1, tok + lens[end])
  }

  lemma GreedyEndMoves(lens: seq<nat>, budget: int, start: nat)
    requires start < |lens|
    ensures GreedyEnd(lens, budget, start, start, 0) > start
  {
  }

  function GreedyChunks(lens: seq<nat>, budget: int, start: nat): seq<Range>
    requires start <= |lens|
    decreases |lens| - start
  {
    if start == |lens| then []
    else
      GreedyEndMoves(lens, budget, start);
      var end := GreedyEnd(lens, budget, start, start, 0);
      [Range(start, end)] + GreedyChunks(lens, budget, end)
  }

  // ---------------------------------------------------------------------
  // What the chunks satisfy
  // ---------------------------------------------------------------------

  /** Non-empty ranges covering `from..n`, one after the other. */
  ghost predicate Partition(chunks: seq<Range>, from: nat, n: nat) {
    if |chunks| == 0 then from == n
    else
      && chunks[0].start == from < chunks[0].end <= n
      && Partition(chunks[1..], chunks[0].end, n)
  }

  function Tokens(lens: seq<nat>, start: nat, end: nat): nat
    requires start <= end <= |lens|
  {
    Sum(lens[start..end])
  }

  /** A chunk is one row or fits the budget. */
  ghost predicate Legal(lens: seq<nat>, budget: int, c: Range)
    requires c.start <= c.end <= |lens|
  {
    c.end == c.start + 1 || Tokens(lens, c.start, c.end) <= budget
  }

  ghost predicate AllLegal(lens: seq<nat>, budget: int, chunks: seq<Range>) {
    forall i :: 0 <= i < |chunks| ==> chunks[i].start <= chunks[i].end <= |lens| && Legal(lens, budget, chunks[i])
  }

  lemma TokensStep(lens: seq<nat>, start: nat, end: nat)
    requires start <= end < |lens|
    ensures Tokens(lens, start, end + 1) == Tokens(lens, start, end) + lens[end]
  {
    assert lens[start..end + 1] == lens[start..end] + [lens[end]];
    SumConcat(lens[start..end], [lens[end]]);
  }

  lemma TokensSplit(lens: seq<nat>, a: nat, b: nat, c: nat)
    requires a <= b <= c <= |lens|
    ensures Tokens(lens, a, c) == Tokens(lens, a, b) + Tokens(lens, b, c)
  {
    assert lens[a..c] == lens[a..b] + lens[b..c];
    SumConcat(lens[a..b], lens[b..c]);
  }

  lemma {:induction false} GreedyEndFits(lens: seq<nat>, budget: int, start: nat, end: nat, tok: nat)
    requires start <= end <= |lens| && tok == Tokens(lens, start, end)
    requires end <= start + 1 || tok <= budget
    ensures var e := GreedyEnd(lens, budget, start, end, tok);
            && (e <= start + 1 || Tokens(lens, start, e) <= budget)
            && (e < |lens| ==> Tokens(lens, start, e) + lens[e] > budget)
    decreases |lens| - end
  {
    if end < |lens| && !(tok + lens[end] > budget && end > start) {
      TokensStep(lens, start, end);
      GreedyEndFits(lens, budget, start, end + 1, tok + lens[end]);
    }
  }

  /** Greedy chunks partition the rows, respect the budget, and could not have grown. */
  lemma {:induction false} GreedyIsLegal(lens: seq<nat>, budget: int, start: nat)
    requires start <= |lens|
    ensures var chunks := GreedyChunks(lens, budget, start);
            && Partition(chunks, start, |lens|) && AllLegal(lens, budget, chunks)
            && forall i :: 0 <= i < |chunks| && chunks[i].end < |lens| ==>
                             Tokens(lens, chunks[i].start, chunks[i].end) + lens[chunks[i].end] > budget
    decreases |lens| - start
  {
    if start < |lens| {
      GreedyEndMoves(lens, budget, start);
      assert lens[start..start] == [];
      GreedyEndFits(lens, budget, start, start, 0);
      GreedyIsLegal(lens, budget, GreedyEnd(lens, budget, start, start, 0));
    }
  }

  lemma {:induction false} GreedyReaches(lens: seq<nat>, budget: int, start: nat, end: nat, goal: nat)
    requires start <= end <= goal <= |lens| && start < goal
    requires goal == start + 1 || Tokens(lens, start, goal) <= budget
    ensures GreedyEnd(lens, budget, start, end, Tokens(lens, start, end)) >= goal
    decreases goal - end
  {
    if end < goal {
      TokensStep(lens, start, end);
      TokensSplit(lens, start, end + 1, goal);
      GreedyReaches(lens, budget, start, end + 1, goal);
    }
  }

  /** Main result: no way of cutting the rows, in this order, into legal chunks uses fewer
      chunks than the greedy one; not even one that has a head start. */
  lemma {:induction false} GreedyIsOptimal(lens: seq<nat>, budget: int, start: nat, other: seq<Range>, from: nat)
    requires from <= start <= |lens|
    requires Partition(other, from, |lens|) && AllLegal(lens, budget, other)
    ensures |GreedyChunks(lens, budget, start)| <= |other|
    decreases |other|
  {
    if start < |lens| {
      var first := other[0];
      if start >= first.end {
        GreedyIsOptimal(lens, budget, start, other[1..], first.end);
      } else {
        TokensSplit(lens, first.start, start, first.end);
        assert lens[start..start] == [];
        GreedyReaches(lens, budget, start, start, first.end);
        GreedyEndMoves(lens, budget, start);
        GreedyIsOptimal(lens, budget, GreedyEnd(lens, budget, start, start, 0), other[1..], first.end);
      }
    }
  }

  lemma IntMulPred(k: int, m: int)
    ensures k * m == (k - 1) * m + m
  {
  }

  lemma {:induction false} GreedyCountStep(lens: seq<nat>, budget: int, start: nat)
    requires start < |lens|
    ensures var chunks := GreedyChunks(lens, budget, start);
            && |chunks| > 0
            && (|chunks| - 1) * (budget + 1) + Tokens(lens, start, chunks[0].end) <= 2 * Tokens(lens, start, |lens|)
    decreases |lens| - start
  {
    GreedyEndMoves(lens, budget, start);
    var end := GreedyEnd(lens, budget, start, start, 0);
    TokensSplit(lens, start, end, |lens|);
    if end < |lens| {
      GreedyCountStep(lens, budget, end);
      assert lens[start..start] == [];
      GreedyEndFits(lens, budget, start, start, 0);
      var rest := GreedyChunks(lens, budget, end);
      TokensSplit(lens, end, end + 1, rest[0].end);
      assert lens[end..end + 1] == [lens[end]];
      assert Tokens(lens, end, end + 1) == lens[end];
      IntMulPred(|rest|, budget + 1);
    }
  }

  /** Two neighbouring chunks together exceed the budget, so there are fewer than twice
      the tokens over the budget, plus one. */
  lemma GreedyCount(lens: seq<nat>, budget: int)
    requires |GreedyChunks(lens, budget, 0)| >= 2
    ensures (|GreedyChunks(lens, budget, 0)| - 1) * budget < 2 * Sum(lens)
  {
    GreedyCountStep(lens, budget, 0);
    var m := |GreedyChunks(lens, budget, 0)| - 1;
    assert lens[0..|lens|] == lens;
    assert m * (budget + 1) == m * budget + m;
  }

  // ---------------------------------------------------------------------
  // The loop
  // ---------------------------------------------------------------------

  method ChunkByTokens(lens: seq<nat>, budget: int) returns (chunks: seq<Range>)
    ensures chunks == GreedyChunks(lens, budget, 0)
  {
    chunks := [];
    var start, n := 0, |lens|;
    while start < n
      invariant start <= n
      invariant chunks + GreedyChunks(lens, budget, start) == GreedyChunks(lens, budget, 0)
    {
      var tokCount: nat, end := 0, start;
      while end < n
        invariant start <= end <= n
        invariant GreedyEnd(lens, budget, start, start, 0) == GreedyEnd(lens, budget, start, end, tokCount)
      {
        var sl := lens[end];
        if tokCount + sl > budget && end > start {
          break;
        }
        tokCount := tokCount + sl;
        end := end + 1;
      }
      GreedyEndMoves(lens, budget, start);
      assert GreedyChunks(lens, budget, start) == [Range(start, end)] + GreedyChunks(lens, budget, end);
      assert chunks + ([Range(start, end)] + GreedyChunks(lens, budget, end))
          == (chunks + [Range(start, end)]) + GreedyChunks(lens, budget, end);
      chunks := chunks + [Range(start, end)];
      start := end;
    }
  }

  // ---------------------------------------------------------------------
  // Forward passes in lockstep
  // ---------------------------------------------------------------------

  function ChunkOutputs<R, U>(f: R -> U, rows: seq<R>, chunks: seq<Range>): seq<seq<U>>
    requires forall i :: 0 <= i < |chunks| ==> chunks[i].start <= chunks[i].end <= |rows|
  {
    seq(|chunks|, i requires 0 <= i < |chunks| => Map(f, rows[chunks[i].start..chunks[i].end]))
  }

  lemma {:induction false} PartitionBounds(chunks: seq<Range>, from: nat, n: nat)
    requires Partition(chunks, from, n)
    ensures from <= n
    ensures forall i :: 0 <= i < |chunks| ==> from <= chunks[i].start < chunks[i].end <= n
  {
    if |chunks| > 0 {
      PartitionBounds(chunks[1..], chunks[0].end, n);
    }
  }

  lemma {:induction false} ChunksRowwise<R, U>(f: R -> U, rows: seq<R>, chunks: seq<Range>, from: nat)
    requires Partition(chunks, from, |rows|) && from <= |rows|
    requires forall i :: 0 <= i < |chunks| ==> chunks[i].start <= chunks[i].end <= |rows|
    ensures Flatten(ChunkOutputs(f, rows, chunks)) == Map(f, rows[from..])
  {
    if |chunks| > 0 {
      ChunksRowwise(f, rows, chunks[1..], chunks[0].end);
      assert ChunkOutputs(f, rows, chunks)[1..] == ChunkOutputs(f, rows, chunks[1..]);
      assert rows[from..] == rows[chunks[0].start..chunks[0].end] + rows[chunks[0].end..];
    }
  }

  ghost function AtLeast(own: nat, globalMax: nat): nat {
    if globalMax > own then globalMax else own
  }

  ghost predicate InRows(chunks: seq<Range>, n: nat) {
    forall i :: 0 <= i < |chunks| ==> chunks[i].start <= chunks[i].end <= n
  }

  /** Repeats the last chunk until there are as many as on the busiest rank. A rank without
      rows has no chunk to repeat. */
  method EqualizeCount(chunks: seq<Range>, globalMax: nat, ghost n: nat) returns (r: Result<seq<Range>>)
    requires InRows(chunks, n)
    ensures r.Err? <==> |chunks| == 0 && globalMax > 0
    ensures r.Ok? ==> chunks <= r.value && |r.value| == AtLeast(|chunks|, globalMax) && InRows(r.value, n)
  {
    var all := chunks;
    while |all| < globalMax
      invariant chunks <= all && InRows(all, n)
      invariant |all| <= AtLeast(|chunks|, globalMax) && (|chunks| == 0 ==> |all| == 0)
    {
      if |all| == 0 {
        return Err(IndexError);
      }
      all := all + [all[|all| - 1]];
    }
    r := Ok(all);
  }

  /** Runs every chunk and keeps what the first `realCount` return. */
  method RunPasses<R, U>(f: R -> U, rows: seq<R>, chunks: seq<Range>, realCount: nat)
      returns (parts: seq<seq<U>>, passes: nat)
    requires realCount <= |chunks| && InRows(chunks, |rows|)
    ensures passes == |chunks| && parts == ChunkOutputs(f, rows, chunks[..realCount])
  {
    parts, passes := [], 0;
    for ci := 0 to |chunks|
      invariant passes == ci
      invariant parts == ChunkOutputs(f, rows, chunks[..if ci < realCount then ci else realCount])
    {
      var pass := Map(f, rows[chunks[ci].start..chunks[ci].end]);
      passes := passes + 1;
      if ci < realCount {
        parts := parts + [pass];
      }
    }
  }

  /** Forward passes over one rank's rows. `globalMax` is the largest chunk count of any
      rank, when there are several: every rank then runs that many passes, and the result is
      still the row-wise output in order. Only a rank without rows fails. */
  method ForwardAll<R, U>(f: R -> U, rows: seq<R>, lens: seq<nat>, budget: int, globalMax: Option<nat>)
      returns (out: Result<seq<U>>, passes: nat)
    requires |lens| == |rows|
    ensures |rows| > 0 ==> out == Ok(Map(f, rows))
    ensures |rows| > 0 ==>
              passes == AtLeast(|GreedyChunks(lens, budget, 0)|, if globalMax.Some? then globalMax.value else 0)
    ensures |rows| == 0 ==> out.Err?
  {
    var own := ChunkByTokens(lens, budget);
    GreedyIsLegal(lens, budget, 0);
    PartitionBounds(own, 0, |rows|);
    var chunks := own;
    if globalMax.Some? {
      var equal := EqualizeCount(own, globalMax.value, |rows|);
      if equal.Err? {
        return Err(equal.error), 0;
      }
      chunks := equal.value;
    }
    var parts;
    parts, passes := RunPasses(f, rows, chunks, |own|);
    assert chunks[..|own|] == own;
    if |parts| == 0 {
      return Err(RuntimeError), passes;
    }
    ChunksRowwise(f, rows, own, 0);
    assert rows[0..] == rows;
    out := Ok(Flatten(parts));
  }

  // ---------------------------------------------------------------------
  // Token-budget mini-batches
  // ---------------------------------------------------------------------

  ghost predicate Ascending(lens: seq<nat>, order: seq<nat>) {
    && IsPermutation(order, |lens|) && InRange(order, |lens|)
    && forall i, j :: 0 <= i < j < |order| ==> lens[order[i]] <= lens[order[j]]
  }

  /** Mini-batches carry the tensor columns only. */
  function TensorsOnly(b: Batch): Batch {
    Batch(b.size, b.tensors, map[], b.meta)
  }

  function RangeRows(chunks: seq<Range>): seq<seq<nat>>
    requires forall i :: 0 <= i < |chunks| ==> chunks[i].start <= chunks[i].end
  {
    seq(|chunks|, i requires 0 <= i < |chunks| => Span(chunks[i].start, chunks[i].end))
  }

  lemma {:induction false} RangesCover(chunks: seq<Range>, from: nat, n: nat)
    requires Partition(chunks, from, n) && from <= n
    requires forall i :: 0 <= i < |chunks| ==> chunks[i].start <= chunks[i].end <= n
    ensures Flatten(RangeRows(chunks)) == Span(from, n) && AllInRange(RangeRows(chunks), n)
  {
    if |chunks| > 0 {
      RangesCover(chunks[1..], chunks[0].end, n);
      assert RangeRows(chunks)[1..] == RangeRows(chunks[1..]);
      forall i | 0 <= i < |chunks| ensures InRange(RangeRows(chunks)[i], n) {
        assert chunks[i].end <= n;
      }
    }
  }

  ghost predicate Trainable(b: Batch) {
    Valid(b) && ATTENTION_MASK in b.tensors && IsMask(b.tensors[ATTENTION_MASK])
  }

  /** The rows of each mini-batch, as positions in the original batch. */
  ghost function MiniBatchRows(b: Batch, maxTokens: int, order: seq<nat>): seq<seq<nat>>
    requires Trainable(b) && InRange(order, b.size)
  {
    var lens := Gather(TokenCounts(b.tensors[ATTENTION_MASK]), order);
    var chunks := GreedyChunks(lens, maxTokens, 0);
    GreedyIsLegal(lens, maxTokens, 0);
    PartitionBounds(chunks, 0, |lens|);
    Gathers(order, RangeRows(chunks))
  }

  /** Rows `from` up to `n`, `size` at a time; the last range may be shorter. */
  function FixedChunks(n: nat, size: nat, from: nat): (chunks: seq<Range>)
    requires size > 0 && from <= n
    decreases n - from
  {
    if from == n then []
    else
      var end := if from + size < n then from + size else n;
      [Range(from, end)] + FixedChunks(n, size, end)
  }

  lemma {:induction false} FixedPartition(n: nat, size: nat, from: nat)
    requires size > 0 && from <= n
    ensures Partition(FixedChunks(n, size, from), from, n)
    decreases n - from
  {
    if from < n {
      FixedPartition(n, size, if from + size < n then from + size else n);
    }
  }

  /** The rows of each fixed-size mini-batch. */
  ghost function FixedRows(n: nat, size: nat): (rows: seq<seq<nat>>)
    requires size > 0
    ensures AllInRange(rows, n) && Flatten(rows) == Iota(n)
  {
    assert Span(0, n) == Iota(n);
    FixedRowsFrom(n, size, 0)
  }

  /** Mini-batches of a fixed size, in order and with their ragged columns. */
  method MiniBatches(b: Batch, size: int) returns (r: Result<seq<Batch>>)
    requires Valid(b)
    ensures size == 0 ==> r == Err(ValueError)
    ensures size < 0 ==> r == Ok([])
    ensures size > 0 ==> r == Ok(Pieces(b, FixedRows(b.size, size)))
  {
    if size <= 0 {
      return if size == 0 then Err(ValueError) else Ok([]);
    }
    var batches: seq<Batch>, start := [], 0;
    while start < b.size
      invariant start <= b.size
      invariant batches + FixedSlices(b, size, start) == FixedSlices(b, size, 0)
      decreases b.size - start
    {
      var end := if start + size < b.size then start + size else b.size;
      MoveFirst(batches, Sliced(b, start, end), FixedSlices(b, size, end));
      batches := batches + [Sliced(b, start, end)];
      start := end;
    }
    assert batches + [] == batches;
    FixedSlicesArePieces(b, size, 0);
    r := Ok(batches);
  }

  /** The mini-batches from row `from` on. */
  ghost function FixedSlices(b: Batch, size: nat, from: nat): seq<Batch>
    requires Valid(b) && size > 0 && from <= b.size
    decreases b.size - from
  {
    if from == b.size then []
    else
      var end := if from + size < b.size then from + size else b.size;
      [Sliced(b, from, end)] + FixedSlices(b, size, end)
  }

  lemma MoveFirst<T>(done: seq<T>, x: T, rest: seq<T>)
    ensures done + ([x] + rest) == done + [x] + rest
  {
  }

  /** The rows of each mini-batch from row `from` on. */
  ghost function FixedRowsFrom(n: nat, size: nat, from: nat): (rows: seq<seq<nat>>)
    requires size > 0 && from <= n
    ensures AllInRange(rows, n) && Flatten(rows) == Span(from, n)
  {
    FixedPartition(n, size, from);
    PartitionBounds(FixedChunks(n, size, from), from, n);
    RangesCover(FixedChunks(n, size, from), from, n);
    RangeRows(FixedChunks(n, size, from))
  }

  lemma FixedRowsCons(n: nat, size: nat, from: nat, end: nat)
    requires size > 0 && from < n && end == if from + size < n then from + size else n
    ensures FixedRowsFrom(n, size, from) == [Span(from, end)] + FixedRowsFrom(n, size, end)
  {
    var rest := FixedChunks(n, size, end);
    FixedPartition(n, size, end);
    PartitionBounds(rest, end, n);
    assert RangeRows([Range(from, end)] + rest) == [Span(from, end)] + RangeRows(rest);
  }

  lemma {:induction false} FixedSlicesArePieces(b: Batch, size: nat, from: nat)
    requires Valid(b) && size > 0 && from <= b.size
    ensures FixedSlices(b, size, from) == Pieces(b, FixedRowsFrom(b.size, size, from))
    decreases b.size - from
  {
    if from < b.size {
      var end := if from + size < b.size then from + size else b.size;
      FixedSlicesArePieces(b, size, end);
      FixedRowsCons(b.size, size, from, end);
      SlicedIsReindex(b, from, end);
      PiecesCons(b, Span(from, end), FixedRowsFrom(b.size, size, end));
    }
  }

  /** Putting fixed-size mini-batches together gives the batch back. */
  lemma FixedCover(b: Batch, size: nat)
    requires Valid(b) && b.size > 0 && size > 0
    ensures Merge(Pieces(b, FixedRows(b.size, size))) == Ok(b)
  {
    RejoinPieces(b, FixedRows(b.size, size));
    ReindexIota(b);
  }

  /** Rows sorted by length (`order` is what the sort returned), then chunked greedily. Without
      a token budget mini-batches of the size `fallback`. */
  method DynamicMiniBatches(b: Batch, maxTokens: int, fallback: int, order: seq<nat>)
      returns (r: Result<seq<Batch>>)
    requires Valid(b)
    requires maxTokens > 0 ==> Trainable(b) && Ascending(TokenCounts(b.tensors[ATTENTION_MASK]), order)
    ensures maxTokens <= 0 && fallback == 0 ==> r == Err(ValueError)
    ensures maxTokens <= 0 && fallback < 0 ==> r == Ok([])
    ensures maxTokens <= 0 && fallback > 0 ==> r == Ok(Pieces(b, FixedRows(b.size, fallback)))
    ensures maxTokens > 0 ==> && Valid(TensorsOnly(b)) && AllInRange(MiniBatchRows(b, maxTokens, order), b.size)
                              && r == Ok(Pieces(TensorsOnly(b), MiniBatchRows(b, maxTokens, order)))
  {
    if maxTokens <= 0 {
      r := MiniBatches(b, fallback);
      return;
    }
    TensorsOnlyValid(b);
    var lens := Gather(TokenCounts(b.tensors[ATTENTION_MASK]), order);
    var chunks := ChunkByTokens(lens, maxTokens);
    GreedyIsLegal(lens, maxTokens, 0);
    PartitionBounds(chunks, 0, |lens|);
    var batches := SliceAll(TensorsOnly(b), order, chunks);
    SlicesArePieces(TensorsOnly(b), order, chunks, batches);
    r := Ok(batches);
  }

  /** The rows of each chunk, as positions before sorting. */
  ghost predicate AreSlices(t: Batch, order: seq<nat>, chunks: seq<Range>, batches: seq<Batch>)
    requires Valid(t) && InRange(order, t.size)
    requires forall i :: 0 <= i < |chunks| ==> chunks[i].start <= chunks[i].end <= |order|
  {
    && |batches| == |chunks|
    && forall i :: 0 <= i < |chunks| ==>
         var rows := Gather(order, Span(chunks[i].start, chunks[i].end));
         InRange(rows, t.size) && batches[i] == Reindex(t, rows)
  }

  lemma SlicesArePieces(t: Batch, order: seq<nat>, chunks: seq<Range>, batches: seq<Batch>)
    requires Valid(t) && InRange(order, t.size)
    requires forall i :: 0 <= i < |chunks| ==> chunks[i].start <= chunks[i].end <= |order|
    requires AreSlices(t, order, chunks, batches)
    ensures AllInRange(RangeRows(chunks), |order|)
    ensures AllInRange(Gathers(order, RangeRows(chunks)), t.size)
    ensures batches == Pieces(t, Gathers(order, RangeRows(chunks)))
  {
  }

  /** The batch in the given order, cut into the chunks. */
  method SliceAll(t: Batch, order: seq<nat>, chunks: seq<Range>) returns (batches: seq<Batch>)
    requires Valid(t) && t.ragged == map[] && InRange(order, t.size)
    requires forall i :: 0 <= i < |chunks| ==> chunks[i].start <= chunks[i].end <= |order|
    ensures AreSlices(t, order, chunks, batches)
  {
    var sorted := Reindex(t, order);
    batches := [];
    for i := 0 to |chunks|
      invariant |batches| == i
      invariant forall j :: 0 <= j < i ==>
                  var rows := Gather(order, Span(chunks[j].start, chunks[j].end));
                  InRange(rows, t.size) && batches[j] == Reindex(t, rows)
    {
      SliceIsReindex(t, order, chunks[i].start, chunks[i].end);
      batches := batches + [SlicedTensors(sorted, chunks[i].start, chunks[i].end)];
    }
  }

  lemma TensorsOnlyValid(b: Batch)
    requires Trainable(b)
    ensures Valid(TensorsOnly(b))
  {
    assert ATTENTION_MASK in b.tensors.Keys;
  }

  function SlicedTensors(b: Batch, start: nat, end: nat): Batch
    requires Valid(b) && start <= end <= b.size
  {
    Batch(end - start, map k | k in b.tensors :: b.tensors[k].Slice(start, end), map[], b.meta)
  }

  lemma SliceIsReindex(t: Batch, order: seq<nat>, start: nat, end: nat)
    requires Valid(t) && t.ragged == map[] && InRange(order, t.size) && start <= end <= |order|
    ensures InRange(Gather(order, Span(start, end)), t.size)
    ensures SlicedTensors(Reindex(t, order), start, end) == Reindex(t, Gather(order, Span(start, end)))
  {
    var mini := SlicedTensors(Reindex(t, order), start, end);
    forall k | k in t.tensors
      ensures mini.tensors[k] == t.tensors[k].Take(Gather(order, Span(start, end)))
    {
      GatherCompose(t.tensors[k].rows, order, Span(start, end));
      GatherSpan(Gather(t.tensors[k].rows, order), start, end);
    }
    ReindexIs(t, Gather(order, Span(start, end)), mini);
  }

  /** Main result: the mini-batches hold every row exactly once. */
  lemma MiniBatchesCover(b: Batch, maxTokens: int, order: seq<nat>)
    requires Trainable(b) && b.size > 0
    requires Ascending(TokenCounts(b.tensors[ATTENTION_MASK]), order)
    ensures var rows := MiniBatchRows(b, maxTokens, order);
            && AllInRange(rows, b.size) && Flatten(rows) == order && IsPermutation(Flatten(rows), b.size)
            && Valid(TensorsOnly(b))
            && Merge(Pieces(TensorsOnly(b), rows)) == Ok(Reindex(TensorsOnly(b), order))
  {
    var lens := Gather(TokenCounts(b.tensors[ATTENTION_MASK]), order);
    var chunks := GreedyChunks(lens, maxTokens, 0);
    PermutationInRange(order, b.size);
    GreedyIsLegal(lens, maxTokens, 0);
    PartitionBounds(chunks, 0, b.size);
    RangesCover(chunks, 0, b.size);
    FlattenGathers(order, RangeRows(chunks));
    assert Span(0, b.size) == Iota(b.size);
    GatherIota(order);
    TensorsOnlyValid(b);
    RejoinPieces(TensorsOnly(b), MiniBatchRows(b, maxTokens, order));
  }

  lemma {:induction false} PartitionNext(chunks: seq<Range>, from: nat, n: nat, m: nat)
    requires Partition(chunks, from, n) && m < |chunks|
    ensures chunks[m].end == if m + 1 < |chunks| then chunks[m + 1].start else n
  {
    if m > 0 {
      PartitionNext(chunks[1..], chunks[0].end, n, m - 1);
    }
  }

  lemma TokensAreLoad(lens: seq<nat>, start: nat, end: nat)
    requires start <= end <= |lens|
    ensures InRange(Span(start, end), |lens|) && Tokens(lens, start, end) == Balancer.Load(lens, Span(start, end))
  {
    GatherSpan(lens, start, end);
  }

  ghost predicate AscendingRows(lens: seq<nat>, rows: seq<nat>)
    requires InRange(rows, |lens|)
  {
    forall i, j :: 0 <= i < j < |rows| ==> lens[rows[i]] <= lens[rows[j]]
  }

  lemma RangeAscends(lens: seq<nat>, order: seq<nat>, start: nat, end: nat)
    requires Ascending(lens, order) && start <= end <= |order|
    ensures InRange(Gather(order, Span(start, end)), |lens|)
    ensures AscendingRows(lens, Gather(order, Span(start, end)))
  {
  }

  /** The rows of one chunk of the length-sorted rows. */
  lemma ChunkFits(lens: seq<nat>, order: seq<nat>, budget: int, m: nat)
    requires Ascending(lens, order) && |order| == |lens|
    requires m < |GreedyChunks(Gather(lens, order), budget, 0)|
    ensures var chunks := GreedyChunks(Gather(lens, order), budget, 0);
            chunks[m].start < chunks[m].end <= |order|
    ensures var chunks := GreedyChunks(Gather(lens, order), budget, 0);
            var rows := Gather(order, Span(chunks[m].start, chunks[m].end));
            && InRange(rows, |lens|) && AscendingRows(lens, rows)
            && (|rows| == 1 || Balancer.Load(lens, rows) <= budget)
            && (m + 1 < |chunks| ==>
                  && chunks[m + 1].start < |order|
                  && Balancer.Load(lens, rows) + lens[order[chunks[m + 1].start]] > budget)
  {
    var sorted := Gather(lens, order);
    var chunks := GreedyChunks(sorted, budget, 0);
    GreedyIsLegal(sorted, budget, 0);
    PartitionBounds(chunks, 0, |sorted|);
    PartitionNext(chunks, 0, |sorted|, m);
    MiniBatchLoad(lens, order, chunks[m].start, chunks[m].end);
    RangeAscends(lens, order, chunks[m].start, chunks[m].end);
    assert Legal(sorted, budget, chunks[m]);
  }

  /** A mini-batch is one row or holds at most the budget's tokens, by the attention mask; shorter
      rows come before longer ones, and no mini-batch had room for the next row. */
  lemma MiniBatchesFit(b: Batch, maxTokens: int, order: seq<nat>, m: nat)
    requires Trainable(b) && Ascending(TokenCounts(b.tensors[ATTENTION_MASK]), order)
    requires m < |MiniBatchRows(b, maxTokens, order)|
    ensures var rows, lens := MiniBatchRows(b, maxTokens, order), TokenCounts(b.tensors[ATTENTION_MASK]);
            && InRange(rows[m], b.size) && |rows[m]| > 0 && AscendingRows(lens, rows[m])
            && (|rows[m]| == 1 || TokensIn(b, rows[m]) <= maxTokens)
            && (m + 1 < |rows| ==> |rows[m + 1]| > 0 && InRange(rows[m + 1], b.size)
                                   && TokensIn(b, rows[m]) + lens[rows[m + 1][0]] > maxTokens)
  {
    var lens := TokenCounts(b.tensors[ATTENTION_MASK]);
    PermutationInRange(order, b.size);
    ChunkFits(lens, order, maxTokens, m);
    if m + 1 < |MiniBatchRows(b, maxTokens, order)| {
      ChunkFits(lens, order, maxTokens, m + 1);
    }
  }

  lemma MiniBatchLoad(lens: seq<nat>, order: seq<nat>, start: nat, end: nat)
    requires InRange(order, |lens|) && start <= end <= |order|
    ensures InRange(Gather(order, Span(start, end)), |lens|)
    ensures Balancer.Load(lens, Gather(order, Span(start, end))) == Tokens(Gather(lens, order), start, end)
  {
    GatherCompose(lens, order, Span(start, end));
    TokensAreLoad(Gather(lens, order), start, end);
  }
}
