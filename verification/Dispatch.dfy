/** Routing a batch to data-parallel workers and collecting their results. */
module Dispatch {
  import opened Protocol
  import opened RowOperations
  import opened Seqs
  import opened Wrappers

  // ---------------------------------------------------------------------
  // Routing
  // ---------------------------------------------------------------------

  function RankSet(mapping: seq<nat>): set<nat> {
    set i | 0 <= i < |mapping| :: mapping[i]
  }

  /** Worker `i` gets the chunk of its data-parallel rank; peers share a chunk. */
  function DispatchWithDpRanks(b: Batch, workers: nat, mapping: seq<nat>): Result<seq<Batch>>
    requires Valid(b)
  {
    if |mapping| != workers then Err(ValueError)
    else
      var dp := |RankSet(mapping)|;
      var chunks := Split(b, dp);
      if exists i :: 0 <= i < workers && mapping[i] >= dp then Err(IndexError)
      else Ok(seq(workers, i requires 0 <= i < workers => chunks[mapping[i]]))
  }

  /** The results whose mask entry is true, in order. */
  function Masked<T>(xs: seq<T>, mask: seq<bool>): seq<T>
    requires |xs| == |mask|
  {
    if |xs| == 0 then []
    else (if mask[0] then [xs[0]] else []) + Masked(xs[1..], mask[1..])
  }

  /** Of no results nothing is collected; one more result is collected at the end if it is marked. */
  lemma {:induction false} MaskedSnoc<T>(xs: seq<T>, mask: seq<bool>, x: T, marked: bool)
    requires |xs| == |mask|
    ensures Masked<T>([], []) == []
    ensures Masked(xs + [x], mask + [marked]) == Masked(xs, mask) + if marked then [x] else []
  {
    if |xs| > 0 {
      MaskedSnoc(xs[1..], mask[1..], x, marked);
      assert (xs + [x])[1..] == xs[1..] + [x] && (mask + [marked])[1..] == mask[1..] + [marked];
    }
  }

  function CollectWithMask(results: seq<Batch>, mask: seq<bool>): Result<Batch> {
    if |mask| != |results| then Err(ValueError) else Merge(Masked(results, mask))
  }

  // ---------------------------------------------------------------------
  // What a worker does
  // ---------------------------------------------------------------------

  function RowLengths(rows: seq<seq<Cell>>): seq<nat> {
    seq(|rows|, i requires 0 <= i < |rows| => |rows[i]|)
  }

  function RowWidth(rows: seq<seq<Cell>>): nat {
    Max(RowLengths(rows))
  }

  /** Rows of any length as one matrix, zero-padded on the right to the longest. */
  function PadBlock(rows: seq<seq<Cell>>): Column {
    Column(Some(RowWidth(rows)), PaddedRows(rows, RowWidth(rows)))
  }

  /** A worker method computes every output column row by row; nothing else is known of it. */
  type Worker = map<string, Row -> seq<Cell>>

  ghost function Computed(worker: Worker, rows: seq<Row>): Batch {
    Batch(|rows|, map k | k in worker :: PadBlock(Map(worker[k], rows)), map[], map[])
  }

  lemma PadBlockValid(rows: seq<seq<Cell>>)
    ensures PadBlock(rows).Valid() && |PadBlock(rows).rows| == |rows|
  {
    forall i | 0 <= i < |rows| ensures |rows[i]| <= RowWidth(rows) {
      assert RowLengths(rows)[i] == |rows[i]|;
    }
  }

  lemma ComputedValid(worker: Worker, rows: seq<Row>)
    requires worker.Keys != {}
    ensures Valid(Computed(worker, rows)) && Computed(worker, rows).tensors.Keys == worker.Keys
  {
    forall k | k in worker
      ensures PadBlock(Map(worker[k], rows)).Valid() && |PadBlock(Map(worker[k], rows)).rows| == |rows|
    {
      PadBlockValid(Map(worker[k], rows));
    }
    assert Computed(worker, rows).tensors.Keys == worker.Keys;
  }

  ghost function ComputedAll(worker: Worker, groups: seq<seq<Row>>): seq<Batch> {
    seq(|groups|, i requires 0 <= i < |groups| => Computed(worker, groups[i]))
  }

  // ---------------------------------------------------------------------
  // Collecting equals computing once
  // ---------------------------------------------------------------------

  lemma PadTwice(row: seq<Cell>, w: nat, v: nat)
    requires |row| <= w <= v
    ensures PadRight(PadRight(row, w), v) == PadRight(row, v)
  {
  }

  function BlockWidths(blocks: seq<seq<seq<Cell>>>): seq<nat> {
    seq(|blocks|, i requires 0 <= i < |blocks| => RowWidth(blocks[i]))
  }

  lemma RowLengthsConcat(a: seq<seq<Cell>>, b: seq<seq<Cell>>)
    ensures RowLengths(a + b) == RowLengths(a) + RowLengths(b)
  {
  }

  lemma {:induction false} WidthOfBlocks(blocks: seq<seq<seq<Cell>>>)
    ensures RowWidth(Flatten(blocks)) == Max(BlockWidths(blocks))
  {
    if |blocks| > 0 {
      WidthOfBlocks(blocks[1..]);
      assert BlockWidths(blocks) == [RowWidth(blocks[0])] + BlockWidths(blocks[1..]);
      MaxConcat([RowWidth(blocks[0])], BlockWidths(blocks[1..]));
      RowLengthsConcat(blocks[0], Flatten(blocks[1..]));
      MaxConcat(RowLengths(blocks[0]), RowLengths(Flatten(blocks[1..])));
    }
  }

  lemma MaxConcat(a: seq<nat>, b: seq<nat>)
    ensures Max(a + b) == if Max(a) >= Max(b) then Max(a) else Max(b)
  {
    var m := Max(a + b);
    forall i | 0 <= i < |a| ensures a[i] <= m {
      assert (a + b)[i] == a[i];
    }
    forall i | 0 <= i < |b| ensures b[i] <= m {
      assert (a + b)[|a| + i] == b[i];
    }
  }

  lemma PaddedBlock(block: seq<seq<Cell>>, width: nat)
    requires RowWidth(block) <= width
    ensures PaddedRows(PadBlock(block).rows, width) == PaddedRows(block, width)
  {
    forall r | 0 <= r < |block| ensures PadRight(PadBlock(block).rows[r], width) == PadRight(block[r], width) {
      assert RowLengths(block)[r] == |block[r]|;
      PadTwice(block[r], RowWidth(block), width);
    }
  }

  lemma PaddedRowsConcat(a: seq<seq<Cell>>, b: seq<seq<Cell>>, width: nat)
    ensures PaddedRows(a + b, width) == PaddedRows(a, width) + PaddedRows(b, width)
  {
  }

  lemma PaddedPartsTail(blocks: seq<seq<seq<Cell>>>, width: nat)
    requires |blocks| > 0
    ensures |PaddedParts(PadBlocks(blocks), width)| == |blocks|
    ensures PaddedParts(PadBlocks(blocks), width)[0] == PaddedRows(PadBlock(blocks[0]).rows, width)
    ensures PaddedParts(PadBlocks(blocks), width)[1..] == PaddedParts(PadBlocks(blocks[1..]), width)
  {
  }

  lemma {:induction false} FlattenPadded(blocks: seq<seq<seq<Cell>>>, width: nat)
    requires forall i :: 0 <= i < |blocks| ==> RowWidth(blocks[i]) <= width
    ensures Flatten(PaddedParts(PadBlocks(blocks), width)) == PaddedRows(Flatten(blocks), width)
  {
    if |blocks| > 0 {
      FlattenPadded(blocks[1..], width);
      PaddedPartsTail(blocks, width);
      PaddedBlock(blocks[0], width);
      PaddedRowsConcat(blocks[0], Flatten(blocks[1..]), width);
    }
  }

  function PadBlocks(blocks: seq<seq<seq<Cell>>>): seq<Column> {
    seq(|blocks|, i requires 0 <= i < |blocks| => PadBlock(blocks[i]))
  }

  /** Merging blocks that were each padded to their own width gives the block padded once
      to the common width. */
  lemma MergePadsOnce(blocks: seq<seq<seq<Cell>>>)
    requires |blocks| > 0
    ensures JoinColumns(PadBlocks(blocks), true) == Ok(PadBlock(Flatten(blocks)))
  {
    var parts := PadBlocks(blocks);
    assert Widths(parts) == BlockWidths(blocks);
    WidthOfBlocks(blocks);
    var width := Max(BlockWidths(blocks));
    forall i | 0 <= i < |blocks| ensures RowWidth(blocks[i]) <= width {
      assert BlockWidths(blocks)[i] == RowWidth(blocks[i]);
    }
    FlattenPadded(blocks, width);
    JoinMatrices(parts);
  }

  lemma JoinMatrices(parts: seq<Column>)
    requires |parts| > 0 && forall i :: 0 <= i < |parts| ==> parts[i].width.Some?
    ensures var width := Max(Widths(parts));
            JoinColumns(parts, true) == Ok(Column(Some(width), Flatten(PaddedParts(parts, width))))
  {
  }

  lemma {:induction false} MapFlatten<T, U>(f: T -> U, groups: seq<seq<T>>)
    ensures Map(f, Flatten(groups)) == Flatten(seq(|groups|, i requires 0 <= i < |groups| => Map(f, groups[i])))
  {
    var mapped := seq(|groups|, i requires 0 <= i < |groups| => Map(f, groups[i]));
    if |groups| > 0 {
      MapFlatten(f, groups[1..]);
      assert mapped[1..] == seq(|groups[1..]|, i requires 0 <= i < |groups[1..]| => Map(f, groups[1..][i]));
    }
  }

  lemma ComputedCons(worker: Worker, group: seq<Row>, groups: seq<seq<Row>>)
    ensures ComputedAll(worker, [group] + groups) == [Computed(worker, group)] + ComputedAll(worker, groups)
  {
  }

  lemma {:induction false} NonEmptyComputed(worker: Worker, groups: seq<seq<Row>>)
    ensures NonEmpty(ComputedAll(worker, groups)) == ComputedAll(worker, DropEmpty(groups))
  {
    if |groups| > 0 {
      assert groups == [groups[0]] + groups[1..];
      ComputedCons(worker, groups[0], groups[1..]);
      NonEmptyComputed(worker, groups[1..]);
      NonEmptyCons(Computed(worker, groups[0]), ComputedAll(worker, groups[1..]));
      if |groups[0]| > 0 {
        ComputedCons(worker, groups[0], DropEmpty(groups[1..]));
      }
    }
  }

  lemma {:induction false} MaskedComputed(worker: Worker, groups: seq<seq<Row>>, mask: seq<bool>)
    requires |groups| == |mask|
    ensures Masked(ComputedAll(worker, groups), mask) == ComputedAll(worker, Masked(groups, mask))
  {
    if |groups| > 0 {
      assert groups == [groups[0]] + groups[1..];
      ComputedCons(worker, groups[0], groups[1..]);
      MaskedComputed(worker, groups[1..], mask[1..]);
      ComputedCons(worker, groups[0], Masked(groups[1..], mask[1..]));
      assert ComputedAll(worker, groups)[1..] == ComputedAll(worker, groups[1..]);
    }
  }

  lemma {:induction false} ComputedSizes(worker: Worker, groups: seq<seq<Row>>)
    ensures TotalSize(ComputedAll(worker, groups)) == |Flatten(groups)|
  {
    if |groups| > 0 {
      ComputedSizes(worker, groups[1..]);
      assert ComputedAll(worker, groups)[1..] == ComputedAll(worker, groups[1..]);
    }
  }

  lemma {:induction false} NoRagged(bs: seq<Batch>)
    requires forall i :: 0 <= i < |bs| ==> bs[i].ragged == map[]
    ensures RaggedConcat(bs) == map[]
  {
    if |bs| > 0 {
      NoRagged(bs[1..]);
    }
  }

  lemma ComputedColumn(worker: Worker, groups: seq<seq<Row>>, k: string)
    requires |groups| > 0 && k in worker
    ensures JoinColumns(Parts(ComputedAll(worker, groups), k), true)
         == Ok(PadBlock(Map(worker[k], Flatten(groups))))
  {
    var blocks := seq(|groups|, i requires 0 <= i < |groups| => Map(worker[k], groups[i]));
    assert Parts(ComputedAll(worker, groups), k) == PadBlocks(blocks);
    MapFlatten(worker[k], groups);
    MergePadsOnce(blocks);
  }

  /** Merging what the workers computed on their groups of rows, empty groups included, is
      what one worker would have computed on all the rows. */
  lemma MergeComputed(worker: Worker, groups: seq<seq<Row>>)
    requires |Flatten(groups)| > 0
    ensures Merge(ComputedAll(worker, groups)) == Ok(Computed(worker, Flatten(groups)))
  {
    NonEmptyComputed(worker, groups);
    DropEmptyFlatten(groups);
    var full := DropEmpty(groups);
    var bs := ComputedAll(worker, full);
    ComputedSizes(worker, full);
    NoRagged(bs);
    var columns := Computed(worker, Flatten(groups)).tensors;
    assert columns.Keys == worker.Keys && forall i :: 0 <= i < |bs| ==> bs[i].tensors.Keys == worker.Keys;
    forall k | k in columns ensures JoinColumns(Parts(bs, k), true) == Ok(columns[k]) {
      ComputedColumn(worker, full, k);
    }
    JoinIs(bs, true, columns);
  }

  // ---------------------------------------------------------------------
  // The whole call
  // ---------------------------------------------------------------------

  ghost function RowsOfAll(bs: seq<Batch>): seq<seq<Row>>
    requires forall i :: 0 <= i < |bs| ==> Valid(bs[i])
  {
    seq(|bs|, i requires 0 <= i < |bs| => RowsOf(bs[i]))
  }

  /** Every worker applies the method to its chunk; masked results are merged. */
  ghost function DispatchAndCall(b: Batch, workers: nat, mapping: seq<nat>, mask: seq<bool>,
                                worker: Worker): Result<Batch>
    requires Valid(b)
  {
    ChunksValid(b, |RankSet(mapping)|);
    var chunks :- DispatchWithDpRanks(b, workers, mapping);
    CollectWithMask(ComputedAll(worker, RowsOfAll(chunks)), mask)
  }

  lemma ChunksValid(b: Batch, n: nat)
    requires Valid(b)
    ensures forall i :: 0 <= i < n ==> Valid(Split(b, n)[i])
    ensures AllInRange(AllChunkRows(b.size, n), b.size)
    ensures RowsOfAll(Split(b, n)) == Gathers(RowsOf(b), AllChunkRows(b.size, n))
  {
    forall i | 0 <= i < n
      ensures Valid(Split(b, n)[i])
      ensures RowsOf(Split(b, n)[i]) == Gather(RowsOf(b), AllChunkRows(b.size, n)[i])
    {
      if b.size > 0 {
        ChunkIsReindex(b, n, i);
        ReindexRows(b, ChunkRows(b.size, n, i));
      }
    }
  }

  lemma {:induction false} MaskedGather<T>(xs: seq<T>, idx: seq<nat>, mask: seq<bool>)
    requires |idx| == |mask| && InRange(idx, |xs|)
    ensures InRange(Masked(idx, mask), |xs|)
    ensures Masked(Gather(xs, idx), mask) == Gather(xs, Masked(idx, mask))
  {
    if |idx| > 0 {
      MaskedGather(xs, idx[1..], mask[1..]);
      assert Gather(xs, idx)[1..] == Gather(xs, idx[1..]);
    }
  }

  /** The rows of the batch by data-parallel rank. */
  ghost function Shards(b: Batch, dp: nat): seq<seq<Row>>
    requires Valid(b)
  {
    Gathers(RowsOf(b), AllChunkRows(b.size, dp))
  }

  /** For any mask, the call computes on the shards of the masked workers' ranks, in the
      order those workers are listed; without any row it returns the empty batch. */
  lemma CallComputesMaskedShards(b: Batch, workers: nat, mapping: seq<nat>, mask: seq<bool>, worker: Worker)
    requires Valid(b) && |mapping| == |mask| == workers && InRange(mapping, |RankSet(mapping)|)
    ensures InRange(Masked(mapping, mask), |RankSet(mapping)|)
    ensures var groups := Gather(Shards(b, |RankSet(mapping)|), Masked(mapping, mask));
            DispatchAndCall(b, workers, mapping, mask, worker)
            == Ok(if |Flatten(groups)| > 0 then Computed(worker, Flatten(groups)) else Empty(map[]))
  {
    var dp := |RankSet(mapping)|;
    ChunksValid(b, dp);
    var shards := Shards(b, dp);
    MaskedGather(shards, mapping, mask);
    var chunks := DispatchWithDpRanks(b, workers, mapping).value;
    assert RowsOfAll(chunks) == Gather(shards, mapping);
    MaskedComputed(worker, Gather(shards, mapping), mask);
    var groups := Gather(shards, Masked(mapping, mask));
    if |Flatten(groups)| > 0 {
      MergeComputed(worker, groups);
    } else {
      MergeNothing(worker, groups);
    }
  }

  /** Groups without rows, or no groups, merge to the empty batch. */
  lemma MergeNothing(worker: Worker, groups: seq<seq<Row>>)
    requires |Flatten(groups)| == 0
    ensures Merge(ComputedAll(worker, groups)) == Ok(Empty(map[]))
  {
    NonEmptyComputed(worker, groups);
    DropEmptyFlatten(groups);
    DropEmptyMembers(groups);
  }

  lemma ShardsCover(b: Batch, dp: nat)
    requires Valid(b) && dp > 0
    ensures Flatten(Shards(b, dp)) == RowsOf(b)
  {
    ChunksCover(b.size, dp);
    FlattenGathers(RowsOf(b), AllChunkRows(b.size, dp));
    GatherIota(RowsOf(b));
  }

  /** Main result: when the collected workers name every rank once in increasing order,
      the call returns what one worker would return for the whole batch, whatever the
      number of ranks and however many peers share each. */
  lemma CallIsOneWorker(b: Batch, workers: nat, mapping: seq<nat>, mask: seq<bool>, worker: Worker)
    requires Valid(b) && b.size > 0 && |mapping| == |mask| == workers > 0
    requires InRange(mapping, |RankSet(mapping)|) && Masked(mapping, mask) == Iota(|RankSet(mapping)|)
    ensures DispatchAndCall(b, workers, mapping, mask, worker) == Ok(Computed(worker, RowsOf(b)))
  {
    var dp := |RankSet(mapping)|;
    CallComputesMaskedShards(b, workers, mapping, mask, worker);
    ShardsCover(b, dp);
    GatherIota(Shards(b, dp));
  }

  /** With padding to any divisor before and unpadding after, still the same. */
  lemma PaddedCallIsOneWorker(b: Batch, divisor: nat, workers: nat, mapping: seq<nat>, mask: seq<bool>, worker: Worker)
    requires Valid(b) && b.size > 0 && divisor > 0 && |mapping| == |mask| == workers > 0 && worker.Keys != {}
    requires InRange(mapping, |RankSet(mapping)|) && Masked(mapping, mask) == Iota(|RankSet(mapping)|)
    ensures PadToDivisor(b, divisor).Ok?
    ensures var (padded, pad) := PadToDivisor(b, divisor).value;
            && Valid(padded)
            && var out := DispatchAndCall(padded, workers, mapping, mask, worker);
               out.Ok? && Valid(out.value) && Unpad(out.value, pad) == Ok(Computed(worker, RowsOf(b)))
  {
    PadIsReindex(b, divisor);
    var pad := PadSize(b.size, divisor);
    var rowMap := PaddedRowMap(b.size, pad);
    CallIsOneWorker(Reindex(b, rowMap), workers, mapping, mask, worker);
    ReindexRows(b, rowMap);
    UnpadComputed(worker, RowsOf(b), pad);
  }

  lemma UnpadComputed(worker: Worker, rows: seq<Row>, pad: nat)
    requires |rows| > 0 && worker.Keys != {}
    ensures var out := Computed(worker, Gather(rows, PaddedRowMap(|rows|, pad)));
            Valid(out) && Unpad(out, pad) == Ok(Computed(worker, rows))
  {
    var rowMap := PaddedRowMap(|rows|, pad);
    var out := Computed(worker, Gather(rows, rowMap));
    ComputedValid(worker, Gather(rows, rowMap));
    UnpadRows(out, pad);
    forall k | k in worker ensures out.tensors[k].Take(Iota(|rows|)) == Computed(worker, rows).tensors[k] {
      UnpadColumn(worker[k], rows, rowMap);
    }
    ComputedValid(worker, rows);
    ReindexIs(out, Iota(|rows|), Computed(worker, rows));
  }

  lemma UnpadColumn(f: Row -> seq<Cell>, rows: seq<Row>, rowMap: seq<nat>)
    requires |rows| > 0 && InRange(rowMap, |rows|) && Iota(|rows|) <= rowMap
    ensures PadBlock(Map(f, Gather(rows, rowMap))).Take(Iota(|rows|)) == PadBlock(Map(f, rows))
  {
    assert Map(f, Gather(rows, rowMap)) == Gather(Map(f, rows), rowMap);
    RepeatedRowsSameBlock(Map(f, rows), rowMap);
  }

  /** Repeating rows does not widen the block. */
  lemma RepeatedRowsSameBlock(rows: seq<seq<Cell>>, rowMap: seq<nat>)
    requires |rows| > 0 && InRange(rowMap, |rows|) && Iota(|rows|) <= rowMap
    ensures PadBlock(Gather(rows, rowMap)).Take(Iota(|rows|)) == PadBlock(rows)
  {
    var more := Gather(rows, rowMap);
    forall i | 0 <= i < |rows| ensures rowMap[i] == i && more[i] == rows[i] {
      assert rowMap[i] == Iota(|rows|)[i];
    }
    WidthAtMost(more, rows);
    WidthAtMost(rows, more);
  }

  lemma WidthAtMost(a: seq<seq<Cell>>, b: seq<seq<Cell>>)
    requires forall i :: 0 <= i < |a| ==> a[i] in b
    ensures RowWidth(a) <= RowWidth(b)
  {
    if |a| > 0 {
      var i :| 0 <= i < |a| && RowLengths(a)[i] == RowWidth(a);
      var j :| 0 <= j < |b| && b[j] == a[i];
      assert RowLengths(b)[j] == |a[i]|;
    }
  }
}
