/** Every row operation is one index map, applied to tensor and ragged columns alike. */
module RowOperations {
  import opened Arith
  import opened Protocol
  import opened Seqs
  import opened Wrappers

  // ---------------------------------------------------------------------
  // Repetition
  // ---------------------------------------------------------------------

  /** Row `i` `reps[i]` times, for each row in turn. */
  function EachRepeated(reps: seq<nat>, from: nat): seq<nat> {
    if |reps| == 0 then [] else Copies(from, reps[0]) + EachRepeated(reps[1..], from + 1)
  }

  function InterleavedOrder(n: nat, times: nat): seq<nat> {
    EachRepeated(seq(n, _ => times), 0)
  }

  /** All rows, `times` times over. */
  function TiledOrder(n: nat, times: nat): seq<nat> {
    if times == 0 then [] else Iota(n) + TiledOrder(n, times - 1)
  }

  /** What the tensor library does to one column. */
  function RepeatColumn(col: Column, times: nat, interleave: bool): Column
    requires times > 0
  {
    var n := |col.rows|;
    Column(col.width, seq(n * times, j requires 0 <= j < n * times =>
      if interleave then (RepeatIndex(n, times, j); col.rows[j / times])
      else (TileIndex(n, times, j); col.rows[j % n])))
  }

  lemma RepeatIndex(n: nat, times: nat, j: nat)
    requires times > 0 && j < n * times
    ensures j / times < n
  {
    DivMod(j, times);
    MulCancel(j / times, n, times);
  }

  lemma TileIndex(n: nat, times: nat, j: nat)
    requires j < n * times
    ensures n > 0 && j % n < n
  {
  }

  /** Tensor columns follow the library's repeat, ragged columns an explicit order. */
  function Repeat(b: Batch, times: int, interleave: bool): Result<Batch>
    requires Valid(b)
  {
    if times <= 0 then Err(ValueError)
    else
      var order := if interleave then InterleavedOrder(b.size, times) else TiledOrder(b.size, times);
      RepeatOrders(b.size, times);
      Ok(Batch(b.size * times,
               map k | k in b.tensors :: RepeatColumn(b.tensors[k], times, interleave),
               map k | k in b.ragged :: Gather(b.ragged[k], order),
               b.meta))
  }

  lemma {:induction false} EachRepeatedUniform(n: nat, times: nat, from: nat)
    requires times > 0
    ensures var order := EachRepeated(seq(n, _ => times), from);
            |order| == n * times && forall j :: 0 <= j < n * times ==> order[j] == from + j / times
  {
    if n > 0 {
      var order := EachRepeated(seq(n, _ => times), from);
      assert seq(n, _ => times)[1..] == seq(n - 1, _ => times);
      EachRepeatedUniform(n - 1, times, from + 1);
      MulSucc(n - 1, times);
      forall j | 0 <= j < n * times ensures order[j] == from + j / times {
        if j < times {
          DivModUnique(j, times, 0, j);
        } else {
          DivMod(j - times, times);
          MulSucc((j - times) / times, times);
          DivModUnique(j, times, (j - times) / times + 1, (j - times) % times);
        }
      }
    }
  }

  lemma {:induction false} TiledOrderIs(n: nat, times: nat)
    ensures var order := TiledOrder(n, times);
            |order| == n * times && forall j :: 0 <= j < n * times ==> n > 0 && order[j] == j % n
  {
    if times > 0 {
      TiledOrderIs(n, times - 1);
      MulSucc(times - 1, n);
      var order := TiledOrder(n, times);
      forall j | 0 <= j < n * times ensures n > 0 && order[j] == j % n {
        TileStep(n, j);
      }
    }
  }

  lemma TileStep(n: nat, j: nat)
    ensures n > 0 ==> j % n == if j < n then j else (j - n) % n
  {
    if j < n {
      DivModUnique(j, n, 0, j);
    } else if n > 0 {
      DivMod(j - n, n);
      MulSucc((j - n) / n, n);
      DivModUnique(j, n, (j - n) / n + 1, (j - n) % n);
    }
  }

  lemma RepeatOrders(n: nat, times: nat)
    requires times > 0
    ensures InRange(InterleavedOrder(n, times), n) && |InterleavedOrder(n, times)| == n * times
    ensures InRange(TiledOrder(n, times), n) && |TiledOrder(n, times)| == n * times
  {
    EachRepeatedUniform(n, times, 0);
    TiledOrderIs(n, times);
    forall j | 0 <= j < n * times ensures j / times < n {
      RepeatIndex(n, times, j);
    }
    assert forall j :: 0 <= j < n * times ==> TiledOrder(n, times)[j] == j % n;
  }

  lemma RepeatColumnIsTake(col: Column, times: nat, interleave: bool)
    requires times > 0
    ensures var order := if interleave then InterleavedOrder(|col.rows|, times) else TiledOrder(|col.rows|, times);
            InRange(order, |col.rows|) && RepeatColumn(col, times, interleave) == col.Take(order)
  {
    RepeatOrders(|col.rows|, times);
    EachRepeatedUniform(|col.rows|, times, 0);
    TiledOrderIs(|col.rows|, times);
  }

  /** Same size, same columns, same ragged columns: the same batch. */
  lemma ReindexIs(b: Batch, order: seq<nat>, r: Batch)
    requires Valid(b) && InRange(order, b.size)
    requires r.size == |order| && r.meta == b.meta
    requires r.tensors.Keys == b.tensors.Keys && r.ragged.Keys == b.ragged.Keys
    requires forall k :: k in b.tensors ==> r.tensors[k] == b.tensors[k].Take(order)
    requires forall k :: k in b.ragged ==> r.ragged[k] == Gather(b.ragged[k], order)
    ensures r == Reindex(b, order)
  {
    assert r.tensors == Reindex(b, order).tensors && r.ragged == Reindex(b, order).ragged;
  }

  lemma RepeatShape(b: Batch, times: nat, interleave: bool, order: seq<nat>)
    requires Valid(b) && times > 0
    requires order == if interleave then InterleavedOrder(b.size, times) else TiledOrder(b.size, times)
    ensures InRange(order, b.size) && Repeat(b, times, interleave).Ok?
    ensures var r := Repeat(b, times, interleave).value;
            && r.size == |order| && r.meta == b.meta
            && r.tensors.Keys == b.tensors.Keys && r.ragged.Keys == b.ragged.Keys
            && (forall k :: k in b.tensors ==> r.tensors[k] == RepeatColumn(b.tensors[k], times, interleave))
            && (forall k :: k in b.ragged ==> r.ragged[k] == Gather(b.ragged[k], order))
  {
    RepeatOrders(b.size, times);
  }

  /** Both forms of repetition reorder every column by the same index map. */
  lemma RepeatIsReindex(b: Batch, times: nat, interleave: bool)
    requires Valid(b) && times > 0
    ensures var order := if interleave then InterleavedOrder(b.size, times) else TiledOrder(b.size, times);
            InRange(order, b.size) && Repeat(b, times, interleave) == Ok(Reindex(b, order))
  {
    var order := if interleave then InterleavedOrder(b.size, times) else TiledOrder(b.size, times);
    RepeatShape(b, times, interleave, order);
    RepeatColumns(b, times, interleave, order);
    ReindexIs(b, order, Repeat(b, times, interleave).value);
  }

  lemma RepeatColumns(b: Batch, times: nat, interleave: bool, order: seq<nat>)
    requires Valid(b) && times > 0
    requires order == if interleave then InterleavedOrder(b.size, times) else TiledOrder(b.size, times)
    ensures InRange(order, b.size)
    ensures forall k :: k in b.tensors ==>
                          RepeatColumn(b.tensors[k], times, interleave) == b.tensors[k].Take(order)
  {
    RepeatOrders(b.size, times);
    forall k | k in b.tensors
      ensures RepeatColumn(b.tensors[k], times, interleave) == b.tensors[k].Take(order)
    {
      RepeatColumnIsTake(b.tensors[k], times, interleave);
    }
  }

  /** One column with each row repeated its own number of times. */
  function RepeatRows<T>(rows: seq<T>, reps: seq<nat>): seq<T>
    requires |rows| == |reps|
  {
    if |rows| == 0 then [] else seq(reps[0], _ => rows[0]) + RepeatRows(rows[1..], reps[1..])
  }

  lemma {:induction false} RepeatRowsIsGather<T>(all: seq<T>, reps: seq<nat>, from: nat)
    requires from + |reps| == |all|
    ensures InRange(EachRepeated(reps, from), |all|)
    ensures RepeatRows(all[from..], reps) == Gather(all, EachRepeated(reps, from))
  {
    if |reps| > 0 {
      RepeatRowsIsGather(all, reps[1..], from + 1);
      assert all[from..][1..] == all[from + 1..];
      GatherConcat(all, Copies(from, reps[0]), EachRepeated(reps[1..], from + 1));
    }
  }

  function Counts(reps: seq<int>): seq<nat>
    requires forall i :: 0 <= i < |reps| ==> reps[i] >= 0
  {
    seq(|reps|, i requires 0 <= i < |reps| => reps[i])
  }

  lemma CountsOfNats(reps: seq<nat>)
    ensures Counts(reps) == reps
  {
  }

  function SampleLevelRepeat(b: Batch, reps: seq<int>): Result<Batch>
    requires Valid(b)
  {
    if |reps| != b.size then Err(ValueError)
    else if exists i :: 0 <= i < |reps| && reps[i] < 0 then Err(ValueError)
    else
      var counts := Counts(reps);
      RepeatRowsIsGather(Iota(b.size), counts, 0);
      Ok(Batch(|EachRepeated(counts, 0)|,
               map k | k in b.tensors :: Column(b.tensors[k].width, RepeatRows(b.tensors[k].rows, counts)),
               map k | k in b.ragged :: Gather(b.ragged[k], EachRepeated(counts, 0)),
               b.meta))
  }

  lemma SampleRepeatShape(b: Batch, reps: seq<nat>)
    requires Valid(b) && |reps| == b.size
    ensures InRange(EachRepeated(reps, 0), b.size) && SampleLevelRepeat(b, reps).Ok?
    ensures var r, order := SampleLevelRepeat(b, reps).value, EachRepeated(reps, 0);
            && r.size == |order| && r.meta == b.meta
            && r.tensors.Keys == b.tensors.Keys && r.ragged.Keys == b.ragged.Keys
            && (forall k :: k in b.tensors ==>
                  r.tensors[k] == Column(b.tensors[k].width, RepeatRows(b.tensors[k].rows, reps)))
            && (forall k :: k in b.ragged ==> r.ragged[k] == Gather(b.ragged[k], order))
  {
    RepeatRowsIsGather(Iota(b.size), reps, 0);
    CountsOfNats(reps);
  }

  lemma SampleRepeatIsReindex(b: Batch, reps: seq<nat>)
    requires Valid(b) && |reps| == b.size
    ensures InRange(EachRepeated(reps, 0), b.size)
    ensures SampleLevelRepeat(b, reps) == Ok(Reindex(b, EachRepeated(reps, 0)))
  {
    SampleRepeatShape(b, reps);
    RepeatRowColumns(b, reps);
    ReindexIs(b, EachRepeated(reps, 0), SampleLevelRepeat(b, reps).value);
  }

  lemma RepeatRowColumns(b: Batch, reps: seq<nat>)
    requires Valid(b) && |reps| == b.size
    ensures InRange(EachRepeated(reps, 0), b.size)
    ensures forall k :: k in b.tensors ==>
                          RepeatRows(b.tensors[k].rows, reps) == Gather(b.tensors[k].rows, EachRepeated(reps, 0))
  {
    RepeatRowsIsGather(Iota(b.size), reps, 0);
    forall k | k in b.tensors
      ensures RepeatRows(b.tensors[k].rows, reps) == Gather(b.tensors[k].rows, EachRepeated(reps, 0))
    {
      RepeatRowsIsGather(b.tensors[k].rows, reps, 0);
      assert b.tensors[k].rows[0..] == b.tensors[k].rows;
    }
  }

  // ---------------------------------------------------------------------
  // Boolean selection
  // ---------------------------------------------------------------------

  /** Positions of the true entries, counted from `from`. */
  function TrueRows(keep: seq<bool>, from: nat): (r: seq<nat>)
    ensures forall i :: 0 <= i < |r| ==> from <= r[i] < from + |keep| && keep[r[i] - from]
  {
    if |keep| == 0 then []
    else (if keep[0] then [from] else []) + TrueRows(keep[1..], from + 1)
  }

  function SelectMask(b: Batch, keep: seq<bool>): Result<Batch>
    requires Valid(b)
  {
    if b.size == 0 then Ok(Empty(b.meta))
    else if |keep| != b.size then Err(ValueError)
    else Ok(Reindex(b, TrueRows(keep, 0)))
  }

  /** A mask of the right length selects the rows at its true entries, whole and in order; any other is
      refused, unless there are no rows. */
  lemma SelectMaskIs(b: Batch, keep: seq<bool>)
    requires Valid(b)
    ensures SelectMask(b, keep).Ok? <==> b.size == 0 || |keep| == b.size
    ensures b.size == 0 ==> SelectMask(b, keep) == Ok(Empty(b.meta))
    ensures SelectMask(b, keep).Err? ==> SelectMask(b, keep).error == ValueError
    ensures b.size > 0 && |keep| == b.size ==>
              var r := SelectMask(b, keep).value;
              && InRange(TrueRows(keep, 0), b.size) && Valid(r)
              && RowsOf(r) == Gather(RowsOf(b), TrueRows(keep, 0))
  {
    if b.size > 0 && |keep| == b.size {
      ReindexRows(b, TrueRows(keep, 0));
    }
  }

  /** The true positions, listed in order: one more entry adds its position if it is true. */
  lemma {:induction false} TrueRowsSnoc(keep: seq<bool>, last: bool, from: nat)
    ensures TrueRows([], from) == []
    ensures TrueRows(keep + [last], from) == TrueRows(keep, from) + if last then [from + |keep|] else []
  {
    if |keep| > 0 {
      TrueRowsSnoc(keep[1..], last, from + 1);
      assert (keep + [last])[1..] == keep[1..] + [last];
    }
  }

  // ---------------------------------------------------------------------
  // Sequences of operations
  // ---------------------------------------------------------------------

  datatype RowOp =
    | Select(idxs: seq<int>)
    | Mask(keep: seq<bool>)
    | TakeChunk(n: nat, i: nat)
    | RepeatAll(times: int, interleave: bool)
    | RepeatEach(reps: seq<int>)
    | PadUp(divisor: int)
    | UnpadTail(pad: int)

  function Apply(op: RowOp, b: Batch): Result<Batch>
    requires Valid(b)
  {
    match op
    case Select(idxs) => SelectIdxs(b, idxs)
    case Mask(keep) => SelectMask(b, keep)
    case TakeChunk(n, i) => if i < n then Ok(Split(b, n)[i]) else Err(IndexError)
    case RepeatAll(times, interleave) => Repeat(b, times, interleave)
    case RepeatEach(reps) => SampleLevelRepeat(b, reps)
    case PadUp(divisor) => var (padded, _) :- PadToDivisor(b, divisor); Ok(padded)
    case UnpadTail(pad) => Unpad(b, pad)
  }

  /** Where the rows of a successful operation on a batch of `size` rows come from. */
  function IndexMap(op: RowOp, size: nat): seq<nat> {
    if size == 0 then []
    else
      match op
      case Select(idxs) => var norm := NormalizeAll(idxs, size); if norm.Some? then norm.value else []
      case Mask(keep) => TrueRows(keep, 0)
      case TakeChunk(n, i) => if i < n then ChunkRows(size, n, i) else []
      case RepeatAll(times, interleave) =>
        if times <= 0 then [] else if interleave then InterleavedOrder(size, times) else TiledOrder(size, times)
      case RepeatEach(reps) =>
        if exists i :: 0 <= i < |reps| && reps[i] < 0 then []
        else EachRepeated(Counts(reps), 0)
      case PadUp(divisor) => if divisor <= 0 then [] else PaddedRowMap(size, PadSize(size, divisor))
      case UnpadTail(pad) => if 0 <= pad <= size then Iota(size - pad) else []
  }

  lemma ApplyEmpty(op: RowOp, b: Batch)
    requires Valid(b) && b.size == 0 && Apply(op, b).Ok?
    ensures Valid(Apply(op, b).value) && Apply(op, b).value.size == 0
  {
    match op
    case RepeatAll(times, interleave) => RepeatIsReindex(b, times, interleave);
    case RepeatEach(reps) => SampleRepeatIsReindex(b, []);
    case _ =>
  }

  lemma RepeatEachIsReindex(b: Batch, reps: seq<int>)
    requires Valid(b) && b.size > 0 && SampleLevelRepeat(b, reps).Ok?
    ensures InRange(IndexMap(RepeatEach(reps), b.size), b.size)
    ensures SampleLevelRepeat(b, reps).value == Reindex(b, IndexMap(RepeatEach(reps), b.size))
  {
    var counts := Counts(reps);
    assert counts == reps;
    SampleRepeatIsReindex(b, counts);
  }

  lemma PadUpIsReindex(b: Batch, divisor: int)
    requires Valid(b) && b.size > 0 && PadToDivisor(b, divisor).Ok?
    ensures InRange(IndexMap(PadUp(divisor), b.size), b.size)
    ensures PadToDivisor(b, divisor).value.0 == Reindex(b, IndexMap(PadUp(divisor), b.size))
  {
    PadIsReindex(b, divisor);
    var order := PaddedRowMap(b.size, PadSize(b.size, divisor));
    assert PadToDivisor(b, divisor).value.0 == Reindex(b, order);
    PadUpMap(b.size, divisor, order);
  }

  lemma PadUpMap(size: nat, divisor: nat, order: seq<nat>)
    requires size > 0 && divisor > 0 && order == PaddedRowMap(size, PadSize(size, divisor))
    ensures IndexMap(PadUp(divisor), size) == order
  {
  }

  lemma UnpadTailIsReindex(b: Batch, pad: int)
    requires Valid(b) && b.size > 0 && Unpad(b, pad).Ok?
    ensures InRange(IndexMap(UnpadTail(pad), b.size), b.size)
    ensures Unpad(b, pad).value == Reindex(b, IndexMap(UnpadTail(pad), b.size))
  {
    if pad < b.size {
      UnpadRows(b, pad);
    }
  }

  lemma ApplyIsReindex(op: RowOp, b: Batch)
    requires Valid(b) && b.size > 0 && Apply(op, b).Ok?
    ensures InRange(IndexMap(op, b.size), b.size)
    ensures Apply(op, b).value == Reindex(b, IndexMap(op, b.size))
  {
    match op
    case Select(idxs) =>
    case Mask(keep) =>
    case TakeChunk(n, i) => ChunkIsReindex(b, n, i);
    case RepeatAll(times, interleave) => RepeatIsReindex(b, times, interleave);
    case RepeatEach(reps) => RepeatEachIsReindex(b, reps);
    case PadUp(divisor) => PadUpIsReindex(b, divisor);
    case UnpadTail(pad) => UnpadTailIsReindex(b, pad);
  }

  /** One operation moves whole rows: tensors and ragged columns stay aligned. */
  lemma ApplyMovesRows(op: RowOp, b: Batch)
    requires Valid(b) && Apply(op, b).Ok?
    ensures var r := Apply(op, b).value;
            && Valid(r) && InRange(IndexMap(op, b.size), b.size)
            && RowsOf(r) == Gather(RowsOf(b), IndexMap(op, b.size))
  {
    if b.size == 0 {
      ApplyEmpty(op, b);
    } else {
      ApplyIsReindex(op, b);
      ReindexRows(b, IndexMap(op, b.size));
    }
  }

  ghost function ApplyAll(ops: seq<RowOp>, b: Batch): Result<Batch>
    requires Valid(b)
  {
    if |ops| == 0 then Ok(b)
    else if Apply(ops[0], b).Err? then Err(Apply(ops[0], b).error)
    else
      ApplyMovesRows(ops[0], b);
      ApplyAll(ops[1..], Apply(ops[0], b).value)
  }

  /** The single index map a whole sequence of operations amounts to. */
  ghost function ComposedMap(ops: seq<RowOp>, b: Batch): (idx: seq<nat>)
    requires Valid(b) && ApplyAll(ops, b).Ok?
    ensures InRange(idx, b.size)
  {
    if |ops| == 0 then Iota(b.size)
    else
      ApplyMovesRows(ops[0], b);
      var first := IndexMap(ops[0], b.size);
      var rest := ComposedMap(ops[1..], Apply(ops[0], b).value);
      Gather(first, rest)
  }

  /** Main result: after any sequence of row operations, row `i` of the batch is one whole
      row of the original batch, the same one in every tensor and every ragged column. */
  lemma {:induction false} OperationsMoveRows(ops: seq<RowOp>, b: Batch)
    requires Valid(b) && ApplyAll(ops, b).Ok?
    ensures Valid(ApplyAll(ops, b).value)
    ensures RowsOf(ApplyAll(ops, b).value) == Gather(RowsOf(b), ComposedMap(ops, b))
  {
    if |ops| == 0 {
      GatherIota(RowsOf(b));
    } else {
      ApplyMovesRows(ops[0], b);
      var next := Apply(ops[0], b).value;
      OperationsMoveRows(ops[1..], next);
      GatherCompose(RowsOf(b), IndexMap(ops[0], b.size), ComposedMap(ops[1..], next));
    }
  }

  // ---------------------------------------------------------------------
  // When joining loses ragged rows
  // ---------------------------------------------------------------------

  ghost predicate AllCarry(bs: seq<Batch>, k: string) {
    forall i :: 0 <= i < |bs| ==> k in bs[i].ragged
  }

  lemma {:induction false} RaggedRowCount(bs: seq<Batch>, k: string)
    requires forall i :: 0 <= i < |bs| ==> Valid(bs[i]) && bs[i].size > 0
    ensures |Flatten(RaggedParts(bs, k))| <= TotalSize(bs)
    ensures |Flatten(RaggedParts(bs, k))| == TotalSize(bs) <==> AllCarry(bs, k)
  {
    if |bs| > 0 {
      RaggedRowCount(bs[1..], k);
      assert RaggedParts(bs, k)[1..] == RaggedParts(bs[1..], k);
      assert AllCarry(bs, k) <==> k in bs[0].ragged && AllCarry(bs[1..], k);
    }
  }

  lemma {:induction false} PartsRowCount(bs: seq<Batch>, blocks: seq<seq<seq<Cell>>>)
    requires |blocks| == |bs|
    requires forall i :: 0 <= i < |bs| ==> |blocks[i]| == bs[i].size
    ensures |Flatten(blocks)| == TotalSize(bs)
  {
    if |bs| > 0 {
      PartsRowCount(bs[1..], blocks[1..]);
    }
  }

  ghost predicate RowsWide(rows: seq<seq<Cell>>, width: nat) {
    forall r :: 0 <= r < |rows| ==> |rows[r]| == width
  }

  lemma {:induction false} FlattenWide(blocks: seq<seq<seq<Cell>>>, width: nat)
    requires forall i :: 0 <= i < |blocks| ==> RowsWide(blocks[i], width)
    ensures RowsWide(Flatten(blocks), width)
  {
    if |blocks| > 0 {
      assert RowsWide(blocks[0], width);
      FlattenWide(blocks[1..], width);
    }
  }

  lemma JoinedColumnValid(bs: seq<Batch>, k: string, pad: bool)
    requires |bs| > 0 && forall i :: 0 <= i < |bs| ==> Valid(bs[i]) && k in bs[i].tensors
    requires JoinColumns(Parts(bs, k), pad).Ok?
    ensures var col := JoinColumns(Parts(bs, k), pad).value; col.Valid() && |col.rows| == TotalSize(bs)
  {
    var parts := Parts(bs, k);
    var width := Max(Widths(parts));
    if parts[0].width.None? {
      PartsRowCount(bs, PartRows(parts));
      forall i | 0 <= i < |parts| ensures RowsWide(PartRows(parts)[i], 1) {
        assert parts[i].Valid();
      }
      FlattenWide(PartRows(parts), 1);
    } else {
      PartsRowCount(bs, PaddedParts(parts, width));
      forall i | 0 <= i < |parts| ensures RowsWide(PaddedParts(parts, width)[i], width) {
        assert parts[i].Valid() && Widths(parts)[i] <= width;
      }
      FlattenWide(PaddedParts(parts, width), width);
    }
  }

  lemma JoinParts(bs: seq<Batch>, pad: bool)
    requires |bs| > 0 && forall i :: 0 <= i < |bs| ==> bs[0].tensors.Keys <= bs[i].tensors.Keys
    requires Join(bs, pad).Ok?
    ensures var r := Join(bs, pad).value;
            && r.size == TotalSize(bs) && r.ragged == RaggedConcat(bs)
            && r.tensors.Keys == bs[0].tensors.Keys
            && forall k :: k in r.tensors ==> JoinColumns(Parts(bs, k), pad) == Ok(r.tensors[k])
  {
  }

  lemma ConsistentIffSized(r: Batch)
    requires r.tensors.Keys != {}
    requires forall k :: k in r.tensors ==> r.tensors[k].Valid() && |r.tensors[k].rows| == r.size
    ensures Valid(r) <==> forall k :: k in r.ragged ==> |r.ragged[k]| == r.size
  {
  }

  /** Joining keeps the batch consistent exactly when every part carries every ragged
      column the first ragged part has; a part without it silently shifts the rows. */
  lemma JoinConsistentIff(bs: seq<Batch>, pad: bool)
    requires |bs| > 0 && forall i :: 0 <= i < |bs| ==> Valid(bs[i]) && bs[i].size > 0
    requires forall i :: 0 <= i < |bs| ==> bs[0].tensors.Keys <= bs[i].tensors.Keys
    requires bs[0].tensors.Keys != {} && Join(bs, pad).Ok?
    ensures Valid(Join(bs, pad).value) <==> forall k :: k in FirstRagged(bs) ==> AllCarry(bs, k)
  {
    JoinParts(bs, pad);
    var r := Join(bs, pad).value;
    forall k | k in r.tensors ensures r.tensors[k].Valid() && |r.tensors[k].rows| == r.size {
      JoinedColumnValid(bs, k, pad);
    }
    ConsistentIffSized(r);
    forall k | k in FirstRagged(bs) ensures |r.ragged[k]| == r.size <==> AllCarry(bs, k) {
      RaggedRowCount(bs, k);
    }
  }
}
