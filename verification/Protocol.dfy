/** The batch that flows between controller and workers: named tensor columns, ragged
    columns and metadata, all describing the same rows. */
module Protocol {
  import opened Arith
  import opened Seqs
  import opened Wrappers

  /** One entry along a tensor's second dimension; trailing dimensions are inside it. */
  type Cell = int

  /** A ragged payload: expert ids by position, layer and choice. */
  type Routes = seq<seq<seq<nat>>>

  /** A tensor by rows. `width` is its second dimension; a one-dimensional tensor has none
      and keeps one cell a row. */
  datatype Column = Column(width: Option<nat>, rows: seq<seq<Cell>>) {
    ghost predicate Valid() {
      forall i :: 0 <= i < |rows| ==> |rows[i]| == if width.Some? then width.value else 1
    }

    function Take(idx: seq<nat>): Column
      requires InRange(idx, |rows|)
    {
      Column(width, Gather(rows, idx))
    }

    function Slice(lo: nat, hi: nat): Column
      requires lo <= hi <= |rows|
    {
      Column(width, rows[lo..hi])
    }
  }

  datatype Meta = Scalar(value: int) | List(values: seq<int>)

  /** `size` is what `len` reports. */
  datatype Batch = Batch(
    size: nat, tensors: map<string, Column>, ragged: map<string, seq<Routes>>, meta: map<string, Meta>)

  const ATTENTION_MASK := "attention_mask"

  /** The consistency check: every column has `size` rows. */
  ghost predicate Valid(b: Batch) {
    && (forall k :: k in b.tensors ==> |b.tensors[k].rows| == b.size && b.tensors[k].Valid())
    && (forall k :: k in b.ragged ==> |b.ragged[k]| == b.size)
    && (b.tensors.Keys == {} && b.ragged.Keys == {} ==> b.size == 0)
  }

  function Empty(meta: map<string, Meta>): Batch {
    Batch(0, map[], map[], meta)
  }

  /** Everything the batch says about one row. */
  datatype Row = Row(cells: map<string, seq<Cell>>, ragged: map<string, Routes>)

  ghost function RowsOf(b: Batch): seq<Row>
    requires Valid(b)
  {
    seq(b.size, i requires 0 <= i < b.size =>
      Row(map k | k in b.tensors :: b.tensors[k].rows[i], map k | k in b.ragged :: b.ragged[k][i]))
  }

  /** The batch whose row `i` is row `idx[i]` of `b`, in every column. */
  function Reindex(b: Batch, idx: seq<nat>): (r: Batch)
    requires Valid(b) && InRange(idx, b.size)
    ensures Valid(r)
  {
    var tensors := map k | k in b.tensors :: b.tensors[k].Take(idx);
    var ragged := map k | k in b.ragged :: Gather(b.ragged[k], idx);
    assert tensors.Keys == b.tensors.Keys && ragged.Keys == b.ragged.Keys;
    assert |idx| > 0 ==> idx[0] < b.size;
    Batch(|idx|, tensors, ragged, b.meta)
  }

  lemma ReindexRows(b: Batch, idx: seq<nat>)
    requires Valid(b) && InRange(idx, b.size)
    ensures RowsOf(Reindex(b, idx)) == Gather(RowsOf(b), idx)
  {
    var r := Reindex(b, idx);
    forall i | 0 <= i < |idx| ensures RowsOf(r)[i] == RowsOf(b)[idx[i]] {
      assert RowsOf(r)[i].cells == RowsOf(b)[idx[i]].cells;
      assert RowsOf(r)[i].ragged == RowsOf(b)[idx[i]].ragged;
    }
  }

  lemma ReindexIota(b: Batch)
    requires Valid(b)
    ensures Reindex(b, Iota(b.size)) == b
  {
    var r := Reindex(b, Iota(b.size));
    forall k | k in b.tensors ensures r.tensors[k] == b.tensors[k] {
      GatherIota(b.tensors[k].rows);
    }
    forall k | k in b.ragged ensures r.ragged[k] == b.ragged[k] {
      GatherIota(b.ragged[k]);
    }
    assert r.tensors == b.tensors && r.ragged == b.ragged;
  }

  // ---------------------------------------------------------------------
  // Row selection
  // ---------------------------------------------------------------------

  /** A negative position counts from the end. */
  function Wrap(i: int, n: nat): int {
    if i < 0 then i + n else i
  }

  /** The batch wraps a position, and so does the tensor or list it is then used on. */
  function Normalize(i: int, n: nat): int {
    Wrap(Wrap(i, n), n)
  }

  function NormalizeAll(idxs: seq<int>, n: nat): (r: Option<seq<nat>>)
    ensures r.Some? <==> forall i :: 0 <= i < |idxs| ==> -2 * n <= idxs[i] < n
    ensures r.Some? ==> |r.value| == |idxs| && InRange(r.value, n)
    ensures r.Some? ==> forall i :: 0 <= i < |idxs| ==> r.value[i] == Normalize(idxs[i], n)
  {
    if forall i :: 0 <= i < |idxs| ==> 0 <= Normalize(idxs[i], n) < n then
      Some(seq(|idxs|, i requires 0 <= i < |idxs| => Normalize(idxs[i], n)))
    else None
  }

  /** Selection by a list of positions. */
  function SelectIdxs(b: Batch, idxs: seq<int>): Result<Batch>
    requires Valid(b)
  {
    if b.size == 0 then Ok(Empty(b.meta))
    else
      var norm := NormalizeAll(idxs, b.size);
      if norm.None? then Err(IndexError) else Ok(Reindex(b, norm.value))
  }

  // ---------------------------------------------------------------------
  // Splitting
  // ---------------------------------------------------------------------

  /** First row of chunk `i` out of `n`. */
  function Cut(size: nat, n: nat, i: nat): (c: nat)
    requires n > 0
  {
    i * size / n
  }

  lemma CutBounds(size: nat, n: nat, i: nat)
    requires 0 <= i < n
    ensures Cut(size, n, 0) == 0 && Cut(size, n, n) == size
    ensures Cut(size, n, i) <= Cut(size, n, i + 1) <= size
  {
    MulSucc(i, size);
    DivMonotone(i * size, (i + 1) * size, n);
    MulMonotone(i + 1, n, size);
    DivMonotone((i + 1) * size, n * size, n);
    MulDiv(size, n);
  }

  /** Rows `start` up to `end`, ragged columns included. */
  function Sliced(b: Batch, start: nat, end: nat): Batch
    requires Valid(b) && start <= end <= b.size
  {
    Batch(end - start,
          map k | k in b.tensors :: b.tensors[k].Slice(start, end),
          map k | k in b.ragged :: b.ragged[k][start..end],
          b.meta)
  }

  lemma SlicedIsReindex(b: Batch, start: nat, end: nat)
    requires Valid(b) && start <= end <= b.size
    ensures Sliced(b, start, end) == Reindex(b, Span(start, end))
  {
    var c, r := Sliced(b, start, end), Reindex(b, Span(start, end));
    forall k | k in b.tensors ensures c.tensors[k] == r.tensors[k] {
      GatherSpan(b.tensors[k].rows, start, end);
    }
    forall k | k in b.ragged ensures c.ragged[k] == r.ragged[k] {
      GatherSpan(b.ragged[k], start, end);
    }
    assert c.tensors == r.tensors && c.ragged == r.ragged;
  }

  function Chunk(b: Batch, n: nat, i: nat): Batch
    requires Valid(b) && i < n
  {
    CutBounds(b.size, n, i);
    Sliced(b, Cut(b.size, n, i), Cut(b.size, n, i + 1))
  }

  /** Any two chunks differ by at most one row. */
  lemma ChunksAreEven(size: nat, n: nat, i: nat, j: nat)
    requires i < n && j < n
    ensures 0 <= Cut(size, n, i + 1) - Cut(size, n, i) <= Cut(size, n, j + 1) - Cut(size, n, j) + 1
  {
    CutStep(size, n, i);
    CutStep(size, n, j);
  }

  lemma CutStep(size: nat, n: nat, i: nat)
    requires i < n
    ensures var step := Cut(size, n, i + 1) - Cut(size, n, i);
            step == size / n || step == size / n + 1
  {
    DivMod(size, n);
    DivMod(i * size, n);
    DivMod((i + 1) * size, n);
    MulSucc(i, size);
    var q, rest := size / n, size % n;
    var c, left := Cut(size, n, i), (i * size) % n;
    assert (i + 1) * size == c * n + left + q * n + rest;
    assert c * n + q * n == (c + q) * n;
    if left + rest < n {
      DivModUnique((i + 1) * size, n, c + q, left + rest);
    } else {
      MulSucc(c + q, n);
      DivModUnique((i + 1) * size, n, c + q + 1, left + rest - n);
    }
  }

  function Split(b: Batch, n: nat): (chunks: seq<Batch>)
    requires Valid(b)
    ensures |chunks| == n
  {
    if b.size == 0 then seq(n, _ => Empty(b.meta))
    else seq(n, i requires 0 <= i < n => Chunk(b, n, i))
  }

  /** The rows chunk `i` holds. */
  function ChunkRows(size: nat, n: nat, i: nat): (r: seq<nat>)
    requires i < n
    ensures InRange(r, size)
  {
    CutBounds(size, n, i);
    Span(Cut(size, n, i), Cut(size, n, i + 1))
  }

  lemma ChunkIsReindex(b: Batch, n: nat, i: nat)
    requires Valid(b) && i < n
    ensures Chunk(b, n, i) == Reindex(b, ChunkRows(b.size, n, i))
  {
    CutBounds(b.size, n, i);
    SlicedIsReindex(b, Cut(b.size, n, i), Cut(b.size, n, i + 1));
  }

  function AllChunkRows(size: nat, n: nat): seq<seq<nat>> {
    seq(n, i requires 0 <= i < n => ChunkRows(size, n, i))
  }

  /** The chunks cover every row once, in order. */
  lemma ChunksCover(size: nat, n: nat)
    requires n > 0
    ensures Flatten(AllChunkRows(size, n)) == Iota(size)
  {
    ChunksCoverUpTo(size, n, n);
    CutBounds(size, n, 0);
    TakeAll(AllChunkRows(size, n), n);
  }

  lemma {:induction false} ChunksCoverUpTo(size: nat, n: nat, i: nat)
    requires 0 < n && i <= n
    ensures Flatten(AllChunkRows(size, n)[..i]) == Iota(Cut(size, n, i))
  {
    var rows := AllChunkRows(size, n);
    if i == 0 {
      CutBounds(size, n, 0);
    } else {
      ChunksCoverUpTo(size, n, i - 1);
      CutBounds(size, n, i - 1);
      assert rows[..i] == rows[..i - 1] + [rows[i - 1]];
      FlattenSnoc(rows[..i - 1], rows[i - 1]);
      assert Iota(Cut(size, n, i)) == Iota(Cut(size, n, i - 1)) + ChunkRows(size, n, i - 1);
    }
  }

  // ---------------------------------------------------------------------
  // Concatenating and merging
  // ---------------------------------------------------------------------

  function NonEmpty(bs: seq<Batch>): seq<Batch> {
    if |bs| == 0 then []
    else if bs[0].size == 0 then NonEmpty(bs[1..])
    else [bs[0]] + NonEmpty(bs[1..])
  }

  function PadRight(row: seq<Cell>, width: nat): (r: seq<Cell>)
    ensures |r| == (if |row| >= width then |row| else width) && r[..|row|] == row
    ensures forall j :: |row| <= j < |r| ==> r[j] == 0
  {
    if |row| >= width then row else row + seq(width - |row|, _ => 0)
  }

  function Widths(parts: seq<Column>): seq<nat> {
    seq(|parts|, i requires 0 <= i < |parts| => if parts[i].width.Some? then parts[i].width.value else 1)
  }

  function PaddedRows(rows: seq<seq<Cell>>, width: nat): seq<seq<Cell>> {
    seq(|rows|, i requires 0 <= i < |rows| => PadRight(rows[i], width))
  }

  function PartRows(parts: seq<Column>): seq<seq<seq<Cell>>> {
    seq(|parts|, i requires 0 <= i < |parts| => parts[i].rows)
  }

  function PaddedParts(parts: seq<Column>, width: nat): seq<seq<seq<Cell>>> {
    seq(|parts|, i requires 0 <= i < |parts| => PaddedRows(parts[i].rows, width))
  }

  /** Concatenation along the rows. With `pad`, narrower matrices are zero-padded on the
      right; without, torch refuses differing widths. */
  function JoinColumns(parts: seq<Column>, pad: bool): Result<Column>
    requires |parts| > 0
  {
    if exists i :: 0 <= i < |parts| && parts[i].width.Some? != parts[0].width.Some? then Err(ShapeError)
    else if !pad && exists i :: 0 <= i < |parts| && parts[i].width != parts[0].width then Err(ShapeError)
    else if parts[0].width.None? then Ok(Column(None, Flatten(PartRows(parts))))
    else
      var width := Max(Widths(parts));
      Ok(Column(Some(width), Flatten(PaddedParts(parts, width))))
  }

  function FirstRagged(bs: seq<Batch>): map<string, seq<Routes>> {
    if |bs| == 0 then map[]
    else if bs[0].ragged != map[] then bs[0].ragged
    else FirstRagged(bs[1..])
  }

  function RaggedParts(bs: seq<Batch>, k: string): seq<seq<Routes>> {
    seq(|bs|, i requires 0 <= i < |bs| => if k in bs[i].ragged then bs[i].ragged[k] else [])
  }

  /** Ragged columns are joined under the keys of the first batch that has any; a batch
      without the key contributes nothing. */
  function RaggedConcat(bs: seq<Batch>): map<string, seq<Routes>> {
    map k | k in FirstRagged(bs) :: Flatten(RaggedParts(bs, k))
  }

  function Parts(bs: seq<Batch>, k: string): seq<Column>
    requires forall i :: 0 <= i < |bs| ==> k in bs[i].tensors
  {
    seq(|bs|, i requires 0 <= i < |bs| => bs[i].tensors[k])
  }

  function TotalSize(bs: seq<Batch>): nat {
    if |bs| == 0 then 0 else bs[0].size + TotalSize(bs[1..])
  }

  function Join(bs: seq<Batch>, pad: bool): Result<Batch>
    requires |bs| > 0
    requires forall i :: 0 <= i < |bs| ==> bs[0].tensors.Keys <= bs[i].tensors.Keys
  {
    if forall k :: k in bs[0].tensors ==> JoinColumns(Parts(bs, k), pad).Ok? then
      Ok(Batch(TotalSize(bs),
               map k | k in bs[0].tensors :: JoinColumns(Parts(bs, k), pad).value,
               RaggedConcat(bs),
               bs[0].meta))
    else Err(ShapeError)
  }

  function Concat(protos: seq<Batch>): Result<Batch> {
    if |protos| == 0 then Ok(Empty(map[]))
    else
      var bs := NonEmpty(protos);
      if |bs| == 0 then Ok(Empty(protos[0].meta))
      else if exists i :: 0 <= i < |bs| && !(bs[0].tensors.Keys <= bs[i].tensors.Keys) then Err(KeyError)
      else Join(bs, false)
  }

  function Merge(protos: seq<Batch>): Result<Batch> {
    if |protos| == 0 then Ok(Empty(map[]))
    else
      var bs := NonEmpty(protos);
      if |bs| == 0 then Ok(Empty(protos[0].meta))
      else if exists i :: 0 <= i < |bs| && bs[i].tensors.Keys != bs[0].tensors.Keys then Err(ValueError)
      else Join(bs, true)
  }

  // ---------------------------------------------------------------------
  // Pieces of one batch come back together
  // ---------------------------------------------------------------------

  /** The pieces of `b` named by the index lists. */
  function Pieces(b: Batch, idxs: seq<seq<nat>>): seq<Batch>
    requires Valid(b) && forall i :: 0 <= i < |idxs| ==> InRange(idxs[i], b.size)
  {
    seq(|idxs|, i requires 0 <= i < |idxs| => Reindex(b, idxs[i]))
  }

  ghost predicate AllInRange(idxs: seq<seq<nat>>, n: nat) {
    forall i :: 0 <= i < |idxs| ==> InRange(idxs[i], n)
  }

  lemma NonEmptyCons(x: Batch, xs: seq<Batch>)
    ensures NonEmpty([x] + xs) == if x.size == 0 then NonEmpty(xs) else [x] + NonEmpty(xs)
  {
    assert ([x] + xs)[1..] == xs;
  }

  lemma PiecesCons(b: Batch, idx: seq<nat>, idxs: seq<seq<nat>>)
    requires Valid(b) && InRange(idx, b.size) && AllInRange(idxs, b.size)
    ensures Pieces(b, [idx] + idxs) == [Reindex(b, idx)] + Pieces(b, idxs)
  {
  }

  lemma {:induction false} NonEmptyPieces(b: Batch, idxs: seq<seq<nat>>)
    requires Valid(b) && AllInRange(idxs, b.size)
    ensures AllInRange(DropEmpty(idxs), b.size)
    ensures NonEmpty(Pieces(b, idxs)) == Pieces(b, DropEmpty(idxs))
  {
    DropEmptyMembers(idxs);
    if |idxs| > 0 {
      assert idxs == [idxs[0]] + idxs[1..];
      PiecesCons(b, idxs[0], idxs[1..]);
      NonEmptyPieces(b, idxs[1..]);
      NonEmptyCons(Reindex(b, idxs[0]), Pieces(b, idxs[1..]));
      if |idxs[0]| > 0 {
        PiecesCons(b, idxs[0], DropEmpty(idxs[1..]));
      }
    }
  }

  lemma {:induction false} FlattenGathers<T>(xs: seq<T>, idxs: seq<seq<nat>>)
    requires AllInRange(idxs, |xs|)
    ensures InRange(Flatten(idxs), |xs|)
    ensures Flatten(Gathers(xs, idxs)) == Gather(xs, Flatten(idxs))
  {
    if |idxs| > 0 {
      FlattenGathers(xs, idxs[1..]);
      assert Gathers(xs, idxs)[1..] == Gathers(xs, idxs[1..]);
    }
  }

  function Gathers<T>(xs: seq<T>, idxs: seq<seq<nat>>): seq<seq<T>>
    requires forall i :: 0 <= i < |idxs| ==> InRange(idxs[i], |xs|)
  {
    seq(|idxs|, i requires 0 <= i < |idxs| => Gather(xs, idxs[i]))
  }

  lemma JoinColumnPieces(col: Column, parts: seq<Column>, idxs: seq<seq<nat>>, pad: bool)
    requires col.Valid() && AllInRange(idxs, |col.rows|) && |idxs| == |parts| > 0
    requires forall i :: 0 <= i < |parts| ==> parts[i] == col.Take(idxs[i])
    ensures InRange(Flatten(idxs), |col.rows|)
    ensures JoinColumns(parts, pad) == Ok(col.Take(Flatten(idxs)))
  {
    FlattenGathers(col.rows, idxs);
    if col.width.None? {
      assert PartRows(parts) == Gathers(col.rows, idxs);
    } else {
      var width := Max(Widths(parts));
      assert Widths(parts)[0] == col.width.value;
      assert width == col.width.value;
      forall i | 0 <= i < |parts| ensures PaddedRows(parts[i].rows, width) == Gather(col.rows, idxs[i]) {
      }
      assert PaddedParts(parts, width) == Gathers(col.rows, idxs);
    }
  }

  lemma RaggedPieces(b: Batch, idxs: seq<seq<nat>>, k: string)
    requires Valid(b) && AllInRange(idxs, b.size) && k in b.ragged
    ensures InRange(Flatten(idxs), b.size)
    ensures Flatten(RaggedParts(Pieces(b, idxs), k)) == Gather(b.ragged[k], Flatten(idxs))
  {
    FlattenGathers(b.ragged[k], idxs);
    assert RaggedParts(Pieces(b, idxs), k) == Gathers(b.ragged[k], idxs);
  }

  lemma JoinRaggedPieces(b: Batch, idxs: seq<seq<nat>>)
    requires Valid(b) && AllInRange(idxs, b.size) && |idxs| > 0
    ensures InRange(Flatten(idxs), b.size)
    ensures RaggedConcat(Pieces(b, idxs)) == Reindex(b, Flatten(idxs)).ragged
  {
    FlattenGathers(Iota(b.size), idxs);
    FirstRaggedKeys(Pieces(b, idxs), b.ragged.Keys);
    var columns := Reindex(b, Flatten(idxs)).ragged;
    forall k | k in columns ensures Flatten(RaggedParts(Pieces(b, idxs), k)) == columns[k] {
      RaggedPieces(b, idxs, k);
    }
    RaggedIs(Pieces(b, idxs), columns);
  }

  lemma RaggedIs(bs: seq<Batch>, columns: map<string, seq<Routes>>)
    requires FirstRagged(bs).Keys == columns.Keys
    requires forall k :: k in columns ==> Flatten(RaggedParts(bs, k)) == columns[k]
    ensures RaggedConcat(bs) == columns
  {
  }

  lemma {:induction false} FirstRaggedKeys(bs: seq<Batch>, keys: set<string>)
    requires |bs| > 0 && forall i :: 0 <= i < |bs| ==> bs[i].ragged.Keys == keys
    ensures FirstRagged(bs).Keys == keys
  {
    if bs[0].ragged == map[] && |bs| > 1 {
      FirstRaggedKeys(bs[1..], keys);
    }
  }

  lemma {:induction false} PiecesSize(b: Batch, idxs: seq<seq<nat>>)
    requires Valid(b) && AllInRange(idxs, b.size)
    ensures TotalSize(Pieces(b, idxs)) == |Flatten(idxs)|
  {
    if |idxs| > 0 {
      PiecesSize(b, idxs[1..]);
      assert Pieces(b, idxs)[1..] == Pieces(b, idxs[1..]);
    }
  }

  lemma JoinIs(bs: seq<Batch>, pad: bool, columns: map<string, Column>)
    requires |bs| > 0 && forall i :: 0 <= i < |bs| ==> bs[0].tensors.Keys <= bs[i].tensors.Keys
    requires columns.Keys == bs[0].tensors.Keys
    requires forall k :: k in columns ==> JoinColumns(Parts(bs, k), pad) == Ok(columns[k])
    ensures Join(bs, pad) == Ok(Batch(TotalSize(bs), columns, RaggedConcat(bs), bs[0].meta))
  {
    var joined := Join(bs, pad);
    assert joined.Ok? && joined.value.tensors == columns;
  }

  lemma JoinPieces(b: Batch, idxs: seq<seq<nat>>, pad: bool)
    requires Valid(b) && AllInRange(idxs, b.size) && |idxs| > 0
    ensures InRange(Flatten(idxs), b.size)
    ensures Join(Pieces(b, idxs), pad) == Ok(Reindex(b, Flatten(idxs)))
  {
    JoinRaggedPieces(b, idxs);
    PiecesSize(b, idxs);
    JoinTensorPieces(b, idxs, pad);
    JoinIs(Pieces(b, idxs), pad, Reindex(b, Flatten(idxs)).tensors);
  }

  lemma PiecesKeepKeys(b: Batch, idxs: seq<seq<nat>>)
    requires Valid(b) && AllInRange(idxs, b.size)
    ensures forall i :: 0 <= i < |idxs| ==> Pieces(b, idxs)[i].tensors.Keys == b.tensors.Keys
  {
  }

  lemma JoinTensorPieces(b: Batch, idxs: seq<seq<nat>>, pad: bool)
    requires Valid(b) && AllInRange(idxs, b.size) && |idxs| > 0
    ensures InRange(Flatten(idxs), b.size)
    ensures forall i :: 0 <= i < |idxs| ==> Pieces(b, idxs)[i].tensors.Keys == b.tensors.Keys
    ensures forall k :: k in b.tensors ==>
                          JoinColumns(Parts(Pieces(b, idxs), k), pad) == Ok(b.tensors[k].Take(Flatten(idxs)))
  {
    FlattenGathers(Iota(b.size), idxs);
    PiecesKeepKeys(b, idxs);
    forall k | k in b.tensors
      ensures JoinColumns(Parts(Pieces(b, idxs), k), pad) == Ok(b.tensors[k].Take(Flatten(idxs)))
    {
      JoinOnePiecedColumn(b, idxs, k, pad);
    }
  }

  lemma JoinOnePiecedColumn(b: Batch, idxs: seq<seq<nat>>, k: string, pad: bool)
    requires Valid(b) && AllInRange(idxs, b.size) && |idxs| > 0 && k in b.tensors
    ensures InRange(Flatten(idxs), b.size)
    ensures JoinColumns(Parts(Pieces(b, idxs), k), pad) == Ok(b.tensors[k].Take(Flatten(idxs)))
  {
    JoinColumnPieces(b.tensors[k], Parts(Pieces(b, idxs), k), idxs, pad);
  }

  /** Merging or concatenating any pieces of a batch gives the rows of the pieces in order. */
  lemma RejoinPieces(b: Batch, idxs: seq<seq<nat>>)
    requires Valid(b) && AllInRange(idxs, b.size) && |Flatten(idxs)| > 0
    ensures InRange(Flatten(idxs), b.size)
    ensures Merge(Pieces(b, idxs)) == Ok(Reindex(b, Flatten(idxs)))
    ensures Concat(Pieces(b, idxs)) == Ok(Reindex(b, Flatten(idxs)))
  {
    NonEmptyPieces(b, idxs);
    DropEmptyFlatten(idxs);
    DropEmptyMembers(idxs);
    JoinPieces(b, DropEmpty(idxs), true);
    JoinPieces(b, DropEmpty(idxs), false);
  }

  lemma SplitPieces(b: Batch, n: nat)
    requires Valid(b) && b.size > 0
    ensures AllInRange(AllChunkRows(b.size, n), b.size)
    ensures Split(b, n) == Pieces(b, AllChunkRows(b.size, n))
  {
    forall i | 0 <= i < n ensures Split(b, n)[i] == Pieces(b, AllChunkRows(b.size, n))[i] {
      ChunkIsReindex(b, n, i);
    }
  }

  /** A batch without rows splits into chunks without columns, and is padded to one. */
  lemma NothingToSplit(b: Batch, n: nat, divisor: int)
    requires Valid(b) && b.size == 0
    ensures forall i :: 0 <= i < n ==> Split(b, n)[i] == Empty(b.meta)
    ensures divisor > 0 ==> PadToDivisor(b, divisor) == Ok((Empty(b.meta), 0))
    ensures divisor <= 0 ==> PadToDivisor(b, divisor) == Err(ValueError)
  {
  }

  /** Columns join exactly when all are matrices or none is and, without padding, their widths
      agree. */
  lemma JoinColumnsOkIff(parts: seq<Column>, pad: bool)
    requires |parts| > 0
    ensures JoinColumns(parts, pad).Ok? <==>
            forall i, j :: 0 <= i < |parts| && 0 <= j < |parts| ==>
                             && parts[i].width.Some? == parts[j].width.Some?
                             && (pad || parts[i].width == parts[j].width)
  {
    if JoinColumns(parts, pad).Err? {
      var i :| 0 <= i < |parts| && (parts[i].width.Some? != parts[0].width.Some?
                                    || (!pad && parts[i].width != parts[0].width));
    } else {
      forall i | 0 <= i < |parts|
        ensures parts[i].width.Some? == parts[0].width.Some? && (pad || parts[i].width == parts[0].width)
      {
      }
    }
  }

  /** The ragged columns of the first part that has any. */
  lemma {:induction false} FirstRaggedIs(bs: seq<Batch>)
    ensures (forall i :: 0 <= i < |bs| ==> bs[i].ragged == map[]) ==> FirstRagged(bs) == map[]
    ensures forall k :: 0 <= k < |bs| && bs[k].ragged != map[] && (forall i :: 0 <= i < k ==> bs[i].ragged == map[]) ==>
                          FirstRagged(bs) == bs[k].ragged
  {
    if |bs| > 0 {
      FirstRaggedIs(bs[1..]);
      forall k | 0 < k < |bs| && bs[k].ragged != map[] && forall i :: 0 <= i < k ==> bs[i].ragged == map[]
        ensures FirstRagged(bs) == bs[k].ragged
      {
        assert bs[0].ragged == map[];
        assert bs[1..][k - 1] == bs[k];
        assert forall i :: 0 <= i < k - 1 ==> bs[1..][i] == bs[i + 1];
      }
    }
  }

  /** Main result: splitting into any number of chunks, more than there are rows included,
      and merging gives the batch back. */
  lemma MergeSplit(b: Batch, n: nat)
    requires Valid(b) && b.size > 0 && n > 0
    ensures Merge(Split(b, n)) == Ok(b) && Concat(Split(b, n)) == Ok(b)
  {
    SplitPieces(b, n);
    ChunksCover(b.size, n);
    RejoinPieces(b, AllChunkRows(b.size, n));
    ReindexIota(b);
  }

  // ---------------------------------------------------------------------
  // Padding
  // ---------------------------------------------------------------------

  function WrapIndices(pad: nat, n: nat): (r: seq<int>)
    requires n > 0
    ensures |r| == pad && forall i :: 0 <= i < pad ==> 0 <= r[i] < n && r[i] == i % n
  {
    seq(pad, i requires 0 <= i => i % n)
  }

  function PadSize(size: nat, divisor: nat): nat
    requires divisor > 0
  {
    if size % divisor == 0 then 0 else divisor - size % divisor
  }

  function PadToDivisor(b: Batch, divisor: int): Result<(Batch, nat)>
    requires Valid(b)
  {
    if divisor <= 0 then Err(ValueError)
    else if b.size == 0 then Ok((Empty(b.meta), 0))
    else if b.size % divisor == 0 then Ok((b, 0))
    else
      var pad := PadSize(b.size, divisor);
      var part :- SelectIdxs(b, WrapIndices(pad, b.size));
      var whole :- Concat([b, part]);
      Ok((whole, pad))
  }

  function Unpad(b: Batch, pad: int): Result<Batch>
    requires Valid(b)
  {
    if pad < 0 then Err(ValueError)
    else if pad == 0 || b.size == 0 then Ok(b)
    else
      var keep := if b.size >= pad then b.size - pad else 0;
      SelectIdxs(b, seq(keep, i requires 0 <= i => i))
  }

  function PaddedRowMap(size: nat, pad: nat): (r: seq<nat>)
    requires size > 0
    ensures |r| == size + pad && InRange(r, size)
  {
    Iota(size) + seq(pad, i requires 0 <= i => i % size)
  }

  /** Padding repeats rows from the start until the divisor divides the size. */
  lemma PadIsReindex(b: Batch, divisor: nat)
    requires Valid(b) && b.size > 0 && divisor > 0
    ensures var pad := PadSize(b.size, divisor);
            && PadToDivisor(b, divisor) == Ok((Reindex(b, PaddedRowMap(b.size, pad)), pad))
            && pad < divisor && (b.size + pad) % divisor == 0
  {
    PadDivides(b.size, divisor);
    PadAppends(b, divisor, PadSize(b.size, divisor));
  }

  lemma PadAppends(b: Batch, divisor: nat, pad: nat)
    requires Valid(b) && b.size > 0 && divisor > 0 && pad == PadSize(b.size, divisor)
    requires pad == 0 <==> b.size % divisor == 0
    ensures PadToDivisor(b, divisor) == Ok((Reindex(b, PaddedRowMap(b.size, pad)), pad))
  {
    if pad == 0 {
      ReindexIota(b);
      NoPadding(b.size);
    } else {
      AppendWrapped(b, pad);
    }
  }

  lemma NoPadding(size: nat)
    requires size > 0
    ensures PaddedRowMap(size, 0) == Iota(size)
  {
  }

  lemma AppendWrapped(b: Batch, pad: nat)
    requires Valid(b) && b.size > 0
    ensures SelectIdxs(b, WrapIndices(pad, b.size)).Ok?
    ensures Concat([b, SelectIdxs(b, WrapIndices(pad, b.size)).value]) == Ok(Reindex(b, PaddedRowMap(b.size, pad)))
  {
    ReindexIota(b);
    var wrap: seq<nat> := seq(pad, i requires 0 <= i => i % b.size);
    assert NormalizeAll(WrapIndices(pad, b.size), b.size).value == wrap;
    var idxs := [Iota(b.size), wrap];
    assert Pieces(b, idxs) == [b, Reindex(b, wrap)];
    FlattenPair(Iota(b.size), wrap);
    RejoinPieces(b, idxs);
  }

  lemma PadDivides(size: nat, divisor: nat)
    requires divisor > 0
    ensures PadSize(size, divisor) < divisor && (size + PadSize(size, divisor)) % divisor == 0
    ensures PadSize(size, divisor) == 0 <==> size % divisor == 0
  {
    DivMod(size, divisor);
    MulSucc(size / divisor, divisor);
    MulDiv(size / divisor + 1, divisor);
  }

  /** Unpadding takes off exactly what padding added. */
  lemma UnpadRows(b: Batch, pad: nat)
    requires Valid(b) && pad < b.size
    ensures InRange(Iota(b.size - pad), b.size)
    ensures Unpad(b, pad) == Ok(Reindex(b, Iota(b.size - pad)))
  {
    if pad == 0 {
      ReindexIota(b);
    } else {
      var keep := b.size - pad;
      assert NormalizeAll(seq(keep, i requires 0 <= i => i), b.size).value == Iota(keep);
    }
  }

  lemma UnpadPad(b: Batch, divisor: nat)
    requires Valid(b) && b.size > 0 && divisor > 0
    ensures PadToDivisor(b, divisor).Ok?
    ensures var (padded, pad) := PadToDivisor(b, divisor).value;
            Valid(padded) && Unpad(padded, pad) == Ok(b)
  {
    PadIsReindex(b, divisor);
    UnpadMapped(b, PadSize(b.size, divisor));
  }

  lemma UnpadMapped(b: Batch, pad: nat)
    requires Valid(b) && b.size > 0
    ensures Unpad(Reindex(b, PaddedRowMap(b.size, pad)), pad) == Ok(b)
  {
    var order := PaddedRowMap(b.size, pad);
    UnpadRows(Reindex(b, order), pad);
    ReindexReindex(b, order, Iota(b.size));
    GatherPrefix(order, b.size);
    assert order[..b.size] == Iota(b.size);
    ReindexIota(b);
  }

  lemma TensorsTwice(b: Batch, first: seq<nat>, second: seq<nat>)
    requires Valid(b) && InRange(first, b.size) && InRange(second, |first|)
    ensures InRange(Gather(first, second), b.size)
    ensures Reindex(Reindex(b, first), second).tensors == Reindex(b, Gather(first, second)).tensors
  {
    forall k | k in b.tensors
      ensures Gather(Gather(b.tensors[k].rows, first), second) == Gather(b.tensors[k].rows, Gather(first, second))
    {
      GatherCompose(b.tensors[k].rows, first, second);
    }
  }

  lemma RaggedTwice(b: Batch, first: seq<nat>, second: seq<nat>)
    requires Valid(b) && InRange(first, b.size) && InRange(second, |first|)
    ensures InRange(Gather(first, second), b.size)
    ensures Reindex(Reindex(b, first), second).ragged == Reindex(b, Gather(first, second)).ragged
  {
    forall k | k in b.ragged
      ensures Gather(Gather(b.ragged[k], first), second) == Gather(b.ragged[k], Gather(first, second))
    {
      GatherCompose(b.ragged[k], first, second);
    }
  }

  /** Two index maps in a row are one. */
  lemma ReindexReindex(b: Batch, first: seq<nat>, second: seq<nat>)
    requires Valid(b) && InRange(first, b.size) && InRange(second, |first|)
    ensures InRange(Gather(first, second), b.size)
    ensures Reindex(Reindex(b, first), second) == Reindex(b, Gather(first, second))
  {
    TensorsTwice(b, first, second);
    RaggedTwice(b, first, second);
  }
}
