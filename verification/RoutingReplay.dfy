/** Rollout routing replay: the rollout's expert choices laid out in packed token order, and
    put in place of the router's own choices. */
module RoutingReplay {
  import opened Arith
  import opened Protocol
  import opened RowOperations
  import opened Seqs
  import opened Wrappers

  /** The expert ids of one token, by layer and choice. */
  type Experts = seq<seq<nat>>

  /** One packed position: the injected ids, and whether they count. */
  datatype Slot = Slot(experts: Experts, valid: bool)

  // ---------------------------------------------------------------------
  // Packing
  // ---------------------------------------------------------------------

  /** Where sequence `i` starts in the packed order. */
  function Offset(lens: seq<nat>, i: nat): nat
    requires i <= |lens|
  {
    if i == 0 then 0 else Offset(lens, i - 1) + lens[i - 1]
  }

  function Zeros(nLayers: nat, topK: nat): Experts {
    seq(nLayers, _ => seq(topK, _ => 0))
  }

  /** How many positions of sequence `i` have a route: all but the last, if recorded. */
  function Covered(rows: seq<Option<Routes>>, lens: seq<nat>, i: nat): (n: nat)
    requires i < |lens|
    ensures n <= lens[i] && (n > 0 ==> n < lens[i] && i < |rows| && rows[i].Some? && n <= |rows[i].value|)
  {
    if i < |rows| && rows[i].Some? && lens[i] > 1 then
      if |rows[i].value| < lens[i] - 1 then |rows[i].value| else lens[i] - 1
    else 0
  }

  predicate Shaped(block: Routes, nLayers: nat, topK: nat) {
    forall t :: 0 <= t < |block| ==> |block[t]| == nLayers && forall l :: 0 <= l < nLayers ==> |block[t][l]| == topK
  }

  /** The part of sequence `i`'s routing that is used has the expected shape. */
  ghost predicate RowShaped(rows: seq<Option<Routes>>, lens: seq<nat>, nLayers: nat, topK: nat, i: nat)
    requires i < |lens|
  {
    Covered(rows, lens, i) > 0 ==> Shaped(rows[i].value[..Covered(rows, lens, i)], nLayers, topK)
  }

  function RowSlots(rows: seq<Option<Routes>>, lens: seq<nat>, blank: Experts, i: nat): seq<Slot>
    requires i < |lens|
  {
    var n := Covered(rows, lens, i);
    seq(lens[i], t requires 0 <= t < lens[i] => if t < n then Slot(rows[i].value[t], true) else Slot(blank, false))
  }

  /** The packed layout of the first `k` sequences. */
  function Layout(rows: seq<Option<Routes>>, lens: seq<nat>, blank: Experts, k: nat): (slots: seq<Slot>)
    requires k <= |lens|
    ensures |slots| == Offset(lens, k)
  {
    if k == 0 then [] else Layout(rows, lens, blank, k - 1) + RowSlots(rows, lens, blank, k - 1)
  }

  /** What packing installs: expert ids and validity by packed position. */
  datatype Routing = Routing(nLayers: nat, indices: seq<Experts>, valid: seq<bool>)

  ghost predicate Holds(r: Routing, slots: seq<Slot>) {
    && |r.indices| == |r.valid| == |slots|
    && forall p :: 0 <= p < |slots| ==> r.indices[p] == slots[p].experts && r.valid[p] == slots[p].valid
  }

  lemma OffsetMonotone(lens: seq<nat>, i: nat, j: nat)
    requires i <= j <= |lens|
    ensures Offset(lens, i) <= Offset(lens, j)
  {
  }

  lemma {:induction false} OffsetIsSum(lens: seq<nat>, i: nat)
    requires i <= |lens|
    ensures Offset(lens, i) == Sum(lens[..i])
  {
    if i > 0 {
      OffsetIsSum(lens, i - 1);
      assert lens[..i] == lens[..i - 1] + [lens[i - 1]];
      SumConcat(lens[..i - 1], [lens[i - 1]]);
      assert Sum([lens[i - 1]]) == lens[i - 1] + Sum([]);
    }
  }

  /** Writes one sequence's routes from packed position `off` on. */
  method FillRow(indices: array<Experts>, valid: array<bool>, off: nat, block: Routes)
    requires off + |block| <= indices.Length == valid.Length
    modifies indices, valid
    ensures forall p :: 0 <= p < indices.Length ==>
              && indices[p] == (if off <= p < off + |block| then block[p - off] else old(indices[p]))
              && valid[p] == (if off <= p < off + |block| then true else old(valid[p]))
  {
    forall t | 0 <= t < |block| {
      indices[off + t] := block[t];
    }
    forall t | 0 <= t < |block| {
      valid[off + t] := true;
    }
  }

  /** Packs sequence `i`, unless its routes have the wrong shape. */
  method PackRow(indices: array<Experts>, valid: array<bool>, off: nat, rows: seq<Option<Routes>>, lens: seq<nat>,
                 nLayers: nat, topK: nat, i: nat)
      returns (ok: bool)
    requires i < |lens| && off == Offset(lens, i) && off + lens[i] <= indices.Length == valid.Length
    requires Packed(indices[..], valid[..], Layout(rows, lens, Zeros(nLayers, topK), i), Zeros(nLayers, topK))
    modifies indices, valid
    ensures ok <==> RowShaped(rows, lens, nLayers, topK, i)
    ensures ok ==> Packed(indices[..], valid[..], Layout(rows, lens, Zeros(nLayers, topK), i + 1), Zeros(nLayers, topK))
  {
    var n := Covered(rows, lens, i);
    if n > 0 {
      var block := rows[i].value[..n];
      if !Shaped(block, nLayers, topK) {
        return false;
      }
      FillRow(indices, valid, off, block);
    }
    ok := true;
  }

  /** Lays the routing out. Nothing comes back when there are no tokens or no rows. */
  method PackRolloutRouting(rows: seq<Option<Routes>>, lens: seq<nat>, nLayers: nat, topK: nat)
      returns (r: Result<Option<Routing>>)
    ensures r.Err? ==> r.error == RuntimeError && Offset(lens, |lens|) > 0 && |rows| > 0
                       && exists i :: 0 <= i < |lens| && !RowShaped(rows, lens, nLayers, topK, i)
    ensures r.Ok? && r.value.None? <==> Offset(lens, |lens|) == 0 || rows == []
    ensures r.Ok? && r.value.Some? ==>
              && Holds(r.value.value, Layout(rows, lens, Zeros(nLayers, topK), |lens|))
              && r.value.value.nLayers == nLayers
              && forall i :: 0 <= i < |lens| ==> RowShaped(rows, lens, nLayers, topK, i)
  {
    OffsetIsSum(lens, |lens|);
    TakeAll(lens, |lens|);
    var total := Sum(lens);
    if total == 0 || rows == [] {
      return Ok(None);
    }
    ghost var blank := Zeros(nLayers, topK);
    var indices := new Experts[total](_ => Zeros(nLayers, topK));
    var valid := new bool[total](_ => false);
    var off := 0;
    for i := 0 to |lens|
      invariant off == Offset(lens, i) <= total
      invariant forall k :: 0 <= k < i ==> RowShaped(rows, lens, nLayers, topK, k)
      invariant Packed(indices[..], valid[..], Layout(rows, lens, blank, i), blank)
    {
      OffsetMonotone(lens, i + 1, |lens|);
      var ok := PackRow(indices, valid, off, rows, lens, nLayers, topK, i);
      if !ok {
        return Err(RuntimeError);
      }
      off := off + lens[i];
    }
    r := Ok(Some(Routing(nLayers, indices[..], valid[..])));
  }

  /** The first positions hold the layout, the others are still blank. */
  ghost predicate Packed(indices: seq<Experts>, valid: seq<bool>, slots: seq<Slot>, blank: Experts) {
    && |indices| == |valid| && |slots| <= |indices|
    && forall p :: 0 <= p < |indices| ==>
         && indices[p] == (if p < |slots| then slots[p].experts else blank)
         && valid[p] == if p < |slots| then slots[p].valid else false
  }

  /** Position `t` of sequence `i` sits at the sequence's offset plus `t`: the layout puts
      its route there, marks every position from the last token on as not covered, and never
      reaches into the next sequence. */
  lemma {:induction false} SlotOf(rows: seq<Option<Routes>>, lens: seq<nat>, blank: Experts, k: nat, i: nat, t: nat)
    requires i < k <= |lens| && t < lens[i]
    ensures Offset(lens, i) + t < Offset(lens, i + 1) <= Offset(lens, k)
    ensures Layout(rows, lens, blank, k)[Offset(lens, i) + t]
         == if t < Covered(rows, lens, i) then Slot(rows[i].value[t], true) else Slot(blank, false)
    ensures t == lens[i] - 1 ==> !Layout(rows, lens, blank, k)[Offset(lens, i) + t].valid
  {
    OffsetMonotone(lens, i + 1, k);
    if i < k - 1 {
      SlotOf(rows, lens, blank, k - 1, i, t);
    }
  }

  // ---------------------------------------------------------------------
  // The tokens beside it
  // ---------------------------------------------------------------------

  function Ones(mask: seq<Cell>): nat {
    if |mask| == 0 then 0 else Ones(mask[1..]) + if mask[0] == 1 then 1 else 0
  }

  function SeqLens(masks: seq<seq<Cell>>): seq<nat> {
    seq(|masks|, i requires 0 <= i < |masks| => Ones(masks[i]))
  }

  lemma {:induction false} OnesFit(mask: seq<Cell>)
    ensures Ones(mask) <= |mask|
  {
    if |mask| > 0 {
      OnesFit(mask[1..]);
    }
  }

  ghost predicate Fit(ids: seq<seq<Cell>>, lens: seq<nat>) {
    |ids| == |lens| && forall i :: 0 <= i < |ids| ==> lens[i] <= |ids[i]|
  }

  /** The real tokens of the first `k` rows, which sit at the right end of each row. */
  function TokenLayout(ids: seq<seq<Cell>>, lens: seq<nat>, k: nat): (packed: seq<Cell>)
    requires k <= |ids| && Fit(ids, lens)
    ensures |packed| == Offset(lens, k)
  {
    if k == 0 then [] else TokenLayout(ids, lens, k - 1) + ids[k - 1][|ids[k - 1]| - lens[k - 1]..]
  }

  /** How many tokens are appended to reach a multiple of the tensor-parallel size. */
  function AlignPad(total: nat, align: nat): nat
    requires align > 0
  {
    (align - total % align) % align
  }

  lemma AlignPadIs(total: nat, align: nat)
    requires align > 0
    ensures AlignPad(total, align) < align && (total + AlignPad(total, align)) % align == 0
  {
    var q, rest := total / align, total % align;
    DivMod(total, align);
    if rest > 0 {
      DivModUnique(align - rest, align, 0, align - rest);
      MulSucc(q, align);
      DivModUnique(total + align - rest, align, q + 1, 0);
    } else {
      DivModUnique(align, align, 1, 0);
      DivModUnique(total, align, q, 0);
    }
  }

  /** Each row ends with its content, which alone is marked. */
  ghost predicate LeftPadded(ids: seq<seq<Cell>>, masks: seq<seq<Cell>>, contents: seq<seq<Cell>>) {
    && |ids| == |masks| == |contents|
    && forall i :: 0 <= i < |ids| ==> PaddedRow(ids[i], masks[i], contents[i])
  }

  ghost predicate PaddedRow(row: seq<Cell>, mask: seq<Cell>, content: seq<Cell>) {
    && |content| <= |row|
    && row[|row| - |content|..] == content
    && mask == Copies(0, |row| - |content|) + Copies(1, |content|)
  }

  function LengthsOf(contents: seq<seq<Cell>>): seq<nat> {
    seq(|contents|, i requires 0 <= i < |contents| => |contents[i]|)
  }

  lemma {:induction false} OnesOfPadded(k: nat, n: nat)
    ensures Ones(Copies(0, k) + Copies(1, n)) == n
  {
    var mask := Copies(0, k) + Copies(1, n);
    if k > 0 {
      assert mask[1..] == Copies(0, k - 1) + Copies(1, n);
      OnesOfPadded(k - 1, n);
    } else if n > 0 {
      assert mask[1..] == Copies(0, 0) + Copies(1, n - 1);
      OnesOfPadded(0, n - 1);
    }
  }

  lemma PaddedLengths(ids: seq<seq<Cell>>, masks: seq<seq<Cell>>, contents: seq<seq<Cell>>)
    requires LeftPadded(ids, masks, contents)
    ensures SeqLens(masks) == LengthsOf(contents) && Fit(ids, LengthsOf(contents))
  {
    forall i | 0 <= i < |ids| ensures Ones(masks[i]) == |contents[i]| <= |ids[i]| {
      assert PaddedRow(ids[i], masks[i], contents[i]);
      OnesOfPadded(|ids[i]| - |contents[i]|, |contents[i]|);
    }
  }

  lemma {:induction false} LayoutIsContents(ids: seq<seq<Cell>>, masks: seq<seq<Cell>>, contents: seq<seq<Cell>>,
                                            k: nat)
    requires LeftPadded(ids, masks, contents) && k <= |ids| && Fit(ids, LengthsOf(contents))
    ensures TokenLayout(ids, LengthsOf(contents), k) == Flatten(contents[..k])
    ensures Offset(LengthsOf(contents), k) == |Flatten(contents[..k])|
  {
    if k > 0 {
      var before := contents[..k - 1];
      LayoutIsContents(ids, masks, contents, k - 1);
      RowEnd(ids, masks, contents, k - 1);
      assert contents[..k] == before + [contents[k - 1]];
      FlattenSnoc(before, contents[k - 1]);
    }
  }

  lemma RowEnd(ids: seq<seq<Cell>>, masks: seq<seq<Cell>>, contents: seq<seq<Cell>>, i: nat)
    requires LeftPadded(ids, masks, contents) && i < |ids|
    ensures LengthsOf(contents)[i] == |contents[i]| <= |ids[i]|
    ensures ids[i][|ids[i]| - |contents[i]|..] == contents[i]
  {
    assert PaddedRow(ids[i], masks[i], contents[i]);
  }

  /** Packs left-padded rows into one flat token list, and pads it at the end: first the contents of
      the rows, one after the other, then as few zeros as the alignment needs. */
  method PackSequences(ids: seq<seq<Cell>>, masks: seq<seq<Cell>>, align: nat)
      returns (packed: seq<Cell>, lens: seq<nat>)
    requires align > 0 && |ids| == |masks|
    requires forall i :: 0 <= i < |ids| ==> |ids[i]| == |masks[i]|
    ensures lens == SeqLens(masks) && Fit(ids, lens)
    ensures |packed| == Offset(lens, |lens|) + AlignPad(Offset(lens, |lens|), align)
    ensures packed[..Offset(lens, |lens|)] == TokenLayout(ids, lens, |ids|)
    ensures forall p :: Offset(lens, |lens|) <= p < |packed| ==> packed[p] == 0
    ensures |packed| % align == 0
    ensures forall contents :: LeftPadded(ids, masks, contents) ==>
              && lens == LengthsOf(contents)
              && |Flatten(contents)| <= |packed| < |Flatten(contents)| + align
              && packed[..|Flatten(contents)|] == Flatten(contents)
  {
    lens := SeqLens(masks);
    forall i | 0 <= i < |ids| ensures lens[i] <= |ids[i]| {
      OnesFit(masks[i]);
    }
    OffsetIsSum(lens, |lens|);
    TakeAll(lens, |lens|);
    var total := Sum(lens);
    var flat := new Cell[total + AlignPad(total, align)](_ => 0);
    var offset := 0;
    for i := 0 to |ids|
      invariant offset == Offset(lens, i) <= total
      invariant flat[..offset] == TokenLayout(ids, lens, i)
      invariant forall p :: offset <= p < flat.Length ==> flat[p] == 0
    {
      OffsetMonotone(lens, i + 1, |lens|);
      CopyRow(flat, offset, ids[i][|ids[i]| - lens[i]..]);
      offset := offset + lens[i];
    }
    packed := flat[..];
    assert packed[..total] == flat[..total];
    AlignPadIs(total, align);
    forall contents | LeftPadded(ids, masks, contents)
      ensures lens == LengthsOf(contents) && total == |Flatten(contents)| && packed[..total] == Flatten(contents)
    {
      PaddedLengths(ids, masks, contents);
      LayoutIsContents(ids, masks, contents, |ids|);
      TakeAll(contents, |contents|);
    }
  }

  method CopyRow(flat: array<Cell>, offset: nat, row: seq<Cell>)
    requires offset + |row| <= flat.Length
    modifies flat
    ensures flat[..offset + |row|] == old(flat[..offset]) + row
    ensures forall p :: offset + |row| <= p < flat.Length ==> flat[p] == old(flat[p])
  {
    forall t | 0 <= t < |row| {
      flat[offset + t] := row[t];
    }
  }

  lemma {:induction false} TokenAt(ids: seq<seq<Cell>>, lens: seq<nat>, k: nat, i: nat, t: nat)
    requires i < k <= |ids| && Fit(ids, lens) && t < lens[i]
    ensures Offset(lens, i) + t < Offset(lens, k)
    ensures TokenLayout(ids, lens, k)[Offset(lens, i) + t] == ids[i][|ids[i]| - lens[i] + t]
  {
    OffsetMonotone(lens, i + 1, k);
    if i < k - 1 {
      TokenAt(ids, lens, k - 1, i, t);
    }
  }

  // ---------------------------------------------------------------------
  // Routing stays with its tokens
  // ---------------------------------------------------------------------

  const INPUT_IDS := "input_ids"
  const ROLLOUT_ROUTING := "rollout_routing"

  ghost predicate CarriesRouting(b: Batch) {
    && Valid(b) && INPUT_IDS in b.tensors && ATTENTION_MASK in b.tensors && ROLLOUT_ROUTING in b.ragged
    && b.tensors[INPUT_IDS].width.Some? && b.tensors[INPUT_IDS].width == b.tensors[ATTENTION_MASK].width
  }

  ghost function Ids(b: Batch): seq<seq<Cell>>
    requires CarriesRouting(b)
  {
    b.tensors[INPUT_IDS].rows
  }

  ghost function Masks(b: Batch): seq<seq<Cell>>
    requires CarriesRouting(b)
  {
    b.tensors[ATTENTION_MASK].rows
  }

  ghost function RoutingRows(b: Batch): seq<Option<Routes>>
    requires CarriesRouting(b)
  {
    seq(b.size, i requires 0 <= i < b.size => Some(b.ragged[ROLLOUT_ROUTING][i]))
  }

  lemma LensFit(b: Batch)
    requires CarriesRouting(b)
    ensures |SeqLens(Masks(b))| == b.size && Fit(Ids(b), SeqLens(Masks(b)))
  {
    forall i | 0 <= i < b.size ensures SeqLens(Masks(b))[i] <= |Ids(b)[i]| == |Masks(b)[i]| {
      OnesFit(Masks(b)[i]);
    }
  }

  lemma {:induction false} EmptyStays(ops: seq<RowOp>, b: Batch)
    requires Valid(b) && b.size == 0 && ApplyAll(ops, b).Ok?
    ensures ApplyAll(ops, b).value.size == 0
  {
    if |ops| > 0 {
      ApplyEmpty(ops[0], b);
      EmptyStays(ops[1..], Apply(ops[0], b).value);
    }
  }

  /** As long as rows are left, the columns are left too. */
  lemma {:induction false} OperationsKeepColumns(ops: seq<RowOp>, b: Batch)
    requires CarriesRouting(b) && ApplyAll(ops, b).Ok? && ApplyAll(ops, b).value.size > 0
    ensures CarriesRouting(ApplyAll(ops, b).value)
  {
    if b.size == 0 {
      EmptyStays(ops, b);
    } else if |ops| > 0 {
      ApplyIsReindex(ops[0], b);
      OperationsKeepColumns(ops[1..], Apply(ops[0], b).value);
    }
  }

  lemma PackedTokenAt(shard: Batch, i: nat, t: nat)
    requires CarriesRouting(shard) && i < shard.size && t < Ones(Masks(shard)[i])
    ensures var lens := SeqLens(Masks(shard));
            && |lens| == shard.size && Fit(Ids(shard), lens)
            && Offset(lens, i) + t < Offset(lens, shard.size)
            && TokenLayout(Ids(shard), lens, shard.size)[Offset(lens, i) + t]
               == Ids(shard)[i][|Ids(shard)[i]| - lens[i] + t]
  {
    LensFit(shard);
    TokenAt(Ids(shard), SeqLens(Masks(shard)), shard.size, i, t);
  }

  /** Packed position `p` holds token `t` of row `src` of `b`, and that token's route. */
  ghost predicate PackedFrom(b: Batch, shard: Batch, src: nat, t: nat, p: nat, blank: Experts)
    requires CarriesRouting(b) && CarriesRouting(shard) && src < b.size
  {
    var lens, len, routes := SeqLens(Masks(shard)), Ones(Masks(b)[src]), b.ragged[ROLLOUT_ROUTING][src];
    && |lens| == shard.size && Fit(Ids(shard), lens)
    && t < len <= |Ids(b)[src]| && p < Offset(lens, shard.size)
    && TokenLayout(Ids(shard), lens, shard.size)[p] == Ids(b)[src][|Ids(b)[src]| - len + t]
    && Layout(RoutingRows(shard), lens, blank, shard.size)[p]
       == if t < |routes| && t < len - 1 then Slot(routes[t], true) else Slot(blank, false)
  }

  /** Row `i` of the shard is row `src` of `b`. */
  ghost predicate SameRow(b: Batch, shard: Batch, src: nat, i: nat)
    requires CarriesRouting(b) && CarriesRouting(shard)
  {
    && src < b.size && i < shard.size
    && Ids(shard)[i] == Ids(b)[src] && Masks(shard)[i] == Masks(b)[src]
    && shard.ragged[ROLLOUT_ROUTING][i] == b.ragged[ROLLOUT_ROUTING][src]
  }

  lemma SameRowPacked(b: Batch, shard: Batch, src: nat, i: nat, t: nat, blank: Experts)
    requires CarriesRouting(b) && CarriesRouting(shard) && SameRow(b, shard, src, i) && t < Ones(Masks(shard)[i])
    ensures |SeqLens(Masks(shard))| == shard.size
    ensures PackedFrom(b, shard, src, t, Offset(SeqLens(Masks(shard)), i) + t, blank)
  {
    PackedTokenAt(shard, i, t);
    SlotOf(RoutingRows(shard), SeqLens(Masks(shard)), blank, shard.size, i, t);
  }

  /** Main result: whatever row operations were applied on the way, the packed token and
      the packed route at position `t` of row `i` come from the same position of the same
      original row. */
  lemma RoutingFollowsTokens(ops: seq<RowOp>, b: Batch, i: nat, t: nat, blank: Experts)
    requires CarriesRouting(b) && ApplyAll(ops, b).Ok? && i < ApplyAll(ops, b).value.size
    ensures CarriesRouting(ApplyAll(ops, b).value)
    ensures |ComposedMap(ops, b)| == ApplyAll(ops, b).value.size && ComposedMap(ops, b)[i] < b.size
    ensures |SeqLens(Masks(ApplyAll(ops, b).value))| == ApplyAll(ops, b).value.size
    ensures t < Ones(Masks(ApplyAll(ops, b).value)[i]) ==>
              PackedFrom(b, ApplyAll(ops, b).value, ComposedMap(ops, b)[i], t,
                         Offset(SeqLens(Masks(ApplyAll(ops, b).value)), i) + t, blank)
  {
    OperationsKeepColumns(ops, b);
    RowsKept(ops, b, i);
    LensFit(ApplyAll(ops, b).value);
    if t < Ones(Masks(ApplyAll(ops, b).value)[i]) {
      SameRowPacked(b, ApplyAll(ops, b).value, ComposedMap(ops, b)[i], i, t, blank);
    }
  }

  /** What is packed for row `i` at position `t`, told from the contents of the rows alone. */
  ghost predicate PackedContent(b: Batch, shard: Batch, contents: seq<seq<Cell>>, moved: seq<seq<Cell>>, src: nat,
                                i: nat, t: nat, blank: Experts)
    requires CarriesRouting(b) && CarriesRouting(shard) && src < b.size == |contents|
    requires |moved| == shard.size && i < |moved|
  {
    var lens, routes := LengthsOf(moved), b.ragged[ROLLOUT_ROUTING][src];
    var p := |Flatten(moved[..i])| + t;
    && moved[i] == contents[src] && t < |contents[src]|
    && Fit(Ids(shard), lens) && p < |Flatten(moved)| == Offset(lens, shard.size)
    && TokenLayout(Ids(shard), lens, shard.size)[p] == contents[src][t]
    && Layout(RoutingRows(shard), lens, blank, shard.size)[p]
       == if t < |routes| && t < |contents[src]| - 1 then Slot(routes[t], true) else Slot(blank, false)
  }

  /** The same law told from the contents: if the rows of the batch are left-padded contents, so are
      the rows after any operations, moved by the same index map, and the `t`-th token of row `i`
      and its route are packed right after the contents of the rows before. */
  lemma RoutingFollowsContents(ops: seq<RowOp>, b: Batch, contents: seq<seq<Cell>>, moved: seq<seq<Cell>>, i: nat,
                               t: nat, blank: Experts)
    requires CarriesRouting(b) && ApplyAll(ops, b).Ok? && i < ApplyAll(ops, b).value.size
    requires LeftPadded(Ids(b), Masks(b), contents)
    requires moved == Gather(contents, ComposedMap(ops, b)) && i < |moved| && t < |moved[i]|
    ensures CarriesRouting(ApplyAll(ops, b).value)
    ensures |ComposedMap(ops, b)| == ApplyAll(ops, b).value.size && ComposedMap(ops, b)[i] < b.size
    ensures LeftPadded(Ids(ApplyAll(ops, b).value), Masks(ApplyAll(ops, b).value), moved)
    ensures PackedContent(b, ApplyAll(ops, b).value, contents, moved, ComposedMap(ops, b)[i], i, t, blank)
  {
    var shard, idx := ApplyAll(ops, b).value, ComposedMap(ops, b);
    OperationsKeepColumns(ops, b);
    RowsKept(ops, b, i);
    forall k | 0 <= k < shard.size ensures PaddedRow(Ids(shard)[k], Masks(shard)[k], moved[k]) {
      RowsKept(ops, b, k);
      assert PaddedRow(Ids(b)[idx[k]], Masks(b)[idx[k]], contents[idx[k]]);
    }
    ContentPacked(b, shard, contents, moved, idx[i], i, t, blank);
  }

  lemma ContentPacked(b: Batch, shard: Batch, contents: seq<seq<Cell>>, moved: seq<seq<Cell>>, src: nat, i: nat, t: nat,
                      blank: Experts)
    requires CarriesRouting(b) && CarriesRouting(shard) && SameRow(b, shard, src, i)
    requires LeftPadded(Ids(b), Masks(b), contents) && LeftPadded(Ids(shard), Masks(shard), moved)
    requires moved[i] == contents[src] && t < |moved[i]|
    ensures PackedContent(b, shard, contents, moved, src, i, t, blank)
  {
    ContentAt(Ids(shard), Masks(shard), moved, i, t);
    TakeAll(moved, shard.size);
    SlotOf(RoutingRows(shard), LengthsOf(moved), blank, shard.size, i, t);
  }

  lemma ContentAt(ids: seq<seq<Cell>>, masks: seq<seq<Cell>>, contents: seq<seq<Cell>>, i: nat, t: nat)
    requires LeftPadded(ids, masks, contents) && i < |ids| && t < |contents[i]|
    ensures Fit(ids, LengthsOf(contents)) && |Flatten(contents[..|ids|])| == Offset(LengthsOf(contents), |ids|)
    ensures |Flatten(contents[..i])| == Offset(LengthsOf(contents), i)
    ensures Offset(LengthsOf(contents), i) + t < Offset(LengthsOf(contents), |ids|)
    ensures TokenLayout(ids, LengthsOf(contents), |ids|)[Offset(LengthsOf(contents), i) + t] == contents[i][t]
  {
    PaddedLengths(ids, masks, contents);
    LayoutIsContents(ids, masks, contents, i);
    LayoutIsContents(ids, masks, contents, |ids|);
    assert PaddedRow(ids[i], masks[i], contents[i]);
    TokenAt(ids, LengthsOf(contents), |ids|, i, t);
  }

  lemma RowsKept(ops: seq<RowOp>, b: Batch, i: nat)
    requires CarriesRouting(b) && ApplyAll(ops, b).Ok? && CarriesRouting(ApplyAll(ops, b).value)
    requires i < ApplyAll(ops, b).value.size
    ensures var shard, idx := ApplyAll(ops, b).value, ComposedMap(ops, b);
            |idx| == shard.size && SameRow(b, shard, idx[i], i)
  {
    OperationsMoveRows(ops, b);
    var shard, idx := ApplyAll(ops, b).value, ComposedMap(ops, b);
    assert RowsOf(shard)[i] == RowsOf(b)[idx[i]];
    assert RowsOf(shard)[i].cells[INPUT_IDS] == RowsOf(b)[idx[i]].cells[INPUT_IDS];
    assert RowsOf(shard)[i].cells[ATTENTION_MASK] == RowsOf(b)[idx[i]].cells[ATTENTION_MASK];
    assert RowsOf(shard)[i].ragged[ROLLOUT_ROUTING] == RowsOf(b)[idx[i]].ragged[ROLLOUT_ROUTING];
  }

  // ---------------------------------------------------------------------
  // Replay
  // ---------------------------------------------------------------------

  /** The routing of one layer, or nothing for a layer the rollout did not record. */
  function ForLayer(r: Routing, layer: Option<nat>, nTokens: nat): Result<Option<(seq<seq<nat>>, seq<bool>)>>
    requires forall p :: 0 <= p < |r.indices| ==> |r.indices[p]| == r.nLayers
  {
    if layer.None? || layer.value >= r.nLayers then Ok(None)
    else if |r.indices| != nTokens then Err(RuntimeError)
    else Ok(Some((seq(|r.indices|, p requires 0 <= p < |r.indices| => r.indices[p][layer.value]), r.valid)))
  }

  predicate Gatherable(probs: seq<seq<real>>, chosen: seq<seq<nat>>) {
    |chosen| <= |probs| && forall p :: 0 <= p < |chosen| ==> InRange(chosen[p], |probs[p]|)
  }

  /** The probabilities at the chosen experts. */
  function Weights(probs: seq<seq<real>>, chosen: seq<seq<nat>>): seq<seq<real>>
    requires Gatherable(probs, chosen)
  {
    seq(|chosen|, p requires 0 <= p < |chosen| => Gather(probs[p], chosen[p]))
  }

  /** Puts the rollout's experts in place of the router's own where they are valid. */
  function ApplyReplay(installed: Option<Routing>, probs: seq<seq<real>>, computed: seq<seq<nat>>, layer: Option<nat>)
      : Result<Option<(seq<seq<real>>, seq<seq<nat>>)>>
    requires |computed| == |probs|
    requires installed.Some? ==> |installed.value.valid| == |installed.value.indices|
    requires installed.Some? ==> forall p :: 0 <= p < |installed.value.indices| ==>
                                   |installed.value.indices[p]| == installed.value.nLayers
  {
    if installed.None? then Ok(None)
    else
      var found :- ForLayer(installed.value, layer, |probs|);
      if found.None? then Ok(None)
      else
        var (injected, valid) := found.value;
        var merged := seq(|probs|, p requires 0 <= p < |probs| => if valid[p] then injected[p] else computed[p]);
        if Gatherable(probs, merged) then Ok(Some((Weights(probs, merged), merged))) else Err(IndexError)
  }

  /** Packed routing has every layer at every position. */
  lemma {:induction false} LayoutShaped(rows: seq<Option<Routes>>, lens: seq<nat>, nLayers: nat, topK: nat, k: nat)
    requires k <= |lens| && forall i :: 0 <= i < |lens| ==> RowShaped(rows, lens, nLayers, topK, i)
    ensures forall p :: 0 <= p < Offset(lens, k) ==>
              |Layout(rows, lens, Zeros(nLayers, topK), k)[p].experts| == nLayers
  {
    if k > 0 {
      LayoutShaped(rows, lens, nLayers, topK, k - 1);
      var n := Covered(rows, lens, k - 1);
      assert RowShaped(rows, lens, nLayers, topK, k - 1);
      var slots := RowSlots(rows, lens, Zeros(nLayers, topK), k - 1);
      forall t | 0 <= t < |slots| ensures |slots[t].experts| == nLayers {
        if t < n {
          assert rows[k - 1].value[..n][t] == rows[k - 1].value[t];
        }
      }
    }
  }

  /** Main result: with packed routing installed, a recorded layer uses the rollout's experts
      exactly at the covered positions and its own everywhere else, and takes its weights
      from its own probabilities at the experts used. */
  lemma ReplayUsesRollout(rows: seq<Option<Routes>>, lens: seq<nat>, topK: nat, r: Routing, probs: seq<seq<real>>,
                          computed: seq<seq<nat>>, layer: nat, i: nat, t: nat)
    requires forall k :: 0 <= k < |lens| ==> RowShaped(rows, lens, r.nLayers, topK, k)
    requires Holds(r, Layout(rows, lens, Zeros(r.nLayers, topK), |lens|))
    requires layer < r.nLayers && |computed| == |probs| == Offset(lens, |lens|)
    requires i < |lens| && t < lens[i]
    ensures forall p :: 0 <= p < |r.indices| ==> |r.indices[p]| == r.nLayers
    ensures var res := ApplyReplay(Some(r), probs, computed, Some(layer));
            && Offset(lens, i) + t < |probs|
            && (res.Ok? ==> res.value.Some? && |res.value.value.0| == |res.value.value.1| == |probs|)
            && (res.Err? ==> res.error == IndexError)
            && (res.Ok? ==>
                  var (weights, merged) := res.value.value;
                  var p := Offset(lens, i) + t;
                  && (t < Covered(rows, lens, i) ==>
                        |rows[i].value[t]| == r.nLayers && merged[p] == rows[i].value[t][layer])
                  && (t >= Covered(rows, lens, i) ==> merged[p] == computed[p])
                  && InRange(merged[p], |probs[p]|) && weights[p] == Gather(probs[p], merged[p]))
  {
    LayoutShaped(rows, lens, r.nLayers, topK, |lens|);
    SlotOf(rows, lens, Zeros(r.nLayers, topK), |lens|, i, t);
    var p := Offset(lens, i) + t;
    if t < Covered(rows, lens, i) {
      assert r.indices[p] == rows[i].value[t];
    }
  }

  /** The packed position of token `t` of sequence `i`. */
  ghost function Place(lens: seq<nat>, i: nat, t: nat): (p: nat)
    requires i < |lens| && t < lens[i]
    ensures p < Offset(lens, |lens|)
  {
    OffsetMonotone(lens, i + 1, |lens|);
    Offset(lens, i) + t
  }

  /** Every packed position is a token of some sequence. */
  lemma {:induction false} FindToken(lens: seq<nat>, k: nat, p: nat) returns (i: nat, t: nat)
    requires k <= |lens| && p < Offset(lens, k)
    ensures i < k && t < lens[i] && p == Offset(lens, i) + t
  {
    if p < Offset(lens, k - 1) {
      i, t := FindToken(lens, k - 1, p);
    } else {
      i, t := k - 1, p - Offset(lens, k - 1);
    }
  }

  /** The experts a recorded layer uses for token `t` of sequence `i`. */
  ghost function ExpertsUsed(rows: seq<Option<Routes>>, lens: seq<nat>, nLayers: nat, topK: nat,
                             computed: seq<seq<nat>>, layer: nat, i: nat, t: nat): seq<nat>
    requires i < |lens| && t < lens[i] && RowShaped(rows, lens, nLayers, topK, i)
    requires layer < nLayers && |computed| == Offset(lens, |lens|)
  {
    if t < Covered(rows, lens, i) then
      assert rows[i].value[..Covered(rows, lens, i)][t] == rows[i].value[t];
      rows[i].value[t][layer]
    else computed[Place(lens, i, t)]
  }

  /** Replay of a recorded layer succeeds exactly when every token's expert ids are below the
      width of the token's probabilities. */
  lemma ReplaySucceedsIff(rows: seq<Option<Routes>>, lens: seq<nat>, topK: nat, r: Routing, probs: seq<seq<real>>,
                          computed: seq<seq<nat>>, layer: nat)
    requires forall k :: 0 <= k < |lens| ==> RowShaped(rows, lens, r.nLayers, topK, k)
    requires Holds(r, Layout(rows, lens, Zeros(r.nLayers, topK), |lens|))
    requires layer < r.nLayers && |computed| == |probs| == Offset(lens, |lens|)
    ensures forall p :: 0 <= p < |r.indices| ==> |r.indices[p]| == r.nLayers
    ensures ApplyReplay(Some(r), probs, computed, Some(layer)).Ok? <==>
            forall i, t :: 0 <= i < |lens| && 0 <= t < lens[i] ==>
              InRange(ExpertsUsed(rows, lens, r.nLayers, topK, computed, layer, i, t), |probs[Place(lens, i, t)]|)
  {
    LayoutShaped(rows, lens, r.nLayers, topK, |lens|);
    var merged := seq(|probs|, p requires 0 <= p < |probs| => if r.valid[p] then r.indices[p][layer] else computed[p]);
    forall i, t | 0 <= i < |lens| && 0 <= t < lens[i]
      ensures merged[Place(lens, i, t)] == ExpertsUsed(rows, lens, r.nLayers, topK, computed, layer, i, t)
    {
      SlotOf(rows, lens, Zeros(r.nLayers, topK), |lens|, i, t);
    }
    MergedByToken(lens, merged, probs);
    ReplayMerges(r, probs, computed, layer, merged);
  }

  lemma ReplayMerges(r: Routing, probs: seq<seq<real>>, computed: seq<seq<nat>>, layer: nat, merged: seq<seq<nat>>)
    requires |computed| == |probs| == |r.valid| == |r.indices| == |merged| && layer < r.nLayers
    requires forall p :: 0 <= p < |r.indices| ==> |r.indices[p]| == r.nLayers
    requires forall p :: 0 <= p < |probs| ==> merged[p] == if r.valid[p] then r.indices[p][layer] else computed[p]
    ensures ApplyReplay(Some(r), probs, computed, Some(layer)).Ok? <==> Gatherable(probs, merged)
  {
    var injected := seq(|r.indices|, p requires 0 <= p < |r.indices| => r.indices[p][layer]);
    assert merged
        == seq(|probs|, p requires 0 <= p < |probs| => if r.valid[p] then injected[p] else computed[p]);
  }

  lemma MergedByToken(lens: seq<nat>, merged: seq<seq<nat>>, probs: seq<seq<real>>)
    requires |merged| == |probs| == Offset(lens, |lens|)
    ensures Gatherable(probs, merged) <==>
            forall i, t :: 0 <= i < |lens| && 0 <= t < lens[i] ==>
              InRange(merged[Place(lens, i, t)], |probs[Place(lens, i, t)]|)
  {
    if forall i, t :: 0 <= i < |lens| && 0 <= t < lens[i] ==>
         InRange(merged[Place(lens, i, t)], |probs[Place(lens, i, t)]|)
    {
      forall p | 0 <= p < |merged| ensures InRange(merged[p], |probs[p]|) {
        var i, t := FindToken(lens, |lens|, p);
        assert Place(lens, i, t) == p;
      }
    }
  }

  /** Padding for tensor parallelism is not covered by the routing: a recorded layer refuses
      to replay exactly when such padding was needed. */
  lemma ReplayNeedsNoPadding(rows: seq<Option<Routes>>, lens: seq<nat>, topK: nat, r: Routing, layer: nat, align: nat)
    requires forall k :: 0 <= k < |lens| ==> RowShaped(rows, lens, r.nLayers, topK, k)
    requires Holds(r, Layout(rows, lens, Zeros(r.nLayers, topK), |lens|))
    requires layer < r.nLayers && align > 0
    ensures forall p :: 0 <= p < |r.indices| ==> |r.indices[p]| == r.nLayers
    ensures var total := Offset(lens, |lens|);
            ForLayer(r, Some(layer), total + AlignPad(total, align)) == Err(RuntimeError) <==> total % align != 0
  {
    LayoutShaped(rows, lens, r.nLayers, topK, |lens|);
    PadZeroIff(Offset(lens, |lens|), align);
  }

  lemma PadZeroIff(total: nat, align: nat)
    requires align > 0
    ensures AlignPad(total, align) == 0 <==> total % align == 0
  {
    var rest := total % align;
    if rest > 0 {
      DivModUnique(align - rest, align, 0, align - rest);
    } else {
      DivModUnique(align, align, 1, 0);
    }
  }

  // ---------------------------------------------------------------------
  // Installing
  // ---------------------------------------------------------------------

  /** The module-wide slot the router reads. */
  class Installed {
    var routing: Option<Routing>

    constructor ()
      ensures routing == None
    {
      routing := None;
    }
  }

  class RoutingReplayContext {
    const replacement: Option<Routing>
    var previous: Option<Routing>

    constructor (routing: Option<Routing>)
      ensures replacement == routing && previous == None
    {
      replacement, previous := routing, None;
    }

    method Enter(slot: Installed)
      modifies this, slot
      ensures slot.routing == replacement && previous == old(slot.routing)
    {
      previous := slot.routing;
      slot.routing := replacement;
    }

    method Exit(slot: Installed)
      modifies slot
      ensures slot.routing == previous
    {
      slot.routing := previous;
    }
  }

  /** Contexts entered one inside the other: the innermost is the one seen, and afterwards
      everything is as before. */
  method Nested(slot: Installed, routings: seq<Option<Routing>>) returns (seen: Option<Routing>)
    modifies slot
    ensures slot.routing == old(slot.routing)
    ensures seen == if routings == [] then old(slot.routing) else routings[|routings| - 1]
  {
    if routings == [] {
      return slot.routing;
    }
    var context := new RoutingReplayContext(routings[0]);
    context.Enter(slot);
    seen := Nested(slot, routings[1..]);
    context.Exit(slot);
  }
}
