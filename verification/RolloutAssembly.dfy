/** Turning completions into left-padded blocks, and finding the responses again. */
module RolloutAssembly {
  import opened Seqs
  import opened Wrappers

  /** What the inference engine returns for one prompt. */
  datatype Completion = Completion(prompt: seq<int>, response: seq<int>, logprobs: seq<real>)

  function Content(c: Completion): seq<int> {
    c.prompt + c.response
  }

  /** The engine's answer as it arrives; log-probs may be missing. */
  datatype Answer = Answer(prompt: seq<int>, response: seq<int>, logprobs: Option<seq<real>>)

  /** The response and its log-probs cut to the total budget, of which at least one token is
      left for the response; missing log-probs become zeros. */
  function Prepared(a: Answer, maxTotal: int): Completion {
    var room := if maxTotal - |a.prompt| > 1 then maxTotal - |a.prompt| else 1;
    var response := if |a.response| > room then a.response[..room] else a.response;
    var logprobs :=
      if a.logprobs.None? then Copies(0.0, |response|)
      else if |a.response| > room && |a.logprobs.value| > room then a.logprobs.value[..room]
      else a.logprobs.value;
    Completion(a.prompt, response, logprobs)
  }

  /** A prepared completion is the answer's beginning: as much of the response as the budget leaves
      room for, and of the log-probs no more than that if the response was cut. Missing log-probs
      become one zero a token. */
  lemma PreparedFits(a: Answer, maxTotal: int)
    ensures var c, room := Prepared(a, maxTotal), if maxTotal - |a.prompt| >= 1 then maxTotal - |a.prompt| else 1;
            && c.prompt == a.prompt && c.response <= a.response
            && |c.response| == (if |a.response| <= room then |a.response| else room)
            && (a.logprobs.None? ==>
                  |c.logprobs| == |c.response| && forall k :: 0 <= k < |c.logprobs| ==> c.logprobs[k] == 0.0)
            && (a.logprobs.Some? ==>
                  && c.logprobs <= a.logprobs.value
                  && |c.logprobs|
                     == if |a.response| > room && |a.logprobs.value| > room then room else |a.logprobs.value|)
  {
  }

  // ---------------------------------------------------------------------
  // One row
  // ---------------------------------------------------------------------

  /** `row` moved to the right end of `width` columns. */
  function LeftPad<T>(row: seq<T>, width: nat, value: T): seq<T> {
    if |row| >= width then row else Copies(value, width - |row|) + row
  }

  function TokenRow(c: Completion, width: nat, pad: int): seq<int> {
    LeftPad(Content(c), width, pad)
  }

  function MaskRow(c: Completion, width: nat): seq<int> {
    LeftPad(Copies(1, |Content(c)|), width, 0)
  }

  /** Column of the log-prob of response token `j`: one left of the token itself. */
  function LpColumn(c: Completion, width: nat, j: nat): int {
    width - |Content(c)| + |c.prompt| + j - 1
  }

  function LpWidth(width: nat): nat {
    if width > 2 then width - 1 else 1
  }

  function LpRow(c: Completion, width: nat): seq<real> {
    seq(LpWidth(width), col requires 0 <= col =>
      var j := col - LpColumn(c, width, 0);
      if 0 <= j < |c.logprobs| then c.logprobs[j] else 0.0)
  }

  // ---------------------------------------------------------------------
  // Blocks
  // ---------------------------------------------------------------------

  /** One rollout batch; `lps` is absent when log-probs were not asked for. */
  datatype Block = Block(
    width: nat, tokens: seq<seq<int>>, mask: seq<seq<int>>, plens: seq<nat>, lps: Option<seq<seq<real>>>)

  function Lengths(cs: seq<Completion>): seq<nat> {
    seq(|cs|, i requires 0 <= i < |cs| => |Content(cs[i])|)
  }

  function WidthOf(cs: seq<Completion>): nat {
    if |cs| == 0 then 1 else Max(Lengths(cs))
  }

  /** The completions as rows of the given width. */
  function BlockAt(cs: seq<Completion>, width: nat, pad: int, wantLp: bool): Block {
    Block(width,
          seq(|cs|, i requires 0 <= i < |cs| => TokenRow(cs[i], width, pad)),
          seq(|cs|, i requires 0 <= i < |cs| => MaskRow(cs[i], width)),
          seq(|cs|, i requires 0 <= i < |cs| => |cs[i].prompt|),
          if wantLp then Some(seq(|cs|, i requires 0 <= i < |cs| => LpRow(cs[i], width))) else None)
  }

  function BuildBlock(cs: seq<Completion>, pad: int, wantLp: bool): Block {
    BlockAt(cs, WidthOf(cs), pad, wantLp)
  }

  lemma WidthCovers(cs: seq<Completion>, i: nat)
    requires i < |cs|
    ensures |Content(cs[i])| <= WidthOf(cs)
  {
    assert Lengths(cs)[i] == |Content(cs[i])|;
  }

  /** Writes one row's tokens at the right end, and marks them. */
  method FillTokens(sequences: array2<int>, seqMask: array2<int>, c: Completion, i: nat, pad: int)
    requires i < sequences.Length0 == seqMask.Length0 && |Content(c)| <= sequences.Length1 == seqMask.Length1
    requires sequences != seqMask
    requires forall j :: 0 <= j < sequences.Length1 ==> sequences[i, j] == pad && seqMask[i, j] == 0
    modifies sequences, seqMask
    ensures forall k, j :: 0 <= k < sequences.Length0 && 0 <= j < sequences.Length1 ==>
              && sequences[k, j] == (if k == i then TokenCell(c, sequences.Length1, pad, j) else old(sequences[k, j]))
              && seqMask[k, j] == (if k == i then MaskCell(c, sequences.Length1, j) else old(seqMask[k, j]))
  {
    var s, off := Content(c), sequences.Length1 - |Content(c)|;
    forall j | off <= j < sequences.Length1 {
      sequences[i, j] := s[j - off];
    }
    forall j | off <= j < sequences.Length1 {
      seqMask[i, j] := 1;
    }
  }

  /** Fills the block cell by cell. A log-prob whose column falls outside is not written. */
  method FillBlock(cs: seq<Completion>, pad: int, wantLp: bool)
      returns (sequences: array2<int>, seqMask: array2<int>, plens: seq<nat>, rlp: array2?<real>)
    ensures fresh(sequences) && fresh(seqMask) && (rlp != null ==> fresh(rlp))
    ensures plens == BuildBlock(cs, pad, wantLp).plens
    ensures sequences.Length0 == seqMask.Length0 == |cs|
    ensures sequences.Length1 == seqMask.Length1 == WidthOf(cs)
    ensures forall i, j :: 0 <= i < |cs| && 0 <= j < WidthOf(cs) ==>
              && sequences[i, j] == TokenCell(cs[i], WidthOf(cs), pad, j)
              && seqMask[i, j] == MaskCell(cs[i], WidthOf(cs), j)
    ensures wantLp <==> rlp != null
    ensures wantLp ==> rlp.Length0 == |cs| && rlp.Length1 == LpWidth(WidthOf(cs))
    ensures wantLp ==> forall i, j :: 0 <= i < |cs| && 0 <= j < LpWidth(WidthOf(cs)) ==>
                                        rlp[i, j] == LpCell(cs[i], WidthOf(cs), |cs[i].logprobs|, j)
  {
    var width, n := WidthOf(cs), |cs|;
    sequences := new int[n, width]((i, j) => pad);
    seqMask := new int[n, width]((i, j) => 0);
    rlp := null;
    if wantLp {
      rlp := new real[n, LpWidth(width)]((i, j) => 0.0);
    }
    plens := [];
    for i := 0 to n
      invariant plens == seq(i, k requires 0 <= k < i => |cs[k].prompt|)
      invariant forall k, j :: 0 <= k < n && 0 <= j < width ==>
                  && sequences[k, j] == (if k < i then TokenCell(cs[k], width, pad, j) else pad)
                  && seqMask[k, j] == if k < i then MaskCell(cs[k], width, j) else 0
      invariant wantLp ==> forall k, j :: 0 <= k < n && 0 <= j < LpWidth(width) ==>
                  rlp[k, j] == if k < i then LpCell(cs[k], width, |cs[k].logprobs|, j) else 0.0
    {
      WidthCovers(cs, i);
      FillTokens(sequences, seqMask, cs[i], i, pad);
      plens := plens + [|cs[i].prompt|];
      if wantLp {
        FillLogprobs(rlp, cs, i, width);
      }
    }
  }

  /** The filled cells are the cells of the block. */
  lemma FilledIsBlock(cs: seq<Completion>, pad: int, wantLp: bool, i: nat)
    requires i < |cs|
    ensures var b := BuildBlock(cs, pad, wantLp);
            && |b.tokens[i]| == |b.mask[i]| == b.width
            && (forall j :: 0 <= j < b.width ==>
                  b.tokens[i][j] == TokenCell(cs[i], b.width, pad, j) && b.mask[i][j] == MaskCell(cs[i], b.width, j))
            && (wantLp ==> |b.lps.value[i]| == LpWidth(b.width))
            && (wantLp ==> forall j :: 0 <= j < LpWidth(b.width) ==>
                             b.lps.value[i][j] == LpCell(cs[i], b.width, |cs[i].logprobs|, j))
  {
    WidthCovers(cs, i);
    RowCells(cs[i], WidthOf(cs), pad);
    LpCells(cs[i], WidthOf(cs));
  }

  lemma RowCells(c: Completion, width: nat, pad: int)
    requires |Content(c)| <= width
    ensures |TokenRow(c, width, pad)| == |MaskRow(c, width)| == width
    ensures forall j :: 0 <= j < width ==>
              TokenRow(c, width, pad)[j] == TokenCell(c, width, pad, j) && MaskRow(c, width)[j] == MaskCell(c, width, j)
  {
  }

  lemma LpCells(c: Completion, width: nat)
    ensures |LpRow(c, width)| == LpWidth(width)
    ensures forall j :: 0 <= j < LpWidth(width) ==> LpRow(c, width)[j] == LpCell(c, width, |c.logprobs|, j)
  {
  }

  ghost function TokenCell(c: Completion, width: nat, pad: int, col: nat): int {
    var j := col - (width - |Content(c)|);
    if 0 <= j < |Content(c)| then Content(c)[j] else pad
  }

  ghost function MaskCell(c: Completion, width: nat, col: nat): int {
    if col >= width - |Content(c)| then 1 else 0
  }

  /** The cell after the first `done` log-probs were written. */
  ghost function LpCell(c: Completion, width: nat, done: nat, col: nat): real
    requires done <= |c.logprobs|
  {
    var j := col - LpColumn(c, width, 0);
    if 0 <= j < done then c.logprobs[j] else 0.0
  }

  method FillLogprobs(rlp: array2<real>, cs: seq<Completion>, i: nat, width: nat)
    requires i < |cs| == rlp.Length0 && rlp.Length1 == LpWidth(width)
    requires forall j :: 0 <= j < rlp.Length1 ==> rlp[i, j] == 0.0
    modifies rlp
    ensures forall k, j :: 0 <= k < |cs| && 0 <= j < rlp.Length1 ==>
              rlp[k, j] == if k == i then LpCell(cs[i], width, |cs[i].logprobs|, j) else old(rlp[k, j])
  {
    var c := cs[i];
    for j := 0 to |c.logprobs|
      invariant forall k, col :: 0 <= k < |cs| && 0 <= col < rlp.Length1 ==>
                  rlp[k, col] == if k == i then LpCell(c, width, j, col) else old(rlp[k, col])
    {
      var col := LpColumn(c, width, j);
      if 0 <= col < rlp.Length1 {
        rlp[i, col] := c.logprobs[j];
      }
    }
  }

  // ---------------------------------------------------------------------
  // Finding the response again
  // ---------------------------------------------------------------------

  /** First position at or after `from` that is not zero; the length if there is none. */
  function FirstReal(mask: seq<int>, from: nat): (p: nat)
    requires from <= |mask|
    ensures from <= p <= |mask|
    ensures p < |mask| ==> mask[p] != 0
    ensures forall i :: from <= i < p ==> mask[i] == 0
    decreases |mask| - from
  {
    if from == |mask| || mask[from] != 0 then from else FirstReal(mask, from + 1)
  }

  /** One past the last position below `to` that is not zero; zero if there is none. */
  function RealEnd(mask: seq<int>, to: nat): (p: nat)
    requires to <= |mask|
    ensures p <= to
    ensures p > 0 ==> mask[p - 1] != 0
    ensures forall i :: p <= i < to ==> mask[i] == 0
  {
    if to == 0 || mask[to - 1] != 0 then to else RealEnd(mask, to - 1)
  }

  /** The response ids of one row, from the mask and the prompt length alone. */
  function ResponseTokenIds(row: seq<int>, mask: seq<int>, plen: nat): seq<int>
    requires |row| == |mask|
  {
    var first := FirstReal(mask, 0);
    if first == |mask| then []
    else
      var end := RealEnd(mask, |mask|);
      var start := if first + plen < end then first + plen else end;
      row[start..end]
  }

  /** The prompt positions of one mask row cleared, and the first column dropped. */
  function ResponseMaskRow(mask: seq<int>, plen: nat): seq<int>
    requires FirstReal(mask, 0) < |mask|
  {
    var start := FirstReal(mask, 0);
    seq(|mask| - 1, j requires 0 <= j < |mask| - 1 =>
      if start <= j + 1 < start + plen then 0 else mask[j + 1])
  }

  method BuildResponseMask(attention: seq<seq<int>>, plens: seq<nat>) returns (r: Result<seq<seq<int>>>)
    requires |plens| == |attention|
    requires forall i, j :: 0 <= i < |attention| && 0 <= j < |attention[i]| ==> 0 <= attention[i][j] <= 1
    ensures r.Err? <==> exists i :: 0 <= i < |attention| && FirstReal(attention[i], 0) == |attention[i]|
    ensures r.Ok? ==> |r.value| == |attention| && forall i :: 0 <= i < |attention| ==>
                        FirstReal(attention[i], 0) < |attention[i]|
                        && r.value[i] == ResponseMaskRow(attention[i], plens[i])
  {
    var mask: seq<seq<int>> := attention;
    for i := 0 to |attention|
      invariant |mask| == |attention|
      invariant forall k :: i <= k < |attention| ==> mask[k] == attention[k]
      invariant forall k :: 0 <= k < i ==>
                  && FirstReal(attention[k], 0) < |attention[k]| == |mask[k]|
                  && mask[k][1..] == ResponseMaskRow(attention[k], plens[k])
    {
      var row := attention[i];
      var start := FirstReal(row, 0);
      if start == |row| {
        return Err(IndexError);
      }
      var cleared := seq(|row|, j requires 0 <= j < |row| => if start <= j < start + plens[i] then 0 else row[j]);
      assert cleared[1..] == ResponseMaskRow(row, plens[i]);
      mask := mask[i := cleared];
    }
    r := Ok(seq(|mask|, i requires 0 <= i < |mask| => if |mask[i]| > 0 then mask[i][1..] else []));
  }

  // ---------------------------------------------------------------------
  // Assembly and extraction undo each other
  // ---------------------------------------------------------------------

  /** A row whose real tokens are contiguous, with any padding on either side. */
  lemma RealSpan(mask: seq<int>, left: nat, len: nat)
    requires left + len <= |mask| && len > 0
    requires forall i :: 0 <= i < |mask| ==> (mask[i] != 0 <==> left <= i < left + len)
    ensures FirstReal(mask, 0) == left && RealEnd(mask, |mask|) == left + len
  {
    assert mask[left] != 0 && mask[left + len - 1] != 0;
  }

  /** Main result: the response ids are recovered exactly, whether the row was padded on
      the left, on the right, or both. */
  lemma ResponseRecovered(c: Completion, left: seq<int>, right: seq<int>)
    ensures var row := left + Content(c) + right;
            var mask := Copies(0, |left|) + Copies(1, |Content(c)|) + Copies(0, |right|);
            ResponseTokenIds(row, mask, |c.prompt|) == c.response
  {
    var row := left + Content(c) + right;
    var mask := Copies(0, |left|) + Copies(1, |Content(c)|) + Copies(0, |right|);
    if |Content(c)| > 0 {
      RealSpan(mask, |left|, |Content(c)|);
      assert row[|left| + |c.prompt|..|left| + |Content(c)|] == c.response;
    } else {
      assert forall i :: 0 <= i < |mask| ==> mask[i] == 0;
    }
  }

  /** The same for the rows the assembly produces, at any width that holds them. */
  lemma AssembledResponse(c: Completion, width: nat, pad: int)
    requires |Content(c)| <= width
    ensures |TokenRow(c, width, pad)| == |MaskRow(c, width)| == width
    ensures ResponseTokenIds(TokenRow(c, width, pad), MaskRow(c, width), |c.prompt|) == c.response
  {
    var left := Copies(pad, width - |Content(c)|);
    ResponseRecovered(c, left, []);
    assert TokenRow(c, width, pad) == left + Content(c) + [];
    assert MaskRow(c, width) == Copies(0, |left|) + Copies(1, |Content(c)|) + Copies(0, 0);
  }

  /** Main result: a column of the shifted response mask is set exactly when the log-prob
      of some response token was written there, and then the log-prob matrix holds it. */
  lemma MaskMarksLogprobs(c: Completion, width: nat, col: nat)
    requires 1 < width && |Content(c)| <= width && |Content(c)| > 0 && |c.logprobs| == |c.response|
    requires col < width - 1
    ensures FirstReal(MaskRow(c, width), 0) < |MaskRow(c, width)| == width
    ensures var mask := ResponseMaskRow(MaskRow(c, width), |c.prompt|);
            && |mask| == |LpRow(c, width)| == width - 1
            && (mask[col] == 1 <==> exists j :: 0 <= j < |c.logprobs| && LpColumn(c, width, j) == col)
            && (mask[col] == 0 ==> LpRow(c, width)[col] == 0.0)
            && forall j :: 0 <= j < |c.logprobs| && LpColumn(c, width, j) == col ==>
                             LpRow(c, width)[col] == c.logprobs[j]
  {
    var mask := MaskRow(c, width);
    RealSpan(mask, width - |Content(c)|, |Content(c)|);
    var j := col - LpColumn(c, width, 0);
    assert LpColumn(c, width, 0) + j == col;
    if 0 <= j < |c.logprobs| {
      assert LpColumn(c, width, j) == col;
    }
  }

  /** The log-prob of response token `j` is written one column left of where the token itself is. */
  lemma LogprobLeftOfToken(c: Completion, width: nat, pad: int, j: nat)
    requires |Content(c)| <= width && |c.logprobs| <= |c.response| && j < |c.logprobs| && width >= 2
    ensures var token := LpColumn(c, width, j) + 1;
            && 0 <= token < width == |TokenRow(c, width, pad)| && TokenRow(c, width, pad)[token] == c.response[j]
            && (token > 0 ==> LpRow(c, width)[token - 1] == c.logprobs[j])
  {
    RowCells(c, width, pad);
    LpCells(c, width);
  }

  // ---------------------------------------------------------------------
  // Widening
  // ---------------------------------------------------------------------

  /** Moving to a wider block later is the same as assembling at that width. */
  lemma WidenRows(c: Completion, width: nat, wider: nat, pad: int)
    requires |Content(c)| <= width <= wider
    ensures LeftPad(TokenRow(c, width, pad), wider, pad) == TokenRow(c, wider, pad)
    ensures LeftPad(MaskRow(c, width), wider, 0) == MaskRow(c, wider)
  {
  }

  /** The first log-prob has a column, one left of its token, or would write a zero anyway. */
  predicate FirstLogprobFits(c: Completion, width: nat) {
    |c.prompt| > 0 || |Content(c)| < width || |c.logprobs| == 0 || c.logprobs[0] == 0.0
  }

  /** The same for log-probs if and only if the first one fits: the first token of a row that is
      full from its left end has no column, in a wider block it has one. */
  lemma WidenLogprobs(c: Completion, width: nat, wider: nat)
    requires |c.logprobs| <= |c.response| && |Content(c)| <= width <= wider
    ensures LeftPad(LpRow(c, width), LpWidth(wider), 0.0) == LpRow(c, wider)
            <==> width == wider || FirstLogprobFits(c, width)
  {
    var row, wide := LeftPad(LpRow(c, width), LpWidth(wider), 0.0), LpRow(c, wider);
    if width == wider || FirstLogprobFits(c, width) {
      forall col | 0 <= col < LpWidth(wider) ensures row[col] == wide[col] {
        if width > 1 {
          assert LpColumn(c, wider, 0) == LpColumn(c, width, 0) + (LpWidth(wider) - LpWidth(width));
        }
      }
    } else {
      var col := wider - width - 1;
      assert LpColumn(c, wider, 0) == col;
      if width == 1 {
        assert LpColumn(c, width, 0) == -1;
        assert |LpRow(c, width)| == 1 && LpRow(c, width)[0] == 0.0;
      }
      assert wide[col] == c.logprobs[0] && row[col] == 0.0;
    }
  }
}
