/** Each rank assembles its own prompts; padding, gathering and trimming rebuilds the batch. */
module RolloutGather {
  import opened Arith
  import opened RolloutAssembly
  import opened Seqs
  import opened Wrappers

  // ---------------------------------------------------------------------
  // Which prompts a rank takes
  // ---------------------------------------------------------------------

  function PromptsPerRank(n: nat, ranks: nat): nat
    requires ranks > 0
  {
    (n + ranks - 1) / ranks
  }

  function LocalStart(n: nat, ranks: nat, r: nat): nat
    requires ranks > 0
  {
    if r * PromptsPerRank(n, ranks) < n then r * PromptsPerRank(n, ranks) else n
  }

  function LocalEnd(n: nat, ranks: nat, r: nat): (e: nat)
    requires ranks > 0
    ensures LocalStart(n, ranks, r) <= e <= n
  {
    var s := LocalStart(n, ranks, r);
    if s + PromptsPerRank(n, ranks) < n then s + PromptsPerRank(n, ranks) else n
  }

  /** The part of `xs` rank `r` works on. */
  function Local<T>(xs: seq<T>, ranks: nat, r: nat): seq<T>
    requires ranks > 0
  {
    xs[LocalStart(|xs|, ranks, r)..LocalEnd(|xs|, ranks, r)]
  }

  function Locals<T>(xs: seq<T>, ranks: nat): seq<seq<T>>
    requires ranks > 0
  {
    seq(ranks, r requires 0 <= r < ranks => Local(xs, ranks, r))
  }

  lemma {:induction false} LocalsUpTo<T>(xs: seq<T>, ranks: nat, r: nat)
    requires ranks > 0 && r <= ranks
    ensures Flatten(Locals(xs, ranks)[..r]) == xs[..LocalStart(|xs|, ranks, r)]
  {
    if r > 0 {
      LocalsUpTo(xs, ranks, r - 1);
      var parts := Locals(xs, ranks);
      assert parts[..r] == parts[..r - 1] + [parts[r - 1]];
      FlattenSnoc(parts[..r - 1], parts[r - 1]);
      MulSucc(r - 1, PromptsPerRank(|xs|, ranks));
    }
  }

  /** The ranks' parts are the whole, in order. */
  lemma LocalsCover<T>(xs: seq<T>, ranks: nat)
    requires ranks > 0
    ensures Flatten(Locals(xs, ranks)) == xs
  {
    LocalsUpTo(xs, ranks, ranks);
    TakeAll(Locals(xs, ranks), ranks);
    var n := |xs|;
    DivMod(n + ranks - 1, ranks);
    assert ranks * PromptsPerRank(n, ranks) == PromptsPerRank(n, ranks) * ranks;
    assert ranks * PromptsPerRank(n, ranks) >= n;
  }

  // ---------------------------------------------------------------------
  // Gathering
  // ---------------------------------------------------------------------

  /** Columns added on the left; a matrix wide enough already stays as it is. */
  function PadColumns<T>(rows: seq<seq<T>>, rowWidth: nat, width: nat, value: T): seq<seq<T>>
  {
    if rowWidth >= width then rows
    else seq(|rows|, i requires 0 <= i < |rows| => Copies(value, width - rowWidth) + rows[i])
  }

  /** Rows of zeros added below. */
  function PadRows<T>(rows: seq<seq<T>>, count: nat, width: nat, zero: T): (r: seq<seq<T>>)
    ensures |r| == (if |rows| >= count then |rows| else count) && r[..|rows|] == rows
    ensures forall i :: |rows| <= i < |r| ==> |r[i]| == width
  {
    if |rows| >= count then rows else rows + Copies(Copies(zero, width), count - |rows|)
  }

  function PadEntries(xs: seq<nat>, count: nat): (r: seq<nat>)
    ensures |r| == (if |xs| >= count then |xs| else count) && r[..|xs|] == xs
  {
    if |xs| >= count then xs else xs + Copies(0, count - |xs|)
  }

  /** What each rank puts into the collectives: its block widened to `width` columns and
      lengthened to `rows` rows. */
  function GivenTokens(blocks: seq<Block>, width: nat, rows: nat, pad: int): seq<seq<seq<int>>> {
    seq(|blocks|, r requires 0 <= r < |blocks| =>
      PadRows(PadColumns(blocks[r].tokens, blocks[r].width, width, pad), rows, width, 0))
  }

  function GivenMask(blocks: seq<Block>, width: nat, rows: nat): seq<seq<seq<int>>> {
    seq(|blocks|, r requires 0 <= r < |blocks| =>
      PadRows(PadColumns(blocks[r].mask, blocks[r].width, width, 0), rows, width, 0))
  }

  function GivenPlens(blocks: seq<Block>, rows: nat): seq<seq<nat>> {
    seq(|blocks|, r requires 0 <= r < |blocks| => PadEntries(blocks[r].plens, rows))
  }

  /** A block without log-probs contributes zeros. */
  function BlockLps(b: Block, width: nat): seq<seq<real>> {
    if b.lps.Some?
    then PadColumns(b.lps.value, LpWidth(b.width), if width > 0 then width - 1 else 0, 0.0)
    else Copies(Copies(0.0, LpWidth(width)), |b.tokens|)
  }

  function GivenLps(blocks: seq<Block>, width: nat, rows: nat): seq<seq<seq<real>>> {
    seq(|blocks|, r requires 0 <= r < |blocks| => PadRows(BlockLps(blocks[r], width), rows, LpWidth(width), 0.0))
  }

  function Counts(blocks: seq<Block>): seq<nat> {
    seq(|blocks|, r requires 0 <= r < |blocks| => |blocks[r].tokens|)
  }

  function Widths(blocks: seq<Block>): seq<nat> {
    seq(|blocks|, r requires 0 <= r < |blocks| => blocks[r].width)
  }

  /** The first `counts[r]` entries of each rank's part, in rank order. */
  function Trimmed<T>(parts: seq<seq<T>>, counts: seq<nat>): seq<T>
    requires |parts| == |counts|
  {
    if |parts| == 0 then []
    else (if counts[0] <= |parts[0]| then parts[0][..counts[0]] else parts[0]) + Trimmed(parts[1..], counts[1..])
  }

  /** The batch every rank holds after the all-gather. */
  function AllGather(blocks: seq<Block>, pad: int, wantLp: bool): Block {
    var width := Max(Widths(blocks));
    var counts := Counts(blocks);
    var rows := Max(counts);
    if rows == 0 then Block(width, [], [], [], if wantLp then Some([]) else None)
    else
      Block(width,
            Trimmed(GivenTokens(blocks, width, rows, pad), counts),
            Trimmed(GivenMask(blocks, width, rows), counts),
            Trimmed(GivenPlens(blocks, rows), counts),
            if wantLp then Some(Trimmed(GivenLps(blocks, width, rows), counts)) else None)
  }

  // ---------------------------------------------------------------------
  // The gathered batch is the batch of one rank
  // ---------------------------------------------------------------------

  /** What holds of engine results: no more log-probs than tokens. */
  ghost predicate EngineResults(cs: seq<Completion>) {
    forall i :: 0 <= i < |cs| ==> |cs[i].logprobs| <= |cs[i].response|
  }

  /** Trimming undoes the row padding: what remains are the ranks' own rows. */
  lemma {:induction false} TrimmedIff<T>(f: Completion -> T, parts: seq<seq<Completion>>, given: seq<seq<T>>,
                                         counts: seq<nat>)
    requires |parts| == |given| == |counts|
    requires forall r :: 0 <= r < |parts| ==> counts[r] == |parts[r]| <= |given[r]|
    ensures Trimmed(given, counts) == Map(f, Flatten(parts))
            <==> forall r :: 0 <= r < |parts| ==> given[r][..|parts[r]|] == Map(f, parts[r])
  {
    if |parts| > 0 {
      TrimmedIff(f, parts[1..], given[1..], counts[1..]);
      var own, rest := given[0][..|parts[0]|], Trimmed(given[1..], counts[1..]);
      var ownIs, restIs := Map(f, parts[0]), Map(f, Flatten(parts[1..]));
      assert Trimmed(given, counts) == own + rest && Map(f, Flatten(parts)) == ownIs + restIs;
      assert (own + rest)[..|own|] == own && (own + rest)[|own|..] == rest;
      assert (ownIs + restIs)[..|own|] == ownIs && (ownIs + restIs)[|own|..] == restIs;
      assert (forall r :: 0 <= r < |parts| ==> given[r][..|parts[r]|] == Map(f, parts[r]))
          <==> own == ownIs && rest == restIs by {
        SplitFirst(f, parts, given);
      }
    }
  }

  lemma SplitFirst<T>(f: Completion -> T, parts: seq<seq<Completion>>, given: seq<seq<T>>)
    requires |parts| == |given| > 0 && forall r :: 0 <= r < |parts| ==> |parts[r]| <= |given[r]|
    ensures (forall r :: 0 <= r < |parts| ==> given[r][..|parts[r]|] == Map(f, parts[r]))
            <==> given[0][..|parts[0]|] == Map(f, parts[0])
                 && forall r :: 0 <= r < |parts[1..]| ==> given[1..][r][..|parts[1..][r]|] == Map(f, parts[1..][r])
  {
    assert forall r :: 0 < r < |parts| ==> parts[r] == parts[1..][r - 1] && given[r] == given[1..][r - 1];
  }

  function TokenRows(cs: seq<Completion>, width: nat, pad: int): seq<seq<int>> {
    Map((c: Completion) => TokenRow(c, width, pad), cs)
  }

  function MaskRows(cs: seq<Completion>, width: nat): seq<seq<int>> {
    Map((c: Completion) => MaskRow(c, width), cs)
  }

  function PromptLength(c: Completion): nat {
    |c.prompt|
  }

  function PromptLengths(cs: seq<Completion>): seq<nat> {
    Map(PromptLength, cs)
  }

  function LpRows(cs: seq<Completion>, width: nat): seq<seq<real>> {
    Map((c: Completion) => LpRow(c, width), cs)
  }

  ghost predicate Holds(cs: seq<Completion>, width: nat) {
    forall i :: 0 <= i < |cs| ==> |Content(cs[i])| <= width
  }

  lemma WidenTokens(cs: seq<Completion>, width: nat, wider: nat, pad: int)
    requires Holds(cs, width) && width <= wider
    ensures PadColumns(TokenRows(cs, width, pad), width, wider, pad) == TokenRows(cs, wider, pad)
    ensures PadColumns(MaskRows(cs, width), width, wider, 0) == MaskRows(cs, wider)
  {
    forall i | 0 <= i < |cs|
      ensures PadColumns(TokenRows(cs, width, pad), width, wider, pad)[i] == TokenRow(cs[i], wider, pad)
      ensures PadColumns(MaskRows(cs, width), width, wider, 0)[i] == MaskRow(cs[i], wider)
    {
      WidenRows(cs[i], width, wider, pad);
    }
  }

  predicate FirstLogprobsFit(cs: seq<Completion>, width: nat) {
    forall i :: 0 <= i < |cs| ==> FirstLogprobFits(cs[i], width)
  }

  lemma WidenLps(cs: seq<Completion>, width: nat, wider: nat)
    requires EngineResults(cs) && Holds(cs, width) && width <= wider
    ensures PadColumns(LpRows(cs, width), LpWidth(width), if wider > 0 then wider - 1 else 0, 0.0) == LpRows(cs, wider)
            <==> width == wider || FirstLogprobsFit(cs, width)
  {
    var padded := PadColumns(LpRows(cs, width), LpWidth(width), if wider > 0 then wider - 1 else 0, 0.0);
    var wide := LpRows(cs, wider);
    forall i | 0 <= i < |cs|
      ensures padded[i] == wide[i] <==> width == wider || FirstLogprobFits(cs[i], width)
    {
      WidenLogprobs(cs[i], width, wider);
      assert padded[i] == LeftPad(LpRow(cs[i], width), LpWidth(wider), 0.0);
    }
  }

  lemma HoldsOwnWidth(cs: seq<Completion>)
    ensures Holds(cs, WidthOf(cs))
  {
    forall i | 0 <= i < |cs| ensures |Content(cs[i])| <= WidthOf(cs) {
      WidthCovers(cs, i);
    }
  }

  lemma BuildBlockColumns(cs: seq<Completion>, pad: int, wantLp: bool)
    ensures var b := BuildBlock(cs, pad, wantLp);
            && b.width == WidthOf(cs) && b.plens == PromptLengths(cs)
            && b.tokens == TokenRows(cs, b.width, pad) && b.mask == MaskRows(cs, b.width)
            && b.lps == if wantLp then Some(LpRows(cs, b.width)) else None
  {
    var b := BuildBlock(cs, pad, wantLp);
    assert wantLp ==> b.lps.value == LpRows(cs, b.width);
    assert forall i :: 0 <= i < |cs| ==> PromptLengths(cs)[i] == PromptLength(cs[i]) == b.plens[i];
  }

  function LocalBlocks(parts: seq<seq<Completion>>, pad: int, wantLp: bool): seq<Block> {
    seq(|parts|, r requires 0 <= r < |parts| => BuildBlock(parts[r], pad, wantLp))
  }

  /** Some completion has a token, or there is none at all, or every part has one. */
  ghost predicate WidthsAgree(parts: seq<seq<Completion>>) {
    || Flatten(parts) == []
    || (exists i :: 0 <= i < |Flatten(parts)| && |Content(Flatten(parts)[i])| > 0)
    || forall r :: 0 <= r < |parts| ==> parts[r] != []
  }

  lemma WidthOfOne(cs: seq<Completion>)
    ensures cs != [] ==> exists i :: 0 <= i < |cs| && |Content(cs[i])| == WidthOf(cs)
  {
    if cs != [] {
      var i :| 0 <= i < |cs| && Lengths(cs)[i] == Max(Lengths(cs));
      assert |Content(cs[i])| == WidthOf(cs);
    }
  }

  function PartWidths(parts: seq<seq<Completion>>): seq<nat> {
    seq(|parts|, r requires 0 <= r < |parts| => WidthOf(parts[r]))
  }

  /** No part is wider than the whole batch, an empty one apart, and one is as wide. */
  lemma WidestPart(parts: seq<seq<Completion>>)
    requires Flatten(parts) != []
    ensures WidthOf(Flatten(parts)) <= Max(PartWidths(parts))
  {
    var all := Flatten(parts);
    WidthOfOne(all);
    var i :| 0 <= i < |all| && |Content(all[i])| == WidthOf(all);
    var s, j := FindInFlatten(parts, i);
    WidthCovers(parts[s], j);
    assert PartWidths(parts)[s] == WidthOf(parts[s]);
  }

  lemma PartsWithin(parts: seq<seq<Completion>>, width: nat)
    requires |parts| > 0 && WidthOf(Flatten(parts)) <= width
    requires forall r :: 0 <= r < |parts| && parts[r] == [] ==> 1 <= width
    ensures Max(PartWidths(parts)) <= width
  {
    var widths := PartWidths(parts);
    var r :| 0 <= r < |widths| && widths[r] == Max(widths);
    if parts[r] != [] {
      PartWidth(parts, r);
    }
  }

  /** The common width is the width of the whole batch, except that an empty part counts as
      one column although no completion has any. */
  lemma CommonWidth(parts: seq<seq<Completion>>, pad: int, wantLp: bool)
    requires |parts| > 0
    ensures Max(Widths(LocalBlocks(parts, pad, wantLp))) == WidthOf(Flatten(parts)) <==> WidthsAgree(parts)
  {
    var widths := PartWidths(parts);
    assert Widths(LocalBlocks(parts, pad, wantLp)) == widths;
    var r :| 0 <= r < |widths| && widths[r] == Max(widths);
    if Flatten(parts) == [] {
      if parts[r] != [] {
        PartWidth(parts, r);
      }
    } else {
      SomeWidth(parts);
    }
  }

  lemma SomeWidth(parts: seq<seq<Completion>>)
    requires Flatten(parts) != []
    ensures Max(PartWidths(parts)) == WidthOf(Flatten(parts)) <==> WidthsAgree(parts)
  {
    WidthZero(Flatten(parts));
    WidestPart(parts);
    if e :| 0 <= e < |parts| && parts[e] == [] && WidthOf(Flatten(parts)) == 0 {
      assert PartWidths(parts)[e] == 1;
    } else {
      PartsWithin(parts, WidthOf(Flatten(parts)));
    }
  }

  lemma WidthZero(cs: seq<Completion>)
    requires cs != []
    ensures WidthOf(cs) > 0 <==> exists i :: 0 <= i < |cs| && |Content(cs[i])| > 0
  {
    WidthOfOne(cs);
    forall i | 0 <= i < |cs| ensures |Content(cs[i])| <= WidthOf(cs) {
      WidthCovers(cs, i);
    }
  }

  lemma PartWidth(parts: seq<seq<Completion>>, r: nat)
    requires r < |parts| && parts[r] != []
    ensures Flatten(parts) != [] && WidthOf(parts[r]) <= WidthOf(Flatten(parts))
  {
    WidthOfOne(parts[r]);
    var j :| 0 <= j < |parts[r]| && |Content(parts[r][j])| == WidthOf(parts[r]);
    var i := PlaceInFlatten(parts, r, j);
    WidthCovers(Flatten(parts), i);
  }

  lemma {:induction false} PlaceInFlatten<T>(xss: seq<seq<T>>, r: nat, j: nat) returns (i: nat)
    requires r < |xss| && j < |xss[r]|
    ensures i < |Flatten(xss)| && Flatten(xss)[i] == xss[r][j]
  {
    if r == 0 {
      i := j;
    } else {
      var k := PlaceInFlatten(xss[1..], r - 1, j);
      i := |xss[0]| + k;
    }
  }

  lemma {:induction false} FindInFlatten<T>(xss: seq<seq<T>>, i: nat) returns (r: nat, j: nat)
    requires i < |Flatten(xss)|
    ensures r < |xss| && j < |xss[r]| && xss[r][j] == Flatten(xss)[i]
  {
    if i < |xss[0]| {
      r, j := 0, i;
    } else {
      r, j := FindInFlatten(xss[1..], i - |xss[0]|);
      r := r + 1;
    }
  }

  /** The ranks fit the common size. */
  lemma CommonSize(parts: seq<seq<Completion>>, pad: int, wantLp: bool)
    requires forall r :: 0 <= r < |parts| ==> EngineResults(parts[r])
    ensures var blocks := LocalBlocks(parts, pad, wantLp);
            Fits(parts, blocks, Max(Widths(blocks)), Max(Counts(blocks)), pad, wantLp)
  {
    var blocks := LocalBlocks(parts, pad, wantLp);
    forall r | 0 <= r < |parts|
      ensures WidthOf(parts[r]) <= Max(Widths(blocks)) && |parts[r]| <= Max(Counts(blocks))
    {
      assert Widths(blocks)[r] == WidthOf(parts[r]) && Counts(blocks)[r] == |parts[r]|;
    }
  }

  ghost predicate Fits(parts: seq<seq<Completion>>, blocks: seq<Block>, width: nat, rows: nat, pad: int, wantLp: bool) {
    && |parts| == |blocks|
    && forall r :: 0 <= r < |parts| ==>
                     && EngineResults(parts[r]) && blocks[r] == BuildBlock(parts[r], pad, wantLp)
                     && WidthOf(parts[r]) <= width && |parts[r]| <= rows
  }

  lemma TokensGather(parts: seq<seq<Completion>>, blocks: seq<Block>, width: nat, rows: nat, pad: int, wantLp: bool)
    requires Fits(parts, blocks, width, rows, pad, wantLp)
    ensures Trimmed(GivenTokens(blocks, width, rows, pad), Counts(blocks)) == TokenRows(Flatten(parts), width, pad)
    ensures Trimmed(GivenMask(blocks, width, rows), Counts(blocks)) == MaskRows(Flatten(parts), width)
  {
    forall r | 0 <= r < |parts|
      ensures PadColumns(blocks[r].tokens, blocks[r].width, width, pad) == TokenRows(parts[r], width, pad)
      ensures PadColumns(blocks[r].mask, blocks[r].width, width, 0) == MaskRows(parts[r], width)
    {
      HoldsOwnWidth(parts[r]);
      BuildBlockColumns(parts[r], pad, wantLp);
      WidenTokens(parts[r], WidthOf(parts[r]), width, pad);
    }
    var given := GivenTokens(blocks, width, rows, pad);
    TrimmedIff((c: Completion) => TokenRow(c, width, pad), parts, given, Counts(blocks));
    TrimmedIff((c: Completion) => MaskRow(c, width), parts, GivenMask(blocks, width, rows), Counts(blocks));
  }

  lemma PlensGather(parts: seq<seq<Completion>>, blocks: seq<Block>, width: nat, rows: nat, pad: int, wantLp: bool)
    requires Fits(parts, blocks, width, rows, pad, wantLp)
    ensures Trimmed(GivenPlens(blocks, rows), Counts(blocks)) == PromptLengths(Flatten(parts))
  {
    forall r | 0 <= r < |parts| ensures blocks[r].plens == PromptLengths(parts[r]) {
      BuildBlockColumns(parts[r], pad, wantLp);
    }
    TrimmedIff(PromptLength, parts, GivenPlens(blocks, rows), Counts(blocks));
  }

  /** A part is as wide as the whole batch, or all its first log-probs have a column. */
  predicate LpsFit(part: seq<Completion>, width: nat) {
    WidthOf(part) == width || FirstLogprobsFit(part, WidthOf(part))
  }

  lemma LpsGather(parts: seq<seq<Completion>>, blocks: seq<Block>, width: nat, rows: nat, pad: int)
    requires Fits(parts, blocks, width, rows, pad, true)
    ensures Trimmed(GivenLps(blocks, width, rows), Counts(blocks)) == LpRows(Flatten(parts), width)
            <==> forall r :: 0 <= r < |parts| ==> LpsFit(parts[r], width)
  {
    var given := GivenLps(blocks, width, rows);
    forall r | 0 <= r < |parts|
      ensures Counts(blocks)[r] == |parts[r]| <= |given[r]|
      ensures given[r][..|parts[r]|] == LpRows(parts[r], width) <==> LpsFit(parts[r], width)
    {
      HoldsOwnWidth(parts[r]);
      BuildBlockColumns(parts[r], pad, true);
      WidenLps(parts[r], WidthOf(parts[r]), width);
    }
    TrimmedIff((c: Completion) => LpRow(c, width), parts, given, Counts(blocks));
  }

  /** What the all-gather needs to lose nothing. */
  ghost predicate GatherKeeps(parts: seq<seq<Completion>>, wantLp: bool) {
    && WidthsAgree(parts)
    && (wantLp ==> forall r :: 0 <= r < |parts| ==> LpsFit(parts[r], WidthOf(Flatten(parts))))
  }

  /** Gathering the blocks of any parts gives the block of the parts put together, exactly when
      their widths agree and no narrower part has a first log-prob without a column. */
  lemma GatherParts(parts: seq<seq<Completion>>, pad: int, wantLp: bool)
    requires |parts| > 0 && forall r :: 0 <= r < |parts| ==> EngineResults(parts[r])
    ensures AllGather(LocalBlocks(parts, pad, wantLp), pad, wantLp) == BuildBlock(Flatten(parts), pad, wantLp)
            <==> GatherKeeps(parts, wantLp)
  {
    var blocks := LocalBlocks(parts, pad, wantLp);
    var width, rows := Max(Widths(blocks)), Max(Counts(blocks));
    CommonWidth(parts, pad, wantLp);
    CommonSize(parts, pad, wantLp);
    BuildBlockColumns(Flatten(parts), pad, wantLp);
    if width == WidthOf(Flatten(parts)) {
      if rows == 0 {
        FlattenLength(parts, 0);
        assert forall r :: 0 <= r < |parts| ==> LpsFit(parts[r], width);
      } else {
        TokensGather(parts, blocks, width, rows, pad, wantLp);
        PlensGather(parts, blocks, width, rows, pad, wantLp);
        if wantLp {
          LpsGather(parts, blocks, width, rows, pad);
        }
      }
    }
  }

  /** Main result: for any number of ranks, ranks without prompts included, the gathered
      batch is the one a single rank would have assembled: same rows in the same order,
      same tokens, masks, prompt lengths and log-prob columns. It holds exactly when the
      ranks' parts meet the condition above. */
  lemma GatheredIsWhole(cs: seq<Completion>, ranks: nat, pad: int, wantLp: bool)
    requires ranks > 0 && EngineResults(cs)
    ensures AllGather(LocalBlocks(Locals(cs, ranks), pad, wantLp), pad, wantLp) == BuildBlock(cs, pad, wantLp)
            <==> GatherKeeps(Locals(cs, ranks), wantLp)
  {
    LocalsCover(cs, ranks);
    GatherParts(Locals(cs, ranks), pad, wantLp);
  }

  /** Batches without empty prompts always meet it, however many ranks share them. */
  lemma PromptsKeep(cs: seq<Completion>, ranks: nat, wantLp: bool)
    requires ranks > 0 && forall i :: 0 <= i < |cs| ==> |cs[i].prompt| > 0
    ensures GatherKeeps(Locals(cs, ranks), wantLp)
  {
    LocalsCover(cs, ranks);
    assert cs != [] ==> |Content(cs[0])| > 0;
  }

  function PreparedAll(answers: seq<Answer>, maxTotal: int): seq<Completion> {
    Map((a: Answer) => Prepared(a, maxTotal), answers)
  }

  /** From the engine's answers to the batch on every rank: with non-empty prompts and no more
      log-probs than tokens, cutting to the budget, assembling on any number of ranks and
      gathering is cutting and assembling on one. */
  lemma AnswersGather(answers: seq<Answer>, maxTotal: int, ranks: nat, pad: int, wantLp: bool)
    requires ranks > 0
    requires forall i :: 0 <= i < |answers| ==> |answers[i].prompt| > 0
    requires forall i :: 0 <= i < |answers| && answers[i].logprobs.Some? ==>
                           |answers[i].logprobs.value| <= |answers[i].response|
    ensures var cs := PreparedAll(answers, maxTotal);
            AllGather(LocalBlocks(Locals(cs, ranks), pad, wantLp), pad, wantLp) == BuildBlock(cs, pad, wantLp)
  {
    var cs := PreparedAll(answers, maxTotal);
    forall i | 0 <= i < |cs| ensures |cs[i].prompt| > 0 && |cs[i].logprobs| <= |cs[i].response| {
      PreparedFits(answers[i], maxTotal);
    }
    PromptsKeep(cs, ranks, wantLp);
    GatheredIsWhole(cs, ranks, pad, wantLp);
  }
}
