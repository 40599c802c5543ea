/** The loop that keeps generating until enough prompts have samples of mixed quality. */
module DynamicSampling {
  import opened Arith
  import opened GroupFilter
  import opened RolloutAssembly
  import RowOperations
  import opened Seqs
  import opened Wrappers

  datatype Prompt = Prompt(text: string, truth: string)

  /** What one round of generation and scoring returns, column by column. */
  datatype Generated<V> = Generated(
    width: nat, tokens: seq<seq<int>>, mask: seq<seq<int>>, plens: seq<nat>, lps: Option<seq<seq<real>>>,
    ragged: map<string, seq<V>>, rewards: seq<real>, accs: seq<real>)

  /** A round, with the reference answer of each sample's prompt. */
  datatype Round<V> = Round(prompts: seq<Prompt>, out: Generated<V>, truths: seq<string>)

  /** Sample `row` of round `round`. */
  datatype Pick = Pick(round: nat, row: nat)

  /** Every column has `n` rows and every row the round's width. */
  ghost predicate WellFormed<V>(o: Generated<V>, n: nat) {
    && |o.tokens| == |o.mask| == |o.plens| == |o.rewards| == |o.accs| == n
    && (o.lps.Some? ==> |o.lps.value| == n)
    && (forall k :: k in o.ragged ==> |o.ragged[k]| == n)
    && forall i :: 0 <= i < n ==> |o.tokens[i]| == o.width && |o.mask[i]| == o.width
  }

  /** One sample as it sits in a block of the given width. */
  datatype Sample<V> = Sample(
    tokens: seq<int>, mask: seq<int>, plen: nat, reward: real, truth: string, lps: Option<seq<real>>,
    ragged: map<string, V>)

  /** The batch handed to training. */
  datatype Collected<V> = Collected(
    width: nat, tokens: seq<seq<int>>, mask: seq<seq<int>>, plens: seq<nat>, rewards: seq<real>,
    truths: seq<string>, lps: Option<seq<seq<real>>>, ragged: map<string, seq<V>>)

  /** `row` brought to `width` columns: padded on the left, or cut on the left. */
  function Fit<T>(row: seq<T>, width: nat, value: T): seq<T> {
    if |row| >= width then row[|row| - width..] else LeftPad(row, width, value)
  }

  function FitAll<T>(rows: seq<seq<T>>, width: nat, value: T): seq<seq<T>> {
    seq(|rows|, i requires 0 <= i < |rows| => Fit(rows[i], width, value))
  }

  function CatFitted<T>(parts: seq<seq<seq<T>>>, width: nat, value: T): seq<seq<T>> {
    if |parts| == 0 then [] else FitAll(parts[0], width, value) + CatFitted(parts[1..], width, value)
  }

  lemma {:induction false} CatFittedIs<T>(parts: seq<seq<seq<T>>>, width: nat, value: T)
    ensures CatFitted(parts, width, value) == FitAll(Flatten(parts), width, value)
  {
    if |parts| > 0 {
      CatFittedIs(parts[1..], width, value);
    }
  }

  // ---------------------------------------------------------------------
  // Columns that follow the picked samples
  // ---------------------------------------------------------------------

  function TokensOf<V>(r: Round<V>): seq<seq<int>> { r.out.tokens }

  function MaskOf<V>(r: Round<V>): seq<seq<int>> { r.out.mask }

  function PlensOf<V>(r: Round<V>): seq<nat> { r.out.plens }

  function RewardsOf<V>(r: Round<V>): seq<real> { r.out.rewards }

  function TruthsOf<V>(r: Round<V>): seq<string> { r.truths }

  function LpsOf<V>(r: Round<V>): seq<seq<real>> {
    if r.out.lps.Some? then r.out.lps.value else []
  }

  function RaggedOf<V>(r: Round<V>, key: string): seq<V> {
    if key in r.out.ragged then r.out.ragged[key] else []
  }

  /** Entry `j` of `col` comes from the `j`-th picked sample. */
  ghost predicate Follows<T>(col: seq<T>, columns: seq<seq<T>>, picks: seq<Pick>) {
    && |col| == |picks|
    && forall j :: 0 <= j < |picks| ==>
         && picks[j].round < |columns| && picks[j].row < |columns[picks[j].round]|
         && col[j] == columns[picks[j].round][picks[j].row]
  }

  function PicksOf(round: nat, rows: seq<nat>): seq<Pick> {
    seq(|rows|, i requires 0 <= i < |rows| => Pick(round, rows[i]))
  }

  lemma FollowsAppend<T>(col: seq<T>, columns: seq<seq<T>>, picks: seq<Pick>, more: seq<T>, rows: seq<nat>)
    requires Follows(col, columns, picks) && InRange(rows, |more|)
    ensures Follows(col + Gather(more, rows), columns + [more], picks + PicksOf(|columns|, rows))
  {
  }

  function Columns<V, T>(rounds: seq<Round<V>>, sel: Round<V> -> seq<T>): seq<seq<T>> {
    seq(|rounds|, k requires 0 <= k < |rounds| => sel(rounds[k]))
  }

  lemma ColumnsSnoc<V, T>(rounds: seq<Round<V>>, r: Round<V>, sel: Round<V> -> seq<T>)
    ensures Columns(rounds + [r], sel) == Columns(rounds, sel) + [sel(r)]
  {
  }

  // ---------------------------------------------------------------------
  // Groups kept
  // ---------------------------------------------------------------------

  /** The samples of prompt `prompt` of round `round`. */
  datatype GroupRef = GroupRef(round: nat, prompt: nat)

  /** The rows of whole groups, in order. */
  function GroupRows(kept: seq<nat>, g: nat): seq<nat> {
    Flatten(seq(|kept|, i requires 0 <= i < |kept| => Span(kept[i] * g, kept[i] * g + g)))
  }

  /** The samples of one group. */
  function BlockPicks(group: GroupRef, g: nat): seq<Pick> {
    PicksOf(group.round, Span(group.prompt * g, group.prompt * g + g))
  }

  function Blocks(groups: seq<GroupRef>, g: nat): seq<seq<Pick>> {
    seq(|groups|, i requires 0 <= i < |groups| => BlockPicks(groups[i], g))
  }

  /** The samples of the groups, group after group. */
  function PicksFor(groups: seq<GroupRef>, g: nat): seq<Pick> {
    Flatten(Blocks(groups, g))
  }

  function GroupsOf(round: nat, kept: seq<nat>): seq<GroupRef> {
    seq(|kept|, i requires 0 <= i < |kept| => GroupRef(round, kept[i]))
  }

  /** The prompts of a round of `p` prompts whose samples are kept. */
  function RoundKept<V>(r: Round<V>, g: nat, p: nat): seq<nat>
    requires g > 0 && |r.out.accs| == p * g
  {
    KeptPrompts(r.out.accs, g, p, 0.0)
  }

  ghost predicate Rounds<V>(rounds: seq<Round<V>>, g: nat, p: nat) {
    g > 0 && forall k :: 0 <= k < |rounds| ==> |rounds[k].out.accs| == p * g
  }

  /** The groups kept over all rounds, in the order they were generated. */
  ghost function Groups<V>(rounds: seq<Round<V>>, g: nat, p: nat): seq<GroupRef>
    requires Rounds(rounds, g, p)
  {
    if |rounds| == 0 then []
    else
      var n := |rounds| - 1;
      Groups(rounds[..n], g, p) + GroupsOf(n, RoundKept(rounds[n], g, p))
  }

  lemma PicksForConcat(a: seq<GroupRef>, b: seq<GroupRef>, g: nat)
    ensures PicksFor(a + b, g) == PicksFor(a, g) + PicksFor(b, g)
  {
    assert Blocks(a + b, g) == Blocks(a, g) + Blocks(b, g);
    FlattenConcat(Blocks(a, g), Blocks(b, g));
  }

  lemma GroupRowsSnoc(kept: seq<nat>, q: nat, g: nat)
    ensures GroupRows(kept + [q], g) == GroupRows(kept, g) + Span(q * g, q * g + g)
  {
    var spans := seq(|kept|, i requires 0 <= i < |kept| => Span(kept[i] * g, kept[i] * g + g));
    FlattenSnoc(spans, Span(q * g, q * g + g));
    assert seq(|kept| + 1, i requires 0 <= i < |kept| + 1 => Span((kept + [q])[i] * g, (kept + [q])[i] * g + g))
        == spans + [Span(q * g, q * g + g)];
  }

  lemma {:induction false} PicksForRound(round: nat, kept: seq<nat>, g: nat)
    ensures PicksFor(GroupsOf(round, kept), g) == PicksOf(round, GroupRows(kept, g))
  {
    if |kept| > 0 {
      var n := |kept| - 1;
      PicksForRound(round, kept[..n], g);
      assert kept == kept[..n] + [kept[n]];
      GroupRowsSnoc(kept[..n], kept[n], g);
      assert GroupsOf(round, kept) == GroupsOf(round, kept[..n]) + [GroupRef(round, kept[n])];
      PicksForConcat(GroupsOf(round, kept[..n]), [GroupRef(round, kept[n])], g);
      OneBlock(GroupRef(round, kept[n]), g);
    }
  }

  lemma OneBlock(group: GroupRef, g: nat)
    ensures PicksFor([group], g) == BlockPicks(group, g)
  {
    assert Blocks([group], g) == [BlockPicks(group, g)];
    FlattenSnoc([], BlockPicks(group, g));
    assert [] + [BlockPicks(group, g)] == [BlockPicks(group, g)];
  }

  /** The samples of group `b` are the `b`-th block of `g` picks. */
  lemma PicksAreBlocks(groups: seq<GroupRef>, g: nat, b: nat)
    requires b < |groups|
    ensures |PicksFor(groups, g)| == |groups| * g
    ensures 0 <= b * g <= (b + 1) * g <= |groups| * g
    ensures PicksFor(groups, g)[b * g..(b + 1) * g] == BlockPicks(groups[b], g)
  {
    FlattenBlock(Blocks(groups, g), g, b);
  }

  lemma {:induction false} TrueRowsConcat(a: seq<bool>, b: seq<bool>, from: nat)
    ensures RowOperations.TrueRows(a + b, from)
         == RowOperations.TrueRows(a, from) + RowOperations.TrueRows(b, from + |a|)
  {
    if |a| == 0 {
      assert a + b == b;
    } else {
      assert (a + b)[1..] == a[1..] + b;
      TrueRowsConcat(a[1..], b, from + 1);
    }
  }

  lemma {:induction false} TrueRowsUniform(keep: seq<bool>, from: nat, value: bool)
    requires forall i :: 0 <= i < |keep| ==> keep[i] == value
    ensures RowOperations.TrueRows(keep, from) == if value then Span(from, from + |keep|) else []
  {
    if |keep| > 0 {
      TrueRowsUniform(keep[1..], from + 1, value);
      TrueRowsFirst(keep, from);
      assert keep[0] == value;
      if value {
        SpanFirst(from, from + |keep|);
      }
    }
  }

  lemma TrueRowsFirst(keep: seq<bool>, from: nat)
    requires |keep| > 0
    ensures RowOperations.TrueRows(keep, from)
         == (if keep[0] then [from] else []) + RowOperations.TrueRows(keep[1..], from + 1)
  {
  }

  lemma SpanFirst(lo: nat, hi: nat)
    requires lo < hi
    ensures Span(lo, hi) == [lo] + Span(lo + 1, hi)
  {
  }

  /** A sample is kept exactly when the group at its position is. */
  ghost predicate KeepsByGroup(keep: seq<bool>, accs: seq<real>, g: nat) {
    && g > 0 && |keep| == |accs|
    && forall i :: 0 <= i < |keep| ==>
         (i / g) * g + g <= |accs| && (keep[i] <==> KeepsGroup(GroupVals(accs, g, i / g), 0.0))
  }

  lemma TrueRowsOfBlock(keep: seq<bool>, accs: seq<real>, g: nat, p: nat, lo: nat)
    requires KeepsByGroup(keep, accs, g) && lo == p * g && lo + g <= |keep|
    ensures RowOperations.TrueRows(keep[lo..lo + g], lo)
         == if KeepsGroup(GroupVals(accs, g, p), 0.0) then Span(lo, lo + g) else []
  {
    var kept := KeepsGroup(GroupVals(accs, g, p), 0.0);
    var block := keep[lo..lo + g];
    forall k | 0 <= k < g ensures block[k] == kept {
      BlockIndex(lo + k, p, k, g);
    }
    TrueRowsUniform(block, lo, kept);
  }

  lemma GroupRowsMaybe(kept: seq<nat>, q: nat, g: nat, lo: nat, keep: bool)
    requires lo == q * g
    ensures GroupRows(kept + (if keep then [q] else []), g)
         == GroupRows(kept, g) + if keep then Span(lo, lo + g) else []
  {
    if keep {
      GroupRowsSnoc(kept, q, g);
    } else {
      assert kept + [] == kept;
    }
  }

  lemma OneMoreGroup(keep: seq<bool>, g: nat, p: nat, lo: nat, kept: seq<nat>, take: bool)
    requires lo == p * g && lo + g <= |keep|
    requires RowOperations.TrueRows(keep[..lo], 0) == GroupRows(kept, g)
    requires RowOperations.TrueRows(keep[lo..lo + g], lo) == if take then Span(lo, lo + g) else []
    ensures RowOperations.TrueRows(keep[..lo + g], 0) == GroupRows(kept + (if take then [p] else []), g)
  {
    assert keep[..lo + g] == keep[..lo] + keep[lo..lo + g];
    TrueRowsConcat(keep[..lo], keep[lo..lo + g], 0);
    GroupRowsMaybe(kept, p, g, lo, take);
  }

  /** The kept positions are the rows of the kept prompts. */
  lemma {:induction false} KeptRowsAreGroups(keep: seq<bool>, accs: seq<real>, g: nat, q: nat, hi: nat)
    requires KeepsByGroup(keep, accs, g) && hi == q * g && hi <= |keep|
    ensures RowOperations.TrueRows(keep[..hi], 0) == GroupRows(KeptPrompts(accs, g, q, 0.0), g)
  {
    if q > 0 {
      var p, lo := BlockBefore(q, g, hi);
      KeptRowsAreGroups(keep, accs, g, p, lo);
      KeptRowsNext(keep, accs, g, p, lo, q, hi);
    } else {
      NoRowsKept(keep, accs, g, hi);
    }
  }

  lemma BlockBefore(q: nat, g: nat, hi: nat) returns (p: nat, lo: nat)
    requires q > 0 && hi == q * g
    ensures q == p + 1 && lo == p * g && hi == lo + g
  {
    p := q - 1;
    lo := p * g;
    MulSucc(p, g);
  }

  lemma NoRowsKept(keep: seq<bool>, accs: seq<real>, g: nat, hi: nat)
    requires hi == 0 && g > 0
    ensures RowOperations.TrueRows(keep[..hi], 0) == GroupRows(KeptPrompts(accs, g, 0, 0.0), g)
  {
    assert keep[..hi] == [];
  }

  lemma KeptRowsNext(keep: seq<bool>, accs: seq<real>, g: nat, p: nat, lo: nat, q: nat, hi: nat)
    requires KeepsByGroup(keep, accs, g) && lo == p * g && q == p + 1 && hi == lo + g == q * g && hi <= |keep|
    requires RowOperations.TrueRows(keep[..lo], 0) == GroupRows(KeptPrompts(accs, g, p, 0.0), g)
    ensures RowOperations.TrueRows(keep[..hi], 0) == GroupRows(KeptPrompts(accs, g, q, 0.0), g)
  {
    var kept, take := KeptPrompts(accs, g, p, 0.0), KeepsGroup(GroupVals(accs, g, p), 0.0);
    var more := if take then [p] else [];
    TrueRowsOfBlock(keep, accs, g, p, lo);
    OneMoreGroup(keep, g, p, lo, kept, take);
    assert KeptPrompts(accs, g, q, 0.0) == kept + more by {
      KeptPromptsNext(accs, g, p, 0.0);
    }
  }

  // ---------------------------------------------------------------------
  // The accumulators
  // ---------------------------------------------------------------------

  /** What the loop has gathered: one list entry per round for tensors, one per sample for
      the rest. */
  datatype Accumulated<V> = Accumulated(
    rows: seq<seq<seq<int>>>, mask: seq<seq<seq<int>>>, lps: seq<seq<seq<real>>>, rewards: seq<seq<real>>,
    plens: seq<nat>, truths: seq<string>, ragged: map<string, seq<V>>)

  ghost predicate WellFormedRound<V>(r: Round<V>, n: nat, keys: set<string>, reports: bool) {
    WellFormed(r.out, n) && |r.truths| == n && r.out.ragged.Keys == keys && r.out.lps.Some? == reports
  }

  function ExtendRagged<V>(acc: map<string, seq<V>>, out: map<string, seq<V>>, kept: seq<nat>): map<string, seq<V>>
    requires forall k :: k in out ==> InRange(kept, |out[k]|)
  {
    map k | k in acc.Keys + out.Keys ::
      (if k in acc then acc[k] else []) + if k in out then Gather(out[k], kept) else []
  }

  function Extend<V>(acc: Accumulated<V>, r: Round<V>, kept: seq<nat>, wantLp: bool): Accumulated<V>
    requires WellFormed(r.out, |r.truths|) && InRange(kept, |r.truths|)
  {
    Accumulated(
      acc.rows + [Gather(r.out.tokens, kept)],
      acc.mask + [Gather(r.out.mask, kept)],
      if wantLp && r.out.lps.Some? then acc.lps + [Gather(r.out.lps.value, kept)] else acc.lps,
      acc.rewards + [Gather(r.out.rewards, kept)],
      acc.plens + Gather(r.out.plens, kept),
      acc.truths + Gather(r.truths, kept),
      ExtendRagged(acc.ragged, r.out.ragged, kept))
  }

  function RaggedColumn<V>(key: string): Round<V> -> seq<V> {
    (r: Round<V>) => RaggedOf(r, key)
  }

  /** Every accumulator lists the picked samples, in the same order. */
  ghost predicate Tracks<V>(acc: Accumulated<V>, rounds: seq<Round<V>>, picks: seq<Pick>) {
    && Follows(Flatten(acc.rows), Columns(rounds, TokensOf), picks)
    && Follows(Flatten(acc.mask), Columns(rounds, MaskOf), picks)
    && Follows(Flatten(acc.rewards), Columns(rounds, RewardsOf), picks)
    && Follows(acc.plens, Columns(rounds, PlensOf), picks)
    && Follows(acc.truths, Columns(rounds, TruthsOf), picks)
  }

  ghost predicate TracksRagged<V>(acc: Accumulated<V>, rounds: seq<Round<V>>, picks: seq<Pick>, keys: set<string>) {
    && acc.ragged.Keys == (if picks == [] then {} else keys)
    && forall k :: k in acc.ragged ==> Follows(acc.ragged[k], Columns(rounds, RaggedColumn(k)), picks)
  }

  ghost predicate TracksLps<V>(acc: Accumulated<V>, rounds: seq<Round<V>>, picks: seq<Pick>, kept: bool) {
    if kept then Follows(Flatten(acc.lps), Columns(rounds, LpsOf), picks) && |acc.lps| == |acc.rows|
    else acc.lps == []
  }

  lemma FollowsFlat<V, T>(parts: seq<seq<T>>, rounds: seq<Round<V>>, r: Round<V>, sel: Round<V> -> seq<T>,
                          picks: seq<Pick>, kept: seq<nat>)
    requires Follows(Flatten(parts), Columns(rounds, sel), picks) && InRange(kept, |sel(r)|)
    ensures Follows(Flatten(parts + [Gather(sel(r), kept)]), Columns(rounds + [r], sel),
                    picks + PicksOf(|rounds|, kept))
  {
    FlattenSnoc(parts, Gather(sel(r), kept));
    ColumnsSnoc(rounds, r, sel);
    FollowsAppend(Flatten(parts), Columns(rounds, sel), picks, sel(r), kept);
  }

  lemma FollowsList<V, T>(col: seq<T>, rounds: seq<Round<V>>, r: Round<V>, sel: Round<V> -> seq<T>,
                          picks: seq<Pick>, kept: seq<nat>)
    requires Follows(col, Columns(rounds, sel), picks) && InRange(kept, |sel(r)|)
    ensures Follows(col + Gather(sel(r), kept), Columns(rounds + [r], sel), picks + PicksOf(|rounds|, kept))
  {
    ColumnsSnoc(rounds, r, sel);
    FollowsAppend(col, Columns(rounds, sel), picks, sel(r), kept);
  }

  lemma ExtendTracks<V>(acc: Accumulated<V>, rounds: seq<Round<V>>, r: Round<V>, picks: seq<Pick>, kept: seq<nat>,
                        wantLp: bool)
    requires WellFormed(r.out, |r.truths|) && InRange(kept, |r.truths|) && Tracks(acc, rounds, picks)
    ensures Tracks(Extend(acc, r, kept, wantLp), rounds + [r], picks + PicksOf(|rounds|, kept))
  {
    FollowsFlat(acc.rows, rounds, r, TokensOf, picks, kept);
    FollowsFlat(acc.mask, rounds, r, MaskOf, picks, kept);
    FollowsFlat(acc.rewards, rounds, r, RewardsOf, picks, kept);
    FollowsList(acc.plens, rounds, r, PlensOf, picks, kept);
    FollowsList(acc.truths, rounds, r, TruthsOf, picks, kept);
  }

  lemma ExtendTracksLps<V>(acc: Accumulated<V>, rounds: seq<Round<V>>, r: Round<V>, picks: seq<Pick>, kept: seq<nat>,
                           wantLp: bool)
    requires WellFormed(r.out, |r.truths|) && InRange(kept, |r.truths|)
    requires TracksLps(acc, rounds, picks, wantLp && r.out.lps.Some?)
    ensures TracksLps(Extend(acc, r, kept, wantLp), rounds + [r], picks + PicksOf(|rounds|, kept),
                      wantLp && r.out.lps.Some?)
  {
    if wantLp && r.out.lps.Some? {
      FollowsFlat(acc.lps, rounds, r, LpsOf, picks, kept);
    }
  }

  lemma ExtendTracksRagged<V>(acc: Accumulated<V>, rounds: seq<Round<V>>, r: Round<V>, picks: seq<Pick>,
                              kept: seq<nat>, wantLp: bool, keys: set<string>)
    requires WellFormedRound(r, |r.truths|, keys, r.out.lps.Some?) && InRange(kept, |r.truths|) && |kept| > 0
    requires TracksRagged(acc, rounds, picks, keys)
    ensures TracksRagged(Extend(acc, r, kept, wantLp), rounds + [r], picks + PicksOf(|rounds|, kept), keys)
  {
    var ragged := ExtendRagged(acc.ragged, r.out.ragged, kept);
    forall k | k in ragged
      ensures Follows(ragged[k], Columns(rounds + [r], RaggedColumn(k)), picks + PicksOf(|rounds|, kept))
    {
      var before := if k in acc.ragged then acc.ragged[k] else [];
      assert Follows(before, Columns(rounds, RaggedColumn(k)), picks);
      FollowsList(before, rounds, r, RaggedColumn(k), picks, kept);
    }
  }

  lemma NothingKeptTracks<V>(acc: Accumulated<V>, rounds: seq<Round<V>>, r: Round<V>, picks: seq<Pick>,
                             keys: set<string>, lpKept: bool)
    requires Tracks(acc, rounds, picks) && TracksRagged(acc, rounds, picks, keys)
    requires TracksLps(acc, rounds, picks, lpKept)
    ensures Tracks(acc, rounds + [r], picks) && TracksRagged(acc, rounds + [r], picks, keys)
    ensures TracksLps(acc, rounds + [r], picks, lpKept)
  {
    ColumnsSnoc(rounds, r, TokensOf);
    ColumnsSnoc(rounds, r, MaskOf);
    ColumnsSnoc(rounds, r, RewardsOf);
    ColumnsSnoc(rounds, r, PlensOf);
    ColumnsSnoc(rounds, r, TruthsOf);
    ColumnsSnoc(rounds, r, LpsOf);
    forall k | k in acc.ragged ensures Follows(acc.ragged[k], Columns(rounds + [r], RaggedColumn(k)), picks) {
      ColumnsSnoc(rounds, r, RaggedColumn(k));
    }
  }

  // ---------------------------------------------------------------------
  // The delivered batch
  // ---------------------------------------------------------------------

  function Take<T>(s: seq<T>, n: nat): seq<T> {
    if n <= |s| then s[..n] else s
  }

  /** The width of each part, read off its first row. */
  function PartWidths<T>(parts: seq<seq<seq<T>>>): seq<nat> {
    seq(|parts|, i requires 0 <= i < |parts| => if |parts[i]| > 0 then |parts[i][0]| else 0)
  }

  function LpColumns(width: nat): nat {
    if width > 0 then width - 1 else 0
  }

  /** Every round brought to the widest one, joined, and cut to `keepRows` rows. */
  function Finish<V>(acc: Accumulated<V>, pad: int, keepRows: nat): Collected<V> {
    var width := Max(PartWidths(acc.rows));
    Collected(
      width,
      Take(CatFitted(acc.rows, width, pad), keepRows),
      Take(CatFitted(acc.mask, width, 0), keepRows),
      Take(acc.plens, keepRows),
      Take(Flatten(acc.rewards), keepRows),
      Take(acc.truths, keepRows),
      if acc.lps != [] then Some(Take(CatFitted(acc.lps, LpColumns(width), 0.0), keepRows)) else None,
      map k | k in acc.ragged :: Take(acc.ragged[k], keepRows))
  }

  ghost predicate SameLength<V>(c: Collected<V>, n: nat) {
    && |c.tokens| == |c.mask| == |c.plens| == |c.rewards| == |c.truths| == n
    && (c.lps.Some? ==> |c.lps.value| == n)
    && forall k :: k in c.ragged ==> |c.ragged[k]| == n
  }

  /** Row `j` of every column. */
  ghost function SampleAt<V>(c: Collected<V>, j: nat): Sample<V>
    requires SameLength(c, |c.tokens|) && j < |c.tokens|
  {
    Sample(c.tokens[j], c.mask[j], c.plens[j], c.rewards[j], c.truths[j],
           if c.lps.Some? then Some(c.lps.value[j]) else None,
           map k | k in c.ragged :: c.ragged[k][j])
  }

  /** Sample `i` of a round, moved to the right end of `width` columns. */
  ghost function SampleOf<V>(r: Round<V>, i: nat, width: nat, pad: int, wantLp: bool): Sample<V>
    requires WellFormed(r.out, |r.truths|) && i < |r.truths|
  {
    Sample(Fit(r.out.tokens[i], width, pad), Fit(r.out.mask[i], width, 0), r.out.plens[i], r.out.rewards[i],
           r.truths[i],
           if wantLp && r.out.lps.Some? then Some(Fit(r.out.lps.value[i], LpColumns(width), 0.0)) else None,
           map k | k in r.out.ragged :: r.out.ragged[k][i])
  }

  ghost predicate AllWellFormed<V>(rounds: seq<Round<V>>, n: nat, keys: set<string>, reports: bool) {
    forall k :: 0 <= k < |rounds| ==> WellFormedRound(rounds[k], n, keys, reports)
  }

  /** Row `j` of every column is the picked sample. */
  ghost predicate Describes<V>(c: Collected<V>, j: nat, rounds: seq<Round<V>>, pick: Pick, pad: int, wantLp: bool) {
    && SameLength(c, |c.tokens|) && j < |c.tokens|
    && pick.round < |rounds|
    && var r := rounds[pick.round];
       WellFormed(r.out, |r.truths|) && pick.row < |r.truths|
       && SampleAt(c, j) == SampleOf(r, pick.row, c.width, pad, wantLp)
  }

  /** All columns of the batch describe the picked samples, one each and in order. */
  ghost predicate Delivers<V>(c: Collected<V>, rounds: seq<Round<V>>, picks: seq<Pick>, pad: int, wantLp: bool) {
    && SameLength(c, |picks|)
    && forall j :: 0 <= j < |picks| ==> Describes(c, j, rounds, picks[j], pad, wantLp)
  }

  lemma ColumnEntry<V, T>(col: seq<T>, rounds: seq<Round<V>>, sel: Round<V> -> seq<T>, picks: seq<Pick>, j: nat)
    requires Follows(col, Columns(rounds, sel), picks) && j < |picks|
    ensures |col| == |picks| && picks[j].round < |rounds| && picks[j].row < |sel(rounds[picks[j].round])|
    ensures col[j] == sel(rounds[picks[j].round])[picks[j].row]
  {
  }

  lemma FinishColumn<V, T>(parts: seq<seq<seq<T>>>, rounds: seq<Round<V>>, sel: Round<V> -> seq<seq<T>>,
                           picks: seq<Pick>, width: nat, value: T, n: nat, j: nat)
    requires Follows(Flatten(parts), Columns(rounds, sel), picks) && j < |Take(picks, n)|
    ensures var col := Take(CatFitted(parts, width, value), n);
            && |col| == |Take(picks, n)|
            && picks[j].round < |rounds| && picks[j].row < |sel(rounds[picks[j].round])|
            && col[j] == Fit(sel(rounds[picks[j].round])[picks[j].row], width, value)
  {
    CatFittedIs(parts, width, value);
    ColumnEntry(Flatten(parts), rounds, sel, picks, j);
  }

  lemma FinishLengths<V>(acc: Accumulated<V>, rounds: seq<Round<V>>, picks: seq<Pick>, pad: int, keepRows: nat,
                         keys: set<string>, kept: bool)
    requires Tracks(acc, rounds, picks) && TracksRagged(acc, rounds, picks, keys)
    requires TracksLps(acc, rounds, picks, kept)
    ensures SameLength(Finish(acc, pad, keepRows), |Take(picks, keepRows)|)
  {
    var c := Finish(acc, pad, keepRows);
    CatFittedIs(acc.rows, c.width, pad);
    CatFittedIs(acc.mask, c.width, 0);
    CatFittedIs(acc.lps, LpColumns(c.width), 0.0);
  }

  lemma FinishPlain<V>(acc: Accumulated<V>, rounds: seq<Round<V>>, picks: seq<Pick>, pad: int, keepRows: nat, j: nat)
    requires Tracks(acc, rounds, picks) && j < |Take(picks, keepRows)|
    ensures picks[j].round < |rounds|
    ensures var c, r, i := Finish(acc, pad, keepRows), rounds[picks[j].round], picks[j].row;
            && |c.plens| > j && |c.rewards| > j && |c.truths| > j
            && i < |r.out.plens| && i < |r.out.rewards| && i < |r.truths|
            && c.plens[j] == r.out.plens[i] && c.rewards[j] == r.out.rewards[i] && c.truths[j] == r.truths[i]
  {
    ColumnEntry(acc.plens, rounds, PlensOf, picks, j);
    ColumnEntry(Flatten(acc.rewards), rounds, RewardsOf, picks, j);
    ColumnEntry(acc.truths, rounds, TruthsOf, picks, j);
  }

  lemma FinishFitted<V>(acc: Accumulated<V>, rounds: seq<Round<V>>, picks: seq<Pick>, pad: int, keepRows: nat, j: nat)
    requires Tracks(acc, rounds, picks) && j < |Take(picks, keepRows)|
    ensures picks[j].round < |rounds|
    ensures var c, r, i := Finish(acc, pad, keepRows), rounds[picks[j].round], picks[j].row;
            && |c.tokens| > j && |c.mask| > j && i < |r.out.tokens| && i < |r.out.mask|
            && c.tokens[j] == Fit(r.out.tokens[i], c.width, pad) && c.mask[j] == Fit(r.out.mask[i], c.width, 0)
  {
    var width := Max(PartWidths(acc.rows));
    FinishColumn(acc.rows, rounds, TokensOf, picks, width, pad, keepRows, j);
    FinishColumn(acc.mask, rounds, MaskOf, picks, width, 0, keepRows, j);
  }

  lemma FinishLps<V>(acc: Accumulated<V>, rounds: seq<Round<V>>, picks: seq<Pick>, pad: int, keepRows: nat, j: nat)
    requires TracksLps(acc, rounds, picks, true) && |acc.lps| > 0 && j < |Take(picks, keepRows)|
    ensures picks[j].round < |rounds|
    ensures var c, r, i := Finish(acc, pad, keepRows), rounds[picks[j].round], picks[j].row;
            && c.lps.Some? && |c.lps.value| > j && i < |LpsOf(r)|
            && c.lps.value[j] == Fit(LpsOf(r)[i], LpColumns(c.width), 0.0)
  {
    var width := Max(PartWidths(acc.rows));
    FinishColumn(acc.lps, rounds, LpsOf, picks, LpColumns(width), 0.0, keepRows, j);
  }

  lemma FinishRagged<V>(acc: Accumulated<V>, rounds: seq<Round<V>>, picks: seq<Pick>, pad: int, keepRows: nat, j: nat,
                        keys: set<string>, k: string)
    requires TracksRagged(acc, rounds, picks, keys) && k in keys && j < |Take(picks, keepRows)|
    ensures picks[j].round < |rounds|
    ensures var c, r, i := Finish(acc, pad, keepRows), rounds[picks[j].round], picks[j].row;
            && k in c.ragged && |c.ragged[k]| > j && i < |RaggedOf(r, k)|
            && c.ragged[k][j] == RaggedOf(r, k)[i]
  {
    ColumnEntry(acc.ragged[k], rounds, RaggedColumn(k), picks, j);
  }

  lemma FinishRaggedAll<V>(acc: Accumulated<V>, rounds: seq<Round<V>>, picks: seq<Pick>, pad: int, keepRows: nat,
                           j: nat, keys: set<string>)
    requires TracksRagged(acc, rounds, picks, keys) && j < |Take(picks, keepRows)| && picks[j].round < |rounds|
    requires rounds[picks[j].round].out.ragged.Keys == keys
    requires forall k :: k in keys ==> picks[j].row < |rounds[picks[j].round].out.ragged[k]|
    requires forall k :: k in Finish(acc, pad, keepRows).ragged ==> j < |Finish(acc, pad, keepRows).ragged[k]|
    ensures var c, r, i := Finish(acc, pad, keepRows), rounds[picks[j].round], picks[j].row;
            (map k | k in c.ragged :: c.ragged[k][j]) == (map k | k in r.out.ragged :: r.out.ragged[k][i])
  {
    forall k | k in keys
      ensures k in Finish(acc, pad, keepRows).ragged
      ensures Finish(acc, pad, keepRows).ragged[k][j] == rounds[picks[j].round].out.ragged[k][picks[j].row]
    {
      FinishRagged(acc, rounds, picks, pad, keepRows, j, keys, k);
    }
  }

  lemma FinishSample<V>(acc: Accumulated<V>, rounds: seq<Round<V>>, picks: seq<Pick>, pad: int, keepRows: nat, n: nat,
                        keys: set<string>, reports: bool, wantLp: bool, j: nat)
    requires AllWellFormed(rounds, n, keys, reports) && j < |Take(picks, keepRows)|
    requires Tracks(acc, rounds, picks) && TracksRagged(acc, rounds, picks, keys)
    requires TracksLps(acc, rounds, picks, wantLp && reports)
    ensures Describes(Finish(acc, pad, keepRows), j, rounds, picks[j], pad, wantLp)
  {
    FinishLengths(acc, rounds, picks, pad, keepRows, keys, wantLp && reports);
    FinishPlain(acc, rounds, picks, pad, keepRows, j);
    FinishFitted(acc, rounds, picks, pad, keepRows, j);
    var r, i := rounds[picks[j].round], picks[j].row;
    assert WellFormedRound(r, n, keys, reports);
    if wantLp && reports {
      FinishLps(acc, rounds, picks, pad, keepRows, j);
    }
    FinishRaggedAll(acc, rounds, picks, pad, keepRows, j, keys);
  }

  lemma FinishDelivers<V>(acc: Accumulated<V>, rounds: seq<Round<V>>, picks: seq<Pick>, pad: int, keepRows: nat, n: nat,
                          keys: set<string>, reports: bool, wantLp: bool)
    requires AllWellFormed(rounds, n, keys, reports)
    requires Tracks(acc, rounds, picks) && TracksRagged(acc, rounds, picks, keys)
    requires TracksLps(acc, rounds, picks, wantLp && reports)
    ensures Delivers(Finish(acc, pad, keepRows), rounds, Take(picks, keepRows), pad, wantLp)
  {
    FinishLengths(acc, rounds, picks, pad, keepRows, keys, wantLp && reports);
    forall j | 0 <= j < |Take(picks, keepRows)|
      ensures Describes(Finish(acc, pad, keepRows), j, rounds, Take(picks, keepRows)[j], pad, wantLp)
    {
      FinishSample(acc, rounds, picks, pad, keepRows, n, keys, reports, wantLp, j);
    }
  }

  /** Parts are not empty and each has one width. */
  ghost predicate UniformParts<T>(parts: seq<seq<seq<T>>>) {
    forall i :: 0 <= i < |parts| ==>
                  |parts[i]| > 0 && forall k :: 0 <= k < |parts[i]| ==> |parts[i][k]| == |parts[i][0]|
  }

  /** The common width is that of the widest row kept. */
  lemma {:induction false} WidestRow<T>(parts: seq<seq<seq<T>>>)
    requires UniformParts(parts)
    ensures forall j :: 0 <= j < |Flatten(parts)| ==> |Flatten(parts)[j]| <= Max(PartWidths(parts))
    ensures |parts| > 0 ==> exists j :: 0 <= j < |Flatten(parts)| && |Flatten(parts)[j]| == Max(PartWidths(parts))
  {
    if |parts| > 0 {
      WidestRow(parts[1..]);
      assert PartWidths(parts)[1..] == PartWidths(parts[1..]);
      var rest := Flatten(parts[1..]);
      assert PartWidths(parts)[0] == |parts[0][0]|;
      if Max(PartWidths(parts)) == |parts[0][0]| {
        assert |Flatten(parts)[0]| == Max(PartWidths(parts));
      } else {
        var j :| 0 <= j < |rest| && |rest[j]| == Max(PartWidths(parts[1..]));
        assert Flatten(parts)[|parts[0]| + j] == rest[j];
        assert |Flatten(parts)[|parts[0]| + j]| == Max(PartWidths(parts));
      }
    }
  }

  // ---------------------------------------------------------------------
  // The loop
  // ---------------------------------------------------------------------

  /** `samples` is the number of completions per prompt; `trainPrompts` how many groups the
      step wants, `genPrompts` how many prompts a round draws. */
  datatype Settings = Settings(
    samples: nat, trainPrompts: nat, genPrompts: nat, roundLimit: nat, wantLp: bool, pad: int) {
    function WantedRows(): nat {
      trainPrompts * samples
    }

    function DrawnRows(): nat {
      genPrompts * samples
    }
  }

  /** The settings read off the configuration, with its fallbacks. */
  function Configured(samples: nat, trainBatch: int, genBatch: int, maxRounds: int, wantLp: bool,
                      pad: int): (s: Settings)
    requires samples > 0
    ensures s.trainPrompts >= 1 && s.genPrompts >= 1 && s.roundLimit >= 1
  {
    var trainPrompts := if trainBatch / samples > 1 then trainBatch / samples else 1;
    Settings(samples, trainPrompts, if genBatch > 0 then genBatch else trainPrompts,
             if maxRounds > 0 then maxRounds else 10000, wantLp, pad)
  }

  /** A generation batch or a round limit that is not positive falls back, the one to the training
      groups, the other to ten thousand. */
  lemma Fallbacks(samples: nat, trainBatch: int, genBatch: int, maxRounds: int, wantLp: bool, pad: int)
    requires samples > 0
    ensures var s := Configured(samples, trainBatch, genBatch, maxRounds, wantLp, pad);
            && (genBatch > 0 ==> s.genPrompts == genBatch) && (genBatch <= 0 ==> s.genPrompts == s.trainPrompts)
            && (maxRounds > 0 ==> s.roundLimit == maxRounds) && (maxRounds <= 0 ==> s.roundLimit == 10000)
            && s.samples == samples && s.wantLp == wantLp && s.pad == pad
  {
  }

  /** The wanted rows are the training batch, cut to whole groups, and never less than one. */
  lemma WantedRowsFit(samples: nat, trainBatch: nat, genBatch: int, maxRounds: int, wantLp: bool, pad: int)
    requires samples > 0
    ensures var rows := Configured(samples, trainBatch, genBatch, maxRounds, wantLp, pad).WantedRows();
            if trainBatch < samples then rows == samples else rows <= trainBatch < rows + samples
  {
    DivMod(trainBatch, samples);
    if trainBatch < samples {
      DivModUnique(trainBatch, samples, 0, trainBatch);
    } else {
      MulSucc(trainBatch / samples, samples);
      MulCancel(0, trainBatch / samples, samples);
    }
  }

  /** Each prompt's reference answer, once per completion. */
  function Expand(prompts: seq<Prompt>, g: nat): seq<string> {
    Flatten(seq(|prompts|, i requires 0 <= i < |prompts| => Copies(prompts[i].truth, g)))
  }

  lemma ExpandedTruth(prompts: seq<Prompt>, g: nat, q: nat)
    requires q < |prompts|
    ensures |Expand(prompts, g)| == |prompts| * g && 0 <= q * g <= (q + 1) * g <= |prompts| * g
    ensures Expand(prompts, g)[q * g..(q + 1) * g] == Copies(prompts[q].truth, g)
  {
    FlattenBlock(seq(|prompts|, i requires 0 <= i < |prompts| => Copies(prompts[i].truth, g)), g, q);
  }

  function RoundOf<V>(prompts: seq<Prompt>, out: Generated<V>, g: nat): Round<V> {
    Round(prompts, out, Expand(prompts, g))
  }

  function PromptsFrom(dataset: nat -> Prompt, start: nat, count: nat): seq<Prompt> {
    seq(count, i requires 0 <= i => dataset(start + i))
  }

  lemma RoundIsWellFormed<V>(prompts: seq<Prompt>, out: Generated<V>, g: nat, n: nat, keys: set<string>, reports: bool)
    requires n == |prompts| * g && WellFormed(out, n) && out.ragged.Keys == keys && out.lps.Some? == reports
    ensures WellFormedRound(RoundOf(prompts, out, g), n, keys, reports)
  {
    FlattenLength(seq(|prompts|, i requires 0 <= i < |prompts| => Copies(prompts[i].truth, g)), g);
  }

  /** The rows and prompts of one round that stay. */
  method KeepOfRound(accs: seq<real>, g: nat, ghost p: nat) returns (keptIdx: seq<nat>, keptIds: seq<nat>)
    requires g > 0 && |accs| == p * g
    ensures keptIds == KeptPrompts(accs, g, p, 0.0)
    ensures keptIdx == GroupRows(keptIds, g) && InRange(keptIdx, |accs|)
  {
    var uids := PositionIds(|accs|, g);
    var res := FilterGroupsKeepMask(accs, uids, 0.0);
    var keep;
    keep, keptIds := res.value.0, res.value.1;
    keptIdx := RowOperations.TrueRows(keep, 0);
    FilterByPosition(accs, g, p, 0.0);
    MaskByGroup(keep, accs, g, p);
    AllKeptRows(keep, accs, g, p);
  }

  lemma MaskByGroup(keep: seq<bool>, accs: seq<real>, g: nat, p: nat)
    requires g > 0 && |accs| == p * g && |keep| == |accs|
    requires forall i :: 0 <= i < |keep| ==>
               (keep[i] <==> KeepsId(accs, PositionIds(|accs|, g), PositionIds(|accs|, g)[i], 0.0))
    ensures KeepsByGroup(keep, accs, g)
  {
    forall i | 0 <= i < |keep|
      ensures (i / g) * g + g <= |accs| && (keep[i] <==> KeepsGroup(GroupVals(accs, g, i / g), 0.0))
    {
      SampleByPosition(accs, g, p, i, 0.0);
    }
  }

  lemma AllKeptRows(keep: seq<bool>, accs: seq<real>, g: nat, p: nat)
    requires KeepsByGroup(keep, accs, g) && |accs| == p * g
    ensures RowOperations.TrueRows(keep, 0) == GroupRows(KeptPrompts(accs, g, p, 0.0), g)
  {
    KeptRowsAreGroups(keep, accs, g, p, |keep|);
    TakeAll(keep, |keep|);
  }

  lemma GroupsStep<V>(rounds: seq<Round<V>>, r: Round<V>, g: nat, p: nat)
    requires Rounds(rounds, g, p) && |r.out.accs| == p * g
    ensures Rounds(rounds + [r], g, p)
    ensures Groups(rounds + [r], g, p) == Groups(rounds, g, p) + GroupsOf(|rounds|, RoundKept(r, g, p))
  {
    assert (rounds + [r])[..|rounds|] == rounds;
  }

  lemma PicksStep(groups: seq<GroupRef>, round: nat, kept: seq<nat>, g: nat)
    ensures PicksFor(groups + GroupsOf(round, kept), g) == PicksFor(groups, g) + PicksOf(round, GroupRows(kept, g))
  {
    PicksForConcat(groups, GroupsOf(round, kept), g);
    PicksForRound(round, kept, g);
  }

  lemma GroupsSnoc<V>(rounds: seq<Round<V>>, r: Round<V>, g: nat, p: nat)
    requires Rounds(rounds, g, p) && |r.out.accs| == p * g
    ensures Rounds(rounds + [r], g, p)
    ensures Groups(rounds + [r], g, p) == Groups(rounds, g, p) + GroupsOf(|rounds|, RoundKept(r, g, p))
    ensures PicksFor(Groups(rounds + [r], g, p), g)
         == PicksFor(Groups(rounds, g, p), g) + PicksOf(|rounds|, GroupRows(RoundKept(r, g, p), g))
  {
    GroupsStep(rounds, r, g, p);
    PicksStep(Groups(rounds, g, p), |rounds|, RoundKept(r, g, p), g);
  }

  lemma PicksOrNone(groups: seq<GroupRef>, g: nat)
    requires g > 0
    ensures |PicksFor(groups, g)| == |groups| * g
    ensures PicksFor(groups, g) == [] <==> groups == []
  {
    FlattenLength(Blocks(groups, g), g);
    if groups != [] {
      assert |groups| * g > 0;
    }
  }

  /** Cutting to whole groups cuts the list of groups. */
  lemma TakeGroups(groups: seq<GroupRef>, g: nat, n: nat)
    requires g > 0
    ensures Take(PicksFor(groups, g), n * g) == PicksFor(Take(groups, n), g)
  {
    PicksOrNone(groups, g);
    PicksOrNone(Take(groups, n), g);
    if n <= |groups| {
      assert groups == groups[..n] + groups[n..];
      PicksForConcat(groups[..n], groups[n..], g);
    } else {
      MulMonotone(|groups|, n, g);
      if |groups| * g == n * g {
        TakeAll(PicksFor(groups, g), n * g);
      }
    }
  }

  /** What the rounds so far left in the accumulators. */
  ghost predicate Gathered<V>(acc: Accumulated<V>, rounds: seq<Round<V>>, picks: seq<Pick>, keys: set<string>,
                              lpKept: bool) {
    && Tracks(acc, rounds, picks) && TracksRagged(acc, rounds, picks, keys) && TracksLps(acc, rounds, picks, lpKept)
    && UniformParts(acc.rows) && (acc.rows == [] <==> picks == [])
  }

  lemma UniformSnoc<T>(parts: seq<seq<seq<T>>>, rows: seq<seq<T>>, kept: seq<nat>, width: nat)
    requires UniformParts(parts) && InRange(kept, |rows|) && |kept| > 0
    requires forall i :: 0 <= i < |rows| ==> |rows[i]| == width
    ensures UniformParts(parts + [Gather(rows, kept)])
  {
  }

  lemma ExtendGathers<V>(acc: Accumulated<V>, rounds: seq<Round<V>>, r: Round<V>, picks: seq<Pick>, kept: seq<nat>,
                         wantLp: bool, n: nat, keys: set<string>)
    requires WellFormedRound(r, n, keys, r.out.lps.Some?) && InRange(kept, n) && |kept| > 0
    requires Gathered(acc, rounds, picks, keys, wantLp && r.out.lps.Some?)
    ensures Gathered(Extend(acc, r, kept, wantLp), rounds + [r], picks + PicksOf(|rounds|, kept), keys,
                     wantLp && r.out.lps.Some?)
  {
    ExtendTracks(acc, rounds, r, picks, kept, wantLp);
    ExtendTracksLps(acc, rounds, r, picks, kept, wantLp);
    ExtendTracksRagged(acc, rounds, r, picks, kept, wantLp, keys);
    UniformSnoc(acc.rows, r.out.tokens, kept, r.out.width);
  }

  /** The prompts of a round whose samples stay. */
  function KeptOf<V>(r: Round<V>, cfg: Settings): seq<nat>
    requires cfg.samples > 0
  {
    if |r.out.accs| == cfg.genPrompts * cfg.samples then RoundKept(r, cfg.samples, cfg.genPrompts) else []
  }

  /** The accumulators with the kept samples of one more round. */
  ghost function AddTo<V>(acc: Accumulated<V>, r: Round<V>, cfg: Settings): Accumulated<V>
    requires cfg.samples > 0
  {
    var rows := GroupRows(KeptOf(r, cfg), cfg.samples);
    if rows != [] && WellFormed(r.out, |r.truths|) && InRange(rows, |r.truths|) then Extend(acc, r, rows, cfg.wantLp)
    else acc
  }

  /** What the loop has gathered after these rounds. */
  ghost function GatheredFrom<V>(rounds: seq<Round<V>>, cfg: Settings): Accumulated<V>
    requires cfg.samples > 0
  {
    if |rounds| == 0 then Nothing()
    else AddTo(GatheredFrom(rounds[..|rounds| - 1], cfg), rounds[|rounds| - 1], cfg)
  }

  /** The number of groups kept in these rounds. */
  ghost function KeptIn<V>(rounds: seq<Round<V>>, cfg: Settings): nat
    requires cfg.samples > 0
  {
    if |rounds| == 0 then 0 else KeptIn(rounds[..|rounds| - 1], cfg) + |KeptOf(rounds[|rounds| - 1], cfg)|
  }

  /** One turn of the loop after the engine answered. */
  method AddRound<V>(acc: Accumulated<V>, r: Round<V>, cfg: Settings) returns (acc': Accumulated<V>, added: nat)
    requires cfg.samples > 0 && |r.out.accs| == |r.truths| == cfg.genPrompts * cfg.samples
    requires WellFormed(r.out, |r.truths|)
    ensures acc' == AddTo(acc, r, cfg) && added == |KeptOf(r, cfg)|
  {
    var keptIdx, keptIds := KeepOfRound(r.out.accs, cfg.samples, cfg.genPrompts);
    acc' := acc;
    added := 0;
    if keptIdx != [] {
      acc' := Extend(acc, r, keptIdx, cfg.wantLp);
      added := |keptIds|;
    } else {
      GroupRowsEmpty(keptIds, cfg.samples);
    }
  }

  lemma GroupRowsEmpty(kept: seq<nat>, g: nat)
    requires g > 0
    ensures GroupRows(kept, g) == [] <==> kept == []
  {
    FlattenLength(seq(|kept|, i requires 0 <= i < |kept| => Span(kept[i] * g, kept[i] * g + g)), g);
    if kept != [] {
      assert |kept| * g > 0;
    }
  }

  lemma KeptRowsInRange(accs: seq<real>, g: nat, p: nat)
    requires g > 0 && |accs| == p * g
    ensures InRange(GroupRows(KeptPrompts(accs, g, p, 0.0), g), |accs|)
  {
    var kept := KeptPrompts(accs, g, p, 0.0);
    KeptPromptsSorted(accs, g, p, 0.0);
    SpansInRange(kept, g, p, |accs|);
  }

  lemma {:induction false} SpansInRange(kept: seq<nat>, g: nat, p: nat, n: nat)
    requires n == p * g && forall i :: 0 <= i < |kept| ==> kept[i] < p
    ensures InRange(GroupRows(kept, g), n)
  {
    if |kept| > 0 {
      var k := |kept| - 1;
      SpansInRange(kept[..k], g, p, n);
      assert kept == kept[..k] + [kept[k]];
      GroupRowsSnoc(kept[..k], kept[k], g);
      BlockFits(kept[k], p, g);
    }
  }

  /** The cursor before round `k`. */
  ghost function CursorAt(start: nat, count: nat, k: nat): nat {
    if k == 0 then start else CursorAt(start, count, k - 1) + count
  }

  /** Round `k` as generated from the prompts at the cursor. */
  ghost function RoundAt<V>(engine: (nat, seq<Prompt>) -> Generated<V>, dataset: nat -> Prompt, start: nat,
                            cfg: Settings, k: nat): Round<V>
    requires cfg.samples > 0
  {
    var prompts := PromptsFrom(dataset, CursorAt(start, cfg.genPrompts, k), cfg.genPrompts);
    RoundOf(prompts, engine(k, prompts), cfg.samples)
  }

  /** The engine's answer in round `k` fills every column. */
  ghost predicate Answers<V>(engine: (nat, seq<Prompt>) -> Generated<V>, k: nat, prompts: seq<Prompt>, g: nat,
                             keys: set<string>, reports: bool) {
    && WellFormed(engine(k, prompts), |prompts| * g)
    && engine(k, prompts).ragged.Keys == keys && engine(k, prompts).lps.Some? == reports
  }

  /** The engine always fills every column, always the same ones. */
  ghost predicate Steady<V(!new)>(engine: (nat, seq<Prompt>) -> Generated<V>, g: nat, keys: set<string>,
                                  reports: bool) {
    forall k, prompts :: Answers(engine, k, prompts, g, keys, reports)
  }

  ghost predicate Sound<V>(acc: Accumulated<V>, rounds: seq<Round<V>>, cfg: Settings, keys: set<string>,
                           reports: bool)
    requires cfg.samples > 0
  {
    && AllWellFormed(rounds, cfg.DrawnRows(), keys, reports)
    && Rounds(rounds, cfg.samples, cfg.genPrompts)
    && Gathered(acc, rounds, PicksFor(Groups(rounds, cfg.samples, cfg.genPrompts), cfg.samples), keys,
                cfg.wantLp && reports)
  }

  /** Every column follows the kept groups: first come, whole groups, no more than wanted. */
  ghost predicate DeliversGroups<V>(c: Collected<V>, rounds: seq<Round<V>>, cfg: Settings)
    requires cfg.samples > 0
  {
    && Rounds(rounds, cfg.samples, cfg.genPrompts)
    && var groups := Take(Groups(rounds, cfg.samples, cfg.genPrompts), cfg.trainPrompts);
       Delivers(c, rounds, PicksFor(groups, cfg.samples), cfg.pad, cfg.wantLp)
  }

  /** No row lost tokens on the left. */
  ghost predicate NothingCut<V>(c: Collected<V>, rounds: seq<Round<V>>, cfg: Settings)
    requires cfg.samples > 0
  {
    && Rounds(rounds, cfg.samples, cfg.genPrompts)
    && Widest(c.width, rounds, PicksFor(Groups(rounds, cfg.samples, cfg.genPrompts), cfg.samples))
  }

  /** Exactly as wide as the widest picked sample, so no row is cut. */
  ghost predicate Widest<V>(width: nat, rounds: seq<Round<V>>, picks: seq<Pick>) {
    && (forall j :: 0 <= j < |picks| ==>
          && picks[j].round < |rounds| && picks[j].row < |rounds[picks[j].round].out.tokens|
          && |rounds[picks[j].round].out.tokens[picks[j].row]| <= width)
    && exists j :: 0 <= j < |picks| && |rounds[picks[j].round].out.tokens[picks[j].row]| == width
  }

  lemma WidestIs<V>(acc: Accumulated<V>, rounds: seq<Round<V>>, picks: seq<Pick>)
    requires Follows(Flatten(acc.rows), Columns(rounds, TokensOf), picks)
    requires UniformParts(acc.rows) && acc.rows != []
    ensures Widest(Max(PartWidths(acc.rows)), rounds, picks)
  {
    WidestRow(acc.rows);
    forall j | 0 <= j < |picks|
      ensures picks[j].round < |rounds| && picks[j].row < |rounds[picks[j].round].out.tokens|
      ensures rounds[picks[j].round].out.tokens[picks[j].row] == Flatten(acc.rows)[j]
    {
      ColumnEntry(Flatten(acc.rows), rounds, TokensOf, picks, j);
    }
    var j :| 0 <= j < |Flatten(acc.rows)| && |Flatten(acc.rows)[j]| == Max(PartWidths(acc.rows));
    assert |rounds[picks[j].round].out.tokens[picks[j].row]| == Max(PartWidths(acc.rows));
  }

  /** The end of the loop: joins what was gathered, if anything was. */
  method Deliver<V>(acc: Accumulated<V>, cfg: Settings, ghost rounds: seq<Round<V>>, ghost keys: set<string>,
                    ghost reports: bool)
      returns (res: Result<Collected<V>>)
    requires cfg.samples > 0 && Sound(acc, rounds, cfg, keys, reports)
    ensures res.Err? <==> Groups(rounds, cfg.samples, cfg.genPrompts) == []
    ensures res.Err? ==> res.error == RuntimeError
    ensures res.Ok? ==> DeliversGroups(res.value, rounds, cfg) && NothingCut(res.value, rounds, cfg)
  {
    ghost var g, groups := cfg.samples, Groups(rounds, cfg.samples, cfg.genPrompts);
    PicksOrNone(groups, g);
    if acc.rows == [] {
      return Err(RuntimeError);
    }
    res := Ok(Finish(acc, cfg.pad, cfg.WantedRows()));
    FinishDelivers(acc, rounds, PicksFor(groups, g), cfg.pad, cfg.WantedRows(), cfg.DrawnRows(), keys, reports,
                   cfg.wantLp);
    TakeGroups(groups, g, cfg.trainPrompts);
    WidestIs(acc, rounds, PicksFor(groups, g));
  }

  function Nothing<V>(): Accumulated<V> {
    Accumulated([], [], [], [], [], [], map[])
  }

  lemma NothingTracks<V>()
    ensures Tracks<V>(Nothing(), [], [])
  {
  }

  lemma NothingTracksRagged<V>(keys: set<string>)
    ensures TracksRagged<V>(Nothing(), [], [], keys)
  {
  }

  lemma NothingTracksLps<V>(kept: bool)
    ensures TracksLps<V>(Nothing(), [], [], kept)
  {
  }

  lemma NoGroups<V>(g: nat, p: nat)
    requires g > 0
    ensures Rounds<V>([], g, p) && Groups<V>([], g, p) == [] && PicksFor([], g) == []
  {
    assert Blocks([], g) == [];
  }

  lemma NothingIsSound<V>(cfg: Settings, keys: set<string>, reports: bool)
    requires cfg.samples > 0
    ensures Sound<V>(Nothing(), [], cfg, keys, reports)
  {
    NothingTracks<V>();
    NothingTracksRagged<V>(keys);
    NothingTracksLps<V>(cfg.wantLp && reports);
    NoGroups<V>(cfg.samples, cfg.genPrompts);
  }

  /** These rounds are the first ones drawn from cursor position `start`. */
  ghost predicate Drawn<V>(engine: (nat, seq<Prompt>) -> Generated<V>, dataset: nat -> Prompt, start: nat,
                           cfg: Settings, rounds: seq<Round<V>>)
    requires cfg.samples > 0
  {
    |rounds| == 0
    || (Drawn(engine, dataset, start, cfg, rounds[..|rounds| - 1])
        && rounds[|rounds| - 1] == RoundAt(engine, dataset, start, cfg, |rounds| - 1))
  }

  lemma {:induction false} DrawnAt<V>(engine: (nat, seq<Prompt>) -> Generated<V>, dataset: nat -> Prompt, start: nat,
                                      cfg: Settings, rounds: seq<Round<V>>, k: nat)
    requires cfg.samples > 0 && Drawn(engine, dataset, start, cfg, rounds) && k < |rounds|
    ensures rounds[k] == RoundAt(engine, dataset, start, cfg, k)
  {
    if k < |rounds| - 1 {
      DrawnAt(engine, dataset, start, cfg, rounds[..|rounds| - 1], k);
    }
  }

  lemma RoundAtIsWellFormed<V(!new)>(engine: (nat, seq<Prompt>) -> Generated<V>, dataset: nat -> Prompt, start: nat,
                               cfg: Settings, k: nat, keys: set<string>, reports: bool)
    requires cfg.samples > 0 && Steady(engine, cfg.samples, keys, reports)
    ensures WellFormedRound(RoundAt(engine, dataset, start, cfg, k), cfg.DrawnRows(), keys, reports)
  {
    var prompts := PromptsFrom(dataset, CursorAt(start, cfg.genPrompts, k), cfg.genPrompts);
    assert Answers(engine, k, prompts, cfg.samples, keys, reports);
    RoundIsWellFormed(prompts, engine(k, prompts), cfg.samples, cfg.DrawnRows(), keys, reports);
  }

  lemma AddKeepsSound<V>(acc: Accumulated<V>, rounds: seq<Round<V>>, r: Round<V>, cfg: Settings, keys: set<string>,
                         reports: bool)
    requires cfg.samples > 0 && Sound(acc, rounds, cfg, keys, reports)
    requires WellFormedRound(r, cfg.DrawnRows(), keys, reports)
    ensures Sound(AddTo(acc, r, cfg), rounds + [r], cfg, keys, reports)
  {
    var g, p := cfg.samples, cfg.genPrompts;
    GroupsSnoc(rounds, r, g, p);
    KeptRowsInRange(r.out.accs, g, p);
    AddGathers(acc, rounds, r, PicksFor(Groups(rounds, g, p), g), cfg, keys, reports);
  }

  lemma AddGathers<V>(acc: Accumulated<V>, rounds: seq<Round<V>>, r: Round<V>, picks: seq<Pick>, cfg: Settings,
                      keys: set<string>, reports: bool)
    requires cfg.samples > 0 && WellFormedRound(r, cfg.DrawnRows(), keys, reports)
    requires InRange(GroupRows(KeptOf(r, cfg), cfg.samples), |r.truths|)
    requires Gathered(acc, rounds, picks, keys, cfg.wantLp && reports)
    ensures Gathered(AddTo(acc, r, cfg), rounds + [r],
                     picks + PicksOf(|rounds|, GroupRows(KeptOf(r, cfg), cfg.samples)), keys, cfg.wantLp && reports)
  {
    var rows := GroupRows(KeptOf(r, cfg), cfg.samples);
    if rows != [] {
      ExtendGathers(acc, rounds, r, picks, rows, cfg.wantLp, |r.truths|, keys);
    } else {
      NothingKeptTracks(acc, rounds, r, picks, keys, cfg.wantLp && reports);
      assert picks + PicksOf(|rounds|, []) == picks;
    }
  }

  /** What the loop gathered lists exactly the kept samples. */
  lemma {:induction false} DrawnIsSound<V(!new)>(engine: (nat, seq<Prompt>) -> Generated<V>, dataset: nat -> Prompt,
                                                 start: nat, cfg: Settings, rounds: seq<Round<V>>, keys: set<string>,
                                                 reports: bool)
    requires cfg.samples > 0 && Steady(engine, cfg.samples, keys, reports) && Drawn(engine, dataset, start, cfg, rounds)
    ensures Sound(GatheredFrom(rounds, cfg), rounds, cfg, keys, reports)
    ensures KeptIn(rounds, cfg) == |Groups(rounds, cfg.samples, cfg.genPrompts)|
  {
    if |rounds| == 0 {
      NothingIsSound<V>(cfg, keys, reports);
      assert rounds == [];
    } else {
      var n := |rounds| - 1;
      var before, r := rounds[..n], rounds[n];
      DrawnIsSound(engine, dataset, start, cfg, before, keys, reports);
      RoundAtIsWellFormed(engine, dataset, start, cfg, n, keys, reports);
      AddKeepsSound(GatheredFrom(before, cfg), before, r, cfg, keys, reports);
      GroupsStep(before, r, cfg.samples, cfg.genPrompts);
      assert rounds == before + [r];
    }
  }

  /** The rounds were needed: before the last one there was too little, or there is none. */
  ghost predicate Needed<V>(rounds: seq<Round<V>>, cfg: Settings)
    requires cfg.samples > 0
  {
    |rounds| > 0 ==> KeptIn(rounds[..|rounds| - 1], cfg) < cfg.trainPrompts
  }

  lemma OneMoreRound<V(!new)>(engine: (nat, seq<Prompt>) -> Generated<V>, dataset: nat -> Prompt, start: nat,
                              cfg: Settings, rounds: seq<Round<V>>, r: Round<V>)
    requires cfg.samples > 0 && Drawn(engine, dataset, start, cfg, rounds) && KeptIn(rounds, cfg) < cfg.trainPrompts
    requires r == RoundAt(engine, dataset, start, cfg, |rounds|)
    ensures Drawn(engine, dataset, start, cfg, rounds + [r]) && Needed(rounds + [r], cfg)
    ensures GatheredFrom(rounds + [r], cfg) == AddTo(GatheredFrom(rounds, cfg), r, cfg)
    ensures KeptIn(rounds + [r], cfg) == KeptIn(rounds, cfg) + |KeptOf(r, cfg)|
  {
    assert (rounds + [r])[..|rounds|] == rounds;
  }

  class RolloutCollector {
    var promptCursor: nat

    constructor (start: nat)
      ensures promptCursor == start
    {
      promptCursor := start;
    }

    /** Draws and filters one round. */
    method Turn<V(!new)>(acc: Accumulated<V>, round: nat, engine: (nat, seq<Prompt>) -> Generated<V>,
                         dataset: nat -> Prompt, cfg: Settings, ghost start: nat, ghost keys: set<string>,
                         ghost reports: bool)
        returns (acc': Accumulated<V>, added: nat, ghost r: Round<V>)
      requires cfg.samples > 0 && Steady(engine, cfg.samples, keys, reports)
      requires promptCursor == CursorAt(start, cfg.genPrompts, round)
      modifies this
      ensures promptCursor == CursorAt(start, cfg.genPrompts, round + 1)
      ensures r == RoundAt(engine, dataset, start, cfg, round)
      ensures acc' == AddTo(acc, r, cfg) && added == |KeptOf(r, cfg)|
    {
      var prompts := PromptsFrom(dataset, promptCursor, cfg.genPrompts);
      promptCursor := promptCursor + cfg.genPrompts;
      var answer := RoundOf(prompts, engine(round, prompts), cfg.samples);
      RoundAtIsWellFormed(engine, dataset, start, cfg, round, keys, reports);
      acc', added := AddRound(acc, answer, cfg);
      r := answer;
    }

    /** Draws rounds until enough groups are kept or the limit is reached. */
    method Accumulate<V(!new)>(engine: (nat, seq<Prompt>) -> Generated<V>, dataset: nat -> Prompt, cfg: Settings,
                               ghost keys: set<string>, ghost reports: bool)
        returns (acc: Accumulated<V>, ghost rounds: seq<Round<V>>)
      requires cfg.samples > 0 && Steady(engine, cfg.samples, keys, reports)
      modifies this
      ensures promptCursor == CursorAt(old(promptCursor), cfg.genPrompts, |rounds|)
      ensures Drawn(engine, dataset, old(promptCursor), cfg, rounds) && Needed(rounds, cfg)
      ensures |rounds| <= cfg.roundLimit
      ensures KeptIn(rounds, cfg) >= cfg.trainPrompts || |rounds| == cfg.roundLimit
      ensures acc == GatheredFrom(rounds, cfg)
    {
      acc := Nothing();
      var keptPrompts, round := 0, 0;
      rounds := [];
      while keptPrompts < cfg.trainPrompts && round < cfg.roundLimit
        invariant round == |rounds| <= cfg.roundLimit
        invariant promptCursor == CursorAt(old(promptCursor), cfg.genPrompts, round)
        invariant Drawn(engine, dataset, old(promptCursor), cfg, rounds) && Needed(rounds, cfg)
        invariant acc == GatheredFrom(rounds, cfg) && keptPrompts == KeptIn(rounds, cfg)
        decreases cfg.roundLimit - round
      {
        var added;
        ghost var r;
        acc, added, r := Turn(acc, round, engine, dataset, cfg, old(promptCursor), keys, reports);
        OneMoreRound(engine, dataset, old(promptCursor), cfg, rounds, r);
        rounds := rounds + [r];
        keptPrompts := keptPrompts + added;
        round := round + 1;
      }
    }

    /** The rollout batch of one step. `engine` stands for generation and scoring, `dataset`
        for the (cyclic) data source; `rounds` is what was drawn. */
    method CollectFiltered<V(!new)>(engine: (nat, seq<Prompt>) -> Generated<V>, dataset: nat -> Prompt, cfg: Settings,
                                    ghost keys: set<string>, ghost reports: bool)
        returns (res: Result<Collected<V>>, ghost rounds: seq<Round<V>>)
      requires cfg.samples > 0 && Steady(engine, cfg.samples, keys, reports)
      modifies this
      ensures promptCursor == CursorAt(old(promptCursor), cfg.genPrompts, |rounds|)
      ensures Drawn(engine, dataset, old(promptCursor), cfg, rounds) && Needed(rounds, cfg)
      ensures |rounds| <= cfg.roundLimit
      ensures KeptIn(rounds, cfg) >= cfg.trainPrompts || |rounds| == cfg.roundLimit
      ensures res.Err? <==> KeptIn(rounds, cfg) == 0
      ensures res.Err? ==> res.error == RuntimeError
      ensures res.Ok? ==> DeliversGroups(res.value, rounds, cfg) && NothingCut(res.value, rounds, cfg)
    {
      var acc;
      acc, rounds := Accumulate(engine, dataset, cfg, keys, reports);
      DrawnIsSound(engine, dataset, old(promptCursor), cfg, rounds, keys, reports);
      res := Deliver(acc, cfg, rounds, keys, reports);
    }
  }

  // ---------------------------------------------------------------------
  // What training receives
  // ---------------------------------------------------------------------

  /** The kept groups exist, have spread, and are listed in the order of generation. */
  lemma {:induction false} GroupsAreKept<V>(rounds: seq<Round<V>>, g: nat, p: nat, b: nat)
    requires Rounds(rounds, g, p) && b < |Groups(rounds, g, p)|
    ensures var G := Groups(rounds, g, p)[b];
            && G.round < |rounds| && G.prompt < p && G.prompt * g + g <= |rounds[G.round].out.accs|
            && KeepsGroup(GroupVals(rounds[G.round].out.accs, g, G.prompt), 0.0)
  {
    var n := |rounds| - 1;
    var before := Groups(rounds[..n], g, p);
    if b < |before| {
      GroupsAreKept(rounds[..n], g, p, b);
    } else {
      var accs := rounds[n].out.accs;
      var q := Groups(rounds, g, p)[b].prompt;
      KeptPromptsSorted(accs, g, p, 0.0);
      KeptPromptsMember(accs, g, p, 0.0, q);
    }
  }

  lemma {:induction false} GroupsInOrder<V>(rounds: seq<Round<V>>, g: nat, p: nat, a: nat, b: nat)
    requires Rounds(rounds, g, p) && a < b < |Groups(rounds, g, p)|
    ensures var A, B := Groups(rounds, g, p)[a], Groups(rounds, g, p)[b];
            A.round < B.round || (A.round == B.round && A.prompt < B.prompt)
  {
    var n := |rounds| - 1;
    var before := Groups(rounds[..n], g, p);
    if b < |before| {
      GroupsInOrder(rounds[..n], g, p, a, b);
    } else if a < |before| {
      GroupsAreKept(rounds[..n], g, p, a);
    } else {
      KeptPromptsSorted(rounds[n].out.accs, g, p, 0.0);
    }
  }

  /** A group of two or more samples scored right or wrong holds one of each. */
  lemma GroupsAreMixed<V>(rounds: seq<Round<V>>, g: nat, p: nat, b: nat)
    requires Rounds(rounds, g, p) && b < |Groups(rounds, g, p)| && g >= 2
    requires forall k, i :: 0 <= k < |rounds| && 0 <= i < |rounds[k].out.accs| ==>
                              rounds[k].out.accs[i] == 0.0 || rounds[k].out.accs[i] == 1.0
    ensures var G := Groups(rounds, g, p)[b];
            && G.round < |rounds| && G.prompt * g + g <= |rounds[G.round].out.accs|
            && 0.0 in GroupVals(rounds[G.round].out.accs, g, G.prompt)
            && 1.0 in GroupVals(rounds[G.round].out.accs, g, G.prompt)
  {
    GroupsAreKept(rounds, g, p, b);
    var G := Groups(rounds, g, p)[b];
    var accs := rounds[G.round].out.accs;
    var vs := GroupVals(accs, g, G.prompt);
    KeptIffSpread(vs);
    var i, j :| 0 <= i < j < |vs| && vs[i] != vs[j];
    assert vs[i] == accs[G.prompt * g + i] && vs[j] == accs[G.prompt * g + j];
    assert vs[i] in vs && vs[j] in vs;
  }

  /** Main result on counts: on reaching its target the loop delivers exactly the wanted
      rows, otherwise every kept group. */
  lemma DeliveredCount<V>(c: Collected<V>, rounds: seq<Round<V>>, cfg: Settings)
    requires cfg.samples > 0 && DeliversGroups(c, rounds, cfg)
    ensures var kept := |Groups(rounds, cfg.samples, cfg.genPrompts)|;
            SameLength(c, if kept >= cfg.trainPrompts then cfg.WantedRows() else kept * cfg.samples)
  {
    PicksOrNone(Take(Groups(rounds, cfg.samples, cfg.genPrompts), cfg.trainPrompts), cfg.samples);
  }

  /** Main result on content: the `b`-th block of rows is the `b`-th kept group, whole and in
      order, and every column of a row describes the same sample. */
  lemma DeliveredBlock<V>(c: Collected<V>, rounds: seq<Round<V>>, cfg: Settings, b: nat, k: nat, j: nat)
    requires cfg.samples > 0 && DeliversGroups(c, rounds, cfg)
    requires b < |Groups(rounds, cfg.samples, cfg.genPrompts)| && b < cfg.trainPrompts
    requires k < cfg.samples && j == b * cfg.samples + k
    ensures var G := Groups(rounds, cfg.samples, cfg.genPrompts)[b];
            Describes(c, j, rounds, Pick(G.round, G.prompt * cfg.samples + k), cfg.pad, cfg.wantLp)
  {
    var groups := Take(Groups(rounds, cfg.samples, cfg.genPrompts), cfg.trainPrompts);
    PickInBlock(groups, cfg.samples, b, k, j);
  }

  lemma PickInBlock(groups: seq<GroupRef>, g: nat, b: nat, k: nat, j: nat)
    requires b < |groups| && k < g && j == b * g + k
    ensures j < |PicksFor(groups, g)|
    ensures PicksFor(groups, g)[j] == Pick(groups[b].round, groups[b].prompt * g + k)
  {
    PicksAreBlocks(groups, g, b);
    MulSucc(b, g);
    assert PicksFor(groups, g)[j] == PicksFor(groups, g)[b * g..(b + 1) * g][k];
  }

  /** The reference answer of a row is that of the prompt it was generated from. */
  lemma TruthIsThePrompts<V>(engine: (nat, seq<Prompt>) -> Generated<V>, dataset: nat -> Prompt, start: nat,
                             cfg: Settings, rounds: seq<Round<V>>, n: nat, q: nat, k: nat)
    requires cfg.samples > 0 && Drawn(engine, dataset, start, cfg, rounds)
    requires n < |rounds| && q < cfg.genPrompts && k < cfg.samples
    ensures q * cfg.samples + k < |rounds[n].truths|
    ensures rounds[n].truths[q * cfg.samples + k] == dataset(CursorAt(start, cfg.genPrompts, n) + q).truth
  {
    var r := rounds[n];
    DrawnAt(engine, dataset, start, cfg, rounds, n);
    ExpandedTruth(r.prompts, cfg.samples, q);
    MulSucc(q, cfg.samples);
    assert r.truths[q * cfg.samples + k] == r.truths[q * cfg.samples..(q + 1) * cfg.samples][k];
  }

  // ---------------------------------------------------------------------
  // Delivered rows are assembled rows
  // ---------------------------------------------------------------------

  /** The round's rows are these completions, assembled at the round's width. */
  ghost predicate Assembles<V>(r: Round<V>, cs: seq<Completion>, pad: int) {
    && |cs| == |r.out.tokens| == |r.out.mask| == |r.out.plens|
    && (r.out.lps.Some? ==> |r.out.lps.value| == |cs|)
    && forall i :: 0 <= i < |cs| ==>
         && |Content(cs[i])| <= r.out.width && |cs[i].logprobs| <= |cs[i].response|
         && r.out.tokens[i] == TokenRow(cs[i], r.out.width, pad) && r.out.mask[i] == MaskRow(cs[i], r.out.width)
         && r.out.plens[i] == |cs[i].prompt|
         && (r.out.lps.Some? ==> r.out.lps.value[i] == LpRow(cs[i], r.out.width))
  }

  ghost predicate AllAssembled<V>(rounds: seq<Round<V>>, comps: seq<seq<Completion>>, pad: int) {
    |comps| == |rounds| && forall k :: 0 <= k < |rounds| ==> Assembles(rounds[k], comps[k], pad)
  }

  lemma FitIsPad<T>(row: seq<T>, width: nat, value: T)
    requires |row| <= width
    ensures Fit(row, width, value) == LeftPad(row, width, value)
  {
  }

  /** Row `j` of the batch is completion `comp`, assembled at the batch's width. */
  ghost predicate IsRowOf<V>(c: Collected<V>, j: nat, comp: Completion, pad: int) {
    && j < |c.tokens| && j < |c.mask| && j < |c.plens|
    && c.tokens[j] == TokenRow(comp, c.width, pad) && c.mask[j] == MaskRow(comp, c.width)
    && c.plens[j] == |comp.prompt|
    && |c.tokens[j]| == |c.mask[j]|
    && ResponseTokenIds(c.tokens[j], c.mask[j], c.plens[j]) == comp.response
  }

  /** And its log-probs are in place where the first one has a column. */
  ghost predicate HasLogprobsOf<V>(c: Collected<V>, j: nat, comp: Completion, width: nat) {
    && c.lps.Some? && j < |c.lps.value|
    && (if c.width < 2 then c.lps.value[j] == []
        else c.lps.value[j] == LpRow(comp, c.width) <==> width == c.width || FirstLogprobFits(comp, width))
  }

  lemma DescribedIsAssembled<V>(c: Collected<V>, j: nat, rounds: seq<Round<V>>, pick: Pick, cs: seq<Completion>,
                                pad: int, wantLp: bool)
    requires Describes(c, j, rounds, pick, pad, wantLp) && Assembles(rounds[pick.round], cs, pad)
    requires |rounds[pick.round].out.tokens[pick.row]| <= c.width
    ensures pick.row < |cs| && IsRowOf(c, j, cs[pick.row], pad)
    ensures wantLp && rounds[pick.round].out.lps.Some? ==>
              HasLogprobsOf(c, j, cs[pick.row], rounds[pick.round].out.width)
  {
    var r := rounds[pick.round];
    var comp := cs[pick.row];
    assert SampleAt(c, j) == SampleOf(r, pick.row, c.width, pad, wantLp);
    FitIsPad(r.out.tokens[pick.row], c.width, pad);
    FitIsPad(r.out.mask[pick.row], c.width, 0);
    AssembledResponse(comp, r.out.width, pad);
    WidenRows(comp, r.out.width, c.width, pad);
    AssembledResponse(comp, c.width, pad);
    if wantLp && r.out.lps.Some? && c.width >= 2 {
      FitIsPad(LpRow(comp, r.out.width), LpWidth(c.width), 0.0);
      WidenLogprobs(comp, r.out.width, c.width);
    }
  }

  /** Main result on rows: if the rounds' rows are assembled completions, the `b`-th block of the
      delivered batch is the completions of the `b`-th kept group, assembled at the width of the
      batch; their responses can be read back, and their log-probs are in place where the first
      one has a column. */
  lemma DeliveredIsAssembled<V>(c: Collected<V>, rounds: seq<Round<V>>, cfg: Settings, comps: seq<seq<Completion>>,
                                b: nat, k: nat, j: nat, group: GroupRef, i: nat)
    requires cfg.samples > 0 && DeliversGroups(c, rounds, cfg) && NothingCut(c, rounds, cfg)
    requires AllAssembled(rounds, comps, cfg.pad)
    requires b < |Groups(rounds, cfg.samples, cfg.genPrompts)| && b < cfg.trainPrompts
    requires k < cfg.samples && j == b * cfg.samples + k
    requires group == Groups(rounds, cfg.samples, cfg.genPrompts)[b] && i == group.prompt * cfg.samples + k
    ensures group.round < |rounds| && i < |comps[group.round]|
    ensures IsRowOf(c, j, comps[group.round][i], cfg.pad)
    ensures cfg.wantLp && rounds[group.round].out.lps.Some? ==>
              HasLogprobsOf(c, j, comps[group.round][i], rounds[group.round].out.width)
  {
    DeliveredBlock(c, rounds, cfg, b, k, j);
    PickFits(c.width, rounds, Groups(rounds, cfg.samples, cfg.genPrompts), cfg.samples, b, k, j);
    DescribedIsAssembled(c, j, rounds, Pick(group.round, i), comps[group.round], cfg.pad, cfg.wantLp);
  }

  lemma PickFits<V>(width: nat, rounds: seq<Round<V>>, groups: seq<GroupRef>, g: nat, b: nat, k: nat, j: nat)
    requires Widest(width, rounds, PicksFor(groups, g)) && b < |groups| && k < g && j == b * g + k
    ensures var round, row := groups[b].round, groups[b].prompt * g + k;
            && round < |rounds| && row < |rounds[round].out.tokens| && |rounds[round].out.tokens[row]| <= width
  {
    PickInBlock(groups, g, b, k, j);
  }
}
