/** The run-length code of loss masks, and its text form. */
module LossMaskCodec {
  import opened Arith
  import opened Seqs
  import opened Wrappers

  // ---------------------------------------------------------------------
  // Run lengths
  // ---------------------------------------------------------------------

  /** The runs of `mask` after `len` entries equal to `val`. */
  function RunsFrom(mask: seq<int>, val: int, len: nat): seq<nat> {
    if |mask| == 0 then [len]
    else if mask[0] == val then RunsFrom(mask[1..], val, len + 1)
    else [len] + RunsFrom(mask[1..], mask[0], 1)
  }

  /** Alternating run lengths; the first run is of zeros. */
  function Runs(mask: seq<int>): seq<nat> {
    if |mask| == 0 then [] else RunsFrom(mask, 0, 0)
  }

  /** Runs of `val` and `1 - val` in turn. */
  function Expand(packed: seq<nat>, val: int): seq<int> {
    if |packed| == 0 then [] else Copies(val, packed[0]) + Expand(packed[1..], 1 - val)
  }

  method PackLossMask(mask: seq<int>) returns (lengths: seq<nat>)
    ensures lengths == Runs(mask)
  {
    if |mask| == 0 {
      return [];
    }
    lengths := [];
    var currentVal, currentLen := 0, 0;
    for i := 0 to |mask|
      invariant lengths + RunsFrom(mask[i..], currentVal, currentLen) == Runs(mask)
    {
      var val := mask[i];
      assert mask[i..][1..] == mask[i + 1..];
      if val == currentVal {
        currentLen := currentLen + 1;
      } else {
        RunsStep(lengths, currentLen, RunsFrom(mask[i + 1..], val, 1));
        lengths := lengths + [currentLen];
        currentVal, currentLen := val, 1;
      }
    }
    lengths := lengths + [currentLen];
  }

  lemma RunsStep(done: seq<nat>, len: nat, rest: seq<nat>)
    ensures done + ([len] + rest) == done + [len] + rest
  {
  }

  /** Where run `i` begins; runs read from a text may be negative. */
  function Position(packed: seq<int>, i: nat): int
    requires i <= |packed|
  {
    if i == 0 then 0 else Position(packed, i - 1) + packed[i - 1]
  }

  /** A slice bound on `n` cells: negative ones count from the end, and none goes past either
      end. */
  function SliceBound(i: int, n: nat): nat {
    var j := if i < 0 then i + n else i;
    if j < 0 then 0 else if j > n then n else j
  }

  /** A negative bound within the list counts from its end, and the bounds keep their order as far as
      the list goes. */
  lemma SliceBoundIs(i: int, n: nat)
    ensures 0 <= i <= n ==> SliceBound(i, n) == i
    ensures i < 0 <= n + i ==> SliceBound(i, n) == n + i
    ensures n + i < 0 ==> SliceBound(i, n) == 0
    ensures i > n ==> SliceBound(i, n) == n
  {
  }

  /** One of the odd runs among the first `k` covers cell `p` of `n`. */
  ghost predicate Painted(packed: seq<int>, n: nat, k: nat, p: nat)
    requires k <= |packed|
  {
    exists i :: 0 <= i < k && i % 2 == 1 && Covers(packed, n, i, p)
  }

  predicate Covers(packed: seq<int>, n: nat, i: nat, p: nat)
    requires i < |packed|
  {
    SliceBound(Position(packed, i), n) <= p < SliceBound(Position(packed, i + 1), n)
  }

  /** Writes ones over the odd runs of a zero mask; fails when the runs add up to less than
      nothing. */
  method UnpackLossMask(packed: seq<int>) returns (r: Result<seq<int>>)
    ensures var n := Position(packed, |packed|);
            && (r.Err? <==> n < 0) && (r.Err? ==> r.error == RuntimeError)
            && (r.Ok? ==> |r.value| == n && forall p :: 0 <= p < n ==>
                            r.value[p] == if Painted(packed, n, |packed|, p) then 1 else 0)
    ensures (forall i :: 0 <= i < |packed| ==> packed[i] >= 0) ==> r == Ok(Expand(packed, 0))
  {
    var total := Position(packed, |packed|);
    if total < 0 {
      NoNegative(packed);
      return Err(RuntimeError);
    }
    var cells := new int[total](_ => 0);
    var pos := 0;
    for i := 0 to |packed|
      invariant pos == Position(packed, i)
      invariant forall p :: 0 <= p < total ==> cells[p] == if Painted(packed, total, i, p) then 1 else 0
    {
      var length := packed[i];
      if i % 2 == 1 {
        FillOnes(cells, SliceBound(pos, total), SliceBound(pos + length, total));
      }
      PaintedNext(packed, total, i, i + 1);
      pos := pos + length;
    }
    if forall i :: 0 <= i < |packed| ==> packed[i] >= 0 {
      UnpackExpands(packed, cells[..]);
    }
    r := Ok(cells[..]);
  }

  lemma PaintedNext(packed: seq<int>, n: nat, i: nat, k: nat)
    requires i < |packed| && k == i + 1
    ensures forall p: nat :: Painted(packed, n, k, p) <==>
                               Painted(packed, n, i, p) || (i % 2 == 1 && Covers(packed, n, i, p))
  {
  }

  lemma {:induction false} PositionMonotone(packed: seq<nat>, i: nat, j: nat)
    requires i <= j <= |packed|
    ensures 0 <= Position(packed, i) <= Position(packed, j)
    decreases j
  {
    if i < j {
      PositionMonotone(packed, i, j - 1);
    } else if i > 0 {
      PositionMonotone(packed, i - 1, j - 1);
    }
  }

  lemma NoNegative(packed: seq<int>)
    requires Position(packed, |packed|) < 0
    ensures exists i :: 0 <= i < |packed| && packed[i] < 0
  {
    if forall i :: 0 <= i < |packed| ==> packed[i] >= 0 {
      PositionMonotone(packed, 0, |packed|);
      assert false;
    }
  }

  lemma {:induction false} ExpandSnoc(packed: seq<nat>, x: nat, val: int)
    requires val == 0 || val == 1
    ensures Expand(packed + [x], val) == Expand(packed, val) + Copies(if |packed| % 2 == 0 then val else 1 - val, x)
  {
    if |packed| == 0 {
      assert packed + [x] == [x];
      assert Expand([x], val) == Copies(val, x) + Expand([], 1 - val);
    } else {
      ExpandSnoc(packed[1..], x, 1 - val);
      assert (packed + [x])[1..] == packed[1..] + [x];
    }
  }

  lemma {:induction false} ExpandPainted(packed: seq<nat>, n: nat, k: nat)
    requires k <= |packed| && n == Position(packed, |packed|)
    ensures |Expand(packed[..k], 0)| == Position(packed, k)
    ensures forall p :: 0 <= p < Position(packed, k) ==>
              Expand(packed[..k], 0)[p] == if Painted(packed, n, k, p) then 1 else 0
  {
    if k > 0 {
      ExpandPainted(packed, n, k - 1);
      assert packed[..k] == packed[..k - 1] + [packed[k - 1]];
      ExpandSnoc(packed[..k - 1], packed[k - 1], 0);
      PaintedNext(packed, n, k - 1, k);
      PositionMonotone(packed, k - 1, k);
      PositionMonotone(packed, k, |packed|);
      NotPaintedYet(packed, n, k - 1);
    }
  }

  lemma NotPaintedYet(packed: seq<nat>, n: nat, k: nat)
    requires k <= |packed| && n == Position(packed, |packed|)
    ensures forall p: nat :: p >= Position(packed, k) ==> !Painted(packed, n, k, p)
  {
    PositionMonotone(packed, k, |packed|);
    forall p: nat, i | p >= Position(packed, k) && 0 <= i < k ensures !Covers(packed, n, i, p) {
      PositionMonotone(packed, i + 1, k);
    }
  }

  lemma UnpackExpands(packed: seq<nat>, mask: seq<int>)
    requires |mask| == Position(packed, |packed|)
    requires forall p :: 0 <= p < |mask| ==> mask[p] == if Painted(packed, |mask|, |packed|, p) then 1 else 0
    ensures mask == Expand(packed, 0)
  {
    ExpandPainted(packed, |mask|, |packed|);
    assert packed[..|packed|] == packed;
  }

  method FillOnes(cells: array<int>, lo: nat, hi: nat)
    requires hi <= cells.Length
    modifies cells
    ensures forall p :: 0 <= p < cells.Length ==> cells[p] == if lo <= p < hi then 1 else old(cells[p])
  {
    forall p | lo <= p < hi {
      cells[p] := 1;
    }
  }

  ghost predicate IsMask(mask: seq<int>) {
    forall i :: 0 <= i < |mask| ==> mask[i] == 0 || mask[i] == 1
  }

  lemma {:induction false} ExpandIsMask(packed: seq<nat>, val: int)
    requires val == 0 || val == 1
    ensures IsMask(Expand(packed, val))
  {
    if |packed| > 0 {
      ExpandIsMask(packed[1..], 1 - val);
    }
  }

  lemma {:induction false} ExpandRuns(mask: seq<int>, val: int, len: nat)
    requires IsMask(mask) && (val == 0 || val == 1)
    ensures Expand(RunsFrom(mask, val, len), val) == Copies(val, len) + mask
  {
    if |mask| == 0 {
      assert Expand([len], val) == Copies(val, len) + Expand([], 1 - val);
    } else if mask[0] == val {
      ExpandRuns(mask[1..], val, len + 1);
      assert Copies(val, len + 1) + mask[1..] == Copies(val, len) + mask;
    } else {
      ExpandRuns(mask[1..], mask[0], 1);
      assert Copies(mask[0], 1) + mask[1..] == mask;
    }
  }

  /** Decoding the code gives the mask back if and only if it holds zeros and ones alone. */
  lemma UnpackPack(mask: seq<int>)
    ensures Expand(Runs(mask), 0) == mask <==> IsMask(mask)
  {
    ExpandIsMask(Runs(mask), 0);
    if IsMask(mask) && |mask| > 0 {
      ExpandRuns(mask, 0, 0);
      assert Copies(0, 0) + mask == mask;
    }
  }

  // ---------------------------------------------------------------------
  // Canonical codes
  // ---------------------------------------------------------------------

  /** Only the first run may be empty, and it is not the only one then. */
  ghost predicate Canonical(packed: seq<nat>) {
    && packed != [0]
    && forall i :: 1 <= i < |packed| ==> packed[i] > 0
  }

  lemma {:induction false} RunsPositive(mask: seq<int>, val: int, len: nat)
    ensures |RunsFrom(mask, val, len)| > 0
    ensures forall i :: 1 <= i < |RunsFrom(mask, val, len)| ==> RunsFrom(mask, val, len)[i] > 0
    ensures len > 0 ==> RunsFrom(mask, val, len)[0] > 0
  {
    if |mask| > 0 {
      if mask[0] == val {
        RunsPositive(mask[1..], val, len + 1);
      } else {
        RunsPositive(mask[1..], mask[0], 1);
      }
    }
  }

  lemma PackIsCanonical(mask: seq<int>)
    ensures Canonical(Runs(mask))
  {
    if |mask| > 0 {
      RunsPositive(mask, 0, 0);
      if mask[0] == 0 {
        RunsPositive(mask[1..], 0, 1);
      } else {
        RunsPositive(mask[1..], mask[0], 1);
      }
    }
  }

  /** More of the current value only lengthens the first run. */
  lemma {:induction false} RunsOfCopies(val: int, n: nat, rest: seq<int>, len: nat)
    ensures RunsFrom(Copies(val, n) + rest, val, len) == RunsFrom(rest, val, len + n)
    decreases n
  {
    var m := Copies(val, n) + rest;
    if n == 0 {
      assert m == rest;
    } else {
      assert m[1..] == Copies(val, n - 1) + rest;
      RunsOfCopies(val, n - 1, rest, len + 1);
    }
  }

  lemma {:induction false} RunsOfExpanded(packed: seq<nat>, val: int, len: nat)
    requires |packed| > 0 && (val == 0 || val == 1)
    requires forall i :: 1 <= i < |packed| ==> packed[i] > 0
    ensures RunsFrom(Expand(packed, val), val, len) == [len + packed[0]] + packed[1..]
  {
    var rest := Expand(packed[1..], 1 - val);
    RunsOfCopies(val, packed[0], rest, len);
    if |packed| > 1 {
      RunsOfExpanded(packed[1..], 1 - val, 0);
      assert packed[1..][0] == packed[1] > 0;
      assert rest[0] == 1 - val;
      RunsRestart(rest, val, len + packed[0]);
      assert [0 + packed[1]] + packed[1..][1..] == packed[1..];
    }
  }

  /** A run of the other value starts afresh. */
  lemma RunsRestart(rest: seq<int>, val: int, len: nat)
    requires |rest| > 0 && rest[0] == 1 - val && (val == 0 || val == 1)
    ensures RunsFrom(rest, val, len) == [len] + RunsFrom(rest, 1 - val, 0)
  {
    assert RunsFrom(rest, 1 - val, 0) == RunsFrom(rest[1..], 1 - val, 1);
  }

  /** Packing undoes unpacking exactly on the canonical codes. */
  lemma PackUnpack(packed: seq<nat>)
    ensures Runs(Expand(packed, 0)) == packed <==> Canonical(packed)
  {
    PackIsCanonical(Expand(packed, 0));
    if Canonical(packed) && |packed| > 0 {
      RunsOfExpanded(packed, 0, 0);
      assert [0 + packed[0]] + packed[1..] == packed;
      CanonicalExpands(packed);
    }
  }

  lemma CanonicalExpands(packed: seq<nat>)
    requires Canonical(packed) && |packed| > 0
    ensures |Expand(packed, 0)| > 0
  {
    if |packed| > 1 {
      assert packed[1..][0] == packed[1] > 0;
      assert |Copies(1, packed[1])| > 0;
      assert |Expand(packed[1..], 1)| > 0;
    } else {
      assert packed == [packed[0]];
      assert |Copies(0, packed[0])| > 0;
    }
  }

  // ---------------------------------------------------------------------
  // No shorter code exists
  // ---------------------------------------------------------------------

  /** How often the value changes, reading `mask` after `val`. */
  function Switches(val: int, mask: seq<int>): nat
    decreases |mask|
  {
    if |mask| == 0 then 0 else Switches(mask[0], mask[1..]) + if mask[0] == val then 0 else 1
  }

  lemma {:induction false} RunsCount(mask: seq<int>, val: int, len: nat)
    ensures |RunsFrom(mask, val, len)| == 1 + Switches(val, mask)
  {
    if |mask| > 0 {
      if mask[0] == val {
        RunsCount(mask[1..], val, len + 1);
      } else {
        RunsCount(mask[1..], mask[0], 1);
      }
    }
  }

  lemma {:induction false} SwitchesCopies(val: int, n: nat, rest: seq<int>)
    ensures Switches(val, Copies(val, n) + rest) == Switches(val, rest)
    decreases n
  {
    var m := Copies(val, n) + rest;
    if n == 0 {
      assert m == rest;
    } else {
      assert m[1..] == Copies(val, n - 1) + rest;
      SwitchesCopies(val, n - 1, rest);
    }
  }

  lemma {:induction false} SwitchesExpanded(packed: seq<nat>, val: int)
    requires |packed| > 0
    ensures Switches(val, Expand(packed, val)) < |packed|
  {
    var rest := Expand(packed[1..], 1 - val);
    SwitchesCopies(val, packed[0], rest);
    if |packed| > 1 {
      SwitchesExpanded(packed[1..], 1 - val);
      assert Switches(val, rest) <= 1 + Switches(1 - val, rest);
    }
  }

  /** Whatever alternating list decodes to the mask, the code is not longer. */
  lemma PackIsShortest(mask: seq<int>, packed: seq<nat>)
    requires Expand(packed, 0) == mask
    ensures |Runs(mask)| <= |packed|
  {
    if |mask| > 0 {
      RunsCount(mask, 0, 0);
      SwitchesExpanded(packed, 0);
    }
  }

  // ---------------------------------------------------------------------
  // Text
  // ---------------------------------------------------------------------

  function DigitChar(d: nat): char
    requires d < 10
  {
    ('0' as int + d) as char
  }

  predicate IsDigit(c: char) {
    '0' <= c <= '9'
  }

  function DigitsOf(n: nat): string {
    if n < 10 then [DigitChar(n)] else DigitsOf(n / 10) + [DigitChar(n % 10)]
  }

  function Str(x: int): string {
    if x < 0 then "-" + DigitsOf(-x) else DigitsOf(x)
  }

  function Join(parts: seq<string>): string {
    if |parts| == 0 then "" else if |parts| == 1 then parts[0] else parts[0] + "," + Join(parts[1..])
  }

  function SerializePackedLossMask(packed: seq<int>): string {
    Join(Map(Str, packed))
  }

  /** The text up to the first comma, and what follows it if there is one. */
  function Cut(s: string): (r: (string, Option<string>))
    ensures r.1.None? ==> r.0 == s
    ensures r.1.Some? ==> s == r.0 + "," + r.1.value
    ensures ',' !in r.0
  {
    if |s| == 0 then ("", None)
    else if s[0] == ',' then ("", Some(s[1..]))
    else
      var (first, rest) := Cut(s[1..]);
      ([s[0]] + first, rest)
  }

  function Split(s: string): seq<string>
    decreases |s|
  {
    var (first, rest) := Cut(s);
    if rest.None? then [first] else [first] + Split(rest.value)
  }

  predicate IsSpace(c: char) {
    c == ' ' || '\t' <= c <= '\r'
  }

  function Strip(s: string): string {
    if |s| > 0 && IsSpace(s[0]) then Strip(s[1..])
    else if |s| > 0 && IsSpace(s[|s| - 1]) then Strip(s[..|s| - 1])
    else s
  }

  /** Digits, with single underscores allowed between two of them. */
  function ParseDigits(s: string): Result<nat> {
    if |s| == 0 then Err(ValueError)
    else
      var n := |s| - 1;
      if !IsDigit(s[n]) then Err(ValueError)
      else
        var d := s[n] as int - '0' as int;
        if n == 0 then Ok(d)
        else
          var front := if s[n - 1] == '_' then s[..n - 1] else s[..n];
          var value :- ParseDigits(front);
          Ok(10 * value + d)
  }

  function ParseInt(text: string): Result<int> {
    var s := Strip(text);
    if |s| > 0 && s[0] == '-' then
      var n :- ParseDigits(s[1..]);
      Ok(-(n as int))
    else if |s| > 0 && s[0] == '+' then ParseDigits(s[1..])
    else ParseDigits(s)
  }

  function ParseAll(parts: seq<string>): Result<seq<int>> {
    if |parts| == 0 then Ok([])
    else
      var first :- ParseInt(parts[0]);
      var rest :- ParseAll(parts[1..]);
      Ok([first] + rest)
  }

  function DeserializePackedLossMask(s: string): Result<seq<int>> {
    if |s| == 0 then Ok([]) else ParseAll(Split(s))
  }

  ghost predicate AllDigits(s: string) {
    |s| > 0 && forall i :: 0 <= i < |s| ==> IsDigit(s[i])
  }

  lemma {:induction false} DigitsParse(n: nat)
    ensures AllDigits(DigitsOf(n)) && ParseDigits(DigitsOf(n)) == Ok(n)
  {
    var s := DigitsOf(n);
    if n >= 10 {
      DigitsParse(n / 10);
      assert s[..|s| - 1] == DigitsOf(n / 10);
      assert IsDigit(s[|s| - 2]);
    }
  }

  lemma StrParses(x: int)
    ensures ParseInt(Str(x)) == Ok(x) && |Str(x)| > 0 && ',' !in Str(x)
  {
    var n := if x < 0 then -x else x;
    DigitsParse(n);
    var s := Str(x);
    assert !IsSpace(s[0]) && !IsSpace(s[|s| - 1]);
    assert Strip(s) == s;
    if x < 0 {
      assert s[1..] == DigitsOf(n);
    } else {
      assert IsDigit(s[0]);
    }
  }

  lemma {:induction false} CutJoined(first: string, rest: string)
    requires ',' !in first
    ensures Cut(first + "," + rest) == (first, Some(rest))
  {
    var s := first + "," + rest;
    if |first| == 0 {
      assert s[1..] == rest;
    } else {
      assert s[1..] == first[1..] + "," + rest;
      CutJoined(first[1..], rest);
      assert [first[0]] + first[1..] == first;
    }
  }

  lemma {:induction false} CutPlain(s: string)
    requires ',' !in s
    ensures Cut(s) == (s, None)
  {
    if |s| > 0 {
      CutPlain(s[1..]);
    }
  }

  lemma {:induction false} SplitJoin(parts: seq<string>)
    requires |parts| > 0 && forall i :: 0 <= i < |parts| ==> ',' !in parts[i]
    ensures Split(Join(parts)) == parts
  {
    if |parts| == 1 {
      CutPlain(parts[0]);
    } else {
      CutJoined(parts[0], Join(parts[1..]));
      SplitJoin(parts[1..]);
    }
  }

  lemma {:induction false} ParseAllStr(xs: seq<int>)
    ensures ParseAll(Map(Str, xs)) == Ok(xs)
  {
    if |xs| > 0 {
      StrParses(xs[0]);
      assert Map(Str, xs)[1..] == Map(Str, xs[1..]);
      ParseAllStr(xs[1..]);
      assert [xs[0]] + xs[1..] == xs;
    }
  }

  lemma JoinNotEmpty(parts: seq<string>)
    requires |parts| > 0 && |parts[0]| > 0
    ensures |Join(parts)| > 0
  {
  }

  /** Reading back the text of any list of integers gives the list. */
  lemma DeserializeSerialize(xs: seq<int>)
    ensures DeserializePackedLossMask(SerializePackedLossMask(xs)) == Ok(xs)
  {
    if |xs| > 0 {
      var parts := Map(Str, xs);
      forall i | 0 <= i < |parts| ensures ',' !in parts[i] && |parts[i]| > 0 {
        StrParses(xs[i]);
      }
      JoinNotEmpty(parts);
      SplitJoin(parts);
      ParseAllStr(xs);
    }
  }

  ghost predicate AllSpaces(s: string) {
    forall i :: 0 <= i < |s| ==> IsSpace(s[i])
  }

  lemma {:induction false} StripAfter(core: string, after: string)
    requires |core| > 0 && !IsSpace(core[0]) && !IsSpace(core[|core| - 1]) && AllSpaces(after)
    ensures Strip(core + after) == core
    decreases |after|
  {
    if |after| == 0 {
      assert core + after == core;
    } else {
      var n := |after| - 1;
      StripAfter(core, after[..n]);
      assert (core + after)[..|core + after| - 1] == core + after[..n];
    }
  }

  lemma {:induction false} StripAround(before: string, core: string, after: string)
    requires |core| > 0 && !IsSpace(core[0]) && !IsSpace(core[|core| - 1]) && AllSpaces(before) && AllSpaces(after)
    ensures Strip(before + core + after) == core
    decreases |before|
  {
    if |before| == 0 {
      assert before + core + after == core + after;
      StripAfter(core, after);
    } else {
      StripAround(before[1..], core, after);
      assert (before + core + after)[1..] == before[1..] + core + after;
    }
  }

  /** White space around a number and a plus sign before it are read over. */
  lemma SpacesAndSignParse(n: nat, before: string, after: string)
    requires AllSpaces(before) && AllSpaces(after)
    ensures ParseInt(before + DigitsOf(n) + after) == Ok(n)
    ensures ParseInt(before + ("+" + DigitsOf(n)) + after) == Ok(n)
    ensures ParseInt(before + ("-" + DigitsOf(n)) + after) == Ok(-(n as int))
  {
    var s := DigitsOf(n);
    DigitsParse(n);
    assert IsDigit(s[0]) && IsDigit(s[|s| - 1]);
    StripAround(before, s, after);
    StripAround(before, "+" + s, after);
    StripAround(before, "-" + s, after);
    assert ("+" + s)[1..] == s && ("-" + s)[1..] == s;
  }

  /** Main result: a mask survives packing, writing, reading and unpacking. */
  lemma MaskRoundTrip(mask: seq<int>)
    requires IsMask(mask)
    ensures DeserializePackedLossMask(SerializePackedLossMask(Runs(mask))) == Ok(Runs(mask))
    ensures Expand(Runs(mask), 0) == mask
  {
    DeserializeSerialize(Runs(mask));
    UnpackPack(mask);
  }
}
