/** Correcting for rollouts from another policy: rejection masks, importance weights, and the
    batch columns they read and write. */
module RolloutCorrection {
  import opened Arith
  import opened GroupFilter
  import opened Seqs
  import opened Stats
  import opened Wrappers

  const SAFETY_BOUND := 20.0
  const EPSILON := 0.00000001

  // ---------------------------------------------------------------------
  // Rejection criteria
  // ---------------------------------------------------------------------

  datatype Kind = K1 | K2 | K3

  /** The supported criteria: per token, or per sequence by sum, mean or maximum. */
  datatype RsOption = Token(kind: Kind) | SeqSum(kind: Kind) | SeqMean(kind: Kind) | SeqMaxK2 | SeqMaxK3

  function KindOf(o: RsOption): Kind {
    match o
    case SeqMaxK2 => K2
    case SeqMaxK3 => K3
    case _ => o.kind
  }

  predicate SequenceLevel(o: RsOption) {
    !o.Token?
  }

  /** A threshold as configured, and as resolved for one criterion. */
  datatype Threshold = Threshold(lower: Option<real>, upper: real)

  /** K1 takes two positive bounds, the lower one defaulting to the reciprocal; the others
      take one positive bound. */
  function Resolve(o: RsOption, spec: Threshold): Result<Threshold> {
    if KindOf(o) == K1 then
      if spec.lower.None? && spec.upper == 0.0 then Err(ZeroDivisionError)
      else
        var lower := if spec.lower.Some? then spec.lower.value else 1.0 / spec.upper;
        if lower <= 0.0 || spec.upper <= 0.0 then Err(ValueError) else Ok(Threshold(Some(lower), spec.upper))
    else if spec.lower.Some? || spec.upper <= 0.0 then Err(ValueError)
    else Ok(Threshold(None, spec.upper))
  }

  type Criterion = (RsOption, Threshold)

  function ResolveAll(options: seq<RsOption>, specs: seq<Threshold>): Result<seq<Criterion>>
    requires |specs| == |options|
  {
    if |options| == 0 then Ok([])
    else
      var first :- Resolve(options[0], specs[0]);
      var rest :- ResolveAll(options[1..], specs[1..]);
      Ok([(options[0], first)] + rest)
  }

  /** Repeated criteria count once; one threshold serves all, or there is one for each. */
  function Criteria(options: seq<RsOption>, specs: seq<Threshold>): Result<seq<Criterion>> {
    var distinct := Distinct(options);
    if |options| == 0 || (|specs| != 1 && |specs| != |distinct|) then Err(ValueError)
    else ResolveAll(distinct, Spread(distinct, specs))
  }

  /** The threshold of each criterion. */
  function Spread(distinct: seq<RsOption>, specs: seq<Threshold>): (r: seq<Threshold>)
    ensures |specs| == 1 || |specs| == |distinct| ==> |r| == |distinct|
  {
    if |specs| == 1 then seq(|distinct|, _ => specs[0]) else specs
  }

  predicate TakesMaximum(o: RsOption) {
    o.SeqMaxK2? || o.SeqMaxK3?
  }

  /** A row without columns has no maximum. */
  predicate LacksMaximum(cs: seq<Criterion>, n: nat, mask: seq<seq<bool>>)
    requires n <= |cs|
  {
    (exists k :: 0 <= k < n && TakesMaximum(cs[k].0)) && exists i :: 0 <= i < |mask| && |mask[i]| == 0
  }

  function Bounded(x: real): real {
    if x < -SAFETY_BOUND then -SAFETY_BOUND else if x > SAFETY_BOUND then SAFETY_BOUND else x
  }

  /** The divergence estimate of one token; `e` is the exponential. */
  function Estimate(e: real -> real, k: Kind, logRatio: real): real {
    var x := Bounded(logRatio);
    match k
    case K1 => -x
    case K2 => 0.5 * Square(x)
    case K3 => e(x) - 1.0 - x
  }

  function Estimates(e: real -> real, k: Kind, row: seq<real>): seq<real> {
    seq(|row|, t requires 0 <= t < |row| => Estimate(e, k, row[t]))
  }

  /** The entries of `row` at marked positions. */
  function Marked(row: seq<real>, mask: seq<bool>): seq<real>
    requires |row| == |mask|
  {
    if |row| == 0 then []
    else
      var n := |row| - 1;
      Marked(row[..n], mask[..n]) + if mask[n] then [row[n]] else []
  }

  /** The sum over the count, which is kept away from zero. */
  function SafeMean(vs: seq<real>): real {
    RealSum(vs) / if |vs| as real < EPSILON then EPSILON else |vs| as real
  }

  function MaxOrZero(vs: seq<real>): real {
    if |vs| == 0 then 0.0
    else if |vs| == 1 then vs[0]
    else
      var rest := MaxOrZero(vs[1..]);
      if vs[0] > rest then vs[0] else rest
  }

  /** What the criterion compares at position `t` of a row. */
  function Statistic(e: real -> real, o: RsOption, row: seq<real>, mask: seq<bool>, t: nat): real
    requires |row| == |mask| && t < |row|
  {
    var marked := Marked(Estimates(e, KindOf(o), row), mask);
    match o
    case Token(k) => Estimate(e, k, row[t])
    case SeqSum(_) => RealSum(marked)
    case SeqMean(_) => SafeMean(marked)
    case _ => MaxOrZero(marked)
  }

  predicate Within(l: real -> real, k: Kind, th: Threshold, stat: real)
    requires k == K1 ==> th.lower.Some?
  {
    if k == K1 then l(th.lower.value) <= stat <= l(th.upper) else stat <= th.upper
  }

  ghost predicate WellFormed(c: Criterion) {
    KindOf(c.0) == K1 ==> c.1.lower.Some?
  }

  predicate Keeps(e: real -> real, l: real -> real, c: Criterion, row: seq<real>, mask: seq<bool>, t: nat)
    requires WellFormed(c) && |row| == |mask| && t < |row|
  {
    Within(l, KindOf(c.0), c.1, Statistic(e, c.0, row, mask, t))
  }

  ghost predicate AllWellFormed(cs: seq<Criterion>) {
    forall i :: 0 <= i < |cs| ==> WellFormed(cs[i])
  }

  ghost predicate SameShape<S, T>(a: seq<seq<S>>, b: seq<seq<T>>) {
    |a| == |b| && forall i :: 0 <= i < |a| ==> |a[i]| == |b[i]|
  }

  function KeepGrid(e: real -> real, l: real -> real, c: Criterion, logRatio: seq<seq<real>>, mask: seq<seq<bool>>)
      : seq<seq<bool>>
    requires WellFormed(c) && SameShape(logRatio, mask)
  {
    seq(|mask|, i requires 0 <= i < |mask| =>
      seq(|mask[i]|, t requires 0 <= t < |mask[i]| => Keeps(e, l, c, logRatio[i], mask[i], t)))
  }

  function And(a: seq<seq<bool>>, b: seq<seq<bool>>): seq<seq<bool>>
    requires SameShape(a, b)
  {
    seq(|a|, i requires 0 <= i < |a| => seq(|a[i]|, t requires 0 <= t < |a[i]| => a[i][t] && b[i][t]))
  }

  /** Every criterion among the first `n` keeps the position. */
  ghost predicate AllKeep(e: real -> real, l: real -> real, cs: seq<Criterion>, n: nat, row: seq<real>, mask: seq<bool>,
                          t: nat)
    requires AllWellFormed(cs) && n <= |cs| && |row| == |mask| && t < |row|
  {
    forall i :: 0 <= i < n ==> Keeps(e, l, cs[i], row, mask, t)
  }

  lemma {:induction false} ResolvedWellFormed(options: seq<RsOption>, specs: seq<Threshold>)
    requires |specs| == |options| && ResolveAll(options, specs).Ok?
    ensures AllWellFormed(ResolveAll(options, specs).value)
  {
    if |options| > 0 {
      ResolvedWellFormed(options[1..], specs[1..]);
    }
  }

  /** `result` is the mask with every criterion applied. */
  ghost predicate IsIntersection(e: real -> real, l: real -> real, cs: seq<Criterion>, logRatio: seq<seq<real>>,
                                 mask: seq<seq<bool>>, result: seq<seq<bool>>)
    requires AllWellFormed(cs) && SameShape(logRatio, mask)
  {
    && SameShape(mask, result)
    && forall i, t :: 0 <= i < |mask| && 0 <= t < |mask[i]| ==>
         (result[i][t] <==> mask[i][t] && AllKeep(e, l, cs, |cs|, logRatio[i], mask[i], t))
  }

  /** `combined` marks what the first `n` criteria keep. */
  ghost predicate KeptSoFar(e: real -> real, l: real -> real, cs: seq<Criterion>, n: nat, logRatio: seq<seq<real>>,
                            mask: seq<seq<bool>>, combined: seq<seq<bool>>)
    requires AllWellFormed(cs) && n <= |cs| && SameShape(logRatio, mask)
  {
    && SameShape(mask, combined)
    && forall i, t :: 0 <= i < |mask| && 0 <= t < |mask[i]| ==>
                        (combined[i][t] <==> AllKeep(e, l, cs, n, logRatio[i], mask[i], t))
  }

  lemma OneMoreCriterion(e: real -> real, l: real -> real, cs: seq<Criterion>, n: nat, logRatio: seq<seq<real>>,
                         mask: seq<seq<bool>>, combined: seq<seq<bool>>)
    requires AllWellFormed(cs) && n < |cs| && SameShape(logRatio, mask)
    requires KeptSoFar(e, l, cs, n, logRatio, mask, combined)
    ensures KeptSoFar(e, l, cs, n + 1, logRatio, mask, And(combined, KeepGrid(e, l, cs[n], logRatio, mask)))
  {
  }

  lemma MaskedIsIntersection(e: real -> real, l: real -> real, cs: seq<Criterion>, logRatio: seq<seq<real>>,
                             mask: seq<seq<bool>>, combined: seq<seq<bool>>)
    requires AllWellFormed(cs) && SameShape(logRatio, mask)
    requires KeptSoFar(e, l, cs, |cs|, logRatio, mask, combined)
    ensures IsIntersection(e, l, cs, logRatio, mask, And(mask, combined))
  {
  }

  /** The criteria do not parse, or one takes a maximum over no columns. */
  predicate RejectionFails(options: seq<RsOption>, specs: seq<Threshold>, mask: seq<seq<bool>>) {
    var cs := Criteria(options, specs);
    cs.Err? || LacksMaximum(cs.value, |cs.value|, mask)
  }

  /** Multiplies the criteria's masks together, one after the other; zeros and ones are
      written as booleans. An empty batch comes back as it is. */
  method RejectionMask(e: real -> real, l: real -> real, logRatio: seq<seq<real>>, mask: seq<seq<bool>>,
                       options: seq<RsOption>, specs: seq<Threshold>)
      returns (r: Result<seq<seq<bool>>>)
    requires SameShape(logRatio, mask)
    ensures |mask| == 0 ==> r == Ok(mask)
    ensures |mask| > 0 ==> (r.Err? <==> RejectionFails(options, specs, mask))
    ensures |mask| > 0 && r.Err? ==>
              r.error == if Criteria(options, specs).Err? then Criteria(options, specs).error else IndexError
    ensures |mask| > 0 && r.Ok? ==>
              && AllWellFormed(Criteria(options, specs).value)
              && IsIntersection(e, l, Criteria(options, specs).value, logRatio, mask, r.value)
  {
    if |mask| == 0 {
      return Ok(mask);
    }
    var parsed := Criteria(options, specs);
    if parsed.Err? {
      return Err(parsed.error);
    }
    var cs := parsed.value;
    var distinct := Distinct(options);
    ResolvedWellFormed(distinct, Spread(distinct, specs));
    var combined := seq(|mask|, i requires 0 <= i < |mask| => seq(|mask[i]|, _ => true));
    for n := 0 to |cs|
      invariant KeptSoFar(e, l, cs, n, logRatio, mask, combined)
      invariant !LacksMaximum(cs, n, mask)
    {
      if TakesMaximum(cs[n].0) && exists i :: 0 <= i < |mask| && |mask[i]| == 0 {
        return Err(IndexError);
      }
      OneMoreCriterion(e, l, cs, n, logRatio, mask, combined);
      combined := And(combined, KeepGrid(e, l, cs[n], logRatio, mask));
    }
    MaskedIsIntersection(e, l, cs, logRatio, mask, combined);
    r := Ok(And(mask, combined));
  }

  // ---------------------------------------------------------------------
  // What the mask depends on
  // ---------------------------------------------------------------------

  /** Which thresholds a criterion takes: a kind-one criterion two positive bounds that may be
      reciprocal to each other if only the upper one is given, the others one positive bound. */
  lemma ResolvedBounds(o: RsOption, spec: Threshold)
    ensures Resolve(o, spec).Ok? <==>
            && spec.upper > 0.0
            && if KindOf(o) == K1 then spec.lower.Some? ==> spec.lower.value > 0.0 else spec.lower.None?
    ensures Resolve(o, spec).Ok? ==>
              var th := Resolve(o, spec).value;
              && th.upper == spec.upper && (th.lower.Some? <==> KindOf(o) == K1)
              && (spec.lower.Some? ==> th.lower == spec.lower)
              && (KindOf(o) == K1 && spec.lower.None? ==> Product(th.lower.value, th.upper) == 1.0)
  {
    if KindOf(o) == K1 && spec.upper != 0.0 {
      InverseBound(spec.upper);
    }
  }

  lemma InverseBound(x: real)
    requires x != 0.0
    ensures Product(1.0 / x, x) == 1.0 && (1.0 / x > 0.0 <==> x > 0.0)
  {
    var y := 1.0 / x;
    assert y * x == 1.0;
  }

  /** Options and thresholds parse exactly when there is an option, one threshold for all or one for
      each different option, and each option takes its threshold. */
  lemma CriteriaParse(options: seq<RsOption>, specs: seq<Threshold>)
    ensures Criteria(options, specs).Ok? <==>
            && options != [] && (|specs| == 1 || |specs| == |Distinct(options)|)
            && forall i :: 0 <= i < |Distinct(options)| ==>
                             Resolve(Distinct(options)[i], specs[if |specs| == 1 then 0 else i]).Ok?
  {
    var distinct := Distinct(options);
    if options != [] && (|specs| == 1 || |specs| == |distinct|) {
      ResolvedPairs(distinct, Spread(distinct, specs));
    }
  }

  /** The bounded log-ratio is the point of the safety interval nearest to it. */
  lemma BoundedIsNearest(x: real, y: real)
    requires Safe(y)
    ensures Safe(Bounded(x))
    ensures var near, far := if Bounded(x) < x then x - Bounded(x) else Bounded(x) - x, if y < x then x - y else y - x;
            near <= far
  {
  }

  /** The maximum of some values is one of them and none is larger. */
  lemma {:induction false} MaximumIsLargest(vs: seq<real>)
    requires |vs| > 0
    ensures MaxOrZero(vs) in vs && forall i :: 0 <= i < |vs| ==> vs[i] <= MaxOrZero(vs)
  {
    if |vs| > 1 {
      MaximumIsLargest(vs[1..]);
      assert forall i :: 0 < i < |vs| ==> vs[i] == vs[1..][i - 1];
    }
  }

  /** A log-ratio within the safety bound. */
  predicate Safe(x: real) {
    -20.0 <= x <= 20.0
  }

  /** What a token-level criterion keeps, told from the log-ratio. */
  lemma TokenCriterionKeeps(e: real -> real, l: real -> real, kind: Kind, th: Threshold, row: seq<real>,
                            mask: seq<bool>, t: nat)
    requires WellFormed((Token(kind), th)) && |row| == |mask| && t < |row| && Safe(row[t])
    ensures Keeps(e, l, (Token(kind), th), row, mask, t) <==>
            match kind
            case K1 => l(th.lower.value) <= -row[t] <= l(th.upper)
            case K2 => Square(row[t]) <= 2.0 * th.upper
            case K3 => e(row[t]) <= 1.0 + row[t] + th.upper
  {
  }

  lemma {:induction false} MarkedEstimates(e: real -> real, kind: Kind, row: seq<real>, mask: seq<bool>)
    requires |row| == |mask|
    ensures forall v :: v in Marked(Estimates(e, kind, row), mask) <==>
                        exists p :: 0 <= p < |row| && mask[p] && Estimate(e, kind, row[p]) == v
  {
    forall v
      ensures v in Marked(Estimates(e, kind, row), mask) <==>
              exists p :: 0 <= p < |row| && mask[p] && Estimate(e, kind, row[p]) == v
    {
      MarkedMember(Estimates(e, kind, row), mask, v);
    }
  }

  lemma {:induction false} MaximumAtMost(vs: seq<real>, bound: real)
    requires bound >= 0.0
    ensures MaxOrZero(vs) <= bound <==> forall v :: v in vs ==> v <= bound
  {
    if |vs| > 0 {
      MaximumAtMost(vs[1..], bound);
      assert vs[0] in vs;
      forall v ensures v in vs <==> v == vs[0] || v in vs[1..] {
        assert vs == [vs[0]] + vs[1..];
      }
      assert |vs| == 1 ==> vs[1..] == [];
    }
  }

  /** A maximum criterion keeps a row exactly when the token-level one of the same kind keeps each of
      its marked tokens. */
  lemma MaximumCriterionKeeps(e: real -> real, l: real -> real, o: RsOption, th: Threshold, row: seq<real>,
                              mask: seq<bool>, t: nat)
    requires TakesMaximum(o) && |row| == |mask| && t < |row| && th.upper >= 0.0
    ensures Keeps(e, l, (o, th), row, mask, t) <==>
            forall p :: 0 <= p < |row| && mask[p] ==> Keeps(e, l, (Token(KindOf(o)), th), row, mask, p)
  {
    var kind := KindOf(o);
    var marked := Marked(Estimates(e, kind, row), mask);
    MarkedEstimates(e, kind, row, mask);
    MaximumAtMost(marked, th.upper);
    forall p | 0 <= p < |row| && mask[p] ensures Estimate(e, kind, row[p]) in marked {
    }
  }

  /** `x` is the log-ratio of every marked token, of which there are `n`. */
  ghost predicate AllMarkedAre(row: seq<real>, mask: seq<bool>, n: nat, x: real) {
    && |row| == |mask| && n == |Marked(row, mask)| > 0
    && forall p :: 0 <= p < |row| && mask[p] ==> row[p] == x
  }

  lemma {:induction false} ConstantMarked(e: real -> real, kind: Kind, row: seq<real>, mask: seq<bool>, n: nat, x: real)
    requires |row| == |mask| && n == |Marked(row, mask)| && forall p :: 0 <= p < |row| && mask[p] ==> row[p] == x
    ensures var marked := Marked(Estimates(e, kind, row), mask);
            |marked| == n && forall i :: 0 <= i < n ==> marked[i] == Estimate(e, kind, x)
  {
    if |row| > 0 {
      var k := |row| - 1;
      ConstantMarked(e, kind, row[..k], mask[..k], |Marked(row[..k], mask[..k])|, x);
      assert Estimates(e, kind, row)[..k] == Estimates(e, kind, row[..k]);
    }
  }

  /** If all marked tokens agree, the mean criterion does to the row what the token-level one does to
      such a token, and the sum criterion compares `n` times as much. */
  lemma SumAndMeanOfEqual(e: real -> real, l: real -> real, kind: Kind, th: Threshold, row: seq<real>, mask: seq<bool>,
                          n: nat, x: real, t: nat)
    requires AllMarkedAre(row, mask, n, x) && Safe(x) && t < |row| && (kind == K1 ==> th.lower.Some?)
    ensures Keeps(e, l, (SeqMean(kind), th), row, mask, t) <==> Keeps(e, l, (Token(kind), th), [x], [true], 0)
    ensures Keeps(e, l, (SeqSum(kind), th), row, mask, t) <==>
            match kind
            case K1 => l(th.lower.value) <= Times(n, -x) <= l(th.upper)
            case K2 => Times(n, 0.5 * Square(x)) <= th.upper
            case K3 => Times(n, e(x) - 1.0 - x) <= th.upper
  {
    var marked, v := Marked(Estimates(e, kind, row), mask), Estimate(e, kind, x);
    ConstantMarked(e, kind, row, mask, n, x);
    ConstantSum(marked, v);
    TimesIsProduct(n, v);
    QuotientOfProduct(n as real, v);
  }

  /** The order of criteria, with their thresholds attached, does not matter. */
  lemma OrderIsIrrelevant(e: real -> real, l: real -> real, cs: seq<Criterion>, cs': seq<Criterion>,
                          logRatio: seq<seq<real>>, mask: seq<seq<bool>>, a: seq<seq<bool>>, b: seq<seq<bool>>)
    requires AllWellFormed(cs) && AllWellFormed(cs') && SameShape(logRatio, mask)
    requires forall c :: c in cs <==> c in cs'
    requires IsIntersection(e, l, cs, logRatio, mask, a) && IsIntersection(e, l, cs', logRatio, mask, b)
    ensures a == b
  {
    forall i, t | 0 <= i < |mask| && 0 <= t < |mask[i]| ensures a[i][t] == b[i][t] {
      if a[i][t] {
        SameCriteria(e, l, cs, cs', logRatio[i], mask[i], t);
      }
      if b[i][t] {
        SameCriteria(e, l, cs', cs, logRatio[i], mask[i], t);
      }
    }
    forall i | 0 <= i < |mask| ensures a[i] == b[i] {
    }
  }

  type Pair = (RsOption, Threshold)

  function Pairs(options: seq<RsOption>, specs: seq<Threshold>): seq<Pair>
    requires |specs| == |options|
  {
    seq(|options|, i requires 0 <= i < |options| => (options[i], specs[i]))
  }

  /** The list resolves when each pair does, and then to the pairs resolved. */
  lemma {:induction false} ResolvedPairs(options: seq<RsOption>, specs: seq<Threshold>)
    requires |specs| == |options|
    ensures ResolveAll(options, specs).Ok? <==> forall i :: 0 <= i < |options| ==> Resolve(options[i], specs[i]).Ok?
    ensures ResolveAll(options, specs).Ok? ==>
              var cs := ResolveAll(options, specs).value;
              && |cs| == |options|
              && forall i :: 0 <= i < |options| ==> cs[i] == (options[i], Resolve(options[i], specs[i]).value)
  {
    if |options| > 0 {
      ResolvedPairs(options[1..], specs[1..]);
      assert forall i :: 0 < i < |options| ==> options[i] == options[1..][i - 1] && specs[i] == specs[1..][i - 1];
    }
  }

  lemma PairsResolve(options: seq<RsOption>, specs: seq<Threshold>, options': seq<RsOption>, specs': seq<Threshold>)
    requires |specs| == |options| && |specs'| == |options'|
    requires forall p :: p in Pairs(options, specs) ==> p in Pairs(options', specs')
    requires ResolveAll(options', specs').Ok?
    ensures ResolveAll(options, specs).Ok?
    ensures forall c :: c in ResolveAll(options, specs).value ==> c in ResolveAll(options', specs').value
  {
    ResolvedPairs(options, specs);
    ResolvedPairs(options', specs');
    var cs' := ResolveAll(options', specs').value;
    forall i | 0 <= i < |options|
      ensures Resolve(options[i], specs[i]).Ok? && (options[i], Resolve(options[i], specs[i]).value) in cs'
    {
      assert Pairs(options, specs)[i] in Pairs(options', specs');
      var j :| 0 <= j < |options'| && Pairs(options', specs')[j] == (options[i], specs[i]);
      assert cs'[j] == (options[i], Resolve(options[i], specs[i]).value);
    }
  }

  /** Both lists of criteria parse, to the same criteria, or neither does. */
  ghost predicate SameParsed(a: Result<seq<Criterion>>, b: Result<seq<Criterion>>) {
    (a.Ok? <==> b.Ok?) && (a.Ok? ==> forall c :: c in a.value <==> c in b.value)
  }

  /** Both configurations give the same mask, or neither gives one. */
  ghost predicate SameMask(e: real -> real, l: real -> real, options: seq<RsOption>, specs: seq<Threshold>,
                           options': seq<RsOption>, specs': seq<Threshold>, logRatio: seq<seq<real>>,
                           mask: seq<seq<bool>>, a: seq<seq<bool>>, b: seq<seq<bool>>)
    requires SameShape(logRatio, mask)
  {
    var cs, cs' := Criteria(options, specs), Criteria(options', specs');
    && (RejectionFails(options, specs, mask) <==> RejectionFails(options', specs', mask))
    && (cs.Ok? && cs'.Ok? ==>
          && AllWellFormed(cs.value) && AllWellFormed(cs'.value)
          && (IsIntersection(e, l, cs.value, logRatio, mask, a) && IsIntersection(e, l, cs'.value, logRatio, mask, b)
              ==> a == b))
  }

  lemma CriteriaWellFormed(options: seq<RsOption>, specs: seq<Threshold>)
    ensures Criteria(options, specs).Ok? ==> AllWellFormed(Criteria(options, specs).value)
  {
    if Criteria(options, specs).Ok? {
      ResolvedWellFormed(Distinct(options), Spread(Distinct(options), specs));
    }
  }

  lemma SameParsedSameMask(e: real -> real, l: real -> real, options: seq<RsOption>, specs: seq<Threshold>,
                           options': seq<RsOption>, specs': seq<Threshold>, logRatio: seq<seq<real>>,
                           mask: seq<seq<bool>>, a: seq<seq<bool>>, b: seq<seq<bool>>)
    requires SameShape(logRatio, mask) && SameParsed(Criteria(options, specs), Criteria(options', specs'))
    ensures SameMask(e, l, options, specs, options', specs', logRatio, mask, a, b)
  {
    CriteriaWellFormed(options, specs);
    CriteriaWellFormed(options', specs');
    var cs, cs' := Criteria(options, specs), Criteria(options', specs');
    if cs.Ok? {
      MaximumAmong(cs.value, cs'.value, mask);
      MaximumAmong(cs'.value, cs.value, mask);
      if IsIntersection(e, l, cs.value, logRatio, mask, a) && IsIntersection(e, l, cs'.value, logRatio, mask, b) {
        OrderIsIrrelevant(e, l, cs.value, cs'.value, logRatio, mask, a, b);
      }
    }
  }

  lemma MaximumAmong(cs: seq<Criterion>, cs': seq<Criterion>, mask: seq<seq<bool>>)
    requires forall c :: c in cs ==> c in cs'
    ensures LacksMaximum(cs, |cs|, mask) ==> LacksMaximum(cs', |cs'|, mask)
  {
    if LacksMaximum(cs, |cs|, mask) {
      var k :| 0 <= k < |cs| && TakesMaximum(cs[k].0);
      assert cs[k] in cs';
    }
  }

  lemma SamePairsSameParsed(options: seq<RsOption>, specs: seq<Threshold>, options': seq<RsOption>,
                            specs': seq<Threshold>)
    requires |specs| == |options| && |specs'| == |options'|
    requires forall p :: p in Pairs(options, specs) <==> p in Pairs(options', specs')
    ensures SameParsed(ResolveAll(options, specs), ResolveAll(options', specs'))
  {
    if ResolveAll(options', specs').Ok? {
      PairsResolve(options, specs, options', specs');
    }
    if ResolveAll(options, specs).Ok? {
      PairsResolve(options', specs', options, specs);
    }
  }

  ghost predicate NoRepeats<U>(xs: seq<U>) {
    forall i, j :: 0 <= i < j < |xs| ==> xs[i] != xs[j]
  }

  lemma {:induction false} DistinctAlready<U>(xs: seq<U>)
    requires NoRepeats(xs)
    ensures Distinct(xs) == xs
  {
    if |xs| > 0 {
      var n := |xs| - 1;
      DistinctAlready(xs[..n]);
      assert xs[n] !in xs[..n];
      assert xs == xs[..n] + [xs[n]];
    }
  }

  /** Main result on the configured lists: permuting the options together with their
      thresholds gives the same mask. */
  lemma PermutedOptions(e: real -> real, l: real -> real, options: seq<RsOption>, specs: seq<Threshold>,
                        perm: seq<nat>, logRatio: seq<seq<real>>, mask: seq<seq<bool>>, a: seq<seq<bool>>,
                        b: seq<seq<bool>>)
    requires SameShape(logRatio, mask) && NoRepeats(options) && |options| == |specs|
    requires IsPermutation(perm, |options|) && InRange(perm, |options|)
    ensures SameMask(e, l, options, specs, Gather(options, perm), Gather(specs, perm), logRatio, mask, a, b)
  {
    var options', specs' := Gather(options, perm), Gather(specs, perm);
    PermutationInRange(perm, |options|);
    PermutationOnce(perm, |options|);
    DistinctAlready(options);
    DistinctAlready(options');
    PermutedPairs(options, specs, perm);
    assert Spread(options, specs) == specs && Spread(options', specs') == specs';
    SamePairsSameParsed(options, specs, options', specs');
    SameParsedSameMask(e, l, options, specs, options', specs', logRatio, mask, a, b);
  }

  lemma PermutedPairs(options: seq<RsOption>, specs: seq<Threshold>, perm: seq<nat>)
    requires |options| == |specs| && IsPermutation(perm, |options|) && InRange(perm, |options|)
    ensures forall p :: p in Pairs(options, specs) <==> p in Pairs(Gather(options, perm), Gather(specs, perm))
  {
    var all, moved := Pairs(options, specs), Pairs(Gather(options, perm), Gather(specs, perm));
    assert moved == Gather(all, perm);
    PermutedMultiset(all, perm);
    assert forall p :: p in all <==> p in multiset(all);
    assert forall p :: p in moved <==> p in multiset(moved);
  }

  lemma PermutationOnce(perm: seq<nat>, n: nat)
    requires IsPermutation(perm, n)
    ensures NoRepeats(perm)
  {
    forall i, j | 0 <= i < j < |perm| ensures perm[i] != perm[j] {
      if perm[i] == perm[j] {
        assert perm == perm[..i] + [perm[i]] + perm[i + 1..j] + [perm[j]] + perm[j + 1..];
        IotaOnce(n, perm[i]);
        assert false;
      }
    }
  }

  lemma {:induction false} IotaOnce(n: nat, x: nat)
    ensures multiset(Iota(n))[x] <= 1 && (x >= n ==> multiset(Iota(n))[x] == 0)
  {
    if n > 0 {
      IotaOnce(n - 1, x);
      IotaSnoc(n);
    }
  }

  /** With one threshold for all, any list of the same options gives the same mask. */
  lemma SharedThreshold(e: real -> real, l: real -> real, options: seq<RsOption>, options': seq<RsOption>,
                        spec: Threshold, logRatio: seq<seq<real>>, mask: seq<seq<bool>>, a: seq<seq<bool>>,
                        b: seq<seq<bool>>)
    requires SameShape(logRatio, mask) && forall o :: o in options <==> o in options'
    ensures SameMask(e, l, options, [spec], options', [spec], logRatio, mask, a, b)
  {
    var d, d' := Distinct(options), Distinct(options');
    SharedPairs(options, options', spec);
    SamePairsSameParsed(d, Spread(d, [spec]), d', Spread(d', [spec]));
    assert options == [] <==> options' == [] by {
      if options != [] {
        assert options[0] in options';
      }
      if options' != [] {
        assert options'[0] in options;
      }
    }
    SameParsedSameMask(e, l, options, [spec], options', [spec], logRatio, mask, a, b);
  }

  lemma SharedPairs(options: seq<RsOption>, options': seq<RsOption>, spec: Threshold)
    requires forall o :: o in options <==> o in options'
    ensures forall p :: p in Pairs(Distinct(options), Spread(Distinct(options), [spec]))
                        <==> p in Pairs(Distinct(options'), Spread(Distinct(options'), [spec]))
  {
    forall o: RsOption ensures o in Distinct(options) <==> o in Distinct(options') {
      DistinctMembers(options, o);
      DistinctMembers(options', o);
    }
    SpreadPairs(Distinct(options), spec);
    SpreadPairs(Distinct(options'), spec);
  }

  lemma SpreadPairs(d: seq<RsOption>, spec: Threshold)
    ensures forall p :: p in Pairs(d, Spread(d, [spec])) <==> p.0 in d && p.1 == spec
  {
    var pairs := Pairs(d, Spread(d, [spec]));
    forall p: Pair | p.0 in d && p.1 == spec ensures p in pairs {
      var i :| 0 <= i < |d| && d[i] == p.0;
      assert pairs[i] == p;
    }
  }

  lemma SameCriteria(e: real -> real, l: real -> real, cs: seq<Criterion>, cs': seq<Criterion>, row: seq<real>,
                     mask: seq<bool>, t: nat)
    requires AllWellFormed(cs) && AllWellFormed(cs') && |row| == |mask| && t < |row|
    requires forall c :: c in cs' ==> c in cs
    requires AllKeep(e, l, cs, |cs|, row, mask, t)
    ensures AllKeep(e, l, cs', |cs'|, row, mask, t)
  {
    forall i | 0 <= i < |cs'| ensures Keeps(e, l, cs'[i], row, mask, t) {
      assert cs'[i] in cs;
    }
  }

  /** The combined mask is the intersection of what each criterion gives alone; no token is
      ever added. */
  lemma CombinedIsIntersection(e: real -> real, l: real -> real, cs: seq<Criterion>, logRatio: seq<seq<real>>,
                               mask: seq<seq<bool>>, result: seq<seq<bool>>, alone: seq<seq<seq<bool>>>, i: nat, t: nat)
    requires AllWellFormed(cs) && SameShape(logRatio, mask) && IsIntersection(e, l, cs, logRatio, mask, result)
    requires |alone| == |cs| > 0
    requires forall n :: 0 <= n < |cs| ==> IsIntersection(e, l, [cs[n]], logRatio, mask, alone[n])
    requires i < |mask| && t < |mask[i]|
    ensures forall n :: 0 <= n < |cs| ==> |alone[n]| == |mask| && |alone[n][i]| == |mask[i]|
    ensures result[i][t] <==> forall n :: 0 <= n < |cs| ==> alone[n][i][t]
    ensures result[i][t] ==> mask[i][t]
  {
    forall n | 0 <= n < |cs|
      ensures alone[n][i][t] <==> mask[i][t] && Keeps(e, l, cs[n], logRatio[i], mask[i], t)
    {
      assert [cs[n]][0] == cs[n];
      assert AllKeep(e, l, [cs[n]], 1, logRatio[i], mask[i], t) <==> Keeps(e, l, [cs[n]][0], logRatio[i], mask[i], t);
    }
    if forall n :: 0 <= n < |cs| ==> alone[n][i][t] {
      assert alone[0][i][t];
    }
  }

  /** Sequence-level criteria keep a row as it is or drop it whole. */
  lemma SequencesStayWhole(e: real -> real, l: real -> real, cs: seq<Criterion>, logRatio: seq<seq<real>>,
                           mask: seq<seq<bool>>, result: seq<seq<bool>>, i: nat)
    requires AllWellFormed(cs) && SameShape(logRatio, mask) && IsIntersection(e, l, cs, logRatio, mask, result)
    requires i < |mask| && forall n :: 0 <= n < |cs| ==> SequenceLevel(cs[n].0)
    ensures result[i] == mask[i] || forall t :: 0 <= t < |result[i]| ==> !result[i][t]
  {
    forall s, t | 0 <= s < |mask[i]| && 0 <= t < |mask[i]|
      ensures AllKeep(e, l, cs, |cs|, logRatio[i], mask[i], s) ==> AllKeep(e, l, cs, |cs|, logRatio[i], mask[i], t)
    {
      if AllKeep(e, l, cs, |cs|, logRatio[i], mask[i], s) {
        forall n | 0 <= n < |cs| ensures Keeps(e, l, cs[n], logRatio[i], mask[i], t) {
          assert Keeps(e, l, cs[n], logRatio[i], mask[i], s);
          assert Statistic(e, cs[n].0, logRatio[i], mask[i], s) == Statistic(e, cs[n].0, logRatio[i], mask[i], t);
        }
      }
    }
    if t :| 0 <= t < |mask[i]| && AllKeep(e, l, cs, |cs|, logRatio[i], mask[i], t) {
      assert forall s :: 0 <= s < |mask[i]| ==> AllKeep(e, l, cs, |cs|, logRatio[i], mask[i], s);
      assert result[i] == mask[i];
    }
  }

  // ---------------------------------------------------------------------
  // Importance weights
  // ---------------------------------------------------------------------

  datatype Level = TokenLevel | SequenceSum | SequenceMean

  function CountMarked(mask: seq<bool>): nat {
    if |mask| == 0 then 0 else CountMarked(mask[..|mask| - 1]) + if mask[|mask| - 1] then 1 else 0
  }

  /** The log-ratio a position's weight is made from. */
  function LevelRatio(level: Level, row: seq<real>, mask: seq<bool>, t: nat): real
    requires |row| == |mask| && t < |row|
  {
    match level
    case TokenLevel => row[t]
    case SequenceSum => RealSum(Marked(row, mask))
    case SequenceMean => RealSum(Marked(row, mask)) / if CountMarked(mask) < 1 then 1.0 else CountMarked(mask) as real
  }

  function RawWeight(e: real -> real, level: Level, row: seq<real>, mask: seq<bool>, t: nat): real
    requires |row| == |mask| && t < |row|
  {
    if mask[t] then e(Bounded(LevelRatio(level, row, mask, t))) else 0.0
  }

  /** With one bound weights are cut at it, with two those outside are set to zero. */
  function Truncate(th: Threshold, w: real): real {
    if th.lower.None? then if w > th.upper then th.upper else w
    else if th.lower.value <= w <= th.upper then w else 0.0
  }

  predicate ValidIsThreshold(th: Threshold) {
    th.upper > 0.0 && (th.lower.Some? ==> 0.0 < th.lower.value <= th.upper)
  }

  function Weights(e: real -> real, level: Level, th: Threshold, logRatio: seq<seq<real>>, mask: seq<seq<bool>>)
      : seq<seq<real>>
    requires SameShape(logRatio, mask)
  {
    seq(|mask|, i requires 0 <= i < |mask| =>
      seq(|mask[i]|, t requires 0 <= t < |mask[i]| => Truncate(th, RawWeight(e, level, logRatio[i], mask[i], t))))
  }

  function MarkedRows(ws: seq<seq<real>>, mask: seq<seq<bool>>): seq<seq<real>>
    requires SameShape(ws, mask)
  {
    seq(|ws|, i requires 0 <= i < |ws| => Marked(ws[i], mask[i]))
  }

  /** All weights at marked positions, row after row. */
  function MarkedAll(ws: seq<seq<real>>, mask: seq<seq<bool>>): seq<real>
    requires SameShape(ws, mask)
  {
    Flatten(MarkedRows(ws, mask))
  }

  function ScaleList(vs: seq<real>, div: real): seq<real>
    requires div != 0.0
  {
    seq(|vs|, i requires 0 <= i < |vs| => Quotient(vs[i], div))
  }

  function ScaleGrid(ws: seq<seq<real>>, div: real): seq<seq<real>>
    requires div != 0.0
  {
    seq(|ws|, i requires 0 <= i < |ws| => ScaleList(ws[i], div))
  }

  /** The mean over sequences of each one's mean weight; sequences without a response do not
      count. */
  function SequenceMeans(ws: seq<seq<real>>, mask: seq<seq<bool>>): seq<real>
    requires SameShape(ws, mask)
  {
    if |ws| == 0 then []
    else
      var n := |ws| - 1;
      var marked := Marked(ws[n], mask[n]);
      SequenceMeans(ws[..n], mask[..n]) + if |marked| > 0 then [SafeMean(marked)] else []
  }

  function BatchMean(level: Level, ws: seq<seq<real>>, mask: seq<seq<bool>>): real
    requires SameShape(ws, mask)
  {
    if level == TokenLevel then SafeMean(MarkedAll(ws, mask)) else SafeMean(SequenceMeans(ws, mask))
  }

  /** Batch normalisation: division by the mean weight, unless it is about zero. */
  function Normalize(level: Level, ws: seq<seq<real>>, mask: seq<seq<bool>>): seq<seq<real>>
    requires SameShape(ws, mask)
  {
    var mean := BatchMean(level, ws, mask);
    if mean > EPSILON then ScaleGrid(ws, mean) else ws
  }

  lemma QuotientAdds(x: real, y: real, div: real)
    requires div != 0.0
    ensures Quotient(x + y, div) == Quotient(x, div) + Quotient(y, div)
  {
  }

  lemma {:induction false} SumScaled(vs: seq<real>, div: real)
    requires div != 0.0
    ensures RealSum(ScaleList(vs, div)) == Quotient(RealSum(vs), div)
  {
    if |vs| == 0 {
      assert Quotient(0.0, div) == 0.0;
    } else {
      SumScaled(vs[1..], div);
      assert ScaleList(vs, div)[1..] == ScaleList(vs[1..], div);
      QuotientAdds(vs[0], RealSum(vs[1..]), div);
    }
  }

  lemma {:induction false} MarkedScaled(row: seq<real>, mask: seq<bool>, div: real)
    requires |row| == |mask| && div != 0.0
    ensures Marked(ScaleList(row, div), mask) == ScaleList(Marked(row, mask), div)
  {
    if |row| > 0 {
      var n := |row| - 1;
      MarkedScaled(row[..n], mask[..n], div);
      assert ScaleList(row, div)[..n] == ScaleList(row[..n], div);
    }
  }

  lemma {:induction false} FlattenScaled(rows: seq<seq<real>>, div: real)
    requires div != 0.0
    ensures Flatten(ScaleGrid(rows, div)) == ScaleList(Flatten(rows), div)
  {
    if |rows| > 0 {
      FlattenScaled(rows[1..], div);
      assert ScaleGrid(rows, div)[1..] == ScaleGrid(rows[1..], div);
    }
  }

  lemma MarkedAllScaled(ws: seq<seq<real>>, mask: seq<seq<bool>>, div: real)
    requires SameShape(ws, mask) && div != 0.0
    ensures SameShape(ScaleGrid(ws, div), mask)
    ensures MarkedAll(ScaleGrid(ws, div), mask) == ScaleList(MarkedAll(ws, mask), div)
  {
    forall i | 0 <= i < |ws| ensures Marked(ScaleGrid(ws, div)[i], mask[i]) == ScaleList(Marked(ws[i], mask[i]), div) {
      MarkedScaled(ws[i], mask[i], div);
    }
    assert MarkedRows(ScaleGrid(ws, div), mask) == ScaleGrid(MarkedRows(ws, mask), div);
    FlattenScaled(MarkedRows(ws, mask), div);
  }

  lemma SafeMeanScaled(vs: seq<real>, div: real)
    requires div != 0.0
    ensures SafeMean(ScaleList(vs, div)) == Quotient(SafeMean(vs), div)
  {
    SumScaled(vs, div);
    var n := if |vs| as real < EPSILON then EPSILON else |vs| as real;
    QuotientsCommute(RealSum(vs), div, n);
  }

  lemma QuotientsCommute(x: real, a: real, b: real)
    requires a != 0.0 && b != 0.0
    ensures Quotient(x, a) / b == Quotient(x / b, a)
  {
    assert x / a / b == x / b / a;
  }

  lemma {:induction false} SequenceMeansScaled(ws: seq<seq<real>>, mask: seq<seq<bool>>, div: real)
    requires SameShape(ws, mask) && div != 0.0
    ensures SameShape(ScaleGrid(ws, div), mask)
    ensures SequenceMeans(ScaleGrid(ws, div), mask) == ScaleList(SequenceMeans(ws, mask), div)
  {
    if |ws| > 0 {
      var n := |ws| - 1;
      SequenceMeansScaled(ws[..n], mask[..n], div);
      assert ScaleGrid(ws, div)[..n] == ScaleGrid(ws[..n], div);
      MarkedScaled(ws[n], mask[n], div);
      SafeMeanScaled(Marked(ws[n], mask[n]), div);
    }
  }

  lemma SelfQuotient(x: real)
    requires x != 0.0
    ensures Quotient(x, x) == 1.0
  {
  }

  /** Main result: normalised weights have mean exactly one if and only if the mean they had
      is above the cutoff. */
  lemma NormalizedMeanIsOne(level: Level, ws: seq<seq<real>>, mask: seq<seq<bool>>)
    requires SameShape(ws, mask)
    ensures SameShape(Normalize(level, ws, mask), mask)
    ensures BatchMean(level, Normalize(level, ws, mask), mask) == 1.0 <==> BatchMean(level, ws, mask) > EPSILON
  {
    var mean := BatchMean(level, ws, mask);
    if mean > EPSILON {
      MarkedAllScaled(ws, mask, mean);
      SequenceMeansScaled(ws, mask, mean);
      SafeMeanScaled(MarkedAll(ws, mask), mean);
      SafeMeanScaled(SequenceMeans(ws, mask), mean);
      SelfQuotient(mean);
    }
  }

  // ---------------------------------------------------------------------
  // Effective sample size
  // ---------------------------------------------------------------------

  function ClampWeight(w: real, upper: real): real {
    if w < 0.0 then 0.0 else if w > upper then upper else w
  }

  function ClampedAll(ws: seq<real>, upper: real): seq<real> {
    seq(|ws|, i requires 0 <= i < |ws| => ClampWeight(ws[i], upper))
  }

  /** The reciprocal of the mean square of the weights, each divided by their mean plus a
      small constant. */
  function EffectiveSampleSize(ws: seq<real>, upper: real): Result<real>
    requires upper > 0.0
  {
    var vs := ClampedAll(ws, upper);
    SafeMeanNonNegative(vs);
    var spread := SafeMean(Squares(ScaleList(vs, SafeMean(vs) + EPSILON)));
    if spread == 0.0 then Err(ZeroDivisionError) else Ok(1.0 / spread)
  }

  lemma MeanOfEqual(vs: seq<real>, v: real)
    requires |vs| > 0 && forall i :: 0 <= i < |vs| ==> vs[i] == v
    ensures SafeMean(vs) == v
  {
    ConstantSum(vs, v);
    TimesIsProduct(|vs|, v);
    QuotientOfProduct(|vs| as real, v);
  }

  /** Of equal weights, however many, the effective sample size is the square of one plus the constant
      over the weight, or over the bound if the weights are above it. */
  lemma SampleSizeOfEqual(ws: seq<real>, upper: real, w: real)
    requires |ws| > 0 && 0.0 < w && 0.0 < upper && forall i :: 0 <= i < |ws| ==> ws[i] == w
    ensures var v := if w <= upper then w else upper;
            EffectiveSampleSize(ws, upper) == Ok(Square(Quotient(v + EPSILON, v)))
  {
    var v := if w <= upper then w else upper;
    var vs, div := ClampedAll(ws, upper), v + EPSILON;
    MeanOfEqual(vs, v);
    var squares := Squares(ScaleList(vs, div));
    MeanOfEqual(squares, Square(Quotient(v, div)));
    ReciprocalSquare(v, div);
  }

  lemma ReciprocalSquare(x: real, y: real)
    requires x > 0.0 && y > 0.0
    ensures Square(Quotient(x, y)) > 0.0 && 1.0 / Square(Quotient(x, y)) == Square(Quotient(y, x))
  {
    var a, b := x / y, y / x;
    assert a > 0.0 && a * b == 1.0;
    assert (a * a) * (b * b) == (a * b) * (a * b);
    ReciprocalIs(a * a, b * b);
  }

  lemma ReciprocalIs(a: real, b: real)
    requires a > 0.0 && a * b == 1.0
    ensures 1.0 / a == b
  {
  }

  lemma {:induction false} SequenceMeansOfEqual(ws: seq<seq<real>>, mask: seq<seq<bool>>, v: real)
    requires SameShape(ws, mask)
    requires forall i, t :: 0 <= i < |ws| && 0 <= t < |ws[i]| && mask[i][t] ==> ws[i][t] == v
    ensures forall k :: 0 <= k < |SequenceMeans(ws, mask)| ==> SequenceMeans(ws, mask)[k] == v
    ensures (exists i, t :: 0 <= i < |ws| && 0 <= t < |ws[i]| && mask[i][t]) ==> |SequenceMeans(ws, mask)| > 0
  {
    if |ws| > 0 {
      var n := |ws| - 1;
      SequenceMeansOfEqual(ws[..n], mask[..n], v);
      var marked := Marked(ws[n], mask[n]);
      forall k | 0 <= k < |marked| ensures marked[k] == v {
        MarkedMember(ws[n], mask[n], marked[k]);
      }
      if |marked| > 0 {
        MeanOfEqual(marked, v);
      }
      if i, t :| 0 <= i < |ws| && 0 <= t < |ws[i]| && mask[i][t] {
        if i == n {
          MarkedMember(ws[n], mask[n], ws[n][t]);
        } else {
          assert ws[..n][i] == ws[i] && mask[..n][i] == mask[i];
        }
      }
    }
  }

  /** If all marked weights are `v`, that is the mean normalisation divides by, at every level. */
  lemma MeanOfEqualWeights(level: Level, ws: seq<seq<real>>, mask: seq<seq<bool>>, v: real)
    requires SameShape(ws, mask)
    requires forall i, t :: 0 <= i < |ws| && 0 <= t < |ws[i]| && mask[i][t] ==> ws[i][t] == v
    requires exists i, t :: 0 <= i < |ws| && 0 <= t < |ws[i]| && mask[i][t]
    ensures BatchMean(level, ws, mask) == v
  {
    SequenceMeansOfEqual(ws, mask, v);
    var i, t :| 0 <= i < |ws| && 0 <= t < |ws[i]| && mask[i][t];
    MarkedAllMember(ws, mask, ws[i][t]);
    forall k | 0 <= k < |MarkedAll(ws, mask)| ensures MarkedAll(ws, mask)[k] == v {
      MarkedAllMember(ws, mask, MarkedAll(ws, mask)[k]);
    }
    if level == TokenLevel {
      MeanOfEqual(MarkedAll(ws, mask), v);
    } else {
      MeanOfEqual(SequenceMeans(ws, mask), v);
    }
  }

  lemma {:induction false} SumNonNegative(vs: seq<real>)
    requires forall i :: 0 <= i < |vs| ==> vs[i] >= 0.0
    ensures RealSum(vs) >= 0.0
    ensures RealSum(vs) > 0.0 <==> exists i :: 0 <= i < |vs| && vs[i] > 0.0
  {
    if |vs| > 0 {
      SumNonNegative(vs[1..]);
      if i :| 0 <= i < |vs| && vs[i] > 0.0 && i > 0 {
        assert vs[1..][i - 1] > 0.0;
      }
      if i :| 0 <= i < |vs[1..]| && vs[1..][i] > 0.0 {
        assert vs[i + 1] > 0.0;
      }
    }
  }

  lemma QuotientSign(x: real, y: real)
    requires y > 0.0
    ensures x >= 0.0 ==> Quotient(x, y) >= 0.0
    ensures Quotient(x, y) == 0.0 <==> x == 0.0
    ensures Quotient(x, y) > 0.0 <==> x > 0.0
  {
  }

  lemma SafeMeanNonNegative(vs: seq<real>)
    requires forall i :: 0 <= i < |vs| ==> vs[i] >= 0.0
    ensures SafeMean(vs) >= 0.0
    ensures SafeMean(vs) > 0.0 <==> exists i :: 0 <= i < |vs| && vs[i] > 0.0
  {
    SumNonNegative(vs);
    var n := if |vs| as real < EPSILON then EPSILON else |vs| as real;
    QuotientSign(RealSum(vs), n);
    assert SafeMean(vs) == Quotient(RealSum(vs), n);
  }

  lemma NormalizedSquares(vs: seq<real>, div: real)
    requires div > 0.0
    ensures var qs := Squares(ScaleList(vs, div));
            && SafeMean(qs) >= 0.0
            && (SafeMean(qs) > 0.0 <==> exists i :: 0 <= i < |vs| && vs[i] != 0.0)
  {
    var qs := Squares(ScaleList(vs, div));
    forall i | 0 <= i < |vs| ensures qs[i] >= 0.0 && (qs[i] > 0.0 <==> vs[i] != 0.0) {
      SquareSign(ScaleList(vs, div)[i]);
      QuotientSign(vs[i], div);
    }
    SafeMeanNonNegative(qs);
  }

  /** The computation divides by zero exactly when no marked weight is positive. */
  lemma SampleSizeFailsIff(ws: seq<real>, upper: real)
    requires upper > 0.0
    ensures EffectiveSampleSize(ws, upper).Err? <==> forall i :: 0 <= i < |ws| ==> ws[i] <= 0.0
  {
    var vs := ClampedAll(ws, upper);
    SafeMeanNonNegative(vs);
    NormalizedSquares(vs, SafeMean(vs) + EPSILON);
    forall i | 0 <= i < |ws| ensures vs[i] != 0.0 <==> ws[i] > 0.0 {
    }
  }

  lemma SquareOfQuotient(x: real, y: real)
    requires x > 0.0 && y > 0.0
    ensures Square(Quotient(x, y)) > 0.0 && Square(Quotient(y, x)) == 1.0 / Square(Quotient(x, y))
  {
    var q, p := Quotient(x, y), Quotient(y, x);
    assert q * p == 1.0 by {
      assert x / y * (y / x) == 1.0;
    }
    ProductPositive(q, q);
    assert (q * q) * (p * p) == 1.0 by {
      assert (q * q) * (p * p) == (q * p) * (q * p);
    }
    Reciprocal(Square(q), Square(p));
  }

  lemma Reciprocal(a: real, b: real)
    requires a > 0.0 && a * b == 1.0
    ensures b == 1.0 / a
  {
  }

  lemma ReciprocalMonotone(a: real, b: real)
    requires 0.0 < a <= b
    ensures 1.0 / b <= 1.0 / a
  {
  }

  /** Main result: the effective sample size is at most the square of one plus the constant
      over the mean weight, whatever the weights. */
  lemma SampleSizeBound(ws: seq<real>, upper: real)
    requires upper > 0.0 && EffectiveSampleSize(ws, upper).Ok?
    ensures var m := SafeMean(ClampedAll(ws, upper));
            m > 0.0 && EffectiveSampleSize(ws, upper).value <= Square(Quotient(m + EPSILON, m))
  {
    var vs := ClampedAll(ws, upper);
    var m := SafeMean(vs);
    SampleSizeFailsIff(ws, upper);
    var i :| 0 <= i < |ws| && ws[i] > 0.0;
    assert vs[i] > 0.0;
    SafeMeanNonNegative(vs);
    var scaled := ScaleList(vs, m + EPSILON);
    SafeMeanScaled(vs, m + EPSILON);
    SafeMeanIsMean(scaled);
    SafeMeanIsMean(Squares(scaled));
    SquaresAboveMean(scaled);
    MeanAbove(Squares(scaled), Square(Quotient(m, m + EPSILON)));
    SquareOfQuotient(m, m + EPSILON);
    ReciprocalMonotone(Square(Quotient(m, m + EPSILON)), SafeMean(Squares(scaled)));
  }

  lemma SafeMeanIsMean(vs: seq<real>)
    requires |vs| > 0
    ensures SafeMean(vs) == Mean(vs)
  {
    assert |vs| as real >= 1.0;
  }

  lemma MeanAbove(vs: seq<real>, c: real)
    requires |vs| > 0 && RealSum(vs) >= Times(|vs|, c)
    ensures Mean(vs) >= c
  {
    TimesIsProduct(|vs|, c);
    QuotientMonotone(RealSum(vs), |vs| as real, c);
  }

  lemma QuotientMonotone(x: real, n: real, c: real)
    requires n > 0.0 && x >= Product(n, c)
    ensures x / n >= c
  {
    assert x / n >= n * c / n;
    assert n * c / n == c;
  }

  /** Weights are zero off the mask; on it they are positive and at most the bound, or, with
      two bounds, between them or zero. */
  lemma WeightRange(e: real -> real, level: Level, th: Threshold, logRatio: seq<seq<real>>, mask: seq<seq<bool>>,
                    i: nat, t: nat)
    requires SameShape(logRatio, mask) && ValidIsThreshold(th) && Positive(e)
    requires i < |mask| && t < |mask[i]|
    ensures var w := Weights(e, level, th, logRatio, mask)[i][t];
            && 0.0 <= w <= th.upper
            && (!mask[i][t] ==> w == 0.0)
            && (mask[i][t] && th.lower.None? ==> w > 0.0)
            && (w > 0.0 && th.lower.Some? ==> th.lower.value <= w)
  {
  }

  // ---------------------------------------------------------------------
  // The batch
  // ---------------------------------------------------------------------

  /** The columns involved, each with a width of its own. */
  class CorrectionBatch {
    var oldLogProbs: seq<seq<real>>
    var rolloutLogProbs: Option<seq<seq<real>>>
    var fp8LogProbs: Option<seq<seq<real>>>
    var responseMask: Option<seq<seq<bool>>>
    var attentionMask: Option<seq<seq<bool>>>
    var isWeights: Option<seq<seq<real>>>
    const rows: nat

    constructor (rows: nat, oldLogProbs: seq<seq<real>>, rollout: Option<seq<seq<real>>>, fp8: Option<seq<seq<real>>>,
                 response: Option<seq<seq<bool>>>, attention: Option<seq<seq<bool>>>)
      ensures this.rows == rows && this.oldLogProbs == oldLogProbs && rolloutLogProbs == rollout
      ensures fp8LogProbs == fp8 && responseMask == response && attentionMask == attention && isWeights == None
    {
      this.rows, this.oldLogProbs, rolloutLogProbs, fp8LogProbs := rows, oldLogProbs, rollout, fp8;
      responseMask, attentionMask, isWeights := response, attention, None;
    }

    function Reported(): Option<seq<seq<real>>>
      reads this
    {
      if rolloutLogProbs.Some? then rolloutLogProbs else fp8LogProbs
    }

    function Mask(): Option<seq<seq<bool>>>
      reads this
    {
      if responseMask.Some? then responseMask else attentionMask
    }

    ghost predicate Valid()
      reads this
    {
      && IsGrid(oldLogProbs, rows)
      && (Reported().Some? ==> IsGrid(Reported().value, rows))
      && (Mask().Some? ==> IsGrid(Mask().value, rows))
    }

    /** Cuts the three columns to their common width, and puts the trainer's own log-prob
        where the rollout reported exactly zero inside the mask. */
    method CleanBatchLogprobs() returns (r: Result<Narrow>)
      requires Valid()
      modifies this`rolloutLogProbs
      ensures Valid()
      ensures r.Err? <==> || (old(rolloutLogProbs).None? && fp8LogProbs.None?)
                          || (responseMask.None? && attentionMask.None?)
      ensures r.Err? ==> r.error == KeyError && rolloutLogProbs == old(rolloutLogProbs)
      ensures r.Ok? ==> r.value == Narrowed(oldLogProbs, old(Reported()).value, Mask().value, rows)
      ensures r.Ok? ==> Reported() == Some(Spliced(old(Reported()).value, r.value.rollout))
      ensures old(rolloutLogProbs).Some? ==> Reported() == rolloutLogProbs && rolloutLogProbs.Some?
      ensures old(rolloutLogProbs).None? && r.Ok? ==> old(Reported()) == fp8LogProbs
    {
      if Reported().None? || Mask().None? {
        return Err(KeyError);
      }
      var rollout, mask := Reported().value, Mask().value;
      var width := CommonWidth(oldLogProbs, rollout, mask);
      var own, reported, marked := Cut(oldLogProbs, width), Cut(rollout, width), Cut(mask, width);
      var clean := reported;
      if AnyUnreported(reported, marked) {
        clean := Substituted(reported, own, marked);
        rolloutLogProbs := Some(Spliced(rollout, clean));
      } else {
        NothingToSubstitute(reported, own, marked);
        SpliceBack(rollout, width);
      }
      r := Ok(Narrow(own, clean, marked, width));
    }

    /** Reads the columns, computes weights and the new mask, and stores both; mask columns
        past the common width stay as they are. */
    method Correct(e: real -> real, l: real -> real, s: Switches) returns (r: Result<Outcome>)
      requires Valid()
      modifies this`rolloutLogProbs, this`responseMask, this`attentionMask, this`isWeights
      ensures r.Ok? ==> old(Reported()).Some? && old(Mask()).Some?
                        && r.value.narrow == Narrowed(oldLogProbs, old(Reported()).value, old(Mask()).value, rows)
                        && IsOutcome(e, l, s, r.value)
      ensures r.Ok? ==> Mask() == Some(Spliced(old(Mask()).value, r.value.mask))
      ensures r.Ok? ==> isWeights == if r.value.weights.Some? then r.value.weights else old(isWeights)
      ensures r.Err? ==> Mask() == old(Mask()) && isWeights == old(isWeights)
      ensures old(responseMask).Some? ==> Mask() == responseMask && attentionMask == old(attentionMask)
      ensures old(responseMask).None? ==> Mask() == attentionMask && responseMask.None?
    {
      var narrow :- CleanBatchLogprobs();
      var outcome :- Compute(e, l, s, narrow);
      if responseMask.Some? {
        responseMask := Some(Spliced(responseMask.value, outcome.mask));
      } else {
        attentionMask := Some(Spliced(attentionMask.value, outcome.mask));
      }
      if outcome.weights.Some? {
        isWeights := outcome.weights;
      }
      r := Ok(outcome);
    }
  }

  /** What is switched on. Without a level there are no weights, without options no mask. */
  datatype Switches = Switches(
    level: Option<Level>, bound: Threshold, normalize: bool, options: seq<RsOption>, specs: seq<Threshold>)

  datatype Outcome = Outcome(narrow: Narrow, weights: Option<seq<seq<real>>>, mask: seq<seq<bool>>)

  ghost predicate IsOutcome(e: real -> real, l: real -> real, s: Switches, o: Outcome) {
    && SameShape(o.narrow.own, o.narrow.rollout) && SameShape(o.narrow.own, o.narrow.mask)
    && SameShape(o.narrow.mask, o.mask)
    && o.weights == (if s.level.None? then None else Some(
         var ws := Weights(e, s.level.value, s.bound, o.narrow.Ratio(), o.narrow.mask);
         if s.normalize then Normalize(s.level.value, ws, o.narrow.mask) else ws))
    && (s.options == [] ==> o.mask == o.narrow.mask)
    && (s.options != [] ==>
          var cs := Criteria(s.options, s.specs);
          cs.Ok? && AllWellFormed(cs.value) && IsIntersection(e, l, cs.value, o.narrow.Ratio(), o.narrow.mask, o.mask))
  }

  /** Some marked weight is positive. */
  ghost predicate AnyWeight(e: real -> real, s: Switches, narrow: Narrow)
    requires SameShape(narrow.own, narrow.rollout) && SameShape(narrow.own, narrow.mask) && s.level.Some?
  {
    var marked := MarkedAll(Weights(e, s.level.value, s.bound, narrow.Ratio(), narrow.mask), narrow.mask);
    exists i :: 0 <= i < |marked| && marked[i] > 0.0
  }

  /** The weight of position `t` of row `i` survives: it is marked and, with two bounds, its
      clamped ratio lies between them. */
  ghost predicate GivesWeight(e: real -> real, s: Switches, narrow: Narrow, i: nat, t: nat)
    requires SameShape(narrow.own, narrow.rollout) && SameShape(narrow.own, narrow.mask) && s.level.Some?
    requires i < |narrow.mask| && t < |narrow.mask[i]|
  {
    var ratio := e(Bounded(LevelRatio(s.level.value, narrow.Ratio()[i], narrow.mask[i], t)));
    narrow.mask[i][t] && (s.bound.lower.None? || s.bound.lower.value <= ratio <= s.bound.upper)
  }

  lemma {:induction false} MarkedMember(row: seq<real>, mask: seq<bool>, x: real)
    requires |row| == |mask|
    ensures x in Marked(row, mask) <==> exists t :: 0 <= t < |row| && mask[t] && row[t] == x
  {
    if |row| > 0 {
      MarkedMember(row[..|row| - 1], mask[..|row| - 1], x);
    }
  }

  lemma {:induction false} FlattenMember<T>(xss: seq<seq<T>>, x: T)
    ensures x in Flatten(xss) <==> exists i :: 0 <= i < |xss| && x in xss[i]
  {
    if |xss| > 0 {
      FlattenMember(xss[1..], x);
      assert forall i :: 0 < i < |xss| ==> xss[i] == xss[1..][i - 1];
    }
  }

  lemma MarkedAllMember(ws: seq<seq<real>>, mask: seq<seq<bool>>, x: real)
    requires SameShape(ws, mask)
    ensures x in MarkedAll(ws, mask) <==>
            exists i, t :: 0 <= i < |ws| && 0 <= t < |ws[i]| && mask[i][t] && ws[i][t] == x
  {
    FlattenMember(MarkedRows(ws, mask), x);
    forall i | 0 <= i < |ws|
      ensures x in MarkedRows(ws, mask)[i] <==> exists t :: 0 <= t < |ws[i]| && mask[i][t] && ws[i][t] == x
    {
      MarkedMember(ws[i], mask[i], x);
    }
  }

  /** Read off the inputs: some weight is positive exactly when, with one bound, some position is
      marked, and with two, some marked ratio lies between them. */
  lemma AnyWeightIff(e: real -> real, s: Switches, narrow: Narrow)
    requires SameShape(narrow.own, narrow.rollout) && SameShape(narrow.own, narrow.mask)
    requires s.level.Some? && ValidIsThreshold(s.bound) && Positive(e)
    ensures AnyWeight(e, s, narrow) <==>
            exists i, t :: 0 <= i < |narrow.mask| && 0 <= t < |narrow.mask[i]| && GivesWeight(e, s, narrow, i, t)
  {
    var ws, mask := Weights(e, s.level.value, s.bound, narrow.Ratio(), narrow.mask), narrow.mask;
    forall i, t | 0 <= i < |mask| && 0 <= t < |mask[i]|
      ensures mask[i][t] && ws[i][t] > 0.0 <==> GivesWeight(e, s, narrow, i, t)
    {
      WeightRange(e, s.level.value, s.bound, narrow.Ratio(), mask, i, t);
    }
    if k :| 0 <= k < |MarkedAll(ws, mask)| && MarkedAll(ws, mask)[k] > 0.0 {
      MarkedAllMember(ws, mask, MarkedAll(ws, mask)[k]);
    }
    if i, t :| 0 <= i < |mask| && 0 <= t < |mask[i]| && GivesWeight(e, s, narrow, i, t) {
      MarkedAllMember(ws, mask, ws[i][t]);
      assert ws[i][t] in MarkedAll(ws, mask);
    }
  }

  /** Weights and mask from the aligned columns. The diagnostics computed on the way need a
      maximum and a reciprocal: they fail on an empty batch and when no weight is positive. */
  method Compute(e: real -> real, l: real -> real, s: Switches, narrow: Narrow) returns (r: Result<Outcome>)
    requires SameShape(narrow.own, narrow.rollout) && SameShape(narrow.own, narrow.mask)
    ensures r.Ok? ==> r.value.narrow == narrow && IsOutcome(e, l, s, r.value)
    ensures r.Err? <==> || |narrow.mask| == 0
                        || (s.level.Some? && (!ValidIsThreshold(s.bound) || !AnyWeight(e, s, narrow)))
                        || (s.options != [] && RejectionFails(s.options, s.specs, narrow.mask))
  {
    var weights := None;
    if s.level.Some? {
      if !ValidIsThreshold(s.bound) {
        return Err(ValueError);
      }
      var ws := Weights(e, s.level.value, s.bound, narrow.Ratio(), narrow.mask);
      if |ws| == 0 || (s.level.value == TokenLevel && forall i :: 0 <= i < |ws| ==> |ws[i]| == 0) {
        NoCells(ws, narrow.mask);
        return Err(RuntimeError);
      }
      var marked := MarkedAll(ws, narrow.mask);
      SampleSizeFailsIff(marked, s.bound.upper);
      if EffectiveSampleSize(marked, s.bound.upper).Err? {
        return Err(ZeroDivisionError);
      }
      weights := Some(if s.normalize then Normalize(s.level.value, ws, narrow.mask) else ws);
    }
    var mask := narrow.mask;
    if s.options != [] {
      mask :- RejectionMask(e, l, narrow.Ratio(), narrow.mask, s.options, s.specs);
    }
    if |narrow.mask| == 0 {
      return Err(RuntimeError);
    }
    r := Ok(Outcome(narrow, weights, mask));
  }

  lemma {:induction false} NoCells(ws: seq<seq<real>>, mask: seq<seq<bool>>)
    requires SameShape(ws, mask) && forall i :: 0 <= i < |ws| ==> |ws[i]| == 0
    ensures MarkedAll(ws, mask) == []
  {
    if |ws| > 0 {
      NoCells(ws[1..], mask[1..]);
      assert MarkedRows(ws, mask)[1..] == MarkedRows(ws[1..], mask[1..]);
    }
  }

  // ---------------------------------------------------------------------
  // Weights turn rollout probabilities into the trainer's own
  // ---------------------------------------------------------------------

  /** The bounds leave the weight as it is. */
  predicate InBounds(th: Threshold, w: real) {
    w <= th.upper && (th.lower.Some? ==> th.lower.value <= w)
  }

  lemma QuotientOfExp(e: real -> real, x: real, y: real)
    requires Positive(e) && TurnsSumsIntoProducts(e)
    ensures e(y) > 0.0 && Quotient(e(x), e(y)) == e(x - y) && Product(e(x - y), e(y)) == e(x)
  {
    PositiveAt(e, y);
    assert Product(e(x - y), e(y)) == e(x - y + y);
    assert x - y + y == x;
    CancelFactor(e(x - y), e(y));
  }

  lemma CancelFactor(a: real, b: real)
    requires b > 0.0
    ensures Quotient(Product(a, b), b) == a
  {
  }

  lemma OneAtZero(e: real -> real)
    requires Positive(e) && TurnsSumsIntoProducts(e)
    ensures e(0.0) == 1.0
  {
    PositiveAt(e, 0.0);
    assert Product(e(0.0), e(0.0)) == e(0.0 + 0.0);
    OwnSquare(e(0.0));
  }

  lemma OwnSquare(a: real)
    requires a > 0.0 && Product(a, a) == a
    ensures a == 1.0
  {
    CancelFactor(a, a);
    CancelFactor(1.0, a);
    assert Product(1.0, a) == a;
  }

  /** Where bounds and safety limits do not interfere, a marked token's weight times its rollout
      probability is its probability under the trainer's own policy. */
  lemma TokenWeightIsRatio(e: real -> real, l: real -> real, s: Switches, o: Outcome, i: nat, t: nat)
    requires Positive(e) && TurnsSumsIntoProducts(e)
    requires IsOutcome(e, l, s, o) && s.level == Some(TokenLevel) && !s.normalize
    requires i < |o.narrow.mask| && t < |o.narrow.mask[i]| && o.narrow.mask[i][t]
    requires -20.0 <= o.narrow.own[i][t] - o.narrow.rollout[i][t] <= 20.0
    requires e(o.narrow.rollout[i][t]) != 0.0
    requires InBounds(s.bound, Quotient(e(o.narrow.own[i][t]), e(o.narrow.rollout[i][t])))
    ensures o.weights.Some? && i < |o.weights.value| && t < |o.weights.value[i]|
    ensures Product(o.weights.value[i][t], e(o.narrow.rollout[i][t])) == e(o.narrow.own[i][t])
  {
    QuotientOfExp(e, o.narrow.own[i][t], o.narrow.rollout[i][t]);
  }

  /** Past the bounds a token's weight is the upper one, or, with two, zero. */
  lemma TokenWeightOutOfBounds(e: real -> real, l: real -> real, s: Switches, o: Outcome, i: nat, t: nat)
    requires Positive(e) && TurnsSumsIntoProducts(e)
    requires IsOutcome(e, l, s, o) && s.level == Some(TokenLevel) && !s.normalize
    requires i < |o.narrow.mask| && t < |o.narrow.mask[i]| && o.narrow.mask[i][t]
    requires -20.0 <= o.narrow.own[i][t] - o.narrow.rollout[i][t] <= 20.0
    requires e(o.narrow.rollout[i][t]) != 0.0
    requires !InBounds(s.bound, Quotient(e(o.narrow.own[i][t]), e(o.narrow.rollout[i][t])))
    ensures o.weights.Some? && i < |o.weights.value| && t < |o.weights.value[i]|
    ensures o.weights.value[i][t] == if s.bound.lower.None? then s.bound.upper else 0.0
  {
    QuotientOfExp(e, o.narrow.own[i][t], o.narrow.rollout[i][t]);
  }

  /** The same in terms of the batch's own columns: an unreported log-prob is taken to be the
      trainer's. */
  lemma StoredWeightIsRatio(e: real -> real, l: real -> real, s: Switches, o: Outcome, own: seq<seq<real>>,
                            reported: seq<seq<real>>, mask: seq<seq<bool>>, rows: nat, i: nat, t: nat, used: real)
    requires Positive(e) && TurnsSumsIntoProducts(e)
    requires IsGrid(own, rows) && IsGrid(reported, rows) && IsGrid(mask, rows)
    requires o.narrow == Narrowed(own, reported, mask, rows) && IsOutcome(e, l, s, o)
    requires s.level == Some(TokenLevel) && !s.normalize
    requires i < rows && t < |own[i]| && t < |reported[i]| && t < |mask[i]| && mask[i][t]
    requires used == if reported[i][t] == 0.0 then own[i][t] else reported[i][t]
    requires -20.0 <= own[i][t] - used <= 20.0
    requires e(used) != 0.0 && InBounds(s.bound, Quotient(e(own[i][t]), e(used)))
    ensures o.weights.Some? && i < |o.weights.value| && t < |o.weights.value[i]|
    ensures Product(o.weights.value[i][t], e(used)) == e(own[i][t])
  {
    assert t < CommonWidth(own, reported, mask);
    assert o.narrow.own[i][t] == own[i][t] && o.narrow.mask[i][t] == mask[i][t] && o.narrow.rollout[i][t] == used;
    TokenWeightIsRatio(e, l, s, o, i, t);
  }

  /** The product of the probabilities at marked positions. */
  function MarkedProduct(e: real -> real, row: seq<real>, mask: seq<bool>): real
    requires |row| == |mask|
  {
    if |row| == 0 then 1.0
    else
      var n := |row| - 1;
      var before := MarkedProduct(e, row[..n], mask[..n]);
      if mask[n] then Product(before, e(row[n])) else before
  }

  /** The sum of the log-probs at marked positions. */
  function MarkedSum(row: seq<real>, mask: seq<bool>): real
    requires |row| == |mask|
  {
    if |row| == 0 then 0.0
    else
      var n := |row| - 1;
      MarkedSum(row[..n], mask[..n]) + if mask[n] then row[n] else 0.0
  }

  lemma {:induction false} ProductIsExpOfSum(e: real -> real, row: seq<real>, mask: seq<bool>)
    requires Positive(e) && TurnsSumsIntoProducts(e) && |row| == |mask|
    ensures MarkedProduct(e, row, mask) == e(MarkedSum(row, mask))
  {
    if |row| == 0 {
      OneAtZero(e);
    } else {
      var n := |row| - 1;
      ProductIsExpOfSum(e, row[..n], mask[..n]);
      assert Product(e(MarkedSum(row[..n], mask[..n])), e(row[n])) == e(MarkedSum(row[..n], mask[..n]) + row[n]);
    }
  }

  lemma {:induction false} SumOfMarked(row: seq<real>, mask: seq<bool>)
    requires |row| == |mask|
    ensures RealSum(Marked(row, mask)) == MarkedSum(row, mask)
    ensures CountMarked(mask) == |Marked(row, mask)|
  {
    if |row| > 0 {
      var n := |row| - 1;
      SumOfMarked(row[..n], mask[..n]);
      RealSumConcat(Marked(row[..n], mask[..n]), if mask[n] then [row[n]] else []);
    }
  }

  lemma {:induction false} SumOfDifferences(own: seq<real>, rollout: seq<real>, ratio: seq<real>, mask: seq<bool>)
    requires |own| == |rollout| == |ratio| == |mask|
    requires forall t :: 0 <= t < |own| ==> ratio[t] == own[t] - rollout[t]
    ensures MarkedSum(ratio, mask) == MarkedSum(own, mask) - MarkedSum(rollout, mask)
  {
    if |own| > 0 {
      var n := |own| - 1;
      SumOfDifferences(own[..n], rollout[..n], ratio[..n], mask[..n]);
    }
  }

  lemma {:induction false} PowIsExp(e: real -> real, x: real, n: nat)
    requires Positive(e) && TurnsSumsIntoProducts(e)
    ensures Pow(e(x), n) == e(Times(n, x))
  {
    if n == 0 {
      OneAtZero(e);
    } else {
      PowIsExp(e, x, n - 1);
      assert Product(e(x), e(Times(n - 1, x))) == e(x + Times(n - 1, x));
    }
  }

  /** What the sequence levels weigh: how much more likely the row's marked tokens are to the
      trainer than to the rollout, on the log scale. */
  function SequenceGap(n: Narrow, i: nat): real
    requires SameShape(n.own, n.rollout) && SameShape(n.own, n.mask) && i < |n.mask|
  {
    MarkedSum(n.own[i], n.mask[i]) - MarkedSum(n.rollout[i], n.mask[i])
  }

  lemma GapIsRatio(narrow: Narrow, i: nat)
    requires SameShape(narrow.own, narrow.rollout) && SameShape(narrow.own, narrow.mask) && i < |narrow.mask|
    ensures RealSum(Marked(narrow.Ratio()[i], narrow.mask[i])) == SequenceGap(narrow, i)
  {
    SumOfMarked(narrow.Ratio()[i], narrow.mask[i]);
    SumOfDifferences(narrow.own[i], narrow.rollout[i], narrow.Ratio()[i], narrow.mask[i]);
  }

  /** With sums over the sequence, the weight times the product of the rollout probabilities of the
      row's marked tokens is the product of the trainer's. */
  lemma SequenceWeightIsRatio(e: real -> real, l: real -> real, s: Switches, o: Outcome, i: nat, t: nat)
    requires Positive(e) && TurnsSumsIntoProducts(e)
    requires IsOutcome(e, l, s, o) && s.level == Some(SequenceSum) && !s.normalize
    requires i < |o.narrow.mask| && t < |o.narrow.mask[i]| && o.narrow.mask[i][t]
    requires -20.0 <= SequenceGap(o.narrow, i) <= 20.0 && InBounds(s.bound, e(SequenceGap(o.narrow, i)))
    ensures o.weights.Some? && i < |o.weights.value| && t < |o.weights.value[i]|
    ensures Product(o.weights.value[i][t], MarkedProduct(e, o.narrow.rollout[i], o.narrow.mask[i]))
         == MarkedProduct(e, o.narrow.own[i], o.narrow.mask[i])
  {
    var gap := SequenceGap(o.narrow, i);
    GapIsRatio(o.narrow, i);
    assert o.weights.value[i][t] == e(gap);
    GapBridges(e, o.narrow, i);
  }

  lemma GapBridges(e: real -> real, narrow: Narrow, i: nat)
    requires Positive(e) && TurnsSumsIntoProducts(e)
    requires SameShape(narrow.own, narrow.rollout) && SameShape(narrow.own, narrow.mask) && i < |narrow.mask|
    ensures Product(e(SequenceGap(narrow, i)), MarkedProduct(e, narrow.rollout[i], narrow.mask[i]))
         == MarkedProduct(e, narrow.own[i], narrow.mask[i])
  {
    ProductIsExpOfSum(e, narrow.rollout[i], narrow.mask[i]);
    ProductIsExpOfSum(e, narrow.own[i], narrow.mask[i]);
    QuotientOfExp(e, MarkedSum(narrow.own[i], narrow.mask[i]), MarkedSum(narrow.rollout[i], narrow.mask[i]));
  }

  /** With means, so is the weight taken once for each marked token. */
  lemma SequenceMeanWeightIsRatio(e: real -> real, l: real -> real, s: Switches, o: Outcome, i: nat, t: nat, n: nat)
    requires Positive(e) && TurnsSumsIntoProducts(e)
    requires IsOutcome(e, l, s, o) && s.level == Some(SequenceMean) && !s.normalize
    requires i < |o.narrow.mask| && t < |o.narrow.mask[i]| && o.narrow.mask[i][t]
    requires n == |Marked(o.narrow.own[i], o.narrow.mask[i])| && n > 0
    requires -20.0 <= SequenceGap(o.narrow, i) / n as real <= 20.0
    requires InBounds(s.bound, e(SequenceGap(o.narrow, i) / n as real))
    ensures o.weights.Some? && i < |o.weights.value| && t < |o.weights.value[i]|
    ensures Product(Pow(o.weights.value[i][t], n), MarkedProduct(e, o.narrow.rollout[i], o.narrow.mask[i]))
         == MarkedProduct(e, o.narrow.own[i], o.narrow.mask[i])
  {
    var gap := SequenceGap(o.narrow, i);
    GapIsRatio(o.narrow, i);
    SumOfMarked(o.narrow.own[i], o.narrow.mask[i]);
    SumOfMarked(o.narrow.Ratio()[i], o.narrow.mask[i]);
    assert o.weights.value[i][t] == e(gap / n as real);
    PowIsExp(e, gap / n as real, n);
    TimesOfQuotient(gap, n);
    GapBridges(e, o.narrow, i);
  }

  lemma TimesOfQuotient(x: real, n: nat)
    requires n > 0
    ensures Times(n, x / n as real) == x
  {
    TimesIsProduct(n, x / n as real);
  }

  /** Splicing changes nothing past the common width, and within it only removes tokens. */
  lemma SplicedMask(e: real -> real, l: real -> real, s: Switches, o: Outcome, own: seq<seq<real>>,
                    rollout: seq<seq<real>>, mask: seq<seq<bool>>, rows: nat, i: nat, t: nat)
    requires IsGrid(own, rows) && IsGrid(rollout, rows) && IsGrid(mask, rows)
    requires o.narrow == Narrowed(own, rollout, mask, rows) && IsOutcome(e, l, s, o)
    requires i < rows && t < |mask[i]|
    ensures var updated := Spliced(mask, o.mask);
            && |updated| == rows && |updated[i]| == |mask[i]|
            && (t >= CommonWidth(own, rollout, mask) ==> updated[i][t] == mask[i][t])
            && (updated[i][t] ==> mask[i][t])
  {
    assert |o.mask[i]| == CommonWidth(own, rollout, mask);
    if t < |o.mask[i]| {
      assert Spliced(mask, o.mask)[i][t] == o.mask[i][t];
      assert o.narrow.mask[i][t] == mask[i][t];
    }
  }

  /** The three columns at their common width, unreported log-probs replaced. */
  datatype Narrow = Narrow(own: seq<seq<real>>, rollout: seq<seq<real>>, mask: seq<seq<bool>>, width: nat) {
    function Ratio(): seq<seq<real>>
      requires SameShape(own, rollout)
    {
      Differences(own, rollout)
    }
  }

  function Narrowed(own: seq<seq<real>>, rollout: seq<seq<real>>, mask: seq<seq<bool>>, rows: nat): (n: Narrow)
    requires IsGrid(own, rows) && IsGrid(rollout, rows) && IsGrid(mask, rows)
    ensures SameShape(n.own, n.rollout) && SameShape(n.own, n.mask) && |n.own| == rows
    ensures forall i :: 0 <= i < rows ==> |n.own[i]| == n.width <= |mask[i]|
  {
    var width := CommonWidth(own, rollout, mask);
    var reported := Substituted(Cut(rollout, width), Cut(own, width), Cut(mask, width));
    Narrow(Cut(own, width), reported, Cut(mask, width), width)
  }

  /** `n` rows of one width. */
  ghost predicate IsGrid<T>(g: seq<seq<T>>, n: nat) {
    |g| == n && forall i :: 0 <= i < n ==> |g[i]| == |g[0]|
  }

  function WidthOf<T>(g: seq<seq<T>>): nat {
    if |g| == 0 then 0 else |g[0]|
  }

  function CommonWidth(a: seq<seq<real>>, b: seq<seq<real>>, c: seq<seq<bool>>): nat {
    var w := if WidthOf(a) < WidthOf(b) then WidthOf(a) else WidthOf(b);
    if w < WidthOf(c) then w else WidthOf(c)
  }

  function Cut<T>(g: seq<seq<T>>, width: nat): seq<seq<T>>
    requires forall i :: 0 <= i < |g| ==> width <= |g[i]|
  {
    seq(|g|, i requires 0 <= i < |g| => g[i][..width])
  }

  /** The rows of `narrow` over the first columns of `g`. */
  function Spliced<T>(g: seq<seq<T>>, narrow: seq<seq<T>>): seq<seq<T>>
    requires |g| == |narrow| && forall i :: 0 <= i < |g| ==> |narrow[i]| <= |g[i]|
  {
    seq(|g|, i requires 0 <= i < |g| => narrow[i] + g[i][|narrow[i]|..])
  }

  lemma SpliceBack<T>(g: seq<seq<T>>, width: nat)
    requires forall i :: 0 <= i < |g| ==> width <= |g[i]|
    ensures Spliced(g, Cut(g, width)) == g
  {
    forall i | 0 <= i < |g| ensures g[i][..width] + g[i][width..] == g[i] {
    }
  }

  predicate Unreported(rollout: real, inMask: bool) {
    rollout == 0.0 && inMask
  }

  predicate AnyUnreported(rollout: seq<seq<real>>, mask: seq<seq<bool>>)
    requires SameShape(rollout, mask)
  {
    exists i, t :: 0 <= i < |mask| && 0 <= t < |mask[i]| && Unreported(rollout[i][t], mask[i][t])
  }

  function Substituted(rollout: seq<seq<real>>, own: seq<seq<real>>, mask: seq<seq<bool>>): seq<seq<real>>
    requires SameShape(rollout, own) && SameShape(rollout, mask)
  {
    seq(|rollout|, i requires 0 <= i < |rollout| =>
      seq(|rollout[i]|, t requires 0 <= t < |rollout[i]| =>
        if Unreported(rollout[i][t], mask[i][t]) then own[i][t] else rollout[i][t]))
  }

  lemma NothingToSubstitute(rollout: seq<seq<real>>, own: seq<seq<real>>, mask: seq<seq<bool>>)
    requires SameShape(rollout, own) && SameShape(rollout, mask) && !AnyUnreported(rollout, mask)
    ensures Substituted(rollout, own, mask) == rollout
  {
    forall i | 0 <= i < |rollout| ensures Substituted(rollout, own, mask)[i] == rollout[i] {
    }
  }

  function Differences(a: seq<seq<real>>, b: seq<seq<real>>): seq<seq<real>>
    requires SameShape(a, b)
  {
    seq(|a|, i requires 0 <= i < |a| => seq(|a[i]|, t requires 0 <= t < |a[i]| => a[i][t] - b[i][t]))
  }

  /** Cleaning twice is cleaning once. */
  lemma CleaningIsIdempotent(rollout: seq<seq<real>>, own: seq<seq<real>>, mask: seq<seq<bool>>)
    requires SameShape(rollout, own) && SameShape(rollout, mask)
    ensures var clean := Substituted(rollout, own, mask);
            SameShape(clean, own) && SameShape(clean, mask) && Substituted(clean, own, mask) == clean
  {
    var clean := Substituted(rollout, own, mask);
    var again := Substituted(clean, own, mask);
    forall i | 0 <= i < |clean| ensures again[i] == clean[i] {
    }
  }
}
