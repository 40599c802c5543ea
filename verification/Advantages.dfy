/** Advantage recurrences along one row, and leave-one-out baselines within a group. */
module Advantages {
  import opened Arith
  import opened GroupFilter
  import opened Seqs
  import opened Stats
  import opened Wrappers

  // ---------------------------------------------------------------------
  // Rows
  // ---------------------------------------------------------------------

  function Count(mask: seq<bool>): nat {
    if |mask| == 0 then 0 else Count(mask[1..]) + if mask[0] then 1 else 0
  }

  function Gate(b: bool): real {
    if b then 1.0 else 0.0
  }

  function PrefixMask(n: nat, width: nat): seq<bool>
    requires n <= width
  {
    seq(width, t requires 0 <= t => t < n)
  }

  function SuffixMask(n: nat, width: nat): seq<bool>
    requires n <= width
  {
    seq(width, t requires 0 <= t => t >= width - n)
  }

  lemma {:induction false} CountPrefix(n: nat, width: nat)
    requires n <= width
    ensures Count(PrefixMask(n, width)) == n
  {
    if width > 0 {
      if n > 0 {
        assert PrefixMask(n, width)[1..] == PrefixMask(n - 1, width - 1);
        CountPrefix(n - 1, width - 1);
      } else {
        assert PrefixMask(0, width)[1..] == PrefixMask(0, width - 1);
        CountPrefix(0, width - 1);
      }
    }
  }

  lemma {:induction false} CountSuffix(n: nat, width: nat)
    requires n <= width
    ensures Count(SuffixMask(n, width)) == n
  {
    if width > 0 {
      if n < width {
        assert SuffixMask(n, width)[1..] == SuffixMask(n, width - 1);
        CountSuffix(n, width - 1);
      } else {
        assert SuffixMask(n, width)[1..] == SuffixMask(n - 1, width - 1);
        CountSuffix(n - 1, width - 1);
      }
    }
  }

  /** The index the code takes for the last valid token. */
  function LastIndex(mask: seq<bool>): nat {
    if Count(mask) > 0 then Count(mask) - 1 else 0
  }

  function Scattered(reward: real, width: nat, at: nat): seq<real> {
    seq(width, t requires 0 <= t => if t == at then reward else 0.0)
  }

  /** A scalar reward placed at that index. */
  function ScatterReward(reward: real, mask: seq<bool>): (r: Result<seq<real>>)
    ensures r.Ok? <==> |mask| > 0
    ensures r.Ok? ==> |r.value| == |mask|
  {
    if |mask| == 0 then Err(IndexError) else Ok(Scattered(reward, |mask|, LastIndex(mask)))
  }

  // ---------------------------------------------------------------------
  // The backward recurrence
  // ---------------------------------------------------------------------

  /** From the end of the row back to `t`, each step keeping its share of what follows. */
  function Backward(deltas: seq<real>, carries: seq<real>, t: nat): real
    requires |deltas| == |carries| && t <= |deltas|
    decreases |deltas| - t
  {
    if t == |deltas| then 0.0 else deltas[t] + Product(carries[t], Backward(deltas, carries, t + 1))
  }

  method RunBackwards(deltas: seq<real>, carries: seq<real>) returns (out: seq<real>)
    requires |deltas| == |carries|
    ensures |out| == |deltas| && forall t :: 0 <= t < |deltas| ==> out[t] == Backward(deltas, carries, t)
  {
    var cells := new real[|deltas|](_ => 0.0);
    var running := 0.0;
    var t := |deltas|;
    while t > 0
      invariant 0 <= t <= |deltas| && running == Backward(deltas, carries, t)
      invariant forall s :: t <= s < |deltas| ==> cells[s] == Backward(deltas, carries, s)
    {
      t := t - 1;
      running := deltas[t] + Product(carries[t], running);
      assert running == Backward(deltas, carries, t);
      cells[t] := running;
    }
    out := cells[..];
  }

  // ---------------------------------------------------------------------
  // Generalized advantage estimation
  // ---------------------------------------------------------------------

  /** The next value: rolled by one, and zero at the last valid index. */
  function NextValue(values: seq<real>, mask: seq<bool>, t: nat): real
    requires |values| == |mask| && t < |mask|
  {
    var last := if Count(mask) > 0 then Count(mask) - 1 else |mask| - 1;
    if t == last then 0.0 else if t + 1 < |values| then values[t + 1] else values[0]
  }

  function Delta(rewards: seq<real>, values: seq<real>, mask: seq<bool>, gamma: real, t: nat): real
    requires |rewards| == |values| == |mask| && t < |mask|
  {
    rewards[t] + Product(gamma, Product(NextValue(values, mask, t), Gate(mask[t]))) - values[t]
  }

  function Deltas(rewards: seq<real>, values: seq<real>, mask: seq<bool>, gamma: real): seq<real>
    requires |rewards| == |values| == |mask|
  {
    seq(|mask|, t requires 0 <= t < |mask| => Delta(rewards, values, mask, gamma, t))
  }

  /** How much of what follows a position keeps. */
  function Carries(mask: seq<bool>, share: real): seq<real> {
    seq(|mask|, t requires 0 <= t < |mask| => Product(share, Gate(mask[t])))
  }

  /** The advantage at `t` before masking. */
  function Gae(rewards: seq<real>, values: seq<real>, mask: seq<bool>, gamma: real, lam: real, t: nat): real
    requires |rewards| == |values| == |mask| && t <= |mask|
  {
    Backward(Deltas(rewards, values, mask, gamma), Carries(mask, Product(gamma, lam)), t)
  }

  lemma GaeStep(rewards: seq<real>, values: seq<real>, mask: seq<bool>, gamma: real, lam: real, t: nat)
    requires |rewards| == |values| == |mask| && t < |mask|
    ensures Gae(rewards, values, mask, gamma, lam, t)
         == Delta(rewards, values, mask, gamma, t)
            + Product(Product(Product(gamma, lam), Gate(mask[t])), Gae(rewards, values, mask, gamma, lam, t + 1))
  {
  }

  function Gated(xs: seq<real>, mask: seq<bool>): seq<real>
    requires |xs| == |mask|
  {
    seq(|xs|, t requires 0 <= t < |xs| => Product(xs[t], Gate(mask[t])))
  }

  function Plus(xs: seq<real>, ys: seq<real>): seq<real>
    requires |xs| == |ys|
  {
    seq(|xs|, t requires 0 <= t < |xs| => xs[t] + ys[t])
  }

  /** Advantages and returns of one row, masked at the end. */
  method GaeReturns(rewards: seq<real>, values: seq<real>, mask: seq<bool>, gamma: real, lam: real)
      returns (r: Result<(seq<real>, seq<real>)>)
    requires |rewards| == |values| == |mask|
    ensures r.Err? <==> |mask| == 0
    ensures r.Err? ==> r.error == IndexError
    ensures r.Ok? ==> |r.value.0| == |r.value.1| == |mask|
    ensures r.Ok? ==> forall t :: 0 <= t < |mask| ==>
                        r.value.0[t] == Product(Gae(rewards, values, mask, gamma, lam, t), Gate(mask[t]))
    ensures r.Ok? ==> forall t :: 0 <= t < |mask| ==>
                        r.value.1[t] == Product(Gae(rewards, values, mask, gamma, lam, t) + values[t], Gate(mask[t]))
  {
    if |mask| == 0 {
      return Err(IndexError);
    }
    var adv := RunBackwards(Deltas(rewards, values, mask, gamma), Carries(mask, Product(gamma, lam)));
    r := Ok((Gated(adv, mask), Gated(Plus(adv, values), mask)));
  }

  /** The textbook residual of a row whose last token is `n - 1`. */
  function Residual(rewards: seq<real>, values: seq<real>, gamma: real, n: nat, t: nat): real
    requires t < n <= |rewards| && |rewards| == |values|
  {
    rewards[t] + (if t + 1 < n then Product(gamma, values[t + 1]) else 0.0) - values[t]
  }

  /** The first `count` residuals from `t` on, the `k`-th weighted by the `k`-th power. */
  function WeightedResiduals(rewards: seq<real>, values: seq<real>, gamma: real, gl: real, n: nat, t: nat,
                             count: nat): real
    requires t + count <= n <= |rewards| && |rewards| == |values|
  {
    if count == 0 then 0.0
    else
      WeightedResiduals(rewards, values, gamma, gl, n, t, count - 1)
      + Product(Pow(gl, count - 1), Residual(rewards, values, gamma, n, t + count - 1))
  }

  lemma ProductAssoc(x: real, y: real, z: real)
    ensures Product(x, Product(y, z)) == Product(Product(x, y), z)
  {
  }

  lemma ProductOne(x: real)
    ensures Product(x, 1.0) == x && Product(1.0, x) == x && Product(x, 0.0) == 0.0 && Product(0.0, x) == 0.0
  {
  }

  /** Shifting the start: one more residual in front. */
  lemma {:induction false} ResidualsFromNext(rewards: seq<real>, values: seq<real>, gamma: real, gl: real, n: nat,
                                t: nat,
                                             count: nat)
    requires t + count + 1 <= n <= |rewards| && |rewards| == |values|
    ensures WeightedResiduals(rewards, values, gamma, gl, n, t, count + 1)
         == Residual(rewards, values, gamma, n, t)
            + Product(gl, WeightedResiduals(rewards, values, gamma, gl, n, t + 1, count))
  {
    if count == 0 {
      ProductOne(Residual(rewards, values, gamma, n, t));
      ProductOne(gl);
    } else {
      ResidualsFromNext(rewards, values, gamma, gl, n, t, count - 1);
      var before := WeightedResiduals(rewards, values, gamma, gl, n, t + 1, count - 1);
      var term := Residual(rewards, values, gamma, n, t + count);
      ProductOfSum(gl, before, Product(Pow(gl, count - 1), term));
      ProductAssoc(gl, Pow(gl, count - 1), term);
    }
  }

  lemma PrefixDelta(rewards: seq<real>, values: seq<real>, n: nat, gamma: real, t: nat)
    requires |rewards| == |values| && n <= |rewards| && t < |rewards|
    ensures var mask := PrefixMask(n, |rewards|);
            Delta(rewards, values, mask, gamma, t)
            == if t < n then Residual(rewards, values, gamma, n, t) else rewards[t] - values[t]
  {
    CountPrefix(n, |rewards|);
    var mask := PrefixMask(n, |rewards|);
    ProductOne(NextValue(values, mask, t));
    ProductOne(gamma);
  }

  /** What lies just past the last token, where the recurrence picks it up. */
  function Stray(rewards: seq<real>, values: seq<real>, n: nat): real
    requires |rewards| == |values|
  {
    if n < |rewards| then rewards[n] - values[n] else 0.0
  }

  /** On a row padded on the right the recurrence is the weighted sum of the residuals, plus
      what is stored just past the last token. */
  lemma {:induction false} GaeIsWeightedSum(rewards: seq<real>, values: seq<real>, n: nat, gamma: real, lam: real,
                                t: nat)
    requires |rewards| == |values| && t <= n <= |rewards|
    ensures var gl := Product(gamma, lam);
            Gae(rewards, values, PrefixMask(n, |rewards|), gamma, lam, t)
            == WeightedResiduals(rewards, values, gamma, gl, n, t, n - t)
               + Product(Pow(gl, n - t), Stray(rewards, values, n))
    decreases n - t
  {
    var gl, mask, stray := Product(gamma, lam), PrefixMask(n, |rewards|), Stray(rewards, values, n);
    if t == n {
      ProductOne(stray);
      if n < |rewards| {
        GaeStep(rewards, values, mask, gamma, lam, n);
        PrefixDelta(rewards, values, n, gamma, n);
        ProductOne(gl);
        ProductOne(Gae(rewards, values, mask, gamma, lam, n + 1));
      }
    } else {
      GaeIsWeightedSum(rewards, values, n, gamma, lam, t + 1);
      GaeStep(rewards, values, mask, gamma, lam, t);
      PrefixDelta(rewards, values, n, gamma, t);
      ProductOne(gl);
      var rest := WeightedResiduals(rewards, values, gamma, gl, n, t + 1, n - t - 1);
      ProductOfSum(gl, rest, Product(Pow(gl, n - t - 1), stray));
      ProductAssoc(gl, Pow(gl, n - t - 1), stray);
      ResidualsFromNext(rewards, values, gamma, gl, n, t, n - t - 1);
    }
  }

  lemma ProductZero(x: real, y: real)
    ensures Product(x, y) == 0.0 <==> x == 0.0 || y == 0.0
  {
    if x > 0.0 && y > 0.0 {
      ProductPositive(x, y);
    } else if x < 0.0 && y < 0.0 {
      ProductPositive(-x, -y);
      ProductNegated(x, y);
    } else if x > 0.0 && y < 0.0 {
      ProductPositive(x, -y);
      assert Product(x, -y) == -Product(x, y);
    } else if x < 0.0 && y > 0.0 {
      ProductPositive(-x, y);
      assert Product(-x, y) == -Product(x, y);
    } else if x == 0.0 {
      ProductOne(y);
    } else {
      ProductOne(x);
    }
  }

  lemma {:induction false} PowZero(x: real, k: nat)
    ensures Pow(x, k) == 0.0 <==> x == 0.0 && k > 0
  {
    if k > 0 {
      PowZero(x, k - 1);
      ProductZero(x, Pow(x, k - 1));
    }
  }

  /** Main result: on a row padded on the right the advantage is the weighted sum of the
      residuals if and only if the discounts' product is zero or reward and value agree just
      past the last token (or nothing is stored there). */
  lemma GaeExactIff(rewards: seq<real>, values: seq<real>, n: nat, gamma: real, lam: real, t: nat)
    requires |rewards| == |values| && t < n <= |rewards|
    ensures var gl := Product(gamma, lam);
            Gae(rewards, values, PrefixMask(n, |rewards|), gamma, lam, t)
            == WeightedResiduals(rewards, values, gamma, gl, n, t, n - t)
            <==> gamma == 0.0 || lam == 0.0 || n == |rewards| || rewards[n] == values[n]
  {
    var gl := Product(gamma, lam);
    GaeIsWeightedSum(rewards, values, n, gamma, lam, t);
    ProductZero(Pow(gl, n - t), Stray(rewards, values, n));
    PowZero(gl, n - t);
    ProductZero(gamma, lam);
  }

  /** The discounted sum of the rewards from `t` to the last token. */
  function RewardToGo(rewards: seq<real>, gamma: real, n: nat, t: nat): real
    requires t <= n <= |rewards|
    decreases n - t
  {
    if t == n then 0.0 else rewards[t] + Product(gamma, RewardToGo(rewards, gamma, n, t + 1))
  }

  lemma {:induction false} ResidualsTelescope(rewards: seq<real>, values: seq<real>, gamma: real, n: nat, t: nat)
    requires |rewards| == |values| && t < n <= |rewards|
    ensures WeightedResiduals(rewards, values, gamma, gamma, n, t, n - t) + values[t]
         == RewardToGo(rewards, gamma, n, t)
    decreases n - t
  {
    ResidualsFromNext(rewards, values, gamma, gamma, n, t, n - t - 1);
    var rest := WeightedResiduals(rewards, values, gamma, gamma, n, t + 1, n - t - 1);
    if t + 1 < n {
      ResidualsTelescope(rewards, values, gamma, n, t + 1);
      ProductOfSum(gamma, rest, values[t + 1]);
    } else {
      ProductOne(gamma);
    }
  }

  /** With lambda one, advantage plus value is the discounted reward to go if and only if the
      discount is zero or reward and value agree just past the last token (or nothing is stored
      there). */
  lemma GaePlusValue(rewards: seq<real>, values: seq<real>, n: nat, gamma: real, t: nat)
    requires |rewards| == |values| && t < n <= |rewards|
    ensures Gae(rewards, values, PrefixMask(n, |rewards|), gamma, 1.0, t) + values[t]
            == RewardToGo(rewards, gamma, n, t)
            <==> gamma == 0.0 || n == |rewards| || rewards[n] == values[n]
  {
    GaeIsWeightedSum(rewards, values, n, gamma, 1.0, t);
    ProductOne(gamma);
    ProductZero(Pow(gamma, n - t), Stray(rewards, values, n));
    PowZero(gamma, n - t);
    ResidualsTelescope(rewards, values, gamma, n, t);
  }

  // ---------------------------------------------------------------------
  // Padding on either side
  // ---------------------------------------------------------------------

  /** `n` response tokens from position `a` on, padding before and after. */
  function BlockMask(a: nat, n: nat, width: nat): seq<bool>
    requires a + n <= width
  {
    seq(width, t requires 0 <= t => a <= t < a + n)
  }

  lemma {:induction false} CountBlock(a: nat, n: nat, width: nat)
    requires a + n <= width
    ensures Count(BlockMask(a, n, width)) == n
  {
    if a == 0 {
      assert BlockMask(0, n, width) == PrefixMask(n, width);
      CountPrefix(n, width);
    } else {
      assert BlockMask(a, n, width)[1..] == BlockMask(a - 1, n, width - 1);
      CountBlock(a - 1, n, width - 1);
    }
  }

  /** The textbook advantage at `t` of a response that ends before `end`. */
  function Textbook(rewards: seq<real>, values: seq<real>, gamma: real, lam: real, end: nat, t: nat): real
    requires t <= end <= |rewards| && |rewards| == |values|
  {
    WeightedResiduals(rewards, values, gamma, Product(gamma, lam), end, t, end - t)
  }

  /** What the next value the code takes at `t` differs from the textbook's. */
  function Slip(values: seq<real>, a: nat, n: nat, t: nat): real
    requires a <= t < a + n <= |values|
  {
    NextValue(values, BlockMask(a, n, |values|), t) - if t + 1 < a + n then values[t + 1] else 0.0
  }

  /** What the recurrence has too much at `t`. */
  function Excess(rewards: seq<real>, values: seq<real>, a: nat, n: nat, gamma: real, lam: real, t: nat): real
    requires a <= t <= a + n <= |rewards| && |rewards| == |values|
    decreases a + n - t
  {
    if t == a + n then Stray(rewards, values, t)
    else
      Product(gamma, Slip(values, a, n, t))
      + Product(Product(gamma, lam), Excess(rewards, values, a, n, gamma, lam, t + 1))
  }

  lemma BlockDelta(rewards: seq<real>, values: seq<real>, a: nat, n: nat, gamma: real, t: nat)
    requires |rewards| == |values| && a <= t < a + n <= |rewards|
    ensures Delta(rewards, values, BlockMask(a, n, |rewards|), gamma, t)
         == Residual(rewards, values, gamma, a + n, t) + Product(gamma, Slip(values, a, n, t))
  {
    var next := NextValue(values, BlockMask(a, n, |values|), t);
    var right := if t + 1 < a + n then values[t + 1] else 0.0;
    ProductOne(next);
    ProductOne(gamma);
    ProductOfSum(gamma, right, next - right);
  }

  lemma BlockEnd(rewards: seq<real>, values: seq<real>, a: nat, n: nat, gamma: real, lam: real)
    requires |rewards| == |values| && 0 < n && a + n <= |rewards|
    ensures Gae(rewards, values, BlockMask(a, n, |rewards|), gamma, lam, a + n) == Stray(rewards, values, a + n)
  {
    var mask, e := BlockMask(a, n, |rewards|), a + n;
    if e < |rewards| {
      GaeStep(rewards, values, mask, gamma, lam, e);
      ProductOne(NextValue(values, mask, e));
      ProductOne(gamma);
      ProductOne(Product(gamma, lam));
      ProductOne(Gae(rewards, values, mask, gamma, lam, e + 1));
    }
  }

  /** The recurrence is the textbook sum plus the excess, at every response position. */
  lemma {:induction false} GaeIsTextbookPlusExcess(rewards: seq<real>, values: seq<real>, a: nat, n: nat, gamma: real,
                                                   lam: real, t: nat)
    requires |rewards| == |values| && 0 < n && a <= t <= a + n <= |rewards|
    ensures Gae(rewards, values, BlockMask(a, n, |rewards|), gamma, lam, t)
         == Textbook(rewards, values, gamma, lam, a + n, t) + Excess(rewards, values, a, n, gamma, lam, t)
    decreases a + n - t
  {
    if t == a + n {
      BlockEnd(rewards, values, a, n, gamma, lam);
    } else {
      var mask, gl := BlockMask(a, n, |rewards|), Product(gamma, lam);
      GaeIsTextbookPlusExcess(rewards, values, a, n, gamma, lam, t + 1);
      GaeStep(rewards, values, mask, gamma, lam, t);
      BlockDelta(rewards, values, a, n, gamma, t);
      ProductOne(gl);
      ProductOfSum(gl, Textbook(rewards, values, gamma, lam, a + n, t + 1),
                   Excess(rewards, values, a, n, gamma, lam, t + 1));
      ResidualsFromNext(rewards, values, gamma, gl, a + n, t, a + n - t - 1);
    }
  }

  /** No excess from `t` on, up to the last token. */
  ghost predicate NoExcess(rewards: seq<real>, values: seq<real>, a: nat, n: nat, gamma: real, lam: real, t: nat)
    requires a <= t < a + n <= |rewards| && |rewards| == |values|
  {
    forall s :: t <= s < a + n ==> Excess(rewards, values, a, n, gamma, lam, s) == 0.0
  }

  /** The excess is zero everywhere exactly when it is at the last token and nothing slips
      before it. */
  lemma {:induction false} NoExcessIff(rewards: seq<real>, values: seq<real>, a: nat, n: nat, gamma: real, lam: real,
                                       t: nat)
    requires a <= t < a + n <= |rewards| && |rewards| == |values|
    ensures NoExcess(rewards, values, a, n, gamma, lam, t) <==>
            && Excess(rewards, values, a, n, gamma, lam, a + n - 1) == 0.0
            && forall s :: t <= s < a + n - 1 ==> Product(gamma, Slip(values, a, n, s)) == 0.0
    decreases a + n - t
  {
    if t < a + n - 1 {
      NoExcessIff(rewards, values, a, n, gamma, lam, t + 1);
      ProductOne(Product(gamma, lam));
      assert NoExcess(rewards, values, a, n, gamma, lam, t) <==>
             && Excess(rewards, values, a, n, gamma, lam, t) == 0.0
             && NoExcess(rewards, values, a, n, gamma, lam, t + 1);
      assert Excess(rewards, values, a, n, gamma, lam, t + 1) == 0.0 ==>
          Excess(rewards, values, a, n, gamma, lam, t) == Product(gamma, Slip(values, a, n, t));
      assert NoExcess(rewards, values, a, n, gamma, lam, t + 1) ==>
          Excess(rewards, values, a, n, gamma, lam, t + 1) == 0.0;
    }
  }

  /** The code zeroes the next value at position `n - 1`. If padding comes first this is not the
      last token, whose next value is then what follows it or, at the end of the row, the first
      value of the row. */
  predicate NothingExtra(rewards: seq<real>, values: seq<real>, a: nat, n: nat, gamma: real, lam: real)
    requires |rewards| == |values| && 0 < n && a + n <= |rewards|
  {
    var e := a + n;
    || gamma == 0.0
    || (a == 0 && (lam == 0.0 || n == |rewards| || rewards[n] == values[n]))
    || (a > 0 && (n <= a || values[n] == 0.0)
        && if e < |rewards| then values[e] + Product(lam, rewards[e] - values[e]) == 0.0 else values[0] == 0.0)
  }

  lemma SlipsInside(values: seq<real>, a: nat, n: nat, gamma: real)
    requires 0 < n && a + n <= |values|
    ensures (forall s :: a <= s < a + n - 1 ==> Product(gamma, Slip(values, a, n, s)) == 0.0)
            <==> gamma == 0.0 || a == 0 || n <= a || values[n] == 0.0
  {
    CountBlock(a, n, |values|);
    forall s | a <= s < a + n - 1
      ensures Slip(values, a, n, s) == if s == n - 1 then -values[n] else 0.0
      ensures Product(gamma, Slip(values, a, n, s)) == 0.0 <==> gamma == 0.0 || Slip(values, a, n, s) == 0.0
    {
      ProductZero(gamma, Slip(values, a, n, s));
    }
    if a > 0 && n > a && gamma != 0.0 && values[n] != 0.0 {
      assert Product(gamma, Slip(values, a, n, n - 1)) != 0.0;
    }
  }

  lemma ExcessAtEnd(rewards: seq<real>, values: seq<real>, a: nat, n: nat, gamma: real, lam: real)
    requires |rewards| == |values| && 0 < n && a + n <= |rewards|
    ensures Excess(rewards, values, a, n, gamma, lam, a + n - 1) == 0.0 <==>
            || gamma == 0.0
            || (a == 0 && (lam == 0.0 || n == |rewards| || rewards[n] == values[n]))
            || (a > 0 && if a + n < |rewards|
                         then values[a + n] + Product(lam, rewards[a + n] - values[a + n]) == 0.0
                         else values[0] == 0.0)
  {
    var e := a + n;
    var slip, stray := Slip(values, a, n, e - 1), Stray(rewards, values, e);
    CountBlock(a, n, |values|);
    assert slip == if a == 0 then 0.0 else if e < |values| then values[e] else values[0];
    ProductAssoc(gamma, lam, stray);
    ProductOfSum(gamma, slip, Product(lam, stray));
    ProductZero(gamma, slip + Product(lam, stray));
    ProductZero(lam, stray);
    assert Excess(rewards, values, a, n, gamma, lam, e) == stray;
  }

  /** Main result, for padding on either side or both: the recurrence is the textbook sum at
      every response position if and only if nothing extra comes in. */
  lemma GaeBlockIff(rewards: seq<real>, values: seq<real>, a: nat, n: nat, gamma: real, lam: real)
    requires |rewards| == |values| && 0 < n && a + n <= |rewards|
    ensures (forall t :: a <= t < a + n ==>
               Gae(rewards, values, BlockMask(a, n, |rewards|), gamma, lam, t)
               == Textbook(rewards, values, gamma, lam, a + n, t))
            <==> NothingExtra(rewards, values, a, n, gamma, lam)
  {
    forall t | a <= t < a + n
      ensures Gae(rewards, values, BlockMask(a, n, |rewards|), gamma, lam, t)
           == Textbook(rewards, values, gamma, lam, a + n, t) + Excess(rewards, values, a, n, gamma, lam, t)
    {
      GaeIsTextbookPlusExcess(rewards, values, a, n, gamma, lam, t);
    }
    NoExcessIff(rewards, values, a, n, gamma, lam, a);
    SlipsInside(values, a, n, gamma);
    ExcessAtEnd(rewards, values, a, n, gamma, lam);
  }

  /** With lambda one the same condition decides whether advantage plus value is the discounted
      reward to go. */
  lemma GaeBlockPlusValue(rewards: seq<real>, values: seq<real>, a: nat, n: nat, gamma: real)
    requires |rewards| == |values| && 0 < n && a + n <= |rewards|
    ensures (forall t :: a <= t < a + n ==>
               Gae(rewards, values, BlockMask(a, n, |rewards|), gamma, 1.0, t) + values[t]
               == RewardToGo(rewards, gamma, a + n, t))
            <==> NothingExtra(rewards, values, a, n, gamma, 1.0)
  {
    ProductOne(gamma);
    forall t | a <= t < a + n
      ensures Gae(rewards, values, BlockMask(a, n, |rewards|), gamma, 1.0, t) + values[t]
              == RewardToGo(rewards, gamma, a + n, t)
              <==> Gae(rewards, values, BlockMask(a, n, |rewards|), gamma, 1.0, t)
                   == Textbook(rewards, values, gamma, 1.0, a + n, t)
    {
      ResidualsTelescope(rewards, values, gamma, a + n, t);
    }
    GaeBlockIff(rewards, values, a, n, gamma, 1.0);
  }

  /** On the rows of the assembly, padded on the left alone: both the first value of the row and,
      if the response is longer than the padding, the value at position `n` have to be zero. */
  lemma GaeSuffixIff(rewards: seq<real>, values: seq<real>, n: nat, gamma: real, lam: real)
    requires |rewards| == |values| && 0 < n < |rewards|
    ensures (forall t :: |rewards| - n <= t < |rewards| ==>
               Gae(rewards, values, SuffixMask(n, |rewards|), gamma, lam, t)
               == Textbook(rewards, values, gamma, lam, |rewards|, t))
            <==> gamma == 0.0 || (values[0] == 0.0 && (2 * n <= |rewards| || values[n] == 0.0))
  {
    assert SuffixMask(n, |rewards|) == BlockMask(|rewards| - n, n, |rewards|);
    GaeBlockIff(rewards, values, |rewards| - n, n, gamma, lam);
  }

  lemma GaeSuffixPlusValue(rewards: seq<real>, values: seq<real>, n: nat, gamma: real)
    requires |rewards| == |values| && 0 < n < |rewards|
    ensures (forall t :: |rewards| - n <= t < |rewards| ==>
               Gae(rewards, values, SuffixMask(n, |rewards|), gamma, 1.0, t) + values[t]
               == RewardToGo(rewards, gamma, |rewards|, t))
            <==> gamma == 0.0 || (values[0] == 0.0 && (2 * n <= |rewards| || values[n] == 0.0))
  {
    assert SuffixMask(n, |rewards|) == BlockMask(|rewards| - n, n, |rewards|);
    GaeBlockPlusValue(rewards, values, |rewards| - n, n, gamma);
  }

  /** One padding position with value 1 and one token: nothing lies past the token and its
      textbook advantage is 0, but the recurrence takes the padding's value as the next one. */
  lemma PaddingValueLeaks()
    ensures Gae([0.0, 0.0], [1.0, 0.0], [false, true], 1.0, 1.0, 1) == 1.0
    ensures Textbook([0.0, 0.0], [1.0, 0.0], 1.0, 1.0, 2, 1) == 0.0
  {
    var rewards, values, mask := [0.0, 0.0], [1.0, 0.0], [false, true];
    assert mask[1..] == [true] && mask[1..][1..] == [];
    assert Count(mask) == 1;
    GaeStep(rewards, values, mask, 1.0, 1.0, 1);
    assert WeightedResiduals(rewards, values, 1.0, Product(1.0, 1.0), 2, 1, 0) == 0.0;
    assert Pow(Product(1.0, 1.0), 0) == 1.0;
  }

  // ---------------------------------------------------------------------
  // Where the scalar reward goes
  // ---------------------------------------------------------------------

  /** The discounted return at `t`, by reverse iteration over the tokens. */
  function Discounted(rewards: seq<real>, mask: seq<bool>, gamma: real, t: nat): real
    requires |rewards| == |mask| && t <= |mask|
  {
    Backward(rewards, Carries(mask, gamma), t)
  }

  method DiscountedReturns(rewards: seq<real>, mask: seq<bool>, gamma: real) returns (out: seq<real>)
    requires |rewards| == |mask|
    ensures |out| == |mask| && forall t :: 0 <= t < |mask| ==> out[t] == Discounted(rewards, mask, gamma, t)
  {
    out := RunBackwards(rewards, Carries(mask, gamma));
  }

  lemma {:induction false} NothingLater(rewards: seq<real>, carries: seq<real>, t: nat)
    requires |rewards| == |carries| && t <= |rewards| && forall s :: t <= s < |rewards| ==> rewards[s] == 0.0
    ensures Backward(rewards, carries, t) == 0.0
    decreases |rewards| - t
  {
    if t < |rewards| {
      NothingLater(rewards, carries, t + 1);
      ProductOne(carries[t]);
    }
  }

  /** Up to the rewarded index, while tokens count, the return is the discounted reward. */
  lemma {:induction false} ReturnIsPower(reward: real, carries: seq<real>, gamma: real, last: nat, t: nat)
    requires t <= last < |carries| && forall s :: t <= s < last ==> carries[s] == gamma
    ensures Backward(Scattered(reward, |carries|, last), carries, t) == Product(Pow(gamma, last - t), reward)
    decreases last - t
  {
    var rewards := Scattered(reward, |carries|, last);
    if t == last {
      NothingLater(rewards, carries, t + 1);
      ProductOne(carries[t]);
      ProductOne(reward);
    } else {
      ReturnIsPower(reward, carries, gamma, last, t + 1);
      ProductAssoc(gamma, Pow(gamma, last - t - 1), reward);
    }
  }

  /** On a row padded on the right every token's return is the reward, discounted once for
      each later token. */
  lemma PrefixReturns(reward: real, n: nat, width: nat, gamma: real, t: nat)
    requires t < n <= width
    ensures ScatterReward(reward, PrefixMask(n, width)).Ok?
    ensures Discounted(ScatterReward(reward, PrefixMask(n, width)).value, PrefixMask(n, width), gamma, t)
         == Product(Pow(gamma, n - 1 - t), reward)
  {
    var mask := PrefixMask(n, width);
    CountPrefix(n, width);
    ProductOne(gamma);
    ReturnIsPower(reward, Carries(mask, gamma), gamma, n - 1, t);
  }

  /** On a row padded on the left the index is counted from the wrong end: it hits a response
      token if and only if the response is longer than the padding, and the last one only when
      there is no padding. */
  lemma SuffixRewardIndex(n: nat, width: nat)
    requires 0 < n <= width
    ensures LastIndex(SuffixMask(n, width)) < width
    ensures SuffixMask(n, width)[LastIndex(SuffixMask(n, width))] <==> 2 * n > width
    ensures LastIndex(SuffixMask(n, width)) == width - 1 <==> n == width
  {
    CountSuffix(n, width);
  }

  /** When it misses the response, every response token's return is zero. */
  lemma SuffixRewardLost(reward: real, n: nat, width: nat, gamma: real, t: nat)
    requires 0 < n && 2 * n <= width && width - n <= t < width
    ensures ScatterReward(reward, SuffixMask(n, width)).Ok?
    ensures Discounted(ScatterReward(reward, SuffixMask(n, width)).value, SuffixMask(n, width), gamma, t) == 0.0
  {
    CountSuffix(n, width);
    NothingLater(Scattered(reward, width, n - 1), Carries(SuffixMask(n, width), gamma), t);
  }

  /** Wherever the padding is, all returns of the response are the reward discounted once for
      each later token if and only if no padding comes first, or there is no reward. */
  lemma BlockReturns(reward: real, a: nat, n: nat, width: nat, gamma: real)
    requires 0 < n && a + n <= width
    ensures ScatterReward(reward, BlockMask(a, n, width)).Ok?
    ensures (forall t :: a <= t < a + n ==>
               Discounted(ScatterReward(reward, BlockMask(a, n, width)).value, BlockMask(a, n, width), gamma, t)
               == Product(Pow(gamma, a + n - 1 - t), reward))
            <==> a == 0 || reward == 0.0
  {
    var mask := BlockMask(a, n, width);
    var rewards, carries := ScatterReward(reward, mask).value, Carries(mask, gamma);
    CountBlock(a, n, width);
    if a == 0 {
      assert mask == PrefixMask(n, width);
      forall t | 0 <= t < n ensures Discounted(rewards, mask, gamma, t) == Product(Pow(gamma, n - 1 - t), reward) {
        PrefixReturns(reward, n, width, gamma, t);
      }
    } else if reward == 0.0 {
      forall t | a <= t < a + n
        ensures Discounted(rewards, mask, gamma, t) == Product(Pow(gamma, a + n - 1 - t), reward)
      {
        NothingLater(rewards, carries, t);
        ProductOne(Pow(gamma, a + n - 1 - t));
      }
    } else {
      NothingLater(rewards, carries, a + n - 1);
      ProductOne(reward);
      assert Discounted(rewards, mask, gamma, a + n - 1) != Product(Pow(gamma, 0), reward);
    }
  }

  /** On a row padded on the left they are right if and only if there is no padding, or no
      reward. */
  lemma SuffixReturns(reward: real, n: nat, width: nat, gamma: real)
    requires 0 < n <= width
    ensures ScatterReward(reward, SuffixMask(n, width)).Ok?
    ensures (forall t :: width - n <= t < width ==>
               Discounted(ScatterReward(reward, SuffixMask(n, width)).value, SuffixMask(n, width), gamma, t)
               == Product(Pow(gamma, width - 1 - t), reward))
            <==> n == width || reward == 0.0
  {
    assert SuffixMask(n, width) == BlockMask(width - n, n, width);
    BlockReturns(reward, width - n, n, width, gamma);
  }

  // ---------------------------------------------------------------------
  // Leave-one-out baselines
  // ---------------------------------------------------------------------

  /** Each score minus the mean of the other scores of its group. */
  function LeaveOneOut(scores: seq<real>, i: nat): real
    requires i < |scores| && |scores| > 1
  {
    scores[i] - Quotient(RealSum(scores) - scores[i], |scores| as real - 1.0)
  }

  function Rloo(scores: seq<real>, g: nat): Result<seq<real>>
    requires g > 1
  {
    if |scores| % g != 0 then Err(ValueError)
    else Ok(seq(|scores|, i requires 0 <= i < |scores| =>
      (GroupBounds(|scores|, g, i); LeaveOneOut(GroupVals(scores, g, i / g), i % g))))
  }

  lemma GroupBounds(n: nat, g: nat, i: nat)
    requires g > 0 && n % g == 0 && i < n
    ensures i / g * g + g <= n && i % g < g && i == i / g * g + i % g && i / g < n / g
  {
    DivMod(n, g);
    DivMod(i, g);
    MulCancel(i / g, n / g, g);
    BlockFits(i / g, n / g, g);
  }

  /** A sample that scores higher than another of its group has the higher advantage, by as much
      as its score times one more than the share of a sample. */
  lemma HigherScoreHigherAdvantage(scores: seq<real>, i: nat, j: nat)
    requires i < |scores| && j < |scores| && |scores| > 1
    ensures LeaveOneOut(scores, i) - LeaveOneOut(scores, j)
         == scores[i] - scores[j] + Quotient(scores[i] - scores[j], |scores| as real - 1.0)
    ensures scores[i] > scores[j] <==> LeaveOneOut(scores, i) > LeaveOneOut(scores, j)
  {
    var total, n := RealSum(scores), |scores| as real - 1.0;
    QuotientDifference(total - scores[j], total - scores[i], n);
    PositiveQuotient(scores[i] - scores[j], n);
    PositiveQuotient(scores[j] - scores[i], n);
    QuotientDifference(total - scores[i], total - scores[j], n);
  }

  lemma QuotientDifference(x: real, y: real, n: real)
    requires n > 0.0
    ensures Quotient(x, n) - Quotient(y, n) == Quotient(x - y, n)
  {
  }

  /** If the others of its group all score `m`, a sample's advantage is its score minus `m`. */
  lemma AgainstEqualOthers(scores: seq<real>, i: nat, m: real)
    requires i < |scores| && |scores| > 1
    requires forall k :: 0 <= k < |scores| && k != i ==> scores[k] == m
    ensures LeaveOneOut(scores, i) == scores[i] - m
  {
    var before, after := scores[..i], scores[i + 1..];
    assert scores == before + ([scores[i]] + after);
    RealSumConcat(before, [scores[i]] + after);
    ConstantSum(before, m);
    ConstantSum(after, m);
    TimesAdd(|before|, |after|, m);
    TimesIsProduct(|scores| - 1, m);
    QuotientOfProduct(|scores| as real - 1.0, m);
  }

  /** The vectorised form of one advantage: from the group's count and sum. */
  function FromTotals(count: nat, total: real, score: real): real {
    if count > 1 then
      Quotient(Product(count as real, score) - total, if count as real - 1.0 > 1.0 then count as real - 1.0 else 1.0)
    else 0.0
  }

  /** The count and sum are those of all scores with the same id. */
  function RlooVectorized(scores: seq<real>, ids: seq<nat>): seq<real>
    requires |scores| == |ids|
  {
    seq(|scores|, i requires 0 <= i < |scores| =>
      FromTotals(|ValuesOf(scores, ids, ids[i])|, RealSum(ValuesOf(scores, ids, ids[i])), scores[i]))
  }

  lemma TwoForms(s: real, total: real, c: real)
    requires c > 1.0
    ensures s - Quotient(total - s, c - 1.0) == Quotient(Product(c, s) - total, c - 1.0)
  {
    var d := c - 1.0;
    assert s == s * d / d;
    assert s * d / d - (total - s) / d == (s * d - (total - s)) / d;
    assert s * d - (total - s) == c * s - total;
  }

  /** Main result: for groups of two or more the two forms agree, sample by sample. */
  lemma RlooFormsAgree(scores: seq<real>, g: nat, p: nat)
    requires g > 1 && |scores| == p * g
    ensures Rloo(scores, g).Ok? && RlooVectorized(scores, PositionIds(|scores|, g)) == Rloo(scores, g).value
  {
    MulDiv(p, g);
    var a, b := Rloo(scores, g).value, RlooVectorized(scores, PositionIds(|scores|, g));
    forall i | 0 <= i < |scores| ensures a[i] == b[i] {
      SampleFormsAgree(scores, g, i);
    }
  }

  lemma SampleFormsAgree(scores: seq<real>, g: nat, i: nat)
    requires g > 1 && |scores| % g == 0 && i < |scores|
    ensures Rloo(scores, g).value[i] == RlooVectorized(scores, PositionIds(|scores|, g))[i]
  {
    GroupBounds(|scores|, g, i);
    var group := GroupVals(scores, g, i / g);
    assert group[i % g] == scores[i];
    FormsAgreeWithin(group, i % g);
    ValuesLater(scores, g, i / g, |scores|);
    TakeAll(scores, |scores|);
  }

  lemma FormsAgreeWithin(group: seq<real>, k: nat)
    requires k < |group| && |group| > 1
    ensures LeaveOneOut(group, k) == FromTotals(|group|, RealSum(group), group[k])
  {
    TwoForms(group[k], RealSum(group), |group| as real);
  }

  /** The advantages of one group. */
  function GroupAdvantages(scores: seq<real>): seq<real>
    requires |scores| > 1
  {
    seq(|scores|, i requires 0 <= i < |scores| => LeaveOneOut(scores, i))
  }

  /** `part` with each entry replaced by its advantage in a group of `c` summing to `total`. */
  function Centered(part: seq<real>, total: real, c: real): seq<real>
    requires c > 1.0
  {
    seq(|part|, i requires 0 <= i < |part| => CenteredScore(part[i], total, c))
  }

  function CenteredScore(score: real, total: real, c: real): real
    requires c > 1.0
  {
    Quotient(Product(c, score) - total, c - 1.0)
  }

  lemma QuotientOfSum(x: real, y: real, z: real)
    requires z != 0.0
    ensures Quotient(x, z) + Quotient(y, z) == Quotient(x + y, z)
  {
  }

  lemma {:induction false} CenteredSum(part: seq<real>, total: real, c: real)
    requires c > 1.0
    ensures RealSum(Centered(part, total, c)) == Quotient(Product(c, RealSum(part)) - Times(|part|, total), c - 1.0)
  {
    if |part| == 0 {
      ProductOne(c);
      assert Quotient(0.0, c - 1.0) == 0.0;
    } else {
      CenteredSum(part[1..], total, c);
      assert Centered(part, total, c)[1..] == Centered(part[1..], total, c);
      ProductOfSum(c, part[0], RealSum(part[1..]));
      QuotientOfSum(Product(c, part[0]) - total, Product(c, RealSum(part[1..])) - Times(|part| - 1, total), c - 1.0);
    }
  }

  /** Main result: within a group the advantages sum to zero. */
  lemma GroupSumsToZero(scores: seq<real>)
    requires |scores| > 1
    ensures RealSum(GroupAdvantages(scores)) == 0.0
  {
    var total, c := RealSum(scores), |scores| as real;
    AdvantagesCentered(scores);
    CenteredSum(scores, total, c);
    TimesIsProduct(|scores|, total);
    NothingOver(c - 1.0);
  }

  lemma AdvantagesCentered(scores: seq<real>)
    requires |scores| > 1
    ensures GroupAdvantages(scores) == Centered(scores, RealSum(scores), |scores| as real)
  {
    forall i | 0 <= i < |scores|
      ensures LeaveOneOut(scores, i) == CenteredScore(scores[i], RealSum(scores), |scores| as real)
    {
      CenteredAt(scores, i);
    }
    SameAdvantages(scores, RealSum(scores), |scores| as real);
  }

  lemma SameAdvantages(scores: seq<real>, total: real, c: real)
    requires |scores| > 1 && c > 1.0
    requires forall i :: 0 <= i < |scores| ==> LeaveOneOut(scores, i) == CenteredScore(scores[i], total, c)
    ensures GroupAdvantages(scores) == Centered(scores, total, c)
  {
  }

  lemma CenteredAt(scores: seq<real>, i: nat)
    requires i < |scores| && |scores| > 1
    ensures LeaveOneOut(scores, i) == CenteredScore(scores[i], RealSum(scores), |scores| as real)
  {
    TwoForms(scores[i], RealSum(scores), |scores| as real);
  }

  lemma NothingOver(x: real)
    requires x != 0.0
    ensures Quotient(0.0, x) == 0.0
  {
  }

  /** The advantages of the `q`-th block are those of its group. */
  lemma RlooBlock(scores: seq<real>, g: nat, p: nat, q: nat)
    requires g > 1 && |scores| == p * g && q < p
    ensures Rloo(scores, g).Ok? && q * g + g <= |scores|
    ensures GroupVals(Rloo(scores, g).value, g, q) == GroupAdvantages(GroupVals(scores, g, q))
  {
    MulDiv(p, g);
    BlockFits(q, p, g);
    var a, b := GroupVals(Rloo(scores, g).value, g, q), GroupAdvantages(GroupVals(scores, g, q));
    forall k | 0 <= k < g ensures a[k] == b[k] {
      DivModUnique(q * g + k, g, q, k);
    }
  }
}
