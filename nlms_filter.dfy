/// The fixed-point path of the NLMS adaptive filter: a circular delay line of
/// the last L far-end samples, L Q15 weights, and a write index. Each sample
/// is written into the delay line at the index; weight i then multiplies the
/// slot i places after the index, read forwards and wrapping around, which
/// holds the sample written (L - i) mod L calls ago (TapLag). The output is
/// the saturating difference near - estimate, and, when adaptation is
/// allowed, every weight moves by (x * e) * step.
module Nlms {
  import opened Ints
  import opened FixedPoint

  /// The Q15 step size as a function of the delay line after the write. The
  /// source derives it in floating point as Q15(mu / power), where power is
  /// delta plus the scaled energy of the delay line; the model takes that
  /// derivation as a parameter of the filter.
  type StepRule = seq<Q15> -> Q15

  /// The abstract state of one filter: weights, delay line, write index.
  datatype FilterState = FilterState(w: seq<Q15>, x: seq<Q15>, index: nat)

  predicate WellFormed(s: FilterState, length: nat)
  {
    0 < length && |s.w| == length && |s.x| == length && s.index < length
  }

  predicate AllZero(s: seq<Q15>)
  {
    forall i :: 0 <= i < |s| ==> s[i] == Zero
  }

  /// The state after construction or reset: zero weights, zero delay line,
  /// index 0.
  function Fresh(length: nat): (s: FilterState)
    requires 0 < length
    ensures WellFormed(s, length) && s.index == 0
    ensures AllZero(s.w) && AllZero(s.x)
  {
    FilterState(seq(length, _ => Zero), seq(length, _ => Zero), 0)
  }

  /// The delay-line slot that weight i multiplies: the slot i places after
  /// the write index, wrapping around. Weight 0 multiplies the sample just
  /// written; for i >= 1 the slot holds the sample written L - i calls
  /// earlier (TapLag).
  function Tap(x: seq<Q15>, index: nat, i: nat): (r: Q15)
    requires 0 < |x|
    ensures index < |x| && i == 0 ==> r == x[index]
  {
    x[(index + i) % |x|]
  }

  /// Any product of two Q15 raw values lies within +-2^30.
  lemma ProductMagnitude(a: Q15, b: Q15)
    ensures -0x4000_0000 <= a.value * b.value <= 0x4000_0000
  {
    if !(a.value == Int16Min && b.value == Int16Min) {
      ProductBounds(a.value, b.value);
    }
  }

  /// The exact sum over i < n of Tap(x, index, i) * w[i]. Each product lies
  /// within +-2^30, so the sum of n of them lies within +-n * 2^30: with two
  /// or more taps the exact sum can leave the int32 range.
  function Dot(x: seq<Q15>, w: seq<Q15>, index: nat, n: nat): (r: int)
    requires 0 < |x| && n <= |w|
    ensures -(n * 0x4000_0000) <= r <= n * 0x4000_0000
  {
    if n == 0 then 0
    else
      ProductMagnitude(Tap(x, index, n - 1), w[n - 1]);
      Dot(x, w, index, n - 1) + Tap(x, index, n - 1).value * w[n - 1].value
  }

  /// The echo estimate: the 32-bit accumulator (whose additions wrap),
  /// shifted right by 15 and converted to int16. Zero weights estimate no
  /// echo, and when the exact dot product fits in 32 bits the accumulator
  /// holds it unchanged.
  function EchoEstimate(x: seq<Q15>, w: seq<Q15>, index: nat): (r: Q15)
    requires 0 < |x| == |w|
    ensures AllZero(w) ==> r == Zero
    ensures InInt32(Dot(x, w, index, |w|)) ==> r.value == Wrap16(Dot(x, w, index, |w|) / 0x8000)
  {
    if AllZero(w) then DotOfZeroWeights(x, w, index, |w|); FromRaw(Wrap16(Wrap32(Dot(x, w, index, |w|)) / 0x8000))
    else FromRaw(Wrap16(Wrap32(Dot(x, w, index, |w|)) / 0x8000))
  }

  /// The adapted value of weight i for error e and step size step. A zero
  /// error or a zero step leaves the weight where it is.
  function AdaptedWeight(x: seq<Q15>, w: seq<Q15>, index: nat, e: Q15, step: Q15, i: nat): (r: Q15)
    requires 0 < |x| && i < |w|
    ensures e == Zero || step == Zero ==> r == w[i]
  {
    var update := Mul(Tap(x, index, i), e);
    MulByZero(Tap(x, index, i));
    MulByZero(update);
    AddZeroIdentity(w[i]);
    Add(w[i], Mul(update, step))
  }

  function AdaptedWeights(x: seq<Q15>, w: seq<Q15>, index: nat, e: Q15, step: Q15): (r: seq<Q15>)
    requires 0 < |x|
    ensures |r| == |w|
    ensures forall i :: 0 <= i < |w| ==> r[i] == AdaptedWeight(x, w, index, e, step, i)
  {
    seq(|w|, i requires 0 <= i < |w| => AdaptedWeight(x, w, index, e, step, i))
  }

  /// One call of process_fixed on the abstract state: the new state and the
  /// returned (echo-cancelled) sample.
  function Step(s: FilterState, far: Int16, near: Int16, adapt: bool, rule: StepRule): (r: (FilterState, Int16))
    requires WellFormed(s, |s.w|)
    ensures WellFormed(r.0, |s.w|)
    ensures r.0.index == (s.index + 1) % |s.w|
    ensures r.0.x[s.index] == FromRaw(far)
    ensures forall k :: 0 <= k < |s.x| && k != s.index ==> r.0.x[k] == s.x[k]
    ensures !adapt ==> r.0.w == s.w
  {
    var x := s.x[s.index := FromRaw(far)];
    var e := Sub(FromRaw(near), EchoEstimate(x, s.w, s.index));
    var w := if adapt then AdaptedWeights(x, s.w, s.index, e, rule(x)) else s.w;
    (FilterState(w, x, (s.index + 1) % |s.w|), Raw(e))
  }

  /// The returned sample is near minus the echo estimate, saturated; when
  /// the exact dot product fits in 32 bits the accumulator holds it exactly,
  /// so the estimate is the int16 conversion of its floor over 2^15.
  lemma StepOutput(s: FilterState, far: Int16, near: Int16, adapt: bool, rule: StepRule)
    requires WellFormed(s, |s.w|)
    ensures var x := s.x[s.index := FromRaw(far)];
            var d := Dot(x, s.w, s.index, |s.w|);
            InInt32(d) ==> Step(s, far, near, adapt, rule).1 == Saturate(near - Wrap16(d / 0x8000))
  {
  }

  /// With adaptation, weight i becomes w[i] + (tap_i * e) * step with the Q15
  /// operators, where e is the sample the call returns and the step size is
  /// the rule applied to the updated delay line; the weights stay in int16.
  lemma StepAdaptsWeights(s: FilterState, far: Int16, near: Int16, rule: StepRule, i: nat)
    requires WellFormed(s, |s.w|) && i < |s.w|
    ensures var r := Step(s, far, near, true, rule);
            r.0.w[i] == Add(s.w[i], Mul(Mul(Tap(r.0.x, s.index, i), FromRaw(r.1)), rule(r.0.x)))
  {
  }

  lemma {:induction false} DotOfZeroWeights(x: seq<Q15>, w: seq<Q15>, index: nat, n: nat)
    requires 0 < |x| && n <= |w| && AllZero(w)
    ensures Dot(x, w, index, n) == 0
  {
    if n > 0 {
      DotOfZeroWeights(x, w, index, n - 1);
      assert w[n - 1] == Zero;
    }
  }

  /// With all-zero weights (a fresh or reset filter) the estimate is 0 and
  /// the returned sample is near, unchanged, whatever far and adapt are.
  lemma ZeroWeightsPassNearThrough(s: FilterState, far: Int16, near: Int16, adapt: bool, rule: StepRule)
    requires WellFormed(s, |s.w|) && AllZero(s.w)
    ensures Step(s, far, near, adapt, rule).1 == near
  {
    DotOfZeroWeights(s.x[s.index := FromRaw(far)], s.w, s.index, |s.w|);
  }

  /// Processing a run of samples with one adapt flag: the final state and the
  /// returned samples in order.
  function Run(s: FilterState, fars: seq<Int16>, nears: seq<Int16>, adapt: bool, rule: StepRule): (r: (FilterState, seq<Int16>))
    requires WellFormed(s, |s.w|) && |fars| == |nears|
    ensures WellFormed(r.0, |s.w|) && |r.1| == |fars|
    ensures r.0.index == (s.index + |fars|) % |s.w|
    decreases |fars|
  {
    if |fars| == 0 then (s, [])
    else
      var n := |fars| - 1;
      var prev := Run(s, fars[..n], nears[..n], adapt, rule);
      var next := Step(prev.0, fars[n], nears[n], adapt, rule);
      ModSuccessor(s.index + n, |s.w|);
      (next.0, prev.1 + [next.1])
  }

  lemma ModSuccessor(a: nat, m: nat)
    requires 0 < m
    ensures (a % m + 1) % m == (a + 1) % m
  {
    var q := a / m;
    assert a == q * m + a % m;
    if a % m + 1 == m {
      ModUnique(a + 1, m, q + 1, 0);
    } else {
      ModUnique(a + 1, m, q, a % m + 1);
    }
  }

  /// The remainder is determined by any quotient-remainder decomposition.
  lemma ModUnique(v: int, m: int, q: int, r: int)
    requires 0 < m && 0 <= r < m && v == q * m + r
    ensures v % m == r
  {
    var k := q - v / m;
    assert k * m == v % m - r by {
      assert v == (v / m) * m + v % m;
    }
  }

  /// Without adaptation the weights never change.
  lemma {:induction false} RunWithoutAdaptKeepsWeights(s: FilterState, fars: seq<Int16>, nears: seq<Int16>, rule: StepRule)
    requires WellFormed(s, |s.w|) && |fars| == |nears|
    ensures Run(s, fars, nears, false, rule).0.w == s.w
    decreases |fars|
  {
    if |fars| > 0 {
      var n := |fars| - 1;
      RunWithoutAdaptKeepsWeights(s, fars[..n], nears[..n], rule);
    }
  }

  /// A fresh filter that is never allowed to adapt returns the near-end
  /// input unchanged, sample for sample.
  lemma {:induction false} FreshWithoutAdaptPassesNearThrough(length: nat, fars: seq<Int16>, nears: seq<Int16>, rule: StepRule)
    requires 0 < length && |fars| == |nears|
    ensures Run(Fresh(length), fars, nears, false, rule).1 == nears
    decreases |fars|
  {
    if |fars| > 0 {
      var n := |fars| - 1;
      var prev := Run(Fresh(length), fars[..n], nears[..n], false, rule);
      FreshWithoutAdaptPassesNearThrough(length, fars[..n], nears[..n], rule);
      RunWithoutAdaptKeepsWeights(Fresh(length), fars[..n], nears[..n], rule);
      ZeroWeightsPassNearThrough(prev.0, fars[n], nears[n], false, rule);
      assert nears[..n] + [nears[n]] == nears;
    }
  }

  /// The i-th returned sample of a run is the output of one step from the
  /// state the first i samples leave behind.
  lemma {:induction false} RunOutputAt(s: FilterState, fars: seq<Int16>, nears: seq<Int16>, adapt: bool, rule: StepRule, i: nat)
    requires WellFormed(s, |s.w|) && |fars| == |nears| && i < |fars|
    ensures Run(s, fars, nears, adapt, rule).1[i] ==
            Step(Run(s, fars[..i], nears[..i], adapt, rule).0, fars[i], nears[i], adapt, rule).1
    decreases |fars|
  {
    hide Step;
    var n := |fars| - 1;
    var prev := Run(s, fars[..n], nears[..n], adapt, rule);
    var next := Step(prev.0, fars[n], nears[n], adapt, rule);
    var whole := Run(s, fars, nears, adapt, rule).1;
    assert whole == prev.1 + [next.1];
    if i == n {
      assert whole[i] == next.1;
    } else {
      assert whole[i] == prev.1[i];
      assert prev.1[i] == Step(Run(s, fars[..i], nears[..i], adapt, rule).0, fars[i], nears[i], adapt, rule).1 by {
        var fs, ns := fars[..n], nears[..n];
        RunOutputAt(s, fs, ns, adapt, rule, i);
        assert fs[..i] == fars[..i] && ns[..i] == nears[..i];
      }
    }
  }

  /// One more sample of a run: the state after the first i + 1 samples is
  /// one step from the state after the first i, and that step's output is
  /// the run's i-th returned sample.
  lemma RunExtend(s: FilterState, fars: seq<Int16>, nears: seq<Int16>, adapt: bool, rule: StepRule, i: nat)
    requires WellFormed(s, |s.w|) && |fars| == |nears| && i < |fars|
    ensures var step := Step(Run(s, fars[..i], nears[..i], adapt, rule).0, fars[i], nears[i], adapt, rule);
            Run(s, fars[..i + 1], nears[..i + 1], adapt, rule).0 == step.0 &&
            Run(s, fars, nears, adapt, rule).1[i] == step.1
  {
    hide Step;
    RunOutputAt(s, fars, nears, adapt, rule, i);
    assert fars[..i + 1][..i] == fars[..i] && nears[..i + 1][..i] == nears[..i];
  }

  /// Two calls fewer than L apart write different slots.
  lemma DistinctSlots(a: nat, k: nat, n: nat, length: nat)
    requires k < n && n - k < length
    ensures (a + k) % length != (a + n) % length
  {
    var q, r := (a + k) / length, (a + k) % length;
    assert a + k == q * length + r;
    if r + (n - k) < length {
      ModUnique(a + n, length, q, r + (n - k));
    } else {
      assert (q + 1) * length == q * length + length;
      ModUnique(a + n, length, q + 1, r + (n - k) - length);
    }
  }

  /// Slot (a mod L + i) mod L is the one written lag = (L - i) mod L calls
  /// before the call that writes slot a mod L.
  lemma SlotOfLag(a: nat, i: nat, length: nat)
    requires i < length && (length - i) % length <= a
    ensures (a % length + i) % length == (a - (length - i) % length) % length
  {
    var q, r := a / length, a % length;
    assert a == q * length + r;
    if i == 0 {
      ModUnique(length, length, 1, 0);
      ModUnique(r, length, 0, r);
    } else {
      ModUnique(length - i, length, 0, length - i);
      assert (q - 1) * length == q * length - length;
      if r + i < length {
        ModUnique(r + i, length, 0, r + i);
        ModUnique(a - length + i, length, q - 1, r + i);
      } else {
        ModUnique(r + i, length, 1, r + i - length);
        ModUnique(a - length + i, length, q, r + i - length);
      }
    }
  }

  /// After a run, the slot written by call k still holds that call's far
  /// sample as long as fewer than L calls followed it.
  lemma {:induction false} DelayLineAfterRun(s: FilterState, fars: seq<Int16>, nears: seq<Int16>, adapt: bool,
                                             rule: StepRule, k: nat)
    requires WellFormed(s, |s.w|) && |fars| == |nears| && k < |fars| && |fars| - k <= |s.w|
    ensures Run(s, fars, nears, adapt, rule).0.x[(s.index + k) % |s.w|] == FromRaw(fars[k])
    decreases |fars|
  {
    hide Step;
    var n := |fars| - 1;
    var prev := Run(s, fars[..n], nears[..n], adapt, rule);
    assert Run(s, fars, nears, adapt, rule).0 == Step(prev.0, fars[n], nears[n], adapt, rule).0;
    if k < n {
      DelayLineAfterRun(s, fars[..n], nears[..n], adapt, rule, k);
      DistinctSlots(s.index, k, n, |s.w|);
    }
  }

  /// In call n of a run, weight i multiplies the far sample of call
  /// n - (L - i) mod L: weight 0 the sample just written, weight i >= 1 the
  /// one written L - i calls earlier. The weights thus serve the lags in the
  /// order 0, L - 1, L - 2, ..., 1.
  lemma TapLag(s: FilterState, fars: seq<Int16>, nears: seq<Int16>, adapt: bool, rule: StepRule, i: nat)
    requires WellFormed(s, |s.w|) && |fars| == |nears| && i < |s.w|
    requires (|s.w| - i) % |s.w| < |fars|
    ensures var n := |fars| - 1;
            Tap(Run(s, fars, nears, adapt, rule).0.x, (s.index + n) % |s.w|, i) ==
              FromRaw(fars[n - (|s.w| - i) % |s.w|])
  {
    hide Step;
    var n := |fars| - 1;
    var k := n - (|s.w| - i) % |s.w|;
    DelayLineAfterRun(s, fars, nears, adapt, rule, k);
    SlotOfLag(s.index + n, i, |s.w|);
  }

  /// The first sample a fresh (or freshly reset) filter returns is the
  /// near-end input itself, whatever the far-end input and adapt flag.
  lemma FreshFirstOutputIsNear(length: nat, fars: seq<Int16>, nears: seq<Int16>, adapt: bool, rule: StepRule)
    requires 0 < length && |fars| == |nears| > 0
    ensures Run(Fresh(length), fars, nears, adapt, rule).1[0] == nears[0]
  {
    RunOutputAt(Fresh(length), fars, nears, adapt, rule, 0);
    ZeroWeightsPassNearThrough(Fresh(length), fars[0], nears[0], adapt, rule);
  }

  /// NLMSFilter::Impl on its fixed-point path.
  class NlmsFilter {
    const length: nat
    const stepRule: StepRule
    const w: array<Q15>
    const x: array<Q15>
    var index: nat
    ghost const Repr: set<object>

    ghost predicate Valid()
      reads this, Repr
    {
      && Repr == {this, w, x}
      && w != x
      && 0 < length
      && w.Length == length && x.Length == length
      && index < length
    }

    ghost function State(): (s: FilterState)
      reads this, w, x
    {
      FilterState(w[..], x[..], index)
    }

    /// Construction allocates both vectors and resets them. A length of 0 is
    /// not rejected by the source and makes every later index computation
    /// divide by zero; the model requires a positive length.
    constructor (length: nat, stepRule: StepRule)
      requires 0 < length
      ensures Valid() && fresh(Repr - {this})
      ensures this.length == length && this.stepRule == stepRule
      ensures State() == Fresh(length)
    {
      this.length := length;
      this.stepRule := stepRule;
      w := new Q15[length](_ => Zero);
      x := new Q15[length](_ => Zero);
      index := 0;
      Repr := {this, w, x};
    }

    /// Zeroes weights and delay line in place and rewinds the index.
    method Reset()
      requires Valid()
      modifies w, x, this`index
      ensures Valid()
      ensures State() == Fresh(length)
    {
      forall i | 0 <= i < length {
        w[i] := Zero;
      }
      forall i | 0 <= i < length {
        x[i] := Zero;
      }
      index := 0;
    }

    /// The dot-product loop: the 32-bit accumulator after adding every
    /// product Tap(i) * w[i].
    method EchoAccumulator() returns (acc: int)
      requires Valid()
      ensures acc == Wrap32(Dot(x[..], w[..], index, length))
    {
      acc := 0;
      ghost var xs, ws := x[..], w[..];
      for i := 0 to length
        invariant acc == Wrap32(Dot(xs, ws, index, i))
      {
        var product := x[(index + i) % length].value * w[i].value;
        assert Dot(xs, ws, index, i + 1) == Dot(xs, ws, index, i) + product;
        Wrap32Add(Dot(xs, ws, index, i), product);
        acc := Wrap32(acc + product);
      }
    }

    /// The coefficient-update loop: every weight moves by (tap * e) * step,
    /// in place.
    method AdaptWeights(e: Q15, step: Q15)
      requires Valid()
      modifies w
      ensures Valid()
      ensures w[..] == AdaptedWeights(x[..], old(w[..]), index, e, step)
    {
      hide Mul, Add;
      for i := 0 to length
        invariant forall k :: 0 <= k < i ==> w[k] == AdaptedWeight(x[..], old(w[..]), index, e, step, k)
        invariant forall k :: i <= k < length ==> w[k] == old(w[k])
      {
        var update := Mul(x[(index + i) % length], e);
        var scaled := Mul(update, step);
        w[i] := Add(w[i], scaled);
      }
    }

    /// process_fixed: one sample through the filter.
    method ProcessFixed(farEnd: Int16, nearEnd: Int16, adapt: bool) returns (out: Int16)
      requires Valid()
      modifies w, x, this`index
      ensures Valid()
      ensures (State(), out) == Step(old(State()), farEnd, nearEnd, adapt, stepRule)
    {
      ghost var s := State();
      x[index] := FromRaw(farEnd);
      ghost var xs := s.x[s.index := FromRaw(farEnd)];
      assert x[..] == xs;
      var acc := EchoAccumulator();
      var y := FromRaw(Wrap16(acc / 0x8000));
      assert y == EchoEstimate(xs, s.w, s.index);
      var e := Sub(FromRaw(nearEnd), y);
      if adapt {
        AdaptWeights(e, stepRule(x[..]));
      }
      assert w[..] == Step(s, farEnd, nearEnd, adapt, stepRule).0.w;
      index := (index + 1) % length;
      out := Raw(e);
    }
  }
}
