/// The time-domain double-talk detector: per frame it averages far, near and
/// cross power over a strided channel, smooths them exponentially, declares
/// double-talk when near power dominates and is not coherent with far, and
/// keeps adaptation disabled for a hangover of frames after a detection.
/// The source computes in float and double; the model computes over exact
/// reals.
module DoubleTalk {
  import opened Ints

  /// The energy floor below which no double-talk is declared (1e-8).
  const DefaultMinNearEnergy: real := 0.00000001

  /// The guard added to divisors (1e-12).
  const Epsilon: real := 0.000000000001

  datatype DetectorParams = DetectorParams(
    alpha: real,
    nearToFarThreshold: real,
    coherenceThreshold: real,
    minNearEnergy: real,
    hangoverFrames: nat)

  datatype DetectorState = DetectorState(
    smFar: real,
    smNear: real,
    smCross: real,
    hangoverCounter: nat,
    adaptAllowed: bool)

  predicate ParamsValid(p: DetectorParams)
  {
    0.0 <= p.alpha <= 1.0
  }

  /// The invariant every reachable state keeps: smoothed powers of squares
  /// are non-negative and the counter never exceeds the hangover length.
  predicate StateValid(p: DetectorParams, s: DetectorState)
  {
    0.0 <= s.smFar && 0.0 <= s.smNear && s.hangoverCounter <= p.hangoverFrames
  }

  /// The state after construction and after reset.
  function Initial(): (s: DetectorState)
    ensures s.adaptAllowed && s.hangoverCounter == 0
    ensures s.smFar == 0.0 && s.smNear == 0.0 && s.smCross == 0.0
  {
    DetectorState(0.0, 0.0, 0.0, 0, true)
  }

  /// The n samples buf[offset + i * stride] fit in buf.
  predicate StridedInBounds(len: nat, offset: nat, n: nat, stride: nat)
  {
    n == 0 || offset + (n - 1) * stride < len
  }

  lemma StridedIndexInBounds(len: nat, offset: nat, n: nat, stride: nat, i: nat)
    requires StridedInBounds(len, offset, n, stride) && i < n
    ensures offset + i * stride < len
  {
    assert i * stride <= (n - 1) * stride by {
      assert (n - 1) * stride == i * stride + (n - 1 - i) * stride;
    }
  }

  /// The channel's samples buf[offset + i * stride] for i < n.
  function Strided(buf: seq<Int16>, offset: nat, n: nat, stride: nat): (r: seq<Int16>)
    requires StridedInBounds(|buf|, offset, n, stride)
    ensures |r| == n
    ensures forall i :: 0 <= i < n ==> r[i] == buf[offset + i * stride]
  {
    seq(n, i requires 0 <= i < n =>
      StridedIndexInBounds(|buf|, offset, n, stride, i);
      buf[offset + i * stride])
  }

  /// A sample as a fraction: v / 32768.
  function Sample(v: Int16): real
  {
    v as real / 32768.0
  }

  /// The product of two samples as fractions.
  function Power(a: Int16, b: Int16): real
  {
    Sample(a) * Sample(b)
  }

  lemma SquareNonNegative(v: Int16)
    ensures Power(v, v) >= 0.0
  {
    ProductNonNegative(Abs(v) as real / 32768.0, Abs(v) as real / 32768.0);
    assert Power(v, v) == (Abs(v) as real / 32768.0) * (Abs(v) as real / 32768.0);
  }

  /// The sum of the squared samples (the far and the near power of a frame
  /// before averaging); never negative.
  function Energy(s: seq<Int16>): (r: real)
    ensures r >= 0.0
  {
    if |s| == 0 then 0.0
    else
      SquareNonNegative(s[|s| - 1]);
      Energy(s[..|s| - 1]) + Power(s[|s| - 1], s[|s| - 1])
  }

  /// 2ab lies between -(a^2 + b^2) and a^2 + b^2.
  lemma CrossTermBound(a: Int16, b: Int16)
    ensures 2.0 * Power(a, b) <= Power(a, a) + Power(b, b)
    ensures -(Power(a, a) + Power(b, b)) <= 2.0 * Power(a, b)
  {
    var x, y := Sample(a), Sample(b);
    SquareOfDifference(x - y);
    SquareOfDifference(x + y);
    assert (x - y) * (x - y) == x * x + y * y - 2.0 * (x * y);
    assert (x + y) * (x + y) == x * x + y * y + 2.0 * (x * y);
  }

  lemma SquareOfDifference(d: real)
    ensures d * d >= 0.0
  {
    if d < 0.0 {
      ProductNonNegative(-d, -d);
    } else {
      ProductNonNegative(d, d);
    }
  }

  /// The sum of the products of far and near samples. Its magnitude is at
  /// most the mean of the two energies, and a signal's cross power with
  /// itself is its energy.
  function CrossEnergy(far: seq<Int16>, near: seq<Int16>): (r: real)
    requires |far| == |near|
    ensures 2.0 * r <= Energy(far) + Energy(near)
    ensures -(Energy(far) + Energy(near)) <= 2.0 * r
    ensures far == near ==> r == Energy(far)
  {
    if |far| == 0 then 0.0
    else
      CrossTermBound(far[|far| - 1], near[|near| - 1]);
      CrossEnergy(far[..|far| - 1], near[..|near| - 1]) + Power(far[|far| - 1], near[|near| - 1])
  }

  /// A silent far-end frame has no far power and no cross power.
  lemma {:induction false} SilentFarHasNoEnergy(far: seq<Int16>, near: seq<Int16>)
    requires |far| == |near|
    requires forall i :: 0 <= i < |far| ==> far[i] == 0
    ensures Energy(far) == 0.0 && CrossEnergy(far, near) == 0.0
  {
    if |far| > 0 {
      SilentFarHasNoEnergy(far[..|far| - 1], near[..|near| - 1]);
    }
  }

  /// Exponential smoothing with factor alpha: alpha 1 keeps the previous
  /// value, alpha 0 takes the instant one, and a value equal to the
  /// previous one is a fixed point.
  function Smooth(alpha: real, previous: real, instant: real): (r: real)
    ensures alpha == 1.0 ==> r == previous
    ensures alpha == 0.0 ==> r == instant
    ensures previous == instant ==> r == previous
  {
    alpha * previous + (1.0 - alpha) * instant
  }

  /// For alpha in [0, 1] the smoothed value lies between the previous
  /// smoothed value and the new instant value.
  lemma SmoothBetween(alpha: real, previous: real, instant: real)
    requires 0.0 <= alpha <= 1.0
    ensures previous <= instant ==> previous <= Smooth(alpha, previous, instant) <= instant
    ensures instant <= previous ==> instant <= Smooth(alpha, previous, instant) <= previous
  {
    var r := Smooth(alpha, previous, instant);
    assert r - previous == (1.0 - alpha) * (instant - previous);
    assert r - instant == alpha * (previous - instant);
    if previous <= instant {
      ProductNonNegative(1.0 - alpha, instant - previous);
      ProductNonNegative(alpha, instant - previous);
    } else {
      ProductNonNegative(1.0 - alpha, previous - instant);
      ProductNonNegative(alpha, previous - instant);
    }
  }

  lemma ProductNonNegative(a: real, b: real)
    requires 0.0 <= a && 0.0 <= b
    ensures 0.0 <= a * b
  {
  }

  function Max(a: real, b: real): real
  {
    if a < b then b else a
  }

  /// Near power over far power, guarded against a zero divisor: the ratio
  /// exceeds t exactly when the near power exceeds t times the guarded far
  /// power.
  function Ratio(smFar: real, smNear: real): (r: real)
    requires 0.0 <= smFar
    ensures 0.0 <= smNear ==> 0.0 <= r
    ensures r * (smFar + Epsilon) == smNear
  {
    smNear / (smFar + Epsilon)
  }

  /// For a positive divisor, a quotient exceeds t exactly when the dividend
  /// exceeds t times the divisor.
  lemma QuotientAbove(a: real, d: real, t: real)
    requires 0.0 < d
    ensures a / d > t <==> a > t * d
  {
    assert a - t * d == (a / d - t) * d;
    if a / d > t {
      ProductPositive(a / d - t, d);
    } else {
      ProductNonNegative(t - a / d, d);
    }
  }

  lemma ProductPositive(a: real, b: real)
    requires 0.0 < a && 0.0 < b
    ensures 0.0 < a * b
  {
  }

  /// Squared cross power over the product of the powers, guarded likewise:
  /// never negative, and zero when the cross power is zero.
  function Coherence(smFar: real, smNear: real, smCross: real): (r: real)
    ensures 0.0 <= r
    ensures smCross == 0.0 ==> r == 0.0
  {
    SquareOverPositive(smCross, Max(Epsilon, smFar * smNear));
    (smCross * smCross) / Max(Epsilon, smFar * smNear)
  }

  /// A square over a positive divisor is never negative, and zero when the
  /// squared value is.
  lemma SquareOverPositive(v: real, d: real)
    requires 0.0 < d
    ensures 0.0 <= v * v / d
    ensures v == 0.0 ==> v * v / d == 0.0
  {
    SquareOfDifference(v);
    QuotientAbove(v * v, d, 0.0);
  }

  /// The decision rule on the smoothed powers: double-talk exactly when the
  /// near power reaches the floor, exceeds the threshold times the guarded
  /// far power, and is not coherent with the far power.
  function Detected(p: DetectorParams, smFar: real, smNear: real, smCross: real): (r: bool)
    requires 0.0 <= smFar
    ensures r <==> p.minNearEnergy <= smNear
                   && smNear > p.nearToFarThreshold * (smFar + Epsilon)
                   && Coherence(smFar, smNear, smCross) < p.coherenceThreshold
  {
    QuotientAbove(smNear, smFar + Epsilon, p.nearToFarThreshold);
    if smNear < p.minNearEnergy then false
    else Ratio(smFar, smNear) > p.nearToFarThreshold && Coherence(smFar, smNear, smCross) < p.coherenceThreshold
  }

  /// The hangover state machine: the new counter and the adapt flag.
  /// Adaptation is allowed exactly when nothing was detected and the counter
  /// was at most one, i.e. it reaches (or stays at) zero on this frame.
  function Hangover(counter: nat, hangoverFrames: nat, detected: bool): (r: (nat, bool))
    ensures r.1 <==> !detected && counter <= 1
    ensures detected ==> r.0 == hangoverFrames
    ensures !detected && 0 < counter ==> r.0 == counter - 1
    ensures !detected && counter == 0 ==> r.0 == 0
    ensures counter <= hangoverFrames ==> r.0 <= hangoverFrames
  {
    if detected then (hangoverFrames, false)
    else if counter > 0 then (counter - 1, counter - 1 == 0)
    else (0, true)
  }

  /// The adapt flags returned by k frames in a row without detection,
  /// starting from counter.
  function QuietFrames(counter: nat, hangoverFrames: nat, k: nat): (r: seq<bool>)
    ensures |r| == k
  {
    if k == 0 then []
    else
      var next := Hangover(counter, hangoverFrames, false);
      [next.1] + QuietFrames(next.0, hangoverFrames, k - 1)
  }

  lemma {:induction false} QuietFramesFrom(counter: nat, hangoverFrames: nat, k: nat)
    ensures forall j :: 0 <= j < k ==> (QuietFrames(counter, hangoverFrames, k)[j] <==> j + 1 >= counter)
  {
    if k > 0 {
      var next := Hangover(counter, hangoverFrames, false);
      QuietFramesFrom(next.0, hangoverFrames, k - 1);
    }
  }

  /// After a detection (which sets the counter to H and returns false), the
  /// following quiet frames return false exactly while fewer than H of them
  /// have passed: the first max(H - 1, 0) return false, every later one true.
  lemma HangoverAfterDetection(hangoverFrames: nat, counter: nat, k: nat)
    ensures var d := Hangover(counter, hangoverFrames, true);
            !d.1 &&
            forall j :: 0 <= j < k ==> (QuietFrames(d.0, hangoverFrames, k)[j] <==> j + 1 >= hangoverFrames)
  {
    QuietFramesFrom(hangoverFrames, hangoverFrames, k);
  }

  /// One call of update on the abstract state, for the channel's samples.
  function NextState(p: DetectorParams, s: DetectorState, far: seq<Int16>, near: seq<Int16>): (r: DetectorState)
    requires ParamsValid(p) && StateValid(p, s)
    requires |far| == |near| > 0
    ensures StateValid(p, r)
  {
    var n := |far| as real;
    SmoothBetween(p.alpha, s.smFar, Energy(far) / n);
    SmoothBetween(p.alpha, s.smNear, Energy(near) / n);
    var smFar := Smooth(p.alpha, s.smFar, Energy(far) / n);
    var smNear := Smooth(p.alpha, s.smNear, Energy(near) / n);
    var smCross := Smooth(p.alpha, s.smCross, CrossEnergy(far, near) / n);
    var h := Hangover(s.hangoverCounter, p.hangoverFrames, Detected(p, smFar, smNear, smCross));
    DetectorState(smFar, smNear, smCross, h.0, h.1)
  }

  /// Below the energy floor no double-talk is declared, so a frame after
  /// which the smoothed near power is below the floor follows the quiet
  /// branch of the hangover machine.
  lemma QuietNearIsNotDoubleTalk(p: DetectorParams, s: DetectorState, far: seq<Int16>, near: seq<Int16>)
    requires ParamsValid(p) && StateValid(p, s) && |far| == |near| > 0
    ensures var r := NextState(p, s, far, near);
            r.smNear < p.minNearEnergy ==>
              (r.hangoverCounter, r.adaptAllowed) == Hangover(s.hangoverCounter, p.hangoverFrames, false)
  {
  }

  /// From a state with no far or cross power (a fresh detector, for one), a
  /// frame of far-end silence keeps both at zero, so coherence is 0; with the
  /// default floor, any near power reaching the floor gives a ratio of at
  /// least 10^4 and is declared double-talk, disabling adaptation.
  lemma FarSilenceDisablesAdaptation(p: DetectorParams, s: DetectorState, far: seq<Int16>, near: seq<Int16>)
    requires ParamsValid(p) && StateValid(p, s) && |far| == |near| > 0
    requires s.smFar == 0.0 && s.smCross == 0.0
    requires forall i :: 0 <= i < |far| ==> far[i] == 0
    requires p.minNearEnergy == DefaultMinNearEnergy
    requires p.nearToFarThreshold < 10000.0 && 0.0 < p.coherenceThreshold
    ensures var r := NextState(p, s, far, near);
            r.smFar == 0.0 && r.smCross == 0.0 &&
            (r.smNear >= p.minNearEnergy ==> !r.adaptAllowed && r.hangoverCounter == p.hangoverFrames)
  {
    SilentFarHasNoEnergy(far, near);
    var r := NextState(p, s, far, near);
    assert r.smFar == 0.0 && r.smCross == 0.0;
    if r.smNear >= p.minNearEnergy {
      assert Ratio(0.0, r.smNear) == r.smNear / Epsilon;
      assert r.smNear / Epsilon >= 10000.0;
      assert Coherence(0.0, r.smNear, 0.0) == 0.0;
    }
  }

  /// The frame loop of update: the mean far, near and cross power of the
  /// strided channel samples.
  method FrameEnergies(far: seq<Int16>, near: seq<Int16>, offset: nat, frameSize: nat, stride: nat)
    returns (farPow: real, nearPow: real, cross: real)
    requires 0 < frameSize
    requires StridedInBounds(|far|, offset, frameSize, stride)
    requires StridedInBounds(|near|, offset, frameSize, stride)
    ensures var fs, ns := Strided(far, offset, frameSize, stride), Strided(near, offset, frameSize, stride);
            && farPow == Energy(fs) / frameSize as real
            && nearPow == Energy(ns) / frameSize as real
            && cross == CrossEnergy(fs, ns) / frameSize as real
  {
    ghost var fs, ns := Strided(far, offset, frameSize, stride), Strided(near, offset, frameSize, stride);
    farPow, nearPow, cross := 0.0, 0.0, 0.0;
    for i := 0 to frameSize
      invariant farPow == Energy(fs[..i])
      invariant nearPow == Energy(ns[..i])
      invariant cross == CrossEnergy(fs[..i], ns[..i])
    {
      StridedIndexInBounds(|far|, offset, frameSize, stride, i);
      StridedIndexInBounds(|near|, offset, frameSize, stride, i);
      var k := offset + i * stride;
      var f, n := far[k], near[k];
      assert fs[i] == f && ns[i] == n;
      ghost var fi, ni := fs[..i + 1], ns[..i + 1];
      assert fi[..i] == fs[..i] && ni[..i] == ns[..i];
      assert Energy(fi) == Energy(fs[..i]) + Power(f, f);
      assert Energy(ni) == Energy(ns[..i]) + Power(n, n);
      assert CrossEnergy(fi, ni) == CrossEnergy(fs[..i], ns[..i]) + Power(f, n);
      farPow := farPow + Power(f, f);
      nearPow := nearPow + Power(n, n);
      cross := cross + Power(f, n);
    }
    assert fs[..frameSize] == fs && ns[..frameSize] == ns;
    farPow := farPow / frameSize as real;
    nearPow := nearPow / frameSize as real;
    cross := cross / frameSize as real;
  }

  /// The decision logic of update on the smoothed powers.
  method Decide(p: DetectorParams, smFar: real, smNear: real, smCross: real) returns (detected: bool)
    requires 0.0 <= smFar
    ensures detected == Detected(p, smFar, smNear, smCross)
  {
    detected := false;
    if smNear < p.minNearEnergy {
      detected := false;
    } else {
      var ratio := Ratio(smFar, smNear);
      var coherence := Coherence(smFar, smNear, smCross);
      if ratio > p.nearToFarThreshold && coherence < p.coherenceThreshold {
        detected := true;
      }
    }
  }

  /// The hangover logic of update.
  method HangoverStep(counter: nat, hangoverFrames: nat, detected: bool) returns (next: nat, allowed: bool)
    ensures (next, allowed) == Hangover(counter, hangoverFrames, detected)
  {
    next := counter;
    if detected {
      next := hangoverFrames;
      allowed := false;
    } else {
      if next > 0 {
        next := next - 1;
        allowed := next == 0;
      } else {
        allowed := true;
      }
    }
  }

  /// NextState in terms of the smoothed powers it computes.
  lemma NextStateOf(p: DetectorParams, s: DetectorState, far: seq<Int16>, near: seq<Int16>,
                    smFar: real, smNear: real, smCross: real)
    requires ParamsValid(p) && StateValid(p, s)
    requires |far| == |near| > 0 && 0.0 <= smFar
    requires smFar == Smooth(p.alpha, s.smFar, Energy(far) / |far| as real)
    requires smNear == Smooth(p.alpha, s.smNear, Energy(near) / |far| as real)
    requires smCross == Smooth(p.alpha, s.smCross, CrossEnergy(far, near) / |far| as real)
    ensures var h := Hangover(s.hangoverCounter, p.hangoverFrames, Detected(p, smFar, smNear, smCross));
            NextState(p, s, far, near) == DetectorState(smFar, smNear, smCross, h.0, h.1)
  {
  }

  /// DoubleTalkDetector
  class DoubleTalkDetector {
    const alpha: real
    const nearToFarThreshold: real
    const coherenceThreshold: real
    const minNearEnergy: real
    const hangoverFrames: nat
    var smFar: real
    var smNear: real
    var smCross: real
    var hangoverCounter: nat
    var adaptAllowed: bool

    function Params(): DetectorParams
    {
      DetectorParams(alpha, nearToFarThreshold, coherenceThreshold, minNearEnergy, hangoverFrames)
    }

    ghost function State(): DetectorState
      reads this
    {
      DetectorState(smFar, smNear, smCross, hangoverCounter, adaptAllowed)
    }

    ghost predicate Valid()
      reads this
    {
      ParamsValid(Params()) && StateValid(Params(), State())
    }

    /// The frame size argument is accepted and not used, as in the source.
    /// The smoothing factor is a weight in [0, 1].
    constructor (frameSize: nat, nearToFarThreshold: real, coherenceThreshold: real,
                 smoothingAlpha: real, hangoverFrames: nat)
      requires 0.0 <= smoothingAlpha <= 1.0
      ensures Valid()
      ensures Params() == DetectorParams(smoothingAlpha, nearToFarThreshold, coherenceThreshold,
                                         DefaultMinNearEnergy, hangoverFrames)
      ensures State() == Initial()
    {
      alpha := smoothingAlpha;
      this.nearToFarThreshold := nearToFarThreshold;
      this.coherenceThreshold := coherenceThreshold;
      minNearEnergy := DefaultMinNearEnergy;
      this.hangoverFrames := hangoverFrames;
      smFar, smNear, smCross := 0.0, 0.0, 0.0;
      hangoverCounter := 0;
      adaptAllowed := true;
    }

    method Reset()
      requires Valid()
      modifies this
      ensures Valid()
      ensures State() == Initial()
    {
      smFar, smNear, smCross := 0.0, 0.0, 0.0;
      hangoverCounter := 0;
      adaptAllowed := true;
    }

    /// update over the channel whose samples are buf[offset + i * stride];
    /// the returned flag is the stored one.
    method Update(far: seq<Int16>, near: seq<Int16>, offset: nat, frameSize: nat, stride: nat)
      returns (allowed: bool)
      requires Valid()
      requires 0 < frameSize
      requires StridedInBounds(|far|, offset, frameSize, stride)
      requires StridedInBounds(|near|, offset, frameSize, stride)
      modifies this
      ensures Valid()
      ensures State() == NextState(Params(), old(State()),
                                           Strided(far, offset, frameSize, stride),
                                           Strided(near, offset, frameSize, stride))
      ensures allowed == adaptAllowed
    {
      hide Energy, CrossEnergy, Ratio, Coherence, Smooth, Power, Detected, NextState;
      ghost var s0 := State();
      var farPow, nearPow, cross := FrameEnergies(far, near, offset, frameSize, stride);
      ghost var fs, ns := Strided(far, offset, frameSize, stride), Strided(near, offset, frameSize, stride);
      SmoothBetween(alpha, smFar, farPow);
      SmoothBetween(alpha, smNear, nearPow);
      smFar := Smooth(alpha, smFar, farPow);
      smNear := Smooth(alpha, smNear, nearPow);
      smCross := Smooth(alpha, smCross, cross);
      var detected := Decide(Params(), smFar, smNear, smCross);
      hangoverCounter, adaptAllowed := HangoverStep(hangoverCounter, hangoverFrames, detected);
      NextStateOf(Params(), s0, fs, ns, smFar, smNear, smCross);
      allowed := adaptAllowed;
    }

    /// is_adapt_allowed
    function IsAdaptAllowed(): (r: bool)
      reads this
      ensures r <==> adaptAllowed
    {
      adaptAllowed
    }
  }
}
