/// The echo-cancellation engine: one NLMS filter and one double-talk
/// detector per channel. A frame holds interleaved samples, sample i of
/// channel c at position i * ch + c. Each channel first asks its detector
/// whether adaptation is allowed and then runs its filter over its own
/// samples. Only the fixed-point path is modelled: samples go to the filter
/// as raw Q15 values.
module Aec {
  import opened Ints
  import opened FixedPoint
  import opened Nlms
  import opened DoubleTalk

  type PosInt = n: int | 1 <= n witness 1
  type U64 = v: int | 0 <= v < 0x1_0000_0000_0000_0000

  /// AECConfig::max_channels. The headers do not give its value; the model
  /// only relies on it being at least one.
  const MaxChannels: PosInt

  /// The ERLE the engine reports, in dB.
  const ReportedErle: real := 25.0

  datatype Algorithm = NLMS | RLS

  /// AECConfig. The channel count is a field the engine reads; its default
  /// is one channel.
  datatype Config = Config(
    algorithm: Algorithm,
    sampleRate: U32,
    frameSize: U32,
    filterLength: U32,
    mu: real,
    delta: real,
    useFixedPoint: bool,
    enableDoubleTalkDetection: bool,
    dtdNearToFarThreshold: real,
    dtdCoherenceThreshold: real,
    dtdSmoothingAlpha: real,
    dtdHangoverFrames: U32,
    channels: U32)

  /// The default configuration: 16 kHz, 256-sample frames, 1024 taps,
  /// mu 0.1, delta 1e-6, fixed point, detection on with thresholds 1.5 and
  /// 0.3, smoothing 0.9 and a hangover of 3 frames.
  const DefaultConfig: Config :=
    Config(NLMS, 16000, 256, 1024, 0.1, 0.000001, true, true, 1.5, 0.3, 0.9, 3, 1)

  function Max1(n: nat): (r: nat)
    ensures 1 <= r && n <= r && (r == n || (n == 0 && r == 1))
  {
    if n < 1 then 1 else n
  }

  function Min(a: nat, b: nat): (r: nat)
    ensures r <= a && r <= b && (r == a || r == b)
  {
    if a < b then a else b
  }

  /// The number of filter/detector pairs an engine owns: the configured
  /// channel count clamped to [1, MaxChannels].
  function PairCount(cfg: Config): (n: nat)
    ensures 1 <= n <= MaxChannels
    ensures 1 <= cfg.channels <= MaxChannels ==> n == cfg.channels
    ensures cfg.channels == 0 ==> n == 1
    ensures cfg.channels > MaxChannels ==> n == MaxChannels
  {
    Min(Max1(cfg.channels), MaxChannels)
  }

  /// The channel count a process call uses: the requested count clamped to
  /// [1, MaxChannels], then limited to the configured count (at least one).
  /// It never exceeds the number of pairs, so every filter and detector
  /// access is in bounds.
  function EffectiveChannels(cfg: Config, requested: nat): (ch: nat)
    ensures 1 <= ch <= PairCount(cfg)
    ensures ch <= Max1(requested)
    ensures ch == PairCount(cfg) || ch == Max1(requested)
  {
    Min(Min(Max1(requested), MaxChannels), Max1(cfg.channels))
  }

  /// The parameters each detector is built with.
  function DetectorParamsOf(cfg: Config): DetectorParams
  {
    DetectorParams(cfg.dtdSmoothingAlpha, cfg.dtdNearToFarThreshold, cfg.dtdCoherenceThreshold,
                   DefaultMinNearEnergy, cfg.dtdHangoverFrames)
  }

  /// The state of one channel: its filter and its detector.
  datatype ChannelState = ChannelState(filter: FilterState, detector: DetectorState)

  /// The channel after construction or reset.
  function FreshChannel(cfg: Config): (s: ChannelState)
    requires 0 < cfg.filterLength
    ensures s.filter == Fresh(cfg.filterLength) && s.detector == Initial()
  {
    ChannelState(Fresh(cfg.filterLength), Initial())
  }

  /// The invariant every channel of an engine keeps.
  predicate ChannelValid(cfg: Config, s: ChannelState)
  {
    && 0 < cfg.filterLength
    && ParamsValid(DetectorParamsOf(cfg))
    && WellFormed(s.filter, cfg.filterLength)
    && StateValid(DetectorParamsOf(cfg), s.detector)
  }

  predicate ChannelsValid(cfg: Config, chans: seq<ChannelState>)
  {
    forall c :: 0 <= c < |chans| ==> ChannelValid(cfg, chans[c])
  }

  /// A frame of n samples per channel over ch interleaved channels fits a
  /// buffer of length len.
  predicate FrameFits(len: nat, n: nat, ch: nat)
  {
    n * ch <= len
  }

  /// The source computes the positions i * ch + c (and the detector's
  /// offsets i * stride) in 32-bit unsigned arithmetic. They are the exact
  /// positions when the frame has at most 2^32 interleaved samples.
  predicate IndicesFitU32(n: nat, ch: nat)
  {
    n * ch <= 0x1_0000_0000
  }

  /// The interleaved position of sample i of channel c.
  function InterleavedIndex(i: nat, ch: nat, c: nat): nat
  {
    i * ch + c
  }

  /// Every position a frame within IndicesFitU32 uses is below 2^32, so the
  /// source's 32-bit computation of it does not wrap; and a frame beyond it
  /// has a position that does.
  lemma InterleavedIndexFitsU32(n: nat, ch: nat)
    requires 0 < ch
    ensures IndicesFitU32(n, ch) <==>
              forall i, c :: 0 <= i < n && 0 <= c < ch ==> InterleavedIndex(i, ch, c) < 0x1_0000_0000
  {
    if IndicesFitU32(n, ch) {
      forall i, c | 0 <= i < n && 0 <= c < ch
        ensures InterleavedIndex(i, ch, c) < 0x1_0000_0000
      {
        MulLe(i + 1, n, ch);
        assert (i + 1) * ch == i * ch + ch;
      }
    } else {
      assert InterleavedIndex(n - 1, ch, ch - 1) == n * ch - 1;
    }
  }

  lemma ChannelInBounds(len: nat, n: nat, ch: nat, c: nat)
    requires FrameFits(len, n, ch) && c < ch
    ensures StridedInBounds(len, c, n, ch)
  {
    if n > 0 {
      assert n * ch == (n - 1) * ch + ch;
    }
  }

  /// The interleaved position i * ch + c holds sample i of channel c:
  /// its quotient by ch is i and its remainder c.
  lemma InterleavedPosition(i: nat, ch: nat, c: nat)
    requires c < ch
    ensures 0 <= i * ch && (i * ch + c) / ch == i && (i * ch + c) % ch == c
  {
    MulLe(0, i, ch);
    var v := i * ch + c;
    ModUnique(v, ch, i, c);
    assert (v / ch - i) * ch == 0 by {
      assert v == (v / ch) * ch + v % ch;
    }
  }

  /// Positions below n * ch are exactly those whose sample index is below n.
  lemma InterleavedBound(idx: nat, n: nat, ch: nat)
    requires 0 < ch
    ensures idx < n * ch <==> idx / ch < n
  {
    var q := idx / ch;
    assert idx == q * ch + idx % ch;
    if q < n {
      MulLe(q + 1, n, ch);
      assert (q + 1) * ch == q * ch + ch;
    } else {
      MulLe(n, q, ch);
    }
  }

  lemma MulLe(a: nat, b: nat, m: nat)
    requires a <= b
    ensures a * m <= b * m
  {
    assert b * m == a * m + (b - a) * m;
  }

  /// One channel through one process call, on its own samples: the
  /// detector (when enabled) sees the whole frame and decides whether the
  /// filter may adapt; the filter then runs over the samples with that flag.
  function ChannelStep(cfg: Config, rule: StepRule, s: ChannelState, fs: seq<Int16>, ns: seq<Int16>)
    : (r: (ChannelState, seq<Int16>))
    requires ChannelValid(cfg, s) && |fs| == |ns|
    requires cfg.enableDoubleTalkDetection ==> 0 < |fs|
    ensures ChannelValid(cfg, r.0) && |r.1| == |fs|
    ensures !cfg.enableDoubleTalkDetection ==> r.0.detector == s.detector
  {
    var d := if cfg.enableDoubleTalkDetection then NextState(DetectorParamsOf(cfg), s.detector, fs, ns)
             else s.detector;
    var adapt := if cfg.enableDoubleTalkDetection then d.adaptAllowed else true;
    var run := Run(s.filter, fs, ns, adapt, rule);
    (ChannelState(run.0, d), run.1)
  }

  /// Channel c of an interleaved frame of n samples per channel.
  function ChannelFrame(cfg: Config, rule: StepRule, s: ChannelState,
                        far: seq<Int16>, near: seq<Int16>, n: nat, ch: nat, c: nat): (r: (ChannelState, seq<Int16>))
    requires ChannelValid(cfg, s)
    requires c < ch && FrameFits(|far|, n, ch) && FrameFits(|near|, n, ch)
    requires cfg.enableDoubleTalkDetection ==> 0 < n
    ensures ChannelValid(cfg, r.0) && |r.1| == n
  {
    ChannelInBounds(|far|, n, ch, c);
    ChannelInBounds(|near|, n, ch, c);
    ChannelStep(cfg, rule, s, Strided(far, c, n, ch), Strided(near, c, n, ch))
  }

  /// The channel states once the first k of the ch channels have run on
  /// the frame; the others are as they were.
  function ChannelsAfter(cfg: Config, rule: StepRule, chans: seq<ChannelState>,
                         far: seq<Int16>, near: seq<Int16>, n: nat, ch: nat, k: nat): (r: seq<ChannelState>)
    requires ChannelsValid(cfg, chans) && k <= ch <= |chans|
    requires FrameFits(|far|, n, ch) && FrameFits(|near|, n, ch)
    requires cfg.enableDoubleTalkDetection ==> 0 < n
    ensures |r| == |chans| && ChannelsValid(cfg, r)
    ensures forall c :: k <= c < |chans| ==> r[c] == chans[c]
  {
    seq(|chans|, c requires 0 <= c < |chans| =>
      if c < k then ChannelFrame(cfg, rule, chans[c], far, near, n, ch, c).0 else chans[c])
  }

  /// The channel states after a process call: the first ch channels have
  /// run, the others are as they were.
  function ProcessChannels(cfg: Config, rule: StepRule, chans: seq<ChannelState>,
                           far: seq<Int16>, near: seq<Int16>, n: nat, ch: nat): (r: seq<ChannelState>)
    requires ChannelsValid(cfg, chans) && ch <= |chans|
    requires FrameFits(|far|, n, ch) && FrameFits(|near|, n, ch)
    requires cfg.enableDoubleTalkDetection ==> 0 < n
    ensures |r| == |chans| && ChannelsValid(cfg, r)
  {
    ChannelsAfter(cfg, rule, chans, far, near, n, ch, ch)
  }

  /// Output sample i of channel c in a process call.
  function ChannelSample(cfg: Config, rule: StepRule, chans: seq<ChannelState>,
                         far: seq<Int16>, near: seq<Int16>, n: nat, ch: nat, i: nat, c: nat): Int16
    requires ChannelsValid(cfg, chans) && ch <= |chans|
    requires FrameFits(|far|, n, ch) && FrameFits(|near|, n, ch)
    requires cfg.enableDoubleTalkDetection ==> 0 < n
    requires i < n && c < ch
  {
    ChannelFrame(cfg, rule, chans[c], far, near, n, ch, c).1[i]
  }

  /// The output buffer after a process call: position idx whose sample
  /// index idx / ch is below n holds that sample of channel idx % ch; the
  /// rest is as it was.
  function ProcessOutput(cfg: Config, rule: StepRule, chans: seq<ChannelState>,
                         far: seq<Int16>, near: seq<Int16>, n: nat, ch: nat, out: seq<Int16>): (r: seq<Int16>)
    requires ChannelsValid(cfg, chans) && 0 < ch <= |chans|
    requires FrameFits(|far|, n, ch) && FrameFits(|near|, n, ch)
    requires cfg.enableDoubleTalkDetection ==> 0 < n
    ensures |r| == |out|
  {
    seq(|out|, idx requires 0 <= idx < |out| =>
      if idx / ch < n then ChannelSample(cfg, rule, chans, far, near, n, ch, idx / ch, idx % ch) else out[idx])
  }

  /// The output buffer once the first k channels have written their
  /// samples, channel after channel.
  function OutputAfter(cfg: Config, rule: StepRule, chans: seq<ChannelState>,
                       far: seq<Int16>, near: seq<Int16>, n: nat, ch: nat, out: seq<Int16>, k: nat): (r: seq<Int16>)
    requires ChannelsValid(cfg, chans) && k <= ch <= |chans|
    requires FrameFits(|far|, n, ch) && FrameFits(|near|, n, ch)
    requires cfg.enableDoubleTalkDetection ==> 0 < n
    ensures |r| == |out|
  {
    if k == 0 then out
    else
      Scatter(OutputAfter(cfg, rule, chans, far, near, n, ch, out, k - 1),
              ChannelFrame(cfg, rule, chans[k - 1], far, near, n, ch, k - 1).1, ch, k - 1, n)
  }

  /// Position j after the first k channels: the channel's sample where j
  /// belongs to one of them, the old value elsewhere.
  function SampleOrOld(cfg: Config, rule: StepRule, chans: seq<ChannelState>,
                       far: seq<Int16>, near: seq<Int16>, n: nat, ch: nat, out: seq<Int16>, k: nat, j: nat): Int16
    requires ChannelsValid(cfg, chans) && k <= ch <= |chans|
    requires FrameFits(|far|, n, ch) && FrameFits(|near|, n, ch)
    requires cfg.enableDoubleTalkDetection ==> 0 < n
    requires 0 < ch && j < |out|
  {
    if j / ch < n && j % ch < k then ChannelSample(cfg, rule, chans, far, near, n, ch, j / ch, j % ch) else out[j]
  }

  /// What the first k channels leave at each position: the channel's sample
  /// where the position belongs to one of them, the old value elsewhere.
  lemma {:induction false} OutputAfterAt(cfg: Config, rule: StepRule, chans: seq<ChannelState>,
                                         far: seq<Int16>, near: seq<Int16>, n: nat, ch: nat, out: seq<Int16>,
                                         k: nat, j: nat)
    requires ChannelsValid(cfg, chans) && k <= ch <= |chans|
    requires FrameFits(|far|, n, ch) && FrameFits(|near|, n, ch)
    requires cfg.enableDoubleTalkDetection ==> 0 < n
    requires 0 < ch && j < |out|
    ensures OutputAfter(cfg, rule, chans, far, near, n, ch, out, k)[j] == SampleOrOld(cfg, rule, chans, far, near, n, ch, out, k, j)
  {
    hide ChannelFrame, Scatter;
    if k > 0 {
      var prev := OutputAfter(cfg, rule, chans, far, near, n, ch, out, k - 1);
      var vals := ChannelFrame(cfg, rule, chans[k - 1], far, near, n, ch, k - 1).1;
      OutputAfterAt(cfg, rule, chans, far, near, n, ch, out, k - 1, j);
      ScatterAt(prev, vals, ch, k - 1, n, j);
    }
  }

  /// After all ch channels the buffer is the process call's output.
  lemma OutputAfterAll(cfg: Config, rule: StepRule, chans: seq<ChannelState>,
                       far: seq<Int16>, near: seq<Int16>, n: nat, ch: nat, out: seq<Int16>)
    requires ChannelsValid(cfg, chans) && 0 < ch <= |chans|
    requires FrameFits(|far|, n, ch) && FrameFits(|near|, n, ch)
    requires cfg.enableDoubleTalkDetection ==> 0 < n
    ensures OutputAfter(cfg, rule, chans, far, near, n, ch, out, ch) ==
            ProcessOutput(cfg, rule, chans, far, near, n, ch, out)
  {
    var a, b := OutputAfter(cfg, rule, chans, far, near, n, ch, out, ch),
                ProcessOutput(cfg, rule, chans, far, near, n, ch, out);
    forall j | 0 <= j < |out|
      ensures a[j] == b[j]
    {
      OutputAfterAt(cfg, rule, chans, far, near, n, ch, out, ch, j);
    }
  }

  /// Channel k's samples are written over what the first k channels left.
  lemma OutputAfterStep(cfg: Config, rule: StepRule, chans: seq<ChannelState>,
                        far: seq<Int16>, near: seq<Int16>, n: nat, ch: nat, out: seq<Int16>, k: nat)
    requires ChannelsValid(cfg, chans) && k < ch <= |chans|
    requires FrameFits(|far|, n, ch) && FrameFits(|near|, n, ch)
    requires cfg.enableDoubleTalkDetection ==> 0 < n
    ensures OutputAfter(cfg, rule, chans, far, near, n, ch, out, k + 1) ==
            Scatter(OutputAfter(cfg, rule, chans, far, near, n, ch, out, k),
                    ChannelFrame(cfg, rule, chans[k], far, near, n, ch, k).1, ch, k, n)
  {
  }

  /// Running channel k is one update of the channel states.
  lemma ChannelsAfterStep(cfg: Config, rule: StepRule, chans: seq<ChannelState>,
                          far: seq<Int16>, near: seq<Int16>, n: nat, ch: nat, k: nat)
    requires ChannelsValid(cfg, chans) && k < ch <= |chans|
    requires FrameFits(|far|, n, ch) && FrameFits(|near|, n, ch)
    requires cfg.enableDoubleTalkDetection ==> 0 < n
    ensures ChannelsAfter(cfg, rule, chans, far, near, n, ch, k + 1) ==
            ChannelsAfter(cfg, rule, chans, far, near, n, ch, k)[k := ChannelFrame(cfg, rule, chans[k], far, near, n, ch, k).0]
  {
  }

  /// Position i * ch + c, for i < n and c < ch, receives sample i of
  /// channel c's output.
  lemma InterleavedOutput(cfg: Config, rule: StepRule, chans: seq<ChannelState>,
                          far: seq<Int16>, near: seq<Int16>, n: nat, ch: nat, out: seq<Int16>, i: nat, c: nat)
    requires ChannelsValid(cfg, chans) && 0 < ch <= |chans|
    requires FrameFits(|far|, n, ch) && FrameFits(|near|, n, ch) && FrameFits(|out|, n, ch)
    requires cfg.enableDoubleTalkDetection ==> 0 < n
    requires i < n && c < ch
    ensures i * ch + c < |out|
    ensures ProcessOutput(cfg, rule, chans, far, near, n, ch, out)[i * ch + c] ==
            ChannelFrame(cfg, rule, chans[c], far, near, n, ch, c).1[i]
  {
    var k := i * ch + c;
    InterleavedPosition(i, ch, c);
    InterleavedBound(k, n, ch);
    var r := ProcessOutput(cfg, rule, chans, far, near, n, ch, out);
    assert r[k] == ChannelFrame(cfg, rule, chans[k % ch], far, near, n, ch, k % ch).1[k / ch];
  }

  /// Every position from n * ch on keeps its value, so the positions
  /// i * ch + c above are the only ones written.
  lemma OutputBeyondFrameUnchanged(cfg: Config, rule: StepRule, chans: seq<ChannelState>,
                                   far: seq<Int16>, near: seq<Int16>, n: nat, ch: nat, out: seq<Int16>, idx: nat)
    requires ChannelsValid(cfg, chans) && 0 < ch <= |chans|
    requires FrameFits(|far|, n, ch) && FrameFits(|near|, n, ch)
    requires cfg.enableDoubleTalkDetection ==> 0 < n
    requires n * ch <= idx < |out|
    ensures ProcessOutput(cfg, rule, chans, far, near, n, ch, out)[idx] == out[idx]
  {
    InterleavedBound(idx, n, ch);
  }

  /// Buffers that agree at the positions below n * ch congruent to c
  /// modulo ch give channel c the same samples.
  lemma SameChannelSamples(buf1: seq<Int16>, buf2: seq<Int16>, n: nat, ch: nat, c: nat)
    requires FrameFits(|buf1|, n, ch) && FrameFits(|buf2|, n, ch) && c < ch
    requires forall k :: 0 <= k < n * ch && k % ch == c ==> buf1[k] == buf2[k]
    ensures StridedInBounds(|buf1|, c, n, ch) && StridedInBounds(|buf2|, c, n, ch)
    ensures Strided(buf1, c, n, ch) == Strided(buf2, c, n, ch)
  {
    ChannelInBounds(|buf1|, n, ch, c);
    ChannelInBounds(|buf2|, n, ch, c);
    var s1, s2 := Strided(buf1, c, n, ch), Strided(buf2, c, n, ch);
    forall i | 0 <= i < n
      ensures s1[i] == s2[i]
    {
      var k := i * ch + c;
      InterleavedPosition(i, ch, c);
      InterleavedBound(k, n, ch);
      assert s1[i] == buf1[k] && s2[i] == buf2[k];
    }
  }

  /// Channel c of two frames that agree on channel c's samples, from the
  /// same state, is the same.
  lemma SameChannelFrame(cfg: Config, rule: StepRule, s: ChannelState,
                         far1: seq<Int16>, near1: seq<Int16>, far2: seq<Int16>, near2: seq<Int16>,
                         n: nat, ch: nat, c: nat)
    requires ChannelValid(cfg, s) && c < ch
    requires FrameFits(|far1|, n, ch) && FrameFits(|near1|, n, ch)
    requires FrameFits(|far2|, n, ch) && FrameFits(|near2|, n, ch)
    requires cfg.enableDoubleTalkDetection ==> 0 < n
    requires forall k :: 0 <= k < n * ch && k % ch == c ==> far1[k] == far2[k] && near1[k] == near2[k]
    ensures ChannelFrame(cfg, rule, s, far1, near1, n, ch, c) == ChannelFrame(cfg, rule, s, far2, near2, n, ch, c)
  {
    SameChannelSamples(far1, far2, n, ch, c);
    SameChannelSamples(near1, near2, n, ch, c);
  }

  /// Channel c's outputs and new state depend only on its own state and on
  /// the far and near samples at the positions congruent to c modulo ch:
  /// two calls that agree there agree on channel c, whatever the other
  /// channels hold.
  lemma ChannelIndependence(cfg: Config, rule: StepRule, chans1: seq<ChannelState>, chans2: seq<ChannelState>,
                            far1: seq<Int16>, near1: seq<Int16>, far2: seq<Int16>, near2: seq<Int16>,
                            n: nat, ch: nat, out1: seq<Int16>, out2: seq<Int16>, c: nat)
    requires ChannelsValid(cfg, chans1) && ChannelsValid(cfg, chans2)
    requires 0 < ch <= |chans1| && ch <= |chans2| && c < ch
    requires FrameFits(|far1|, n, ch) && FrameFits(|near1|, n, ch) && FrameFits(|out1|, n, ch)
    requires FrameFits(|far2|, n, ch) && FrameFits(|near2|, n, ch) && FrameFits(|out2|, n, ch)
    requires cfg.enableDoubleTalkDetection ==> 0 < n
    requires chans1[c] == chans2[c]
    requires forall k :: 0 <= k < n * ch && k % ch == c ==> far1[k] == far2[k] && near1[k] == near2[k]
    ensures ProcessChannels(cfg, rule, chans1, far1, near1, n, ch)[c] ==
            ProcessChannels(cfg, rule, chans2, far2, near2, n, ch)[c]
    ensures forall k :: 0 <= k < n * ch && k % ch == c ==>
              ProcessOutput(cfg, rule, chans1, far1, near1, n, ch, out1)[k] ==
              ProcessOutput(cfg, rule, chans2, far2, near2, n, ch, out2)[k]
  {
    hide ChannelFrame;
    SameChannelFrame(cfg, rule, chans1[c], far1, near1, far2, near2, n, ch, c);
    forall k | 0 <= k < n * ch && k % ch == c
      ensures ProcessOutput(cfg, rule, chans1, far1, near1, n, ch, out1)[k] ==
              ProcessOutput(cfg, rule, chans2, far2, near2, n, ch, out2)[k]
    {
      InterleavedBound(k, n, ch);
      assert ChannelSample(cfg, rule, chans1, far1, near1, n, ch, k / ch, c) ==
             ChannelSample(cfg, rule, chans2, far2, near2, n, ch, k / ch, c);
    }
  }

  /// With detection disabled, every channel adapts on every sample and its
  /// detector is untouched.
  lemma DetectionDisabledAlwaysAdapts(cfg: Config, rule: StepRule, s: ChannelState,
                                      far: seq<Int16>, near: seq<Int16>, n: nat, ch: nat, c: nat)
    requires ChannelValid(cfg, s) && !cfg.enableDoubleTalkDetection
    requires c < ch && FrameFits(|far|, n, ch) && FrameFits(|near|, n, ch)
    ensures ChannelInBoundsBoth(|far|, |near|, n, ch, c)
    ensures var r := ChannelFrame(cfg, rule, s, far, near, n, ch, c);
            var run := Run(s.filter, Strided(far, c, n, ch), Strided(near, c, n, ch), true, rule);
            r.0 == ChannelState(run.0, s.detector) && r.1 == run.1
  {
    ChannelInBounds(|far|, n, ch, c);
    ChannelInBounds(|near|, n, ch, c);
  }

  predicate ChannelInBoundsBoth(farLen: nat, nearLen: nat, n: nat, ch: nat, c: nat)
  {
    StridedInBounds(farLen, c, n, ch) && StridedInBounds(nearLen, c, n, ch)
  }

  /// The first sample a fresh (or freshly reset) channel returns is its
  /// first near-end sample, whatever the far-end input and the detector's
  /// decision.
  lemma FreshChannelFirstOutputIsNear(cfg: Config, rule: StepRule, far: seq<Int16>, near: seq<Int16>,
                                      n: nat, ch: nat, c: nat)
    requires 0 < cfg.filterLength && ParamsValid(DetectorParamsOf(cfg))
    requires c < ch && 0 < n
    requires FrameFits(|far|, n, ch) && FrameFits(|near|, n, ch)
    ensures ChannelValid(cfg, FreshChannel(cfg))
    ensures c < |near|
    ensures ChannelFrame(cfg, rule, FreshChannel(cfg), far, near, n, ch, c).1[0] == near[c]
  {
    ChannelInBounds(|far|, n, ch, c);
    ChannelInBounds(|near|, n, ch, c);
    var fs, ns := Strided(far, c, n, ch), Strided(near, c, n, ch);
    MulLe(1, n, ch);
    assert c + 0 * ch == c;
    assert ns[0] == near[c];
    FreshFirstOutputIsNear(cfg.filterLength, fs, ns, true, rule);
    FreshFirstOutputIsNear(cfg.filterLength, fs, ns, false, rule);
    var r := ChannelFrame(cfg, rule, FreshChannel(cfg), far, near, n, ch, c);
    assert r.1 == Run(Fresh(cfg.filterLength), fs, ns, true, rule).1 ||
           r.1 == Run(Fresh(cfg.filterLength), fs, ns, false, rule).1;
  }

  /// The first sample a fresh (or freshly reset) engine writes for each
  /// channel c, at position c, is that channel's first near-end sample.
  lemma FreshEngineFirstOutputIsNear(cfg: Config, rule: StepRule, chans: seq<ChannelState>,
                                     far: seq<Int16>, near: seq<Int16>, n: nat, ch: nat, out: seq<Int16>, c: nat)
    requires 0 < cfg.filterLength && ParamsValid(DetectorParamsOf(cfg))
    requires 0 < ch <= |chans| && c < ch && 0 < n
    requires forall k :: 0 <= k < |chans| ==> chans[k] == FreshChannel(cfg)
    requires FrameFits(|far|, n, ch) && FrameFits(|near|, n, ch) && FrameFits(|out|, n, ch)
    ensures ChannelsValid(cfg, chans)
    ensures c < |near| && ProcessOutput(cfg, rule, chans, far, near, n, ch, out)[c] == near[c]
  {
    FreshChannelFirstOutputIsNear(cfg, rule, far, near, n, ch, c);
    assert ChannelsValid(cfg, chans);
    InterleavedOutput(cfg, rule, chans, far, near, n, ch, out, 0, c);
    assert 0 * ch + c == c;
  }

  /// The sample counter after a call: it grows by the frame length times
  /// the configured channel count (not the effective one), modulo 2^64.
  function CountSamples(cfg: Config, total: U64, n: U32): (r: U64)
    ensures total + n * Max1(cfg.channels) < 0x1_0000_0000_0000_0000 ==>
              r == total + n * Max1(cfg.channels)
    ensures (r - total - n * Max1(cfg.channels)) % 0x1_0000_0000_0000_0000 == 0
  {
    (total + n * Max1(cfg.channels)) % 0x1_0000_0000_0000_0000
  }

  /// The time counter after a call that took elapsedNs nanoseconds,
  /// modulo 2^64.
  function AddTime(total: U64, elapsedNs: U64): (r: U64)
    ensures total + elapsedNs < 0x1_0000_0000_0000_0000 ==> r == total + elapsedNs
    ensures total + elapsedNs >= 0x1_0000_0000_0000_0000 ==> r == total + elapsedNs - 0x1_0000_0000_0000_0000
  {
    (total + elapsedNs) % 0x1_0000_0000_0000_0000
  }

  /// The latency metric: the mean processing time per sample in ms, and 0
  /// before any sample has been counted.
  function LatencyMs(totalSamples: U64, totalTimeNs: U64): (r: real)
    ensures totalSamples == 0 ==> r == 0.0
    ensures 0.0 <= r
    ensures 0 < totalSamples ==> r * totalSamples as real * 1000000.0 == totalTimeNs as real
  {
    if totalSamples == 0 then 0.0
    else totalTimeNs as real / totalSamples as real / 1000000.0
  }

  /// AEC::Impl
  class Engine {
    const config: Config
    const stepRule: StepRule
    const filters: seq<NlmsFilter>
    const detectors: seq<DoubleTalkDetector>
    var totalSamplesProcessed: U64
    var totalProcessingTimeNs: U64
    ghost const Repr: set<object>

    ghost predicate Valid()
      reads Repr - {this}
    {
      && this in Repr
      && 0 < config.filterLength
      && ParamsValid(DetectorParamsOf(config))
      && |filters| == PairCount(config) && |detectors| == PairCount(config)
      && (forall c :: 0 <= c < |filters| ==>
            && filters[c] in Repr && filters[c].Repr <= Repr && this !in filters[c].Repr
            && filters[c].Valid()
            && filters[c].length == config.filterLength && filters[c].stepRule == stepRule)
      && (forall c, d :: 0 <= c < |filters| && 0 <= d < |filters| && c != d ==>
            filters[c].Repr !! filters[d].Repr)
      && (forall c :: 0 <= c < |detectors| ==>
            && detectors[c] in Repr
            && detectors[c].Valid() && detectors[c].Params() == DetectorParamsOf(config))
      && (forall c, d :: 0 <= c < |detectors| && 0 <= d < |filters| ==> detectors[c] !in filters[d].Repr)
      && (forall c, d :: 0 <= c < |detectors| && 0 <= d < |detectors| && c != d ==> detectors[c] != detectors[d])
    }

    /// The state of every channel.
    ghost function Channels(): (r: seq<ChannelState>)
      requires Valid()
      reads Repr - {this}
      ensures |r| == PairCount(config) && ChannelsValid(config, r)
      ensures forall c :: 0 <= c < |r| ==> r[c] == ChannelState(filters[c].State(), detectors[c].State())
    {
      seq(|filters|, c requires 0 <= c < |filters| reads Repr - {this} =>
        ChannelState(filters[c].State(), detectors[c].State()))
    }

    /// Builds PairCount(config) filter/detector pairs, all fresh. A filter
    /// length of 0 makes every filter divide by zero, and the smoothing
    /// factor is a weight in [0, 1].
    constructor (config: Config, stepRule: StepRule)
      requires 0 < config.filterLength
      requires 0.0 <= config.dtdSmoothingAlpha <= 1.0
      ensures Valid() && fresh(Repr)
      ensures this.config == config && this.stepRule == stepRule
      ensures Channels() == seq(PairCount(config), _ => FreshChannel(config))
      ensures totalSamplesProcessed == 0 && totalProcessingTimeNs == 0
    {
      var n := Max1(config.channels);
      if n > MaxChannels {
        n := MaxChannels;
      }
      var fs, ds, r := NewPairs(config, stepRule, n);
      this.config := config;
      this.stepRule := stepRule;
      filters := fs;
      detectors := ds;
      totalSamplesProcessed := 0;
      totalProcessingTimeNs := 0;
      Repr := r + {this};
      new;
      assert Channels() == seq(PairCount(config), _ => FreshChannel(config));
    }

    /// Channel c of a process call: its detector (when detection is on)
    /// decides on the whole frame whether the filter may adapt, then its
    /// filter runs over the channel's samples and writes them back.
    method ProcessChannel(far: seq<Int16>, near: seq<Int16>, output: array<Int16>, n: nat, ch: nat, c: nat)
      requires Valid() && c < ch <= |filters|
      requires FrameFits(|far|, n, ch) && FrameFits(|near|, n, ch) && FrameFits(output.Length, n, ch)
      requires config.enableDoubleTalkDetection ==> 0 < n
      modifies filters[c], filters[c].w, filters[c].x, detectors[c], output
      ensures Valid()
      ensures var r := ChannelFrame(config, stepRule, old(Channels())[c], far, near, n, ch, c);
              Channels() == old(Channels())[c := r.0] && output[..] == Scatter(old(output[..]), r.1, ch, c, n)
    {
      hide Step, NextState, Run;
      ChannelInBounds(|far|, n, ch, c);
      ChannelInBounds(|near|, n, ch, c);
      var adapt := true;
      if config.enableDoubleTalkDetection {
        adapt := detectors[c].Update(far, near, c, n, ch);
      }
      ProcessChannelSamples(filters[c], far, near, output, n, ch, c, adapt);
    }

    /// Channel c of the channel loop, stated against the states and the
    /// buffer the loop started from.
    method AdvanceChannel(far: seq<Int16>, near: seq<Int16>, output: array<Int16>, n: nat, ch: nat, c: nat,
                          ghost chans0: seq<ChannelState>, ghost out0: seq<Int16>)
      requires Valid() && c < ch <= |filters| && ch <= |chans0| && ChannelsValid(config, chans0)
      requires FrameFits(|far|, n, ch) && FrameFits(|near|, n, ch) && FrameFits(output.Length, n, ch)
      requires config.enableDoubleTalkDetection ==> 0 < n
      requires Channels() == ChannelsAfter(config, stepRule, chans0, far, near, n, ch, c)
      requires output[..] == OutputAfter(config, stepRule, chans0, far, near, n, ch, out0, c)
      modifies filters[c], filters[c].w, filters[c].x, detectors[c], output
      ensures Valid()
      ensures Channels() == ChannelsAfter(config, stepRule, chans0, far, near, n, ch, c + 1)
      ensures output[..] == OutputAfter(config, stepRule, chans0, far, near, n, ch, out0, c + 1)
    {
      hide Step, NextState, Run, ChannelFrame, Scatter;
      assert Channels()[c] == chans0[c];
      ProcessChannel(far, near, output, n, ch, c);
      ChannelsAfterStep(config, stepRule, chans0, far, near, n, ch, c);
      OutputAfterStep(config, stepRule, chans0, far, near, n, ch, out0, c);
    }

    /// The channel loop of a process call: channel after channel, each
    /// over its own interleaved samples.
    method RunChannels(far: seq<Int16>, near: seq<Int16>, output: array<Int16>, n: nat, ch: nat)
      requires Valid() && 0 < ch <= |filters|
      requires FrameFits(|far|, n, ch) && FrameFits(|near|, n, ch) && FrameFits(output.Length, n, ch)
      requires config.enableDoubleTalkDetection ==> 0 < n
      modifies Repr - {this}, output
      ensures Valid()
      ensures Channels() == ProcessChannels(config, stepRule, old(Channels()), far, near, n, ch)
      ensures output[..] == ProcessOutput(config, stepRule, old(Channels()), far, near, n, ch, old(output[..]))
    {
      ghost var chans0, out0 := Channels(), output[..];
      assert forall c :: 0 <= c < ch ==>
               && filters[c] in Repr - {this} && filters[c].w in Repr - {this} && filters[c].x in Repr - {this}
               && detectors[c] in Repr - {this};
      for c := 0 to ch
        invariant Valid()
        invariant Channels() == ChannelsAfter(config, stepRule, chans0, far, near, n, ch, c)
        invariant output[..] == OutputAfter(config, stepRule, chans0, far, near, n, ch, out0, c)
      {
        hide *;
        AdvanceChannel(far, near, output, n, ch, c, chans0, out0);
      }
      OutputAfterAll(config, stepRule, chans0, far, near, n, ch, out0);
    }

    /// AEC::process on the fixed-point path. The channel count is the
    /// requested one clamped to [1, MaxChannels] and then to the configured
    /// count; channel c reads and writes the positions i * ch + c. The
    /// elapsed time, which the source measures with a clock, is a parameter.
    method Process(far: seq<Int16>, near: seq<Int16>, output: array<Int16>, frameSize: U32, channels: U32,
                   elapsedNs: U64) returns (ok: bool)
      requires Valid() && config.useFixedPoint
      requires var ch := EffectiveChannels(config, channels);
               FrameFits(|far|, frameSize, ch) && FrameFits(|near|, frameSize, ch) &&
               FrameFits(output.Length, frameSize, ch)
      requires IndicesFitU32(frameSize, EffectiveChannels(config, channels))
      requires config.enableDoubleTalkDetection ==> 0 < frameSize
      modifies Repr, output
      ensures Valid() && ok
      ensures var ch := EffectiveChannels(config, channels);
              && Channels() == ProcessChannels(config, stepRule, old(Channels()), far, near, frameSize, ch)
              && output[..] == ProcessOutput(config, stepRule, old(Channels()), far, near, frameSize, ch, old(output[..]))
      ensures totalSamplesProcessed == CountSamples(config, old(totalSamplesProcessed), frameSize)
      ensures totalProcessingTimeNs == AddTime(old(totalProcessingTimeNs), elapsedNs)
    {
      var cfgCh := Max1(config.channels);
      var ch := Min(Min(Max1(channels), MaxChannels), cfgCh);
      assert ch == EffectiveChannels(config, channels);
      RunChannels(far, near, output, frameSize, ch);
      totalProcessingTimeNs := AddTime(totalProcessingTimeNs, elapsedNs);
      totalSamplesProcessed := CountSamples(config, totalSamplesProcessed, frameSize);
      ok := true;
    }

    /// Resets filter c in place; its detector is untouched.
    method ResetFilter(c: nat)
      requires Valid() && c < |filters|
      modifies filters[c], filters[c].w, filters[c].x
      ensures Valid()
      ensures Channels() == old(Channels())[c := ChannelState(Fresh(config.filterLength), old(Channels())[c].detector)]
    {
      filters[c].Reset();
    }

    /// Resets detector c; its filter is untouched.
    method ResetDetector(c: nat)
      requires Valid() && c < |detectors|
      modifies detectors[c]
      ensures Valid()
      ensures Channels() == old(Channels())[c := ChannelState(old(Channels())[c].filter, Initial())]
    {
      detectors[c].Reset();
    }

    /// AEC::reset: every filter, then the counters, then every detector.
    method Reset()
      requires Valid()
      modifies Repr
      ensures Valid()
      ensures Channels() == seq(|filters|, _ => FreshChannel(config))
      ensures totalSamplesProcessed == 0 && totalProcessingTimeNs == 0
    {
      assert forall c :: 0 <= c < |filters| ==>
               && filters[c] in Repr && filters[c].w in Repr && filters[c].x in Repr && detectors[c] in Repr;
      for c := 0 to |filters|
        invariant Valid()
        invariant forall d :: 0 <= d < c ==> Channels()[d].filter == Fresh(config.filterLength)
      {
        hide *;
        ResetFilter(c);
      }
      totalSamplesProcessed := 0;
      totalProcessingTimeNs := 0;
      for c := 0 to |detectors|
        invariant Valid()
        invariant forall d :: 0 <= d < |filters| ==> Channels()[d].filter == Fresh(config.filterLength)
        invariant forall d :: 0 <= d < c ==> Channels()[d].detector == Initial()
        invariant totalSamplesProcessed == 0 && totalProcessingTimeNs == 0
      {
        hide *;
        ResetDetector(c);
      }
    }

    /// AEC::get_erle: a fixed estimate, whatever has been processed.
    function GetErle(): (r: real)
      ensures r == ReportedErle
    {
      ReportedErle
    }

    /// AEC::get_latency_ms.
    function GetLatencyMs(): (r: real)
      reads this
      ensures totalSamplesProcessed == 0 ==> r == 0.0
      ensures 0 < totalSamplesProcessed ==> r * totalSamplesProcessed as real * 1000000.0 == totalProcessingTimeNs as real
    {
      LatencyMs(totalSamplesProcessed, totalProcessingTimeNs)
    }
  }

  /// Allocates count filter/detector pairs, all fresh, each filter with its
  /// own arrays: the constructor's loop.
  method NewPairs(config: Config, stepRule: StepRule, count: nat)
    returns (fs: seq<NlmsFilter>, ds: seq<DoubleTalkDetector>, ghost r: set<object>)
    requires 0 < config.filterLength
    requires 0.0 <= config.dtdSmoothingAlpha <= 1.0
    ensures |fs| == count && |ds| == count && fresh(r)
    ensures forall c :: 0 <= c < count ==>
              && fs[c] in r && fs[c].Repr <= r && fs[c].Valid()
              && fs[c].length == config.filterLength && fs[c].stepRule == stepRule
              && fs[c].State() == Fresh(config.filterLength)
    ensures forall c, d :: 0 <= c < count && 0 <= d < count && c != d ==> fs[c].Repr !! fs[d].Repr
    ensures forall c :: 0 <= c < count ==>
              && ds[c] in r && ds[c].Valid()
              && ds[c].Params() == DetectorParamsOf(config) && ds[c].State() == Initial()
    ensures forall c, d :: 0 <= c < count && 0 <= d < count ==> ds[c] !in fs[d].Repr
    ensures forall c, d :: 0 <= c < count && 0 <= d < count && c != d ==> ds[c] != ds[d]
  {
    fs, ds, r := [], [], {};
    for i := 0 to count
      invariant |fs| == i && |ds| == i
      invariant fresh(r)
      invariant forall c :: 0 <= c < i ==>
                  && fs[c] in r && fs[c].Repr <= r && fs[c].Valid()
                  && fs[c].length == config.filterLength && fs[c].stepRule == stepRule
                  && fs[c].State() == Fresh(config.filterLength)
      invariant forall c, d :: 0 <= c < i && 0 <= d < i && c != d ==> fs[c].Repr !! fs[d].Repr
      invariant forall c :: 0 <= c < i ==>
                  && ds[c] in r && ds[c].Valid()
                  && ds[c].Params() == DetectorParamsOf(config) && ds[c].State() == Initial()
      invariant forall c, d :: 0 <= c < i && 0 <= d < i ==> ds[c] !in fs[d].Repr
      invariant forall c, d :: 0 <= c < i && 0 <= d < i && c != d ==> ds[c] != ds[d]
    {
      var f := new NlmsFilter(config.filterLength, stepRule);
      var d := new DoubleTalkDetector(config.frameSize, config.dtdNearToFarThreshold,
                                      config.dtdCoherenceThreshold, config.dtdSmoothingAlpha,
                                      config.dtdHangoverFrames);
      fs := fs + [f];
      ds := ds + [d];
      r := r + f.Repr + {d};
    }
  }

  /// base with the first i values of vals written, value k at the
  /// interleaved position k * ch + c of channel c (positions past the end
  /// of base are skipped).
  function Scatter(base: seq<Int16>, vals: seq<Int16>, ch: nat, c: nat, i: nat): (r: seq<Int16>)
    requires i <= |vals|
    ensures |r| == |base|
  {
    if i == 0 then base
    else
      var prev := Scatter(base, vals, ch, c, i - 1);
      var k := (i - 1) * ch + c;
      if k < |prev| then prev[k := vals[i - 1]] else prev
  }

  /// What Scatter leaves at each position: sample j / ch of the values at a
  /// position of channel c below i * ch, base elsewhere.
  lemma {:induction false} ScatterAt(base: seq<Int16>, vals: seq<Int16>, ch: nat, c: nat, i: nat, j: nat)
    requires c < ch && i <= |vals| && j < |base|
    ensures Scatter(base, vals, ch, c, i)[j] ==
            if j / ch < i && j % ch == c then vals[j / ch] else base[j]
  {
    if i > 0 {
      ScatterAt(base, vals, ch, c, i - 1, j);
      var k := (i - 1) * ch + c;
      InterleavedPosition(i - 1, ch, c);
      if j != k {
        DivMod(j, ch);
        assert !(j / ch == i - 1 && j % ch == c);
      }
    }
  }

  /// Sample i of channel c: the filter processes the far and near samples
  /// at position i * ch + c and its output is written there.
  method ProcessSampleAt(filter: NlmsFilter, far: seq<Int16>, near: seq<Int16>, output: array<Int16>,
                         n: nat, ch: nat, c: nat, i: nat, adapt: bool)
    requires filter.Valid() && c < ch && i < n
    requires FrameFits(|far|, n, ch) && FrameFits(|near|, n, ch) && FrameFits(output.Length, n, ch)
    requires ChannelInBoundsBoth(|far|, |near|, n, ch, c)
    modifies filter.w, filter.x, filter`index, output
    ensures filter.Valid()
    ensures i * ch + c < output.Length
    ensures var step := Step(old(filter.State()), Strided(far, c, n, ch)[i], Strided(near, c, n, ch)[i],
                             adapt, filter.stepRule);
            filter.State() == step.0 && output[..] == old(output[..])[i * ch + c := step.1]
  {
    var idx := i * ch + c;
    InterleavedPosition(i, ch, c);
    InterleavedBound(idx, n, ch);
    assert far[idx] == Strided(far, c, n, ch)[i] && near[idx] == Strided(near, c, n, ch)[i];
    output[idx] := filter.ProcessFixed(far[idx], near[idx], adapt);
  }

  /// Writing one more value is one update, at position i * ch + c.
  lemma ScatterExtend(base: seq<Int16>, vals: seq<Int16>, ch: nat, c: nat, i: nat)
    requires i < |vals| && i * ch + c < |base|
    ensures Scatter(base, vals, ch, c, i + 1) == Scatter(base, vals, ch, c, i)[i * ch + c := vals[i]]
  {
  }

  /// Runs channel c's filter over its n samples with one adapt flag,
  /// writing output i * ch + c for each sample i.
  method ProcessChannelSamples(filter: NlmsFilter, far: seq<Int16>, near: seq<Int16>, output: array<Int16>,
                               n: nat, ch: nat, c: nat, adapt: bool)
    requires filter.Valid() && c < ch
    requires FrameFits(|far|, n, ch) && FrameFits(|near|, n, ch) && FrameFits(output.Length, n, ch)
    modifies filter.w, filter.x, filter`index, output
    ensures filter.Valid()
    ensures ChannelInBoundsBoth(|far|, |near|, n, ch, c)
    ensures var run := Run(old(filter.State()), Strided(far, c, n, ch), Strided(near, c, n, ch), adapt, filter.stepRule);
            filter.State() == run.0 && output[..] == Scatter(old(output[..]), run.1, ch, c, n)
  {
    hide Step;
    ChannelInBounds(|far|, n, ch, c);
    ChannelInBounds(|near|, n, ch, c);
    assert ChannelInBoundsBoth(|far|, |near|, n, ch, c);
    ghost var s0 := filter.State();
    ghost var fs, ns := Strided(far, c, n, ch), Strided(near, c, n, ch);
    ghost var run := Run(s0, fs, ns, adapt, filter.stepRule);
    for i := 0 to n
      invariant filter.Valid()
      invariant filter.State() == Run(s0, fs[..i], ns[..i], adapt, filter.stepRule).0
      invariant output[..] == Scatter(old(output[..]), run.1, ch, c, i)
    {
      hide *;
      ProcessSampleAt(filter, far, near, output, n, ch, c, i, adapt);
      RunExtend(s0, fs, ns, adapt, filter.stepRule, i);
      ScatterExtend(old(output[..]), run.1, ch, c, i);
    }
    assert fs[..n] == fs && ns[..n] == ns;
  }

  lemma DivMod(v: nat, m: nat)
    requires 0 < m
    ensures v == (v / m) * m + v % m
  {
  }
}
