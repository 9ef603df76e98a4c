/// The render/capture adapter: it buffers the latest far-end (render)
/// frame and runs the engine on each captured near-end frame, writing the
/// echo-cancelled samples back into the captured frame. A null frame
/// pointer is an `array?` that is null.
module WebRtc {
  import opened Ints
  import opened Nlms
  import opened Aec

  const TwoTo32: int := 0x1_0000_0000

  /// The number of samples in frameMs milliseconds at sampleRate Hz, rounded
  /// down and truncated to 32 bits.
  function SamplesIn(sampleRate: U32, frameMs: U32): (r: U32)
    ensures sampleRate * frameMs < 1000 * TwoTo32 ==>
              r * 1000 <= sampleRate * frameMs < (r + 1) * 1000
    ensures (sampleRate * frameMs / 1000 - r) % TwoTo32 == 0
  {
    (sampleRate * frameMs / 1000) % TwoTo32
  }

  /// The duration in whole milliseconds of frameSize samples at
  /// sampleRate Hz, rounded down and truncated to 32 bits.
  function MsIn(frameSize: U32, sampleRate: U32): (r: U32)
    requires 0 < sampleRate
    ensures frameSize * 1000 < sampleRate * TwoTo32 ==>
              r * sampleRate <= frameSize * 1000 < (r + 1) * sampleRate
    ensures (frameSize * 1000 / sampleRate - r) % TwoTo32 == 0
  {
    var x := frameSize * 1000;
    DivBounds(x, sampleRate, TwoTo32);
    x / sampleRate % TwoTo32
  }

  /// Floor division by a positive d: the quotient times d is at most x and
  /// one more quotient exceeds it; below d * m the quotient is below m.
  lemma DivBounds(x: nat, d: nat, m: nat)
    requires 0 < d
    ensures x / d * d <= x < (x / d + 1) * d
    ensures x < d * m ==> x / d < m
  {
    var q := x / d;
    assert x == q * d + x % d;
    if m <= q {
      MulLe(m, q, d);
    }
  }

  /// Multiplying by a positive d and dividing by it gives back a.
  lemma MulDiv(a: nat, d: nat)
    requires 0 < d
    ensures a * d / d == a
  {
    var x := a * d;
    DivBounds(x, d, a + 1);
    if x / d < a {
      MulLe(x / d + 1, a, d);
    }
  }

  /// The number of interleaved samples in a frame of frameSize samples
  /// per channel.
  function FrameLength(frameSize: nat, channels: nat): (r: nat)
    ensures frameSize == 0 ==> r == 0
  {
    frameSize * channels
  }

  /// Init's frame length: the configured one when non-zero, else the
  /// number of samples in frameMs.
  function InitFrameSize(cfgFrameSize: U32, sampleRate: U32, frameMs: U32): (r: U32)
    ensures cfgFrameSize != 0 ==> r == cfgFrameSize
    ensures cfgFrameSize == 0 ==> r == SamplesIn(sampleRate, frameMs)
  {
    if cfgFrameSize != 0 then cfgFrameSize else SamplesIn(sampleRate, frameMs)
  }

  /// Init's frame duration: derived from the configured frame length when
  /// that is non-zero, else the given duration.
  function InitFrameMs(cfgFrameSize: U32, sampleRate: U32, frameMs: U32): (r: U32)
    requires cfgFrameSize != 0 ==> 0 < sampleRate
    ensures cfgFrameSize != 0 ==> r == MsIn(cfgFrameSize, sampleRate)
    ensures cfgFrameSize == 0 ==> r == frameMs
  {
    if cfgFrameSize != 0 then MsIn(cfgFrameSize, sampleRate) else frameMs
  }

  /// The frame computed from a duration lasts no longer than that
  /// duration, and exactly as long when the duration holds a whole number
  /// of samples: configuring the adapter by duration or by the equivalent
  /// frame length gives the same frame geometry.
  lemma {:induction false} DurationRoundTrip(sampleRate: U32, frameMs: U32)
    requires 0 < sampleRate && sampleRate * frameMs < 1000 * TwoTo32
    ensures MsIn(SamplesIn(sampleRate, frameMs), sampleRate) <= frameMs
    ensures (sampleRate * frameMs) % 1000 == 0 ==> MsIn(SamplesIn(sampleRate, frameMs), sampleRate) == frameMs
  {
    var fs := SamplesIn(sampleRate, frameMs);
    var x := fs as int * 1000;
    assert x <= sampleRate * frameMs;
    MulLe(frameMs, TwoTo32, sampleRate);
    assert x < sampleRate * TwoTo32;
    assert sampleRate * (frameMs + 1) == sampleRate * frameMs + sampleRate;
    DivBounds(x, sampleRate, frameMs + 1);
    DivBounds(x, sampleRate, TwoTo32);
    if (sampleRate * frameMs) % 1000 == 0 {
      assert x == frameMs * sampleRate;
      MulDiv(frameMs, sampleRate);
    }
  }

  /// Configuring by duration or by the equivalent frame length yields the
  /// same frame length, and the same duration when the duration holds a
  /// whole number of samples.
  lemma InitBranchesAgree(sampleRate: U32, frameMs: U32)
    requires 0 < sampleRate && sampleRate * frameMs < 1000 * TwoTo32
    requires SamplesIn(sampleRate, frameMs) != 0
    ensures var fs := SamplesIn(sampleRate, frameMs);
            && InitFrameSize(fs, sampleRate, 10) == InitFrameSize(0, sampleRate, frameMs)
            && InitFrameMs(fs, sampleRate, 10) <= InitFrameMs(0, sampleRate, frameMs)
            && ((sampleRate * frameMs) % 1000 == 0 ==>
                  InitFrameMs(fs, sampleRate, 10) == InitFrameMs(0, sampleRate, frameMs))
  {
    DurationRoundTrip(sampleRate, frameMs);
  }

  /// WebRTCAecAdapter.
  class WebRtcAecAdapter {
    var engine: Engine?
    var farBuffer: array<Int16>
    var outBuffer: array<Int16>
    var sampleRate: U32
    var frameMs: U32
    var frameSize: U32
    var channels: U32
    var enabled: bool
    ghost var Repr: set<object>

    ghost predicate Valid()
      reads this, Repr
    {
      && this in Repr && farBuffer in Repr && outBuffer in Repr
      && farBuffer != outBuffer
      && 1 <= channels
      && farBuffer.Length == outBuffer.Length
      && FrameSamples() <= farBuffer.Length
      && (engine != null ==>
            && engine in Repr && engine.Repr <= Repr && engine.Valid()
            && this !in engine.Repr && farBuffer !in engine.Repr && outBuffer !in engine.Repr
            && engine.config.useFixedPoint)
    }

    /// The number of interleaved samples in one frame.
    function FrameSamples(): nat
      reads this
    {
      FrameLength(frameSize, channels)
    }

    /// The channel count the engine uses for a frame of this adapter: the
    /// adapter's count limited by the engine's configuration, so a frame
    /// always fits the buffers.
    function EngineChannels(): (r: nat)
      requires Valid() && engine != null
      reads this, Repr
      ensures r == EffectiveChannels(engine.config, channels)
      ensures 1 <= r <= channels && frameSize * r <= FrameSamples()
    {
      var r := EffectiveChannels(engine.config, channels);
      MulLe(r, channels, frameSize);
      r
    }

    /// A default-constructed adapter: no engine, empty buffers, 10 ms
    /// frames of one channel, enabled.
    constructor ()
      ensures Valid() && fresh(Repr)
      ensures engine == null && farBuffer.Length == 0 && outBuffer.Length == 0
      ensures sampleRate == 0 && frameMs == 10 && frameSize == 0 && channels == 1 && enabled
    {
      engine := null;
      farBuffer := new Int16[0];
      outBuffer := new Int16[0];
      sampleRate := 0;
      frameMs := 10;
      frameSize := 0;
      channels := 1;
      enabled := true;
      new;
      Repr := {this, farBuffer, outBuffer};
    }

    /// WebRTCAecAdapter::Init. A zero channel count means one channel. A
    /// frame length of zero fails before anything else changes; otherwise
    /// both buffers are zero-filled to one frame and a fresh engine replaces
    /// any previous one. Engine creation cannot fail, so Init succeeds
    /// exactly when the frame is non-empty.
    method Init(config: Config, stepRule: StepRule, sampleRate: U32, frameMs: U32, channels: U32)
      returns (ok: bool)
      requires Valid()
      requires config.frameSize != 0 ==> 0 < sampleRate
      requires config.useFixedPoint && 0 < config.filterLength
      requires 0.0 <= config.dtdSmoothingAlpha <= 1.0
      modifies this
      ensures Valid() && fresh(Repr - old(Repr))
      ensures this.sampleRate == sampleRate && this.channels == Max1(channels)
      ensures this.frameSize == InitFrameSize(config.frameSize, sampleRate, frameMs)
      ensures this.frameMs == InitFrameMs(config.frameSize, sampleRate, frameMs)
      ensures enabled == old(enabled)
      ensures ok <==> this.frameSize != 0
      ensures !ok ==> engine == old(engine) && farBuffer == old(farBuffer) && outBuffer == old(outBuffer)
      ensures ok ==> Attached(config, stepRule) && fresh(engine) && fresh(farBuffer) && fresh(outBuffer)
    {
      SetGeometry(config.frameSize, sampleRate, frameMs, channels);
      if frameSize == 0 {
        return false;
      }
      Attach(config, stepRule);
      ok := true;
    }

    /// The frame geometry Init computes: the sample rate, the channel
    /// count (zero meaning one) and the frame length and duration.
    method SetGeometry(cfgFrameSize: U32, sampleRate: U32, frameMs: U32, channels: U32)
      requires Valid()
      requires cfgFrameSize != 0 ==> 0 < sampleRate
      modifies this
      ensures this.sampleRate == sampleRate && this.channels == Max1(channels)
      ensures frameSize == InitFrameSize(cfgFrameSize, sampleRate, frameMs)
      ensures this.frameMs == InitFrameMs(cfgFrameSize, sampleRate, frameMs)
      ensures engine == old(engine) && farBuffer == old(farBuffer) && outBuffer == old(outBuffer)
      ensures enabled == old(enabled) && Repr == old(Repr)
      ensures frameSize == 0 ==> Valid()
    {
      hide Engine.Valid, SamplesIn, MsIn;
      this.sampleRate := sampleRate;
      this.channels := if channels > 0 then channels else 1;
      if cfgFrameSize != 0 {
        frameSize := cfgFrameSize;
        this.frameMs := MsIn(frameSize, sampleRate);
      } else {
        this.frameMs := frameMs;
        frameSize := SamplesIn(sampleRate, this.frameMs);
      }
    }

    /// The state a successful Init leaves: zero-filled buffers of one frame
    /// and an engine built from the configuration with fresh channels and
    /// zero counters.
    ghost predicate Attached(config: Config, stepRule: StepRule)
      reads this, Repr
    {
      && Valid() && engine != null
      && engine.config == config && engine.stepRule == stepRule
      && engine.Channels() == seq(PairCount(config), _ => FreshChannel(config))
      && engine.totalSamplesProcessed == 0 && engine.totalProcessingTimeNs == 0
      && farBuffer[..] == seq(FrameSamples(), _ => 0)
      && outBuffer[..] == seq(FrameSamples(), _ => 0)
    }

    /// The allocation half of Init: new buffers and a new engine replace
    /// the old ones.
    method Attach(config: Config, stepRule: StepRule)
      requires this in Repr && 1 <= channels
      requires config.useFixedPoint && 0 < config.filterLength
      requires 0.0 <= config.dtdSmoothingAlpha <= 1.0
      modifies this
      ensures Attached(config, stepRule) && fresh(Repr - {this})
      ensures fresh(engine) && fresh(farBuffer) && fresh(outBuffer)
      ensures sampleRate == old(sampleRate) && frameMs == old(frameMs) && frameSize == old(frameSize)
      ensures channels == old(channels) && enabled == old(enabled)
    {
      hide Engine.Valid, Engine.Channels, FrameLength;
      var e;
      farBuffer, outBuffer, e := NewResources(config, stepRule, FrameSamples());
      engine := e;
      Repr := {this, farBuffer, outBuffer} + e.Repr;
    }

    /// WebRTCAecAdapter::ProcessRender: keeps one frame of the far-end
    /// signal for the next capture. A null frame is ignored.
    method ProcessRender(farFrame: array?<Int16>)
      requires Valid()
      requires farFrame != null ==> FrameSamples() <= farFrame.Length && farFrame !in Repr
      modifies farBuffer
      ensures Valid()
      ensures farFrame == null ==> farBuffer[..] == old(farBuffer[..])
      ensures farFrame != null ==>
                farBuffer[..] == farFrame[..FrameSamples()] + old(farBuffer[FrameSamples()..])
    {
      if farFrame == null {
        return;
      }
      CopyPrefix(farFrame, farBuffer, FrameSamples());
    }

    /// WebRTCAecAdapter::ProcessCapture: echo-cancels a captured frame in
    /// place against the buffered far-end frame. It fails on a null frame
    /// and when there is no engine yet; when disabled it leaves the frame as
    /// it is and succeeds. The engine writes into the output buffer, whose
    /// first frame is then copied over the captured frame. The processing
    /// time the engine measures is a parameter.
    method ProcessCapture(frame: array?<Int16>, elapsedNs: U64) returns (ok: bool)
      requires Valid()
      requires frame != null ==> FrameSamples() <= frame.Length && frame !in Repr
      requires frame != null && enabled && engine != null && engine.config.enableDoubleTalkDetection ==>
                 0 < frameSize
      requires frame != null && enabled && engine != null ==> IndicesFitU32(frameSize, EngineChannels())
      modifies Repr, frame
      ensures Valid() && Repr == old(Repr) && engine == old(engine) && enabled == old(enabled)
      ensures frameSize == old(frameSize) && channels == old(channels)
      ensures ok <==> frame != null && (!enabled || engine != null)
      ensures !(frame != null && enabled && engine != null) ==>
                unchanged(Repr) && (frame != null ==> unchanged(frame))
      ensures frame != null && enabled && engine != null ==>
                var ch := EngineChannels();
                var out := ProcessOutput(engine.config, engine.stepRule, old(engine.Channels()),
                                         farBuffer[..], old(frame[..]), frameSize, ch, old(outBuffer[..]));
                && farBuffer[..] == old(farBuffer[..])
                && engine.Channels() == ProcessChannels(engine.config, engine.stepRule, old(engine.Channels()),
                                                        farBuffer[..], old(frame[..]), frameSize, ch)
                && outBuffer[..] == out
                && frame[..] == out[..FrameSamples()] + old(frame[FrameSamples()..])
                && engine.totalSamplesProcessed ==
                     CountSamples(engine.config, old(engine.totalSamplesProcessed), frameSize)
                && engine.totalProcessingTimeNs == AddTime(old(engine.totalProcessingTimeNs), elapsedNs)
    {
      if frame == null {
        return false;
      }
      if !enabled {
        return true;
      }
      if engine == null {
        return false;
      }
      hide ProcessOutput, ProcessChannels, CountSamples, AddTime, Engine.Valid, Engine.Channels, FrameLength;
      ghost var ch := EngineChannels();
      ok := engine.Process(farBuffer[..], frame[..], outBuffer, frameSize, channels, elapsedNs);
      if !ok {
        return false;
      }
      CopyPrefix(outBuffer, frame, FrameSamples());
    }

    /// WebRTCAecAdapter::SetEnabled.
    method SetEnabled(enabled: bool)
      requires Valid()
      modifies this
      ensures Valid() && this.enabled == enabled
      ensures engine == old(engine) && farBuffer == old(farBuffer) && outBuffer == old(outBuffer)
      ensures sampleRate == old(sampleRate) && frameMs == old(frameMs)
      ensures frameSize == old(frameSize) && channels == old(channels) && Repr == old(Repr)
    {
      this.enabled := enabled;
    }

    /// WebRTCAecAdapter::IsEnabled.
    function IsEnabled(): (r: bool)
      reads this
      ensures r <==> enabled
    {
      enabled
    }

    /// WebRTCAecAdapter::GetErle: 0 without an engine, else the engine's.
    function GetErle(): (r: real)
      reads this
      ensures engine == null ==> r == 0.0
      ensures engine != null ==> r == ReportedErle
    {
      if engine == null then 0.0 else engine.GetErle()
    }

    /// WebRTCAecAdapter::GetLatencyMs: 0 without an engine, else the
    /// engine's mean time per sample.
    function GetLatencyMs(): (r: real)
      reads this, engine
      ensures engine == null ==> r == 0.0
      ensures engine != null ==> r == LatencyMs(engine.totalSamplesProcessed, engine.totalProcessingTimeNs)
    {
      if engine == null then 0.0 else engine.GetLatencyMs()
    }
  }

  /// The buffers and the engine Init sets up: two zero-filled buffers of
  /// total samples and a fresh engine, none of them shared.
  method NewResources(config: Config, stepRule: StepRule, total: nat)
    returns (far: array<Int16>, out: array<Int16>, e: Engine)
    requires config.useFixedPoint && 0 < config.filterLength
    requires 0.0 <= config.dtdSmoothingAlpha <= 1.0
    ensures fresh(far) && fresh(out) && fresh(e.Repr) && far != out
    ensures far !in e.Repr && out !in e.Repr && e in e.Repr
    ensures e.Valid() && e.config == config && e.stepRule == stepRule
    ensures e.Channels() == seq(PairCount(config), _ => FreshChannel(config))
    ensures e.totalSamplesProcessed == 0 && e.totalProcessingTimeNs == 0
    ensures far[..] == seq(total, _ => 0) && out[..] == seq(total, _ => 0)
  {
    far := new Int16[total](_ => 0);
    out := new Int16[total](_ => 0);
    e := new Engine(config, stepRule);
  }

  /// memcpy of the first count samples of src over dst; the rest of dst
  /// keeps its samples.
  method CopyPrefix(src: array<Int16>, dst: array<Int16>, count: nat)
    requires count <= src.Length && count <= dst.Length && src != dst
    modifies dst
    ensures dst[..] == src[..count] + old(dst[count..])
  {
    forall i | 0 <= i < count {
      dst[i] := src[i];
    }
    assert dst[..] == src[..count] + old(dst[count..]);
  }
}
