# Acoustic echo canceller core, modelled in Dafny

A model of the fixed-point core of the aec-library echo canceller, with
proofs about it:

- **Q15 arithmetic.** This is a 16-bit fraction type. Addition and
  subtraction saturate. Multiplication takes the 32-bit product, shifts it
  right by 15 and converts it to int16 without saturating.
- **NLMS filter, fixed-point path.** The filter keeps a circular delay line
  and Q15 weights. Each sample gives an echo estimate, an error
  `near - estimate`, and, when adaptation is allowed, an update of every
  weight. The estimate is summed in a 32-bit signed accumulator. C++ leaves
  its overflow undefined; the model lets it wrap, which is exact whenever
  the sum fits.
- **Time-domain double-talk detector.** Per frame it computes the smoothed
  far, near and cross powers of one channel's strided samples. It applies
  a ratio/coherence decision, then a hangover counter.
- **Engine (`AEC::Impl`).** It owns one filter and one detector per
  channel. It clamps the channel count, runs each channel over its
  interleaved samples, and keeps the sample and time counters behind the
  latency metric.
- **WebRTC-style adapter.** It derives the frame geometry from the sample
  rate and frame length or duration. It buffers the render frame, and it
  echo-cancels a capture frame in place.
- **WAV PCM16 reader and writer.** The reader walks the RIFF chunks to the
  `fmt ` and `data` chunks. The writer emits the canonical 44-byte header.

Files and modules:

| file | module | contents |
|---|---|---|
| `ints.dfy` | `Ints` | integer widths and the int16/int32 wrap-around conversions |
| `fixed_point.dfy` | `FixedPoint` | `Q15` and its operators |
| `nlms_filter.dfy` | `Nlms` | `FilterState`, `Step` and `Run` as functions; class `NlmsFilter` proved against them |
| `double_talk_detector.dfy` | `DoubleTalk` | `NextState` over exact reals; class `DoubleTalkDetector` proved against it |
| `aec.dfy` | `Aec` | `Config`; `ProcessChannels` and `ProcessOutput` as functions; class `Engine` proved against them |
| `webrtc_adapter.dfy` | `WebRtc` | class `WebRtcAecAdapter` |
| `wav_io.dfy` | `WavIo` | `ParseWav` and `WavBytes` over byte sequences; stream classes and the two operations proved against them |

Each stateful class has a pure specification. Each method states its new
state as that specification applied to the old state. The lemmas then
prove the properties of the specification: round trips, channel
independence, the hangover behaviour, and the first output of a fresh
filter.

### Behaviour of the code worth knowing

The model follows the code in each case below.

- **Q15 multiplication does not saturate, unlike addition and subtraction.**
  - `+` and `-` clamp their result with `Q15::saturate`
    (`include/aec/fixed_point.hpp:18-24`).
  - `*` converts `product >> 15` to int16 without clamping
    (`src/fixed_point.cpp:6-7`).
  - So raw `-32768 * -32768` gives `-32768`. Clamping as `+` and `-` do
    would give `32767` (`FixedPoint.MulMinByMinWraps`).
  - All other pairs fit, so nothing else wraps (`FixedPoint.Mul`).
- **`AEC::process` never returns false.**
  - It returns a `bool` (`include/aec/aec.hpp:15-16`), and the adapter
    tests that result (`src/webrtc_adapter.cpp:34`).
  - But the code checks none of its arguments and always returns true
    (`src/aec.cpp:63`), so the adapter's failure branch after the call is
    dead.
  - The model's `Process` therefore always succeeds. It has preconditions
    where the code would index out of bounds.
- **Weight i serves the sample of lag (L - i) mod L.**
  - The filter pairs weight i with the delay-line slot i places after the
    write index, wrapping around (`src/nlms_filter.cpp:84`, `:108`).
  - Reading forwards from the slot just written reaches ever older samples.
    Slot index + 1 holds the sample written L - 1 calls ago, slot index + 2
    the one written L - 2 calls ago, and so on.
  - So weight 0 multiplies the newest sample, and weights 1, 2, ..., L - 1
    multiply the samples of lags L - 1, L - 2, ..., 1 (`Nlms.TapLag`). The
    usual layout of an FIR filter pairs weight i with lag i.
  - The estimate and the update use the same fixed permutation of the lags,
    so the filter still adapts. Only the order of its weights differs.
- **A fresh filter returns the near-end sample.** With all-zero weights,
  the first output of a fresh or reset filter is exactly the near-end
  sample (`Nlms.FreshFirstOutputIsNear`, `Aec.FreshEngineFirstOutputIsNear`).
  The assertions at `tests/test_nlms.cpp:19` and `tests/test_aec.cpp:34`
  expect a different value, so those checks cannot pass against this code.
- **The engine reads fields the headers do not declare.**
  - `src/aec.cpp` reads `config.channels` and `AECConfig::max_channels`,
    which `include/aec/config.hpp` does not declare.
  - It also calls the detector's `update` and `process` with a stride and
    a channel count that the headers do not take.
  - The model gives `Config` a `channels` field. `MaxChannels` is a
    positive constant whose value is not known.

## Model

| member | source | states |
|---|---|---|
| Ints.Wrap16 | src/fixed_point.cpp:6-7 | the int16 conversion of any integer: congruent to it modulo 2^16, and the identity on values already in range |
| Ints.Wrap16Unique | src/fixed_point.cpp:6-7 | any int16 value congruent to v modulo 2^16 is Wrap16(v), so the conversion is determined by the two properties above |
| Ints.Wrap32 | src/nlms_filter.cpp:82-87 | the value a 32-bit signed accumulator holds: in the int32 range, congruent modulo 2^32, exact when the value fits |
| Ints.Wrap32Add | src/nlms_filter.cpp:86 | wrapping after every addition gives the same value as wrapping the exact sum once |
| FixedPoint.FromRaw | include/aec/fixed_point.hpp:13 | raw(from_raw(v)) is v |
| FixedPoint.RawFromRawRoundTrip | include/aec/fixed_point.hpp:13-16 | raw and from_raw are inverse in both directions |
| FixedPoint.Saturate | include/aec/fixed_point.hpp:28-35 | the result equals the input exactly when the input is in the int16 range; above it is 32767, below it is -32768 |
| FixedPoint.SaturateIsNearest | include/aec/fixed_point.hpp:28-35 | no int16 value is closer to the input than the saturated one |
| FixedPoint.SaturateMonotonic | include/aec/fixed_point.hpp:28-35 | saturation preserves order |
| FixedPoint.Add | include/aec/fixed_point.hpp:18-20 | the exact sum when representable, otherwise the bound on the overflowing side; never wraps |
| FixedPoint.AddCommutative | include/aec/fixed_point.hpp:18-20 | saturating addition commutes |
| FixedPoint.AddZeroIdentity | include/aec/fixed_point.hpp:18-20 | zero is a two-sided identity of addition |
| FixedPoint.Sub | include/aec/fixed_point.hpp:22-24 | the exact difference when representable, otherwise the bound on the overflowing side |
| FixedPoint.SubZeroIdentity | include/aec/fixed_point.hpp:22-24 | subtracting zero changes nothing |
| FixedPoint.ProductBounds | src/fixed_point.cpp:6 | the product of two int16 values other than (-32768)^2 lies within ±(2^30 - 2^15), so the 32-bit product never overflows |
| FixedPoint.Mul | src/fixed_point.cpp:5-8 | for every pair except (-1.0)*(-1.0) the result is the floor of a*b / 2^15; for that pair it is -32768 |
| FixedPoint.MulCommutative | src/fixed_point.cpp:5-8 | multiplication commutes |
| FixedPoint.MulByZero | src/fixed_point.cpp:5-8 | zero annihilates on both sides |
| FixedPoint.MulMinByMinWraps | src/fixed_point.cpp:5-8 | (-1.0)*(-1.0) gives -1.0 where saturation would give 32767 |
| FixedPoint.MulSmallNegativeFloors | src/fixed_point.cpp:7 | the shift floors: raw 1 times raw -1 is -1, not 0 |
| FixedPoint.Truncate | include/aec/fixed_point.hpp:11 | truncation toward zero: the magnitude is the floor of the magnitude and the sign is kept |
| FixedPoint.FromReal | include/aec/fixed_point.hpp:11 | Q15(f) is f * 32768 truncated toward zero |
| FixedPoint.ToReal | include/aec/fixed_point.hpp:15 | to_float is value / 32768, in [-1, 1) |
| FixedPoint.FromRealToReal | include/aec/fixed_point.hpp:11-15 | converting an in-range real to Q15 and back loses less than 2^-15 |
| FixedPoint.ArithmeticExamples | tests/test_fixed_point.cpp:12-24 | 0.5 and 0.25 become raw 16384 and 8192, and their sum, difference and product are 0.75, 0.25 and 0.125 exactly |
| Nlms.Fresh | src/nlms_filter.cpp:17-26 | reset leaves zero weights, a zero delay line and index 0 |
| Nlms.Tap | src/nlms_filter.cpp:84 | weight i multiplies the slot i places after the write index; weight 0 multiplies the sample just written |
| Nlms.Dot | src/nlms_filter.cpp:83-87 | the exact sum of the L products, each within +-2^30, so the sum lies within +-L * 2^30 and can leave the int32 range |
| Nlms.EchoEstimate | src/nlms_filter.cpp:82-90 | zero weights estimate no echo; when the exact sum fits int32 the estimate is the int16 conversion of its floor over 2^15 |
| Nlms.AdaptedWeight | src/nlms_filter.cpp:108-111 | weight i after one update; a zero error or a zero step leaves it unchanged |
| Nlms.AdaptedWeights | src/nlms_filter.cpp:107-112 | weight i becomes w[i] + (tap_i * e) * step with the Q15 operators, for every i |
| Nlms.Step | src/nlms_filter.cpp:74-119 | one process_fixed call: the far sample is written at the index and nowhere else, the index advances modulo L, and the weights are unchanged without adaptation |
| Nlms.StepOutput | src/nlms_filter.cpp:82-93 | the output is near minus the int16 estimate, saturated; when the dot product fits int32 the estimate is its floor over 2^15 |
| Nlms.StepAdaptsWeights | src/nlms_filter.cpp:104-112 | with adaptation, each new weight is w[i] + (tap_i * e) * step(x) with e the returned sample |
| Nlms.DotOfZeroWeights | src/nlms_filter.cpp:82-87 | all-zero weights give a zero dot product |
| Nlms.ZeroWeightsPassNearThrough | src/nlms_filter.cpp:82-93 | with all-zero weights the returned sample is near, for any far and adapt flag |
| Nlms.Run | src/nlms_filter.cpp:144-146 | a run of calls keeps the state well formed, returns one sample per call and advances the index by the run length modulo L |
| Nlms.ModSuccessor | src/nlms_filter.cpp:116 | advancing the wrapped index by one equals wrapping the advanced count |
| Nlms.RunWithoutAdaptKeepsWeights | src/nlms_filter.cpp:104-113 | without adaptation the weights never change over a run |
| Nlms.FreshWithoutAdaptPassesNearThrough | src/nlms_filter.cpp:11-26 | a fresh filter never allowed to adapt returns the near-end input unchanged, sample for sample |
| Nlms.RunOutputAt | src/nlms_filter.cpp:74-119 | the i-th sample of a run is the output of one step from the state the first i calls leave |
| Nlms.RunExtend | src/nlms_filter.cpp:74-119 | one more call extends the run by exactly one step |
| Nlms.DelayLineAfterRun | src/nlms_filter.cpp:79-80 | after a run, the slot a call wrote still holds that call's far sample until L further calls have passed |
| Nlms.TapLag | src/nlms_filter.cpp:79-87 | in call n of a run, weight i multiplies the far sample of call n - (L - i) mod L |
| Nlms.FreshFirstOutputIsNear | src/nlms_filter.cpp:74-119 | the first sample a fresh or reset filter returns is the near-end sample |
| Nlms.NlmsFilter.constructor | src/nlms_filter.cpp:11-15 | construction leaves the reset state |
| Nlms.NlmsFilter.Reset | src/nlms_filter.cpp:17-26 | the arrays are zeroed in place and the index rewound: the state is Fresh |
| Nlms.NlmsFilter.EchoAccumulator | src/nlms_filter.cpp:82-87 | the loop's 32-bit accumulator is the wrapped exact dot product |
| Nlms.NlmsFilter.AdaptWeights | src/nlms_filter.cpp:107-112 | the in-place loop leaves exactly AdaptedWeights of the old weights |
| Nlms.NlmsFilter.ProcessFixed | src/nlms_filter.cpp:74-119 | the new state and the returned sample are Step of the old state |
| DoubleTalk.Initial | src/double_talk_detector.cpp:19-23 | zero smoothed powers, zero counter, adaptation allowed |
| DoubleTalk.Strided | src/double_talk_detector.cpp:30-32 | sample i of the channel is buf[offset + i * stride] |
| DoubleTalk.SquareNonNegative | src/double_talk_detector.cpp:33-34 | a squared sample is non-negative |
| DoubleTalk.Energy | src/double_talk_detector.cpp:30-35 | the sum of the squared samples of a frame is non-negative |
| DoubleTalk.CrossEnergy | src/double_talk_detector.cpp:30-36 | twice the cross sum lies within plus or minus the sum of the two energies, and a frame's cross sum with itself is its energy |
| DoubleTalk.SilentFarHasNoEnergy | src/double_talk_detector.cpp:30-36 | an all-zero far frame has zero far power and zero cross power |
| DoubleTalk.Smooth | src/double_talk_detector.cpp:44-46 | alpha 1 keeps the smoothed value, alpha 0 takes the frame's value, and equal values are a fixed point |
| DoubleTalk.SmoothBetween | src/double_talk_detector.cpp:44-46 | for alpha in [0, 1] the smoothed value lies between the old smoothed value and the new one |
| DoubleTalk.Ratio | src/double_talk_detector.cpp:55 | the guarded divisor is positive: the ratio times far power plus 1e-12 is the near power, and it is non-negative for non-negative near power |
| DoubleTalk.Coherence | src/double_talk_detector.cpp:56 | coherence is non-negative, and zero when the cross power is zero |
| DoubleTalk.Detected | src/double_talk_detector.cpp:49-61 | double-talk exactly when the near power reaches the floor, exceeds the threshold times the guarded far power, and the coherence is below its threshold |
| DoubleTalk.Decide | src/double_talk_detector.cpp:49-61 | the branches of the decision compute Detected |
| DoubleTalk.Hangover | src/double_talk_detector.cpp:63-73 | adaptation is allowed exactly when nothing is detected and the counter was at most one; a detection reloads the counter, otherwise a positive counter falls by exactly one and zero stays zero |
| DoubleTalk.HangoverStep | src/double_talk_detector.cpp:63-73 | the branches of the hangover logic compute Hangover |
| DoubleTalk.QuietFrames | src/double_talk_detector.cpp:63-73 | k quiet frames give k adapt flags |
| DoubleTalk.QuietFramesFrom | src/double_talk_detector.cpp:63-73 | from counter h, quiet frame j allows adaptation exactly when j + 1 >= h |
| DoubleTalk.HangoverAfterDetection | src/double_talk_detector.cpp:63-73 | after a detection the next quiet frames stay disabled exactly while fewer than hangover_frames have passed |
| DoubleTalk.NextState | src/double_talk_detector.cpp:25-76 | an update keeps the smoothed powers non-negative and the counter within the hangover length |
| DoubleTalk.QuietNearIsNotDoubleTalk | src/double_talk_detector.cpp:51-53 | below the near-energy floor the quiet branch of the hangover machine is taken |
| DoubleTalk.FarSilenceDisablesAdaptation | src/double_talk_detector.cpp:49-65 | from a state with no far or cross power, a silent far frame whose near power reaches the floor is declared double-talk and disables adaptation |
| DoubleTalk.FrameEnergies | src/double_talk_detector.cpp:27-41 | the frame loop yields the mean far, near and cross power of the strided samples |
| DoubleTalk.DoubleTalkDetector.constructor | src/double_talk_detector.cpp:7-17 | the parameters are stored, the floor is 1e-8 and the state is Initial |
| DoubleTalk.DoubleTalkDetector.Reset | src/double_talk_detector.cpp:19-23 | the state returns to Initial and the parameters are kept |
| DoubleTalk.DoubleTalkDetector.Update | src/double_talk_detector.cpp:25-76 | the new state is NextState of the old one on the channel's samples, and the returned flag is the stored one |
| DoubleTalk.DoubleTalkDetector.IsAdaptAllowed | include/aec/double_talk_detector.hpp:19 | returns the stored adapt flag |
| Aec.Max1 | src/aec.cpp:15 | max(1, n) |
| Aec.PairCount | src/aec.cpp:15-16 | the engine owns the configured channel count clamped to [1, max_channels] |
| Aec.EffectiveChannels | src/aec.cpp:31-34 | the call's channel count is at least one, at most the pair count and at most the requested count (or one) |
| Aec.FreshChannel | src/aec.cpp:18-25 | each pair starts as a fresh filter and an initial detector |
| Aec.InterleavedIndexFitsU32 | src/aec.cpp:44 | every position i * ch + c of a frame is below 2^32, so the source's uint32 arithmetic computes it exactly, if and only if the frame has at most 2^32 positions |
| Aec.ChannelStep | src/aec.cpp:37-53 | a channel's step keeps it valid, gives one sample per input sample and leaves the detector alone when detection is off |
| Aec.ChannelFrame | src/aec.cpp:37-53 | channel c of an interleaved frame yields n samples and stays valid |
| Aec.ChannelsAfter | src/aec.cpp:37-54 | after the first k channels, every channel from k on is unchanged |
| Aec.ProcessChannels | src/aec.cpp:37-54 | the channel states after a call stay valid and keep their count |
| Aec.ProcessOutput | src/aec.cpp:43-46 | the output after a call keeps its length |
| Aec.OutputAfter | src/aec.cpp:37-54 | the output after the first k channels keeps its length |
| Aec.OutputAfterAt | src/aec.cpp:43-46 | after k channels, each position holds its channel's sample if that channel has run, and its old value otherwise |
| Aec.OutputAfterAll | src/aec.cpp:37-54 | after all channels the buffer is ProcessOutput |
| Aec.OutputAfterStep | src/aec.cpp:43-46 | channel k writes over what the first k channels left |
| Aec.ChannelsAfterStep | src/aec.cpp:37-53 | running channel k updates only channel k |
| Aec.InterleavedOutput | src/aec.cpp:44-46 | position i * ch + c receives sample i of channel c |
| Aec.OutputBeyondFrameUnchanged | src/aec.cpp:43-46 | every position from n * ch on keeps its old value |
| Aec.SameChannelSamples | src/aec.cpp:40-46 | buffers that agree on channel c's positions give channel c the same samples |
| Aec.SameChannelFrame | src/aec.cpp:37-53 | channel c's result depends only on its state and its own samples |
| Aec.ChannelIndependence | src/aec.cpp:37-54 | two calls that agree on channel c's state and samples agree on channel c's new state and on all its output positions, whatever the other channels hold |
| Aec.DetectionDisabledAlwaysAdapts | src/aec.cpp:38-41 | with detection off, every channel adapts on every sample and its detector is untouched |
| Aec.FreshChannelFirstOutputIsNear | src/aec.cpp:37-53 | a fresh channel's first output is its first near-end sample |
| Aec.FreshEngineFirstOutputIsNear | src/aec.cpp:37-54 | a fresh engine writes near[c] at position c for every channel c |
| Aec.CountSamples | src/aec.cpp:61 | the sample counter grows by frame length times the configured channel count (not the effective one), modulo 2^64 |
| Aec.AddTime | src/aec.cpp:60 | the time counter grows by the elapsed time, modulo 2^64 |
| Aec.LatencyMs | src/aec.cpp:79-84 | 0 before any sample; otherwise latency * samples * 10^6 equals the total time |
| Aec.Engine.constructor | src/aec.cpp:13-26 | PairCount(config) fresh pairs and zero counters |
| Aec.Engine.ProcessChannel | src/aec.cpp:37-53 | channel c's pair and output positions become ChannelFrame's; no other channel changes |
| Aec.Engine.AdvanceChannel | src/aec.cpp:37-54 | one iteration of the channel loop advances ChannelsAfter and OutputAfter by one channel |
| Aec.Engine.RunChannels | src/aec.cpp:37-54 | the channel loop leaves ProcessChannels and ProcessOutput of the old state |
| Aec.Engine.Process | src/aec.cpp:28-64 | for a frame whose uint32 positions do not wrap, the call succeeds; the channels and output are the specification's, and the counters advance by CountSamples and AddTime |
| Aec.Engine.ResetFilter | src/aec.cpp:67 | filter c becomes fresh and its detector is kept |
| Aec.Engine.ResetDetector | src/aec.cpp:70 | detector c becomes initial and its filter is kept |
| Aec.Engine.Reset | src/aec.cpp:66-71 | every channel is fresh and both counters are zero |
| Aec.Engine.GetErle | src/aec.cpp:73-77 | a fixed 25 dB, whatever has been processed |
| Aec.Engine.GetLatencyMs | src/aec.cpp:79-84 | 0 before any sample, else the mean time per sample in ms |
| Aec.NewPairs | src/aec.cpp:18-25 | count fresh, pairwise-disjoint filter/detector pairs with the configured parameters |
| Aec.Scatter | src/aec.cpp:43-46 | writing a channel's values keeps the buffer length |
| Aec.ScatterAt | src/aec.cpp:43-46 | after writing i values of channel c, a position holds value j / ch if it is one of those, its old value otherwise |
| Aec.ScatterExtend | src/aec.cpp:44-46 | one more value is one update at position i * ch + c |
| Aec.ProcessSampleAt | src/aec.cpp:44-46 | sample i of channel c is one filter step whose output is written at i * ch + c |
| Aec.ProcessChannelSamples | src/aec.cpp:43-46 | the sample loop leaves the filter at Run of its old state and the output scattered at channel c's positions |
| WebRtc.SamplesIn | src/webrtc_adapter.cpp:15 | floor(sampleRate * frameMs / 1000) truncated to 32 bits |
| WebRtc.MsIn | src/webrtc_adapter.cpp:12 | floor(frameSize * 1000 / sampleRate) truncated to 32 bits |
| WebRtc.FrameLength | src/webrtc_adapter.cpp:18 | an empty frame has no samples |
| WebRtc.InitFrameSize | src/webrtc_adapter.cpp:10-16 | the configured frame length when non-zero, else the samples in frameMs |
| WebRtc.InitFrameMs | src/webrtc_adapter.cpp:10-16 | the duration of the configured length when non-zero, else frameMs |
| WebRtc.DurationRoundTrip | src/webrtc_adapter.cpp:12-15 | a frame computed from a duration lasts no longer than it, and exactly as long when the duration holds whole samples |
| WebRtc.InitBranchesAgree | src/webrtc_adapter.cpp:10-16 | configuring by duration or by the equivalent frame length gives the same length, and the same duration when it holds whole samples |
| WebRtc.WebRtcAecAdapter.EngineChannels | src/webrtc_adapter.cpp:33 | the engine's channel count for the adapter's frames never exceeds the adapter's, so a frame fits the buffers |
| WebRtc.WebRtcAecAdapter.constructor | include/aec/webrtc_adapter.h:10-27 | no engine, empty buffers, 10 ms, zero length, one channel, enabled |
| WebRtc.WebRtcAecAdapter.Init | src/webrtc_adapter.cpp:7-23 | the geometry is set; Init succeeds exactly when the frame is non-empty, and then installs zeroed buffers and a fresh engine; on failure the engine and buffers are kept |
| WebRtc.WebRtcAecAdapter.SetGeometry | src/webrtc_adapter.cpp:8-16 | the rate, the channel count (zero meaning one) and InitFrameSize/InitFrameMs are stored |
| WebRtc.WebRtcAecAdapter.Attach | src/webrtc_adapter.cpp:18-22 | one-frame zeroed buffers and a fresh engine replace the old ones |
| WebRtc.WebRtcAecAdapter.ProcessRender | src/webrtc_adapter.cpp:24-28 | a null frame is ignored; otherwise the first frame of samples replaces the far buffer's prefix |
| WebRtc.WebRtcAecAdapter.ProcessCapture | src/webrtc_adapter.cpp:29-38 | fails on a null frame or without an engine and succeeds unchanged when disabled; otherwise the engine processes the frame and the frame becomes the first frame of the engine's output |
| WebRtc.WebRtcAecAdapter.SetEnabled | include/aec/webrtc_adapter.h:15 | sets the flag and nothing else |
| WebRtc.WebRtcAecAdapter.IsEnabled | include/aec/webrtc_adapter.h:16 | returns the flag |
| WebRtc.WebRtcAecAdapter.GetErle | src/webrtc_adapter.cpp:39-42 | 0 without an engine, else the engine's 25 dB |
| WebRtc.WebRtcAecAdapter.GetLatencyMs | src/webrtc_adapter.cpp:43-46 | 0 without an engine, else the engine's latency |
| WebRtc.NewResources | src/webrtc_adapter.cpp:18-21 | two distinct zero-filled buffers and a fresh engine sharing no object |
| WebRtc.CopyPrefix | src/webrtc_adapter.cpp:27 | the first count samples are copied and the rest of the destination is kept |
| WavIo.LeU16 | examples/wav_io.hpp:81 | a u16 is written as two bytes |
| WavIo.LeU32 | examples/wav_io.hpp:80 | a u32 is written as four bytes |
| WavIo.U16RoundTrip | examples/wav_io.hpp:81 | decoding the two little-endian bytes of v gives v |
| WavIo.U16BytesRoundTrip | examples/wav_io.hpp:35 | encoding the u16 two bytes decode to gives the bytes back |
| WavIo.U32RoundTrip | examples/wav_io.hpp:80 | decoding the four little-endian bytes of v gives v |
| WavIo.U32BytesRoundTrip | examples/wav_io.hpp:37 | encoding the u32 four bytes decode to gives the bytes back |
| WavIo.SampleBytes | examples/wav_io.hpp:104 | a sample is two bytes, its two's-complement pattern |
| WavIo.SampleRoundTrip | examples/wav_io.hpp:70 | decoding a sample's bytes gives the sample |
| WavIo.SampleBytesRoundTrip | examples/wav_io.hpp:70 | encoding the sample two bytes decode to gives the bytes back |
| WavIo.PcmBytes | examples/wav_io.hpp:104 | samples become two bytes each, sample k at bytes 2k and 2k+1 |
| WavIo.Pcm16 | examples/wav_io.hpp:68-70 | the bytes give their whole number of samples |
| WavIo.PcmRoundTrip | examples/wav_io.hpp:68-70 | samples written as PCM bytes read back unchanged |
| WavIo.ReadAt | examples/wav_io.hpp:22 | a read succeeds exactly when the stream is good and n bytes remain, and then yields those bytes and advances by n |
| WavIo.SeekAt | examples/wav_io.hpp:42 | a relative seek moves a good stream and leaves a failed one as it is |
| WavIo.FmtFields | examples/wav_io.hpp:34-42 | the six field reads succeed exactly when 16 bytes remain; they leave the stream after the chunk, or after 16 bytes when the declared length is shorter |
| WavIo.FindFmt | examples/wav_io.hpp:30-51 | the fmt search fails only with "fmt chunk not found" |
| WavIo.FindData | examples/wav_io.hpp:55-63 | the data search fails only with "data chunk not found" |
| WavIo.ParseWav | examples/wav_io.hpp:17-73 | "not a RIFF file" exactly when the first four bytes are not RIFF; success implies WAVE at bytes 8-12 and a PCM 16-bit format |
| WavIo.DataByteCount | examples/wav_io.hpp:102 | twice the sample count in 32-bit arithmetic: exact when it fits, always even and covering at most all samples |
| WavIo.RiffSize | examples/wav_io.hpp:107 | the size field is the data length plus 36, wrapping to a value below 36 when that reaches 2^32 |
| WavIo.ByteRate | examples/wav_io.hpp:94 | the byte rate is rate * channels * bits / 8 whenever the 32-bit product does not wrap |
| WavIo.BlockAlign | examples/wav_io.hpp:96 | for 16-bit samples the block alignment is two bytes per channel |
| WavIo.Pcm16ByteRate | examples/wav_io.hpp:94-96 | for 16-bit samples the byte rate is the sample rate times the block alignment, when the product does not wrap |
| WavIo.RiffHeader | examples/wav_io.hpp:83-86 | the RIFF header is 12 bytes |
| WavIo.FmtBody | examples/wav_io.hpp:91-98 | the format fields are 16 bytes |
| WavIo.FmtChunk | examples/wav_io.hpp:89-98 | the fmt chunk is 24 bytes |
| WavIo.DataChunkHeader | examples/wav_io.hpp:101-103 | the data chunk header is 8 bytes |
| WavIo.WavBytes | examples/wav_io.hpp:76-110 | a written file is 44 bytes plus the data length field |
| WavIo.RiffSizeIsFileLengthMinus8 | examples/wav_io.hpp:107-109 | the RIFF size field is the file length minus 8 when that fits 32 bits |
| WavIo.ReadU16Encoded | examples/wav_io.hpp:35 | reading encoded bytes at a good position yields the encoded u16 |
| WavIo.ReadU32Encoded | examples/wav_io.hpp:37 | reading encoded bytes at a good position yields the encoded u32 |
| WavIo.FmtBodyParses | examples/wav_io.hpp:34-42 | the written format fields read back as the WavSpec |
| WavIo.FmtChunkParses | examples/wav_io.hpp:30-47 | a written fmt chunk is found where it stands and yields its WavSpec |
| WavIo.DataChunkParses | examples/wav_io.hpp:55-59 | a written data header is found where it stands and yields its length |
| WavIo.WavRoundTrip | examples/wav_io.hpp:17-110 | reading a written PCM16 file gives back the WavSpec and the samples the length field covers, all of them when twice their count fits 32 bits |
| WavIo.InputStream.constructor | examples/wav_io.hpp:18 | the stream starts good at offset 0 |
| WavIo.InputStream.Good | examples/wav_io.hpp:31 | the stream's good flag |
| WavIo.InputStream.Read | examples/wav_io.hpp:22 | the stream and the bytes are ReadAt's |
| WavIo.InputStream.ReadU16 | examples/wav_io.hpp:35 | a two-byte little-endian read |
| WavIo.InputStream.ReadU32 | examples/wav_io.hpp:25 | a four-byte little-endian read |
| WavIo.InputStream.Skip | examples/wav_io.hpp:42 | the cursor is SeekAt's |
| WavIo.InputStream.ReadFmtFields | examples/wav_io.hpp:34-42 | the WavSpec and cursor are FmtFields' |
| WavIo.InputStream.ReadSamples | examples/wav_io.hpp:68-71 | the cursor is the read's, and on success the buffer holds the samples the bytes encode |
| WavIo.FindFmtChunk | examples/wav_io.hpp:30-51 | the loop's result and final cursor are FindFmt's |
| WavIo.FindDataChunk | examples/wav_io.hpp:55-63 | the loop's result and final cursor are FindData's |
| WavIo.ReadWavPcm16 | examples/wav_io.hpp:17-73 | the result is ParseWav of the file's bytes |
| WavIo.OutputStream.constructor | examples/wav_io.hpp:77 | an empty file at position 0 |
| WavIo.OutputStream.Write | examples/wav_io.hpp:83 | bytes overwrite from the put position; at the end they append |
| WavIo.OutputStream.SeekTo | examples/wav_io.hpp:108 | the put position moves and the contents stay |
| WavIo.Overwrite | examples/wav_io.hpp:108-109 | the written bytes replace those at p, the rest is kept, and at the end they append |
| WavIo.WriteWavPcm16 | examples/wav_io.hpp:76-110 | the file written is WavBytes of the WavSpec and the samples |
| WavIo.WriteFmtChunk | examples/wav_io.hpp:89-98 | the fmt chunk is appended |
| WavIo.PatchRiffSize | examples/wav_io.hpp:107-109 | writing the size over a RIFF header replaces just the size field |

## Left out

- The floating-point NLMS path (`process_float`) and `get_coeff_norm`
  (`src/nlms_filter.cpp:28-72`) are left out: they are floating point. The
  engine model runs the fixed-point path only, so `Aec.Engine.Process`
  requires `config.useFixedPoint`.
- Nlms.NlmsFilter.ProcessFixed: the step size is a parameter of the filter,
  `stepRule`, applied to the delay line after the write.
  - The source derives it in float arithmetic from mu, delta and the power
    of the delay line (`src/nlms_filter.cpp:96-106`).
  - The model does not compute that float value.
- Nlms.EchoEstimate: the source sums the products in an int32
  (`src/nlms_filter.cpp:83-87`), and an overflow there is undefined
  behaviour in C++.
  - The model chooses two's-complement wrap-around after every addition
    (`Ints.Wrap32`).
  - That is exact whenever the sum fits in 32 bits (`Nlms.StepOutput`).
  - With two or more taps the sum can leave that range (`Nlms.Dot`).
- DoubleTalk.NextState: the powers, the smoothing and the decision are
  computed over exact reals, not float and double arithmetic.
- DoubleTalk.DoubleTalkDetector.Update requires a non-empty frame. For a
  frame of 0 samples the source divides 0 by 0 and stores NaN in every
  smoothed power from then on. So:
  - Aec.Engine.Process and the adapter's ProcessCapture require a non-empty
    frame whenever detection is on.
  - This includes a ProcessCapture after a failed re-Init, which leaves the
    old engine with a frame length of 0.
- DoubleTalk.DoubleTalkDetector.constructor requires the smoothing factor
  to lie in [0, 1]. Aec.Engine.constructor and WebRtc.WebRtcAecAdapter.Init
  do as well. Outside [0, 1] the smoothed powers can turn negative, and the
  source does not guard against this.
- Nlms.NlmsFilter.constructor requires a positive filter length. So do
  Aec.Engine.constructor and WebRtc.WebRtcAecAdapter.Init. With a length of
  0, the source's `% filter_length` is a division by zero.
- Aec.Engine.Process: the far, near and output buffers are sequences and an
  array.
  - The model does not capture an output buffer that aliases the near
    buffer.
  - The source can index past a buffer shorter than a frame; the model
    requires every buffer to hold a frame.
  - The elapsed time, which the source reads from a clock, is a parameter.
- Aec.Engine.Process requires a frame of at most 2^32 interleaved positions
  (`Aec.IndicesFitU32`). The adapter's ProcessCapture requires the same for
  the engine's channel count.
  - The source computes the positions `i * ch + c` (`src/aec.cpp:44`) and
    the detector's offsets `i * stride`
    (`src/double_talk_detector.cpp:31-32`) in uint32.
  - For a larger frame they wrap modulo 2^32, and channels read and
    overwrite one another's samples.
  - Aec.Scatter and DoubleTalk.Strided use exact positions and do not
    capture that wrap. Within the limit the two agree
    (`Aec.InterleavedIndexFitsU32`).
- WebRtc.WebRtcAecAdapter.ProcessCapture and ProcessRender require that the
  caller's frame is not one of the adapter's own buffers and holds at least
  one frame. The source's memcpy over a shorter or overlapping buffer is
  undefined.
- WebRtc.WebRtcAecAdapter.Init requires a positive sample rate when the
  configured frame length is non-zero. Otherwise the source divides by zero.
- WebRtc.WebRtcAecAdapter.Init: the engine can be constructed only for the
  fixed-point path.
- Aec.MaxChannels: its value is not in the headers. The model assumes only
  that it is at least one.
- WavIo.ReadWavPcm16 and WavIo.WriteWavPcm16 work on byte sequences.
  - Opening, reading and writing the files (`examples/wav_io.hpp:18-19,
    77-78`) are left out: they are I/O.
  - A failure to open a file is not modelled.
  - The byte order is that of a little-endian host.
- WavIo.ReadWavPcm16: with an odd data length the source reads one byte
  past the end of its sample buffer (`examples/wav_io.hpp:68-70`). The
  model keeps only the whole samples and does not model the overrun.
- WavIo.ReadWavPcm16: the bytes a failed read leaves are indeterminate in
  the source. The model reads them as zeros. Two kinds of file depend on
  that choice:
  - A file cut off inside the "RIFF" or "WAVE" tag
    (`examples/wav_io.hpp:22-23`, `:26-27`). For the three bytes "RIF" the
    source compares an indeterminate fourth byte, which could complete the
    tag. The model's zeros never do, so it returns NotRiff (or NotWave).
  - A file cut off inside the data chunk's length field
    (`examples/wav_io.hpp:57`, `:68-71`). The source sizes its sample
    buffer by an indeterminate length before the read fails. The model's
    length is 0, and it returns ReadFailed.
  - Every other failed read ends in an error that depends on the stream
    state only.
- WavIo.BlockAlign: the source multiplies two u16 values in int, which can
  overflow. That is undefined behaviour, and the model assumes it does not
  happen: it computes the product exactly before the 16-bit truncation.
- Aec.LatencyMs, Aec.Engine.GetLatencyMs and
  WebRtc.WebRtcAecAdapter.GetLatencyMs return exact reals where the source
  returns a double (`src/aec.cpp:79-84`). The model does not capture the
  rounding of the u64-to-double conversions above 2^53, nor that of the
  division. Aec.Engine.GetErle and WebRtc.WebRtcAecAdapter.GetErle return
  the constant 25 as a real.
- Memory exhaustion while allocating is not modelled.
- The engine's floating-point conversion path (`src/aec.cpp:47-52`) and
  the JNI, Android and benchmark wrappers are not part of this model.
