/// The PCM16 WAV reader and writer. A file is a RIFF form of type WAVE:
/// a 12-byte header ("RIFF", the form size, "WAVE") followed by chunks, each
/// a four-byte id, a little-endian 32-bit length and that many bytes. The
/// reader finds the `fmt ` chunk, then the `data` chunk, skipping any other
/// chunk by its declared length; the writer emits the canonical 44-byte
/// header followed by the samples.
///
/// The input and output files are byte sequences. The reader's stream is
/// a cursor with a good/failed state: a read past the end fails the stream,
/// and every later read and seek of a failed stream does nothing. The
/// contents of a failed read are unspecified in the source; here they are
/// zero bytes. The only results that depend on them are the tag checks of a
/// file cut off inside "RIFF" or "WAVE": zeros never complete a tag, so such
/// a file is rejected as NotRiff or NotWave.
module WavIo {
  import opened Ints

  /// WavSpec
  datatype WavSpec = WavSpec(audioFormat: U16, numChannels: U16, sampleRate: U32, bitsPerSample: U16)

  /// A decoded file: its format and its interleaved samples.
  datatype Wav = Wav(spec: WavSpec, samples: seq<Int16>)

  /// The runtime_error messages of read_wav_pcm16, one per cause.
  datatype WavError =
    | NotRiff        // "not a RIFF file"
    | NotWave        // "not a WAVE file"
    | FmtNotFound    // "fmt chunk not found"
    | DataNotFound   // "data chunk not found"
    | NotPcm         // "only PCM WAV supported"
    | Not16Bit       // "only 16-bit WAV supported"
    | ReadFailed     // "failed to read WAV data"

  datatype Result<T> = Ok(value: T) | Err(error: WavError)

  const TwoTo16: int := 0x1_0000
  const TwoTo32: int := 0x1_0000_0000

  // ---------------------------------------------------------------------
  // Byte encodings (little-endian, as RIFF stores them)

  /// The bytes of a four-character code.
  function Tag(s: string): (r: seq<Byte>)
    requires forall i :: 0 <= i < |s| ==> s[i] as int < 0x100
    ensures |r| == |s| && forall i :: 0 <= i < |s| ==> r[i] == s[i] as int
  {
    seq(|s|, i requires 0 <= i < |s| => s[i] as int)
  }

  const RiffTag: seq<Byte> := Tag("RIFF")
  const WaveTag: seq<Byte> := Tag("WAVE")
  const FmtTag: seq<Byte> := Tag("fmt ")
  const DataTag: seq<Byte> := Tag("data")

  function LeU16(v: U16): (r: seq<Byte>)
    ensures |r| == 2
  {
    [v % 0x100, v / 0x100]
  }

  function LeU32(v: U32): (r: seq<Byte>)
    ensures |r| == 4
  {
    [v % 0x100, v / 0x100 % 0x100, v / 0x100 / 0x100 % 0x100, v / 0x100 / 0x100 / 0x100]
  }

  function U16Of(b: seq<Byte>): (r: U16)
    requires |b| == 2
  {
    b[0] as int + 0x100 * b[1] as int
  }

  function U32Of(b: seq<Byte>): (r: U32)
    requires |b| == 4
  {
    b[0] as int + 0x100 * (b[1] as int + 0x100 * (b[2] as int + 0x100 * b[3] as int))
  }

  /// The two bytes of an int16 sample: its two's-complement pattern.
  function SampleBytes(v: Int16): (r: seq<Byte>)
    ensures |r| == 2
  {
    LeU16(v % TwoTo16)
  }

  /// The int16 sample whose two's-complement pattern is the two bytes.
  function SampleOf(b: seq<Byte>): (r: Int16)
    requires |b| == 2
  {
    var u := U16Of(b);
    if u < 0x8000 then u else u - TwoTo16
  }

  lemma U16RoundTrip(v: U16)
    ensures U16Of(LeU16(v)) == v
  {
  }

  lemma U16BytesRoundTrip(b: seq<Byte>)
    requires |b| == 2
    ensures LeU16(U16Of(b)) == b
  {
  }

  /// A byte below the multiples of 256: the low byte and the rest.
  lemma ByteSplit(lo: Byte, hi: nat)
    ensures (lo + 0x100 * hi) % 0x100 == lo && (lo + 0x100 * hi) / 0x100 == hi
  {
  }

  lemma U32RoundTrip(v: U32)
    ensures U32Of(LeU32(v)) == v
  {
    var v1 := v / 0x100;
    var v2 := v1 / 0x100;
    assert v == v % 0x100 + 0x100 * v1;
    assert v1 == v1 % 0x100 + 0x100 * v2;
    assert v2 == v2 % 0x100 + 0x100 * (v2 / 0x100);
  }

  lemma U32BytesRoundTrip(b: seq<Byte>)
    requires |b| == 4
    ensures LeU32(U32Of(b)) == b
  {
    var v2 := b[2] as int + 0x100 * b[3] as int;
    var v1 := b[1] as int + 0x100 * v2;
    ByteSplit(b[0], v1);
    ByteSplit(b[1], v2);
    ByteSplit(b[2], b[3]);
  }

  /// Decoding the bytes of a sample gives the sample back.
  lemma SampleRoundTrip(v: Int16)
    ensures SampleOf(SampleBytes(v)) == v
  {
    U16RoundTrip(v % TwoTo16);
  }

  /// Encoding the sample two bytes decode to gives the bytes back.
  lemma SampleBytesRoundTrip(b: seq<Byte>)
    requires |b| == 2
    ensures SampleBytes(SampleOf(b)) == b
  {
    U16BytesRoundTrip(b);
  }

  /// The bytes of a run of samples, two per sample.
  function PcmBytes(samples: seq<Int16>): (r: seq<Byte>)
    ensures |r| == 2 * |samples|
    ensures forall k :: 0 <= k < |samples| ==> r[2 * k..2 * k + 2] == SampleBytes(samples[k])
  {
    var r := seq(2 * |samples|, i requires 0 <= i < 2 * |samples| => SampleBytes(samples[i / 2])[i % 2]);
    assert forall k :: 0 <= k < |samples| ==> r[2 * k..2 * k + 2] == SampleBytes(samples[k]) by {
      forall k | 0 <= k < |samples|
        ensures r[2 * k..2 * k + 2] == SampleBytes(samples[k])
      {
        assert (2 * k) / 2 == k && (2 * k + 1) / 2 == k;
      }
    }
    r
  }

  /// The whole samples in a run of bytes; an odd last byte is not part of
  /// any sample.
  function Pcm16(raw: seq<Byte>): (r: seq<Int16>)
    ensures |r| == |raw| / 2
  {
    seq(|raw| / 2, k requires 0 <= k < |raw| / 2 => SampleOf(raw[2 * k..2 * k + 2]))
  }

  /// Samples written by PcmBytes read back unchanged.
  lemma PcmRoundTrip(samples: seq<Int16>)
    ensures Pcm16(PcmBytes(samples)) == samples
  {
    var raw := PcmBytes(samples);
    forall k | 0 <= k < |samples|
      ensures Pcm16(raw)[k] == samples[k]
    {
      SampleRoundTrip(samples[k]);
    }
  }

  // ---------------------------------------------------------------------
  // The input stream

  /// The position of the input stream and whether it is still good.
  datatype Cursor = Cursor(pos: nat, good: bool)

  /// What a read returns: the stream after it and the value read.
  datatype Got<T> = Got(cur: Cursor, value: T)

  /// istream::read of n bytes. It succeeds when the stream is good and n
  /// bytes remain; otherwise the stream fails.
  function ReadAt(bytes: seq<Byte>, c: Cursor, n: nat): (g: Got<seq<Byte>>)
    ensures |g.value| == n
    ensures g.cur.good <==> c.good && c.pos + n <= |bytes|
    ensures g.cur.good ==> g.cur.pos == c.pos + n && g.value == bytes[c.pos..c.pos + n]
  {
    if c.good && c.pos + n <= |bytes| then Got(Cursor(c.pos + n, true), bytes[c.pos..c.pos + n])
    else Got(Cursor(c.pos, false), seq(n, _ => 0))
  }

  function ReadU16At(bytes: seq<Byte>, c: Cursor): (g: Got<U16>)
  {
    var g := ReadAt(bytes, c, 2);
    Got(g.cur, U16Of(g.value))
  }

  function ReadU32At(bytes: seq<Byte>, c: Cursor): (g: Got<U32>)
  {
    var g := ReadAt(bytes, c, 4);
    Got(g.cur, U32Of(g.value))
  }

  /// istream::seekg(off, cur). A good stream may be moved past the end (the
  /// next read then fails); a failed stream stays where it is.
  function SeekAt(c: Cursor, off: nat): (r: Cursor)
    ensures r.good == c.good
    ensures c.good ==> r.pos == c.pos + off
    ensures !c.good ==> r == c
  {
    if c.good then Cursor(c.pos + off, true) else c
  }

  /// What is left to read from a cursor: the chunk searches shrink it on
  /// every step.
  function Remaining(bytes: seq<Byte>, c: Cursor): nat
  {
    if c.good && c.pos <= |bytes| then |bytes| - c.pos + 1 else 0
  }

  // ---------------------------------------------------------------------
  // The reader, as a function of the file's bytes

  /// The fields of a `fmt ` chunk, read from its start. Bytes past the first
  /// sixteen of a longer chunk are skipped; a shorter chunk is still read as
  /// sixteen bytes.
  function FmtFields(bytes: seq<Byte>, c: Cursor, len: U32): (g: Got<WavSpec>)
    ensures g.cur.good <==> c.good && c.pos + 16 <= |bytes|
    ensures g.cur.good ==> g.cur.pos == c.pos + (if len > 16 then len else 16)
  {
    var audioFormat := ReadU16At(bytes, c);
    var numChannels := ReadU16At(bytes, audioFormat.cur);
    var sampleRate := ReadU32At(bytes, numChannels.cur);
    var byteRate := ReadU32At(bytes, sampleRate.cur);
    var blockAlign := ReadU16At(bytes, byteRate.cur);
    var bitsPerSample := ReadU16At(bytes, blockAlign.cur);
    var after := if len > 16 then SeekAt(bitsPerSample.cur, len - 16) else bitsPerSample.cur;
    Got(after, WavSpec(audioFormat.value, numChannels.value, sampleRate.value, bitsPerSample.value))
  }

  /// The search for the `fmt ` chunk: every other chunk is skipped by its
  /// declared length; running out of chunk ids fails.
  function FindFmt(bytes: seq<Byte>, c: Cursor): (r: Result<Got<WavSpec>>)
    ensures r.Err? ==> r.error == FmtNotFound
    decreases Remaining(bytes, c)
  {
    var id := ReadAt(bytes, c, 4);
    if !id.cur.good then Err(FmtNotFound)
    else
      var len := ReadU32At(bytes, id.cur);
      if id.value == FmtTag then Ok(FmtFields(bytes, len.cur, len.value))
      else FindFmt(bytes, SeekAt(len.cur, len.value))
  }

  /// The search for the `data` chunk: it yields the chunk's declared length
  /// and the stream at its first byte.
  function FindData(bytes: seq<Byte>, c: Cursor): (r: Result<Got<U32>>)
    ensures r.Err? ==> r.error == DataNotFound
    decreases Remaining(bytes, c)
  {
    var id := ReadAt(bytes, c, 4);
    if !id.cur.good then Err(DataNotFound)
    else
      var len := ReadU32At(bytes, id.cur);
      if id.value == DataTag then Ok(len)
      else FindData(bytes, SeekAt(len.cur, len.value))
  }

  /// read_wav_pcm16 on a file's bytes. The format is checked only once the
  /// data chunk has been found, and the data must be present in full.
  function ParseWav(bytes: seq<Byte>): (r: Result<Wav>)
    ensures r == Err(NotRiff) <==> !(4 <= |bytes| && bytes[..4] == RiffTag)
    ensures r.Ok? ==> 12 <= |bytes| && bytes[8..12] == WaveTag
    ensures r.Ok? ==> r.value.spec.audioFormat == 1 && r.value.spec.bitsPerSample == 16
  {
    var riff := ReadAt(bytes, Cursor(0, true), 4);
    if riff.value != RiffTag then Err(NotRiff)
    else
      var size := ReadU32At(bytes, riff.cur);
      var wave := ReadAt(bytes, size.cur, 4);
      if wave.value != WaveTag then Err(NotWave)
      else match FindFmt(bytes, wave.cur)
        case Err(e) => Err(e)
        case Ok(fmt) =>
          match FindData(bytes, fmt.cur)
          case Err(e) => Err(e)
          case Ok(data) =>
            if fmt.value.audioFormat != 1 then Err(NotPcm)
            else if fmt.value.bitsPerSample != 16 then Err(Not16Bit)
            else
              var raw := ReadAt(bytes, data.cur, data.value);
              if !raw.cur.good then Err(ReadFailed)
              else Ok(Wav(fmt.value, Pcm16(raw.value)))
  }

  // ---------------------------------------------------------------------
  // The writer, as a function of the spec and the samples

  /// The data chunk's length field: the sample count times two, truncated
  /// to 32 bits.
  function DataByteCount(n: nat): (r: U32)
    ensures 2 * n < TwoTo32 ==> r == 2 * n
    ensures r % 2 == 0 && r / 2 <= n
  {
    (2 * n) % TwoTo32
  }

  /// The RIFF size field: the bytes after it, in 32-bit arithmetic. It is
  /// exact below 2^32 - 36 data bytes and wraps to a small value above.
  function RiffSize(dataBytes: U32): (r: U32)
    ensures dataBytes < TwoTo32 - 36 ==> r == dataBytes + 36
    ensures TwoTo32 - 36 <= dataBytes ==> r < 36
  {
    (4 + (8 + 16) + (8 + dataBytes)) % TwoTo32
  }

  /// The byte-rate field, sample_rate * num_channels * bits_per_sample / 8
  /// in 32-bit unsigned arithmetic.
  function ByteRate(spec: WavSpec): (r: U32)
    ensures spec.sampleRate * spec.numChannels * spec.bitsPerSample < TwoTo32 ==>
              r == spec.sampleRate * spec.numChannels * spec.bitsPerSample / 8
  {
    var rateTimesChannels := spec.sampleRate * spec.numChannels;
    ProductFitsU32(rateTimesChannels, spec.bitsPerSample);
    (rateTimesChannels % TwoTo32 * spec.bitsPerSample % TwoTo32) / 8
  }

  /// The block-align field, num_channels * bits_per_sample / 8 stored in
  /// 16 bits.
  function BlockAlign(spec: WavSpec): (r: U16)
    ensures spec.bitsPerSample == 16 && spec.numChannels < 0x8000 ==> r == 2 * spec.numChannels
  {
    (spec.numChannels * spec.bitsPerSample / 8) % TwoTo16
  }

  /// A product below 2^32 with a non-zero factor has its other factor below
  /// 2^32 too, so reducing that factor first changes nothing.
  lemma ProductFitsU32(a: nat, b: nat)
    ensures a * b < TwoTo32 ==> a % TwoTo32 * b % TwoTo32 == a * b
  {
    if a * b < TwoTo32 && b > 0 {
      assert a * b == a + a * (b - 1);
      assert a % TwoTo32 == a;
    }
  }

  /// For 16-bit PCM the byte rate is the sample rate times the block
  /// alignment, as the WAV format requires, whenever the writer's 32-bit
  /// product does not wrap.
  lemma Pcm16ByteRate(spec: WavSpec)
    requires spec.bitsPerSample == 16 && spec.numChannels < 0x8000
    requires spec.sampleRate * spec.numChannels * 16 < TwoTo32
    ensures ByteRate(spec) == spec.sampleRate * BlockAlign(spec)
  {
    assert spec.sampleRate * spec.numChannels * 16 / 8 == spec.sampleRate * (2 * spec.numChannels);
  }

  /// The RIFF header: the id, the size field and the form type.
  function RiffHeader(size: U32): (r: seq<Byte>)
    ensures |r| == 12
  {
    RiffTag + LeU32(size) + WaveTag
  }

  /// The sixteen bytes of format fields the writer emits.
  function FmtBody(spec: WavSpec): (r: seq<Byte>)
    ensures |r| == 16
  {
    LeU16(spec.audioFormat) + LeU16(spec.numChannels) + LeU32(spec.sampleRate)
    + LeU32(ByteRate(spec)) + LeU16(BlockAlign(spec)) + LeU16(spec.bitsPerSample)
  }

  /// The `fmt ` chunk the writer emits: its id, its length 16 and the
  /// fields.
  function FmtChunk(spec: WavSpec): (r: seq<Byte>)
    ensures |r| == 24
  {
    FmtTag + LeU32(16) + FmtBody(spec)
  }

  /// The id and length of the data chunk.
  function DataChunkHeader(dataBytes: U32): (r: seq<Byte>)
    ensures |r| == 8
  {
    DataTag + LeU32(dataBytes)
  }

  /// write_wav_pcm16's file: the 44-byte header, then as many samples as
  /// the data length field covers.
  function WavBytes(spec: WavSpec, samples: seq<Int16>): (r: seq<Byte>)
    ensures |r| == 44 + DataByteCount(|samples|)
  {
    var dataBytes := DataByteCount(|samples|);
    RiffHeader(RiffSize(dataBytes)) + FmtChunk(spec) + DataChunkHeader(dataBytes)
    + PcmBytes(samples[..dataBytes / 2])
  }

  /// The RIFF size field of a written file is its length minus the eight
  /// bytes of the RIFF id and size, as long as that fits 32 bits.
  lemma RiffSizeIsFileLengthMinus8(spec: WavSpec, samples: seq<Int16>)
    requires 44 + 2 * |samples| < TwoTo32
    ensures var b := WavBytes(spec, samples);
            U32Of(b[4..8]) == |b| - 8
  {
    hide PcmBytes, FmtChunk, DataChunkHeader, LeU32, Tag;
    var dataBytes := DataByteCount(|samples|);
    var h := RiffHeader(RiffSize(dataBytes));
    var b := WavBytes(spec, samples);
    assert b[..12] == h;
    assert b[4..8] == h[4..8] == LeU32(RiffSize(dataBytes));
    U32RoundTrip(RiffSize(dataBytes));
  }

  /// A slice of a window of b is the matching slice of b.
  lemma Window(b: seq<Byte>, q: nat, n: nat, i: nat, j: nat)
    requires q + n <= |b| && i <= j <= n
    ensures b[q + i..q + j] == b[q..q + n][i..j]
  {
    var w, v := b[q + i..q + j], b[q..q + n][i..j];
    assert forall k :: 0 <= k < |w| ==> w[k] == v[k];
  }

  /// Reading two bytes that encode v at a good position yields v.
  lemma ReadU16Encoded(b: seq<Byte>, c: Cursor, v: U16)
    requires c.good && c.pos + 2 <= |b| && b[c.pos..c.pos + 2] == LeU16(v)
    ensures ReadU16At(b, c) == Got(Cursor(c.pos + 2, true), v)
  {
    U16RoundTrip(v);
  }

  /// Reading four bytes that encode v at a good position yields v.
  lemma ReadU32Encoded(b: seq<Byte>, c: Cursor, v: U32)
    requires c.good && c.pos + 4 <= |b| && b[c.pos..c.pos + 4] == LeU32(v)
    ensures ReadU32At(b, c) == Got(Cursor(c.pos + 4, true), v)
  {
    U32RoundTrip(v);
  }

  /// The format fields as the writer emits them, at a good position q, read
  /// back as the spec they came from.
  lemma FmtBodyParses(b: seq<Byte>, q: nat, spec: WavSpec)
    requires q + 16 <= |b| && b[q..q + 16] == FmtBody(spec)
    ensures FmtFields(b, Cursor(q, true), 16) == Got(Cursor(q + 16, true), spec)
  {
    hide LeU16, LeU32, ByteRate, BlockAlign, ReadU16At, ReadU32At;
    var body := FmtBody(spec);
    Window(b, q, 16, 0, 2);
    assert b[q..q + 2] == body[0..2] == LeU16(spec.audioFormat);
    Window(b, q, 16, 2, 4);
    assert b[q + 2..q + 4] == body[2..4] == LeU16(spec.numChannels);
    Window(b, q, 16, 4, 8);
    assert b[q + 4..q + 8] == body[4..8] == LeU32(spec.sampleRate);
    Window(b, q, 16, 8, 12);
    assert b[q + 8..q + 12] == body[8..12] == LeU32(ByteRate(spec));
    Window(b, q, 16, 12, 14);
    assert b[q + 12..q + 14] == body[12..14] == LeU16(BlockAlign(spec));
    Window(b, q, 16, 14, 16);
    assert b[q + 14..q + 16] == body[14..16] == LeU16(spec.bitsPerSample);
    ReadU16Encoded(b, Cursor(q, true), spec.audioFormat);
    ReadU16Encoded(b, Cursor(q + 2, true), spec.numChannels);
    ReadU32Encoded(b, Cursor(q + 4, true), spec.sampleRate);
    ReadU32Encoded(b, Cursor(q + 8, true), ByteRate(spec));
    ReadU16Encoded(b, Cursor(q + 12, true), BlockAlign(spec));
    ReadU16Encoded(b, Cursor(q + 14, true), spec.bitsPerSample);
  }

  /// A `fmt ` chunk as the writer emits it, at a good position p, is found
  /// there and yields its spec, leaving the stream just past it.
  lemma FmtChunkParses(b: seq<Byte>, p: nat, spec: WavSpec)
    requires p + 24 <= |b| && b[p..p + 24] == FmtChunk(spec)
    ensures FindFmt(b, Cursor(p, true)) == Ok(Got(Cursor(p + 24, true), spec))
  {
    hide LeU32, FmtBody, FmtFields, ReadU32At, Tag;
    var fc := FmtChunk(spec);
    Window(b, p, 24, 0, 4);
    assert b[p..p + 4] == fc[0..4] == FmtTag;
    Window(b, p, 24, 4, 8);
    assert b[p + 4..p + 8] == fc[4..8] == LeU32(16);
    Window(b, p, 24, 8, 24);
    assert b[p + 8..p + 24] == fc[8..24] == FmtBody(spec);
    ReadU32Encoded(b, Cursor(p + 4, true), 16);
    FmtBodyParses(b, p + 8, spec);
  }

  /// A data chunk header at a good position p is found there and yields
  /// its length, leaving the stream at the first sample byte.
  lemma DataChunkParses(b: seq<Byte>, p: nat, dataBytes: U32)
    requires p + 8 <= |b| && b[p..p + 8] == DataChunkHeader(dataBytes)
    ensures FindData(b, Cursor(p, true)) == Ok(Got(Cursor(p + 8, true), dataBytes))
  {
    var dh := DataChunkHeader(dataBytes);
    assert b[p..p + 4] == dh[0..4] == DataTag;
    assert b[p + 4..p + 8] == dh[4..8] == LeU32(dataBytes);
    U32RoundTrip(dataBytes);
  }

  /// Reading what the writer wrote gives back the spec and the samples the
  /// data length field covers: all of them when twice their count fits 32
  /// bits. This needs a PCM, 16-bit spec, which is all the reader accepts.
  lemma {:induction false} WavRoundTrip(spec: WavSpec, samples: seq<Int16>)
    requires spec.audioFormat == 1 && spec.bitsPerSample == 16
    ensures ParseWav(WavBytes(spec, samples)) ==
              Ok(Wav(spec, samples[..DataByteCount(|samples|) / 2]))
    ensures 2 * |samples| < TwoTo32 ==> ParseWav(WavBytes(spec, samples)) == Ok(Wav(spec, samples))
  {
    hide PcmBytes, FmtChunk, DataChunkHeader, FindFmt, FindData, Pcm16;
    var dataBytes := DataByteCount(|samples|);
    var kept := samples[..dataBytes / 2];
    var h := RiffHeader(RiffSize(dataBytes));
    var b := WavBytes(spec, samples);
    assert b[..12] == h;
    assert b[0..4] == h[0..4] == RiffTag;
    assert b[8..12] == h[8..12] == WaveTag;
    assert b[12..36] == FmtChunk(spec);
    assert b[36..44] == DataChunkHeader(dataBytes);
    assert b[44..44 + dataBytes] == PcmBytes(kept);
    FmtChunkParses(b, 12, spec);
    DataChunkParses(b, 36, dataBytes);
    PcmRoundTrip(kept);
    if 2 * |samples| < TwoTo32 {
      assert kept == samples;
    }
  }

  // ---------------------------------------------------------------------
  // The streams and the two operations

  /// The std::ifstream the reader works through.
  class InputStream {
    const bytes: seq<Byte>
    var cur: Cursor

    constructor (bytes: seq<Byte>)
      ensures this.bytes == bytes && cur == Cursor(0, true)
    {
      this.bytes := bytes;
      cur := Cursor(0, true);
    }

    /// operator bool / !f: whether every read so far has succeeded.
    function Good(): (r: bool)
      reads this
      ensures r == cur.good
    {
      cur.good
    }

    method Read(n: nat) returns (v: seq<Byte>)
      modifies this
      ensures Got(cur, v) == ReadAt(bytes, old(cur), n)
    {
      if cur.good && cur.pos + n <= |bytes| {
        v := bytes[cur.pos..cur.pos + n];
        cur := Cursor(cur.pos + n, true);
      } else {
        v := seq(n, _ => 0);
        cur := Cursor(cur.pos, false);
      }
    }

    method ReadU16() returns (v: U16)
      modifies this
      ensures Got(cur, v) == ReadU16At(bytes, old(cur))
    {
      var b := Read(2);
      v := U16Of(b);
    }

    method ReadU32() returns (v: U32)
      modifies this
      ensures Got(cur, v) == ReadU32At(bytes, old(cur))
    {
      var b := Read(4);
      v := U32Of(b);
    }

    /// seekg(off, std::ios::cur)
    method Skip(off: nat)
      modifies this
      ensures cur == SeekAt(old(cur), off)
    {
      if cur.good {
        cur := Cursor(cur.pos + off, true);
      }
    }

    /// The fields of a `fmt ` chunk of length len, read from the stream;
    /// the bytes of a longer chunk past the sixteenth are skipped.
    method ReadFmtFields(len: U32) returns (spec: WavSpec)
      modifies this
      ensures Got(cur, spec) == FmtFields(bytes, old(cur), len)
    {
      var audioFormat := ReadU16();
      var numChannels := ReadU16();
      var sampleRate := ReadU32();
      var byteRate := ReadU32();
      var blockAlign := ReadU16();
      var bitsPerSample := ReadU16();
      if len > 16 {
        Skip(len - 16);
      }
      spec := WavSpec(audioFormat, numChannels, sampleRate, bitsPerSample);
    }

    /// read of count bytes into a buffer of whole samples: each pair of
    /// bytes becomes one sample.
    method ReadSamples(out: array<Int16>, count: nat)
      requires out.Length == count / 2
      modifies this, out
      ensures cur == ReadAt(bytes, old(cur), count).cur
      ensures cur.good ==> out[..] == Pcm16(ReadAt(bytes, old(cur), count).value)
    {
      if cur.good && cur.pos + count <= |bytes| {
        var p := cur.pos;
        forall k | 0 <= k < count / 2 {
          out[k] := SampleOf(bytes[p + 2 * k..p + 2 * k + 2]);
        }
        cur := Cursor(p + count, true);
        ghost var raw := bytes[p..p + count];
        forall k | 0 <= k < count / 2
          ensures out[k] == Pcm16(raw)[k]
        {
          assert raw[2 * k..2 * k + 2] == bytes[p + 2 * k..p + 2 * k + 2];
        }
        assert out[..] == Pcm16(raw);
      } else {
        cur := Cursor(cur.pos, false);
      }
    }
  }

  /// The loop of read_wav_pcm16 that looks for the `fmt ` chunk and reads
  /// its fields, skipping other chunks.
  method FindFmtChunk(f: InputStream) returns (r: Result<WavSpec>)
    modifies f
    ensures FindFmt(f.bytes, old(f.cur)) == if r.Ok? then Ok(Got(f.cur, r.value)) else Err(r.error)
  {
    hide FmtFields;
    ghost var start := f.cur;
    while true
      invariant FindFmt(f.bytes, f.cur) == FindFmt(f.bytes, start)
      decreases Remaining(f.bytes, f.cur)
    {
      var id := f.Read(4);
      if !f.Good() {
        return Err(FmtNotFound);
      }
      var len := f.ReadU32();
      if id == FmtTag {
        var spec := f.ReadFmtFields(len);
        return Ok(spec);
      }
      f.Skip(len);
    }
  }

  /// The loop of read_wav_pcm16 that looks for the `data` chunk, skipping
  /// other chunks; it yields the chunk's length.
  method FindDataChunk(f: InputStream) returns (r: Result<U32>)
    modifies f
    ensures FindData(f.bytes, old(f.cur)) == if r.Ok? then Ok(Got(f.cur, r.value)) else Err(r.error)
  {
    ghost var start := f.cur;
    while true
      invariant FindData(f.bytes, f.cur) == FindData(f.bytes, start)
      decreases Remaining(f.bytes, f.cur)
    {
      var id := f.Read(4);
      if !f.Good() {
        return Err(DataNotFound);
      }
      var len := f.ReadU32();
      if id == DataTag {
        return Ok(len);
      }
      f.Skip(len);
    }
  }

  /// read_wav_pcm16: the header, the two chunk searches, the format checks
  /// and the samples.
  method ReadWavPcm16(bytes: seq<Byte>) returns (r: Result<Wav>)
    ensures r == ParseWav(bytes)
  {
    var f := new InputStream(bytes);
    var riff := f.Read(4);
    if riff != RiffTag {
      return Err(NotRiff);
    }
    var _ := f.ReadU32();
    var wave := f.Read(4);
    if wave != WaveTag {
      return Err(NotWave);
    }

    var fmt := FindFmtChunk(f);
    if fmt.Err? {
      return Err(fmt.error);
    }
    var spec := fmt.value;
    var data := FindDataChunk(f);
    if data.Err? {
      return Err(data.error);
    }
    var dataBytes := data.value;

    if spec.audioFormat != 1 {
      return Err(NotPcm);
    }
    if spec.bitsPerSample != 16 {
      return Err(Not16Bit);
    }
    var samples := dataBytes / 2;
    var out := new Int16[samples];
    f.ReadSamples(out, dataBytes);
    if !f.Good() {
      return Err(ReadFailed);
    }
    r := Ok(Wav(spec, out[..]));
  }

  /// The std::ofstream the writer works through: its contents and its put
  /// position. A write overwrites from the put position and extends the
  /// file when it runs past the end.
  class OutputStream {
    var contents: seq<Byte>
    var pos: nat

    constructor ()
      ensures contents == [] && pos == 0
    {
      contents := [];
      pos := 0;
    }

    method Write(v: seq<Byte>)
      requires pos <= |contents|
      modifies this
      ensures pos == old(pos) + |v|
      ensures contents == Overwrite(old(contents), old(pos), v)
      ensures old(pos) == |old(contents)| ==> contents == old(contents) + v
    {
      contents := Overwrite(contents, pos, v);
      pos := pos + |v|;
    }

    /// seekp(p, std::ios::beg)
    method SeekTo(p: nat)
      requires p <= |contents|
      modifies this
      ensures pos == p && contents == old(contents)
    {
      pos := p;
    }
  }

  /// The contents after writing v at position p: v replaces what was there
  /// and the rest is kept.
  function Overwrite(s: seq<Byte>, p: nat, v: seq<Byte>): (r: seq<Byte>)
    requires p <= |s|
    ensures |r| == if p + |v| <= |s| then |s| else p + |v|
    ensures r[..p] == s[..p] && r[p..p + |v|] == v
    ensures p + |v| <= |s| ==> r[p + |v|..] == s[p + |v|..]
    ensures p == |s| ==> r == s + v
  {
    if p + |v| <= |s| then s[..p] + v + s[p + |v|..] else s[..p] + v
  }

  /// write_wav_pcm16: the header with a zero RIFF size, the format and the
  /// samples, then the RIFF size patched in at offset 4.
  method WriteWavPcm16(spec: WavSpec, data: seq<Int16>) returns (bytes: seq<Byte>)
    ensures bytes == WavBytes(spec, data)
  {
    hide Overwrite, PcmBytes, LeU32, FmtChunk, Tag;
    var f := new OutputStream();
    f.Write(RiffTag);
    f.Write(LeU32(0));
    f.Write(WaveTag);
    WriteFmtChunk(f, spec);
    var dataBytes := DataByteCount(|data|);
    f.Write(DataTag);
    f.Write(LeU32(dataBytes));
    f.Write(PcmBytes(data[..dataBytes / 2]));
    ghost var rest := FmtChunk(spec) + DataChunkHeader(dataBytes) + PcmBytes(data[..dataBytes / 2]);
    assert f.contents == RiffHeader(0) + rest;

    var fileSize := RiffSize(dataBytes);
    f.SeekTo(4);
    f.Write(LeU32(fileSize));
    PatchRiffSize(0, fileSize, rest);
    bytes := f.contents;
  }

  /// The fmt chunk, field by field, with the byte rate and block alignment
  /// computed from the spec.
  method WriteFmtChunk(f: OutputStream, spec: WavSpec)
    requires f.pos == |f.contents|
    modifies f
    ensures f.contents == old(f.contents) + FmtChunk(spec) && f.pos == |f.contents|
  {
    hide Overwrite, LeU32, LeU16, ByteRate, BlockAlign, Tag;
    f.Write(FmtTag);
    f.Write(LeU32(16));
    f.Write(LeU16(spec.audioFormat));
    f.Write(LeU16(spec.numChannels));
    f.Write(LeU32(spec.sampleRate));
    var byteRate := ByteRate(spec);
    f.Write(LeU32(byteRate));
    var blockAlign := BlockAlign(spec);
    f.Write(LeU16(blockAlign));
    f.Write(LeU16(spec.bitsPerSample));
  }

  /// Writing a size over the size field of a RIFF header replaces just
  /// that field.
  lemma PatchRiffSize(oldSize: U32, size: U32, rest: seq<Byte>)
    ensures Overwrite(RiffHeader(oldSize) + rest, 4, LeU32(size)) == RiffHeader(size) + rest
  {
    var s := RiffHeader(oldSize) + rest;
    assert s[..4] == RiffTag;
    assert s[8..] == WaveTag + rest;
  }
}
