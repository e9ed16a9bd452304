/**
 * The 44-byte header of a 16-bit PCM WAV file, the little-endian byte
 * layout `DataView` uses for it, and the interleaved sample data that
 * follows. Three services write this layout; each writes it through the
 * `DataView` methods below, into the zero-filled `ArrayBuffer` modelled as
 * an array of bytes.
 */
module Wav {

  type Byte = b: int | 0 <= b < 256

  const TWO16: int := 0x1_0000
  const TWO32: int := 0x1_0000_0000

  /** The two bytes `setUint16(_, v, true)` writes: `v` modulo 2^16, low byte first. */
  function U16(v: int): (r: seq<Byte>)
    ensures |r| == 2
  {
    var w := v % TWO16;
    [w % 256, w / 256]
  }

  /** The four bytes `setUint32(_, v, true)` writes: `v` modulo 2^32, low byte first. */
  function U32(v: int): (r: seq<Byte>)
    ensures |r| == 4
  {
    var w := v % TWO32;
    [w % 256, (w / 256) % 256, (w / 0x1_0000) % 256, w / 0x100_0000]
  }

  /** Reading a little-endian unsigned 16-bit value back. */
  function ReadU16(b: seq<Byte>): int
    requires |b| == 2
  {
    b[0] as int + 256 * b[1] as int
  }

  /** Reading a little-endian unsigned 32-bit value back. */
  function ReadU32(b: seq<Byte>): int
    requires |b| == 4
  {
    b[0] as int + 256 * b[1] as int + 0x1_0000 * b[2] as int + 0x100_0000 * b[3] as int
  }

  /** Each write stores its value modulo the field width, so reading it back gives that residue. */
  lemma FieldsRoundTrip(v: int)
    ensures ReadU16(U16(v)) == v % TWO16
    ensures ReadU32(U32(v)) == v % TWO32
  {
    var w := v % TWO32;
    var b1 := w / 256;
    var b2 := b1 / 256;
    assert (w / 0x1_0000) == b2;
    assert w / 0x100_0000 == b2 / 256;
    assert w == w % 256 + 256 * b1;
    assert b1 == b1 % 256 + 256 * b2;
    assert b2 == b2 % 256 + 256 * (b2 / 256);
  }

  /** The bytes `writeString` stores for a string of code units below 256: one byte per character. */
  function Ascii(s: string): (r: seq<Byte>)
    requires forall i :: 0 <= i < |s| ==> s[i] as int < 256
    ensures |r| == |s|
  {
    seq(|s|, i requires 0 <= i < |s| => s[i] as int)
  }

  const RIFF_TAG: seq<Byte> := Ascii("RIFF")
  const WAVE_TAG: seq<Byte> := Ascii("WAVE")
  const FMT_TAG: seq<Byte> := Ascii("fmt ")
  const DATA_TAG: seq<Byte> := Ascii("data")

  /** The four tags read as little-endian 32-bit words. */
  lemma TagWords()
    ensures U32(0x46464952) == RIFF_TAG && U32(0x45564157) == WAVE_TAG
    ensures U32(0x20746D66) == FMT_TAG && U32(0x61746164) == DATA_TAG
  {
  }

  const HEADER_SIZE := 44
  const PCM_FORMAT := 1
  const BIT_DEPTH := 16
  const BYTES_PER_SAMPLE := 2

  /** Where block `i` starts when every block is `size` bytes long: `i * size`, built up one block at a time. */
  function Offset(i: nat, size: nat): nat
  {
    if i == 0 then 0 else Offset(i - 1, size) + size
  }

  lemma {:induction false} OffsetProduct(i: nat, size: nat)
    ensures Offset(i, size) == i * size
  {
    if i > 0 {
      OffsetProduct(i - 1, size);
    }
  }

  lemma {:induction false} OffsetMonotone(i: nat, j: nat, size: nat)
    requires i <= j
    ensures Offset(i, size) <= Offset(j, size)
  {
    if i < j {
      OffsetMonotone(i, j - 1, size);
    }
  }

  /**
   * The byte count of the sample data, `frames * channels * 2`: every frame
   * holds one 16-bit sample per channel, so it ends where frame `frames` would start.
   */
  function DataLength(frames: nat, channels: nat): nat
  {
    Offset(frames, 2 * channels)
  }

  lemma DataLengthProduct(frames: nat, channels: nat)
    ensures DataLength(frames, channels) == frames * channels * BYTES_PER_SAMPLE
  {
    OffsetProduct(frames, 2 * channels);
  }

  /** Sample `k` of frame `i` starts at byte 2(i·channels + k) of the data. */
  lemma SampleOffset(i: nat, channels: nat, k: nat)
    ensures Offset(i, 2 * channels) + 2 * k == 2 * (i * channels + k)
  {
    OffsetProduct(i, 2 * channels);
  }

  /**
   * The header with the four bytes `fmtTag` where the `fmt ` chunk's tag
   * goes: the RIFF chunk (12 bytes), the tag, then the rest of the `fmt `
   * chunk and the `data` chunk's heading (28 bytes).
   */
  function TaggedHeader(frames: nat, channels: nat, sampleRate: nat, fmtTag: seq<Byte>): (h: seq<Byte>)
    requires |fmtTag| == 4
    ensures |h| == HEADER_SIZE
  {
    var length := DataLength(frames, channels);
    var riff := RIFF_TAG + U32(36 + length) + WAVE_TAG;
    var rest := U32(16) + U16(PCM_FORMAT) + U16(channels) + U32(sampleRate)
      + U32(sampleRate * channels * BYTES_PER_SAMPLE) + U16(channels * BYTES_PER_SAMPLE) + U16(BIT_DEPTH)
      + DATA_TAG + U32(length);
    riff + fmtTag + rest
  }

  /** The canonical header: the RIFF chunk, the `fmt ` chunk and the `data` chunk's heading. */
  function Header(frames: nat, channels: nat, sampleRate: nat): (h: seq<Byte>)
    ensures |h| == HEADER_SIZE
  {
    TaggedHeader(frames, channels, sampleRate, FMT_TAG)
  }

  /**
   * Where each header field sits: the tags at offsets 0, 8, 12 and 36, the
   * RIFF size 36 + data length at 4, the data length at 40, and the `fmt `
   * fields at 16 to 34.
   */
  lemma TaggedHeaderLayout(frames: nat, channels: nat, sampleRate: nat, fmtTag: seq<Byte>)
    requires |fmtTag| == 4
    ensures var h := TaggedHeader(frames, channels, sampleRate, fmtTag); var length := DataLength(frames, channels);
      && h[0..4] == RIFF_TAG && h[4..8] == U32(36 + length) && h[8..12] == WAVE_TAG
      && h[12..16] == fmtTag && h[16..20] == U32(16) && h[20..22] == U16(PCM_FORMAT)
      && h[22..24] == U16(channels) && h[24..28] == U32(sampleRate)
      && h[28..32] == U32(sampleRate * channels * BYTES_PER_SAMPLE)
      && h[32..34] == U16(channels * BYTES_PER_SAMPLE) && h[34..36] == U16(BIT_DEPTH)
      && h[36..40] == DATA_TAG && h[40..44] == U32(length)
  {
  }

  /** The layout of the canonical header, with the `fmt ` tag at offset 12. */
  lemma HeaderLayout(frames: nat, channels: nat, sampleRate: nat)
    ensures var h := Header(frames, channels, sampleRate); var length := DataLength(frames, channels);
      && h[0..4] == RIFF_TAG && h[4..8] == U32(36 + length) && h[8..12] == WAVE_TAG
      && h[12..16] == FMT_TAG && h[16..20] == U32(16) && h[20..22] == U16(PCM_FORMAT)
      && h[22..24] == U16(channels) && h[24..28] == U32(sampleRate)
      && h[28..32] == U32(sampleRate * channels * BYTES_PER_SAMPLE)
      && h[32..34] == U16(channels * BYTES_PER_SAMPLE) && h[34..36] == U16(BIT_DEPTH)
      && h[36..40] == DATA_TAG && h[40..44] == U32(length)
  {
    TaggedHeaderLayout(frames, channels, sampleRate, FMT_TAG);
  }

  /** The RIFF size and the data size read back as 36 + length and length while the file fits in 32 bits. */
  lemma HeaderSizes(frames: nat, channels: nat, sampleRate: nat)
    requires HEADER_SIZE + DataLength(frames, channels) < TWO32
    ensures var h := Header(frames, channels, sampleRate);
      && ReadU32(h[4..8]) == 36 + DataLength(frames, channels)
      && ReadU32(h[40..44]) == DataLength(frames, channels)
  {
    var length := DataLength(frames, channels);
    var h := Header(frames, channels, sampleRate);
    HeaderLayout(frames, channels, sampleRate);
    assert h[4..8] == U32(36 + length) && h[40..44] == U32(length);
    ReadBack32(36 + length);
    ReadBack32(length);
  }

  /** A value that fits 32 bits reads back unchanged. */
  lemma ReadBack32(v: int)
    requires 0 <= v < TWO32
    ensures ReadU32(U32(v)) == v
  {
    FieldsRoundTrip(v);
  }

  // ---------------------------------------------------------------- samples

  /** An `AudioBuffer`: a sample rate and, per channel, `length` samples. */
  datatype AudioBuffer = AudioBuffer(sampleRate: nat, length: nat, channelData: seq<seq<real>>)
  {
    predicate Valid()
    {
      |channelData| >= 1 && forall c :: 0 <= c < |channelData| ==> |channelData[c]| == length
    }

    function NumberOfChannels(): nat { |channelData| }
  }

  /** `Math.trunc`. */
  function Trunc(x: real): int
  {
    if x >= 0.0 then x.Floor else -((-x).Floor)
  }

  /** `Math.max(-1, Math.min(1, x))`. */
  function Clamp(x: real): (y: real)
    ensures -1.0 <= y <= 1.0
  {
    if x > 1.0 then 1.0 else if x < -1.0 then -1.0 else x
  }

  /** A float sample as a 16-bit integer: clamped, negatives scaled by 0x8000, the rest by 0x7fff, then truncated. */
  function SampleValue(x: real): int
  {
    var s := Clamp(x);
    Trunc(if s < 0.0 then s * 0x8000 as real else s * 0x7fff as real)
  }

  /** Every sample fits a signed 16-bit integer, full scale maps to the ends, and silence to 0. */
  lemma SampleValueRange(x: real)
    ensures -0x8000 <= SampleValue(x) <= 0x7fff
    ensures x >= 1.0 ==> SampleValue(x) == 0x7fff
    ensures x <= -1.0 ==> SampleValue(x) == -0x8000
    ensures x == 0.0 ==> SampleValue(x) == 0
  {
    var s := Clamp(x);
    if s < 0.0 {
      var y := -(s * 0x8000 as real);
      assert 0.0 < y <= 0x8000 as real;
      assert y.Floor <= 0x8000;
    } else {
      var y := s * 0x7fff as real;
      assert 0.0 <= y <= 0x7fff as real;
      assert y.Floor <= 0x7fff;
    }
  }

  /** The bytes of frame `i`'s first `c` channels. */
  function FrameBytes(data: seq<seq<real>>, i: nat, c: nat): (r: seq<Byte>)
    requires c <= |data| && forall k :: 0 <= k < |data| ==> i < |data[k]|
    ensures |r| == 2 * c
  {
    if c == 0 then [] else FrameBytes(data, i, c - 1) + U16(SampleValue(data[c - 1][i]))
  }

  /** The bytes of the first `n` frames, each frame holding every channel in turn. */
  function FramesBytes(data: seq<seq<real>>, n: nat): (r: seq<Byte>)
    requires forall k :: 0 <= k < |data| ==> n <= |data[k]|
    ensures |r| == Offset(n, 2 * |data|)
  {
    if n == 0 then [] else FramesBytes(data, n - 1) + FrameBytes(data, n - 1, |data|)
  }

  /** The whole file for a buffer: header, then interleaved frame-major little-endian samples. */
  function WavFile(buffer: AudioBuffer): (r: seq<Byte>)
    requires buffer.Valid()
    ensures |r| == HEADER_SIZE + DataLength(buffer.length, buffer.NumberOfChannels())
  {
    Header(buffer.length, buffer.NumberOfChannels(), buffer.sampleRate) + FramesBytes(buffer.channelData, buffer.length)
  }

  /** Inside a frame, channel `c`'s sample sits at byte `2c`. */
  lemma {:induction false} FrameBytesAt(data: seq<seq<real>>, i: nat, c: nat, k: nat)
    requires c <= |data| && forall m :: 0 <= m < |data| ==> i < |data[m]|
    requires k < c
    ensures FrameBytes(data, i, c)[2 * k..2 * k + 2] == U16(SampleValue(data[k][i]))
  {
    if k < c - 1 {
      FrameBytesAt(data, i, c - 1, k);
      assert FrameBytes(data, i, c)[..2 * (c - 1)] == FrameBytes(data, i, c - 1);
    }
  }

  /** Frame `i` occupies the bytes from `Offset(i, 2·channels)` to where frame `i + 1` starts. */
  lemma {:induction false} FramesBytesAt(data: seq<seq<real>>, n: nat, i: nat)
    requires forall m :: 0 <= m < |data| ==> n <= |data[m]|
    requires i < n
    ensures Offset(i + 1, 2 * |data|) <= |FramesBytes(data, n)|
    ensures FramesBytes(data, n)[Offset(i, 2 * |data|)..Offset(i + 1, 2 * |data|)] == FrameBytes(data, i, |data|)
  {
    var F := 2 * |data|;
    var all := FramesBytes(data, n);
    var prev := FramesBytes(data, n - 1);
    assert all == prev + FrameBytes(data, n - 1, |data|);
    if i < n - 1 {
      FramesBytesAt(data, n - 1, i);
      assert all[Offset(i, F)..Offset(i + 1, F)] == prev[Offset(i, F)..Offset(i + 1, F)];
    }
  }

  /** Sample `k` of frame `i` sits `2k` bytes into the frame. */
  lemma {:induction false} FramesSampleAt(data: seq<seq<real>>, n: nat, i: nat, k: nat)
    requires forall m :: 0 <= m < |data| ==> n <= |data[m]|
    requires i < n && k < |data|
    ensures var at := Offset(i, 2 * |data|) + 2 * k;
      at + 2 <= |FramesBytes(data, n)| && FramesBytes(data, n)[at..at + 2] == U16(SampleValue(data[k][i]))
  {
    var at := Offset(i, 2 * |data|) + 2 * k;
    var prev := FramesBytes(data, n - 1);
    var frame := FrameBytes(data, n - 1, |data|);
    assert FramesBytes(data, n) == prev + frame;
    if i < n - 1 {
      FramesSampleAt(data, n - 1, i, k);
      assert (prev + frame)[at..at + 2] == prev[at..at + 2];
    } else {
      FrameBytesAt(data, i, |data|, k);
      assert (prev + frame)[at..at + 2] == frame[2 * k..2 * k + 2];
    }
  }

  /**
   * Sample `k` of frame `i` sits at byte 44 + Offset(i, 2·channels) + 2k of
   * the file, that is 44 + 2(i·channels + k) by `SampleOffset`: the data is
   * interleaved, frame by frame, two bytes per sample.
   */
  lemma WavFileSampleAt(buffer: AudioBuffer, i: nat, k: nat)
    requires buffer.Valid() && i < buffer.length && k < buffer.NumberOfChannels()
    ensures var at := HEADER_SIZE + Offset(i, 2 * buffer.NumberOfChannels()) + 2 * k;
      at + 2 <= |WavFile(buffer)| && WavFile(buffer)[at..at + 2] == U16(SampleValue(buffer.channelData[k][i]))
  {
    var data := buffer.channelData;
    var at := Offset(i, 2 * |data|) + 2 * k;
    var frames := FramesBytes(data, buffer.length);
    FramesSampleAt(data, buffer.length, i, k);
    var h := Header(buffer.length, |data|, buffer.sampleRate);
    assert (h + frames)[|h| + at..|h| + at + 2] == frames[at..at + 2];
  }

  /** `n` zero bytes, the contents of a fresh `ArrayBuffer`. */
  function Zeros(n: nat): (r: seq<Byte>)
    ensures |r| == n && forall j :: 0 <= j < n ==> r[j] == 0
  {
    seq(n, _ => 0)
  }

  /** The sample bytes of a silent buffer are all zero. */
  lemma {:induction false} SilentFrames(data: seq<seq<real>>, n: nat)
    requires forall m :: 0 <= m < |data| ==> n <= |data[m]|
    requires forall m, j :: 0 <= m < |data| && 0 <= j < |data[m]| ==> data[m][j] == 0.0
    ensures FramesBytes(data, n) == Zeros(Offset(n, 2 * |data|))
  {
    if n > 0 {
      SilentFrames(data, n - 1);
      SilentFrame(data, n - 1, |data|);
    }
  }

  lemma {:induction false} SilentFrame(data: seq<seq<real>>, i: nat, c: nat)
    requires c <= |data| && forall m :: 0 <= m < |data| ==> i < |data[m]|
    requires forall m, j :: 0 <= m < |data| && 0 <= j < |data[m]| ==> data[m][j] == 0.0
    ensures FrameBytes(data, i, c) == Zeros(2 * c)
  {
    if c > 0 {
      SilentFrame(data, i, c - 1);
      SampleValueRange(data[c - 1][i]);
    }
  }

  // ---------------------------------------------------------------- the DataView

  /** Stores `bytes` at `offset`, one `setUint8` at a time; nothing else changes. */
  method SetBytes(view: array<Byte>, offset: nat, bytes: seq<Byte>)
    requires offset + |bytes| <= view.Length
    modifies view
    ensures view[..] == old(view[..offset]) + bytes + old(view[offset + |bytes|..])
  {
    var i := 0;
    while i < |bytes|
      invariant 0 <= i <= |bytes|
      invariant view[..] == old(view[..offset]) + bytes[..i] + old(view[offset + i..])
    {
      view[offset + i] := bytes[i];
      i := i + 1;
      assert bytes[..i] == bytes[..i - 1] + [bytes[i - 1]];
    }
    assert bytes[..i] == bytes;
  }

  /** `view.setUint16(offset, v, true)`. */
  method SetUint16(view: array<Byte>, offset: nat, v: int)
    requires offset + 2 <= view.Length
    modifies view
    ensures view[..] == old(view[..offset]) + U16(v) + old(view[offset + 2..])
  {
    SetBytes(view, offset, U16(v));
  }

  /** `view.setUint32(offset, v, true)`. */
  method SetUint32(view: array<Byte>, offset: nat, v: int)
    requires offset + 4 <= view.Length
    modifies view
    ensures view[..] == old(view[..offset]) + U32(v) + old(view[offset + 4..])
  {
    SetBytes(view, offset, U32(v));
  }

  /** `view.setInt16(offset, x, true)`: the value truncated, modulo 2^16, in two's complement. */
  method SetInt16(view: array<Byte>, offset: nat, x: real)
    requires offset + 2 <= view.Length
    modifies view
    ensures view[..] == old(view[..offset]) + U16(Trunc(x)) + old(view[offset + 2..])
  {
    SetBytes(view, offset, U16(Trunc(x)));
  }

  /** `writeString`: one `setUint8` per character code. */
  method WriteString(view: array<Byte>, offset: nat, str: string)
    requires forall i :: 0 <= i < |str| ==> str[i] as int < 256
    requires offset + |str| <= view.Length
    modifies view
    ensures view[..] == old(view[..offset]) + Ascii(str) + old(view[offset + |str|..])
  {
    SetBytes(view, offset, Ascii(str));
  }

  /**
   * The header writes fill a zeroed buffer front to back: once the first
   * `upto` bytes hold `h`'s, writing `h`'s next field keeps the buffer of the
   * same shape one field further on.
   */
  lemma WriteExtends(before: seq<Byte>, after: seq<Byte>, h: seq<Byte>, upto: nat, bytes: seq<Byte>)
    requires upto + |bytes| <= |h| <= |before|
    requires before == h[..upto] + Zeros(|before| - upto)
    requires h[upto..upto + |bytes|] == bytes
    requires after == before[..upto] + bytes + before[upto + |bytes|..]
    ensures after == h[..upto + |bytes|] + Zeros(|after| - upto - |bytes|)
  {
    assert before[..upto] == h[..upto];
    assert h[..upto + |bytes|] == h[..upto] + bytes;
    assert before[upto + |bytes|..] == Zeros(|before| - upto - |bytes|);
  }

  /** `setUint16` of the header field at `offset` into a buffer holding `h` up to there and zeros after. */
  method SetUint16Field(view: array<Byte>, ghost h: seq<Byte>, offset: nat, v: int)
    requires offset + 2 <= |h| <= view.Length && view[..] == h[..offset] + Zeros(view.Length - offset)
    requires h[offset..offset + 2] == U16(v)
    modifies view
    ensures view[..] == h[..offset + 2] + Zeros(view.Length - offset - 2)
  {
    ghost var before := view[..];
    SetUint16(view, offset, v);
    WriteExtends(before, view[..], h, offset, U16(v));
  }

  /** `setUint32` of the header field at `offset` into a buffer holding `h` up to there and zeros after. */
  method SetUint32Field(view: array<Byte>, ghost h: seq<Byte>, offset: nat, v: int)
    requires offset + 4 <= |h| <= view.Length && view[..] == h[..offset] + Zeros(view.Length - offset)
    requires h[offset..offset + 4] == U32(v)
    modifies view
    ensures view[..] == h[..offset + 4] + Zeros(view.Length - offset - 4)
  {
    ghost var before := view[..];
    SetUint32(view, offset, v);
    WriteExtends(before, view[..], h, offset, U32(v));
  }

  /** `writeString` of a four-character tag at `offset` into a buffer holding `h` up to there and zeros after. */
  method WriteTagField(view: array<Byte>, ghost h: seq<Byte>, offset: nat, tag: string)
    requires |tag| == 4 && forall i :: 0 <= i < |tag| ==> tag[i] as int < 256
    requires offset + 4 <= |h| <= view.Length && view[..] == h[..offset] + Zeros(view.Length - offset)
    requires h[offset..offset + 4] == Ascii(tag)
    modifies view
    ensures view[..] == h[..offset + 4] + Zeros(view.Length - offset - 4)
  {
    ghost var before := view[..];
    WriteString(view, offset, tag);
    WriteExtends(before, view[..], h, offset, Ascii(tag));
  }

  /** Sample `ch` of frame `i` lies inside the data chunk. */
  lemma SampleSlot(i: nat, ch: nat, n: nat, C: nat)
    requires i < n && ch < C
    ensures Offset(i, 2 * C) + 2 * ch + 2 <= DataLength(n, C)
  {
    OffsetMonotone(i + 1, n, 2 * C);
  }

  /** Overwriting zeros with zeros changes nothing. */
  lemma ZeroOverZero(before: seq<Byte>, after: seq<Byte>, h: seq<Byte>, offset: nat, n: nat)
    requires before == h + Zeros(n) && |h| <= offset && offset + 2 <= |before|
    requires after == before[..offset] + U16(0) + before[offset + 2..]
    ensures after == before
  {
    assert before[offset..offset + 2] == U16(0);
    assert before == before[..offset] + before[offset..offset + 2] + before[offset + 2..];
  }

  // ---------------------------------------------------------------- the sample loop

  /**
   * The sample loop shared by the two encoders that write real samples: for
   * each frame, for each channel, the sample clamped to [-1, 1], scaled by
   * 0x8000 when negative and by 0x7fff otherwise, and stored by `setInt16`
   * at `index`, which advances by 2.
   */
  method WriteSamples(view: array<Byte>, ghost h: seq<Byte>, buffer: AudioBuffer, offset: nat)
    requires buffer.Valid() && |h| == HEADER_SIZE && offset == HEADER_SIZE
    requires view[..] == h + Zeros(DataLength(buffer.length, buffer.NumberOfChannels()))
    modifies view
    ensures view[..] == h + FramesBytes(buffer.channelData, buffer.length)
  {
    var data := buffer.channelData;
    var C := buffer.NumberOfChannels();
    ghost var F := 2 * C;
    ghost var total := DataLength(buffer.length, C);
    var index := offset;
    var i := 0;
    while i < buffer.length
      invariant 0 <= i <= buffer.length
      invariant index == HEADER_SIZE + Offset(i, F) && Offset(i, F) <= total
      invariant view[..] == h + FramesBytes(data, i) + Zeros(total - Offset(i, F))
    {
      OffsetMonotone(i + 1, buffer.length, F);
      index := WriteFrame(view, h + FramesBytes(data, i), index, data, i, total - Offset(i, F));
      FrameStep(h, data, i, total - Offset(i, F), view[..]);
      i := i + 1;
    }
    assert Zeros(total - Offset(i, F)) == [];
  }

  /** One iteration of the outer loop: frame `i`'s bytes written over the first of the remaining zeros. */
  lemma FrameStep(h: seq<Byte>, data: seq<seq<real>>, i: nat, rest: int, after: seq<Byte>)
    requires forall k :: 0 <= k < |data| ==> i < |data[k]|
    requires rest >= 2 * |data|
    requires after == h + FramesBytes(data, i) + FrameBytes(data, i, |data|) + Zeros(rest - 2 * |data|)
    ensures after == h + FramesBytes(data, i + 1) + Zeros(rest - 2 * |data|)
  {
    var before, frame := FramesBytes(data, i), FrameBytes(data, i, |data|);
    assert FramesBytes(data, i + 1) == before + frame;
    assert h + before + frame == h + (before + frame);
  }

  /** The inner loop: the samples of every channel of frame `i`, at `index` onwards. */
  method WriteFrame(view: array<Byte>, ghost done: seq<Byte>, index0: nat, data: seq<seq<real>>, i: nat,
                    ghost rest: int) returns (index: nat)
    requires forall k :: 0 <= k < |data| ==> i < |data[k]|
    requires index0 == |done| && 2 * |data| <= rest && view[..] == done + Zeros(rest)
    modifies view
    ensures index == index0 + 2 * |data|
    ensures view[..] == done + FrameBytes(data, i, |data|) + Zeros(rest - 2 * |data|)
  {
    index := index0;
    var channel := 0;
    while channel < |data|
      invariant 0 <= channel <= |data|
      invariant index == index0 + 2 * channel
      invariant view[..] == done + FrameBytes(data, i, channel) + Zeros(rest - 2 * channel)
    {
      WriteSample(view, done + FrameBytes(data, i, channel), index, rest - 2 * channel, data[channel][i]);
      index := index + 2;
      channel := channel + 1;
    }
  }

  /** All frames fill the data chunk exactly. */
  lemma AllFramesInside(data: seq<seq<real>>, n: nat)
    requires forall k :: 0 <= k < |data| ==> n <= |data[k]|
    ensures |FramesBytes(data, n)| == DataLength(n, |data|)
  {
  }

  /** One iteration of the inner loop: the sample at `index`, over the first of the remaining zeros. */
  method WriteSample(view: array<Byte>, ghost done: seq<Byte>, index: nat, ghost rest: int, x: real)
    requires rest >= 2 && index == |done| && view[..] == done + Zeros(rest)
    modifies view
    ensures view[..] == done + U16(SampleValue(x)) + Zeros(rest - 2)
  {
    var sample := Clamp(x);
    sample := if sample < 0.0 then sample * 0x8000 as real else sample * 0x7fff as real;
    ghost var v := view[..];
    SetInt16(view, index, sample);
    SampleStep(v, view[..], done, index, rest, U16(SampleValue(x)));
  }

  /** Writing one sample over the first of the remaining zeros extends the written prefix by its two bytes. */
  lemma SampleStep(before: seq<Byte>, after: seq<Byte>, done: seq<Byte>, index: nat, rest: int, bytes: seq<Byte>)
    requires |bytes| == 2 && rest >= 2 && before == done + Zeros(rest) && index == |done|
    requires after == before[..index] + bytes + before[index + 2..]
    ensures after == done + bytes + Zeros(rest - 2)
  {
    assert before[..index] == done;
    assert before[index + 2..] == Zeros(rest - 2);
  }
}
