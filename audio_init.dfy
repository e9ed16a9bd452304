/**
 * The WAV encoder of the test-audio initialiser (services/audioInitService.ts):
 * `bufferToWav` walks a running offset through the 44-byte header, then
 * writes every sample of the buffer as an interleaved 16-bit integer.
 */
module AudioInit {
  import opened Wav

  /**
   * `bufferToWav`: the result is exactly the canonical WAV file of the
   * buffer, 44 + frames·channels·2 bytes long.
   */
  method BufferToWav(buffer: AudioBuffer) returns (view: array<Byte>)
    requires buffer.Valid()
    ensures fresh(view)
    ensures view[..] == WavFile(buffer)
  {
    var numberOfChannels := buffer.NumberOfChannels();
    var sampleRate := buffer.sampleRate;
    var format := PCM_FORMAT;
    var bitDepth := BIT_DEPTH;
    var bytesPerSample := bitDepth / 8;
    var length := buffer.length * numberOfChannels * bytesPerSample;
    DataLengthProduct(buffer.length, numberOfChannels);
    view := new Byte[HEADER_SIZE + length](_ => 0);
    ghost var h := Header(buffer.length, numberOfChannels, sampleRate);
    HeaderLayout(buffer.length, numberOfChannels, sampleRate);
    assert view[..] == h[..0] + Zeros(view.Length);
    var offset := WriteHeader(view, h, length, format, numberOfChannels, sampleRate, bitDepth, bytesPerSample);
    WriteSamples(view, h, buffer, offset);
  }

  /**
   * `writeString`: one byte per character code at the running offset, which
   * moves past the string; the buffer then holds `h` up to the new offset.
   */
  method WriteString(view: array<Byte>, ghost h: seq<Byte>, offset: nat, str: string) returns (next: nat)
    requires |str| == 4 && forall i :: 0 <= i < |str| ==> str[i] as int < 256
    requires offset + 4 <= |h| <= view.Length && view[..] == h[..offset] + Zeros(view.Length - offset)
    requires h[offset..offset + 4] == Ascii(str)
    modifies view
    ensures next == offset + |str|
    ensures view[..] == h[..next] + Zeros(view.Length - next)
  {
    WriteTagField(view, h, offset, str);
    next := offset + |str|;
  }

  /**
   * The header writes, each followed by its advance of the running offset.
   * They end exactly at offset 44, having written `h`.
   */
  method WriteHeader(view: array<Byte>, ghost h: seq<Byte>, length: int, format: int, numberOfChannels: int,
                     sampleRate: int, bitDepth: int, bytesPerSample: int) returns (offset: nat)
    requires |h| == HEADER_SIZE <= view.Length && view[..] == h[..0] + Zeros(view.Length)
    requires h[0..4] == RIFF_TAG && h[4..8] == U32(36 + length) && h[8..12] == WAVE_TAG
    requires h[12..16] == FMT_TAG && h[16..20] == U32(16) && h[20..22] == U16(format)
    requires h[22..24] == U16(numberOfChannels) && h[24..28] == U32(sampleRate)
    requires h[28..32] == U32(sampleRate * numberOfChannels * bytesPerSample)
    requires h[32..34] == U16(numberOfChannels * bytesPerSample) && h[34..36] == U16(bitDepth)
    requires h[36..40] == DATA_TAG && h[40..44] == U32(length)
    modifies view
    ensures offset == HEADER_SIZE
    ensures view[..] == h + Zeros(view.Length - HEADER_SIZE)
  {
    offset := 0;
    offset := WriteRiffChunk(view, h, offset, length);
    offset := WriteFmtChunk(view, h, offset, format, numberOfChannels, sampleRate, bitDepth, bytesPerSample);
    offset := WriteDataHeading(view, h, offset, length);
    assert h[..44] == h;
  }

  /** "RIFF", the RIFF size 36 + length and "WAVE", from offset 0 to 12. */
  method WriteRiffChunk(view: array<Byte>, ghost h: seq<Byte>, offset0: nat, length: int) returns (offset: nat)
    requires |h| == HEADER_SIZE <= view.Length && offset0 == 0 && view[..] == h[..0] + Zeros(view.Length)
    requires h[0..4] == RIFF_TAG && h[4..8] == U32(36 + length) && h[8..12] == WAVE_TAG
    modifies view
    ensures offset == 12 && view[..] == h[..12] + Zeros(view.Length - 12)
  {
    offset := WriteString(view, h, offset0, "RIFF");
    SetUint32Field(view, h, offset, 36 + length);
    offset := offset + 4;
    offset := WriteString(view, h, offset, "WAVE");
  }

  /** The `fmt ` chunk, from offset 12 to 36. */
  method WriteFmtChunk(view: array<Byte>, ghost h: seq<Byte>, offset0: nat, format: int, numberOfChannels: int,
                       sampleRate: int, bitDepth: int, bytesPerSample: int) returns (offset: nat)
    requires |h| == HEADER_SIZE <= view.Length && offset0 == 12 && view[..] == h[..12] + Zeros(view.Length - 12)
    requires h[12..16] == FMT_TAG && h[16..20] == U32(16) && h[20..22] == U16(format)
    requires h[22..24] == U16(numberOfChannels) && h[24..28] == U32(sampleRate)
    requires h[28..32] == U32(sampleRate * numberOfChannels * bytesPerSample)
    requires h[32..34] == U16(numberOfChannels * bytesPerSample) && h[34..36] == U16(bitDepth)
    modifies view
    ensures offset == 36 && view[..] == h[..36] + Zeros(view.Length - 36)
  {
    offset := WriteString(view, h, offset0, "fmt ");
    SetUint32Field(view, h, offset, 16);
    offset := offset + 4;
    SetUint16Field(view, h, offset, format);
    offset := offset + 2;
    SetUint16Field(view, h, offset, numberOfChannels);
    offset := offset + 2;
    SetUint32Field(view, h, offset, sampleRate);
    offset := offset + 4;
    SetUint32Field(view, h, offset, sampleRate * numberOfChannels * bytesPerSample);
    offset := offset + 4;
    SetUint16Field(view, h, offset, numberOfChannels * bytesPerSample);
    offset := offset + 2;
    SetUint16Field(view, h, offset, bitDepth);
    offset := offset + 2;
  }

  /** "data" and the data length, from offset 36 to 44. */
  method WriteDataHeading(view: array<Byte>, ghost h: seq<Byte>, offset0: nat, length: int) returns (offset: nat)
    requires |h| == HEADER_SIZE <= view.Length && offset0 == 36 && view[..] == h[..36] + Zeros(view.Length - 36)
    requires h[36..40] == DATA_TAG && h[40..44] == U32(length)
    modifies view
    ensures offset == HEADER_SIZE && view[..] == h[..44] + Zeros(view.Length - HEADER_SIZE)
  {
    offset := WriteString(view, h, offset0, "data");
    SetUint32Field(view, h, offset, length);
    offset := offset + 4;
  }
}
