/**
 * The development helper that writes silent 16-bit PCM WAV files
 * (services/audioGenerator.ts): a buffer of zero samples, then a header
 * written at fixed offsets and a data chunk of zeros.
 */
module AudioGenerator {
  import opened Wav

  /**
   * `generateSilenceAudio`: a one-channel buffer of `frames` samples, each
   * set to 0, converted to WAV. The result is the canonical WAV file of
   * that silent buffer.
   */
  method GenerateSilenceAudio(sampleRate: nat, frames: nat) returns (wav: array<Byte>)
    ensures fresh(wav)
    ensures wav[..] == WavFile(AudioBuffer(sampleRate, frames, [seq(frames, _ => 0.0)]))
  {
    var data := new real[frames](_ => 0.0);
    var i := 0;
    while i < data.Length
      invariant 0 <= i <= data.Length
      invariant forall j :: 0 <= j < i ==> data[j] == 0.0
    {
      data[i] := 0.0;
      i := i + 1;
    }
    assert data[..] == seq(frames, _ => 0.0);
    var buffer := AudioBuffer(sampleRate, frames, [data[..]]);
    wav := BufferToWave(buffer);
    SilentFrames(buffer.channelData, frames);
  }

  /**
   * `bufferToWave`: the header at the fixed offsets 0 to 40, then a zero
   * 16-bit sample for every channel of every frame. The samples of the
   * buffer are not read: the file is the header followed by zeros.
   */
  method BufferToWave(buffer: AudioBuffer) returns (view: array<Byte>)
    requires buffer.Valid()
    ensures fresh(view)
    ensures view[..] == Header(buffer.length, buffer.NumberOfChannels(), buffer.sampleRate)
                        + Zeros(DataLength(buffer.length, buffer.NumberOfChannels()))
  {
    var numberOfChannels := buffer.NumberOfChannels();
    var sampleRate := buffer.sampleRate;
    var format := PCM_FORMAT;
    var bitDepth := BIT_DEPTH;
    var length := buffer.length * numberOfChannels * (bitDepth / 8);
    DataLengthProduct(buffer.length, numberOfChannels);
    view := new Byte[HEADER_SIZE + length](_ => 0);
    ghost var h := Header(buffer.length, numberOfChannels, sampleRate);
    HeaderLayout(buffer.length, numberOfChannels, sampleRate);
    assert view[..] == h[..0] + Zeros(view.Length);
    WriteRiffChunk(view, h, length);
    WriteFmtChunk(view, h, format, numberOfChannels, sampleRate, bitDepth);
    WriteDataHeading(view, h, length);
    assert view[..] == h + Zeros(length);

    WriteSilence(view, h, buffer.length, numberOfChannels);
  }

  /** Offsets 0 to 12: "RIFF", the RIFF size 36 + length, "WAVE". */
  method WriteRiffChunk(view: array<Byte>, ghost h: seq<Byte>, length: int)
    requires |h| == HEADER_SIZE <= view.Length && view[..] == h[..0] + Zeros(view.Length)
    requires h[0..4] == RIFF_TAG && h[4..8] == U32(36 + length) && h[8..12] == WAVE_TAG
    modifies view
    ensures view[..] == h[..12] + Zeros(view.Length - 12)
  {
    WriteTagField(view, h, 0, "RIFF");
    SetUint32Field(view, h, 4, 36 + length);
    WriteTagField(view, h, 8, "WAVE");
  }

  /** Offsets 12 to 36: the `fmt ` chunk. */
  method WriteFmtChunk(view: array<Byte>, ghost h: seq<Byte>, format: int, numberOfChannels: int, sampleRate: int, bitDepth: int)
    requires |h| == HEADER_SIZE <= view.Length && view[..] == h[..12] + Zeros(view.Length - 12)
    requires h[12..16] == FMT_TAG && h[16..20] == U32(16) && h[20..22] == U16(format)
    requires h[22..24] == U16(numberOfChannels) && h[24..28] == U32(sampleRate)
    requires h[28..32] == U32(sampleRate * numberOfChannels * (bitDepth / 8))
    requires h[32..34] == U16(numberOfChannels * (bitDepth / 8)) && h[34..36] == U16(bitDepth)
    modifies view
    ensures view[..] == h[..36] + Zeros(view.Length - 36)
  {
    WriteTagField(view, h, 12, "fmt ");
    SetUint32Field(view, h, 16, 16);
    SetUint16Field(view, h, 20, format);
    SetUint16Field(view, h, 22, numberOfChannels);
    SetUint32Field(view, h, 24, sampleRate);
    SetUint32Field(view, h, 28, sampleRate * numberOfChannels * (bitDepth / 8));
    SetUint16Field(view, h, 32, numberOfChannels * (bitDepth / 8));
    SetUint16Field(view, h, 34, bitDepth);
  }

  /** Offsets 36 to 44: "data" and the data length. */
  method WriteDataHeading(view: array<Byte>, ghost h: seq<Byte>, length: int)
    requires |h| == HEADER_SIZE <= view.Length && view[..] == h[..36] + Zeros(view.Length - 36)
    requires h[36..40] == DATA_TAG && h[40..44] == U32(length)
    modifies view
    ensures view[..] == h + Zeros(view.Length - HEADER_SIZE)
  {
    WriteTagField(view, h, 36, "data");
    SetUint32Field(view, h, 40, length);
    assert h[..44] == h;
  }

  /** The sample loop of `bufferToWave`: `setInt16(offset, 0)` for each channel of each frame. */
  method WriteSilence(view: array<Byte>, ghost h: seq<Byte>, frames: nat, numberOfChannels: nat)
    requires |h| == HEADER_SIZE && view[..] == h + Zeros(DataLength(frames, numberOfChannels))
    modifies view
    ensures view[..] == old(view[..])
  {
    var offset := HEADER_SIZE;
    var i := 0;
    while i < frames
      invariant 0 <= i <= frames
      invariant offset == HEADER_SIZE + Offset(i, 2 * numberOfChannels)
      invariant view[..] == old(view[..])
    {
      var channel := 0;
      while channel < numberOfChannels
        invariant 0 <= channel <= numberOfChannels
        invariant offset == HEADER_SIZE + Offset(i, 2 * numberOfChannels) + 2 * channel
        invariant view[..] == old(view[..])
      {
        SampleSlot(i, channel, frames, numberOfChannels);
        ghost var v := view[..];
        SetInt16(view, offset, 0.0);
        ZeroOverZero(v, view[..], h, offset, DataLength(frames, numberOfChannels));
        offset := offset + 2;
        channel := channel + 1;
      }
      i := i + 1;
    }
  }
}
