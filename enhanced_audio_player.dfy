/**
 * The enhanced audio player (services/enhancedAudioPlayerService.ts): the
 * bookkeeping of its `tracks` map across play, pause, resume, stop, seek,
 * volume and stop-all, and its WAV encoder `bufferToWave`.
 */
module EnhancedAudioPlayer {
  import opened Wav

  // ---------------------------------------------------------------- bufferToWave

  /** The word `bufferToWave` writes for the `fmt ` tag. */
  const FMT_WORD_AS_WRITTEN := 0x20746366
  /** The little-endian word of the bytes "fmt ". */
  const FMT_WORD := 0x20746D66

  /** The header with the word `fmtWord` in the place of the `fmt ` tag. */
  function HeaderWithFmtWord(frames: nat, channels: nat, sampleRate: nat, fmtWord: int): (h: seq<Byte>)
    ensures |h| == HEADER_SIZE
  {
    TaggedHeader(frames, channels, sampleRate, U32(fmtWord))
  }

  /** The word written for the `fmt ` tag reads as the bytes "fct ", not "fmt ". */
  lemma FmtWordAsWritten()
    ensures U32(FMT_WORD_AS_WRITTEN) == Ascii("fct ")
    ensures U32(FMT_WORD_AS_WRITTEN) != FMT_TAG
  {
    assert Ascii("fct ")[1] != FMT_TAG[1];
  }

  /**
   * The header written with the word `fmtWord` agrees with the canonical
   * header everywhere except offsets 12 to 16, where it holds that word.
   * With the word as written the format chunk is not found under its tag.
   */
  lemma HeaderWithFmtWordDiffers(frames: nat, channels: nat, sampleRate: nat, fmtWord: int)
    ensures var h := HeaderWithFmtWord(frames, channels, sampleRate, fmtWord); var canonical := Header(frames, channels, sampleRate);
      && h[..12] == canonical[..12] && h[16..] == canonical[16..] && h[12..16] == U32(fmtWord)
      && (fmtWord == FMT_WORD_AS_WRITTEN ==> h != canonical)
  {
    var h := HeaderWithFmtWord(frames, channels, sampleRate, fmtWord);
    var canonical := Header(frames, channels, sampleRate);
    TaggedHeaderLayout(frames, channels, sampleRate, U32(fmtWord));
    HeaderLayout(frames, channels, sampleRate);
    if fmtWord == FMT_WORD_AS_WRITTEN {
      FmtWordAsWritten();
      assert h[12..16] != canonical[12..16];
    }
  }

  /** The fields of the header written, in the form the closures write them. */
  lemma HeaderWithFmtWordLayout(frames: nat, channels: nat, sampleRate: nat, fmtWord: int, length: int)
    requires length == DataLength(frames, channels) + HEADER_SIZE
    ensures var h := HeaderWithFmtWord(frames, channels, sampleRate, fmtWord);
      && h[0..4] == U32(0x46464952) && h[4..8] == U32(length - 8) && h[8..12] == U32(0x45564157)
      && h[12..16] == U32(fmtWord) && h[16..20] == U32(16) && h[20..22] == U16(1)
      && h[22..24] == U16(channels) && h[24..28] == U32(sampleRate)
      && h[28..32] == U32(sampleRate * 2 * channels)
      && h[32..34] == U16(channels * 2) && h[34..36] == U16(16)
      && h[36..40] == U32(0x61746164) && h[40..44] == U32(length - 44)
  {
    var data := DataLength(frames, channels);
    assert length - 8 == 36 + data && length - 44 == data;
    ByteRate(sampleRate, channels);
    TagWords();
    TaggedHeaderLayout(frames, channels, sampleRate, U32(fmtWord));
  }

  /** `sampleRate * 2 * numOfChan` is the canonical byte rate. */
  lemma ByteRate(sampleRate: nat, channels: nat)
    ensures sampleRate * 2 * channels == sampleRate * channels * BYTES_PER_SAMPLE
  {
  }

  /** With the intended word the header is the canonical one. */
  lemma FmtWordCorrected(frames: nat, channels: nat, sampleRate: nat)
    ensures HeaderWithFmtWord(frames, channels, sampleRate, FMT_WORD) == Header(frames, channels, sampleRate)
  {
    TagWords();
  }

  /** `bufferToWave` as written: the canonical file except for the bytes "fct " at offset 12. */
  method BufferToWaveAsWritten(buffer: AudioBuffer) returns (arrayBuffer: array<Byte>)
    requires buffer.Valid()
    ensures fresh(arrayBuffer)
    ensures arrayBuffer[..] == HeaderWithFmtWord(buffer.length, buffer.NumberOfChannels(), buffer.sampleRate, FMT_WORD_AS_WRITTEN)
                               + FramesBytes(buffer.channelData, buffer.length)
  {
    arrayBuffer := EncodeWave(buffer, FMT_WORD_AS_WRITTEN);
  }

  /** `bufferToWave` with the `fmt ` word corrected: exactly the canonical WAV file of the buffer. */
  method BufferToWave(buffer: AudioBuffer) returns (arrayBuffer: array<Byte>)
    requires buffer.Valid()
    ensures fresh(arrayBuffer)
    ensures arrayBuffer[..] == WavFile(buffer)
  {
    arrayBuffer := EncodeWave(buffer, FMT_WORD);
    FmtWordCorrected(buffer.length, buffer.NumberOfChannels(), buffer.sampleRate);
  }

  /**
   * The body of `bufferToWave`, with the word it writes for the `fmt ` tag as
   * a parameter: the header through the `setUint16`/`setUint32` closures that
   * advance `pos`, then the sample loop from `pos` on.
   */
  method EncodeWave(buffer: AudioBuffer, fmtWord: int) returns (arrayBuffer: array<Byte>)
    requires buffer.Valid()
    ensures fresh(arrayBuffer)
    ensures arrayBuffer[..] == HeaderWithFmtWord(buffer.length, buffer.NumberOfChannels(), buffer.sampleRate, fmtWord)
                               + FramesBytes(buffer.channelData, buffer.length)
  {
    var channels := buffer.NumberOfChannels();
    var length := buffer.length * channels * 2 + 44;
    DataLengthProduct(buffer.length, channels);
    arrayBuffer := new Byte[length](_ => 0);
    ghost var h := HeaderWithFmtWord(buffer.length, channels, buffer.sampleRate, fmtWord);
    HeaderWithFmtWordLayout(buffer.length, channels, buffer.sampleRate, fmtWord, length);
    assert arrayBuffer[..] == h[..0] + Zeros(arrayBuffer.Length);
    var pos := WriteHeader(arrayBuffer, h, length, fmtWord, channels, buffer.sampleRate);
    WriteSamples(arrayBuffer, h, buffer, pos);
  }

  /**
   * The header writes: RIFF word, `length - 8`, WAVE word, the `fmt ` word,
   * 16, 1, the channel count, the sample rate, `rate·2·channels`,
   * `channels·2`, 16, the data word and `length - pos - 4` with `pos` at 40.
   */
  method WriteHeader(view: array<Byte>, ghost h: seq<Byte>, length: int, fmtWord: int, channels: int, sampleRate: int)
      returns (pos: nat)
    requires |h| == HEADER_SIZE <= view.Length && view[..] == h[..0] + Zeros(view.Length)
    requires h[0..4] == U32(0x46464952) && h[4..8] == U32(length - 8) && h[8..12] == U32(0x45564157)
    requires h[12..16] == U32(fmtWord) && h[16..20] == U32(16) && h[20..22] == U16(1)
    requires h[22..24] == U16(channels) && h[24..28] == U32(sampleRate)
    requires h[28..32] == U32(sampleRate * 2 * channels)
    requires h[32..34] == U16(channels * 2) && h[34..36] == U16(16)
    requires h[36..40] == U32(0x61746164) && h[40..44] == U32(length - 44)
    modifies view
    ensures pos == HEADER_SIZE
    ensures view[..] == h + Zeros(view.Length - HEADER_SIZE)
  {
    pos := 0;
    pos := PutUint32(view, h, pos, 0x46464952);
    pos := PutUint32(view, h, pos, length - 8);
    pos := PutUint32(view, h, pos, 0x45564157);

    pos := PutUint32(view, h, pos, fmtWord);
    pos := PutUint32(view, h, pos, 16);
    pos := PutUint16(view, h, pos, 1);
    pos := PutUint16(view, h, pos, channels);
    pos := PutUint32(view, h, pos, sampleRate);
    pos := PutUint32(view, h, pos, sampleRate * 2 * channels);
    pos := PutUint16(view, h, pos, channels * 2);
    pos := PutUint16(view, h, pos, 16);

    pos := PutUint32(view, h, pos, 0x61746164);
    pos := PutUint32(view, h, pos, length - pos - 4);
    assert h[..44] == h;
  }

  /** The `setUint16` closure: write at `pos`, then advance `pos` by 2. */
  method PutUint16(view: array<Byte>, ghost h: seq<Byte>, pos0: nat, data: int) returns (pos: nat)
    requires pos0 + 2 <= |h| <= view.Length && view[..] == h[..pos0] + Zeros(view.Length - pos0)
    requires h[pos0..pos0 + 2] == U16(data)
    modifies view
    ensures pos == pos0 + 2 && view[..] == h[..pos] + Zeros(view.Length - pos)
  {
    SetUint16Field(view, h, pos0, data);
    pos := pos0 + 2;
  }

  /** The `setUint32` closure: write at `pos`, then advance `pos` by 4. */
  method PutUint32(view: array<Byte>, ghost h: seq<Byte>, pos0: nat, data: int) returns (pos: nat)
    requires pos0 + 4 <= |h| <= view.Length && view[..] == h[..pos0] + Zeros(view.Length - pos0)
    requires h[pos0..pos0 + 4] == U32(data)
    modifies view
    ensures pos == pos0 + 4 && view[..] == h[..pos] + Zeros(view.Length - pos)
  {
    SetUint32Field(view, h, pos0, data);
    pos := pos0 + 4;
  }

  // ---------------------------------------------------------------- the tracks map

  /** The state of one web-audio track: its element's source, flags, position and volume. */
  datatype Track = Track(src: string, isPlaying: bool, paused: bool, currentTime: real, volume: real,
                         hasProgressTimer: bool)

  /** The members `window.NativeMediaPlayer` may provide; each call checks for its own member. */
  datatype NativeOp = PlayOp | PauseOp | ResumeOp | StopOp | SeekOp | SetVolumeOp | StopAllOp

  /** A call into the native media player, kept in the order the service makes them. */
  datatype NativeCall =
    | NativePlay(id: string, url: string)
    | NativePause(id: string)
    | NativeResume(id: string)
    | NativeStop(id: string)
    | NativeSeek(id: string, positionMs: real)
    | NativeSetVolume(id: string, volume: real)
    | NativeStopAll

  const ANDROID_ASSET_PREFIX := "file:///android_asset/"
  const PUBLIC_AUDIO_PREFIX := "audio/"
  const HTTP_PREFIX := "http"

  /**
   * The source a web-audio element gets: a public `audio/` path is served
   * from the site root, a URL starting with `http` is used as is, and any
   * other path is looked up under `/audio/`. The path is always kept whole
   * at the end, and every path that is not a URL becomes a root path.
   */
  function WebSource(assetPath: string): (src: string)
    ensures |assetPath| <= |src| && src[|src| - |assetPath|..] == assetPath
    ensures !(HTTP_PREFIX <= assetPath) ==> |src| > 0 && src[0] == '/'
    ensures HTTP_PREFIX <= assetPath && !(PUBLIC_AUDIO_PREFIX <= assetPath) ==> src == assetPath
  {
    if PUBLIC_AUDIO_PREFIX <= assetPath then "/" + assetPath
    else if HTTP_PREFIX <= assetPath then assetPath
    else "/audio/" + assetPath
  }

  /** A public asset named with or without its `audio/` folder resolves to the same source. */
  lemma PublicPathsAgree(name: string)
    requires !(PUBLIC_AUDIO_PREFIX <= name) && !(HTTP_PREFIX <= name)
    ensures WebSource(PUBLIC_AUDIO_PREFIX + name) == WebSource(name)
  {
    assert PUBLIC_AUDIO_PREFIX <= PUBLIC_AUDIO_PREFIX + name;
  }

  /** `Math.max(0, Math.min(1, volume))`. */
  function ClampVolume(volume: real): (v: real)
    ensures 0.0 <= v <= 1.0
    ensures 0.0 <= volume <= 1.0 <==> v == volume
    ensures volume > 1.0 ==> v == 1.0
    ensures volume < 0.0 ==> v == 0.0
  {
    if volume > 1.0 then 1.0 else if volume < 0.0 then 0.0 else volume
  }

  /**
   * The service object: the map of web-audio tracks by id and the calls it
   * has made into the native player. Every track holds a non-empty source
   * and a volume in [0, 1].
   */
  class AudioPlayerService {
    const native: set<NativeOp>
    var tracks: map<string, Track>
    var nativeCalls: seq<NativeCall>

    ghost predicate Valid()
      reads this
    {
      forall id :: id in tracks ==> tracks[id].src != [] && 0.0 <= tracks[id].volume <= 1.0
    }

    constructor(native: set<NativeOp>)
      ensures this.native == native && tracks == map[] && nativeCalls == []
      ensures Valid()
    {
      this.native := native;
      tracks := map[];
      nativeCalls := [];
    }

    /** The native call made when the native player provides `op`, else none. */
    function IfNative(op: NativeOp, call: NativeCall): (calls: seq<NativeCall>)
      reads this
      ensures calls == [] || (op in native && calls == [call])
      ensures op in native ==> calls == [call]
    {
      if op in native then [call] else []
    }

    /**
     * `play`: an id that already has a track is stopped first, so the map
     * never holds two tracks for an id. With a native player the file under
     * the Android asset folder is handed to it and no track is kept;
     * otherwise a playing web-audio track replaces the entry for `id`.
     * The caller always gets true.
     */
    method Play(id: string, assetPath: string, hasProgress: bool) returns (ok: bool)
      requires Valid()
      modifies this
      ensures Valid() && ok
      ensures var stopped := if id in old(tracks) then IfNative(StopOp, NativeStop(id)) else [];
        if PlayOp in native then
          && tracks == old(tracks) - {id}
          && nativeCalls == old(nativeCalls) + stopped + [NativePlay(id, ANDROID_ASSET_PREFIX + assetPath)]
        else
          && tracks == old(tracks)[id := Track(WebSource(assetPath), true, false, 0.0, 1.0, hasProgress)]
          && nativeCalls == old(nativeCalls) + stopped
    {
      if id in tracks {
        ok := Stop(id);
      }
      if PlayOp in native {
        nativeCalls := nativeCalls + [NativePlay(id, ANDROID_ASSET_PREFIX + assetPath)];
        return true;
      }
      ok := PlayWithWebAudio(id, assetPath, hasProgress);
    }

    /** `playWithWebAudio`: a new element with the resolved source, playing from 0 at full volume. */
    method PlayWithWebAudio(id: string, assetPath: string, hasProgress: bool) returns (ok: bool)
      requires Valid()
      modifies this
      ensures Valid() && ok && nativeCalls == old(nativeCalls)
      ensures tracks == old(tracks)[id := Track(WebSource(assetPath), true, false, 0.0, 1.0, hasProgress)]
    {
      var track := Track(WebSource(assetPath), true, false, 0.0, 1.0, hasProgress);
      tracks := tracks[id := track];
      ok := true;
    }

    /** The `onended` and `onerror` handlers of a web track, and the native completion callback: the id is dropped. */
    method OnComplete(id: string)
      requires Valid()
      modifies this
      ensures Valid() && tracks == old(tracks) - {id} && nativeCalls == old(nativeCalls)
    {
      tracks := tracks - {id};
    }

    /** `pause`: the native pause when provided; a known track is paused. */
    method Pause(id: string) returns (ok: bool)
      requires Valid()
      modifies this
      ensures Valid() && ok
      ensures nativeCalls == old(nativeCalls) + IfNative(PauseOp, NativePause(id))
      ensures tracks == if id in old(tracks) then old(tracks)[id := old(tracks)[id].(paused := true, isPlaying := false)]
                        else old(tracks)
    {
      nativeCalls := nativeCalls + IfNative(PauseOp, NativePause(id));
      if id in tracks {
        tracks := tracks[id := tracks[id].(paused := true, isPlaying := false)];
      }
      ok := true;
    }

    /** `resume`: the native resume when provided; a known track plays again. */
    method Resume(id: string) returns (ok: bool)
      requires Valid()
      modifies this
      ensures Valid() && ok
      ensures nativeCalls == old(nativeCalls) + IfNative(ResumeOp, NativeResume(id))
      ensures tracks == if id in old(tracks) then old(tracks)[id := old(tracks)[id].(paused := false, isPlaying := true)]
                        else old(tracks)
    {
      nativeCalls := nativeCalls + IfNative(ResumeOp, NativeResume(id));
      if id in tracks {
        tracks := tracks[id := tracks[id].(paused := false, isPlaying := true)];
      }
      ok := true;
    }

    /** `stop`: the native stop when provided; the id is removed whether or not it had a track. */
    method Stop(id: string) returns (ok: bool)
      requires Valid()
      modifies this
      ensures Valid() && ok
      ensures nativeCalls == old(nativeCalls) + IfNative(StopOp, NativeStop(id))
      ensures tracks == old(tracks) - {id}
    {
      nativeCalls := nativeCalls + IfNative(StopOp, NativeStop(id));
      tracks := tracks - {id};
      ok := true;
    }

    /** `seek`: the native seek when provided; a known track moves to `positionMs / 1000` seconds. */
    method Seek(id: string, positionMs: real) returns (ok: bool)
      requires Valid()
      modifies this
      ensures Valid() && ok
      ensures nativeCalls == old(nativeCalls) + IfNative(SeekOp, NativeSeek(id, positionMs))
      ensures tracks == if id in old(tracks) then old(tracks)[id := old(tracks)[id].(currentTime := positionMs / 1000.0)]
                        else old(tracks)
    {
      nativeCalls := nativeCalls + IfNative(SeekOp, NativeSeek(id, positionMs));
      if id in tracks {
        tracks := tracks[id := tracks[id].(currentTime := positionMs / 1000.0)];
      }
      ok := true;
    }

    /**
     * `setVolume`: the native player is handed the volume unclamped; a known
     * track gets it clamped to [0, 1].
     */
    method SetVolume(id: string, volume: real) returns (ok: bool)
      requires Valid()
      modifies this
      ensures Valid() && ok
      ensures nativeCalls == old(nativeCalls) + IfNative(SetVolumeOp, NativeSetVolume(id, volume))
      ensures tracks == if id in old(tracks) then old(tracks)[id := old(tracks)[id].(volume := ClampVolume(volume))]
                        else old(tracks)
    {
      nativeCalls := nativeCalls + IfNative(SetVolumeOp, NativeSetVolume(id, volume));
      if id in tracks {
        tracks := tracks[id := tracks[id].(volume := ClampVolume(volume))];
      }
      ok := true;
    }

    /** `isPlaying`: true exactly for a known track whose element is not paused; false for an unknown id. */
    method IsPlaying(id: string) returns (playing: bool)
      ensures playing <==> id in tracks && !tracks[id].paused
    {
      if id in tracks {
        return !tracks[id].paused;
      }
      return false;
    }

    /** `stopAll`: the native stop-all when provided; the map is emptied. */
    method StopAll()
      requires Valid()
      modifies this
      ensures Valid() && tracks == map[]
      ensures nativeCalls == old(nativeCalls) + IfNative(StopAllOp, NativeStopAll)
    {
      nativeCalls := nativeCalls + IfNative(StopAllOp, NativeStopAll);
      tracks := map[];
    }
  }
}
