/** The dual-stream PCM mixer (bot/audiomixer.py). Each stream (music, ambience)
    has an optional decoder process, a volume and a pause flag; `read` pulls one
    20 ms frame of signed 16-bit little-endian stereo PCM from each decoder,
    substitutes silence where a stream is paused or absent, pads short reads,
    scales, sums and clips.

    A decoder process is abstract: the argument list it was started with, whether
    it is still running (`poll() is None`), and the bytes waiting in its stdout
    pipe. Reading `n` bytes takes at most `n` of them. Samples are integers and
    volumes reals; float32 rounding is not modelled. */
module AudioMixer {
  import opened Values

  newtype byte = x: int | 0 <= x < 256

  /** `chunk_size`: 960 stereo samples of 2 bytes each, 20 ms at 48 kHz. */
  const ChunkSize: nat := 960 * 4

  const SampleMin: int := -32768
  const SampleMax: int := 32767

  datatype Proc = Proc(args: seq<string>, alive: bool, pipe: seq<byte>)

  // ---------------------------------------------------------------------------
  // The decoder command line
  // ---------------------------------------------------------------------------

  /** `_start_ffmpeg`'s argument list: reconnect options, optional endless input
      loop, the input URL, and raw s16le stereo 48 kHz output on stdout. */
  function FfmpegArgs(url: string, loop: bool): seq<string>
  {
    ["ffmpeg", "-reconnect", "1", "-reconnect_streamed", "1", "-reconnect_delay_max", "5"]
    + (if loop then ["-stream_loop", "-1"] else [])
    + ["-i", url, "-f", "s16le", "-ar", "48000", "-ac", "2", "pipe:1", "-loglevel", "quiet"]
  }

  /** Where `-i` stands in the argument list. */
  function InputPos(loop: bool): nat
  {
    if loop then 9 else 7
  }

  /** The output options always follow the input, the input follows `-stream_loop -1`
      exactly when looping is asked for, and looping only inserts those two words. */
  lemma FfmpegArgsShape(url: string, loop: bool)
    ensures var cmd := FfmpegArgs(url, loop); var i := InputPos(loop);
      && |cmd| == i + 11
      && cmd[i..i + 2] == ["-i", url]
      && cmd[i + 2..i + 9] == ["-f", "s16le", "-ar", "48000", "-ac", "2", "pipe:1"]
      && (cmd[7] == "-stream_loop" <==> loop)
      && (loop ==> cmd[7..9] == ["-stream_loop", "-1"])
    ensures FfmpegArgs(url, true) == FfmpegArgs(url, false)[..7] + ["-stream_loop", "-1"] + FfmpegArgs(url, false)[7..]
  {
  }

  // ---------------------------------------------------------------------------
  // Frame arithmetic
  // ---------------------------------------------------------------------------

  function Zeros(n: nat): (z: seq<byte>)
    ensures |z| == n && forall k :: 0 <= k < n ==> z[k] == 0
  {
    seq(n, _ => 0 as byte)
  }

  /** A short read is padded with zero bytes up to `n`. */
  function Pad(chunk: seq<byte>, n: nat): (r: seq<byte>)
    ensures |r| == if |chunk| < n then n else |chunk|
    ensures r[..|chunk|] == chunk
    ensures forall k :: |chunk| <= k < |r| ==> r[k] == 0
  {
    if |chunk| < n then chunk + Zeros(n - |chunk|) else chunk
  }

  /** The 16-bit signed sample stored little-endian in two bytes. */
  function DecodeSample(lo: byte, hi: byte): (s: int)
    ensures SampleMin <= s <= SampleMax
  {
    var u := lo as int + 256 * hi as int;
    if u >= 32768 then u - 65536 else u
  }

  function EncodeSample(s: int): (bs: seq<byte>)
    requires SampleMin <= s <= SampleMax
    ensures |bs| == 2
  {
    var u := if s < 0 then s + 65536 else s;
    [(u % 256) as byte, (u / 256) as byte]
  }

  /** `np.frombuffer(chunk, dtype=np.int16)`. */
  function Decode(bytes: seq<byte>): (samples: seq<int>)
    ensures |samples| == |bytes| / 2
    ensures forall k :: 0 <= k < |samples| ==> SampleMin <= samples[k] <= SampleMax
  {
    if |bytes| < 2 then [] else [DecodeSample(bytes[0], bytes[1])] + Decode(bytes[2..])
  }

  /** `.tobytes()` of an int16 array. */
  function Encode(samples: seq<int>): (bytes: seq<byte>)
    requires forall k :: 0 <= k < |samples| ==> SampleMin <= samples[k] <= SampleMax
    ensures |bytes| == 2 * |samples|
  {
    if samples == [] then [] else EncodeSample(samples[0]) + Encode(samples[1..])
  }

  /** Encoding in-range samples and decoding the bytes gives the samples back. */
  lemma {:induction false} DecodeEncode(samples: seq<int>)
    requires forall k :: 0 <= k < |samples| ==> SampleMin <= samples[k] <= SampleMax
    ensures Decode(Encode(samples)) == samples
  {
    if samples != [] {
      var bs := Encode(samples);
      assert bs[2..] == Encode(samples[1..]);
      DecodeEncode(samples[1..]);
      var s := samples[0];
      var u := if s < 0 then s + 65536 else s;
      assert DecodeSample(bs[0], bs[1]) == s by {
        assert bs[0] as int + 256 * bs[1] as int == u;
      }
    }
  }

  /** `astype(np.int16)` of a value already clipped to the range: truncation toward zero. */
  function Truncate(r: real): (t: int)
    ensures 0.0 <= r ==> 0 <= t && t as real <= r < t as real + 1.0
    ensures r < 0.0 ==> t <= 0 && t as real - 1.0 < r <= t as real
  {
    if r >= 0.0 then r.Floor else -((-r).Floor)
  }

  /** One output sample: the volume-scaled inputs summed, clipped to the 16-bit
      range, then truncated. */
  function MixSample(amb: int, music: int, ambVolume: real, musicVolume: real): (s: int)
    ensures SampleMin <= s <= SampleMax
  {
    var sum := amb as real * ambVolume + music as real * musicVolume;
    var clipped := if sum < SampleMin as real then SampleMin as real
                   else if sum > SampleMax as real then SampleMax as real
                   else sum;
    Truncate(clipped)
  }

  /** The mixed samples of one frame, from the two raw reads. */
  function MixedSamples(ambRaw: seq<byte>, musicRaw: seq<byte>, ambVolume: real, musicVolume: real): (m: seq<int>)
    requires |ambRaw| <= ChunkSize && |musicRaw| <= ChunkSize
    ensures |m| == ChunkSize / 2
    ensures forall k :: 0 <= k < |m| ==> SampleMin <= m[k] <= SampleMax
  {
    var a := Decode(Pad(ambRaw, ChunkSize));
    var b := Decode(Pad(musicRaw, ChunkSize));
    seq(ChunkSize / 2, k requires 0 <= k < ChunkSize / 2 => MixSample(a[k], b[k], ambVolume, musicVolume))
  }

  /** The frame `read` returns. */
  function MixFrame(ambRaw: seq<byte>, musicRaw: seq<byte>, ambVolume: real, musicVolume: real): seq<byte>
    requires |ambRaw| <= ChunkSize && |musicRaw| <= ChunkSize
  {
    Encode(MixedSamples(ambRaw, musicRaw, ambVolume, musicVolume))
  }

  /** Whatever the two reads returned (nothing, part of a frame or a whole frame),
      the output is exactly one frame, and it carries the clipped mixed samples. */
  lemma MixFrameShape(ambRaw: seq<byte>, musicRaw: seq<byte>, ambVolume: real, musicVolume: real)
    requires |ambRaw| <= ChunkSize && |musicRaw| <= ChunkSize
    ensures |MixFrame(ambRaw, musicRaw, ambVolume, musicVolume)| == ChunkSize
    ensures Decode(MixFrame(ambRaw, musicRaw, ambVolume, musicVolume)) == MixedSamples(ambRaw, musicRaw, ambVolume, musicVolume)
  {
    DecodeEncode(MixedSamples(ambRaw, musicRaw, ambVolume, musicVolume));
  }

  /** Two full-scale inputs of the same sign at full volume saturate instead of
      wrapping round; opposite full-scale inputs cancel to -1 (the range is lopsided). */
  lemma MixSampleSaturates()
    ensures MixSample(SampleMax, SampleMax, 1.0, 1.0) == SampleMax
    ensures MixSample(SampleMin, SampleMin, 1.0, 1.0) == SampleMin
    ensures MixSample(SampleMax, SampleMin, 1.0, 1.0) == -1
  {
  }

  /** A stream alone at full volume against silence passes through unchanged. */
  lemma MixSampleIdentity(music: int)
    requires SampleMin <= music <= SampleMax
    ensures MixSample(0, music, 0.25, 1.0) == music
    ensures MixSample(music, 0, 1.0, 0.0) == music
  {
  }

  /** Two silent reads mix to a silent frame, at any volumes. */
  lemma {:induction false} SilenceMixesToSilence(ambVolume: real, musicVolume: real)
    ensures MixFrame([], [], ambVolume, musicVolume) == Zeros(ChunkSize)
  {
    var m := MixedSamples([], [], ambVolume, musicVolume);
    assert forall k :: 0 <= k < |m| ==> m[k] == 0 by {
      assert Pad([], ChunkSize) == Zeros(ChunkSize);
      ZerosDecode(ChunkSize);
      assert MixSample(0, 0, ambVolume, musicVolume) == 0;
    }
    EncodeZeros(m);
  }

  lemma {:induction false} ZerosDecode(n: nat)
    ensures forall k :: 0 <= k < |Decode(Zeros(n))| ==> Decode(Zeros(n))[k] == 0
    decreases n
  {
    if n >= 2 {
      assert Zeros(n)[2..] == Zeros(n - 2);
      ZerosDecode(n - 2);
    }
  }

  lemma {:induction false} EncodeZeros(m: seq<int>)
    requires forall k :: 0 <= k < |m| ==> m[k] == 0
    ensures Encode(m) == Zeros(2 * |m|)
  {
    if m != [] {
      EncodeZeros(m[1..]);
      assert Encode(m) == [0 as byte, 0 as byte] + Zeros(2 * (|m| - 1));
    }
  }

  // ---------------------------------------------------------------------------
  // The mixer object
  // ---------------------------------------------------------------------------

  function ClampVolume(v: real): (r: real)
    ensures 0.0 <= r <= 1.0
    ensures 0.0 <= v <= 1.0 ==> r == v
    ensures v < 0.0 ==> r == 0.0
    ensures v > 1.0 ==> r == 1.0
  {
    var upper := if v < 1.0 then v else 1.0;
    if 0.0 < upper then upper else 0.0
  }

  /** The bytes a stream contributes to one frame: up to a chunk from its decoder
      when it has one and is not paused, otherwise a silent chunk. */
  function StreamChunk(proc: Option<Proc>, paused: bool): (c: seq<byte>)
    ensures |c| <= ChunkSize
  {
    if proc.Some? && !paused then
      var p := proc.value.pipe;
      if |p| < ChunkSize then p else p[..ChunkSize]
    else Zeros(ChunkSize)
  }

  /** The decoder after one frame has been read from it (unchanged when it was not read). */
  function AfterRead(proc: Option<Proc>, paused: bool): Option<Proc>
  {
    if proc.Some? && !paused then
      var p := proc.value;
      Some(p.(pipe := if |p.pipe| < ChunkSize then [] else p.pipe[ChunkSize..]))
    else proc
  }

  class MixedAudio {
    var procAmb: Option<Proc>
    var procMusic: Option<Proc>
    var musicVolume: real
    var ambienceVolume: real
    var musicPaused: bool
    var ambiencePaused: bool

    /** Both volumes stay within [0, 1]. */
    ghost predicate Valid()
      reads this
    {
      0.0 <= musicVolume <= 1.0 && 0.0 <= ambienceVolume <= 1.0
    }

    constructor ()
      ensures Valid()
      ensures procAmb == None && procMusic == None
      ensures musicVolume == 1.0 && ambienceVolume == 0.25
      ensures !musicPaused && !ambiencePaused
    {
      procAmb := None;
      procMusic := None;
      musicVolume := 1.0;
      ambienceVolume := 0.25;
      musicPaused := false;
      ambiencePaused := false;
    }

    /** The music volume becomes the request clamped to [0, 1]. The other mutators
        leave both volumes alone, so `Valid` holds from construction on. */
    method SetMusicVolume(volume: real)
      requires Valid()
      modifies this`musicVolume
      ensures Valid()
      ensures musicVolume == ClampVolume(volume)
    {
      musicVolume := ClampVolume(volume);
    }

    method SetAmbienceVolume(volume: real)
      requires Valid()
      modifies this`ambienceVolume
      ensures Valid()
      ensures ambienceVolume == ClampVolume(volume)
    {
      ambienceVolume := ClampVolume(volume);
    }

    /** Starts a decoder: `decoderOutput` is what the new process will write to its pipe. */
    method StartFfmpeg(url: string, loop: bool, decoderOutput: seq<byte>) returns (p: Proc)
      ensures p == Proc(FfmpegArgs(url, loop), true, decoderOutput)
    {
      p := Proc(FfmpegArgs(url, loop), true, decoderOutput);
    }

    /** Kills any ambience decoder, then starts a new one. */
    method StartAmbience(url: string, loop: bool, decoderOutput: seq<byte>)
      modifies this`procAmb
      ensures procAmb == Some(Proc(FfmpegArgs(url, loop), true, decoderOutput))
    {
      StopAmbience();
      var p := StartFfmpeg(url, loop, decoderOutput);
      procAmb := Some(p);
    }

    /** Pauses the ambience only while its decoder exists and is still running. */
    method PauseAmbience()
      modifies this`ambiencePaused
      ensures ambiencePaused == if procAmb.Some? && procAmb.value.alive then true else old(ambiencePaused)
    {
      if procAmb.Some? && procAmb.value.alive {
        ambiencePaused := true;
      }
    }

    method ResumeAmbience()
      modifies this`ambiencePaused
      ensures ambiencePaused == if procAmb.Some? && procAmb.value.alive then false else old(ambiencePaused)
    {
      if procAmb.Some? && procAmb.value.alive {
        ambiencePaused := false;
      }
    }

    /** Kills and forgets the ambience decoder; without one, nothing happens. */
    method StopAmbience()
      modifies this`procAmb
      ensures procAmb == None
    {
      if procAmb.Some? {
        procAmb := None;
      }
    }

    method StartMusic(url: string, loop: bool, decoderOutput: seq<byte>)
      modifies this`procMusic
      ensures procMusic == Some(Proc(FfmpegArgs(url, loop), true, decoderOutput))
    {
      StopMusic();
      var p := StartFfmpeg(url, loop, decoderOutput);
      procMusic := Some(p);
    }

    method PauseMusic()
      modifies this`musicPaused
      ensures musicPaused == if procMusic.Some? && procMusic.value.alive then true else old(musicPaused)
    {
      if procMusic.Some? && procMusic.value.alive {
        musicPaused := true;
      }
    }

    method ResumeMusic()
      modifies this`musicPaused
      ensures musicPaused == if procMusic.Some? && procMusic.value.alive then false else old(musicPaused)
    {
      if procMusic.Some? && procMusic.value.alive {
        musicPaused := false;
      }
    }

    method StopMusic()
      modifies this`procMusic
      ensures procMusic == None
    {
      if procMusic.Some? {
        procMusic := None;
      }
    }

    /** One mixed frame: each stream's chunk (silence when paused or absent) is read,
        padded, scaled, summed and clipped; the decoders that were read lose those bytes. */
    method Read() returns (frame: seq<byte>)
      modifies this`procAmb, this`procMusic
      ensures frame == MixFrame(StreamChunk(old(procAmb), ambiencePaused), StreamChunk(old(procMusic), musicPaused),
                                ambienceVolume, musicVolume)
      ensures |frame| == ChunkSize
      ensures procAmb == AfterRead(old(procAmb), ambiencePaused)
      ensures procMusic == AfterRead(old(procMusic), musicPaused)
    {
      var ambChunk: seq<byte>;
      if procAmb.Some? && !ambiencePaused {
        var p := procAmb.value;
        ambChunk := if |p.pipe| < ChunkSize then p.pipe else p.pipe[..ChunkSize];
        procAmb := Some(p.(pipe := if |p.pipe| < ChunkSize then [] else p.pipe[ChunkSize..]));
      } else {
        ambChunk := Zeros(ChunkSize);
      }
      var musicChunk: seq<byte>;
      if procMusic.Some? && !musicPaused {
        var p := procMusic.value;
        musicChunk := if |p.pipe| < ChunkSize then p.pipe else p.pipe[..ChunkSize];
        procMusic := Some(p.(pipe := if |p.pipe| < ChunkSize then [] else p.pipe[ChunkSize..]));
      } else {
        musicChunk := Zeros(ChunkSize);
      }
      frame := MixFrame(ambChunk, musicChunk, ambienceVolume, musicVolume);
      MixFrameShape(ambChunk, musicChunk, ambienceVolume, musicVolume);
    }
  }

  /** The audio source handed to the voice client: it reads the mixer, and its
      frames are raw PCM, never Opus. */
  class MixedAudioSource {
    const mixer: MixedAudio

    constructor (m: MixedAudio)
      ensures mixer == m
    {
      mixer := m;
    }

    method Read() returns (frame: seq<byte>)
      modifies mixer`procAmb, mixer`procMusic
      ensures frame == MixFrame(StreamChunk(old(mixer.procAmb), mixer.ambiencePaused),
                                StreamChunk(old(mixer.procMusic), mixer.musicPaused),
                                mixer.ambienceVolume, mixer.musicVolume)
      ensures |frame| == ChunkSize
    {
      frame := mixer.Read();
    }

    method IsOpus() returns (opus: bool)
      ensures !opus
    {
      return false;
    }
  }
}
