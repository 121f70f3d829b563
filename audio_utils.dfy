/**
 * The audio helpers of `utils.py` and the audio constants of `config.py`:
 * 16-bit mono PCM at 16 kHz, cut into 60 ms frames. The Opus codec is a
 * foreign library; it appears here as an abstract `encode`/`decode` function
 * and a flag `hasOpus` telling whether the library could be imported.
 */
module AudioUtils {
  import opened Wrappers
  import Format

  const SampleRate: nat := 16000
  const FrameDurationMs: nat := 60
  /** `int(AUDIO_SAMPLE_RATE * AUDIO_FRAME_DURATION_MS / 1000)`, i.e. 960 samples. */
  const FrameSize: nat := SampleRate * FrameDurationMs / 1000

  type byte = x: int | 0 <= x < 256

  /** `calculate_audio_duration`: whole 16-bit samples divided by the sample rate, in seconds. */
  function AudioDuration(data: seq<byte>): (d: real)
    ensures d >= 0.0
    ensures d * (SampleRate as real) == (|data| / 2) as real
  {
    ((|data| / 2) as real) / (SampleRate as real)
  }

  /** A trailing odd byte is not a sample and adds no time. */
  lemma DurationIgnoresOddByte(data: seq<byte>, b: byte)
    requires |data| % 2 == 0
    ensures AudioDuration(data + [b]) == AudioDuration(data)
  {
    assert |data + [b]| / 2 == |data| / 2;
  }

  /** `k * 32000` bytes are exactly `k` seconds. */
  lemma DurationOfWholeSeconds(data: seq<byte>, k: nat)
    requires |data| == k * 2 * SampleRate
    ensures AudioDuration(data) == k as real
  {
    assert |data| / 2 == k * SampleRate;
  }

  /** `b''.join(frames)`. */
  function Flatten<T>(frames: seq<seq<T>>): (r: seq<T>)
  {
    if frames == [] then [] else frames[0] + Flatten(frames[1..])
  }

  /**
   * The chunks `xs[i:i + n]` for `i` in `range(0, len(xs), n)`, the last one
   * filled up to `n` elements with `pad`.
   */
  function PaddedChunks<T>(xs: seq<T>, n: nat, pad: T): (cs: seq<seq<T>>)
    requires n > 0
    ensures forall k :: 0 <= k < |cs| ==> |cs[k]| == n
    decreases |xs|
  {
    if xs == [] then []
    else if |xs| >= n then [xs[..n]] + PaddedChunks(xs[n..], n, pad)
    else [xs + Format.Repeat(pad, n - |xs|)]
  }

  /** There are `ceil(len(xs) / n)` chunks. */
  lemma {:induction false} PaddedChunksCount<T>(xs: seq<T>, n: nat, pad: T)
    requires n > 0
    ensures |PaddedChunks(xs, n, pad)| == (|xs| + n - 1) / n
    decreases |xs|
  {
    if xs != [] {
      if |xs| >= n {
        PaddedChunksCount(xs[n..], n, pad);
        CeilDivStep(|xs|, n);
      } else {
        Format.DivUnique(|xs| + n - 1, n, 1, |xs| - 1);
      }
    }
  }

  /** One more chunk of `n` adds one to the ceiling of the quotient. */
  lemma CeilDivStep(len: nat, n: nat)
    requires len >= n > 0
    ensures (len + n - 1) / n == (len - n + n - 1) / n + 1
  {
    Format.DivUnique(len + n - 1, n, (len - 1) / n + 1, (len - 1) % n);
    Format.DivUnique(len - n + n - 1, n, (len - 1) / n, (len - 1) % n);
  }

  lemma MulSucc(m: nat, n: nat)
    ensures (m + 1) * n == m * n + n
  {
  }

  /**
   * The chunks laid end to end are `xs` followed by fewer than `n` pad
   * elements: nothing is lost, reordered or invented.
   */
  lemma {:induction false} PaddedChunksConcat<T>(xs: seq<T>, n: nat, pad: T)
    requires n > 0
    ensures var cs := PaddedChunks(xs, n, pad);
      |xs| <= |cs| * n < |xs| + n &&
      Flatten(cs) == xs + Format.Repeat(pad, |cs| * n - |xs|)
    decreases |xs|
  {
    var cs := PaddedChunks(xs, n, pad);
    if xs == [] {
    } else if |xs| >= n {
      var rest := PaddedChunks(xs[n..], n, pad);
      PaddedChunksConcat(xs[n..], n, pad);
      assert cs == [xs[..n]] + rest;
      assert cs[1..] == rest;
      MulSucc(|rest|, n);
      assert |cs| * n == |rest| * n + n;
      calc {
        Flatten(cs);
        xs[..n] + Flatten(rest);
        xs[..n] + (xs[n..] + Format.Repeat(pad, |rest| * n - |xs[n..]|));
        { assert xs[..n] + xs[n..] == xs; }
        xs + Format.Repeat(pad, |cs| * n - |xs|);
      }
    } else {
      assert cs[1..] == [];
      assert Flatten(cs) == cs[0] + [];
    }
  }

  /** `np.frombuffer(pcm, dtype=np.int16)` for one little-endian pair of bytes. */
  function Int16(lo: byte, hi: byte): (v: int)
    ensures -32768 <= v < 32768
  {
    var u := lo + 256 * hi;
    if u >= 32768 then u - 65536 else u
  }

  /** The bytes of a sample, as `ndarray.tobytes` writes them. */
  function Int16Bytes(v: int): (bs: seq<byte>)
    requires -32768 <= v < 32768
    ensures |bs| == 2
  {
    var u := if v < 0 then v + 65536 else v;
    [u % 256, u / 256]
  }

  lemma Int16RoundTrip(v: int)
    requires -32768 <= v < 32768
    ensures Int16(Int16Bytes(v)[0], Int16Bytes(v)[1]) == v
  {
  }

  /** The samples of an even-length PCM buffer (an odd length makes numpy raise). */
  function Samples(pcm: seq<byte>): (s: seq<int>)
    requires |pcm| % 2 == 0
    ensures |s| == |pcm| / 2
    ensures forall i :: 0 <= i < |s| ==> s[i] == Int16(pcm[2 * i], pcm[2 * i + 1])
  {
    if pcm == [] then [] else [Int16(pcm[0], pcm[1])] + Samples(pcm[2..])
  }

  /** One call of the encoder per frame, in frame order. */
  function EncodeAll(encode: seq<int> -> seq<byte>, frames: seq<seq<int>>): seq<seq<byte>> {
    seq(|frames|, k requires 0 <= k < |frames| => encode(frames[k]))
  }

  lemma EncodeAllSnoc(encode: seq<int> -> seq<byte>, frames: seq<seq<int>>, frame: seq<int>)
    ensures EncodeAll(encode, frames + [frame]) == EncodeAll(encode, frames) + [encode(frame)]
  {
  }

  /**
   * What `pcm_to_opus` returns. Without the codec the PCM passes through;
   * with it, an odd byte count or a zero frame size raises, a negative frame
   * size gives no frames, and otherwise every zero-padded frame of
   * `frameSize` samples is encoded and the results are joined.
   */
  function EncodedPcm(pcm: seq<byte>, frameSize: int, hasOpus: bool,
                      encode: seq<int> -> seq<byte>): Result<seq<byte>, string>
  {
    if !hasOpus then Success(pcm)
    else if |pcm| % 2 == 1 then Failure("Opus encoding failed: buffer size must be a multiple of element size")
    else if frameSize == 0 then Failure("Opus encoding failed: range() arg 3 must not be zero")
    else if frameSize < 0 then Success([])
    else Success(Flatten(EncodeAll(encode, PaddedChunks(Samples(pcm), frameSize, 0))))
  }

  function Min(a: int, b: int): int {
    if a < b then a else b
  }

  /** One step of the chunking loop: the chunk at `i` is `xs[i:i + n]`, padded. */
  lemma ChunkStep<T>(xs: seq<T>, i: nat, n: nat, pad: T, frame: seq<T>)
    requires n > 0 && i < |xs|
    requires var raw := xs[i..Min(i + n, |xs|)];
      frame == if |raw| < n then raw + Format.Repeat(pad, n - |raw|) else raw
    ensures PaddedChunks(xs[i..], n, pad) == [frame] + PaddedChunks(xs[Min(i + n, |xs|)..], n, pad)
  {
    var rest := xs[i..];
    if |rest| >= n {
      assert rest[..n] == frame;
      assert rest[n..] == xs[i + n..];
    } else {
      assert rest == xs[i..Min(i + n, |xs|)];
      assert xs[Min(i + n, |xs|)..] == [];
    }
  }

  /** The chunking loop's invariant survives one step that emits `frame`. */
  lemma ChunkLoopStep<T>(xs: seq<T>, i: nat, n: nat, pad: T, done: seq<seq<T>>, frame: seq<T>)
    requires n > 0 && i < |xs|
    requires var raw := xs[i..Min(i + n, |xs|)];
      frame == if |raw| < n then raw + Format.Repeat(pad, n - |raw|) else raw
    requires done + PaddedChunks(xs[Min(i, |xs|)..], n, pad) == PaddedChunks(xs, n, pad)
    ensures (done + [frame]) + PaddedChunks(xs[Min(i + n, |xs|)..], n, pad) == PaddedChunks(xs, n, pad)
  {
    ChunkStep(xs, i, n, pad, frame);
    var rest := PaddedChunks(xs[Min(i + n, |xs|)..], n, pad);
    assert Min(i, |xs|) == i;
    assert (done + [frame]) + rest == done + ([frame] + rest);
  }

  /** `pcm_to_opus`: the frame loop over the samples, then the join. */
  method PcmToOpus(pcm: seq<byte>, frameSize: int, hasOpus: bool,
                   encode: seq<int> -> seq<byte>) returns (r: Result<seq<byte>, string>)
    ensures r == EncodedPcm(pcm, frameSize, hasOpus, encode)
  {
    if !hasOpus {
      return Success(pcm);
    }
    if |pcm| % 2 == 1 {
      return Failure("Opus encoding failed: buffer size must be a multiple of element size");
    }
    if frameSize == 0 {
      return Failure("Opus encoding failed: range() arg 3 must not be zero");
    }
    if frameSize < 0 {
      return Success([]);
    }
    var samples := Samples(pcm);
    var opusFrames: seq<seq<byte>> := [];
    ghost var done: seq<seq<int>> := [];
    var i := 0;
    while i < |samples|
      invariant 0 <= i
      invariant done + PaddedChunks(samples[Min(i, |samples|)..], frameSize, 0) == PaddedChunks(samples, frameSize, 0)
      invariant opusFrames == EncodeAll(encode, done)
      decreases |samples| - i
    {
      var frame := samples[i..Min(i + frameSize, |samples|)];
      if |frame| < frameSize {
        frame := frame + Format.Repeat(0, frameSize - |frame|);
      }
      ChunkLoopStep(samples, i, frameSize, 0, done, frame);
      EncodeAllSnoc(encode, done, frame);
      opusFrames := opusFrames + [encode(frame)];
      done := done + [frame];
      i := i + frameSize;
    }
    assert samples[Min(i, |samples|)..] == [];
    assert done == PaddedChunks(samples, frameSize, 0);
    return Success(Flatten(opusFrames));
  }

  /** `opus_to_pcm`: the data passes through without the codec, else one decoder call. */
  function OpusToPcm(opus: seq<byte>, frameSize: int, hasOpus: bool,
                     decode: (seq<byte>, int) -> seq<byte>): Result<seq<byte>, string>
  {
    if !hasOpus then Success(opus) else Success(decode(opus, frameSize))
  }

  /** Without the codec, decoding what was encoded gives back the PCM, whatever its length. */
  lemma NoOpusRoundTrip(pcm: seq<byte>, frameSize: int, encode: seq<int> -> seq<byte>,
                        decode: (seq<byte>, int) -> seq<byte>)
    ensures EncodedPcm(pcm, frameSize, false, encode).Success?
    ensures OpusToPcm(EncodedPcm(pcm, frameSize, false, encode).value, frameSize, false, decode) == Success(pcm)
  {
  }

  /**
   * With the codec and a positive frame size, the encoder runs once per
   * `ceil(samples / frameSize)` frame, each frame holds exactly `frameSize`
   * samples, and the frames are the samples followed by zero padding.
   */
  lemma EncodedFrames(pcm: seq<byte>, frameSize: int)
    requires |pcm| % 2 == 0 && frameSize > 0
    ensures var cs := PaddedChunks(Samples(pcm), frameSize, 0);
      |cs| == (|pcm| / 2 + frameSize - 1) / frameSize &&
      (forall k :: 0 <= k < |cs| ==> |cs[k]| == frameSize) &&
      Flatten(cs) == Samples(pcm) + Format.Repeat(0, |cs| * frameSize - |pcm| / 2)
  {
    PaddedChunksCount(Samples(pcm), frameSize, 0);
    PaddedChunksConcat(Samples(pcm), frameSize, 0);
  }
}
