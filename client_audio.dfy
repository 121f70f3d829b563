/**
 * The sending-side loops of `XiaozhiTestClient` in `client.py`: the
 * codec-less framing of `encode_to_opus_frames`, the silence-filler loop of
 * `send_empty_opus_frames` and the target-time pacing of `send_real_audio`.
 * The WebSocket and the clocks are inputs: whether the client's socket
 * attribute (`websocket`) is still set and whether the server has answered,
 * as seen at each check, and the clock readings taken after each send. A
 * connection the peer has closed leaves the attribute set; the send then
 * raises, which `Client` models as the failed-send step.
 */
module ClientAudio {
  import opened Wrappers
  import Format
  import AudioUtils

  type byte = AudioUtils.byte

  /** Bytes in one 60 ms frame of 16-bit mono PCM: `int(sample_rate * 60 / 1000) * 2`. */
  function FrameBytes(sampleRate: nat): nat {
    (sampleRate * 60 / 1000) * 2
  }

  /**
   * `encode_to_opus_frames` without the codec: the PCM cut into frames of
   * `FrameBytes(sampleRate)` bytes, the last one zero-padded. A sample rate
   * below 17 Hz gives a zero step, which makes `range` raise.
   */
  method EncodeToOpusFrames(pcm: seq<byte>, sampleRate: nat) returns (r: Result<seq<seq<byte>>, string>)
    ensures FrameBytes(sampleRate) == 0 ==> r == Failure("range() arg 3 must not be zero")
    ensures FrameBytes(sampleRate) > 0 ==> r == Success(AudioUtils.PaddedChunks(pcm, FrameBytes(sampleRate), 0))
  {
    var frameSizeBytes := (sampleRate * 60 / 1000) * 2;
    if frameSizeBytes == 0 {
      return Failure("range() arg 3 must not be zero");
    }
    var frames: seq<seq<byte>> := [];
    var i := 0;
    while i < |pcm|
      invariant 0 <= i
      invariant frames + AudioUtils.PaddedChunks(pcm[AudioUtils.Min(i, |pcm|)..], frameSizeBytes, 0)
                == AudioUtils.PaddedChunks(pcm, frameSizeBytes, 0)
      decreases |pcm| - i
    {
      var frameData := pcm[i..AudioUtils.Min(i + frameSizeBytes, |pcm|)];
      if |frameData| < frameSizeBytes {
        frameData := frameData + Format.Repeat(0, frameSizeBytes - |frameData|);
      }
      AudioUtils.ChunkLoopStep(pcm, i, frameSizeBytes, 0, frames, frameData);
      frames := frames + [frameData];
      i := i + frameSizeBytes;
    }
    assert pcm[AudioUtils.Min(i, |pcm|)..] == [];
    assert frames == AudioUtils.PaddedChunks(pcm, frameSizeBytes, 0);
    return Success(frames);
  }

  /**
   * At the default 16 kHz every frame is 1920 bytes (960 samples), there are
   * `ceil(len / 1920)` of them, and laid end to end they are the PCM
   * followed by fewer than 1920 zero bytes.
   */
  lemma DefaultFrames(pcm: seq<byte>)
    ensures FrameBytes(16000) == 1920 == AudioUtils.FrameSize * 2
    ensures var frames := AudioUtils.PaddedChunks(pcm, 1920, 0);
      |frames| == (|pcm| + 1919) / 1920
      && (forall k :: 0 <= k < |frames| ==> |frames[k]| == 1920)
      && |frames| * 1920 - |pcm| < 1920
      && AudioUtils.Flatten(frames) == pcm + Format.Repeat(0, |frames| * 1920 - |pcm|)
  {
    AudioUtils.PaddedChunksCount(pcm, 1920, 0);
    AudioUtils.PaddedChunksConcat(pcm, 1920, 0);
  }

  /** `max_empty_frames`: the filler stops after 6 s of silence at the latest. */
  const MaxFillerFrames: nat := 100

  /**
   * The `send_empty_opus_frames` loop. Before the `k`-th send it checks that
   * the client's socket attribute is still set (`socketSet(k)`) and that the
   * server has not yet answered (`processingComplete(k)`, the flag as the
   * handlers have set it by then). It returns how many silence frames were sent.
   */
  method SendFillerFrames(socketSet: nat -> bool, processingComplete: nat -> bool) returns (sent: nat)
    ensures sent <= MaxFillerFrames
    ensures forall k :: 0 <= k < sent ==> socketSet(k) && !processingComplete(k)
    ensures forall k :: 0 <= k && processingComplete(k) ==> sent <= k
    ensures sent < MaxFillerFrames ==> !socketSet(sent) || processingComplete(sent)
    ensures sent == FillerCount(socketSet, processingComplete)
  {
    var frameCount := 0;
    while frameCount < MaxFillerFrames && socketSet(frameCount)
      invariant frameCount <= MaxFillerFrames
      invariant forall k :: 0 <= k < frameCount ==> socketSet(k) && !processingComplete(k)
      decreases MaxFillerFrames - frameCount
    {
      if processingComplete(frameCount) {
        break;
      }
      frameCount := frameCount + 1;
    }
    sent := frameCount;
    FillerCountIsFirstStop(socketSet, processingComplete, sent);
  }

  /** The frames the filler sends from check `k` on: it stops at 100, at an unset socket attribute or at the answer. */
  function FillerCountFrom(socketSet: nat -> bool, processingComplete: nat -> bool, k: nat): nat
    decreases MaxFillerFrames - k
  {
    if k >= MaxFillerFrames || !socketSet(k) || processingComplete(k) then k
    else FillerCountFrom(socketSet, processingComplete, k + 1)
  }

  /** How many silence frames `send_empty_opus_frames` sends. */
  function FillerCount(socketSet: nat -> bool, processingComplete: nat -> bool): nat {
    FillerCountFrom(socketSet, processingComplete, 0)
  }

  lemma {:induction false} FillerCountFromStop(socketSet: nat -> bool, processingComplete: nat -> bool, k: nat, stop: nat)
    requires k <= stop <= MaxFillerFrames
    requires forall j :: k <= j < stop ==> socketSet(j) && !processingComplete(j)
    requires stop < MaxFillerFrames ==> !socketSet(stop) || processingComplete(stop)
    ensures FillerCountFrom(socketSet, processingComplete, k) == stop
    decreases stop - k
  {
    if k < stop {
      FillerCountFromStop(socketSet, processingComplete, k + 1, stop);
    }
  }

  /**
   * The filler sends exactly up to the first check that stops it: the
   * frames before `stop` all went out with the socket attribute set and no
   * answer, and at `stop` the limit is reached, the attribute is unset or the
   * answer is in.
   */
  lemma FillerCountIsFirstStop(socketSet: nat -> bool, processingComplete: nat -> bool, stop: nat)
    requires stop <= MaxFillerFrames
    requires forall j :: 0 <= j < stop ==> socketSet(j) && !processingComplete(j)
    requires stop < MaxFillerFrames ==> !socketSet(stop) || processingComplete(stop)
    ensures FillerCount(socketSet, processingComplete) == stop
  {
    FillerCountFromStop(socketSet, processingComplete, 0, stop);
  }

  /**
   * With the socket attribute set throughout, the filler sends one frame per check
   * until the server's answer is first seen, and never more than 100.
   */
  lemma FillerStopsAtAnswer(socketSet: nat -> bool, processingComplete: nat -> bool, answer: nat)
    requires forall k :: socketSet(k)
    requires processingComplete(answer) && forall k :: 0 <= k < answer ==> !processingComplete(k)
    ensures FillerCount(socketSet, processingComplete) == if answer < MaxFillerFrames then answer else MaxFillerFrames
  {
    var stop := if answer < MaxFillerFrames then answer else MaxFillerFrames;
    FillerCountIsFirstStop(socketSet, processingComplete, stop);
  }

  /** With no answer at all, the filler runs until the socket attribute is unset, or 100 frames. */
  lemma FillerStopsAtUnset(socketSet: nat -> bool, processingComplete: nat -> bool, unset: nat)
    requires forall k :: !processingComplete(k)
    requires !socketSet(unset) && forall k :: 0 <= k < unset ==> socketSet(k)
    ensures FillerCount(socketSet, processingComplete) == if unset < MaxFillerFrames then unset else MaxFillerFrames
  {
    var stop := if unset < MaxFillerFrames then unset else MaxFillerFrames;
    FillerCountIsFirstStop(socketSet, processingComplete, stop);
  }

  /** `frame_interval`: 60 ms between frame targets. */
  const FrameInterval: real := 0.06

  /** The target time of frame `i`: `send_start_perf + i * frame_interval`. */
  function Target(start: real, i: nat): real {
    start + (i as real) * FrameInterval
  }

  /** `next_target - current_perf` after frame `i` was sent at clock reading `now`. */
  function SleepTime(start: real, i: nat, now: real): real {
    Target(start, i + 1) - now
  }

  /**
   * The pacing of `send_real_audio` over `n` frames. `readings[i]` is the
   * clock after frame `i` was sent and `socketSet(i)` whether the socket
   * attribute was still set before it. It returns how many frames went out, the waits
   * between them and the frames after which the sender ran more than 10 ms
   * late.
   */
  method PaceFrames(n: nat, start: real, readings: seq<real>, socketSet: nat -> bool)
    returns (sent: nat, waits: seq<real>, lagging: seq<nat>)
    requires |readings| >= n
    ensures sent <= n
    ensures forall i :: 0 <= i < sent ==> socketSet(i)
    ensures sent < n <==> !socketSet(sent) && sent < n
    ensures |waits| == (if sent == n && n > 0 then n - 1 else sent)
    ensures forall i :: 0 <= i < |waits| ==> waits[i] >= 0.0
    ensures forall i :: 0 <= i < |waits| ==>
      waits[i] == (if SleepTime(start, i, readings[i]) > 0.0 then SleepTime(start, i, readings[i]) else 0.0)
    ensures forall i :: 0 <= i < |waits| ==> readings[i] + waits[i] >= Target(start, i + 1)
    ensures forall j :: 0 <= j < |lagging| ==> lagging[j] < |waits| && SleepTime(start, lagging[j], readings[lagging[j]]) < -0.01
    ensures forall i :: 0 <= i < |waits| && SleepTime(start, i, readings[i]) < -0.01 ==> i in lagging
    ensures forall j, k :: 0 <= j < k < |lagging| ==> lagging[j] < lagging[k]
  {
    sent, waits, lagging := 0, [], [];
    var i := 0;
    while i < n
      invariant i <= n && sent == i && (i < n || n == 0)
      invariant forall k :: 0 <= k < i ==> socketSet(k)
      invariant |waits| == i
      invariant forall k :: 0 <= k < |waits| ==>
        waits[k] == (if SleepTime(start, k, readings[k]) > 0.0 then SleepTime(start, k, readings[k]) else 0.0)
      invariant forall j :: 0 <= j < |lagging| ==> lagging[j] < i && SleepTime(start, lagging[j], readings[lagging[j]]) < -0.01
      invariant forall k :: 0 <= k < i && SleepTime(start, k, readings[k]) < -0.01 ==> k in lagging
      invariant forall j, k :: 0 <= j < k < |lagging| ==> lagging[j] < lagging[k]
      decreases n - i
    {
      if !socketSet(i) {
        return;
      }
      sent := i + 1;
      if i < n - 1 {
        var sleepTime := Target(start, i + 1) - readings[i];
        if sleepTime > 0.0 {
          waits := waits + [sleepTime];
        } else {
          waits := waits + [0.0];
          if sleepTime < -0.01 {
            lagging := lagging + [i];
          }
        }
      } else {
        return;
      }
      i := i + 1;
    }
  }

}
