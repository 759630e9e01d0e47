/** The PCM worker loop: bytes from a decoder, in whatever pieces they arrive, through the
    audio processor to a writer (crates/pepeaudio-pipeline/src/pcm.rs and config.rs). */
module PcmPump {
  import opened Options
  import opened Sequences
  import opened Signal
  import opened AudioProcessor

  newtype Byte = x: int | 0 <= x < 256

  const PCM_FRAME_BYTES := 8
  const SAMPLE_BYTES := 4
  const MAX_BLOCK_FRAMES := 4_800
  const MAX_PCM_BUFFER_BYTES := 1_536_000
  const MAX_SONGBIRD_BUFFER_BYTES := 384_000
  const MAX_CHANNEL_CAPACITY := 4_096
  const MAX_TRANSITION_FRAMES := 96_000
  const MAX_SHUTDOWN_TIMEOUT_MS := 60_000
  const USIZE_LIMIT := 0x1_0000_0000_0000_0000

  datatype Completion = Natural | Cancelled

  datatype PipelineError =
    | InvalidConfig | PartialPcmFrame | Dsp(error: DspError) | DecoderPipe | OutputClosed | WorkerClosed

  datatype Outcome = Completed(how: Completion) | Failed(error: PipelineError)

  /** Every way of stopping short has its cause: what a failure is told of is what failed. */
  predicate Blamed(error: PipelineError, steady: bool, decoderWorks: bool, writerWorks: bool, playable: bool) {
    match error
    case InvalidConfig => false
    case PartialPcmFrame => true
    case Dsp(_) => !playable
    case DecoderPipe => !decoderWorks || !writerWorks
    case OutputClosed => !writerWorks
    case WorkerClosed => !steady
  }

  /** The byte layout of one f32, in either direction. */
  datatype Codec = Codec(
    decode: (Byte, Byte, Byte, Byte) -> Sample,
    encode: real -> (Byte, Byte, Byte, Byte))

  // ---------------------------------------------------------------- configuration

  datatype PipelineConfig = PipelineConfig(
    blockFrames: nat,
    pcmBufferBytes: nat,
    songbirdBufferBytes: nat,
    controlCapacity: nat,
    eventCapacity: nat,
    transitionFrames: nat,
    shutdownTimeoutMs: nat)

  predicate Between(low: nat, value: nat, high: nat) {
    low <= value <= high
  }

  /** Which configurations are accepted: every bound in its range, both buffers whole frames,
      and a block that fits the first of them. */
  predicate Admissible(config: PipelineConfig) {
    && Between(1, config.blockFrames, 4_800)
    && Between(1, config.controlCapacity, 4_096)
       && Between(1, config.eventCapacity, 4_096)
    && Between(0, config.transitionFrames, 96_000)
    && Between(1, config.shutdownTimeoutMs, 60_000)
    && Between(config.blockFrames * 8, config.pcmBufferBytes, 1_536_000)
    && Between(8, config.songbirdBufferBytes, 384_000)
    && config.pcmBufferBytes % 8 == 0 && config.songbirdBufferBytes % 8 == 0
  }

  /** Any accepted configuration gives the loop a non-empty block whose sample and byte
      counts fit a machine word and the buffer behind it. */
  function Validate(config: PipelineConfig): (r: Option<PipelineConfig>)
    ensures r == if Admissible(config) then Some(config) else None
    ensures r.Some? ==> 0 < config.blockFrames * PCM_FRAME_BYTES <= config.pcmBufferBytes < USIZE_LIMIT
    ensures r.Some? ==> config.blockFrames <= MAX_BLOCK_FRAMES && 2 * config.blockFrames < USIZE_LIMIT
  {
    if config.blockFrames == 0
      || config.blockFrames > MAX_BLOCK_FRAMES
      || config.controlCapacity == 0
      || config.controlCapacity > MAX_CHANNEL_CAPACITY
      || config.eventCapacity == 0
      || config.eventCapacity > MAX_CHANNEL_CAPACITY
      || config.transitionFrames > MAX_TRANSITION_FRAMES
      || config.shutdownTimeoutMs == 0
      || config.shutdownTimeoutMs > MAX_SHUTDOWN_TIMEOUT_MS
      || config.pcmBufferBytes > MAX_PCM_BUFFER_BYTES
      || config.songbirdBufferBytes > MAX_SONGBIRD_BUFFER_BYTES
    then None
    else
      var blockBytes := config.blockFrames * PCM_FRAME_BYTES;
      if config.pcmBufferBytes < blockBytes
        || config.songbirdBufferBytes < PCM_FRAME_BYTES
        || config.pcmBufferBytes % PCM_FRAME_BYTES != 0
        || config.songbirdBufferBytes % PCM_FRAME_BYTES != 0
      then None
      else Some(config)
  }

  // ---------------------------------------------------------------- what the bytes mean

  function SampleAt(codec: Codec, bytes: seq<Byte>, i: nat): Sample
    requires 4 * i + 3 < |bytes|
  {
    codec.decode(bytes[4 * i], bytes[4 * i + 1], bytes[4 * i + 2], bytes[4 * i + 3])
  }

  function Samples(codec: Codec, bytes: seq<Byte>): (samples: seq<Sample>)
    ensures |samples| == |bytes| / 4
  {
    seq(|bytes| / 4, i requires 0 <= i < |bytes| / 4 => SampleAt(codec, bytes, i))
  }

  /** Whole frames, every sample of which the processor accepts. */
  ghost predicate Playable(codec: Codec, bytes: seq<Byte>) {
    |bytes| % PCM_FRAME_BYTES == 0 && AllAccepted(Samples(codec, bytes))
  }

  function FramesIn(codec: Codec, bytes: seq<Byte>): seq<Frame>
    requires Playable(codec, bytes)
  {
    assert forall i :: 0 <= i < |Samples(codec, bytes)| ==> Accepted(Samples(codec, bytes)[i]);
    FramesOf(Samples(codec, bytes))
  }

  function Interleave(frames: seq<Frame>): (samples: seq<real>)
    ensures |samples| == 2 * |frames|
  {
    if frames == [] then []
    else Interleave(frames[..|frames| - 1]) + [frames[|frames| - 1].left, frames[|frames| - 1].right]
  }

  function EncodeOne(codec: Codec, sample: real): seq<Byte> {
    var (a, b, c, d) := codec.encode(sample);
    [a, b, c, d]
  }

  function Encode(codec: Codec, samples: seq<real>): (bytes: seq<Byte>)
    ensures |bytes| == 4 * |samples|
  {
    if samples == [] then []
    else Encode(codec, samples[..|samples| - 1]) + EncodeOne(codec, samples[|samples| - 1])
  }

  /** The bytes a processor in state `p` owes its listener for a playable input. */
  function Owed<R>(codec: Codec, kit: Kit<R>, p: Proc<R>, bytes: seq<Byte>): seq<Byte>
    requires Playable(codec, bytes)
  {
    Encode(codec, Interleave(Outputs(kit, p, FramesIn(codec, bytes))))
  }

  // ---------------------------------------------------------------- pieces join up

  lemma SamplesAppend(codec: Codec, a: seq<Byte>, b: seq<Byte>)
    requires |a| % 4 == 0
    ensures Samples(codec, a + b) == Samples(codec, a) + Samples(codec, b)
  {
    forall i | 0 <= i < |a + b| / 4
      ensures Samples(codec, a + b)[i] == (Samples(codec, a) + Samples(codec, b))[i]
    {
      if 4 * i < |a| {
        assert SampleAt(codec, a + b, i) == SampleAt(codec, a, i);
      } else {
        assert SampleAt(codec, a + b, i) == SampleAt(codec, b, i - |a| / 4);
      }
    }
  }

  lemma AcceptedAppend(a: seq<Sample>, b: seq<Sample>)
    ensures AllAccepted(a + b) <==> AllAccepted(a) && AllAccepted(b)
  {
    assert forall i :: 0 <= i < |a| ==> (a + b)[i] == a[i];
    assert forall i :: 0 <= i < |b| ==> (a + b)[|a| + i] == b[i];
  }

  lemma FramesOfAppend(a: seq<Sample>, b: seq<Sample>)
    requires |a| % 2 == 0 && |b| % 2 == 0
    requires forall i :: 0 <= i < |a| ==> a[i].Finite?
    requires forall i :: 0 <= i < |b| ==> b[i].Finite?
    ensures FramesOf(a + b) == FramesOf(a) + FramesOf(b)
  {
  }

  lemma PlayableAppend(codec: Codec, a: seq<Byte>, b: seq<Byte>)
    requires |a| % PCM_FRAME_BYTES == 0 && |b| % PCM_FRAME_BYTES == 0
    ensures Playable(codec, a + b) <==> Playable(codec, a) && Playable(codec, b)
    ensures Playable(codec, a + b) ==> FramesIn(codec, a + b) == FramesIn(codec, a) + FramesIn(codec, b)
  {
    SamplesAppend(codec, a, b);
    var x, y := Samples(codec, a), Samples(codec, b);
    AcceptedAppend(x, y);
    if AllAccepted(x) && AllAccepted(y) {
      assert forall i :: 0 <= i < |x| ==> Accepted(x[i]);
      assert forall i :: 0 <= i < |y| ==> Accepted(y[i]);
      FramesOfAppend(x, y);
    }
  }

  lemma {:induction false} InterleaveAppend(a: seq<Frame>, b: seq<Frame>)
    ensures Interleave(a + b) == Interleave(a) + Interleave(b)
  {
    if b == [] {
      assert a + b == a;
    } else {
      InterleaveAppend(a, b[..|b| - 1]);
      FrontOfConcat(a, b);
    }
  }

  lemma {:induction false} EncodeAppend(codec: Codec, a: seq<real>, b: seq<real>)
    ensures Encode(codec, a + b) == Encode(codec, a) + Encode(codec, b)
  {
    if b == [] {
      assert a + b == a;
    } else {
      EncodeAppend(codec, a, b[..|b| - 1]);
      FrontOfConcat(a, b);
    }
  }

  lemma {:induction false} HeldIsInterleaved(samples: seq<real>, frames: seq<Frame>)
    requires |samples| == 2 * |frames| && Holds(samples, frames, |frames|)
    ensures samples == Interleave(frames)
  {
    if frames != [] {
      var front, last := frames[..|frames| - 1], |frames| - 1;
      forall i | 0 <= i < last
        ensures HoldsAt(samples[..2 * last], i, front[i])
      {
        assert HoldsAt(samples, i, frames[i]);
      }
      HeldIsInterleaved(samples[..2 * last], front);
      assert HoldsAt(samples, last, frames[last]);
      assert samples == samples[..2 * last] + [samples[2 * last], samples[2 * last + 1]];
    }
  }

  /** What is owed for a stream is owed piece by piece, whatever the pieces. */
  lemma OwedAppend<R>(codec: Codec, kit: Kit<R>, p: Proc<R>, a: seq<Byte>, b: seq<Byte>)
    requires Playable(codec, a) && Playable(codec, b)
    ensures Playable(codec, a + b)
    ensures Owed(codec, kit, p, a + b) == Owed(codec, kit, p, a) + Owed(codec, kit, Run(kit, p, FramesIn(codec, a)), b)
    ensures Run(kit, p, FramesIn(codec, a + b)) == Run(kit, Run(kit, p, FramesIn(codec, a)), FramesIn(codec, b))
  {
    PlayableAppend(codec, a, b);
    var x, y := FramesIn(codec, a), FramesIn(codec, b);
    RunAppend(kit, p, x, y);
    OutputsAppend(kit, p, x, y);
    InterleaveAppend(Outputs(kit, p, x), Outputs(kit, Run(kit, p, x), y));
    EncodeAppend(codec, Interleave(Outputs(kit, p, x)), Interleave(Outputs(kit, Run(kit, p, x), y)));
  }

  // ---------------------------------------------------------------- which byte is which

  lemma {:induction false} EncodedAt(codec: Codec, samples: seq<real>, i: nat)
    requires i < |samples|
    ensures var (a, b, c, d) := codec.encode(samples[i]);
      Encode(codec, samples)[4 * i..4 * i + 4] == [a, b, c, d]
  {
    var front := samples[..|samples| - 1];
    if i < |front| {
      EncodedAt(codec, front, i);
      assert Encode(codec, samples)[..4 * |front|] == Encode(codec, front);
      assert Encode(codec, samples)[4 * i..4 * i + 4] == Encode(codec, front)[4 * i..4 * i + 4];
    }
  }

  lemma {:induction false} InterleavedAt(frames: seq<Frame>, i: nat)
    requires i < |frames|
    ensures Interleave(frames)[2 * i] == frames[i].left && Interleave(frames)[2 * i + 1] == frames[i].right
  {
    var front := frames[..|frames| - 1];
    if i < |front| {
      InterleavedAt(front, i);
    }
  }

  lemma FrameInAt(codec: Codec, bytes: seq<Byte>, i: nat)
    requires Playable(codec, bytes) && 8 * i + 7 < |bytes|
    ensures i < |FramesIn(codec, bytes)| == |bytes| / 8
    ensures var x := FramesIn(codec, bytes)[i];
      && codec.decode(bytes[8 * i], bytes[8 * i + 1], bytes[8 * i + 2], bytes[8 * i + 3]) == Finite(x.left)
      && codec.decode(bytes[8 * i + 4], bytes[8 * i + 5], bytes[8 * i + 6], bytes[8 * i + 7]) == Finite(x.right)
  {
    var samples := Samples(codec, bytes);
    assert samples[2 * i] == SampleAt(codec, bytes, 2 * i) && samples[2 * i + 1] == SampleAt(codec, bytes, 2 * i + 1);
    assert Accepted(samples[2 * i]) && Accepted(samples[2 * i + 1]);
  }

  lemma FrameOutAt(codec: Codec, frames: seq<Frame>, i: nat)
    requires i < |frames|
    ensures |Encode(codec, Interleave(frames))| == 8 * |frames|
    ensures Encode(codec, Interleave(frames))[8 * i..8 * i + 8]
      == EncodeOne(codec, frames[i].left) + EncodeOne(codec, frames[i].right)
  {
    hide Encode, Interleave;
    InterleavedAt(frames, i);
    EncodedAt(codec, Interleave(frames), 2 * i);
    EncodedAt(codec, Interleave(frames), 2 * i + 1);
    var owed := Encode(codec, Interleave(frames));
    assert owed[8 * i..8 * i + 8] == owed[8 * i..8 * i + 4] + owed[8 * i + 4..8 * i + 8];
  }

  lemma EncodeOneIs(codec: Codec, sample: real)
    ensures var (a, b, c, d) := codec.encode(sample); EncodeOne(codec, sample) == [a, b, c, d]
  {
  }

  /** Frame by frame: eight bytes of input are the left and the right sample, four each, and
      the eight bytes owed for them are the output's left and right sample in the same places. */
  lemma OwedAt<R>(codec: Codec, kit: Kit<R>, p: Proc<R>, bytes: seq<Byte>, i: nat)
    requires Playable(codec, bytes) && 8 * i + 7 < |bytes|
    ensures i < |FramesIn(codec, bytes)| && |Owed(codec, kit, p, bytes)| == |bytes|
    ensures var x := FramesIn(codec, bytes)[i];
      && codec.decode(bytes[8 * i], bytes[8 * i + 1], bytes[8 * i + 2], bytes[8 * i + 3]) == Finite(x.left)
      && codec.decode(bytes[8 * i + 4], bytes[8 * i + 5], bytes[8 * i + 6], bytes[8 * i + 7]) == Finite(x.right)
    ensures var y := Outputs(kit, p, FramesIn(codec, bytes))[i];
      var (a, b, c, d) := codec.encode(y.left);
      var (e, f, g, h) := codec.encode(y.right);
      Owed(codec, kit, p, bytes)[8 * i..8 * i + 8] == [a, b, c, d] + [e, f, g, h]
  {
    hide Outputs, Encode, Interleave, FramesIn, EncodeOne, Playable;
    FrameInAt(codec, bytes, i);
    assert |bytes| % 8 == 0 by { WholeWhenPlayable(codec, bytes); }
    var y := Outputs(kit, p, FramesIn(codec, bytes))[i];
    FrameOutAt(codec, Outputs(kit, p, FramesIn(codec, bytes)), i);
    EncodeOneIs(codec, y.left);
    EncodeOneIs(codec, y.right);
  }

  lemma WholeWhenPlayable(codec: Codec, bytes: seq<Byte>)
    requires Playable(codec, bytes)
    ensures |bytes| % 8 == 0
  {
  }

  // ---------------------------------------------------------------- the two pipes

  /** The decoder's end of the stream: reads return what is left in pieces of any size. */
  class DecodedPcm {
    var remaining: seq<Byte>
    /** Whether a call has failed, and whether it has ended well. */
    var failed: bool
    var finished: bool
    /** A reliable decoder never reports an error. */
    const reliable: bool

    constructor (stream: seq<Byte>, reliable: bool)
      ensures remaining == stream && this.reliable == reliable && !failed && !finished
    {
      remaining, failed, finished := stream, false, false;
      this.reliable := reliable;
    }

    /** Fills part of the slice starting at `from`. Zero bytes mean the end of the stream,
        because the slice is never empty. */
    method ReadPcm(buffer: array<Byte>, from: nat) returns (count: Option<nat>)
      requires from < buffer.Length
      modifies this, buffer
      ensures failed == (old(failed) || count.None?) && finished == old(finished)
      ensures count.None? ==> !reliable && remaining == old(remaining) && buffer[..] == old(buffer[..])
      ensures count == Some(0) <==> count.Some? && old(remaining) == []
      ensures count.Some? ==> from + count.value <= buffer.Length && count.value <= |old(remaining)|
      ensures count.Some? ==> remaining == old(remaining)[count.value..]
      ensures count.Some? ==> buffer[..from + count.value] == old(buffer[..from]) + old(remaining)[..count.value]
    {
      var fails: bool := *;
      if fails && !reliable {
        failed := true;
        return None;
      }
      if remaining == [] {
        return Some(0);
      }
      var n: nat :| 1 <= n <= |remaining| && from + n <= buffer.Length;
      for i := 0 to n
        invariant remaining == old(remaining) && failed == old(failed) && finished == old(finished)
        invariant buffer[..from] == old(buffer[..from])
        invariant forall k :: 0 <= k < i ==> buffer[from + k] == remaining[k]
      {
        buffer[from + i] := remaining[i];
      }
      remaining := remaining[n..];
      return Some(n);
    }

    method Finish() returns (ok: bool)
      modifies this`failed, this`finished
      ensures (reliable ==> ok) && failed == (old(failed) || !ok) && finished == ok
    {
      ok := *;
      ok := ok || reliable;
      failed, finished := failed || !ok, ok;
    }
  }

  /** The writer's end: accepts any non-empty part of what it is offered, or closes. */
  class PcmWriter {
    var written: seq<Byte>
    /** Whether it has refused a byte, whether it has failed to close, and whether it has closed. */
    var refused: bool
    var unclosed: bool
    var closed: bool
    const reliable: bool

    constructor (reliable: bool)
      ensures written == [] && this.reliable == reliable && !refused && !unclosed && !closed
    {
      written, refused, unclosed, closed := [], false, false, false;
      this.reliable := reliable;
    }

    method Write(bytes: array<Byte>, from: nat) returns (count: nat)
      requires from < bytes.Length
      modifies this`written, this`refused
      ensures from + count <= bytes.Length && written == old(written) + bytes[from..from + count]
      ensures refused == (old(refused) || count == 0)
      ensures reliable ==> count > 0
    {
      count :| from + count <= bytes.Length && (reliable ==> count > 0);
      written := written + bytes[from..from + count];
      refused := refused || count == 0;
    }

    method Shutdown() returns (ok: bool)
      modifies this`unclosed, this`closed
      ensures (reliable ==> ok) && closed == ok && unclosed == (old(unclosed) || !ok)
    {
      ok := *;
      ok := ok || reliable;
      closed, unclosed := ok, unclosed || !ok;
    }
  }

  // ---------------------------------------------------------------- the loop

  method DecodeSamples(codec: Codec, bytes: array<Byte>, input: array<Sample>)
    requires 4 * input.Length <= bytes.Length
    modifies input
    ensures input[..] == Samples(codec, bytes[..4 * input.Length])
  {
    ghost var source := bytes[..4 * input.Length];
    for i := 0 to input.Length
      invariant forall k :: 0 <= k < i ==> input[k] == SampleAt(codec, source, k)
    {
      input[i] := codec.decode(bytes[4 * i], bytes[4 * i + 1], bytes[4 * i + 2], bytes[4 * i + 3]);
    }
  }

  method EncodeSamples(codec: Codec, output: array<real>, encoded: array<Byte>)
    requires encoded.Length == 4 * output.Length
    modifies encoded
    ensures encoded[..] == Encode(codec, output[..])
  {
    for i := 0 to output.Length
      invariant encoded[..4 * i] == Encode(codec, output[..i])
    {
      var (a, b, c, d) := codec.encode(output[i]);
      encoded[4 * i], encoded[4 * i + 1], encoded[4 * i + 2], encoded[4 * i + 3] := a, b, c, d;
      assert output[..i + 1][..i] == output[..i];
      assert encoded[..4 * (i + 1)] == encoded[..4 * i] + [a, b, c, d];
    }
    assert output[..output.Length] == output[..];
    assert encoded[..4 * output.Length] == encoded[..];
  }

  /** Pushes a whole block into the writer, however little each write takes. */
  method WriteProcessed(writer: PcmWriter, bytes: array<Byte>, steady: bool) returns (error: Option<PipelineError>)
    modifies writer`written, writer`refused
    ensures writer.refused == (old(writer.refused) || error == Some(OutputClosed))
    ensures error != Some(PartialPcmFrame) && error != Some(DecoderPipe)
    ensures error.None? ==> writer.written == old(writer.written) + bytes[..]
    ensures old(writer.written) <= writer.written <= old(writer.written) + bytes[..]
    ensures steady && writer.reliable ==> error.None?
    ensures error.Some? ==> Blamed(error.value, steady, true, writer.reliable, true)
  {
    var written := 0;
    while written < bytes.Length
      invariant written <= bytes.Length && writer.written == old(writer.written) + bytes[..written]
      invariant writer.refused == old(writer.refused)
      decreases bytes.Length - written
    {
      var cancelled: bool := *;
      if cancelled && !steady {
        return Some(WorkerClosed);
      }
      var count := writer.Write(bytes, written);
      if count == 0 {
        return Some(OutputClosed);
      }
      assert bytes[..written + count] == bytes[..written] + bytes[written..written + count];
      written := written + count;
    }
    return None;
  }

  /** The first `taken` bytes of the stream are played out: `written` is all they are owed
      and the processor is where the reference machine would be. */
  ghost predicate Settled<R>(codec: Codec, kit: Kit<R>, start: Proc<R>, source: seq<Byte>, taken: nat,
        written: seq<Byte>, now: Proc<R>) {
    && taken <= |source|
    && Playable(codec, source[..taken])
    && written == Owed(codec, kit, start, source[..taken])
    && now == Run(kit, start, FramesIn(codec, source[..taken]))
  }

  /** The whole stream has been played out. */
  ghost predicate Delivered<R>(codec: Codec, kit: Kit<R>, start: Proc<R>, source: seq<Byte>, written: seq<Byte>) {
    Playable(codec, source) && written == Owed(codec, kit, start, source)
  }

  /** What was written begins what some playable beginning of the stream is owed. */
  ghost predicate PartlyDelivered<R>(codec: Codec, kit: Kit<R>, start: Proc<R>, source: seq<Byte>, written: seq<Byte>) {
    exists taken: nat :: taken <= |source| && Playable(codec, source[..taken])
      && written <= Owed(codec, kit, start, source[..taken])
  }

  /** The complete frames at the start of a stream. */
  function Complete(source: seq<Byte>): seq<Byte> {
    source[..|source| - |source| % PCM_FRAME_BYTES]
  }

  lemma StreamStarts<R>(codec: Codec, kit: Kit<R>, start: Proc<R>, source: seq<Byte>)
    ensures Settled(codec, kit, start, source, 0, [], start)
  {
    assert source[..0] == [];
    assert FramesIn(codec, []) == [];
  }

  lemma StreamAdvances<R>(codec: Codec, kit: Kit<R>, start: Proc<R>, source: seq<Byte>, taken: nat,
        written: seq<Byte>, now: Proc<R>, size: nat)
    requires Settled(codec, kit, start, source, taken, written, now)
    requires taken + size <= |source| && Playable(codec, source[taken..taken + size])
    ensures Settled(codec, kit, start, source, taken + size,
                    written + Owed(codec, kit, now, source[taken..taken + size]),
                    Run(kit, now, FramesIn(codec, source[taken..taken + size])))
  {
    hide Owed, FramesIn, Playable, Run;
    OwedAppend(codec, kit, start, source[..taken], source[taken..taken + size]);
    SlicesJoin(source, taken, taken + size);
  }

  /** A block cut off part-way still leaves the listener with a beginning of what is owed. */
  lemma CutOff<R>(codec: Codec, kit: Kit<R>, start: Proc<R>, source: seq<Byte>, taken: nat, written: seq<Byte>,
        now: Proc<R>, size: nat, extra: seq<Byte>)
    requires Settled(codec, kit, start, source, taken, written, now)
    requires taken + size <= |source|
    requires extra != [] ==>
      Playable(codec, source[taken..taken + size]) && extra <= Owed(codec, kit, now, source[taken..taken + size])
    ensures PartlyDelivered(codec, kit, start, source, written + extra)
  {
    if extra == [] {
      assert written + extra == written;
    } else {
      StreamAdvances(codec, kit, start, source, taken, written, now, size);
      assert written + extra <= Owed(codec, kit, start, source[..taken + size]);
    }
  }

  lemma StreamEnds<R>(codec: Codec, kit: Kit<R>, start: Proc<R>, source: seq<Byte>, taken: nat, written: seq<Byte>,
        now: Proc<R>)
    requires Settled(codec, kit, start, source, taken, written, now)
    requires |source| - taken < PCM_FRAME_BYTES
    ensures taken == |Complete(source)| && (taken == |source| <==> |source| % PCM_FRAME_BYTES == 0)
    ensures Delivered(codec, kit, start, Complete(source), written)
    ensures taken == |source| ==> Complete(source) == source
  {
    hide Owed, Run;
    assert |source[..taken]| % PCM_FRAME_BYTES == 0;
    assert source[..taken] == Complete(source);
  }

  lemma WholeFrames(part: nat, whole: nat)
    requires part <= whole && part % PCM_FRAME_BYTES == 0
    ensures part <= whole - whole % PCM_FRAME_BYTES
  {
  }

  lemma InnerIsPlayable(codec: Codec, all: seq<Byte>, taken: nat, size: nat)
    requires taken % PCM_FRAME_BYTES == 0 && size % PCM_FRAME_BYTES == 0 && taken + size <= |all|
    requires |all| % PCM_FRAME_BYTES == 0 && Playable(codec, all)
    ensures Playable(codec, all[taken..][..size])
  {
    hide Playable, Samples, FramesIn;
    SplitAt(all, taken);
    PlayableAppend(codec, all[..taken], all[taken..]);
    SplitAt(all[taken..], size);
    PlayableAppend(codec, all[taken..][..size], all[taken..][size..]);
  }

  /** Every block of complete frames in a playable stream is playable. */
  lemma BlockIsPlayable(codec: Codec, source: seq<Byte>, taken: nat, size: nat)
    requires taken % PCM_FRAME_BYTES == 0 && size % PCM_FRAME_BYTES == 0 && taken + size <= |source|
    requires Playable(codec, Complete(source))
    ensures Playable(codec, source[taken..taken + size])
  {
    hide Playable, Samples, FramesIn;
    WholeFrames(taken + size, |source|);
    InnerIsPlayable(codec, Complete(source), taken, size);
    InnerSlice(source, |Complete(source)|, taken, size);
  }

  /** Re-sending the position the stream already plays at changes nothing. */
  lemma StaysRouted<R>(codec: Codec, kit: Kit<R>, start: Proc<R>, position: HorizontalStereoPair, source: seq<Byte>,
        taken: nat, written: seq<Byte>, now: Proc<R>)
    requires Settled(codec, kit, start, source, taken, written, now)
    requires WellFormed(start) && Routed(start, position) == start
    ensures Routed(now, position) == now
  {
    RunKeepsWellFormed(kit, start, FramesIn(codec, source[..taken]));
  }

  /** `copy_within`: moves the bytes from `from` up to `to` to the front. */
  method CopyWithin(bytes: array<Byte>, from: nat, to: nat)
    requires from <= to <= bytes.Length
    modifies bytes
    ensures bytes[..to - from] == old(bytes[from..to])
  {
    for i := 0 to to - from
      invariant forall k :: 0 <= k < i ==> bytes[k] == old(bytes[from + k])
      invariant forall k :: i <= k < bytes.Length ==> bytes[k] == old(bytes[k])
    {
      bytes[i] := bytes[from + i];
    }
  }

  /** Routes the processor, then feeds it one block. */
  method ProcessSamples<R>(processor: AudioProcessor<R>, position: HorizontalStereoPair, input: array<Sample>,
        output: array<real>)
    returns (error: Option<DspError>)
    requires processor.Valid() && output !in processor.Repr()
    requires input.Length == output.Length && input.Length % 2 == 0 && input.Length / 2 <= processor.maxBlockFrames
    modifies processor.Repr(), output
    ensures processor.Valid() && processor.Repr() <= old(processor.Repr())
    ensures processor.mode.FixedFront? <==> old(processor.mode).FixedFront?
    ensures error.None? <==> !old(processor.mode).FixedFront? && AllAccepted(input[..])
    ensures error.None? ==>
      processor.State() == Run(processor.kit, Routed(old(processor.State()), position), FramesOf(input[..]))
    ensures error.None? ==>
      Holds(output[..], Outputs(processor.kit, Routed(old(processor.State()), position), FramesOf(input[..])),
        input.Length / 2)
  {
    hide Run, Outputs, Routed, WellFormed;
    var routed := processor.SetOrbitPosition(position);
    if routed.Err? {
      return Some(routed.error);
    }
    var processed := processor.ProcessBlock(input, output);
    if processed.Err? {
      return Some(processed.error);
    }
    return None;
  }

  /** The samples of one block, in a buffer of their own. */
  method DecodeBlock(codec: Codec, bytes: array<Byte>, completeBytes: nat) returns (input: array<Sample>)
    requires completeBytes <= bytes.Length && completeBytes % PCM_FRAME_BYTES == 0
    ensures fresh(input) && 4 * input.Length == completeBytes && input.Length % 2 == 0
    ensures input[..] == Samples(codec, bytes[..completeBytes])
  {
    input := new Sample[completeBytes / SAMPLE_BYTES](_ => NonFinite);
    DecodeSamples(codec, bytes, input);
  }

  /** One block, up to the processor's output: decode, route, process. */
  method ProcessBytes<R>(codec: Codec, bytes: array<Byte>, completeBytes: nat, processor: AudioProcessor<R>,
        position: HorizontalStereoPair)
    returns (r: Result<array<real>>)
    requires completeBytes <= bytes.Length && completeBytes % PCM_FRAME_BYTES == 0
    requires completeBytes <= processor.maxBlockFrames * PCM_FRAME_BYTES
    requires processor.Valid()
    modifies processor.Repr()
    ensures processor.Valid() && processor.Repr() <= old(processor.Repr())
    ensures processor.mode.FixedFront? <==> old(processor.mode).FixedFront?
    ensures r.Ok? <==> !old(processor.mode).FixedFront? && Playable(codec, bytes[..completeBytes])
    ensures var block, start := bytes[..completeBytes], Routed(old(processor.State()), position);
      r.Ok? ==>
        && fresh(r.value) && 4 * r.value.Length == completeBytes
        && processor.State() == Run(processor.kit, start, FramesIn(codec, block))
        && r.value[..] == Interleave(Outputs(processor.kit, start, FramesIn(codec, block)))
  {
    hide Run, Outputs, Interleave, FramesOf, Routed, WellFormed, Samples;
    var input := DecodeBlock(codec, bytes, completeBytes);
    var output := new real[input.Length](_ => 0.0);
    ghost var start := Routed(processor.State(), position);
    var error := ProcessSamples(processor, position, input, output);
    if error.Some? {
      return Err(error.value);
    }
    HeldIsInterleaved(output[..], Outputs(processor.kit, start, FramesOf(input[..])));
    return Ok(output);
  }

  /** One block, start to finish. */
  method ProcessAndWrite<R>(codec: Codec, bytes: array<Byte>, completeBytes: nat, processor: AudioProcessor<R>,
                            position: HorizontalStereoPair, writer: PcmWriter, steady: bool)
    returns (error: Option<PipelineError>)
    requires completeBytes <= bytes.Length && completeBytes % PCM_FRAME_BYTES == 0
    requires completeBytes <= processor.maxBlockFrames * PCM_FRAME_BYTES
    requires processor.Valid() && writer !in processor.Repr()
    modifies processor.Repr(), writer`written, writer`refused
    ensures writer.refused == (old(writer.refused) || error == Some(OutputClosed))
    ensures processor.Valid() && processor.Repr() <= old(processor.Repr())
    ensures processor.mode.FixedFront? <==> old(processor.mode).FixedFront?
    ensures error != Some(PartialPcmFrame) && error != Some(DecoderPipe)
    ensures var block, start := bytes[..completeBytes], Routed(old(processor.State()), position);
      error.None? ==>
        && Playable(codec, block)
        && processor.State() == Run(processor.kit, start, FramesIn(codec, block))
        && writer.written == old(writer.written) + Owed(codec, processor.kit, start, block)
    ensures var block, start := bytes[..completeBytes], Routed(old(processor.State()), position);
      error.Some? ==>
        || writer.written == old(writer.written)
        || (&& Playable(codec, block)
            && old(writer.written) <= writer.written <= old(writer.written) + Owed(codec, processor.kit, start, block))
    ensures steady && writer.reliable && !old(processor.mode).FixedFront? && Playable(codec, bytes[..completeBytes])
      ==> error.None?
    ensures error.Some? ==> Blamed(error.value, steady, true, writer.reliable,
      !old(processor.mode).FixedFront? && Playable(codec, bytes[..completeBytes]))
  {
    var output := ProcessBytes(codec, bytes, completeBytes, processor, position);
    if output.Err? {
      return Some(Dsp(output.error));
    }
    var encoded := new Byte[completeBytes](_ => 0);
    EncodeSamples(codec, output.value, encoded);
    error := WriteProcessed(writer, encoded, steady);
  }

  /** Plays the complete frames at the front of the buffer and keeps the carry, which is
      shorter than one frame. */
  method Absorb<R>(codec: Codec, bytes: array<Byte>, filled: nat, processor: AudioProcessor<R>,
        position: HorizontalStereoPair, writer: PcmWriter, steady: bool, ghost kit: Kit<R>, ghost start: Proc<R>,
        ghost source: seq<Byte>, ghost rest: seq<Byte>, ghost taken: nat, ghost now: Proc<R>)
    returns (error: Option<PipelineError>, carry: nat, ghost takenAfter: nat, ghost nowAfter: Proc<R>)
    requires filled <= bytes.Length == processor.maxBlockFrames * PCM_FRAME_BYTES
    requires processor.Valid() && writer !in processor.Repr() && kit == processor.kit && WellFormed(start)
      && Routed(start, position) == start
    requires taken + filled <= |source| && taken % PCM_FRAME_BYTES == 0
    requires source[taken..] == bytes[..filled] + rest
    requires Routed(processor.State(), position) == now
    requires Settled(codec, kit, start, source, taken, writer.written, now)
    modifies processor.Repr(), writer`written, writer`refused, bytes
    ensures writer.refused == (old(writer.refused) || error == Some(OutputClosed))
    ensures processor.Valid() && processor.Repr() <= old(processor.Repr())
    ensures processor.mode.FixedFront? <==> old(processor.mode).FixedFront?
    ensures error != Some(PartialPcmFrame) && error != Some(DecoderPipe)
    ensures error.Some? ==> PartlyDelivered(codec, kit, start, source, writer.written)
    ensures error.None? ==>
      carry < PCM_FRAME_BYTES && carry <= filled && takenAfter == taken + (filled - carry)
        && takenAfter % PCM_FRAME_BYTES == 0
    ensures error.None? ==> source[takenAfter..] == bytes[..carry] + rest
    ensures error.None? ==> Routed(processor.State(), position) == nowAfter
    ensures error.None? ==> Settled(codec, kit, start, source, takenAfter, writer.written, nowAfter)
    ensures (steady && writer.reliable && !old(processor.mode).FixedFront? && Playable(codec, Complete(source))) ==>
      error.None?
    ensures error.Some? ==> Blamed(error.value, steady, true, writer.reliable,
      !old(processor.mode).FixedFront? && Playable(codec, Complete(source)))
  {
    hide Run, Outputs, Interleave, Encode, Samples, FramesIn, Playable, Owed, Settled, Delivered, PartlyDelivered,
      Complete, Routed, WellFormed;
    var completeBytes := filled - filled % PCM_FRAME_BYTES;
    if completeBytes == 0 {
      return None, filled, taken, now;
    }
    assert source[taken..taken + completeBytes] == source[taken..][..completeBytes] == bytes[..filled][..completeBytes];
    assert bytes[..completeBytes] == source[taken..taken + completeBytes];
    ghost var sent := writer.written;
    if Playable(codec, Complete(source)) {
      BlockIsPlayable(codec, source, taken, completeBytes);
    }
    error := ProcessAndWrite(codec, bytes, completeBytes, processor, position, writer, steady);
    if error.Some? {
      CutOff(codec, kit, start, source, taken, sent, now, completeBytes, writer.written[|sent|..]);
      assert sent + writer.written[|sent|..] == writer.written;
      return error, filled, taken, now;
    }
    StreamAdvances(codec, kit, start, source, taken, sent, now, completeBytes);
    StaysRouted(codec, kit, start, position, source, taken + completeBytes, writer.written, processor.State());
    ghost var tail := bytes[completeBytes..filled];
    assert source[taken + completeBytes..] == tail + rest;
    CopyWithin(bytes, completeBytes, filled);
    return None, filled - completeBytes, taken + completeBytes, processor.State();
  }

  lemma RoutedTwice<R>(p: Proc<R>, position: HorizontalStereoPair)
    requires WellFormed(p)
    ensures WellFormed(Routed(p, position)) && Routed(Routed(p, position), position) == Routed(p, position)
  {
  }

  /** No call has failed. */
  ghost predicate Untroubled(decoder: DecodedPcm, writer: PcmWriter)
    reads decoder, writer
  {
    !decoder.failed && !writer.refused && !writer.unclosed
  }

  /** A natural end means that both ends were closed, and a failed call is never passed over. */
  ghost predicate ToldOf(outcome: Outcome, decoder: DecodedPcm, writer: PcmWriter)
    reads decoder, writer
  {
    && (outcome == Completed(Natural) ==> decoder.finished && writer.closed)
    && (outcome == Failed(DecoderPipe) <==> decoder.failed || writer.unclosed)
    && (outcome == Failed(OutputClosed) <==> writer.refused)
  }

  /** The decoder has nothing more: a carried fragment is an error, otherwise both ends close,
      unless the track is cancelled while the decoder finishes. */
  method EndStream<R>(codec: Codec, decoder: DecodedPcm, writer: PcmWriter, steady: bool, filled: nat,
        ghost kit: Kit<R>, ghost start: Proc<R>, ghost source: seq<Byte>, ghost taken: nat, ghost now: Proc<R>)
    returns (outcome: Outcome)
    requires filled < PCM_FRAME_BYTES && |source| == taken + filled
    requires Settled(codec, kit, start, source, taken, writer.written, now)
    requires Untroubled(decoder, writer)
    modifies decoder`failed, decoder`finished, writer`unclosed, writer`closed
    ensures outcome == Completed(Natural) ==> Delivered(codec, kit, start, source, writer.written)
    ensures outcome == Failed(PartialPcmFrame) <==> |source| % PCM_FRAME_BYTES != 0
    ensures outcome == Failed(PartialPcmFrame) ==> Delivered(codec, kit, start, Complete(source), writer.written)
    ensures outcome == Completed(Cancelled) ==> !steady
    ensures outcome.Failed? ==> Blamed(outcome.error, steady, decoder.reliable, writer.reliable, true)
    ensures ToldOf(outcome, decoder, writer)
    ensures |source| % PCM_FRAME_BYTES == 0 && steady && decoder.reliable && writer.reliable ==>
      outcome == Completed(Natural)
  {
    hide Settled, Delivered, Complete;
    StreamEnds(codec, kit, start, source, taken, writer.written, now);
    if filled != 0 {
      return Failed(PartialPcmFrame);
    }
    var cancelled: bool := *;
    if cancelled && !steady {
      return Completed(Cancelled);
    }
    var finished := decoder.Finish();
    if !finished {
      return Failed(DecoderPipe);
    }
    var closed := writer.Shutdown();
    if !closed {
      return Failed(DecoderPipe);
    }
    return Completed(Natural);
  }

  /** One turn of the loop: a read, and what follows from it. */
  method Turn<R>(codec: Codec, decoder: DecodedPcm, bytes: array<Byte>, filled: nat, processor: AudioProcessor<R>,
        position: HorizontalStereoPair, writer: PcmWriter, steady: bool, ghost kit: Kit<R>, ghost start: Proc<R>,
        ghost source: seq<Byte>, ghost taken: nat, ghost now: Proc<R>)
    returns (outcome: Option<Outcome>, carry: nat, ghost takenAfter: nat, ghost nowAfter: Proc<R>)
    requires bytes.Length == processor.maxBlockFrames * PCM_FRAME_BYTES && PCM_FRAME_BYTES <= bytes.Length
    requires processor.Valid() && decoder !in processor.Repr() && writer !in processor.Repr()
      && bytes !in processor.Repr()
    requires kit == processor.kit && WellFormed(start) && Routed(start, position) == start
    requires filled < PCM_FRAME_BYTES && taken + filled <= |source| && taken % PCM_FRAME_BYTES == 0
    requires source[taken..] == bytes[..filled] + decoder.remaining
    requires Routed(processor.State(), position) == now
    requires Settled(codec, kit, start, source, taken, writer.written, now)
    requires Untroubled(decoder, writer)
    modifies processor.Repr(), decoder, writer, bytes
    ensures if outcome.None? then Untroubled(decoder, writer) else ToldOf(outcome.value, decoder, writer)
    ensures processor.Valid() && processor.Repr() <= old(processor.Repr())
    ensures processor.mode.FixedFront? <==> old(processor.mode).FixedFront?
    ensures outcome.None? ==>
      && carry < PCM_FRAME_BYTES && takenAfter + carry <= |source| && takenAfter % PCM_FRAME_BYTES == 0
      && source[takenAfter..] == bytes[..carry] + decoder.remaining
      && Routed(processor.State(), position) == nowAfter
         && Settled(codec, kit, start, source, takenAfter, writer.written, nowAfter)
      && |decoder.remaining| < |old(decoder.remaining)|
    ensures outcome == Some(Completed(Natural)) ==> Delivered(codec, kit, start, source, writer.written)
    ensures outcome == Some(Failed(PartialPcmFrame)) ==>
      |source| % PCM_FRAME_BYTES != 0 && Delivered(codec, kit, start, Complete(source), writer.written)
    ensures outcome.Some? ==> PartlyDelivered(codec, kit, start, source, writer.written)
    ensures outcome == Some(Completed(Cancelled)) ==> !steady
    ensures outcome.Some? && outcome.value.Failed? ==>
      Blamed(outcome.value.error, steady, decoder.reliable, writer.reliable,
        !old(processor.mode).FixedFront? && Playable(codec, Complete(source)))
    ensures (outcome.Some? && steady && decoder.reliable && writer.reliable && !old(processor.mode).FixedFront? &&
             Playable(codec, Complete(source))) ==>
      outcome.value == if |source| % PCM_FRAME_BYTES == 0 then Completed(Natural) else Failed(PartialPcmFrame)
  {
    hide Run, Outputs, Interleave, Encode, Samples, FramesIn, Playable, Owed, Settled, Delivered, PartlyDelivered,
      Complete, Routed, WellFormed;
    carry, takenAfter, nowAfter := filled, taken, now;
    CutOff(codec, kit, start, source, taken, writer.written, now, 0, []);
    assert writer.written + [] == writer.written;
    var cancelled: bool := *;
    if cancelled && !steady {
      outcome := Some(Completed(Cancelled));
      return;
    }
    var read := decoder.ReadPcm(bytes, filled);
    if read.None? {
      outcome := Some(Failed(DecoderPipe));
      return;
    }
    if read.value == 0 {
      var ended := EndStream(codec, decoder, writer, steady, filled, kit, start, source, taken, now);
      outcome := Some(ended);
      return;
    }
    var more := filled + read.value;
    assert source[taken..] == bytes[..more] + decoder.remaining;
    var error;
    error, carry, takenAfter, nowAfter := Absorb(codec, bytes, more, processor, position, writer, steady,
                                                 kit, start, source, decoder.remaining, taken, now);
    outcome := if error.Some? then Some(Failed(error.value)) else None;
  }

  /** The worker loop. Unless something outside fails or cancels, it ends naturally exactly
      when the stream is a whole number of frames, and has then written everything owed for
      it; a trailing fragment is reported after everything before it is written. Whatever
      happens, the listener has received a beginning of what is owed. */
  method PumpPcm<R>(codec: Codec, decoder: DecodedPcm, processor: AudioProcessor<R>, position: HorizontalStereoPair,
                    writer: PcmWriter, blockFrames: nat, steady: bool)
    returns (outcome: Outcome)
    requires 0 < blockFrames == processor.maxBlockFrames
    requires processor.Valid() && decoder !in processor.Repr() && writer !in processor.Repr() && writer.written == []
      && Untroubled(decoder, writer)
    modifies processor.Repr(), decoder, writer
    ensures processor.Valid()
    ensures outcome == Completed(Natural) ==>
      Delivered(codec, processor.kit, Routed(old(processor.State()), position), old(decoder.remaining), writer.written)
    ensures outcome == Failed(PartialPcmFrame) ==> |old(decoder.remaining)| % PCM_FRAME_BYTES != 0
    ensures outcome == Failed(PartialPcmFrame) ==>
      Delivered(codec, processor.kit, Routed(old(processor.State()), position), Complete(old(decoder.remaining)),
        writer.written)
    ensures PartlyDelivered(codec, processor.kit, Routed(old(processor.State()), position), old(decoder.remaining),
      writer.written)
    ensures outcome == Completed(Cancelled) ==> !steady
    ensures ToldOf(outcome, decoder, writer)
    ensures outcome.Failed? ==> Blamed(outcome.error, steady, decoder.reliable, writer.reliable,
      !old(processor.mode).FixedFront? && Playable(codec, Complete(old(decoder.remaining))))
    ensures (steady && decoder.reliable && writer.reliable && !old(processor.mode).FixedFront?
             && Playable(codec, Complete(old(decoder.remaining)))) ==>
      outcome == if |old(decoder.remaining)| % PCM_FRAME_BYTES == 0 then Completed(Natural) else Failed(PartialPcmFrame)
  {
    hide Run, Outputs, Interleave, Encode, Samples, FramesIn, Playable, Owed, Settled, Delivered, PartlyDelivered,
      Complete, Routed, WellFormed;
    var bytes := new Byte[blockFrames * PCM_FRAME_BYTES](_ => 0);
    var filled: nat := 0;
    ghost var source, kit, start := decoder.remaining, processor.kit, Routed(processor.State(), position);
    ghost var now := start;
    ghost var taken: nat := 0;
    StreamStarts(codec, kit, start, source);
    RoutedTwice(processor.State(), position);
    while true
      invariant processor.Valid() && processor.Repr() <= old(processor.Repr())
      invariant processor.mode.FixedFront? <==> old(processor.mode).FixedFront?
      invariant filled < PCM_FRAME_BYTES && taken + filled <= |source| && taken % PCM_FRAME_BYTES == 0
      invariant source[taken..] == bytes[..filled] + decoder.remaining
      invariant Routed(processor.State(), position) == now
      invariant Settled(codec, kit, start, source, taken, writer.written, now) && Untroubled(decoder, writer)
      decreases |decoder.remaining|
    {
      var ended;
      ended, filled, taken,
        now := Turn(codec, decoder, bytes, filled, processor, position, writer, steady, kit, start, source, taken, now);
      if ended.Some? {
        return ended.value;
      }
    }
  }
}
