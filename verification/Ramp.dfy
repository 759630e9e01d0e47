/** Linear ramps (crates/pepeaudio-audio/src/transition.rs and gain.rs). `UnitRamp`,
    `GainRamp` and the progress inside `EqualPowerFade` are the same machine over
    f32 fields, so they share one class here. */
module Ramp {
  import opened Signal

  datatype RampState = RampState(current: real, target: real, step: real, remaining: nat)

  /** What emitting one frame does to a ramp; the frame itself gets `current`. */
  function Next(s: RampState): RampState {
    if s.remaining == 0 then s
    else if s.remaining == 1 then s.(current := s.target, remaining := 0)
    else s.(current := s.current + s.step, remaining := s.remaining - 1)
  }

  function After(s: RampState, frames: nat): RampState {
    if frames == 0 then s else Next(After(s, frames - 1))
  }

  function Aim(s: RampState, target: real, frames: nat): RampState {
    if frames <= 1 then RampState(target, target, 0.0, 0)
    else RampState(s.current, target, (target - s.current) / (frames - 1) as real, frames)
  }

  function Settle(s: RampState): RampState {
    RampState(s.target, s.target, 0.0, 0)
  }

  /** The point `k` steps of `last` along the way from one value to another. */
  function Between(from: real, to: real, k: nat, last: nat): real
    requires last > 0
  {
    from + k as real * ((to - from) / last as real)
  }

  lemma {:induction false} AimedState(s: RampState, target: real, frames: nat, k: nat)
    requires 2 <= frames && k < frames
    ensures var r := After(Aim(s, target, frames), k);
      && r.current == Between(s.current, target, k, frames - 1)
      && r.remaining == frames - k && r.target == target && r.step == Aim(s, target, frames).step
  {
    if k > 0 {
      AimedState(s, target, frames, k - 1);
    }
  }

  lemma {:induction false} Remaining(s: RampState, k: nat)
    ensures After(s, k).remaining == (if k < s.remaining then s.remaining - k else 0)
    ensures After(s, k).target == s.target
    ensures s.remaining == 0 ==> After(s, k) == s
    ensures 0 < s.remaining <= k ==> After(s, k).current == s.target
  {
    if k > 0 {
      Remaining(s, k - 1);
    }
  }

  /** A ramp of n >= 2 frames emits n evenly spaced values, the old value first and the
      target last, and stays on the target for ever after. A shorter ramp jumps. */
  lemma RampEmits(s: RampState, target: real, frames: nat, k: nat)
    ensures After(Aim(s, target, frames), k).current ==
      if frames <= 1 || frames <= k then target else Between(s.current, target, k, frames - 1)
    ensures After(Aim(s, target, frames), k).remaining == 0 <==> frames <= 1 || frames <= k
    ensures After(Aim(s, target, frames), k).target == target
  {
    Remaining(Aim(s, target, frames), k);
    if 2 <= frames && k < frames {
      AimedState(s, target, frames, k);
    }
  }

  /** A settled ramp is at what it was aimed at, and stays there. */
  lemma SettledStays(s: RampState, k: nat)
    ensures var r := After(Settle(s), k); r.current == s.target == r.target && r.remaining == 0 && r == Settle(s)
  {
    Remaining(Settle(s), k);
  }

  lemma Shrink(distance: real, fraction: real)
    requires 0.0 <= fraction <= 1.0
    ensures 0.0 <= distance ==> 0.0 <= fraction * distance <= distance
    ensures distance <= 0.0 ==> distance <= fraction * distance <= 0.0
  {
    assert 0.0 <= distance ==> (1.0 - fraction) * distance >= 0.0;
    assert distance <= 0.0 ==> (1.0 - fraction) * distance <= 0.0;
  }

  lemma FractionOf(distance: real, k: nat, last: nat)
    requires last > 0 && k <= last
    ensures var part := k as real * (distance / last as real);
      (0.0 <= distance ==> 0.0 <= part <= distance) && (distance <= 0.0 ==> distance <= part <= 0.0)
  {
    var fraction := k as real / last as real;
    assert k as real * (distance / last as real) == fraction * distance;
    Shrink(distance, fraction);
  }

  lemma BetweenStaysInside(from: real, to: real, k: nat, last: nat, low: real, high: real)
    requires last > 0 && k <= last
    requires low <= from <= high && low <= to <= high
    ensures low <= Between(from, to, k, last) <= high
  {
    FractionOf(to - from, k, last);
  }

  /** No emitted value leaves the range spanned by the old value and the target. */
  lemma RampStaysInside(s: RampState, target: real, frames: nat, k: nat, low: real, high: real)
    requires low <= s.current <= high && low <= target <= high
    ensures low <= After(Aim(s, target, frames), k).current <= high
  {
    RampEmits(s, target, frames, k);
    if 2 <= frames && k < frames {
      BetweenStaysInside(s.current, target, k, frames - 1, low, high);
    }
  }

  class Ramp {
    var current: real
    var target: real
    var step: real
    var remaining: nat

    ghost function State(): RampState
      reads this
    {
      RampState(current, target, step, remaining)
    }

    constructor (initial: real)
      ensures State() == RampState(initial, initial, 0.0, 0)
    {
      current, target, step, remaining := initial, initial, 0.0, 0;
    }

    method SetTarget(target: real, frames: nat)
      modifies this
      ensures State() == Aim(old(State()), target, frames)
    {
      this.target := target;
      if frames <= 1 {
        current := target;
        step := 0.0;
        remaining := 0;
        return;
      }
      step := (target - current) / (frames - 1) as real;
      remaining := frames;
    }

    method NextValue() returns (value: real)
      modifies this
      ensures value == old(current) && State() == Next(old(State()))
    {
      value := current;
      if remaining > 0 {
        remaining := remaining - 1;
        if remaining == 0 {
          current := target;
        } else {
          current := current + step;
        }
      }
    }

    method SettleNow()
      modifies this
      ensures State() == Settle(old(State()))
    {
      current := target;
      step := 0.0;
      remaining := 0;
    }

    /** Scales whole interleaved frames in place: every channel of a frame gets the same
        gain, frame f the f-th value of the ramp, and the result is clipped. */
    method ApplyInterleaved(samples: array<real>, channels: nat) returns (r: Result<()>)
      modifies this, samples
      ensures r.Ok? <==> channels > 0 && samples.Length % channels == 0
      ensures r.Err? ==> r.error == InvalidInterleavedBlock(samples.Length, channels)
      ensures r.Err? ==> State() == old(State()) && samples[..] == old(samples[..])
      ensures r.Ok? ==> State() == After(old(State()), FrameOf(samples.Length, channels))
      ensures r.Ok? ==> forall i :: 0 <= i < samples.Length ==>
        samples[i] == Scaled(old(samples[..]), old(State()), channels, i)
    {
      if channels == 0 || samples.Length % channels != 0 {
        return Err(InvalidInterleavedBlock(samples.Length, channels));
      }
      hide Amplified, FrameOf;
      ghost var was, start := samples[..], State();
      ghost var frame := 0;
      FrameOfIsDivision(samples.Length, channels);
      var offset := 0;
      while offset < samples.Length
        invariant offset <= samples.Length && WholeFrames(offset, samples.Length, channels)
        invariant FrameOf(offset, channels) == frame
        invariant State() == After(start, frame)
        invariant forall i :: 0 <= i < offset ==> samples[i] == Scaled(was, start, channels, i)
        invariant forall i :: offset <= i < samples.Length ==> samples[i] == was[i]
      {
        var gain := NextValue();
        NextFrame(offset, samples.Length, channels);
        ScaleFrame(samples, offset, channels, gain);
        forall i | offset <= i < offset + channels
          ensures samples[i] == Scaled(was, start, channels, i)
        {
          SameFrame(offset, i, channels);
        }
        offset := offset + channels;
        frame := frame + 1;
      }
      return Ok(());
    }

    static method ScaleFrame(samples: array<real>, offset: nat, channels: nat, gain: real)
      requires offset + channels <= samples.Length
      modifies samples
      ensures forall i :: offset <= i < offset + channels ==> samples[i] == Amplified(old(samples[i]), gain)
      ensures forall i :: 0 <= i < samples.Length && !(offset <= i < offset + channels) ==>
        samples[i] == old(samples[i])
    {
      for channel := 0 to channels
        invariant forall i :: offset <= i < offset + channel ==> samples[i] == Amplified(old(samples[i]), gain)
        invariant forall i :: 0 <= i < samples.Length && !(offset <= i < offset + channel) ==>
          samples[i] == old(samples[i])
      {
        samples[offset + channel] := Clip(samples[offset + channel] * gain);
      }
    }
  }

  function Amplified(sample: real, gain: real): real {
    Clip(sample * gain)
  }

  /** A scaled sample is the product where that is within the ceiling, and the ceiling beyond. */
  lemma AmplifiedIs(sample: real, gain: real, product: real)
    requires product == sample * gain
    ensures Amplified(sample, gain) == if 1.0 <= product then 1.0 else if -1.0 <= product then product else -1.0
  {
  }

  /** Sample `i` of a block, scaled by the gain of the frame it belongs to and clipped. */
  function Scaled(block: seq<real>, start: RampState, channels: nat, i: nat): real
    requires i < |block| && channels > 0
  {
    Amplified(block[i], After(start, FrameOf(i, channels)).current)
  }

  /** The frame an interleaved sample belongs to. */
  function FrameOf(i: nat, channels: nat): nat
    requires channels > 0
  {
    if i < channels then 0 else 1 + FrameOf(i - channels, channels)
  }

  /** The samples from `offset` to `end` are whole frames starting on a frame boundary. */
  ghost predicate WholeFrames(offset: nat, end: nat, channels: nat)
    requires offset <= end && channels > 0
  {
    IsBoundary(offset, channels) && IsBoundary(end, channels)
  }

  ghost predicate IsBoundary(offset: nat, channels: nat)
    requires channels > 0
  {
    offset == 0 || (channels <= offset && IsBoundary(offset - channels, channels))
  }

  lemma {:induction false} FrameOfIsDivision(i: nat, channels: nat)
    requires channels > 0
    ensures FrameOf(i, channels) == i / channels
    ensures IsBoundary(i, channels) <==> i % channels == 0
  {
    if i >= channels {
      FrameOfIsDivision(i - channels, channels);
      OneLess(i, channels);
    } else {
      Small(i, channels);
    }
  }

  lemma Small(i: nat, channels: nat)
    requires i < channels
    ensures i / channels == 0 && i % channels == i
  {
  }

  lemma OneLess(i: nat, channels: nat)
    requires 0 < channels <= i
    ensures i / channels == (i - channels) / channels + 1
    ensures i % channels == (i - channels) % channels
  {
    var q, r := (i - channels) / channels, (i - channels) % channels;
    assert i == (q + 1) * channels + r;
    var p := i / channels;
    if p < q + 1 {
      Product(p, q + 1, channels);
      assert false;
    } else if p > q + 1 {
      Product(q + 1, p, channels);
      assert false;
    }
  }

  lemma Product(low: nat, high: nat, size: nat)
    requires low < high
    ensures low * size + size <= high * size
  {
    assert high * size == low * size + size + (high - low - 1) * size;
  }

  lemma {:induction false} NextFrame(offset: nat, end: nat, channels: nat)
    requires channels > 0 && offset < end && WholeFrames(offset, end, channels)
    ensures offset + channels <= end && WholeFrames(offset + channels, end, channels)
    ensures FrameOf(offset + channels, channels) == FrameOf(offset, channels) + 1
  {
    if offset > 0 {
      NextFrame(offset - channels, end - channels, channels);
    }
  }

  lemma {:induction false} SameFrame(offset: nat, i: nat, channels: nat)
    requires channels > 0 && IsBoundary(offset, channels) && offset <= i < offset + channels
    ensures FrameOf(i, channels) == FrameOf(offset, channels)
  {
    if offset > 0 {
      SameFrame(offset - channels, i - channels, channels);
    }
  }
}
