/** Input validation and the output ceiling shared by every audio stage
    (crates/pepeaudio-audio/src/signal.rs).

    A finite f32 is a real number; NaN and the infinities are one value, `NonFinite`. */
module Signal {
  datatype Sample = Finite(value: real) | NonFinite

  datatype DspError =
    | NonFiniteInput(index: nat)
    | InputSampleTooLarge(index: nat, actual: real)
    | BlockLengthMismatch(input: nat, output: nat)
    | OddStereoBlock(samples: nat)
    | BlockTooLarge(frames: nat, maximum: nat)
    | InvalidInterleavedBlock(samples: nat, channels: nat)
    | PresetTransitionInProgress
    | RendererModeMismatch
    | OrbitModeRequired
    | EmptyImpulse
    | NonFiniteImpulse(index: nat)
    | ImpulseSampleTooLarge(index: nat, actual: real)
    | ImpulseGainTooLarge(actual: real)

  datatype Result<+T> = Ok(value: T) | Err(error: DspError)

  const MAX_ABS_INPUT_SAMPLE := 4.0
  const MAX_ABS_OUTPUT_SAMPLE := 1.0

  function Abs(x: real): real {
    if x < 0.0 then -x else x
  }

  predicate Accepted(sample: Sample) {
    sample.Finite? && Abs(sample.value) <= MAX_ABS_INPUT_SAMPLE
  }

  ghost predicate AllAccepted(samples: seq<Sample>) {
    forall i :: 0 <= i < |samples| ==> Accepted(samples[i])
  }

  /** The error reported for a sample that is not accepted. */
  function RejectionOf(index: nat, sample: Sample): DspError {
    if sample.NonFinite? then NonFiniteInput(index) else InputSampleTooLarge(index, Abs(sample.value))
  }

  ghost predicate FirstRejected(samples: seq<Sample>, index: int) {
    0 <= index < |samples| && !Accepted(samples[index]) && AllAccepted(samples[..index])
  }

  /** Succeeds exactly when every sample is accepted; otherwise names the first one that is not. */
  method ValidateInput(samples: array<Sample>) returns (r: Result<()>)
    ensures r.Ok? <==> AllAccepted(samples[..])
    ensures r.Err? ==> exists i :: FirstRejected(samples[..], i) && r.error == RejectionOf(i, samples[i])
  {
    for index := 0 to samples.Length
      invariant AllAccepted(samples[..index])
    {
      var sample := samples[index];
      assert samples[..index] == samples[..][..index];
      if sample.NonFinite? {
        return Err(NonFiniteInput(index));
      }
      if Abs(sample.value) > MAX_ABS_INPUT_SAMPLE {
        return Err(InputSampleTooLarge(index, Abs(sample.value)));
      }
    }
    assert samples[..samples.Length] == samples[..];
    return Ok(());
  }

  /** Reports the frame count of a block pair that can be processed. The checks run in
      this order: lengths, whole frames, sample values. */
  method ValidateStereoBlocks(input: array<Sample>, output: array<real>) returns (r: Result<nat>)
    ensures r.Ok? <==> input.Length == output.Length && input.Length % 2 == 0 && AllAccepted(input[..])
    ensures r.Ok? ==> 2 * r.value == input.Length
    ensures input.Length != output.Length ==> r == Err(BlockLengthMismatch(input.Length, output.Length))
    ensures input.Length == output.Length && input.Length % 2 != 0 ==> r == Err(OddStereoBlock(input.Length))
    ensures input.Length == output.Length && input.Length % 2 == 0 && r.Err? ==>
      exists i :: FirstRejected(input[..], i) && r.error == RejectionOf(i, input[i])
  {
    if input.Length != output.Length {
      return Err(BlockLengthMismatch(input.Length, output.Length));
    }
    if input.Length % 2 != 0 {
      return Err(OddStereoBlock(input.Length));
    }
    var valid := ValidateInput(input);
    if valid.Err? {
      return Err(valid.error);
    }
    return Ok(input.Length / 2);
  }

  /** The hard clip applied before PCM leaves the crate: the nearest value in the
      permitted range (see ClipIsNearest), so samples already inside it are untouched. */
  function Clip(sample: real): (r: real)
    ensures Abs(r) <= MAX_ABS_OUTPUT_SAMPLE
    ensures Abs(sample) <= MAX_ABS_OUTPUT_SAMPLE ==> r == sample
  {
    if sample < -MAX_ABS_OUTPUT_SAMPLE then -MAX_ABS_OUTPUT_SAMPLE
    else if sample > MAX_ABS_OUTPUT_SAMPLE then MAX_ABS_OUTPUT_SAMPLE
    else sample
  }

  /** The guards in figures: inputs up to four in either direction, outputs up to one; what is
      refused is reported as not finite, or with its size. */
  lemma GuardsAre(x: real, index: nat)
    ensures Accepted(Finite(x)) <==> -4.0 <= x <= 4.0
    ensures !Accepted(NonFinite) && RejectionOf(index, NonFinite) == NonFiniteInput(index)
    ensures RejectionOf(index, Finite(x)) == InputSampleTooLarge(index, if 0.0 <= x then x else -x)
    ensures Clip(x) == if 1.0 <= x then 1.0 else if -1.0 <= x then x else -1.0
  {
  }

  lemma ClipIsNearest(sample: real, other: real)
    requires Abs(other) <= MAX_ABS_OUTPUT_SAMPLE
    ensures Abs(sample - Clip(sample)) <= Abs(sample - other)
  {
  }
}
