/** The direct convolution filter: a circular history overwritten in place
    (crates/pepeaudio-audio/src/fir.rs), proved to compute causal convolution of
    everything it has been fed since it was created or reset. */
module Fir {
  import opened Signal

  const MAX_ABS_IR_SAMPLE := 16.0
  const MAX_ABSOLUTE_IR_GAIN := 256.0

  // ---------------------------------------------------------------- specification

  /** The input signal at time `t`; silent before the first sample and after the last. */
  function At(inputs: seq<real>, t: int): real {
    if 0 <= t < |inputs| then inputs[t] else 0.0
  }

  /** The first `taps` terms of the convolution sum at time `t`. */
  function PartialConvolution(impulse: seq<real>, inputs: seq<real>, t: int, taps: nat): real
    requires taps <= |impulse|
  {
    if taps == 0 then 0.0
    else PartialConvolution(impulse, inputs, t, taps - 1) + impulse[taps - 1] * At(inputs, t - (taps - 1))
  }

  /** Output at time `t`: the sum over k of impulse[k] * inputs[t - k]. */
  function Convolution(impulse: seq<real>, inputs: seq<real>, t: int): real {
    PartialConvolution(impulse, inputs, t, |impulse|)
  }

  function AbsoluteGain(impulse: seq<real>, taps: nat): real
    requires taps <= |impulse|
  {
    if taps == 0 then 0.0 else AbsoluteGain(impulse, taps - 1) + Abs(impulse[taps - 1])
  }

  ghost predicate ValidImpulse(impulse: seq<real>) {
    && impulse != []
    && (forall i :: 0 <= i < |impulse| ==> Abs(impulse[i]) <= MAX_ABS_IR_SAMPLE)
    && AbsoluteGain(impulse, |impulse|) <= MAX_ABSOLUTE_IR_GAIN
  }

  function Values(samples: seq<Sample>): (r: seq<real>)
    requires forall i :: 0 <= i < |samples| ==> samples[i].Finite?
    ensures |r| == |samples|
    ensures forall i :: 0 <= i < |r| ==> r[i] == samples[i].value
  {
    seq(|samples|, i requires 0 <= i < |samples| => samples[i].value)
  }

  // ---------------------------------------------------------------- properties of convolution

  /** Only the past matters: later samples do not change the output at time `t`. */
  lemma {:induction false} PartialConvolutionIsCausal(impulse: seq<real>, past: seq<real>, future: seq<real>, t: int,
        taps: nat)
    requires taps <= |impulse| && t < |past|
    ensures PartialConvolution(impulse, past + future, t, taps) == PartialConvolution(impulse, past, t, taps)
  {
    if taps > 0 {
      PartialConvolutionIsCausal(impulse, past, future, t, taps - 1);
    }
  }

  lemma ConvolutionIsCausal(impulse: seq<real>, past: seq<real>, future: seq<real>, t: int)
    requires t < |past|
    ensures Convolution(impulse, past + future, t) == Convolution(impulse, past, t)
  {
    PartialConvolutionIsCausal(impulse, past, future, t, |impulse|);
  }

  /** A unit sample at the start of a silent signal is answered by the impulse itself. */
  lemma {:induction false} PartialImpulseResponse(impulse: seq<real>, silence: nat, t: nat, taps: nat)
    requires taps <= |impulse|
    ensures var unit := [1.0] + seq(silence, _ => 0.0);
      PartialConvolution(impulse, unit, t, taps) == if t < taps then impulse[t] else 0.0
  {
    if taps > 0 {
      PartialImpulseResponse(impulse, silence, t, taps - 1);
      var unit := [1.0] + seq(silence, _ => 0.0);
      assert At(unit, t - (taps - 1)) == if t == taps - 1 then 1.0 else 0.0;
    }
  }

  lemma ImpulseResponse(impulse: seq<real>, silence: nat, t: nat)
    ensures Convolution(impulse, [1.0] + seq(silence, _ => 0.0), t) == if t < |impulse| then impulse[t] else 0.0
  {
    PartialImpulseResponse(impulse, silence, t, |impulse|);
  }

  lemma AbsProduct(x: real, y: real, bound: real)
    requires Abs(y) <= bound
    ensures Abs(x * y) <= Abs(x) * bound
  {
    assert Abs(x * y) == Abs(x) * Abs(y);
    assert Abs(x) * Abs(y) <= Abs(x) * bound;
  }

  lemma AddTerm(sum: real, limit: real, x: real, y: real)
    requires Abs(sum) <= limit && Abs(y) <= MAX_ABS_INPUT_SAMPLE
    ensures Abs(sum + x * y) <= limit + Abs(x) * MAX_ABS_INPUT_SAMPLE
  {
    AbsProduct(x, y, MAX_ABS_INPUT_SAMPLE);
  }

  lemma Distribute(gain: real, more: real)
    ensures (gain + more) * MAX_ABS_INPUT_SAMPLE == gain * MAX_ABS_INPUT_SAMPLE + more * MAX_ABS_INPUT_SAMPLE
  {
  }

  lemma AtIsBounded(inputs: seq<real>, i: int)
    requires forall i :: 0 <= i < |inputs| ==> Abs(inputs[i]) <= MAX_ABS_INPUT_SAMPLE
    ensures Abs(At(inputs, i)) <= MAX_ABS_INPUT_SAMPLE
  {
  }

  lemma {:induction false} PartialConvolutionIsBounded(impulse: seq<real>, inputs: seq<real>, t: int, taps: nat)
    requires taps <= |impulse|
    requires forall i :: 0 <= i < |inputs| ==> Abs(inputs[i]) <= MAX_ABS_INPUT_SAMPLE
    ensures Abs(PartialConvolution(impulse, inputs, t, taps)) <= AbsoluteGain(impulse, taps) * MAX_ABS_INPUT_SAMPLE
  {
    if taps > 0 {
      hide Abs;
      PartialConvolutionIsBounded(impulse, inputs, t, taps - 1);
      Distribute(AbsoluteGain(impulse, taps - 1), Abs(impulse[taps - 1]));
      assert Abs(At(inputs, t - (taps - 1))) <= MAX_ABS_INPUT_SAMPLE by { AtIsBounded(inputs, t - (taps - 1)); }
      AddTerm(PartialConvolution(impulse, inputs, t, taps - 1), AbsoluteGain(impulse, taps - 1) * MAX_ABS_INPUT_SAMPLE,
              impulse[taps - 1], At(inputs, t - (taps - 1)));
    }
  }

  /** The construction guards and the input guard bound every output by 4 * 256. */
  lemma ConvolutionIsBounded(impulse: seq<real>, inputs: seq<real>, t: int)
    requires ValidImpulse(impulse)
    requires forall i :: 0 <= i < |inputs| ==> Abs(inputs[i]) <= MAX_ABS_INPUT_SAMPLE
    ensures Abs(Convolution(impulse, inputs, t)) <= MAX_ABS_INPUT_SAMPLE * MAX_ABSOLUTE_IR_GAIN
  {
    PartialConvolutionIsBounded(impulse, inputs, t, |impulse|);
  }

  /** The input that is loudest for the output at time n - 1: the signs of the impulse, last
      coefficient first. */
  function Loudest(impulse: seq<real>): (inputs: seq<real>)
    ensures |inputs| == |impulse|
  {
    seq(|impulse|, t requires 0 <= t < |impulse| => if impulse[|impulse| - 1 - t] < 0.0 then -1.0 else 1.0)
  }

  lemma {:induction false} PartialGainIsReached(impulse: seq<real>, taps: nat)
    requires taps <= |impulse|
    ensures PartialConvolution(impulse, Loudest(impulse), |impulse| - 1, taps) == AbsoluteGain(impulse, taps)
  {
    if taps > 0 {
      PartialGainIsReached(impulse, taps - 1);
      var x := impulse[taps - 1];
      assert At(Loudest(impulse), |impulse| - 1 - (taps - 1)) == if x < 0.0 then -1.0 else 1.0;
      assert x * -1.0 == -x && x * 1.0 == x;
    }
  }

  /** The absolute gain is what it is called: some input of size one brings the output to it, so
      the guard refuses nothing that could not get louder than it allows. */
  lemma GainIsReached(impulse: seq<real>)
    ensures Convolution(impulse, Loudest(impulse), |impulse| - 1) == AbsoluteGain(impulse, |impulse|)
    ensures forall t :: 0 <= t < |impulse| ==> Abs(Loudest(impulse)[t]) == 1.0
  {
    PartialGainIsReached(impulse, |impulse|);
  }

  // ---------------------------------------------------------------- construction guard

  /** The coefficients of an impulse response whose entries are all finite. */
  ghost predicate Describes(samples: seq<Sample>, impulse: seq<real>) {
    |samples| == |impulse| && forall i :: 0 <= i < |samples| ==> samples[i] == Finite(impulse[i])
  }

  /** The first coefficient that is not finite or too large is named, with its size; only where
      there is none, the gain of all of them. */
  ghost predicate Faulty(samples: seq<Sample>, error: DspError) {
    match error
    case NonFiniteImpulse(i) => i < |samples| && FineUpTo(samples, i) && samples[i].NonFinite?
    case ImpulseSampleTooLarge(i, size) =>
      i < |samples| && FineUpTo(samples, i) && samples[i].Finite? && size == Abs(samples[i].value) > MAX_ABS_IR_SAMPLE
    case ImpulseGainTooLarge(gain) =>
      FineUpTo(samples, |samples|) && exists impulse ::
        Describes(samples, impulse) && gain == AbsoluteGain(impulse, |impulse|) > MAX_ABSOLUTE_IR_GAIN
    case _ => false
  }

  ghost predicate FineUpTo(samples: seq<Sample>, end: nat)
    requires end <= |samples|
  {
    forall i :: 0 <= i < end ==> samples[i].Finite? && Abs(samples[i].value) <= MAX_ABS_IR_SAMPLE
  }

  /** Accepts exactly the impulses within the coefficient and absolute-gain guards. */
  method ValidateImpulse(samples: array<Sample>) returns (r: Result<seq<real>>)
    ensures r.Ok? <==> exists impulse :: Describes(samples[..], impulse) && ValidImpulse(impulse)
    ensures r.Ok? ==> Describes(samples[..], r.value) && ValidImpulse(r.value)
    ensures r == Err(EmptyImpulse) <==> samples.Length == 0
    ensures r.Err? && samples.Length > 0 ==> Faulty(samples[..], r.error)
  {
    if samples.Length == 0 {
      return Err(EmptyImpulse);
    }
    var gain, impulse := 0.0, [];
    for index := 0 to samples.Length
      invariant Describes(samples[..index], impulse)
      invariant forall i :: 0 <= i < index ==> Abs(impulse[i]) <= MAX_ABS_IR_SAMPLE
      invariant gain == AbsoluteGain(impulse, index) && FineUpTo(samples[..], index)
    {
      var coefficient := samples[index];
      if coefficient.NonFinite? {
        return Err(NonFiniteImpulse(index));
      }
      if Abs(coefficient.value) > MAX_ABS_IR_SAMPLE {
        assert forall other :: Describes(samples[..], other) ==> Finite(other[index]) == coefficient;
        return Err(ImpulseSampleTooLarge(index, Abs(coefficient.value)));
      }
      AbsoluteGainPrefix(impulse, [coefficient.value], index);
      impulse := impulse + [coefficient.value];
      gain := gain + Abs(coefficient.value);
    }
    assert samples[..samples.Length] == samples[..];
    assert forall other :: Describes(samples[..], other) ==> other == impulse by {
      forall other | Describes(samples[..], other) ensures other == impulse {
        assert forall i :: 0 <= i < |other| ==> Finite(other[i]) == samples[..][i] == Finite(impulse[i]);
      }
    }
    if gain > MAX_ABSOLUTE_IR_GAIN {
      return Err(ImpulseGainTooLarge(gain));
    }
    return Ok(impulse);
  }

  lemma {:induction false} AbsoluteGainPrefix(impulse: seq<real>, more: seq<real>, taps: nat)
    requires taps <= |impulse|
    ensures AbsoluteGain(impulse + more, taps) == AbsoluteGain(impulse, taps)
  {
    if taps > 0 {
      AbsoluteGainPrefix(impulse, more, taps - 1);
    }
  }

  // ---------------------------------------------------------------- circular buffer

  /** The slot holding the sample written `age` steps before slot `write`. */
  function Slot(write: nat, age: nat, size: nat): (slot: nat)
    requires write < size && age < size
    ensures slot < size
    ensures slot == (write + size - age) % size
  {
    if age <= write then
      Quotient(write + size - age, size, 1, write - age);
      write - age
    else
      Quotient(write + size - age, size, 0, write + size - age);
      write + size - age
  }

  lemma Quotient(x: nat, size: nat, quotient: nat, remainder: nat)
    requires size > 0 && x == quotient * size + remainder && remainder < size
    ensures x / size == quotient && x % size == remainder
  {
    var q := x / size;
    if q < quotient {
      NextMultiple(q, quotient, size);
      assert false;
    } else if q > quotient {
      NextMultiple(quotient, q, size);
      assert false;
    }
  }

  lemma NextMultiple(low: nat, high: nat, size: nat)
    requires low < high
    ensures low * size + size <= high * size
  {
    assert high * size == low * size + size + (high - low - 1) * size;
  }

  /** Walking back `age` steps from slot `write` meets sample `last - age`. */
  ghost predicate HistoryHolds(slots: seq<real>, write: nat, inputs: seq<real>, last: int, oldest: nat)
    requires write < |slots|
  {
    forall age {:trigger Slot(write, age, |slots|)} :: oldest <= age < |slots| ==>
      slots[Slot(write, age, |slots|)] == At(inputs, last - age)
  }

  lemma Record(slots: seq<real>, write: nat, inputs: seq<real>, input: real)
    requires write < |slots|
    requires HistoryHolds(slots, write, inputs, |inputs|, 1)
    ensures HistoryHolds(slots[write := input], write, inputs + [input], |inputs|, 0)
  {
    forall age | 0 <= age < |slots|
      ensures slots[write := input][Slot(write, age, |slots|)] == At(inputs + [input], |inputs| - age)
    {
    }
  }

  lemma Advance(slots: seq<real>, write: nat, inputs: seq<real>)
    requires write < |slots| && inputs != []
    requires HistoryHolds(slots, write, inputs, |inputs| - 1, 0)
    ensures (write + 1) % |slots| < |slots|
    ensures HistoryHolds(slots, (write + 1) % |slots|, inputs, |inputs|, 1)
  {
    var size := |slots|;
    if write + 1 < size {
      Quotient(write + 1, size, 0, write + 1);
    } else {
      Quotient(write + 1, size, 1, 0);
    }
    forall age {:trigger Slot((write + 1) % size, age, size)} | 1 <= age < size
      ensures slots[Slot((write + 1) % size, age, size)] == At(inputs, |inputs| - age)
    {
      assert Slot((write + 1) % size, age, size) == Slot(write, age - 1, size);
    }
  }

  class DirectFir {
    const impulse: seq<real>
    const history: array<real>
    var writeIndex: nat
    /** Every sample accepted since construction or the last reset. */
    ghost var inputs: seq<real>

    /** The slot to be written next is the oldest; walking back from it meets the
        samples newest first, with silence before the first one. */
    ghost predicate Valid()
      reads this, history
    {
      && impulse != []
      && history.Length == |impulse|
      && writeIndex < history.Length
      && HistoryHolds(history[..], writeIndex, inputs, |inputs|, 1)
    }

    constructor (impulse: seq<real>)
      requires ValidImpulse(impulse)
      ensures Valid() && fresh(history) && this.impulse == impulse && inputs == []
      ensures writeIndex == 0 && forall i :: 0 <= i < history.Length ==> history[i] == 0.0
    {
      this.impulse := impulse;
      this.history := new real[|impulse|](_ => 0.0);
      this.writeIndex := 0;
      this.inputs := [];
    }

    /** Records one sample and answers with the convolution sum at its time. */
    method ProcessSampleValidated(input: real) returns (output: real)
      requires Valid()
      modifies this, history
      ensures Valid()
      ensures inputs == old(inputs) + [input]
      ensures output == Convolution(impulse, inputs, |inputs| - 1)
    {
      Record(history[..], writeIndex, inputs, input);
      var size := history.Length;
      history[writeIndex] := input;
      inputs := inputs + [input];
      assert history[..] == old(history[..])[writeIndex := input];
      var accumulator := 0.0;
      for tap := 0 to |impulse|
        invariant accumulator == PartialConvolution(impulse, inputs, |inputs| - 1, tap)
        modifies {}
      {
        Quotient(tap, size, 0, tap);
        var delay := tap % size;
        var index := (writeIndex + size - delay) % size;
        assert history[..][Slot(writeIndex, tap, size)] == At(inputs, |inputs| - 1 - tap);
        accumulator := impulse[tap] * history[index] + accumulator;
      }
      Advance(history[..], writeIndex, inputs);
      writeIndex := (writeIndex + 1) % size;
      output := accumulator;
    }

    /** Filters a block. Nothing changes when the block is rejected. */
    method ProcessBlock(input: array<Sample>, output: array<real>) returns (r: Result<()>)
      requires Valid() && output != history
      modifies this, history, output
      ensures Valid()
      ensures r.Ok? <==> input.Length == output.Length && AllAccepted(input[..])
      ensures r.Err? ==> inputs == old(inputs) && output[..] == old(output[..])
      ensures input.Length != output.Length ==> r == Err(BlockLengthMismatch(input.Length, output.Length))
      ensures input.Length == output.Length && r.Err? ==>
        exists i :: FirstRejected(input[..], i) && r.error == RejectionOf(i, input[i])
      ensures r.Ok? ==> inputs == old(inputs) + Values(input[..])
      ensures r.Ok? ==> forall i :: 0 <= i < output.Length ==>
        output[i] == Convolution(impulse, inputs, |old(inputs)| + i)
    {
      if input.Length != output.Length {
        return Err(BlockLengthMismatch(input.Length, output.Length));
      }
      var valid := ValidateInput(input);
      if valid.Err? {
        return Err(valid.error);
      }
      ghost var values := Values(input[..]);
      ghost var before := inputs;
      for index := 0 to input.Length
        invariant Valid()
        invariant inputs == before + values[..index]
        invariant forall i :: 0 <= i < index ==> output[i] == Convolution(impulse, before + values, |before| + i)
      {
        assert Accepted(input[..][index]);
        output[index] := ProcessSampleValidated(input[index].value);
        assert inputs == before + values[..index + 1];
        assert before + values == inputs + values[index + 1..];
        ConvolutionIsCausal(impulse, inputs, values[index + 1..], |before| + index);
      }
      assert values[..input.Length] == values;
      return Ok(());
    }

    /** Forgets the past: the filter behaves as if newly constructed. */
    method Reset()
      requires Valid()
      modifies this, history
      ensures Valid() && inputs == []
      ensures writeIndex == 0 && forall i :: 0 <= i < history.Length ==> history[i] == 0.0
    {
      forall i | 0 <= i < history.Length {
        history[i] := 0.0;
      }
      writeIndex := 0;
      inputs := [];
    }
  }
}
