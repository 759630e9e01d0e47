/** The stereo processor: two renderers, a preset cross-fade, a dry/wet mix and an
    output gain (crates/pepeaudio-audio/src/processor.rs).

    `FrameStep` is the reference: one frame in, one frame out, a preset swap the moment its
    fade ends, and no special case for a dry signal. `ProcessBlock` is the code: whole-block
    rendering into scratch arrays, a fast path when fully dry, and a swap deferred to the
    end of the block. Its contract says the two agree, output and state. */
module AudioProcessor {
  import opened Options
  import opened Sequences
  import opened Signal
  import opened Ramp

  datatype Frame = Frame(left: real, right: real)
  datatype HorizontalStereoPair = HorizontalStereoPair(leftDegrees: real, rightDegrees: real)
  datatype RenderMode = FixedFront | HorizontalOrbit(position: HorizontalStereoPair)

  /** A renderer: convolution state of some type R, and the routing it renders with. */
  datatype Renderer<R> = Renderer(core: R, mode: RenderMode)

  /** What the processor takes from outside: how a renderer consumes one frame, how it
      forgets its history, and the equal-power curve (old weight, new weight). */
  datatype Kit<!R> = Kit(
    step: (R, RenderMode, Frame) -> (R, Frame),
    clear: R -> R,
    curve: real -> (real, real))

  /** The ends of the equal-power curve in exact arithmetic. */
  ghost predicate EqualPower<R>(kit: Kit<R>) {
    kit.curve(0.0) == (1.0, 0.0) && kit.curve(1.0) == (0.0, 1.0)
  }

  /** Everything later output depends on. */
  datatype Proc<R> = Proc(
    mode: RenderMode,
    active: Renderer<R>,
    pending: Option<Renderer<R>>,
    fade: Option<RampState>,
    wet: RampState,
    gain: RampState)

  // ---------------------------------------------------------------- reference machine

  function Render<R>(kit: Kit<R>, r: Renderer<R>, x: Frame): (Renderer<R>, Frame) {
    var (core, y) := kit.step(r.core, r.mode, x);
    (Renderer(core, r.mode), y)
  }

  function Weights(curve: real -> (real, real), progress: real): (real, real) {
    curve(if progress < 0.0 then 0.0 else if progress > 1.0 then 1.0 else progress)
  }

  /** Everything that decides one output frame. */
  datatype Mix = Mix(dry: Frame, active: Frame, pending: Frame, preset: (real, real), wet: (real, real), gain: real)

  /** The two renderers' samples, cross-faded. */
  function CrossFade(active: real, pending: real, preset: (real, real)): real {
    active * preset.0 + pending * preset.1
  }

  function Finish(dry: real, rendered: real, wet: (real, real), gain: real): real {
    Clip((dry * wet.0 + rendered * wet.1) * gain)
  }

  function Blend(m: Mix): Frame {
    Frame(Finish(m.dry.left, CrossFade(m.active.left, m.pending.left, m.preset), m.wet, m.gain),
          Finish(m.dry.right, CrossFade(m.active.right, m.pending.right, m.preset), m.wet, m.gain))
  }

  function FrameMix<R>(kit: Kit<R>, p: Proc<R>, x: Frame): Mix {
    Mix(x,
        Render(kit, p.active, x).1,
        if p.pending.Some? then Render(kit, p.pending.value, x).1 else Frame(0.0, 0.0),
        if p.fade.Some? then Weights(kit.curve, p.fade.value.current) else (1.0, 0.0),
        Weights(kit.curve, p.wet.current),
        p.gain.current)
  }

  function FrameStep<R>(kit: Kit<R>, p: Proc<R>, x: Frame): Proc<R> {
    var active := Render(kit, p.active, x).0;
    var moved := p.(wet := Next(p.wet), gain := Next(p.gain));
    if p.pending.Some? && p.fade.Some? then
      var pending, fade := Render(kit, p.pending.value, x).0, Next(p.fade.value);
      if fade.remaining == 0 then moved.(active := pending, pending := None, fade := None)
      else moved.(active := active, pending := Some(pending), fade := Some(fade))
    else moved.(active := active)
  }

  function Run<R>(kit: Kit<R>, p: Proc<R>, frames: seq<Frame>): Proc<R> {
    if frames == [] then p
    else FrameStep(kit, Run(kit, p, frames[..|frames| - 1]), frames[|frames| - 1])
  }

  function Mixes<R>(kit: Kit<R>, p: Proc<R>, frames: seq<Frame>): (mixes: seq<Mix>)
    ensures |mixes| == |frames|
  {
    if frames == [] then []
    else
      var front, last := frames[..|frames| - 1], frames[|frames| - 1];
      Mixes(kit, p, front) + [FrameMix(kit, Run(kit, p, front), last)]
  }

  lemma {:induction false} MixAt<R>(kit: Kit<R>, p: Proc<R>, frames: seq<Frame>, i: nat)
    requires i < |frames|
    ensures Mixes(kit, p, frames)[i] == FrameMix(kit, Run(kit, p, frames[..i]), frames[i])
  {
    var front := frames[..|frames| - 1];
    if i < |front| {
      MixAt(kit, p, front, i);
      assert front[..i] == frames[..i];
    }
  }

  function Map<T, U>(f: T -> U, items: seq<T>): (r: seq<U>)
    ensures |r| == |items|
    ensures forall i :: 0 <= i < |items| ==> r[i] == f(items[i])
  {
    seq(|items|, i requires 0 <= i < |items| => f(items[i]))
  }

  function Outputs<R>(kit: Kit<R>, p: Proc<R>, frames: seq<Frame>): (outputs: seq<Frame>)
    ensures |outputs| == |frames|
  {
    Map(Blend, Mixes(kit, p, frames))
  }

  /** True between blocks: a fade exists exactly while a replacement is pending, still has
      frames to go, and heads for full weight; both renderers use the processor's routing. */
  ghost predicate WellFormed<R>(p: Proc<R>) {
    && p.active.mode == p.mode
    && (p.pending.Some? <==> p.fade.Some?)
    && (p.pending.Some? ==> p.pending.value.mode == p.mode)
    && (p.fade.Some? ==> p.fade.value.target == 1.0 && p.fade.value.remaining > 0)
  }

  // ---------------------------------------------------------------- splitting

  lemma {:induction false} RunAppend<R>(kit: Kit<R>, p: Proc<R>, a: seq<Frame>, b: seq<Frame>)
    ensures Run(kit, p, a + b) == Run(kit, Run(kit, p, a), b)
  {
    if b == [] {
      assert a + b == a;
    } else {
      var front := b[..|b| - 1];
      RunAppend(kit, p, a, front);
      FrontOfConcat(a, b);
    }
  }

  lemma {:induction false} MixesAppend<R>(kit: Kit<R>, p: Proc<R>, a: seq<Frame>, b: seq<Frame>)
    ensures Mixes(kit, p, a + b) == Mixes(kit, p, a) + Mixes(kit, Run(kit, p, a), b)
  {
    hide FrameStep, FrameMix;
    if b == [] {
      assert a + b == a;
    } else {
      var front := b[..|b| - 1];
      MixesAppend(kit, p, a, front);
      RunAppend(kit, p, a, front);
      FrontOfConcat(a, b);
    }
  }

  lemma MapAppend<T, U>(f: T -> U, a: seq<T>, b: seq<T>)
    ensures Map(f, a + b) == Map(f, a) + Map(f, b)
  {
  }

  lemma OutputsAppend<R>(kit: Kit<R>, p: Proc<R>, a: seq<Frame>, b: seq<Frame>)
    ensures Outputs(kit, p, a + b) == Outputs(kit, p, a) + Outputs(kit, Run(kit, p, a), b)
  {
    MixesAppend(kit, p, a, b);
    MapAppend(Blend, Mixes(kit, p, a), Mixes(kit, Run(kit, p, a), b));
  }

  function Flatten<T>(blocks: seq<seq<T>>): seq<T> {
    if blocks == [] then [] else Flatten(blocks[..|blocks| - 1]) + blocks[|blocks| - 1]
  }

  /** What a sequence of block calls leaves behind and emits. */
  function RunBlocks<R>(kit: Kit<R>, p: Proc<R>, blocks: seq<seq<Frame>>): (Proc<R>, seq<Frame>) {
    if blocks == [] then (p, [])
    else
      var (q, emitted) := RunBlocks(kit, p, blocks[..|blocks| - 1]);
      (Run(kit, q, blocks[|blocks| - 1]), emitted + Outputs(kit, q, blocks[|blocks| - 1]))
  }

  /** Block boundaries are inaudible: only the concatenation of the blocks matters. */
  lemma {:induction false} BlocksAreTransparent<R>(kit: Kit<R>, p: Proc<R>, blocks: seq<seq<Frame>>)
    ensures RunBlocks(kit, p, blocks) == (Run(kit, p, Flatten(blocks)), Outputs(kit, p, Flatten(blocks)))
  {
    if blocks != [] {
      var front, last := blocks[..|blocks| - 1], blocks[|blocks| - 1];
      BlocksAreTransparent(kit, p, front);
      RunAppend(kit, p, Flatten(front), last);
      OutputsAppend(kit, p, Flatten(front), last);
    }
  }

  lemma SplitsAgree<R>(kit: Kit<R>, p: Proc<R>, one: seq<seq<Frame>>, other: seq<seq<Frame>>)
    requires Flatten(one) == Flatten(other)
    ensures RunBlocks(kit, p, one) == RunBlocks(kit, p, other)
  {
    BlocksAreTransparent(kit, p, one);
    BlocksAreTransparent(kit, p, other);
  }

  lemma {:induction false} RunKeepsWellFormed<R>(kit: Kit<R>, p: Proc<R>, frames: seq<Frame>)
    requires WellFormed(p)
    ensures WellFormed(Run(kit, p, frames)) && Run(kit, p, frames).mode == p.mode
  {
    if frames != [] {
      RunKeepsWellFormed(kit, p, frames[..|frames| - 1]);
    }
  }

  // ---------------------------------------------------------------- block form

  function RenderAll<R>(kit: Kit<R>, r: Renderer<R>, frames: seq<Frame>): (after: Renderer<R>)
    ensures after.mode == r.mode
  {
    if frames == [] then r
    else Render(kit, RenderAll(kit, r, frames[..|frames| - 1]), frames[|frames| - 1]).0
  }

  function Rendered<R>(kit: Kit<R>, r: Renderer<R>, frames: seq<Frame>, i: nat): Frame
    requires i < |frames|
  {
    Render(kit, RenderAll(kit, r, frames[..i]), frames[i]).1
  }

  /** The reference state after a whole number of frames, in closed form: before the fade
      ends everything runs side by side; from then on the replacement runs alone. */
  function ClosedForm<R>(kit: Kit<R>, p: Proc<R>, frames: seq<Frame>): Proc<R>
    requires WellFormed(p)
  {
    var n := |frames|;
    var moved := p.(wet := After(p.wet, n), gain := After(p.gain, n));
    if p.pending.None? then moved.(active := RenderAll(kit, p.active, frames))
    else if n < p.fade.value.remaining then
      moved.(active := RenderAll(kit, p.active, frames),
             pending := Some(RenderAll(kit, p.pending.value, frames)),
             fade := Some(After(p.fade.value, n)))
    else moved.(active := RenderAll(kit, p.pending.value, frames), pending := None, fade := None)
  }

  lemma {:induction false} RunInClosedForm<R>(kit: Kit<R>, p: Proc<R>, frames: seq<Frame>)
    requires WellFormed(p)
    ensures Run(kit, p, frames) == ClosedForm(kit, p, frames)
  {
    if frames != [] {
      var front := frames[..|frames| - 1];
      RunInClosedForm(kit, p, front);
      if p.pending.Some? {
        Remaining(p.fade.value, |front|);
      }
    }
  }

  /** After a block, before the deferred swap: everything has simply moved on. */
  function SideBySide<R>(kit: Kit<R>, p: Proc<R>, frames: seq<Frame>): Proc<R> {
    Proc(p.mode, RenderAll(kit, p.active, frames),
         if p.pending.None? then None else Some(RenderAll(kit, p.pending.value, frames)),
         if p.fade.None? then None else Some(After(p.fade.value, |frames|)),
         After(p.wet, |frames|), After(p.gain, |frames|))
  }

  /** The swap at the end of a block. */
  function Commit<R>(p: Proc<R>): Proc<R> {
    if p.fade.Some? && p.fade.value.remaining == 0 then
      p.(active := if p.pending.Some? then p.pending.value else p.active, pending := None, fade := None)
    else p
  }

  lemma CommitCatchesUp<R>(kit: Kit<R>, p: Proc<R>, frames: seq<Frame>)
    requires WellFormed(p)
    ensures Commit(SideBySide(kit, p, frames)) == Run(kit, p, frames)
    ensures WellFormed(Run(kit, p, frames))
  {
    RunInClosedForm(kit, p, frames);
    RunKeepsWellFormed(kit, p, frames);
    if p.fade.Some? {
      Remaining(p.fade.value, |frames|);
    }
  }

  /** What the block loop mixes at index `i`: the fade weights keep following the ramp to
      the end of the block even when the fade ends inside it, and with no replacement
      pending the second input is whatever the scratch array still holds. */
  function LoopMix<R>(kit: Kit<R>, p: Proc<R>, frames: seq<Frame>, i: nat, idle: Frame): Mix
    requires i < |frames|
  {
    Mix(frames[i],
        Rendered(kit, p.active, frames, i),
        if p.pending.Some? then Rendered(kit, p.pending.value, frames, i) else idle,
        if p.fade.Some? then Weights(kit.curve, After(p.fade.value, i).current) else (1.0, 0.0),
        Weights(kit.curve, After(p.wet, i).current),
        After(p.gain, i).current)
  }

  /** Two mixes that sound the same: the silent renderer of each may differ. */
  ghost predicate Alike(loop: Mix, reference: Mix) {
    && loop.dry == reference.dry && loop.wet == reference.wet && loop.gain == reference.gain
    && (|| loop == reference
        || (loop.preset == reference.preset == (1.0, 0.0) && loop.active == reference.active)
        || (loop.preset == (0.0, 1.0) && reference.preset == (1.0, 0.0) && loop.pending == reference.active))
  }

  lemma CrossFadeEnds(audible: real, silent: real)
    ensures CrossFade(audible, silent, (1.0, 0.0)) == audible
    ensures CrossFade(silent, audible, (0.0, 1.0)) == audible
  {
  }

  lemma AlikeBlendsAlike(loop: Mix, reference: Mix)
    requires Alike(loop, reference)
    ensures Blend(loop) == Blend(reference)
  {
    if loop.preset == (1.0, 0.0) {
      CrossFadeEnds(loop.active.left, loop.pending.left);
      CrossFadeEnds(loop.active.right, loop.pending.right);
      CrossFadeEnds(reference.active.left, reference.pending.left);
      CrossFadeEnds(reference.active.right, reference.pending.right);
    } else if loop.preset == (0.0, 1.0) {
      CrossFadeEnds(loop.pending.left, loop.active.left);
      CrossFadeEnds(loop.pending.right, loop.active.right);
      CrossFadeEnds(reference.active.left, reference.pending.left);
      CrossFadeEnds(reference.active.right, reference.pending.right);
    }
  }

  lemma LoopMixIsAlike<R>(kit: Kit<R>, p: Proc<R>, frames: seq<Frame>, i: nat, idle: Frame)
    requires EqualPower(kit) && WellFormed(p) && i < |frames|
    ensures Alike(LoopMix(kit, p, frames, i, idle), Mixes(kit, p, frames)[i])
  {
    MixAt(kit, p, frames, i);
    RunInClosedForm(kit, p, frames[..i]);
    if p.pending.Some? {
      Remaining(p.fade.value, i);
    }
  }

  /** Deferring the swap, and whatever the idle scratch holds, cannot be heard. */
  lemma LoopMatchesReference<R>(kit: Kit<R>, p: Proc<R>, frames: seq<Frame>, i: nat, idle: Frame)
    requires EqualPower(kit) && WellFormed(p) && i < |frames|
    ensures Blend(LoopMix(kit, p, frames, i, idle)) == Outputs(kit, p, frames)[i]
  {
    LoopMixIsAlike(kit, p, frames, i, idle);
    AlikeBlendsAlike(LoopMix(kit, p, frames, i, idle), Mixes(kit, p, frames)[i]);
  }

  lemma DryMix<R>(kit: Kit<R>, p: Proc<R>, frames: seq<Frame>, i: nat)
    requires EqualPower(kit) && WellFormed(p) && i < |frames|
    requires p.pending.None? && p.wet.remaining == 0 && p.wet.current == 0.0
    ensures var m := Mixes(kit, p, frames)[i];
      m.dry == frames[i] && m.preset == (1.0, 0.0) && m.wet == (1.0, 0.0) && m.gain == After(p.gain, i).current
  {
    MixAt(kit, p, frames, i);
    RunInClosedForm(kit, p, frames[..i]);
    Remaining(p.wet, i);
  }

  function Scale(x: Frame, gain: real): Frame {
    Frame(Clip(x.left * gain), Clip(x.right * gain))
  }

  lemma DryFinish(dry: real, rendered: real, gain: real)
    ensures Finish(dry, rendered, (1.0, 0.0), gain) == Clip(dry * gain)
  {
    assert dry * 1.0 + rendered * 0.0 == dry;
  }

  lemma BlendChannels(m: Mix) returns (left: real, right: real)
    ensures Blend(m) == Frame(left, right)
    ensures left == Finish(m.dry.left, CrossFade(m.active.left, m.pending.left, m.preset), m.wet, m.gain)
    ensures right == Finish(m.dry.right, CrossFade(m.active.right, m.pending.right, m.preset), m.wet, m.gain)
  {
    left, right := Blend(m).left, Blend(m).right;
  }

  lemma DryChannels(dry: Frame, active: Frame, pending: Frame, gain: real) returns (left: real, right: real)
    ensures Blend(Mix(dry, active, pending, (1.0, 0.0), (1.0, 0.0), gain)) == Frame(left, right)
    ensures left == Clip(dry.left * gain) && right == Clip(dry.right * gain)
  {
    DryFinish(dry.left, CrossFade(active.left, pending.left, (1.0, 0.0)), gain);
    DryFinish(dry.right, CrossFade(active.right, pending.right, (1.0, 0.0)), gain);
    left, right := BlendChannels(Mix(dry, active, pending, (1.0, 0.0), (1.0, 0.0), gain));
  }

  lemma DryBlend(dry: Frame, active: Frame, pending: Frame, gain: real)
    ensures Blend(Mix(dry, active, pending, (1.0, 0.0), (1.0, 0.0), gain)) == Scale(dry, gain)
  {
    var left, right := DryChannels(dry, active, pending, gain);
  }

  /** A settled, fully dry processor only scales its input. */
  lemma DryMatchesReference<R>(kit: Kit<R>, p: Proc<R>, frames: seq<Frame>, i: nat)
    requires EqualPower(kit) && WellFormed(p) && i < |frames|
    requires p.pending.None? && p.wet.remaining == 0 && p.wet.current == 0.0
    ensures Outputs(kit, p, frames)[i]
         == Scale(frames[i], After(p.gain, i).current)
  {
    DryMix(kit, p, frames, i);
    var m := Mixes(kit, p, frames)[i];
    DryBlend(m.dry, m.active, m.pending, m.gain);
    assert m == Mix(m.dry, m.active, m.pending, (1.0, 0.0), (1.0, 0.0), m.gain);
  }

  // ---------------------------------------------------------------- what is heard

  /** A channel of a frame. */
  function Channel(x: Frame, left: bool): real {
    if left then x.left else x.right
  }

  /** The renderers' signal: one renderer, or two weighted by the curve while a fade lasts, or
      the replacement alone once the fade is over. */
  function Heard<R>(kit: Kit<R>, p: Proc<R>, frames: seq<Frame>, i: nat, left: bool): real
    requires WellFormed(p) && i < |frames|
  {
    var active := Channel(Rendered(kit, p.active, frames, i), left);
    if p.pending.None? then active
    else
      var pending := Channel(Rendered(kit, p.pending.value, frames, i), left);
      if i < p.fade.value.remaining then
        var (old_, new_) := kit.curve(After(p.fade.value, i).current);
        active * old_ + pending * new_
      else pending
  }

  /** Beyond either end of a transition the curve is read at that end. */
  lemma WeightsAreClamped(curve: real -> (real, real), progress: real)
    ensures Weights(curve, progress) ==
      if 1.0 <= progress then curve(1.0) else if 0.0 <= progress then curve(progress) else curve(0.0)
  {
  }

  /** Two signals under two weights and a gain. */
  function Weighed(dry: real, rendered: real, weights: (real, real), gain: real): real {
    (dry * weights.0 + rendered * weights.1) * gain
  }

  /** Every ramp position is one the curve is meant for. */
  ghost predicate InRange<R>(p: Proc<R>, i: nat) {
    && 0.0 <= After(p.wet, i).current <= 1.0
    && (p.fade.Some? && i < p.fade.value.remaining ==> 0.0 <= After(p.fade.value, i).current <= 1.0)
  }

  /** A renderer that answers from everything it has heard goes on doing so, across whatever
      blocks: `hear` tells what a core has heard, `answer` what it then says. */
  lemma {:induction false} RendererHearsAll<R>(kit: Kit<R>, hear: R -> seq<Frame>,
        answer: (seq<Frame>, RenderMode) -> Frame, r: Renderer<R>, frames: seq<Frame>, i: nat)
    requires forall core, mode, x ::
      var (after, y) := kit.step(core, mode, x);
      hear(after) == hear(core) + [x] && y == answer(hear(core) + [x], mode)
    requires i < |frames|
    ensures Rendered(kit, r, frames, i) == answer(hear(r.core) + frames[..i + 1], r.mode)
    ensures hear(RenderAll(kit, r, frames[..i + 1]).core) == hear(r.core) + frames[..i + 1]
  {
    assert frames[..i + 1][..i] == frames[..i] && frames[..i + 1] == frames[..i] + [frames[i]];
    if i > 0 {
      RendererHearsAll(kit, hear, answer, r, frames, i - 1);
    }
    assert hear(RenderAll(kit, r, frames[..i]).core) == hear(r.core) + frames[..i];
    assert hear(r.core) + frames[..i] + [frames[i]] == hear(r.core) + frames[..i + 1];
  }

  lemma ChannelOfBlend(m: Mix, left: bool)
    ensures Channel(Blend(m), left) == Finish(Channel(m.dry, left),
        CrossFade(Channel(m.active, left), Channel(m.pending, left), m.preset), m.wet, m.gain)
  {
    hide Finish, CrossFade;
  }

  lemma FinishIs(dry: real, rendered: real, wet: (real, real), gain: real)
    ensures Finish(dry, rendered, wet, gain) == Clip(Weighed(dry, rendered, wet, gain))
  {
    hide Clip;
  }

  lemma HeardIsCrossFade<R>(kit: Kit<R>, p: Proc<R>, frames: seq<Frame>, i: nat, left: bool)
    requires EqualPower(kit) && WellFormed(p) && i < |frames| && InRange(p, i)
    ensures var m := LoopMix(kit, p, frames, i, Frame(0.0, 0.0));
      Heard(kit, p, frames, i, left) == CrossFade(Channel(m.active, left), Channel(m.pending, left), m.preset)
  {
    hide Rendered;
    var m := LoopMix(kit, p, frames, i, Frame(0.0, 0.0));
    if p.fade.Some? {
      Remaining(p.fade.value, i);
      CrossFadeEnds(Channel(m.pending, left), Channel(m.active, left));
    } else {
      CrossFadeEnds(Channel(m.active, left), Channel(m.pending, left));
    }
  }

  lemma OutputIsFinished<R>(kit: Kit<R>, p: Proc<R>, frames: seq<Frame>, i: nat, left: bool)
    requires EqualPower(kit) && WellFormed(p) && i < |frames| && InRange(p, i)
    ensures Channel(Outputs(kit, p, frames)[i], left)
      == Finish(Channel(frames[i], left), Heard(kit, p, frames, i, left), kit.curve(After(p.wet, i).current),
                After(p.gain, i).current)
  {
    hide Heard, Blend, Outputs, Rendered, Finish, CrossFade, Channel;
    LoopMatchesReference(kit, p, frames, i, Frame(0.0, 0.0));
    ChannelOfBlend(LoopMix(kit, p, frames, i, Frame(0.0, 0.0)), left);
    HeardIsCrossFade(kit, p, frames, i, left);
  }

  /** What comes out at frame `i`, said of the stream: the input and the renderers' signal,
      weighted by the curve at the mix reached by then, times the gain reached by then, clipped. */
  lemma OutputIs<R>(kit: Kit<R>, p: Proc<R>, frames: seq<Frame>, i: nat, left: bool)
    requires EqualPower(kit) && WellFormed(p) && i < |frames| && InRange(p, i)
    ensures Channel(Outputs(kit, p, frames)[i], left)
      == Clip(Weighed(Channel(frames[i], left), Heard(kit, p, frames, i, left), kit.curve(After(p.wet, i).current),
                      After(p.gain, i).current))
  {
    hide Heard, Outputs, Clip, Finish, Weighed, Channel, After;
    OutputIsFinished(kit, p, frames, i, left);
    FinishIs(Channel(frames[i], left), Heard(kit, p, frames, i, left), kit.curve(After(p.wet, i).current),
             After(p.gain, i).current);
  }

  lemma WetFinish(dry: Frame, wet: Frame, gain: real, left: bool)
    ensures Clip(Weighed(Channel(dry, left), Channel(wet, left), (0.0, 1.0), gain)) == Channel(Scale(wet, gain), left)
  {
    var x, y := Channel(dry, left), Channel(wet, left);
    assert x * 0.0 + y * 1.0 == y;
  }

  lemma SameChannels(x: Frame, y: Frame)
    requires forall left :: Channel(x, left) == Channel(y, left)
    ensures x == y
  {
    assert Channel(x, true) == Channel(y, true) && Channel(x, false) == Channel(y, false);
  }

  /** A settled, fully wet processor without a replacement only scales what it renders. */
  lemma WetMatchesReference<R>(kit: Kit<R>, p: Proc<R>, frames: seq<Frame>, i: nat)
    requires EqualPower(kit) && WellFormed(p) && i < |frames|
    requires p.pending.None? && p.wet.remaining == 0 && p.wet.current == 1.0
    ensures Outputs(kit, p, frames)[i] == Scale(Rendered(kit, p.active, frames, i), After(p.gain, i).current)
  {
    Remaining(p.wet, i);
    hide Outputs, Rendered, Clip, Weighed, Scale, Channel;
    var heard, gain := Rendered(kit, p.active, frames, i), After(p.gain, i).current;
    forall left
      ensures Channel(Outputs(kit, p, frames)[i], left) == Channel(Scale(heard, gain), left)
    {
      OutputIs(kit, p, frames, i, left);
      WetFinish(frames[i], heard, gain, left);
    }
    SameChannels(Outputs(kit, p, frames)[i], Scale(heard, gain));
  }

  lemma ClipBelow(x: real)
    requires Abs(Clip(x)) < MAX_ABS_OUTPUT_SAMPLE
    ensures Clip(x) == x
  {
  }

  lemma WeighedAdds(x: real, y: real, u: real, v: real, weights: (real, real), gain: real)
    ensures Weighed(x + y, u + v, weights, gain) == Weighed(x, u, weights, gain) + Weighed(y, v, weights, gain)
  {
  }

  /** Below the ceiling the processor is linear, in the middle of any ramp and any fade: where
      the input is the sum of two and so is the renderers' signal, so is the output. */
  lemma OutputsAdd<R>(kit: Kit<R>, p: Proc<R>, q: Proc<R>, r: Proc<R>, a: seq<Frame>, b: seq<Frame>, c: seq<Frame>,
                      i: nat, left: bool)
    requires EqualPower(kit) && WellFormed(p) && WellFormed(q) && WellFormed(r)
    requires p.wet == q.wet == r.wet && p.gain == q.gain == r.gain
    requires i < |a| == |b| == |c| && InRange(p, i) && InRange(q, i) && InRange(r, i)
    requires Channel(c[i], left) == Channel(a[i], left) + Channel(b[i], left)
    requires Heard(kit, r, c, i, left) == Heard(kit, p, a, i, left) + Heard(kit, q, b, i, left)
    requires Abs(Channel(Outputs(kit, p, a)[i], left)) < 1.0 && Abs(Channel(Outputs(kit, q, b)[i], left)) < 1.0
      && Abs(Channel(Outputs(kit, r, c)[i], left)) < 1.0
    ensures Channel(Outputs(kit, r, c)[i], left)
      == Channel(Outputs(kit, p, a)[i], left) + Channel(Outputs(kit, q, b)[i], left)
  {
    hide Heard, Outputs, Clip, Channel, After, Weighed;
    var weights, gain := kit.curve(After(p.wet, i).current), After(p.gain, i).current;
    OutputIs(kit, p, a, i, left);
    OutputIs(kit, q, b, i, left);
    OutputIs(kit, r, c, i, left);
    var x, y, u, v := Channel(a[i], left), Channel(b[i], left), Heard(kit, p, a, i, left), Heard(kit, q, b, i, left);
    WeighedAdds(x, y, u, v, weights, gain);
    ClipBelow(Weighed(x, u, weights, gain));
    ClipBelow(Weighed(y, v, weights, gain));
    ClipBelow(Weighed(x + y, u + v, weights, gain));
  }

  /** A preset switch over n >= 2 frames is in progress for n - 1 frames; after the n-th the
      replacement is active, having heard every frame since the switch. */
  lemma PresetSwitchCompletes<R>(kit: Kit<R>, p: Proc<R>, core: R, transition: nat, frames: seq<Frame>)
    requires WellFormed(p) && p.pending.None? && 2 <= transition
    ensures WellFormed(Switching(p, core, transition))
    ensures var q := Run(kit, Switching(p, core, transition), frames);
      && (q.pending.Some? <==> |frames| < transition)
      && q.active == RenderAll(kit, if |frames| < transition then p.active else Renderer(core, p.mode), frames)
  {
    RunInClosedForm(kit, Switching(p, core, transition), frames);
  }

  /** And at frame k of the switch the two are heard under the curve's weights at k of n - 1. */
  lemma SwitchIsHeard<R>(kit: Kit<R>, p: Proc<R>, core: R, transition: nat, frames: seq<Frame>, k: nat, left: bool)
    requires WellFormed(p) && p.pending.None? && 2 <= transition && k < |frames|
    ensures WellFormed(Switching(p, core, transition))
    ensures var old_ := Channel(Rendered(kit, p.active, frames, k), left);
      var new_ := Channel(Rendered(kit, Renderer(core, p.mode), frames, k), left);
      Heard(kit, Switching(p, core, transition), frames, k, left) ==
        if k < transition
        then Weighed(old_, new_, kit.curve(0.0 + k as real * (1.0 / (transition - 1) as real)), 1.0) else new_
  {
    if k < transition {
      AimedState(RampState(0.0, 0.0, 0.0, 0), 1.0, transition, k);
    }
    hide Rendered;
  }

  /** A processor that has just begun fading to a replacement with this convolution state. */
  function Switching<R>(p: Proc<R>, core: R, transition: nat): Proc<R> {
    p.(pending := Some(Renderer(core, p.mode)), fade := Some(Aim(RampState(0.0, 0.0, 0.0, 0), 1.0, transition)))
  }

  lemma OutputsAreBounded<R>(kit: Kit<R>, p: Proc<R>, frames: seq<Frame>, i: nat)
    requires i < |frames|
    ensures Abs(Outputs(kit, p, frames)[i].left) <= MAX_ABS_OUTPUT_SAMPLE
    ensures Abs(Outputs(kit, p, frames)[i].right) <= MAX_ABS_OUTPUT_SAMPLE
  {
  }

  // ---------------------------------------------------------------- blocks in arrays

  /** The frames of an interleaved block whose samples were all accepted. */
  function FramesOf(samples: seq<Sample>): (frames: seq<Frame>)
    requires |samples| % 2 == 0
    requires forall i :: 0 <= i < |samples| ==> samples[i].Finite?
    ensures |frames| == |samples| / 2
  {
    seq(|samples| / 2, i requires 0 <= i < |samples| / 2 => Frame(samples[2 * i].value, samples[2 * i + 1].value))
  }

  ghost predicate HoldsAt(samples: seq<real>, i: nat, frame: Frame) {
    2 * i + 1 < |samples| && samples[2 * i] == frame.left && samples[2 * i + 1] == frame.right
  }

  /** The interleaved samples begin with these frames. */
  ghost predicate Holds(samples: seq<real>, frames: seq<Frame>, count: nat)
    requires count <= |frames|
  {
    forall i :: 0 <= i < count ==> HoldsAt(samples, i, frames[i])
  }

  /** Everything the mixing loop reads for one block. */
  ghost predicate Scratch<R>(kit: Kit<R>, r: Renderer<R>, frames: seq<Frame>, scratch: seq<real>) {
    forall i :: 0 <= i < |frames| ==> HoldsAt(scratch, i, Rendered(kit, r, frames, i))
  }

  method WriteFrame(samples: array<real>, i: nat, frame: Frame)
    requires 2 * i + 1 < samples.Length
    modifies samples
    ensures HoldsAt(samples[..], i, frame)
    ensures forall k: nat, f :: k != i && HoldsAt(old(samples[..]), k, f) ==> HoldsAt(samples[..], k, f)
  {
    samples[2 * i], samples[2 * i + 1] := frame.left, frame.right;
  }

  lemma RenderNothing<R>(kit: Kit<R>, r: Renderer<R>, frames: seq<Frame>)
    ensures RenderAll(kit, r, frames[..0]) == r
  {
  }

  lemma RenderMore<R>(kit: Kit<R>, r: Renderer<R>, frames: seq<Frame>, i: nat)
    requires i < |frames|
    ensures RenderAll(kit, r, frames[..i + 1]) == Render(kit, RenderAll(kit, r, frames[..i]), frames[i]).0
  {
    assert frames[..i + 1][..i] == frames[..i];
  }

  method RenderBlock<R>(kit: Kit<R>, r: Renderer<R>, input: array<Sample>, scratch: array<real>)
        returns (after: Renderer<R>)
    requires input.Length % 2 == 0 && AllAccepted(input[..]) && input.Length <= scratch.Length
    modifies scratch
    ensures after == RenderAll(kit, r, FramesOf(input[..]))
    ensures Scratch(kit, r, FramesOf(input[..]), scratch[..])
  {
    hide RenderAll, Render;
    RenderNothing(kit, r, FramesOf(input[..]));
    after := r;
    ghost var frames := FramesOf(input[..]);
    for i := 0 to input.Length / 2
      invariant after == RenderAll(kit, r, frames[..i])
      invariant forall k :: 0 <= k < i ==> HoldsAt(scratch[..], k, Rendered(kit, r, frames, k))
    {
      assert Accepted(input[..][2 * i]) && Accepted(input[..][2 * i + 1]);
      var (next, y) := Render(kit, after, Frame(input[2 * i].value, input[2 * i + 1].value));
      WriteFrame(scratch, i, y);
      after := next;
      RenderMore(kit, r, frames, i);
    }
    assert frames[..input.Length / 2] == frames;
  }

  /** `warm_block`: the renderer hears the block, and its output is thrown away. */
  method WarmBlock<R>(kit: Kit<R>, r: Renderer<R>, input: array<Sample>) returns (after: Renderer<R>)
    requires input.Length % 2 == 0 && AllAccepted(input[..])
    ensures after == RenderAll(kit, r, FramesOf(input[..]))
  {
    after := r;
    ghost var frames := FramesOf(input[..]);
    for i := 0 to input.Length / 2
      invariant after == RenderAll(kit, r, frames[..i])
    {
      assert Accepted(input[..][2 * i]) && Accepted(input[..][2 * i + 1]);
      after := Render(kit, after, Frame(input[2 * i].value, input[2 * i + 1].value)).0;
      RenderMore(kit, r, frames, i);
    }
    assert frames[..input.Length / 2] == frames;
  }

  /** The dry fast path: each frame is scaled by its own gain and clipped. */
  method ScaleBlock(input: array<Sample>, output: array<real>, gain: Ramp)
    requires input.Length == output.Length && input.Length % 2 == 0 && AllAccepted(input[..])
    modifies gain, output
    ensures gain.State() == After(old(gain.State()), input.Length / 2)
    ensures ScaledBy(output[..], FramesOf(input[..]), old(gain.State()), input.Length / 2)
  {
    ghost var frames, start := FramesOf(input[..]), gain.State();
    for i := 0 to input.Length / 2
      invariant gain.State() == After(start, i)
      invariant ScaledBy(output[..], frames, start, i)
    {
      assert Accepted(input[..][2 * i]) && Accepted(input[..][2 * i + 1]);
      var value := gain.NextValue();
      WriteFrame(output, i, Scale(Frame(input[2 * i].value, input[2 * i + 1].value), value));
    }
  }

  function FrameAt(samples: seq<real>, i: nat): Frame
    requires 2 * i + 1 < |samples|
  {
    Frame(samples[2 * i], samples[2 * i + 1])
  }

  /** What the mixing loop reads for frame `i`. */
  function ArrayMix(curve: real -> (real, real), x: Frame, active: seq<real>, pending: seq<real>, i: nat,
                    fade: Option<RampState>, wet: RampState, gain: RampState): Mix
    requires 2 * i + 1 < |active| && 2 * i + 1 < |pending|
  {
    Mix(x, FrameAt(active, i), FrameAt(pending, i),
        if fade.Some? then Weights(curve, After(fade.value, i).current) else (1.0, 0.0),
        Weights(curve, After(wet, i).current),
        After(gain, i).current)
  }

  ghost predicate MixedBy(samples: seq<real>, curve: real -> (real, real), frames: seq<Frame>, active: seq<real>,
        pending: seq<real>,
                          fade: Option<RampState>, wet: RampState, gain: RampState, count: nat)
    requires count <= |frames| && 2 * count <= |active| && 2 * count <= |pending|
  {
    forall i :: 0 <= i < count ==>
      HoldsAt(samples, i, Blend(ArrayMix(curve, frames[i], active, pending, i, fade, wet, gain)))
  }

  ghost function StateOf(ramp: Ramp?): Option<RampState>
    reads ramp
  {
    if ramp == null then None else Some(ramp.State())
  }

  lemma NothingYet(s: RampState)
    ensures After(s, 0) == s
  {
  }

  lemma OneMore(s: RampState, k: nat)
    ensures After(s, k + 1) == Next(After(s, k))
  {
  }

  /** The mixing loop: advances every ramp by one frame per frame written. */
  method MixBlock(curve: real -> (real, real), input: array<Sample>, output: array<real>, active: array<real>,
        pending: array<real>,
                  fade: Ramp?, wet: Ramp, gain: Ramp)
    requires input.Length == output.Length && input.Length % 2 == 0 && AllAccepted(input[..])
    requires input.Length <= active.Length && input.Length <= pending.Length
    requires output != active && output != pending && wet != gain && fade != wet && fade != gain
    modifies wet, gain, output
    modifies if fade == null then {} else {fade}
    ensures wet.State() == After(old(wet.State()), input.Length / 2)
    ensures gain.State() == After(old(gain.State()), input.Length / 2)
    ensures fade != null ==> fade.State() == After(old(fade.State()), input.Length / 2)
    ensures MixedBy(output[..], curve, FramesOf(input[..]), old(active[..]), old(pending[..]),
                    old(StateOf(fade)), old(wet.State()), old(gain.State()), input.Length / 2)
  {
    hide Blend, Clip, After;
    ghost var frames, fade0, wet0, gain0 := FramesOf(input[..]), StateOf(fade), wet.State(), gain.State();
    NothingYet(wet0);
    NothingYet(gain0);
    if fade != null {
      NothingYet(fade0.value);
    }
    ghost var a, b := active[..], pending[..];
    for i := 0 to input.Length / 2
      invariant wet.State() == After(wet0, i) && gain.State() == After(gain0, i)
      invariant fade != null ==> fade.State() == After(fade0.value, i)
      invariant active[..] == a && pending[..] == b
      invariant MixedBy(output[..], curve, frames, a, b, fade0, wet0, gain0, i)
    {
      assert Accepted(input[..][2 * i]) && Accepted(input[..][2 * i + 1]);
      OneMore(wet0, i);
      OneMore(gain0, i);
      if fade != null {
        OneMore(fade0.value, i);
      }
      var preset := (1.0, 0.0);
      if fade != null {
        var progress := fade.NextValue();
        preset := Weights(curve, progress);
      }
      var wetMix := wet.NextValue();
      var mix := Weights(curve, wetMix);
      var outputGain := gain.NextValue();
      WriteFrame(output, i, Blend(Mix(
        Frame(input[2 * i].value, input[2 * i + 1].value),
        Frame(active[2 * i], active[2 * i + 1]),
        Frame(pending[2 * i], pending[2 * i + 1]),
        preset, mix, outputGain)));
    }
  }

  lemma MixedIsReference<R>(kit: Kit<R>, p: Proc<R>, frames: seq<Frame>, active: seq<real>, pending: seq<real>,
        output: seq<real>)
    requires EqualPower(kit) && WellFormed(p)
    requires 2 * |frames| <= |active| && 2 * |frames| <= |pending|
    requires Scratch(kit, p.active, frames, active)
    requires p.pending.Some? ==> Scratch(kit, p.pending.value, frames, pending)
    requires MixedBy(output, kit.curve, frames, active, pending, p.fade, p.wet, p.gain, |frames|)
    ensures Holds(output, Outputs(kit, p, frames), |frames|)
  {
    forall i | 0 <= i < |frames|
      ensures HoldsAt(output, i, Outputs(kit, p, frames)[i])
    {
      assert HoldsAt(active, i, Rendered(kit, p.active, frames, i));
      var mix := ArrayMix(kit.curve, frames[i], active, pending, i, p.fade, p.wet, p.gain);
      assert mix == LoopMix(kit, p, frames, i, FrameAt(pending, i));
      LoopMatchesReference(kit, p, frames, i, FrameAt(pending, i));
    }
  }

  lemma ScaledIsReference<R>(kit: Kit<R>, p: Proc<R>, frames: seq<Frame>, output: seq<real>)
    requires EqualPower(kit) && WellFormed(p)
    requires p.pending.None? && p.wet.remaining == 0 && p.wet.current == 0.0
    requires ScaledBy(output, frames, p.gain, |frames|)
    ensures Holds(output, Outputs(kit, p, frames), |frames|)
  {
    forall i | 0 <= i < |frames|
      ensures HoldsAt(output, i, Outputs(kit, p, frames)[i])
    {
      DryMatchesReference(kit, p, frames, i);
    }
  }

  ghost predicate ScaledBy(samples: seq<real>, frames: seq<Frame>, gain: RampState, count: nat)
    requires count <= |frames|
  {
    forall i :: 0 <= i < count ==> HoldsAt(samples, i, Scale(frames[i], After(gain, i).current))
  }

  class AudioProcessor<R> {
    const kit: Kit<R>
    const maxBlockFrames: nat
    var mode: RenderMode
    var active: Renderer<R>
    var pending: Option<Renderer<R>>
    var presetFade: Ramp?
    const wetMix: Ramp
    const outputGain: Ramp
    const activeScratch: array<real>
    const pendingScratch: array<real>

    ghost function Repr(): set<object>
      reads this
    {
      {this, wetMix, outputGain, activeScratch, pendingScratch} + (if presetFade == null then {} else {presetFade})
    }

    ghost function State(): Proc<R>
      reads this, wetMix, outputGain, presetFade
    {
      Proc(mode, active, pending, if presetFade == null then None else Some(presetFade.State()),
           wetMix.State(), outputGain.State())
    }

    ghost predicate Valid()
      reads Repr()
    {
      && EqualPower(kit)
      && wetMix != outputGain && presetFade != wetMix && presetFade != outputGain
      && activeScratch != pendingScratch
      && activeScratch.Length == 2 * maxBlockFrames == pendingScratch.Length
      && WellFormed(State())
    }

    constructor (kit: Kit<R>, prepared: Renderer<R>, maxBlockFrames: nat)
      requires EqualPower(kit) && maxBlockFrames > 0
      ensures Valid() && fresh(Repr()) && this.kit == kit && this.maxBlockFrames == maxBlockFrames
      ensures State()
        == Proc(prepared.mode, prepared, None, None, RampState(1.0, 1.0, 0.0, 0), RampState(1.0, 1.0, 0.0, 0))
    {
      this.kit := kit;
      this.maxBlockFrames := maxBlockFrames;
      mode, active, pending, presetFade := prepared.mode, prepared, None, null;
      wetMix := new Ramp(1.0);
      outputGain := new Ramp(1.0);
      activeScratch := new real[2 * maxBlockFrames](_ => 0.0);
      pendingScratch := new real[2 * maxBlockFrames](_ => 0.0);
    }

    /** Starts a cross-fade to a prepared renderer, or replaces at once when the fade would
        last at most one frame. A second replacement or another topology is refused. */
    method InstallPreparedRenderer(prepared: Renderer<R>, transitionFrames: nat) returns (r: Result<()>)
      requires Valid()
      modifies this
      ensures Valid() && fresh(Repr() - old(Repr()))
      ensures old(pending).Some? ==> r == Err(PresetTransitionInProgress)
      ensures old(pending).None? && prepared.mode.FixedFront? != old(mode).FixedFront? ==>
        r == Err(RendererModeMismatch)
      ensures r.Ok? <==> old(pending).None? && prepared.mode.FixedFront? == old(mode).FixedFront?
      ensures r.Err? ==> State() == old(State())
      ensures r.Ok? && transitionFrames <= 1 ==>
        State() == old(State()).(active := Renderer(kit.clear(prepared.core), old(mode)))
      ensures r.Ok? && transitionFrames > 1 ==>
        State() == Switching(old(State()), prepared.core, transitionFrames)
    {
      if pending.Some? {
        return Err(PresetTransitionInProgress);
      }
      if prepared.mode.FixedFront? != mode.FixedFront? {
        return Err(RendererModeMismatch);
      }
      var replacement := prepared;
      if mode.HorizontalOrbit? {
        replacement := Renderer(prepared.core, mode);
      }
      if transitionFrames <= 1 {
        active := Renderer(kit.clear(replacement.core), replacement.mode);
      } else {
        pending := Some(replacement);
        var fade := new Ramp(0.0);
        fade.SetTarget(1.0, transitionFrames);
        presetFade := fade;
      }
      return Ok(());
    }

    method SetWetEnabled(enabled: bool, transitionFrames: nat)
      requires Valid()
      modifies wetMix
      ensures Valid() && Repr() == old(Repr())
      ensures State() == old(State()).(wet := Aim(old(State()).wet, if enabled then 1.0 else 0.0, transitionFrames))
    {
      wetMix.SetTarget(if enabled then 1.0 else 0.0, transitionFrames);
    }

    method SetOutputGain(gain: real, transitionFrames: nat)
      requires Valid() && 0.0 <= gain <= 4.0
      modifies outputGain
      ensures Valid() && Repr() == old(Repr())
      ensures State() == old(State()).(gain := Aim(old(State()).gain, gain, transitionFrames))
    {
      outputGain.SetTarget(gain, transitionFrames);
    }

    /** Re-routes both renderers without touching their histories. */
    method SetOrbitPosition(position: HorizontalStereoPair) returns (r: Result<()>)
      requires Valid()
      modifies this
      ensures Valid() && Repr() == old(Repr())
      ensures r == if old(mode).FixedFront? then Err(OrbitModeRequired) else Ok(())
      ensures mode.FixedFront? <==> old(mode).FixedFront?
      ensures State() == Routed(old(State()), position)
      ensures active.core == old(active.core) && (pending.Some? <==> old(pending).Some?)
      ensures pending.Some? ==> pending.value.core == old(pending).value.core
      ensures r.Ok? ==> mode == active.mode == HorizontalOrbit(position)
      ensures r.Ok? && pending.Some? ==> pending.value.mode == mode
    {
      if active.mode.FixedFront? {
        return Err(OrbitModeRequired);
      }
      active := Renderer(active.core, HorizontalOrbit(position));
      if pending.Some? {
        pending := Some(Renderer(pending.value.core, HorizontalOrbit(position)));
      }
      mode := HorizontalOrbit(position);
      return Ok(());
    }

    predicate IsFullyDry()
      reads this, wetMix
    {
      wetMix.remaining == 0 && wetMix.current == 0.0 && pending.None? && presetFade == null
    }

    /** The fast path: the renderer is kept warm, the ramp on the mix need not move. */
    method DryBlock(input: array<Sample>, output: array<real>)
      requires Valid() && IsFullyDry() && output !in Repr()
      requires input.Length == output.Length && input.Length % 2 == 0 && AllAccepted(input[..])
      modifies this`active, outputGain, output
      ensures Valid()
      ensures State() == Run(kit, old(State()), FramesOf(input[..]))
      ensures Holds(output[..], Outputs(kit, old(State()), FramesOf(input[..])), input.Length / 2)
    {
      ghost var start, frames := State(), FramesOf(input[..]);
      RunInClosedForm(kit, start, frames);
      Remaining(start.wet, |frames|);
      active := WarmBlock(kit, active, input);
      ScaleBlock(input, output, outputGain);
      ScaledIsReference(kit, start, frames, output[..]);
    }

    /** Renders, mixes, and only then swaps in a replacement whose fade has ended. */
    method WetBlock(input: array<Sample>, output: array<real>)
      requires Valid() && output !in Repr()
      requires input.Length == output.Length && input.Length % 2 == 0 && AllAccepted(input[..])
      requires input.Length / 2 <= maxBlockFrames
      modifies Repr(), output
      ensures Valid() && Repr() <= old(Repr()) && mode == old(mode)
      ensures State() == Run(kit, old(State()), FramesOf(input[..]))
      ensures Holds(output[..], Outputs(kit, old(State()), FramesOf(input[..])), input.Length / 2)
    {
      hide Run, Outputs, MixedBy, Scratch, Commit, After, RenderAll;
      ghost var start, frames := State(), FramesOf(input[..]);
      CommitCatchesUp(kit, start, frames);
      RenderBoth(input);
      ghost var a, b := activeScratch[..], pendingScratch[..];
      MixBlock(kit.curve, input, output, activeScratch, pendingScratch, presetFade, wetMix, outputGain);
      MixedIsReference(kit, start, frames, a, b, output[..]);
      assert State() == SideBySide(kit, start, frames);
      CommitSwap();
    }

    method RenderBoth(input: array<Sample>)
      requires Valid() && input.Length % 2 == 0 && AllAccepted(input[..]) && input.Length / 2 <= maxBlockFrames
      modifies this`active, this`pending, activeScratch, pendingScratch
      ensures Valid()
      ensures active == RenderAll(kit, old(active), FramesOf(input[..]))
      ensures pending == if old(pending).None? then None
        else Some(RenderAll(kit, old(pending).value, FramesOf(input[..])))
      ensures Scratch(kit, old(active), FramesOf(input[..]), activeScratch[..])
      ensures old(pending).Some? ==> Scratch(kit, old(pending).value, FramesOf(input[..]), pendingScratch[..])
    {
      active := RenderBlock(kit, active, input, activeScratch);
      if pending.Some? {
        var replacement := RenderBlock(kit, pending.value, input, pendingScratch);
        pending := Some(replacement);
      }
    }

    method CommitSwap()
      modifies this`active, this`pending, this`presetFade
      ensures State() == Commit(old(State()))
      ensures presetFade == old(presetFade) || presetFade == null
    {
      if presetFade != null && presetFade.remaining == 0 {
        if pending.Some? {
          active := pending.value;
        }
        pending := None;
        presetFade := null;
      }
    }

    /** Processes one block: the contract is the reference machine's. A rejected block
        changes nothing. */
    method ProcessBlock(input: array<Sample>, output: array<real>) returns (r: Result<()>)
      requires Valid() && output !in Repr()
      modifies Repr(), output
      ensures Valid() && Repr() <= old(Repr()) && mode == old(mode)
      ensures r.Ok? <==> (input.Length == output.Length && input.Length % 2 == 0 && AllAccepted(input[..])
                          && input.Length / 2 <= maxBlockFrames)
      ensures r.Err? ==> State() == old(State()) && output[..] == old(output[..])
      ensures input.Length != output.Length ==> r == Err(BlockLengthMismatch(input.Length, output.Length))
      ensures input.Length == output.Length && input.Length % 2 == 0 && AllAccepted(input[..]) && r.Err? ==>
        r == Err(BlockTooLarge(input.Length / 2, maxBlockFrames))
      ensures input.Length == output.Length && input.Length % 2 != 0 ==> r == Err(OddStereoBlock(input.Length))
      ensures input.Length == output.Length && input.Length % 2 == 0 && !AllAccepted(input[..]) ==>
        r.Err? && exists i :: FirstRejected(input[..], i) && r.error == RejectionOf(i, input[i])
      ensures r.Ok? ==> State() == Run(kit, old(State()), FramesOf(input[..]))
      ensures r.Ok? ==> Holds(output[..], Outputs(kit, old(State()), FramesOf(input[..])), input.Length / 2)
    {
      var valid := ValidateStereoBlocks(input, output);
      if valid.Err? {
        return Err(valid.error);
      }
      if valid.value > maxBlockFrames {
        return Err(BlockTooLarge(valid.value, maxBlockFrames));
      }
      if IsFullyDry() {
        DryBlock(input, output);
      } else {
        WetBlock(input, output);
      }
      return Ok(());
    }

    /** Seek, stop or a new decoder: histories are cleared, every transition ends at its
        target, and a replacement under way becomes the active renderer. */
    method Reset()
      requires Valid()
      modifies Repr()
      ensures Valid() && Repr() <= old(Repr())
      ensures State() == AfterReset(kit, old(State()))
    {
      if pending.Some? {
        active := Renderer(kit.clear(pending.value.core), pending.value.mode);
        pending := None;
        presetFade := null;
      } else {
        active := Renderer(kit.clear(active.core), active.mode);
      }
      wetMix.SettleNow();
      outputGain.SettleNow();
      Fill(activeScratch);
      Fill(pendingScratch);
    }

    static method Fill(scratch: array<real>)
      modifies scratch
      ensures forall i :: 0 <= i < scratch.Length ==> scratch[i] == 0.0
    {
      forall i | 0 <= i < scratch.Length {
        scratch[i] := 0.0;
      }
    }
  }

  function AfterReset<R>(kit: Kit<R>, p: Proc<R>): Proc<R> {
    var survivor := if p.pending.Some? then p.pending.value else p.active;
    Proc(p.mode, Renderer(kit.clear(survivor.core), survivor.mode), None, None, Settle(p.wet), Settle(p.gain))
  }

  /** After a reset the survivor is heard from silence on, at the mix and gain that were aimed
      at; nothing is left of a fade. */
  lemma ResetIsHeard<R>(kit: Kit<R>, p: Proc<R>, frames: seq<Frame>, i: nat, left: bool)
    requires EqualPower(kit) && WellFormed(p) && i < |frames| && 0.0 <= p.wet.target <= 1.0
    ensures WellFormed(AfterReset(kit, p))
    ensures var survivor := if p.pending.Some? then p.pending.value else p.active;
      var rendered := Rendered(kit, Renderer(kit.clear(survivor.core), p.mode), frames, i);
      Channel(Outputs(kit, AfterReset(kit, p), frames)[i], left)
        == Clip(Weighed(Channel(frames[i], left), Channel(rendered, left), kit.curve(p.wet.target), p.gain.target))
  {
    var q := AfterReset(kit, p);
    Remaining(q.wet, i);
    Remaining(q.gain, i);
    hide Outputs, Rendered, Clip, Weighed;
    OutputIs(kit, q, frames, i, left);
  }

  /** Moving the pair: nothing happens to a fixed-front processor. */
  function Routed<R>(p: Proc<R>, position: HorizontalStereoPair): Proc<R> {
    if p.mode.FixedFront? then p
    else
      var to := HorizontalOrbit(position);
      p.(mode := to, active := Renderer(p.active.core, to),
         pending := if p.pending.None? then None else Some(Renderer(p.pending.value.core, to)))
  }
}
