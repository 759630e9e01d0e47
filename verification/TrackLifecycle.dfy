/** One track's end, raced for by its worker, its owner and the voice driver
    (crates/pepeaudio-pipeline/src/track.rs): any number of calls, their atomic steps
    interleaved in every order. */
module TrackLifecycle {
  import opened Options
  import opened Runs

  type CallId = nat

  datatype Outcome = Running | Natural | Failed | SongbirdError | SongbirdEnded | Manual

  datatype Message = TrackEnded(reason: Reason) | WorkerFailed

  datatype Reason = NaturalEnd | FailedEnd | ErrorEnd | DriverEnd

  datatype Kind = MarkNatural | MarkManual | ReportFailure | OnError | OnEnd

  /** The next atomic step of a call. */
  datatype Pc =
    | SetNatural
    | StoreManual
    | SetFailed | CheckFailure | SendFailure
    | CheckError | SetError
    | CheckEnd | CheckManual | SetEnded | TakeEnd | ReadReason | SendEnd(reason: Reason)
    | Cancel
    | Finished

  /** The adapter's generations: this track's own, the one stored as current, where 0 stands for
      none, and the newest the player has handed out, which may still be in preparation. */
  datatype Generations = Generations(own: nat, stored: nat, newest: nat, preparing: bool)

  /** What the player and its adapter do, one track after the other: hand out the next
      generation, store it once its track is prepared, give the preparation up, or stop. */
  datatype AdapterStep = Allocate | Publish | GiveUp | Invalidate

  datatype Sent = Sent(call: CallId, message: Message)

  /** `wins` lists every successful write of the outcome, `emitter` and `failer` the calls that
      won the right to send each message. */
  datatype State = State(
    outcome: Outcome,
    endEmitted: bool,
    cancelled: bool,
    generations: Generations,
    calls: map<CallId, Pc>,
    next: CallId,
    sent: seq<Sent>,
    wins: seq<Outcome>,
    emitter: Option<CallId>,
    failer: Option<CallId>)

  /** A track in preparation, under a generation handed out after the stored one. */
  function Start(own: nat, stored: nat): State {
    State(Running, false, false, Generations(own, stored, own, true), map[], 0, [], [], None, None)
  }

  // ---------------------------------------------------------------- which track is current

  const MAX_GENERATION: nat := 0xFFFF_FFFF_FFFF_FFFF

  predicate Current(g: Generations) {
    g.stored == g.own
  }

  /** The track is not current, and its turn to become so is over. */
  predicate Past(g: Generations) {
    !Current(g) && !(g.newest == g.own && g.preparing)
  }

  predicate Possible(g: Generations, step: AdapterStep) {
    match step
    case Allocate => g.newest < MAX_GENERATION
    case Publish | GiveUp => g.preparing
    case Invalidate => true
  }

  function Stepped(g: Generations, step: AdapterStep): Generations {
    match step
    case Allocate => g.(newest := g.newest + 1, preparing := true)
    case Publish => g.(stored := g.newest, preparing := false)
    case GiveUp => g.(preparing := false)
    case Invalidate => g.(stored := 0, preparing := false)
  }

  predicate Ordered(g: Generations) {
    0 < g.own <= g.newest && g.stored <= g.newest && (g.preparing ==> g.stored < g.newest)
  }

  /** A track that was replaced, stopped or never installed does not become current again. */
  lemma PastIsForGood(g: Generations, step: AdapterStep)
    requires Ordered(g) && Possible(g, step)
    ensures Ordered(Stepped(g, step)) && (Past(g) ==> Past(Stepped(g, step)))
  {
  }

  /** A track becomes current when its preparation is published, stays so while the next one is
      prepared, and is retired by that one's publication or by a stop; given up, it is past. */
  lemma GenerationsTakeTurns(g: Generations)
    requires Ordered(g)
    ensures Possible(g, Allocate) <==> g.newest < 0xFFFF_FFFF_FFFF_FFFF
    ensures Possible(g, Publish) <==> g.preparing
    ensures Possible(g, GiveUp) <==> g.preparing
    ensures Possible(g, Invalidate)
    ensures Stepped(g, Allocate).newest == g.newest + 1 && Stepped(g, Allocate).preparing
    ensures Current(Stepped(g, Allocate)) <==> Current(g)
    ensures g.preparing ==> (Current(Stepped(g, Publish)) <==> g.newest == g.own) && !Stepped(g, Publish).preparing
    ensures g.preparing ==> (Current(Stepped(g, GiveUp)) <==> Current(g)) && !Stepped(g, GiveUp).preparing
    ensures g.preparing && g.newest == g.own ==> Past(Stepped(g, GiveUp))
    ensures Past(Stepped(g, Invalidate)) && Stepped(g, Invalidate).newest == g.newest
  {
  }

  // ---------------------------------------------------------------- atomic steps

  function FirstStep(kind: Kind): Pc {
    match kind
    case MarkNatural => SetNatural
    case MarkManual => StoreManual
    case ReportFailure => SetFailed
    case OnError => CheckError
    case OnEnd => CheckEnd
  }

  /** Compare-and-exchange from `Running`. */
  function Exchange(s: State, outcome: Outcome): State {
    if s.outcome.Running? then s.(outcome := outcome, wins := s.wins + [outcome]) else s
  }

  function ReasonOf(outcome: Outcome): Reason {
    match outcome
    case Natural => NaturalEnd
    case Failed => FailedEnd
    case SongbirdError => ErrorEnd
    case _ => DriverEnd
  }

  /** What a step does to what all calls share. */
  function Effect(s: State, c: CallId, pc: Pc): State {
    match pc
    case SetNatural => Exchange(s, Natural)
    case StoreManual => s.(outcome := Manual, wins := s.wins + [Manual])
    case SetFailed => if s.outcome.Running? then Exchange(s, Failed).(failer := Some(c)) else s
    case SendFailure => s.(sent := s.sent + [Sent(c, WorkerFailed)])
    case SetError => Exchange(s, SongbirdError)
    case SetEnded => Exchange(s, SongbirdEnded)
    case TakeEnd => if s.endEmitted then s else s.(endEmitted := true, emitter := Some(c))
    case SendEnd(reason) => s.(sent := s.sent + [Sent(c, TrackEnded(reason))])
    case Cancel => s.(cancelled := true)
    case _ => s
  }

  function NextPc(s: State, pc: Pc): Pc {
    match pc
    case SetFailed => if s.outcome.Running? then CheckFailure else Finished
    case CheckFailure => if Current(s.generations) then SendFailure else Finished
    case CheckError => if Current(s.generations) then SetError else Finished
    case CheckEnd => if Current(s.generations) then CheckManual else Cancel
    case CheckManual => if s.outcome.Manual? then Cancel else SetEnded
    case SetEnded => TakeEnd
    case TakeEnd => if s.endEmitted then Cancel else ReadReason
    case ReadReason => SendEnd(ReasonOf(s.outcome))
    case SendEnd(_) => Cancel
    case StoreManual => Cancel
    case SetNatural | SetError | SendFailure | Cancel | Finished => Finished
  }

  function Step(s: State, c: CallId): State
    requires c in s.calls
  {
    Effect(s, c, s.calls[c]).(calls := s.calls[c := NextPc(s, s.calls[c])])
  }

  /** What any step may do: decide the outcome or stop the track, send one message in its own
      name, and raise flags. */
  predicate Moves(s: State, t: State, c: CallId) {
    && t.next == s.next && t.generations == s.generations
    && (t.sent == s.sent || SendsOne(s.sent, t.sent, c))
    && (s.cancelled ==> t.cancelled) && (s.endEmitted ==> t.endEmitted)
    && ((t.wins == s.wins && t.outcome == s.outcome) || Wins(s, t))
  }

  predicate SendsOne(sent: seq<Sent>, more: seq<Sent>, c: CallId) {
    |more| == |sent| + 1 && more[..|sent|] == sent && more[|sent|].call == c
  }

  predicate Wins(s: State, t: State) {
    t.wins == s.wins + [t.outcome] && !t.outcome.Running? && (s.outcome.Running? || t.outcome.Manual?)
  }

  lemma EffectMoves(s: State, c: CallId, pc: Pc)
    ensures Moves(s, Effect(s, c, pc), c)
  {
  }

  /** A look only looks, and the worker is cancelled by nothing but a call's last step. */
  lemma LooksChangeNothing(s: State, c: CallId, pc: Pc)
    ensures pc.CheckFailure? || pc.CheckError? || pc.CheckEnd? || pc.CheckManual? || pc.ReadReason? || pc.Finished? ==>
      Effect(s, c, pc) == s
    ensures Effect(s, c, pc).cancelled <==> s.cancelled || pc == Cancel
  {
  }

  lemma StepMoves(s: State, c: CallId)
    requires c in s.calls
    ensures Moves(s, Step(s, c), c) && Step(s, c).calls == s.calls[c := NextPc(s, s.calls[c])]
  {
    hide Effect, NextPc;
    EffectMoves(s, c, s.calls[c]);
  }

  datatype Event = Begin(kind: Kind) | Go(call: CallId) | Adapter(step: AdapterStep)

  predicate Enabled(s: State, e: Event) {
    (e.Go? ==> e.call in s.calls) && (e.Adapter? ==> Possible(s.generations, e.step))
  }

  function Apply(s: State, e: Event): State
    requires Enabled(s, e)
  {
    match e
    case Begin(kind) => s.(calls := s.calls[s.next := FirstStep(kind)], next := s.next + 1)
    case Go(c) => Step(s, c)
    case Adapter(step) => s.(generations := Stepped(s.generations, step))
  }

  function Next(s: State, e: Event): Option<State> {
    if Enabled(s, e) then Some(Apply(s, e)) else None
  }

  // ---------------------------------------------------------------- what always holds

  /** The outcome is decided once; after that only the owner's stop is written, over anything
      and as often as it likes. */
  ghost predicate Decided(s: State) {
    && s.outcome == (if s.wins == [] then Running else s.wins[|s.wins| - 1])
    && (forall i :: 0 < i < |s.wins| ==> s.wins[i].Manual?)
    && (forall i :: 0 <= i < |s.wins| ==> !s.wins[i].Running?)
  }

  /** A reason names the first outcome; the driver's also stands where the owner had stepped in. */
  ghost predicate ReasonHolds(wins: seq<Outcome>, reason: Reason) {
    wins != [] &&
    match reason
    case NaturalEnd => wins[0] == Natural
    case FailedEnd => wins[0] == Failed
    case ErrorEnd => wins[0] == SongbirdError
    case DriverEnd => wins[0] == SongbirdEnded || Manual in wins
  }

  /** Where the owner never stopped the track, reason and first outcome determine each other. */
  ghost predicate ReasonIsExact(wins: seq<Outcome>, reason: Reason) {
    wins != [] && Manual !in wins ==>
      && (reason == NaturalEnd <==> wins[0] == Natural) && (reason == FailedEnd <==> wins[0] == Failed)
      && (reason == ErrorEnd <==> wins[0] == SongbirdError) && (reason == DriverEnd <==> wins[0] == SongbirdEnded)
  }

  /** Only the winner of the swap is about to send the end, or has sent it, once. */
  ghost predicate EndHolds(s: State) {
    && (s.endEmitted <==> s.emitter.Some?)
    && (forall c :: c in s.calls && (s.calls[c].ReadReason? || s.calls[c].SendEnd?) ==> s.emitter == Some(c))
    && (forall c :: c in s.calls && s.calls[c].SendEnd? ==> ReasonHolds(s.wins, s.calls[c].reason))
    && (forall c :: c in s.calls && (s.calls[c].TakeEnd? || s.calls[c].ReadReason?) ==> s.wins != [])
    && (forall i :: 0 <= i < |s.sent| && s.sent[i].message.TrackEnded? ==>
          s.emitter == Some(s.sent[i].call) && ReasonHolds(s.wins, s.sent[i].message.reason))
    && (s.emitter.Some? ==> s.emitter.value in s.calls)
    && (s.emitter.Some? ==> (EndOf(s.sent) <==> s.calls[s.emitter.value].Cancel? || s.calls[s.emitter.value].Finished?))
    && (s.emitter.Some? ==> PastSwap(s.calls[s.emitter.value]))
    && (forall i, j :: 0 <= i < j < |s.sent| && s.sent[i].message.TrackEnded? ==> !s.sent[j].message.TrackEnded?)
  }

  predicate PastSwap(pc: Pc) {
    pc.ReadReason? || pc.SendEnd? || pc.Cancel? || pc.Finished?
  }

  ghost predicate EndOf(sent: seq<Sent>) {
    exists i :: 0 <= i < |sent| && sent[i].message.TrackEnded?
  }

  /** Likewise for the worker's failure. */
  ghost predicate FailureHolds(s: State) {
    && (forall c :: c in s.calls && (s.calls[c].CheckFailure? || s.calls[c].SendFailure?) ==> s.failer == Some(c))
    && (s.failer.Some? ==> s.wins != [] && s.wins[0].Failed?)
    && (s.failer.Some? ==> s.failer.value in s.calls && PastFailure(s.calls[s.failer.value]))
    && (forall i :: 0 <= i < |s.sent| && s.sent[i].message.WorkerFailed? ==>
          s.failer == Some(s.sent[i].call) && s.calls[s.sent[i].call].Finished?)
    && (forall i, j :: 0 <= i < j < |s.sent| && s.sent[i].message.WorkerFailed? ==> !s.sent[j].message.WorkerFailed?)
  }

  predicate PastFailure(pc: Pc) {
    pc.CheckFailure? || pc.SendFailure? || pc.Finished?
  }

  ghost predicate Fresh(s: State) {
    forall c :: c in s.calls ==> c < s.next
  }

  ghost predicate Inv(s: State) {
    Decided(s) && EndHolds(s) && FailureHolds(s) && Fresh(s) && Ordered(s.generations)
  }

  lemma ReasonStays(wins: seq<Outcome>, more: seq<Outcome>, reason: Reason)
    requires ReasonHolds(wins, reason) && wins <= more
    ensures ReasonHolds(more, reason)
  {
    if Manual in wins {
      var i :| 0 <= i < |wins| && wins[i].Manual?;
      assert more[i].Manual?;
    }
  }

  /** Steps that have nothing to do with sending the end. */
  lemma EndFrame(s: State, t: State, c: CallId, pc: Pc)
    requires EndHolds(s) && t.calls == s.calls[c := pc] && s.wins <= t.wins
    requires t.endEmitted == s.endEmitted && t.emitter == s.emitter
    requires t.sent == s.sent || t.sent == s.sent + [Sent(c, WorkerFailed)]
    requires !pc.ReadReason? && !pc.SendEnd? && (pc.TakeEnd? ==> t.wins != [])
    requires s.emitter == Some(c) ==> (s.calls[c].Cancel? || s.calls[c].Finished?) && pc.Finished?
    ensures EndHolds(t)
  {
    hide ReasonHolds;
    forall reason | ReasonHolds(s.wins, reason)
      ensures ReasonHolds(t.wins, reason)
    {
      ReasonStays(s.wins, t.wins, reason);
    }
    EndOfAppend(s.sent, Sent(c, WorkerFailed));
    hide EndOf;
  }

  lemma EndOfAppend(sent: seq<Sent>, x: Sent)
    ensures EndOf(sent + [x]) <==> EndOf(sent) || x.message.TrackEnded?
  {
    if EndOf(sent) {
      var i :| 0 <= i < |sent| && sent[i].message.TrackEnded?;
      assert (sent + [x])[i].message.TrackEnded?;
    }
    if x.message.TrackEnded? {
      assert (sent + [x])[|sent|].message.TrackEnded?;
    }
  }

  lemma ReasonReadHolds(s: State)
    requires Decided(s) && s.wins != []
    ensures ReasonHolds(s.wins, ReasonOf(s.outcome))
  {
    if |s.wins| > 1 {
      assert s.wins[|s.wins| - 1].Manual?;
    }
  }

  lemma SendingKeepsEnd(s: State, c: CallId)
    requires Decided(s) && EndHolds(s) && c in s.calls
    requires s.calls[c].TakeEnd? || s.calls[c].ReadReason? || s.calls[c].SendEnd?
    ensures EndHolds(Step(s, c))
  {
    hide ReasonHolds, ReasonOf;
    match s.calls[c] {
      case ReadReason => ReasonReadHolds(s);
      case SendEnd(reason) =>
        EndOfAppend(s.sent, Sent(c, TrackEnded(reason)));
        assert !EndOf(s.sent);
      case _ =>
        EndIsByEmitter(s);
    }
    hide Decided;
  }

  lemma EndIsByEmitter(s: State)
    requires EndHolds(s)
    ensures EndOf(s.sent) ==> s.emitter.Some?
  {
  }

  lemma StepKeepsEnd(s: State, c: CallId)
    requires Decided(s) && EndHolds(s) && c in s.calls
    ensures EndHolds(Step(s, c))
  {
    hide EndHolds, Decided, Step;
    if s.calls[c].TakeEnd? || s.calls[c].ReadReason? || s.calls[c].SendEnd? {
      SendingKeepsEnd(s, c);
    } else {
      var t := Step(s, c);
      OutcomeOfWins(s);
      EmitterIsPast(s, c);
      WinsGrow(s, c);
      OrdinaryStep(s, c);
      EndFrame(s, t, c, t.calls[c]);
    }
  }

  lemma OrdinaryStep(s: State, c: CallId)
    requires c in s.calls && !s.calls[c].TakeEnd? && !s.calls[c].ReadReason? && !s.calls[c].SendEnd?
    requires !s.outcome.Running? ==> s.wins != []
    ensures var t := Step(s, c);
      && t.calls == s.calls[c := NextPc(s, s.calls[c])] && t.endEmitted == s.endEmitted && t.emitter == s.emitter
      && (t.sent == s.sent || t.sent == s.sent + [Sent(c, WorkerFailed)])
      && (NextPc(s, s.calls[c]).TakeEnd? ==> t.wins != [])
  {
  }

  lemma WinsGrow(s: State, c: CallId)
    requires c in s.calls
    ensures s.wins <= Step(s, c).wins
  {
    hide Step;
    StepMoves(s, c);
  }

  lemma OutcomeOfWins(s: State)
    requires Decided(s)
    ensures !s.outcome.Running? ==> s.wins != []
  {
  }

  lemma EmitterIsPast(s: State, c: CallId)
    requires EndHolds(s) && c in s.calls
    ensures s.emitter == Some(c) ==> PastSwap(s.calls[c])
  {
  }

  /** Steps that have nothing to do with reporting the failure. */
  lemma FailureFrame(s: State, t: State, c: CallId, pc: Pc)
    requires FailureHolds(s) && c in s.calls && t.calls == s.calls[c := pc] && s.wins <= t.wins && t.failer == s.failer
    requires t.sent == s.sent || (exists reason :: t.sent == s.sent + [Sent(c, TrackEnded(reason))])
    requires !PastFailure(pc) || (pc.Finished? && !s.calls[c].CheckFailure?)
    requires PastFailure(s.calls[c]) ==> pc.Finished?
    ensures FailureHolds(t)
  {
  }

  lemma FailureSteps(s: State, c: CallId)
    requires Decided(s) && FailureHolds(s) && c in s.calls
    requires s.calls[c].SetFailed? || PastFailure(s.calls[c])
    ensures FailureHolds(Step(s, c))
  {
  }

  lemma StepKeepsFailure(s: State, c: CallId)
    requires Decided(s) && FailureHolds(s) && c in s.calls
    ensures FailureHolds(Step(s, c))
  {
    hide FailureHolds, Decided;
    if s.calls[c].SetFailed? || PastFailure(s.calls[c]) {
      FailureSteps(s, c);
    } else {
      var t := Step(s, c);
      FailureFrame(s, t, c, t.calls[c]);
    }
  }

  lemma StepKeepsDecided(s: State, c: CallId)
    requires Decided(s) && c in s.calls
    ensures Decided(Step(s, c)) && s.wins <= Step(s, c).wins
  {
    hide Step;
    StepMoves(s, c);
  }

  lemma StepKeepsFresh(s: State, c: CallId)
    requires Fresh(s) && c in s.calls
    ensures Fresh(Step(s, c))
  {
    hide Step;
    StepMoves(s, c);
  }

  lemma BeginKeeps(s: State, kind: Kind)
    requires Inv(s)
    ensures Inv(Apply(s, Begin(kind)))
  {
    hide ReasonHolds, EndOf;
  }

  lemma EventKeeps(s: State, e: Event)
    requires Inv(s) && Enabled(s, e)
    ensures Inv(Apply(s, e)) && s.wins <= Apply(s, e).wins
  {
    match e {
      case Go(c) =>
        hide Decided, EndHolds, FailureHolds;
        StepKeepsDecided(s, c);
        StepKeepsEnd(s, c);
        StepKeepsFailure(s, c);
        StepKeepsFresh(s, c);
        StepMoves(s, c);
      case Begin(kind) => BeginKeeps(s, kind);
      case Adapter(step) => PastIsForGood(s.generations, step);
    }
  }

  lemma {:induction false} RunKeeps(s: State, events: seq<Event>)
    requires Inv(s) && Exec(Next, s, events).Some?
    ensures Inv(Exec(Next, s, events).value) && s.wins <= Exec(Next, s, events).value.wins
  {
    hide Inv, Apply, Enabled;
    if events != [] {
      RunKeeps(s, events[..|events| - 1]);
      EventKeeps(Exec(Next, s, events[..|events| - 1]).value, events[|events| - 1]);
    }
  }

  lemma StartHolds(own: nat, stored: nat)
    requires stored < own
    ensures Inv(Start(own, stored))
  {
  }

  // ---------------------------------------------------------------- what every interleaving keeps

  /** Each message goes out at most once, and they never contradict each other: an end after or
      before a reported failure is put down to that failure, or, only where the owner had
      stopped the track, to the driver. */
  ghost predicate Consistent(s: State) {
    && (forall i, j | 0 <= i < |s.sent| && 0 <= j < |s.sent| ::
          s.sent[i].message.TrackEnded? && s.sent[j].message.TrackEnded? ==> i == j)
    && (forall i, j | 0 <= i < |s.sent| && 0 <= j < |s.sent| ::
          s.sent[i].message.WorkerFailed? && s.sent[j].message.WorkerFailed? ==> i == j)
    && (forall i, j | 0 <= i < |s.sent| && 0 <= j < |s.sent| ::
          s.sent[i].message.WorkerFailed? && s.sent[j].message.TrackEnded? ==>
          s.sent[j].message.reason == FailedEnd || (s.sent[j].message.reason == DriverEnd && Manual in s.wins))
    && (forall i :: 0 <= i < |s.sent| && s.sent[i].message.TrackEnded? ==>
          ReasonHolds(s.wins, s.sent[i].message.reason) && ReasonIsExact(s.wins, s.sent[i].message.reason))
  }

  /** Once every call has returned, the end was announced exactly if it was claimed. */
  ghost predicate SettlesWhenQuiet(s: State) {
    (forall c :: c in s.calls ==> s.calls[c].Finished?) ==> (s.endEmitted <==> EndOf(s.sent))
  }

  lemma InvMeansConsistent(s: State)
    requires Inv(s)
    ensures Consistent(s) && SettlesWhenQuiet(s)
  {
    hide Decided;
  }

  lemma EveryInterleavingIsConsistent(own: nat, stored: nat, events: seq<Event>)
    requires stored < own && Exec(Next, Start(own, stored), events).Some?
    ensures var s := Exec(Next, Start(own, stored), events).value;
      Consistent(s) && SettlesWhenQuiet(s) && Decided(s)
  {
    hide Exec, Consistent, SettlesWhenQuiet, EndHolds, FailureHolds;
    StartHolds(own, stored);
    RunKeeps(Start(own, stored), events);
    InvMeansConsistent(Exec(Next, Start(own, stored), events).value);
  }

  /** Some call of the kind that takes this step was begun. */
  predicate Backed(pc: Pc, begun: set<Kind>) {
    match pc
    case SetNatural => MarkNatural in begun
    case StoreManual => MarkManual in begun
    case SetFailed | CheckFailure | SendFailure => ReportFailure in begun
    case CheckError | SetError => OnError in begun
    case CheckEnd | CheckManual | SetEnded | TakeEnd | ReadReason | SendEnd(_) => OnEnd in begun
    case Cancel => MarkManual in begun || OnEnd in begun
    case Finished => true
  }

  /** And of the kind that writes this outcome. */
  predicate Written(outcome: Outcome, begun: set<Kind>) {
    match outcome
    case Running => false
    case Natural => MarkNatural in begun
    case Failed => ReportFailure in begun
    case SongbirdError => OnError in begun
    case SongbirdEnded => OnEnd in begun
    case Manual => MarkManual in begun
  }

  /** Everything written, sent or under way goes back to a call of the right kind. */
  ghost predicate Caused(s: State, begun: set<Kind>) {
    && (forall c :: c in s.calls ==> Backed(s.calls[c], begun))
    && (forall i :: 0 <= i < |s.wins| ==> Written(s.wins[i], begun))
    && (s.cancelled ==> MarkManual in begun || OnEnd in begun) && (s.endEmitted ==> OnEnd in begun)
    && (forall i :: 0 <= i < |s.sent| ==>
          (if s.sent[i].message.WorkerFailed? then ReportFailure else OnEnd) in begun)
  }

  ghost function Begun(events: seq<Event>): set<Kind> {
    set i | 0 <= i < |events| && events[i].Begin? :: events[i].kind
  }

  lemma BegunMore(events: seq<Event>)
    requires events != []
    ensures var front, last := events[..|events| - 1], events[|events| - 1];
      Begun(events) == Begun(front) + (if last.Begin? then {last.kind} else {})
  {
    var front, last := events[..|events| - 1], events[|events| - 1];
    forall kind | kind in Begun(front)
      ensures kind in Begun(events)
    {
      var i :| 0 <= i < |front| && front[i].Begin? && front[i].kind == kind;
      assert events[i] == front[i];
    }
  }

  lemma CausesStay(s: State, e: Event, begun: set<Kind>)
    requires Enabled(s, e) && Caused(s, begun)
    ensures Caused(Apply(s, e), begun + (if e.Begin? then {e.kind} else {}))
  {
    if e.Go? {
      CausesStayOnStep(s, e.call, begun);
    }
  }

  lemma CausesStayOnStep(s: State, c: CallId, begun: set<Kind>)
    requires c in s.calls && Caused(s, begun)
    ensures Caused(Step(s, c), begun)
  {
    assert Backed(s.calls[c], begun);
    NextIsBacked(s, s.calls[c], begun);
    hide NextPc, Current, ReasonOf;
  }

  lemma NextIsBacked(s: State, pc: Pc, begun: set<Kind>)
    requires Backed(pc, begun)
    ensures Backed(NextPc(s, pc), begun)
  {
  }

  /** No message and no reason without its cause: an end comes from an end callback, a failure
      from a report, and the end is put down only to something that was called. */
  lemma {:induction false} EverythingHasItsCause(own: nat, stored: nat, events: seq<Event>)
    requires Exec(Next, Start(own, stored), events).Some?
    ensures Caused(Exec(Next, Start(own, stored), events).value, Begun(events))
  {
    hide Apply, Enabled, Caused, Begun;
    if events != [] {
      var front := events[..|events| - 1];
      EverythingHasItsCause(own, stored, front);
      CausesStay(Exec(Next, Start(own, stored), front).value, events[|events| - 1], Begun(front));
      BegunMore(events);
    } else {
      NothingToCause(own, stored);
    }
  }

  lemma NothingToCause(own: nat, stored: nat)
    ensures Caused(Start(own, stored), Begun([]))
  {
  }

  /** The outcome, once decided, can only become the owner's stop, and that for good. */
  lemma {:induction false} OutcomeIsDecidedOnce(s: State, events: seq<Event>)
    requires Inv(s) && Exec(Next, s, events).Some? && !s.outcome.Running?
    ensures var t := Exec(Next, s, events).value;
      (t.outcome == s.outcome || t.outcome.Manual?) && (s.outcome.Manual? ==> t.outcome.Manual?)
  {
    RunKeeps(s, events);
    hide Exec, EndHolds, FailureHolds, Fresh;
    var t := Exec(Next, s, events).value;
    assert s.wins == t.wins[..|s.wins|];
    assert t.wins[|s.wins| - 1] == s.wins[|s.wins| - 1];
  }

  /** Cancellation is for good, and an end callback never returns without it. */
  ghost predicate EndedMeansCancelled(s: State, c: CallId) {
    c in s.calls && s.calls[c].Finished? ==> s.cancelled
  }

  /** A call the owner's stop came before: it can look, and cancel, and nothing else. */
  ghost predicate Late(s: State, c: CallId) {
    && s.outcome.Manual? && c in s.calls
    && (s.calls[c].CheckEnd? || s.calls[c].CheckManual? || s.calls[c].Cancel? || s.calls[c].Finished?)
    && EndedMeansCancelled(s, c)
    && (forall i :: 0 <= i < |s.sent| ==> s.sent[i].call != c)
  }

  lemma LateStays(s: State, e: Event, c: CallId)
    requires Inv(s) && Enabled(s, e) && Late(s, c)
    ensures Late(Apply(s, e), c)
  {
    hide EndHolds, FailureHolds;
  }

  lemma LateBegins(s: State)
    requires Inv(s) && s.outcome.Manual?
    ensures Late(Apply(s, Begin(OnEnd)), s.next)
  {
    hide Decided, ReasonHolds;
    forall i | 0 <= i < |s.sent|
      ensures s.sent[i].call != s.next
    {
      assert s.sent[i].message.TrackEnded? || s.sent[i].message.WorkerFailed?;
    }
  }

  /** An end callback that starts once the owner has stopped the track sends nothing, in every
      continuation, and has cancelled the worker when it returns. */
  lemma {:induction false} StoppedTracksStaySilent(s: State, events: seq<Event>)
    requires Inv(s) && s.outcome.Manual? && Exec(Next, Apply(s, Begin(OnEnd)), events).Some?
    ensures Late(Exec(Next, Apply(s, Begin(OnEnd)), events).value, s.next)
  {
    hide Inv, Late, Apply;
    EventKeeps(s, Begin(OnEnd));
    var t := Apply(s, Begin(OnEnd));
    if events == [] {
      LateBegins(s);
    } else {
      var front := events[..|events| - 1];
      StoppedTracksStaySilent(s, front);
      RunKeeps(t, front);
      LateStays(Exec(Next, t, front).value, events[|events| - 1], s.next);
    }
  }

  // ---------------------------------------------------------------- when a failure may still be announced

  ghost predicate FailureOf(sent: seq<Sent>) {
    exists i :: 0 <= i < |sent| && sent[i].message.WorkerFailed?
  }

  /** The call that won the failure stands between its write and its message. */
  predicate FailurePending(s: State) {
    s.failer.Some? && s.failer.value in s.calls
      && (s.calls[s.failer.value].CheckFailure? || s.calls[s.failer.value].SendFailure?)
  }

  /** The outcome is decided, and no failure is on its way. */
  predicate Quiet(s: State) {
    !s.outcome.Running? && !FailurePending(s)
  }

  /** `t` has sent what `s` had, and since then at most the end. */
  ghost predicate OnlyEndsSince(s: State, t: State) {
    s.sent <= t.sent && forall i :: |s.sent| <= i < |t.sent| ==> t.sent[i].message.TrackEnded?
  }

  lemma QuietStays(s: State, e: Event)
    requires Inv(s) && Enabled(s, e) && Quiet(s)
    ensures Quiet(Apply(s, e)) && OnlyEndsSince(s, Apply(s, e))
  {
    hide EndHolds, Decided;
  }

  lemma {:induction false} QuietForGood(s: State, events: seq<Event>)
    requires Inv(s) && Quiet(s) && Exec(Next, s, events).Some?
    ensures Quiet(Exec(Next, s, events).value) && OnlyEndsSince(s, Exec(Next, s, events).value)
  {
    hide Inv, Quiet, Apply, Enabled;
    if events != [] {
      QuietForGood(s, events[..|events| - 1]);
      RunKeeps(s, events[..|events| - 1]);
      QuietStays(Exec(Next, s, events[..|events| - 1]).value, events[|events| - 1]);
    }
  }

  predicate Sending(s: State) {
    s.failer.Some? && s.failer.value in s.calls && s.calls[s.failer.value].SendFailure?
  }

  /** A failure can still get through: its message is the next step, or the track's turn is not
      over, and the outcome is open or was won by a call that has not looked yet. */
  predicate MayStillFail(s: State) {
    Sending(s) || ((s.outcome.Running? || FailurePending(s)) && !Past(s.generations))
  }

  lemma HopelessStays(s: State, e: Event)
    requires Inv(s) && Enabled(s, e) && !MayStillFail(s)
    ensures !MayStillFail(Apply(s, e)) && OnlyEndsSince(s, Apply(s, e))
  {
    hide EndHolds, Decided;
    if Quiet(s) {
      QuietStays(s, e);
    } else if e.Adapter? {
      PastIsForGood(s.generations, e.step);
    }
  }

  lemma {:induction false} HopelessForGood(s: State, events: seq<Event>)
    requires Inv(s) && !MayStillFail(s) && Exec(Next, s, events).Some?
    ensures !MayStillFail(Exec(Next, s, events).value) && OnlyEndsSince(s, Exec(Next, s, events).value)
  {
    hide Inv, MayStillFail, Apply, Enabled;
    if events != [] {
      HopelessForGood(s, events[..|events| - 1]);
      RunKeeps(s, events[..|events| - 1]);
      HopelessStays(Exec(Next, s, events[..|events| - 1]).value, events[|events| - 1]);
    }
  }

  /** The way there: the track is published if it was not, the call looks, and it sends. */
  lemma PendingFailureIsSent(s: State, t: State, c: CallId)
    requires Reaches(Next, s, t) && c in t.calls
    requires t.calls[c].SendFailure? || (t.calls[c].CheckFailure? && !Past(t.generations))
    ensures exists u :: Reaches(Next, s, u) && FailureOf(u.sent)
  {
    hide Reaches, FailureOf;
    var u := t;
    if u.calls[c].CheckFailure? {
      if !Current(u.generations) {
        ReachesBy(Next, s, u, Adapter(Publish));
        u := Apply(u, Adapter(Publish));
      }
      ReachesBy(Next, s, u, Go(c));
      u := Apply(u, Go(c));
    }
    ReachesBy(Next, s, u, Go(c));
    SentFailure(u, c);
  }

  lemma SentFailure(s: State, c: CallId)
    requires c in s.calls && s.calls[c].SendFailure?
    ensures FailureOf(Apply(s, Go(c)).sent)
  {
    assert Apply(s, Go(c)).sent[|s.sent|].message.WorkerFailed?;
  }

  /** Exactly when a failure not yet announced may still be. Once an end is announced the
      outcome is decided, so a failure can follow it only if the call that won it is about to
      send, or is about to look and the track has not been replaced or stopped. */
  lemma FailureIsStillToComeIff(s: State)
    requires Inv(s) && !FailureOf(s.sent)
    ensures (exists t :: Reaches(Next, s, t) && FailureOf(t.sent)) <==> MayStillFail(s)
    ensures EndOf(s.sent) ==> !s.outcome.Running?
  {
    hide FailureOf, Inv;
    EndIsDecided(s);
    ReachesItself(Next, s);
    if FailurePending(s) && MayStillFail(s) {
      PendingFailureIsSent(s, s, s.failer.value);
    } else if MayStillFail(s) {
      var t := Apply(s, Begin(ReportFailure));
      ReachesBy(Next, s, s, Begin(ReportFailure));
      ReachesBy(Next, s, t, Go(s.next));
      PendingFailureIsSent(s, Apply(t, Go(s.next)), s.next);
    } else if exists t :: Reaches(Next, s, t) && FailureOf(t.sent) {
      var t :| Reaches(Next, s, t) && FailureOf(t.sent);
      var events :| Exec(Next, s, events) == Some(t);
      HopelessForGood(s, events);
      FailureIsOld(s, t);
      assert false;
    }
  }

  lemma FailureIsOld(s: State, t: State)
    requires OnlyEndsSince(s, t) && FailureOf(t.sent)
    ensures FailureOf(s.sent)
  {
    var i :| 0 <= i < |t.sent| && t.sent[i].message.WorkerFailed?;
    assert s.sent[i] == t.sent[i];
  }

  lemma EndIsDecided(s: State)
    requires Inv(s)
    ensures EndOf(s.sent) ==> !s.outcome.Running?
  {
    hide FailureHolds;
  }

  /** What a caller can rely on: an end announced once every report of a failure has returned
      comes after the message of that failure, in every continuation. */
  lemma ReturnedReportsComeFirst(s: State, events: seq<Event>, i: nat, j: nat)
    requires Inv(s) && Quiet(s) && Exec(Next, s, events).Some?
    requires var t := Exec(Next, s, events).value;
      |s.sent| <= i < |t.sent| && t.sent[i].message.TrackEnded? && j < |t.sent| && t.sent[j].message.WorkerFailed?
    ensures j < i
  {
    hide Inv, Exec, Quiet;
    QuietForGood(s, events);
  }

  /** A worker that has won its write but not yet sent may be overtaken by the whole end
      callback: its failure is then announced after the end it explains. */
  lemma FailureMayFollowTheEnd()
    ensures exists s ::
      Reaches(Next, Start(1, 0), s) && s.sent == [Sent(1, TrackEnded(FailedEnd)), Sent(0, WorkerFailed)]
  {
    hide Reaches;
    var start := Start(1, 0);
    var s := FailureWinsAndEndBegins(start);
    for i := 0 to 6
      invariant Reaches(Next, start, s)
        && s.calls == map[0 := SendFailure,
           1 := [CheckEnd, CheckManual, SetEnded, TakeEnd, ReadReason, SendEnd(FailedEnd), Cancel][i]]
      invariant s.outcome == Failed && Current(s.generations) && s.endEmitted == (i > 3)
      invariant s.sent == if i < 6 then [] else [Sent(1, TrackEnded(FailedEnd))]
    {
      ReachesBy(Next, start, s, Go(1));
      s := Apply(s, Go(1));
    }
    ReachesBy(Next, start, s, Go(0));
    s := Apply(s, Go(0));
  }

  /** The track is installed, its worker fails and has looked, and the end callback begins. */
  lemma FailureWinsAndEndBegins(start: State) returns (s: State)
    requires start == Start(1, 0)
    ensures Reaches(Next, start, s) && s.calls == map[0 := SendFailure, 1 := CheckEnd]
      && s.outcome == Failed && Current(s.generations) && !s.endEmitted && s.sent == []
  {
    hide Reaches;
    ReachesItself(Next, start);
    ReachesBy(Next, start, start, Adapter(Publish));
    s := Apply(start, Adapter(Publish));
    ReachesBy(Next, start, s, Begin(ReportFailure));
    s := Apply(s, Begin(ReportFailure));
    for i := 0 to 2
      invariant Reaches(Next, start, s) && s.calls == map[0 := [SetFailed, CheckFailure, SendFailure][i]]
        && s.outcome == (if i == 0 then Running else Failed) && Current(s.generations) && !s.endEmitted
        && s.sent == [] && s.next == 1
    {
      ReachesBy(Next, start, s, Go(0));
      s := Apply(s, Go(0));
    }
    ReachesBy(Next, start, s, Begin(OnEnd));
    s := Apply(s, Begin(OnEnd));
  }

  // ---------------------------------------------------------------- the calls as code

  /** What no step takes back. */
  ghost predicate Persists(s: State, t: State) {
    && s.wins <= t.wins && s.sent <= t.sent && (s.cancelled ==> t.cancelled) && (s.endEmitted ==> t.endEmitted)
    && (s.outcome.Manual? ==> t.outcome.Manual?) && (!s.outcome.Running? ==> !t.outcome.Running?)
  }

  lemma PersistsItself(s: State)
    ensures Persists(s, s)
  {
  }

  lemma PersistsOn(s: State, t: State, u: State)
    requires Persists(s, t) && Persists(t, u)
    ensures Persists(s, u)
  {
  }

  lemma OneEventPersists(s: State, e: Event)
    requires Enabled(s, e)
    ensures Persists(s, Apply(s, e))
  {
    hide Step;
    if e.Go? {
      StepMoves(s, e.call);
    }
  }

  lemma OthersLeaveCall(s: State, e: Event, c: CallId)
    requires Inv(s) && Enabled(s, e) && e != Go(c) && c in s.calls
    ensures c in Apply(s, e).calls && Apply(s, e).calls[c] == s.calls[c]
  {
    hide EndHolds, FailureHolds, Decided, Step;
    if e.Go? {
      StepMoves(s, e.call);
    }
  }

  /** A write that takes effect on an open outcome only. */
  ghost predicate Wrote(s: State, t: State, outcome: Outcome) {
    t.sent == s.sent && if s.outcome.Running? then t.outcome == outcome && t.wins == s.wins + [outcome]
      else t.outcome == s.outcome && t.wins == s.wins
  }

  ghost predicate Told(s: State, c: CallId, message: Message) {
    Sent(c, message) in s.sent
  }

  lemma LastIsTold(s: State, c: CallId)
    requires c in s.calls && s.calls[c].SendFailure?
    ensures Told(Step(s, c), c, WorkerFailed)
  {
    assert Step(s, c).sent[|s.sent|] == Sent(c, WorkerFailed);
  }

  class Lifecycle {
    ghost const origin: State
    /** The shared atomics, and where every call stands. */
    var state: State

    ghost predicate Valid()
      reads this
    {
      Inv(origin) && Reaches(Next, origin, state) && Inv(state)
    }

    ghost predicate At(c: CallId, pc: Pc)
      reads this
    {
      Valid() && c in state.calls && state.calls[c] == pc
    }

    constructor (own: nat, stored: nat)
      requires stored < own
      ensures Valid() && origin == state == Start(own, stored)
    {
      hide Inv, Reaches;
      origin, state := Start(own, stored), Start(own, stored);
      StartHolds(own, stored);
      ReachesItself(Next, Start(own, stored));
    }

    method Do(e: Event)
      requires Valid() && Enabled(state, e)
      modifies this
      ensures Valid() && state == Apply(old(state), e) && Persists(old(state), state)
    {
      hide Inv, Reaches, Apply;
      ReachesBy(Next, origin, state, e);
      EventKeeps(state, e);
      OneEventPersists(state, e);
      state := Apply(state, e);
    }

    /** Every other call, the player and the next track move as they like. */
    method Interfere(c: CallId)
      requires Valid() && c in state.calls
      modifies this
      ensures At(c, old(state.calls[c])) && Persists(old(state), state)
    {
      hide Inv, Reaches, Persists, Apply;
      PersistsItself(state);
      var steps :| 0 <= steps;
      for i := 0 to steps
        invariant At(c, old(state.calls[c])) && Persists(old(state), state)
      {
        var e: Event := *;
        if Enabled(state, e) && e != Go(c) {
          OthersLeaveCall(state, e, c);
          ghost var before := state;
          Do(e);
          PersistsOn(old(state), before, state);
        }
      }
    }

    /** One atomic step of a call, whatever the others did before it. */
    method Advance(c: CallId) returns (ghost seen: State)
      requires Valid() && c in state.calls
      modifies this
      ensures Valid() && c in seen.calls && seen.calls[c] == old(state.calls[c]) && state == Step(seen, c)
      ensures Persists(old(state), seen) && Persists(seen, state) && Persists(old(state), state)
      ensures At(c, NextPc(seen, seen.calls[c]))
      ensures (seen.calls[c].Cancel? ==> state.cancelled) && (state.calls[c].ReadReason? ==> state.endEmitted)
    {
      hide Inv, Reaches, Persists, Step;
      Interfere(c);
      seen := state;
      Do(Go(c));
      PersistsOn(old(state), seen, state);
      StepFacts(seen, c);
    }

    method Enter(kind: Kind) returns (c: CallId)
      requires Valid()
      modifies this
      ensures At(c, FirstStep(kind)) && Persists(old(state), state)
    {
      hide Inv, Reaches, Persists;
      c := state.next;
      Do(Begin(kind));
    }

    /** `seen` is the moment of the write: it takes effect exactly on an open outcome. */
    method MarkNatural() returns (ghost seen: State)
      requires Valid()
      modifies this
      ensures Valid() && Persists(old(state), seen) && Persists(old(state), state) && !state.outcome.Running?
      ensures Wrote(seen, state, Natural)
    {
      hide Inv, Reaches, Decided, Persists;
      var c := Enter(Kind.MarkNatural);
      ghost var before := state;
      seen := Advance(c);
      PersistsOn(old(state), before, seen);
      PersistsOn(old(state), before, state);
    }

    /** Stops the track for good: nothing that comes later undoes it. */
    method MarkManual()
      requires Valid()
      modifies this
      ensures Valid() && Persists(old(state), state) && state.outcome.Manual? && state.cancelled
    {
      hide Inv, Reaches, Decided;
      var c := Enter(Kind.MarkManual);
      ghost var seen := Advance(c);
      seen := Advance(c);
    }

    /** When the report that won the failure has returned, none is on its way any more, so an
        end announced later follows it. */
    method ReportWorkerFailure() returns (c: CallId, ghost seen: State, ghost looked: State)
      requires Valid()
      modifies this
      ensures At(c, Finished) && Persists(old(state), state) && !state.outcome.Running?
      ensures state.failer == Some(c) ==> Quiet(state)
      ensures Persists(old(state), seen) && Persists(seen, looked) && Persists(looked, state)
      ensures seen.outcome.Running? && Current(looked.generations) ==> Told(state, c, WorkerFailed)
      ensures !seen.outcome.Running? || !Current(looked.generations) ==> state.sent == looked.sent
    {
      hide Inv, Reaches, Decided, Persists;
      c := Enter(ReportFailure);
      ghost var before := state;
      seen := Advance(c);
      PersistsOn(old(state), before, seen);
      PersistsOn(old(state), before, state);
      looked := state;
      PersistsItself(state);
      if state.calls[c] == CheckFailure {
        ghost var before := state;
        looked := Advance(c);
        PersistsOn(seen, before, looked);
        PersistsOn(old(state), before, state);
        if state.calls[c] == SendFailure {
          ghost var between := state;
          ghost var last := Advance(c);
          PersistsOn(looked, between, state);
          PersistsOn(before, between, state);
          PersistsOn(old(state), between, state);
          LastIsTold(last, c);
        }
        PersistentFacts(before, state, c);
      }
    }

    /** `looked` is the moment of the look, `seen` that of the write: the error of a track that
        is not current changes nothing, otherwise it takes effect exactly on an open outcome. */
    method SongbirdError() returns (ghost looked: State, ghost seen: State)
      requires Valid()
      modifies this
      ensures Valid() && Persists(old(state), looked) && Persists(looked, seen) && Persists(old(state), state)
      ensures if Current(looked.generations) then Wrote(seen, state, Outcome.SongbirdError)
        else state.wins == looked.wins && state.sent == looked.sent
    {
      hide Inv, Reaches, Decided, Persists;
      var c := Enter(OnError);
      ghost var before := state;
      looked := Advance(c);
      PersistsOn(old(state), before, looked);
      PersistsOn(old(state), before, state);
      seen := looked;
      PersistsItself(looked);
      if state.calls[c] == SetError {
        before := state;
        seen := Advance(c);
        PersistsOn(old(state), before, state);
        PersistsOn(looked, before, seen);
      }
    }

    /** The end callback: it tells whether it was the one to announce the end, which a stopped
        track never is. */
    method SongbirdEnd() returns (c: CallId, announced: bool, ghost looked: State)
      requires Valid()
      modifies this
      ensures Valid() && Persists(old(state), looked) && Persists(old(state), state) && state.cancelled
      ensures Current(looked.generations) ==> state.endEmitted || state.outcome.Manual?
      ensures !Current(looked.generations) ==> !announced
      ensures announced ==> state.endEmitted && !old(state.outcome.Manual?) && SentBy(state, c)
    {
      hide Inv, Reaches, Step, Persists;
      c := Enter(OnEnd);
      ghost var before := state;
      looked := Advance(c);
      PersistsOn(old(state), before, looked);
      PersistsOn(old(state), before, state);
      PersistentFacts(old(state), state, c);
      announced := false;
      if state.calls[c] == CheckManual {
        before := state;
        announced := Announce(c);
        PersistsOn(old(state), before, state);
      }
      before := state;
      ghost var seen := Advance(c);
      PersistsOn(old(state), before, state);
      PersistentFacts(before, state, c);
    }

    /** The end callback of a track that is current. */
    method Announce(c: CallId) returns (announced: bool)
      requires At(c, CheckManual)
      modifies this
      ensures At(c, Cancel) && Persists(old(state), state) && (state.endEmitted || state.outcome.Manual?)
      ensures announced ==> state.endEmitted && !old(state.outcome.Manual?) && SentBy(state, c)
    {
      hide Inv, Reaches, Step, Persists;
      ghost var seen := Advance(c);
      PersistentFacts(old(state), seen, c);
      PersistentFacts(seen, state, c);
      announced := false;
      if state.calls[c] == SetEnded {
        ghost var before := state;
        seen := Advance(c);
        PersistsOn(old(state), before, state);
        before := state;
        seen := Advance(c);
        PersistsOn(old(state), before, state);
        PersistentFacts(seen, state, c);
        if state.calls[c] == ReadReason {
          announced := true;
          before := state;
          SendReason(c);
          PersistsOn(old(state), before, state);
        }
      }
    }

    /** The winner of the swap reads the outcome and announces the end. */
    method SendReason(c: CallId)
      requires At(c, ReadReason) && state.endEmitted
      modifies this
      ensures At(c, Cancel) && Persists(old(state), state) && state.endEmitted && SentBy(state, c)
    {
      hide Inv, Reaches, Step, Persists;
      ghost var seen := Advance(c);
      ghost var before := state;
      PersistentFacts(old(state), before, c);
      seen := Advance(c);
      PersistsOn(old(state), before, state);
      PersistentFacts(before, state, c);
      SentIsLast(seen, c);
    }
  }

  ghost predicate SentBy(s: State, c: CallId) {
    exists i :: 0 <= i < |s.sent| && s.sent[i].call == c && s.sent[i].message.TrackEnded?
  }

  lemma SentIsLast(s: State, c: CallId)
    requires c in s.calls && s.calls[c].SendEnd?
    ensures SentBy(Step(s, c), c)
  {
    assert Step(s, c).sent[|s.sent|] == Sent(c, TrackEnded(s.calls[c].reason));
  }

  lemma PersistentFacts(s: State, t: State, c: CallId)
    requires Persists(s, t)
    ensures (SentBy(s, c) ==> SentBy(t, c)) && (s.endEmitted ==> t.endEmitted)
      && (s.outcome.Manual? ==> t.outcome.Manual?) && (!s.outcome.Running? ==> !t.outcome.Running?)
  {
    if SentBy(s, c) {
      var i :| 0 <= i < |s.sent| && s.sent[i].call == c && s.sent[i].message.TrackEnded?;
      assert t.sent[i] == s.sent[i];
    }
  }

  lemma StepFacts(s: State, c: CallId)
    requires c in s.calls
    ensures var t := Step(s, c);
      && c in t.calls && t.calls[c] == NextPc(s, s.calls[c])
      && (s.calls[c].Cancel? ==> t.cancelled) && (t.calls[c].ReadReason? ==> t.endEmitted)
  {
  }
}
