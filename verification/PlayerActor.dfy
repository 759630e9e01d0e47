/** The guild player as a command target: the gate every envelope passes
    (crates/pepeaudio-core/src/command_envelope.rs), the idempotency window
    (crates/pepeaudio-player/src/actor/commands.rs) and what a worker reports of the outcome
    (crates/pepeaudio-runtime/src/command_outcome.rs). */
module PlayerActor {
  import opened Options

  type CommandId = nat
  type GuildId = nat
  type Key = nat
  type Time = nat

  const U64_MAX := 0xFFFF_FFFF_FFFF_FFFF
  const IDEMPOTENCY_WINDOW := 1024

  /** `media` tells the EnqueueMedia commands from those the player applies itself. */
  datatype Envelope = Envelope(key: Key, guild: GuildId, expected: nat, deadline: Time, media: bool)

  datatype ValidationError =
    | GuildMismatch | DeadlineExpired | StaleRevision(actual: nat) | UnavailableInState
    | NoCurrentTrack | NoPreviousTrack | QueuedTrackNotFound | TrackNotSeekable | SeekPastEnd | InvalidMediaInput

  datatype PlayerError =
    | ActorStopped | RevisionConflict(actual: nat) | NotConnected | VoiceChannelMismatch | QueueFull | DuplicateTrack
    | InvalidTrack | InvalidCommand(reason: ValidationError) | SideEffect | RevisionExhausted
    | IdleGenerationExhausted | TaskFailed

  datatype Code =
    | ResultExpired | CommandExpired | NotAuthorized | IdempotencyReplayed | StateConflict | PlayerNotConnected
    | WrongVoiceChannel | PlayerQueueFull | AlreadyQueued | StateExhausted | NothingPlaying | NothingPrevious
    | NotQueued | CannotSeek | SeekTooFar | BadMediaInput | InvalidPlayerState | MediaFailure

  datatype Result =
    | Applied(revision: nat)
    | Denied(code: Code)
    | Rejected(code: Code, current: Option<nat>)

  // ---------------------------------------------------------------- the player

  /** A change, or an answer that promises one: an envelope taken by `apply_command` (`ok` when
      it was answered with success), a media batch queued, or anything that did not come
      through a command. */
  datatype Record =
    | ByCommand(command: CommandId, envelope: Envelope, before: nat, after: nat, at: Time, ok: bool)
    | ByMedia(command: CommandId, envelope: Envelope, before: nat, after: nat)
    | Outside(before: nat, after: nat)

  datatype Player = Player(guild: GuildId, revision: nat, recent: seq<Key>, log: seq<Record>)

  /** How the command itself goes once the envelope is accepted. The last case is a change
      whose idle timer could not be set: the revision is taken, the answer is an error. */
  datatype Execution =
    | Invalid(reason: ValidationError) | Fails(error: PlayerError) | NoChange | Change | ChangeThenFail

  datatype Reply = Ok(guild: GuildId, revision: nat) | PlayerFailed(error: PlayerError) | Refused(code: Code) | Retry

  function Gate(e: Envelope, p: Player, now: Time): (r: Option<ValidationError>)
    ensures r.None? <==> e.guild == p.guild && now < e.deadline && e.expected == p.revision
  {
    if e.guild != p.guild then Some(GuildMismatch)
    else if now >= e.deadline then Some(DeadlineExpired)
    else if e.expected != p.revision then Some(StaleRevision(p.revision))
    else None
  }

  function Remember(recent: seq<Key>, key: Key): seq<Key> {
    (if |recent| == IDEMPOTENCY_WINDOW then recent[1..] else recent) + [key]
  }

  function Succeed(p: Player, c: CommandId, e: Envelope, now: Time, after: nat): Player {
    Player(p.guild, after, Remember(p.recent, e.key), p.log + [ByCommand(c, e, p.revision, after, now, true)])
  }

  function ApplyCommand(p: Player, c: CommandId, e: Envelope, now: Time, x: Execution): (Player, Reply) {
    if e.key in p.recent then (p, Ok(p.guild, p.revision))
    else
      var refused := Gate(e, p, now);
      if refused.Some? then (p, PlayerFailed(InvalidCommand(refused.value)))
      else
        match x
        case Invalid(reason) => (p, PlayerFailed(InvalidCommand(reason)))
        case Fails(error) => (p, PlayerFailed(error))
        case NoChange => (Succeed(p, c, e, now, p.revision), Ok(p.guild, p.revision))
        case Change =>
          if p.revision >= U64_MAX then (p, PlayerFailed(RevisionExhausted))
          else (Succeed(p, c, e, now, p.revision + 1), Ok(p.guild, p.revision + 1))
        case ChangeThenFail =>
          if p.revision >= U64_MAX then (p, PlayerFailed(RevisionExhausted))
          else
            (p.(revision := p.revision + 1,
                log := p.log + [ByCommand(c, e, p.revision, p.revision + 1, now, false)]),
             PlayerFailed(IdleGenerationExhausted))
  }

  /** The batch of a media command reaches the queue. */
  function QueueMedia(p: Player, c: CommandId, e: Envelope): Player
    requires p.revision < U64_MAX
  {
    p.(revision := p.revision + 1, log := p.log + [ByMedia(c, e, p.revision, p.revision + 1)])
  }

  /** Buttons, playback ends and voice events change the player too. */
  function ChangeOutside(p: Player): Player
    requires p.revision < U64_MAX
  {
    p.(revision := p.revision + 1, log := p.log + [Outside(p.revision, p.revision + 1)])
  }

  // ---------------------------------------------------------------- what the log always is

  /** The keys answered with success, in order. */
  function Keys(log: seq<Record>): seq<Key> {
    if log == [] then []
    else
      var front, last := Keys(log[..|log| - 1]), log[|log| - 1];
      if last.ByCommand? && last.ok then front + [last.envelope.key] else front
  }

  function Last<T>(items: seq<T>, n: nat): seq<T> {
    if |items| <= n then items else items[|items| - n..]
  }

  ghost predicate Spaced(keys: seq<Key>) {
    forall i, j :: 0 <= i < j < |keys| && keys[i] == keys[j] ==> j - i > IDEMPOTENCY_WINDOW
  }

  /** The log accounts for every revision: each entry starts where the one before it ended, the
      last ends at the present one, and an entry is one step, or none for a command without
      effect. */
  ghost predicate Ordered(log: seq<Record>, revision: nat) {
    && (forall i :: 0 <= i < |log| ==> log[i].before <= log[i].after <= revision)
    && (forall i, j :: 0 <= i < j < |log| ==> log[i].after <= log[j].before)
    && (forall i, j :: 0 <= i < |log| && j == i + 1 < |log| ==> log[j].before == log[i].after)
    && (log != [] ==> log[|log| - 1].after == revision)
    && (forall i :: 0 <= i < |log| ==> log[i].after <= log[i].before + 1)
    && (forall i :: 0 <= i < |log| && !log[i].ByCommand? ==> log[i].after == log[i].before + 1)
  }

  /** Every command in the log passed the gate: its guild, its deadline, its revision. */
  ghost predicate Gated(log: seq<Record>, guild: GuildId) {
    forall i :: 0 <= i < |log| && log[i].ByCommand? ==>
      && log[i].envelope.guild == guild && log[i].at < log[i].envelope.deadline
      && log[i].before == log[i].envelope.expected && log[i].after <= log[i].before + 1
  }

  ghost predicate Sound(p: Player) {
    && Ordered(p.log, p.revision) && Gated(p.log, p.guild)
    && p.recent == Last(Keys(p.log), IDEMPOTENCY_WINDOW) && Spaced(Keys(p.log))
  }

  /** A command with this key was answered with success, or its media was queued. */
  ghost predicate Done(log: seq<Record>, key: Key) {
    exists i :: 0 <= i < |log| && (log[i].ByMedia? || (log[i].ByCommand? && log[i].ok)) && log[i].envelope.key == key
  }

  lemma KeysAppend(log: seq<Record>, r: Record)
    ensures Keys(log + [r]) == if r.ByCommand? && r.ok then Keys(log) + [r.envelope.key] else Keys(log)
  {
    assert (log + [r])[..|log|] == log;
  }

  lemma RememberSlides(keys: seq<Key>, key: Key)
    requires key !in Last(keys, IDEMPOTENCY_WINDOW) && Spaced(keys)
    ensures Remember(Last(keys, IDEMPOTENCY_WINDOW), key) == Last(keys + [key], IDEMPOTENCY_WINDOW)
    ensures Spaced(keys + [key])
  {
    var recent := Last(keys, IDEMPOTENCY_WINDOW);
    forall i | 0 <= i < |keys| && |keys| - i <= IDEMPOTENCY_WINDOW
      ensures keys[i] != key
    {
      assert keys[i] == recent[i - (|keys| - |recent|)];
    }
  }

  lemma AppendKeepsOrder(log: seq<Record>, revision: nat, r: Record)
    requires Ordered(log, revision) && r.before == revision <= r.after <= revision + 1
    requires !r.ByCommand? ==> r.after == revision + 1
    ensures Ordered(log + [r], r.after)
  {
  }

  lemma ApplyKeepsSound(p: Player, c: CommandId, e: Envelope, now: Time, x: Execution)
    requires Sound(p)
    ensures Sound(ApplyCommand(p, c, e, now, x).0)
  {
    hide Spaced, Last, Keys, Ordered;
    var q := ApplyCommand(p, c, e, now, x).0;
    if q.log != p.log {
      var r := q.log[|p.log|];
      KeysAppend(p.log, r);
      AppendKeepsOrder(p.log, p.revision, r);
      RememberSlides(Keys(p.log), e.key);
    }
  }

  lemma OthersKeepSound(p: Player, c: CommandId, e: Envelope)
    requires Sound(p) && p.revision < U64_MAX
    ensures Sound(QueueMedia(p, c, e)) && Sound(ChangeOutside(p))
  {
    hide Spaced, Last, Keys, Ordered;
    var media, outside := ByMedia(c, e, p.revision, p.revision + 1), Outside(p.revision, p.revision + 1);
    KeysAppend(p.log, media);
    AppendKeepsOrder(p.log, p.revision, media);
    KeysAppend(p.log, outside);
    AppendKeepsOrder(p.log, p.revision, outside);
  }

  /** Success is only ever answered for a key that was really applied. */
  lemma SuccessIsDone(p: Player, c: CommandId, e: Envelope, now: Time, x: Execution)
    requires Sound(p) && ApplyCommand(p, c, e, now, x).1.Ok?
    ensures Done(ApplyCommand(p, c, e, now, x).0.log, e.key)
  {
    var q := ApplyCommand(p, c, e, now, x).0;
    if e.key in p.recent {
      KeyWasLogged(p.log, e.key);
    } else {
      assert q.log[|p.log|].envelope.key == e.key;
    }
  }

  lemma {:induction false} KeyWasLogged(log: seq<Record>, key: Key)
    requires key in Keys(log)
    ensures Done(log, key)
  {
    var front, last := log[..|log| - 1], log[|log| - 1];
    if last.ByCommand? && last.ok && last.envelope.key == key {
    } else {
      KeyWasLogged(front, key);
      var i :| 0 <= i < |front| && (front[i].ByMedia? || (front[i].ByCommand? && front[i].ok))
        && front[i].envelope.key == key;
      assert log[i] == front[i];
    }
  }

  lemma DoneStays(log: seq<Record>, r: Record, key: Key)
    requires Done(log, key)
    ensures Done(log + [r], key)
  {
    var i :| 0 <= i < |log| && (log[i].ByMedia? || (log[i].ByCommand? && log[i].ok)) && log[i].envelope.key == key;
    assert (log + [r])[i] == log[i];
  }

  /** The optimistic lock: of all envelopes that expect one revision, however often each is
      applied, at most one application ever changes the player. One envelope, taken twice,
      is the special case. */
  lemma OneChangePerRevision(p: Player, i: nat, j: nat)
    requires Sound(p) && i < |p.log| && j < |p.log| && p.log[i].ByCommand? && p.log[j].ByCommand?
    requires p.log[i].before < p.log[i].after && p.log[j].before < p.log[j].after
    requires p.log[i].envelope.expected == p.log[j].envelope.expected
    ensures i == j
  {
  }

  /** The envelope is this guild's, in time, and expects the revision at hand. */
  predicate InForce(e: Envelope, p: Player, now: Time) {
    e.guild == p.guild && now < e.deadline && e.expected == p.revision
  }

  /** How an application comes out, case by case. A key answered lately is answered again and
      nothing happens. Otherwise the first rule violated is named; and of a command in force,
      success takes the key and at most one revision, failure takes neither, but for the change
      whose idle timer could not be set. */
  lemma ApplicationIs(p: Player, c: CommandId, e: Envelope, now: Time, x: Execution)
    ensures var (q, reply) := ApplyCommand(p, c, e, now, x);
      && q.guild == p.guild
      && (e.key in p.recent ==> q == p && reply == Ok(p.guild, p.revision))
      && (e.key !in p.recent && !InForce(e, p, now) ==>
            q == p && reply == PlayerFailed(InvalidCommand(
              if e.guild != p.guild then GuildMismatch
              else if e.deadline <= now then DeadlineExpired else StaleRevision(p.revision))))
      && (e.key !in p.recent && InForce(e, p, now) ==>
            match x
            case Invalid(reason) => q == p && reply == PlayerFailed(InvalidCommand(reason))
            case Fails(error) => q == p && reply == PlayerFailed(error)
            case NoChange => TakenBy(p, q, c, e, now, true, 0) && reply == Ok(p.guild, p.revision)
            case Change =>
              if p.revision < 0xFFFF_FFFF_FFFF_FFFF
              then TakenBy(p, q, c, e, now, true, 1) && reply == Ok(p.guild, p.revision + 1)
              else q == p && reply == PlayerFailed(RevisionExhausted)
            case ChangeThenFail =>
              if p.revision < 0xFFFF_FFFF_FFFF_FFFF
              then TakenBy(p, q, c, e, now, false, 1) && reply == PlayerFailed(IdleGenerationExhausted)
              else q == p && reply == PlayerFailed(RevisionExhausted))
  {
  }

  /** The player took an envelope: one entry more, this many revisions on, and its key
      remembered at the end exactly if it succeeded. */
  ghost predicate TakenBy(p: Player, q: Player, c: CommandId, e: Envelope, now: Time, ok: bool, revisions: nat) {
    && q.revision == p.revision + revisions
    && q.log == p.log + [ByCommand(c, e, p.revision, q.revision, now, ok)]
    && (if ok then q.recent != [] && q.recent[|q.recent| - 1] == e.key else q.recent == p.recent)
  }

  lemma {:induction false} SuccessAt(log: seq<Record>, i: nat)
    requires i < |log| && log[i].ByCommand? && log[i].ok
    ensures |Keys(log[..i])| < |Keys(log)| && Keys(log)[|Keys(log[..i])|] == log[i].envelope.key
  {
    var front := log[..|log| - 1];
    if i < |front| {
      SuccessAt(front, i);
      assert front[..i] == log[..i];
    }
  }

  lemma {:induction false} SuccessOf(log: seq<Record>, k: nat) returns (i: nat)
    requires k < |Keys(log)|
    ensures i < |log| && log[i].ByCommand? && log[i].ok && |Keys(log[..i])| == k
      && log[i].envelope.key == Keys(log)[k]
  {
    var front := log[..|log| - 1];
    if k < |Keys(front)| {
      i := SuccessOf(front, k);
      assert front[..i] == log[..i];
    } else {
      i := |log| - 1;
    }
  }

  /** An earlier success with this key, with at most 1023 later ones. */
  ghost predicate SucceededLately(log: seq<Record>, key: Key) {
    exists i :: 0 <= i < |log| && log[i].ByCommand? && log[i].ok && log[i].envelope.key == key
      && |Keys(log)| - |Keys(log[..i])| <= 1024
  }

  /** How long a success is remembered: the key is answered again without effect exactly while
      fewer than 1024 successes have followed it. */
  lemma ReplayIff(p: Player, key: Key)
    requires Sound(p)
    ensures key in p.recent <==> SucceededLately(p.log, key)
  {
    hide Spaced, Ordered, Gated;
    var keys := Keys(p.log);
    var from := |keys| - |p.recent|;
    if key in p.recent {
      var k :| 0 <= k < |p.recent| && p.recent[k] == key;
      assert keys[from + k] == key;
      var i := SuccessOf(p.log, from + k);
    }
    if SucceededLately(p.log, key) {
      var i :| 0 <= i < |p.log| && p.log[i].ByCommand? && p.log[i].ok && p.log[i].envelope.key == key
        && |keys| - |Keys(p.log[..i])| <= 1024;
      SuccessAt(p.log, i);
      assert p.recent[|Keys(p.log[..i])| - from] == key;
    }
  }

  // ---------------------------------------------------------------- what is reported

  /** The terminal rejection an error stands for; none when the command may be retried. */
  function Rejection(error: PlayerError): Option<Result> {
    match error
    case RevisionConflict(actual) => Some(Rejected(StateConflict, Some(actual)))
    case NotConnected => Some(Rejected(PlayerNotConnected, None))
    case VoiceChannelMismatch => Some(Rejected(WrongVoiceChannel, None))
    case QueueFull => Some(Rejected(PlayerQueueFull, None))
    case DuplicateTrack => Some(Rejected(AlreadyQueued, None))
    case InvalidCommand(reason) => Some(ValidationRejection(reason))
    case RevisionExhausted | IdleGenerationExhausted => Some(Rejected(StateExhausted, None))
    case ActorStopped | InvalidTrack | SideEffect | TaskFailed => None
  }

  function ValidationRejection(reason: ValidationError): Result {
    match reason
    case StaleRevision(actual) => Rejected(StateConflict, Some(actual))
    case DeadlineExpired => Rejected(CommandExpired, None)
    case NoCurrentTrack => Rejected(NothingPlaying, None)
    case NoPreviousTrack => Rejected(NothingPrevious, None)
    case QueuedTrackNotFound => Rejected(NotQueued, None)
    case TrackNotSeekable => Rejected(CannotSeek, None)
    case SeekPastEnd => Rejected(SeekTooFar, None)
    case InvalidMediaInput => Rejected(BadMediaInput, None)
    case GuildMismatch | UnavailableInState => Rejected(InvalidPlayerState, None)
  }

  /** What a run of the command reports; none leaves the command pending. */
  function Report(e: Envelope, reply: Reply): Option<Result> {
    match reply
    case Ok(guild, revision) =>
      Some(if guild == e.guild then Applied(revision) else Rejected(InvalidPlayerState, None))
    case PlayerFailed(error) => Rejection(error)
    case Refused(code) => Some(Rejected(code, None))
    case Retry => None
  }

  /** The report of one application is honest about that application: a command left pending
      changed nothing; `Applied` names the player's revision and a key that was applied; and a
      rejection after a change happens in one case only, when the idle timer could not be set. */
  lemma ReportsAreHonest(p: Player, c: CommandId, e: Envelope, now: Time, x: Execution)
    requires Sound(p)
    ensures var (q, reply) := ApplyCommand(p, c, e, now, x);
      var report := Report(e, reply);
      && (report.None? ==> q == p)
      && (report.Some? && report.value.Applied? ==> report.value.revision == q.revision && Done(q.log, e.key))
      && (report.Some? && !report.value.Applied? && q != p <==>
            e.key !in p.recent && Gate(e, p, now).None? && x.ChangeThenFail? && p.revision < U64_MAX)
  {
    var (q, reply) := ApplyCommand(p, c, e, now, x);
    if reply.Ok? {
      SuccessIsDone(p, c, e, now, x);
    }
  }

  /** What may be retried, and what each code tells of the error behind it. */
  lemma CodesTell(error: PlayerError)
    ensures Rejection(error).None? <==>
              error.ActorStopped? || error.InvalidTrack? || error.SideEffect? || error.TaskFailed?
    ensures Rejection(error).Some? ==> Rejection(error).value.Rejected?
    ensures Rejection(error).Some? ==>
      var code, current := Rejection(error).value.code, Rejection(error).value.current;
      && (current.Some? <==> code.StateConflict?)
      && (code.StateConflict? <==>
            && current.Some?
            && (error == RevisionConflict(current.value) || error == InvalidCommand(StaleRevision(current.value))))
      && (code.PlayerNotConnected? <==> error.NotConnected?)
      && (code.WrongVoiceChannel? <==> error.VoiceChannelMismatch?)
      && (code.PlayerQueueFull? <==> error.QueueFull?)
      && (code.AlreadyQueued? <==> error.DuplicateTrack?)
      && (code.StateExhausted? <==> error.RevisionExhausted? || error.IdleGenerationExhausted?)
      && (code.CommandExpired? <==> error == InvalidCommand(DeadlineExpired))
      && (code.NothingPlaying? <==> error == InvalidCommand(NoCurrentTrack))
      && (code.NothingPrevious? <==> error == InvalidCommand(NoPreviousTrack))
      && (code.NotQueued? <==> error == InvalidCommand(QueuedTrackNotFound))
      && (code.CannotSeek? <==> error == InvalidCommand(TrackNotSeekable))
      && (code.SeekTooFar? <==> error == InvalidCommand(SeekPastEnd))
      && (code.BadMediaInput? <==> error == InvalidCommand(InvalidMediaInput))
      && (code.InvalidPlayerState? <==>
            error == InvalidCommand(GuildMismatch) || error == InvalidCommand(UnavailableInState))
  {
  }

  /** The report of a run: success counts only from the envelope's own guild, no answer leaves
      the command pending, and what the route refused is refused under the route's code. */
  lemma ReportIs(e: Envelope, reply: Reply)
    ensures var report := Report(e, reply);
      && (report.None? <==> reply == Retry || (reply.PlayerFailed? && Rejection(reply.error).None?))
      && (forall revision: nat :: report == Some(Applied(revision)) <==> reply == Ok(e.guild, revision))
      && (reply.Ok? && reply.guild != e.guild ==> report == Some(Rejected(InvalidPlayerState, None)))
      && (reply.Refused? ==> report == Some(Rejected(reply.code, None)))
      && (reply.PlayerFailed? ==> report == Rejection(reply.error))
  {
  }
}
