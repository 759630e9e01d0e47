/** Delivery of one guild's commands (crates/pepeaudio-runtime/src/command_loop.rs) as a step
    machine: any number of runs of `process_command`, for new and redelivered entries, over the
    command store (crates/pepeaudio-storage/src/valkey/), with calls that fail before or after
    taking effect, runs that die, and leases and results that expire. */
module CommandLoop {
  import opened Options
  import opened Runs
  import opened PlayerActor

  type EntryId = nat
  type RunId = nat

  datatype Stored = Pending | Final(result: Result)

  /** An idempotency key is held by a run (the token is the run) or completed. */
  datatype Lease = Held(run: RunId) | Completed

  /** The store; `settled` and `completed` remember what has ever been final or completed. */
  datatype Store = Store(
    submitted: map<CommandId, Envelope>,
    entries: map<EntryId, CommandId>,
    acked: set<EntryId>,
    results: map<CommandId, Stored>,
    leases: map<Key, Lease>,
    settled: set<CommandId>,
    completed: set<Key>)

  /** Where a run stands: the call it makes next, or what it waits for. */
  datatype Pc =
    | Reading | CheckingDeadline | Authorizing | Claiming | Executing | Waiting | Answered(reply: Reply)
    | Completing(result: Result) | Releasing | Recording(result: Result) | Acknowledging | Finished

  datatype Run = Run(entry: EntryId, command: CommandId, pc: Pc)

  datatype Request = Request(run: RunId, command: CommandId)

  datatype State = State(
    guild: GuildId, now: Time, store: Store, player: Player,
    mailbox: seq<Request>, runs: map<RunId, Run>, nextRun: RunId)

  function Start(guild: GuildId, player: GuildId, revision: nat): State {
    State(guild, 0, Store(map[], map[], {}, map[], map[], {}, {}), Player(player, revision, [], []), [], map[], 0)
  }

  // ---------------------------------------------------------------- the store's scripts

  datatype Write = Written | Unchanged | Conflict | LeaseLost

  function ResultWrite(store: Store, c: CommandId, result: Result): Write {
    if c in store.results && store.results[c] == Final(result) then Unchanged
    else if c in store.results && store.results[c].Final? then Conflict
    else Written
  }

  function WriteResult(store: Store, c: CommandId, result: Result): Store {
    if ResultWrite(store, c, result).Conflict? then store
    else store.(results := store.results[c := Final(result)], settled := store.settled + {c})
  }

  function Completion(store: Store, key: Key, run: RunId, c: CommandId, result: Result): Write {
    if key in store.leases && store.leases[key] == Held(run) then ResultWrite(store, c, result) else LeaseLost
  }

  function Complete(store: Store, key: Key, run: RunId, c: CommandId, result: Result): Store {
    var write := Completion(store, key, run, c, result);
    if write.LeaseLost? || write.Conflict? then store
    else
      WriteResult(store, c, result).(leases := store.leases[key := Completed], completed := store.completed + {key})
  }

  function ClaimLease(store: Store, key: Key, run: RunId): Store {
    if key in store.leases then store else store.(leases := store.leases[key := Held(run)])
  }

  function ReleaseLease(store: Store, key: Key, run: RunId): Store {
    if key in store.leases && store.leases[key] == Held(run) then store.(leases := store.leases - {key}) else store
  }

  /** The submitter's script: a pending result and a stream entry, together. */
  function Admit(store: Store, c: CommandId, e: Envelope, entry: EntryId): Store {
    store.(submitted := store.submitted[c := e], entries := store.entries[entry := c],
      results := store.results[c := Pending])
  }

  // ---------------------------------------------------------------- one call of a run

  /** A call answers, fails without effect, or takes effect and fails. */
  datatype Fate = Works | FailsBefore | FailsAfter

  /** What the authorizer says; `Unsure` also stands for a player that cannot be found. */
  datatype Verdict = Allowed | Refusal | Unsure

  function AfterRead(store: Store, c: CommandId, fate: Fate): Pc {
    if fate != Works then Finished
    else if c !in store.results then Recording(Rejected(ResultExpired, None))
    else if store.results[c].Final? then Acknowledging
    else CheckingDeadline
  }

  function AfterClaim(store: Store, key: Key, fate: Fate): Pc {
    if fate != Works then Finished
    else if key !in store.leases then Executing
    else if store.leases[key].Completed? then Recording(Rejected(IdempotencyReplayed, None))
    else Finished
  }

  function AfterWrite(write: Write, fate: Fate): Pc {
    if fate == Works && (write.Written? || write.Unchanged?) then Acknowledging else Finished
  }

  function AfterAnswer(e: Envelope, reply: Reply): Pc {
    var report := Report(e, reply);
    if report.Some? then Completing(report.value) else Releasing
  }

  function Goto(s: State, w: RunId, pc: Pc): State
    requires w in s.runs
  {
    s.(runs := s.runs[w := s.runs[w].(pc := pc)])
  }

  predicate Known(s: State, w: RunId) {
    w in s.runs && s.runs[w].command in s.store.submitted
  }

  /** The next call of run `w`. */
  function Step(s: State, w: RunId, fate: Fate, verdict: Verdict): State
    requires Known(s, w)
  {
    var run := s.runs[w];
    var c, store := run.command, s.store;
    var e := store.submitted[c];
    var happens := fate != FailsBefore;
    match run.pc
    case Reading => Goto(s, w, AfterRead(store, c, fate))
    case CheckingDeadline =>
      Goto(s, w, if s.now >= e.deadline then Recording(Rejected(CommandExpired, None)) else Authorizing)
    case Authorizing =>
      Goto(s, w, match verdict
                 case Allowed => Claiming
                 case Refusal => Recording(Denied(NotAuthorized))
                 case Unsure => Finished)
    case Claiming =>
      Goto(s, w, AfterClaim(store, e.key, fate)).(store := if happens then ClaimLease(store, e.key, w) else store)
    case Executing =>
      if verdict.Unsure? then Goto(s, w, Releasing)
      else Goto(s, w, Waiting).(mailbox := if e.media then s.mailbox else s.mailbox + [Request(w, c)])
    case Answered(reply) => Goto(s, w, AfterAnswer(e, reply))
    case Completing(result) =>
      Goto(s, w, AfterWrite(Completion(store, e.key, w, c, result), fate)).(
        store := if happens then Complete(store, e.key, w, c, result) else store)
    case Releasing =>
      Goto(s, w, Finished).(store := if happens then ReleaseLease(store, e.key, w) else store)
    case Recording(result) =>
      Goto(s, w, AfterWrite(ResultWrite(store, c, result), fate)).(
        store := if happens then WriteResult(store, c, result) else store)
    case Acknowledging =>
      Goto(s, w, Finished).(store := if happens then store.(acked := store.acked + {run.entry}) else store)
    case Waiting | Finished => s
  }

  /** The player takes the oldest request; a run that still waits gets the answer. */
  function PlayerTakes(s: State, x: Execution): State
    requires s.mailbox != [] && s.mailbox[0].command in s.store.submitted
  {
    var request := s.mailbox[0];
    var (player, reply) := ApplyCommand(s.player, request.command, s.store.submitted[request.command], s.now, x);
    var t := s.(player := player, mailbox := s.mailbox[1..]);
    if request.run in s.runs && s.runs[request.run].pc.Waiting? then Goto(t, request.run, Answered(reply)) else t
  }

  // ---------------------------------------------------------------- everything that may happen

  datatype Event =
    | Clock(now: Time)
    | Submit(command: CommandId, envelope: Envelope, entry: EntryId)
    | Begin(entry: EntryId)
    | Crash(run: RunId)
    | Call(run: RunId, fate: Fate, verdict: Verdict)
    | Take(execution: Execution)
    | MediaQueued(command: CommandId)
    | MediaAnswers(run: RunId, reply: Reply)
    | Disturb
    | LeaseExpires(key: Key)
    | ResultExpires(command: CommandId)

  /** A command id always stands for one envelope; an admitted command has no result yet; only
      entries not acknowledged are delivered; and media is answered with success once queued. */
  predicate Enabled(s: State, e: Event) {
    match e
    case Clock(_) => true
    case Submit(c, envelope, entry) =>
      && entry !in s.store.entries && c !in s.store.results && envelope.guild == s.guild
      && (c in s.store.submitted ==> s.store.submitted[c] == envelope)
    case Begin(entry) => entry in s.store.entries && entry !in s.store.acked
    case Crash(_) => true
    case Call(w, _, _) => Known(s, w)
    case Take(_) => s.mailbox != [] && s.mailbox[0].command in s.store.submitted
    case MediaQueued(c) => c in s.store.submitted && s.store.submitted[c].media && s.player.revision < U64_MAX
    case MediaAnswers(w, reply) =>
      && Known(s, w) && s.runs[w].pc.Waiting? && s.store.submitted[s.runs[w].command].media
      && (reply.Ok? ==> exists i :: 0 <= i < |s.player.log| && s.player.log[i].ByMedia? &&
                          s.player.log[i].envelope == s.store.submitted[s.runs[w].command])
      && reply != Refused(IdempotencyReplayed)
    case Disturb => s.player.revision < U64_MAX
    case LeaseExpires(_) => true
    case ResultExpires(_) => true
  }

  function Apply(s: State, e: Event): State
    requires Enabled(s, e)
  {
    match e
    case Clock(now) => s.(now := now)
    case Submit(c, envelope, entry) =>
      s.(store := Admit(s.store, c, envelope, entry))
    case Begin(entry) =>
      s.(runs := s.runs[s.nextRun := Run(entry, s.store.entries[entry], Reading)], nextRun := s.nextRun + 1)
    case Crash(w) => s.(runs := s.runs - {w})
    case Call(w, fate, verdict) => Step(s, w, fate, verdict)
    case Take(x) => PlayerTakes(s, x)
    case MediaQueued(c) => s.(player := QueueMedia(s.player, c, s.store.submitted[c]))
    case MediaAnswers(w, reply) => Goto(s, w, Answered(reply))
    case Disturb => s.(player := ChangeOutside(s.player))
    case LeaseExpires(key) => s.(store := s.store.(leases := s.store.leases - {key}))
    case ResultExpires(c) => s.(store := s.store.(results := s.store.results - {c}))
  }

  function Next(s: State, e: Event): Option<State> {
    if Enabled(s, e) then Some(Apply(s, e)) else None
  }

  // ---------------------------------------------------------------- what always holds

  /** `Applied` is told of a key that was applied, "replayed" of a key that was completed. */
  ghost predicate Honest(result: Result, key: Key, log: seq<Record>, completed: set<Key>) {
    && (result.Applied? ==> Done(log, key))
    && (result == Rejected(IdempotencyReplayed, None) ==> key in completed)
  }

  ghost predicate HonestReport(report: Option<Result>, key: Key, log: seq<Record>, completed: set<Key>) {
    report.Some? ==> Honest(report.value, key, log, completed)
  }

  ghost predicate StoreSound(store: Store, log: seq<Record>) {
    && EntriesSound(store.entries, store.acked, store.submitted, store.settled)
    && ResultsSound(store.results, store.submitted, store.settled, log, store.completed)
    && (forall key :: key in store.leases && store.leases[key].Completed? ==> key in store.completed)
    && Covered(store.completed, store.settled, store.submitted)
  }

  /** Only what was settled is acknowledged. */
  ghost predicate EntriesSound(entries: map<EntryId, CommandId>, acked: set<EntryId>,
        submitted: map<CommandId, Envelope>, settled: set<CommandId>) {
    && (forall entry :: entry in entries ==> entries[entry] in submitted)
    && (forall entry :: entry in acked ==> entry in entries && entries[entry] in settled)
  }

  ghost predicate ResultsSound(results: map<CommandId, Stored>, submitted: map<CommandId, Envelope>,
        settled: set<CommandId>, log: seq<Record>, completed: set<Key>) {
    && (forall c :: c in results ==> c in submitted)
    && (forall c :: c in results && results[c].Final? ==>
          c in settled && Honest(results[c].result, submitted[c].key, log, completed))
  }

  /** For every completed key some command with it has had a final result. */
  ghost predicate Covered(completed: set<Key>, settled: set<CommandId>, submitted: map<CommandId, Envelope>) {
    forall key :: key in completed ==> exists c :: c in settled && c in submitted && submitted[c].key == key
  }

  ghost predicate RunSound(run: Run, store: Store, log: seq<Record>) {
    && run.entry in store.entries && store.entries[run.entry] == run.command && run.command in store.submitted
    && PcSound(run.pc, run.command, store.submitted[run.command], store.settled, log, store.completed)
  }

  ghost predicate PcSound(pc: Pc, c: CommandId, e: Envelope, settled: set<CommandId>, log: seq<Record>,
        completed: set<Key>) {
    match pc
    case Acknowledging => c in settled
    case Answered(reply) => HonestReport(Report(e, reply), e.key, log, completed)
    case Completing(result) => Honest(result, e.key, log, completed)
    case Recording(result) => Honest(result, e.key, log, completed)
    case _ => true
  }

  ghost predicate Inv(s: State) {
    && Sound(s.player) && StoreSound(s.store, s.player.log)
    && (forall w :: w in s.runs ==> RunSound(s.runs[w], s.store, s.player.log))
    && (forall w :: w in s.runs ==> w < s.nextRun)
    && (forall i :: 0 <= i < |s.mailbox| ==> RequestSound(s.mailbox[i], s.store, s.runs, s.nextRun))
  }

  ghost predicate RequestSound(r: Request, store: Store, runs: map<RunId, Run>, nextRun: RunId) {
    && r.command in store.submitted && r.run < nextRun
    && (r.run in runs ==> runs[r.run].command == r.command)
  }

  // ---------------------------------------------------------------- every step keeps it

  /** How the store and the log may grow without disturbing anyone. */
  ghost predicate Grows(a: Store, b: Store) {
    && (forall c :: c in a.submitted ==> c in b.submitted && b.submitted[c] == a.submitted[c])
    && (forall entry :: entry in a.entries ==> entry in b.entries && b.entries[entry] == a.entries[entry])
    && a.settled <= b.settled && a.completed <= b.completed
  }

  lemma HonestStays(result: Result, key: Key, log: seq<Record>, more: seq<Record>, completed: set<Key>, since: set<Key>)
    requires Honest(result, key, log, completed) && completed <= since
    requires more == log || (|more| == |log| + 1 && more[..|log|] == log)
    ensures Honest(result, key, more, since)
  {
    if result.Applied? && more != log {
      assert more == log + [more[|log|]];
      DoneStays(log, more[|log|], key);
    }
  }

  lemma RunStaysSound(run: Run, a: Store, b: Store, log: seq<Record>, more: seq<Record>)
    requires RunSound(run, a, log) && Grows(a, b)
    requires more == log || (|more| == |log| + 1 && more[..|log|] == log)
    ensures RunSound(run, b, more)
  {
    hide Honest, Report;
    var e := a.submitted[run.command];
    match run.pc
    case Completing(result) => HonestStays(result, e.key, log, more, a.completed, b.completed);
    case Recording(result) => HonestStays(result, e.key, log, more, a.completed, b.completed);
    case Answered(reply) =>
      if Report(e, reply).Some? {
        HonestStays(Report(e, reply).value, e.key, log, more, a.completed, b.completed);
      }
    case _ =>
  }

  lemma StoreStaysSound(store: Store, log: seq<Record>, more: seq<Record>)
    requires StoreSound(store, log)
    requires more == log || (|more| == |log| + 1 && more[..|log|] == log)
    ensures StoreSound(store, more)
  {
    hide Honest, EntriesSound, Covered;
    forall c | c in store.results && store.results[c].Final?
      ensures Honest(store.results[c].result, store.submitted[c].key, more, store.completed)
    {
      HonestStays(store.results[c].result, store.submitted[c].key, log, more, store.completed, store.completed);
    }
  }

  lemma CoveredGrows(completed: set<Key>, settled: set<CommandId>, submitted: map<CommandId, Envelope>, c: CommandId)
    requires Covered(completed, settled, submitted)
    ensures Covered(completed, settled + {c}, submitted)
    ensures c in settled && c in submitted ==> Covered(completed + {submitted[c].key}, settled, submitted)
  {
    forall key | key in completed
      ensures exists d :: d in settled + {c} && d in submitted && submitted[d].key == key
    {
      var d :| d in settled && d in submitted && submitted[d].key == key;
      assert d in settled + {c};
    }
  }

  lemma WriteKeepsStore(store: Store, c: CommandId, result: Result, log: seq<Record>)
    requires StoreSound(store, log) && c in store.submitted
      && Honest(result, store.submitted[c].key, log, store.completed)
    ensures StoreSound(WriteResult(store, c, result), log) && Grows(store, WriteResult(store, c, result))
    ensures !ResultWrite(store, c, result).Conflict? ==>
              c in WriteResult(store, c, result).settled && WriteResult(store, c, result).results[c] == Final(result)
  {
    hide Honest, Covered;
    CoveredGrows(store.completed, store.settled, store.submitted, c);
  }

  /** The conditional completion: without the caller's lease nothing changes; otherwise a write
      that reports success leaves this very result behind. */
  /** Another final result stands on record. */
  predicate Contradicted(store: Store, c: CommandId, result: Result) {
    IsFinal(store, c) && store.results[c].result != result
  }

  /** What a write of a result is told, and what it leaves behind. */
  lemma WriteIs(store: Store, c: CommandId, result: Result)
    ensures var b, write := WriteResult(store, c, result), ResultWrite(store, c, result);
      && (write == Conflict <==> Contradicted(store, c, result))
      && (write == Unchanged <==> IsFinal(store, c) && store.results[c].result == result)
      && (write == Written <==> !IsFinal(store, c))
      && b.leases == store.leases && b.acked == store.acked && b.entries == store.entries
      && (if write == Conflict then b == store else b.results == store.results[c := Final(result)])
  {
  }

  lemma CompleteKeepsStore(store: Store, w: RunId, c: CommandId, result: Result, log: seq<Record>)
    requires StoreSound(store, log) && c in store.submitted
      && Honest(result, store.submitted[c].key, log, store.completed)
    ensures var key := store.submitted[c].key;
      var b, write := Complete(store, key, w, c, result), Completion(store, key, w, c, result);
      && StoreSound(b, log) && Grows(store, b)
      && (write.Written? || write.Unchanged? ==> c in b.settled && b.results[c] == Final(result))
      && (!(key in store.leases && store.leases[key] == Held(w)) ==> b == store)
      && (b != store ==> key in b.leases && b.leases[key] == Completed)
      && (write.Written? || write.Unchanged? <==>
            key in store.leases && store.leases[key] == Held(w) && !Contradicted(store, c, result))
      && (write.LeaseLost? <==> !(key in store.leases && store.leases[key] == Held(w)))
  {
    hide Honest, Covered, EntriesSound, ResultsSound;
    var key := store.submitted[c].key;
    var a := WriteResult(store, c, result);
    WriteKeepsStore(store, c, result, log);
    CoveredGrows(a.completed, a.settled, a.submitted, c);
    MoreKeysAreFine(a, key, log);
  }

  lemma MoreKeysAreFine(a: Store, key: Key, log: seq<Record>)
    requires ResultsSound(a.results, a.submitted, a.settled, log, a.completed)
    ensures ResultsSound(a.results, a.submitted, a.settled, log, a.completed + {key})
  {
    hide Honest;
    forall c | c in a.results && a.results[c].Final?
      ensures Honest(a.results[c].result, a.submitted[c].key, log, a.completed + {key})
    {
      HonestStays(a.results[c].result, a.submitted[c].key, log, log, a.completed, a.completed + {key});
    }
  }

  lemma LeasesKeepStore(a: Store, key: Key, w: RunId, log: seq<Record>)
    requires StoreSound(a, log)
    ensures StoreSound(ClaimLease(a, key, w), log) && Grows(a, ClaimLease(a, key, w))
    ensures ClaimLease(a, key, w).completed == a.completed
    ensures StoreSound(ReleaseLease(a, key, w), log) && Grows(a, ReleaseLease(a, key, w))
    ensures StoreSound(a.(leases := a.leases - {key}), log)
  {
    hide Honest, Covered, EntriesSound, ResultsSound;
  }

  lemma AckKeepsStore(a: Store, entry: EntryId, log: seq<Record>)
    requires StoreSound(a, log) && entry in a.entries && a.entries[entry] in a.settled
    ensures StoreSound(a.(acked := a.acked + {entry}), log) && Grows(a, a.(acked := a.acked + {entry}))
  {
    hide Honest, Covered, ResultsSound;
  }

  /** A state with one run moved on and the store grown. */
  lemma MoveKeeps(s: State, t: State, w: RunId)
    requires Inv(s) && w in s.runs && w in t.runs
    requires t.runs == s.runs[w := t.runs[w]] && t.player == s.player
    requires StoreSound(t.store, t.player.log) && Grows(s.store, t.store)
    requires RunSound(t.runs[w], t.store, t.player.log)
    requires t.runs[w].command == s.runs[w].command && t.nextRun == s.nextRun
    requires forall i :: 0 <= i < |t.mailbox| ==> RequestSound(t.mailbox[i], s.store, s.runs, s.nextRun)
    ensures Inv(t)
  {
    hide Sound, StoreSound, PcSound;
    forall v | v in t.runs
      ensures RunSound(t.runs[v], t.store, t.player.log)
    {
      if v != w {
        RunStaysSound(s.runs[v], s.store, t.store, s.player.log, s.player.log);
      }
    }
    assert RunSound(s.runs[w], s.store, s.player.log);
    forall i | 0 <= i < |t.mailbox|
      ensures RequestSound(t.mailbox[i], t.store, t.runs, t.nextRun)
    {
      assert RequestSound(t.mailbox[i], s.store, s.runs, s.nextRun);
    }
  }

  lemma CallKeeps(s: State, w: RunId, fate: Fate, verdict: Verdict)
    requires Inv(s) && Known(s, w)
    ensures Inv(Step(s, w, fate, verdict))
  {
    hide Sound, StoreSound, Honest, Report, ResultWrite, WriteResult, Complete, Completion, ClaimLease, ReleaseLease;
    var t, run, log := Step(s, w, fate, verdict), s.runs[w], s.player.log;
    var key := s.store.submitted[run.command].key;
    assert RunSound(run, s.store, log);
    CodesAreHonest(key, log, s.store.completed);
    match run.pc {
    case Claiming =>
      LeasesKeepStore(s.store, key, w, log);
      ClaimTellsCompleted(s.store, key, fate, log);
    case Completing(result) => CompleteKeepsStore(s.store, w, run.command, result, log);
    case Releasing => LeasesKeepStore(s.store, key, w, log);
    case Recording(result) => WriteKeepsStore(s.store, run.command, result, log);
    case Acknowledging => AckKeepsStore(s.store, run.entry, log);
    case Reading => FinalIsSettled(s.store, run.command, log);
    case _ =>
    }
    if !run.pc.Waiting? && !run.pc.Finished? {
      MoveKeeps(s, t, w);
    }
  }

  lemma FinalIsSettled(store: Store, c: CommandId, log: seq<Record>)
    requires StoreSound(store, log)
    ensures c in store.results && store.results[c].Final? ==> c in store.settled
  {
  }

  lemma ClaimTellsCompleted(store: Store, key: Key, fate: Fate, log: seq<Record>)
    requires StoreSound(store, log)
    ensures AfterClaim(store, key, fate).Recording? ==>
      Honest(AfterClaim(store, key, fate).result, key, log, store.completed)
  {
  }

  lemma CodesAreHonest(key: Key, log: seq<Record>, completed: set<Key>)
    ensures Honest(Rejected(ResultExpired, None), key, log, completed)
    ensures Honest(Rejected(CommandExpired, None), key, log, completed)
    ensures Honest(Denied(NotAuthorized), key, log, completed)
  {
  }

  /** A state whose player moved on by at most one record. */
  lemma PlayerMovesKeep(s: State, t: State)
    requires Inv(s) && t.store == s.store && Sound(t.player)
    requires t.player.log == s.player.log
      || (|t.player.log| == |s.player.log| + 1 && t.player.log[..|s.player.log|] == s.player.log)
    requires t.runs == s.runs && t.mailbox == s.mailbox && t.nextRun == s.nextRun
    ensures Inv(t)
  {
    hide Sound, StoreSound, RunSound;
    StoreStaysSound(s.store, s.player.log, t.player.log);
    forall v | v in t.runs
      ensures RunSound(t.runs[v], t.store, t.player.log)
    {
      RunStaysSound(s.runs[v], s.store, t.store, s.player.log, t.player.log);
    }
  }

  lemma AnswerIsHonest(p: Player, c: CommandId, e: Envelope, now: Time, x: Execution, completed: set<Key>)
    requires Sound(p)
    ensures var (q, reply) := ApplyCommand(p, c, e, now, x);
      && HonestReport(Report(e, reply), e.key, q.log, completed)
      && (q.log == p.log || (|q.log| == |p.log| + 1 && q.log[..|p.log|] == p.log))
  {
    ReportsAreHonest(p, c, e, now, x);
  }

  lemma TakeKeeps(s: State, x: Execution)
    requires Inv(s) && s.mailbox != []
    ensures s.mailbox[0].command in s.store.submitted && Inv(PlayerTakes(s, x))
  {
    hide Sound, StoreSound, ApplyCommand, Report, HonestReport;
    var request := s.mailbox[0];
    var e := s.store.submitted[request.command];
    var (player, reply) := ApplyCommand(s.player, request.command, e, s.now, x);
    ApplyKeepsSound(s.player, request.command, e, s.now, x);
    AnswerIsHonest(s.player, request.command, e, s.now, x, s.store.completed);
    var mid := s.(player := player);
    PlayerMovesKeep(s, mid);
    var t := PlayerTakes(s, x);
    if request.run in s.runs {
      assert RunSound(mid.runs[request.run], mid.store, player.log);
      MoveKeeps(mid, t, request.run);
    }
  }

  lemma AdmitKeepsStore(store: Store, c: CommandId, e: Envelope, entry: EntryId, log: seq<Record>)
    requires StoreSound(store, log) && entry !in store.entries && (c in store.submitted ==> store.submitted[c] == e)
    ensures StoreSound(Admit(store, c, e, entry), log) && Grows(store, Admit(store, c, e, entry))
  {
    hide Honest;
    var b := Admit(store, c, e, entry);
    forall key | key in b.completed
      ensures exists d :: d in b.settled && d in b.submitted && b.submitted[d].key == key
    {
      var d :| d in store.settled && d in store.submitted && store.submitted[d].key == key;
      assert b.submitted[d].key == key;
    }
  }

  lemma SubmitKeeps(s: State, c: CommandId, e: Envelope, entry: EntryId)
    requires Inv(s) && Enabled(s, Submit(c, e, entry))
    ensures Inv(Apply(s, Submit(c, e, entry)))
  {
    hide Sound, StoreSound, RunSound;
    var t := Apply(s, Submit(c, e, entry));
    AdmitKeepsStore(s.store, c, e, entry, s.player.log);
    forall v | v in t.runs
      ensures RunSound(t.runs[v], t.store, t.player.log)
    {
      RunStaysSound(s.runs[v], s.store, t.store, s.player.log, s.player.log);
    }
  }

  lemma PlainKeeps(s: State, e: Event)
    requires Inv(s) && Enabled(s, e)
    requires e.Clock? || e.Begin? || e.Crash? || e.LeaseExpires? || e.ResultExpires?
    ensures Inv(Apply(s, e))
  {
    hide Sound, Honest, Covered;
    var t := Apply(s, e);
    if !e.Begin? {
      forall v | v in t.runs
        ensures RunSound(t.runs[v], t.store, t.player.log)
      {
        RunStaysSound(s.runs[v], s.store, t.store, s.player.log, s.player.log);
      }
    }
  }

  lemma MediaAnswerKeeps(s: State, w: RunId, reply: Reply)
    requires Inv(s) && Enabled(s, MediaAnswers(w, reply))
    ensures Inv(Apply(s, MediaAnswers(w, reply)))
  {
    hide Sound, StoreSound;
    var run := s.runs[w];
    assert RunSound(run, s.store, s.player.log);
    var e := s.store.submitted[run.command];
    assert HonestReport(Report(e, reply), e.key, s.player.log, s.store.completed);
    MoveKeeps(s, Apply(s, MediaAnswers(w, reply)), w);
  }

  lemma EventKeeps(s: State, e: Event)
    requires Inv(s) && Enabled(s, e)
    ensures Inv(Apply(s, e))
  {
    hide Inv, Sound;
    match e {
      case Submit(c, envelope, entry) => SubmitKeeps(s, c, envelope, entry);
      case Call(w, fate, verdict) => CallKeeps(s, w, fate, verdict);
      case Take(x) => TakeKeeps(s, x);
      case MediaQueued(c) => DisturbanceKeeps(s, c);
      case MediaAnswers(w, reply) => MediaAnswerKeeps(s, w, reply);
      case Disturb => DisturbanceKeeps(s, 0);
      case _ => PlainKeeps(s, e);
    }
  }

  lemma DisturbanceKeeps(s: State, c: CommandId)
    requires Inv(s) && s.player.revision < U64_MAX
    ensures Inv(s.(player := ChangeOutside(s.player)))
    ensures c in s.store.submitted ==> Inv(s.(player := QueueMedia(s.player, c, s.store.submitted[c])))
  {
    hide Sound, StoreSound, RunSound;
    OthersKeepSound(s.player, c, Envelope(0, 0, 0, 0, true));
    PlayerMovesKeep(s, s.(player := ChangeOutside(s.player)));
    if c in s.store.submitted {
      OthersKeepSound(s.player, c, s.store.submitted[c]);
      PlayerMovesKeep(s, s.(player := QueueMedia(s.player, c, s.store.submitted[c])));
    }
  }

  lemma {:induction false} RunKeeps(s: State, events: seq<Event>)
    requires Inv(s) && Exec(Next, s, events).Some?
    ensures Inv(Exec(Next, s, events).value)
  {
    hide Inv, Apply, Enabled;
    if events != [] {
      RunKeeps(s, events[..|events| - 1]);
      EventKeeps(Exec(Next, s, events[..|events| - 1]).value, events[|events| - 1]);
    }
  }

  lemma StartIsSound(guild: GuildId, player: GuildId, revision: nat)
    ensures Inv(Start(guild, player, revision))
  {
  }

  // ---------------------------------------------------------------- what every run keeps

  /** Within one lifetime of the player, over any run of crashes, lost answers, expiries and
      redeliveries:
      of the commands expecting one revision at most one changes the player, and that once;
      a key succeeds again only after more than 1024 other successes;
      `Applied` is on record only for a key that was applied, "replayed" only where a command
      with the same key has had its result;
      and an entry is acknowledged only after its command had a final result. */
  lemma CommandsAreSafe(guild: GuildId, player: GuildId, revision: nat, events: seq<Event>)
    requires Exec(Next, Start(guild, player, revision), events).Some?
    ensures var s := Exec(Next, Start(guild, player, revision), events).value;
      && AtMostOnce(s.player.log) && Spaced(Keys(s.player.log))
      && RecordsAreTrue(s.store, s.player.log) && AcksAreEarned(s.store)
  {
    hide Inv, Exec, Spaced, Keys, AtMostOnce, RecordsAreTrue, AcksAreEarned;
    StartIsSound(guild, player, revision);
    RunKeeps(Start(guild, player, revision), events);
    SoundMeansSafe(Exec(Next, Start(guild, player, revision), events).value);
  }

  ghost predicate AtMostOnce(log: seq<Record>) {
    forall i, j :: 0 <= i < |log| && 0 <= j < |log| && BothChanged(log[i], log[j]) ==> i == j
  }

  /** Two changes made by commands that expected the same revision. */
  predicate BothChanged(r: Record, q: Record) {
    Changed(r) && Changed(q) && r.envelope.expected == q.envelope.expected
  }

  predicate Changed(r: Record) {
    r.ByCommand? && r.before < r.after
  }

  ghost predicate RecordsAreTrue(store: Store, log: seq<Record>) {
    && (forall c :: c in store.results && store.results[c].Final? && store.results[c].result.Applied? ==>
          c in store.submitted && Done(log, store.submitted[c].key))
    && (forall c :: c in store.results && store.results[c] == Final(Rejected(IdempotencyReplayed, None)) ==>
          c in store.submitted &&
          exists d :: d in store.settled && d in store.submitted && store.submitted[d].key == store.submitted[c].key)
  }

  ghost predicate AcksAreEarned(store: Store) {
    forall entry :: entry in store.acked ==> entry in store.entries && store.entries[entry] in store.settled
  }

  lemma SoundMeansSafe(s: State)
    requires Inv(s)
    ensures AtMostOnce(s.player.log) && Spaced(Keys(s.player.log))
    ensures RecordsAreTrue(s.store, s.player.log) && AcksAreEarned(s.store)
  {
    forall i, j | 0 <= i < |s.player.log| && 0 <= j < |s.player.log| && BothChanged(s.player.log[i], s.player.log[j])
      ensures i == j
    {
      OneChangePerRevision(s.player, i, j);
    }
    hide Sound, Done;
  }

  // ---------------------------------------------------------------- results and entries move only so

  /** A result becomes final only by a write of a run of that command, and only where none was
      final; an entry leaves the stream only by the acknowledgement of a run whose command has
      had a final result. So every retryable end leaves both as they are. */
  lemma OnlyWritesSettle(s: State, e: Event, c: CommandId, entry: EntryId)
    requires Inv(s) && Enabled(s, e)
    ensures var t := Apply(s, e);
      && (IsFinal(t.store, c) && !IsFinal(s.store, c) ==> WritesResult(s, e, c, t.store.results[c].result))
      && (IsFinal(t.store, c) && IsFinal(s.store, c) ==> t.store.results[c] == s.store.results[c])
      && (IsFinal(s.store, c) && !IsFinal(t.store, c) ==> e == ResultExpires(c))
      && (entry in t.store.acked && entry !in s.store.acked ==> Acknowledges(s, e, entry))
      && s.store.acked <= t.store.acked
  {
    hide Sound, StoreSound;
    if e.Call? {
      assert RunSound(s.runs[e.run], s.store, s.player.log);
    }
  }

  predicate IsFinal(store: Store, c: CommandId) {
    c in store.results && store.results[c].Final?
  }

  predicate WritesResult(s: State, e: Event, c: CommandId, result: Result) {
    && e.Call? && e.run in s.runs && s.runs[e.run].command == c
    && (s.runs[e.run].pc == Completing(result) || s.runs[e.run].pc == Recording(result))
  }

  predicate Acknowledges(s: State, e: Event, entry: EntryId) {
    && e.Call? && e.run in s.runs && s.runs[e.run].entry == entry && s.runs[e.run].pc.Acknowledging?
    && s.runs[e.run].command in s.store.settled
  }

  // ---------------------------------------------------------------- a final result ends it

  /** The command has its final result, and no run of it is past reading that result. */
  ghost predicate AtRest(s: State, c: CommandId, result: Result) {
    && c in s.store.results && s.store.results[c] == Final(result)
    && (forall w :: w in s.runs && s.runs[w].command == c ==>
          s.runs[w].pc.Reading? || s.runs[w].pc.Acknowledging? || s.runs[w].pc.Finished?)
    && (forall i :: 0 <= i < |s.mailbox| ==> s.mailbox[i].command != c)
  }

  /** What the player took of one command. */
  function Taken(log: seq<Record>, c: CommandId): seq<Record> {
    if log == [] then []
    else
      var front, last := Taken(log[..|log| - 1], c), log[|log| - 1];
      if last.ByCommand? && last.command == c then front + [last] else front
  }

  lemma TakenAppend(log: seq<Record>, r: Record, c: CommandId)
    ensures Taken(log + [r], c) == if r.ByCommand? && r.command == c then Taken(log, c) + [r] else Taken(log, c)
  {
    assert (log + [r])[..|log|] == log;
  }

  lemma OthersTakeNothing(p: Player, d: CommandId, e: Envelope, now: Time, x: Execution, c: CommandId)
    requires d != c
    ensures Taken(ApplyCommand(p, d, e, now, x).0.log, c) == Taken(p.log, c)
  {
    var q := ApplyCommand(p, d, e, now, x).0;
    if q.log != p.log {
      TakenAppend(p.log, q.log[|p.log|], c);
    }
  }

  lemma RestStaysOnCall(s: State, w: RunId, fate: Fate, verdict: Verdict, c: CommandId, result: Result)
    requires AtRest(s, c, result) && Known(s, w)
    ensures AtRest(Step(s, w, fate, verdict), c, result) && Step(s, w, fate, verdict).player == s.player
  {
    hide Report;
  }

  lemma RestStaysOnTake(s: State, x: Execution, c: CommandId, result: Result)
    requires Inv(s) && Enabled(s, Take(x)) && AtRest(s, c, result)
    ensures AtRest(PlayerTakes(s, x), c, result) && Taken(PlayerTakes(s, x).player.log, c) == Taken(s.player.log, c)
  {
    hide Sound, StoreSound, RunSound, ApplyCommand, Taken;
    OthersTakeNothing(s.player, s.mailbox[0].command, s.store.submitted[s.mailbox[0].command], s.now, x, c);
    assert RequestSound(s.mailbox[0], s.store, s.runs, s.nextRun);
  }

  lemma RestStays(s: State, e: Event, c: CommandId, result: Result)
    requires Inv(s) && Enabled(s, e) && AtRest(s, c, result) && e != ResultExpires(c)
    ensures AtRest(Apply(s, e), c, result) && Taken(Apply(s, e).player.log, c) == Taken(s.player.log, c)
  {
    hide Inv, Taken, Step, PlayerTakes;
    match e {
      case Call(w, fate, verdict) => RestStaysOnCall(s, w, fate, verdict, c, result);
      case Take(x) => RestStaysOnTake(s, x, c, result);
      case MediaQueued(d) => TakenAppend(s.player.log,
        ByMedia(d, s.store.submitted[d], s.player.revision, s.player.revision + 1), c);
      case Disturb => TakenAppend(s.player.log, Outside(s.player.revision, s.player.revision + 1), c);
      case _ =>
    }
  }

  /** However often a settled command is delivered again, its result stands and the player
      never sees it again, for as long as the result is kept. */
  lemma {:induction false} SettledIsNeverExecuted(s: State, events: seq<Event>, c: CommandId, result: Result)
    requires Inv(s) && AtRest(s, c, result) && Exec(Next, s, events).Some?
    requires forall i :: 0 <= i < |events| ==> events[i] != ResultExpires(c)
    ensures var t := Exec(Next, s, events).value;
      AtRest(t, c, result) && Taken(t.player.log, c) == Taken(s.player.log, c)
  {
    hide Inv, AtRest, Apply, Enabled, Taken;
    if events != [] {
      var front := events[..|events| - 1];
      SettledIsNeverExecuted(s, front, c, result);
      RunKeeps(s, front);
      RestStays(Exec(Next, s, front).value, events[|events| - 1], c, result);
    }
  }

  /** The command has a final result, and no run from number `from` on got past reading it. */
  ghost predicate OnlyReads(s: State, from: RunId, c: CommandId) {
    && IsFinal(s.store, c)
    && (forall w :: w in s.runs && w >= from && s.runs[w].command == c ==>
          s.runs[w].pc.Reading? || s.runs[w].pc.Acknowledging? || s.runs[w].pc.Finished?)
    && (forall i :: 0 <= i < |s.mailbox| && s.mailbox[i].run >= from ==> s.mailbox[i].command != c)
  }

  lemma ReadingStaysOnCall(s: State, w: RunId, fate: Fate, verdict: Verdict, from: RunId, c: CommandId)
    requires OnlyReads(s, from, c) && Known(s, w)
    ensures OnlyReads(Step(s, w, fate, verdict), from, c)
  {
    hide Report, AfterAnswer;
  }

  lemma ReadingStays(s: State, e: Event, from: RunId, c: CommandId)
    requires Inv(s) && Enabled(s, e) && OnlyReads(s, from, c) && e != ResultExpires(c)
    ensures OnlyReads(Apply(s, e), from, c)
  {
    hide Sound, StoreSound, RunSound, ApplyCommand, Step;
    if e.Call? {
      ReadingStaysOnCall(s, e.run, e.fate, e.verdict, from, c);
    } else if e.Take? {
      assert RequestSound(s.mailbox[0], s.store, s.runs, s.nextRun);
    }
  }

  /** A command delivered again once it has its final result is never executed again, whatever
      runs of it are still under way and however they end: every later run reads the result,
      acknowledges, and sends the player nothing. The result stands as it is. */
  lemma {:induction false} LaterDeliveriesOnlyRead(s: State, events: seq<Event>, c: CommandId)
    requires Inv(s) && IsFinal(s.store, c) && Exec(Next, s, events).Some? && ResultExpires(c) !in events
    ensures var t := Exec(Next, s, events).value;
      OnlyReads(t, s.nextRun, c) && t.store.results[c] == s.store.results[c]
  {
    hide Apply, Enabled, OnlyReads, Sound, StoreSound, RunSound;
    if events != [] {
      var front, last := events[..|events| - 1], events[|events| - 1];
      assert last in events && forall e :: e in front ==> e in events;
      LaterDeliveriesOnlyRead(s, front, c);
      RunKeeps(s, front);
      ReadingStays(Exec(Next, s, front).value, last, s.nextRun, c);
      FinalStays(s, events, c);
    } else {
      NothingReadsYet(s, c);
    }
  }

  lemma NothingReadsYet(s: State, c: CommandId)
    requires Inv(s) && IsFinal(s.store, c)
    ensures OnlyReads(s, s.nextRun, c)
  {
    hide Sound, StoreSound, RunSound;
  }

  // ---------------------------------------------------------------- even if the result expires

  /** A delivery that finds the result gone can only record that. */
  predicate FindsNothingToDo(pc: Pc) {
    pc.Reading? || pc == Recording(Rejected(ResultExpired, None)) || pc.Acknowledging? || pc.Finished?
  }

  /** The command is not pending, and no run from number `from` on does more than read, record
      that the result expired, and acknowledge. */
  ghost predicate Closed(s: State, from: RunId, c: CommandId) {
    && (c in s.store.results ==> s.store.results[c].Final?)
    && (forall w :: w in s.runs && w >= from && s.runs[w].command == c ==> FindsNothingToDo(s.runs[w].pc))
    && (forall i :: 0 <= i < |s.mailbox| && s.mailbox[i].run >= from ==> s.mailbox[i].command != c)
  }

  lemma ClosedStaysOnCall(s: State, w: RunId, fate: Fate, verdict: Verdict, from: RunId, c: CommandId)
    requires Closed(s, from, c) && Known(s, w)
    ensures Closed(Step(s, w, fate, verdict), from, c)
  {
    hide Report, AfterAnswer;
  }

  lemma ClosedStays(s: State, e: Event, from: RunId, c: CommandId)
    requires Inv(s) && Enabled(s, e) && Closed(s, from, c) && !(e.Submit? && e.command == c)
    ensures Closed(Apply(s, e), from, c)
  {
    hide Sound, StoreSound, RunSound, ApplyCommand, Step;
    if e.Call? {
      ClosedStaysOnCall(s, e.run, e.fate, e.verdict, from, c);
    } else if e.Take? {
      assert RequestSound(s.mailbox[0], s.store, s.runs, s.nextRun);
    }
  }

  /** Whether or not its result expires, a command that once had a final result is never
      executed by a later delivery unless it is submitted anew. */
  lemma {:induction false} LaterDeliveriesNeverExecute(s: State, events: seq<Event>, c: CommandId)
    requires Inv(s) && IsFinal(s.store, c) && Exec(Next, s, events).Some?
    requires forall e :: e in events ==> !(e.Submit? && e.command == c)
    ensures Closed(Exec(Next, s, events).value, s.nextRun, c)
  {
    hide Apply, Enabled, Sound, StoreSound, RunSound;
    if events != [] {
      var front, last := events[..|events| - 1], events[|events| - 1];
      assert last in events && forall e :: e in front ==> e in events;
      hide Closed, Inv;
      LaterDeliveriesNeverExecute(s, front, c);
      RunKeeps(s, front);
      ClosedStays(Exec(Next, s, front).value, last, s.nextRun, c);
    }
  }

  // ---------------------------------------------------------------- what the lease is for

  /** Between a successful claim and its completion or release. */
  predicate Engaged(pc: Pc) {
    pc.Executing? || pc.Waiting? || pc.Answered? || pc.Completing? || pc.Releasing?
  }

  predicate HasKey(store: Store, c: CommandId, key: Key) {
    c in store.submitted && store.submitted[c].key == key
  }

  predicate IsEngaged(s: State, w: RunId, key: Key) {
    w in s.runs && HasKey(s.store, s.runs[w].command, key) && Engaged(s.runs[w].pc)
  }

  /** Whoever is engaged on the key holds its lease; so does the sender of a request, which
      waits for its answer or is dead; and there is one request at most. */
  ghost predicate Alone(s: State, key: Key) {
    && (forall w :: w in s.runs && HasKey(s.store, s.runs[w].command, key) && Engaged(s.runs[w].pc) ==>
          key in s.store.leases && s.store.leases[key] == Held(w))
    && (forall i :: 0 <= i < |s.mailbox| && HasKey(s.store, s.mailbox[i].command, key) ==>
          && key in s.store.leases && s.store.leases[key] == Held(s.mailbox[i].run)
          && !s.store.submitted[s.mailbox[i].command].media
          && (s.mailbox[i].run in s.runs ==> s.runs[s.mailbox[i].run].pc.Waiting?))
    && (forall i, j :: 0 <= i < j < |s.mailbox| && HasKey(s.store, s.mailbox[i].command, key) ==>
          !HasKey(s.store, s.mailbox[j].command, key))
  }

  /** What a call may do to leases and requests: take a free lease, give up or complete its own,
      and send one request while executing. Only a claim of a free key engages. */
  ghost predicate CallShape(s: State, t: State, w: RunId)
    requires Known(s, w)
  {
    var c, pc := s.runs[w].command, s.runs[w].pc;
    var key := s.store.submitted[c].key;
    && t.store.submitted == s.store.submitted
    && w in t.runs && t.runs == s.runs[w := s.runs[w].(pc := t.runs[w].pc)]
    && (pc.Waiting? ==> t.runs == s.runs)
    && (Engaged(t.runs[w].pc) && !Engaged(pc) ==>
          t.runs[w].pc.Executing? && key !in s.store.leases && t.store.leases == s.store.leases[key := Held(w)])
    && (|| t.store.leases == s.store.leases
        || (key !in s.store.leases && !Engaged(pc) && t.store.leases == s.store.leases[key := Held(w)])
        || (&& key in s.store.leases && s.store.leases[key] == Held(w) && Engaged(pc) && !Engaged(t.runs[w].pc)
            && (t.store.leases == s.store.leases - {key} || t.store.leases == s.store.leases[key := Completed])))
    && (|| t.mailbox == s.mailbox
        || (pc.Executing? && t.runs[w].pc.Waiting? && !s.store.submitted[c].media
            && t.mailbox == s.mailbox + [Request(w, c)] && t.store.leases == s.store.leases))
  }

  lemma CallHasShape(s: State, w: RunId, fate: Fate, verdict: Verdict)
    requires Known(s, w)
    ensures CallShape(s, Step(s, w, fate, verdict), w)
  {
    hide Report, AfterRead, AfterAnswer, AfterWrite, ResultWrite;
    ReadOnlyLooks(s.store, s.runs[w].command, fate);
    match s.runs[w].pc {
      case Answered(reply) => AnswerIsEngaged(s.store.submitted[s.runs[w].command], reply);
      case Completing(result) => WriteOnlyEnds(Completion(s.store, s.store.submitted[s.runs[w].command].key, w,
          s.runs[w].command, result), fate);
      case Recording(result) => WriteOnlyEnds(ResultWrite(s.store, s.runs[w].command, result), fate);
      case _ =>
    }
  }

  lemma ReadOnlyLooks(store: Store, c: CommandId, fate: Fate)
    ensures !Engaged(AfterRead(store, c, fate))
  {
  }

  lemma AnswerIsEngaged(e: Envelope, reply: Reply)
    ensures Engaged(AfterAnswer(e, reply)) && !AfterAnswer(e, reply).Waiting?
  {
  }

  lemma WriteOnlyEnds(write: Write, fate: Fate)
    ensures !Engaged(AfterWrite(write, fate))
  {
  }

  lemma AloneStaysOnCall(s: State, t: State, w: RunId, key: Key)
    requires Known(s, w) && Alone(s, key) && CallShape(s, t, w)
    ensures Alone(t, key)
  {
  }

  lemma AloneStaysOnTake(s: State, x: Execution, key: Key)
    requires Inv(s) && Enabled(s, Take(x)) && Alone(s, key)
    ensures Alone(PlayerTakes(s, x), key)
  {
    hide Sound, StoreSound, RunSound, ApplyCommand;
    assert RequestSound(s.mailbox[0], s.store, s.runs, s.nextRun);
  }

  lemma AloneStaysOnSubmit(s: State, e: Event, key: Key)
    requires Inv(s) && Enabled(s, e) && e.Submit? && Alone(s, key)
    ensures Alone(Apply(s, e), key)
  {
    hide Sound, StoreSound, Engaged;
    assert forall w :: w in s.runs ==> RunSound(s.runs[w], s.store, s.player.log);
    assert forall i :: 0 <= i < |s.mailbox| ==> RequestSound(s.mailbox[i], s.store, s.runs, s.nextRun);
  }

  lemma AloneStays(s: State, e: Event, key: Key)
    requires Inv(s) && Enabled(s, e) && Alone(s, key) && e != LeaseExpires(key)
    ensures Alone(Apply(s, e), key)
  {
    hide Sound, StoreSound, ApplyCommand, Step, PlayerTakes, CallShape;
    match e {
      case Call(w, fate, verdict) =>
        CallHasShape(s, w, fate, verdict);
        AloneStaysOnCall(s, Step(s, w, fate, verdict), w, key);
      case Take(x) => AloneStaysOnTake(s, x, key);
      case Submit(_, _, _) => AloneStaysOnSubmit(s, e, key);
      case MediaAnswers(w, _) =>
        assert forall i :: 0 <= i < |s.mailbox| ==> RequestSound(s.mailbox[i], s.store, s.runs, s.nextRun);
      case Begin(entry) =>
        assert forall i :: 0 <= i < |s.mailbox| ==> RequestSound(s.mailbox[i], s.store, s.runs, s.nextRun);
      case _ =>
    }
  }

  /** The lease excludes: for as long as it does not expire, at most one run is engaged on a
      key, and at most one request for it is on its way, however often its commands are
      delivered, whatever fails and whoever dies. */
  lemma {:induction false} OneAtATimePerKey(s: State, events: seq<Event>, key: Key)
    requires Inv(s) && Alone(s, key) && Exec(Next, s, events).Some? && LeaseExpires(key) !in events
    ensures var t := Exec(Next, s, events).value;
      && Alone(t, key)
      && (forall v, w :: IsEngaged(t, v, key) && IsEngaged(t, w, key) ==> v == w)
  {
    hide Inv, Apply, Enabled;
    if events != [] {
      var front, last := events[..|events| - 1], events[|events| - 1];
      assert last in events && forall e :: e in front ==> e in events;
      OneAtATimePerKey(s, front, key);
      RunKeeps(s, front);
      AloneStays(Exec(Next, s, front).value, last, key);
    }
  }

  lemma AloneAtFirst(guild: GuildId, player: GuildId, revision: nat, key: Key)
    ensures Alone(Start(guild, player, revision), key)
  {
  }

  /** The lease of a completed key answers for it: until it expires, no run is engaged on the
      key and no request for it is on its way. */
  lemma {:induction false} CompletedKeyStaysClosed(s: State, events: seq<Event>, key: Key)
    requires Inv(s) && Alone(s, key) && key in s.store.leases && s.store.leases[key] == Completed
    requires Exec(Next, s, events).Some? && LeaseExpires(key) !in events
    ensures var t := Exec(Next, s, events).value;
      && key in t.store.leases && t.store.leases[key] == Completed
      && (forall w :: !IsEngaged(t, w, key))
      && (forall i :: 0 <= i < |t.mailbox| ==> !HasKey(t.store, t.mailbox[i].command, key))
  {
    hide Inv, Apply, Enabled;
    if events != [] {
      var front, last := events[..|events| - 1], events[|events| - 1];
      assert last in events && forall e :: e in front ==> e in events;
      CompletedKeyStaysClosed(s, front, key);
      OneAtATimePerKey(s, front, key);
      OneAtATimePerKey(s, events, key);
      RunKeeps(s, front);
      CompletedStays(Exec(Next, s, front).value, last, key);
    }
  }

  lemma CompletedStays(s: State, e: Event, key: Key)
    requires Inv(s) && Enabled(s, e) && e != LeaseExpires(key)
    requires key in s.store.leases && s.store.leases[key] == Completed
    ensures key in Apply(s, e).store.leases && Apply(s, e).store.leases[key] == Completed
  {
    hide Sound, StoreSound, ApplyCommand, Step, CallShape;
    if e.Call? {
      CallHasShape(s, e.run, e.fate, e.verdict);
      LeaseOfOthers(s, Apply(s, e), e.run, key);
    }
  }

  lemma LeaseOfOthers(s: State, t: State, w: RunId, key: Key)
    requires Known(s, w) && CallShape(s, t, w) && key in s.store.leases && s.store.leases[key] == Completed
    ensures key in t.store.leases && t.store.leases[key] == Completed
  {
  }

  // ---------------------------------------------------------------- what comes before an execution

  /** The four gates a delivery goes through before it asks the player. */
  datatype Gate = FoundPending | InTime | WasAllowed | GotLease

  /** This step takes run `w` through the gate. */
  predicate Opens(s: State, e: Event, w: RunId, gate: Gate) {
    e.Call? && e.run == w && Known(s, w) &&
    var c, pc := s.runs[w].command, s.runs[w].pc;
    match gate
    case FoundPending => pc.Reading? && c in s.store.results && s.store.results[c] == Pending
    case InTime => pc.CheckingDeadline? && s.now < s.store.submitted[c].deadline
    case WasAllowed => pc.Authorizing? && e.verdict == Allowed
    case GotLease => pc.Claiming? && s.store.submitted[c].key !in s.store.leases
  }

  /** How many gates lie behind. */
  function GatesBehind(pc: Pc): nat {
    match pc
    case CheckingDeadline => 1
    case Authorizing => 2
    case Claiming => 3
    case _ => if Engaged(pc) then 4 else 0
  }

  function Position(gate: Gate): nat {
    match gate
    case FoundPending => 1
    case InTime => 2
    case WasAllowed => 3
    case GotLease => 4
  }

  ghost predicate Passed(s: State, events: seq<Event>, w: RunId, gate: Gate) {
    exists i :: 0 <= i < |events| && Exec(Next, s, events[..i]).Some?
      && Opens(Exec(Next, s, events[..i]).value, events[i], w, gate)
  }

  lemma PassedStays(s: State, events: seq<Event>, w: RunId, gate: Gate)
    requires events != [] && Passed(s, events[..|events| - 1], w, gate)
    ensures Passed(s, events, w, gate)
  {
    var front := events[..|events| - 1];
    var i :| 0 <= i < |front| && Exec(Next, s, front[..i]).Some?
      && Opens(Exec(Next, s, front[..i]).value, front[i], w, gate);
    assert front[..i] == events[..i] && front[i] == events[i];
  }

  lemma PassedNow(s: State, events: seq<Event>, w: RunId, gate: Gate)
    requires events != [] && Exec(Next, s, events[..|events| - 1]).Some?
    requires Opens(Exec(Next, s, events[..|events| - 1]).value, events[|events| - 1], w, gate)
    ensures Passed(s, events, w, gate)
  {
  }

  /** A step passes no gate, or the next one. */
  lemma StepPasses(s: State, e: Event, w: RunId, gate: Gate)
    requires Inv(s) && Enabled(s, e) && w in Apply(s, e).runs
    requires Position(gate) <= GatesBehind(Apply(s, e).runs[w].pc)
    ensures Opens(s, e, w, gate) || (w in s.runs && Position(gate) <= GatesBehind(s.runs[w].pc))
  {
    hide Sound, StoreSound, RunSound, ApplyCommand, Report;
  }

  /** Whoever asks the player has come through every gate: it found its command pending, looked
      at the deadline in time, was allowed, and took the key when nobody held it. */
  lemma {:induction false} EngagedRunsPassed(guild: GuildId, player: GuildId, revision: nat, events: seq<Event>,
        w: RunId, gate: Gate)
    requires Exec(Next, Start(guild, player, revision), events).Some?
    requires w in Exec(Next, Start(guild, player, revision), events).value.runs
    requires Position(gate) <= GatesBehind(Exec(Next, Start(guild, player, revision), events).value.runs[w].pc)
    ensures Passed(Start(guild, player, revision), events, w, gate)
  {
    hide Inv, Apply, Enabled, Opens, Passed, GatesBehind;
    var start := Start(guild, player, revision);
    if events != [] {
      var front, last := events[..|events| - 1], events[|events| - 1];
      StartIsSound(guild, player, revision);
      RunKeeps(start, front);
      var s := Exec(Next, start, front).value;
      StepPasses(s, last, w, gate);
      if Opens(s, last, w, gate) {
        PassedNow(start, events, w, gate);
      } else {
        EngagedRunsPassed(guild, player, revision, front, w, gate);
        PassedStays(start, events, w, gate);
      }
    }
  }

  // ---------------------------------------------------------------- what a call tells the run

  predicate CallsStore(pc: Pc) {
    pc.Reading? || pc.Claiming? || pc.Completing? || pc.Releasing? || pc.Recording? || pc.Acknowledging?
  }

  /** A store call that is not answered ends the run. It may have taken effect all the same, and
      then the effect is that of an answered one. */
  lemma FailedCallsEnd(s: State, w: RunId, fate: Fate, verdict: Verdict)
    requires Known(s, w) && CallsStore(s.runs[w].pc) && fate != Works
    ensures var t := Step(s, w, fate, verdict);
      && t.runs[w].pc == Finished && t.player == s.player && t.mailbox == s.mailbox
      && t.store == if fate == FailsBefore then s.store else Step(s, w, Works, verdict).store
  {
    hide Complete, WriteResult, ClaimLease, ReleaseLease;
  }

  /** The looks before a claim, and where each of their outcomes leads; they change nothing. */
  lemma LooksTell(s: State, w: RunId, verdict: Verdict)
    requires Known(s, w)
    ensures var t, c, pc := Step(s, w, Works, verdict), s.runs[w].command, s.runs[w].pc;
      var next := t.runs[w].pc;
      && (pc.Reading? || pc.CheckingDeadline? || pc.Authorizing? ==> t == s.(runs := t.runs))
      && (pc.Reading? ==>
            && (next == Acknowledging <==> IsFinal(s.store, c))
            && (next == CheckingDeadline <==> c in s.store.results && s.store.results[c] == Pending)
            && (next == Recording(Rejected(ResultExpired, None)) <==> c !in s.store.results))
      && (pc.CheckingDeadline? ==>
            && (next == Authorizing <==> s.now < s.store.submitted[c].deadline)
            && (next == Recording(Rejected(CommandExpired, None)) <==> s.store.submitted[c].deadline <= s.now))
      && (pc.Authorizing? ==>
            && (next == Claiming <==> verdict == Allowed)
            && (next == Recording(Denied(NotAuthorized)) <==> verdict == Refusal)
            && (next == Finished <==> verdict == Unsure))
  {
  }

  /** A claim takes a free key; a completed one is answered as replayed, a held one ends the run
      quietly. The player is asked if it is found, else the key is given up. A release frees
      the run's own key and nobody else's. */
  lemma ClaimTells(s: State, w: RunId, verdict: Verdict)
    requires Known(s, w)
    ensures var t, pc := Step(s, w, Works, verdict), s.runs[w].pc;
      var key, next := s.store.submitted[s.runs[w].command].key, t.runs[w].pc;
      && (pc.Claiming? ==>
            && (next == Executing <==> key !in s.store.leases)
            && (next == Recording(Rejected(IdempotencyReplayed, None)) <==>
                  key in s.store.leases && s.store.leases[key] == Completed)
            && (next == Finished <==> key in s.store.leases && s.store.leases[key] != Completed)
            && t.store == s.store.(leases :=
                 if next == Executing then s.store.leases[key := Held(w)] else s.store.leases))
      && (pc.Executing? ==>
            && (next == Releasing <==> verdict == Unsure) && (next == Waiting <==> verdict != Unsure)
            && t == s.(runs := t.runs, mailbox :=
                 if next == Waiting && !s.store.submitted[s.runs[w].command].media
                 then s.mailbox + [Request(w, s.runs[w].command)] else s.mailbox))
      && (pc.Releasing? ==>
            && next == Finished
            && t.store == s.store.(leases :=
                 if key in s.store.leases && s.store.leases[key] == Held(w) then s.store.leases - {key}
                 else s.store.leases))
  {
  }

  /** What others do to the store: leases and results expire one by one, and a submission leaves
      a pending result and an entry. */
  lemma OthersTouchStore(s: State, e: Event)
    requires Enabled(s, e) && (e.LeaseExpires? || e.ResultExpires? || e.Submit?)
    ensures var a, b := s.store, Apply(s, e).store;
      && Apply(s, e) == s.(store := b) && b.acked == a.acked && b.settled == a.settled && b.completed == a.completed
      && (e.LeaseExpires? ==> b == a.(leases := b.leases) && b.leases == a.leases - {e.key} && e.key !in b.leases)
      && (e.ResultExpires? ==>
            b == a.(results := b.results) && b.results == a.results - {e.command} && e.command !in b.results)
      && (e.Submit? ==>
            && b.leases == a.leases && b.results == a.results[e.command := Pending]
            && b.submitted == a.submitted[e.command := e.envelope] && b.entries == a.entries[e.entry := e.command])
  {
  }

  /** And to everything else: time passes, runs begin and die, and the player changes by one
      revision that its log accounts for. */
  lemma OthersTouchTheRest(s: State, e: Event)
    requires Enabled(s, e) && (e.Clock? || e.Begin? || e.Crash? || e.MediaQueued? || e.Disturb? || e.MediaAnswers?)
    ensures var t := Apply(s, e);
      && t.store == s.store && t.mailbox == s.mailbox && t.guild == s.guild
      && (e.Clock? ==> t == s.(now := e.now))
      && (e.Begin? ==>
            && t == s.(runs := t.runs, nextRun := s.nextRun + 1)
            && t.runs == s.runs[s.nextRun := Run(e.entry, s.store.entries[e.entry], Reading)])
      && (e.Crash? ==> t == s.(runs := s.runs - {e.run}))
      && (e.MediaAnswers? ==> t == s.(runs := s.runs[e.run := s.runs[e.run].(pc := Answered(e.reply))]))
      && (e.MediaQueued? || e.Disturb? ==>
            && t == s.(player := t.player)
            && t.player == s.player.(revision := s.player.revision + 1, log := t.player.log)
            && |t.player.log| == |s.player.log| + 1 && t.player.log[..|s.player.log|] == s.player.log
            && (e.MediaQueued? ==>
                  t.player.log[|s.player.log|]
                  == ByMedia(e.command, s.store.submitted[e.command], s.player.revision, s.player.revision + 1))
            && (e.Disturb? ==>
                  t.player.log[|s.player.log|] == Outside(s.player.revision, s.player.revision + 1)))
  {
  }

  // ---------------------------------------------------------------- what a delivery can do

  /** An entry ready to be worked on: pending, in time, its key free, nothing else waiting for
      the player, and a command the player applies itself. */
  predicate Ready(s: State, entry: EntryId) {
    && entry in s.store.entries && entry !in s.store.acked && s.mailbox == []
    && s.store.entries[entry] in s.store.submitted
    && (var c := s.store.entries[entry];
        var e := s.store.submitted[c];
        && c in s.store.results && s.store.results[c] == Pending
        && e.key !in s.store.leases && s.now < e.deadline && !e.media)
  }

  /** The entry's command has reached the player, under a lease of its own. */
  function Sent(s: State, entry: EntryId): State
    requires Ready(s, entry)
  {
    var c, w := s.store.entries[entry], s.nextRun;
    s.(store := s.store.(leases := s.store.leases[s.store.submitted[c].key := Held(w)]),
       mailbox := [Request(w, c)], runs := s.runs[w := Run(entry, c, Waiting)], nextRun := w + 1)
  }

  lemma ReadyIsSent(s: State, entry: EntryId)
    requires Ready(s, entry)
    ensures Reaches(Next, s, Sent(s, entry))
  {
    hide Reaches;
    var c, w := s.store.entries[entry], s.nextRun;
    ReachesItself(Next, s);
    ReachesBy(Next, s, s, Begin(entry));
    var t := Apply(s, Begin(entry));
    for i := 0 to 5
      invariant Reaches(Next, s, t) && t.nextRun == w + 1
      invariant t.player == s.player && t.now == s.now && t.guild == s.guild
      invariant t.runs == s.runs[
        w := Run(entry, c, [Reading, CheckingDeadline, Authorizing, Claiming, Executing, Waiting][i])]
      invariant t.mailbox == if i == 5 then [Request(w, c)] else []
      invariant t.store == if i < 4 then s.store else Sent(s, entry).store
    {
      ReachesBy(Next, s, t, Call(w, Works, Allowed));
      t := Apply(t, Call(w, Works, Allowed));
    }
    assert t == Sent(s, entry);
  }

  /** What comes of a ready entry when nothing interferes: the player's answer becomes the final
      result, the key is completed and the entry acknowledged; but an answer that may be
      retried leaves result, entry and player alone, and the key free again. */
  lemma ReadyCanSettle(s: State, entry: EntryId, x: Execution)
    requires Ready(s, entry)
    ensures exists t :: Reaches(Next, s, t) && SettledAs(s, t, entry, x)
  {
    hide Reaches, ApplyCommand, Report;
    var c, w := s.store.entries[entry], s.nextRun;
    var sent := Sent(s, entry);
    ReadyIsSent(s, entry);
    ReachesBy(Next, s, sent, Take(x));
    var t := Apply(sent, Take(x));
    ReachesBy(Next, s, t, Call(w, Works, Allowed));
    t := Apply(t, Call(w, Works, Allowed));
    ReachesBy(Next, s, t, Call(w, Works, Allowed));
    if t.runs[w].pc.Completing? {
      t := Apply(t, Call(w, Works, Allowed));
      assert t.runs[w].pc.Acknowledging?;
      ReachesBy(Next, s, t, Call(w, Works, Allowed));
    }
    t := Apply(t, Call(w, Works, Allowed));
    assert SettledAs(s, t, entry, x);
  }

  ghost predicate SettledAs(s: State, t: State, entry: EntryId, x: Execution)
    requires Ready(s, entry)
  {
    var c := s.store.entries[entry];
    var e := s.store.submitted[c];
    var (player, reply) := ApplyCommand(s.player, c, e, s.now, x);
    var report := Report(e, reply);
    && t.player == player && t.mailbox == [] && t.store.submitted == s.store.submitted
    && c in t.store.results && t.store.results[c] == (if report.Some? then Final(report.value) else Pending)
    && (if report.Some? then e.key in t.store.leases && t.store.leases[e.key] == Completed
        else e.key !in t.store.leases)
    && t.store.acked == s.store.acked + (if report.Some? then {entry} else {})
  }

  // ---------------------------------------------------------------- reachable states

  const SAMPLE := Envelope(7, 5, 0, 10, false)

  /** A first run of a command after `calls` calls that all work. */
  function FirstRun(calls: nat): State
    requires calls <= 5
  {
    var pc := [Reading, CheckingDeadline, Authorizing, Claiming, Executing, Waiting][calls];
    var leases := if calls < 4 then map[] else map[7 := Held(0)];
    State(5, 0, Store(map[1 := SAMPLE], map[1 := 1], {}, map[1 := Pending], leases, {}, {}), Player(5, 0, [], []),
          if calls == 5 then [Request(0, 1)] else [], map[0 := Run(1, 1, pc)], 1)
  }

  lemma FirstRunIsReachable()
    ensures Reaches(Next, Start(5, 5, 0), FirstRun(5))
  {
    hide Reaches;
    var start := Start(5, 5, 0);
    ReachesItself(Next, start);
    ReachesBy(Next, start, start, Submit(1, SAMPLE, 1));
    ReachesBy(Next, start, Apply(start, Submit(1, SAMPLE, 1)), Begin(1));
    assert Apply(Apply(start, Submit(1, SAMPLE, 1)), Begin(1)) == FirstRun(0);
    for i := 0 to 5
      invariant Reaches(Next, start, FirstRun(i))
    {
      ReachesBy(Next, start, FirstRun(i), Call(0, Works, Allowed));
      assert Apply(FirstRun(i), Call(0, Works, Allowed)) == FirstRun(i + 1);
    }
  }

  /** The player took the command, and its run died before telling anyone. */
  function Orphaned(now: Time): State {
    FirstRun(5).(now := now, player := Player(5, 1, [7], [ByCommand(1, SAMPLE, 0, 1, 0, true)]), mailbox := [],
      runs := map[])
  }

  lemma OrphanedIsReachable()
    ensures Reaches(Next, Start(5, 5, 0), Orphaned(10))
  {
    hide Reaches;
    var start, taken := Start(5, 5, 0), Apply(FirstRun(5), Take(Change));
    FirstRunIsReachable();
    ReachesBy(Next, start, FirstRun(5), Take(Change));
    ReachesBy(Next, start, taken, Crash(0));
    assert Apply(taken, Crash(0)) == Orphaned(0);
    ReachesBy(Next, start, Orphaned(0), Clock(10));
  }

  // ---------------------------------------------------------------- when a rejection can hide a change

  /** `t` follows from `s` while the result of `c` is kept. */
  ghost predicate Continues(s: State, t: State, c: CommandId) {
    exists events :: Exec(Next, s, events) == Some(t) && ResultExpires(c) !in events
  }

  lemma ContinuesBy(s: State, t: State, c: CommandId, e: Event)
    requires Continues(s, t, c) && Enabled(t, e) && e != ResultExpires(c)
    ensures Continues(s, Apply(t, e), c)
  {
    hide Apply, Enabled;
    var events :| Exec(Next, s, events) == Some(t) && ResultExpires(c) !in events;
    ExecAppend(Next, s, events, e);
  }

  lemma ContinuesItself(s: State, c: CommandId)
    ensures Continues(s, s, c)
  {
    assert Exec(Next, s, []) == Some(s);
  }

  /** The player was changed by `c`. */
  ghost predicate HasChanged(log: seq<Record>, c: CommandId) {
    exists i :: 0 <= i < |log| && Changed(log[i]) && log[i].command == c
  }

  predicate AppliedOnRecord(store: Store, c: CommandId) {
    IsFinal(store, c) && store.results[c].result.Applied?
  }

  /** A final result that says something else, beside a change that was made. */
  ghost predicate HidesChange(s: State, c: CommandId) {
    IsFinal(s.store, c) && !AppliedOnRecord(s.store, c) && HasChanged(s.player.log, c)
  }

  lemma {:induction false} FinalStays(s: State, events: seq<Event>, c: CommandId)
    requires Inv(s) && IsFinal(s.store, c) && Exec(Next, s, events).Some? && ResultExpires(c) !in events
    ensures var t := Exec(Next, s, events).value;
      IsFinal(t.store, c) && t.store.results[c] == s.store.results[c]
  {
    hide Inv, Apply, Enabled, WritesResult, Acknowledges;
    if events != [] {
      var front, last := events[..|events| - 1], events[|events| - 1];
      assert last in events && forall e :: e in front ==> e in events;
      FinalStays(s, front, c);
      RunKeeps(s, front);
      OnlyWritesSettle(Exec(Next, s, front).value, last, c, 0);
    }
  }

  lemma EntryIsKnown(s: State, entry: EntryId)
    requires Inv(s) && entry in s.store.entries
    ensures s.store.entries[entry] in s.store.submitted
  {
  }

  /** A delivery that runs into the deadline, or finds no record any more. */
  lemma LateDeliveryRejects(s: State, entry: EntryId, c: CommandId)
    requires Inv(s) && entry in s.store.entries && entry !in s.store.acked && s.store.entries[entry] == c
    requires !IsFinal(s.store, c)
    ensures exists t ::
      Continues(s, t, c) && t.player == s.player && IsFinal(t.store, c) && !AppliedOnRecord(t.store, c)
  {
    hide Continues, Inv, AfterAnswer, AfterClaim, AfterWrite, Completion, Complete, ClaimLease, ReleaseLease,
      PlayerTakes, Report;
    EntryIsKnown(s, entry);
    var w := s.nextRun;
    ContinuesItself(s, c);
    var deadline := s.store.submitted[c].deadline;
    var later := Clock(if s.now < deadline then deadline else s.now);
    var late := Apply(s, later);
    ContinuesBy(s, s, c, later);
    var begun := Apply(late, Begin(entry));
    ContinuesBy(s, late, c, Begin(entry));
    var read := Apply(begun, Call(w, Works, Allowed));
    ContinuesBy(s, begun, c, Call(w, Works, Allowed));
    if c in s.store.results {
      assert read.runs[w].pc == CheckingDeadline;
      ContinuesBy(s, read, c, Call(w, Works, Allowed));
      read := Apply(read, Call(w, Works, Allowed));
    }
    assert read.runs[w].pc.Recording? && !read.runs[w].pc.result.Applied? && read.store == s.store;
    ContinuesBy(s, read, c, Call(w, Works, Allowed));
    assert IsFinal(Apply(read, Call(w, Works, Allowed)).store, c);
  }

  /** "Applied" on record means applied; the other direction holds exactly as far as this. Take
      a change the player made for a command that may still be delivered. It can end up beside
      a final result that denies it, with no result expiring, if and only if "Applied" is not
      on record yet. */
  lemma RejectionMayHideAChangeIff(s: State, entry: EntryId, c: CommandId)
    requires Inv(s) && entry in s.store.entries && entry !in s.store.acked && s.store.entries[entry] == c
    requires HasChanged(s.player.log, c)
    ensures (exists t :: Continues(s, t, c) && HidesChange(t, c)) <==> !AppliedOnRecord(s.store, c)
  {
    if AppliedOnRecord(s.store, c) {
      forall t | Continues(s, t, c)
        ensures !HidesChange(t, c)
      {
        var events :| Exec(Next, s, events) == Some(t) && ResultExpires(c) !in events;
        FinalStays(s, events, c);
      }
    } else if IsFinal(s.store, c) {
      ContinuesItself(s, c);
      assert HidesChange(s, c);
    } else {
      LateDeliveryRejects(s, entry, c);
      var t :| Continues(s, t, c) && t.player == s.player && IsFinal(t.store, c) && !AppliedOnRecord(t.store, c);
      assert HidesChange(t, c);
    }
  }

  /** Such a run from the very start: one delivery dies after the player took its command, and
      the next comes after the deadline. */
  lemma RejectionMayHideAChange()
    ensures exists s :: (
      && Reaches(Next, Start(5, 5, 0), s) && s.player == Orphaned(10).player
      && 1 in s.store.results && s.store.results[1] == Final(Rejected(CommandExpired, None)))
  {
    hide Reaches;
    var start, s := Start(5, 5, 0), Orphaned(10);
    OrphanedIsReachable();
    ReachesBy(Next, start, s, Begin(1));
    s := Apply(s, Begin(1));
    for i := 0 to 3
      invariant Reaches(Next, start, s) && s.player == Orphaned(10).player && s.now == 10
      invariant s.runs
        == map[1 := Run(1, 1, [Reading, CheckingDeadline, Recording(Rejected(CommandExpired, None)), Acknowledging][i])]
      invariant s.store.submitted == map[1 := SAMPLE]
      invariant s.store.results == map[1 := if i < 3 then Pending else Final(Rejected(CommandExpired, None))]
    {
      ReachesBy(Next, start, s, Call(1, Works, Allowed));
      s := Apply(s, Call(1, Works, Allowed));
    }
  }
}
