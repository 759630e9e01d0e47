/** Media commands as the whole program runs them: the executions of `MediaRoute`, begun by the
    tasks of `GuildDispatcher` and by nobody else. A task awaits each command it processes
    (crates/pepeaudio-runtime/src/guild_command_dispatcher.rs), and a guild has one task at a
    time, so the executions of an envelope cannot overlap and its batch is queued once. */
module MediaDelivery {
  import opened Options
  import opened Runs
  import D = GuildDispatcher
  import R = MediaRoute

  /** The dispatcher of a shard, and one envelope of one of its guilds: `entries` are the stream
      entries that carry the envelope, `begun` tells which execution a task has begun for the
      command it is at. */
  datatype State = State(
    dispatch: D.State,
    route: R.State,
    guild: D.GuildId,
    entries: set<nat>,
    begun: map<D.TaskId, R.RunId>)

  function Start(guild: D.GuildId, entries: set<nat>, expected: nat, revision: nat, voice: Option<R.ChannelId>): State {
    State(D.EMPTY, R.Start(expected, revision, voice), guild, entries, map[])
  }

  datatype Event =
    | Deliver(commands: seq<D.Command>)
    | Execute(id: D.TaskId)
    | Advance(id: D.TaskId)
    | Join(id: D.TaskId)
    | Route(step: R.Event)
    | WorkerDies

  /** The command a task is at. */
  function Present(s: State, id: D.TaskId): D.Command
    requires D.CanAdvance(s.dispatch, id)
  {
    s.dispatch.tasks[id].batch[s.dispatch.tasks[id].done]
  }

  /** A task begins at most one execution for a command, and is done with the command only when
      that execution is over. Executions go on, fail and die as they like, and so does the rest
      of the program; what it cannot do is begin one. */
  predicate Enabled(s: State, e: Event) {
    match e
    case Deliver(_) => true
    case Execute(id) =>
      && D.CanAdvance(s.dispatch, id) && id !in s.begun
      && Present(s, id).guild == s.guild && Present(s, id).entry in s.entries
    case Advance(id) => D.CanAdvance(s.dispatch, id) && (id in s.begun ==> s.begun[id] !in s.route.runs)
    case Join(id) => D.CanJoin(s.dispatch, id)
    case Route(step) => !step.Begin? && R.Enabled(s.route, step)
    case WorkerDies => true
  }

  function Apply(s: State, e: Event): State
    requires Enabled(s, e)
  {
    match e
    case Deliver(commands) => s.(dispatch := D.Delivered(s.dispatch, commands))
    case Execute(id) => s.(route := R.Apply(s.route, R.Begin), begun := s.begun[id := s.route.next])
    case Advance(id) => s.(dispatch := D.Advanced(s.dispatch, id), begun := s.begun - {id})
    case Join(id) => s.(dispatch := D.Joined(s.dispatch, id))
    case Route(step) => s.(route := R.Apply(s.route, step))
    case WorkerDies => s.(dispatch := D.EMPTY, route := s.route.(runs := map[]), begun := map[])
  }

  function Next(s: State, e: Event): Option<State> {
    if Enabled(s, e) then Some(Apply(s, e)) else None
  }

  // ---------------------------------------------------------------- executions do not overlap

  /** What the route has done so far is a run in which no execution began beside another. */
  ghost predicate Serial(start: R.State, route: R.State) {
    exists steps :: R.OneAtATime(start, steps) && Exec(R.Next, start, steps) == Some(route)
  }

  /** Every live execution is the one that a task of this guild has begun and not got past. */
  ghost predicate Owned(tasks: map<D.TaskId, D.Task>, begun: map<D.TaskId, R.RunId>, runs: map<R.RunId, R.Stage>,
        g: D.GuildId) {
    && (forall id :: id in begun ==> id in tasks && tasks[id].guild == g && tasks[id].done < |tasks[id].batch|)
    && (forall w :: w in runs ==> exists id :: id in begun && begun[id] == w)
  }

  ghost predicate Inv(start: R.State, s: State) {
    && D.Inv(s.dispatch) && D.Busy(s.dispatch)
    && Serial(start, s.route) && Owned(s.dispatch.tasks, s.begun, s.route.runs, s.guild)
  }

  lemma SerialBy(start: R.State, route: R.State, step: R.Event)
    requires Serial(start, route) && R.Enabled(route, step) && (step.Begin? ==> route.runs == map[])
    ensures Serial(start, R.Apply(route, step))
  {
    hide R.Apply, R.Enabled, R.OneAtATime, Exec;
    var steps :| R.OneAtATime(start, steps) && Exec(R.Next, start, steps) == Some(route);
    R.OneMoreStep(start, steps, step);
    ExecAppend(R.Next, start, steps, step);
  }

  /** When all executions die at once, at most one does. */
  lemma SerialWithoutRuns(start: R.State, route: R.State)
    requires Serial(start, route) && start == R.Start(start.expected, start.first, start.voice)
    ensures Serial(start, route.(runs := map[]))
  {
    hide Serial;
    if route.runs != map[] {
      AtMostOneRun(start, route);
      var w :| w in route.runs;
      assert route.runs - {w} == map[];
      SerialBy(start, route, R.Crash(w));
    } else {
      assert route == route.(runs := map[]);
    }
  }

  lemma AtMostOneRun(start: R.State, route: R.State)
    requires Serial(start, route) && start == R.Start(start.expected, start.first, start.voice)
    ensures forall w, v :: w in route.runs && v in route.runs ==> w == v
  {
    hide R.Guarded, R.Recent;
    var steps :| R.OneAtATime(start, steps) && Exec(R.Next, start, steps) == Some(route);
    R.OneAtATimeQueuesOnce(start.expected, start.first, start.voice, steps);
  }

  /** The dispatcher's own promise: the guild's one task is at one command. */
  lemma OneBeginner(s: State, id: D.TaskId)
    requires D.Inv(s.dispatch) && Owned(s.dispatch.tasks, s.begun, s.route.runs, s.guild)
    requires id in s.dispatch.tasks && s.dispatch.tasks[id].guild == s.guild && id !in s.begun
    ensures s.begun == map[] && s.route.runs == map[]
  {
    hide D.Inv, D.Kept;
    D.SoundMeansInOrder(s.dispatch, s.guild);
    if k :| k in s.begun {
      assert false;
    }
  }

  lemma BatchIsOfGuild(s: D.State, id: D.TaskId)
    requires D.Inv(s) && D.CanAdvance(s, id)
    ensures s.tasks[id].batch[s.tasks[id].done].guild == s.tasks[id].guild
  {
    hide D.Scheduled, D.Accounted, D.Kept;
  }

  // ---------------------------------------------------------------- every step keeps it

  /** Tasks that are running are left alone when others start. */
  lemma {:induction false} StartedKeepsTasks(s: D.State, count: nat)
    requires D.Inv(s) && count <= |s.ready| && count <= D.FreeSlots(s)
    ensures forall id :: id in s.tasks ==>
      id in D.Started(s, count).tasks && D.Started(s, count).tasks[id] == s.tasks[id]
  {
    hide D.Inv, D.StartFirst;
    if count > 0 {
      StartedKeepsTasks(s, count - 1);
      D.StartedKeeps(s, count - 1);
      D.StartedUnfolds(s, count);
      StartKeepsTasks(D.Started(s, count - 1));
    }
  }

  lemma StartKeepsTasks(s: D.State)
    requires D.Inv(s) && s.ready != []
    ensures forall id :: id in s.tasks ==> id in D.StartFirst(s).tasks && D.StartFirst(s).tasks[id] == s.tasks[id]
  {
    hide D.Inv;
    NextTaskIsNew(s);
  }

  lemma NextTaskIsNew(s: D.State)
    requires D.Inv(s)
    ensures s.nextTask !in s.tasks
  {
    hide D.InOrder, D.Accounted;
  }

  lemma SpawnedKeepsTasks(s: D.State)
    requires D.Inv(s)
    ensures forall id :: id in s.tasks ==> id in D.Spawned(s).tasks && D.Spawned(s).tasks[id] == s.tasks[id]
  {
    hide D.Inv, D.Started;
    D.TasksWithinLimit(s);
    StartedKeepsTasks(s, D.Min(D.FreeSlots(s), |s.ready|));
  }

  lemma DispatchKeepsTasks(s: D.State, e: D.Event, id: D.TaskId)
    requires D.Inv(s) && D.Enabled(s, e) && id in s.tasks && !(e.Advance? && e.id == id) && e != D.Join(id)
    ensures id in D.Apply(s, e).tasks && D.Apply(s, e).tasks[id] == s.tasks[id]
  {
    hide D.Inv, D.Spawned;
    match e
    case Deliver(commands) =>
      D.PushAllAppends(s, commands);
      D.PushAllKeeps(s, commands);
      SpawnedKeepsTasks(D.PushAll(s, commands));
    case Advance(k) =>
    case Join(k) =>
      D.RetiredKeeps(s, k);
      SpawnedKeepsTasks(D.Retired(s, k));
  }

  lemma DispatchKeeps(start: R.State, s: State, e: Event, d: D.Event)
    requires Inv(start, s) && Enabled(s, e)
    requires match e
      case Deliver(commands) => d == D.Deliver(commands)
      case Advance(id) => d == D.Advance(id)
      case Join(id) => d == D.Join(id)
      case _ => false
    ensures Inv(start, Apply(s, e))
  {
    hide D.Inv, D.Busy, Serial, D.Apply;
    var t := Apply(s, e);
    assert t.dispatch == D.Apply(s.dispatch, d) by { AppliesAs(s, e, d); }
    D.EventKeeps(s.dispatch, d);
    forall id | id in t.begun
      ensures id in t.dispatch.tasks && t.dispatch.tasks[id] == s.dispatch.tasks[id]
    {
      DispatchKeepsTasks(s.dispatch, d, id);
    }
    forall w | w in t.route.runs
      ensures exists id :: id in t.begun && t.begun[id] == w
    {
      var id :| id in s.begun && s.begun[id] == w;
      assert id in t.begun;
    }
  }

  lemma AppliesAs(s: State, e: Event, d: D.Event)
    requires Enabled(s, e)
    requires match e
      case Deliver(commands) => d == D.Deliver(commands)
      case Advance(id) => d == D.Advance(id)
      case Join(id) => d == D.Join(id)
      case _ => false
    ensures D.Enabled(s.dispatch, d) && Apply(s, e).dispatch == D.Apply(s.dispatch, d)
  {
  }

  lemma ExecuteKeeps(start: R.State, s: State, id: D.TaskId)
    requires Inv(start, s) && Enabled(s, Execute(id))
    ensures s.route.runs == map[] && Inv(start, Apply(s, Execute(id)))
  {
    hide D.Inv, D.Busy, Serial;
    BatchIsOfGuild(s.dispatch, id);
    OneBeginner(s, id);
    SerialBy(start, s.route, R.Begin);
    var t := Apply(s, Execute(id));
    assert t.route.runs.Keys == {s.route.next} && t.begun[id] == s.route.next;
  }

  lemma RouteKeeps(start: R.State, s: State, step: R.Event)
    requires Inv(start, s) && Enabled(s, Route(step))
    ensures Inv(start, Apply(s, Route(step)))
  {
    hide D.Inv, D.Busy, Serial, R.Apply;
    SerialBy(start, s.route, step);
    NoNewRuns(s.route, step);
  }

  lemma NoNewRuns(route: R.State, step: R.Event)
    requires R.Enabled(route, step) && !step.Begin?
    ensures R.Apply(route, step).runs.Keys <= route.runs.Keys
  {
    if step.TakeNext? {
      hide R.Take;
      R.TakeShape(route, step.works);
    }
  }

  lemma EventKeeps(start: R.State, s: State, e: Event)
    requires Inv(start, s) && Enabled(s, e) && start == R.Start(start.expected, start.first, start.voice)
    ensures Inv(start, Apply(s, e)) && (e.Execute? ==> s.route.runs == map[])
  {
    hide Inv, D.Inv, D.Busy, Serial;
    match e
    case Deliver(commands) => DispatchKeeps(start, s, e, D.Deliver(commands));
    case Advance(id) => DispatchKeeps(start, s, e, D.Advance(id));
    case Join(id) => DispatchKeeps(start, s, e, D.Join(id));
    case Execute(id) => ExecuteKeeps(start, s, id);
    case Route(step) => RouteKeeps(start, s, step);
    case WorkerDies => DeathKeeps(start, s);
  }

  lemma DeathKeeps(start: R.State, s: State)
    requires Inv(start, s) && start == R.Start(start.expected, start.first, start.voice)
    ensures Inv(start, Apply(s, WorkerDies))
  {
    hide D.Inv, D.Busy, Serial;
    D.EmptyIsSound();
    SerialWithoutRuns(start, s.route);
  }

  lemma {:induction false} RunKeeps(start: R.State, s: State, events: seq<Event>)
    requires Inv(start, s) && start == R.Start(start.expected, start.first, start.voice) && Exec(Next, s, events).Some?
    ensures Inv(start, Exec(Next, s, events).value)
  {
    hide Inv, Apply, Enabled;
    if events != [] {
      RunKeeps(start, s, events[..|events| - 1]);
      EventKeeps(start, Exec(Next, s, events[..|events| - 1]).value, events[|events| - 1]);
    }
  }

  lemma StartIsSound(guild: D.GuildId, entries: set<nat>, expected: nat, revision: nat, voice: Option<R.ChannelId>)
    ensures Inv(R.Start(expected, revision, voice), Start(guild, entries, expected, revision, voice))
  {
    var start := R.Start(expected, revision, voice);
    D.EmptyIsSound();
    hide D.Inv, D.Busy;
    assert R.OneAtATime(start, []) && Exec(R.Next, start, []) == Some(start);
  }

  // ---------------------------------------------------------------- what the program promises

  ghost predicate OneBatch(log: seq<R.Change>) {
    forall i, j :: 0 <= i < |log| && 0 <= j < |log| && log[i].Queued? && log[j].Queued? ==> i == j
  }

  ghost predicate OneConnection(log: seq<R.Change>) {
    forall i, j :: 0 <= i < |log| && 0 <= j < |log| && log[i].Connected? && log[j].Connected? ==> i == j
  }

  /** However often an envelope is delivered, whatever dies, the worker included, and whatever
      else changes the player: the executions that the dispatcher begins never overlap, and
      together they connect the player at most once and queue the batch at most once. */
  lemma DispatchedMediaQueuesOnce(guild: D.GuildId, entries: set<nat>, expected: nat, revision: nat,
        voice: Option<R.ChannelId>, events: seq<Event>)
    requires Exec(Next, Start(guild, entries, expected, revision, voice), events).Some?
    ensures var s := Exec(Next, Start(guild, entries, expected, revision, voice), events).value;
      && Serial(R.Start(expected, revision, voice), s.route) && |s.route.runs| <= 1
      && OneBatch(s.route.log) && OneConnection(s.route.log)
  {
    hide Inv, Exec, Serial, OneBatch, OneConnection;
    var start, init := R.Start(expected, revision, voice), Start(guild, entries, expected, revision, voice);
    StartIsSound(guild, entries, expected, revision, voice);
    RunKeeps(start, init, events);
    SerialQueuesOnce(start, Exec(Next, init, events).value);
  }

  lemma SerialQueuesOnce(start: R.State, s: State)
    requires Inv(start, s) && start == R.Start(start.expected, start.first, start.voice)
    ensures Serial(start, s.route) && OneBatch(s.route.log) && OneConnection(s.route.log) && |s.route.runs| <= 1
  {
    hide R.InLine, R.Guarded, R.Recent, R.Matched, D.Inv, D.Busy;
    var steps :| R.OneAtATime(start, steps) && Exec(R.Next, start, steps) == Some(s.route);
    R.OneAtATimeQueuesOnce(start.expected, start.first, start.voice, steps);
    R.RunIsOrderly(start.expected, start.first, start.voice, steps);
    AtMostOneRun(start, s.route);
    if s.route.runs != map[] {
      var w :| w in s.route.runs;
      assert s.route.runs.Keys == {w};
    }
  }

  // ---------------------------------------------------------------- and it does get through

  /** The only execution, waiting for the answer to this request; then `log` and `voice` as they
      are by now. */
  function Waiting(s: State, ask: R.Ask, log: seq<R.Change>, voice: Option<R.ChannelId>): State {
    s.(route := s.route.(mailbox := [R.Request(0, ask)], runs := map[0 := R.Asking(ask)], log := log, voice := voice))
  }

  /** A request is granted and the execution goes on to the next. */
  lemma Exchange(start: State, s: State, channel: R.ChannelId, ask: R.Ask) returns (t: State)
    requires Reaches(Next, start, s) && s == Waiting(s, ask, s.route.log, s.route.voice)
    requires s.route.Revision() < R.U64_MAX
    requires ask.LookFirst? || ask.LookAgain? ==> s.route.Revision() == s.route.expected
    requires ask.LookAgain? ==> s.route.voice == None || s.route.voice == Some(channel)
    requires ask.Connect? ==> ask.revision == s.route.Revision() && s.route.voice == None
    requires ask.Enqueue? ==> ask.revision == s.route.Revision() && s.route.voice != None
    ensures Reaches(Next, start, t)
    ensures var log, voice, revision := s.route.log, s.route.voice, s.route.Revision();
      t == match ask
           case LookFirst => Waiting(s, R.LookAgain, log, voice)
           case LookAgain =>
             Waiting(s, if voice == None then R.Connect(channel, revision) else R.LookLast(revision), log, voice)
           case Connect(to, _) => Waiting(s, R.LookLast(revision + 1), log + [R.Connected(0)], Some(to))
           case LookLast(base) => Waiting(s, R.Enqueue(revision, base), log, voice)
           case Enqueue(_, _) =>
             s.(route := s.route.(mailbox := [], runs := map[], log := log + [R.Queued(0)]))
  {
    hide Reaches;
    ReachesBy(Next, start, s, Route(R.TakeNext(true)));
    var taken := Apply(s, Route(R.TakeNext(true)));
    ReachesBy(Next, start, taken, Route(R.GoOn(0, true, channel)));
    t := Apply(taken, Route(R.GoOn(0, true, channel)));
  }

  /** The command has arrived, and the task of its guild has begun an execution. */
  function Begun(guild: D.GuildId, entry: nat, entries: set<nat>, revision: nat, voice: Option<R.ChannelId>): State {
    var command := D.Command(guild, entry);
    var route := R.Start(revision, revision, voice);
    State(D.State(map[guild := []], [], {guild}, map[0 := D.Task(guild, [command], 0)], 1, 1, [command], []),
          R.Send(route, 0, R.LookFirst).(next := 1), guild, entries, map[0 := 0])
  }

  lemma ArrivesAndBegins(guild: D.GuildId, entry: nat, entries: set<nat>, revision: nat, voice: Option<R.ChannelId>)
    requires entry in entries
    ensures Reaches(Next, Start(guild, entries, revision, revision, voice),
                    Begun(guild, entry, entries, revision, voice))
  {
    hide Reaches;
    var start, command := Start(guild, entries, revision, revision, voice), D.Command(guild, entry);
    ReachesItself(Next, start);
    ReachesBy(Next, start, start, Deliver([command]));
    var pushed := D.PushAll(D.EMPTY, [command]);
    assert [command][..|[command]| - 1] == [];
    assert D.PushAll(D.EMPTY, []) == D.EMPTY;
    assert pushed == D.Push(D.EMPTY, command);
    assert pushed.ready == [guild] && D.Queue(pushed, guild) == [command] && |pushed.tasks| == 0;
    assert D.Started(pushed, 1) == D.StartFirst(D.Started(pushed, 0));
    assert D.Spawned(pushed) == D.StartFirst(pushed);
    var s := Apply(start, Deliver([command]));
    assert s.dispatch.tasks == map[0 := D.Task(guild, [command], 0)];
    ReachesBy(Next, start, s, Execute(0));
    assert Apply(s, Execute(0)) == Begun(guild, entry, entries, revision, voice);
  }

  /** An envelope that arrives while the player is as it expects, with no other channel connected
      and revisions left, can get all the way through: its batch is queued, its task is done
      with it, and the dispatcher is idle again. */
  lemma DispatchedMediaGetsThrough(guild: D.GuildId, entry: nat, entries: set<nat>, revision: nat,
        voice: Option<R.ChannelId>, channel: R.ChannelId)
    requires entry in entries && revision + 2 <= R.U64_MAX && (voice.Some? ==> voice.value == channel)
    ensures exists t :: (
      && Reaches(Next, Start(guild, entries, revision, revision, voice), t)
      && t.route.log == (if voice.None? then [R.Connected(0)] else []) + [R.Queued(0)]
      && t.route.runs == map[] && t.dispatch.tasks == map[] && t.dispatch.processed == [D.Command(guild, entry)])
  {
    hide Reaches;
    var start := Start(guild, entries, revision, revision, voice);
    ArrivesAndBegins(guild, entry, entries, revision, voice);
    var first := Begun(guild, entry, entries, revision, voice);
    var s := Executed(start, first, revision, channel);
    FinishesTask(start, s, guild, entry);
  }

  /** All the exchanges of an execution that nothing disturbs. */
  lemma Executed(start: State, first: State, revision: nat, channel: R.ChannelId) returns (s: State)
    requires Reaches(Next, start, first) && first == Waiting(first, R.LookFirst, [], first.route.voice)
    requires first.route.first == first.route.expected == revision && revision + 2 <= R.U64_MAX
    requires first.route.voice == None || first.route.voice == Some(channel)
    ensures Reaches(Next, start, s)
    ensures s == first.(route := first.route.(mailbox := [], runs := map[], voice := Some(channel),
        log := (if first.route.voice.None? then [R.Connected(0)] else []) + [R.Queued(0)]))
  {
    hide Reaches;
    s := Exchange(start, first, channel, R.LookFirst);
    s := Exchange(start, s, channel, R.LookAgain);
    if first.route.voice.None? {
      s := Exchange(start, s, channel, R.Connect(channel, revision));
    }
    var base := if first.route.voice.None? then revision + 1 else revision;
    s := Exchange(start, s, channel, R.LookLast(base));
    s := Exchange(start, s, channel, R.Enqueue(base, base));
  }

  /** The task is done with its one command and is joined. */
  lemma FinishesTask(start: State, s: State, guild: D.GuildId, entry: nat)
    requires Reaches(Next, start, s) && s.begun == map[0 := 0] && s.route.runs == map[]
    requires var command := D.Command(guild, entry);
      s.dispatch == D.State(map[guild := []], [], {guild}, map[0 := D.Task(guild, [command], 0)], 1, 1, [command], [])
    ensures exists t :: (
      && Reaches(Next, start, t) && t.route == s.route && t.dispatch.tasks == map[]
      && t.dispatch.processed == [D.Command(guild, entry)])
  {
    hide Reaches;
    ReachesBy(Next, start, s, Advance(0));
    var t := Apply(s, Advance(0));
    ReachesBy(Next, start, t, Join(0));
    t := Apply(t, Join(0));
    assert t.dispatch.tasks == map[];
  }
}
