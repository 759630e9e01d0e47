/** The per-guild command scheduler (crates/pepeaudio-runtime/src/guild_command_dispatcher.rs):
    bounded, first come first served among guilds, strictly sequential within a guild. */
module GuildDispatcher {
  import opened Options
  import opened Runs
  import opened Sequences
  import opened Sums

  type GuildId = nat
  type TaskId = nat

  datatype Command = Command(guild: GuildId, entry: nat)

  /** A running task: the batch it owns and how many of its commands are processed. */
  datatype Task = Task(guild: GuildId, batch: seq<Command>, done: nat)

  const MAX_CONCURRENT_GUILDS := 32

  /** The dispatcher, with the two histories its promises are about. */
  datatype State = State(
    queues: map<GuildId, seq<Command>>,
    ready: seq<GuildId>,
    active: set<GuildId>,
    tasks: map<TaskId, Task>,
    nextTask: TaskId,
    buffered: nat,
    delivered: seq<Command>,
    processed: seq<Command>)

  const EMPTY := State(map[], [], {}, map[], 0, 0, [], [])

  // ---------------------------------------------------------------- operations

  function Queue(s: State, g: GuildId): seq<Command> {
    if g in s.queues then s.queues[g] else []
  }

  function Push(s: State, c: Command): State {
    s.(queues := s.queues[c.guild := Queue(s, c.guild) + [c]],
       buffered := s.buffered + 1,
       ready := if Queue(s, c.guild) == [] && c.guild !in s.active then s.ready + [c.guild] else s.ready,
       delivered := s.delivered + [c])
  }

  function PushAll(s: State, commands: seq<Command>): State {
    if commands == [] then s else Push(PushAll(s, commands[..|commands| - 1]), commands[|commands| - 1])
  }

  /** The guild at the head of `ready` gets a task owning everything it has queued. */
  function StartFirst(s: State): State
    requires s.ready != []
  {
    var g := s.ready[0];
    s.(ready := s.ready[1..],
       queues := s.queues[g := []],
       active := s.active + {g},
       tasks := s.tasks[s.nextTask := Task(g, Queue(s, g), 0)],
       nextTask := s.nextTask + 1)
  }

  function Started(s: State, count: nat): (r: State)
    requires count <= |s.ready|
    ensures r.ready == s.ready[count..]
  {
    if count == 0 then s else StartFirst(Started(s, count - 1))
  }

  function Min(a: nat, b: nat): nat {
    if a < b then a else b
  }

  function FreeSlots(s: State): nat {
    if |s.tasks| < MAX_CONCURRENT_GUILDS then MAX_CONCURRENT_GUILDS - |s.tasks| else 0
  }

  function Spawned(s: State): State {
    Started(s, Min(FreeSlots(s), |s.ready|))
  }

  function Delivered(s: State, commands: seq<Command>): State {
    Spawned(PushAll(s, commands))
  }

  predicate CanAdvance(s: State, id: TaskId) {
    id in s.tasks && s.tasks[id].done < |s.tasks[id].batch|
  }

  /** A task finishes its next command. */
  function Advanced(s: State, id: TaskId): State
    requires CanAdvance(s, id)
  {
    var t := s.tasks[id];
    s.(tasks := s.tasks[id := t.(done := t.done + 1)], processed := s.processed + [t.batch[t.done]])
  }

  predicate CanJoin(s: State, id: TaskId) {
    id in s.tasks && s.tasks[id].done == |s.tasks[id].batch|
  }

  function SaturatingSub(a: nat, b: nat): nat {
    if a < b then 0 else a - b
  }

  /** A finished task is taken out; its guild queues up again if more has arrived. */
  function Retired(s: State, id: TaskId): State
    requires CanJoin(s, id)
  {
    var t := s.tasks[id];
    var more := Queue(s, t.guild) != [];
    s.(tasks := s.tasks - {id},
       active := s.active - {t.guild},
       buffered := SaturatingSub(s.buffered, |t.batch|),
       ready := if more then s.ready + [t.guild] else s.ready,
       queues := if more then s.queues else s.queues - {t.guild})
  }

  function Joined(s: State, id: TaskId): State
    requires CanJoin(s, id)
  {
    Spawned(Retired(s, id))
  }

  // ---------------------------------------------------------------- what always holds

  function OfGuild(commands: seq<Command>, g: GuildId): seq<Command> {
    if commands == [] then []
    else
      var front, last := OfGuild(commands[..|commands| - 1], g), commands[|commands| - 1];
      if last.guild == g then front + [last] else front
  }

  /** `ready` lists exactly once each guild with queued work and no task; a guild is active
      exactly while it has one task, and no queue is kept for a guild with neither. */
  ghost predicate Scheduled(s: State) {
    && Distinct(s.ready)
    && (forall g :: g in s.ready <==> Queue(s, g) != [] && g !in s.active)
    && (forall g :: g in s.queues && s.queues[g] == [] ==> g in s.active)
    && TasksFit(s.tasks, s.nextTask)
    && s.active == TaskGuilds(s.tasks)
    && |s.tasks| <= MAX_CONCURRENT_GUILDS
  }

  /** At most one task per guild, and no task without work. */
  ghost predicate TasksFit(tasks: map<TaskId, Task>, next: TaskId) {
    && (forall i, j :: i in tasks && j in tasks && i != j ==> tasks[i].guild != tasks[j].guild)
    && (forall id :: id in tasks ==> id < next && tasks[id].batch != [] && tasks[id].done <= |tasks[id].batch|)
  }

  ghost function TaskGuilds(tasks: map<TaskId, Task>): set<GuildId> {
    set id | id in tasks :: tasks[id].guild
  }

  /** What is processed, then the rest of the running batch, then the queue, is exactly
      what was delivered for this guild, in order. */
  ghost predicate Kept(processed: seq<Command>, rest: seq<Command>, queue: seq<Command>, delivered: seq<Command>,
        g: GuildId) {
    OfGuild(processed, g) + rest + queue == OfGuild(delivered, g)
  }

  ghost predicate InOrder(s: State) {
    && (forall id :: id in s.tasks ==>
          var t := s.tasks[id]; Kept(s.processed, Unfinished(t), Queue(s, t.guild), s.delivered, t.guild))
    && (forall g :: g !in s.active ==> Kept(s.processed, [], Queue(s, g), s.delivered, g))
    && (forall g :: g in s.queues ==> AllOf(s.queues[g], g))
    && (forall id :: id in s.tasks ==> AllOf(s.tasks[id].batch, s.tasks[id].guild))
  }

  function Unfinished(t: Task): seq<Command> {
    if t.done <= |t.batch| then t.batch[t.done..] else []
  }

  ghost predicate AllOf(commands: seq<Command>, g: GuildId) {
    forall i :: 0 <= i < |commands| ==> commands[i].guild == g
  }

  ghost function QueueLengths(s: State): map<GuildId, nat> {
    map g | g in s.queues :: |s.queues[g]|
  }

  ghost function BatchLengths(s: State): map<TaskId, nat> {
    map id | id in s.tasks :: |s.tasks[id].batch|
  }

  /** `buffered` is exactly what is queued plus what tasks hold. */
  ghost predicate Accounted(s: State) {
    s.buffered == Sum(QueueLengths(s)) + Sum(BatchLengths(s))
  }

  /** After every operation no guild waits while a slot is free. */
  ghost predicate Busy(s: State) {
    s.ready == [] || |s.tasks| == MAX_CONCURRENT_GUILDS
  }

  ghost predicate Inv(s: State) {
    Scheduled(s) && InOrder(s) && Accounted(s)
  }

  // ---------------------------------------------------------------- every operation keeps it

  lemma OfGuildAppend(commands: seq<Command>, c: Command, g: GuildId)
    ensures OfGuild(commands + [c], g) == if c.guild == g then OfGuild(commands, g) + [c] else OfGuild(commands, g)
  {
    assert (commands + [c])[..|commands|] == commands;
  }

  lemma PushKeepsScheduled(s: State, c: Command)
    requires Scheduled(s)
    ensures Scheduled(Push(s, c))
  {
    var r := Push(s, c);
    forall g
      ensures g in r.ready <==> Queue(r, g) != [] && g !in r.active
    {
      assert g in s.ready <==> Queue(s, g) != [] && g !in s.active;
    }
  }

  lemma KeptPush(processed: seq<Command>, rest: seq<Command>, queue: seq<Command>, delivered: seq<Command>,
        g: GuildId, c: Command)
    requires Kept(processed, rest, queue, delivered, g)
    ensures Kept(processed, rest, if c.guild == g then queue + [c] else queue, delivered + [c], g)
  {
    OfGuildAppend(delivered, c, g);
  }

  lemma KeptStart(processed: seq<Command>, queue: seq<Command>, delivered: seq<Command>, g: GuildId)
    requires Kept(processed, [], queue, delivered, g)
    ensures Kept(processed, queue, [], delivered, g)
  {
    assert OfGuild(processed, g) + [] + queue == OfGuild(processed, g) + queue + [];
  }

  lemma KeptAdvance(processed: seq<Command>, rest: seq<Command>, queue: seq<Command>, delivered: seq<Command>,
        g: GuildId, c: Command)
    requires Kept(processed, if c.guild == g then [c] + rest else rest, queue, delivered, g)
    ensures Kept(processed + [c], rest, queue, delivered, g)
  {
    OfGuildAppend(processed, c, g);
    if c.guild == g {
      assert OfGuild(processed, g) + ([c] + rest) == OfGuild(processed, g) + [c] + rest;
    }
  }

  lemma PushKeepsOrder(s: State, c: Command)
    requires InOrder(s)
    ensures InOrder(Push(s, c))
  {
    hide Kept;
    var r := Push(s, c);
    forall id | id in r.tasks
      ensures var t := r.tasks[id]; Kept(r.processed, Unfinished(t), Queue(r, t.guild), r.delivered, t.guild)
    {
      var t := s.tasks[id];
      KeptPush(s.processed, Unfinished(t), Queue(s, t.guild), s.delivered, t.guild, c);
    }
    forall g | g !in r.active
      ensures Kept(r.processed, [], Queue(r, g), r.delivered, g)
    {
      KeptPush(s.processed, [], Queue(s, g), s.delivered, g, c);
    }
  }

  lemma PushKeepsAccount(s: State, c: Command)
    requires Accounted(s)
    ensures Accounted(Push(s, c))
  {
    var r := Push(s, c);
    SumSet(QueueLengths(s), c.guild, |Queue(r, c.guild)|);
    assert QueueLengths(r) == QueueLengths(s)[c.guild := |Queue(r, c.guild)|];
  }

  lemma {:induction false} PushAllKeeps(s: State, commands: seq<Command>)
    requires Inv(s)
    ensures Inv(PushAll(s, commands))
  {
    if commands != [] {
      var front, last := commands[..|commands| - 1], commands[|commands| - 1];
      PushAllKeeps(s, front);
      PushKeepsScheduled(PushAll(s, front), last);
      PushKeepsOrder(PushAll(s, front), last);
      PushKeepsAccount(PushAll(s, front), last);
    }
  }

  /** Pushing only ever appends: to the history, and behind everyone already waiting. */
  lemma {:induction false} PushAllAppends(s: State, commands: seq<Command>)
    ensures var r := PushAll(s, commands);
      && s.ready <= r.ready && r.tasks == s.tasks && r.active == s.active && r.processed == s.processed
      && r.delivered == s.delivered + commands
      && r.buffered == s.buffered + |commands|
  {
    if commands != [] {
      PushAllAppends(s, commands[..|commands| - 1]);
    }
  }

  lemma HasGuild(tasks: map<TaskId, Task>, id: TaskId)
    requires id in tasks
    ensures tasks[id].guild in TaskGuilds(tasks)
  {
  }

  lemma SetTaskGuilds(tasks: map<TaskId, Task>, id: TaskId, t: Task)
    requires id in tasks ==> tasks[id].guild == t.guild
    ensures TaskGuilds(tasks[id := t]) == TaskGuilds(tasks) + {t.guild}
  {
    var more := tasks[id := t];
    forall g | g in TaskGuilds(tasks) + {t.guild}
      ensures g in TaskGuilds(more)
    {
      if g == t.guild {
        HasGuild(more, id);
      } else {
        var k :| k in tasks && tasks[k].guild == g;
        HasGuild(more, k);
      }
    }
    forall g | g in TaskGuilds(more)
      ensures g in TaskGuilds(tasks) + {t.guild}
    {
      var k :| k in more && more[k].guild == g;
      if k != id {
        HasGuild(tasks, k);
      }
    }
  }

  lemma AddTask(tasks: map<TaskId, Task>, next: TaskId, t: Task)
    requires TasksFit(tasks, next) && t.guild !in TaskGuilds(tasks) && t.batch != [] && t.done <= |t.batch|
    ensures next !in tasks && TasksFit(tasks[next := t], next + 1)
    ensures TaskGuilds(tasks[next := t]) == TaskGuilds(tasks) + {t.guild}
    ensures |tasks[next := t]| == |tasks| + 1
  {
    assert next !in tasks;
    assert tasks[next := t].Keys == tasks.Keys + {next};
    SetTaskGuilds(tasks, next, t);
    forall id | id in tasks
      ensures tasks[id].guild != t.guild
    {
      HasGuild(tasks, id);
    }
    hide TaskGuilds;
  }

  lemma RemoveTask(tasks: map<TaskId, Task>, next: TaskId, id: TaskId)
    requires TasksFit(tasks, next) && id in tasks
    ensures TasksFit(tasks - {id}, next)
    ensures tasks[id].guild in TaskGuilds(tasks)
    ensures TaskGuilds(tasks - {id}) == TaskGuilds(tasks) - {tasks[id].guild}
    ensures |tasks - {id}| == |tasks| - 1
  {
    var fewer := tasks - {id};
    assert fewer.Keys == tasks.Keys - {id};
    forall k | k in fewer
      ensures fewer[k].guild in TaskGuilds(fewer) && tasks[k].guild in TaskGuilds(tasks)
        && tasks[k].guild != tasks[id].guild
    {
    }
  }

  lemma ReplaceTask(tasks: map<TaskId, Task>, next: TaskId, id: TaskId, t: Task)
    requires TasksFit(tasks, next) && id in tasks && t.guild == tasks[id].guild && t.batch != [] && t.done <= |t.batch|
    ensures TasksFit(tasks[id := t], next)
    ensures TaskGuilds(tasks[id := t]) == TaskGuilds(tasks)
    ensures |tasks[id := t]| == |tasks|
  {
    SetTaskGuilds(tasks, id, t);
    HasGuild(tasks, id);
    hide TaskGuilds;
    assert tasks[id := t].Keys == tasks.Keys;
  }

  lemma DropFirst<T>(items: seq<T>)
    requires items != [] && Distinct(items)
    ensures Distinct(items[1..])
    ensures forall x :: x in items[1..] <==> x in items && x != items[0]
  {
    assert items == [items[0]] + items[1..];
  }

  lemma StartKeepsScheduled(s: State)
    requires Scheduled(s) && s.ready != [] && |s.tasks| < MAX_CONCURRENT_GUILDS
    ensures Scheduled(StartFirst(s)) && |StartFirst(s).tasks| == |s.tasks| + 1
  {
    hide TasksFit, TaskGuilds, Distinct;
    var r, g := StartFirst(s), s.ready[0];
    assert g in s.ready;
    AddTask(s.tasks, s.nextTask, Task(g, Queue(s, g), 0));
    DropFirst(s.ready);
  }

  /** The guild at the head is free to start. */
  ghost predicate Startable(s: State) {
    && s.ready != [] && s.ready[0] !in s.active && s.ready[0] in s.queues && s.nextTask !in s.tasks
    && (forall id :: id in s.tasks ==> s.tasks[id].guild in s.active)
  }

  lemma HeadIsStartable(s: State)
    requires Inv(s) && s.ready != []
    ensures Startable(s) && s.queues[s.ready[0]] != []
  {
    hide InOrder, Accounted;
    assert s.ready[0] in s.ready;
    forall id | id in s.tasks
      ensures s.tasks[id].guild in s.active
    {
      HasGuild(s.tasks, id);
    }
  }

  lemma StartKeepsOrder(s: State)
    requires Startable(s) && InOrder(s)
    ensures InOrder(StartFirst(s))
  {
    hide Kept;
    var r, g := StartFirst(s), s.ready[0];
    KeptStart(s.processed, Queue(s, g), s.delivered, g);
    assert Unfinished(r.tasks[s.nextTask]) == Queue(s, g);
    forall id | id in r.tasks
      ensures var t := r.tasks[id]; Kept(r.processed, Unfinished(t), Queue(r, t.guild), r.delivered, t.guild)
    {
      if id != s.nextTask {
        assert s.tasks[id].guild != g;
      }
    }
  }

  lemma StartKeepsAccount(s: State)
    requires Startable(s) && Accounted(s)
    ensures Accounted(StartFirst(s))
  {
    hide Sum;
    var r, g := StartFirst(s), s.ready[0];
    SumSet(QueueLengths(s), g, 0);
    assert QueueLengths(r) == QueueLengths(s)[g := 0];
    SumSet(BatchLengths(s), s.nextTask, |Queue(s, g)|);
    assert BatchLengths(r) == BatchLengths(s)[s.nextTask := |Queue(s, g)|];
  }

  lemma StartKeeps(s: State)
    requires Inv(s) && s.ready != [] && |s.tasks| < MAX_CONCURRENT_GUILDS
    ensures var r := StartFirst(s);
      && Inv(r) && |r.tasks| == |s.tasks| + 1 && r.active == s.active + {s.ready[0]}
      && r.buffered == s.buffered && r.delivered == s.delivered && r.processed == s.processed
  {
    hide Scheduled, InOrder, Accounted;
    HeadIsStartable(s);
    StartKeepsScheduled(s);
    StartKeepsOrder(s);
    StartKeepsAccount(s);
  }

  lemma {:induction false} StartedKeeps(s: State, count: nat)
    requires Inv(s) && count <= |s.ready| && count <= FreeSlots(s)
    ensures var r := Started(s, count);
      && Inv(r) && |r.tasks| == |s.tasks| + count && r.active == s.active + (set i | 0 <= i < count :: s.ready[i])
      && r.buffered == s.buffered && r.delivered == s.delivered && r.processed == s.processed
  {
    hide Inv, StartFirst;
    if count > 0 {
      StartedKeeps(s, count - 1);
      StartKeeps(Started(s, count - 1));
    }
  }

  lemma SpawnedKeeps(s: State)
    requires Inv(s)
    ensures var r := Spawned(s);
      && Inv(r) && Busy(r) && r.buffered == s.buffered && r.delivered == s.delivered && r.processed == s.processed
  {
    hide Scheduled, InOrder, Accounted, Started;
    assert |s.tasks| <= MAX_CONCURRENT_GUILDS by { TasksWithinLimit(s); }
    StartedKeeps(s, Min(FreeSlots(s), |s.ready|));
  }

  lemma StartedUnfolds(s: State, count: nat)
    requires count <= |s.ready|
    ensures Started(s, count) == if count == 0 then s else StartFirst(Started(s, count - 1))
  {
  }

  lemma SpawnedStops(s: State, count: nat)
    requires Inv(s) && count <= |s.ready| && |Started(s, count).tasks| == |s.tasks| + count
    requires |Started(s, count).tasks| <= MAX_CONCURRENT_GUILDS
    requires count == |s.ready| || |Started(s, count).tasks| == MAX_CONCURRENT_GUILDS
    ensures Spawned(s) == Started(s, count)
  {
    hide Inv, Started;
  }

  lemma TasksWithinLimit(s: State)
    requires Inv(s)
    ensures |s.tasks| <= MAX_CONCURRENT_GUILDS
  {
  }

  lemma AdvancedKeepsScheduled(s: State, id: TaskId)
    requires Scheduled(s) && CanAdvance(s, id)
    ensures Scheduled(Advanced(s, id)) && |Advanced(s, id).tasks| == |s.tasks|
  {
    hide TasksFit, TaskGuilds, Distinct;
    ReplaceTask(s.tasks, s.nextTask, id, s.tasks[id].(done := s.tasks[id].done + 1));
  }

  lemma AdvancedKeepsOrder(s: State, id: TaskId)
    requires InOrder(s) && CanAdvance(s, id) && s.tasks[id].guild in s.active
    requires forall k :: k in s.tasks && k != id ==> s.tasks[k].guild != s.tasks[id].guild
    ensures InOrder(Advanced(s, id))
  {
    hide Kept;
    var r, t := Advanced(s, id), s.tasks[id];
    var c := t.batch[t.done];
    assert c.guild == t.guild;
    assert Unfinished(t) == [c] + Unfinished(r.tasks[id]);
    forall k | k in r.tasks
      ensures var u := r.tasks[k]; Kept(r.processed, Unfinished(u), Queue(r, u.guild), r.delivered, u.guild)
    {
      var u := r.tasks[k];
      KeptAdvance(s.processed, Unfinished(u), Queue(s, u.guild), s.delivered, u.guild, c);
    }
    forall g | g !in r.active
      ensures Kept(r.processed, [], Queue(r, g), r.delivered, g)
    {
      KeptAdvance(s.processed, [], Queue(s, g), s.delivered, g, c);
    }
  }

  lemma AdvancedKeeps(s: State, id: TaskId)
    requires Inv(s) && CanAdvance(s, id)
    ensures Inv(Advanced(s, id)) && (Busy(s) ==> Busy(Advanced(s, id)))
  {
    hide Scheduled, InOrder, Sum;
    AdvancedKeepsScheduled(s, id);
    OneTaskEach(s, id);
    AdvancedKeepsOrder(s, id);
    assert BatchLengths(Advanced(s, id)) == BatchLengths(s);
    assert QueueLengths(Advanced(s, id)) == QueueLengths(s);
  }

  lemma RetiredKeepsScheduled(s: State, id: TaskId)
    requires Scheduled(s) && CanJoin(s, id)
    ensures Scheduled(Retired(s, id)) && |Retired(s, id).tasks| == |s.tasks| - 1
  {
    hide TasksFit, TaskGuilds;
    var r, g := Retired(s, id), s.tasks[id].guild;
    RemoveTask(s.tasks, s.nextTask, id);
    forall h
      ensures h in r.ready <==> Queue(r, h) != [] && h !in r.active
    {
      assert h in s.ready <==> Queue(s, h) != [] && h !in s.active;
      assert h in r.ready <==> h in s.ready || (h == g && Queue(s, g) != []);
    }
  }

  lemma OneTaskEach(s: State, id: TaskId)
    requires Scheduled(s) && id in s.tasks
    ensures s.tasks[id].guild in s.active
    ensures forall k :: k in s.tasks && k != id ==> s.tasks[k].guild != s.tasks[id].guild
  {
    HasGuild(s.tasks, id);
  }

  lemma RetiredKeepsOrder(s: State, id: TaskId)
    requires InOrder(s) && CanJoin(s, id)
    requires forall k :: k in s.tasks && k != id ==> s.tasks[k].guild != s.tasks[id].guild
    ensures InOrder(Retired(s, id))
  {
    hide Kept;
    var r, t := Retired(s, id), s.tasks[id];
    assert Unfinished(t) == [];
    forall k | k in r.tasks
      ensures var u := r.tasks[k]; Kept(r.processed, Unfinished(u), Queue(r, u.guild), r.delivered, u.guild)
    {
      assert s.tasks[k].guild != t.guild;
    }
    forall g | g !in r.active
      ensures Kept(r.processed, [], Queue(r, g), r.delivered, g)
    {
      if g == t.guild {
        assert Kept(s.processed, Unfinished(t), Queue(s, g), s.delivered, g);
      }
    }
  }

  lemma RetiredKeepsAccount(s: State, id: TaskId)
    requires Accounted(s) && CanJoin(s, id)
    ensures Accounted(Retired(s, id)) && Retired(s, id).buffered == s.buffered - |s.tasks[id].batch|
  {
    hide Sum;
    var r, t := Retired(s, id), s.tasks[id];
    SumWithout(BatchLengths(s), id);
    assert BatchLengths(r) == BatchLengths(s) - {id};
    if Queue(s, t.guild) != [] || t.guild !in s.queues {
      assert QueueLengths(r) == QueueLengths(s);
    } else {
      SumWithout(QueueLengths(s), t.guild);
      assert QueueLengths(r) == QueueLengths(s) - {t.guild};
    }
  }

  /** Taking a finished task out never makes the saturating subtraction clip. */
  lemma RetiredKeeps(s: State, id: TaskId)
    requires Inv(s) && CanJoin(s, id)
    ensures Inv(Retired(s, id)) && |Retired(s, id).tasks| == |s.tasks| - 1
    ensures |s.tasks[id].batch| <= s.buffered && Retired(s, id).buffered == s.buffered - |s.tasks[id].batch|
  {
    hide InOrder, Accounted, Sum;
    RetiredKeepsScheduled(s, id);
    OneTaskEach(s, id);
    RetiredKeepsOrder(s, id);
    RetiredKeepsAccount(s, id);
  }

  // ---------------------------------------------------------------- runs

  datatype Event = Deliver(commands: seq<Command>) | Advance(id: TaskId) | Join(id: TaskId)

  predicate Enabled(s: State, e: Event) {
    match e
    case Deliver(_) => true
    case Advance(id) => CanAdvance(s, id)
    case Join(id) => CanJoin(s, id)
  }

  function Apply(s: State, e: Event): State
    requires Enabled(s, e)
  {
    match e
    case Deliver(commands) => Delivered(s, commands)
    case Advance(id) => Advanced(s, id)
    case Join(id) => Joined(s, id)
  }

  function Next(s: State, e: Event): Option<State> {
    if Enabled(s, e) then Some(Apply(s, e)) else None
  }

  lemma EventKeeps(s: State, e: Event)
    requires Inv(s) && Busy(s) && Enabled(s, e)
    ensures Inv(Apply(s, e)) && Busy(Apply(s, e))
  {
    hide Inv, PushAll, Spawned, Retired, Advanced;
    match e
    case Deliver(commands) =>
      PushAllKeeps(s, commands);
      SpawnedKeeps(PushAll(s, commands));
    case Advance(id) => AdvancedKeeps(s, id);
    case Join(id) =>
      RetiredKeeps(s, id);
      SpawnedKeeps(Retired(s, id));
  }

  lemma {:induction false} RunKeeps(s: State, events: seq<Event>)
    requires Inv(s) && Busy(s) && Exec(Next, s, events).Some?
    ensures Inv(Exec(Next, s, events).value) && Busy(Exec(Next, s, events).value)
  {
    hide Inv, Busy, Apply, Enabled;
    if events != [] {
      RunKeeps(s, events[..|events| - 1]);
      EventKeeps(Exec(Next, s, events[..|events| - 1]).value, events[|events| - 1]);
    }
  }

  lemma EmptyIsSound()
    ensures Inv(EMPTY) && Busy(EMPTY)
  {
    assert QueueLengths(EMPTY) == map[] && BatchLengths(EMPTY) == map[];
  }

  /** What is done of a guild, then what is left of its single running batch, then its queue,
      is everything delivered for it. */
  ghost predicate GuildInOrder(s: State, g: GuildId) {
    && OfGuild(s.processed, g) <= OfGuild(s.delivered, g)
    && (forall i, j :: i in s.tasks && j in s.tasks && s.tasks[i].guild == s.tasks[j].guild ==> i == j)
    && (forall id :: id in s.tasks && s.tasks[id].guild == g ==>
          Kept(s.processed, Unfinished(s.tasks[id]), Queue(s, g), s.delivered, g))
    && ((forall id :: id in s.tasks ==> s.tasks[id].guild != g) ==>
          Kept(s.processed, [], Queue(s, g), s.delivered, g))
  }

  lemma SoundMeansInOrder(s: State, g: GuildId)
    requires Inv(s)
    ensures GuildInOrder(s, g)
  {
    hide OfGuild, Kept, Accounted;
    if g in s.active {
      var id :| id in s.tasks && s.tasks[id].guild == g;
      KeptIsPrefix(s.processed, Unfinished(s.tasks[id]), Queue(s, g), s.delivered, g);
    } else {
      KeptIsPrefix(s.processed, [], Queue(s, g), s.delivered, g);
    }
  }

  /** In every run, commands of one guild are processed in the order they were delivered,
      one at a time. */
  lemma SameGuildRunsInOrder(events: seq<Event>, g: GuildId)
    requires Exec(Next, EMPTY, events).Some?
    ensures GuildInOrder(Exec(Next, EMPTY, events).value, g)
  {
    hide Exec, Inv, Busy, GuildInOrder;
    EmptyIsSound();
    RunKeeps(EMPTY, events);
    SoundMeansInOrder(Exec(Next, EMPTY, events).value, g);
  }

  lemma KeptIsPrefix(processed: seq<Command>, rest: seq<Command>, queue: seq<Command>, delivered: seq<Command>,
        g: GuildId)
    requires Kept(processed, rest, queue, delivered, g)
    ensures OfGuild(processed, g) <= OfGuild(delivered, g)
  {
    assert OfGuild(processed, g) + rest + queue == OfGuild(processed, g) + (rest + queue);
  }

  /** When nothing runs, everything delivered has been processed. */
  lemma IdleMeansDone(s: State, g: GuildId)
    requires Inv(s) && Busy(s) && s.tasks == map[]
    ensures OfGuild(s.processed, g) == OfGuild(s.delivered, g)
  {
    hide OfGuild;
    assert g !in s.active;
    assert g in s.ready <==> Queue(s, g) != [];
    assert OfGuild(s.processed, g) + [] == OfGuild(s.processed, g);
  }

  lemma IdleQueuesNothing(s: State, g: GuildId)
    requires Inv(s) && s.tasks == map[] && s.ready == []
    ensures g !in s.queues
  {
    hide InOrder, Accounted;
    assert g in s.ready <==> Queue(s, g) != [] && g !in s.active;
  }

  lemma IdleHoldsNothing(s: State)
    requires Inv(s) && Busy(s) && s.tasks == map[]
    ensures s.buffered == 0
  {
    hide Scheduled, InOrder, Sum;
    forall g
      ensures g !in s.queues
    {
      IdleQueuesNothing(s, g);
    }
    AllZero(QueueLengths(s));
    AllZero(BatchLengths(s));
  }

  /** A dispatcher holding anything at all has a task running, so waiting for room cannot
      wait for nothing. */
  lemma FullMeansActive(s: State, limit: nat)
    requires Inv(s) && Busy(s) && 0 < limit <= s.buffered
    ensures s.tasks != map[]
  {
    hide Inv, Busy;
    if s.tasks == map[] {
      IdleHoldsNothing(s);
    }
  }

  // ---------------------------------------------------------------- bounded overtaking

  function Joins(events: seq<Event>): nat {
    if events == [] then 0
    else Joins(events[..|events| - 1]) + (if events[|events| - 1].Join? then 1 else 0)
  }

  lemma OneSlotStartsTheFirst(s: State)
    requires Inv(s) && FreeSlots(s) == 1 && s.ready != []
    ensures Spawned(s).ready == s.ready[1..] && s.ready[0] in Spawned(s).active
  {
    hide Inv, Started, FreeSlots;
    StartedUnfolds(s, 0);
    StartedUnfolds(s, 1);
  }

  /** A completion moves every waiting guild up by exactly one and starts the first. */
  lemma JoinMovesUp(s: State, id: TaskId, k: nat)
    requires Inv(s) && Busy(s) && CanJoin(s, id) && k < |s.ready|
    ensures var r := Joined(s, id);
      if k == 0 then s.ready[0] in r.active else k - 1 < |r.ready| && r.ready[k - 1] == s.ready[k]
  {
    hide Inv, Busy, Spawned, FreeSlots, Retired;
    RetiredKeeps(s, id);
    JoinFreesOneSlot(s, id);
    OneSlotStartsTheFirst(Retired(s, id));
  }

  lemma JoinFreesOneSlot(s: State, id: TaskId)
    requires Inv(s) && Busy(s) && CanJoin(s, id) && s.ready != []
    ensures FreeSlots(Retired(s, id)) == 1 && s.ready <= Retired(s, id).ready
  {
    hide InOrder, Accounted;
    RetiredKeeps(s, id);
  }

  /** Arrivals and progress leave every waiting guild where it is. */
  lemma OthersKeepPlaces(s: State, e: Event, k: nat)
    requires Inv(s) && Busy(s) && Enabled(s, e) && !e.Join? && k < |s.ready|
    ensures k < |Apply(s, e).ready| && Apply(s, e).ready[k] == s.ready[k]
  {
    hide Inv;
    if e.Deliver? {
      PushAllAppends(s, e.commands);
    }
  }

  /** A guild at position k is never passed: after j completions it is at position k - j, and
      the (k + 1)-th completion starts it. */
  lemma {:induction false} OvertakingIsBounded(s: State, events: seq<Event>, k: nat)
    requires Inv(s) && Busy(s) && k < |s.ready| && Exec(Next, s, events).Some?
    ensures var r, j := Exec(Next, s, events).value, Joins(events);
      && (j <= k ==> k - j < |r.ready| && r.ready[k - j] == s.ready[k])
      && (j == k + 1 && events != [] && events[|events| - 1].Join? ==> s.ready[k] in r.active)
  {
    hide Inv, Busy, Apply;
    if events != [] {
      var front, last := events[..|events| - 1], events[|events| - 1];
      OvertakingIsBounded(s, front, k);
      RunKeeps(s, front);
      var before, j := Exec(Next, s, front).value, Joins(front);
      if j <= k {
        if last.Join? {
          JoinStep(before, last.id, k - j);
        } else {
          OthersKeepPlaces(before, last, k - j);
        }
      }
    }
  }

  lemma JoinStep(s: State, id: TaskId, k: nat)
    requires Inv(s) && Busy(s) && Enabled(s, Join(id)) && k < |s.ready|
    ensures var r := Apply(s, Join(id));
      if k == 0 then s.ready[0] in r.active else k - 1 < |r.ready| && r.ready[k - 1] == s.ready[k]
  {
    JoinMovesUp(s, id, k);
  }

  // ---------------------------------------------------------------- the dispatcher as code

  class Dispatcher {
    const bufferLimit: nat
    var buffered: nat
    var queues: map<GuildId, seq<Command>>
    var ready: seq<GuildId>
    var active: set<GuildId>
    var tasks: map<TaskId, Task>
    var nextTask: TaskId
    ghost var delivered: seq<Command>
    ghost var processed: seq<Command>

    ghost function View(): State
      reads this
    {
      State(queues, ready, active, tasks, nextTask, buffered, delivered, processed)
    }

    ghost predicate Valid()
      reads this
    {
      Inv(View()) && Busy(View())
    }

    constructor (bufferLimit: nat)
      ensures Valid() && View() == EMPTY && this.bufferLimit == bufferLimit
    {
      this.bufferLimit := bufferLimit;
      buffered, queues, ready, active, tasks, nextTask := 0, map[], [], {}, map[], 0;
      delivered, processed := [], [];
      new;
      hide Inv, Busy;
      assert View() == EMPTY;
      EmptyIsSound();
    }

    /** Queues commands in order and starts whatever may start. */
    method Enqueue(commands: seq<Command>)
      requires Valid()
      modifies this
      ensures Valid() && View() == Apply(old(View()), Deliver(commands))
      ensures buffered == old(buffered) + |commands|
      ensures delivered == old(delivered) + commands
    {
      hide Inv, Busy, Spawned;
      ghost var before := View();
      for i := 0 to |commands|
        invariant View() == PushAll(before, commands[..i])
      {
        var command := commands[i];
        var g := command.guild;
        var queue := if g in queues then queues[g] else [];
        var needsReadyEntry := queue == [] && g !in active;
        queues := queues[g := queue + [command]];
        buffered := buffered + 1;
        if needsReadyEntry {
          ready := ready + [g];
        }
        delivered := delivered + [command];
        assert commands[..i + 1][..i] == commands[..i];
      }
      assert commands[..|commands|] == commands;
      PushAllKeeps(before, commands);
      PushAllAppends(before, commands);
      SpawnReady();
    }

    /** Gives free slots to the guilds that have waited longest. */
    method SpawnReady()
      requires Inv(View())
      modifies this
      ensures Valid() && View() == Spawned(old(View()))
      ensures buffered == old(buffered) && delivered == old(delivered)
    {
      hide Inv, Busy, StartFirst, Started, Spawned;
      ghost var before := View();
      ghost var count: nat := 0;
      SpawnedKeeps(before);
      TasksWithinLimit(before);
      StartedUnfolds(before, 0);
      while |tasks| < MAX_CONCURRENT_GUILDS
        invariant count <= |before.ready|
        invariant View() == Started(before, count) && Inv(View())
        invariant |tasks| == |before.tasks| + count <= MAX_CONCURRENT_GUILDS
        decreases |ready|
      {
        if ready == [] {
          break;
        }
        StartedUnfolds(before, count + 1);
        StartHead();
        count := count + 1;
      }
      SpawnedStops(before, count);
    }

    /** The loop body of `SpawnReady`. */
    method StartHead()
      requires Inv(View()) && ready != [] && |tasks| < MAX_CONCURRENT_GUILDS
      modifies this
      ensures View() == StartFirst(old(View())) && Inv(View())
      ensures |tasks| == old(|tasks|) + 1 && |ready| == old(|ready|) - 1
    {
      hide Inv;
      StartKeeps(View());
      HeadIsStartable(View());
      var g := ready[0];
      ready := ready[1..];
      if g !in active && g in queues {
        var commands := queues[g];
        queues := queues[g := []];
        if commands != [] && g !in active {
          active := active + {g};
          tasks := tasks[nextTask := Task(g, commands, 0)];
          nextTask := nextTask + 1;
        }
      }
    }

    /** The runtime finishes one command of a running task. */
    method Advance(id: TaskId)
      requires Valid() && CanAdvance(View(), id)
      modifies this`tasks, this`processed
      ensures Valid() && View() == Apply(old(View()), Event.Advance(id))
    {
      hide Inv, Busy;
      AdvancedKeeps(View(), id);
      var task := tasks[id];
      processed := processed + [task.batch[task.done]];
      tasks := tasks[id := task.(done := task.done + 1)];
    }

    /** A joined task frees its guild, which waits again behind the others if it has more. */
    method Finish(id: TaskId)
      requires Valid() && CanJoin(View(), id)
      modifies this
      ensures Valid() && View() == Apply(old(View()), Join(id))
      ensures buffered < old(buffered) && delivered == old(delivered)
    {
      hide Inv, Busy, Spawned;
      RetiredKeeps(View(), id);
      BatchesHaveWork(View(), id);
      var g, finished := tasks[id].guild, |tasks[id].batch|;
      tasks := tasks - {id};
      active := active - {g};
      buffered := SaturatingSub(buffered, finished);
      if g in queues && queues[g] != [] {
        ready := ready + [g];
      } else {
        queues := queues - {g};
      }
      SpawnReady();
    }

    predicate HasActive()
      reads this
    {
      tasks != map[]
    }

    predicate IsFull()
      reads this
    {
      buffered >= bufferLimit
    }

    function AvailableCapacity(): nat
      reads this
    {
      SaturatingSub(bufferLimit, buffered)
    }
  }

  lemma BatchesHaveWork(s: State, id: TaskId)
    requires Inv(s) && id in s.tasks
    ensures s.tasks[id].batch != [] && s.tasks[id].done <= |s.tasks[id].batch|
  {
  }

}
