/** The shard worker around the dispatcher
    (crates/pepeaudio-runtime/src/command_dispatch.rs): how much it reads, when it waits, and
    why it never waits for nothing. */
module DispatchLoop {
  import opened Options
  import opened Runs
  import opened GuildDispatcher

  const USIZE_MAX := 0xFFFF_FFFF_FFFF_FFFF

  function Max(a: nat, b: nat): nat {
    if a < b then b else a
  }

  function BufferLimit(batchSize: nat): nat {
    Max(Min(2 * batchSize, USIZE_MAX), MAX_CONCURRENT_GUILDS)
  }

  /** Room for two batches, as far as the word goes, and for one command of every guild at once. */
  lemma BufferLimitIs(batchSize: nat)
    ensures BufferLimit(batchSize) >= 32
    ensures 2 * batchSize <= USIZE_MAX ==> BufferLimit(batchSize) >= 2 * batchSize
    ensures BufferLimit(batchSize) == 32 || BufferLimit(batchSize) == 2 * batchSize
      || (BufferLimit(batchSize) == USIZE_MAX && 2 * batchSize > USIZE_MAX)
  {
  }

  /** How a wait ends. `Stuck` is not an outcome of the source: it stands for a wait that
      nothing could ever end, because no task runs and no notice is due. */
  datatype WaitOutcome = Ready | Shutdown | TaskFailed | Stuck

  /** What a look at the shutdown channel finds. */
  datatype Notice = Quiet | Changed | Requested

  /** What the entries of a stream say; one that cannot be decoded says nothing. */
  function Decoded(entries: seq<Option<Command>>): seq<Command> {
    if entries == [] then []
    else
      var front, last := Decoded(entries[..|entries| - 1]), entries[|entries| - 1];
      if last.None? then front else front + [last.value]
  }

  lemma {:induction false} DecodedAppend(a: seq<Option<Command>>, b: seq<Option<Command>>)
    ensures Decoded(a + b) == Decoded(a) + Decoded(b) && |Decoded(a)| <= |a|
  {
    if b == [] {
      assert a + b == a;
      if a != [] {
        DecodedAppend(a[..|a| - 1], []);
      }
    } else {
      DecodedAppend(a, b[..|b| - 1]);
      assert (a + b)[..|a + b| - 1] == a + b[..|b| - 1];
    }
  }

  /** Exactly the entries that say something are found, in their order. */
  lemma {:induction false} DecodedIs(entries: seq<Option<Command>>, i: nat)
    requires i < |entries|
    ensures entries[i].Some? ==>
      |Decoded(entries[..i])| < |Decoded(entries)| && Decoded(entries)[|Decoded(entries[..i])|] == entries[i].value
    ensures entries[i].None? ==> Decoded(entries[..i + 1]) == Decoded(entries[..i])
  {
    var front := entries[..|entries| - 1];
    if i < |front| {
      DecodedIs(front, i);
      assert front[..i] == entries[..i] && front[..i + 1] == entries[..i + 1];
    } else {
      assert entries[..i + 1] == entries;
    }
  }

  lemma DecodedOn(was: seq<Option<Command>>, now: seq<Option<Command>>, from: nat, to: nat, end: nat)
    requires was <= now && from <= to <= |was| && to <= end <= |now|
    ensures Decoded(now[from..end]) == Decoded(was[from..to]) + Decoded(now[to..end])
  {
    assert now[from..end] == was[from..to] + now[to..end];
    DecodedAppend(was[from..to], now[to..end]);
  }

  lemma NoEntries(entries: seq<Option<Command>>, at: nat)
    requires at <= |entries|
    ensures Decoded(entries[at..at]) == []
  {
  }

  /** A call to the command store, with the count it asked for and the answer. */
  datatype StoreCall =
    | Claim(count: nat, reply: Option<seq<Command>>)
    | Read(count: nat, reply: Option<seq<Command>>)

  function ReplyOf(call: StoreCall): seq<Command> {
    if call.reply.None? then [] else call.reply.value
  }

  /** What calls brought in. */
  function Replies(calls: seq<StoreCall>): seq<Command> {
    if calls == [] then [] else Replies(calls[..|calls| - 1]) + ReplyOf(calls[|calls| - 1])
  }

  /** What reads alone brought in. */
  function NewOnes(calls: seq<StoreCall>): seq<Command> {
    if calls == [] then []
    else
      var front, last := NewOnes(calls[..|calls| - 1]), calls[|calls| - 1];
      if last.Read? then front + ReplyOf(last) else front
  }

  lemma {:induction false} RepliesAppend(a: seq<StoreCall>, b: seq<StoreCall>)
    ensures Replies(a + b) == Replies(a) + Replies(b)
  {
    hide ReplyOf;
    if b == [] {
      assert a + b == a;
    } else {
      RepliesAppend(a, b[..|b| - 1]);
      assert (a + b)[..|a + b| - 1] == a + b[..|b| - 1];
    }
  }

  lemma {:induction false} NewOnesAppend(a: seq<StoreCall>, b: seq<StoreCall>)
    ensures NewOnes(a + b) == NewOnes(a) + NewOnes(b)
  {
    hide ReplyOf;
    if b == [] {
      assert a + b == a;
    } else {
      NewOnesAppend(a, b[..|b| - 1]);
      assert (a + b)[..|a + b| - 1] == a + b[..|b| - 1];
    }
  }

  lemma CallsAppend(a: seq<StoreCall>, b: seq<StoreCall>)
    ensures Replies(a + b) == Replies(a) + Replies(b) && NewOnes(a + b) == NewOnes(a) + NewOnes(b)
  {
    RepliesAppend(a, b);
    NewOnesAppend(a, b);
  }

  lemma {:induction false} NewOnesAreReplies(calls: seq<StoreCall>, c: Command)
    ensures c in NewOnes(calls) ==> c in Replies(calls)
  {
    if calls != [] {
      NewOnesAreReplies(calls[..|calls| - 1], c);
    }
  }

  /** An entry within the stretch that was read is among what the calls brought. */
  lemma EntryIsBrought(stream: seq<Option<Command>>, from: nat, to: nat, i: nat, calls: seq<StoreCall>)
    requires from <= i < to <= |stream| && stream[i].Some? && NewOnes(calls) == Decoded(stream[from..to])
    ensures stream[i].value in Replies(calls)
  {
    hide Replies, NewOnes, Decoded;
    DecodedIs(stream[from..to], i - from);
    NewOnesAreReplies(calls, stream[i].value);
  }

  lemma NoCalls()
    ensures Replies([]) == [] == NewOnes([])
  {
  }

  lemma OneCall(call: StoreCall)
    ensures Replies([call]) == ReplyOf(call) && NewOnes([call]) == if call.Read? then ReplyOf(call) else []
  {
    assert [call][..0] == [];
  }

  /** One round of calls, with `room` free places before and `batchSize` as the bound on what
      is asked for: a claim, and after a successful one that left room, a read. */
  ghost predicate RoundOfCalls(made: seq<StoreCall>, room: nat, batchSize: nat) {
    || made == []
    || (|made| == 1 && made[0].Claim? && made[0].count == Min(room, batchSize))
    || (&& |made| == 2 && made[0].Claim? && made[0].count == Min(room, batchSize) && made[0].reply.Some?
        && |made[0].reply.value| < room && made[1].Read?
        && made[1].count == Min(room - |made[0].reply.value|, batchSize))
  }

  /** And a whole one: nothing without room, and the read left out only for want of it. */
  ghost predicate FullRound(made: seq<StoreCall>, room: nat, batchSize: nat) {
    && RoundOfCalls(made, room, batchSize)
    && (forall i :: 0 <= i < |made| ==> made[i].reply.Some?)
    && (made == [] <==> room == 0)
    && (|made| == 1 ==> room <= |made[0].reply.value|)
  }

  lemma ShortRound(reply: Option<seq<Command>>, room: nat, batchSize: nat)
    requires room > 0
    ensures var claim := Claim(Min(room, batchSize), reply);
      && RoundOfCalls([], room, batchSize) && RoundOfCalls([claim], room, batchSize)
      && (reply.Some? && room <= |reply.value| ==> FullRound([claim], room, batchSize))
  {
  }

  lemma LongRound(taken: seq<Command>, reply: Option<seq<Command>>, room: nat, batchSize: nat)
    requires |taken| < room
    ensures var made := [Claim(Min(room, batchSize), Some(taken)), Read(Min(room - |taken|, batchSize), reply)];
      RoundOfCalls(made, room, batchSize) && (reply.Some? ==> FullRound(made, room, batchSize))
  {
  }

  class ShardWorker {
    const batchSize: nat
    const dispatcher: Dispatcher
    /** Nobody gives notice or asks for a stop, no call fails and no task panics. */
    const calm: bool
    /** The stream of commands and how far it has been read; entries others left unfinished;
        and the calls made so far. */
    var stream: seq<Option<Command>>
    var position: nat
    var abandoned: nat
    ghost var calls: seq<StoreCall>
    /** Changes of the shutdown flag that are still to come and leave it unset. */
    var notices: nat
    /** A stop has been asked for; a task has turned out to have panicked. */
    var stopping: bool
    var panicked: bool

    ghost predicate Valid()
      reads this, dispatcher
    {
      && dispatcher.Valid() && Reaches(Next, EMPTY, dispatcher.View())
      && dispatcher.bufferLimit == BufferLimit(batchSize)
      && dispatcher.buffered <= dispatcher.bufferLimit && position <= |stream| && (calm ==> !stopping)
    }

    constructor (batchSize: nat, notices: nat, calm: bool, stream: seq<Option<Command>>, abandoned: nat)
      ensures Valid() && fresh(dispatcher) && dispatcher.View() == EMPTY
      ensures this.batchSize == batchSize && this.notices == notices && this.calm == calm
      ensures this.stream == stream && position == 0 && this.abandoned == abandoned && calls == []
      ensures !stopping && !panicked
    {
      hide Inv, Busy, Reaches;
      this.batchSize := batchSize;
      this.notices, stopping, panicked := notices, false, false;
      this.calm, this.stream, this.position, this.abandoned, this.calls := calm, stream, 0, abandoned, [];
      var scheduler := new Dispatcher(BufferLimit(batchSize));
      dispatcher := scheduler;
      new;
      ReachesItself(Next, EMPTY);
    }

    method Poll() returns (notice: Notice)
      modifies this`notices, this`stopping
      ensures stopping == (old(stopping) || notice.Requested?)
      ensures notices == if notice.Changed? then old(notices) - 1 else old(notices)
      ensures calm ==> notice.Quiet?
    {
      notice := *;
      if calm {
        notice := Quiet;
      }
      if notice.Changed? {
        if notices > 0 {
          notices := notices - 1;
        } else {
          notice := Quiet;
        }
      }
      stopping := stopping || notice.Requested?;
    }

    /** The runtime processes commands of whichever tasks it likes. */
    method Progress()
      requires Valid()
      modifies dispatcher
      ensures Valid() && SameHoldings(old(dispatcher.View()), dispatcher.View())
    {
      hide Inv, Busy, Reaches, Apply;
      var steps :| 0 <= steps;
      for i := 0 to steps
        invariant Valid() && SameHoldings(old(dispatcher.View()), dispatcher.View())
      {
        var id: TaskId :| 0 <= id;
        if id in dispatcher.tasks && dispatcher.tasks[id].done < |dispatcher.tasks[id].batch| {
          Process(id);
        }
      }
    }

    method Process(id: TaskId)
      requires Valid() && CanAdvance(dispatcher.View(), id)
      modifies dispatcher
      ensures Valid() && SameHoldings(old(dispatcher.View()), dispatcher.View())
      ensures dispatcher.tasks
        == old(dispatcher.tasks)[id := old(dispatcher.tasks[id].(done := dispatcher.tasks[id].done + 1))]
    {
      hide Inv, Busy, Reaches;
      ReachesBy(Next, EMPTY, dispatcher.View(), Event.Advance(id));
      dispatcher.Advance(id);
    }

    /** The next task to end is joined, or turns out to have panicked. */
    method JoinNext() returns (finished: bool)
      requires Valid() && dispatcher.HasActive()
      modifies this`panicked, dispatcher
      ensures panicked == (old(panicked) || !finished)
      ensures Valid() && dispatcher.delivered == old(dispatcher.delivered)
      ensures if finished then dispatcher.buffered < old(dispatcher.buffered)
        else dispatcher.buffered == old(dispatcher.buffered)
      ensures calm ==> finished
    {
      hide Inv, Busy, Reaches, Apply;
      Progress();
      finished := *;
      finished := finished || calm;
      if finished {
        var id :| id in dispatcher.tasks;
        BatchesHaveWork(dispatcher.View(), id);
        while dispatcher.tasks[id].done < |dispatcher.tasks[id].batch|
          invariant Valid() && SameHoldings(old(dispatcher.View()), dispatcher.View()) && id in dispatcher.tasks
          invariant dispatcher.tasks[id].done <= |dispatcher.tasks[id].batch| && panicked == old(panicked)
          decreases |dispatcher.tasks[id].batch| - dispatcher.tasks[id].done
        {
          Process(id);
        }
        ReachesBy(Next, EMPTY, dispatcher.View(), Join(id));
        dispatcher.Finish(id);
      } else {
        panicked := true;
      }
    }

    /** Every task that has already ended is joined. */
    method ReapFinished() returns (ok: bool)
      requires Valid()
      modifies this`panicked, dispatcher
      ensures panicked == (old(panicked) || !ok)
      ensures Valid() && dispatcher.buffered <= old(dispatcher.buffered)
        && dispatcher.delivered == old(dispatcher.delivered)
      ensures calm ==> ok
    {
      hide Inv, Busy, Reaches;
      ok := true;
      var ended: bool := *;
      while ended && dispatcher.HasActive()
        invariant Valid() && dispatcher.buffered <= old(dispatcher.buffered)
          && dispatcher.delivered == old(dispatcher.delivered) && ok && panicked == old(panicked)
        decreases dispatcher.buffered
      {
        ok := JoinNext();
        if !ok {
          return;
        }
        ended := *;
      }
    }

    method WaitForCompletion() returns (outcome: WaitOutcome)
      requires Valid()
      modifies this`notices, this`stopping, this`panicked, dispatcher
      ensures stopping == (old(stopping) || outcome.Shutdown?) && panicked == (old(panicked) || outcome.TaskFailed?)
      ensures Valid() && dispatcher.delivered == old(dispatcher.delivered)
      ensures outcome.Stuck? ==> !old(dispatcher.HasActive())
      ensures calm && old(dispatcher.HasActive()) ==> outcome.Ready?
      ensures outcome.Ready? ==>
        notices < old(notices) || (notices == old(notices) && dispatcher.buffered < old(dispatcher.buffered))
    {
      hide Inv, Busy, Reaches;
      var notice := Poll();
      if !notice.Quiet? {
        return if notice.Requested? then Shutdown else Ready;
      }
      if dispatcher.HasActive() {
        var finished := JoinNext();
        return if finished then Ready else TaskFailed;
      }
      return Stuck;
    }

    /** Waiting for room always ends, and never for lack of a task to wait for. */
    method WaitForCapacity() returns (outcome: WaitOutcome)
      requires Valid()
      modifies this`notices, this`stopping, this`panicked, dispatcher
      ensures stopping == (old(stopping) || outcome.Shutdown?) && panicked == (old(panicked) || outcome.TaskFailed?)
      ensures Valid() && !outcome.Stuck? && dispatcher.delivered == old(dispatcher.delivered)
      ensures outcome.Ready? ==> !dispatcher.IsFull()
      ensures calm ==> outcome.Ready?
    {
      hide Inv, Busy, Reaches;
      while dispatcher.IsFull()
        invariant Valid() && dispatcher.delivered == old(dispatcher.delivered) && panicked == old(panicked)
        invariant stopping == old(stopping)
        decreases notices, dispatcher.buffered
      {
        FullMeansActive(dispatcher.View(), dispatcher.bufferLimit);
        outcome := WaitForCompletion();
        if !outcome.Ready? {
          return;
        }
      }
      outcome := Ready;
    }

    /** The delay after a failed call keeps joining tasks; the timer can always end it. */
    method WaitForRetry() returns (outcome: WaitOutcome)
      requires Valid()
      modifies this`notices, this`stopping, this`panicked, dispatcher
      ensures stopping == (old(stopping) || outcome.Shutdown?) && panicked == (old(panicked) || outcome.TaskFailed?)
      ensures Valid() && !outcome.Stuck? && dispatcher.delivered == old(dispatcher.delivered)
      ensures dispatcher.buffered <= old(dispatcher.buffered)
    {
      hide Inv, Busy, Reaches;
      while true
        invariant Valid() && dispatcher.buffered <= old(dispatcher.buffered)
          && dispatcher.delivered == old(dispatcher.delivered) && panicked == old(panicked)
        invariant stopping == old(stopping)
        decreases notices, dispatcher.buffered
      {
        var notice := Poll();
        if notice.Requested? {
          return Shutdown;
        }
        if notice.Quiet? {
          var slept: bool := *;
          if slept || !dispatcher.HasActive() {
            return Ready;
          }
          var finished := JoinNext();
          if !finished {
            return TaskFailed;
          }
        }
      }
    }

    /** The store hands out entries left behind by others: at most the count asked for, or one. */
    method ClaimAbandoned(count: nat) returns (reply: Option<seq<Command>>)
      requires position <= |stream|
      modifies this`stream, this`abandoned, this`calls
      ensures old(stream) <= stream && calls == old(calls) + [Claim(count, reply)]
      ensures reply.Some? ==> |reply.value| <= Max(count, 1)
      ensures calm ==> reply.Some? && abandoned + |reply.value| <= old(abandoned)
    {
      Arrive();
      var commands: seq<Command>, taken: nat, ok: bool := *, *, *;
      if (ok || calm) && |commands| <= taken <= Min(Max(count, 1), abandoned) {
        reply, abandoned := Some(commands), abandoned - taken;
      } else {
        reply := if ok || calm then Some([]) else None;
      }
      calls := calls + [Claim(count, reply)];
    }

    /** The store hands out the next new entries, at most the count asked for, or one. A failed
        call may have handed them out for nothing: then they are abandoned. */
    method ReadCommands(count: nat) returns (reply: Option<seq<Command>>)
      requires position <= |stream|
      modifies this`stream, this`position, this`abandoned, this`calls
      ensures old(stream) <= stream && old(position) <= position <= |stream|
      ensures calls == old(calls) + [Read(count, reply)]
      ensures reply.Some? ==> |reply.value| <= Max(count, 1) && abandoned == old(abandoned)
      ensures reply.Some? ==> position == old(position) + Min(Max(count, 1), |stream| - old(position))
      ensures reply.Some? ==> reply.value == Decoded(stream[old(position)..position])
      ensures reply.None? ==> abandoned - old(abandoned) == position - old(position)
      ensures calm ==> reply.Some?
    {
      Arrive();
      var size := Min(Max(count, 1), |stream| - position);
      var ok, landed: bool := *, *;
      if ok || calm {
        reply := Some(Decoded(stream[position..position + size]));
        DecodedAppend(stream[position..position + size], []);
      } else {
        reply := None;
        size := if landed then size else 0;
        abandoned := abandoned + size;
      }
      position := position + size;
      calls := calls + [Read(count, reply)];
    }

    /** Others append to the stream. */
    method Arrive()
      modifies this`stream
      ensures old(stream) <= stream
    {
      var more: seq<Option<Command>> := *;
      stream := stream + more;
    }

    /** One claim or read and what follows it: what came in is queued; otherwise the round
        starts `again`, or the worker stops. */
    method Take(claims: bool) returns (outcome: WaitOutcome, again: bool, taken: seq<Command>)
      requires Valid() && !dispatcher.IsFull()
      modifies this`notices, this`stopping, this`panicked, this`stream, this`position, this`abandoned, this`calls,
        dispatcher
      ensures stopping == (old(stopping) || outcome.Shutdown?) && panicked == (old(panicked) || outcome.TaskFailed?)
      ensures Valid() && !outcome.Stuck? && dispatcher.delivered == old(dispatcher.delivered) + taken
      ensures old(stream) <= stream && old(position) <= position
      ensures var count := Min(old(dispatcher.AvailableCapacity()), batchSize);
        if again then calls == old(calls) || calls == old(calls) + [Asked(claims, count, None)]
        else calls == old(calls) + [Asked(claims, count, Some(taken))]
      ensures again ==> taken == []
      ensures !again ==> outcome.Ready? && dispatcher.buffered == old(dispatcher.buffered) + |taken|
      ensures !again && !claims ==> taken == Decoded(stream[old(position)..position])
      ensures !again && !claims && old(position) < |old(stream)| ==> old(position) < position
      ensures claims ==> position == old(position)
      ensures calm ==> !again && abandoned + (if claims then |taken| else 0) <= old(abandoned)
    {
      hide Inv, Busy, Reaches, Decoded;
      again, taken := true, [];
      var count := Min(dispatcher.AvailableCapacity(), batchSize);
      var notice := Poll();
      if !notice.Quiet? {
        outcome := if notice.Requested? then Shutdown else Ready;
        return;
      }
      var reply;
      if claims {
        reply := ClaimAbandoned(count);
      } else {
        reply := ReadCommands(count);
      }
      if reply.None? {
        outcome := WaitForRetry();
        return;
      }
      ReachesBy(Next, EMPTY, dispatcher.View(), Deliver(reply.value));
      dispatcher.Enqueue(reply.value);
      outcome, again, taken := Ready, false, reply.value;
    }

    /** Entries up to `target` still to be read, and whether room has to be waited for first. */
    ghost function Work(target: nat): nat
      reads this, dispatcher
    {
      2 * (abandoned + SaturatingSub(target, position)) + if dispatcher.IsFull() then 1 else 0
    }

    /** One round of the loop. It claims for the room there is, then reads for what is left of
        it, and dispatches what comes in; a calm round leaves out neither, and brings every
        waiting entry nearer. */
    method Round(ghost target: nat)
        returns (outcome: WaitOutcome, taken: seq<Command>, ghost room: nat, ghost made: seq<StoreCall>)
      requires Valid() && target <= |stream|
      modifies this`notices, this`stopping, this`panicked, this`stream, this`position, this`abandoned, this`calls,
        dispatcher
      ensures (outcome.Shutdown? <==> stopping) && panicked == (old(panicked) || outcome.TaskFailed?)
      ensures Valid() && !outcome.Stuck? && dispatcher.delivered == old(dispatcher.delivered) + taken
      ensures calls == old(calls) + made && taken == Replies(made) && old(stream) <= stream
      ensures RoundOfCalls(made, room, batchSize) && old(dispatcher.AvailableCapacity()) <= room
      ensures calm ==> outcome.Ready? && FullRound(made, room, batchSize)
      ensures calm ==> old(position) <= position && NewOnes(made) == Decoded(stream[old(position)..position])
      ensures calm && old(position) < target ==> Work(target) < old(Work(target))
      ensures calm ==> abandoned <= old(abandoned)
    {
      hide Inv, Busy, Reaches, Decoded;
      taken, made, room := [], [], dispatcher.AvailableCapacity();
      var requested: bool := *;
      stopping := stopping || (requested && !calm);
      if stopping {
        outcome := Shutdown;
        return;
      }
      var reaped := ReapFinished();
      if !reaped {
        outcome := TaskFailed;
        return;
      }
      room := dispatcher.AvailableCapacity();
      if dispatcher.IsFull() {
        outcome := WaitForCapacity();
        NoEntries(stream, position);
        return;
      }
      ghost var before := calls;
      outcome, taken, made := ClaimAndRead();
      assert calls[|before|..] == made;
    }

    /** The calls of a round that has room. */
    method ClaimAndRead() returns (outcome: WaitOutcome, taken: seq<Command>, ghost made: seq<StoreCall>)
      requires Valid() && !dispatcher.IsFull()
      modifies this`notices, this`stopping, this`panicked, this`stream, this`position, this`abandoned, this`calls,
        dispatcher
      ensures stopping == (old(stopping) || outcome.Shutdown?) && panicked == (old(panicked) || outcome.TaskFailed?)
      ensures Valid() && !outcome.Stuck? && dispatcher.delivered == old(dispatcher.delivered) + taken
      ensures calls == old(calls) + made && taken == Replies(made) && old(stream) <= stream
      ensures RoundOfCalls(made, old(dispatcher.AvailableCapacity()), batchSize)
      ensures calm ==> outcome.Ready? && FullRound(made, old(dispatcher.AvailableCapacity()), batchSize)
      ensures calm ==> old(position) <= position && NewOnes(made) == Decoded(stream[old(position)..position])
      ensures calm ==> abandoned <= old(abandoned)
      ensures calm && (|made| == 1 || old(position) < |old(stream)|) ==>
        abandoned < old(abandoned) || old(position) < position
    {
      hide Inv, Busy, Reaches, Decoded, Replies, NewOnes, RoundOfCalls, FullRound;
      ghost var room := dispatcher.AvailableCapacity();
      ghost var none, claim := Claim(Min(room, batchSize), None), Claim(Min(room, batchSize), None);
      NoEntries(stream, position);
      NoCalls();
      OneCall(none);
      ShortRound(None, room, batchSize);
      var again;
      outcome, again, taken := Take(true);
      if again {
        made := if calls == old(calls) then [] else [none];
        return;
      }
      claim := Claim(Min(room, batchSize), Some(taken));
      made := [claim];
      OneCall(claim);
      ShortRound(Some(taken), room, batchSize);
      NoEntries(stream, position);
      if dispatcher.IsFull() {
        return;
      }
      var more;
      ghost var got;
      outcome, more, got := ReadRest();
      CallsAppend([claim], got);
      LongRound(taken, if got == [] then None else got[0].reply, room, batchSize);
      assert [claim] + got == if got == [] then [claim] else [claim, got[0]];
      made := [claim] + got;
      taken := taken + more;
    }

    /** The second call of a round. */
    method ReadRest() returns (outcome: WaitOutcome, taken: seq<Command>, ghost got: seq<StoreCall>)
      requires Valid() && !dispatcher.IsFull()
      modifies this`notices, this`stopping, this`panicked, this`stream, this`position, this`abandoned, this`calls,
        dispatcher
      ensures stopping == (old(stopping) || outcome.Shutdown?) && panicked == (old(panicked) || outcome.TaskFailed?)
      ensures Valid() && !outcome.Stuck? && dispatcher.delivered == old(dispatcher.delivered) + taken
      ensures calls == old(calls) + got && old(stream) <= stream && old(position) <= position
      ensures got == [] || (|got| == 1
        && got[0] == Read(Min(old(dispatcher.AvailableCapacity()), batchSize), got[0].reply))
      ensures taken == Replies(got) == NewOnes(got)
      ensures calm ==> outcome.Ready? && got != [] && got[0].reply.Some?
      ensures calm ==> NewOnes(got) == Decoded(stream[old(position)..position]) && abandoned <= old(abandoned)
      ensures calm && old(position) < |old(stream)| ==> old(position) < position
    {
      hide Inv, Busy, Reaches, Decoded, Replies, NewOnes;
      ghost var count := Min(dispatcher.AvailableCapacity(), batchSize);
      NoEntries(stream, position);
      var again;
      outcome, again, taken := Take(false);
      NoCalls();
      OneCall(Read(count, None));
      OneCall(Read(count, Some(taken)));
      got := calls[|old(calls)|..];
      assert got == [] || got == [Read(count, None)] || got == [Read(count, Some(taken))];
    }

    /** The worker's loop, for any number of rounds: it only stops on request or after a
        panic, it is never stuck, it never holds more than its limit, everything it fetches is
        dispatched once and in that order, and whatever it does is a run of the dispatcher.
        While all is calm it hands on every new entry in order, and given two rounds for each
        entry waiting or abandoned, and one more, it has handed on all that were waiting. */
    method RunShard(rounds: nat) returns (outcome: WaitOutcome, fetched: seq<Command>)
      requires Valid()
      modifies this`notices, this`stopping, this`panicked, this`stream, this`position, this`abandoned, this`calls,
        dispatcher
      ensures (rounds > 0 ==> (outcome.Shutdown? <==> stopping)) && panicked == (old(panicked) || outcome.TaskFailed?)
      ensures Valid() && !outcome.Stuck? && dispatcher.delivered == old(dispatcher.delivered) + fetched
      ensures old(calls) <= calls && fetched == Replies(calls[|old(calls)|..])
      ensures calm ==> old(position) <= position && outcome.Ready?
      ensures calm ==> NewOnes(calls[|old(calls)|..]) == Decoded(stream[old(position)..position])
      ensures calm && rounds > 2 * (old(abandoned) + (|old(stream)| - old(position))) ==> |old(stream)| <= position
      ensures old(stream) <= stream
      ensures calm && rounds > 2 * (old(abandoned) + (|old(stream)| - old(position))) ==>
        forall i :: old(position) <= i < |old(stream)| && old(stream)[i].Some? ==> old(stream)[i].value in fetched
    {
      hide Inv, Busy, Reaches, Decoded, RoundOfCalls, FullRound, Replies, NewOnes;
      NoCalls();
      fetched := [];
      outcome := Ready;
      ghost var made: seq<StoreCall> := [];
      ghost var target := |stream|;
      ghost var work := Work(target);
      NoEntries(stream, position);
      for i := 0 to rounds
        invariant Valid() && dispatcher.delivered == old(dispatcher.delivered) + fetched
        invariant outcome.Ready? && panicked == old(panicked) && (i > 0 ==> !stopping)
        invariant calls == old(calls) + made && fetched == Replies(made) && old(stream) <= stream
        invariant calm ==> old(position) <= position && NewOnes(made) == Decoded(stream[old(position)..position])
        invariant calm && position < target ==> Work(target) + i <= work
      {
        ghost var before, was := position, stream;
        var taken;
        ghost var room, more;
        outcome, taken, room, more := Round(target);
        CallsAppend(made, more);
        made, fetched := made + more, fetched + taken;
        if calm {
          DecodedOn(was, stream, old(position), before, position);
        }
        if !outcome.Ready? {
          break;
        }
      }
      assert calls[|old(calls)|..] == made;
      forall i | old(position) <= i < target && stream[i].Some? && target <= position && calm
        ensures stream[i].value in fetched
      {
        EntryIsBrought(stream, old(position), position, i, made);
      }
    }
  }

  function Asked(claims: bool, count: nat, reply: Option<seq<Command>>): StoreCall {
    if claims then Claim(count, reply) else Read(count, reply)
  }

  /** What progress leaves alone. */
  ghost predicate SameHoldings(s: State, t: State) {
    && t.buffered == s.buffered && t.tasks.Keys == s.tasks.Keys && t.ready == s.ready && t.queues == s.queues
    && t.delivered == s.delivered && t.active == s.active
  }

  /** Whatever the worker does, each guild's commands run in delivery order. */
  lemma ReachableIsInOrder(s: State, g: GuildId)
    requires Reaches(Next, EMPTY, s)
    ensures GuildInOrder(s, g)
  {
    hide GuildInOrder, Exec;
    var events :| Exec(Next, EMPTY, events) == Some(s);
    SameGuildRunsInOrder(events, g);
  }
}
