/** `process_command` as the worker runs it (crates/pepeaudio-runtime/src/command_loop.rs),
    with everyone else free to act before each of its calls: whatever it does is a run of the
    step machine, so everything proved of runs holds of it. */
module CommandWorker {
  import opened Options
  import opened Runs
  import opened PlayerActor
  import opened CommandLoop

  /** Events of everybody but run `w`. */
  predicate OfOthers(e: Event, w: RunId) {
    match e
    case Crash(v) => v != w
    case Call(v, _, _) => v != w
    case _ => true
  }

  /** Others can only hand a waiting run its answer. */
  ghost predicate Undisturbed(a: Run, b: Run) {
    b == a || (a.pc.Waiting? && b.pc.Answered? && b.entry == a.entry && b.command == a.command)
  }

  lemma OthersLeaveRun(s: State, e: Event, w: RunId)
    requires Inv(s) && Enabled(s, e) && OfOthers(e, w) && w in s.runs
    ensures w in Apply(s, e).runs && Undisturbed(s.runs[w], Apply(s, e).runs[w])
    ensures s.store.submitted.Keys <= Apply(s, e).store.submitted.Keys
  {
    hide Sound, StoreSound, ApplyCommand, AfterAnswer;
  }

  lemma SubmittedStays(s: State, w: RunId, fate: Fate, verdict: Verdict)
    requires Known(s, w)
    ensures var t := Step(s, w, fate, verdict);
      t.store.submitted == s.store.submitted && w in t.runs && t.runs[w].command == s.runs[w].command
  {
    hide AfterRead, AfterClaim, AfterWrite, AfterAnswer, ResultWrite;
  }

  datatype Lookup = Failed | Missing | Got(stored: Stored)

  datatype Claimed = Acquired | InProgress | AlreadyDone | ClaimFailed

  /** The write left the result on record, or found it there. */
  predicate IsStored(write: Option<Write>) {
    write == Some(Written) || write == Some(Unchanged)
  }

  predicate HasResult(store: Store, c: CommandId, result: Result) {
    c in store.results && store.results[c] == Final(result)
  }

  class Cluster {
    ghost const origin: State
    /** The store, the player and every run, as all of them share it. */
    var state: State

    ghost predicate Valid()
      reads this
    {
      Inv(origin) && Reaches(Next, origin, state) && Inv(state)
    }

    constructor (guild: GuildId, player: GuildId, revision: nat)
      ensures Valid() && state == origin == Start(guild, player, revision)
    {
      hide Inv, Reaches;
      origin, state := Start(guild, player, revision), Start(guild, player, revision);
      StartIsSound(guild, player, revision);
      ReachesItself(Next, Start(guild, player, revision));
    }

    /** Run `w` is about to make a call of this kind. */
    ghost predicate At(w: RunId, pc: Pc)
      reads this
    {
      Valid() && Known(state, w) && state.runs[w].pc == pc
    }

    ghost predicate OnRecord(w: RunId, result: Result)
      requires w in state.runs
      reads this
    {
      HasResult(state.store, state.runs[w].command, result)
    }

    method Do(e: Event)
      requires Valid() && Enabled(state, e)
      modifies this
      ensures Valid() && state == Apply(old(state), e)
    {
      hide Inv, Reaches, Enabled, Apply;
      ReachesBy(Next, origin, state, e);
      EventKeeps(state, e);
      state := Apply(state, e);
    }

    /** Other runs, the player, the clock, submitters and expiries do what they like. */
    method Interfere(w: RunId)
      requires Valid() && Known(state, w)
      modifies this
      ensures Valid() && Known(state, w) && Undisturbed(old(state.runs[w]), state.runs[w])
    {
      hide Inv, Reaches, Apply, Enabled;
      var steps :| 0 <= steps;
      for i := 0 to steps
        invariant Valid() && Known(state, w) && Undisturbed(old(state.runs[w]), state.runs[w])
      {
        var e: Event := *;
        if Enabled(state, e) && OfOthers(e, w) {
          OthersLeaveRun(state, e, w);
          Do(e);
        }
      }
    }

    /** The next call of run `w`, with whatever fate. */
    method Call(w: RunId, fate: Fate, verdict: Verdict)
      requires Valid() && Known(state, w)
      modifies this
      ensures Valid() && Known(state, w) && state == Step(old(state), w, fate, verdict)
      ensures state.runs[w].command == old(state.runs[w].command) && state.store.submitted == old(state.store.submitted)
    {
      hide Inv, Reaches, Completion, Complete, ResultWrite, WriteResult, ClaimLease, ReleaseLease, AfterAnswer;
      SubmittedStays(state, w, fate, verdict);
      Do(Event.Call(w, fate, verdict));
    }

    method GetCommandResult(w: RunId) returns (found: Lookup)
      requires At(w, Reading)
      modifies this
      ensures At(w, match found
                    case Failed => Finished
                    case Missing => Recording(Rejected(ResultExpired, None))
                    case Got(Pending) => CheckingDeadline
                    case Got(Final(_)) => Acknowledging)
    {
      hide Inv, Reaches;
      Interfere(w);
      var fate: Fate := *;
      var c := state.runs[w].command;
      if fate != Works {
        found := Failed;
      } else if c in state.store.results {
        found := Got(state.store.results[c]);
      } else {
        found := Missing;
      }
      Call(w, fate, Allowed);
    }

    method DeadlineExpired(w: RunId) returns (expired: bool)
      requires At(w, CheckingDeadline)
      modifies this
      ensures At(w, if expired then Recording(Rejected(CommandExpired, None)) else Authorizing)
    {
      hide Inv, Reaches;
      Interfere(w);
      expired := state.now >= state.store.submitted[state.runs[w].command].deadline;
      Call(w, Works, Allowed);
    }

    method Authorize(w: RunId) returns (verdict: Verdict)
      requires At(w, Authorizing)
      modifies this
      ensures At(w, match verdict
                    case Allowed => Claiming
                    case Refusal => Recording(Denied(NotAuthorized))
                    case Unsure => Finished)
    {
      hide Inv, Reaches;
      Interfere(w);
      verdict := *;
      Call(w, Works, verdict);
    }

    method ClaimIdempotency(w: RunId) returns (claim: Claimed)
      requires At(w, Claiming)
      modifies this
      ensures At(w, match claim
                    case Acquired => Executing
                    case AlreadyDone => Recording(Rejected(IdempotencyReplayed, None))
                    case InProgress => Finished
                    case ClaimFailed => Finished)
    {
      hide Inv, Reaches;
      Interfere(w);
      var fate: Fate := *;
      var key := state.store.submitted[state.runs[w].command].key;
      if fate != Works {
        claim := ClaimFailed;
      } else if key !in state.store.leases {
        claim := Acquired;
      } else if state.store.leases[key] == Completed {
        claim := AlreadyDone;
      } else {
        claim := InProgress;
      }
      Call(w, fate, Allowed);
    }

    /** Sends the command and waits. The answer may never come, or the player may be missing. */
    method Execute(w: RunId) returns (answer: Option<Reply>)
      requires At(w, Executing)
      modifies this
      ensures answer.Some? && answer.value != Retry ==> At(w, Answered(answer.value))
      ensures answer == Some(Retry) ==> At(w, Releasing) || At(w, Answered(Retry))
      ensures answer.None? ==> At(w, Waiting)
    {
      hide Inv, Reaches;
      Interfere(w);
      var found: Verdict := *;
      Call(w, Works, found);
      if found == Unsure {
        return Some(Retry);
      }
      Interfere(w);
      answer := if state.runs[w].pc.Answered? then Some(state.runs[w].pc.reply) else None;
    }

    method CompleteCommand(w: RunId, ghost result: Result) returns (write: Option<Write>)
      requires At(w, Completing(result))
      modifies this
      ensures At(w, if IsStored(write) then Acknowledging else Finished)
      ensures state.runs[w].command == old(state.runs[w].command) && (IsStored(write) ==> OnRecord(w, result))
    {
      hide Inv, Reaches;
      Interfere(w);
      var fate: Fate := *;
      var c := state.runs[w].command;
      write := None;
      if fate == Works {
        write := Some(Completion(state.store, state.store.submitted[c].key, w, c, state.runs[w].pc.result));
      }
      Call(w, fate, Allowed);
    }

    method StoreCommandResult(w: RunId, ghost result: Result) returns (write: Option<Write>)
      requires At(w, Recording(result))
      modifies this
      ensures At(w, if IsStored(write) then Acknowledging else Finished)
      ensures state.runs[w].command == old(state.runs[w].command) && (IsStored(write) ==> OnRecord(w, result))
    {
      hide Inv, Reaches;
      Interfere(w);
      var fate: Fate := *;
      var c := state.runs[w].command;
      write := None;
      if fate == Works {
        write := Some(ResultWrite(state.store, c, state.runs[w].pc.result));
      }
      Call(w, fate, Allowed);
    }

    method ReleaseIdempotency(w: RunId)
      requires At(w, Releasing)
      modifies this
      ensures At(w, Finished)
    {
      hide Inv, Reaches;
      Interfere(w);
      var fate: Fate := *;
      Call(w, fate, Allowed);
    }

    method Acknowledge(w: RunId)
      requires At(w, Acknowledging)
      modifies this
      ensures At(w, Finished)
    {
      hide Inv, Reaches;
      Interfere(w);
      var fate: Fate := *;
      Call(w, fate, Allowed);
    }

    /** `wrote` is the moment the write was answered: the run goes on to acknowledge only if the
        answer is that the store has this result by then, newly or from before; otherwise,
        also when the answer to a write that landed is lost, it ends there. */
    method StoreResultAndAcknowledge(w: RunId, result: Result) returns (write: Option<Write>, ghost wrote: State)
      requires At(w, Recording(result))
      modifies this
      ensures At(w, Finished) && SettledBy(old(state), wrote, w, result, write)
      ensures !IsStored(write) ==> state == wrote
    {
      hide Inv, Reaches;
      write := StoreCommandResult(w, result);
      wrote := state;
      if IsStored(write) {
        Acknowledge(w);
      }
    }

    method CompleteWithResultAndAcknowledge(w: RunId, result: Result) returns (write: Option<Write>, ghost wrote: State)
      requires At(w, Completing(result))
      modifies this
      ensures At(w, Finished) && SettledBy(old(state), wrote, w, result, write)
      ensures !IsStored(write) ==> state == wrote
    {
      hide Inv, Reaches;
      write := CompleteCommand(w, result);
      wrote := state;
      if IsStored(write) {
        Acknowledge(w);
      }
    }

    ghost predicate SettledBy(before: State, wrote: State, w: RunId, result: Result, write: Option<Write>) {
      && Reaches(Next, origin, wrote) && w in before.runs && Known(wrote, w)
         && wrote.runs[w].command == before.runs[w].command
      && wrote.runs[w].pc == (if IsStored(write) then Acknowledging else Finished)
      && (IsStored(write) ==> HasResult(wrote.store, wrote.runs[w].command, result))
    }

    /** One delivery of an entry, from first look to last call; `answered` is false when the
        player's answer never comes. */
    method ProcessCommand(entry: EntryId) returns (w: RunId, answered: bool)
      requires Valid() && Enabled(state, Begin(entry))
      modifies this
      ensures At(w, if answered then Finished else Waiting)
    {
      hide Inv, Reaches;
      answered := true;
      w := state.nextRun;
      EntryIsKnown(state, entry);
      Do(Begin(entry));
      var found := GetCommandResult(w);
      match found {
        case Got(Final(_)) =>
          Acknowledge(w);
          return;
        case Got(Pending) =>
        case Missing =>
          var _, _ := StoreResultAndAcknowledge(w, Rejected(ResultExpired, None));
          return;
        case Failed =>
          return;
      }
      var expired := DeadlineExpired(w);
      if expired {
        var _, _ := StoreResultAndAcknowledge(w, Rejected(CommandExpired, None));
        return;
      }
      var verdict := Authorize(w);
      match verdict {
        case Allowed =>
        case Refusal =>
          var _, _ := StoreResultAndAcknowledge(w, Denied(NotAuthorized));
          return;
        case Unsure =>
          return;
      }
      var claim := ClaimIdempotency(w);
      match claim {
        case AlreadyDone =>
          var _, _ := StoreResultAndAcknowledge(w, Rejected(IdempotencyReplayed, None));
        case InProgress =>
        case ClaimFailed =>
        case Acquired =>
          var answer := Execute(w);
          if answer == None {
            answered := false;
            return;
          }
          Settle(w, answer.value);
      }
    }

    /** The answer becomes a final result, or the lease is given back for another try. */
    method Settle(w: RunId, reply: Reply)
      requires At(w, Answered(reply)) || (reply == Retry && At(w, Releasing))
      modifies this
      ensures At(w, Finished)
    {
      hide Inv, Reaches, ResultWrite, Completion;
      if state.runs[w].pc.Answered? {
        var terminal := Report(state.store.submitted[state.runs[w].command], reply);
        Call(w, Works, Allowed);
        if terminal.Some? {
          var _, _ := CompleteWithResultAndAcknowledge(w, terminal.value);
          return;
        }
      }
      ReleaseIdempotency(w);
    }
  }
}
