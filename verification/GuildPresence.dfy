/** The actor that keeps gateway-presence leases alive (crates/pepeaudio-runtime/src/guild_presence.rs).

    `Actor` is the actor together with the leases the store holds in this instance's name.
    Every store call and every wake-up of the heartbeat task is one atomic step, so a
    sequence of steps is one interleaving. A call that timed out or was aborted may have
    taken effect before that, never later. */
module GuildPresence {
  import opened Options
  import opened Runs

  type GuildId = nat

  /** Where the actor's own control stands. */
  datatype Phase =
    | Idle
    | Refreshing(guild: GuildId)
    | Stopping(guild: GuildId)
    | Clearing(guild: GuildId)
    | Closing
    | ClosingClear
    | Stopped

  datatype Actor = Actor(
    guilds: set<GuildId>,
    /** Guilds the running heartbeat sweep has yet to refresh. */
    sweep: Option<set<GuildId>>,
    phase: Phase,
    leases: set<GuildId>)

  datatype Step =
    | PresentBegin(guild: GuildId)
    | PresentEnd(effect: bool, ok: bool)
    | AbsentBegin(guild: GuildId)
    | HeartbeatStopped
    | AbsentEnd(effect: bool, ok: bool)
    | Tick
    | SweepRefresh(guild: GuildId, effect: bool)
    | SweepJoined
    | LeaseLost(guild: GuildId)
    | ShutdownBegin
    | ClearOne(guild: GuildId)
    | ShutdownEnd

  const INITIAL := Actor({}, None, Idle, {})

  /** A reply of Ok is only sent for a store call that took effect. */
  predicate Enabled(a: Actor, step: Step) {
    match step
    case PresentBegin(_) => a.phase == Idle
    case PresentEnd(effect, ok) => a.phase.Refreshing? && (ok ==> effect)
    case AbsentBegin(_) => a.phase == Idle
    case HeartbeatStopped => a.phase.Stopping? || a.phase == Closing
    case AbsentEnd(effect, ok) => a.phase.Clearing? && (ok ==> effect)
    case Tick => a.phase == Idle && a.sweep.None?
    case SweepRefresh(g, _) => a.sweep.Some? && g in a.sweep.value
    case SweepJoined => a.phase == Idle && a.sweep.Some?
    case LeaseLost(_) => true
    case ShutdownBegin => a.phase == Idle
    case ClearOne(g) => a.phase == ClosingClear && g in a.guilds
    case ShutdownEnd => a.phase == ClosingClear
  }

  function Apply(a: Actor, step: Step): Actor
    requires Enabled(a, step)
  {
    match step
    case PresentBegin(g) => a.(guilds := a.guilds + {g}, phase := Refreshing(g))
    case PresentEnd(effect, _) => a.(phase := Idle, leases := if effect then a.leases + {a.phase.guild} else a.leases)
    case AbsentBegin(g) => a.(guilds := a.guilds - {g}, phase := Stopping(g))
    case HeartbeatStopped => a.(sweep := None, phase := if a.phase == Closing then ClosingClear
      else Clearing(a.phase.guild))
    case AbsentEnd(effect, _) => a.(phase := Idle, leases := if effect then a.leases - {a.phase.guild} else a.leases)
    case Tick => a.(sweep := Some(a.guilds))
    case SweepRefresh(g, effect) =>
      a.(sweep := Some(a.sweep.value - {g}), leases := if effect then a.leases + {g} else a.leases)
    case SweepJoined => a.(sweep := None)
    case LeaseLost(g) => a.(leases := a.leases - {g})
    case ShutdownBegin => a.(phase := Closing)
    case ClearOne(g) => a.(leases := a.leases - {g})
    case ShutdownEnd => a.(phase := Stopped)
  }

  function Next(a: Actor, step: Step): Option<Actor> {
    if Enabled(a, step) then Some(Apply(a, step)) else None
  }

  // ---------------------------------------------------------------- the sweep

  /** The running sweep only knows desired guilds, except for the one whose removal is
      waiting for the sweep to stop; once it has stopped, and after shutdown, none runs. */
  ghost predicate SweepIsDesired(a: Actor) {
    && (a.sweep.Some? ==> a.sweep.value <= a.guilds + (if a.phase.Stopping? then {a.phase.guild} else {}))
    && (a.phase.Clearing? || a.phase == ClosingClear || a.phase == Stopped ==> a.sweep.None?)
  }

  lemma {:induction false} SweepIsAlwaysDesired(steps: seq<Step>)
    requires Exec(Next, INITIAL, steps).Some?
    ensures SweepIsDesired(Exec(Next, INITIAL, steps).value)
  {
    if steps != [] {
      SweepIsAlwaysDesired(steps[..|steps| - 1]);
    }
  }

  /** Between commands every refresh the heartbeat sends is for a desired guild. */
  lemma RefreshesAreDesired(steps: seq<Step>, g: GuildId, effect: bool)
    requires Exec(Next, INITIAL, steps + [SweepRefresh(g, effect)]).Some?
    ensures var a := Exec(Next, INITIAL, steps).value;
      Exec(Next, INITIAL, steps).Some? && (g in a.guilds || a.phase == Stopping(g))
  {
    assert (steps + [SweepRefresh(g, effect)])[..|steps|] == steps;
    SweepIsAlwaysDesired(steps);
  }

  // ---------------------------------------------------------------- leases after Absent

  /** Nothing in the actor can bring a lease on `g` back. */
  ghost predicate Forgotten(a: Actor, g: GuildId) {
    g !in a.guilds && a.phase != Refreshing(g) && (a.sweep.Some? ==> g !in a.sweep.value)
  }

  lemma {:induction false} StaysForgotten(a: Actor, steps: seq<Step>, g: GuildId)
    requires Forgotten(a, g) && Exec(Next, a, steps).Some?
    requires PresentBegin(g) !in steps
    ensures Forgotten(Exec(Next, a, steps).value, g)
    ensures g !in a.leases ==> g !in Exec(Next, a, steps).value.leases
  {
    if steps != [] {
      StaysForgotten(a, steps[..|steps| - 1], g);
    }
  }

  /** Once Absent(g) has been answered with Ok, this instance holds no lease on g in any
      later state, whatever the heartbeat and other calls do, until Present(g) is asked for. */
  lemma AbsentOkIsFinal(before: seq<Step>, effect: bool, after: seq<Step>, g: GuildId)
    requires Exec(Next, INITIAL, before).Some? && Exec(Next, INITIAL, before).value.phase == Clearing(g)
    requires Exec(Next, INITIAL, before + [AbsentEnd(effect, true)] + after).Some?
    requires PresentBegin(g) !in after
    ensures g !in Exec(Next, INITIAL, before + [AbsentEnd(effect, true)] + after).value.leases
  {
    SweepIsAlwaysDesired(before);
    ClearingMeansRemoved(before);
    ExecSplits(Next, INITIAL, before + [AbsentEnd(effect, true)], after);
    assert (before + [AbsentEnd(effect, true)])[..|before|] == before;
    var replied := Exec(Next, INITIAL, before + [AbsentEnd(effect, true)]).value;
    assert Forgotten(replied, g);
    StaysForgotten(replied, after, g);
  }

  /** The guild being cleared is never among the refreshed ones. */
  lemma {:induction false} ClearingMeansRemoved(steps: seq<Step>)
    requires Exec(Next, INITIAL, steps).Some?
    ensures var a := Exec(Next, INITIAL, steps).value;
      a.phase.Stopping? || a.phase.Clearing? ==> a.phase.guild !in a.guilds
  {
    if steps != [] {
      ClearingMeansRemoved(steps[..|steps| - 1]);
    }
  }

  /** A failed clear is still safe: from the moment the heartbeat has stopped for Absent(g),
      the lease on g can only be lost, never renewed, until Present(g). */
  lemma ClearingOnlyLosesTheLease(before: seq<Step>, during: seq<Step>, after: seq<Step>, g: GuildId)
    requires Exec(Next, INITIAL, before).Some? && Exec(Next, INITIAL, before).value.phase == Clearing(g)
    requires Exec(Next, INITIAL, before + during + after).Some?
    requires PresentBegin(g) !in during + after
    ensures Exec(Next, INITIAL, before + during).Some?
    ensures g !in Exec(Next, INITIAL, before + during).value.leases ==>
      g !in Exec(Next, INITIAL, before + during + after).value.leases
  {
    SweepIsAlwaysDesired(before);
    ClearingMeansRemoved(before);
    ExecSplits(Next, INITIAL, before, during);
    ExecSplits(Next, INITIAL, before + during, after);
    var a := Exec(Next, INITIAL, before).value;
    assert forall step :: step in during || step in after ==> step in during + after;
    StaysForgotten(a, during, g);
    StaysForgotten(Exec(Next, a, during).value, after, g);
  }

  // ---------------------------------------------------------------- repair

  /** Steps of a heartbeat in which nothing goes wrong and nothing is withdrawn. */
  predicate Healthy(step: Step) {
    match step
    case SweepRefresh(_, effect) => effect
    case PresentBegin(_) => true
    case PresentEnd(_, _) => true
    case _ => false
  }

  /** A heartbeat repairs writes that failed earlier: if nothing goes wrong during a sweep,
      every guild it set out with is leased or still to come, so a finished sweep leaves
      all of them leased. */
  lemma {:induction false} SweepRepairs(a: Actor, steps: seq<Step>)
    requires a.phase == Idle && a.sweep.None?
    requires Exec(Next, a, [Tick] + steps).Some?
    requires forall i :: 0 <= i < |steps| ==> Healthy(steps[i])
    ensures var b := Exec(Next, a, [Tick] + steps).value;
      b.sweep.Some? && a.guilds <= b.leases + b.sweep.value
  {
    if steps == [] {
      assert [Tick] + steps == [Tick];
      assert Exec(Next, a, [Tick][..0]) == Some(a);
    } else {
      assert ([Tick] + steps)[..|steps|] == [Tick] + steps[..|steps| - 1];
      SweepRepairs(a, steps[..|steps| - 1]);
    }
  }

  // ---------------------------------------------------------------- the actor as code

  lemma ReachableIsSafe(a: Actor)
    requires Reaches(Next, INITIAL, a)
    ensures SweepIsDesired(a)
    ensures a.phase.Stopping? || a.phase.Clearing? ==> a.phase.guild !in a.guilds
  {
    var steps :| Exec(Next, INITIAL, steps) == Some(a);
    SweepIsAlwaysDesired(steps);
    ClearingMeansRemoved(steps);
  }

  /** A request to the presence actor and how it was answered. */
  datatype Answer = Answer(presents: bool, guild: GuildId, ok: bool)

  /** Each method is the code's handler with the store and the heartbeat task free to act
      wherever the code awaits; `Valid` says the object is in a state that some
      interleaving from the start leads to, so everything above applies to it. */
  class PresenceActor {
    /** Whether the store answers every call with success. */
    const reliable: bool
    var guilds: set<GuildId>
    var heartbeat: Option<set<GuildId>>
    var stopped: bool
    ghost var phase: Phase
    ghost var leases: set<GuildId>
    ghost var answers: seq<Answer>

    ghost function State(): Actor
      reads this
    {
      Actor(guilds, heartbeat, phase, leases)
    }

    ghost predicate Valid()
      reads this
    {
      Reaches(Next, INITIAL, State()) && (stopped <==> phase == Stopped)
    }

    /** Between messages. */
    ghost predicate Ready()
      reads this
    {
      Valid() && (phase == Idle || phase == Stopped)
    }

    constructor (reliable: bool)
      ensures Ready() && State() == INITIAL && this.reliable == reliable && answers == []
    {
      this.reliable := reliable;
      guilds, heartbeat, stopped, phase, leases := {}, None, false, Idle, {};
      answers := [];
      new;
      ReachesItself(Next, INITIAL);
    }

    /** While the actor awaits: the heartbeat task refreshes some of its guilds, in any order
        and with any outcome, and leases may run out or be taken over. */
    method Await()
      requires Valid()
      modifies this`heartbeat, this`leases
      ensures Valid() && heartbeat.Some? == old(heartbeat).Some?
      ensures heartbeat.None? ==> leases <= old(leases)
    {
      hide Reaches;
      var events :| 0 <= events;
      for i := 0 to events
        invariant Valid() && heartbeat.Some? == old(heartbeat).Some?
        invariant heartbeat.None? ==> leases <= old(leases)
      {
        ghost var a := State();
        var lost: bool := *;
        if lost || heartbeat.None? || heartbeat.value == {} {
          ghost var g :| 0 <= g;
          ReachesBy(Next, INITIAL, a, LeaseLost(g));
          leases := leases - {g};
        } else {
          var g :| g in heartbeat.value;
          var effect: bool := *;
          ReachesBy(Next, INITIAL, a, SweepRefresh(g, effect));
          heartbeat := Some(heartbeat.value - {g});
          leases := if effect then leases + {g} else leases;
        }
      }
    }

    /** Desired ownership is kept even when the write fails. */
    method Present(g: GuildId) returns (ok: bool)
      requires Ready()
      modifies this
      ensures Ready() && stopped == old(stopped) && answers == old(answers) + [Answer(true, g, ok)]
      ensures old(stopped) ==> !ok && guilds == old(guilds)
      ensures !old(stopped) ==> guilds == old(guilds) + {g}
      ensures ok ==> g in leases
      ensures reliable && !stopped ==> ok
    {
      hide Reaches;
      if stopped {
        answers := answers + [Answer(true, g, false)];
        return false;
      }
      ReachesBy(Next, INITIAL, State(), PresentBegin(g));
      guilds := guilds + {g};
      phase := Refreshing(g);
      Await();
      var effect: bool := *;
      ok := *;
      effect, ok := effect || reliable, (ok && effect) || reliable;
      ReachesBy(Next, INITIAL, State(), PresentEnd(effect, ok));
      leases := if effect then leases + {g} else leases;
      phase := Idle;
      answers := answers + [Answer(true, g, ok)];
    }

    /** The guild stops being refreshed before its lease is cleared. */
    method Absent(g: GuildId) returns (ok: bool)
      requires Ready()
      modifies this
      ensures Ready() && stopped == old(stopped) && answers == old(answers) + [Answer(false, g, ok)]
      ensures old(stopped) ==> !ok && guilds == old(guilds)
      ensures !old(stopped) ==> guilds == old(guilds) - {g} && Forgotten(State(), g)
      ensures ok ==> g !in leases
      ensures reliable && !stopped ==> ok
    {
      hide Reaches;
      if stopped {
        answers := answers + [Answer(false, g, false)];
        return false;
      }
      ReachesBy(Next, INITIAL, State(), AbsentBegin(g));
      guilds := guilds - {g};
      phase := Stopping(g);
      Await();
      ReachesBy(Next, INITIAL, State(), HeartbeatStopped);
      heartbeat := None;
      phase := Clearing(g);
      Await();
      var effect: bool := *;
      ok := *;
      effect, ok := effect || reliable, (ok && effect) || reliable;
      ReachesBy(Next, INITIAL, State(), AbsentEnd(effect, ok));
      leases := if effect then leases - {g} else leases;
      phase := Idle;
      answers := answers + [Answer(false, g, ok)];
    }

    /** The rest of the select loop: a finished heartbeat is joined, or a tick starts the
        next one over the guilds desired now. */
    method Heartbeat()
      requires Ready() && !stopped
      modifies this
      ensures Ready() && !stopped && guilds == old(guilds) && answers == old(answers)
      ensures old(heartbeat).None? ==> heartbeat == Some(guilds)
      ensures old(heartbeat).Some? ==> heartbeat.None?
    {
      if heartbeat.None? {
        ReachesBy(Next, INITIAL, State(), Tick);
        heartbeat := Some(guilds);
      } else {
        ReachesBy(Next, INITIAL, State(), SweepJoined);
        heartbeat := None;
      }
    }

    /** Stops refreshing, then clears every lease it can: `closing` is the moment between, when
        no sweep runs and nothing is cleared yet. From there on leases are only ever lost. */
    method Shutdown() returns (ghost closing: Actor)
      requires Ready() && !stopped
      modifies this
      ensures Ready() && stopped && heartbeat.None? && guilds == old(guilds) && answers == old(answers)
      ensures Reaches(Next, INITIAL, closing) && closing.phase == ClosingClear && closing.sweep.None?
      ensures leases <= closing.leases
      ensures reliable ==> leases !! guilds
    {
      hide Reaches;
      ReachesBy(Next, INITIAL, State(), ShutdownBegin);
      phase := Closing;
      Await();
      ReachesBy(Next, INITIAL, State(), HeartbeatStopped);
      heartbeat := None;
      phase := ClosingClear;
      closing := State();
      var left := guilds;
      while left != {}
        invariant Valid() && phase == ClosingClear && heartbeat.None? && !stopped
        invariant guilds == old(guilds) && left <= guilds && answers == old(answers)
        invariant leases <= closing.leases && (reliable ==> leases !! guilds - left)
        decreases left
      {
        Await();
        var g :| g in left;
        left := left - {g};
        var cleared: bool := *;
        if cleared || reliable {
          ReachesBy(Next, INITIAL, State(), ClearOne(g));
          leases := leases - {g};
        }
      }
      ReachesBy(Next, INITIAL, State(), ShutdownEnd);
      phase := Stopped;
      stopped := true;
    }

    /** Everything the actor and the rest of the process may do between two requests of the
        lifecycle actor, shutting down included. */
    method Interfere()
      requires Ready()
      modifies this
      ensures Ready() && (old(stopped) ==> stopped) && (!stopped ==> guilds == old(guilds))
      ensures answers == old(answers)
    {
      hide Reaches;
      var rounds :| 0 <= rounds;
      for i := 0 to rounds
        invariant Ready() && (old(stopped) ==> stopped) && (!stopped ==> guilds == old(guilds))
        invariant answers == old(answers)
      {
        Await();
        var what: bool := *;
        if !stopped {
          if what { Heartbeat(); } else { ghost var closing := Shutdown(); }
        }
      }
    }
  }
}
