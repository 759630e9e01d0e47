/** The actor that turns shard ownership into presence, under failing calls
    (crates/pepeaudio-bot/src/guild_lifecycle_actor.rs), composed with the presence actor. */
module GuildLifecycle {
  import opened Options
  import opened Runs
  import opened Sequences
  import opened GuildPresence

  type ShardId = nat

  datatype Stage = NeedsInvalidation | NeedsPresence | Advertised

  /** The lifecycle actor's own state. */
  datatype Model = Model(
    owned: map<ShardId, set<GuildId>>,
    advertisements: map<GuildId, Stage>,
    pendingAbsence: set<GuildId>)

  /** The calls of one round that were answered with success. */
  datatype Calls = Calls(invalidated: set<GuildId>, presented: set<GuildId>, cleared: set<GuildId>)

  const MAX_PARALLEL_INVALIDATIONS := 32

  // ---------------------------------------------------------------- desired state

  predicate IsOwned(owned: map<ShardId, set<GuildId>>, g: GuildId) {
    exists s :: s in owned && g in owned[s]
  }

  /** The union of what all shards own. */
  function Desired(owned: map<ShardId, set<GuildId>>): (d: set<GuildId>)
    ensures forall g :: g in d <==> IsOwned(owned, g)
  {
    set s, g | s in owned && g in owned[s] :: g
  }

  /** Exactly the desired guilds are being advertised, no desired guild is waiting to be
      cleared, and shards that own nothing are not kept. */
  ghost predicate Consistent(m: Model) {
    && m.advertisements.Keys == Desired(m.owned)
    && m.pendingAbsence !! Desired(m.owned)
    && (forall s :: s in m.owned ==> m.owned[s] != {})
  }

  /** The desired state after ownership changed: guilds still wanted keep their stage, newly
      wanted ones start over, and of the affected ones no longer wanted all await clearing. */
  function Redesired(m: Model, owned: map<ShardId, set<GuildId>>, affected: set<GuildId>): Model {
    Model(owned,
          map g | g in Desired(owned) :: if g in m.advertisements then m.advertisements[g] else NeedsInvalidation,
          (m.pendingAbsence + affected) - Desired(owned))
  }

  /** Ownership changed for affected guilds only. */
  ghost predicate Confined(before: map<ShardId, set<GuildId>>, after: map<ShardId, set<GuildId>>,
        affected: set<GuildId>) {
    forall g :: g !in affected ==> (IsOwned(before, g) <==> IsOwned(after, g))
  }

  lemma RedesiredIsConsistent(m: Model, owned: map<ShardId, set<GuildId>>, affected: set<GuildId>)
    requires forall s :: s in owned ==> owned[s] != {}
    ensures Consistent(Redesired(m, owned, affected))
  {
  }

  // ---------------------------------------------------------------- one round

  function At(m: Model, stage: Stage): set<GuildId> {
    set g | g in m.advertisements && m.advertisements[g] == stage
  }

  /** A round only calls for affected guilds, and for each only the call it is due. */
  ghost predicate Admissible(m: Model, affected: set<GuildId>, calls: Calls) {
    && calls.invalidated <= affected * At(m, NeedsInvalidation)
    && calls.presented <= affected * (At(m, NeedsPresence) + calls.invalidated)
    && calls.cleared <= affected * m.pendingAbsence
  }

  function StageAfter(m: Model, calls: Calls, g: GuildId): Stage
    requires g in m.advertisements
  {
    if g in calls.presented then Advertised
    else if g in calls.invalidated then NeedsPresence
    else m.advertisements[g]
  }

  function AfterRound(m: Model, calls: Calls): Model {
    Model(m.owned, map g | g in m.advertisements :: StageAfter(m, calls, g), m.pendingAbsence - calls.cleared)
  }

  /** Guilds that still need a call. */
  function Pending(m: Model): set<GuildId> {
    At(m, NeedsInvalidation) + At(m, NeedsPresence) + m.pendingAbsence
  }

  /** What is left to do: two calls for a new guild, one to advertise, one per absence. */
  function Rank(m: Model): nat {
    2 * |At(m, NeedsInvalidation)| + |At(m, NeedsPresence)| + |m.pendingAbsence|
  }

  lemma {:induction false} Remove<T>(whole: set<T>, part: set<T>)
    requires part <= whole
    ensures |whole - part| == |whole| - |part|
  {
    assert whole == (whole - part) + part;
  }

  /** Every successful call lowers the rank by exactly one, and nothing raises it. */
  lemma RoundLowersRank(m: Model, affected: set<GuildId>, calls: Calls)
    requires Admissible(m, affected, calls)
    ensures Rank(AfterRound(m, calls)) == Rank(m) - |calls.invalidated| - |calls.presented| - |calls.cleared|
  {
    var after := AfterRound(m, calls);
    var fresh0, due := At(m, NeedsInvalidation), At(m, NeedsPresence);
    assert At(after, NeedsInvalidation) == fresh0 - calls.invalidated;
    assert At(after, NeedsPresence) == (due + calls.invalidated) - calls.presented;
    Remove(fresh0, calls.invalidated);
    assert due !! calls.invalidated;
    Remove(due + calls.invalidated, calls.presented);
    Remove(m.pendingAbsence, calls.cleared);
  }

  /** A round in which every due call succeeds settles every affected guild. */
  lemma PerfectRoundSettles(m: Model, affected: set<GuildId>, calls: Calls)
    requires Admissible(m, affected, calls)
    requires calls.invalidated == affected * At(m, NeedsInvalidation)
    requires calls.presented == affected * (At(m, NeedsPresence) + calls.invalidated)
    requires calls.cleared == affected * m.pendingAbsence
    ensures Pending(AfterRound(m, calls)) == Pending(m) - affected
  {
    var after := AfterRound(m, calls);
    assert forall g :: g in affected && g in m.advertisements ==> after.advertisements[g] == Advertised;
  }

  // ---------------------------------------------------------------- with the presence actor

  /** Both actors: the model, the guilds the presence actor refreshes, whether that actor is
      running, and the guilds whose snapshot was invalidated since their current ownership
      began. */
  datatype World = World(model: Model, refreshed: set<GuildId>, alive: bool, confirmed: set<GuildId>)

  /** What holds between lifecycle commands: refreshed guilds are desired and were
      invalidated first, and advertised guilds are refreshed. */
  ghost predicate Boundary(w: World) {
    && Consistent(w.model)
    && At(w.model, NeedsPresence) + At(w.model, Advertised) <= w.confirmed <= w.model.advertisements.Keys
    && (w.alive ==> At(w.model, Advertised) <= w.refreshed <= At(w.model, NeedsPresence) + At(w.model, Advertised))
  }

  /** Inside a command, before a round: affected guilds waiting to be cleared may still be
      refreshed. */
  ghost predicate BeforeRound(w: World, affected: set<GuildId>) {
    && Consistent(w.model)
    && At(w.model, NeedsPresence) + At(w.model, Advertised) <= w.confirmed <= w.model.advertisements.Keys
    && (w.alive ==> At(w.model, Advertised) <= w.refreshed)
    && (w.alive ==>
          w.refreshed <= At(w.model, NeedsPresence) + At(w.model, Advertised) + affected * w.model.pendingAbsence)
  }

  /** A new owner starts without a confirmed invalidation; a lost one loses it. */
  function ChangeOwnership(w: World, owned: map<ShardId, set<GuildId>>, affected: set<GuildId>): World {
    World(Redesired(w.model, owned, affected), w.refreshed, w.alive, w.confirmed * Desired(owned))
  }

  /** A round: each due guild is presented or withdrawn whether or not the call is answered,
      as long as the presence actor is running; `alive` says whether it survives. A stopped
      actor refreshes nothing. */
  function PlayRound(w: World, affected: set<GuildId>, calls: Calls, alive: bool): World {
    World(AfterRound(w.model, calls),
          if alive then (w.refreshed
            + affected * (At(w.model, NeedsPresence) + calls.invalidated)) - affected * w.model.pendingAbsence
          else {},
          alive,
          w.confirmed + calls.invalidated)
  }

  lemma OwnershipChangeKeepsOrder(w: World, owned: map<ShardId, set<GuildId>>, affected: set<GuildId>)
    requires Boundary(w) && Confined(w.model.owned, owned, affected)
    requires forall s :: s in owned ==> owned[s] != {}
    ensures BeforeRound(ChangeOwnership(w, owned, affected), affected)
  {
    var after := ChangeOwnership(w, owned, affected);
    RedesiredIsConsistent(w.model, owned, affected);
    forall g | g in w.refreshed && w.alive
      ensures g in At(after.model, NeedsPresence) + At(after.model, Advertised) + affected * after.model.pendingAbsence
    {
      assert g in w.model.advertisements;
    }
    forall g | g in At(after.model, NeedsPresence) + At(after.model, Advertised)
      ensures g in At(w.model, NeedsPresence) + At(w.model, Advertised)
    {
      assert g in w.model.advertisements;
    }
  }

  /** Whatever fails, and even if the presence actor stops half-way, a round ends with the
      two actors back in order. */
  lemma RoundRestoresOrder(w: World, affected: set<GuildId>, calls: Calls, alive: bool)
    requires BeforeRound(w, affected) && Admissible(w.model, affected, calls)
    requires alive ==> w.alive
    ensures Boundary(PlayRound(w, affected, calls, alive))
  {
    var after := PlayRound(w, affected, calls, alive);
    assert forall g :: g in after.model.advertisements ==> g !in w.model.pendingAbsence;
    assert forall g :: g in w.model.pendingAbsence ==> g !in w.model.advertisements;
  }

  lemma BoundaryStartsRound(w: World, affected: set<GuildId>)
    requires Boundary(w)
    ensures BeforeRound(w, affected)
  {
  }

  /** One lifecycle command or background tick, with the outcomes of its rounds. */
  datatype Event =
    | Own(owned: map<ShardId, set<GuildId>>, affected: set<GuildId>, first: Round, retries: seq<Round>)
    | Background(first: Round)
    | PresenceStops

  datatype Round = Round(affected: set<GuildId>, calls: Calls, alive: bool)

  ghost predicate RoundCanHappen(w: World, r: Round) {
    Admissible(w.model, r.affected, r.calls) && (r.alive ==> w.alive)
  }

  function PlayRounds(w: World, rounds: seq<Round>): World {
    if rounds == [] then w
    else
      var last := rounds[|rounds| - 1];
      PlayRound(PlayRounds(w, rounds[..|rounds| - 1]), last.affected, last.calls, last.alive)
  }

  ghost predicate RoundsCanHappen(w: World, rounds: seq<Round>) {
    forall i :: 0 <= i < |rounds| ==> RoundCanHappen(PlayRounds(w, rounds[..i]), rounds[i])
  }

  function Play(w: World, e: Event): World {
    match e
    case Own(owned, affected, first, retries) => PlayRounds(ChangeOwnership(w, owned, affected), [first] + retries)
    case Background(first) => PlayRound(w, first.affected, first.calls, first.alive)
    case PresenceStops => w.(alive := false, refreshed := {})
  }

  ghost predicate CanHappen(w: World, e: Event) {
    match e
    case Own(owned, affected, first, retries) =>
      && Confined(w.model.owned, owned, affected)
      && (forall s :: s in owned ==> owned[s] != {})
      && first.affected == affected
      && RoundsCanHappen(ChangeOwnership(w, owned, affected), [first] + retries)
    case Background(first) => RoundCanHappen(w, first)
    case PresenceStops => true
  }

  function PlayAll(w: World, events: seq<Event>): World {
    if events == [] then w else Play(PlayAll(w, events[..|events| - 1]), events[|events| - 1])
  }

  const START := World(Model(map[], map[], {}), {}, true, {})

  lemma {:induction false} RoundsKeepOrder(w: World, rounds: seq<Round>)
    requires rounds != [] && BeforeRound(w, rounds[0].affected) && RoundsCanHappen(w, rounds)
    ensures Boundary(PlayRounds(w, rounds))
  {
    var front, last := rounds[..|rounds| - 1], rounds[|rounds| - 1];
    assert RoundCanHappen(PlayRounds(w, front), last);
    if front == [] {
      assert PlayRounds(w, front) == w;
    } else {
      forall i | 0 <= i < |front|
        ensures RoundCanHappen(PlayRounds(w, front[..i]), front[i])
      {
        assert front[..i] == rounds[..i];
      }
      RoundsKeepOrder(w, front);
      BoundaryStartsRound(PlayRounds(w, front), last.affected);
    }
    RoundRestoresOrder(PlayRounds(w, front), last.affected, last.calls, last.alive);
  }

  /** At every command boundary of every run, with every call free to fail: a guild the
      presence actor refreshes is owned by some shard and had its snapshot invalidated since
      that ownership began, and every advertised guild is refreshed. */
  lemma {:induction false} EveryRunKeepsOrder(events: seq<Event>)
    requires forall i :: 0 <= i < |events| ==> CanHappen(PlayAll(START, events[..i]), events[i])
    ensures Boundary(PlayAll(START, events))
  {
    if events != [] {
      var front, last := events[..|events| - 1], events[|events| - 1];
      forall i | 0 <= i < |front|
        ensures CanHappen(PlayAll(START, front[..i]), front[i])
      {
        assert front[..i] == events[..i];
      }
      EveryRunKeepsOrder(front);
      var w := PlayAll(START, front);
      match last
      case Own(owned, affected, first, retries) =>
        OwnershipChangeKeepsOrder(w, owned, affected);
        RoundsKeepOrder(ChangeOwnership(w, owned, affected), [first] + retries);
      case Background(first) =>
        BoundaryStartsRound(w, first.affected);
        RoundRestoresOrder(w, first.affected, first.calls, first.alive);
      case PresenceStops =>
    }
  }

  /** With both actors in order, the running heartbeat only ever refreshes guilds that some
      shard owns and whose snapshot was invalidated first. */
  lemma HeartbeatServesOwners(w: World, a: Actor)
    requires Boundary(w) && w.alive && a.guilds == w.refreshed
    requires Reaches(Next, INITIAL, a) && a.phase == Idle && a.sweep.Some?
    ensures a.sweep.value <= Desired(w.model.owned) * w.confirmed
  {
    ReachableIsSafe(a);
  }

  /** One background tick in which nothing fails makes the refreshed guilds exactly the owned
      ones and leaves nothing pending. */
  lemma PerfectTickConverges(w: World, calls: Calls)
    requires Boundary(w) && w.alive
    requires calls.invalidated == At(w.model, NeedsInvalidation)
    requires calls.presented == At(w.model, NeedsPresence) + calls.invalidated
    requires calls.cleared == w.model.pendingAbsence
    ensures var after := PlayRound(w, Pending(w.model), calls, true);
      && Pending(after.model) == {}
      && after.refreshed == Desired(w.model.owned) == At(after.model, Advertised)
  {
    var m := w.model;
    assert calls.invalidated == Pending(m) * At(m, NeedsInvalidation);
    assert calls.presented == Pending(m) * (At(m, NeedsPresence) + calls.invalidated);
    assert calls.cleared == Pending(m) * m.pendingAbsence;
    PerfectRoundSettles(m, Pending(m), calls);
    BoundaryStartsRound(w, Pending(m));
    RoundRestoresOrder(w, Pending(m), calls, true);
    SettledMeansAdvertised(PlayRound(w, Pending(m), calls, true));
  }

  lemma SettledMeansAdvertised(w: World)
    requires Boundary(w) && w.alive && Pending(w.model) == {}
    ensures w.refreshed == Desired(w.model.owned) == At(w.model, Advertised)
  {
    var m := w.model;
    NothingPending(m);
    Squeezed(At(m, Advertised), At(m, NeedsPresence), w.refreshed);
  }

  lemma NothingPending(m: Model)
    requires Pending(m) == {}
    ensures At(m, NeedsPresence) == {} && At(m, Advertised) == m.advertisements.Keys
  {
    forall g | g in m.advertisements
      ensures m.advertisements[g] == Advertised
    {
      assert g !in Pending(m);
      assert g !in At(m, NeedsInvalidation) && g !in At(m, NeedsPresence);
    }
  }

  lemma Squeezed(low: set<GuildId>, extra: set<GuildId>, s: set<GuildId>)
    requires extra == {} && low <= s <= extra + low
    ensures s == low
  {
  }

  // ---------------------------------------------------------------- the actor as code

  function Elements(items: seq<GuildId>): (r: set<GuildId>)
    ensures forall g :: g in r <==> g in items
  {
    set g | g in items
  }

  /** Ownership after a shard loses a guild; a shard left with nothing is dropped. */
  function Without(owned: map<ShardId, set<GuildId>>, shard: ShardId, g: GuildId): map<ShardId, set<GuildId>> {
    if shard !in owned then owned
    else if owned[shard] - {g} == {} then owned - {shard}
    else owned[shard := owned[shard] - {g}]
  }

  /** One invalidation and how it was answered. */
  datatype Attempt = Attempt(guild: GuildId, ok: bool)

  ghost function Called(log: seq<Attempt>): seq<GuildId> {
    seq(|log|, i requires 0 <= i < |log| => log[i].guild)
  }

  /** The guilds answered with success, in the order of the answers. */
  ghost function Succeeded(log: seq<Attempt>): seq<GuildId> {
    if log == [] then []
    else
      var front, last := Succeeded(log[..|log| - 1]), log[|log| - 1];
      if last.ok then front + [last.guild] else front
  }

  ghost predicate InvalidatedSince(log: seq<Attempt>, from: nat, g: GuildId) {
    exists i :: from <= i < |log| && log[i] == Attempt(g, true)
  }

  /** The guilds with a successful invalidation since the moment `since` gives for each. */
  ghost function ConfirmedBy(since: map<GuildId, nat>, log: seq<Attempt>): set<GuildId> {
    set g | g in since && InvalidatedSince(log, since[g], g)
  }

  /** Every guild on the list is called exactly as often as it is listed, and no batch before
      the one in front of it is complete. */
  ghost predicate Batched(guilds: seq<GuildId>, calls: seq<Attempt>) {
    && |calls| == |guilds|
    && (forall n :: 0 <= n <= |guilds| && (n % 32 == 0 || n == |guilds|) ==>
          multiset(Called(calls[..n])) == multiset(guilds[..n]))
  }

  lemma {:induction false} SucceededMeansAnswered(log: seq<Attempt>, g: GuildId)
    ensures g in Succeeded(log) <==> Attempt(g, true) in log
  {
    if log != [] {
      var front, last := log[..|log| - 1], log[|log| - 1];
      SucceededMeansAnswered(front, g);
      assert log == front + [last];
    }
  }

  lemma CalledAppend(log: seq<Attempt>, more: seq<Attempt>)
    ensures Called(log + more) == Called(log) + Called(more)
  {
  }

  lemma {:induction false} SucceededAppend(log: seq<Attempt>, more: seq<Attempt>)
    ensures Succeeded(log + more) == Succeeded(log) + Succeeded(more)
  {
    if more == [] {
      assert log + more == log;
    } else {
      SucceededAppend(log, more[..|more| - 1]);
      assert (log + more)[..|log + more| - 1] == log + more[..|more| - 1];
    }
  }

  /** Only what was called is answered; and if all calls are, all guilds are. */
  lemma AnswersOfBatches(guilds: seq<GuildId>, calls: seq<Attempt>)
    requires Batched(guilds, calls)
    ensures Elements(Succeeded(calls)) <= Elements(guilds)
    ensures (forall a :: a in calls ==> a.ok) ==> Elements(Succeeded(calls)) == Elements(guilds)
  {
    assert calls[..|guilds|] == calls && guilds[..|guilds|] == guilds;
    assert multiset(Called(calls)) == multiset(guilds);
    forall g
      ensures g in Succeeded(calls) ==> g in guilds
      ensures (forall a :: a in calls ==> a.ok) && g in guilds ==> g in Succeeded(calls)
    {
      SucceededMeansAnswered(calls, g);
      assert g in guilds <==> g in multiset(Called(calls));
      if Attempt(g, true) in calls {
        var i :| 0 <= i < |calls| && calls[i] == Attempt(g, true);
        assert Called(calls)[i] == g;
      }
      if g in guilds {
        var i :| 0 <= i < |calls| && Called(calls)[i] == g;
        assert calls[i] in calls;
      }
    }
  }

  lemma {:induction false} DistinctCounts<T>(items: seq<T>, x: T)
    requires Distinct(items)
    ensures multiset(items)[x] <= 1
  {
    if items != [] {
      var front, last := items[..|items| - 1], items[|items| - 1];
      DistinctCounts(front, x);
      assert items == front + [last];
      if last == x {
        assert x !in front;
      }
    }
  }

  lemma RepeatCounts<T>(items: seq<T>, i: nat, j: nat)
    requires i < j < |items| && items[i] == items[j]
    ensures multiset(items)[items[i]] >= 2
  {
    assert items == items[..j] + items[j..];
    assert items[i] in items[..j] && items[i] in items[j..];
  }

  lemma SameCountsStayDistinct<T>(a: seq<T>, b: seq<T>)
    requires Distinct(a) && multiset(a) == multiset(b)
    ensures Distinct(b)
  {
    if !Distinct(b) {
      var i, j :| 0 <= i < j < |b| && b[i] == b[j];
      DistinctCounts(a, b[i]);
      RepeatCounts(b, i, j);
      assert false;
    }
  }

  lemma OnceEach(guilds: seq<GuildId>, calls: seq<Attempt>)
    requires Batched(guilds, calls) && Distinct(guilds)
    ensures Distinct(Called(calls))
  {
    assert calls[..|guilds|] == calls && guilds[..|guilds|] == guilds;
    SameCountsStayDistinct(guilds, Called(calls));
  }

  /** More invalidations confirm exactly the guilds they succeed for. */
  lemma ConfirmedGrows(since: map<GuildId, nat>, log: seq<Attempt>, more: seq<Attempt>)
    requires forall g :: g in since ==> since[g] <= |log|
    ensures ConfirmedBy(since, log + more) == ConfirmedBy(since, log) + Elements(Succeeded(more)) * since.Keys
  {
    forall g | g in since
      ensures InvalidatedSince(log + more, since[g], g) <==> InvalidatedSince(log, since[g], g) || g in Succeeded(more)
    {
      SucceededMeansAnswered(more, g);
      if InvalidatedSince(log, since[g], g) {
        var i :| since[g] <= i < |log| && log[i] == Attempt(g, true);
        assert (log + more)[i] == log[i];
      }
      if Attempt(g, true) in more {
        var i :| 0 <= i < |more| && more[i] == Attempt(g, true);
        assert (log + more)[|log| + i] == more[i];
      }
    }
  }

  /** The moments ownership began, once it has changed at `now`. */
  ghost function SinceAfter(since: map<GuildId, nat>, desired: set<GuildId>, now: nat): map<GuildId, nat> {
    map g | g in desired :: if g in since then since[g] else now
  }

  lemma ConfirmedAfterChange(since: map<GuildId, nat>, desired: set<GuildId>, log: seq<Attempt>)
    ensures ConfirmedBy(SinceAfter(since, desired, |log|), log) == ConfirmedBy(since, log) * desired
  {
  }

  /** The snapshot store: an invalidation may fail at any time, unless the store is reliable.
      It keeps a log of every call. */
  class SnapshotStore {
    const reliable: bool
    ghost var log: seq<Attempt>

    constructor (reliable: bool)
      ensures this.reliable == reliable && log == []
    {
      this.reliable := reliable;
      log := [];
    }

    method Invalidate(g: GuildId) returns (ok: bool)
      modifies this`log
      ensures log == old(log) + [Attempt(g, ok)] && (reliable ==> ok)
    {
      ok := *;
      ok := ok || reliable;
      log := log + [Attempt(g, ok)];
    }
  }

  class LifecycleState {
    var owned: map<ShardId, set<GuildId>>
    var advertisements: map<GuildId, Stage>
    var pendingAbsence: set<GuildId>

    ghost function View(): Model
      reads this
    {
      Model(owned, advertisements, pendingAbsence)
    }

    constructor ()
      ensures View() == Model(map[], map[], {})
    {
      owned, advertisements, pendingAbsence := map[], map[], {};
    }

    /** A READY event replaces what a shard owns. The guilds reported as removed are exactly
        those that just lost their last owning shard, each once. */
    method ReconcileShard(shard: ShardId, guilds: set<GuildId>) returns (affected: set<GuildId>, removed: seq<GuildId>)
      requires Consistent(View())
      modifies this
      ensures Consistent(View()) && Confined(old(owned), owned, affected)
      ensures owned == if guilds == {} then old(owned) - {shard} else old(owned)[shard := guilds]
      ensures affected == guilds + (if shard in old(owned) then old(owned)[shard] else {})
      ensures View() == Redesired(old(View()), owned, affected)
      ensures Elements(removed) == Desired(old(owned)) - Desired(owned)
      ensures Distinct(removed)
    {
      var previous := if shard in owned then owned[shard] else {};
      ghost var before := owned;
      if guilds == {} {
        owned := owned - {shard};
      } else {
        owned := owned[shard := guilds];
      }
      affected := previous + guilds;
      OthersKeepOwnership(before, owned, shard, affected);
      removed := ApplyDesiredState(affected, before);
    }

    /** A guild appears on a shard. */
    method Present(shard: ShardId, g: GuildId) returns (affected: set<GuildId>)
      requires Consistent(View())
      modifies this
      ensures Consistent(View()) && Confined(old(owned), owned, affected)
      ensures owned == old(owned)[shard := (if shard in old(owned) then old(owned)[shard] else {}) + {g}]
      ensures affected == {g} && View() == Redesired(old(View()), owned, affected)
    {
      ghost var before := owned;
      owned := owned[shard := (if shard in owned then owned[shard] else {}) + {g}];
      affected := {g};
      OthersKeepOwnership(before, owned, shard, affected);
      var _ := ApplyDesiredState(affected, before);
    }

    /** A guild disappears from a shard; reports whether that was its last owner. */
    method Absent(shard: ShardId, g: GuildId) returns (affected: set<GuildId>, noLongerOwned: bool)
      requires Consistent(View())
      modifies this
      ensures Consistent(View()) && Confined(old(owned), owned, affected)
      ensures owned == Without(old(owned), shard, g)
      ensures affected == {g} && View() == Redesired(old(View()), owned, affected)
      ensures noLongerOwned <==> g in Desired(old(owned)) && g !in Desired(owned)
    {
      ghost var before := owned;
      if shard in owned {
        var guilds := owned[shard] - {g};
        if guilds == {} {
          owned := owned - {shard};
        } else {
          owned := owned[shard := guilds];
        }
      }
      affected := {g};
      OthersKeepOwnership(before, owned, shard, affected);
      var removed := ApplyDesiredState(affected, before);
      noLongerOwned := g in removed;
      assert g in removed <==> g in Elements(removed);
    }

    /** One guild of `ApplyDesiredState`. */
    method Reconsider(g: GuildId) returns (gone: bool)
      modifies this`advertisements, this`pendingAbsence
      ensures IsOwned(owned, g) ==> !gone && pendingAbsence == old(pendingAbsence) - {g}
      ensures IsOwned(owned, g) ==>
        advertisements == if g in old(advertisements) then old(advertisements)
          else old(advertisements)[g := NeedsInvalidation]
      ensures !IsOwned(owned, g) ==> (gone <==> g in old(advertisements))
      ensures !IsOwned(owned, g) ==>
        advertisements == old(advertisements) - {g} && pendingAbsence == old(pendingAbsence) + {g}
    {
      gone := false;
      if IsOwned(owned, g) {
        pendingAbsence := pendingAbsence - {g};
        if g !in advertisements {
          advertisements := advertisements[g := NeedsInvalidation];
        }
      } else {
        if g in advertisements {
          advertisements := advertisements - {g};
          gone := true;
        }
        pendingAbsence := pendingAbsence + {g};
      }
    }

    /** Re-derives what is advertised for the affected guilds, in whatever order they are
        visited. `before` is the ownership the current stages were derived from. */
    method ApplyDesiredState(affected: set<GuildId>, ghost before: map<ShardId, set<GuildId>>)
          returns (removed: seq<GuildId>)
      requires Consistent(Model(before, advertisements, pendingAbsence)) && Confined(before, owned, affected)
      requires forall s :: s in owned ==> owned[s] != {}
      modifies this`advertisements, this`pendingAbsence
      ensures View() == Redesired(Model(before, old(advertisements), old(pendingAbsence)), owned, affected)
      ensures Consistent(View())
      ensures Elements(removed) == Desired(before) - Desired(owned)
      ensures Distinct(removed)
    {
      removed := [];
      var left := affected;
      ghost var done: set<GuildId> := {};
      ghost var wanted, adv0, absence0 := Desired(owned), advertisements, pendingAbsence;
      while left != {}
        invariant left + done == affected && left !! done
        invariant advertisements == StagesSoFar(adv0, wanted, done)
        invariant pendingAbsence == AbsenceSoFar(absence0, wanted, done)
        invariant Elements(removed) == (done * adv0.Keys) - wanted
        invariant Distinct(removed)
        decreases left
      {
        var g :| g in left;
        left := left - {g};
        OneMore(adv0, absence0, wanted, done, g);
        var gone := Reconsider(g);
        if gone {
          NotYetRemoved(removed, g);
          removed := removed + [g];
        }
        done := done + {g};
      }
      assert done == affected;
      OnlyAffectedChange(before, owned, affected);
      AllDone(Model(before, adv0, absence0), owned, affected);
      RedesiredIsConsistent(Model(before, adv0, absence0), owned, affected);
    }
  }

  /** The stages once the guilds in `done` have been reconsidered. */
  function StagesSoFar(stages: map<GuildId, Stage>, wanted: set<GuildId>, done: set<GuildId>): map<GuildId, Stage> {
    map g | g in (stages.Keys - done) + (wanted * done) :: if g in stages then stages[g] else NeedsInvalidation
  }

  function AbsenceSoFar(absence: set<GuildId>, wanted: set<GuildId>, done: set<GuildId>): set<GuildId> {
    (absence - (wanted * done)) + (done - wanted)
  }

  lemma OneMore(stages: map<GuildId, Stage>, absence: set<GuildId>, wanted: set<GuildId>, done: set<GuildId>,
        g: GuildId)
    requires g !in done
    ensures var now, next := StagesSoFar(stages, wanted, done), StagesSoFar(stages, wanted, done + {g});
      && (g in now <==> g in stages)
      && next == if g !in wanted then now - {g} else if g in now then now else now[g := NeedsInvalidation]
    ensures var now, next := AbsenceSoFar(absence, wanted, done), AbsenceSoFar(absence, wanted, done + {g});
      next == if g in wanted then now - {g} else now + {g}
  {
  }

  lemma AllDone(m: Model, owned: map<ShardId, set<GuildId>>, affected: set<GuildId>)
    requires Consistent(m) && Desired(m.owned) - affected == Desired(owned) - affected
    ensures Redesired(m, owned, affected)
         == Model(owned, StagesSoFar(m.advertisements, Desired(owned), affected),
           AbsenceSoFar(m.pendingAbsence, Desired(owned), affected))
    ensures (affected * m.advertisements.Keys) - Desired(owned) == Desired(m.owned) - Desired(owned)
  {
    var stages := StagesSoFar(m.advertisements, Desired(owned), affected);
    assert stages.Keys == Desired(owned) by {
      assert forall g :: g in m.advertisements && g !in affected ==> g in Desired(m.owned) - affected;
      assert forall g :: g in Desired(owned) && g !in affected ==> g in Desired(owned) - affected;
    }
    forall g | g in m.pendingAbsence && g !in affected
      ensures g !in Desired(owned)
    {
      assert g !in Desired(m.owned) - affected;
    }
  }

  lemma NotYetRemoved(removed: seq<GuildId>, g: GuildId)
    requires g !in Elements(removed)
    requires Distinct(removed)
    ensures Elements(removed + [g]) == Elements(removed) + {g} && Distinct(removed + [g])
  {
    assert forall i :: 0 <= i < |removed| ==> removed[i] in Elements(removed);
    assert forall h :: h in removed + [g] <==> h in removed || h == g;
  }

  lemma OnlyAffectedChange(before: map<ShardId, set<GuildId>>, after: map<ShardId, set<GuildId>>,
        affected: set<GuildId>)
    requires Confined(before, after, affected)
    ensures Desired(before) - affected == Desired(after) - affected
  {
    forall g | g !in affected
      ensures g in Desired(before) <==> g in Desired(after)
    {
      assert IsOwned(before, g) <==> IsOwned(after, g);
    }
  }

  lemma OthersKeepOwnership(before: map<ShardId, set<GuildId>>, after: map<ShardId, set<GuildId>>, shard: ShardId,
        affected: set<GuildId>)
    requires forall s :: s != shard ==> (s in before <==> s in after) && (s in before ==> before[s] == after[s])
    requires forall g :: g !in affected ==>
      ((shard in before && g in before[shard]) <==> (shard in after && g in after[shard]))
    ensures Confined(before, after, affected)
  {
    forall g | g !in affected
      ensures IsOwned(before, g) <==> IsOwned(after, g)
    {
      if IsOwned(before, g) {
        var s :| s in before && g in before[s];
        assert s in after && g in after[s];
      }
      if IsOwned(after, g) {
        var s :| s in after && g in after[s];
        assert s in before && g in before[s];
      }
    }
  }

  /** A guild stays desired exactly as long as some other shard owns it. */
  lemma AbsentLeavesOthers(before: map<ShardId, set<GuildId>>, after: map<ShardId, set<GuildId>>, shard: ShardId,
        g: GuildId)
    requires after == Without(before, shard, g)
    ensures Desired(after) == set h | h in Desired(before)
      && (h != g || exists s :: s in before && s != shard && h in before[s])
  {
    forall h
      ensures h in Desired(after) <==>
        h in Desired(before) && (h != g || exists s :: s in before && s != shard && h in before[s])
    {
      if h in Desired(after) {
        var s :| s in after && h in after[s];
        assert s in before && h in before[s];
      }
      if h in Desired(before) && (h != g || exists s :: s in before && s != shard && h in before[s]) {
        var s :| s in before && h in before[s] && (h != g || s != shard);
        assert s == shard ==> h in before[shard] - {g};
        assert s in after && h in after[s];
      }
    }
  }

  /** Marks the guilds of `these` with a stage. */
  function Marked(stages: map<GuildId, Stage>, these: set<GuildId>, stage: Stage): map<GuildId, Stage> {
    map g | g in stages :: if g in these then stage else stages[g]
  }

  lemma MarkedNone(stages: map<GuildId, Stage>, stage: Stage)
    ensures Marked(stages, {}, stage) == stages
  {
  }

  lemma MarkedMore(stages: map<GuildId, Stage>, these: set<GuildId>, g: GuildId, stage: Stage)
    requires g in stages
    ensures Marked(stages, these + {g}, stage) == Marked(stages, these, stage)[g := stage]
    ensures Marked(stages, these, stage).Keys == stages.Keys
  {
  }

  /** What the presence actor answered with success. */
  ghost function Granted(answers: seq<Answer>): set<GuildId> {
    set a | a in answers && a.ok :: a.guild
  }

  ghost function Asked(answers: seq<Answer>): set<GuildId> {
    set a | a in answers :: a.guild
  }

  /** Requests of one kind, one for each of these guilds and no other. */
  ghost predicate AskedFor(answers: seq<Answer>, presents: bool, guilds: set<GuildId>) {
    && |answers| == |guilds| && Asked(answers) == guilds
    && (forall i :: 0 <= i < |answers| ==> answers[i].presents == presents)
  }

  lemma MoreAnswers(answers: seq<Answer>, a: Answer)
    ensures Asked(answers + [a]) == Asked(answers) + {a.guild}
    ensures Granted(answers + [a]) == Granted(answers) + (if a.ok then {a.guild} else {})
  {
    assert forall x :: x in answers + [a] <==> x in answers || x == a;
  }

  lemma OneMoreAnswer(answers: seq<Answer>, presents: bool, asked: set<GuildId>, g: GuildId, ok: bool)
    requires AskedFor(answers, presents, asked) && g !in asked
    ensures var more := answers + [Answer(presents, g, ok)];
      && AskedFor(more, presents, asked + {g})
      && Granted(more) == Granted(answers) + (if ok then {g} else {})
  {
    MoreAnswers(answers, Answer(presents, g, ok));
    hide Asked, Granted;
  }

  lemma GrantedWereAsked(answers: seq<Answer>, presents: bool, asked: set<GuildId>)
    requires AskedFor(answers, presents, asked)
    ensures Granted(answers) <= asked
  {
  }

  lemma OneFewer(all: set<GuildId>, left: set<GuildId>, asked: set<GuildId>, g: GuildId, guilds: set<GuildId>)
    requires asked + left == all && asked !! left && g in left
    ensures (asked + {g}) + (left - {g}) == all && (asked + {g}) !! (left - {g})
    ensures (guilds + asked) + {g} == guilds + (asked + {g})
    ensures (guilds - asked) - {g} == guilds - (asked + {g})
  {
  }

  lemma NoAnswers(presents: bool)
    ensures AskedFor([], presents, {}) && Granted([]) == {}
  {
  }

  /** The requests of one round: every due guild is asked for once, first to be refreshed, then
      to be withdrawn, and exactly the requests answered with success count as done. */
  ghost predicate RoundAnswered(answers: seq<Answer>, m: Model, affected: set<GuildId>, calls: Calls) {
    exists presents, absents ::
      && answers == presents + absents
      && AskedFor(presents, true, affected * (At(m, NeedsPresence) + calls.invalidated))
      && AskedFor(absents, false, affected * m.pendingAbsence)
      && calls.presented == Granted(presents) && calls.cleared == Granted(absents)
  }

  lemma AnsweredBy(presents: seq<Answer>, absents: seq<Answer>, m: Model, affected: set<GuildId>, calls: Calls)
    requires AskedFor(presents, true, affected * (At(m, NeedsPresence) + calls.invalidated))
    requires AskedFor(absents, false, affected * m.pendingAbsence)
    requires calls.presented == Granted(presents) && calls.cleared == Granted(absents)
    ensures RoundAnswered(presents + absents, m, affected, calls)
  {
  }

  class LifecycleActor {
    const state: LifecycleState
    const snapshots: SnapshotStore
    const presence: PresenceActor
    /** For every desired guild, how long the log of invalidations was when its current
        ownership began. */
    ghost var since: map<GuildId, nat>

    /** Both actors; what counts as confirmed is read off the log. */
    ghost function View(): World
      reads this, state, presence, snapshots
    {
      World(state.View(), if presence.stopped then {} else presence.guilds, !presence.stopped,
            ConfirmedBy(since, snapshots.log))
    }

    ghost predicate Ready()
      reads this, state, presence, snapshots
    {
      presence.Ready() && since.Keys == Desired(state.owned) && InThePast()
    }

    ghost predicate InThePast()
      reads this, snapshots
    {
      forall g :: g in since ==> since[g] <= |snapshots.log|
    }

    constructor (snapshots: SnapshotStore, reliable: bool)
      ensures this.snapshots == snapshots && presence.reliable == reliable
      ensures Ready() && View() == START && Boundary(View())
      ensures fresh(state) && fresh(presence)
    {
      this.snapshots := snapshots;
      state := new LifecycleState();
      presence := new PresenceActor(reliable);
      since := map[];
    }

    /** At most 32 invalidations run at a time; each batch finishes in any order. Every guild is
        called as often as it is listed, and exactly the calls that were answered with success
        are reported. */
    method InvalidateAll(guilds: seq<GuildId>) returns (succeeded: seq<GuildId>, ghost calls: seq<Attempt>)
      modifies snapshots`log
      ensures snapshots.log == old(snapshots.log) + calls && Batched(guilds, calls)
      ensures succeeded == Succeeded(calls)
      ensures snapshots.reliable ==> forall a :: a in calls ==> a.ok
    {
      hide Batched, Succeeded, Called;
      succeeded, calls := [], [];
      NoBatchYet(guilds);
      var start := 0;
      while start < |guilds|
        invariant start <= |guilds| && (start % MAX_PARALLEL_INVALIDATIONS == 0 || start == |guilds|)
        invariant snapshots.log == old(snapshots.log) + calls && Batched(guilds[..start], calls)
        invariant succeeded == Succeeded(calls) && (snapshots.reliable ==> forall a :: a in calls ==> a.ok)
        decreases |guilds| - start
      {
        var rest := |guilds| - start;
        var end := if rest < MAX_PARALLEL_INVALIDATIONS then |guilds| else start + MAX_PARALLEL_INVALIDATIONS;
        var more;
        ghost var answers;
        more, answers := InvalidateBatch(guilds[start..end]);
        OneMoreBatch(guilds, start, end, calls, answers);
        SucceededAppend(calls, answers);
        succeeded, calls, start := succeeded + more, calls + answers, end;
      }
      assert guilds[..start] == guilds;
    }

    /** One batch: all its calls run at once and are answered in any order. */
    method InvalidateBatch(batch: seq<GuildId>) returns (succeeded: seq<GuildId>, ghost calls: seq<Attempt>)
      modifies snapshots`log
      ensures snapshots.log == old(snapshots.log) + calls && multiset(Called(calls)) == multiset(batch)
      ensures succeeded == Succeeded(calls)
      ensures snapshots.reliable ==> forall a :: a in calls ==> a.ok
    {
      hide Succeeded, Called;
      succeeded, calls := [], [];
      NoBatchYet(batch);
      var tasks := multiset(batch);
      while tasks != multiset{}
        invariant multiset(Called(calls)) + tasks == multiset(batch)
        invariant snapshots.log == old(snapshots.log) + calls && succeeded == Succeeded(calls)
        invariant snapshots.reliable ==> forall a :: a in calls ==> a.ok
        decreases |tasks|
      {
        var g :| g in tasks;
        tasks := tasks - multiset{g};
        var ok := snapshots.Invalidate(g);
        if ok {
          succeeded := succeeded + [g];
        }
        OneMoreCall(calls, Attempt(g, ok));
        calls := calls + [Attempt(g, ok)];
      }
    }

    /** Asks for one guild to be refreshed; it advances if that was answered with success. */
    method PresentOne(g: GuildId) returns (ok: bool)
      requires presence.Ready() && g in state.advertisements
      modifies state`advertisements, presence
      ensures presence.Ready() && presence.answers == old(presence.answers) + [Answer(true, g, ok)]
      ensures presence.reliable && !presence.stopped ==> ok
      ensures state.advertisements
        == if ok then old(state.advertisements)[g := Advertised] else old(state.advertisements)
      ensures !presence.stopped ==> !old(presence.stopped) && presence.guilds == old(presence.guilds) + {g}
    {
      hide Reaches;
      presence.Interfere();
      ok := presence.Present(g);
      if ok {
        state.advertisements := state.advertisements[g := Advertised];
      }
    }

    /** Asks for every due guild to be refreshed; the ones answered with success advance. */
    method PresentAll(due: set<GuildId>) returns (presented: set<GuildId>, ghost answers: seq<Answer>)
      requires presence.Ready() && due <= state.advertisements.Keys
      modifies state`advertisements, presence
      ensures presence.Ready() && presented <= due
      ensures presence.answers == old(presence.answers) + answers
      ensures AskedFor(answers, true, due) && presented == Granted(answers)
      ensures presence.reliable && !presence.stopped ==> presented == due
      ensures state.advertisements == Marked(old(state.advertisements), presented, Advertised)
      ensures !presence.stopped ==> !old(presence.stopped) && presence.guilds == old(presence.guilds) + due
    {
      hide Reaches, AskedFor, Granted, Marked;
      presented, answers := {}, [];
      NoAnswers(true);
      MarkedNone(state.advertisements, Advertised);
      var left, asked := due, {};
      while left != {}
        invariant presence.Ready() && asked + left == due && asked !! left
        invariant presence.answers == old(presence.answers) + answers
        invariant AskedFor(answers, true, asked) && presented == Granted(answers)
        invariant presence.reliable && !presence.stopped ==> presented == asked
        invariant state.advertisements == Marked(old(state.advertisements), presented, Advertised)
        invariant !presence.stopped ==> !old(presence.stopped) && presence.guilds == old(presence.guilds) + asked
        decreases left
      {
        var g :| g in left;
        MarkedMore(old(state.advertisements), presented, g, Advertised);
        var ok := PresentOne(g);
        OneMoreAnswer(answers, true, asked, g, ok);
        OneFewer(due, left, asked, g, old(presence.guilds));
        answers, left, asked := answers + [Answer(true, g, ok)], left - {g}, asked + {g};
        presented := if ok then presented + {g} else presented;
      }
      GrantedWereAsked(answers, true, due);
    }

    /** Asks for one guild to be withdrawn; it is done with if that was answered with success. */
    method AbsentOne(g: GuildId) returns (ok: bool)
      requires presence.Ready()
      modifies state`pendingAbsence, presence
      ensures presence.Ready() && presence.answers == old(presence.answers) + [Answer(false, g, ok)]
      ensures presence.reliable && !presence.stopped ==> ok
      ensures state.pendingAbsence == old(state.pendingAbsence) - (if ok then {g} else {})
      ensures !presence.stopped ==> !old(presence.stopped) && presence.guilds == old(presence.guilds) - {g}
    {
      hide Reaches;
      presence.Interfere();
      ok := presence.Absent(g);
      if ok {
        state.pendingAbsence := state.pendingAbsence - {g};
      }
    }

    /** Asks for every guild waiting to be cleared to be withdrawn. */
    method AbsentAll(absences: set<GuildId>) returns (cleared: set<GuildId>, ghost answers: seq<Answer>)
      requires presence.Ready() && absences <= state.pendingAbsence
      modifies state`pendingAbsence, presence
      ensures presence.Ready() && cleared <= absences
      ensures presence.answers == old(presence.answers) + answers
      ensures AskedFor(answers, false, absences) && cleared == Granted(answers)
      ensures presence.reliable && !presence.stopped ==> cleared == absences
      ensures state.pendingAbsence == old(state.pendingAbsence) - cleared
      ensures !presence.stopped ==> !old(presence.stopped) && presence.guilds == old(presence.guilds) - absences
    {
      hide Reaches, AskedFor, Granted;
      cleared, answers := {}, [];
      NoAnswers(false);
      var left, asked := absences, {};
      while left != {}
        invariant presence.Ready() && asked + left == absences && asked !! left && cleared <= asked
        invariant presence.answers == old(presence.answers) + answers
        invariant AskedFor(answers, false, asked) && cleared == Granted(answers)
        invariant presence.reliable && !presence.stopped ==> cleared == asked
        invariant state.pendingAbsence == old(state.pendingAbsence) - cleared
        invariant !presence.stopped ==> !old(presence.stopped) && presence.guilds == old(presence.guilds) - asked
        decreases left
      {
        var g :| g in left;
        var ok := AbsentOne(g);
        OneMoreAnswer(answers, false, asked, g, ok);
        OneFewer(absences, left, asked, g, old(presence.guilds));
        answers, left, asked := answers + [Answer(false, g, ok)], left - {g}, asked + {g};
        cleared := if ok then cleared + {g} else cleared;
      }
    }

    /** Presence requests of a round: first those to refresh, then those to withdraw. */
    method AskPresence(affected: set<GuildId>)
        returns (presented: set<GuildId>, cleared: set<GuildId>, ghost presents: seq<Answer>,
                 ghost absents: seq<Answer>)
      requires presence.Ready()
      modifies state`advertisements, state`pendingAbsence, presence
      ensures presence.Ready() && presence.answers == old(presence.answers) + (presents + absents)
      ensures var due, absences :=
          affected * At(old(state.View()), NeedsPresence), affected * old(state.pendingAbsence);
        && AskedFor(presents, true, due) && presented == Granted(presents) && presented <= due
        && AskedFor(absents, false, absences) && cleared == Granted(absents) && cleared <= absences
        && (presence.reliable && !presence.stopped ==> presented == due && cleared == absences)
        && state.advertisements == Marked(old(state.advertisements), presented, Advertised)
        && state.pendingAbsence == old(state.pendingAbsence) - cleared
        && (!presence.stopped ==>
              !old(presence.stopped) && presence.guilds == (old(presence.guilds) + due) - absences)
    {
      hide Reaches, AskedFor, Granted;
      presented, presents := PresentAll(affected * GuildsAt(state.advertisements, NeedsPresence));
      assert affected * GuildsAt(old(state.advertisements), NeedsPresence)
        == affected * At(old(state.View()), NeedsPresence);
      cleared, absents := AbsentAll(affected * state.pendingAbsence);
    }

    /** Calls once for every due guild, and reports those that were answered with success. */
    method InvalidateDue(due: set<GuildId>) returns (invalidated: set<GuildId>)
      requires due <= since.Keys && InThePast()
      modifies snapshots`log
      ensures old(snapshots.log) <= snapshots.log && InThePast() && invalidated <= due
      ensures var calls := snapshots.log[|old(snapshots.log)|..];
        Elements(Called(calls)) == due && Distinct(Called(calls)) && invalidated == Elements(Succeeded(calls))
      ensures ConfirmedBy(since, snapshots.log) == ConfirmedBy(since, old(snapshots.log)) + invalidated
      ensures snapshots.reliable ==> invalidated == due
    {
      hide Batched, Distinct, Succeeded, Called, ConfirmedBy;
      var ordered := InAnyOrder(due);
      var succeeded;
      ghost var calls;
      succeeded, calls := InvalidateAll(ordered);
      invalidated := Elements(succeeded);
      AnswersOfBatches(ordered, calls);
      OnceEach(ordered, calls);
      AllCalled(ordered, calls);
      assert snapshots.log[|old(snapshots.log)|..] == calls;
      ConfirmedGrows(since, old(snapshots.log), calls);
    }

    /** Invalidate, present, withdraw, in that order. Answers with exactly the affected
        guilds that still need a call. */
    method ReconcileRound(affected: set<GuildId>) returns (pending: set<GuildId>, ghost round: Round)
      requires Ready() && BeforeRound(View(), affected)
      modifies snapshots`log, state`advertisements, state`pendingAbsence, presence
      ensures Ready() && Boundary(View())
      ensures round.affected == affected && RoundCanHappen(old(View()), round)
      ensures View() == PlayRound(old(View()), affected, round.calls, round.alive)
      ensures pending == affected * Pending(state.View())
      ensures old(snapshots.log) <= snapshots.log
      ensures var calls := snapshots.log[|old(snapshots.log)|..];
        && Elements(Called(calls)) == affected * At(old(state.View()), NeedsInvalidation) && Distinct(Called(calls))
        && round.calls.invalidated == Elements(Succeeded(calls))
      ensures old(presence.answers) <= presence.answers
      ensures RoundAnswered(presence.answers[|old(presence.answers)|..], old(state.View()), affected, round.calls)
      ensures snapshots.reliable && presence.reliable && round.alive ==>
        Perfect(old(state.View()), affected, round.calls)
    {
      hide Reaches, Batched, Distinct, Succeeded, Called, ConfirmedBy, StillDue, AskedFor, Granted, RoundAnswered;
      ghost var w := View();
      var invalidations := affected * GuildsAt(state.advertisements, NeedsInvalidation);
      var invalidated := InvalidateDue(invalidations);
      state.advertisements := Marked(state.advertisements, invalidated, NeedsPresence);
      ghost var marked := state.View();
      var presented, cleared;
      ghost var presents, absents;
      presented, cleared, presents, absents := AskPresence(affected);
      ghost var calls := Calls(invalidated, presented, cleared);
      round := Round(affected, calls, !presence.stopped);
      RoundComputed(w, View(), affected, calls);
      RoundRestoresOrder(w, affected, calls, !presence.stopped);
      assert At(marked, NeedsPresence) == At(w.model, NeedsPresence) + invalidated;
      AnsweredBy(presents, absents, w.model, affected, calls);
      assert presence.answers[|old(presence.answers)|..] == presents + absents;
      pending := set g | g in affected && StillDue(Model(state.owned, state.advertisements, state.pendingAbsence), g);
      PendingComputed(state.View(), affected, pending);
    }

    /** Up to two retries, each over what is still pending. Succeeds exactly when no affected
        guild needs another call. */
    method ReconcileWithRetries(affected: set<GuildId>) returns (ok: bool, ghost rounds: seq<Round>)
      requires Ready() && BeforeRound(View(), affected)
      modifies snapshots`log, state`advertisements, state`pendingAbsence, presence
      ensures Ready() && Boundary(View())
      ensures 1 <= |rounds| <= 3 && rounds[0].affected == affected
      ensures RoundsCanHappen(old(View()), rounds) && View() == PlayRounds(old(View()), rounds)
      ensures ok <==> affected * Pending(state.View()) == {}
    {
      hide Reaches, RoundAnswered, Batched, Distinct, Succeeded, Called, ConfirmedBy, Perfect;
      ghost var w := View();
      var pending;
      ghost var round;
      pending, round := ReconcileRound(affected);
      rounds := [round];
      assert [round][..0] == [];
      var attempt := 0;
      while attempt < 2
        invariant 0 <= attempt <= 2 && |rounds| == attempt + 1 && rounds[0].affected == affected
        invariant Ready() && Boundary(View())
        invariant RoundsCanHappen(w, rounds) && View() == PlayRounds(w, rounds)
        invariant pending == affected * Pending(state.View())
      {
        if pending == {} {
          return true, rounds;
        }
        ghost var before := View();
        BoundaryStartsRound(before, pending);
        pending, round := ReconcileRound(pending);
        PendingShrinks(before.model, round.affected, round.calls);
        assert (rounds + [round])[..|rounds|] == rounds;
        forall i | 0 <= i < |rounds + [round]|
          ensures RoundCanHappen(PlayRounds(w, (rounds + [round])[..i]), (rounds + [round])[i])
        {
          assert i < |rounds| ==> (rounds + [round])[..i] == rounds[..i];
        }
        rounds := rounds + [round];
        attempt := attempt + 1;
      }
      ok := pending == {};
    }

    /** READY on a shard, start to finish. */
    method HandleReconcileShard(shard: ShardId, guilds: set<GuildId>)
          returns (removed: seq<GuildId>, ok: bool, ghost event: Event)
      requires Ready() && Boundary(View())
      modifies this`since, snapshots`log, state, presence
      ensures Ready() && Boundary(View())
      ensures CanHappen(old(View()), event) && View() == Play(old(View()), event)
      ensures event.Own?
        && event.owned == if guilds == {} then old(state.owned) - {shard} else old(state.owned)[shard := guilds]
      ensures Elements(removed) == Desired(old(state.owned)) - Desired(state.owned)
      ensures ok <==> event.affected * Pending(state.View()) == {}
    {
      ghost var w := View();
      var affected;
      affected, removed := state.ReconcileShard(shard, guilds);
      ok, event := FinishOwnershipChange(w, affected);
    }

    /** A guild became available on a shard. */
    method HandlePresent(shard: ShardId, g: GuildId) returns (ok: bool, ghost event: Event)
      requires Ready() && Boundary(View())
      modifies this`since, snapshots`log, state, presence
      ensures Ready() && Boundary(View())
      ensures CanHappen(old(View()), event) && View() == Play(old(View()), event)
      ensures event.Own? && event.affected == {g}
      ensures event.owned
        == old(state.owned)[shard := (if shard in old(state.owned) then old(state.owned)[shard] else {}) + {g}]
      ensures ok <==> {g} * Pending(state.View()) == {}
    {
      ghost var w := View();
      var affected := state.Present(shard, g);
      ok, event := FinishOwnershipChange(w, affected);
    }

    /** A guild was removed from a shard; reports whether no shard owns it any more. */
    method HandleAbsent(shard: ShardId, g: GuildId) returns (noLongerOwned: bool, ok: bool, ghost event: Event)
      requires Ready() && Boundary(View())
      modifies this`since, snapshots`log, state, presence
      ensures Ready() && Boundary(View())
      ensures CanHappen(old(View()), event) && View() == Play(old(View()), event)
      ensures event.Own? && event.affected == {g} && event.owned == Without(old(state.owned), shard, g)
      ensures noLongerOwned <==> g in Desired(old(state.owned)) && g !in Desired(event.owned)
      ensures ok <==> {g} * Pending(state.View()) == {}
    {
      ghost var w := View();
      var affected;
      affected, noLongerOwned := state.Absent(shard, g);
      ok, event := FinishOwnershipChange(w, affected);
    }

    /** The common tail of the three commands. `w` is the world before ownership changed. */
    method FinishOwnershipChange(ghost w: World, affected: set<GuildId>) returns (ok: bool, ghost event: Event)
      requires presence.Ready() && InThePast() && Boundary(w)
      requires Consistent(state.View()) && Confined(w.model.owned, state.owned, affected)
      requires View() == w.(model := Redesired(w.model, state.owned, affected))
      modifies this`since, snapshots`log, state`advertisements, state`pendingAbsence, presence
      ensures Ready() && Boundary(View()) && state.owned == old(state.owned)
      ensures event.Own? && event.affected == affected && event.owned == state.owned
      ensures CanHappen(w, event) && View() == Play(w, event)
      ensures ok <==> affected * Pending(state.View()) == {}
    {
      ConfirmedAfterChange(since, Desired(state.owned), snapshots.log);
      since := SinceAfter(since, Desired(state.owned), |snapshots.log|);
      OwnershipChangeKeepsOrder(w, state.owned, affected);
      ghost var start, rounds := View(), [];
      ok, rounds := ReconcileWithRetries(affected);
      event := Own(state.owned, affected, rounds[0], rounds[1..]);
      assert [rounds[0]] + rounds[1..] == rounds;
      RoundsKeepOwnership(start, rounds);
    }

    /** The background tick retries everything pending. */
    method HandleTick() returns (ok: bool, ghost event: Event)
      requires Ready() && Boundary(View())
      modifies snapshots`log, state`advertisements, state`pendingAbsence, presence
      ensures Ready() && Boundary(View())
      ensures event.Background? && event.first.affected == Pending(old(state.View()))
      ensures CanHappen(old(View()), event) && View() == Play(old(View()), event)
      ensures ok <==> Pending(state.View()) == {}
      ensures snapshots.reliable && presence.reliable && !presence.stopped ==>
        ok && View().refreshed == Desired(state.owned) == At(state.View(), Advertised)
    {
      ghost var before := View();
      var pending := PendingNow();
      BoundaryStartsRound(before, pending);
      ghost var round;
      var left;
      left, round := ReconcileRound(pending);
      PendingShrinks(before.model, pending, round.calls);
      event := Background(round);
      ok := left == {};
      if snapshots.reliable && presence.reliable && !presence.stopped {
        PendingCoversAll(before.model, round.calls);
        PerfectTickConverges(before, round.calls);
      }
    }

    method PendingNow() returns (pending: set<GuildId>)
      ensures pending == Pending(state.View())
    {
      pending := (set g | g in state.advertisements && state.advertisements[g] != Advertised) + state.pendingAbsence;
    }

    function GuildsAt(stages: map<GuildId, Stage>, stage: Stage): (r: set<GuildId>)
      ensures forall g :: g in r <==> g in stages && stages[g] == stage
    {
      set g | g in stages && stages[g] == stage
    }

    method InAnyOrder(s: set<GuildId>) returns (ordered: seq<GuildId>)
      ensures Elements(ordered) == s && Distinct(ordered)
    {
      ordered := [];
      var left := s;
      while left != {}
        invariant left <= s && Elements(ordered) == s - left && Distinct(ordered)
        decreases left
      {
        var g :| g in left;
        left := left - {g};
        NotYetRemoved(ordered, g);
        ordered := ordered + [g];
      }
    }
  }

  lemma NoBatchYet(guilds: seq<GuildId>)
    ensures Batched(guilds[..0], []) && Succeeded([]) == Called([]) == []
  {
  }

  lemma OneMoreCall(calls: seq<Attempt>, a: Attempt)
    ensures Called(calls + [a]) == Called(calls) + [a.guild]
    ensures Succeeded(calls + [a]) == if a.ok then Succeeded(calls) + [a.guild] else Succeeded(calls)
  {
    assert (calls + [a])[..|calls|] == calls;
  }

  lemma OneMoreBatch(guilds: seq<GuildId>, start: nat, end: nat, calls: seq<Attempt>, answers: seq<Attempt>)
    requires start <= end <= |guilds| && start % MAX_PARALLEL_INVALIDATIONS == 0
    requires end == |guilds| <= start + MAX_PARALLEL_INVALIDATIONS || end == start + MAX_PARALLEL_INVALIDATIONS
    requires Batched(guilds[..start], calls) && multiset(Called(answers)) == multiset(guilds[start..end])
    ensures Batched(guilds[..end], calls + answers)
  {
    var all := calls + answers;
    assert |multiset(Called(answers))| == |Called(answers)| && |multiset(guilds[start..end])| == end - start;
    forall n | 0 <= n <= end && (n % MAX_PARALLEL_INVALIDATIONS == 0 || n == end)
      ensures multiset(Called(all[..n])) == multiset(guilds[..end][..n])
    {
      if n <= start {
        assert all[..n] == calls[..n] && guilds[..end][..n] == guilds[..start][..n];
      } else {
        assert n == end;
        assert all[..n] == all && calls[..start] == calls && guilds[..start][..start] == guilds[..start];
        assert guilds[..end][..n] == guilds[..start] + guilds[start..end];
        CalledAppend(calls, answers);
      }
    }
  }

  lemma AllCalled(guilds: seq<GuildId>, calls: seq<Attempt>)
    requires Batched(guilds, calls)
    ensures Elements(Called(calls)) == Elements(guilds)
  {
    assert calls[..|guilds|] == calls && guilds[..|guilds|] == guilds;
    assert forall g :: g in Called(calls) <==> g in multiset(Called(calls));
    assert forall g :: g in guilds <==> g in multiset(guilds);
  }

  /** A round in which every due call was answered with success. */
  ghost predicate Perfect(m: Model, affected: set<GuildId>, calls: Calls) {
    && calls.invalidated == affected * At(m, NeedsInvalidation)
    && calls.presented == affected * (At(m, NeedsPresence) + calls.invalidated)
    && calls.cleared == affected * m.pendingAbsence
  }

  lemma PendingCoversAll(m: Model, calls: Calls)
    requires Perfect(m, Pending(m), calls)
    ensures calls.invalidated == At(m, NeedsInvalidation)
    ensures calls.presented == At(m, NeedsPresence) + calls.invalidated
    ensures calls.cleared == m.pendingAbsence
  {
  }

  lemma {:induction false} RoundsKeepOwnership(w: World, rounds: seq<Round>)
    ensures PlayRounds(w, rounds).model.owned == w.model.owned
  {
    if rounds != [] {
      RoundsKeepOwnership(w, rounds[..|rounds| - 1]);
    }
  }

  lemma RoundComputed(before: World, after: World, affected: set<GuildId>, calls: Calls)
    requires BeforeRound(before, affected)
    requires calls.invalidated <= affected * At(before.model, NeedsInvalidation)
    requires
      var marked := Marked(before.model.advertisements, calls.invalidated, NeedsPresence);
      var due := affected * At(before.model.(advertisements := marked), NeedsPresence);
      && calls.presented <= due
      && after.model.advertisements == Marked(marked, calls.presented, Advertised)
      && (after.alive ==>
         before.alive && after.refreshed == (before.refreshed + due) - affected * before.model.pendingAbsence)
    requires calls.cleared <= affected * before.model.pendingAbsence
    requires after.model.pendingAbsence == before.model.pendingAbsence - calls.cleared
    requires after.model.owned == before.model.owned
    requires after.confirmed == before.confirmed + calls.invalidated
    requires !after.alive ==> after.refreshed == {}
    ensures Admissible(before.model, affected, calls)
    ensures after == PlayRound(before, affected, calls, after.alive)
  {
    var stages := Marked(before.model.advertisements, calls.invalidated, NeedsPresence);
    var marked := before.model.(advertisements := stages);
    assert At(marked, NeedsPresence) == At(before.model, NeedsPresence) + calls.invalidated;
  }

  /** The test that ends a round: a desired guild must be advertised, any other cleared. */
  predicate StillDue(m: Model, g: GuildId) {
    if IsOwned(m.owned, g) then !(g in m.advertisements && m.advertisements[g] == Advertised)
    else g in m.pendingAbsence
  }

  /** A settled guild stays settled through later rounds. */
  lemma PendingShrinks(m: Model, affected: set<GuildId>, calls: Calls)
    requires Admissible(m, affected, calls)
    ensures Pending(AfterRound(m, calls)) <= Pending(m)
  {
  }

  lemma PendingComputed(m: Model, affected: set<GuildId>, pending: set<GuildId>)
    requires Consistent(m)
    requires forall g :: g in pending <==> g in affected && StillDue(m, g)
    ensures pending == affected * Pending(m)
  {
    forall g | g in affected
      ensures g in pending <==> g in Pending(m)
    {
      assert IsOwned(m.owned, g) <==> g in Desired(m.owned);
    }
  }
}
