/** How the worker adds media (`enqueue_media` and `commit_batch` in
    crates/pepeaudio-bot/src/dashboard_command_executor.rs): not one guarded request but five,
    three looks, a connection and the batch, with the last guarded only by the last look.
    The machine follows every execution of one envelope; all else is a change from outside.
    The player takes requests one by one in the order they were sent, also those of executions
    that died (crates/pepeaudio-player/src/actor/queue.rs). */
module MediaRoute {
  import opened Options
  import opened Runs

  type ChannelId = nat
  type RunId = nat

  const U64_MAX := 0xFFFF_FFFF_FFFF_FFFF

  /** `base` is the revision an execution has made sure of: the expected one, or the one its
      own connection led to. */
  datatype Ask =
    | LookFirst
    | LookAgain
    | Connect(channel: ChannelId, revision: nat)
    | LookLast(base: nat)
    | Enqueue(revision: nat, base: nat)

  datatype Request = Request(run: RunId, ask: Ask)

  /** An execution waits for an answer or has it; one that failed or died is gone. */
  datatype Stage = Asking(ask: Ask) | Answered(ask: Ask, revision: nat, voice: Option<ChannelId>)

  datatype Change = Connected(run: RunId) | Queued(run: RunId) | Outside

  /** `log[i]` is the change that took the player from revision `first + i` to the next one. */
  datatype State = State(
    expected: nat,
    first: nat,
    log: seq<Change>,
    voice: Option<ChannelId>,
    mailbox: seq<Request>,
    runs: map<RunId, Stage>,
    next: RunId)
  {
    function Revision(): nat {
      first + |log|
    }
  }

  function Start(expected: nat, revision: nat, voice: Option<ChannelId>): State {
    State(expected, revision, [], voice, [], map[], 0)
  }

  // ---------------------------------------------------------------- steps

  function Send(s: State, w: RunId, ask: Ask): State {
    s.(mailbox := s.mailbox + [Request(w, ask)], runs := s.runs[w := Asking(ask)])
  }

  function End(s: State, w: RunId): State {
    s.(runs := s.runs - {w})
  }

  function Answer(s: State, w: RunId, ask: Ask): State {
    if w in s.runs then s.(runs := s.runs[w := Answered(ask, s.Revision(), s.voice)]) else s
  }

  /** The player takes the oldest request; `works` is how its adapter fares. */
  function Take(s: State, works: bool): State
    requires s.mailbox != []
  {
    var w, ask := s.mailbox[0].run, s.mailbox[0].ask;
    var t := s.(mailbox := s.mailbox[1..]);
    match ask
    case LookFirst | LookAgain | LookLast(_) => Answer(t, w, ask)
    case Connect(channel, revision) =>
      if revision != s.Revision() then End(t, w)
      else if s.voice.Some? then (if s.voice.value == channel then Answer(t, w, ask) else End(t, w))
      else if !works || s.Revision() >= U64_MAX then End(t, w)
      else Answer(t.(log := s.log + [Connected(w)], voice := Some(channel)), w, ask)
    case Enqueue(revision, _) =>
      if revision != s.Revision() || s.voice.None? || !works || s.Revision() >= U64_MAX then End(t, w)
      else Answer(t.(log := s.log + [Queued(w)]), w, ask)
  }

  /** An execution goes on from its answer; `passes` stands for the deadline, the search, the
      permission and everything else that may stop it. */
  function Proceed(s: State, w: RunId, passes: bool, channel: ChannelId): State
    requires w in s.runs && s.runs[w].Answered?
  {
    var ask, revision, voice := s.runs[w].ask, s.runs[w].revision, s.runs[w].voice;
    match ask
    case LookFirst => if revision == s.expected && passes then Send(s, w, LookAgain) else End(s, w)
    case LookAgain =>
      if revision != s.expected then End(s, w)
      else if voice.None? then Send(s, w, Connect(channel, revision))
      else if voice.value == channel then Send(s, w, LookLast(revision))
      else End(s, w)
    case Connect(_, _) => Send(s, w, LookLast(revision))
    case LookLast(base) => Send(s, w, Enqueue(revision, base))
    case Enqueue(_, _) => End(s, w)
  }

  datatype Event =
    | Begin
    | Crash(run: RunId)
    | TakeNext(works: bool)
    | GoOn(run: RunId, passes: bool, channel: ChannelId)
    | Disturb(voice: Option<ChannelId>)

  predicate Enabled(s: State, e: Event) {
    match e
    case Begin => true
    case Crash(_) => true
    case TakeNext(_) => s.mailbox != []
    case GoOn(w, _, _) => w in s.runs && s.runs[w].Answered?
    case Disturb(_) => s.Revision() < U64_MAX
  }

  function Apply(s: State, e: Event): State
    requires Enabled(s, e)
  {
    match e
    case Begin => Send(s, s.next, LookFirst).(next := s.next + 1)
    case Crash(w) => End(s, w)
    case TakeNext(works) => Take(s, works)
    case GoOn(w, passes, channel) => Proceed(s, w, passes, channel)
    case Disturb(voice) => s.(log := s.log + [Outside], voice := voice)
  }

  function Next(s: State, e: Event): Option<State> {
    if Enabled(s, e) then Some(Apply(s, e)) else None
  }

  // ---------------------------------------------------------------- what each step comes to

  /** The execution, if it still lives, has its answer; or it has failed. */
  predicate Replied(s: State, t: State, w: RunId, ask: Ask) {
    t.runs == if w in s.runs then s.runs[w := Answered(ask, t.Revision(), t.voice)] else s.runs
  }

  predicate Gone(s: State, t: State, w: RunId) {
    t.runs == s.runs - {w}
  }

  predicate Unchanged(s: State, t: State) {
    t.log == s.log && t.voice == s.voice
  }

  /** A connection needs the revision at hand, and either finds itself made or makes it, at one
      revision; a batch needs the revision at hand and any connection, at one revision. Whatever
      is not granted changes nothing and ends its execution; a look is always answered. */
  lemma TakeIs(s: State, works: bool)
    requires s.mailbox != []
    ensures var t, w, ask := Take(s, works), s.mailbox[0].run, s.mailbox[0].ask;
      var spare := works && s.Revision() < U64_MAX;
      && t.mailbox == s.mailbox[1..] && t.expected == s.expected && t.first == s.first && t.next == s.next
      && (ask.LookFirst? || ask.LookAgain? || ask.LookLast? ==> Unchanged(s, t) && Replied(s, t, w, ask))
      && (ask.Connect? ==>
            if ask.revision == s.Revision() && s.voice == Some(ask.channel)
            then Unchanged(s, t) && Replied(s, t, w, ask)
            else if ask.revision == s.Revision() && s.voice == None && spare
            then t.log == s.log + [Connected(w)] && t.voice == Some(ask.channel) && Replied(s, t, w, ask)
            else Unchanged(s, t) && Gone(s, t, w))
      && (ask.Enqueue? ==>
            if ask.revision == s.Revision() && s.voice != None && spare
            then t.log == s.log + [Queued(w)] && t.voice == s.voice && Replied(s, t, w, ask)
            else Unchanged(s, t) && Gone(s, t, w))
  {
  }

  predicate Asks(s: State, t: State, w: RunId, ask: Ask) {
    t.mailbox == s.mailbox + [Request(w, ask)] && t.runs == s.runs[w := Asking(ask)]
  }

  /** The first two looks must find the expected revision, the second also no other channel; a
      connection is asked for where there is none; the last look accepts anything. */
  lemma ProceedIs(s: State, w: RunId, passes: bool, channel: ChannelId)
    requires w in s.runs && s.runs[w].Answered?
    ensures var t, ask, revision, voice :=
        Proceed(s, w, passes, channel), s.runs[w].ask, s.runs[w].revision, s.runs[w].voice;
      && Unchanged(s, t) && t.expected == s.expected && t.first == s.first && t.next == s.next
      && (Gone(s, t, w) && t.mailbox == s.mailbox <==>
            || (ask.LookFirst? && (revision != s.expected || !passes))
            || (ask.LookAgain? && (revision != s.expected || (voice != None && voice != Some(channel))))
            || ask.Enqueue?)
      && (ask.LookFirst? && revision == s.expected && passes ==> Asks(s, t, w, LookAgain))
      && (ask.LookAgain? && revision == s.expected && voice == None ==> Asks(s, t, w, Connect(channel, revision)))
      && (ask.LookAgain? && revision == s.expected && voice == Some(channel) ==> Asks(s, t, w, LookLast(revision)))
      && (ask.Connect? ==> Asks(s, t, w, LookLast(revision)))
      && (ask.LookLast? ==> Asks(s, t, w, Enqueue(revision, ask.base)))
  {
  }

  /** Left alone, an execution does its work: from the expected revision, with no other channel
      connected and revisions left, there is a run that connects if need be and queues the batch. */
  lemma UndisturbedExecutionQueues(revision: nat, voice: Option<ChannelId>, channel: ChannelId)
    requires revision + 2 <= U64_MAX && (voice.Some? ==> voice.value == channel)
    ensures exists t :: (
      && Reaches(Next, Start(revision, revision, voice), t) && t.runs == map[] && t.mailbox == []
      && t.voice == Some(channel) && t.log == (if voice.None? then [Connected(0)] else []) + [Queued(0)])
  {
    hide Reaches;
    var start := Start(revision, revision, voice);
    ReachesItself(Next, start);
    ReachesBy(Next, start, start, Begin);
    var s := Apply(start, Begin);
    s := Round(start, s, channel, LookFirst);
    s := Round(start, s, channel, LookAgain);
    if voice.None? {
      s := Round(start, s, channel, Connect(channel, revision));
    }
    var base := if voice.None? then revision + 1 else revision;
    s := Round(start, s, channel, LookLast(base));
    s := Round(start, s, channel, Enqueue(base, base));
    assert s.runs == map[];
  }

  /** One request of the only execution: taken, answered, and followed up. */
  lemma Round(start: State, s: State, channel: ChannelId, ask: Ask) returns (t: State)
    requires Reaches(Next, start, s) && s.mailbox == [Request(0, ask)] && s.runs == map[0 := Asking(ask)]
    requires s.Revision() < U64_MAX && s.expected == start.expected
    requires (ask.LookFirst? || ask.LookAgain?) ==> s.Revision() == s.expected
    requires ask.LookAgain? ==> s.voice == None || s.voice == Some(channel)
    requires ask.Connect? ==> ask.revision == s.Revision() && s.voice == None
    requires ask.Enqueue? ==> ask.revision == s.Revision() && s.voice != None
    ensures Reaches(Next, start, t) && t.expected == s.expected && t.first == s.first
    ensures t.voice == if ask.Connect? then Some(ask.channel) else s.voice
    ensures t.log == s.log + if ask.Connect? then [Connected(0)] else if ask.Enqueue? then [Queued(0)] else []
    ensures var more := match ask
        case LookFirst => Some(LookAgain)
        case LookAgain => Some(if s.voice == None then Connect(channel, s.Revision()) else LookLast(s.Revision()))
        case Connect(_, _) => Some(LookLast(t.Revision()))
        case LookLast(base) => Some(Enqueue(s.Revision(), base))
        case Enqueue(_, _) => None;
      if more.Some? then t.mailbox == [Request(0, more.value)] && t.runs == map[0 := Asking(more.value)]
      else t.mailbox == [] && t.runs == map[]
  {
    hide Reaches;
    ReachesBy(Next, start, s, TakeNext(true));
    var taken := Apply(s, TakeNext(true));
    ReachesBy(Next, start, taken, GoOn(0, true, channel));
    t := Apply(taken, GoOn(0, true, channel));
  }

  // ---------------------------------------------------------------- one after the other

  /** No execution starts while another is alive: what the dispatcher sees to, with its one
      task per guild. */
  ghost predicate OneAtATime(s: State, events: seq<Event>) {
    events == [] ||
    (var front, last := events[..|events| - 1], events[|events| - 1];
     OneAtATime(s, front) && (last.Begin? && Exec(Next, s, front).Some? ==> Exec(Next, s, front).value.runs == map[]))
  }

  lemma OneMoreStep(s: State, events: seq<Event>, e: Event)
    requires OneAtATime(s, events)
      && (e.Begin? && Exec(Next, s, events).Some? ==> Exec(Next, s, events).value.runs == map[])
    ensures OneAtATime(s, events + [e])
  {
    hide Exec;
    assert (events + [e])[..|events|] == events;
  }

  predicate Hot(ask: Ask) {
    ask.Connect? || ask.Enqueue?
  }

  /** Past the second look with the expected revision, and the batch not yet tried. */
  predicate Cleared(stage: Stage, expected: nat) {
    match stage
    case Asking(ask) => Hot(ask) || ask.LookLast?
    case Answered(ask, revision, _) => (ask.LookAgain? && revision == expected) || ask.Connect? || ask.LookLast?
  }

  ghost predicate HasQueued(log: seq<Change>) {
    exists i :: 0 <= i < |log| && log[i].Queued?
  }

  /** Requests of the dead come first; a live execution's request is the last, and once it is
      answered none is left. */
  ghost predicate InLine(s: State) {
    && (forall w, v :: w in s.runs && v in s.runs ==> w == v)
    && (forall w :: w in s.runs ==>
          if s.runs[w].Answered? then s.mailbox == []
          else s.mailbox != [] && s.mailbox[|s.mailbox| - 1] == Request(w, s.runs[w].ask))
    && (forall w, i :: w in s.runs && 0 <= i < |s.mailbox| - 1 ==> s.mailbox[i].run != w)
    && (forall i :: 0 <= i < |s.mailbox| ==> s.mailbox[i].run < s.next)
    && (forall w :: w in s.runs ==> w < s.next)
  }

  /** At most one request that could change the player is on its way; it belongs to the live
      execution if that is past its second look; and once the batch is queued there is none. */
  ghost predicate Guarded(s: State) {
    && (forall i, j | 0 <= i < |s.mailbox| && 0 <= j < |s.mailbox| ::
          Hot(s.mailbox[i].ask) && Hot(s.mailbox[j].ask) ==> i == j)
    && (forall w, i | w in s.runs && 0 <= i < |s.mailbox| ::
          Cleared(s.runs[w], s.expected) && Hot(s.mailbox[i].ask) ==> s.mailbox[i].run == w)
    && (HasQueued(s.log) ==>
          && s.Revision() > s.expected
          && (forall i :: 0 <= i < |s.mailbox| ==> !Hot(s.mailbox[i].ask))
          && (forall w :: w in s.runs ==> !Cleared(s.runs[w], s.expected)))
    && (forall i, j :: 0 <= i < j < |s.log| && s.log[i].Queued? ==> !s.log[j].Queued?)
  }

  /** Nothing past the second look names a revision below the expected one. */
  ghost predicate Recent(s: State) {
    && (forall i :: 0 <= i < |s.mailbox| && Hot(s.mailbox[i].ask) ==> s.mailbox[i].ask.revision >= s.expected)
    && (forall w :: w in s.runs && Cleared(s.runs[w], s.expected) ==> s.Revision() >= s.expected)
    && (forall w :: w in s.runs && s.runs[w].Answered? && Cleared(s.runs[w], s.expected) ==>
       s.runs[w].revision >= s.expected)
    && (forall i :: 0 <= i < |s.mailbox| && s.mailbox[i].ask.LookLast? ==> s.Revision() >= s.expected)
  }

  ghost predicate Single(s: State) {
    InLine(s) && Guarded(s) && Recent(s)
  }

  /** What taking a request does, whatever the request: it is answered or refused, and only a
      request for the revision at hand adds a change. */
  lemma TakeShape(s: State, works: bool)
    requires s.mailbox != []
    ensures var t, w, ask := Take(s, works), s.mailbox[0].run, s.mailbox[0].ask;
      && t.mailbox == s.mailbox[1..] && t.next == s.next && t.expected == s.expected && t.first == s.first
      && (|| t.runs == s.runs - {w}
          || (w in s.runs && t.runs == s.runs[w := Answered(ask, t.Revision(), t.voice)]
             && (Hot(ask) ==> ask.revision == s.Revision())))
      && (|| t.log == s.log
          || (t.log == s.log + [Connected(w)] && ask.Connect? && ask.revision == s.Revision())
          || (t.log == s.log + [Queued(w)] && ask.Enqueue? && ask.revision == s.Revision()))
  {
    assert s.mailbox[0].run !in s.runs ==> s.runs - {s.mailbox[0].run} == s.runs;
  }

  lemma TakeKeepsLine(s: State, works: bool)
    requires InLine(s) && s.mailbox != []
    ensures InLine(Take(s, works))
  {
    hide Take;
    TakeShape(s, works);
  }

  lemma TakeKeepsRecent(s: State, works: bool)
    requires Recent(s) && s.mailbox != []
    ensures Recent(Take(s, works))
  {
    hide Take;
    TakeShape(s, works);
  }

  lemma TakeKeepsGuard(s: State, works: bool)
    requires Single(s) && s.mailbox != []
    ensures Guarded(Take(s, works))
  {
    hide Take;
    var t := Take(s, works);
    TakeShape(s, works);
    if HasQueued(t.log) && !HasQueued(s.log) {
      assert t.log[|s.log|].Queued?;
    }
  }

  lemma EventKeepsLine(s: State, e: Event)
    requires InLine(s) && Enabled(s, e) && (e.Begin? ==> s.runs == map[])
    ensures InLine(Apply(s, e))
  {
    if e.TakeNext? {
      TakeKeepsLine(s, e.works);
      hide InLine, Take;
    }
  }

  lemma EventKeepsRecent(s: State, e: Event)
    requires Recent(s) && Enabled(s, e)
    ensures Recent(Apply(s, e))
  {
    if e.TakeNext? {
      TakeKeepsRecent(s, e.works);
      hide Recent, Take;
    }
  }

  lemma EventKeepsGuard(s: State, e: Event)
    requires Single(s) && Enabled(s, e) && (e.Begin? ==> s.runs == map[])
    ensures Guarded(Apply(s, e))
  {
    if e.TakeNext? {
      TakeKeepsGuard(s, e.works);
      hide Single, Guarded, Take;
    } else if e.Disturb? {
      assert HasQueued(s.log + [Outside]) ==> HasQueued(s.log);
    }
  }

  lemma EventKeepsSingle(s: State, e: Event)
    requires Single(s) && Enabled(s, e) && (e.Begin? ==> s.runs == map[])
    ensures Single(Apply(s, e))
  {
    hide InLine, Recent, Guarded;
    EventKeepsLine(s, e);
    EventKeepsRecent(s, e);
    EventKeepsGuard(s, e);
  }

  /** Executions that never overlap queue their batch at most once, whatever dies, whatever is
      delivered again and whatever else changes the player in between. */
  lemma {:induction false} OneAtATimeQueuesOnce(expected: nat, revision: nat, voice: Option<ChannelId>,
        events: seq<Event>)
    requires OneAtATime(Start(expected, revision, voice), events)
      && Exec(Next, Start(expected, revision, voice), events).Some?
    ensures var s := Exec(Next, Start(expected, revision, voice), events).value;
      Single(s) && forall i, j :: 0 <= i < |s.log| && 0 <= j < |s.log| && s.log[i].Queued? && s.log[j].Queued? ==>
        i == j
  {
    hide InLine, Recent, Apply, Enabled;
    if events != [] {
      var front := events[..|events| - 1];
      OneAtATimeQueuesOnce(expected, revision, voice, front);
      EventKeepsSingle(Exec(Next, Start(expected, revision, voice), front).value, events[|events| - 1]);
    } else {
      StartIsSingle(expected, revision, voice);
    }
  }

  lemma StartIsSingle(expected: nat, revision: nat, voice: Option<ChannelId>)
    ensures Single(Start(expected, revision, voice))
  {
  }

  // ---------------------------------------------------------------- what success tells

  /** An execution told that its batch was taken has queued it. */
  predicate ToldTruly(s: State) {
    forall w :: w in s.runs && s.runs[w].Answered? && s.runs[w].ask.Enqueue? ==> Queued(w) in s.log
  }

  lemma TruthStays(s: State, e: Event)
    requires Enabled(s, e) && ToldTruly(s)
    ensures ToldTruly(Apply(s, e))
  {
    assert forall x, y :: x in s.log ==> x in s.log + [y];
  }

  /** An execution succeeds only with the answer to its batch; by then the batch is queued in
      its name. Overlap, deaths and outside changes make no difference. */
  lemma {:induction false} SuccessMeansQueued(expected: nat, revision: nat, voice: Option<ChannelId>,
        events: seq<Event>)
    requires Exec(Next, Start(expected, revision, voice), events).Some?
    ensures ToldTruly(Exec(Next, Start(expected, revision, voice), events).value)
  {
    hide Apply, Enabled, ToldTruly;
    if events != [] {
      var front := events[..|events| - 1];
      SuccessMeansQueued(expected, revision, voice, front);
      TruthStays(Exec(Next, Start(expected, revision, voice), front).value, events[|events| - 1]);
    } else {
      NobodyIsToldYet(expected, revision, voice);
    }
  }

  lemma NobodyIsToldYet(expected: nat, revision: nat, voice: Option<ChannelId>)
    ensures ToldTruly(Start(expected, revision, voice))
    ensures Start(expected, revision, voice).expected == expected
      && Start(expected, revision, voice).Revision() == revision
  {
  }

  // ---------------------------------------------------------------- or with a current last look

  /** An execution's last look finds the revision it had made sure of. */
  predicate Current(s: State) {
    forall w :: w in s.runs && s.runs[w].Answered? && s.runs[w].ask.LookLast? ==>
      s.runs[w].revision == s.runs[w].ask.base
  }

  ghost predicate AlwaysCurrent(s: State, events: seq<Event>) {
    && (events == [] || AlwaysCurrent(s, events[..|events| - 1]))
    && (Exec(Next, s, events).Some? ==> Current(Exec(Next, s, events).value))
  }

  /** A base is the expected revision, or one more by an own connection. */
  predicate Earned(s: State, w: RunId, base: nat) {
    || base == s.expected
    || (base == s.expected + 1 && 0 <= s.expected - s.first < |s.log| && s.log[s.expected - s.first] == Connected(w))
  }

  predicate AskEarned(s: State, w: RunId, ask: Ask) {
    match ask
    case LookLast(base) => Earned(s, w, base)
    case Enqueue(revision, base) => revision == base && Earned(s, w, base)
    case Connect(_, revision) => revision == s.expected
    case _ => true
  }

  ghost predicate BasesHold(s: State) {
    && (forall i :: 0 <= i < |s.mailbox| ==> AskEarned(s, s.mailbox[i].run, s.mailbox[i].ask))
    && (forall w :: w in s.runs && s.runs[w].Asking? ==> AskEarned(s, w, s.runs[w].ask))
    && (forall w :: w in s.runs && s.runs[w].Answered? ==>
          AskEarned(s, w, s.runs[w].ask) && (s.runs[w].ask.Connect? ==> Earned(s, w, s.runs[w].revision)))
    && (forall i :: 0 <= i < |s.log| && s.log[i].Queued? ==> Earned(s, s.log[i].run, s.first + i))
  }

  lemma EarnedStays(s: State, t: State, w: RunId, ask: Ask, base: nat)
    requires t.expected == s.expected && t.first == s.first && s.log <= t.log
    ensures Earned(s, w, base) ==> Earned(t, w, base)
    ensures AskEarned(s, w, ask) ==> AskEarned(t, w, ask)
  {
  }

  lemma TakeKeepsBases(s: State, works: bool)
    requires BasesHold(s) && s.mailbox != []
    ensures BasesHold(Take(s, works))
  {
    hide Earned, AskEarned;
    var t, w, ask := Take(s, works), s.mailbox[0].run, s.mailbox[0].ask;
    TakeShape(s, works);
    AnswersAreEarned(s, works);
    hide Take;
    LaterIsEarned(s, t);
    forall i | 0 <= i < |t.log| && t.log[i].Queued?
      ensures Earned(t, t.log[i].run, t.first + i)
    {
      if i < |s.log| {
        assert s.log[i].Queued?;
      }
    }
  }

  lemma LaterIsEarned(s: State, t: State)
    requires t.expected == s.expected && t.first == s.first && s.log <= t.log
    ensures forall w, ask :: AskEarned(s, w, ask) ==> AskEarned(t, w, ask)
    ensures forall w, base :: Earned(s, w, base) ==> Earned(t, w, base)
  {
    forall w, ask
      ensures AskEarned(s, w, ask) ==> AskEarned(t, w, ask)
    {
      EarnedStays(s, t, w, ask, 0);
    }
    forall w, base
      ensures Earned(s, w, base) ==> Earned(t, w, base)
    {
      EarnedStays(s, t, w, LookFirst, base);
    }
  }

  lemma AnswersAreEarned(s: State, works: bool)
    requires s.mailbox != [] && AskEarned(s, s.mailbox[0].run, s.mailbox[0].ask)
    ensures var t, w, ask := Take(s, works), s.mailbox[0].run, s.mailbox[0].ask;
      && (t.log == s.log + [Queued(w)] ==> Earned(t, w, s.Revision()))
      && (ask.Connect? && w in t.runs && t.runs != s.runs ==> Earned(t, w, t.Revision()))
  {
  }

  lemma EventKeepsBases(s: State, e: Event)
    requires BasesHold(s) && Current(s) && Enabled(s, e)
    ensures BasesHold(Apply(s, e))
  {
    match e {
      case TakeNext(works) => TakeKeepsBases(s, works);
      case GoOn(w, passes, channel) => ProceedKeepsBases(s, w, passes, channel);
      case Disturb(voice) =>
        hide Earned, AskEarned;
        LaterIsEarned(s, Apply(s, e));
      case _ =>
        hide Earned, AskEarned;
        LaterIsEarned(s, Apply(s, e));
        assert AskEarned(s, s.next, LookFirst) by { LooksAreEarned(s, s.next); }
    }
  }

  lemma LooksAreEarned(s: State, w: RunId)
    ensures AskEarned(s, w, LookFirst) && AskEarned(s, w, LookAgain)
  {
  }

  lemma SendKeepsBases(s: State, w: RunId, ask: Ask)
    requires BasesHold(s) && AskEarned(s, w, ask)
    ensures BasesHold(Send(s, w, ask))
  {
    hide Earned, AskEarned;
    LaterIsEarned(s, Send(s, w, ask));
  }

  lemma EndKeepsBases(s: State, w: RunId)
    requires BasesHold(s)
    ensures BasesHold(End(s, w))
  {
    hide Earned, AskEarned;
    LaterIsEarned(s, End(s, w));
  }

  lemma ProceedKeepsBases(s: State, w: RunId, passes: bool, channel: ChannelId)
    requires BasesHold(s) && Current(s) && w in s.runs && s.runs[w].Answered?
    ensures BasesHold(Proceed(s, w, passes, channel))
  {
    var ask, revision := s.runs[w].ask, s.runs[w].revision;
    assert AskEarned(s, w, ask) && (ask.Connect? ==> Earned(s, w, revision))
      && (ask.LookLast? ==> revision == ask.base);
    hide BasesHold, Current, Send, End;
    EndKeepsBases(s, w);
    if ask.LookFirst? {
      SendKeepsBases(s, w, LookAgain);
    } else if ask.LookAgain? && revision == s.expected {
      SendKeepsBases(s, w, Connect(channel, revision));
      SendKeepsBases(s, w, LookLast(revision));
    } else if ask.Connect? {
      SendKeepsBases(s, w, LookLast(revision));
    } else if ask.LookLast? {
      SendKeepsBases(s, w, Enqueue(revision, ask.base));
    }
  }

  /** Even executions that overlap queue the batch at most once, as long as nobody changes the
      player between an execution's second look, or its connection, and its last look. */
  lemma {:induction false} CurrentLooksQueueOnce(expected: nat, revision: nat, voice: Option<ChannelId>,
        events: seq<Event>)
    requires AlwaysCurrent(Start(expected, revision, voice), events)
      && Exec(Next, Start(expected, revision, voice), events).Some?
    ensures var s := Exec(Next, Start(expected, revision, voice), events).value;
      BasesHold(s) && forall i, j :: 0 <= i < |s.log| && 0 <= j < |s.log| && s.log[i].Queued? && s.log[j].Queued? ==>
        i == j
  {
    hide Apply, Enabled, Current, AskEarned;
    if events != [] {
      var front := events[..|events| - 1];
      CurrentLooksQueueOnce(expected, revision, voice, front);
      EventKeepsBases(Exec(Next, Start(expected, revision, voice), front).value, events[|events| - 1]);
    }
  }

  // ---------------------------------------------------------------- exactly when a second batch follows

  /** Every request has its run, and a live run that asks has its request. */
  ghost predicate Matched(s: State) {
    && (forall i, j :: 0 <= i < j < |s.mailbox| ==> s.mailbox[i].run != s.mailbox[j].run)
    && (forall i :: 0 <= i < |s.mailbox| ==> s.mailbox[i].run < s.next)
    && (forall w :: w in s.runs ==> w < s.next)
    && (forall w :: w in s.runs && s.runs[w].Asking? ==> Request(w, s.runs[w].ask) in s.mailbox)
    && (forall w, i :: w in s.runs && s.runs[w].Answered? && 0 <= i < |s.mailbox| ==> s.mailbox[i].run != w)
  }

  /** No revision is named before it is reached, and a connection names the expected one. */
  ghost predicate Named(s: State) {
    && (forall i :: 0 <= i < |s.mailbox| ==> AskNamed(s, s.mailbox[i].ask))
    && (forall w :: w in s.runs ==>
       AskNamed(s, s.runs[w].ask) && (s.runs[w].Answered? ==> s.runs[w].revision <= s.Revision()))
    && (forall i :: 0 <= i < |s.log| && s.log[i].Connected? ==> s.first + i == s.expected)
  }

  predicate AskNamed(s: State, ask: Ask) {
    (ask.Connect? ==> ask.revision == s.expected) && (ask.Enqueue? ==> ask.revision <= s.Revision())
  }

  ghost predicate Orderly(s: State) {
    Matched(s) && Named(s) && Recent(s) && (HasQueued(s.log) ==> s.Revision() > s.expected)
  }

  lemma TakeKeepsMatched(s: State, works: bool)
    requires Matched(s) && s.mailbox != []
    ensures Matched(Take(s, works))
  {
    hide Take;
    TakeShape(s, works);
    var t := Take(s, works);
    assert s.mailbox == [s.mailbox[0]] + t.mailbox;
  }

  lemma TakeKeepsNamed(s: State, works: bool)
    requires Named(s) && s.mailbox != []
    ensures Named(Take(s, works))
  {
    hide Take;
    TakeShape(s, works);
    assert AskNamed(s, s.mailbox[0].ask);
  }

  lemma TakeKeepsQueuedHigh(s: State, works: bool)
    requires Orderly(s) && s.mailbox != []
    ensures var t := Take(s, works); HasQueued(t.log) ==> t.Revision() > t.expected
  {
    hide Take, Matched;
    TakeShape(s, works);
    var t := Take(s, works);
    if HasQueued(t.log) && !HasQueued(s.log) {
      var i :| 0 <= i < |t.log| && t.log[i].Queued?;
      assert i == |s.log| && Hot(s.mailbox[0].ask);
    }
  }

  lemma EventKeepsMatched(s: State, e: Event)
    requires Matched(s) && Enabled(s, e)
    ensures Matched(Apply(s, e))
  {
    if e.TakeNext? {
      TakeKeepsMatched(s, e.works);
      hide Matched, Take;
    }
  }

  lemma EventKeepsNamed(s: State, e: Event)
    requires Named(s) && Enabled(s, e)
    ensures Named(Apply(s, e))
  {
    if e.TakeNext? {
      TakeKeepsNamed(s, e.works);
      hide Named, Take;
    }
  }

  lemma EventKeepsOrderly(s: State, e: Event)
    requires Orderly(s) && Enabled(s, e)
    ensures Orderly(Apply(s, e))
  {
    EventKeepsMatched(s, e);
    EventKeepsNamed(s, e);
    EventKeepsRecent(s, e);
    hide Matched, Named, Recent;
    if e.TakeNext? {
      TakeKeepsQueuedHigh(s, e.works);
      hide Take;
    } else if e.Disturb? {
      assert HasQueued(s.log + [Outside]) ==> HasQueued(s.log);
    }
  }

  /** Every reachable state is orderly, with executions overlapping as they like. */
  lemma {:induction false} RunIsOrderly(expected: nat, revision: nat, voice: Option<ChannelId>, events: seq<Event>)
    requires Exec(Next, Start(expected, revision, voice), events).Some?
    ensures Orderly(Exec(Next, Start(expected, revision, voice), events).value)
  {
    if events != [] {
      hide Orderly, Apply, Enabled;
      RunIsOrderly(expected, revision, voice, events[..|events| - 1]);
      EventKeepsOrderly(Exec(Next, Start(expected, revision, voice), events[..|events| - 1]).value,
        events[|events| - 1]);
    }
  }

  /** The batch could be queued as things stand. */
  predicate Receptive(s: State) {
    s.voice.Some? && s.Revision() < U64_MAX
  }

  /** The batch is on its way with the revision at hand. */
  predicate EnqueueDue(s: State) {
    exists i :: 0 <= i < |s.mailbox| && s.mailbox[i].ask.Enqueue? && s.mailbox[i].ask.revision == s.Revision()
  }

  /** An execution has had its last look, and found the revision at hand. */
  predicate LookFound(s: State) {
    exists w :: w in s.runs && s.runs[w].Answered? && s.runs[w].ask.LookLast? && s.runs[w].revision == s.Revision()
  }

  /** An execution is past the check, and its last look is still to come. */
  predicate LookDue(s: State) {
    exists w :: w in s.runs && WillLook(s.runs[w], s.expected)
  }

  predicate WillLook(stage: Stage, expected: nat) {
    match stage
    case Asking(ask) => ask.LookLast?
    case Answered(ask, revision, voice) => ask.Connect? || (ask.LookAgain? && revision == expected && voice.Some?)
  }

  predicate CanQueueAgain(s: State) {
    || (Receptive(s) && (EnqueueDue(s) || LookFound(s)))
    || (LookDue(s) && s.Revision() + (if s.voice.Some? then 0 else 1) < U64_MAX)
  }

  ghost predicate QueuedSince(s: State, t: State) {
    s.log <= t.log && exists i :: |s.log| <= i < |t.log| && t.log[i].Queued?
  }

  /** The batch is queued, and nothing can queue it again. */
  ghost predicate Exhausted(s: State) {
    Orderly(s) && HasQueued(s.log) && !CanQueueAgain(s)
  }

  lemma ExhaustedStaysOnTake(s: State, works: bool)
    requires Exhausted(s) && s.mailbox != []
    ensures !CanQueueAgain(Take(s, works)) && Take(s, works).log == s.log
  {
    var w, ask := s.mailbox[0].run, s.mailbox[0].ask;
    assert w in s.runs ==> s.runs[w] == Asking(ask) by {
      RequestIsRuns(s);
    }
    assert AskNamed(s, ask);
    hide Matched, Named, Recent, HasQueued;
    var t := Take(s, works);
    assert EnqueueDue(t) ==> EnqueueDue(s);
  }

  lemma RequestIsRuns(s: State)
    requires Matched(s) && s.mailbox != []
    ensures var w := s.mailbox[0].run; w in s.runs ==> s.runs[w] == Asking(s.mailbox[0].ask)
  {
  }

  lemma ExhaustedStaysOnProceed(s: State, w: RunId, passes: bool, channel: ChannelId)
    requires Exhausted(s) && w in s.runs && s.runs[w].Answered?
    ensures !CanQueueAgain(Proceed(s, w, passes, channel)) && Proceed(s, w, passes, channel).log == s.log
  {
    hide Matched, Recent, HasQueued;
    var t := Proceed(s, w, passes, channel);
    assert EnqueueDue(t) ==> EnqueueDue(s) || LookFound(s);
    assert LookFound(t) ==> LookFound(s);
    assert LookDue(t) ==> LookDue(s);
  }

  lemma ExhaustedStaysOnDisturb(s: State, voice: Option<ChannelId>)
    requires Exhausted(s) && Enabled(s, Disturb(voice))
    ensures !CanQueueAgain(Apply(s, Disturb(voice)))
  {
    hide Matched, Recent, HasQueued;
    var t := Apply(s, Disturb(voice));
    assert LookDue(t) ==> LookDue(s);
  }

  lemma ExhaustedStaysOnOthers(s: State, e: Event)
    requires Exhausted(s) && (e.Begin? || e.Crash?)
    ensures !CanQueueAgain(Apply(s, e)) && Apply(s, e).log == s.log
  {
    hide Orderly, HasQueued;
    var t := Apply(s, e);
    assert LookDue(t) ==> LookDue(s);
    assert LookFound(t) ==> LookFound(s);
    assert EnqueueDue(t) ==> EnqueueDue(s);
  }

  lemma ExhaustedStays(s: State, e: Event)
    requires Exhausted(s) && Enabled(s, e)
    ensures Exhausted(Apply(s, e)) && s.log <= Apply(s, e).log && !QueuedSince(s, Apply(s, e))
  {
    hide Orderly, CanQueueAgain, HasQueued, Take, Proceed;
    EventKeepsOrderly(s, e);
    match e {
      case TakeNext(works) => ExhaustedStaysOnTake(s, works);
      case GoOn(w, passes, channel) => ExhaustedStaysOnProceed(s, w, passes, channel);
      case Disturb(voice) =>
        ExhaustedStaysOnDisturb(s, voice);
        StillQueued(s.log, Outside);
      case _ => ExhaustedStaysOnOthers(s, e);
    }
  }

  lemma {:induction false} ExhaustedForGood(s: State, events: seq<Event>)
    requires Exhausted(s) && Exec(Next, s, events).Some?
    ensures Exhausted(Exec(Next, s, events).value) && !QueuedSince(s, Exec(Next, s, events).value)
    ensures s.log <= Exec(Next, s, events).value.log
  {
    hide Exhausted, Apply, Enabled;
    if events != [] {
      var t := Exec(Next, s, events[..|events| - 1]).value;
      ExhaustedForGood(s, events[..|events| - 1]);
      ExhaustedStays(t, events[|events| - 1]);
      NotQueuedTwice(s, t, Exec(Next, s, events).value);
    }
  }

  lemma NotQueuedTwice(s: State, t: State, u: State)
    requires s.log <= t.log <= u.log && !QueuedSince(s, t) && !QueuedSince(t, u)
    ensures !QueuedSince(s, u)
  {
    forall i | |s.log| <= i < |u.log|
      ensures !u.log[i].Queued?
    {
      if i < |t.log| {
        assert u.log[i] == t.log[i];
      }
    }
  }

  // ---------------------------------------------------------------- and how it then comes about

  /** Whatever is in front of a request can be taken without changing the player. */
  lemma {:induction false} Drained(start: State, s: State, i: nat) returns (t: State)
    requires Reaches(Next, start, s) && Orderly(s) && HasQueued(s.log) && i < |s.mailbox|
    ensures Reaches(Next, start, t) && Orderly(t) && t.mailbox == s.mailbox[i..]
    ensures t.log == s.log && t.voice == s.voice && t.expected == s.expected && t.first == s.first
    ensures var w := s.mailbox[i].run; w in s.runs ==> w in t.runs && t.runs[w] == s.runs[w]
    decreases i
  {
    hide Reaches, Orderly, Take;
    t := s;
    if i > 0 {
      var u := Apply(s, TakeNext(false));
      ReachesBy(Next, start, s, TakeNext(false));
      EventKeepsOrderly(s, TakeNext(false));
      TakenForNothing(s, i);
      t := Drained(start, u, i - 1);
      assert s.mailbox[1..][i - 1..] == s.mailbox[i..];
    }
  }

  lemma TakenForNothing(s: State, i: nat)
    requires Orderly(s) && HasQueued(s.log) && 0 < i < |s.mailbox|
    ensures var t, w := Take(s, false), s.mailbox[i].run;
      && t.mailbox == s.mailbox[1..] && t.log == s.log && t.voice == s.voice && t.expected == s.expected
         && t.first == s.first
      && (w in s.runs ==> w in t.runs && t.runs[w] == s.runs[w])
  {
    assert AskNamed(s, s.mailbox[0].ask);
    hide Recent, HasQueued;
  }

  lemma SecondByRequest(start: State, s: State, i: nat) returns (t: State)
    requires Reaches(Next, start, s) && Orderly(s) && HasQueued(s.log) && start.log <= s.log && Receptive(s)
    requires i < |s.mailbox| && s.mailbox[i].ask.Enqueue? && s.mailbox[i].ask.revision == s.Revision()
    ensures Reaches(Next, start, t) && QueuedSince(start, t)
  {
    hide Reaches, Orderly;
    var u := Drained(start, s, i);
    ReachesBy(Next, start, u, TakeNext(true));
    t := Apply(u, TakeNext(true));
    assert t.log == s.log + [Queued(u.mailbox[0].run)];
    assert t.log[|s.log|].Queued?;
  }

  lemma SecondByLook(start: State, s: State, w: RunId) returns (t: State)
    requires Reaches(Next, start, s) && Orderly(s) && HasQueued(s.log) && start.log <= s.log && Receptive(s)
    requires w in s.runs && s.runs[w].Answered? && s.runs[w].ask.LookLast? && s.runs[w].revision == s.Revision()
    ensures Reaches(Next, start, t) && QueuedSince(start, t)
  {
    hide Reaches, Orderly;
    var e := GoOn(w, true, 0);
    ReachesBy(Next, start, s, e);
    EventKeepsOrderly(s, e);
    t := SecondByRequest(start, Apply(s, e), |s.mailbox|);
  }

  lemma SecondByAsking(start: State, s: State, w: RunId) returns (t: State)
    requires Reaches(Next, start, s) && Orderly(s) && HasQueued(s.log) && start.log <= s.log && Receptive(s)
    requires w in s.runs && s.runs[w].Asking? && s.runs[w].ask.LookLast?
    ensures Reaches(Next, start, t) && QueuedSince(start, t)
  {
    hide Reaches, Orderly, HasQueued;
    AskIsSent(s, w);
    var i :| 0 <= i < |s.mailbox| && s.mailbox[i] == Request(w, s.runs[w].ask);
    var u := Drained(start, s, i);
    ReachesBy(Next, start, u, TakeNext(true));
    EventKeepsOrderly(u, TakeNext(true));
    t := SecondByLook(start, Apply(u, TakeNext(true)), w);
  }

  lemma AskIsSent(s: State, w: RunId)
    requires Orderly(s) && w in s.runs && s.runs[w].Asking?
    ensures Request(w, s.runs[w].ask) in s.mailbox
  {
  }

  lemma SecondByLookDue(start: State, s: State, w: RunId) returns (t: State)
    requires Reaches(Next, start, s) && Orderly(s) && HasQueued(s.log) && start.log <= s.log && Receptive(s)
    requires w in s.runs && WillLook(s.runs[w], s.expected)
    ensures Reaches(Next, start, t) && QueuedSince(start, t)
  {
    hide Reaches, Orderly;
    if s.runs[w].Asking? {
      t := SecondByAsking(start, s, w);
    } else {
      var e := GoOn(w, true, if s.runs[w].ask.LookAgain? then s.runs[w].voice.value else 0);
      ReachesBy(Next, start, s, e);
      EventKeepsOrderly(s, e);
      t := SecondByAsking(start, Apply(s, e), w);
    }
  }

  lemma SecondBatchComes(s: State) returns (t: State)
    requires Orderly(s) && HasQueued(s.log) && CanQueueAgain(s)
    ensures Reaches(Next, s, t) && QueuedSince(s, t)
  {
    hide Reaches, Orderly;
    ReachesItself(Next, s);
    if Receptive(s) && EnqueueDue(s) {
      var i :| 0 <= i < |s.mailbox| && s.mailbox[i].ask.Enqueue? && s.mailbox[i].ask.revision == s.Revision();
      t := SecondByRequest(s, s, i);
    } else if Receptive(s) && LookFound(s) {
      var w :| w in s.runs && s.runs[w].Answered? && s.runs[w].ask.LookLast? && s.runs[w].revision == s.Revision();
      t := SecondByLook(s, s, w);
    } else {
      var w :| w in s.runs && WillLook(s.runs[w], s.expected);
      if s.voice.Some? {
        t := SecondByLookDue(s, s, w);
      } else {
        var e := Disturb(Some(0));
        ReachesBy(Next, s, s, e);
        EventKeepsOrderly(s, e);
        StillQueued(s.log, Outside);
        t := SecondByLookDue(s, Apply(s, e), w);
      }
    }
  }

  lemma StillQueued(log: seq<Change>, change: Change)
    requires HasQueued(log)
    ensures HasQueued(log + [change])
  {
    var i :| 0 <= i < |log| && log[i].Queued?;
    assert (log + [change])[i].Queued?;
  }

  /** `execute` alone does not rule a second batch out. Once the batch is queued, a second one
      can follow if and only if an execution of the envelope still has its last look before it,
      or has had it, or has sent the batch, with the revision at hand; the connection it needs
      is there or may yet come; and the revision is not used up. */
  lemma SecondBatchIff(expected: nat, revision: nat, voice: Option<ChannelId>, s: State)
    requires Reaches(Next, Start(expected, revision, voice), s) && HasQueued(s.log)
    ensures (exists t :: Reaches(Next, s, t) && QueuedSince(s, t)) <==> CanQueueAgain(s)
  {
    var before :| Exec(Next, Start(expected, revision, voice), before) == Some(s);
    RunIsOrderly(expected, revision, voice, before);
    hide Orderly, CanQueueAgain, QueuedSince;
    if CanQueueAgain(s) {
      var t := SecondBatchComes(s);
    } else {
      forall t | Reaches(Next, s, t)
        ensures !QueuedSince(s, t)
      {
        var events :| Exec(Next, s, events) == Some(t);
        ExhaustedForGood(s, events);
      }
    }
  }

  // ---------------------------------------------------------------- two executions that overlap

  /** Two overlapping executions of one envelope, on a connected player. */
  function Both(log: seq<Change>, mailbox: seq<Request>, first: Stage, second: Stage): State {
    State(0, 0, log, Some(9), mailbox, map[0 := first, 1 := second], 2)
  }

  lemma BothLook()
    ensures Reaches(Next, Start(0, 0, Some(9)),
      Both([], [], Answered(LookAgain, 0, Some(9)), Answered(LookAgain, 0, Some(9))))
  {
    hide Reaches;
    var start := Start(0, 0, Some(9));
    assert Reaches(Next, start, start) by {
      ReachesItself(Next, start);
    }
    ReachesBy(Next, start, start, Begin);
    ReachesBy(Next, start, Apply(start, Begin), Begin);
    var s := Both([], [Request(0, LookFirst), Request(1, LookFirst)], Asking(LookFirst), Asking(LookFirst));
    assert s == Apply(Apply(start, Begin), Begin);
    ReachesBy(Next, start, s, TakeNext(true));
    s := Apply(s, TakeNext(true));
    ReachesBy(Next, start, s, TakeNext(true));
    s := Apply(s, TakeNext(true));
    assert s == Both([], [], Answered(LookFirst, 0, Some(9)), Answered(LookFirst, 0, Some(9)));
    ReachesBy(Next, start, s, GoOn(0, true, 9));
    s := Apply(s, GoOn(0, true, 9));
    ReachesBy(Next, start, s, GoOn(1, true, 9));
    s := Apply(s, GoOn(1, true, 9));
    ReachesBy(Next, start, s, TakeNext(true));
    s := Apply(s, TakeNext(true));
    ReachesBy(Next, start, s, TakeNext(true));
    s := Apply(s, TakeNext(true));
    assert s == Both([], [], Answered(LookAgain, 0, Some(9)), Answered(LookAgain, 0, Some(9)));
  }

  /** The last two exchanges of an execution that passed its check. */
  lemma LastExchanges(start: State, s: State, w: RunId)
    requires Reaches(Next, start, s) && s.mailbox == [] && s.voice == Some(9) && s.expected == s.first == 0
      && |s.log| < 2
    requires w in s.runs && s.runs[w] == Answered(LookAgain, 0, Some(9))
    ensures Reaches(Next, start,
      s.(log := s.log + [Queued(w)], runs := s.runs[w := Answered(Enqueue(|s.log|, 0), |s.log| + 1, Some(9))]))
  {
    hide Reaches;
    var t := s.(runs := s.runs[w := Answered(LookLast(0), |s.log|, Some(9))]);
    ReachesBy(Next, start, s, GoOn(w, true, 9));
    ReachesBy(Next, start, Apply(s, GoOn(w, true, 9)), TakeNext(true));
    assert Apply(Apply(s, GoOn(w, true, 9)), TakeNext(true)) == t;
    ReachesBy(Next, start, t, GoOn(w, true, 9));
    ReachesBy(Next, start, Apply(t, GoOn(w, true, 9)), TakeNext(true));
    var r := s.(log := s.log + [Queued(w)], runs := s.runs[w := Answered(Enqueue(|s.log|, 0), |s.log| + 1, Some(9))]);
    var q := Apply(Apply(t, GoOn(w, true, 9)), TakeNext(true));
    assert q.runs == r.runs && q.mailbox == r.mailbox && q.log == r.log;
  }

  /** The last look accepts whatever revision it finds, so two overlapping executions that
      have both passed the check queue the same batch twice. */
  lemma OverlapQueuesTwice()
    ensures exists s :: Reaches(Next, Start(0, 0, Some(9)), s) && s.log == [Queued(0), Queued(1)]
  {
    hide Reaches;
    var passed := Answered(LookAgain, 0, Some(9));
    BothLook();
    var s := Both([], [], passed, passed);
    LastExchanges(Start(0, 0, Some(9)), s, 0);
    var t := s.(log := s.log + [Queued(0)], runs := s.runs[0 := Answered(Enqueue(0, 0), 1, Some(9))]);
    LastExchanges(Start(0, 0, Some(9)), t, 1);
  }
}
