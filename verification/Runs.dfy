/** Runs of a step machine. `next` takes a step from a state, if that step may happen there;
    a sequence of steps that may all happen is one interleaving of the machine. */
module Runs {
  import opened Options

  /** The state a sequence of steps leads to, if every step of it can be taken. */
  function Exec<S, E>(next: (S, E) -> Option<S>, s: S, events: seq<E>): Option<S> {
    if events == [] then Some(s)
    else
      var before := Exec(next, s, events[..|events| - 1]);
      if before.None? then None else next(before.value, events[|events| - 1])
  }

  lemma ExecAppend<S, E>(next: (S, E) -> Option<S>, s: S, events: seq<E>, e: E)
    ensures Exec(next, s, events + [e]) ==
      if Exec(next, s, events).None? then None else next(Exec(next, s, events).value, e)
  {
    assert (events + [e])[..|events|] == events;
  }

  ghost predicate Reaches<S, E(!new)>(next: (S, E) -> Option<S>, s: S, t: S) {
    exists events :: Exec(next, s, events) == Some(t)
  }

  lemma ReachesItself<S, E(!new)>(next: (S, E) -> Option<S>, s: S)
    ensures Reaches(next, s, s)
  {
    assert Exec(next, s, []) == Some(s);
  }

  lemma ReachesBy<S, E(!new)>(next: (S, E) -> Option<S>, s: S, t: S, e: E)
    requires Reaches(next, s, t) && next(t, e).Some?
    ensures Reaches(next, s, next(t, e).value)
  {
    var events :| Exec(next, s, events) == Some(t);
    ExecAppend(next, s, events, e);
  }

  /** Whatever a run does it does in two halves, cut anywhere. */
  lemma {:induction false} ExecSplits<S, E>(next: (S, E) -> Option<S>, s: S, first: seq<E>, second: seq<E>)
    ensures Exec(next, s, first + second) ==
      if Exec(next, s, first).None? then None else Exec(next, Exec(next, s, first).value, second)
  {
    if second == [] {
      assert first + second == first;
    } else {
      ExecSplits(next, s, first, second[..|second| - 1]);
      assert (first + second)[..|first + second| - 1] == first + second[..|second| - 1];
    }
  }
}
