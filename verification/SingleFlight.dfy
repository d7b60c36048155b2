/** At most one run in flight (src/lib/single-flight.ts): a call made while one is running gets
    the same promise. A promise is a number; `Clear` is the callback of its `finally`, which
    runs some time after the promise it wraps has settled. */
module SingleFlight {
  import opened Wrappers

  class SingleFlight {
    var current: Option<nat>

    constructor ()
      ensures current == None
    {
      current := None;
    }

    method Run(next: nat) returns (p: nat)
      modifies this
      ensures p == Promise(old(current), next) && current == Some(p)
    {
      if current.Some? {
        return current.value;
      }
      current := Some(next);
      return next;
    }

    method Clear(p: nat)
      modifies this
      ensures current == Cleared(old(current), p)
    {
      if current == Some(p) {
        current := None;
      }
    }
  }

  /** The promise a call gets: the one in flight, or that of the run it starts. */
  function Promise(current: Option<nat>, next: nat): nat {
    current.GetOr(next)
  }

  function Cleared(current: Option<nat>, p: nat): Option<nat> {
    if current == Some(p) then None else current
  }

  /** `running` are the started runs that have not settled, `clearing` the settled ones whose
      callback has not run yet, and `given` the promise each call got. */
  datatype System = System(current: Option<nat>, running: set<nat>, clearing: set<nat>, given: map<nat, nat>)

  datatype Event = Call(id: nat) | Settle(p: nat) | Clear(p: nat)

  predicate Possible(s: System, e: Event) {
    match e
    case Call(id) => id !in s.given
    case Settle(p) => p in s.running
    case Clear(p) => p in s.clearing
  }

  function Step(s: System, e: Event): System {
    match e
    case Call(id) =>
      var p := Promise(s.current, id);
      System(Some(p), if s.current.None? then s.running + {p} else s.running, s.clearing, s.given[id := p])
    case Settle(p) => s.(running := s.running - {p}, clearing := s.clearing + {p})
    case Clear(p) => s.(current := Cleared(s.current, p), clearing := s.clearing - {p})
  }

  /** A run that has not been cleared is the current one, and there is one exactly when
      `current` is set. */
  predicate Invariant(s: System) {
    && s.running !! s.clearing
    && s.running + s.clearing == match s.current case Some(p) => {p} case None => {}
  }

  /** Every step keeps at most one run unsettled; a call made meanwhile gets that run's
      promise, and with none in flight it starts its own; the test in the callback never fails. */
  lemma StepKeepsInvariant(s: System, e: Event)
    requires Invariant(s) && Possible(s, e)
    ensures Invariant(Step(s, e))
    ensures forall p, q :: p in s.running && q in s.running ==> p == q
    ensures e.Call? ==> forall p :: p in s.running ==> Step(s, e).given[e.id] == p
    ensures e.Call? && s.running + s.clearing == {} ==> Step(s, e).given[e.id] == e.id && Step(s, e).running == {e.id}
    ensures e.Call? ==> Step(s, e).given[e.id] in s.running + s.clearing + {e.id}
    ensures e.Clear? ==> s.current == Some(e.p) && Step(s, e).current == None
  {
    var whole := s.running + s.clearing;
    assert forall p :: p in s.running || p in s.clearing <==> p in whole;
    if e.Settle? {
      assert Step(s, e).running + Step(s, e).clearing == whole;
    }
    if e.Clear? {
      assert s.running + (s.clearing - {e.p}) == whole - {e.p};
    }
  }

  predicate PossibleRun(s: System, events: seq<Event>)
    decreases |events|
  {
    events == [] || (Possible(s, events[0]) && PossibleRun(Step(s, events[0]), events[1..]))
  }

  function After(s: System, events: seq<Event>): System
    decreases |events|
  {
    if events == [] then s else After(Step(s, events[0]), events[1..])
  }

  /** From a fresh object on, every interleaving leaves at most one run unsettled, and it is
      the one that a further call would get. */
  lemma {:induction false} RunsKeepInvariant(s: System, events: seq<Event>)
    requires Invariant(s) && PossibleRun(s, events)
    ensures var last := After(s, events);
            && Invariant(last)
            && forall p, id :: p in last.running ==> Promise(last.current, id) == p
    decreases |events|
  {
    if events == [] {
      assert forall p :: p in s.running ==> p in s.running + s.clearing;
    } else {
      StepKeepsInvariant(s, events[0]);
      RunsKeepInvariant(Step(s, events[0]), events[1..]);
    }
  }
}
