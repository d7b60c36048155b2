/** The circuit breaker around every shared-store call (`circuitState` and `guardStore` of
    src/lib/shared-store.ts). `guardStore` runs in two atomic pieces, before and after it
    awaits the store; any number of calls may be between the two. */
module Circuit {
  import opened Wrappers

  const CIRCUIT_BASE_MS: nat := 5000
  const CIRCUIT_MAX_MS: nat := 60000

  datatype Phase = Closed | Open | HalfOpen

  datatype Breaker = Breaker(failures: nat, openUntil: int, probing: bool, skipped: nat)

  const INITIAL: Breaker := Breaker(0, 0, false, 0)

  function PhaseAt(b: Breaker, now: int): Phase {
    if b.failures == 0 then Closed else if now < b.openUntil then Open else HalfOpen
  }

  function Pow2(n: nat): nat {
    if n == 0 then 1 else 2 * Pow2(n - 1)
  }

  function Min(x: nat, y: nat): nat {
    if x <= y then x else y
  }

  /** Line 283. */
  function Backoff(failures: nat): nat
    requires failures >= 1
  {
    Min(CIRCUIT_MAX_MS, CIRCUIT_BASE_MS * Pow2(Min(16, failures - 1)))
  }

  datatype Entry = Skipped | Started(probe: bool)

  /** Lines 257-265: up to the call of the store. */
  function Enter(b: Breaker, now: int): (Breaker, Entry) {
    var phase := PhaseAt(b, now);
    if phase == Open || (phase == HalfOpen && b.probing) then
      (b.(skipped := b.skipped + 1), Skipped)
    else if phase == HalfOpen then (b.(probing := true), Started(true))
    else (b, Started(false))
  }

  /** Lines 275-288: after the store answered, failed or timed out. */
  function Leave(b: Breaker, now: int, ok: bool, probe: bool): Breaker {
    var settled :=
      if ok then b.(failures := 0, openUntil := 0)
      else b.(failures := b.failures + 1, openUntil := now + Backoff(b.failures + 1));
    if probe then settled.(probing := false) else settled
  }

  /** The module-level `circuit` object. */
  class GuardedStore {
    var failures: nat
    var openUntil: int
    var probing: bool
    var skipped: nat

    ghost function View(): Breaker
      reads this
    {
      Breaker(failures, openUntil, probing, skipped)
    }

    constructor ()
      ensures View() == INITIAL
    {
      failures, openUntil, probing, skipped := 0, 0, false, 0;
    }

    method BeginCall(now: int) returns (entry: Entry)
      modifies this
      ensures (View(), entry) == Enter(old(View()), now)
      ensures old(failures) == 0 ==> entry == Started(false)
      ensures old(failures) != 0 && now < old(openUntil) ==> entry == Skipped
      ensures entry == Started(true) ==> probing && !old(probing)
    {
      var open := failures != 0 && now < openUntil;
      var halfOpen := failures != 0 && now >= openUntil;
      if open || (halfOpen && probing) {
        skipped := skipped + 1;
        return Skipped;
      }
      if halfOpen {
        probing := true;
      }
      return Started(halfOpen);
    }

    method EndCall(now: int, ok: bool, probe: bool)
      modifies this
      ensures View() == Leave(old(View()), now, ok, probe)
      ensures ok ==> forall at: int :: PhaseAt(View(), at) == Closed
      ensures !ok ==> forall at: int ::
                PhaseAt(View(), at) == (if at < now + Backoff(old(failures) + 1) then Open else HalfOpen)
      ensures probing == (old(probing) && !probe)
    {
      if ok {
        failures, openUntil := 0, 0;
      } else {
        failures := failures + 1;
        openUntil := now + Backoff(failures);
      }
      if probe {
        probing := false;
      }
    }
  }

  // All calls on one instance, interleaved.

  /** `calls` are the started calls that have not ended, each with whether it is a probe.
      `probes` counts the probes started since the last success, and `lastProbe` is when the
      last of them started. */
  datatype System = System(b: Breaker, calls: map<nat, bool>, now: int, probes: nat, lastProbe: int)

  const START: System := System(INITIAL, map[], 0, 0, 0)

  datatype Event = Begin(id: nat, at: int) | End(id: nat, ok: bool, at: int)

  /** Time does not run backwards, a new call has a new number, and only a started call ends. */
  predicate Possible(s: System, e: Event) {
    match e
    case Begin(id, at) => s.now <= at && id !in s.calls
    case End(id, _, at) => s.now <= at && id in s.calls
  }

  function Step(s: System, e: Event): System
    requires Possible(s, e)
  {
    match e
    case Begin(id, at) =>
      var (b, entry) := Enter(s.b, at);
      if entry == Skipped then s.(b := b, now := at)
      else if entry.probe then System(b, s.calls[id := true], at, s.probes + 1, at)
      else s.(b := b, calls := s.calls[id := false], now := at)
    case End(id, ok, at) =>
      System(Leave(s.b, at, ok, s.calls[id]), s.calls - {id}, at, if ok then 0 else s.probes, s.lastProbe)
  }

  predicate StartsCall(s: System, e: Event) {
    e.Begin? && Enter(s.b, e.at).1.Started?
  }

  predicate StartsProbe(s: System, e: Event) {
    e.Begin? && Enter(s.b, e.at).1 == Started(true)
  }

  /** How long after the `i`-th probe since the last success the next one may start. */
  function Gap(i: nat): nat {
    Min(CIRCUIT_MAX_MS, CIRCUIT_BASE_MS * Pow2(i))
  }

  ghost predicate Invariant(s: System) {
    && s.now >= 0
    && (forall i, j :: i in s.calls && j in s.calls && s.calls[i] && s.calls[j] ==> i == j)
    && (s.b.probing <==> exists i :: i in s.calls && s.calls[i])
    && (s.b.failures == 0 <==> s.b.openUntil == 0)
    && s.b.openUntil >= 0
    && (s.probes >= 1 && s.b.probing ==> s.b.failures >= s.probes)
    && (s.probes >= 1 ==> s.lastProbe <= s.now)
    && (s.probes >= 1 && !s.b.probing ==> s.b.failures >= s.probes + 1 && s.b.openUntil >= s.lastProbe + Gap(s.probes))
  }

  lemma Pow2Grows(m: nat, n: nat)
    requires m <= n
    ensures 1 <= Pow2(m) <= Pow2(n)
  {
    if m < n {
      Pow2Grows(m, n - 1);
    }
  }

  /** The cap on the exponent never shows, and the backoff only grows. */
  lemma BackoffIsGap(failures: nat, i: nat)
    requires failures >= i + 1
    ensures Backoff(failures) >= Gap(i)
    ensures failures == i + 1 ==> Backoff(failures) == Gap(i)
  {
    assert Pow2(4) == 16;
    var e := Min(16, failures - 1);
    if e < 16 {
      Pow2Grows(i, e);
    } else {
      Pow2Grows(4, 16);
      if failures == i + 1 {
        Pow2Grows(4, i);
      }
    }
  }

  lemma BeginKeepsInvariant(s: System, e: Event)
    requires Invariant(s) && Possible(s, e) && e.Begin?
    ensures Invariant(Step(s, e))
  {
    hide Backoff, Gap;
    var next := Step(s, e);
    if StartsProbe(s, e) {
      assert next.calls[e.id];
    } else if StartsCall(s, e) {
      assert forall i :: i in s.calls ==> next.calls[i] == s.calls[i];
    }
  }

  lemma EndKeepsInvariant(s: System, e: Event)
    requires Invariant(s) && Possible(s, e) && e.End?
    ensures Invariant(Step(s, e))
  {
    var next := Step(s, e);
    assert forall i :: i in next.calls ==> i in s.calls && next.calls[i] == s.calls[i];
    if s.b.probing && !s.calls[e.id] {
      var p :| p in s.calls && s.calls[p];
      assert p in next.calls && next.calls[p];
    }
    if !e.ok && s.probes >= 1 {
      BackoffIsGap(s.b.failures + 1, s.probes);
    }
    BackoffIsGap(s.b.failures + 1, 0);
    assert Gap(0) == CIRCUIT_BASE_MS;
    hide Backoff, Gap;
  }

  /** Whatever starts a call of the store: the circuit is not open at that moment, and a probe
      starts only when no other probe is under way. */
  lemma NothingStartsWhileOpen(s: System, e: Event)
    requires Invariant(s) && Possible(s, e) && StartsCall(s, e)
    ensures e.at >= s.b.openUntil
    ensures StartsProbe(s, e) ==> forall i :: i in s.calls ==> !s.calls[i]
  {
  }

  /** Probes since the last success are spread out: the one after the i-th starts at least
      min(60000, 5000 * 2^i) ms after it. */
  lemma ProbeGap(s: System, e: Event)
    requires Invariant(s) && Possible(s, e) && StartsProbe(s, e) && s.probes >= 1
    ensures e.at >= s.lastProbe + Gap(s.probes)
  {
  }

  ghost predicate PossibleRun(s: System, run: seq<Event>)
    decreases |run|
  {
    run == [] || (Possible(s, run[0]) && PossibleRun(Step(s, run[0]), run[1..]))
  }

  /** What must hold at every step of a run. */
  ghost predicate Safe(s: System, run: seq<Event>)
    requires PossibleRun(s, run)
    decreases |run|
  {
    && (forall i, j :: i in s.calls && j in s.calls && s.calls[i] && s.calls[j] ==> i == j)
    && (s.b.failures == 0 <==> s.b.openUntil == 0)
    && (run != [] ==>
          && (StartsCall(s, run[0]) ==> run[0].at >= s.b.openUntil)
          && (StartsProbe(s, run[0]) && s.probes >= 1 ==> run[0].at - s.lastProbe >= Gap(s.probes))
          && Safe(Step(s, run[0]), run[1..]))
  }

  /** Every interleaving of calls on an instance is safe, from its first call on. */
  lemma {:induction false} EveryRunIsSafe(s: System, run: seq<Event>)
    requires Invariant(s) && PossibleRun(s, run)
    ensures Safe(s, run)
    decreases |run|
  {
    if run != [] {
      var e := run[0];
      if e.Begin? {
        BeginKeepsInvariant(s, e);
        if StartsCall(s, e) {
          NothingStartsWhileOpen(s, e);
        }
        if StartsProbe(s, e) && s.probes >= 1 {
          ProbeGap(s, e);
        }
      } else {
        EndKeepsInvariant(s, e);
      }
      EveryRunIsSafe(Step(s, e), run[1..]);
    }
  }

  lemma RunsAreSafe(run: seq<Event>)
    requires PossibleRun(START, run)
    ensures Safe(START, run)
  {
    EveryRunIsSafe(START, run);
  }

  // What every call gets, read off the events alone.

  /** Failures since the last success. */
  function Failures(run: seq<Event>): nat {
    if run == [] then 0
    else
      var e := run[|run| - 1];
      var before := Failures(run[..|run| - 1]);
      if e.Begin? then before else if e.ok then 0 else before + 1
  }

  /** When the last failure was. */
  function LastFailure(run: seq<Event>): int {
    if run == [] then 0
    else
      var e := run[|run| - 1];
      if e.End? && !e.ok then e.at else LastFailure(run[..|run| - 1])
  }

  /** What a call is due at time `at` after the events: it starts if the last call to end
      succeeded, or none failed; it is skipped until min(60000, 5000 * 2^i) ms after the last
      failure, the i-th since the last success counting from 0; from then on one probe at a time. */
  function Due(run: seq<Event>, at: int): Entry
    decreases |run|, 1
  {
    if Failures(run) == 0 then Started(false)
    else if at < LastFailure(run) + Gap(Failures(run) - 1) || ProbeOut(run).Some? then Skipped
    else Started(true)
  }

  /** The probe that was started and has not ended, if there is one. */
  function ProbeOut(run: seq<Event>): Option<nat>
    decreases |run|, 0
  {
    if run == [] then None
    else
      var e := run[|run| - 1];
      var before := run[..|run| - 1];
      if e.Begin? then (if Due(before, e.at) == Started(true) then Some(e.id) else ProbeOut(before))
      else if ProbeOut(before) == Some(e.id) then None
      else ProbeOut(before)
  }

  /** How many calls were due to be skipped. */
  function Skips(run: seq<Event>): nat {
    if run == [] then 0
    else
      var e, before := run[|run| - 1], run[..|run| - 1];
      Skips(before) + if e.Begin? && Due(before, e.at) == Skipped then 1 else 0
  }

  /** The breaker and the calls in flight are what the events make of them. */
  ghost predicate Tracks(s: System, run: seq<Event>) {
    && s.b.failures == Failures(run)
    && (Failures(run) > 0 ==> s.b.openUntil == LastFailure(run) + Gap(Failures(run) - 1))
    && (s.b.probing <==> ProbeOut(run).Some?)
    && (forall i :: i in s.calls ==> (s.calls[i] <==> ProbeOut(run) == Some(i)))
    && (ProbeOut(run).Some? ==> ProbeOut(run).value in s.calls)
    && s.b.skipped == Skips(run)
  }

  lemma TracksEntry(s: System, run: seq<Event>, at: int)
    requires Tracks(s, run)
    ensures Enter(s.b, at).1 == Due(run, at)
  {
    hide Failures, LastFailure, ProbeOut, Skips;
  }

  lemma Snoc(run: seq<Event>, e: Event)
    ensures var all := run + [e];
            && Failures(all) == (if e.Begin? then Failures(run) else if e.ok then 0 else Failures(run) + 1)
            && LastFailure(all) == (if e.End? && !e.ok then e.at else LastFailure(run))
            && ProbeOut(all) == (if e.Begin? && Due(run, e.at) == Started(true) then Some(e.id)
                                 else if e.End? && ProbeOut(run) == Some(e.id) then None
                                 else ProbeOut(run))
            && Skips(all) == Skips(run) + (if e.Begin? && Due(run, e.at) == Skipped then 1 else 0)
  {
    assert (run + [e])[..|run|] == run;
    hide Due;
  }

  lemma TracksStep(s: System, run: seq<Event>, e: Event)
    requires Tracks(s, run) && Possible(s, e)
    ensures Tracks(Step(s, e), run + [e])
  {
    Snoc(run, e);
    if e.Begin? {
      TracksEntry(s, run, e.at);
      hide Due;
    } else {
      BackoffIsGap(s.b.failures + 1, s.b.failures);
      hide Backoff;
    }
    hide Failures, LastFailure, ProbeOut, Skips, Gap;
  }

  ghost function After(s: System, run: seq<Event>): System
    requires PossibleRun(s, run)
    decreases |run|
  {
    if run == [] then s else After(Step(s, run[0]), run[1..])
  }

  lemma {:induction false} TracksRun(s: System, before: seq<Event>, run: seq<Event>)
    requires Tracks(s, before) && PossibleRun(s, run)
    ensures Tracks(After(s, run), before + run)
    decreases |run|
  {
    if run == [] {
      assert before + run == before;
    } else {
      TracksStep(s, before, run[0]);
      hide Tracks, Step, Possible;
      TracksRun(Step(s, run[0]), before + [run[0]], run[1..]);
      assert before + [run[0]] + run[1..] == before + run;
    }
  }

  /** After every interleaving, from the first call on, a call gets exactly what is due, and the
      skipped calls have been counted. */
  lemma EveryCallGetsItsDue(run: seq<Event>, at: int)
    requires PossibleRun(START, run)
    ensures Enter(After(START, run).b, at).1 == Due(run, at) && After(START, run).b.skipped == Skips(run)
  {
    TracksRun(START, [], run);
    assert [] + run == run;
    hide Due, Enter, Tracks, After;
    TracksEntry(After(START, run), run, at);
  }

  predicate NoFailure(run: seq<Event>) {
    forall e :: e in run ==> e.End? ==> e.ok
  }

  lemma {:induction false} NoFailureSince(before: seq<Event>, ok: Event, later: seq<Event>)
    requires ok.End? && ok.ok && NoFailure(later)
    ensures Failures(before + [ok] + later) == 0
  {
    if later == [] {
      Snoc(before, ok);
      assert before + [ok] + later == before + [ok];
    } else {
      var n := |later| - 1;
      assert later[n] in later;
      NoFailureSince(before, ok, later[..n]);
      Snoc(before + [ok] + later[..n], later[n]);
      assert before + [ok] + later[..n] + [later[n]] == before + [ok] + later;
    }
  }

  /** A success closes the circuit: until a call fails again, every call starts, and none as a probe. */
  lemma SuccessCloses(before: seq<Event>, ok: Event, later: seq<Event>, at: int)
    requires PossibleRun(START, before + [ok] + later) && ok.End? && ok.ok && NoFailure(later)
    ensures Enter(After(START, before + [ok] + later).b, at).1 == Started(false)
  {
    NoFailureSince(before, ok, later);
    EveryCallGetsItsDue(before + [ok] + later, at);
  }

  /** A failure opens it: until another call ends, every call before the end of the backoff is skipped. */
  lemma FailureOpens(before: seq<Event>, failed: Event, later: seq<Event>, at: int)
    requires PossibleRun(START, before + [failed] + later) && failed.End? && !failed.ok
    requires forall e :: e in later ==> e.Begin?
    requires at < failed.at + Gap(Failures(before))
    ensures Enter(After(START, before + [failed] + later).b, at).1 == Skipped
  {
    FailureStays(before, failed, later);
    EveryCallGetsItsDue(before + [failed] + later, at);
  }

  lemma {:induction false} FailureStays(before: seq<Event>, failed: Event, later: seq<Event>)
    requires failed.End? && !failed.ok && forall e :: e in later ==> e.Begin?
    ensures Failures(before + [failed] + later) == Failures(before) + 1
    ensures LastFailure(before + [failed] + later) == failed.at
  {
    if later == [] {
      Snoc(before, failed);
      assert before + [failed] + later == before + [failed];
    } else {
      var n := |later| - 1;
      assert later[n] in later;
      FailureStays(before, failed, later[..n]);
      Snoc(before + [failed] + later[..n], later[n]);
      assert before + [failed] + later[..n] + [later[n]] == before + [failed] + later;
    }
  }
}
