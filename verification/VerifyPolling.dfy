/** Polling Panta for an order's verification (`runVerify` of src/components/PrimaryBuyPanel.tsx,
    lines 471-530), for any latency of its requests. */
module VerifyPolling {

  const VERIFY_BACKOFF_MS: seq<nat> := [1000, 2000, 2000, 3000, 5000, 8000]
  const VERIFY_BUDGET_MS: nat := 30000

  /** Order status in a reply; a missing status counts as pending. */
  datatype Status = ConfirmedStatus | FailedStatus | ExpiredStatus | PendingStatus

  /** A status, a rate limit or upstream or network error, or any other API error. */
  datatype Reply = Ok(status: Status) | Transient | Refused

  datatype Outcome = Confirmed | Failed | Error | Timeout

  /** `reply(k)` answers a request made at tick `k`; it is read at tick `k + 1`. */
  datatype Env = Env(clock: nat -> int, reply: nat -> Reply, wake: (nat, nat) -> nat)

  ghost predicate Faithful(env: Env) {
    && (forall i: nat :: env.clock(i) <= env.clock(i + 1))
    && (forall i: nat, ms: nat :: env.clock(env.wake(i, ms)) >= env.clock(i) + ms)
  }

  function Delay(attempt: nat): (ms: nat)
    ensures 1000 <= ms <= 8000
  {
    VERIFY_BACKOFF_MS[if attempt < |VERIFY_BACKOFF_MS| then attempt else |VERIFY_BACKOFF_MS| - 1]
  }

  /** What one reply ends the loop with, if it does. */
  predicate Ends(r: Reply) {
    r.Refused? || (r.Ok? && r.status != PendingStatus)
  }

  function EndsWith(r: Reply): Outcome
    requires Ends(r)
  {
    if r.Refused? then Error else if r.status == ConfirmedStatus then Confirmed else Failed
  }

  /** How long the first `n` sleeps last in all. */
  function Slept(n: nat): nat {
    if n == 0 then 0 else Slept(n - 1) + Delay(n - 1)
  }

  /** A request that left the order open: the sleep after it, the `i`-th, began when its answer was
      read, for as long as the backoff says, was due to end at `due`, within the budget, and was
      followed by the next request. */
  ghost predicate SleptAfter(env: Env, start: nat, tick: nat, next: nat, due: int, i: nat) {
    && env.reply(tick) in {Ok(PendingStatus), Transient}
    && due == env.clock(tick + 1) + Delay(i) <= env.clock(start) + VERIFY_BUDGET_MS
    && next == env.wake(tick + 1, Delay(i))
    && env.clock(next) >= env.clock(tick) + Delay(i)
  }

  /** The requests from the first on, with a sleep after each but the last. */
  ghost predicate Polled(env: Env, start: nat, ticks: seq<nat>, wakings: seq<int>) {
    && |ticks| == |wakings| + 1 && ticks[0] == start
    && forall i {:trigger wakings[i]} :: 0 <= i < |wakings| ==>
         SleptAfter(env, start, ticks[i], ticks[i + 1], wakings[i], i)
  }

  lemma StillPolled(env: Env, start: nat, ticks: seq<nat>, wakings: seq<int>)
    requires Faithful(env) && Polled(env, start, ticks, wakings)
    requires var k := ticks[|wakings|];
             !Ends(env.reply(k)) && env.clock(k + 1) + Delay(|wakings|) <= env.clock(start) + VERIFY_BUDGET_MS
    ensures var k := ticks[|wakings|]; var delay := Delay(|wakings|);
            && env.clock(k + 1) + delay <= env.clock(env.wake(k + 1, delay))
            && Polled(env, start, ticks + [env.wake(k + 1, delay)], wakings + [env.clock(k + 1) + delay])
  {
    hide Delay, Faithful;
    var n := |wakings|;
    var k, delay := ticks[n], Delay(n);
    var next, due := env.wake(k + 1, delay), env.clock(k + 1) + delay;
    TimePasses(env, k, delay);
    assert SleptAfter(env, start, k, next, due, n);
    hide SleptAfter;
    var all, ends := ticks + [next], wakings + [due];
    forall i | 0 <= i < |ends| ensures SleptAfter(env, start, all[i], all[i + 1], ends[i], i) {
      assert i < n ==> wakings[i] == ends[i];
    }
  }

  lemma TimePasses(env: Env, k: nat, delay: nat)
    requires Faithful(env)
    ensures env.clock(k) <= env.clock(k + 1)
    ensures env.clock(k + 1) + delay <= env.clock(env.wake(k + 1, delay))
  {
  }

  /** At most 8 requests; no sleep starts that is due to end more than 30 s after the start;
      a timeout comes only after more than 22 s; and the outcome is what the last reply says,
      all earlier ones having left the order open. */
  method RunVerify(env: Env, start: nat) returns (outcome: Outcome, requests: seq<nat>, wakings: seq<int>, end: nat)
    requires Faithful(env)
    ensures 1 <= |requests| <= 8 && Polled(env, start, requests, wakings)
    ensures var last := env.reply(requests[|requests| - 1]);
            && (outcome == Confirmed <==> last == Ok(ConfirmedStatus))
            && (outcome == Failed <==> last == Ok(FailedStatus) || last == Ok(ExpiredStatus))
            && (outcome == Error <==> last == Refused)
            && (outcome == Timeout <==> last == Ok(PendingStatus) || last == Transient)
    ensures end == requests[|requests| - 1] + 1
    ensures outcome == Timeout ==> env.clock(end) > env.clock(start) + 22000
  {
    hide Faithful, Delay;
    var started := env.clock(start);
    var attempt, k := 0, start;
    requests, wakings := [], [];
    assert Slept(0) == 0 && Polled(env, start, requests + [k], wakings);
    hide Slept, Polled;
    while true
      invariant |requests| == |wakings| == attempt
      invariant env.clock(k) >= started + Slept(attempt) && Slept(attempt) <= VERIFY_BUDGET_MS
      invariant Polled(env, start, requests + [k], wakings)
      decreases started + VERIFY_BUDGET_MS - env.clock(k)
    {
      SleptGrows(attempt);
      requests := requests + [k];
      var r := env.reply(k);
      end := k + 1;
      TimePasses(env, k, 0);
      if Ends(r) {
        return EndsWith(r), requests, wakings, end;
      }
      var delay := Delay(attempt);
      SleptStep(attempt);
      if env.clock(end) - started + delay > VERIFY_BUDGET_MS {
        return Timeout, requests, wakings, end;
      }
      StillPolled(env, start, requests, wakings);
      wakings := wakings + [env.clock(end) + delay];
      attempt := attempt + 1;
      k := env.wake(end, delay);
    }
  }

  lemma SleptStep(n: nat)
    ensures Slept(n + 1) == Slept(n) + Delay(n)
  {
  }

  lemma SleptEight()
    ensures Slept(7) == 29000 && Slept(8) == 37000
  {
    assert Slept(1) == 1000 && Slept(2) == 3000 && Slept(3) == 5000 && Slept(4) == 8000;
    assert Slept(5) == 13000 && Slept(6) == 21000;
  }

  /** Sleeps only add up, so no ninth request fits in the budget. */
  lemma {:induction false} SleptGrows(n: nat)
    ensures Slept(n) <= VERIFY_BUDGET_MS ==> n <= 7
  {
    SleptEight();
    if n > 8 {
      SleptGrows(n - 1);
    }
  }
}
