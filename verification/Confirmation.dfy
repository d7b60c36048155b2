/** Waiting for a transaction to be confirmed (src/lib/solana.ts, lines 50-190): a poller that
    reads a chain which moves on by itself.

    An environment is one possible history. Every moment is a tick; between two ticks the chain
    may do anything that `Faithful` allows, and any reply may be an RPC error. `landing` is the
    whole fate of the transaction: the block it lands in, ever, or none. */
module Confirmation {
  import opened Wrappers

  const CONFIRM_HARD_TIMEOUT_MS: nat := 90000
  const CONFIRM_POLL_MS: nat := 2000
  const HEIGHT_EVERY: nat := 3

  datatype Level = Processed | ConfirmedLevel | Finalized

  /** Reply to getSignatureStatuses: an RPC error, no status yet, or a status. */
  datatype StatusReply = StatusError | NoStatus | Seen(err: bool, level: Level)

  datatype HeightReply = HeightError | Height(height: nat)

  datatype Landing = Landing(height: nat, failed: bool)

  datatype Env = Env(
    clock: nat -> int,
    status: nat -> StatusReply,
    height: nat -> HeightReply,
    confirmedHeight: nat -> nat,
    wake: (nat, nat) -> nat,
    landing: Option<Landing>,
    lastValid: nat)

  predicate Settled(r: StatusReply) {
    r.Seen? && (r.err || r.level != Processed)
  }

  /** What is assumed of the chain and of the RPC: time and the confirmed height never go back;
      the transaction lands, if at all, no later than `lastValid`; a height reply is not ahead
      of the chain; a confirmed status tells the truth; and once the confirmed height has passed
      the landing, every status read that gets a reply shows it. Sleeping takes its time. */
  ghost predicate Faithful(env: Env) {
    && (forall i: nat, j: nat :: i <= j ==> env.clock(i) <= env.clock(j))
    && (forall i: nat, j: nat :: i <= j ==> env.confirmedHeight(i) <= env.confirmedHeight(j))
    && (forall i: nat, ms: nat :: env.wake(i, ms) >= i && env.clock(env.wake(i, ms)) >= env.clock(i) + ms)
    && (env.landing.Some? ==> env.landing.value.height <= env.lastValid)
    && (forall i: nat :: env.height(i).Height? ==> env.height(i).height <= env.confirmedHeight(i))
    && (forall i: nat :: env.status(i).Seen? && env.status(i).level != Processed ==>
          env.landing.Some? && env.landing.value.failed == env.status(i).err)
    && (forall i: nat, j: nat ::
          env.landing.Some? && env.confirmedHeight(i) > env.landing.value.height && i <= j ==>
            env.status(j).StatusError? || Settled(env.status(j)))
  }

  datatype Outcome = Confirmed | Failed | Expired | Pending(rpcError: bool)

  /** Lines 115 to 121, on a reply that is not an error. */
  function Read(r: StatusReply): Option<Outcome> {
    if r.Seen? && r.err then Some(Failed)
    else if r.Seen? && r.level != Processed then Some(Confirmed)
    else None
  }

  /** One pass of the `try`: what it returns or whether it threw, and the tick it ended at. */
  function Attempt(env: Env, k: nat, i: nat, lvbh: nat): (Option<Outcome>, bool, nat) {
    if env.status(k).StatusError? then (None, true, k + 1)
    else if Read(env.status(k)).Some? then (Read(env.status(k)), false, k + 1)
    else if i % HEIGHT_EVERY == HEIGHT_EVERY - 1 || i == 0 then
      if env.height(k + 1).HeightError? then (None, true, k + 2)
      else if env.height(k + 1).height > lvbh then
        if env.status(k + 2).StatusError? then (None, true, k + 3)
        else if Read(env.status(k + 2)).Some? then (Read(env.status(k + 2)), false, k + 3)
        else (Some(Expired), false, k + 3)
      else (None, false, k + 2)
    else (None, false, k + 1)
  }

  /** The ticks of the status reads of one pass. */
  function AttemptReads(env: Env, k: nat, i: nat, lvbh: nat): (ticks: seq<nat>)
    ensures ticks != []
  {
    if env.status(k).StatusError? || Read(env.status(k)).Some? then [k]
    else if (i % HEIGHT_EVERY == HEIGHT_EVERY - 1 || i == 0)
            && env.height(k + 1).Height? && env.height(k + 1).height > lvbh then [k, k + 2]
    else [k]
  }

  lemma TimePasses(env: Env, k: nat, i: nat, lvbh: nat, pollMs: nat)
    requires Faithful(env)
    ensures var end := Attempt(env, k, i, lvbh).2;
            env.clock(k) <= env.clock(end) && env.clock(end) + pollMs <= env.clock(env.wake(end, pollMs))
  {
  }

  /** The loop from its `i`-th pass at tick `k` on: the outcome and how many passes it takes. */
  function Poll(env: Env, k: nat, i: nat, lvbh: nat, pollMs: nat, deadline: int, lastError: bool): (Outcome, nat)
    requires Faithful(env) && pollMs > 0
    decreases deadline - env.clock(k)
  {
    if env.clock(k) >= deadline then (Pending(lastError), 0)
    else
      var (result, threw, end) := Attempt(env, k, i, lvbh);
      if result.Some? then (result.value, 1)
      else if env.clock(end) + pollMs >= deadline then (Pending(threw), 1)
      else
        var next := env.wake(end, pollMs);
        assert env.clock(k) <= env.clock(end) && env.clock(end) + pollMs <= env.clock(next) by {
          TimePasses(env, k, i, lvbh, pollMs);
        }
        var (outcome, passes) := Poll(env, next, i + 1, lvbh, pollMs, deadline, threw);
        (outcome, passes + 1)
  }

  /** The ticks of all the status reads of the loop, in order. */
  ghost function Reads(env: Env, k: nat, i: nat, lvbh: nat, pollMs: nat, deadline: int): seq<nat>
    requires Faithful(env) && pollMs > 0
    decreases deadline - env.clock(k)
  {
    if env.clock(k) >= deadline then []
    else
      var (result, threw, end) := Attempt(env, k, i, lvbh);
      if result.Some? || env.clock(end) + pollMs >= deadline then AttemptReads(env, k, i, lvbh)
      else
        var next := env.wake(end, pollMs);
        assert env.clock(k) <= env.clock(end) && env.clock(end) + pollMs <= env.clock(next) by {
          TimePasses(env, k, i, lvbh, pollMs);
        }
        AttemptReads(env, k, i, lvbh) + Reads(env, next, i + 1, lvbh, pollMs, deadline)
  }

  /** The last status read said that the transaction landed, with or without an error. */
  predicate LastSaid(env: Env, ticks: seq<nat>, err: bool) {
    ticks != [] && Settled(env.status(ticks[|ticks| - 1])) && env.status(ticks[|ticks| - 1]).err == err
  }

  /** `confirmSignature`, started at tick `start`. */
  method ConfirmSignature(env: Env, start: nat, lvbh: nat, pollMs: nat, hardTimeoutMs: nat)
    returns (r: Outcome, passes: nat)
    requires Faithful(env) && pollMs > 0
    ensures (r, passes) == Poll(env, start, 0, lvbh, pollMs, env.clock(start) + hardTimeoutMs, false)
    ensures r == Expired && lvbh >= env.lastValid ==> env.landing == None
    ensures r == Confirmed ==> env.landing.Some? && !env.landing.value.failed
    ensures var ticks := Reads(env, start, 0, lvbh, pollMs, env.clock(start) + hardTimeoutMs);
            && (r == Confirmed <==> LastSaid(env, ticks, false))
            && (r == Failed <==> LastSaid(env, ticks, true))
            && (r.Pending? || r == Expired <==> NoneSettled(env, ticks))
            && (hardTimeoutMs > 0 ==> ticks != [] && ticks[0] == start)
    ensures passes >= 1 ==> (passes - 1) * pollMs < hardTimeoutMs
  {
    var deadline := env.clock(start) + hardTimeoutMs;
    hide *;
    OutcomeIsSound(env, start, 0, lvbh, pollMs, deadline, false);
    OutcomeIsWhatWasRead(env, start, 0, lvbh, pollMs, deadline, false);
    PassBound(env, start, 0, lvbh, pollMs, deadline, false);
    r, passes := RunPolls(env, start, lvbh, pollMs, deadline);
  }

  /** The loop of lines 124 to 155. */
  method RunPolls(env: Env, start: nat, lvbh: nat, pollMs: nat, deadline: int) returns (r: Outcome, passes: nat)
    requires Faithful(env) && pollMs > 0
    ensures (r, passes) == Poll(env, start, 0, lvbh, pollMs, deadline, false)
  {
    hide *;
    var lastError, k, i := false, start, 0;
    ghost var all := Poll(env, start, 0, lvbh, pollMs, deadline, false);
    PollStep(env, start, 0, lvbh, pollMs, deadline, false);
    while env.clock(k) < deadline
      invariant Faithful(env)
      invariant all == Later(Poll(env, k, i, lvbh, pollMs, deadline, lastError), i)
      decreases deadline - env.clock(k)
    {
      PollStep(env, k, i, lvbh, pollMs, deadline, lastError);
      var (result, threw, end) := Attempt(env, k, i, lvbh);
      TimePasses(env, k, i, lvbh, pollMs);
      if result.Some? {
        return result.value, i + 1;
      }
      lastError := threw;
      if env.clock(end) + pollMs >= deadline {
        return Pending(lastError), i + 1;
      }
      k, i := env.wake(end, pollMs), i + 1;
    }
    PollStep(env, k, i, lvbh, pollMs, deadline, lastError);
    return Pending(lastError), i;
  }

  /** The result of a loop that had already made `i` passes. */
  ghost function Later(r: (Outcome, nat), i: nat): (Outcome, nat) {
    (r.0, r.1 + i)
  }

  lemma PollStep(env: Env, k: nat, i: nat, lvbh: nat, pollMs: nat, deadline: int, lastError: bool)
    requires Faithful(env) && pollMs > 0
    ensures var (result, threw, end) := Attempt(env, k, i, lvbh);
            var next := env.wake(end, pollMs);
            Later(Poll(env, k, i, lvbh, pollMs, deadline, lastError), i)
            == if env.clock(k) >= deadline then (Pending(lastError), i)
               else if result.Some? then (result.value, i + 1)
               else if env.clock(end) + pollMs >= deadline then (Pending(threw), i + 1)
               else Later(Poll(env, next, i + 1, lvbh, pollMs, deadline, threw), i + 1)
    ensures var all := Poll(env, k, 0, lvbh, pollMs, deadline, lastError); Later(all, 0) == all
  {
    hide Attempt, Faithful;
  }

  /** None of the reads was settled: the chain had not yet told what became of the transaction. */
  ghost predicate NoneSettled(env: Env, ticks: seq<nat>) {
    forall t :: t in ticks ==> !Settled(env.status(t))
  }

  predicate HeightPass(i: nat) {
    i == 0 || i % HEIGHT_EVERY == HEIGHT_EVERY - 1
  }

  predicate Silent(env: Env, k: nat) {
    !env.status(k).StatusError? && !Settled(env.status(k))
  }

  /** What one pass answers, both ways. It reads the status at once; if that read is settled, it
      answers so; the height is read on the passes that are due, and if it is past, the status is
      read once more, which decides between the answers. A pass without an answer has thrown
      exactly if one of its calls failed. */
  lemma AttemptAnswers(env: Env, k: nat, i: nat, lvbh: nat)
    ensures var (r, threw, end) := Attempt(env, k, i, lvbh);
            var ticks := AttemptReads(env, k, i, lvbh);
            var past := HeightPass(i) && env.height(k + 1).Height? && env.height(k + 1).height > lvbh;
            && ticks == (if Silent(env, k) && past then [k, k + 2] else [k])
            && (r == Some(Confirmed) <==> LastSaid(env, ticks, false))
            && (r == Some(Failed) <==> LastSaid(env, ticks, true))
            && (r == Some(Expired) <==> Silent(env, k) && past && Silent(env, k + 2))
            && r in {None, Some(Confirmed), Some(Failed), Some(Expired)}
            && (r in {None, Some(Expired)} <==> NoneSettled(env, ticks))
            && (threw <==> env.status(k).StatusError?
                           || (Silent(env, k) && HeightPass(i) && env.height(k + 1).HeightError?)
                           || (Silent(env, k) && past && env.status(k + 2).StatusError?))
            && ticks[|ticks| - 1] < end <= k + 3 <= ticks[|ticks| - 1] + 3
            && (threw ==>
                  env.status(ticks[|ticks| - 1]).StatusError? || env.height(ticks[|ticks| - 1] + 1).HeightError?)
            && (!threw ==> !env.status(ticks[|ticks| - 1]).StatusError?)
  {
    var ticks := AttemptReads(env, k, i, lvbh);
    assert ticks[0] == k && k in ticks;
    assert |ticks| == 2 ==> ticks[1] == k + 2 && k + 2 in ticks;
  }

  /** After the read at `last` no more fits before the deadline, and the pending answer tells of an
      error if the call after which the polling stopped had failed. */
  ghost predicate GivenUp(env: Env, last: nat, rpcError: bool, pollMs: nat, deadline: int) {
    && (exists end: nat :: last < end <= last + 3 && NoTimeAfter(env, end, pollMs, deadline))
    && (rpcError ==> env.status(last).StatusError? || env.height(last + 1).HeightError?)
    && (!rpcError ==> !env.status(last).StatusError?)
  }

  predicate NoTimeAfter(env: Env, end: nat, pollMs: nat, deadline: int) {
    env.clock(end) + pollMs >= deadline || env.clock(env.wake(end, pollMs)) >= deadline
  }

  /** The answer is what was read, both ways: confirmed or failed exactly when the last read said
      so; any other answer exactly when no read was settled. Polling starts at once, and it is given
      up as pending only when the next sleep would reach the deadline, or did. */
  lemma {:induction false} OutcomeIsWhatWasRead(env: Env, k: nat, i: nat, lvbh: nat, pollMs: nat, deadline: int,
                                                lastError: bool)
    requires Faithful(env) && pollMs > 0
    ensures var r := Poll(env, k, i, lvbh, pollMs, deadline, lastError).0;
            var ticks := Reads(env, k, i, lvbh, pollMs, deadline);
            && (r == Confirmed <==> LastSaid(env, ticks, false))
            && (r == Failed <==> LastSaid(env, ticks, true))
            && (r.Pending? || r == Expired <==> NoneSettled(env, ticks))
            && (env.clock(k) < deadline <==> ticks != [])
            && (ticks != [] ==> ticks[0] == k)
            && (r.Pending? && ticks != [] ==> GivenUp(env, ticks[|ticks| - 1], r.rpcError, pollMs, deadline))
    decreases deadline - env.clock(k)
  {
    hide Attempt, AttemptReads, Faithful, Settled, Silent;
    if env.clock(k) < deadline {
      var (result, threw, end) := Attempt(env, k, i, lvbh);
      var ticks := AttemptReads(env, k, i, lvbh);
      AttemptAnswers(env, k, i, lvbh);
      if result.None? && env.clock(end) + pollMs < deadline {
        TimePasses(env, k, i, lvbh, pollMs);
        var later := Reads(env, env.wake(end, pollMs), i + 1, lvbh, pollMs, deadline);
        OutcomeIsWhatWasRead(env, env.wake(end, pollMs), i + 1, lvbh, pollMs, deadline, threw);
        NoneSettledAppend(env, ticks, later);
        assert later == [] ==> NoTimeAfter(env, end, pollMs, deadline);
      } else {
        assert result.None? ==> NoTimeAfter(env, end, pollMs, deadline);
      }
    }
  }

  lemma NoneSettledAppend(env: Env, a: seq<nat>, b: seq<nat>)
    ensures NoneSettled(env, a + b) <==> NoneSettled(env, a) && NoneSettled(env, b)
    ensures b != [] ==> forall err :: LastSaid(env, a + b, err) <==> LastSaid(env, b, err)
    ensures b == [] ==> a + b == a
  {
    hide Settled;
    assert forall t :: t in a ==> t in a + b;
    assert forall t :: t in b ==> t in a + b;
  }

  /** A pass that reads heights, finds the height past and hears nothing of the transaction
      before and after, ends the polling as expired. */
  lemma PastHeightExpires(env: Env, k: nat, i: nat, lvbh: nat, pollMs: nat, deadline: int, lastError: bool)
    requires Faithful(env) && pollMs > 0 && env.clock(k) < deadline && HeightPass(i)
    requires Silent(env, k) && env.height(k + 1).Height? && env.height(k + 1).height > lvbh && Silent(env, k + 2)
    ensures Poll(env, k, i, lvbh, pollMs, deadline, lastError) == (Expired, 1)
  {
    AttemptAnswers(env, k, i, lvbh);
    hide Attempt, Faithful, Silent;
  }

  /** Expired means that the transaction has not landed and never will, for any height at or
      above the true one; confirmed means that it landed without error, and failed that there
      was an error, each as the last of the poller's own status reads said. */
  lemma {:induction false} OutcomeIsSound(env: Env, k: nat, i: nat, lvbh: nat, pollMs: nat, deadline: int,
                                          lastError: bool)
    requires Faithful(env) && pollMs > 0
    ensures var r := Poll(env, k, i, lvbh, pollMs, deadline, lastError).0;
            var ticks := Reads(env, k, i, lvbh, pollMs, deadline);
            && (r == Expired && lvbh >= env.lastValid ==> env.landing == None)
            && (r == Confirmed ==> env.landing.Some? && !env.landing.value.failed && LastSaid(env, ticks, false))
            && (r == Failed ==> LastSaid(env, ticks, true))
    decreases deadline - env.clock(k)
  {
    hide Attempt, AttemptReads, Faithful, Settled;
    if env.clock(k) < deadline {
      var (result, threw, end) := Attempt(env, k, i, lvbh);
      AttemptIsSound(env, k, i, lvbh);
      if result.None? && env.clock(end) + pollMs < deadline {
        TimePasses(env, k, i, lvbh, pollMs);
        OutcomeIsSound(env, env.wake(end, pollMs), i + 1, lvbh, pollMs, deadline, threw);
      }
    }
  }

  lemma AttemptIsSound(env: Env, k: nat, i: nat, lvbh: nat)
    requires Faithful(env)
    ensures var r := Attempt(env, k, i, lvbh).0;
            && (r == Some(Expired) && lvbh >= env.lastValid ==> env.landing == None)
            && (r == Some(Confirmed) ==>
                  env.landing.Some? && !env.landing.value.failed && LastSaid(env, AttemptReads(env, k, i, lvbh), false))
            && (r == Some(Failed) ==> LastSaid(env, AttemptReads(env, k, i, lvbh), true))
  {
    var r := Attempt(env, k, i, lvbh).0;
    if r == Some(Expired) && lvbh >= env.lastValid {
      assert env.landing.Some? ==> env.confirmedHeight(k + 1) > env.landing.value.height;
      assert !env.status(k + 2).StatusError? && !Settled(env.status(k + 2));
    }
  }

  /** All passes but the last are followed by a sleep that ends before the deadline. */
  lemma {:induction false} PassBound(env: Env, k: nat, i: nat, lvbh: nat, pollMs: nat, deadline: int, lastError: bool)
    requires Faithful(env) && pollMs > 0
    ensures var passes := Poll(env, k, i, lvbh, pollMs, deadline, lastError).1;
            passes >= 1 ==> (passes - 1) * pollMs < deadline - env.clock(k)
    decreases deadline - env.clock(k)
  {
    hide Attempt, Faithful;
    if env.clock(k) < deadline {
      var (result, threw, end) := Attempt(env, k, i, lvbh);
      if result.None? && env.clock(end) + pollMs < deadline {
        TimePasses(env, k, i, lvbh, pollMs);
        var next := env.wake(end, pollMs);
        PassBound(env, next, i + 1, lvbh, pollMs, deadline, threw);
        var later := Poll(env, next, i + 1, lvbh, pollMs, deadline, threw).1;
        assert later * pollMs == (later - 1) * pollMs + pollMs;
      }
    }
  }

  /** With the default timings there are at most 45 passes. */
  lemma DefaultPasses(env: Env, start: nat, lvbh: nat)
    requires Faithful(env)
    ensures Poll(env, start, 0, lvbh, CONFIRM_POLL_MS, env.clock(start) + CONFIRM_HARD_TIMEOUT_MS, false).1 <= 45
  {
    PassBound(env, start, 0, lvbh, CONFIRM_POLL_MS, env.clock(start) + CONFIRM_HARD_TIMEOUT_MS, false);
  }

  // How high the height handed to the poller has to be.

  ghost predicate ExpiryIsSound(lvbh: nat, lastValid: nat) {
    forall env: Env, k: nat, pollMs: nat, deadline: int ::
      Faithful(env) && env.lastValid == lastValid && pollMs > 0
      && Poll(env, k, 0, lvbh, pollMs, deadline, false).0 == Expired
      ==> env.landing == None
  }

  /** A chain whose confirmed height stays `h` and on which the transaction lands at `at`. */
  function Stalled(h: nat, at: nat): Env {
    Env((k: nat) => k, _ => NoStatus, _ => Height(h), _ => h, (k: nat, ms: nat) => k + ms, Some(Landing(at, false)), at)
  }

  /** "Expired" can be trusted exactly when the height is at or above the true one. */
  lemma ExpiryIsSoundIff(lvbh: nat, lastValid: nat)
    ensures ExpiryIsSound(lvbh, lastValid) <==> lvbh >= lastValid
  {
    if lvbh >= lastValid {
      forall env: Env, k: nat, pollMs: nat, deadline: int
        | Faithful(env) && env.lastValid == lastValid && pollMs > 0
          && Poll(env, k, 0, lvbh, pollMs, deadline, false).0 == Expired
        ensures env.landing == None
      {
        OutcomeIsSound(env, k, 0, lvbh, pollMs, deadline, false);
      }
    } else {
      var env := Stalled(lvbh + 1, lastValid);
      assert Faithful(env);
      assert Poll(env, 0, 0, lvbh, 1, 10, false).0 == Expired;
    }
  }

  /** `resolveLastValidBlockHeight`: the build's own height, or that of the latest blockhash. */
  function Resolve(fromBuild: Option<int>, latest: nat): nat {
    if fromBuild.Some? && fromBuild.value > 0 then fromBuild.value else latest
  }

  /** A height from the build, or from a blockhash no older than the signed one, can be trusted. */
  lemma ResolvedExpiryIsSound(env: Env, k: nat, fromBuild: Option<int>, latest: nat, pollMs: nat, deadline: int)
    requires Faithful(env) && pollMs > 0
    requires if fromBuild.Some? && fromBuild.value > 0 then fromBuild.value == env.lastValid
             else latest >= env.lastValid
    requires Poll(env, k, 0, Resolve(fromBuild, latest), pollMs, deadline, false).0 == Expired
    ensures env.landing == None
  {
    OutcomeIsSound(env, k, 0, Resolve(fromBuild, latest), pollMs, deadline, false);
  }

  // The one-shot check does not read the status again.

  /** `checkSignatureOnce`, started at tick `k`. */
  function CheckOnce(env: Env, k: nat, lvbh: Option<nat>): Outcome {
    if env.status(k).StatusError? then Pending(true)
    else if Read(env.status(k)).Some? then Read(env.status(k)).value
    else if lvbh.None? then Pending(false)
    else if env.height(k + 1).HeightError? then Pending(true)
    else if env.height(k + 1).height > lvbh.value then Expired
    else Pending(false)
  }

  /** What it answers, both ways: what the one status read says if it is settled; expired exactly
      when the height read after it is past; and pending with an error exactly when a call failed. */
  lemma CheckOnceAnswers(env: Env, k: nat, lvbh: Option<nat>)
    ensures var r := CheckOnce(env, k, lvbh);
            && (r == Confirmed <==> LastSaid(env, [k], false))
            && (r == Failed <==> LastSaid(env, [k], true))
            && (r == Expired <==>
                  Silent(env, k) && lvbh.Some? && env.height(k + 1).Height? && env.height(k + 1).height > lvbh.value)
            && (r == Pending(true) <==>
                  env.status(k).StatusError? || (Silent(env, k) && lvbh.Some? && env.height(k + 1).HeightError?))
  {
  }

  ghost predicate CheckOnceIsSound(seen: nat, lvbh: nat, lastValid: nat) {
    forall env: Env, k: nat ::
      Faithful(env) && env.lastValid == lastValid && env.confirmedHeight(k) == seen
      && CheckOnce(env, k, Some(lvbh)) == Expired
      ==> env.landing == None
  }

  /** A chain on which the transaction lands at `at` between the status read and the height read. */
  function Overtaken(seen: nat, later: nat, at: nat): Env {
    Env((k: nat) => k, k => if k == 0 then NoStatus else Seen(false, Finalized),
        k => Height(if k == 0 then seen else later), k => if k == 0 then seen else later,
        (k: nat, ms: nat) => k + ms, Some(Landing(at, false)), at)
  }

  /** Its "expired" can be trusted exactly when the confirmed height had already passed the last
      valid one at the status read; otherwise the transaction may have landed in between. */
  lemma CheckOnceIsSoundIff(seen: nat, lvbh: nat, lastValid: nat)
    ensures CheckOnceIsSound(seen, lvbh, lastValid) <==> seen > lastValid
  {
    if seen > lastValid {
      forall env: Env, k: nat
        | Faithful(env) && env.lastValid == lastValid && env.confirmedHeight(k) == seen
          && CheckOnce(env, k, Some(lvbh)) == Expired
        ensures env.landing == None
      {
        assert !env.status(k).StatusError? && !Settled(env.status(k));
      }
    } else {
      var env := Overtaken(seen, seen + lvbh + 1, lastValid);
      assert Faithful(env);
      assert env.confirmedHeight(0) == seen && CheckOnce(env, 0, Some(lvbh)) == Expired;
    }
  }
}
