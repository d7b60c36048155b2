/** `runClaim` and the events around it as they are written (src/components/BookPanel.tsx, lines
    90-255): dispatches and reads of `walletRef.current`, cut at the awaits. Each event keeps
    the invariant of `ClaimRuns`, whose step it is proved to take; `Drive` takes any number. */
module BookPanel {
  import opened Wrappers
  import opened Logs
  import opened ClaimTicket
  import C = ClaimRuns
  import R = ClaimReplies

  class Book {
    const attributable: Kind -> bool
    var wallet: Option<string>
    var ref: Option<string>
    var ticket: Ticket
    var runs: map<nat, C.Claim>
    var next: nat
    ghost var first: Option<string>
    ghost var history: seq<Action>
    ghost var trace: C.Trace
    ghost var past: seq<C.Event>

    ghost function Now(): C.Page
      reads this
    {
      C.Page(wallet, ref, ticket, first, history, runs, next, trace)
    }

    ghost predicate Valid()
      reads this
    {
      C.Invariant(Now(), attributable) && R.Follows(Now(), first, past, attributable)
    }

    constructor (wallet: Option<string>, attributable: Kind -> bool)
      ensures Valid() && Now() == C.Opened(wallet) && this.attributable == attributable && past == []
    {
      R.OpenedFollows(wallet, attributable);
      this.attributable := attributable;
      this.wallet, ref, ticket, runs, next := wallet, wallet, EmptyTicket(wallet), map[], 0;
      first, history, trace, past := wallet, [], Begin, [];
    }

    method Dispatch(a: Action)
      modifies this
      ensures Now() == C.Dispatch(old(Now()), a)
      ensures past == old(past) && first == old(first)
    {
      ticket := Reduce(ticket, a);
      history := history + [a];
    }

    /** The `catch`, if there was an error, and the `finally`. */
    method Finish(owner: string, error: Option<string>)
      modifies this
      ensures Now() == C.Finish(old(Now()), owner, error)
      ensures past == old(past) && first == old(first)
    {
      hide Reduce;
      if error.Some? {
        Dispatch(Update(owner, NOTHING.(error := Some(error))));
      }
      Dispatch(Update(owner, NOTHING.(busy := Some(false))));
    }

    /** A render for a wallet (lines 75 to 78 of claim-ticket.ts): a ticket of another wallet is
        handed over at once, and none of its results stays. */
    method Connect(other: Option<string>)
      requires Valid()
      modifies this
      ensures Valid() && Now() == C.Step(old(Now()), C.Connect(other), attributable)
      ensures past == old(past) + [C.Connect(other)] && first == old(first)
      ensures ticket.owner == wallet == other && trace == old(trace)
      ensures old(ticket.owner) != other ==> forall f: Field :: Blank(ticket, f)
    {
      C.StepKeepsInvariant(Now(), C.Connect(other), attributable);
      R.StepFollows(Now(), first, past, C.Connect(other), attributable);
      past := past + [C.Connect(other)];
      hide C.Invariant, R.Follows;
      wallet := other;
      if ticket.owner != other {
        hide Reduce;
        Dispatch(Wallet(other));
      }
    }

    /** The effect of lines 99 to 101. */
    method Flush()
      requires Valid()
      modifies this
      ensures Valid() && Now() == C.Step(old(Now()), C.Flush, attributable)
      ensures past == old(past) + [C.Flush] && first == old(first)
      ensures ref == wallet == old(wallet)
    {
      C.StepKeepsInvariant(Now(), C.Flush, attributable);
      R.StepFollows(Now(), first, past, C.Flush, attributable);
      past := past + [C.Flush];
      hide C.Invariant, R.Follows;
      ref := wallet;
    }

    /** An edit of the form: no result of any run is written by it. */
    method Edit(a: Action)
      requires Valid() && C.Possible(Now(), C.Edit(a))
      modifies this
      ensures Valid() && Now() == C.Step(old(Now()), C.Edit(a), attributable)
      ensures past == old(past) + [C.Edit(a)] && first == old(first)
      ensures trace == old(trace) && forall f: Field :: Blank(ticket, f) || Same(old(ticket), ticket, f)
    {
      C.StepKeepsInvariant(Now(), C.Edit(a), attributable);
      R.StepFollows(Now(), first, past, C.Edit(a), attributable);
      past := past + [C.Edit(a)];
      hide C.Invariant, R.Follows;
      Dispatch(a);
    }

    /** Up to the first await: nothing has reached the wallet, the chain or Panta, and whatever
        an earlier run left on the ticket is gone. */
    method Click(ready: bool)
      requires Valid() && C.Possible(Now(), C.Click(ready))
      modifies this
      ensures Valid() && Now() == C.Step(old(Now()), C.Click(ready), attributable)
      ensures past == old(past) + [C.Click(ready)] && first == old(first)
      ensures trace == old(trace) && ticket.sig == None && ticket.attr == NoReport && ticket.busy == ready
    {
      hide C.TicketFits, C.RunsFit, C.Safe, R.Follows, C.Possible, C.Step;
      C.StepKeepsInvariant(Now(), C.Click(ready), attributable);
      R.StepFollows(Now(), first, past, C.Click(ready), attributable);
      C.ClickClears(Now(), ready, attributable);
      past := past + [C.Click(ready)];
      TakeClick(ready);
    }

    method TakeClick(ready: bool)
      requires C.Possible(Now(), C.Click(ready))
      modifies this
      ensures Now() == C.Step(old(Now()), C.Click(ready), attributable)
      ensures past == old(past) && first == old(first)
    {
      hide Reduce, C.Finish;
      var owner := wallet.value;
      var claim := C.Claim(owner, ticket.mode, C.Checking, "");
      Dispatch(Start(owner));
      var run := next;
      next := next + 1;
      if !ready {
        Finish(owner, Some("not ready"));
        return;
      }
      runs := runs[run := claim];
    }

    /** The checks are through: never sign for a wallet that is no longer the latest. */
    method AfterChecks(run: nat, c: C.Claim)
      requires run in runs && runs[run] == c && c.await == C.Checking
      modifies this
      ensures Now() == C.AfterReply(old(Now()), run, C.Passes, attributable)
      ensures past == old(past) && first == old(first)
    {
      hide C.Finish;
      if ref != Some(c.owner) {
        runs := runs - {run};
        Finish(c.owner, Some("Signing blocked."));
        return;
      }
      trace := Then(trace, C.Prompt(run, c.owner, ref, wallet));
      runs := runs[run := c.(await := C.Signing)];
    }

    method AfterSend(run: nat, c: C.Claim, sig: string)
      requires run in runs && runs[run] == c && c.await == C.Sending
      modifies this
      ensures Now() == C.AfterReply(old(Now()), run, C.Sent(sig), attributable)
      ensures past == old(past) && first == old(first)
    {
      hide Reduce;
      var patch := NOTHING.(sig := Some(Some(sig)), phase := Some(Confirming), msg := Some(Some("confirming")));
      Dispatch(Update(c.owner, patch));
      runs := runs[run := c.(await := C.Waiting, sig := sig)];
    }

    method AfterSettling(run: nat, c: C.Claim, phase: Phase)
      modifies this
      ensures Now() == C.AfterSettling(old(Now()), run, c, phase, attributable)
      ensures past == old(past) && first == old(first)
    {
      hide Reduce, C.Finish;
      if phase != Confirmed {
        Dispatch(Update(c.owner, NOTHING.(phase := Some(phase), msg := Some(Some("broadcast")))));
        runs := runs - {run};
        Finish(c.owner, Some("not confirmed"));
        return;
      }
      trace := Then(trace, C.Landed(run, c.sig));
      Dispatch(Update(c.owner, NOTHING.(phase := Some(Confirmed), msg := Some(Some("confirmed")))));
      if attributable(c.mode) {
        Dispatch(Update(c.owner, NOTHING.(attr := Some(Reporting))));
        trace := Then(trace, C.Report(run, c.owner, c.mode, c.sig));
        runs := runs[run := c.(await := C.Filing)];
      } else {
        Dispatch(Update(c.owner, NOTHING.(attr := Some(NotAttributable))));
        runs := runs - {run};
        Finish(c.owner, None);
      }
    }

    method AfterFiling(run: nat, c: C.Claim, r: C.Reply)
      requires run in runs && runs[run] == c && c.await == C.Filing && C.Possible(Now(), C.Answer(run, r))
      modifies this
      ensures Now() == C.AfterReply(old(Now()), run, r, attributable)
      ensures past == old(past) && first == old(first)
    {
      hide Reduce, C.Finish;
      if r.Fails? {
        Dispatch(Update(c.owner, NOTHING.(attr := Some(ReportFailed))));
        runs := runs - {run};
        Finish(c.owner, None);
        return;
      }
      Dispatch(Update(c.owner, NOTHING.(attr := Some(r.attr))));
      Finish(c.owner, None);
      runs := if r.attr == Attributed then runs - {run} else runs[run := c.(await := C.Listing)];
    }

    /** What a run waited for has come. A prompt it logs is the run's first, while `walletRef`
        names the run's own wallet; a report is its first, for a signature seen confirmed. */
    method Answer(run: nat, r: C.Reply)
      requires Valid() && C.Possible(Now(), C.Answer(run, r))
      modifies this
      ensures Valid() && Now() == C.Step(old(Now()), C.Answer(run, r), attributable)
      ensures past == old(past) + [C.Answer(run, r)] && first == old(first)
      ensures C.WasPrompted(trace, run) && !old(C.WasPrompted(trace, run)) ==>
                && old(ref == Some(runs[run].owner))
                && trace == Then(old(trace), C.Prompt(run, old(runs[run].owner), ref, wallet))
      ensures C.WasReported(trace, run) && !old(C.WasReported(trace, run)) ==>
                old(attributable(runs[run].mode)) && C.HasLanded(trace, run, old(runs[run].sig))
      ensures if old(wallet != Some(runs[run].owner)) then R.Shows(ticket) == old(R.Shows(ticket))
              else
                && (r.Sent? ==> ticket.sig == Some(r.sig) && ticket.phase == Confirming)
                && (r.Settled? ==> ticket.phase == r.phase && ticket.sig == old(ticket.sig))
                && (r.Filed? ==> ticket.attr == r.attr && ticket.phase == old(ticket.phase))
    {
      hide C.Invariant, R.Follows, R.Shows, C.AfterReply, C.Possible, C.WasPrompted, C.WasReported, C.HasLanded;
      C.StepKeepsInvariant(Now(), C.Answer(run, r), attributable);
      R.StepFollows(Now(), first, past, C.Answer(run, r), attributable);
      C.AnswerLogs(Now(), run, r, attributable);
      R.AnswerShows(Now(), first, past, run, r, attributable);
      C.StepMovesWallets(Now(), C.Answer(run, r), attributable);
      past := past + [C.Answer(run, r)];
      TakeAnswer(run, r);
    }

    method TakeAnswer(run: nat, r: C.Reply)
      requires C.Possible(Now(), C.Answer(run, r))
      modifies this
      ensures Now() == C.AfterReply(old(Now()), run, r, attributable)
      ensures past == old(past) && first == old(first)
    {
      hide Reduce, C.Finish, C.AfterSettling;
      var c := runs[run];
      if c.await == C.Filing {
        AfterFiling(run, c, r);
      } else if c.await == C.Listing {
        if r.Passes? {
          Dispatch(Update(c.owner, NOTHING.(attr := Some(Attributed))));
        }
        runs := runs - {run};
      } else if r.Fails? {
        runs := runs - {run};
        Finish(c.owner, Some(r.why));
      } else if c.await == C.Checking {
        AfterChecks(run, c);
      } else if c.await == C.Signing {
        runs := runs[run := c.(await := C.Sending)];
      } else if c.await == C.Sending {
        AfterSend(run, c, r.sig);
      } else {
        AfterSettling(run, c, r.phase);
      }
    }

    method Take(e: C.Event)
      requires Valid() && C.Possible(Now(), e)
      modifies this
      ensures Valid() && Now() == C.Step(old(Now()), e, attributable)
      ensures past == old(past) + [e] && first == old(first)
    {
      hide C.Invariant, R.Follows, C.Step;
      match e {
        case Connect(other) => Connect(other);
        case Flush => Flush();
        case Edit(a) => Edit(a);
        case Click(ready) => Click(ready);
        case Answer(run, r) => Answer(run, r);
      }
    }

    /** Any sequence of events: what was prompted and reported is safe, the ticket shows what the
        events tell, and each result on it is blank or was written in the name of the wallet the
        page renders. */
    method Drive(events: seq<C.Event>)
      requires Valid() && C.PossibleRun(Now(), events, attributable)
      modifies this
      ensures Valid() && Now() == C.PageAfter(old(Now()), events, attributable)
      ensures C.Safe(trace, attributable) && ticket.owner == wallet
      ensures forall f: Field :: Blank(ticket, f) || exists i: nat :: Wrote(history, i, ticket, f)
      ensures past == old(past) + events && first == old(first)
      ensures R.Shows(ticket) == R.ToldBy(first, past, attributable) && trace == R.TraceOf(first, past, attributable)
      ensures R.AllAnswered(ticket, trace, first, past)
    {
      hide C.Invariant, R.Follows, C.Step, C.Possible;
      var i := 0;
      while i < |events|
        invariant 0 <= i <= |events| && Valid()
        invariant C.PossibleRun(Now(), events[i..], attributable)
        invariant C.PageAfter(Now(), events[i..], attributable) == C.PageAfter(old(Now()), events, attributable)
        invariant past == old(past) + events[..i] && first == old(first)
      {
        assert events[i..][0] == events[i] && events[i..][1..] == events[i + 1..];
        assert events[..i] + [events[i]] == events[..i + 1];
        Take(events[i]);
        i := i + 1;
      }
      C.InvariantMeans(Now(), attributable);
      R.FollowsMeans(Now(), first, past, attributable);
    }
  }
}
