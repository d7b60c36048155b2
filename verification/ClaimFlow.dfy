/** A claim from end to end (src/components/BookPanel.tsx, lines 143-255): with every answer
    favourable it is signed, confirmed and, if it may be, reported, and the ticket is free again. */
module ClaimFlow {
  import opened Wrappers
  import opened Logs
  import opened ClaimTicket
  import opened ClaimRuns

  /** The favourable answers of run number `n`, up to its confirmation. */
  function Favourable(n: nat, sig: string): seq<Event> {
    [Click(true), Answer(n, Passes), Answer(n, Passes), Answer(n, Sent(sig)), Answer(n, Settled(Confirmed))]
  }

  /** What a page is once run `n` of `owner` waits, or has ended. */
  ghost predicate Stands(p: Page, q: Page, n: nat, run: Option<Claim>, ticket: Ticket, trace: Trace) {
    && q.wallet == p.wallet && q.ref == p.ref && q.next == n + 1 && n == p.next
    && q.runs == (if run.Some? then p.runs[n := run.value] else p.runs)
    && q.ticket == ticket && q.trace == trace
  }

  /** A page on which a wallet may claim, its effect having noted it. */
  ghost predicate MayClaim(p: Page, owner: string) {
    && p.wallet == p.ref == p.ticket.owner == Some(owner) && !p.ticket.busy
    && forall run :: run in p.runs ==> run < p.next
  }

  lemma ClickStep(p: Page, owner: string, attributable: Kind -> bool)
    requires MayClaim(p, owner)
    ensures Possible(p, Click(true))
    ensures Stands(p, Step(p, Click(true), attributable), p.next, Some(Claim(owner, p.ticket.mode, Checking, "")),
                   p.ticket.(busy := true, error := None, msg := None, sig := None, attr := NoReport, phase := NotSent),
                   p.trace)
  {
  }

  lemma SignSteps(p: Page, q: Page, owner: string, sig: string, attributable: Kind -> bool)
    requires MayClaim(p, owner) && q.ticket.owner == Some(owner)
    requires Stands(p, q, p.next, Some(Claim(owner, p.ticket.mode, Checking, "")), q.ticket, p.trace)
    ensures var n := p.next; var e := Answer(n, Passes); var f := Answer(n, Sent(sig));
            && Possible(q, e) && Possible(Step(q, e, attributable), e)
            && Possible(Step(Step(q, e, attributable), e, attributable), f)
            && Stands(p, Step(Step(Step(q, e, attributable), e, attributable), f, attributable), n,
                      Some(Claim(owner, p.ticket.mode, Waiting, sig)),
                      q.ticket.(sig := Some(sig), phase := Confirming, msg := Some("confirming")),
                      Then(p.trace, Prompt(n, owner, p.ref, p.wallet)))
  {
    var n := p.next;
    var q1 := Step(q, Answer(n, Passes), attributable);
    assert Stands(p, q1, n, Some(Claim(owner, p.ticket.mode, Signing, "")), q.ticket,
                  Then(p.trace, Prompt(n, owner, p.ref, p.wallet)));
    var q2 := Step(q1, Answer(n, Passes), attributable);
    assert Stands(p, q2, n, Some(Claim(owner, p.ticket.mode, Sending, "")), q.ticket, q1.trace);
    hide Finish, AfterSettling;
  }

  /** The ticket of a run that has its signature. */
  function Signed(t: Ticket, sig: string): Ticket {
    t.(busy := true, error := None, msg := Some("confirming"), sig := Some(sig), attr := NoReport, phase := Confirming)
  }

  /** The ticket of a run that has been seen confirmed. */
  function Landed(t: Ticket, sig: string, attr: Attr): Ticket {
    t.(error := None, msg := Some("confirmed"), sig := Some(sig), attr := attr, phase := Confirmed)
  }

  lemma SettledStep(p: Page, q: Page, owner: string, sig: string, attributable: Kind -> bool)
    requires MayClaim(p, owner)
    requires Stands(p, q, p.next, Some(Claim(owner, p.ticket.mode, Waiting, sig)), Signed(p.ticket, sig),
                    Then(p.trace, Prompt(p.next, owner, p.ref, p.wallet)))
    ensures var n, mode := p.next, p.ticket.mode; var e := Answer(n, Settled(Confirmed));
            var trace := Then(Then(p.trace, Prompt(n, owner, p.ref, p.wallet)), ClaimRuns.Landed(n, sig));
            && Possible(q, e)
            && (if attributable(mode) then
                  Stands(p, Step(q, e, attributable), n, Some(Claim(owner, mode, Filing, sig)),
                         Landed(p.ticket, sig, Reporting).(busy := true), Then(trace, Report(n, owner, mode, sig)))
                else
                  Stands(p, Step(q, e, attributable), n, None, Landed(p.ticket, sig, NotAttributable).(busy := false),
                         trace))
  {
    assert q.runs - {p.next} == p.runs;
  }

  lemma Prepend(p: Page, e: Event, rest: seq<Event>, attributable: Kind -> bool)
    requires Possible(p, e) && PossibleRun(Step(p, e, attributable), rest, attributable)
    ensures PossibleRun(p, [e] + rest, attributable)
    ensures PageAfter(p, [e] + rest, attributable) == PageAfter(Step(p, e, attributable), rest, attributable)
  {
    assert ([e] + rest)[1..] == rest;
  }

  /** A claim with every answer favourable: the wallet was asked, for the wallet rendered, and the
      signature landed. A kind that may be attributed has been reported and waits for Panta's
      answer; any other has ended, unreported, and its ticket is free. */
  lemma ClaimCarriesThrough(p: Page, owner: string, sig: string, attributable: Kind -> bool)
    requires MayClaim(p, owner)
    ensures var n, mode, run := p.next, p.ticket.mode, Favourable(p.next, sig);
            var trace := Then(Then(p.trace, Prompt(n, owner, p.ref, p.wallet)), ClaimRuns.Landed(n, sig));
            && PossibleRun(p, run, attributable)
            && var q := PageAfter(p, run, attributable);
               if attributable(mode) then
                 Stands(p, q, n, Some(Claim(owner, mode, Filing, sig)),
                        Landed(p.ticket, sig, Reporting).(busy := true), Then(trace, Report(n, owner, mode, sig)))
               else
                 Stands(p, q, n, None, Landed(p.ticket, sig, NotAttributable).(busy := false), trace)
  {
    var run := Favourable(p.next, sig);
    ClickStep(p, owner, attributable);
    var q1 := Step(p, run[0], attributable);
    SignSteps(p, q1, owner, sig, attributable);
    var q2 := Step(q1, run[1], attributable);
    var q3 := Step(q2, run[2], attributable);
    var q4 := Step(q3, run[3], attributable);
    SettledStep(p, q4, owner, sig, attributable);
    hide Step, Possible, Stands, PossibleRun, PageAfter;
    LastEvent(q4, run[4], attributable);
    Prepend(q3, run[3], [run[4]], attributable);
    Prepend(q2, run[2], [run[3]] + [run[4]], attributable);
    Prepend(q1, run[1], [run[2]] + ([run[3]] + [run[4]]), attributable);
    Prepend(p, run[0], [run[1]] + ([run[2]] + ([run[3]] + [run[4]])), attributable);
    assert run == [run[0]] + ([run[1]] + ([run[2]] + ([run[3]] + [run[4]])));
  }

  /** Panta's answer to the report is shown, frees the ticket, and, short of an attribution,
      leaves the run to watch the ledger. */
  lemma ReportIsAnswered(p: Page, n: nat, c: Claim, attr: Attr, attributable: Kind -> bool)
    requires n in p.runs && p.runs[n] == c && c.await == Filing && attr in {Reported, Attributed}
    requires p.ticket.owner == Some(c.owner)
    ensures var e := Answer(n, Filed(attr)); var q := Step(p, e, attributable);
            && Possible(p, e) && q.trace == p.trace && q.ticket == p.ticket.(attr := attr, busy := false)
            && q.runs == if attr == Attributed then p.runs - {n} else p.runs[n := c.(await := Listing)]
  {
  }
}
