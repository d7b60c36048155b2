/** The claim ticket (src/lib/claim-ticket.ts): a reducer whose state belongs to one wallet.

    A field set to null or to "idle" holds no result; `NoReport` and `NotSent` are the two
    "idle" values. */
module ClaimTicket {
  import opened Wrappers

  datatype Kind = Win | CreatorFees

  datatype Attr = NoReport | Reporting | Reported | Attributed | ReportFailed | NotAttributable

  datatype Phase = NotSent | Confirming | Pending | Confirmed | Failed

  datatype Ticket = Ticket(
    owner: Option<string>, marketId: string, mode: Kind, busy: bool,
    error: Option<string>, msg: Option<string>, sig: Option<string>, attr: Attr, phase: Phase)

  /** A partial record: a field that is `None` is not in the patch. */
  datatype Patch = Patch(
    busy: Option<bool>, error: Option<Option<string>>, msg: Option<Option<string>>,
    sig: Option<Option<string>>, attr: Option<Attr>, phase: Option<Phase>)

  const NOTHING := Patch(None, None, None, None, None, None)

  datatype Action =
    | Wallet(owner: Option<string>)
    | Fill(marketId: string)
    | SetMarket(marketId: string)
    | SetMode(mode: Kind)
    | Start(tag: string)
    | Update(tag: string, patch: Patch)

  function EmptyTicket(owner: Option<string>): Ticket {
    Ticket(owner, "", Win, false, None, None, None, NoReport, NotSent)
  }

  function Patched(t: Ticket, p: Patch): Ticket {
    t.(busy := p.busy.GetOr(t.busy), error := p.error.GetOr(t.error), msg := p.msg.GetOr(t.msg),
       sig := p.sig.GetOr(t.sig), attr := p.attr.GetOr(t.attr), phase := p.phase.GetOr(t.phase))
  }

  function Reduce(t: Ticket, a: Action): Ticket {
    match a
    case Wallet(owner) => if owner == t.owner then t else EmptyTicket(owner)
    case Fill(marketId) => EmptyTicket(t.owner).(marketId := marketId)
    case SetMarket(marketId) => t.(marketId := marketId)
    case SetMode(mode) => t.(mode := mode)
    case Start(tag) =>
      if Some(tag) != t.owner then t
      else t.(busy := true, error := None, msg := None, sig := None, attr := NoReport, phase := NotSent)
    case Update(tag, patch) => if Some(tag) != t.owner then t else Patched(t, patch)
  }

  function VisibleTicket(t: Ticket, wallet: Option<string>): Ticket {
    if t.owner == wallet then t else EmptyTicket(wallet)
  }

  /** The ticket after a sequence of actions, the last one last. */
  function After(t: Ticket, actions: seq<Action>): Ticket {
    if actions == [] then t else Reduce(After(t, actions[..|actions| - 1]), actions[|actions| - 1])
  }

  /** The fields an asynchronous run may fill in. */
  datatype Field = Busy | Error | Msg | Sig | AttrField | PhaseField

  predicate Blank(t: Ticket, f: Field) {
    match f
    case Busy => !t.busy
    case Error => t.error == None
    case Msg => t.msg == None
    case Sig => t.sig == None
    case AttrField => t.attr == NoReport
    case PhaseField => t.phase == NotSent
  }

  /** Action `a` is a write of exactly the value that `t` shows in field `f`. */
  predicate Writes(a: Action, t: Ticket, f: Field) {
    match a
    case Start(_) => f == Busy && t.busy
    case Update(_, p) =>
      (match f
       case Busy => p.busy == Some(t.busy)
       case Error => p.error == Some(t.error)
       case Msg => p.msg == Some(t.msg)
       case Sig => p.sig == Some(t.sig)
       case AttrField => p.attr == Some(t.attr)
       case PhaseField => p.phase == Some(t.phase))
    case _ => false
  }

  predicate Same(t: Ticket, u: Ticket, f: Field) {
    match f
    case Busy => t.busy == u.busy
    case Error => t.error == u.error
    case Msg => t.msg == u.msg
    case Sig => t.sig == u.sig
    case AttrField => t.attr == u.attr
    case PhaseField => t.phase == u.phase
  }

  /** The wallet named by a write. */
  function By(a: Action): Option<string> {
    if a.Start? || a.Update? then Some(a.tag) else None
  }

  /** No action from number `i` on takes the ticket away from `owner`. */
  ghost predicate StaysWith(actions: seq<Action>, i: nat, owner: Option<string>) {
    forall j :: i <= j < |actions| && actions[j].Wallet? ==> actions[j].owner == owner
  }

  /** Number `i` wrote what `t` shows in `f`, in the name of the wallet `t` belongs to, and no
      other wallet has been connected since. */
  ghost predicate Wrote(actions: seq<Action>, i: nat, t: Ticket, f: Field) {
    && i < |actions|
    && Writes(actions[i], t, f)
    && By(actions[i]) == t.owner
    && StaysWith(actions, i, t.owner)
  }

  /** What one action does to one field: it blanks it, writes it for the ticket's owner, or
      leaves it alone on a ticket that keeps its owner. */
  lemma FieldStep(t: Ticket, a: Action, f: Field)
    ensures var u := Reduce(t, a);
            || Blank(u, f)
            || (Writes(a, u, f) && By(a) == u.owner)
            || (Same(t, u, f) && u.owner == t.owner)
    ensures a.Wallet? ==> Reduce(t, a).owner == a.owner
    ensures !a.Wallet? ==> Reduce(t, a).owner == t.owner
  {
    if a.Update? && Some(a.tag) == t.owner {
      match f
      case Busy => assert a.patch.busy.None? ==> Reduce(t, a).busy == t.busy;
      case Error => assert a.patch.error.None? ==> Reduce(t, a).error == t.error;
      case Msg => assert a.patch.msg.None? ==> Reduce(t, a).msg == t.msg;
      case Sig => assert a.patch.sig.None? ==> Reduce(t, a).sig == t.sig;
      case AttrField => assert a.patch.attr.None? ==> Reduce(t, a).attr == t.attr;
      case PhaseField => assert a.patch.phase.None? ==> Reduce(t, a).phase == t.phase;
    }
  }

  lemma SameCarries(t: Ticket, u: Ticket, a: Action, f: Field)
    requires Same(t, u, f)
    ensures Blank(t, f) == Blank(u, f) && Writes(a, t, f) == Writes(a, u, f)
  {
  }

  /** Whatever is dispatched, and however late, each result field is blank or was written in
      the name of the wallet the ticket belongs to, which has stayed connected since. */
  lemma {:induction false} Provenance(owner: Option<string>, actions: seq<Action>, f: Field)
    ensures var t := After(EmptyTicket(owner), actions);
            Blank(t, f) || exists i: nat :: Wrote(actions, i, t, f)
  {
    if actions != [] {
      var n := |actions| - 1;
      var t := After(EmptyTicket(owner), actions[..n]);
      var u := After(EmptyTicket(owner), actions);
      var a := actions[n];
      Provenance(owner, actions[..n], f);
      FieldStep(t, a, f);
      hide Reduce, After, By;
      assert Writes(a, u, f) && By(a) == u.owner ==> Wrote(actions, n, u, f) by {
        hide Writes;
        assert a.Wallet? ==> By(a) != u.owner || a.owner == u.owner;
      }
      if !Blank(u, f) && !(Writes(a, u, f) && By(a) == u.owner) {
        SameCarries(t, u, a, f);
        var i: nat :| Wrote(actions[..n], i, t, f);
        SameCarries(t, u, actions[i], f);
        assert StaysWith(actions, i, u.owner) by {
          hide Writes, Same;
          forall j | i <= j < |actions| && actions[j].Wallet? ensures actions[j].owner == u.owner {
            if j < n {
              assert actions[..n][j] == actions[j];
            }
          }
        }
        assert Wrote(actions, i, u, f);
      }
    }
  }

  /** A disconnected ticket shows no result. */
  lemma DisconnectedIsBlank(owner: Option<string>, actions: seq<Action>, f: Field)
    requires After(EmptyTicket(owner), actions).owner == None
    ensures Blank(After(EmptyTicket(owner), actions), f)
  {
    Provenance(owner, actions, f);
  }

  /** What is rendered for `wallet`: its own ticket, and nothing another wallet's run wrote. */
  lemma VisibleIsOwn(owner: Option<string>, actions: seq<Action>, wallet: Option<string>, f: Field)
    ensures var v := VisibleTicket(After(EmptyTicket(owner), actions), wallet);
            && v.owner == wallet
            && (Blank(v, f) || exists i: nat :: Wrote(actions, i, v, f))
  {
    Provenance(owner, actions, f);
  }

  /** A late result of a wallet that is no longer connected changes nothing. */
  lemma {:induction false} LateResultsAreDropped(t: Ticket, late: seq<Action>)
    requires forall a :: a in late ==> (a.Update? || a.Start?) && Some(a.tag) != t.owner
    ensures After(t, late) == t
  {
    if late != [] {
      LateResultsAreDropped(t, late[..|late| - 1]);
      assert late[|late| - 1] in late;
    }
  }

  /** Ownership is by wallet, not by run: after a switch away and back, the first run's late
      signature is shown. */
  lemma OldRunOfSameWalletIsAccepted(a: string, b: string, sig: string)
    requires a != b
    ensures var late := Update(a, NOTHING.(sig := Some(Some(sig))));
            After(EmptyTicket(Some(a)), [Start(a), Wallet(Some(b)), Wallet(Some(a)), late]).sig == Some(sig)
  {
    var all := [Start(a), Wallet(Some(b)), Wallet(Some(a)), Update(a, NOTHING.(sig := Some(Some(sig))))];
    assert all[..3][..2][..1][..0] == [];
    assert all[..3][..2][0] == Start(a) && all[..3][..2][1] == Wallet(Some(b)) && all[..3][2] == Wallet(Some(a));
    assert After(EmptyTicket(Some(a)), all[..3][..2]).owner == Some(b);
    assert After(EmptyTicket(Some(a)), all[..3]) == EmptyTicket(Some(a));
  }

  /** The wallet that a sequence of actions leaves connected. */
  function LastWallet(owner: Option<string>, actions: seq<Action>): Option<string> {
    if actions == [] then owner
    else
      var a := actions[|actions| - 1];
      if a.Wallet? then a.owner else LastWallet(owner, actions[..|actions| - 1])
  }

  lemma {:induction false} OwnerIsLastWallet(owner: Option<string>, actions: seq<Action>)
    ensures After(EmptyTicket(owner), actions).owner == LastWallet(owner, actions)
  {
    if actions != [] {
      OwnerIsLastWallet(owner, actions[..|actions| - 1]);
    }
  }

  /** After any actions, the late results of a run are dropped, all of them, exactly when the
      wallet last connected is not the one the run started under. */
  lemma LateUpdatesAreDroppedIff(owner: Option<string>, actions: seq<Action>, tag: string)
    ensures var t := After(EmptyTicket(owner), actions);
            (forall p: Patch :: Reduce(t, Update(tag, p)) == t) <==> LastWallet(owner, actions) != Some(tag)
  {
    OwnerIsLastWallet(owner, actions);
    var t := After(EmptyTicket(owner), actions);
    hide After, LastWallet;
    var flip := NOTHING.(busy := Some(!t.busy));
    assert t.owner == Some(tag) ==> Reduce(t, Update(tag, flip)).busy != t.busy;
  }
}
