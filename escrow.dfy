/** The escrow-agreement service: an initiator creates an agreement whose recipients' shares
    add up to the amount net of commission, the invited parties accept (or one rejects), the
    initiator funds it from the balance into escrow, a party proposes completion, the parties
    vote, and releasing moves each recipient's share from the initiator's escrow to that
    recipient's balance. Lookups written with `.single()` answer only when exactly one row
    matches. Each operation is a method proved to have exactly the effect of its
    specification function. */
module Escrow {
  import opened Wrappers
  import opened Store
  import opened Commission

  datatype EscrowError =
    | CommissionUnavailable(serviceType: string)
    | SharesMismatch
    | InvalidInvite
    | InviteUsed
    | NotYourInvite
    | AgreementNotFound
    | NotInitiator
    | CannotFund(status: string)
    | CannotReject(status: string)
    | NotAParty
    | NotInProgress
    | ProposalNotFound
    | CannotRelease

  datatype EscrowStep<+R> = EscrowStep(tables: Tables, result: Result<R, EscrowError>)

  /** A party as the creation request lists it; `inviteCode` is the code the database assigns. */
  datatype PartyDraft = PartyDraft(email: string, role: string, share: real, inviteCode: string)

  datatype Created = Created(id: RowId, commission: real, net: real)

  datatype VoteResult = VoteRecorded | Released(net: real)

  // ---------------------------------------------------------------- party queries

  /** The `.eq(...)` filters the service puts on escrow_agreement_parties. */
  datatype PartyFilter =
    | ByInviteCode(code: string)
    | Unaccepted(agreementId: RowId)
    | Member(agreementId: RowId, user: UserId)
    | VotedAgainst(agreementId: RowId)
    | Recipient(agreementId: RowId)

  predicate Keeps(f: PartyFilter, p: Party) {
    match f
    case ByInviteCode(code) => p.inviteCode == code
    case Unaccepted(a) => p.agreementId == a && !p.hasAccepted
    case Member(a, u) => p.agreementId == a && p.user == Some(u)
    case VotedAgainst(a) => p.agreementId == a && p.confirmed == Some(false)
    case Recipient(a) => p.agreementId == a && p.role == "RECIPIENT"
  }

  /** The positions of the rows a filter keeps, in table order. */
  function Where(ps: seq<Party>, f: PartyFilter): (r: seq<nat>)
    ensures forall k :: k in r <==> 0 <= k < |ps| && Keeps(f, ps[k])
    ensures forall i :: 0 <= i < |r| ==> r[i] < |ps|
  {
    if |ps| == 0 then []
    else Where(ps[..|ps| - 1], f) + (if Keeps(f, ps[|ps| - 1]) then [|ps| - 1] else [])
  }

  /** A filter that keeps no row finds nothing. */
  lemma {:induction false} WhereNone(ps: seq<Party>, f: PartyFilter)
    requires forall k :: 0 <= k < |ps| ==> !Keeps(f, ps[k])
    ensures Where(ps, f) == []
  {
    if |ps| > 0 {
      WhereNone(ps[..|ps| - 1], f);
    }
  }

  /** The rows a filter keeps, in table order. */
  function Rows(ps: seq<Party>, f: PartyFilter): (r: seq<Party>)
    ensures forall p :: p in r ==> p in ps && Keeps(f, p)
  {
    if |ps| == 0 then []
    else Rows(ps[..|ps| - 1], f) + (if Keeps(f, ps[|ps| - 1]) then [ps[|ps| - 1]] else [])
  }

  /** `.single()`: the row when exactly one matches; no match and several matches both raise. */
  function Single(r: seq<nat>): Option<nat> {
    if |r| == 1 then Some(r[0]) else None
  }

  function RecipientTotal(ds: seq<PartyDraft>): real {
    if |ds| == 0 then 0.0
    else RecipientTotal(ds[..|ds| - 1]) + (if ds[|ds| - 1].role == "RECIPIENT" then ds[|ds| - 1].share else 0.0)
  }

  // ---------------------------------------------------------------- creation

  function PartyRow(agreementId: RowId, d: PartyDraft): Party {
    Party(agreementId, d.email, d.role, d.share, None, d.inviteCode, false, None)
  }

  function PartyRows(agreementId: RowId, ds: seq<PartyDraft>): (r: seq<Party>)
    ensures |r| == |ds|
    ensures forall k :: 0 <= k < |ds| ==> r[k] == PartyRow(agreementId, ds[k])
  {
    if |ds| == 0 then [] else PartyRows(agreementId, ds[..|ds| - 1]) + [PartyRow(agreementId, ds[|ds| - 1])]
  }

  /** Creation at commission rate `rate`: the recipients' shares must add up to the amount net
      of commission; the agreement starts as DRAFT with its parties not yet accepted. */
  function CreateEscrowAgreementSpec(t: Tables, initiator: UserId, amount: real, rate: real, drafts: seq<PartyDraft>)
    : EscrowStep<Created>
  {
    var commission := amount * rate;
    var net := amount - commission;
    if RecipientTotal(drafts) != net then EscrowStep(t, Failure(SharesMismatch))
    else
      var id := t.nextId;
      EscrowStep(t.(agreements := t.agreements[id := Agreement(initiator, amount, rate, "DRAFT")], nextId := id + 1,
                    parties := t.parties + PartyRows(id, drafts)),
                 Success(Created(id, commission, net)))
  }

  /** Creation as written: the rate is asked for under the service type "ESCROW_AGREEMENT". */
  function CreateEscrowAgreementAsWritten(t: Tables, initiator: UserId, amount: real, drafts: seq<PartyDraft>)
    : EscrowStep<Created>
  {
    match GetCommissionRate("ESCROW_AGREEMENT", t.charges)
    case Failure(_) => EscrowStep(t, Failure(CommissionUnavailable("ESCROW_AGREEMENT")))
    case Success(rate) => CreateEscrowAgreementSpec(t, initiator, amount, rate, drafts)
  }

  /** As written, no agreement can ever be created: the commission lookup rejects the service
      type, whatever the charges row holds, and nothing is written. */
  lemma CreationAlwaysFailsAsWritten(t: Tables, initiator: UserId, amount: real, drafts: seq<PartyDraft>)
    ensures CreateEscrowAgreementAsWritten(t, initiator, amount, drafts) ==
      EscrowStep(t, Failure(CommissionUnavailable("ESCROW_AGREEMENT")))
  {
    EscrowAgreementUnknown(t.charges);
  }

  method CreateEscrowAgreement(db: Database, initiator: UserId, amount: real, rate: real, drafts: seq<PartyDraft>)
    returns (r: Result<Created, EscrowError>)
    modifies db
    ensures EscrowStep(db.Snapshot(), r) == CreateEscrowAgreementSpec(old(db.Snapshot()), initiator, amount, rate, drafts)
  {
    var commission := amount * rate;
    var net := amount - commission;
    if RecipientTotal(drafts) != net {
      return Failure(SharesMismatch);
    }
    var id := db.InsertAgreement(Agreement(initiator, amount, rate, "DRAFT"));
    var rows: seq<Party> := [];
    for k := 0 to |drafts|
      invariant rows == PartyRows(id, drafts[..k])
    {
      assert drafts[..k + 1][..k] == drafts[..k];
      rows := rows + [PartyRow(id, drafts[k])];
    }
    assert drafts[..|drafts|] == drafts;
    db.InsertParties(rows);
    r := Success(Created(id, commission, net));
  }

  /** A created agreement is a DRAFT for exactly the requested amount and rate; its recipients'
      shares plus the commission make up the amount; one unaccepted, unvoted row per listed party
      is added; no wallet changes. A share mismatch writes nothing. */
  lemma CreationEffects(t: Tables, initiator: UserId, amount: real, rate: real, drafts: seq<PartyDraft>)
    ensures var s := CreateEscrowAgreementSpec(t, initiator, amount, rate, drafts);
      s.result.Success? <==> RecipientTotal(drafts) == amount - amount * rate
    ensures var s := CreateEscrowAgreementSpec(t, initiator, amount, rate, drafts);
      s.result.Failure? ==> s.tables == t
    ensures var s := CreateEscrowAgreementSpec(t, initiator, amount, rate, drafts);
      s.result.Success? ==>
        var c := s.result.value;
        c.commission + c.net == amount && RecipientTotal(drafts) == c.net &&
        c.id in s.tables.agreements && s.tables.agreements[c.id] == Agreement(initiator, amount, rate, "DRAFT") &&
        s.tables.wallets == t.wallets &&
        |s.tables.parties| == |t.parties| + |drafts| && s.tables.parties[..|t.parties|] == t.parties &&
        forall k :: 0 <= k < |drafts| ==>
          var p := s.tables.parties[|t.parties| + k];
          p.agreementId == c.id && p.share == drafts[k].share && !p.hasAccepted && p.confirmed.None? && p.user.None?
  {
  }

  // ---------------------------------------------------------------- acceptance and rejection

  function AcceptSpec(t: Tables, agreementId: RowId, code: string, user: UserId): (r: EscrowStep<bool>)
    ensures r.result.Failure? ==> r.tables == t
    ensures r.tables.wallets == t.wallets
    ensures r.result == Success(true) && agreementId in t.agreements ==>
      agreementId in r.tables.agreements && r.tables.agreements[agreementId].status == "READY_FOR_FUNDING"
  {
    match Single(Where(t.parties, ByInviteCode(code)))
    case None => EscrowStep(t, Failure(InvalidInvite))
    case Some(k) =>
      var p := t.parties[k];
      if p.agreementId != agreementId then EscrowStep(t, Failure(InvalidInvite))
      else if p.user.Some? && p.user.value != "" && p.user.value != user then EscrowStep(t, Failure(InviteUsed))
      else
        var ps := t.parties[k := p.(user := Some(user), hasAccepted := true)];
        var allAccepted := |Where(ps, Unaccepted(agreementId))| == 0;
        var ags := if allAccepted && agreementId in t.agreements
                   then t.agreements[agreementId := t.agreements[agreementId].(status := "READY_FOR_FUNDING")]
                   else t.agreements;
        EscrowStep(t.(parties := ps, agreements := ags), Success(allAccepted))
  }

  /** `accept_escrow_agreement`: binds the invite to the user if it is unbound, marks it
      accepted, and once no party of the agreement is left unaccepted, marks the agreement
      READY_FOR_FUNDING. The answer says whether that happened. */
  method AcceptEscrowAgreement(db: Database, agreementId: RowId, code: string, user: UserId)
    returns (r: Result<bool, EscrowError>)
    modifies db
    ensures EscrowStep(db.Snapshot(), r) == AcceptSpec(old(db.Snapshot()), agreementId, code, user)
  {
    var found := Single(Where(db.parties, ByInviteCode(code)));
    if found.None? {
      return Failure(InvalidInvite);
    }
    var k := found.value;
    var p := db.parties[k];
    if p.agreementId != agreementId {
      return Failure(InvalidInvite);
    }
    if p.user.Some? && p.user.value != "" && p.user.value != user {
      return Failure(InviteUsed);
    }
    if !(p.user.Some? && p.user.value != "") {
      db.UpdateParty(k, p.(user := Some(user)));
    }
    db.UpdateParty(k, p.(user := Some(user), hasAccepted := true));
    assert db.parties == old(db.parties)[k := p.(user := Some(user), hasAccepted := true)];
    var allAccepted := |Where(db.parties, Unaccepted(agreementId))| == 0;
    if allAccepted && agreementId in db.agreements {
      db.UpdateAgreement(agreementId, db.agreements[agreementId].(status := "READY_FOR_FUNDING"));
    }
    r := Success(allAccepted);
  }

  /** An accepted invite ends bound to the accepting user; the agreement becomes
      READY_FOR_FUNDING exactly when that acceptance was the last one missing. Acceptance does
      not look at the agreement's status, so the last acceptance of a CANCELLED agreement also
      makes it READY_FOR_FUNDING. No money moves. */
  lemma AcceptanceEffects(t: Tables, agreementId: RowId, code: string, user: UserId)
    ensures var s := AcceptSpec(t, agreementId, code, user);
      s.result.Failure? ==> s.tables == t
    ensures var s := AcceptSpec(t, agreementId, code, user);
      s.result.Success? ==>
        s.tables.wallets == t.wallets && |s.tables.parties| == |t.parties| &&
        (exists k :: 0 <= k < |t.parties| && t.parties[k].inviteCode == code && t.parties[k].agreementId == agreementId &&
                     s.tables.parties[k] == t.parties[k].(user := Some(user), hasAccepted := true)) &&
        (s.result.value <==> forall k :: 0 <= k < |s.tables.parties| && s.tables.parties[k].agreementId == agreementId ==> s.tables.parties[k].hasAccepted) &&
        (s.result.value && agreementId in t.agreements ==> s.tables.agreements[agreementId].status == "READY_FOR_FUNDING")
  {
    var s := AcceptSpec(t, agreementId, code, user);
    if s.result.Success? {
      var k := Single(Where(t.parties, ByInviteCode(code))).value;
      assert k in Where(t.parties, ByInviteCode(code));
      var ps := s.tables.parties;
      if s.result.value {
        forall j | 0 <= j < |ps| && ps[j].agreementId == agreementId ensures ps[j].hasAccepted {
          assert j !in Where(ps, Unaccepted(agreementId));
        }
      } else {
        var j := Where(ps, Unaccepted(agreementId))[0];
        assert j in Where(ps, Unaccepted(agreementId));
      }
    }
  }

  function RejectSpec(t: Tables, agreementId: RowId, code: string, user: UserId): EscrowStep<bool> {
    match Single(Where(t.parties, ByInviteCode(code)))
    case None => EscrowStep(t, Failure(InvalidInvite))
    case Some(k) =>
      var p := t.parties[k];
      if p.agreementId != agreementId then EscrowStep(t, Failure(InvalidInvite))
      else if p.user != Some(user) then EscrowStep(t, Failure(NotYourInvite))
      else if agreementId !in t.agreements then EscrowStep(t, Failure(AgreementNotFound))
      else
        var a := t.agreements[agreementId];
        if a.status != "DRAFT" && a.status != "PENDING_ACCEPTANCE" then EscrowStep(t, Failure(CannotReject(a.status)))
        else EscrowStep(t.(parties := t.parties[k := p.(hasAccepted := false)],
                           agreements := t.agreements[agreementId := a.(status := "CANCELLED")]),
                        Success(true))
  }

  /** `reject_escrow_agreement`: a party bound to the invite withdraws its acceptance and the
      agreement is CANCELLED, while it is still DRAFT or PENDING_ACCEPTANCE. */
  method RejectEscrowAgreement(db: Database, agreementId: RowId, code: string, user: UserId)
    returns (r: Result<bool, EscrowError>)
    modifies db
    ensures EscrowStep(db.Snapshot(), r) == RejectSpec(old(db.Snapshot()), agreementId, code, user)
  {
    var found := Single(Where(db.parties, ByInviteCode(code)));
    if found.None? {
      return Failure(InvalidInvite);
    }
    var k := found.value;
    var p := db.parties[k];
    if p.agreementId != agreementId {
      return Failure(InvalidInvite);
    }
    if p.user != Some(user) {
      return Failure(NotYourInvite);
    }
    if agreementId !in db.agreements {
      return Failure(AgreementNotFound);
    }
    var a := db.agreements[agreementId];
    if a.status != "DRAFT" && a.status != "PENDING_ACCEPTANCE" {
      return Failure(CannotReject(a.status));
    }
    db.UpdateParty(k, p.(hasAccepted := false));
    db.UpdateAgreement(agreementId, a.(status := "CANCELLED"));
    r := Success(true);
  }

  /** Rejection moves no money: it is refused for every status other than DRAFT and
      PENDING_ACCEPTANCE, so the refund meant for a FUNDED agreement never runs. Only a party
      already bound to the invite may reject, and a success leaves the agreement CANCELLED. */
  lemma RejectionMovesNoMoney(t: Tables, agreementId: RowId, code: string, user: UserId)
    ensures var s := RejectSpec(t, agreementId, code, user);
      s.tables.wallets == t.wallets && s.tables.transactions == t.transactions
    ensures agreementId in t.agreements && t.agreements[agreementId].status == "FUNDED" ==>
      RejectSpec(t, agreementId, code, user).tables == t
    ensures var s := RejectSpec(t, agreementId, code, user);
      s.result.Success? ==>
        s.tables.agreements[agreementId].status == "CANCELLED" &&
        exists k :: 0 <= k < |t.parties| && t.parties[k].inviteCode == code && t.parties[k].user == Some(user)
  {
    var s := RejectSpec(t, agreementId, code, user);
    if s.result.Success? {
      var k := Single(Where(t.parties, ByInviteCode(code))).value;
      assert k in Where(t.parties, ByInviteCode(code));
    }
  }

  // ---------------------------------------------------------------- funding

  function FundSpec(t: Tables, agreementId: RowId, initiator: UserId): EscrowStep<bool> {
    if agreementId !in t.agreements then EscrowStep(t, Failure(AgreementNotFound))
    else
      var a := t.agreements[agreementId];
      if a.initiator != initiator then EscrowStep(t, Failure(NotInitiator))
      else if a.status != "READY_FOR_FUNDING" then EscrowStep(t, Failure(CannotFund(a.status)))
      else
        var ws := AddToField(AddToField(t.wallets, initiator, -a.amount, BalanceField), initiator, a.amount, EscrowField);
        EscrowStep(t.(wallets := ws, agreements := t.agreements[agreementId := a.(status := "FUNDED")]), Success(true))
  }

  /** `fund_escrow_agreement`: moves the agreed amount from the initiator's balance into escrow. */
  method FundEscrowAgreement(db: Database, agreementId: RowId, initiator: UserId)
    returns (r: Result<bool, EscrowError>)
    modifies db
    ensures EscrowStep(db.Snapshot(), r) == FundSpec(old(db.Snapshot()), agreementId, initiator)
  {
    if agreementId !in db.agreements {
      return Failure(AgreementNotFound);
    }
    var a := db.agreements[agreementId];
    if a.initiator != initiator {
      return Failure(NotInitiator);
    }
    if a.status != "READY_FOR_FUNDING" {
      return Failure(CannotFund(a.status));
    }
    db.UpdateWalletBalance(initiator, -a.amount, BalanceField);
    db.UpdateWalletBalance(initiator, a.amount, EscrowField);
    db.UpdateAgreement(agreementId, a.(status := "FUNDED"));
    r := Success(true);
  }

  /** Funding is only by the initiator of a READY_FOR_FUNDING agreement; it moves exactly the
      agreed amount from the initiator's balance to the initiator's escrow, so their total is
      unchanged. The balance is not checked first: it can go negative. */
  lemma FundingEffects(t: Tables, agreementId: RowId, initiator: UserId)
    ensures var s := FundSpec(t, agreementId, initiator);
      s.result.Success? <==>
        agreementId in t.agreements && t.agreements[agreementId].initiator == initiator &&
        t.agreements[agreementId].status == "READY_FOR_FUNDING"
    ensures var s := FundSpec(t, agreementId, initiator);
      s.result.Failure? ==> s.tables == t
    ensures var s := FundSpec(t, agreementId, initiator);
      s.result.Success? && initiator in t.wallets ==>
        var a := t.agreements[agreementId];
        s.tables.wallets[initiator] == Wallet(t.wallets[initiator].balance - a.amount, t.wallets[initiator].escrow + a.amount) &&
        s.tables.wallets[initiator].balance + s.tables.wallets[initiator].escrow == t.wallets[initiator].balance + t.wallets[initiator].escrow &&
        s.tables.agreements[agreementId].status == "FUNDED"
  {
  }

  // ---------------------------------------------------------------- completion

  function ProposeSpec(t: Tables, agreementId: RowId, user: UserId, notes: string): (r: EscrowStep<RowId>)
    ensures r.result.Failure? ==> r.tables == t
    ensures r.result.Success? ==>
      agreementId in t.agreements && t.agreements[agreementId].status == "IN_PROGRESS" && r.tables.wallets == t.wallets
  {
    if Single(Where(t.parties, Member(agreementId, user))).None? then EscrowStep(t, Failure(NotAParty))
    else if agreementId !in t.agreements then EscrowStep(t, Failure(AgreementNotFound))
    else if t.agreements[agreementId].status != "IN_PROGRESS" then EscrowStep(t, Failure(NotInProgress))
    else
      var id := t.nextId;
      EscrowStep(t.(proposals := t.proposals[id := Proposal(agreementId, user, notes)], nextId := id + 1), Success(id))
  }

  /** `propose_escrow_completion`: a party of an IN_PROGRESS agreement records a proposal. */
  method ProposeEscrowCompletion(db: Database, agreementId: RowId, user: UserId, notes: string)
    returns (r: Result<RowId, EscrowError>)
    modifies db
    ensures EscrowStep(db.Snapshot(), r) == ProposeSpec(old(db.Snapshot()), agreementId, user, notes)
  {
    var member := Single(Where(db.parties, Member(agreementId, user)));
    if member.None? {
      return Failure(NotAParty);
    }
    if agreementId !in db.agreements {
      return Failure(AgreementNotFound);
    }
    if db.agreements[agreementId].status != "IN_PROGRESS" {
      return Failure(NotInProgress);
    }
    var id := db.InsertProposal(Proposal(agreementId, user, notes));
    r := Success(id);
  }

  /** The sum of all recipient shares, and the part of it paid to user `u`. */
  function ShareTotal(rs: seq<Party>): real {
    if |rs| == 0 then 0.0 else ShareTotal(rs[..|rs| - 1]) + rs[|rs| - 1].share
  }

  function SharesTo(rs: seq<Party>, u: UserId): real {
    if |rs| == 0 then 0.0
    else SharesTo(rs[..|rs| - 1], u) + (if rs[|rs| - 1].user.GetOr("None") == u then rs[|rs| - 1].share else 0.0)
  }

  /** The wallets after paying recipients `rs` in order: each share leaves the initiator's escrow
      and enters the recipient's balance (`str(None)` names no real user). */
  function PayShares(ws: map<UserId, Wallet>, initiator: UserId, rs: seq<Party>): map<UserId, Wallet> {
    if |rs| == 0 then ws
    else
      var r := rs[|rs| - 1];
      AddToField(AddToField(PayShares(ws, initiator, rs[..|rs| - 1]), initiator, -r.share, EscrowField), r.user.GetOr("None"), r.share, BalanceField)
  }

  /** Paying the shares changes no set of wallets; each wallet gains in balance exactly the shares
      paid to its user, and only the initiator's escrow changes, by the sum of all shares. */
  lemma {:induction false} PayingSharesMovesExactlyTheShares(ws: map<UserId, Wallet>, initiator: UserId, rs: seq<Party>)
    requires initiator in ws
    ensures PayShares(ws, initiator, rs).Keys == ws.Keys
    ensures forall u :: u in ws ==>
      PayShares(ws, initiator, rs)[u] ==
        Wallet(ws[u].balance + SharesTo(rs, u), ws[u].escrow - (if u == initiator then ShareTotal(rs) else 0.0))
  {
    if |rs| > 0 {
      PayingSharesMovesExactlyTheShares(ws, initiator, rs[..|rs| - 1]);
    }
  }

  /** Paying one more share: the initiator's escrow gives it up, then the recipient's balance takes it. */
  lemma PaySharesStep(ws: map<UserId, Wallet>, initiator: UserId, rs: seq<Party>, i: nat)
    requires i < |rs|
    ensures PayShares(ws, initiator, rs[..i + 1]) ==
      AddToField(AddToField(PayShares(ws, initiator, rs[..i]), initiator, -rs[i].share, EscrowField),
                 rs[i].user.GetOr("None"), rs[i].share, BalanceField)
  {
    assert rs[..i + 1][..i] == rs[..i];
  }

  /** The platform's part of an agreement, at the rate stored on it. */
  function CommissionOf(a: Agreement): real {
    a.amount * a.commissionRate
  }

  function ReleaseSpec(t: Tables, agreementId: RowId): (r: EscrowStep<real>)
    ensures r.result.Failure? ==> r.tables == t
    ensures r.result.Success? ==>
      agreementId in t.agreements && t.agreements[agreementId].status == "IN_PROGRESS" &&
      agreementId in r.tables.agreements && r.tables.agreements[agreementId].status == "COMPLETED" && |r.tables.commissions| == |t.commissions| + 1
  {
    if agreementId !in t.agreements || t.agreements[agreementId].status != "IN_PROGRESS" then EscrowStep(t, Failure(CannotRelease))
    else
      var a := t.agreements[agreementId];
      var commission := CommissionOf(a);
      var rs := Rows(t.parties, Recipient(agreementId));
      EscrowStep(t.(wallets := PayShares(t.wallets, a.initiator, rs),
                    commissions := t.commissions + [CommissionRecord("ESCROW_AGREEMENT", None, None, None, Some(commission))],
                    agreements := t.agreements[agreementId := a.(status := "COMPLETED")]),
                 Success(a.amount - commission))
  }

  /** `release_escrow_funds`: pays every recipient its share out of the initiator's escrow,
      records the platform's commission and completes the agreement; it answers with the net
      amount. */
  lemma ReleaseSpecReleases(t: Tables, agreementId: RowId)
    requires agreementId in t.agreements && t.agreements[agreementId].status == "IN_PROGRESS"
    ensures var a := t.agreements[agreementId];
      ReleaseSpec(t, agreementId) ==
        EscrowStep(t.(wallets := PayShares(t.wallets, a.initiator, Rows(t.parties, Recipient(agreementId))),
                      commissions := t.commissions + [CommissionRecord("ESCROW_AGREEMENT", None, None, None, Some(CommissionOf(a)))],
                      agreements := t.agreements[agreementId := a.(status := "COMPLETED")]),
                   Success(a.amount - CommissionOf(a)))
  {
  }

  /** Moves each recipient's share out of the initiator's escrow and into the recipient's balance. */
  method PayRecipients(db: Database, initiator: UserId, rs: seq<Party>)
    modifies db
    ensures db.Snapshot() == old(db.Snapshot()).(wallets := PayShares(old(db.wallets), initiator, rs))
  {
    ghost var t0 := db.Snapshot();
    for i := 0 to |rs|
      invariant db.Snapshot() == t0.(wallets := PayShares(t0.wallets, initiator, rs[..i]))
    {
      ghost var w1 := AddToField(PayShares(t0.wallets, initiator, rs[..i]), initiator, -rs[i].share, EscrowField);
      PaySharesStep(t0.wallets, initiator, rs, i);
      db.UpdateWalletBalance(initiator, -rs[i].share, EscrowField);
      assert db.Snapshot() == t0.(wallets := w1);
      db.UpdateWalletBalance(rs[i].user.GetOr("None"), rs[i].share, BalanceField);
    }
    assert rs[..|rs|] == rs;
  }

  method ReleaseEscrowFunds(db: Database, agreementId: RowId) returns (r: Result<real, EscrowError>)
    modifies db
    ensures EscrowStep(db.Snapshot(), r) == ReleaseSpec(old(db.Snapshot()), agreementId)
  {
    if agreementId !in db.agreements || db.agreements[agreementId].status != "IN_PROGRESS" {
      return Failure(CannotRelease);
    }
    ghost var t0 := db.Snapshot();
    var a := db.agreements[agreementId];
    var commission := CommissionOf(a);
    var rs := Rows(db.parties, Recipient(agreementId));
    PayRecipients(db, a.initiator, rs);
    ghost var t1 := t0.(wallets := PayShares(t0.wallets, a.initiator, rs));
    assert db.Snapshot() == t1;
    var c := CommissionRecord("ESCROW_AGREEMENT", None, None, None, Some(commission));
    db.InsertCommission(c);
    assert db.Snapshot() == t1.(commissions := t0.commissions + [c]);
    db.UpdateAgreement(agreementId, a.(status := "COMPLETED"));
    assert db.Snapshot() == t1.(commissions := t0.commissions + [c], agreements := t0.agreements[agreementId := a.(status := "COMPLETED")]);
    ReleaseSpecReleases(t0, agreementId);
    r := Success(a.amount - commission);
  }

  /** Release of an IN_PROGRESS agreement takes the sum of the recipients' shares out of the
      initiator's escrow, adds to each recipient wallet its shares, completes the agreement and
      records the commission; when the shares add up to the amount net of commission, as
      creation demands, the escrow given up is exactly the net amount the release reports. */
  lemma ReleaseEffects(t: Tables, agreementId: RowId)
    requires agreementId in t.agreements && t.agreements[agreementId].initiator in t.wallets
    ensures var s := ReleaseSpec(t, agreementId);
      s.result.Success? <==> t.agreements[agreementId].status == "IN_PROGRESS"
    ensures var s := ReleaseSpec(t, agreementId);
      s.result.Failure? ==> s.tables == t
    ensures var s := ReleaseSpec(t, agreementId);
      s.result.Success? ==>
        var a := t.agreements[agreementId];
        var rs := Rows(t.parties, Recipient(agreementId));
        s.tables.agreements[agreementId].status == "COMPLETED" &&
        s.tables.wallets.Keys == t.wallets.Keys &&
        s.tables.wallets[a.initiator].escrow == t.wallets[a.initiator].escrow - ShareTotal(rs) &&
        (forall u :: u in t.wallets ==> s.tables.wallets[u].balance == t.wallets[u].balance + SharesTo(rs, u)) &&
        (forall u :: u in t.wallets && u != a.initiator ==> s.tables.wallets[u].escrow == t.wallets[u].escrow) &&
        s.tables.commissions == t.commissions + [CommissionRecord("ESCROW_AGREEMENT", None, None, None, Some(CommissionOf(a)))] &&
        (ShareTotal(rs) == a.amount - CommissionOf(a) ==>
           t.wallets[a.initiator].escrow - s.tables.wallets[a.initiator].escrow == s.result.value)
  {
    var a := t.agreements[agreementId];
    PayingSharesMovesExactlyTheShares(t.wallets, a.initiator, Rows(t.parties, Recipient(agreementId)));
  }

  function VoteSpec(t: Tables, proposalId: RowId, user: UserId, confirm: bool): (r: EscrowStep<VoteResult>)
    ensures r.tables.wallets != t.wallets ==> r.result.Success? && r.result.value.Released?
    ensures r.result.Success? && r.result.value.Released? ==>
      proposalId in t.proposals && t.proposals[proposalId].agreementId in t.agreements &&
      t.agreements[t.proposals[proposalId].agreementId].status == "IN_PROGRESS"
  {
    if proposalId !in t.proposals then EscrowStep(t, Failure(ProposalNotFound))
    else
      var aid := t.proposals[proposalId].agreementId;
      match Single(Where(t.parties, Member(aid, user)))
      case None => EscrowStep(t, Failure(NotAParty))
      case Some(k) =>
        var voted := t.(parties := t.parties[k := t.parties[k].(confirmed := Some(confirm))]);
        if |Where(voted.parties, VotedAgainst(aid))| == 0 then
          var s := ReleaseSpec(voted, aid);
          EscrowStep(s.tables, match s.result case Success(net) => Success(Released(net)) case Failure(e) => Failure(e))
        else EscrowStep(voted, Success(VoteRecorded))
  }

  /** `vote_escrow_completion`: records the party's vote and, when no party of the agreement has
      voted against, releases the funds. */
  method VoteEscrowCompletion(db: Database, proposalId: RowId, user: UserId, confirm: bool)
    returns (r: Result<VoteResult, EscrowError>)
    modifies db
    ensures EscrowStep(db.Snapshot(), r) == VoteSpec(old(db.Snapshot()), proposalId, user, confirm)
  {
    if proposalId !in db.proposals {
      return Failure(ProposalNotFound);
    }
    var aid := db.proposals[proposalId].agreementId;
    var member := Single(Where(db.parties, Member(aid, user)));
    if member.None? {
      return Failure(NotAParty);
    }
    var k := member.value;
    db.UpdateParty(k, db.parties[k].(confirmed := Some(confirm)));
    if |Where(db.parties, VotedAgainst(aid))| == 0 {
      var released := ReleaseEscrowFunds(db, aid);
      match released
      case Success(net) => r := Success(Released(net));
      case Failure(e) => r := Failure(e);
    } else {
      r := Success(VoteRecorded);
    }
  }

  /** Only a vote against holds a release back: a party that has not voted does not. With two
      parties neither of whom has voted, the first vote in favour already releases the funds of
      an IN_PROGRESS agreement. A vote against never releases. */
  lemma UnvotedPartiesDoNotHoldRelease(t: Tables, proposalId: RowId, user: UserId, other: UserId)
    requires proposalId in t.proposals
    requires var aid := t.proposals[proposalId].agreementId;
      aid in t.agreements && t.agreements[aid].status == "IN_PROGRESS" && user != other &&
      t.parties == [Party(aid, "a", "PAYER", 0.0, Some(user), "x", true, None),
                    Party(aid, "b", "RECIPIENT", 0.0, Some(other), "y", true, None)]
    ensures VoteSpec(t, proposalId, user, true).result.Success? && VoteSpec(t, proposalId, user, true).result.value.Released?
    ensures VoteSpec(t, proposalId, user, false) ==
      EscrowStep(t.(parties := t.parties[0 := t.parties[0].(confirmed := Some(false))]), Success(VoteRecorded))
  {
    var aid := t.proposals[proposalId].agreementId;
    assert Where(t.parties, Member(aid, user)) == [0] by {
      assert t.parties[..1] == [t.parties[0]];
      assert Where(t.parties[..1], Member(aid, user)) == [0] by {
        assert t.parties[..1][..0] == [];
      }
    }
    var v := t.parties[0 := t.parties[0].(confirmed := Some(true))];
    WhereNone(v, VotedAgainst(aid));
    var w := t.parties[0 := t.parties[0].(confirmed := Some(false))];
    assert 0 in Where(w, VotedAgainst(aid));
  }

  // ---------------------------------------------------------------- lifecycle

  predicate NoneInProgress(ags: map<RowId, Agreement>) {
    forall id :: id in ags ==> ags[id].status != "IN_PROGRESS"
  }

  /** Writing a status other than IN_PROGRESS keeps every agreement out of IN_PROGRESS. */
  lemma StatusWriteKeepsNoneInProgress(ags: map<RowId, Agreement>, id: RowId, a: Agreement)
    requires NoneInProgress(ags) && a.status != "IN_PROGRESS"
    ensures NoneInProgress(ags[id := a])
  {
  }

  /** Creation writes a DRAFT agreement. */
  lemma CreateKeepsNoneInProgress(t: Tables, initiator: UserId, amount: real, rate: real, drafts: seq<PartyDraft>)
    requires NoneInProgress(t.agreements)
    ensures NoneInProgress(CreateEscrowAgreementSpec(t, initiator, amount, rate, drafts).tables.agreements)
  {
    StatusWriteKeepsNoneInProgress(t.agreements, t.nextId, Agreement(initiator, amount, rate, "DRAFT"));
  }

  /** Acceptance writes READY_FOR_FUNDING or nothing. */
  lemma AcceptKeepsNoneInProgress(t: Tables, aid: RowId, code: string, user: UserId)
    requires NoneInProgress(t.agreements)
    ensures NoneInProgress(AcceptSpec(t, aid, code, user).tables.agreements)
  {
    if aid in t.agreements {
      StatusWriteKeepsNoneInProgress(t.agreements, aid, t.agreements[aid].(status := "READY_FOR_FUNDING"));
    }
  }

  /** Rejection writes CANCELLED or nothing. */
  lemma RejectKeepsNoneInProgress(t: Tables, aid: RowId, code: string, user: UserId)
    requires NoneInProgress(t.agreements)
    ensures NoneInProgress(RejectSpec(t, aid, code, user).tables.agreements)
  {
    if aid in t.agreements {
      StatusWriteKeepsNoneInProgress(t.agreements, aid, t.agreements[aid].(status := "CANCELLED"));
    }
  }

  /** Funding writes FUNDED or nothing. */
  lemma FundKeepsNoneInProgress(t: Tables, aid: RowId, initiator: UserId)
    requires NoneInProgress(t.agreements)
    ensures NoneInProgress(FundSpec(t, aid, initiator).tables.agreements)
  {
    if aid in t.agreements {
      StatusWriteKeepsNoneInProgress(t.agreements, aid, t.agreements[aid].(status := "FUNDED"));
    }
  }

  /** No operation of the service moves an agreement into IN_PROGRESS: the statuses it writes
      are DRAFT, READY_FOR_FUNDING, CANCELLED, FUNDED and COMPLETED. */
  lemma SetupNeverEntersInProgress(t: Tables, aid: RowId, initiator: UserId, amount: real, rate: real, drafts: seq<PartyDraft>,
                                   code: string, user: UserId)
    requires NoneInProgress(t.agreements)
    ensures NoneInProgress(CreateEscrowAgreementSpec(t, initiator, amount, rate, drafts).tables.agreements)
    ensures NoneInProgress(AcceptSpec(t, aid, code, user).tables.agreements)
    ensures NoneInProgress(RejectSpec(t, aid, code, user).tables.agreements)
    ensures NoneInProgress(FundSpec(t, aid, initiator).tables.agreements)
  {
    CreateKeepsNoneInProgress(t, initiator, amount, rate, drafts);
    AcceptKeepsNoneInProgress(t, aid, code, user);
    RejectKeepsNoneInProgress(t, aid, code, user);
    FundKeepsNoneInProgress(t, aid, initiator);
  }

  /** Hence, starting from agreements none of which is IN_PROGRESS, every completion proposal
      and every release is refused, and a vote changes no agreement. */
  lemma CompletionIsUnreachable(t: Tables, aid: RowId, user: UserId, notes: string, proposalId: RowId, confirm: bool)
    requires NoneInProgress(t.agreements)
    ensures ProposeSpec(t, aid, user, notes).result.Failure?
    ensures ReleaseSpec(t, aid) == EscrowStep(t, Failure(CannotRelease))
    ensures VoteSpec(t, proposalId, user, confirm).tables.agreements == t.agreements
    ensures !VoteSpec(t, proposalId, user, confirm).result.Success? || VoteSpec(t, proposalId, user, confirm).result.value == VoteRecorded
  {
    assert aid !in t.agreements || t.agreements[aid].status != "IN_PROGRESS";
    if proposalId in t.proposals {
      var pa := t.proposals[proposalId].agreementId;
      match Single(Where(t.parties, Member(pa, user)))
      case None =>
      case Some(k) =>
        var voted := t.(parties := t.parties[k := t.parties[k].(confirmed := Some(confirm))]);
        assert pa !in voted.agreements || voted.agreements[pa].status != "IN_PROGRESS";
        assert ReleaseSpec(voted, pa) == EscrowStep(voted, Failure(CannotRelease));
    }
  }
}
