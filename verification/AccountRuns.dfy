/** What holds over every run of account operations. */
module AccountRuns {
  import opened Base
  import opened Protocol
  import opened Ledgers
  import opened Sums
  import opened Accounts
  import opened Books
  import opened Preservation
  import opened PeerPreservation

  // ---------------------------------------------------------------- the invariant holds in every run

  lemma {:induction false} AddIssuersOk(issuers: map<Id, IssuerState>, policies: seq<IssuerPolicy>)
    requires forall i :: i in issuers ==> PolicyOk(issuers[i].policy) && issuers[i] == NewIssuer(issuers[i].policy)
                                          && issuers[i].policy.issuer == i
    requires AddIssuers(issuers, policies).Ok?
    ensures var r := AddIssuers(issuers, policies).value;
            && issuers.Keys <= r.Keys && (policies != [] ==> r != map[])
            && forall i :: i in r ==> PolicyOk(r[i].policy) && r[i] == NewIssuer(r[i].policy) && r[i].policy.issuer == i
    decreases |policies|
  {
    if policies != [] {
      var id := policies[0].issuer;
      AddIssuersOk(issuers[id := NewIssuer(policies[0])], policies[1..]);
      assert id in AddIssuers(issuers, policies).value;
    }
  }

  lemma {:induction false} NothingOutstanding(issuers: map<Id, IssuerState>)
    requires forall i :: i in issuers ==> issuers[i].peer == PeerLedger(0, 0)
    ensures Sum(issuers, Outstanding()) == 0
    decreases issuers
  {
    if issuers != map[] {
      var i :| i in issuers;
      SumRemove(issuers, i, Outstanding());
      NothingOutstanding(issuers - {i});
    }
  }

  lemma NewAccountBooks(a: Account, counterparty: Id, maxTotal: u64, issuers: map<Id, IssuerState>)
    requires a == EmptyAccount(counterparty, maxTotal, issuers)
    requires forall i :: i in issuers ==> issuers[i] == NewIssuer(issuers[i].policy)
    ensures BooksBalance(a) && ExposureOk(a) && RevisionOk(a)
  {
    NothingOutstanding(issuers);
    forall i | i in issuers ensures Balanced(issuers[i], Tally(a, i)) {
      assert forall b :: Tally(a, i)(b) == 0;
    }
  }

  lemma NewAccountLog(a: Account, counterparty: Id, maxTotal: u64, issuers: map<Id, IssuerState>)
    requires a == EmptyAccount(counterparty, maxTotal, issuers)
    requires forall i :: i in issuers ==> issuers[i] == NewIssuer(issuers[i].policy)
    ensures LogOk(a)
  {
    assert PeerLedgers(issuers) == EmptyLog(issuers.Keys).ledgers;
  }

  lemma NewAccountIssuers(policy: AccountPolicy)
    requires New(policy).Ok?
    ensures var a := New(policy).value;
            && a == EmptyAccount(policy.counterparty, policy.maxTotalPeerCredit, a.issuers)
            && (forall i :: i in a.issuers ==> a.issuers[i] == NewIssuer(a.issuers[i].policy))
            && IssuersOk(a)
  {
    AddIssuersOk(map[], policy.issuers);
  }

  lemma NewEstablishes(policy: AccountPolicy)
    requires New(policy).Ok?
    ensures Inv(New(policy).value)
  {
    hide New, BooksBalance, ExposureOk, RevisionOk, LogOk, IssuersOk;
    var a := New(policy).value;
    NewAccountIssuers(policy);
    NewAccountBooks(a, policy.counterparty, policy.maxTotalPeerCredit, a.issuers);
    NewAccountLog(a, policy.counterparty, policy.maxTotalPeerCredit, a.issuers);
  }

  // A call that changes the account found its issuers known and its id unused.

  lemma DepositChanges(a: Account, d: Deposit, caller: Id)
    requires Step(a, OpDeposit(d, caller)) != a
    ensures d.issuer in a.issuers && DepositKey(d) !in a.deposits
    ensures RecordDeposit(a, d, caller) == Ok(Outcome(Step(a, OpDeposit(d, caller)), Applied))
  {
  }

  lemma ReceiptChanges(a: Account, r: Receipt, caller: Id, mode: AcceptanceMode, now: u64)
    requires Step(a, OpReceipt(r, caller, mode, now)) != a
    ensures r.issuer in a.issuers && r.receiptId !in a.receipts
    ensures ApplyReceipt(a, r, caller, mode, now) == Ok(Outcome(Step(a, OpReceipt(r, caller, mode, now)), Applied))
  {
  }

  lemma NovateChanges(a: Account, n: Novation, caller: Id, now: u64)
    requires Step(a, OpNovate(n, caller, now)) != a
    ensures n.fromIssuer in a.issuers && n.toIssuer in a.issuers && n.novationId !in a.novations
    ensures Novate(a, n, caller, now) == Ok(Outcome(Step(a, OpNovate(n, caller, now)), Done))
  {
  }

  lemma BackedChanges(a: Account, n: BackedSettlement, caller: Id, now: u64)
    requires Step(a, OpBacked(n, caller, now)) != a
    ensures n.fromIssuer in a.issuers && n.backingIssuer in a.issuers && n.settlementId !in a.backed
    ensures n.valueClass != PeerCredit
    ensures SettleWithBacking(a, n, caller, now) == Ok(Outcome(Step(a, OpBacked(n, caller, now)), Applied))
  {
  }

  lemma ConsumeChanges(a: Account, c: Consumption, caller: Id)
    requires Step(a, OpConsume(c, caller)) != a
    ensures c.issuer in a.issuers && c.consumptionId !in a.consumptions
    ensures Consume(a, c, caller) == Ok(Outcome(Step(a, OpConsume(c, caller)), Applied))
  {
  }

  lemma AuthorizeChanges(a: Account, q: SettlementRequest, caller: Id, now: u64)
    requires Step(a, OpAuthorize(q, caller, now)) != a
    ensures q.issuer in a.issuers && q.settlementId !in a.settlements
    ensures Authorize(a, q, caller, now).Ok?
    ensures Authorize(a, q, caller, now).value.account == Step(a, OpAuthorize(q, caller, now))
  {
  }

  lemma CompleteChanges(a: Account, id: Id, fee: u64)
    requires Step(a, OpComplete(id, fee)) != a
    ensures id in a.settlements && a.settlements[id].status.Pending?
    ensures Complete(a, id, fee) == Ok(Outcome(Step(a, OpComplete(id, fee)), Done))
  {
  }

  lemma CancelChanges(a: Account, id: Id)
    requires Step(a, OpCancel(id)) != a
    ensures id in a.settlements && a.settlements[id].status.Pending?
    ensures Cancel(a, id) == Ok(Outcome(Step(a, OpCancel(id)), Done))
  {
  }

  lemma SettlementAt(a: Account, id: Id)
    requires IssuersOk(a) && RecordsOk(a) && id in a.settlements
    ensures SettlementOk(a.counterparty, id, a.settlements[id])
    ensures a.settlements[id].request.issuer in a.issuers
    ensures IssuerOk(a.settlements[id].request.issuer, a.issuers[a.settlements[id].request.issuer])
  {
  }

  /** Every operation keeps the invariant, whether it applies, replays or refuses. */
  lemma StepKeeps(a: Account, op: Op)
    ensures Inv(a) ==> Inv(Step(a, op))
  {
    hide *;
    var b := Step(a, op);
    if Inv(a) && b != a {
      InvParts(a);
      match op
      case OpDeposit(d, caller) =>
        DepositChanges(a, d, caller);
        DepositKeeps(a, d, caller, b);
      case OpReceipt(r, caller, mode, now) =>
        ReceiptChanges(a, r, caller, mode, now);
        ReceiptKeeps(a, r, caller, mode, now, b);
      case OpNovate(n, caller, now) =>
        NovateChanges(a, n, caller, now);
        NovateKeeps(a, n, caller, now, b);
      case OpBacked(n, caller, now) =>
        BackedChanges(a, n, caller, now);
        BackedKeeps(a, n, caller, now, b);
      case OpConsume(c, caller) =>
        ConsumeChanges(a, c, caller);
        ConsumeKeeps(a, c, caller, b);
      case OpAuthorize(q, caller, now) =>
        AuthorizeChanges(a, q, caller, now);
        IssuerAt(a, q.issuer);
        AuthorizeShape(a, q, caller, now, b);
        SettlementEditKeeps(a, b, q.settlementId, b.settlements[q.settlementId]);
      case OpComplete(id, fee) =>
        CompleteChanges(a, id, fee);
        SettlementAt(a, id);
        CompleteShape(a, id, fee, b);
        SettlementEditKeeps(a, b, id, a.settlements[id].(status := Completed(fee)));
      case OpCancel(id) =>
        CancelChanges(a, id);
        SettlementAt(a, id);
        CancelShape(a, id, b);
        SettlementEditKeeps(a, b, id, a.settlements[id].(status := Cancelled));
    }
  }

  lemma {:induction false} RunKeeps(a: Account, ops: seq<Op>)
    ensures Inv(a) ==> Inv(Run(a, ops))
    decreases |ops|
  {
    hide Inv;
    if ops != [] {
      StepKeeps(a, ops[0]);
      RunKeeps(Step(a, ops[0]), ops[1..]);
    }
  }

  /** From a new account, no sequence of calls leaves the invariant. */
  lemma EveryRunKeepsTheBooks(policy: AccountPolicy, ops: seq<Op>)
    requires New(policy).Ok?
    ensures Inv(Run(New(policy).value, ops))
  {
    NewEstablishes(policy);
    RunKeeps(New(policy).value, ops);
  }
}
