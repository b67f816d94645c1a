/**
 * Where the records of an account come from: every one of them was entered by a call of the right
 * authenticated party, made before every deadline that applies to it.
 */
module AccountAuthority {
  import opened Base
  import opened Protocol
  import opened Accounts
  import opened AccountRuns
  import opened AccountHistory

  /** The policy of a known issuer is in force at `now`. */
  predicate InForce(a: Account, issuer: Id, now: u64) {
    issuer in a.issuers && (a.issuers[issuer].policy.expiresAt.None? || now < a.issuers[issuer].policy.expiresAt.value)
  }

  /**
   * Who has to be authenticated for a call and what has to hold when it is made. Issuers answer for what
   * they owe or back, the counterparty for what it spends or withdraws; backed value is never deferred.
   */
  predicate Entitled(a: Account, op: Op) {
    match op
    case OpDeposit(d, caller) => caller == d.issuer && d.issuer in a.issuers && d.amount > 0
    case OpReceipt(r, caller, mode, now) =>
      && caller == r.issuer && r.counterparty == a.counterparty && InForce(a, r.issuer, now)
      && r.issuedAt <= now < r.expiresAt && r.amount > 0 && r.usefulUnits > 0
      && (r.valueClass == PeerCredit || mode == Online)
    case OpNovate(n, caller, now) =>
      && caller == n.toIssuer != n.fromIssuer && n.counterparty == a.counterparty
      && InForce(a, n.fromIssuer, now) && InForce(a, n.toIssuer, now) && now < n.expiresAt && n.amount > 0
    case OpBacked(n, caller, now) =>
      && caller == n.backingIssuer && n.counterparty == a.counterparty
      && InForce(a, n.fromIssuer, now) && InForce(a, n.backingIssuer, now) && now < n.expiresAt && n.amount > 0
    case OpConsume(c, caller) => caller == c.counterparty == a.counterparty && c.issuer in a.issuers && c.amount > 0
    case OpAuthorize(q, caller, now) =>
      && caller == q.counterparty == a.counterparty && InForce(a, q.issuer, now)
      && now < q.expiresAt && q.amount > 0
    case OpComplete(id, fee) => id in a.settlements && fee <= a.settlements[id].request.maxFee
    case OpCancel(id) => id in a.settlements
  }

  /** An authorization on record was granted at the time of this call. */
  predicate Stamped(a: Account, op: Op) {
    op.OpAuthorize? ==>
      && op.request.settlementId in a.settlements
      && a.settlements[op.request.settlementId].authorization.authorizedAt == op.now
  }

  /** The account holds the record this call would make, whoever called and whenever. */
  predicate Holds(a: Account, op: Op) {
    match op
    case OpDeposit(d, _) => DepositKey(d) in a.deposits && a.deposits[DepositKey(d)] == d
    case OpReceipt(r, _, _, _) => r.receiptId in a.receipts && a.receipts[r.receiptId] == r
    case OpNovate(n, _, _) => n.novationId in a.novations && a.novations[n.novationId] == n
    case OpBacked(n, _, _) => n.settlementId in a.backed && a.backed[n.settlementId] == n
    case OpConsume(c, _) => c.consumptionId in a.consumptions && a.consumptions[c.consumptionId] == c
    case OpAuthorize(q, _, _) => q.settlementId in a.settlements && a.settlements[q.settlementId].request == q
    case OpComplete(id, fee) => id in a.settlements && a.settlements[id].status == Completed(fee)
    case OpCancel(id) => id in a.settlements && a.settlements[id].status == Cancelled
  }

  /** The two calls make the same record. */
  predicate SameRecord(op: Op, made: Op) {
    match op
    case OpDeposit(d, _) => made.OpDeposit? && made.deposit == d
    case OpReceipt(r, _, _, _) => made.OpReceipt? && made.receipt == r
    case OpNovate(n, _, _) => made.OpNovate? && made.novation == n
    case OpBacked(n, _, _) => made.OpBacked? && made.backed == n
    case OpConsume(c, _) => made.OpConsume? && made.consumption == c
    case OpAuthorize(q, _, _) => made.OpAuthorize? && made.request == q
    case _ => made == op
  }

  // ---------------------------------------------------------------- one call

  /** From `a` to `b` only the records given are new. */
  predicate OnlyNew(a: Account, b: Account, op: Op) {
    && b.deposits == (if op.OpDeposit? then a.deposits[DepositKey(op.deposit) := op.deposit] else a.deposits)
    && b.receipts == (if op.OpReceipt? then a.receipts[op.receipt.receiptId := op.receipt] else a.receipts)
    && b.novations == (if op.OpNovate? then a.novations[op.novation.novationId := op.novation] else a.novations)
    && b.backed == (if op.OpBacked? then a.backed[op.backed.settlementId := op.backed] else a.backed)
    && b.consumptions == (if op.OpConsume? then a.consumptions[op.consumption.consumptionId := op.consumption]
                          else a.consumptions)
    && (match op
        case OpAuthorize(q, _, _) =>
          && q.settlementId in b.settlements && b.settlements[q.settlementId].request == q
          && b.settlements[q.settlementId].status.Pending?
          && b.settlements == a.settlements[q.settlementId := b.settlements[q.settlementId]]
        case OpComplete(id, fee) =>
          id in a.settlements && b.settlements == a.settlements[id := a.settlements[id].(status := Completed(fee))]
        case OpCancel(id) =>
          id in a.settlements && b.settlements == a.settlements[id := a.settlements[id].(status := Cancelled)]
        case _ => b.settlements == a.settlements)
  }

  lemma DepositEntry(a: Account, d: Deposit, caller: Id, b: Account)
    requires RecordDeposit(a, d, caller) == Ok(Outcome(b, Applied))
    ensures OnlyNew(a, b, OpDeposit(d, caller)) && Entitled(b, OpDeposit(d, caller))
  {
  }

  lemma ReceiptOnlyNew(a: Account, r: Receipt, caller: Id, mode: AcceptanceMode, now: u64, b: Account)
    requires r.issuer in a.issuers && r.receiptId !in a.receipts
    requires ApplyReceipt(a, r, caller, mode, now) == Ok(Outcome(b, Applied))
    ensures OnlyNew(a, b, OpReceipt(r, caller, mode, now))
    ensures b.counterparty == a.counterparty && r.issuer in b.issuers
    ensures b.issuers[r.issuer].policy == a.issuers[r.issuer].policy
    ensures ValidateReceiptIdentity(a, r, caller).Pass? && ValidateReceipt(a, r, now).Pass?
    ensures r.valueClass == PeerCredit || GrantBacked(a, r, mode).Ok?
  {
    hide GrantPeerCredit, GrantBacked, ValidateReceipt, ValidateReceiptIdentity;
    var g := if r.valueClass == PeerCredit then GrantPeerCredit(a, r, mode) else GrantBacked(a, r, mode);
    GrantShape(a, r, mode, g.value);
  }

  lemma ReceiptEntry(a: Account, r: Receipt, caller: Id, mode: AcceptanceMode, now: u64, b: Account)
    requires r.issuer in a.issuers && r.receiptId !in a.receipts
    requires ApplyReceipt(a, r, caller, mode, now) == Ok(Outcome(b, Applied))
    ensures OnlyNew(a, b, OpReceipt(r, caller, mode, now)) && Entitled(b, OpReceipt(r, caller, mode, now))
  {
    ReceiptOnlyNew(a, r, caller, mode, now, b);
    hide GrantPeerCredit, GrantBacked, ApplyReceipt, OnlyNew;
    BackedOnline(a, r, mode);
  }

  lemma BackedOnline(a: Account, r: Receipt, mode: AcceptanceMode)
    requires r.issuer in a.issuers
    ensures r.valueClass != PeerCredit && GrantBacked(a, r, mode).Ok? ==> mode == Online
  {
  }

  lemma NovateEntry(a: Account, n: Novation, caller: Id, now: u64, b: Account)
    requires Novate(a, n, caller, now) == Ok(Outcome(b, Done)) && n.novationId !in a.novations
    ensures OnlyNew(a, b, OpNovate(n, caller, now)) && Entitled(b, OpNovate(n, caller, now))
  {
  }

  lemma BackedEntry(a: Account, n: BackedSettlement, caller: Id, now: u64, b: Account)
    requires SettleWithBacking(a, n, caller, now) == Ok(Outcome(b, Applied)) && n.settlementId !in a.backed
    ensures OnlyNew(a, b, OpBacked(n, caller, now)) && Entitled(b, OpBacked(n, caller, now))
  {
  }

  lemma ConsumeEntry(a: Account, c: Consumption, caller: Id, b: Account)
    requires Consume(a, c, caller) == Ok(Outcome(b, Applied)) && c.consumptionId !in a.consumptions
    ensures OnlyNew(a, b, OpConsume(c, caller)) && Entitled(b, OpConsume(c, caller))
  {
  }

  lemma AuthorizeEntry(a: Account, q: SettlementRequest, caller: Id, now: u64, b: Account)
    requires Authorize(a, q, caller, now).Ok? && Authorize(a, q, caller, now).value.account == b
    requires q.settlementId !in a.settlements
    ensures OnlyNew(a, b, OpAuthorize(q, caller, now)) && Entitled(b, OpAuthorize(q, caller, now))
    ensures Stamped(b, OpAuthorize(q, caller, now))
  {
  }

  lemma CompleteEntry(a: Account, id: Id, fee: u64, b: Account)
    requires Complete(a, id, fee) == Ok(Outcome(b, Done)) && id in a.settlements && a.settlements[id].status.Pending?
    ensures OnlyNew(a, b, OpComplete(id, fee)) && Entitled(b, OpComplete(id, fee))
  {
  }

  lemma CancelEntry(a: Account, id: Id, b: Account)
    requires Cancel(a, id) == Ok(Outcome(b, Done)) && id in a.settlements && a.settlements[id].status.Pending?
    ensures OnlyNew(a, b, OpCancel(id)) && Entitled(b, OpCancel(id))
  {
  }

  lemma OthersStamped(a: Account, op: Op)
    ensures !op.OpAuthorize? ==> Stamped(a, op)
  {
  }

  /** A call that changes the account makes its own record and no other, and its caller was entitled to. */
  lemma ChangeIsEntitled(a: Account, op: Op)
    ensures Step(a, op) != a ==> OnlyNew(a, Step(a, op), op) && Entitled(Step(a, op), op)
    ensures Step(a, op) != a ==> Stamped(Step(a, op), op)
  {
    hide *;
    OthersStamped(Step(a, op), op);
    var b := Step(a, op);
    if b != a {
      match op
      case OpDeposit(d, caller) =>
        DepositChanges(a, d, caller);
        DepositEntry(a, d, caller, b);
      case OpReceipt(r, caller, mode, now) =>
        ReceiptChanges(a, r, caller, mode, now);
        ReceiptEntry(a, r, caller, mode, now, b);
      case OpNovate(n, caller, now) =>
        NovateChanges(a, n, caller, now);
        NovateEntry(a, n, caller, now, b);
      case OpBacked(n, caller, now) =>
        BackedChanges(a, n, caller, now);
        BackedEntry(a, n, caller, now, b);
      case OpConsume(c, caller) =>
        ConsumeChanges(a, c, caller);
        ConsumeEntry(a, c, caller, b);
      case OpAuthorize(q, caller, now) =>
        AuthorizeChanges(a, q, caller, now);
        AuthorizeEntry(a, q, caller, now, b);
      case OpComplete(id, fee) =>
        CompleteChanges(a, id, fee);
        CompleteEntry(a, id, fee, b);
      case OpCancel(id) =>
        CancelChanges(a, id);
        CancelEntry(a, id, b);
    }
  }

  lemma NewRecordIsOwn(a: Account, b: Account, op: Op, made: Op)
    requires OnlyNew(a, b, made) && Holds(b, op) && !Holds(a, op)
    ensures SameRecord(op, made)
  {
  }

  // ---------------------------------------------------------------- any run

  lemma EntitledLater(a: Account, b: Account, op: Op)
    requires Later(a, b) && Entitled(a, op) && Stamped(a, op)
    ensures Entitled(b, op) && Stamped(b, op)
  {
  }

  /** Call `k` of `ops` made the record of `op`: it was absent before that call and there after it. */
  predicate Made(a: Account, ops: seq<Op>, k: nat, op: Op)
    requires k < |ops|
  {
    SameRecord(op, ops[k]) && !Holds(Run(a, ops[..k]), op) && Holds(Run(a, ops[..k + 1]), op)
  }

  /** Some call of `ops` made the record of `op`, entitled to it as `b` now stands. */
  ghost predicate Entered(a: Account, ops: seq<Op>, b: Account, op: Op) {
    exists k :: 0 <= k < |ops| && Made(a, ops, k, op) && Entitled(b, ops[k]) && Stamped(b, ops[k])
  }

  lemma EnteredEarlier(a: Account, before: seq<Op>, b: Account, c: Account, last: Op, op: Op)
    requires Later(b, c) && Entered(a, before, b, op)
    ensures Entered(a, before + [last], c, op)
  {
    hide Later, Entitled, SameRecord, Stamped, Run, Holds;
    var k :| 0 <= k < |before| && Made(a, before, k, op) && Entitled(b, before[k]) && Stamped(b, before[k]);
    var ops := before + [last];
    assert ops[k] == before[k] && ops[..k] == before[..k] && ops[..k + 1] == before[..k + 1];
    EntitledLater(b, c, before[k]);
    assert Made(a, ops, k, op);
  }

  lemma EnteredLast(a: Account, before: seq<Op>, c: Account, last: Op, op: Op)
    requires SameRecord(op, last) && Entitled(c, last) && Stamped(c, last)
    requires !Holds(Run(a, before), op) && Holds(Run(a, before + [last]), op)
    ensures Entered(a, before + [last], c, op)
  {
    hide Entitled, SameRecord, Stamped, Run, Holds;
    var ops := before + [last];
    assert ops[|before|] == last && ops[..|before|] == before && ops[..|before| + 1] == ops;
    assert Made(a, ops, |before|, op);
  }

  lemma {:induction false} HeldWasEntered(a: Account, ops: seq<Op>, op: Op)
    requires Holds(Run(a, ops), op) && !Holds(a, op)
    ensures Entered(a, ops, Run(a, ops), op)
    decreases |ops|
  {
    hide *;
    RunOfNothing(a);
    if ops != [] {
      var n := |ops| - 1;
      var before, last := ops[..n], ops[n];
      assert before + [last] == ops;
      RunLast(a, before, last);
      var mid := Run(a, before);
      if Holds(mid, op) {
        HeldWasEntered(a, before, op);
        StepNext(mid, last);
        NextIsLater(mid, Step(mid, last));
        EnteredEarlier(a, before, mid, Step(mid, last), last, op);
      } else {
        ChangeIsEntitled(mid, last);
        NewRecordIsOwn(mid, Step(mid, last), op, last);
        EnteredLast(a, before, Step(mid, last), last, op);
      }
    }
  }

  lemma RunOfNothing(a: Account)
    ensures Run(a, []) == a
  {
  }

  lemma RunLast(a: Account, before: seq<Op>, last: Op)
    ensures Run(a, before + [last]) == Step(Run(a, before), last)
  {
    hide Step;
    RunAppend(a, before, [last]);
    assert Run(Run(a, before), [last]) == Run(Step(Run(a, before), last), []);
  }

  lemma NextIsLater(a: Account, b: Account)
    requires Next(a, b)
    ensures Later(a, b)
  {
    hide Later;
  }

  lemma NewHoldsNothing(policy: AccountPolicy, op: Op)
    requires New(policy).Ok?
    ensures !Holds(New(policy).value, op)
  {
  }

  /**
   * In every run, every record the account holds, of every kind and every settlement outcome, was made by
   * one of the calls, the one before which it was absent and after which it was there: by the party
   * entitled to it, while policies and deadlines were in force.
   */
  lemma EveryRecordWasEntitled(policy: AccountPolicy, ops: seq<Op>, op: Op)
    requires New(policy).Ok?
    ensures var a := Run(New(policy).value, ops);
            Holds(a, op) ==>
              exists k :: 0 <= k < |ops| && Made(New(policy).value, ops, k, op)
                          && Entitled(a, ops[k]) && Stamped(a, ops[k])
  {
    hide Holds, Run, New, SameRecord, Entitled, Stamped, Made;
    var a := Run(New(policy).value, ops);
    if Holds(a, op) {
      NewHoldsNothing(policy, op);
      HeldWasEntered(New(policy).value, ops, op);
    }
  }
}
