/**
 * When a call takes effect: exactly when its caller is entitled, its id is new, its text is filled in
 * and the policies and ledgers leave room. No arithmetic limit but the revision counter and the total of
 * deposits can ever refuse it.
 */
module AccountAvailability {
  import opened Base
  import opened Protocol
  import opened Accounts
  import opened Books
  import opened Preservation
  import opened AccountRuns
  import opened AccountHistory
  import opened AccountTheorems
  import opened AccountAuthority

  /** The texts a call must fill in, and the value classes it may name. */
  predicate Worded(op: Op) {
    match op
    case OpDeposit(d, _) => !Blank(d.depositId) && d.valueClass != PeerCredit
    case OpReceipt(r, _, _, _) => !Blank(r.receiptId) && !Blank(r.service) && !Blank(r.resource)
    case OpNovate(n, _, _) => !Blank(n.novationId)
    case OpBacked(n, _, _) => !Blank(n.settlementId) && n.valueClass != PeerCredit
    case OpConsume(c, _) => !Blank(c.consumptionId) && !Blank(c.resource)
    case OpAuthorize(q, _, _) => !Blank(q.settlementId) && !Blank(q.payoutDestination)
    case _ => true
  }

  /** `amount` more backed liability of the given class fits in the backing and in the cap. */
  predicate RoomForBacked(s: IssuerState, valueClass: ValueClass, amount: u64) {
    if valueClass == ClosedLoopDeposit then
      amount <= s.closed.availableBacking && s.closed.claimable + amount <= s.policy.maxClosedLoop
    else
      amount <= s.reserve.available && s.reserve.redeemable + s.reserve.pending + amount <= s.policy.maxWithdrawable
  }

  predicate RoomForCredit(a: Account, s: IssuerState, amount: u64, mode: AcceptanceMode) {
    && s.peer.outstanding + amount <= s.policy.maxPeerCredit
    && (mode == OfflineDeferred ==> s.peer.offline + amount <= s.policy.maxOfflinePeerCredit)
    && a.totalPeerCredit + amount <= a.maxTotalPeerCredit
  }

  /** The ledgers hold what the call takes, and the caps leave room for what it gives. */
  predicate Room(a: Account, op: Op) {
    match op
    case OpDeposit(d, _) =>
      && d.issuer in a.issuers
      && (if d.valueClass == ClosedLoopDeposit then a.issuers[d.issuer].closed.totalDeposited + d.amount <= U64_MAX
          else a.issuers[d.issuer].reserve.totalDeposited + d.amount <= U64_MAX)
    case OpReceipt(r, _, mode, _) =>
      && r.issuer in a.issuers
      && (if r.valueClass == PeerCredit then RoomForCredit(a, a.issuers[r.issuer], r.amount, mode)
          else RoomForBacked(a.issuers[r.issuer], r.valueClass, r.amount))
    case OpNovate(n, _, _) =>
      && n.fromIssuer in a.issuers && n.toIssuer in a.issuers
      && n.amount <= a.issuers[n.fromIssuer].peer.outstanding
      && a.issuers[n.toIssuer].peer.outstanding + n.amount <= a.issuers[n.toIssuer].policy.maxPeerCredit
    case OpBacked(n, _, _) =>
      && n.fromIssuer in a.issuers && n.backingIssuer in a.issuers
      && n.amount <= a.issuers[n.fromIssuer].peer.outstanding
      && RoomForBacked(a.issuers[n.backingIssuer], n.valueClass, n.amount)
    case OpConsume(c, _) => c.issuer in a.issuers && c.amount <= a.issuers[c.issuer].closed.claimable
    case OpAuthorize(q, _, _) =>
      q.issuer in a.issuers && q.amount + q.maxFee <= a.issuers[q.issuer].reserve.redeemable
    case _ => true
  }

  predicate Applies(a: Account, op: Op) {
    Entitled(a, op) && !AlreadyRecorded(a, op) && Worded(op) && Room(a, op) && a.revision < U64_MAX
  }

  // ---------------------------------------------------------------- call by call

  lemma DepositApplies(a: Account, d: Deposit, caller: Id)
    requires d.issuer in a.issuers ==> IssuerOk(d.issuer, a.issuers[d.issuer])
    ensures Step(a, OpDeposit(d, caller)) != a <==> Applies(a, OpDeposit(d, caller))
  {
    hide Blank;
  }

  lemma BackedFits(s: IssuerState, i: Id, valueClass: ValueClass, amount: u64)
    requires IssuerOk(i, s) && valueClass != PeerCredit
    ensures (if valueClass == ClosedLoopDeposit then AllocateClosedLoop(s, amount) else AllocateReserve(s, amount)).Ok?
            <==> RoomForBacked(s, valueClass, amount)
  {
    hide Blank;
  }

  lemma CreditFits(a: Account, r: Receipt, mode: AcceptanceMode)
    requires r.issuer in a.issuers && IssuerOk(r.issuer, a.issuers[r.issuer])
    ensures GrantPeerCredit(a, r, mode).Ok? <==> RoomForCredit(a, a.issuers[r.issuer], r.amount, mode)
  {
    hide Blank;
  }

  lemma GrantFits(a: Account, r: Receipt, mode: AcceptanceMode)
    requires r.issuer in a.issuers && IssuerOk(r.issuer, a.issuers[r.issuer])
    ensures (if r.valueClass == PeerCredit then GrantPeerCredit(a, r, mode) else GrantBacked(a, r, mode)).Ok?
            <==> (r.valueClass == PeerCredit || mode == Online)
                 && (if r.valueClass == PeerCredit then RoomForCredit(a, a.issuers[r.issuer], r.amount, mode)
                     else RoomForBacked(a.issuers[r.issuer], r.valueClass, r.amount))
  {
    hide IssuerOk, GrantPeerCredit, AllocateClosedLoop, AllocateReserve, RoomForCredit, RoomForBacked;
    if r.valueClass == PeerCredit {
      CreditFits(a, r, mode);
    } else {
      BackedFits(a.issuers[r.issuer], r.issuer, r.valueClass, r.amount);
    }
  }

  lemma ReceiptApplies(a: Account, r: Receipt, caller: Id, mode: AcceptanceMode, now: u64)
    requires r.issuer in a.issuers ==> IssuerOk(r.issuer, a.issuers[r.issuer])
    ensures Step(a, OpReceipt(r, caller, mode, now)) != a <==> Applies(a, OpReceipt(r, caller, mode, now))
  {
    hide Blank, IssuerOk, GrantPeerCredit, GrantBacked, RoomForCredit, RoomForBacked;
    if r.issuer in a.issuers {
      GrantFits(a, r, mode);
    }
  }

  lemma NovateApplies(a: Account, n: Novation, caller: Id, now: u64)
    requires n.fromIssuer in a.issuers ==> IssuerOk(n.fromIssuer, a.issuers[n.fromIssuer])
    requires n.toIssuer in a.issuers ==> IssuerOk(n.toIssuer, a.issuers[n.toIssuer])
    ensures Step(a, OpNovate(n, caller, now)) != a <==> Applies(a, OpNovate(n, caller, now))
  {
    hide Blank, IssuerOk;
  }

  lemma ConversionFits(a: Account, n: BackedSettlement, revision: u64)
    requires n.fromIssuer in a.issuers && n.backingIssuer in a.issuers && n.valueClass != PeerCredit
    requires IssuerOk(n.backingIssuer, a.issuers[n.backingIssuer])
    requires a.issuers[n.fromIssuer].peer.outstanding <= a.totalPeerCredit
    ensures ConvertCredit(a, n, revision).Ok?
            <==> n.amount <= a.issuers[n.fromIssuer].peer.outstanding
                 && RoomForBacked(a.issuers[n.backingIssuer], n.valueClass, n.amount)
    ensures ConvertCredit(a, n, revision).Ok? ==> ConvertCredit(a, n, revision).value.account.revision == revision
  {
    hide IssuerOk, AllocateClosedLoop, AllocateReserve, RoomForBacked;
    BackedFits(a.issuers[n.backingIssuer], n.backingIssuer, n.valueClass, n.amount);
  }

  lemma BackedApplies(a: Account, n: BackedSettlement, caller: Id, now: u64)
    requires n.fromIssuer in a.issuers ==> a.issuers[n.fromIssuer].peer.outstanding <= a.totalPeerCredit
    requires n.backingIssuer in a.issuers ==> IssuerOk(n.backingIssuer, a.issuers[n.backingIssuer])
    ensures Step(a, OpBacked(n, caller, now)) != a <==> Applies(a, OpBacked(n, caller, now))
  {
    hide Blank, IssuerOk, ConvertCredit, RoomForBacked;
    if n.fromIssuer in a.issuers && n.backingIssuer in a.issuers && n.valueClass != PeerCredit && a.revision < U64_MAX {
      ConversionFits(a, n, a.revision + 1);
    }
  }

  lemma ConsumeApplies(a: Account, c: Consumption, caller: Id)
    requires c.issuer in a.issuers ==> IssuerOk(c.issuer, a.issuers[c.issuer])
    ensures Step(a, OpConsume(c, caller)) != a <==> Applies(a, OpConsume(c, caller))
  {
    hide Blank;
  }

  lemma AuthorizeApplies(a: Account, q: SettlementRequest, caller: Id, now: u64)
    requires q.issuer in a.issuers ==> IssuerOk(q.issuer, a.issuers[q.issuer])
    ensures Step(a, OpAuthorize(q, caller, now)) != a <==> Applies(a, OpAuthorize(q, caller, now))
  {
    hide Blank;
  }

  lemma CompleteApplies(a: Account, id: Id, fee: u64)
    requires Inv(a)
    ensures Step(a, OpComplete(id, fee)) != a <==> Applies(a, OpComplete(id, fee))
  {
    hide Inv;
    if id in a.settlements && a.settlements[id].status.Pending? && fee <= a.settlements[id].request.maxFee {
      PendingIsCovered(a, id);
    }
  }

  lemma CancelApplies(a: Account, id: Id)
    requires Inv(a)
    ensures Step(a, OpCancel(id)) != a <==> Applies(a, OpCancel(id))
  {
    hide Inv;
    if id in a.settlements && a.settlements[id].status.Pending? {
      PendingIsCovered(a, id);
    }
  }

  // ---------------------------------------------------------------- every call

  lemma IssuerIfKnown(a: Account, i: Id)
    requires Inv(a)
    ensures i in a.issuers ==> IssuerOk(i, a.issuers[i]) && a.issuers[i].peer.outstanding <= a.totalPeerCredit
  {
    hide Inv, IssuerOk;
    InvParts(a);
    if i in a.issuers {
      IssuerAt(a, i);
      DebitWithinTotal(a, i);
    }
  }

  lemma CallApplies(a: Account, op: Op)
    requires Inv(a)
    ensures Step(a, op) != a <==> Applies(a, op)
  {
    hide *;
    match op
    case OpDeposit(d, caller) =>
      IssuerIfKnown(a, d.issuer);
      DepositApplies(a, d, caller);
    case OpReceipt(r, caller, mode, now) =>
      IssuerIfKnown(a, r.issuer);
      ReceiptApplies(a, r, caller, mode, now);
    case OpNovate(n, caller, now) =>
      IssuerIfKnown(a, n.fromIssuer);
      IssuerIfKnown(a, n.toIssuer);
      NovateApplies(a, n, caller, now);
    case OpBacked(n, caller, now) =>
      IssuerIfKnown(a, n.fromIssuer);
      IssuerIfKnown(a, n.backingIssuer);
      BackedApplies(a, n, caller, now);
    case OpConsume(c, caller) =>
      IssuerIfKnown(a, c.issuer);
      ConsumeApplies(a, c, caller);
    case OpAuthorize(q, caller, now) =>
      IssuerIfKnown(a, q.issuer);
      AuthorizeApplies(a, q, caller, now);
    case OpComplete(id, fee) => CompleteApplies(a, id, fee);
    case OpCancel(id) => CancelApplies(a, id);
  }

  /** In every run, a call takes effect exactly when it is entitled, new, filled in, and there is room. */
  lemma EveryCallAppliesExactlyWhen(policy: AccountPolicy, ops: seq<Op>, op: Op)
    requires New(policy).Ok?
    ensures var a := Run(New(policy).value, ops); Step(a, op) != a <==> Applies(a, op)
  {
    hide *;
    EveryRunKeepsTheBooks(policy, ops);
    CallApplies(Run(New(policy).value, ops), op);
  }
}
