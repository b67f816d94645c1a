/** Refusals: the reason a caller is given is always true, of a policy at creation and of a call in any run. */
module AccountRefusals {
  import opened Base
  import opened Protocol
  import opened Accounts
  import opened Books
  import opened AccountRuns
  import opened AccountAuthority
  import opened AccountAvailability
  import opened AccountTheorems

  // ---------------------------------------------------------------- creation

  predicate DistinctIssuers(policies: seq<IssuerPolicy>) {
    forall j, k :: 0 <= j < k < |policies| ==> policies[j].issuer != policies[k].issuer
  }

  /** What is wrong with the issuers of a policy, taken in order after the issuers already added. */
  predicate IssuersReason(added: map<Id, IssuerState>, policies: seq<IssuerPolicy>, e: CreditError) {
    || (e == InvalidPolicy && (exists k :: 0 <= k < |policies| && !PolicyOk(policies[k])))
    || (e == DuplicateIssuer && !DistinctIssuers(policies))
    || (e == DuplicateIssuer && (exists k :: 0 <= k < |policies| && policies[k].issuer in added))
  }

  /** The policies are well formed and name issuers that are distinct and new. */
  predicate Addable(added: map<Id, IssuerState>, policies: seq<IssuerPolicy>) {
    && (forall k :: 0 <= k < |policies| ==> PolicyOk(policies[k]) && policies[k].issuer !in added)
    && DistinctIssuers(policies)
  }

  lemma AddableStep(added: map<Id, IssuerState>, policies: seq<IssuerPolicy>)
    requires policies != []
    ensures var first, rest := policies[0], policies[1..];
            Addable(added, policies)
            <==> PolicyOk(first) && first.issuer !in added && Addable(added[first.issuer := NewIssuer(first)], rest)
  {
    hide PolicyOk, NewIssuer;
    var first, rest := policies[0], policies[1..];
    assert forall k :: 0 <= k < |rest| ==> rest[k] == policies[k + 1];
    assert forall k :: 0 < k < |policies| ==> policies[k] == rest[k - 1];
  }

  lemma {:induction false} AddIssuersExactly(added: map<Id, IssuerState>, policies: seq<IssuerPolicy>)
    ensures AddIssuers(added, policies).Ok? <==> Addable(added, policies)
    ensures AddIssuers(added, policies).Ok? ==>
              AddIssuers(added, policies).value.Keys == added.Keys + set k | 0 <= k < |policies| :: policies[k].issuer
    decreases |policies|
  {
    if policies != [] {
      AddableStep(added, policies);
      hide PolicyOk, Addable, NewIssuer;
      var first, rest := policies[0], policies[1..];
      AddIssuersExactly(added[first.issuer := NewIssuer(first)], rest);
      assert forall k :: 0 <= k < |rest| ==> rest[k] == policies[k + 1];
      assert forall k :: 0 < k < |policies| ==> policies[k] == rest[k - 1];
    }
  }

  lemma {:induction false} AddIssuersRefusal(added: map<Id, IssuerState>, policies: seq<IssuerPolicy>)
    ensures AddIssuers(added, policies).Err? ==> IssuersReason(added, policies, AddIssuers(added, policies).error)
    decreases |policies|
  {
    if policies != [] && PolicyOk(policies[0]) && policies[0].issuer !in added {
      hide PolicyOk, NewIssuer;
      var first, rest := policies[0], policies[1..];
      AddIssuersRefusal(added[first.issuer := NewIssuer(first)], rest);
      assert forall k :: 0 <= k < |rest| ==> rest[k] == policies[k + 1];
    }
  }

  /** What is wrong with a policy. */
  predicate PolicyReason(policy: AccountPolicy, e: CreditError) {
    || (e == NoIssuers && policy.issuers == [])
    || (e == InvalidPolicy && Blank(policy.counterparty))
    || IssuersReason(map[], policy.issuers, e)
  }

  /** A policy is accepted exactly when it names a counterparty and distinct, well-formed issuers. */
  lemma NewExactlyWhen(policy: AccountPolicy)
    ensures New(policy).Ok? <==>
              && !Blank(policy.counterparty) && policy.issuers != []
              && (forall k :: 0 <= k < |policy.issuers| ==> PolicyOk(policy.issuers[k]))
              && DistinctIssuers(policy.issuers)
    ensures New(policy).Ok? ==>
              && New(policy).value.counterparty == policy.counterparty
              && New(policy).value.issuers.Keys == set k | 0 <= k < |policy.issuers| :: policy.issuers[k].issuer
    ensures New(policy).Err? ==> PolicyReason(policy, New(policy).error)
  {
    hide Blank, AddIssuers, PolicyOk, DistinctIssuers;
    AddIssuersExactly(map[], policy.issuers);
    AddIssuersRefusal(map[], policy.issuers);
  }

  // ---------------------------------------------------------------- calls

  predicate Expired(a: Account, issuer: Id, now: u64) { issuer in a.issuers && !InForce(a, issuer, now) }

  predicate DepositReason(a: Account, d: Deposit, caller: Id, e: CreditError) {
    || (e == UnauthenticatedIssuer && caller != d.issuer)
    || (e == WrongIssuer && d.issuer !in a.issuers)
    || (e == MissingDepositId && Blank(d.depositId))
    || (e == ZeroAmount && d.amount == 0)
    || (e == UnsupportedBackingClass && d.valueClass == PeerCredit)
    || (e == DepositConflict && DepositKey(d) in a.deposits && a.deposits[DepositKey(d)] != d)
    || (e == RevisionOverflow && a.revision == U64_MAX)
    || (e == ArithmeticOverflow && !Room(a, OpDeposit(d, caller)))
  }

  /** Why `amount` of the given class cannot be allocated at `s`. */
  predicate BackingReason(s: IssuerState, valueClass: ValueClass, amount: u64, e: CreditError) {
    || (e == InsufficientClosedLoopBacking && valueClass == ClosedLoopDeposit && amount > s.closed.availableBacking)
    || (e == ClosedLoopExposureExceeded && valueClass == ClosedLoopDeposit
        && s.closed.claimable + amount > s.policy.maxClosedLoop)
    || (e == InsufficientAvailableReserve && valueClass == ReserveBackedWithdrawable && amount > s.reserve.available)
    || (e == WithdrawableExposureExceeded && valueClass == ReserveBackedWithdrawable
        && s.reserve.redeemable + s.reserve.pending + amount > s.policy.maxWithdrawable)
    || (e == ArithmeticOverflow && !RoomForBacked(s, valueClass, amount))
  }

  predicate CreditReason(a: Account, s: IssuerState, amount: u64, mode: AcceptanceMode, e: CreditError) {
    || (e == IssuerExposureExceeded && s.peer.outstanding + amount > s.policy.maxPeerCredit)
    || (e == OfflineExposureExceeded && mode == OfflineDeferred
        && s.peer.offline + amount > s.policy.maxOfflinePeerCredit)
    || (e == TotalExposureExceeded && a.totalPeerCredit + amount > a.maxTotalPeerCredit)
    || (e == ArithmeticOverflow && !RoomForCredit(a, s, amount, mode))
  }

  predicate ReceiptReason(a: Account, r: Receipt, caller: Id, mode: AcceptanceMode, now: u64, e: CreditError) {
    || (e == WrongCounterparty && r.counterparty != a.counterparty)
    || (e == UnauthenticatedIssuer && caller != r.issuer)
    || (e == WrongIssuer && r.issuer !in a.issuers)
    || (e == MissingReceiptId && Blank(r.receiptId))
    || (e == ReceiptConflict && r.receiptId in a.receipts && a.receipts[r.receiptId] != r)
    || (e == PolicyExpired && Expired(a, r.issuer, now))
    || (e == ReceiptExpired && now >= r.expiresAt)
    || (e == ReceiptNotYetValid && now < r.issuedAt)
    || (e == NoUsefulService && (Blank(r.service) || Blank(r.resource) || r.usefulUnits == 0))
    || (e == ZeroAmount && r.amount == 0)
    || (e == RevisionOverflow && a.revision == U64_MAX)
    || (e == BackingVerificationRequired && r.valueClass != PeerCredit && mode == OfflineDeferred)
    || (r.issuer in a.issuers && r.valueClass == PeerCredit
        && CreditReason(a, a.issuers[r.issuer], r.amount, mode, e))
    || (r.issuer in a.issuers && r.valueClass != PeerCredit
        && BackingReason(a.issuers[r.issuer], r.valueClass, r.amount, e))
  }

  predicate NovateReason(a: Account, n: Novation, caller: Id, now: u64, e: CreditError) {
    || (e == WrongCounterparty && n.counterparty != a.counterparty)
    || (e == UnauthenticatedIssuer && caller != n.toIssuer)
    || (e == SameIssuerNovation && n.fromIssuer == n.toIssuer)
    || (e == MissingNovationId && Blank(n.novationId))
    || (e == WrongIssuer && (n.fromIssuer !in a.issuers || n.toIssuer !in a.issuers))
    || (e == NovationConflict && n.novationId in a.novations && a.novations[n.novationId] != n)
    || (e == NovationExpired && now >= n.expiresAt)
    || (e == ZeroAmount && n.amount == 0)
    || (e == PolicyExpired && (Expired(a, n.fromIssuer, now) || Expired(a, n.toIssuer, now)))
    || (e == RevisionOverflow && a.revision == U64_MAX)
    || (e == InsufficientPeerCredit && n.fromIssuer in a.issuers
        && n.amount > a.issuers[n.fromIssuer].peer.outstanding)
    || (e == IssuerExposureExceeded && !Room(a, OpNovate(n, caller, now)))
    || (e == ArithmeticOverflow && !Room(a, OpNovate(n, caller, now)))
  }

  predicate BackedReason(a: Account, n: BackedSettlement, caller: Id, now: u64, e: CreditError) {
    || (e == WrongCounterparty && n.counterparty != a.counterparty)
    || (e == UnauthenticatedIssuer && caller != n.backingIssuer)
    || (e == WrongIssuer && (n.fromIssuer !in a.issuers || n.backingIssuer !in a.issuers))
    || (e == MissingBackedSettlementId && Blank(n.settlementId))
    || (e == BackedSettlementConflict && n.settlementId in a.backed && a.backed[n.settlementId] != n)
    || (e == PolicyExpired && (Expired(a, n.fromIssuer, now) || Expired(a, n.backingIssuer, now)))
    || (e == BackedSettlementExpired && now >= n.expiresAt)
    || (e == ZeroAmount && n.amount == 0)
    || (e == UnsupportedBackingClass && n.valueClass == PeerCredit)
    || (e == RevisionOverflow && a.revision == U64_MAX)
    || (e == InsufficientPeerCredit && n.fromIssuer in a.issuers
        && n.amount > a.issuers[n.fromIssuer].peer.outstanding)
    || (n.backingIssuer in a.issuers && BackingReason(a.issuers[n.backingIssuer], n.valueClass, n.amount, e))
  }

  predicate ConsumeReason(a: Account, c: Consumption, caller: Id, e: CreditError) {
    || (e == WrongCounterparty && c.counterparty != a.counterparty)
    || (e == UnauthenticatedCounterparty && caller != c.counterparty)
    || (e == WrongIssuer && c.issuer !in a.issuers)
    || (e == MissingConsumptionId && Blank(c.consumptionId))
    || (e == NoUsefulService && Blank(c.resource))
    || (e == ZeroAmount && c.amount == 0)
    || (e == ConsumptionConflict && c.consumptionId in a.consumptions && a.consumptions[c.consumptionId] != c)
    || (e == RevisionOverflow && a.revision == U64_MAX)
    || (e == InsufficientClosedLoopBacking && !Room(a, OpConsume(c, caller)))
  }

  predicate AuthorizeReason(a: Account, q: SettlementRequest, caller: Id, now: u64, e: CreditError) {
    || (e == WrongCounterparty && q.counterparty != a.counterparty)
    || (e == UnauthenticatedCounterparty && caller != q.counterparty)
    || (e == WrongIssuer && q.issuer !in a.issuers)
    || (e == MissingSettlementId && Blank(q.settlementId))
    || (e == SettlementConflict && q.settlementId in a.settlements && a.settlements[q.settlementId].request != q)
    || (e == SettlementCompleted && q.settlementId in a.settlements
        && a.settlements[q.settlementId].status.Completed?)
    || (e == SettlementCancelled && q.settlementId in a.settlements
        && a.settlements[q.settlementId].status.Cancelled?)
    || (e == PolicyExpired && Expired(a, q.issuer, now))
    || (e == SettlementExpired && now >= q.expiresAt)
    || (e == ZeroAmount && q.amount == 0)
    || (e == MissingPayoutDestination && Blank(q.payoutDestination))
    || (e == RevisionOverflow && a.revision == U64_MAX)
    || (e == ArithmeticOverflow && q.amount + q.maxFee > U64_MAX)
    || (e == InsufficientRedeemableReserve && !Room(a, OpAuthorize(q, caller, now)))
  }

  predicate CloseReason(a: Account, op: Op, e: CreditError)
    requires op.OpComplete? || op.OpCancel?
  {
    || (e == UnknownSettlement && op.id !in a.settlements)
    || (e == SettlementCancelled && op.OpComplete? && op.id in a.settlements
        && a.settlements[op.id].status.Cancelled?)
    || (e == SettlementCompleted && op.OpCancel? && op.id in a.settlements && a.settlements[op.id].status.Completed?)
    || (e == SettlementCompletionConflict && op.OpComplete? && op.id in a.settlements
        && a.settlements[op.id].status.Completed? && a.settlements[op.id].status.fee != op.fee)
    || (e == SettlementFeeExceeded && op.OpComplete? && op.id in a.settlements
        && op.fee > a.settlements[op.id].request.maxFee)
    || (e == RevisionOverflow && a.revision == U64_MAX)
  }

  predicate Reason(a: Account, op: Op, e: CreditError) {
    match op
    case OpDeposit(d, caller) => DepositReason(a, d, caller, e)
    case OpReceipt(r, caller, mode, now) => ReceiptReason(a, r, caller, mode, now, e)
    case OpNovate(n, caller, now) => NovateReason(a, n, caller, now, e)
    case OpBacked(n, caller, now) => BackedReason(a, n, caller, now, e)
    case OpConsume(c, caller) => ConsumeReason(a, c, caller, e)
    case OpAuthorize(q, caller, now) => AuthorizeReason(a, q, caller, now, e)
    case _ => CloseReason(a, op, e)
  }

  // ---------------------------------------------------------------- call by call

  lemma DepositRefusal(a: Account, d: Deposit, caller: Id)
    requires d.issuer in a.issuers ==> IssuerOk(d.issuer, a.issuers[d.issuer])
    ensures RecordDeposit(a, d, caller).Err? ==> DepositReason(a, d, caller, RecordDeposit(a, d, caller).error)
  {
    hide Blank;
  }

  lemma BackingRefusal(s: IssuerState, i: Id, valueClass: ValueClass, amount: u64)
    requires IssuerOk(i, s) && valueClass != PeerCredit
    ensures var r := if valueClass == ClosedLoopDeposit then AllocateClosedLoop(s, amount) else AllocateReserve(s, amount);
            r.Err? ==> BackingReason(s, valueClass, amount, r.error)
                       && r.error != BackingVerificationRequired && r.error != InsufficientPeerCredit
  {
    hide Blank;
  }

  lemma CreditRefusal(a: Account, r: Receipt, mode: AcceptanceMode)
    requires r.issuer in a.issuers && IssuerOk(r.issuer, a.issuers[r.issuer])
    ensures var g := GrantPeerCredit(a, r, mode);
            g.Err? ==> CreditReason(a, a.issuers[r.issuer], r.amount, mode, g.error)
                       && g.error != BackingVerificationRequired
  {
    hide Blank;
  }

  lemma GrantRefusal(a: Account, r: Receipt, mode: AcceptanceMode)
    requires r.issuer in a.issuers && IssuerOk(r.issuer, a.issuers[r.issuer])
    ensures var g := if r.valueClass == PeerCredit then GrantPeerCredit(a, r, mode) else GrantBacked(a, r, mode);
            g.Err? ==>
              if g.error == BackingVerificationRequired then r.valueClass != PeerCredit && mode == OfflineDeferred
              else if r.valueClass == PeerCredit then CreditReason(a, a.issuers[r.issuer], r.amount, mode, g.error)
              else BackingReason(a.issuers[r.issuer], r.valueClass, r.amount, g.error)
  {
    if r.valueClass == PeerCredit {
      CreditRefusal(a, r, mode);
    } else {
      BackingRefusal(a.issuers[r.issuer], r.issuer, r.valueClass, r.amount);
    }
    hide IssuerOk, GrantPeerCredit, AllocateClosedLoop, AllocateReserve, BackingReason, CreditReason;
  }

  /** Only the errors of a grant are left to the ledgers. */
  lemma ReceiptChecks(a: Account, r: Receipt, caller: Id, mode: AcceptanceMode, now: u64)
    ensures ValidateReceiptIdentity(a, r, caller).Fail? ==>
              ReceiptReason(a, r, caller, mode, now, ValidateReceiptIdentity(a, r, caller).error)
    ensures r.issuer in a.issuers && ValidateReceipt(a, r, now).Fail? ==>
              ReceiptReason(a, r, caller, mode, now, ValidateReceipt(a, r, now).error)
    ensures ValidateReceiptIdentity(a, r, caller).Pass? ==> r.issuer in a.issuers
  {
    hide Blank, CreditReason, BackingReason;
  }

  lemma LedgerReasons(a: Account, r: Receipt, caller: Id, mode: AcceptanceMode, now: u64, e: CreditError)
    requires r.issuer in a.issuers
    requires if r.valueClass == PeerCredit then CreditReason(a, a.issuers[r.issuer], r.amount, mode, e)
             else BackingReason(a.issuers[r.issuer], r.valueClass, r.amount, e)
    ensures ReceiptReason(a, r, caller, mode, now, e)
  {
    hide Blank, RoomForBacked, RoomForCredit;
  }

  lemma ReceiptRefusal(a: Account, r: Receipt, caller: Id, mode: AcceptanceMode, now: u64)
    requires r.issuer in a.issuers ==> IssuerOk(r.issuer, a.issuers[r.issuer])
    ensures ApplyReceipt(a, r, caller, mode, now).Err? ==>
              ReceiptReason(a, r, caller, mode, now, ApplyReceipt(a, r, caller, mode, now).error)
  {
    ReceiptChecks(a, r, caller, mode, now);
    hide Blank, IssuerOk, GrantPeerCredit, GrantBacked, ValidateReceipt, ValidateReceiptIdentity, BackingReason, CreditReason;
    if r.issuer in a.issuers {
      GrantRefusal(a, r, mode);
      var g := if r.valueClass == PeerCredit then GrantPeerCredit(a, r, mode) else GrantBacked(a, r, mode);
      if g.Err? && g.error != BackingVerificationRequired {
        LedgerReasons(a, r, caller, mode, now, g.error);
      }
    }
  }

  lemma NovateChecks(a: Account, n: Novation, caller: Id, now: u64)
    ensures ValidateNovationIdentity(a, n, caller).Fail? ==>
              NovateReason(a, n, caller, now, ValidateNovationIdentity(a, n, caller).error)
    ensures n.fromIssuer in a.issuers && n.toIssuer in a.issuers && ValidateNovation(a, n, now).Fail? ==>
              NovateReason(a, n, caller, now, ValidateNovation(a, n, now).error)
    ensures ValidateNovationIdentity(a, n, caller).Pass? ==> n.fromIssuer in a.issuers && n.toIssuer in a.issuers
  {
    hide Blank, Room;
  }

  lemma NovateRefusal(a: Account, n: Novation, caller: Id, now: u64)
    ensures Novate(a, n, caller, now).Err? ==> NovateReason(a, n, caller, now, Novate(a, n, caller, now).error)
  {
    NovateChecks(a, n, caller, now);
    hide Blank, ValidateNovation, ValidateNovationIdentity;
  }

  lemma ConversionRefusal(a: Account, n: BackedSettlement, revision: u64)
    requires n.fromIssuer in a.issuers && n.backingIssuer in a.issuers && n.valueClass != PeerCredit
    requires IssuerOk(n.backingIssuer, a.issuers[n.backingIssuer])
    requires a.issuers[n.fromIssuer].peer.outstanding <= a.totalPeerCredit
    ensures var r := ConvertCredit(a, n, revision);
            r.Err? ==>
              if r.error == InsufficientPeerCredit then n.amount > a.issuers[n.fromIssuer].peer.outstanding
              else BackingReason(a.issuers[n.backingIssuer], n.valueClass, n.amount, r.error)
  {
    BackingRefusal(a.issuers[n.backingIssuer], n.backingIssuer, n.valueClass, n.amount);
    hide IssuerOk, AllocateClosedLoop, AllocateReserve, BackingReason;
  }

  lemma BackedChecks(a: Account, n: BackedSettlement, caller: Id, now: u64)
    ensures ValidateBackedIdentity(a, n, caller).Fail? ==>
              BackedReason(a, n, caller, now, ValidateBackedIdentity(a, n, caller).error)
    ensures ValidateBackedIdentity(a, n, caller).Pass? ==> n.fromIssuer in a.issuers && n.backingIssuer in a.issuers
    ensures n.fromIssuer in a.issuers && n.backingIssuer in a.issuers && ValidateBacked(a, n, now).Fail? ==>
              BackedReason(a, n, caller, now, ValidateBacked(a, n, now).error)
    ensures n.fromIssuer in a.issuers && n.backingIssuer in a.issuers && ValidateBacked(a, n, now).Pass? ==>
              n.valueClass != PeerCredit
  {
    hide Blank, BackingReason;
  }

  lemma BackedLedgerReasons(a: Account, n: BackedSettlement, caller: Id, now: u64, e: CreditError)
    requires n.backingIssuer in a.issuers && BackingReason(a.issuers[n.backingIssuer], n.valueClass, n.amount, e)
    ensures BackedReason(a, n, caller, now, e)
  {
    hide Blank, RoomForBacked;
  }

  lemma BackedRefusal(a: Account, n: BackedSettlement, caller: Id, now: u64)
    requires n.fromIssuer in a.issuers ==> a.issuers[n.fromIssuer].peer.outstanding <= a.totalPeerCredit
    requires n.backingIssuer in a.issuers ==> IssuerOk(n.backingIssuer, a.issuers[n.backingIssuer])
    ensures SettleWithBacking(a, n, caller, now).Err? ==>
              BackedReason(a, n, caller, now, SettleWithBacking(a, n, caller, now).error)
  {
    BackedChecks(a, n, caller, now);
    hide Blank, IssuerOk, ConvertCredit, BackingReason, ValidateBacked, ValidateBackedIdentity;
    if n.fromIssuer in a.issuers && n.backingIssuer in a.issuers && n.valueClass != PeerCredit && a.revision < U64_MAX {
      ConversionRefusal(a, n, a.revision + 1);
      var r := ConvertCredit(a, n, a.revision + 1);
      if r.Err? && r.error != InsufficientPeerCredit {
        BackedLedgerReasons(a, n, caller, now, r.error);
      }
    }
  }

  lemma ConsumeRefusal(a: Account, c: Consumption, caller: Id)
    requires c.issuer in a.issuers ==> IssuerOk(c.issuer, a.issuers[c.issuer])
    ensures Consume(a, c, caller).Err? ==> ConsumeReason(a, c, caller, Consume(a, c, caller).error)
  {
    hide Blank;
  }

  lemma AuthorizeRefusal(a: Account, q: SettlementRequest, caller: Id, now: u64)
    requires q.issuer in a.issuers ==> IssuerOk(q.issuer, a.issuers[q.issuer])
    ensures Authorize(a, q, caller, now).Err? ==> AuthorizeReason(a, q, caller, now, Authorize(a, q, caller, now).error)
  {
    hide Blank;
  }

  lemma CompleteRefusal(a: Account, id: Id, fee: u64)
    requires Inv(a)
    ensures Complete(a, id, fee).Err? ==> CloseReason(a, OpComplete(id, fee), Complete(a, id, fee).error)
  {
    hide Inv;
    if id in a.settlements && a.settlements[id].status.Pending? && fee <= a.settlements[id].request.maxFee {
      PendingIsCovered(a, id);
    }
  }

  lemma CancelRefusal(a: Account, id: Id)
    requires Inv(a)
    ensures Cancel(a, id).Err? ==> CloseReason(a, OpCancel(id), Cancel(a, id).error)
  {
    hide Inv;
    if id in a.settlements && a.settlements[id].status.Pending? {
      PendingIsCovered(a, id);
    }
  }

  lemma CallRefusal(a: Account, op: Op)
    requires Inv(a)
    ensures Apply(a, op).Err? ==> Reason(a, op, Apply(a, op).error)
  {
    hide Inv, IssuerOk, RecordDeposit, ApplyReceipt, Novate, SettleWithBacking, Consume, Authorize, Complete, Cancel;
    hide DepositReason, ReceiptReason, NovateReason, BackedReason, ConsumeReason, AuthorizeReason, CloseReason;
    match op
    case OpDeposit(d, caller) =>
      IssuerIfKnown(a, d.issuer);
      DepositRefusal(a, d, caller);
    case OpReceipt(r, caller, mode, now) =>
      IssuerIfKnown(a, r.issuer);
      ReceiptRefusal(a, r, caller, mode, now);
    case OpNovate(n, caller, now) =>
      NovateRefusal(a, n, caller, now);
    case OpBacked(n, caller, now) =>
      IssuerIfKnown(a, n.fromIssuer);
      IssuerIfKnown(a, n.backingIssuer);
      BackedRefusal(a, n, caller, now);
    case OpConsume(c, caller) =>
      IssuerIfKnown(a, c.issuer);
      ConsumeRefusal(a, c, caller);
    case OpAuthorize(q, caller, now) =>
      IssuerIfKnown(a, q.issuer);
      AuthorizeRefusal(a, q, caller, now);
    case OpComplete(id, fee) => CompleteRefusal(a, id, fee);
    case OpCancel(id) => CancelRefusal(a, id);
  }

  /** In every run, a refused call is given a reason that is true of the account and the call. */
  lemma EveryRefusalHasItsReason(policy: AccountPolicy, ops: seq<Op>, op: Op)
    requires New(policy).Ok?
    ensures var a := Run(New(policy).value, ops);
            Apply(a, op).Err? ==> Reason(a, op, Apply(a, op).error)
  {
    hide *;
    EveryRunKeepsTheBooks(policy, ops);
    CallRefusal(Run(New(policy).value, ops), op);
  }
}
