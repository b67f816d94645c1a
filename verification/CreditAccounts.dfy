/**
 * The account as an object updated in place. Each method is proved to do what the function of
 * Accounts.dfy says: the same answer, and the whole new state; an error leaves every field alone.
 */
module CreditAccounts {
  import opened Base
  import opened Protocol
  import opened Order
  import opened Accounts
  import opened Books
  import opened AccountRuns

  /** What the caller of a method sees of an answer. */
  function ReplyOf(answer: Answer): Result<Reply, CreditError> {
    if answer.Ok? then Ok(answer.value.reply) else Err(answer.error)
  }

  class CreditAccount {
    var revision: u64
    var counterparty: Id
    var maxTotalPeerCredit: u64
    var totalPeerCredit: u64
    var issuers: map<Id, IssuerState>
    var receipts: map<Id, Receipt>
    var events: seq<Event>
    var novations: map<Id, Novation>
    var deposits: map<Key, Deposit>
    var backed: map<Id, BackedSettlement>
    var consumptions: map<Id, Consumption>
    var settlements: map<Id, SettlementRecord>

    function View(): Account
      reads this
    {
      Account(revision, counterparty, maxTotalPeerCredit, totalPeerCredit, issuers, receipts, events,
              novations, deposits, backed, consumptions, settlements)
    }

    constructor Empty(counterparty: Id, maxTotal: u64, issuers: map<Id, IssuerState>)
      ensures View() == EmptyAccount(counterparty, maxTotal, issuers)
    {
      this.revision, this.counterparty := 0, counterparty;
      this.maxTotalPeerCredit, this.totalPeerCredit := maxTotal, 0;
      this.issuers, this.receipts, this.events := issuers, map[], [];
      this.novations, this.deposits, this.backed := map[], map[], map[];
      this.consumptions, this.settlements := map[], map[];
    }

    /** Opens an account, or says what is wrong with the policy. */
    static method Open(policy: AccountPolicy) returns (r: Result<CreditAccount, CreditError>)
      ensures r.Err? ==> New(policy) == Err(r.error)
      ensures r.Ok? ==> fresh(r.value) && New(policy) == Ok(r.value.View()) && Inv(r.value.View())
    {
      if Blank(policy.counterparty) {
        return Err(InvalidPolicy);
      }
      if policy.issuers == [] {
        return Err(NoIssuers);
      }
      var issuers: map<Id, IssuerState> := map[];
      for n := 0 to |policy.issuers|
        invariant AddIssuers(map[], policy.issuers) == AddIssuers(issuers, policy.issuers[n..])
      {
        var p := policy.issuers[n];
        assert policy.issuers[n..][0] == p && policy.issuers[n..][1..] == policy.issuers[n + 1..];
        if !PolicyOk(p) {
          return Err(InvalidPolicy);
        }
        if p.issuer in issuers {
          return Err(DuplicateIssuer);
        }
        issuers := issuers[p.issuer := NewIssuer(p)];
      }
      NewEstablishes(policy);
      var account := new CreditAccount.Empty(policy.counterparty, policy.maxTotalPeerCredit, issuers);
      return Ok(account);
    }

    method RecordBackingDeposit(d: Deposit, caller: Id) returns (r: Result<Reply, CreditError>)
      modifies this
      ensures var answer := RecordDeposit(old(View()), d, caller);
              r == ReplyOf(answer) && View() == After(old(View()), answer)
    {
      var check := ValidateDeposit(View(), d, caller);
      if check.Fail? {
        return Err(check.error);
      }
      var key := DepositKey(d);
      if key in deposits {
        if deposits[key] == d {
          return Ok(AlreadyApplied);
        }
        return Err(DepositConflict);
      }
      var next := NextRevision(View());
      if next.Err? {
        return Err(next.error);
      }
      match d.valueClass {
        case ClosedLoopDeposit =>
          var ledger := issuers[d.issuer].closed.Deposit(d.amount);
          if ledger.Err? {
            return Err(ledger.error);
          }
          issuers := issuers[d.issuer := issuers[d.issuer].(closed := ledger.value)];
        case ReserveBackedWithdrawable =>
          var ledger := issuers[d.issuer].reserve.Deposit(d.amount);
          if ledger.Err? {
            return Err(ledger.error);
          }
          issuers := issuers[d.issuer := issuers[d.issuer].(reserve := ledger.value)];
        case PeerCredit =>
          return Err(UnsupportedBackingClass);
      }
      deposits := deposits[key := d];
      revision := next.value;
      return Ok(Applied);
    }

    method ApplyPeerCredit(claim: Receipt, mode: AcceptanceMode) returns (r: Check<CreditError>)
      requires claim.issuer in issuers
      modifies this`issuers, this`totalPeerCredit
      ensures match GrantPeerCredit(old(View()), claim, mode)
              case Ok(granted) => r == Pass && View() == granted
              case Err(e) => r == Fail(e) && View() == old(View())
    {
      var ledger := issuers[claim.issuer].peer.Credit(claim.amount, mode == OfflineDeferred);
      if ledger.Err? {
        return Fail(ledger.error);
      }
      var policy := issuers[claim.issuer].policy;
      if ledger.value.outstanding > policy.maxPeerCredit {
        return Fail(IssuerExposureExceeded);
      }
      if ledger.value.offline > policy.maxOfflinePeerCredit {
        return Fail(OfflineExposureExceeded);
      }
      var total := CheckedAdd(totalPeerCredit, claim.amount);
      if total.None? {
        return Fail(ArithmeticOverflow);
      }
      if total.value > maxTotalPeerCredit {
        return Fail(TotalExposureExceeded);
      }
      issuers := issuers[claim.issuer := issuers[claim.issuer].(peer := ledger.value)];
      totalPeerCredit := total.value;
      return Pass;
    }

    /** Allocates `amount` of an issuer's deposited backing within its cap, editing a copy of the ledger. */
    method AllocateBacking(issuer: Id, valueClass: ValueClass, amount: u64) returns (r: Check<CreditError>)
      requires issuer in issuers && valueClass != PeerCredit
      modifies this`issuers
      ensures match (if valueClass == ClosedLoopDeposit then AllocateClosedLoop(old(issuers)[issuer], amount)
                     else AllocateReserve(old(issuers)[issuer], amount))
              case Ok(s) => r == Pass && issuers == old(issuers)[issuer := s]
              case Err(e) => r == Fail(e) && issuers == old(issuers)
    {
      var s := issuers[issuer];
      if valueClass == ClosedLoopDeposit {
        var resulting := CheckedAdd(s.closed.claimable, amount);
        if resulting.None? {
          return Fail(ArithmeticOverflow);
        }
        if resulting.value > s.policy.maxClosedLoop {
          return Fail(ClosedLoopExposureExceeded);
        }
        var ledger := s.closed.Allocate(amount);
        if ledger.Err? {
          return Fail(ledger.error);
        }
        issuers := issuers[issuer := s.(closed := ledger.value)];
      } else {
        var capacity := EnsureWithdrawableCapacity(s, amount);
        if capacity.Fail? {
          return capacity;
        }
        var ledger := s.reserve.Allocate(amount);
        if ledger.Err? {
          return Fail(ledger.error);
        }
        issuers := issuers[issuer := s.(reserve := ledger.value)];
      }
      return Pass;
    }

    method ApplyBacked(claim: Receipt, mode: AcceptanceMode) returns (r: Check<CreditError>)
      requires claim.issuer in issuers && claim.valueClass != PeerCredit
      modifies this`issuers
      ensures match GrantBacked(old(View()), claim, mode)
              case Ok(granted) => r == Pass && View() == granted
              case Err(e) => r == Fail(e) && View() == old(View())
    {
      if mode == OfflineDeferred {
        return Fail(BackingVerificationRequired);
      }
      r := AllocateBacking(claim.issuer, claim.valueClass, claim.amount);
    }

    method ApplyServiceReceipt(claim: Receipt, caller: Id, mode: AcceptanceMode, now: u64)
      returns (r: Result<Reply, CreditError>)
      modifies this
      ensures var answer := ApplyReceipt(old(View()), claim, caller, mode, now);
              r == ReplyOf(answer) && View() == After(old(View()), answer)
    {
      hide GrantPeerCredit, GrantBacked;
      var identity := ValidateReceiptIdentity(View(), claim, caller);
      if identity.Fail? {
        return Err(identity.error);
      }
      if claim.receiptId in receipts {
        if receipts[claim.receiptId] == claim {
          return Ok(AlreadyApplied);
        }
        return Err(ReceiptConflict);
      }
      var check := ValidateReceipt(View(), claim, now);
      if check.Fail? {
        return Err(check.error);
      }
      var next := NextRevision(View());
      if next.Err? {
        return Err(next.error);
      }
      var granted: Check<CreditError>;
      if claim.valueClass == PeerCredit {
        granted := ApplyPeerCredit(claim, mode);
      } else {
        granted := ApplyBacked(claim, mode);
      }
      if granted.Fail? {
        return Err(granted.error);
      }
      if claim.valueClass == PeerCredit {
        events := events + [ReceiptEvent(next.value, claim.receiptId, mode)];
      }
      receipts := receipts[claim.receiptId := claim];
      revision := next.value;
      return Ok(Applied);
    }

    method NovatePeerCredit(n: Novation, caller: Id, now: u64) returns (r: Result<Reply, CreditError>)
      modifies this
      ensures var answer := Novate(old(View()), n, caller, now);
              r == ReplyOf(answer) && View() == After(old(View()), answer)
    {
      var identity := ValidateNovationIdentity(View(), n, caller);
      if identity.Fail? {
        return Err(identity.error);
      }
      if n.novationId in novations {
        if novations[n.novationId] == n {
          return Ok(Done);
        }
        return Err(NovationConflict);
      }
      var check := ValidateNovation(View(), n, now);
      if check.Fail? {
        return Err(check.error);
      }
      var next := NextRevision(View());
      if next.Err? {
        return Err(next.error);
      }
      var source := issuers[n.fromIssuer].peer.Debit(n.amount);
      if source.Err? {
        return Err(source.error);
      }
      var target := issuers[n.toIssuer].peer.Credit(n.amount, false);
      if target.Err? {
        return Err(target.error);
      }
      if target.value.outstanding > issuers[n.toIssuer].policy.maxPeerCredit {
        return Err(IssuerExposureExceeded);
      }
      issuers := issuers[n.fromIssuer := issuers[n.fromIssuer].(peer := source.value)];
      issuers := issuers[n.toIssuer := issuers[n.toIssuer].(peer := target.value)];
      events := events + [NovationEvent(next.value, n.novationId)];
      novations := novations[n.novationId := n];
      revision := next.value;
      return Ok(Done);
    }

    method ConvertPeerCredit(b: BackedSettlement, next: u64) returns (r: Result<Reply, CreditError>)
      requires b.fromIssuer in issuers && b.backingIssuer in issuers && b.valueClass != PeerCredit
      modifies this
      ensures var answer := ConvertCredit(old(View()), b, next);
              r == ReplyOf(answer) && View() == After(old(View()), answer)
    {
      hide AllocateClosedLoop, AllocateReserve;
      var source := issuers[b.fromIssuer].peer.Debit(b.amount);
      if source.Err? {
        return Err(source.error);
      }
      if b.amount > totalPeerCredit {
        return Err(ConservationViolation);
      }
      var backing := AllocateBacking(b.backingIssuer, b.valueClass, b.amount);
      if backing.Fail? {
        return Err(backing.error);
      }
      issuers := issuers[b.fromIssuer := issuers[b.fromIssuer].(peer := source.value)];
      totalPeerCredit := totalPeerCredit - b.amount;
      events := events + [BackedEvent(next, b.settlementId)];
      backed := backed[b.settlementId := b];
      revision := next;
      return Ok(Applied);
    }

    method SettlePeerCreditWithBacking(b: BackedSettlement, caller: Id, now: u64)
      returns (r: Result<Reply, CreditError>)
      modifies this
      ensures var answer := SettleWithBacking(old(View()), b, caller, now);
              r == ReplyOf(answer) && View() == After(old(View()), answer)
    {
      hide ConvertCredit;
      var identity := ValidateBackedIdentity(View(), b, caller);
      if identity.Fail? {
        return Err(identity.error);
      }
      if b.settlementId in backed {
        if backed[b.settlementId] == b {
          return Ok(AlreadyApplied);
        }
        return Err(BackedSettlementConflict);
      }
      var check := ValidateBacked(View(), b, now);
      if check.Fail? {
        return Err(check.error);
      }
      var next := NextRevision(View());
      if next.Err? {
        return Err(next.error);
      }
      r := ConvertPeerCredit(b, next.value);
    }

    method ConsumeClosedLoop(c: Consumption, caller: Id) returns (r: Result<Reply, CreditError>)
      modifies this
      ensures var answer := Consume(old(View()), c, caller);
              r == ReplyOf(answer) && View() == After(old(View()), answer)
    {
      var check := ValidateConsumption(View(), c, caller);
      if check.Fail? {
        return Err(check.error);
      }
      if c.consumptionId in consumptions {
        if consumptions[c.consumptionId] == c {
          return Ok(AlreadyApplied);
        }
        return Err(ConsumptionConflict);
      }
      var next := NextRevision(View());
      if next.Err? {
        return Err(next.error);
      }
      var ledger := issuers[c.issuer].closed.Consume(c.amount);
      if ledger.Err? {
        return Err(ledger.error);
      }
      issuers := issuers[c.issuer := issuers[c.issuer].(closed := ledger.value)];
      consumptions := consumptions[c.consumptionId := c];
      revision := next.value;
      return Ok(Applied);
    }

    method AuthorizeExternalSettlement(q: SettlementRequest, caller: Id, now: u64)
      returns (r: Result<Reply, CreditError>)
      modifies this
      ensures var answer := Authorize(old(View()), q, caller, now);
              r == ReplyOf(answer) && View() == After(old(View()), answer)
    {
      var identity := ValidateSettlementIdentity(View(), q, caller);
      if identity.Fail? {
        return Err(identity.error);
      }
      if q.settlementId in settlements {
        var existing := settlements[q.settlementId];
        if existing.request != q {
          return Err(SettlementConflict);
        }
        match existing.status {
          case Pending => return Ok(Authorized(existing.authorization));
          case Completed(_) => return Err(SettlementCompleted);
          case Cancelled => return Err(SettlementCancelled);
        }
      }
      var check := ValidateSettlement(View(), q, now);
      if check.Fail? {
        return Err(check.error);
      }
      var next := NextRevision(View());
      if next.Err? {
        return Err(next.error);
      }
      var reserved := CheckedAdd(q.amount, q.maxFee);
      if reserved.None? {
        return Err(ArithmeticOverflow);
      }
      var ledger := issuers[q.issuer].reserve.Authorize(reserved.value);
      if ledger.Err? {
        return Err(ledger.error);
      }
      issuers := issuers[q.issuer := issuers[q.issuer].(reserve := ledger.value)];
      var authorization := AuthorizationFor(q, reserved.value, now);
      settlements := settlements[q.settlementId := SettlementRecord(q, authorization, Pending)];
      revision := next.value;
      return Ok(Authorized(authorization));
    }

    method CompleteExternalSettlement(id: Id, fee: u64) returns (r: Result<Reply, CreditError>)
      modifies this
      ensures var answer := Complete(old(View()), id, fee);
              r == ReplyOf(answer) && View() == After(old(View()), answer)
    {
      if id !in settlements {
        return Err(UnknownSettlement);
      }
      var record := settlements[id];
      match record.status {
        case Completed(recorded) =>
          if recorded == fee {
            return Ok(Done);
          }
          return Err(SettlementCompletionConflict);
        case Cancelled => return Err(SettlementCancelled);
        case Pending =>
      }
      if fee > record.request.maxFee {
        return Err(SettlementFeeExceeded);
      }
      var next := NextRevision(View());
      if next.Err? {
        return Err(next.error);
      }
      var spent := CheckedAdd(record.request.amount, fee);
      if spent.None? {
        return Err(ArithmeticOverflow);
      }
      var unused := record.request.maxFee - fee;
      var issuer := record.request.issuer;
      if issuer !in issuers {
        return Err(WrongIssuer);
      }
      var ledger := issuers[issuer].reserve.Complete(spent.value);
      if ledger.Err? {
        return Err(ledger.error);
      }
      if unused > 0 {
        ledger := ledger.value.Cancel(unused);
        if ledger.Err? {
          return Err(ledger.error);
        }
      }
      issuers := issuers[issuer := issuers[issuer].(reserve := ledger.value)];
      settlements := settlements[id := record.(status := Completed(fee))];
      revision := next.value;
      return Ok(Done);
    }

    method CancelExternalSettlement(id: Id) returns (r: Result<Reply, CreditError>)
      modifies this
      ensures var answer := Cancel(old(View()), id);
              r == ReplyOf(answer) && View() == After(old(View()), answer)
    {
      if id !in settlements {
        return Err(UnknownSettlement);
      }
      var record := settlements[id];
      match record.status {
        case Cancelled => return Ok(Done);
        case Completed(_) => return Err(SettlementCompleted);
        case Pending =>
      }
      var next := NextRevision(View());
      if next.Err? {
        return Err(next.error);
      }
      var issuer := record.request.issuer;
      if issuer !in issuers {
        return Err(WrongIssuer);
      }
      var ledger := issuers[issuer].reserve.Cancel(record.authorization.reserved);
      if ledger.Err? {
        return Err(ledger.error);
      }
      issuers := issuers[issuer := issuers[issuer].(reserve := ledger.value)];
      settlements := settlements[id := record.(status := Cancelled)];
      revision := next.value;
      return Ok(Done);
    }

    /** Any call dispatched to its method: the new state is the step of Accounts.dfy, so a state of the invariant stays one. */
    method Call(op: Op) returns (r: Result<Reply, CreditError>)
      modifies this
      ensures r == ReplyOf(Apply(old(View()), op)) && View() == Step(old(View()), op)
      ensures Inv(old(View())) ==> Inv(View())
    {
      hide Inv;
      StepKeeps(View(), op);
      hide RecordDeposit, ApplyReceipt, Novate, SettleWithBacking, Consume, Authorize, Complete, Cancel;
      match op {
        case OpDeposit(d, caller) => r := RecordBackingDeposit(d, caller);
        case OpReceipt(claim, caller, mode, now) => r := ApplyServiceReceipt(claim, caller, mode, now);
        case OpNovate(n, caller, now) => r := NovatePeerCredit(n, caller, now);
        case OpBacked(b, caller, now) => r := SettlePeerCreditWithBacking(b, caller, now);
        case OpConsume(c, caller) => r := ConsumeClosedLoop(c, caller);
        case OpAuthorize(q, caller, now) => r := AuthorizeExternalSettlement(q, caller, now);
        case OpComplete(id, fee) => r := CompleteExternalSettlement(id, fee);
        case OpCancel(id) => r := CancelExternalSettlement(id);
      }
    }
  }
}
