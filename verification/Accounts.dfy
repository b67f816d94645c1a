/**
 * The state of a credit account and, for each public operation, what it answers and the state it
 * leaves. The class in CreditAccounts.dfy is proved to behave as these functions say.
 */
module Accounts {
  import opened Base
  import opened Protocol
  import opened Ledgers
  import opened Order

  datatype Event =
    | ReceiptEvent(revision: u64, id: Id, mode: AcceptanceMode)
    | NovationEvent(revision: u64, id: Id)
    | BackedEvent(revision: u64, id: Id)

  datatype IssuerState = IssuerState(
    policy: IssuerPolicy, peer: PeerLedger, closed: ClosedLoopLedger, reserve: ReserveLedger)

  datatype SettlementStatus = Pending | Completed(fee: u64) | Cancelled

  datatype SettlementRecord = SettlementRecord(
    request: SettlementRequest, authorization: Authorization, status: SettlementStatus)

  datatype Account = Account(
    revision: u64,
    counterparty: Id,
    maxTotalPeerCredit: u64,
    totalPeerCredit: u64,
    issuers: map<Id, IssuerState>,
    receipts: map<Id, Receipt>,
    events: seq<Event>,
    novations: map<Id, Novation>,
    deposits: map<Key, Deposit>,
    backed: map<Id, BackedSettlement>,
    consumptions: map<Id, Consumption>,
    settlements: map<Id, SettlementRecord>)

  datatype Reply = Applied | AlreadyApplied | Done | Authorized(authorization: Authorization)

  datatype Outcome = Outcome(account: Account, reply: Reply)

  type Answer = Result<Outcome, CreditError>

  /** The answer for an id that is already recorded with contents `same` or different. */
  function Replay(a: Account, same: bool, reply: Reply, conflict: CreditError): Answer {
    if same then Ok(Outcome(a, reply)) else Err(conflict)
  }

  // ---------------------------------------------------------------- creation

  function NewIssuer(policy: IssuerPolicy): IssuerState {
    IssuerState(policy, PeerLedger(0, 0), ClosedLoopLedger(0, 0, 0, 0), ReserveLedger(0, 0, 0, 0, 0))
  }

  predicate PolicyOk(p: IssuerPolicy) {
    !Blank(p.issuer) && p.maxOfflinePeerCredit <= p.maxPeerCredit
  }

  /** The issuers of `policies` added to `issuers`, or the first reason not to. */
  function AddIssuers(issuers: map<Id, IssuerState>, policies: seq<IssuerPolicy>)
    : Result<map<Id, IssuerState>, CreditError>
    decreases |policies|
  {
    if policies == [] then Ok(issuers)
    else if !PolicyOk(policies[0]) then Err(InvalidPolicy)
    else if policies[0].issuer in issuers then Err(DuplicateIssuer)
    else AddIssuers(issuers[policies[0].issuer := NewIssuer(policies[0])], policies[1..])
  }

  function EmptyAccount(counterparty: Id, maxTotal: u64, issuers: map<Id, IssuerState>): Account {
    Account(0, counterparty, maxTotal, 0, issuers, map[], [], map[], map[], map[], map[], map[])
  }

  function New(policy: AccountPolicy): Result<Account, CreditError> {
    if Blank(policy.counterparty) then Err(InvalidPolicy)
    else if policy.issuers == [] then Err(NoIssuers)
    else
      var issuers :- AddIssuers(map[], policy.issuers);
      Ok(EmptyAccount(policy.counterparty, policy.maxTotalPeerCredit, issuers))
  }

  // ---------------------------------------------------------------- shared checks

  function NextRevision(a: Account): Result<u64, CreditError> {
    if a.revision + 1 > U64_MAX then Err(RevisionOverflow) else Ok(a.revision + 1)
  }

  function KnownIssuer(a: Account, issuer: Id): Check<CreditError> {
    Need(issuer in a.issuers, WrongIssuer)
  }

  function EnsureActive(a: Account, issuer: Id, now: u64): Check<CreditError>
    requires issuer in a.issuers
  {
    var expiry := a.issuers[issuer].policy.expiresAt;
    Need(expiry.None? || now < expiry.value, PolicyExpired)
  }

  function EnsureWithdrawableCapacity(s: IssuerState, additional: u64): Check<CreditError> {
    if s.reserve.redeemable + s.reserve.pending > U64_MAX then Fail(ArithmeticOverflow)
    else if s.reserve.redeemable + s.reserve.pending + additional > U64_MAX then Fail(ArithmeticOverflow)
    else if s.reserve.redeemable + s.reserve.pending + additional > s.policy.maxWithdrawable then
      Fail(WithdrawableExposureExceeded)
    else Pass
  }

  function Both(first: Check<CreditError>, second: Check<CreditError>): Check<CreditError> {
    if first.Fail? then first else second
  }

  /** `s` with `amount` more allocated out of the closed-loop backing, within its cap. */
  function AllocateClosedLoop(s: IssuerState, amount: u64): Result<IssuerState, CreditError> {
    var exposure := s.closed.claimable + amount;
    :- Need(exposure <= U64_MAX, ArithmeticOverflow);
    :- Need(exposure <= s.policy.maxClosedLoop, ClosedLoopExposureExceeded);
    var ledger :- s.closed.Allocate(amount);
    Ok(s.(closed := ledger))
  }

  /** `s` with `amount` more made redeemable out of the withdrawable backing, within its cap. */
  function AllocateReserve(s: IssuerState, amount: u64): Result<IssuerState, CreditError> {
    var capacity := EnsureWithdrawableCapacity(s, amount);
    :- capacity;
    var ledger :- s.reserve.Allocate(amount);
    Ok(s.(reserve := ledger))
  }

  // ---------------------------------------------------------------- backing deposits

  function ValidateDeposit(a: Account, d: Deposit, caller: Id): Check<CreditError> {
    Both(Need(d.issuer == caller, UnauthenticatedIssuer),
    Both(KnownIssuer(a, d.issuer),
    Both(Need(!Blank(d.depositId), MissingDepositId),
    Both(Need(d.amount != 0, ZeroAmount),
         Need(d.valueClass != PeerCredit, UnsupportedBackingClass)))))
  }

  function DepositKey(d: Deposit): Key { (d.issuer, d.depositId) }

  function AddBacking(s: IssuerState, d: Deposit): Result<IssuerState, CreditError> {
    match d.valueClass
    case ClosedLoopDeposit =>
      var ledger :- s.closed.Deposit(d.amount);
      Ok(s.(closed := ledger))
    case ReserveBackedWithdrawable =>
      var ledger :- s.reserve.Deposit(d.amount);
      Ok(s.(reserve := ledger))
    case PeerCredit => Err(UnsupportedBackingClass)
  }

  function RecordDeposit(a: Account, d: Deposit, caller: Id): Answer {
    var key := DepositKey(d);
    :- ValidateDeposit(a, d, caller);
    if key in a.deposits then Replay(a, a.deposits[key] == d, AlreadyApplied, DepositConflict)
    else
      var revision :- NextRevision(a);
      var s :- AddBacking(a.issuers[d.issuer], d);
      Ok(Outcome(a.(issuers := a.issuers[d.issuer := s], deposits := a.deposits[key := d],
                    revision := revision),
                 Applied))
  }

  // ---------------------------------------------------------------- receipts

  function ValidateReceiptIdentity(a: Account, r: Receipt, caller: Id): Check<CreditError> {
    Both(Need(r.counterparty == a.counterparty, WrongCounterparty),
    Both(Need(r.issuer == caller, UnauthenticatedIssuer),
    Both(KnownIssuer(a, r.issuer),
         Need(!Blank(r.receiptId), MissingReceiptId))))
  }

  function ValidateReceipt(a: Account, r: Receipt, now: u64): Check<CreditError>
    requires r.issuer in a.issuers
  {
    Both(EnsureActive(a, r.issuer, now),
    Both(Need(now < r.expiresAt, ReceiptExpired),
    Both(Need(r.issuedAt <= now, ReceiptNotYetValid),
    Both(Need(!Blank(r.service) && !Blank(r.resource) && r.usefulUnits != 0, NoUsefulService),
         Need(r.amount != 0, ZeroAmount)))))
  }

  /** `a` with the peer credit of `r` granted, within the issuer, offline and aggregate caps. */
  function GrantPeerCredit(a: Account, r: Receipt, mode: AcceptanceMode): Result<Account, CreditError>
    requires r.issuer in a.issuers
  {
    var s := a.issuers[r.issuer];
    var ledger :- s.peer.Credit(r.amount, mode == OfflineDeferred);
    :- Need(ledger.outstanding <= s.policy.maxPeerCredit, IssuerExposureExceeded);
    :- Need(ledger.offline <= s.policy.maxOfflinePeerCredit, OfflineExposureExceeded);
    :- Need(a.totalPeerCredit + r.amount <= U64_MAX, ArithmeticOverflow);
    :- Need(a.totalPeerCredit + r.amount <= a.maxTotalPeerCredit, TotalExposureExceeded);
    Ok(a.(issuers := a.issuers[r.issuer := s.(peer := ledger)],
          totalPeerCredit := a.totalPeerCredit + r.amount))
  }

  function GrantBacked(a: Account, r: Receipt, mode: AcceptanceMode): Result<Account, CreditError>
    requires r.issuer in a.issuers && r.valueClass != PeerCredit
  {
    if mode == OfflineDeferred then Err(BackingVerificationRequired)
    else
      var s :- if r.valueClass == ClosedLoopDeposit
               then AllocateClosedLoop(a.issuers[r.issuer], r.amount)
               else AllocateReserve(a.issuers[r.issuer], r.amount);
      Ok(a.(issuers := a.issuers[r.issuer := s]))
  }

  function ApplyReceipt(a: Account, r: Receipt, caller: Id, mode: AcceptanceMode, now: u64): Answer {
    var id := r.receiptId;
    :- ValidateReceiptIdentity(a, r, caller);
    if id in a.receipts then Replay(a, a.receipts[id] == r, AlreadyApplied, ReceiptConflict)
    else
      :- ValidateReceipt(a, r, now);
      var revision :- NextRevision(a);
      var granted :- if r.valueClass == PeerCredit then GrantPeerCredit(a, r, mode)
                     else GrantBacked(a, r, mode);
      var events := if r.valueClass == PeerCredit
                    then a.events + [ReceiptEvent(revision, id, mode)] else a.events;
      Ok(Outcome(granted.(events := events, receipts := a.receipts[id := r],
                          revision := revision),
                 Applied))
  }

  // ---------------------------------------------------------------- novation

  function ValidateNovationIdentity(a: Account, n: Novation, caller: Id): Check<CreditError> {
    Both(Need(n.counterparty == a.counterparty, WrongCounterparty),
    Both(Need(n.toIssuer == caller, UnauthenticatedIssuer),
    Both(Need(n.fromIssuer != n.toIssuer, SameIssuerNovation),
    Both(Need(!Blank(n.novationId), MissingNovationId),
    Both(KnownIssuer(a, n.fromIssuer), KnownIssuer(a, n.toIssuer))))))
  }

  function ValidateNovation(a: Account, n: Novation, now: u64): Check<CreditError>
    requires n.fromIssuer in a.issuers && n.toIssuer in a.issuers
  {
    Both(Need(now < n.expiresAt, NovationExpired),
    Both(Need(n.amount != 0, ZeroAmount),
    Both(EnsureActive(a, n.fromIssuer, now), EnsureActive(a, n.toIssuer, now))))
  }

  function Novate(a: Account, n: Novation, caller: Id, now: u64): Answer {
    var id := n.novationId;
    :- ValidateNovationIdentity(a, n, caller);
    if id in a.novations then Replay(a, a.novations[id] == n, Done, NovationConflict)
    else
      :- ValidateNovation(a, n, now);
      var revision :- NextRevision(a);
      var from, to := a.issuers[n.fromIssuer], a.issuers[n.toIssuer];
      var source :- from.peer.Debit(n.amount);
      var target :- to.peer.Credit(n.amount, false);
      :- Need(target.outstanding <= to.policy.maxPeerCredit, IssuerExposureExceeded);
      Ok(Outcome(a.(issuers := a.issuers[n.fromIssuer := from.(peer := source)]
                                        [n.toIssuer := to.(peer := target)],
                    events := a.events + [NovationEvent(revision, id)],
                    novations := a.novations[id := n],
                    revision := revision),
                 Done))
  }

  // ---------------------------------------------------------------- backed settlement

  function ValidateBackedIdentity(a: Account, b: BackedSettlement, caller: Id): Check<CreditError> {
    Both(Need(b.counterparty == a.counterparty, WrongCounterparty),
    Both(Need(b.backingIssuer == caller, UnauthenticatedIssuer),
    Both(KnownIssuer(a, b.fromIssuer),
    Both(KnownIssuer(a, b.backingIssuer),
         Need(!Blank(b.settlementId), MissingBackedSettlementId)))))
  }

  function ValidateBacked(a: Account, b: BackedSettlement, now: u64): Check<CreditError>
    requires b.fromIssuer in a.issuers && b.backingIssuer in a.issuers
  {
    Both(EnsureActive(a, b.fromIssuer, now),
    Both(EnsureActive(a, b.backingIssuer, now),
    Both(Need(now < b.expiresAt, BackedSettlementExpired),
    Both(Need(b.amount != 0, ZeroAmount),
         Need(b.valueClass != PeerCredit, UnsupportedBackingClass)))))
  }

  /** `a` with the peer credit of `b` debited and the same amount allocated as backed liability. */
  function ConvertCredit(a: Account, b: BackedSettlement, revision: u64): Answer
    requires b.fromIssuer in a.issuers && b.backingIssuer in a.issuers && b.valueClass != PeerCredit
  {
    var source :- a.issuers[b.fromIssuer].peer.Debit(b.amount);
    :- Need(b.amount <= a.totalPeerCredit, ConservationViolation);
    var backing :- if b.valueClass == ClosedLoopDeposit
                   then AllocateClosedLoop(a.issuers[b.backingIssuer], b.amount)
                   else AllocateReserve(a.issuers[b.backingIssuer], b.amount);
    var issuers := a.issuers[b.backingIssuer := backing];
    Ok(Outcome(a.(issuers := issuers[b.fromIssuer := issuers[b.fromIssuer].(peer := source)],
                  totalPeerCredit := a.totalPeerCredit - b.amount,
                  events := a.events + [BackedEvent(revision, b.settlementId)],
                  backed := a.backed[b.settlementId := b],
                  revision := revision),
               Applied))
  }

  function SettleWithBacking(a: Account, b: BackedSettlement, caller: Id, now: u64): Answer {
    var id := b.settlementId;
    :- ValidateBackedIdentity(a, b, caller);
    if id in a.backed then Replay(a, a.backed[id] == b, AlreadyApplied, BackedSettlementConflict)
    else
      :- ValidateBacked(a, b, now);
      var revision :- NextRevision(a);
      ConvertCredit(a, b, revision)
  }

  // ---------------------------------------------------------------- closed-loop consumption

  function ValidateConsumption(a: Account, c: Consumption, caller: Id): Check<CreditError> {
    Both(Need(c.counterparty == a.counterparty, WrongCounterparty),
    Both(Need(c.counterparty == caller, UnauthenticatedCounterparty),
    Both(KnownIssuer(a, c.issuer),
    Both(Need(!Blank(c.consumptionId), MissingConsumptionId),
    Both(Need(!Blank(c.resource), NoUsefulService),
         Need(c.amount != 0, ZeroAmount))))))
  }

  function Consume(a: Account, c: Consumption, caller: Id): Answer {
    var id := c.consumptionId;
    :- ValidateConsumption(a, c, caller);
    if id in a.consumptions then
      Replay(a, a.consumptions[id] == c, AlreadyApplied, ConsumptionConflict)
    else
      var revision :- NextRevision(a);
      var s := a.issuers[c.issuer];
      var ledger :- s.closed.Consume(c.amount);
      Ok(Outcome(a.(issuers := a.issuers[c.issuer := s.(closed := ledger)],
                    consumptions := a.consumptions[id := c],
                    revision := revision),
                 Applied))
  }

  // ---------------------------------------------------------------- external settlement

  function ValidateSettlementIdentity(a: Account, q: SettlementRequest, caller: Id): Check<CreditError> {
    Both(Need(q.counterparty == a.counterparty, WrongCounterparty),
    Both(Need(q.counterparty == caller, UnauthenticatedCounterparty),
    Both(KnownIssuer(a, q.issuer),
         Need(!Blank(q.settlementId), MissingSettlementId))))
  }

  function ValidateSettlement(a: Account, q: SettlementRequest, now: u64): Check<CreditError>
    requires q.issuer in a.issuers
  {
    Both(EnsureActive(a, q.issuer, now),
    Both(Need(now < q.expiresAt, SettlementExpired),
    Both(Need(q.amount != 0, ZeroAmount),
         Need(!Blank(q.payoutDestination), MissingPayoutDestination))))
  }

  function AuthorizeAgain(a: Account, record: SettlementRecord, q: SettlementRequest): Answer {
    if record.request != q then Err(SettlementConflict)
    else match record.status
      case Pending => Ok(Outcome(a, Authorized(record.authorization)))
      case Completed(_) => Err(SettlementCompleted)
      case Cancelled => Err(SettlementCancelled)
  }

  function Authorize(a: Account, q: SettlementRequest, caller: Id, now: u64): Answer {
    var id := q.settlementId;
    :- ValidateSettlementIdentity(a, q, caller);
    if id in a.settlements then AuthorizeAgain(a, a.settlements[id], q)
    else
      :- ValidateSettlement(a, q, now);
      var revision :- NextRevision(a);
      :- Need(q.amount + q.maxFee <= U64_MAX, ArithmeticOverflow);
      var s := a.issuers[q.issuer];
      var ledger :- s.reserve.Authorize(q.amount + q.maxFee);
      var authorization := AuthorizationFor(q, q.amount + q.maxFee, now);
      Ok(Outcome(a.(issuers := a.issuers[q.issuer := s.(reserve := ledger)],
                    settlements := a.settlements[id := SettlementRecord(q, authorization, Pending)],
                    revision := revision),
                 Authorized(authorization)))
  }

  /** `a` after the settlement `id` of issuer `issuer` reached `status` with the given ledger. */
  function CloseSettlement(a: Account, id: Id, revision: u64, ledger: ReserveLedger,
                           status: SettlementStatus): Account
    requires id in a.settlements && a.settlements[id].request.issuer in a.issuers
  {
    var record := a.settlements[id];
    var s := a.issuers[record.request.issuer];
    a.(issuers := a.issuers[record.request.issuer := s.(reserve := ledger)],
       settlements := a.settlements[id := record.(status := status)],
       revision := revision)
  }

  function Complete(a: Account, id: Id, fee: u64): Answer {
    if id !in a.settlements then Err(UnknownSettlement)
    else
    var record := a.settlements[id];
    match record.status
    case Completed(recorded) => Replay(a, recorded == fee, Done, SettlementCompletionConflict)
    case Cancelled => Err(SettlementCancelled)
    case Pending =>
      :- Need(fee <= record.request.maxFee, SettlementFeeExceeded);
      var revision :- NextRevision(a);
      :- Need(record.request.amount + fee <= U64_MAX, ArithmeticOverflow);
      :- KnownIssuer(a, record.request.issuer);
      var unused := record.request.maxFee - fee;
      var spent :- a.issuers[record.request.issuer].reserve.Complete(record.request.amount + fee);
      var ledger :- if unused > 0 then spent.Cancel(unused) else Ok(spent);
      Ok(Outcome(CloseSettlement(a, id, revision, ledger, Completed(fee)), Done))
  }

  function Cancel(a: Account, id: Id): Answer {
    if id !in a.settlements then Err(UnknownSettlement)
    else
    var record := a.settlements[id];
    match record.status
    case Cancelled => Ok(Outcome(a, Done))
    case Completed(_) => Err(SettlementCompleted)
    case Pending =>
      var revision :- NextRevision(a);
      :- KnownIssuer(a, record.request.issuer);
      var ledger :- a.issuers[record.request.issuer].reserve.Cancel(record.authorization.reserved);
      Ok(Outcome(CloseSettlement(a, id, revision, ledger, Cancelled), Done))
  }

  // ---------------------------------------------------------------- operations and runs

  datatype Op =
    | OpDeposit(deposit: Deposit, caller: Id)
    | OpReceipt(receipt: Receipt, caller: Id, mode: AcceptanceMode, now: u64)
    | OpNovate(novation: Novation, caller: Id, now: u64)
    | OpBacked(backed: BackedSettlement, caller: Id, now: u64)
    | OpConsume(consumption: Consumption, caller: Id)
    | OpAuthorize(request: SettlementRequest, caller: Id, now: u64)
    | OpComplete(id: Id, fee: u64)
    | OpCancel(id: Id)

  function Apply(a: Account, op: Op): Answer {
    match op
    case OpDeposit(d, caller) => RecordDeposit(a, d, caller)
    case OpReceipt(r, caller, mode, now) => ApplyReceipt(a, r, caller, mode, now)
    case OpNovate(n, caller, now) => Novate(a, n, caller, now)
    case OpBacked(b, caller, now) => SettleWithBacking(a, b, caller, now)
    case OpConsume(c, caller) => Consume(a, c, caller)
    case OpAuthorize(q, caller, now) => Authorize(a, q, caller, now)
    case OpComplete(id, fee) => Complete(a, id, fee)
    case OpCancel(id) => Cancel(a, id)
  }

  /** The account left by one call: an error leaves it as it was. */
  function After(a: Account, answer: Answer): Account {
    if answer.Ok? then answer.value.account else a
  }

  function Step(a: Account, op: Op): Account { After(a, Apply(a, op)) }

  function Run(a: Account, ops: seq<Op>): Account
    decreases |ops|
  {
    if ops == [] then a else Run(Step(a, ops[0]), ops[1..])
  }
}
