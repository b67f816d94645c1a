/**
 * The account's records read as double-entry postings, and the invariant that ties every ledger
 * bucket, the exposure counter, the event log and the revision to those records.
 */
module Books {
  import opened Base
  import opened Protocol
  import opened Ledgers
  import opened Order
  import opened Sums
  import opened Accounts

  // ---------------------------------------------------------------- postings

  datatype Bucket =
    | PeerCredits | PeerDebits | ClosedDeposits | ReserveDeposits | ClosedAllocations
    | ReserveAllocations | ClosedConsumptions | PendingExternal | SettledExternal

  function ReceiptBucket(valueClass: ValueClass): Bucket {
    match valueClass
    case PeerCredit => PeerCredits
    case ClosedLoopDeposit => ClosedAllocations
    case ReserveBackedWithdrawable => ReserveAllocations
  }

  function ReceiptPosting(i: Id, b: Bucket): Receipt -> nat {
    (r: Receipt) => if r.issuer == i && ReceiptBucket(r.valueClass) == b then r.amount else 0
  }

  function NovationPosting(i: Id, b: Bucket): Novation -> nat {
    (n: Novation) => if n.fromIssuer == i && b == PeerDebits then n.amount
                     else if n.toIssuer == i && b == PeerCredits then n.amount else 0
  }

  function DepositPosting(i: Id, b: Bucket): Deposit -> nat {
    (d: Deposit) => if d.issuer == i && ((d.valueClass == ClosedLoopDeposit && b == ClosedDeposits)
                                         || (d.valueClass == ReserveBackedWithdrawable && b == ReserveDeposits))
                    then d.amount else 0
  }

  function BackedPosting(i: Id, b: Bucket): BackedSettlement -> nat {
    (s: BackedSettlement) =>
      if s.fromIssuer == i && b == PeerDebits then s.amount
      else if s.backingIssuer == i && s.valueClass != PeerCredit && b == ReceiptBucket(s.valueClass)
      then s.amount else 0
  }

  function ConsumptionPosting(i: Id, b: Bucket): Consumption -> nat {
    (c: Consumption) => if c.issuer == i && b == ClosedConsumptions then c.amount else 0
  }

  function SettlementPosting(i: Id, b: Bucket): SettlementRecord -> nat {
    (s: SettlementRecord) =>
      if s.request.issuer != i then 0
      else match s.status
        case Pending => if b == PendingExternal then s.request.amount + s.request.maxFee else 0
        case Completed(fee) => if b == SettledExternal then s.request.amount + fee else 0
        case Cancelled => 0
  }

  /** Everything the records post to bucket `b` of issuer `i`, as an unbounded number. */
  ghost function Recorded(a: Account, i: Id, b: Bucket): nat {
    Sum(a.receipts, ReceiptPosting(i, b)) + Sum(a.novations, NovationPosting(i, b))
    + Sum(a.deposits, DepositPosting(i, b)) + Sum(a.backed, BackedPosting(i, b))
    + Sum(a.consumptions, ConsumptionPosting(i, b)) + Sum(a.settlements, SettlementPosting(i, b))
  }

  // ---------------------------------------------------------------- the event log

  datatype LogState = LogState(
    ledgers: map<Id, PeerLedger>, receipts: set<Id>, novations: set<Id>, backed: set<Id>, last: u64)

  /** The three kinds of record that an event can name. */
  datatype CreditRecords = CreditRecords(
    receipts: map<Id, Receipt>, novations: map<Id, Novation>, backed: map<Id, BackedSettlement>)

  function RecordsOf(a: Account): CreditRecords { CreditRecords(a.receipts, a.novations, a.backed) }

  function CreditAt(ledgers: map<Id, PeerLedger>, issuer: Id, amount: u64, offline: bool)
    : Option<map<Id, PeerLedger>>
  {
    if issuer !in ledgers then None
    else match ledgers[issuer].Credit(amount, offline)
      case Ok(ledger) => Some(ledgers[issuer := ledger])
      case Err(_) => None
  }

  function DebitAt(ledgers: map<Id, PeerLedger>, issuer: Id, amount: u64)
    : Option<map<Id, PeerLedger>>
  {
    if issuer !in ledgers then None
    else match ledgers[issuer].Debit(amount)
      case Ok(ledger) => Some(ledgers[issuer := ledger])
      case Err(_) => None
  }

  /** One event replayed: its revision must advance, its id be new, and its edit be possible. */
  function ReplayEvent(records: CreditRecords, log: LogState, e: Event): Option<LogState> {
    if e.revision <= log.last then None
    else match e
      case ReceiptEvent(_, id, mode) =>
        if id in log.receipts || id !in records.receipts
           || records.receipts[id].valueClass != PeerCredit then None
        else
          var r := records.receipts[id];
          var ledgers :- CreditAt(log.ledgers, r.issuer, r.amount, mode == OfflineDeferred);
          Some(log.(ledgers := ledgers, receipts := log.receipts + {id}, last := e.revision))
      case NovationEvent(_, id) =>
        if id in log.novations || id !in records.novations then None
        else
          var n := records.novations[id];
          var debited :- DebitAt(log.ledgers, n.fromIssuer, n.amount);
          var ledgers :- CreditAt(debited, n.toIssuer, n.amount, false);
          Some(log.(ledgers := ledgers, novations := log.novations + {id}, last := e.revision))
      case BackedEvent(_, id) =>
        if id in log.backed || id !in records.backed then None
        else
          var s := records.backed[id];
          var ledgers :- DebitAt(log.ledgers, s.fromIssuer, s.amount);
          Some(log.(ledgers := ledgers, backed := log.backed + {id}, last := e.revision))
  }

  function EmptyLog(issuers: set<Id>): LogState {
    LogState(map i | i in issuers :: PeerLedger(0, 0), {}, {}, {}, 0)
  }

  /** The log replayed in order from empty ledgers. */
  function ReplayLog(records: CreditRecords, issuers: set<Id>, events: seq<Event>): Option<LogState> {
    if events == [] then Some(EmptyLog(issuers))
    else
      var log :- ReplayLog(records, issuers, events[..|events| - 1]);
      ReplayEvent(records, log, events[|events| - 1])
  }

  function PeerLedgers(issuers: map<Id, IssuerState>): map<Id, PeerLedger> {
    map i | i in issuers :: issuers[i].peer
  }

  function PeerReceiptIds(receipts: map<Id, Receipt>): set<Id> {
    set k | k in receipts && receipts[k].valueClass == PeerCredit
  }

  // ---------------------------------------------------------------- the invariant

  predicate IssuerOk(id: Id, s: IssuerState) {
    && !Blank(id)
    && s.policy.issuer == id
    && s.policy.maxOfflinePeerCredit <= s.policy.maxPeerCredit
    && s.peer.offline <= s.peer.outstanding <= s.policy.maxPeerCredit
    && s.peer.offline <= s.policy.maxOfflinePeerCredit
    && s.closed.claimable <= s.policy.maxClosedLoop
    && s.reserve.redeemable + s.reserve.pending <= s.policy.maxWithdrawable
    && s.closed.Conserved()
    && s.reserve.Conserved()
  }

  predicate ReceiptOk(counterparty: Id, k: Id, r: Receipt) {
    && k == r.receiptId && !Blank(k) && r.counterparty == counterparty
    && !Blank(r.service) && !Blank(r.resource) && r.usefulUnits != 0 && r.amount != 0
    && r.issuedAt < r.expiresAt
  }

  predicate NovationOk(counterparty: Id, k: Id, n: Novation) {
    && k == n.novationId && !Blank(k) && n.counterparty == counterparty
    && n.fromIssuer != n.toIssuer && n.amount != 0
  }

  predicate DepositOk(d: Deposit) {
    !Blank(d.depositId) && d.amount != 0 && d.valueClass != PeerCredit
  }

  predicate BackedOk(counterparty: Id, k: Id, s: BackedSettlement) {
    && k == s.settlementId && !Blank(k) && s.counterparty == counterparty
    && s.amount != 0 && s.valueClass != PeerCredit
  }

  predicate ConsumptionOk(counterparty: Id, k: Id, c: Consumption) {
    && k == c.consumptionId && !Blank(k) && c.counterparty == counterparty
    && !Blank(c.resource) && c.amount != 0
  }

  predicate SettlementOk(counterparty: Id, k: Id, s: SettlementRecord) {
    var q := s.request;
    && k == q.settlementId && !Blank(k) && q.counterparty == counterparty
    && !Blank(q.payoutDestination) && q.amount != 0
    && q.amount + q.maxFee <= U64_MAX
    && s.authorization == AuthorizationFor(q, q.amount + q.maxFee, s.authorization.authorizedAt)
    && s.authorization.authorizedAt < s.authorization.expiresAt
    && (s.status.Completed? ==> s.status.fee <= q.maxFee)
  }

  predicate ReceiptsOk(receipts: map<Id, Receipt>, counterparty: Id, issuers: set<Id>) {
    forall k :: k in receipts ==> ReceiptOk(counterparty, k, receipts[k]) && receipts[k].issuer in issuers
  }

  predicate NovationsOk(novations: map<Id, Novation>, counterparty: Id, issuers: set<Id>) {
    forall k :: k in novations ==>
      NovationOk(counterparty, k, novations[k])
      && novations[k].fromIssuer in issuers && novations[k].toIssuer in issuers
  }

  predicate DepositsOk(deposits: map<Key, Deposit>, issuers: set<Id>) {
    forall k :: k in deposits ==>
      DepositOk(deposits[k]) && k == DepositKey(deposits[k]) && deposits[k].issuer in issuers
  }

  predicate BackedAllOk(backed: map<Id, BackedSettlement>, counterparty: Id, issuers: set<Id>) {
    forall k :: k in backed ==>
      BackedOk(counterparty, k, backed[k])
      && backed[k].fromIssuer in issuers && backed[k].backingIssuer in issuers
  }

  predicate ConsumptionsOk(consumptions: map<Id, Consumption>, counterparty: Id, issuers: set<Id>) {
    forall k :: k in consumptions ==>
      ConsumptionOk(counterparty, k, consumptions[k]) && consumptions[k].issuer in issuers
  }

  predicate SettlementsOk(settlements: map<Id, SettlementRecord>, counterparty: Id, issuers: set<Id>) {
    forall k :: k in settlements ==>
      SettlementOk(counterparty, k, settlements[k]) && settlements[k].request.issuer in issuers
  }

  /** Every record is well formed and names only issuers of the account. */
  predicate RecordsOk(a: Account) {
    && ReceiptsOk(a.receipts, a.counterparty, a.issuers.Keys)
    && NovationsOk(a.novations, a.counterparty, a.issuers.Keys)
    && DepositsOk(a.deposits, a.issuers.Keys)
    && BackedAllOk(a.backed, a.counterparty, a.issuers.Keys)
    && ConsumptionsOk(a.consumptions, a.counterparty, a.issuers.Keys)
    && SettlementsOk(a.settlements, a.counterparty, a.issuers.Keys)
  }

  ghost predicate IssuersOk(a: Account) {
    !Blank(a.counterparty) && a.issuers != map[] && forall i :: i in a.issuers ==> IssuerOk(i, a.issuers[i])
  }

  /** What the records post to issuer `i`, bucket by bucket. */
  ghost function Tally(a: Account, i: Id): Bucket -> nat {
    (b: Bucket) => Recorded(a, i, b)
  }

  /** The ledgers in `s` are exactly what the postings `t` add up to. */
  predicate Balanced(s: IssuerState, t: Bucket -> nat) {
    && t(ClosedDeposits) == s.closed.totalDeposited
    && t(ReserveDeposits) == s.reserve.totalDeposited
    && t(PeerCredits) == s.peer.outstanding + t(PeerDebits)
    && t(ClosedAllocations) == s.closed.claimable + s.closed.consumed
    && t(ClosedConsumptions) == s.closed.consumed
    && t(ReserveAllocations) == s.reserve.redeemable + s.reserve.pending + s.reserve.settled
    && t(PendingExternal) == s.reserve.pending
    && t(SettledExternal) == s.reserve.settled
  }

  ghost predicate BooksBalance(a: Account) {
    forall i :: i in a.issuers ==> Balanced(a.issuers[i], Tally(a, i))
  }

  function Outstanding(): IssuerState -> nat { (s: IssuerState) => s.peer.outstanding }

  /** The exposure counter is the sum over the issuers and within its cap. */
  ghost predicate ExposureOk(a: Account) {
    a.totalPeerCredit == Sum(a.issuers, Outstanding()) <= a.maxTotalPeerCredit
  }

  /** The log replays to the live ledgers and names every credit record exactly once. */
  ghost predicate LogOk(a: Account) {
    var log := ReplayLog(RecordsOf(a), a.issuers.Keys, a.events);
    && log.Some?
    && log.value.ledgers == PeerLedgers(a.issuers)
    && log.value.receipts == PeerReceiptIds(a.receipts)
    && log.value.novations == a.novations.Keys
    && log.value.backed == a.backed.Keys
    && log.value.last <= a.revision
  }

  function Closed(): SettlementRecord -> nat { (s: SettlementRecord) => if s.status.Pending? then 0 else 1 }

  /** How many operations the records stand for: a closed settlement stands for two. */
  ghost function OperationCount(a: Account): nat {
    |a.receipts| + |a.novations| + |a.deposits| + |a.backed| + |a.consumptions| + |a.settlements|
    + Sum(a.settlements, Closed())
  }

  ghost predicate RevisionOk(a: Account) { a.revision == OperationCount(a) }

  ghost predicate Inv(a: Account) {
    IssuersOk(a) && RecordsOk(a) && BooksBalance(a) && ExposureOk(a) && LogOk(a) && RevisionOk(a)
  }

  // ---------------------------------------------------------------- the log under growing records

  predicate Extends(small: CreditRecords, large: CreditRecords) {
    && (forall k :: k in small.receipts ==> k in large.receipts && large.receipts[k] == small.receipts[k])
    && (forall k :: k in small.novations ==> k in large.novations && large.novations[k] == small.novations[k])
    && (forall k :: k in small.backed ==> k in large.backed && large.backed[k] == small.backed[k])
  }

  /** Adding records does not change what a log that already replays means. */
  lemma {:induction false} ReplayStable(small: CreditRecords, large: CreditRecords, issuers: set<Id>, events: seq<Event>)
    requires Extends(small, large)
    requires ReplayLog(small, issuers, events).Some?
    ensures ReplayLog(large, issuers, events) == ReplayLog(small, issuers, events)
  {
    if events != [] {
      ReplayStable(small, large, issuers, events[..|events| - 1]);
    }
  }

  /** The log of `b` is the log of `a` with `e` appended, over records that only grew. */
  lemma ReplayAppend(a: Account, records: CreditRecords, e: Event)
    requires LogOk(a) && Extends(RecordsOf(a), records)
    ensures ReplayLog(records, a.issuers.Keys, a.events + [e])
         == ReplayEvent(records, ReplayLog(RecordsOf(a), a.issuers.Keys, a.events).value, e)
  {
    var events := a.events + [e];
    assert events[..|events| - 1] == a.events;
    ReplayStable(RecordsOf(a), records, a.issuers.Keys, a.events);
  }
}
