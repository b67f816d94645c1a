/**
 * What a caller is told. An accepted call is on record afterwards as it was asked for; a recorded id with
 * other contents is refused with its own conflict error; an authority handed out is the one on record; and
 * every refusal names a reason that is true of the account and the call.
 */
module AccountAnswers {
  import opened Base
  import opened Protocol
  import opened Accounts
  import opened Books
  import opened AccountRuns
  import opened AccountHistory
  import opened AccountAuthority
  import opened AccountAvailability

  // ---------------------------------------------------------------- accepted calls

  /** The identity checks, made before the records are looked at. */
  predicate Addressed(a: Account, op: Op) {
    match op
    case OpDeposit(d, caller) =>
      caller == d.issuer && d.issuer in a.issuers && !Blank(d.depositId) && d.amount > 0 && d.valueClass != PeerCredit
    case OpReceipt(r, caller, _, _) =>
      r.counterparty == a.counterparty && caller == r.issuer && r.issuer in a.issuers && !Blank(r.receiptId)
    case OpNovate(n, caller, _) =>
      && n.counterparty == a.counterparty && caller == n.toIssuer != n.fromIssuer && !Blank(n.novationId)
      && n.fromIssuer in a.issuers && n.toIssuer in a.issuers
    case OpBacked(n, caller, _) =>
      && n.counterparty == a.counterparty && caller == n.backingIssuer && !Blank(n.settlementId)
      && n.fromIssuer in a.issuers && n.backingIssuer in a.issuers
    case OpConsume(c, caller) =>
      && caller == c.counterparty == a.counterparty && c.issuer in a.issuers && !Blank(c.consumptionId)
      && !Blank(c.resource) && c.amount > 0
    case OpAuthorize(q, caller, _) =>
      caller == q.counterparty == a.counterparty && q.issuer in a.issuers && !Blank(q.settlementId)
    case _ => true
  }

  /** The call asks again for what is on record; an authority can be asked for again while it is pending. */
  predicate Repeats(a: Account, op: Op) {
    && Addressed(a, op) && Holds(a, op)
    && (op.OpAuthorize? ==> a.settlements[op.request.settlementId].status.Pending?)
  }

  /** The error for an id that is on record with other contents, or closed another way. */
  function Conflict(a: Account, op: Op): CreditError
    requires AlreadyRecorded(a, op)
  {
    match op
    case OpDeposit(_, _) => DepositConflict
    case OpReceipt(_, _, _, _) => ReceiptConflict
    case OpNovate(_, _, _) => NovationConflict
    case OpBacked(_, _, _) => BackedSettlementConflict
    case OpConsume(_, _) => ConsumptionConflict
    case OpAuthorize(q, _, _) =>
      var record := a.settlements[q.settlementId];
      if record.request != q then SettlementConflict
      else if record.status.Cancelled? then SettlementCancelled else SettlementCompleted
    case OpComplete(id, _) =>
      if a.settlements[id].status.Cancelled? then SettlementCancelled else SettlementCompletionConflict
    case OpCancel(_) => SettlementCompleted
  }

  /** The reply of an accepted call that left `b`, by whether it took effect. */
  function ReplyFor(op: Op, b: Account, applied: bool): Option<Reply> {
    match op
    case OpNovate(_, _, _) => Some(Done)
    case OpComplete(_, _) => Some(Done)
    case OpCancel(_) => Some(Done)
    case OpAuthorize(q, _, _) =>
      if q.settlementId in b.settlements then Some(Authorized(b.settlements[q.settlementId].authorization)) else None
    case _ => Some(if applied then Applied else AlreadyApplied)
  }

  /** What has to be true of the answer to `op`, for any account. */
  predicate AnswerOk(a: Account, op: Op) {
    var answer, b := Apply(a, op), Step(a, op);
    && (answer.Ok? ==> Holds(b, op) && Some(answer.value.reply) == ReplyFor(op, b, b != a))
    && (AlreadyRecorded(a, op) ==>
          && (answer.Ok? <==> Repeats(a, op))
          && (Addressed(a, op) && !Repeats(a, op) ==> answer == Err(Conflict(a, op))))
    && (!AlreadyRecorded(a, op) && answer.Ok? ==> b != a)
  }

  lemma DepositAnswer(a: Account, d: Deposit, caller: Id)
    ensures AnswerOk(a, OpDeposit(d, caller))
  {
    hide Blank, AddBacking;
  }

  lemma ReceiptAnswer(a: Account, r: Receipt, caller: Id, mode: AcceptanceMode, now: u64)
    ensures AnswerOk(a, OpReceipt(r, caller, mode, now))
  {
    hide Blank, GrantPeerCredit, GrantBacked, ValidateReceipt;
  }

  lemma NovateAnswer(a: Account, n: Novation, caller: Id, now: u64)
    ensures AnswerOk(a, OpNovate(n, caller, now))
  {
    hide Blank, ValidateNovation;
  }

  lemma BackedAnswer(a: Account, n: BackedSettlement, caller: Id, now: u64)
    ensures AnswerOk(a, OpBacked(n, caller, now))
  {
    hide Blank, AllocateClosedLoop, AllocateReserve;
  }

  lemma ConsumeAnswer(a: Account, c: Consumption, caller: Id)
    ensures AnswerOk(a, OpConsume(c, caller))
  {
    hide Blank;
  }

  lemma AuthorizeAnswer(a: Account, q: SettlementRequest, caller: Id, now: u64)
    ensures AnswerOk(a, OpAuthorize(q, caller, now))
  {
    hide Blank, ValidateSettlement;
  }

  lemma CompleteAnswer(a: Account, id: Id, fee: u64)
    ensures AnswerOk(a, OpComplete(id, fee))
  {
  }

  lemma CancelAnswer(a: Account, id: Id)
    ensures AnswerOk(a, OpCancel(id))
  {
  }

  lemma EveryAnswerOk(a: Account, op: Op)
    ensures AnswerOk(a, op)
  {
    hide *;
    match op
    case OpDeposit(d, caller) => DepositAnswer(a, d, caller);
    case OpReceipt(r, caller, mode, now) => ReceiptAnswer(a, r, caller, mode, now);
    case OpNovate(n, caller, now) => NovateAnswer(a, n, caller, now);
    case OpBacked(n, caller, now) => BackedAnswer(a, n, caller, now);
    case OpConsume(c, caller) => ConsumeAnswer(a, c, caller);
    case OpAuthorize(q, caller, now) => AuthorizeAnswer(a, q, caller, now);
    case OpComplete(id, fee) => CompleteAnswer(a, id, fee);
    case OpCancel(id) => CancelAnswer(a, id);
  }

  /** For every account and call: what was accepted is on record afterwards exactly as it was asked for. */
  lemma AcceptedIsOnRecord(a: Account, op: Op)
    ensures Apply(a, op).Ok? ==> Holds(Step(a, op), op)
  {
    EveryAnswerOk(a, op);
    hide Apply, Step, Holds, ReplyFor, AlreadyRecorded, Repeats, Conflict, Addressed;
  }

  /** For every account and call: an id on record with other contents is refused with its conflict error. */
  lemma OtherContentsConflict(a: Account, op: Op)
    ensures AlreadyRecorded(a, op) && Addressed(a, op) && !Repeats(a, op) ==> Apply(a, op) == Err(Conflict(a, op))
  {
    EveryAnswerOk(a, op);
    hide Apply, Step, Holds, ReplyFor, AlreadyRecorded, Repeats, Conflict, Addressed;
  }

  /** The reply of an accepted call; an authority handed out is the one on record, on a first grant too. */
  lemma RepliesTellTheRecord(a: Account, op: Op)
    ensures Apply(a, op).Ok? ==> Some(Apply(a, op).value.reply) == ReplyFor(op, Step(a, op), Step(a, op) != a)
  {
    EveryAnswerOk(a, op);
    hide Apply, Step, Holds, ReplyFor, AlreadyRecorded, Repeats, Conflict, Addressed;
  }

  lemma AcceptedWhen(a: Account, op: Op)
    requires Inv(a)
    ensures Apply(a, op).Ok? <==> Applies(a, op) || Repeats(a, op)
  {
    EveryAnswerOk(a, op);
    CallApplies(a, op);
    RecordedBeforeRepeat(a, op);
    NeverWhileRecorded(a, op);
    hide Apply, Holds, ReplyFor, AlreadyRecorded, Repeats, Conflict, Addressed, Applies, Inv;
  }

  lemma RecordedBeforeRepeat(a: Account, op: Op)
    ensures Repeats(a, op) ==> AlreadyRecorded(a, op)
  {
  }

  lemma NeverWhileRecorded(a: Account, op: Op)
    ensures Applies(a, op) ==> !AlreadyRecorded(a, op)
  {
    hide Entitled, AlreadyRecorded, Worded, Room;
  }

  /** In every run a call is accepted exactly when it takes effect or asks again for what is on record. */
  lemma EveryCallAcceptedExactlyWhen(policy: AccountPolicy, ops: seq<Op>, op: Op)
    requires New(policy).Ok?
    ensures var a := Run(New(policy).value, ops); Apply(a, op).Ok? <==> Applies(a, op) || Repeats(a, op)
  {
    hide *;
    EveryRunKeepsTheBooks(policy, ops);
    AcceptedWhen(Run(New(policy).value, ops), op);
  }

  /** An authority for `q` that covers the amount and the whole maximum fee, granted before its deadline. */
  predicate WholeAuthority(q: SettlementRequest, reply: Reply) {
    && reply.Authorized? && q.amount + q.maxFee <= U64_MAX
    && reply.authorization == AuthorizationFor(q, q.amount + q.maxFee, reply.authorization.authorizedAt)
    && reply.authorization.authorizedAt < q.expiresAt
  }

  lemma OnRecordIsWhole(b: Account, q: SettlementRequest)
    requires Inv(b) && q.settlementId in b.settlements && b.settlements[q.settlementId].request == q
    ensures WholeAuthority(q, Authorized(b.settlements[q.settlementId].authorization))
  {
    hide Inv;
    SettlementOnRecord(b, q.settlementId);
  }

  lemma HandedOut(a: Account, q: SettlementRequest, caller: Id, now: u64)
    ensures var b := Step(a, OpAuthorize(q, caller, now));
            Authorize(a, q, caller, now).Ok? ==>
              && q.settlementId in b.settlements && b.settlements[q.settlementId].request == q
              && Authorize(a, q, caller, now).value.reply == Authorized(b.settlements[q.settlementId].authorization)
  {
    AuthorizeAnswer(a, q, caller, now);
    hide Authorize, Step, Conflict, Repeats, Addressed, AlreadyRecorded;
  }

  lemma SettlementOnRecord(a: Account, id: Id)
    requires Inv(a) && id in a.settlements
    ensures SettlementOk(a.counterparty, id, a.settlements[id])
  {
    hide LogOk, BooksBalance, RevisionOk, ExposureOk, SettlementOk;
  }

  /**
   * In every run the authority handed out, on a first grant or again, covers the amount and the whole
   * maximum fee, and was granted before its deadline.
   */
  lemma EveryGrantIsWhole(policy: AccountPolicy, ops: seq<Op>, q: SettlementRequest, caller: Id, now: u64)
    requires New(policy).Ok?
    ensures var a := Run(New(policy).value, ops);
            Authorize(a, q, caller, now).Ok? ==> WholeAuthority(q, Authorize(a, q, caller, now).value.reply)
  {
    hide *;
    var a, op := Run(New(policy).value, ops), OpAuthorize(q, caller, now);
    EveryRunKeepsTheBooks(policy, ops);
    StepKeeps(a, op);
    HandedOut(a, q, caller, now);
    if Authorize(a, q, caller, now).Ok? {
      OnRecordIsWhole(Step(a, op), q);
    }
  }
}
