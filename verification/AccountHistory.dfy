/** How an account changes over a run: nothing is lost, and refused or repeated calls can be erased. */
module AccountHistory {
  import opened Base
  import opened Protocol
  import opened Accounts
  import opened AccountRuns

  // ---------------------------------------------------------------- later accounts

  predicate Submap<K, V(==)>(m: map<K, V>, n: map<K, V>) {
    forall k :: k in m ==> k in n && n[k] == m[k]
  }

  /** A settlement keeps its terms, and once closed its status. */
  predicate SettlementLater(s: SettlementRecord, t: SettlementRecord) {
    t.request == s.request && t.authorization == s.authorization && (s.status.Pending? || t.status == s.status)
  }

  /** `b` may come after `a`: identity and policies are fixed and no record is lost or rewritten. */
  ghost predicate Later(a: Account, b: Account) {
    && b.counterparty == a.counterparty && b.maxTotalPeerCredit == a.maxTotalPeerCredit
    && b.issuers.Keys == a.issuers.Keys
    && (forall i :: i in a.issuers ==> b.issuers[i].policy == a.issuers[i].policy)
    && Submap(a.receipts, b.receipts) && Submap(a.novations, b.novations)
    && Submap(a.deposits, b.deposits) && Submap(a.backed, b.backed)
    && Submap(a.consumptions, b.consumptions)
    && (forall k :: k in a.settlements ==>
          k in b.settlements && SettlementLater(a.settlements[k], b.settlements[k]))
    && a.events <= b.events && a.revision <= b.revision
    && (a.revision == b.revision ==> b == a)
  }

  lemma LaterTransitive(a: Account, b: Account, c: Account)
    requires Later(a, b) && Later(b, c)
    ensures Later(a, c)
  {
  }

  /** `b` is `a`, or comes one revision after it. */
  ghost predicate Next(a: Account, b: Account) {
    Later(a, b) && (b == a || b.revision == a.revision + 1)
  }

  lemma NextSame(a: Account)
    ensures Next(a, a)
  {
  }

  lemma DepositNext(a: Account, d: Deposit, caller: Id, b: Account)
    requires RecordDeposit(a, d, caller).Ok? && RecordDeposit(a, d, caller).value.account == b
    ensures Next(a, b)
  {
  }

  lemma GrantShape(a: Account, r: Receipt, mode: AcceptanceMode, g: Account)
    requires r.issuer in a.issuers
    requires Ok(g) == if r.valueClass == PeerCredit then GrantPeerCredit(a, r, mode) else GrantBacked(a, r, mode)
    ensures r.issuer in g.issuers && g.issuers[r.issuer].policy == a.issuers[r.issuer].policy
    ensures g == a.(issuers := a.issuers[r.issuer := g.issuers[r.issuer]], totalPeerCredit := g.totalPeerCredit)
  {
  }

  lemma ReceiptNext(a: Account, r: Receipt, caller: Id, mode: AcceptanceMode, now: u64, b: Account)
    requires r.issuer in a.issuers && r.receiptId !in a.receipts
    requires ApplyReceipt(a, r, caller, mode, now) == Ok(Outcome(b, Applied))
    ensures Next(a, b)
  {
    hide GrantPeerCredit, GrantBacked, ValidateReceipt, ValidateReceiptIdentity;
    var g := if r.valueClass == PeerCredit then GrantPeerCredit(a, r, mode) else GrantBacked(a, r, mode);
    GrantShape(a, r, mode, g.value);
  }

  lemma NovateNext(a: Account, n: Novation, caller: Id, now: u64, b: Account)
    requires Novate(a, n, caller, now).Ok? && Novate(a, n, caller, now).value.account == b
    ensures Next(a, b)
  {
  }

  lemma BackedNext(a: Account, n: BackedSettlement, caller: Id, now: u64, b: Account)
    requires SettleWithBacking(a, n, caller, now).Ok? && SettleWithBacking(a, n, caller, now).value.account == b
    ensures Next(a, b)
  {
  }

  lemma ConsumeNext(a: Account, c: Consumption, caller: Id, b: Account)
    requires Consume(a, c, caller).Ok? && Consume(a, c, caller).value.account == b
    ensures Next(a, b)
  {
  }

  lemma AuthorizeNext(a: Account, q: SettlementRequest, caller: Id, now: u64, b: Account)
    requires Authorize(a, q, caller, now).Ok? && Authorize(a, q, caller, now).value.account == b
    ensures Next(a, b)
  {
  }

  lemma CompleteNext(a: Account, id: Id, fee: u64, b: Account)
    requires Complete(a, id, fee).Ok? && Complete(a, id, fee).value.account == b
    ensures Next(a, b)
  {
  }

  lemma CancelNext(a: Account, id: Id, b: Account)
    requires Cancel(a, id).Ok? && Cancel(a, id).value.account == b
    ensures Next(a, b)
  {
  }

  /** A call leaves the account alone or raises the revision by one, and loses nothing. */
  lemma StepNext(a: Account, op: Op)
    ensures Next(a, Step(a, op))
  {
    hide *;
    var b := Step(a, op);
    if b == a {
      NextSame(a);
    } else {
      match op
      case OpDeposit(d, caller) =>
        DepositChanges(a, d, caller);
        DepositNext(a, d, caller, b);
      case OpReceipt(r, caller, mode, now) =>
        ReceiptChanges(a, r, caller, mode, now);
        ReceiptNext(a, r, caller, mode, now, b);
      case OpNovate(n, caller, now) =>
        NovateChanges(a, n, caller, now);
        NovateNext(a, n, caller, now, b);
      case OpBacked(n, caller, now) =>
        BackedChanges(a, n, caller, now);
        BackedNext(a, n, caller, now, b);
      case OpConsume(c, caller) =>
        ConsumeChanges(a, c, caller);
        ConsumeNext(a, c, caller, b);
      case OpAuthorize(q, caller, now) =>
        AuthorizeChanges(a, q, caller, now);
        AuthorizeNext(a, q, caller, now, b);
      case OpComplete(id, fee) =>
        CompleteChanges(a, id, fee);
        CompleteNext(a, id, fee, b);
      case OpCancel(id) =>
        CancelChanges(a, id);
        CancelNext(a, id, b);
    }
  }

  lemma {:induction false} RunLater(a: Account, ops: seq<Op>)
    ensures Later(a, Run(a, ops))
    decreases |ops|
  {
    hide Later;
    StepNext(a, if ops == [] then OpCancel([]) else ops[0]);
    if ops == [] {
      NextSame(a);
    } else {
      RunLater(Step(a, ops[0]), ops[1..]);
      LaterTransitive(a, Step(a, ops[0]), Run(a, ops));
    }
  }

  lemma {:induction false} RunAppend(a: Account, ops: seq<Op>, more: seq<Op>)
    ensures Run(a, ops + more) == Run(Run(a, ops), more)
    decreases |ops|
  {
    if ops == [] {
      assert ops + more == more;
    } else {
      assert (ops + more)[1..] == ops[1..] + more;
      RunAppend(Step(a, ops[0]), ops[1..], more);
    }
  }

  // ---------------------------------------------------------------- erasing refused and repeated calls

  /** The operation's id is on record (for closing a settlement: it is closed already). */
  predicate AlreadyRecorded(a: Account, op: Op) {
    match op
    case OpDeposit(d, _) => DepositKey(d) in a.deposits
    case OpReceipt(r, _, _, _) => r.receiptId in a.receipts
    case OpNovate(n, _, _) => n.novationId in a.novations
    case OpBacked(n, _, _) => n.settlementId in a.backed
    case OpConsume(c, _) => c.consumptionId in a.consumptions
    case OpAuthorize(q, _, _) => q.settlementId in a.settlements
    case OpComplete(id, _) => id in a.settlements && !a.settlements[id].status.Pending?
    case OpCancel(id) => id in a.settlements && !a.settlements[id].status.Pending?
  }

  /** The calls of `ops` that newly apply, in order. */
  function Effective(a: Account, ops: seq<Op>): seq<Op>
    decreases |ops|
  {
    if ops == [] then []
    else
      var rest := Effective(Step(a, ops[0]), ops[1..]);
      if Step(a, ops[0]) == a then rest else [ops[0]] + rest
  }

  /**
   * A call that is refused, or whose id is already recorded (whatever its contents, clock or mode),
   * changes nothing.
   */
  lemma RefusedOrRecordedIsInert(a: Account, op: Op)
    ensures Apply(a, op).Err? || AlreadyRecorded(a, op) ==> Step(a, op) == a
  {
    if AlreadyRecorded(a, op) && Step(a, op) != a {
      hide Apply, Step;
      match op
      case OpDeposit(d, caller) => DepositChanges(a, d, caller);
      case OpReceipt(r, caller, mode, now) => ReceiptChanges(a, r, caller, mode, now);
      case OpNovate(n, caller, now) => NovateChanges(a, n, caller, now);
      case OpBacked(n, caller, now) => BackedChanges(a, n, caller, now);
      case OpConsume(c, caller) => ConsumeChanges(a, c, caller);
      case OpAuthorize(q, caller, now) => AuthorizeChanges(a, q, caller, now);
      case OpComplete(id, fee) => CompleteChanges(a, id, fee);
      case OpCancel(id) => CancelChanges(a, id);
    }
  }

  /** Erasing every refused or repeated call leaves the same account, one revision per call kept. */
  lemma {:induction false} RetryErasure(a: Account, ops: seq<Op>)
    ensures Run(a, Effective(a, ops)) == Run(a, ops)
    ensures Effective(a, Effective(a, ops)) == Effective(a, ops)
    ensures Run(a, ops).revision == a.revision + |Effective(a, ops)|
    decreases |ops|
  {
    hide Step, Later;
    if ops != [] {
      StepNext(a, ops[0]);
      RetryErasure(Step(a, ops[0]), ops[1..]);
      if Step(a, ops[0]) != a {
        var kept := Effective(a, ops);
        assert kept[1..] == Effective(Step(a, ops[0]), ops[1..]);
      }
    }
  }

  /** Deleting one inert call from the middle of a run changes neither later states nor later answers. */
  lemma InertCallDeletes(a: Account, before: seq<Op>, op: Op, after: seq<Op>, last: Op)
    requires Step(Run(a, before), op) == Run(a, before)
    ensures Run(a, before + [op] + after) == Run(a, before + after)
    ensures Apply(Run(a, before + [op] + after), last) == Apply(Run(a, before + after), last)
  {
    hide Step, Apply;
    RunAppend(a, before + [op], after);
    RunAppend(a, before, [op]);
    RunAppend(a, before, after);
    assert Run(Run(a, before), [op]) == Run(Step(Run(a, before), op), []);
  }

  // ---------------------------------------------------------------- retries after any run

  /** `again` asks for the same thing as `op`; only the clock and the acceptance mode may differ. */
  predicate SameRequest(op: Op, again: Op) {
    match op
    case OpReceipt(r, caller, _, _) => again.OpReceipt? && again.receipt == r && again.caller == caller
    case OpNovate(n, caller, _) => again.OpNovate? && again.novation == n && again.caller == caller
    case OpBacked(n, caller, _) => again.OpBacked? && again.backed == n && again.caller == caller
    case OpAuthorize(q, caller, _) => again.OpAuthorize? && again.request == q && again.caller == caller
    case _ => again == op
  }

  /** The answer owed to a repeated request: the recorded one. */
  predicate RecordedAnswer(a: Account, op: Op, answer: Answer) {
    match op
    case OpNovate(_, _, _) => answer == Ok(Outcome(a, Done))
    case OpAuthorize(q, _, _) =>
      && q.settlementId in a.settlements
      && var record := a.settlements[q.settlementId];
      && answer == if record.status.Pending? then Ok(Outcome(a, Authorized(record.authorization)))
                   else if record.status.Cancelled? then Err(SettlementCancelled)
                   else Err(SettlementCompleted)
    case OpComplete(_, _) => answer == Ok(Outcome(a, Done))
    case OpCancel(_) => answer == Ok(Outcome(a, Done))
    case _ => answer == Ok(Outcome(a, AlreadyApplied))
  }

  lemma RepeatDeposit(a: Account, d: Deposit, caller: Id, b: Account)
    requires Step(a, OpDeposit(d, caller)) != a && Later(Step(a, OpDeposit(d, caller)), b)
    ensures RecordDeposit(b, d, caller) == Ok(Outcome(b, AlreadyApplied))
  {
    DepositChanges(a, d, caller);
    assert DepositKey(d) in Step(a, OpDeposit(d, caller)).deposits;
  }

  lemma RepeatReceipt(a: Account, r: Receipt, caller: Id, mode: AcceptanceMode, now: u64, b: Account,
                      mode': AcceptanceMode, now': u64)
    requires Step(a, OpReceipt(r, caller, mode, now)) != a && Later(Step(a, OpReceipt(r, caller, mode, now)), b)
    ensures ApplyReceipt(b, r, caller, mode', now') == Ok(Outcome(b, AlreadyApplied))
  {
    hide Step, GrantPeerCredit, GrantBacked, ValidateReceipt;
    ReceiptChanges(a, r, caller, mode, now);
    var g := if r.valueClass == PeerCredit then GrantPeerCredit(a, r, mode) else GrantBacked(a, r, mode);
    GrantShape(a, r, mode, g.value);
    assert r.receiptId in Step(a, OpReceipt(r, caller, mode, now)).receipts;
  }

  lemma RepeatNovate(a: Account, n: Novation, caller: Id, now: u64, b: Account, now': u64)
    requires Step(a, OpNovate(n, caller, now)) != a && Later(Step(a, OpNovate(n, caller, now)), b)
    ensures Novate(b, n, caller, now') == Ok(Outcome(b, Done))
  {
    NovateChanges(a, n, caller, now);
    assert n.novationId in Step(a, OpNovate(n, caller, now)).novations;
  }

  lemma RepeatBacked(a: Account, n: BackedSettlement, caller: Id, now: u64, b: Account, now': u64)
    requires Step(a, OpBacked(n, caller, now)) != a && Later(Step(a, OpBacked(n, caller, now)), b)
    ensures SettleWithBacking(b, n, caller, now') == Ok(Outcome(b, AlreadyApplied))
  {
    BackedChanges(a, n, caller, now);
    assert n.settlementId in Step(a, OpBacked(n, caller, now)).backed;
  }

  lemma RepeatConsume(a: Account, c: Consumption, caller: Id, b: Account)
    requires Step(a, OpConsume(c, caller)) != a && Later(Step(a, OpConsume(c, caller)), b)
    ensures Consume(b, c, caller) == Ok(Outcome(b, AlreadyApplied))
  {
    ConsumeChanges(a, c, caller);
    assert c.consumptionId in Step(a, OpConsume(c, caller)).consumptions;
  }

  lemma RepeatAuthorize(a: Account, q: SettlementRequest, caller: Id, now: u64, b: Account, now': u64)
    requires Step(a, OpAuthorize(q, caller, now)) != a && Later(Step(a, OpAuthorize(q, caller, now)), b)
    ensures RecordedAnswer(b, OpAuthorize(q, caller, now'), Authorize(b, q, caller, now'))
    ensures b.settlements[q.settlementId].authorization
            == Step(a, OpAuthorize(q, caller, now)).settlements[q.settlementId].authorization
  {
    AuthorizeChanges(a, q, caller, now);
    assert q.settlementId in Step(a, OpAuthorize(q, caller, now)).settlements;
  }

  lemma RepeatClose(a: Account, op: Op, b: Account)
    requires op.OpComplete? || op.OpCancel?
    requires Step(a, op) != a && Later(Step(a, op), b)
    ensures Apply(b, op) == Ok(Outcome(b, Done))
  {
    if op.OpComplete? {
      CompleteChanges(a, op.id, op.fee);
    } else {
      CancelChanges(a, op.id);
    }
    assert op.id in Step(a, op).settlements && !Step(a, op).settlements[op.id].status.Pending?;
  }

  /**
   * Once a call has applied, repeating it after any further calls, at any time and in any mode,
   * answers from the record and changes nothing.
   */
  lemma RetryAfterAnyRun(a: Account, op: Op, between: seq<Op>, again: Op)
    requires Step(a, op) != a && SameRequest(op, again)
    ensures var b := Run(Step(a, op), between); Step(b, again) == b && RecordedAnswer(b, op, Apply(b, again))
  {
    var b := Run(Step(a, op), between);
    RunLater(Step(a, op), between);
    RetryAnswer(a, op, b, again);
    hide RecordedAnswer, Later;
    assert RecordedAnswer(b, op, Apply(b, again)) ==> Step(b, again) == b by {
      RecordedAnswerInert(b, op, again);
    }
  }

  lemma RecordedAnswerInert(b: Account, op: Op, again: Op)
    ensures RecordedAnswer(b, op, Apply(b, again)) ==> Step(b, again) == b
  {
    hide Apply;
  }

  lemma RetryAnswer(a: Account, op: Op, b: Account, again: Op)
    requires Step(a, op) != a && SameRequest(op, again) && Later(Step(a, op), b)
    ensures RecordedAnswer(b, op, Apply(b, again))
  {
    hide Step, Later;
    hide RecordDeposit, ApplyReceipt, Novate, SettleWithBacking, Consume, Authorize, Complete, Cancel;
    match op
    case OpDeposit(d, caller) => RepeatDeposit(a, d, caller, b);
    case OpReceipt(r, caller, mode, now) => RepeatReceipt(a, r, caller, mode, now, b, again.mode, again.now);
    case OpNovate(n, caller, now) => RepeatNovate(a, n, caller, now, b, again.now);
    case OpBacked(n, caller, now) => RepeatBacked(a, n, caller, now, b, again.now);
    case OpConsume(c, caller) => RepeatConsume(a, c, caller, b);
    case OpAuthorize(q, caller, now) => RepeatAuthorize(a, q, caller, now, b, again.now);
    case OpComplete(id, fee) => RepeatClose(a, op, b);
    case OpCancel(id) => RepeatClose(a, op, b);
  }
}
