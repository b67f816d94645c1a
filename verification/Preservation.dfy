/** Every public operation keeps the invariant `Books.Inv`. */
module Preservation {
  import opened Base
  import opened Protocol
  import opened Ledgers
  import opened Sums
  import opened Accounts
  import opened Books

  // ---------------------------------------------------------------- what one more record posts

  lemma PostReceipt(a: Account, b: Account, r: Receipt)
    requires r.receiptId !in a.receipts
    requires b.receipts == a.receipts[r.receiptId := r]
    requires b.novations == a.novations && b.deposits == a.deposits && b.backed == a.backed
    requires b.consumptions == a.consumptions && b.settlements == a.settlements
    ensures forall i, t :: Tally(b, i)(t) == Tally(a, i)(t) + ReceiptPosting(i, t)(r)
  {
    forall i, t ensures Tally(b, i)(t) == Tally(a, i)(t) + ReceiptPosting(i, t)(r) {
      SumInsert(a.receipts, r.receiptId, r, ReceiptPosting(i, t));
    }
  }

  lemma PostNovation(a: Account, b: Account, n: Novation)
    requires n.novationId !in a.novations
    requires b.novations == a.novations[n.novationId := n]
    requires b.receipts == a.receipts && b.deposits == a.deposits && b.backed == a.backed
    requires b.consumptions == a.consumptions && b.settlements == a.settlements
    ensures forall i, t :: Tally(b, i)(t) == Tally(a, i)(t) + NovationPosting(i, t)(n)
  {
    forall i, t ensures Tally(b, i)(t) == Tally(a, i)(t) + NovationPosting(i, t)(n) {
      SumInsert(a.novations, n.novationId, n, NovationPosting(i, t));
    }
  }

  lemma PostDeposit(a: Account, b: Account, d: Deposit)
    requires DepositKey(d) !in a.deposits
    requires b.deposits == a.deposits[DepositKey(d) := d]
    requires b.receipts == a.receipts && b.novations == a.novations && b.backed == a.backed
    requires b.consumptions == a.consumptions && b.settlements == a.settlements
    ensures forall i, t :: Tally(b, i)(t) == Tally(a, i)(t) + DepositPosting(i, t)(d)
  {
    forall i, t ensures Tally(b, i)(t) == Tally(a, i)(t) + DepositPosting(i, t)(d) {
      SumInsert(a.deposits, DepositKey(d), d, DepositPosting(i, t));
    }
  }

  lemma PostBacked(a: Account, b: Account, s: BackedSettlement)
    requires s.settlementId !in a.backed
    requires b.backed == a.backed[s.settlementId := s]
    requires b.receipts == a.receipts && b.novations == a.novations && b.deposits == a.deposits
    requires b.consumptions == a.consumptions && b.settlements == a.settlements
    ensures forall i, t :: Tally(b, i)(t) == Tally(a, i)(t) + BackedPosting(i, t)(s)
  {
    forall i, t ensures Tally(b, i)(t) == Tally(a, i)(t) + BackedPosting(i, t)(s) {
      SumInsert(a.backed, s.settlementId, s, BackedPosting(i, t));
    }
  }

  lemma PostConsumption(a: Account, b: Account, c: Consumption)
    requires c.consumptionId !in a.consumptions
    requires b.consumptions == a.consumptions[c.consumptionId := c]
    requires b.receipts == a.receipts && b.novations == a.novations && b.deposits == a.deposits
    requires b.backed == a.backed && b.settlements == a.settlements
    ensures forall i, t :: Tally(b, i)(t) == Tally(a, i)(t) + ConsumptionPosting(i, t)(c)
  {
    forall i, t ensures Tally(b, i)(t) == Tally(a, i)(t) + ConsumptionPosting(i, t)(c) {
      SumInsert(a.consumptions, c.consumptionId, c, ConsumptionPosting(i, t));
    }
  }

  lemma PostSettlement(a: Account, b: Account, id: Id, s: SettlementRecord)
    requires b.settlements == a.settlements[id := s]
    requires b.receipts == a.receipts && b.novations == a.novations && b.deposits == a.deposits
    requires b.backed == a.backed && b.consumptions == a.consumptions
    ensures id !in a.settlements ==>
      forall i, t :: Tally(b, i)(t) == Tally(a, i)(t) + SettlementPosting(i, t)(s)
    ensures id in a.settlements ==>
      forall i, t :: Tally(b, i)(t) + SettlementPosting(i, t)(a.settlements[id])
                  == Tally(a, i)(t) + SettlementPosting(i, t)(s)
  {
    forall i, t
      ensures if id in a.settlements
              then Tally(b, i)(t) + SettlementPosting(i, t)(a.settlements[id])
                   == Tally(a, i)(t) + SettlementPosting(i, t)(s)
              else Tally(b, i)(t) == Tally(a, i)(t) + SettlementPosting(i, t)(s)
    {
      if id in a.settlements {
        SumUpdate(a.settlements, id, s, SettlementPosting(i, t));
      } else {
        SumInsert(a.settlements, id, s, SettlementPosting(i, t));
      }
    }
  }

  // ---------------------------------------------------------------- frames

  lemma InvParts(a: Account)
    requires Inv(a)
    ensures IssuersOk(a) && RecordsOk(a) && BooksBalance(a) && ExposureOk(a) && LogOk(a) && RevisionOk(a)
  {
  }

  lemma InvWhole(a: Account)
    requires IssuersOk(a) && RecordsOk(a) && BooksBalance(a) && ExposureOk(a) && LogOk(a) && RevisionOk(a)
    ensures Inv(a)
  {
  }

  lemma IssuerAt(a: Account, i: Id)
    requires IssuersOk(a) && i in a.issuers
    ensures IssuerOk(i, a.issuers[i])
  {
  }

  /** Adding records keeps the meaning of the log when neither it nor the peer ledgers change. */
  lemma LogFrame(a: Account, b: Account)
    requires LogOk(a) && Extends(RecordsOf(a), RecordsOf(b))
    requires b.events == a.events && PeerReceiptIds(b.receipts) == PeerReceiptIds(a.receipts)
    requires b.novations == a.novations && b.backed == a.backed && a.revision <= b.revision
    requires PeerLedgers(b.issuers) == PeerLedgers(a.issuers)
    ensures LogOk(b)
  {
    assert b.issuers.Keys == PeerLedgers(b.issuers).Keys == a.issuers.Keys;
    ReplayStable(RecordsOf(a), RecordsOf(b), a.issuers.Keys, a.events);
  }

  lemma ExposureFrame(a: Account, b: Account, i: Id, s: IssuerState)
    requires ExposureOk(a) && i in a.issuers && b.issuers == a.issuers[i := s]
    requires s.peer.outstanding == a.issuers[i].peer.outstanding
    requires b.totalPeerCredit == a.totalPeerCredit && b.maxTotalPeerCredit == a.maxTotalPeerCredit
    ensures ExposureOk(b)
  {
    SumUpdate(a.issuers, i, s, Outstanding());
  }

  lemma IssuersKeep(a: Account, b: Account, i: Id, s: IssuerState)
    requires IssuersOk(a) && i in a.issuers && IssuerOk(i, s)
    requires b.issuers == a.issuers[i := s] && b.counterparty == a.counterparty
    ensures IssuersOk(b) && b.issuers.Keys == a.issuers.Keys
  {
    assert i in b.issuers;
  }

  /** `b` is `a` with the backed ledgers of issuer `i` edited and one more operation counted. */
  ghost predicate BackingEdit(a: Account, b: Account, i: Id) {
    && i in a.issuers && b.issuers.Keys == a.issuers.Keys
    && b.issuers == a.issuers[i := b.issuers[i]]
    && b.issuers[i].peer == a.issuers[i].peer
    && b.counterparty == a.counterparty && b.revision == a.revision + 1
    && b.totalPeerCredit == a.totalPeerCredit && b.maxTotalPeerCredit == a.maxTotalPeerCredit
    && b.events == a.events && b.novations == a.novations && b.backed == a.backed
    && Extends(RecordsOf(a), RecordsOf(b))
    && PeerReceiptIds(b.receipts) == PeerReceiptIds(a.receipts)
  }

  lemma BackingEditKeys(a: Account, b: Account, i: Id)
    requires BackingEdit(a, b, i)
    ensures b.issuers.Keys == a.issuers.Keys && b.revision == a.revision + 1
  {
  }

  /** Such an edit leaves the issuers, the exposure and the log as they should be. */
  lemma BackingEditKeeps(a: Account, b: Account, i: Id)
    requires BackingEdit(a, b, i) && IssuerOk(i, b.issuers[i])
    requires IssuersOk(a) && ExposureOk(a) && LogOk(a)
    ensures IssuersOk(b) && ExposureOk(b) && LogOk(b)
  {
    hide LogOk, ExposureOk, IssuersOk;
    IssuersKeep(a, b, i, b.issuers[i]);
    ExposureFrame(a, b, i, b.issuers[i]);
    assert PeerLedgers(b.issuers) == PeerLedgers(a.issuers);
    LogFrame(a, b);
  }

  /** One event more: the log of `b` replays to what `e` makes of the live ledgers of `a`. */
  lemma LogGrows(a: Account, b: Account, e: Event)
    requires LogOk(a) && Extends(RecordsOf(a), RecordsOf(b))
    requires b.events == a.events + [e] && b.issuers.Keys == a.issuers.Keys
    ensures ReplayLog(RecordsOf(b), b.issuers.Keys, b.events)
         == ReplayEvent(RecordsOf(b),
                        LogState(PeerLedgers(a.issuers), PeerReceiptIds(a.receipts),
                                 a.novations.Keys, a.backed.Keys,
                                 ReplayLog(RecordsOf(a), a.issuers.Keys, a.events).value.last), e)
  {
    ReplayAppend(a, RecordsOf(b), e);
  }

  // ---------------------------------------------------------------- deposits

  lemma DepositShape(a: Account, d: Deposit, caller: Id, b: Account)
    requires d.issuer in a.issuers && IssuerOk(d.issuer, a.issuers[d.issuer])
    requires RecordDeposit(a, d, caller) == Ok(Outcome(b, Applied)) && DepositKey(d) !in a.deposits
    ensures BackingEdit(a, b, d.issuer) && IssuerOk(d.issuer, b.issuers[d.issuer])
    ensures DepositOk(d) && AddBacking(a.issuers[d.issuer], d) == Ok(b.issuers[d.issuer])
    ensures b == a.(issuers := b.issuers, revision := b.revision,
                    deposits := a.deposits[DepositKey(d) := d])
  {
  }

  lemma DepositBalances(i: Id, d: Deposit, s: IssuerState, s': IssuerState, t: Bucket -> nat, t': Bucket -> nat)
    requires Balanced(s, t) && forall b :: t'(b) == t(b) + DepositPosting(i, b)(d)
    requires if d.issuer == i then AddBacking(s, d) == Ok(s') else s' == s
    ensures Balanced(s', t')
  {
  }

  lemma DepositBooks(a: Account, b: Account, d: Deposit)
    requires BooksBalance(a) && BackingEdit(a, b, d.issuer) && DepositKey(d) !in a.deposits
    requires AddBacking(a.issuers[d.issuer], d) == Ok(b.issuers[d.issuer])
    requires b == a.(issuers := b.issuers, revision := b.revision,
                    deposits := a.deposits[DepositKey(d) := d])
    ensures BooksBalance(b)
  {
    hide Tally, Balanced, AddBacking;
    PostDeposit(a, b, d);
    forall i | i in b.issuers ensures Balanced(b.issuers[i], Tally(b, i)) {
      DepositBalances(i, d, a.issuers[i], b.issuers[i], Tally(a, i), Tally(b, i));
    }
  }

  lemma DepositRecords(a: Account, b: Account, d: Deposit)
    requires RecordsOk(a) && d.issuer in a.issuers && b.issuers.Keys == a.issuers.Keys
    requires DepositOk(d) && DepositKey(d) !in a.deposits
    requires b == a.(issuers := b.issuers, revision := b.revision,
                     deposits := a.deposits[DepositKey(d) := d])
    ensures RecordsOk(b)
  {
  }

  lemma DepositCount(a: Account, b: Account, d: Deposit)
    requires RevisionOk(a) && b.revision == a.revision + 1 && DepositKey(d) !in a.deposits
    requires b == a.(issuers := b.issuers, revision := b.revision,
                     deposits := a.deposits[DepositKey(d) := d])
    ensures RevisionOk(b)
  {
  }

  lemma DepositKeeps(a: Account, d: Deposit, caller: Id, b: Account)
    requires Inv(a) && d.issuer in a.issuers
    requires RecordDeposit(a, d, caller) == Ok(Outcome(b, Applied)) && DepositKey(d) !in a.deposits
    ensures Inv(b)
  {
    hide *;
    InvParts(a);
    IssuerAt(a, d.issuer);
    DepositShape(a, d, caller, b);
    DepositBooks(a, b, d);
    BackingEditKeys(a, b, d.issuer);
    DepositRecords(a, b, d);
    DepositCount(a, b, d);
    BackingEditKeeps(a, b, d.issuer);
    InvWhole(b);
  }

  // ---------------------------------------------------------------- closed-loop consumption

  lemma ConsumeShape(a: Account, c: Consumption, caller: Id, b: Account)
    requires c.issuer in a.issuers && IssuerOk(c.issuer, a.issuers[c.issuer])
    requires Consume(a, c, caller) == Ok(Outcome(b, Applied)) && c.consumptionId !in a.consumptions
    ensures BackingEdit(a, b, c.issuer) && IssuerOk(c.issuer, b.issuers[c.issuer])
    ensures ConsumptionOk(a.counterparty, c.consumptionId, c)
    ensures a.issuers[c.issuer].closed.Consume(c.amount) == Ok(b.issuers[c.issuer].closed)
    ensures b.issuers[c.issuer].reserve == a.issuers[c.issuer].reserve
    ensures b == a.(issuers := b.issuers, revision := b.revision,
                    consumptions := a.consumptions[c.consumptionId := c])
  {
  }

  lemma ConsumeBalances(i: Id, c: Consumption, s: IssuerState, s': IssuerState, t: Bucket -> nat, t': Bucket -> nat)
    requires Balanced(s, t) && forall b :: t'(b) == t(b) + ConsumptionPosting(i, b)(c)
    requires s'.peer == s.peer && s'.reserve == s.reserve
    requires if c.issuer == i then s.closed.Consume(c.amount) == Ok(s'.closed) else s'.closed == s.closed
    ensures Balanced(s', t')
  {
  }

  lemma ConsumeBooks(a: Account, b: Account, c: Consumption)
    requires BooksBalance(a) && BackingEdit(a, b, c.issuer) && c.consumptionId !in a.consumptions
    requires a.issuers[c.issuer].closed.Consume(c.amount) == Ok(b.issuers[c.issuer].closed)
    requires b.issuers[c.issuer].reserve == a.issuers[c.issuer].reserve
    requires b == a.(issuers := b.issuers, revision := b.revision,
                     consumptions := a.consumptions[c.consumptionId := c])
    ensures BooksBalance(b)
  {
    hide Tally, Balanced;
    PostConsumption(a, b, c);
    forall i | i in b.issuers ensures Balanced(b.issuers[i], Tally(b, i)) {
      ConsumeBalances(i, c, a.issuers[i], b.issuers[i], Tally(a, i), Tally(b, i));
    }
  }

  lemma ConsumeRecords(a: Account, b: Account, c: Consumption)
    requires RecordsOk(a) && c.issuer in a.issuers && b.issuers.Keys == a.issuers.Keys
    requires ConsumptionOk(a.counterparty, c.consumptionId, c) && c.consumptionId !in a.consumptions
    requires b == a.(issuers := b.issuers, revision := b.revision,
                     consumptions := a.consumptions[c.consumptionId := c])
    ensures RecordsOk(b)
  {
  }

  lemma ConsumeCount(a: Account, b: Account, c: Consumption)
    requires RevisionOk(a) && b.revision == a.revision + 1 && c.consumptionId !in a.consumptions
    requires b == a.(issuers := b.issuers, revision := b.revision,
                     consumptions := a.consumptions[c.consumptionId := c])
    ensures RevisionOk(b)
  {
  }

  lemma ConsumeKeeps(a: Account, c: Consumption, caller: Id, b: Account)
    requires Inv(a) && c.issuer in a.issuers
    requires Consume(a, c, caller) == Ok(Outcome(b, Applied)) && c.consumptionId !in a.consumptions
    ensures Inv(b)
  {
    hide *;
    InvParts(a);
    IssuerAt(a, c.issuer);
    ConsumeShape(a, c, caller, b);
    ConsumeBooks(a, b, c);
    BackingEditKeys(a, b, c.issuer);
    ConsumeRecords(a, b, c);
    ConsumeCount(a, b, c);
    BackingEditKeeps(a, b, c.issuer);
    InvWhole(b);
  }

  // ---------------------------------------------------------------- external settlement

  /** How a settlement record moving from `old` (or nothing) to `new` must move the reserve ledger. */
  predicate ReserveMoves(i: Id, before: Option<SettlementRecord>, after: SettlementRecord,
                         l: ReserveLedger, l': ReserveLedger) {
    var pendingBefore := if before.Some? then SettlementPosting(i, PendingExternal)(before.value) else 0;
    var settledBefore := if before.Some? then SettlementPosting(i, SettledExternal)(before.value) else 0;
    && l'.totalDeposited == l.totalDeposited
    && l'.pending + pendingBefore == l.pending + SettlementPosting(i, PendingExternal)(after)
    && l'.settled + settledBefore == l.settled + SettlementPosting(i, SettledExternal)(after)
    && l'.redeemable + l'.pending + l'.settled == l.redeemable + l.pending + l.settled
  }

  lemma SettlementBalances(i: Id, before: Option<SettlementRecord>, after: SettlementRecord,
                           s: IssuerState, s': IssuerState, t: Bucket -> nat, t': Bucket -> nat)
    requires Balanced(s, t)
    requires forall b :: t'(b) + (if before.Some? then SettlementPosting(i, b)(before.value) else 0)
                      == t(b) + SettlementPosting(i, b)(after)
    requires s'.peer == s.peer && s'.closed == s.closed
    requires ReserveMoves(i, before, after, s.reserve, s'.reserve)
    ensures Balanced(s', t')
  {
  }

  lemma SettlementBooks(a: Account, b: Account, id: Id, after: SettlementRecord)
    requires BooksBalance(a) && BackingEdit(a, b, after.request.issuer)
    requires b == a.(issuers := b.issuers, revision := b.revision,
                     settlements := a.settlements[id := after])
    requires b.issuers[after.request.issuer].closed == a.issuers[after.request.issuer].closed
    requires id in a.settlements ==> a.settlements[id].request == after.request
    requires ReserveMoves(after.request.issuer,
                          if id in a.settlements then Some(a.settlements[id]) else None, after,
                          a.issuers[after.request.issuer].reserve, b.issuers[after.request.issuer].reserve)
    ensures BooksBalance(b)
  {
    hide Tally, Balanced;
    PostSettlement(a, b, id, after);
    var before := if id in a.settlements then Some(a.settlements[id]) else None;
    forall i | i in b.issuers ensures Balanced(b.issuers[i], Tally(b, i)) {
      assert ReserveMoves(i, before, after, a.issuers[i].reserve, b.issuers[i].reserve);
      SettlementBalances(i, before, after, a.issuers[i], b.issuers[i], Tally(a, i), Tally(b, i));
    }
  }

  lemma SettlementCount(a: Account, b: Account, id: Id, after: SettlementRecord)
    requires RevisionOk(a) && b.revision == a.revision + 1
    requires b == a.(issuers := b.issuers, revision := b.revision,
                     settlements := a.settlements[id := after])
    requires if id in a.settlements then a.settlements[id].status.Pending? && !after.status.Pending?
             else after.status.Pending?
    ensures RevisionOk(b)
  {
    if id in a.settlements {
      SumUpdate(a.settlements, id, after, Closed());
      assert b.settlements.Keys == a.settlements.Keys;
      assert |b.settlements| == |b.settlements.Keys| && |a.settlements| == |a.settlements.Keys|;
    } else {
      SumInsert(a.settlements, id, after, Closed());
    }
  }

  /** `b` is `a` with the settlement `id` opened, or closed from pending, as the record `after`. */
  ghost predicate SettlementEdit(a: Account, b: Account, id: Id, after: SettlementRecord) {
    var i := after.request.issuer;
    && (if id in a.settlements
        then a.settlements[id].status.Pending? && !after.status.Pending?
             && a.settlements[id].request == after.request
        else after.status.Pending?)
    && SettlementOk(a.counterparty, id, after)
    && BackingEdit(a, b, i) && IssuerOk(i, b.issuers[i]) && b.issuers[i].closed == a.issuers[i].closed
    && ReserveMoves(i, if id in a.settlements then Some(a.settlements[id]) else None, after,
                    a.issuers[i].reserve, b.issuers[i].reserve)
    && b == a.(issuers := b.issuers, revision := b.revision, settlements := a.settlements[id := after])
  }

  lemma SettlementRecords(a: Account, b: Account, id: Id, after: SettlementRecord)
    requires RecordsOk(a) && SettlementOk(a.counterparty, id, after)
    requires after.request.issuer in a.issuers && b.issuers.Keys == a.issuers.Keys
    requires b == a.(issuers := b.issuers, revision := b.revision, settlements := a.settlements[id := after])
    ensures RecordsOk(b)
  {
  }

  lemma SettlementEditKeeps(a: Account, b: Account, id: Id, after: SettlementRecord)
    requires Inv(a) && SettlementEdit(a, b, id, after)
    ensures Inv(b)
  {
    hide LogOk, ExposureOk, IssuersOk, BooksBalance, RevisionOk, RecordsOk, ReserveMoves, SettlementOk, IssuerOk;
    SettlementBooks(a, b, id, after);
    SettlementCount(a, b, id, after);
    SettlementRecords(a, b, id, after);
    BackingEditKeeps(a, b, after.request.issuer);
  }

  lemma AuthorizeShape(a: Account, q: SettlementRequest, caller: Id, now: u64, b: Account)
    requires q.issuer in a.issuers && IssuerOk(q.issuer, a.issuers[q.issuer])
    requires Authorize(a, q, caller, now).Ok? && Authorize(a, q, caller, now).value.account == b
    requires q.settlementId !in a.settlements
    ensures q.settlementId in b.settlements
    ensures SettlementEdit(a, b, q.settlementId, b.settlements[q.settlementId])
  {
    assert b.issuers[q.issuer].reserve == a.issuers[q.issuer].reserve.Authorize(q.amount + q.maxFee).value;
    assert b.issuers.Keys == a.issuers.Keys;
  }

  lemma CompleteShape(a: Account, id: Id, fee: u64, b: Account)
    requires Complete(a, id, fee) == Ok(Outcome(b, Done)) && a.settlements[id].status.Pending?
    requires SettlementOk(a.counterparty, id, a.settlements[id])
    requires a.settlements[id].request.issuer in a.issuers
    requires IssuerOk(a.settlements[id].request.issuer, a.issuers[a.settlements[id].request.issuer])
    ensures SettlementEdit(a, b, id, a.settlements[id].(status := Completed(fee)))
  {
    assert b.issuers.Keys == a.issuers.Keys;
  }

  lemma CancelShape(a: Account, id: Id, b: Account)
    requires Cancel(a, id) == Ok(Outcome(b, Done)) && a.settlements[id].status.Pending?
    requires SettlementOk(a.counterparty, id, a.settlements[id])
    requires a.settlements[id].request.issuer in a.issuers
    requires IssuerOk(a.settlements[id].request.issuer, a.issuers[a.settlements[id].request.issuer])
    ensures SettlementEdit(a, b, id, a.settlements[id].(status := Cancelled))
  {
    assert b.issuers.Keys == a.issuers.Keys;
  }
}
