/** The operations that touch peer credit keep the invariant `Books.Inv`. */
module PeerPreservation {
  import opened Base
  import opened Protocol
  import opened Sums
  import opened Accounts
  import opened Books
  import opened Preservation

  // ---------------------------------------------------------------- receipts

  /** What granting `r` does to the ledgers of its issuer, whatever the value class. */
  predicate Granted(r: Receipt, s: IssuerState, s': IssuerState) {
    && s'.peer.outstanding == s.peer.outstanding + (if r.valueClass == PeerCredit then r.amount else 0)
    && s'.closed.claimable == s.closed.claimable + (if r.valueClass == ClosedLoopDeposit then r.amount else 0)
    && s'.reserve.redeemable
       == s.reserve.redeemable + (if r.valueClass == ReserveBackedWithdrawable then r.amount else 0)
    && s'.closed.totalDeposited == s.closed.totalDeposited && s'.closed.consumed == s.closed.consumed
    && s'.reserve.totalDeposited == s.reserve.totalDeposited
    && s'.reserve.pending == s.reserve.pending && s'.reserve.settled == s.reserve.settled
  }

  lemma ReceiptBalances(i: Id, r: Receipt, s: IssuerState, s': IssuerState, t: Bucket -> nat, t': Bucket -> nat)
    requires Balanced(s, t) && forall b :: t'(b) == t(b) + ReceiptPosting(i, b)(r)
    requires if r.issuer == i then Granted(r, s, s') else s' == s
    ensures Balanced(s', t')
  {
  }

  lemma ReceiptBooks(a: Account, b: Account, r: Receipt)
    requires BooksBalance(a) && r.receiptId !in a.receipts && r.issuer in a.issuers
    requires b.issuers.Keys == a.issuers.Keys && b.issuers == a.issuers[r.issuer := b.issuers[r.issuer]]
    requires Granted(r, a.issuers[r.issuer], b.issuers[r.issuer])
    requires b.receipts == a.receipts[r.receiptId := r]
    requires b.novations == a.novations && b.deposits == a.deposits && b.backed == a.backed
    requires b.consumptions == a.consumptions && b.settlements == a.settlements
    ensures BooksBalance(b)
  {
    hide Tally, Balanced, Granted;
    PostReceipt(a, b, r);
    forall i | i in b.issuers ensures Balanced(b.issuers[i], Tally(b, i)) {
      ReceiptBalances(i, r, a.issuers[i], b.issuers[i], Tally(a, i), Tally(b, i));
    }
  }

  lemma ReceiptRecords(a: Account, b: Account, r: Receipt)
    requires RecordsOk(a) && r.issuer in a.issuers && b.issuers.Keys == a.issuers.Keys
    requires ReceiptOk(a.counterparty, r.receiptId, r) && b.counterparty == a.counterparty
    requires b.receipts == a.receipts[r.receiptId := r]
    requires b.novations == a.novations && b.deposits == a.deposits && b.backed == a.backed
    requires b.consumptions == a.consumptions && b.settlements == a.settlements
    ensures RecordsOk(b)
  {
  }

  lemma ReceiptCount(a: Account, b: Account, r: Receipt)
    requires RevisionOk(a) && b.revision == a.revision + 1 && r.receiptId !in a.receipts
    requires b.receipts == a.receipts[r.receiptId := r]
    requires b.novations == a.novations && b.deposits == a.deposits && b.backed == a.backed
    requires b.consumptions == a.consumptions && b.settlements == a.settlements
    ensures RevisionOk(b)
  {
  }

  lemma BackedReceiptShape(a: Account, r: Receipt, caller: Id, mode: AcceptanceMode, now: u64, b: Account)
    requires r.issuer in a.issuers && IssuerOk(r.issuer, a.issuers[r.issuer]) && r.valueClass != PeerCredit
    requires ApplyReceipt(a, r, caller, mode, now) == Ok(Outcome(b, Applied)) && r.receiptId !in a.receipts
    ensures ReceiptOk(a.counterparty, r.receiptId, r)
    ensures b.issuers.Keys == a.issuers.Keys && BackingEdit(a, b, r.issuer)
    ensures Granted(r, a.issuers[r.issuer], b.issuers[r.issuer])
    ensures IssuerOk(r.issuer, b.issuers[r.issuer])
    ensures b == a.(issuers := b.issuers, revision := b.revision, receipts := a.receipts[r.receiptId := r])
  {
    assert b.issuers.Keys == a.issuers.Keys;
    assert PeerReceiptIds(a.receipts[r.receiptId := r]) == PeerReceiptIds(a.receipts);
  }

  lemma PeerReceiptShape(a: Account, r: Receipt, caller: Id, mode: AcceptanceMode, now: u64, b: Account)
    requires r.issuer in a.issuers && IssuerOk(r.issuer, a.issuers[r.issuer]) && r.valueClass == PeerCredit
    requires ApplyReceipt(a, r, caller, mode, now) == Ok(Outcome(b, Applied)) && r.receiptId !in a.receipts
    ensures ReceiptOk(a.counterparty, r.receiptId, r)
    ensures b.issuers.Keys == a.issuers.Keys && b.revision == a.revision + 1
    ensures Granted(r, a.issuers[r.issuer], b.issuers[r.issuer])
    ensures IssuerOk(r.issuer, b.issuers[r.issuer])
    ensures a.issuers[r.issuer].peer.Credit(r.amount, mode == OfflineDeferred) == Ok(b.issuers[r.issuer].peer)
    ensures b.totalPeerCredit == a.totalPeerCredit + r.amount <= a.maxTotalPeerCredit
    ensures b == a.(issuers := a.issuers[r.issuer := b.issuers[r.issuer]], revision := b.revision,
                    totalPeerCredit := b.totalPeerCredit, receipts := a.receipts[r.receiptId := r],
                    events := a.events + [ReceiptEvent(b.revision, r.receiptId, mode)])
  {
    assert b.issuers.Keys == a.issuers.Keys;
  }

  lemma PeerReceiptLog(a: Account, b: Account, r: Receipt, mode: AcceptanceMode)
    requires LogOk(a) && r.receiptId !in a.receipts && r.issuer in a.issuers && r.valueClass == PeerCredit
    requires b.issuers.Keys == a.issuers.Keys && b.revision == a.revision + 1
    requires b.issuers == a.issuers[r.issuer := b.issuers[r.issuer]]
    requires a.issuers[r.issuer].peer.Credit(r.amount, mode == OfflineDeferred) == Ok(b.issuers[r.issuer].peer)
    requires b.receipts == a.receipts[r.receiptId := r] && b.novations == a.novations && b.backed == a.backed
    requires b.events == a.events + [ReceiptEvent(b.revision, r.receiptId, mode)]
    ensures LogOk(b)
  {
    hide ReplayLog;
    LogGrows(a, b, ReceiptEvent(b.revision, r.receiptId, mode));
    assert PeerLedgers(b.issuers) == PeerLedgers(a.issuers)[r.issuer := b.issuers[r.issuer].peer];
    assert PeerReceiptIds(b.receipts) == PeerReceiptIds(a.receipts) + {r.receiptId};
  }

  lemma PeerReceiptExposure(a: Account, b: Account, r: Receipt)
    requires ExposureOk(a) && r.issuer in a.issuers
    requires b.issuers.Keys == a.issuers.Keys && b.issuers == a.issuers[r.issuer := b.issuers[r.issuer]]
    requires b.issuers[r.issuer].peer.outstanding == a.issuers[r.issuer].peer.outstanding + r.amount
    requires b.totalPeerCredit == a.totalPeerCredit + r.amount <= a.maxTotalPeerCredit == b.maxTotalPeerCredit
    ensures ExposureOk(b)
  {
    SumUpdate(a.issuers, r.issuer, b.issuers[r.issuer], Outstanding());
  }

  lemma ReceiptKeeps(a: Account, r: Receipt, caller: Id, mode: AcceptanceMode, now: u64, b: Account)
    requires Inv(a) && r.issuer in a.issuers && r.receiptId !in a.receipts
    requires ApplyReceipt(a, r, caller, mode, now) == Ok(Outcome(b, Applied))
    ensures Inv(b)
  {
    hide *;
    InvParts(a);
    IssuerAt(a, r.issuer);
    if r.valueClass == PeerCredit {
      PeerReceiptShape(a, r, caller, mode, now, b);
      GrantedPeer(r, a.issuers[r.issuer], b.issuers[r.issuer]);
      IssuersKeep(a, b, r.issuer, b.issuers[r.issuer]);
      PeerReceiptExposure(a, b, r);
      PeerReceiptLog(a, b, r, mode);
    } else {
      BackedReceiptShape(a, r, caller, mode, now, b);
      BackingEditKeeps(a, b, r.issuer);
      BackingEditKeys(a, b, r.issuer);
    }
    ReceiptBooks(a, b, r);
    ReceiptRecords(a, b, r);
    ReceiptCount(a, b, r);
    InvWhole(b);
  }

  lemma GrantedPeer(r: Receipt, s: IssuerState, s': IssuerState)
    requires Granted(r, s, s') && r.valueClass == PeerCredit
    ensures s'.peer.outstanding == s.peer.outstanding + r.amount
  {
  }

  // ---------------------------------------------------------------- novation

  /** `b` is `a` with `n` moved from one issuer's peer ledger to the other's. */
  ghost predicate NovationEdit(a: Account, b: Account, n: Novation) {
    && n.fromIssuer in a.issuers && n.toIssuer in a.issuers && n.fromIssuer != n.toIssuer
    && b.issuers.Keys == a.issuers.Keys && b.revision == a.revision + 1
    && a.issuers[n.fromIssuer].peer.Debit(n.amount) == Ok(b.issuers[n.fromIssuer].peer)
    && a.issuers[n.toIssuer].peer.Credit(n.amount, false) == Ok(b.issuers[n.toIssuer].peer)
    && b == a.(issuers := a.issuers[n.fromIssuer := a.issuers[n.fromIssuer].(peer := b.issuers[n.fromIssuer].peer)]
                                   [n.toIssuer := a.issuers[n.toIssuer].(peer := b.issuers[n.toIssuer].peer)],
               revision := b.revision, novations := a.novations[n.novationId := n],
               events := a.events + [NovationEvent(b.revision, n.novationId)])
  }

  lemma NovationShape(a: Account, n: Novation, caller: Id, now: u64, b: Account)
    requires n.fromIssuer in a.issuers && IssuerOk(n.fromIssuer, a.issuers[n.fromIssuer])
    requires n.toIssuer in a.issuers && IssuerOk(n.toIssuer, a.issuers[n.toIssuer])
    requires Novate(a, n, caller, now) == Ok(Outcome(b, Done)) && n.novationId !in a.novations
    ensures NovationEdit(a, b, n) && NovationOk(a.counterparty, n.novationId, n)
    ensures IssuerOk(n.fromIssuer, b.issuers[n.fromIssuer])
    ensures IssuerOk(n.toIssuer, b.issuers[n.toIssuer])
  {
    assert b.issuers.Keys == a.issuers.Keys;
  }

  lemma NovationBalances(i: Id, n: Novation, s: IssuerState, s': IssuerState, t: Bucket -> nat, t': Bucket -> nat)
    requires Balanced(s, t) && forall b :: t'(b) == t(b) + NovationPosting(i, b)(n)
    requires n.fromIssuer != n.toIssuer && s'.closed == s.closed && s'.reserve == s.reserve
    requires s'.peer.outstanding == s.peer.outstanding
             + (if n.toIssuer == i then n.amount else 0) - (if n.fromIssuer == i then n.amount else 0)
    ensures Balanced(s', t')
  {
  }

  lemma NovationBooks(a: Account, b: Account, n: Novation)
    requires BooksBalance(a) && NovationEdit(a, b, n) && n.novationId !in a.novations
    ensures BooksBalance(b)
  {
    hide Tally, Balanced;
    PostNovation(a, b, n);
    forall i | i in b.issuers ensures Balanced(b.issuers[i], Tally(b, i)) {
      NovationBalances(i, n, a.issuers[i], b.issuers[i], Tally(a, i), Tally(b, i));
    }
  }

  lemma NovationLog(a: Account, b: Account, n: Novation)
    requires LogOk(a) && NovationEdit(a, b, n) && n.novationId !in a.novations
    ensures LogOk(b)
  {
    hide ReplayLog;
    LogGrows(a, b, NovationEvent(b.revision, n.novationId));
    assert PeerLedgers(b.issuers) == PeerLedgers(a.issuers)[n.fromIssuer := b.issuers[n.fromIssuer].peer]
                                                           [n.toIssuer := b.issuers[n.toIssuer].peer];
  }

  lemma NovationExposure(a: Account, b: Account, n: Novation)
    requires ExposureOk(a) && NovationEdit(a, b, n)
    ensures ExposureOk(b)
  {
    var mid := a.issuers[n.fromIssuer := b.issuers[n.fromIssuer]];
    SumUpdate(a.issuers, n.fromIssuer, b.issuers[n.fromIssuer], Outstanding());
    SumUpdate(mid, n.toIssuer, b.issuers[n.toIssuer], Outstanding());
  }

  lemma NovationIssuers(a: Account, b: Account, n: Novation)
    requires IssuersOk(a) && NovationEdit(a, b, n)
    requires IssuerOk(n.fromIssuer, b.issuers[n.fromIssuer]) && IssuerOk(n.toIssuer, b.issuers[n.toIssuer])
    ensures IssuersOk(b)
  {
    hide IssuersOk;
    var mid := a.(issuers := a.issuers[n.fromIssuer := b.issuers[n.fromIssuer]]);
    IssuersKeep(a, mid, n.fromIssuer, b.issuers[n.fromIssuer]);
    IssuersKeep(mid, b, n.toIssuer, b.issuers[n.toIssuer]);
  }

  lemma NovationRecords(a: Account, b: Account, n: Novation)
    requires RecordsOk(a) && NovationEdit(a, b, n) && NovationOk(a.counterparty, n.novationId, n)
    ensures RecordsOk(b)
  {
  }

  lemma NovationCount(a: Account, b: Account, n: Novation)
    requires RevisionOk(a) && NovationEdit(a, b, n) && n.novationId !in a.novations
    ensures RevisionOk(b)
  {
  }

  lemma NovateKeeps(a: Account, n: Novation, caller: Id, now: u64, b: Account)
    requires Inv(a) && n.fromIssuer in a.issuers && n.toIssuer in a.issuers && n.novationId !in a.novations
    requires Novate(a, n, caller, now) == Ok(Outcome(b, Done))
    ensures Inv(b)
  {
    hide *;
    InvParts(a);
    IssuerAt(a, n.fromIssuer);
    IssuerAt(a, n.toIssuer);
    NovationShape(a, n, caller, now, b);
    NovationBooks(a, b, n);
    NovationLog(a, b, n);
    NovationExposure(a, b, n);
    NovationIssuers(a, b, n);
    NovationRecords(a, b, n);
    NovationCount(a, b, n);
    InvWhole(b);
  }

  // ---------------------------------------------------------------- backed settlement

  /** `b` is `a` with `n` taken from a peer ledger and allocated in a backed ledger. */
  ghost predicate BackedEdit(a: Account, b: Account, n: BackedSettlement) {
    && n.fromIssuer in a.issuers && n.backingIssuer in a.issuers
    && b.issuers.Keys == a.issuers.Keys && b.revision == a.revision + 1
    && n.amount <= a.totalPeerCredit
    && a.issuers[n.fromIssuer].peer.Debit(n.amount) == Ok(b.issuers[n.fromIssuer].peer)
    && var mid := a.issuers[n.backingIssuer := a.issuers[n.backingIssuer].(
                              closed := b.issuers[n.backingIssuer].closed,
                              reserve := b.issuers[n.backingIssuer].reserve)];
    && b == a.(issuers := mid[n.fromIssuer := mid[n.fromIssuer].(peer := b.issuers[n.fromIssuer].peer)],
               totalPeerCredit := a.totalPeerCredit - n.amount,
               revision := b.revision, backed := a.backed[n.settlementId := n],
               events := a.events + [BackedEvent(b.revision, n.settlementId)])
  }

  /** What the allocation of `n` does to the backed ledgers. */
  predicate Backed(n: BackedSettlement, s: IssuerState, s': IssuerState) {
    && s'.closed.claimable == s.closed.claimable + (if n.valueClass == ClosedLoopDeposit then n.amount else 0)
    && s'.reserve.redeemable
       == s.reserve.redeemable + (if n.valueClass == ReserveBackedWithdrawable then n.amount else 0)
    && s'.closed.totalDeposited == s.closed.totalDeposited && s'.closed.consumed == s.closed.consumed
    && s'.reserve.totalDeposited == s.reserve.totalDeposited
    && s'.reserve.pending == s.reserve.pending && s'.reserve.settled == s.reserve.settled
  }

  lemma BackedShape(a: Account, n: BackedSettlement, caller: Id, now: u64, b: Account)
    requires n.fromIssuer in a.issuers && IssuerOk(n.fromIssuer, a.issuers[n.fromIssuer])
    requires n.backingIssuer in a.issuers && IssuerOk(n.backingIssuer, a.issuers[n.backingIssuer])
    requires SettleWithBacking(a, n, caller, now) == Ok(Outcome(b, Applied)) && n.settlementId !in a.backed
    ensures BackedEdit(a, b, n) && BackedOk(a.counterparty, n.settlementId, n)
    ensures Backed(n, a.issuers[n.backingIssuer], b.issuers[n.backingIssuer])
    ensures IssuerOk(n.fromIssuer, b.issuers[n.fromIssuer])
    ensures IssuerOk(n.backingIssuer, b.issuers[n.backingIssuer])
  {
    assert b.issuers.Keys == a.issuers.Keys;
    var s := a.issuers[n.backingIssuer];
    if n.valueClass == ClosedLoopDeposit {
      assert AllocateClosedLoop(s, n.amount).Ok?;
    } else {
      assert AllocateReserve(s, n.amount).Ok?;
    }
  }

  lemma BackedBalances(i: Id, n: BackedSettlement, s: IssuerState, s': IssuerState, t: Bucket -> nat, t': Bucket -> nat)
    requires Balanced(s, t) && forall b :: t'(b) == t(b) + BackedPosting(i, b)(n)
    requires n.valueClass != PeerCredit
    requires if n.backingIssuer == i then Backed(n, s, s') else s'.closed == s.closed && s'.reserve == s.reserve
    requires s'.peer.outstanding == s.peer.outstanding - (if n.fromIssuer == i then n.amount else 0)
    ensures Balanced(s', t')
  {
  }

  lemma BackedBooks(a: Account, b: Account, n: BackedSettlement)
    requires BooksBalance(a) && BackedEdit(a, b, n) && n.settlementId !in a.backed
    requires n.valueClass != PeerCredit && Backed(n, a.issuers[n.backingIssuer], b.issuers[n.backingIssuer])
    ensures BooksBalance(b)
  {
    hide Tally, Balanced, Backed;
    PostBacked(a, b, n);
    forall i | i in b.issuers ensures Balanced(b.issuers[i], Tally(b, i)) {
      BackedBalances(i, n, a.issuers[i], b.issuers[i], Tally(a, i), Tally(b, i));
    }
  }

  lemma BackedLog(a: Account, b: Account, n: BackedSettlement)
    requires LogOk(a) && BackedEdit(a, b, n) && n.settlementId !in a.backed
    ensures LogOk(b)
  {
    hide ReplayLog;
    LogGrows(a, b, BackedEvent(b.revision, n.settlementId));
    assert PeerLedgers(b.issuers) == PeerLedgers(a.issuers)[n.fromIssuer := b.issuers[n.fromIssuer].peer];
  }

  lemma BackedExposure(a: Account, b: Account, n: BackedSettlement)
    requires ExposureOk(a) && BackedEdit(a, b, n)
    ensures ExposureOk(b)
  {
    var s := a.issuers[n.backingIssuer].(closed := b.issuers[n.backingIssuer].closed,
                                         reserve := b.issuers[n.backingIssuer].reserve);
    var mid := a.issuers[n.backingIssuer := s];
    SumUpdate(a.issuers, n.backingIssuer, s, Outstanding());
    SumUpdate(mid, n.fromIssuer, b.issuers[n.fromIssuer], Outstanding());
    assert b.issuers == mid[n.fromIssuer := b.issuers[n.fromIssuer]];
  }

  lemma BackedIssuers(a: Account, b: Account, n: BackedSettlement)
    requires IssuersOk(a) && BackedEdit(a, b, n)
    requires IssuerOk(n.fromIssuer, b.issuers[n.fromIssuer]) && IssuerOk(n.backingIssuer, b.issuers[n.backingIssuer])
    ensures IssuersOk(b)
  {
    hide IssuersOk;
    var mid := a.(issuers := a.issuers[n.backingIssuer := b.issuers[n.backingIssuer]]);
    IssuersKeep(a, mid, n.backingIssuer, b.issuers[n.backingIssuer]);
    assert b.issuers == mid.issuers[n.fromIssuer := b.issuers[n.fromIssuer]];
    IssuersKeep(mid, b, n.fromIssuer, b.issuers[n.fromIssuer]);
  }

  lemma BackedRecords(a: Account, b: Account, n: BackedSettlement)
    requires RecordsOk(a) && BackedEdit(a, b, n) && BackedOk(a.counterparty, n.settlementId, n)
    ensures RecordsOk(b)
  {
  }

  lemma BackedCount(a: Account, b: Account, n: BackedSettlement)
    requires RevisionOk(a) && BackedEdit(a, b, n) && n.settlementId !in a.backed
    ensures RevisionOk(b)
  {
  }

  lemma BackedKeeps(a: Account, n: BackedSettlement, caller: Id, now: u64, b: Account)
    requires Inv(a) && n.fromIssuer in a.issuers && n.backingIssuer in a.issuers && n.settlementId !in a.backed
    requires n.valueClass != PeerCredit
    requires SettleWithBacking(a, n, caller, now) == Ok(Outcome(b, Applied))
    ensures Inv(b)
  {
    hide *;
    InvParts(a);
    IssuerAt(a, n.fromIssuer);
    IssuerAt(a, n.backingIssuer);
    BackedShape(a, n, caller, now, b);
    BackedBooks(a, b, n);
    BackedLog(a, b, n);
    BackedExposure(a, b, n);
    BackedIssuers(a, b, n);
    BackedRecords(a, b, n);
    BackedCount(a, b, n);
    InvWhole(b);
  }
}
