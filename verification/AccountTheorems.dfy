/** The promises of the credit account, for every policy and every run of calls. */
module AccountTheorems {
  import opened Base
  import opened Protocol
  import opened Ledgers
  import opened Sums
  import opened Accounts
  import opened Books
  import opened Preservation
  import opened PeerPreservation
  import opened AccountRuns
  import opened AccountHistory

  // ---------------------------------------------------------------- cash-out

  /** What a settlement has committed or paid out of issuer `i`'s reserve. */
  function CashOut(i: Id): SettlementRecord -> nat {
    (s: SettlementRecord) =>
      if s.request.issuer != i then 0
      else match s.status
        case Pending => s.authorization.reserved
        case Completed(fee) => s.request.amount + fee
        case Cancelled => 0
  }

  function WithdrawableBacking(i: Id): Deposit -> nat {
    (d: Deposit) => if d.issuer == i && d.valueClass == ReserveBackedWithdrawable then d.amount else 0
  }

  lemma CashOutPostings(a: Account, i: Id)
    requires SettlementsOk(a.settlements, a.counterparty, a.issuers.Keys)
    ensures Sum(a.settlements, CashOut(i)) <= Recorded(a, i, PendingExternal) + Recorded(a, i, SettledExternal)
  {
    SumPlus(a.settlements, SettlementPosting(i, PendingExternal), SettlementPosting(i, SettledExternal), CashOut(i));
  }

  lemma BackingPostings(a: Account, i: Id)
    ensures Recorded(a, i, ReserveDeposits) == Sum(a.deposits, WithdrawableBacking(i))
  {
    SumZero(a.receipts, ReceiptPosting(i, ReserveDeposits));
    SumZero(a.novations, NovationPosting(i, ReserveDeposits));
    SumZero(a.backed, BackedPosting(i, ReserveDeposits));
    SumZero(a.consumptions, ConsumptionPosting(i, ReserveDeposits));
    SumZero(a.settlements, SettlementPosting(i, ReserveDeposits));
    SumMatch(a.deposits, a.deposits, DepositPosting(i, ReserveDeposits), WithdrawableBacking(i));
  }

  lemma CashOutFits(a: Account, i: Id)
    requires Inv(a) && i in a.issuers
    ensures Sum(a.settlements, CashOut(i)) <= Sum(a.deposits, WithdrawableBacking(i))
  {
    hide LogOk, ExposureOk, RevisionOk, Recorded;
    CashOutPostings(a, i);
    BackingPostings(a, i);
    assert Balanced(a.issuers[i], Tally(a, i)) && IssuerOk(i, a.issuers[i]);
    assert Tally(a, i)(PendingExternal) + Tally(a, i)(SettledExternal) <= Tally(a, i)(ReserveDeposits);
  }

  lemma NoRecordsElsewhere(a: Account, i: Id)
    requires RecordsOk(a) && i !in a.issuers
    ensures Sum(a.settlements, CashOut(i)) == 0
  {
    SumZero(a.settlements, CashOut(i));
  }

  /**
   * Whatever peer credit, novation or closed-loop activity is interleaved, what leaves or is
   * reserved to leave against an issuer never exceeds its recorded withdrawable deposits.
   */
  lemma CashOutIsBacked(policy: AccountPolicy, ops: seq<Op>, i: Id)
    requires New(policy).Ok?
    ensures var a := Run(New(policy).value, ops);
            Sum(a.settlements, CashOut(i)) <= Sum(a.deposits, WithdrawableBacking(i))
  {
    hide *;
    var a := Run(New(policy).value, ops);
    EveryRunKeepsTheBooks(policy, ops);
    InvParts(a);
    if i in a.issuers {
      CashOutFits(a, i);
    } else {
      NoRecordsElsewhere(a, i);
    }
  }

  // ---------------------------------------------------------------- exposure

  lemma {:induction false} PoliciesKept(issuers: map<Id, IssuerState>, policies: seq<IssuerPolicy>)
    requires AddIssuers(issuers, policies).Ok?
    ensures var r := AddIssuers(issuers, policies).value;
            && (forall i :: i in issuers ==> i in r && r[i] == issuers[i])
            && (forall k :: 0 <= k < |policies| ==> policies[k].issuer in r
                                                    && r[policies[k].issuer].policy == policies[k])
    decreases |policies|
  {
    if policies != [] {
      PoliciesKept(issuers[policies[0].issuer := NewIssuer(policies[0])], policies[1..]);
      var r := AddIssuers(issuers, policies).value;
      forall k | 0 <= k < |policies|
        ensures policies[k].issuer in r && r[policies[k].issuer].policy == policies[k]
      {
        if k > 0 {
          assert policies[k] == policies[1..][k - 1];
        } else {
          var first := issuers[policies[0].issuer := NewIssuer(policies[0])];
          assert policies[0].issuer in first;
        }
      }
    }
  }

  /** In every run the counter is the sum of the issuers' credit, and every configured cap holds. */
  lemma ExposureStaysWithinPolicy(policy: AccountPolicy, ops: seq<Op>)
    requires New(policy).Ok?
    ensures var a := Run(New(policy).value, ops);
            && a.totalPeerCredit == Sum(a.issuers, Outstanding()) <= policy.maxTotalPeerCredit
            && forall k :: 0 <= k < |policy.issuers| ==>
                 var p := policy.issuers[k];
                 && p.issuer in a.issuers
                 && a.issuers[p.issuer].peer.outstanding <= p.maxPeerCredit
                 && a.issuers[p.issuer].peer.offline <= p.maxOfflinePeerCredit
                 && a.issuers[p.issuer].closed.claimable <= p.maxClosedLoop
                 && a.issuers[p.issuer].reserve.redeemable + a.issuers[p.issuer].reserve.pending <= p.maxWithdrawable
  {
    hide LogOk, BooksBalance, RevisionOk, RecordsOk, Run, AddIssuers;
    var a := Run(New(policy).value, ops);
    EveryRunKeepsTheBooks(policy, ops);
    RunLater(New(policy).value, ops);
    PoliciesKept(map[], policy.issuers);
    forall k | 0 <= k < |policy.issuers|
      ensures policy.issuers[k].issuer in a.issuers
      ensures IssuerOk(policy.issuers[k].issuer, a.issuers[policy.issuers[k].issuer])
      ensures a.issuers[policy.issuers[k].issuer].policy == policy.issuers[k]
    {
      assert policy.issuers[k].issuer in New(policy).value.issuers;
    }
  }

  function Liability(): IssuerState -> nat {
    (s: IssuerState) => s.peer.outstanding + s.closed.claimable + s.reserve.redeemable
  }

  /** Novation moves credit between two issuers and changes no total. */
  lemma NovationMovesCredit(a: Account, n: Novation, caller: Id, now: u64)
    requires Inv(a)
    ensures var b := Step(a, OpNovate(n, caller, now));
            && b.totalPeerCredit == a.totalPeerCredit
            && Sum(b.issuers, Liability()) == Sum(a.issuers, Liability())
            && (b != a ==>
                  && n.fromIssuer in a.issuers && n.toIssuer in a.issuers && b.issuers.Keys == a.issuers.Keys
                  && b.issuers[n.fromIssuer].peer.outstanding == a.issuers[n.fromIssuer].peer.outstanding - n.amount
                  && b.issuers[n.toIssuer].peer.outstanding == a.issuers[n.toIssuer].peer.outstanding + n.amount)
  {
    var b := Step(a, OpNovate(n, caller, now));
    hide *;
    if b != a {
      NovateChanges(a, n, caller, now);
      InvParts(a);
      IssuerAt(a, n.fromIssuer);
      IssuerAt(a, n.toIssuer);
      NovationShape(a, n, caller, now, b);
      NovationConserves(a, b, n);
    }
  }

  lemma NovationConserves(a: Account, b: Account, n: Novation)
    requires NovationEdit(a, b, n)
    ensures b.totalPeerCredit == a.totalPeerCredit && b.issuers.Keys == a.issuers.Keys
    ensures Sum(b.issuers, Liability()) == Sum(a.issuers, Liability())
    ensures b.issuers[n.fromIssuer].peer.outstanding == a.issuers[n.fromIssuer].peer.outstanding - n.amount
    ensures b.issuers[n.toIssuer].peer.outstanding == a.issuers[n.toIssuer].peer.outstanding + n.amount
  {
    var mid := a.issuers[n.fromIssuer := b.issuers[n.fromIssuer]];
    SumUpdate(a.issuers, n.fromIssuer, b.issuers[n.fromIssuer], Liability());
    SumUpdate(mid, n.toIssuer, b.issuers[n.toIssuer], Liability());
  }

  /**
   * Backed settlement takes from unbacked credit exactly what it adds as backed liability, even when
   * one issuer is both the debtor and the backer.
   */
  lemma BackedSettlementConverts(a: Account, n: BackedSettlement, caller: Id, now: u64)
    requires Inv(a)
    ensures var b := Step(a, OpBacked(n, caller, now));
            && Sum(b.issuers, Liability()) == Sum(a.issuers, Liability())
            && (b != a ==> b.totalPeerCredit == a.totalPeerCredit - n.amount)
  {
    var b := Step(a, OpBacked(n, caller, now));
    hide *;
    if b != a {
      BackedChanges(a, n, caller, now);
      InvParts(a);
      IssuerAt(a, n.fromIssuer);
      IssuerAt(a, n.backingIssuer);
      BackedShape(a, n, caller, now, b);
      BackedConserves(a, b, n);
    }
  }

  lemma BackedConserves(a: Account, b: Account, n: BackedSettlement)
    requires BackedEdit(a, b, n) && n.valueClass != PeerCredit
    requires Backed(n, a.issuers[n.backingIssuer], b.issuers[n.backingIssuer])
    ensures b.totalPeerCredit == a.totalPeerCredit - n.amount
    ensures Sum(b.issuers, Liability()) == Sum(a.issuers, Liability())
  {
    var s := a.issuers[n.backingIssuer].(closed := b.issuers[n.backingIssuer].closed,
                                         reserve := b.issuers[n.backingIssuer].reserve);
    var mid := a.issuers[n.backingIssuer := s];
    SumUpdate(a.issuers, n.backingIssuer, s, Liability());
    SumUpdate(mid, n.fromIssuer, b.issuers[n.fromIssuer], Liability());
    assert b.issuers == mid[n.fromIssuer := b.issuers[n.fromIssuer]];
  }

  // ---------------------------------------------------------------- no stuck reservation

  lemma PendingIsCovered(a: Account, id: Id)
    requires Inv(a) && id in a.settlements && a.settlements[id].status.Pending?
    ensures var s := a.settlements[id];
            && s.request.issuer in a.issuers && SettlementOk(a.counterparty, id, s)
            && IssuerOk(s.request.issuer, a.issuers[s.request.issuer])
            && s.authorization.reserved == s.request.amount + s.request.maxFee
               <= a.issuers[s.request.issuer].reserve.pending
  {
    hide LogOk, ExposureOk, RevisionOk;
    var i := a.settlements[id].request.issuer;
    SettlementAt(a, id);
    SumAtLeast(a.settlements, id, SettlementPosting(i, PendingExternal));
    assert Balanced(a.issuers[i], Tally(a, i));
    assert Tally(a, i)(PendingExternal) == Recorded(a, i, PendingExternal);
  }

  /** A pending settlement can be cancelled; only an exhausted revision counter can stop it. */
  lemma PendingCanBeCancelled(a: Account, id: Id)
    requires Inv(a) && id in a.settlements && a.settlements[id].status.Pending?
    ensures if a.revision == U64_MAX then Cancel(a, id) == Err(RevisionOverflow)
            else
              && Cancel(a, id).Ok?
              && var b := Cancel(a, id).value.account;
              && id in b.settlements && b.settlements[id].status == Cancelled
  {
    hide Inv, SettlementOk;
    PendingIsCovered(a, id);
  }

  /** Exactly the amount and the fee became settled, and the unused fee is redeemable again. */
  predicate SettledExactly(before: ReserveLedger, after: ReserveLedger, q: SettlementRequest, fee: u64) {
    && after.settled == before.settled + q.amount + fee
    && after.redeemable == before.redeemable + (q.maxFee - fee)
    && after.pending == before.pending - (q.amount + q.maxFee)
    && after.available == before.available && after.totalDeposited == before.totalDeposited
  }

  /** From `a` to `b`, settlement `id` was completed with `fee` and its issuer's ledger settled exactly. */
  predicate Settled(a: Account, b: Account, id: Id, fee: u64) {
    && id in a.settlements && id in b.settlements && b.settlements[id].status == Completed(fee)
    && var q := a.settlements[id].request;
    && q.issuer in a.issuers && q.issuer in b.issuers
    && SettledExactly(a.issuers[q.issuer].reserve, b.issuers[q.issuer].reserve, q, fee)
  }

  /** A pending settlement can be completed with any fee up to its maximum. */
  lemma PendingCanBeCompleted(a: Account, id: Id, fee: u64)
    requires Inv(a) && id in a.settlements && a.settlements[id].status.Pending?
    requires fee <= a.settlements[id].request.maxFee
    ensures if a.revision == U64_MAX then Complete(a, id, fee) == Err(RevisionOverflow)
            else
              Complete(a, id, fee).Ok? && Settled(a, Complete(a, id, fee).value.account, id, fee)
  {
    hide Inv;
    PendingIsCovered(a, id);
  }

  lemma DebitWithinTotal(a: Account, i: Id)
    requires ExposureOk(a) && i in a.issuers
    ensures a.issuers[i].peer.outstanding <= a.totalPeerCredit
  {
    SumAtLeast(a.issuers, i, Outstanding());
  }

  lemma BackedNeverViolates(a: Account, n: BackedSettlement, caller: Id, now: u64)
    requires Inv(a)
    ensures SettleWithBacking(a, n, caller, now) != Err(ConservationViolation)
  {
    hide LogOk, BooksBalance, RevisionOk, RecordsOk, ExposureOk;
    if n.fromIssuer in a.issuers {
      DebitWithinTotal(a, n.fromIssuer);
    }
  }

  /** The internal conservation error is never returned, in any reachable state and for any call. */
  lemma ConservationErrorIsUnreachable(policy: AccountPolicy, ops: seq<Op>, op: Op)
    requires New(policy).Ok?
    ensures Apply(Run(New(policy).value, ops), op) != Err(ConservationViolation)
  {
    var a := Run(New(policy).value, ops);
    EveryRunKeepsTheBooks(policy, ops);
    NoConservationError(a, op);
  }

  lemma NoConservationError(a: Account, op: Op)
    requires Inv(a)
    ensures Apply(a, op) != Err(ConservationViolation)
  {
    hide Inv, SettleWithBacking, Complete, Cancel;
    match op
    case OpBacked(n, caller, now) => BackedNeverViolates(a, n, caller, now);
    case OpComplete(id, fee) => CompleteNeverViolates(a, id, fee);
    case OpCancel(id) =>
      if id in a.settlements && a.settlements[id].status.Pending? {
        PendingCanBeCancelled(a, id);
      } else {
        ClosedNeverViolates(a, id, 0);
      }
    case _ =>
  }

  lemma ClosedNeverViolates(a: Account, id: Id, fee: u64)
    requires id !in a.settlements || !a.settlements[id].status.Pending? || fee > a.settlements[id].request.maxFee
    ensures Complete(a, id, fee) != Err(ConservationViolation)
    ensures id !in a.settlements || !a.settlements[id].status.Pending? ==> Cancel(a, id) != Err(ConservationViolation)
  {
  }

  lemma CompleteNeverViolates(a: Account, id: Id, fee: u64)
    requires Inv(a)
    ensures Complete(a, id, fee) != Err(ConservationViolation)
  {
    hide Inv, Complete;
    if id in a.settlements && a.settlements[id].status.Pending? && fee <= a.settlements[id].request.maxFee {
      PendingCanBeCompleted(a, id, fee);
    } else {
      ClosedNeverViolates(a, id, fee);
    }
  }

  // ---------------------------------------------------------------- the event log

  /**
   * In every run, replaying the log in order from empty ledgers gives exactly the live peer ledgers,
   * and the log names each peer receipt, novation and backed settlement once.
   */
  lemma LogReplaysToLiveLedgers(policy: AccountPolicy, ops: seq<Op>)
    requires New(policy).Ok?
    ensures var a := Run(New(policy).value, ops);
            var log := ReplayLog(RecordsOf(a), a.issuers.Keys, a.events);
            && log.Some?
            && (forall i :: i in a.issuers ==> i in log.value.ledgers && log.value.ledgers[i] == a.issuers[i].peer)
            && |a.events| == |PeerReceiptIds(a.receipts)| + |a.novations| + |a.backed|
  {
    var a := Run(New(policy).value, ops);
    hide Run, New;
    EveryRunKeepsTheBooks(policy, ops);
    LogCounts(RecordsOf(a), a.issuers.Keys, a.events);
    assert |a.novations| == |a.novations.Keys| && |a.backed| == |a.backed.Keys|;
  }

  lemma OneIdPerEvent(records: CreditRecords, log: LogState, e: Event)
    ensures var r := ReplayEvent(records, log, e);
            r.Some? ==> |r.value.receipts| + |r.value.novations| + |r.value.backed|
                        == |log.receipts| + |log.novations| + |log.backed| + 1
  {
    hide CreditAt, DebitAt;
  }

  lemma {:induction false} LogCounts(records: CreditRecords, issuers: set<Id>, events: seq<Event>)
    requires ReplayLog(records, issuers, events).Some?
    ensures var log := ReplayLog(records, issuers, events).value;
            |events| == |log.receipts| + |log.novations| + |log.backed|
  {
    hide ReplayEvent;
    if events != [] {
      var before := events[..|events| - 1];
      LogCounts(records, issuers, before);
      OneIdPerEvent(records, ReplayLog(records, issuers, before).value, events[|events| - 1]);
    }
  }

  /**
   * The clamp in a debit makes the order of the log matter: an online credit and a debit commute exactly
   * when the clamp takes nothing from the offline part, or there is nothing to credit.
   */
  lemma ReplayOrderMatters(l: PeerLedger, credit: u64, debit: u64)
    requires l.outstanding + credit <= U64_MAX && debit <= l.outstanding
    ensures l.Credit(credit, false).value.Debit(debit) == l.Debit(debit).value.Credit(credit, false)
            <==> credit == 0 || l.offline <= l.outstanding - debit
  {
    assert l.Credit(credit, false) == Ok(PeerLedger(l.outstanding + credit, l.offline));
    assert l.Debit(debit) == Ok(PeerLedger(l.outstanding - debit, Min(l.offline, l.outstanding - debit)));
  }
}
