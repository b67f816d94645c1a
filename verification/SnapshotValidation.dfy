/**
 * The rest of the snapshot validator: the log replay with its coverage counts, the totals, the
 * revision count, and `Validate` itself, which is proved to accept exactly `Snapshots.Accepts`.
 */
module SnapshotValidation {
  import opened Base
  import opened Protocol
  import opened Sums
  import opened Accounts
  import opened Books
  import opened Snapshots
  import opened Validator

  // ---------------------------------------------------------------- issuers

  /** One issuer's policy, caps and conservation, in checked arithmetic. */
  predicate ValidateIssuer(id: Id, s: IssuerState)
    ensures ValidateIssuer(id, s) <==> IssuerOk(id, s)
  {
    && !Blank(id)
    && s.policy.issuer == id
    && s.policy.maxOfflinePeerCredit <= s.policy.maxPeerCredit
    && s.peer.offline <= s.peer.outstanding
    && s.peer.outstanding <= s.policy.maxPeerCredit
    && s.peer.offline <= s.policy.maxOfflinePeerCredit
    && s.closed.claimable <= s.policy.maxClosedLoop
    && var exposure := CheckedAdd(s.reserve.redeemable, s.reserve.pending);
    && exposure.Some? && exposure.value <= s.policy.maxWithdrawable
    && CheckedAdd3(s.closed.availableBacking, s.closed.claimable, s.closed.consumed)
       == Some(s.closed.totalDeposited)
    && CheckedAdd4(s.reserve.available, s.reserve.redeemable, s.reserve.pending, s.reserve.settled)
       == Some(s.reserve.totalDeposited)
  }

  function CheckedAdd3(a: u64, b: u64, c: u64): Option<u64> {
    var front :- CheckedAdd(a, b);
    CheckedAdd(front, c)
  }

  function CheckedAdd4(a: u64, b: u64, c: u64, d: u64): Option<u64> {
    var front :- CheckedAdd3(a, b, c);
    CheckedAdd(front, d)
  }

  method ValidateIssuers(s: Snapshot) returns (ok: bool)
    ensures ok <==> IssuersOk(Restore(s))
  {
    if Blank(s.counterparty) || s.issuers == map[] {
      return false;
    }
    var rest := s.issuers;
    while rest != map[]
      invariant forall i :: i in rest ==> i in s.issuers && s.issuers[i] == rest[i]
      invariant forall i :: i in s.issuers && i !in rest ==> IssuerOk(i, s.issuers[i])
      decreases rest
    {
      var i :| i in rest;
      if !ValidateIssuer(i, rest[i]) {
        return false;
      }
      rest := rest - {i};
    }
    return true;
  }

  // ---------------------------------------------------------------- the event log

  /** A log that replays has prefixes that replay, to an earlier last revision. */
  lemma {:induction false} ReplayPrefix(records: CreditRecords, issuers: set<Id>, events: seq<Event>, n: nat)
    requires n <= |events| && ReplayLog(records, issuers, events).Some?
    ensures ReplayLog(records, issuers, events[..n]).Some?
    ensures ReplayLog(records, issuers, events[..n]).value.last <= ReplayLog(records, issuers, events).value.last
  {
    if n == |events| {
      assert events[..n] == events;
    } else {
      var m := |events| - 1;
      assert events[..m][..n] == events[..n];
      ReplayPrefix(records, issuers, events[..m], n);
    }
  }

  /** The ids seen by a replay are ids of records of the right kind. */
  lemma {:induction false} SeenAreRecorded(records: CreditRecords, issuers: set<Id>, events: seq<Event>)
    requires ReplayLog(records, issuers, events).Some?
    ensures var log := ReplayLog(records, issuers, events).value;
            && log.receipts <= PeerReceiptIds(records.receipts)
            && log.novations <= records.novations.Keys && log.backed <= records.backed.Keys
  {
    if events != [] {
      SeenAreRecorded(records, issuers, events[..|events| - 1]);
    }
  }

  /** Pigeonhole: as many distinct members as the whole set are the whole set. */
  lemma CountedAll<T>(seen: set<T>, all: set<T>)
    requires seen <= all
    ensures |seen| == |all| <==> seen == all
  {
    if seen != all {
      var x :| x in all && x !in seen;
      assert seen <= all - {x};
      CardinalityMonotone(seen, all - {x});
    }
  }

  lemma {:induction false} CardinalityMonotone<T>(a: set<T>, b: set<T>)
    requires a <= b
    ensures |a| <= |b|
  {
    if a != {} {
      var x :| x in a;
      CardinalityMonotone(a - {x}, b - {x});
    }
  }

  /** Replays the log event by event, refusing one that is out of order, unknown, or past `revision`. */
  method ReplayEvents(records: CreditRecords, issuers: set<Id>, events: seq<Event>, revision: u64)
    returns (r: Option<LogState>)
    ensures var log := ReplayLog(records, issuers, events);
            r == if log.Some? && log.value.last <= revision then log else None
  {
    hide ReplayEvent, EmptyLog;
    var log := EmptyLog(issuers);
    EmptyLogStarts(issuers);
    for n := 0 to |events|
      invariant ReplayLog(records, issuers, events[..n]) == Some(log)
      invariant log.last <= revision
    {
      var e := events[n];
      ghost var next := events[..n + 1];
      assert next[..|next| - 1] == events[..n];
      var replayed := ReplayEvent(records, log, e);
      LastIsOwn(records, log, e);
      if replayed.None? || e.revision > revision {
        EventRefused(records, issuers, events, n + 1, revision);
        return None;
      }
      log := replayed.value;
    }
    assert events[..|events|] == events;
    return Some(log);
  }

  lemma EmptyLogStarts(issuers: set<Id>)
    ensures EmptyLog(issuers).last == 0
  {
  }

  lemma LastIsOwn(records: CreditRecords, log: LogState, e: Event)
    ensures ReplayEvent(records, log, e).Some? ==> ReplayEvent(records, log, e).value.last == e.revision
  {
  }

  method ValidateEvents(s: Snapshot) returns (ok: bool)
    ensures ok <==> LogOk(Restore(s))
  {
    hide ReplayLog, PeerReceiptIds, PeerLedgers;
    ghost var a := Restore(s);
    var records := CreditRecords(s.receipts, s.novations, s.backed);
    var replayed := ReplayEvents(records, s.issuers.Keys, s.events, s.revision);
    if replayed.None? {
      return false;
    }
    var log := replayed.value;
    SeenAreRecorded(records, s.issuers.Keys, s.events);
    CountedAll(log.receipts, PeerReceiptIds(s.receipts));
    CountedAll(log.novations, s.novations.Keys);
    CountedAll(log.backed, s.backed.Keys);
    if |log.receipts| != |PeerReceiptIds(s.receipts)| || |log.novations| != |s.novations|
       || |log.backed| != |s.backed|
    {
      return false;
    }
    return log.ledgers == PeerLedgers(s.issuers);
  }

  lemma EventRefused(records: CreditRecords, issuers: set<Id>, events: seq<Event>, n: nat, revision: u64)
    requires n <= |events|
    requires var log := ReplayLog(records, issuers, events[..n]); log.None? || log.value.last > revision
    ensures var log := ReplayLog(records, issuers, events); log.None? || log.value.last > revision
  {
    if ReplayLog(records, issuers, events).Some? {
      ReplayPrefix(records, issuers, events, n);
    }
  }

  // ---------------------------------------------------------------- totals and revision

  /** The totals of issuer `i` as the postings of `Balanced`. */
  function Totals(t: Expected, i: Id): Bucket -> nat {
    (b: Bucket) => Get(t, i, b)
  }

  /** One issuer's ledgers against its totals, in checked arithmetic. */
  predicate TotalsMatch(s: IssuerState, t: Expected, i: Id)
    ensures TotalsMatch(s, t, i) <==> Balanced(s, Totals(t, i))
  {
    && Get(t, i, ClosedDeposits) == s.closed.totalDeposited
    && Get(t, i, ReserveDeposits) == s.reserve.totalDeposited
    && Get(t, i, PeerDebits) <= Get(t, i, PeerCredits)
    && Get(t, i, PeerCredits) - Get(t, i, PeerDebits) == s.peer.outstanding
    && CheckedAdd(s.closed.claimable, s.closed.consumed) == Some(Get(t, i, ClosedAllocations))
    && Get(t, i, ClosedConsumptions) == s.closed.consumed
    && CheckedAdd3(s.reserve.redeemable, s.reserve.pending, s.reserve.settled)
       == Some(Get(t, i, ReserveAllocations))
    && Get(t, i, PendingExternal) == s.reserve.pending
    && Get(t, i, SettledExternal) == s.reserve.settled
  }

  lemma TotalsAreTallies(a: Account, t: Expected)
    requires forall i, b :: Get(t, i, b) == Recorded(a, i, b)
    ensures (forall i :: i in a.issuers ==> Balanced(a.issuers[i], Totals(t, i))) <==> BooksBalance(a)
  {
    forall i | i in a.issuers
      ensures Balanced(a.issuers[i], Totals(t, i)) <==> Balanced(a.issuers[i], Tally(a, i))
    {
      assert forall b :: Totals(t, i)(b) == Tally(a, i)(b);
    }
  }

  method ValidateTotals(s: Snapshot, t: Expected) returns (ok: bool)
    requires forall i, b :: Get(t, i, b) == Recorded(Restore(s), i, b)
    ensures ok <==> BooksBalance(Restore(s)) && ExposureOk(Restore(s))
  {
    hide Recorded, BooksBalance, Balanced;
    TotalsAreTallies(Restore(s), t);
    var total: u64, rest := 0, s.issuers;
    while rest != map[]
      invariant forall i :: i in rest ==> i in s.issuers && s.issuers[i] == rest[i]
      invariant forall i :: i in s.issuers && i !in rest ==> Balanced(s.issuers[i], Totals(t, i))
      invariant total + Sum(rest, Outstanding()) == Sum(s.issuers, Outstanding())
      decreases rest
    {
      var i :| i in rest;
      if !TotalsMatch(rest[i], t, i) {
        return false;
      }
      SumRemove(rest, i, Outstanding());
      if total + rest[i].peer.outstanding > U64_MAX {
        return false;
      }
      total, rest := total + rest[i].peer.outstanding, rest - {i};
    }
    return total == s.totalPeerCredit && total <= s.maxTotalPeerCredit;
  }

  method ValidateRevision(s: Snapshot) returns (ok: bool)
    requires DepositListSorted(s.deposits)
    ensures ok <==> RevisionOk(Restore(s))
  {
    ListRoundTrip(s.deposits);
    assert |s.deposits| == |Restore(s).deposits|;
    var expected := |s.receipts| + |s.novations| + |s.deposits| + |s.backed| + |s.consumptions| + |s.settlements|;
    if expected > U64_MAX {
      return false;
    }
    var rest := s.settlements;
    while rest != map[]
      invariant expected + Sum(rest, Closed()) == OperationCount(Restore(s))
      invariant expected <= U64_MAX
      decreases rest
    {
      var k :| k in rest;
      SumRemove(rest, k, Closed());
      if !rest[k].status.Pending? {
        if expected + 1 > U64_MAX {
          return false;
        }
        expected := expected + 1;
      }
      rest := rest - {k};
    }
    return s.revision == expected;
  }

  // ---------------------------------------------------------------- the whole validation

  /** With the invariant, gross peer credit is the only total that could leave the range. */
  lemma OnlyGrossCanOverflow(a: Account, i: Id, b: Bucket)
    requires Inv(a) && i in a.issuers && GrossPeerCredit(a, i) <= U64_MAX
    ensures Recorded(a, i, b) <= U64_MAX
  {
    hide LogOk, ExposureOk, RevisionOk;
    GrossIsRecorded(a, i);
    var s, t := a.issuers[i], Tally(a, i);
    assert Balanced(s, t) && IssuerOk(i, s);
    assert t(b) == Recorded(a, i, b);
    assert t(PeerCredits) == Recorded(a, i, PeerCredits);
    match b
    case PeerCredits =>
    case PeerDebits =>
    case ClosedDeposits =>
    case ReserveDeposits =>
    case ClosedAllocations =>
    case ReserveAllocations =>
    case ClosedConsumptions =>
    case PendingExternal =>
    case SettledExternal =>
  }

  lemma GrossIsRecorded(a: Account, i: Id)
    ensures Recorded(a, i, PeerCredits) >= GrossPeerCredit(a, i)
    ensures RecordsOk(a) ==> Recorded(a, i, PeerCredits) == GrossPeerCredit(a, i)
  {
    if RecordsOk(a) {
      SumZero(a.deposits, DepositPosting(i, PeerCredits));
      SumZero(a.backed, BackedPosting(i, PeerCredits));
      SumZero(a.consumptions, ConsumptionPosting(i, PeerCredits));
      SumZero(a.settlements, SettlementPosting(i, PeerCredits));
    }
  }

  /** What every accepted snapshot satisfies, phase by phase. */
  lemma AcceptedPhases(s: Snapshot)
    ensures Accepts(s) ==>
      && IssuersOk(Restore(s)) && RecordsOk(Restore(s)) && LogOk(Restore(s)) && BooksBalance(Restore(s))
      && ExposureOk(Restore(s)) && RevisionOk(Restore(s))
      && DepositListSorted(s.deposits) && GrossFits(Restore(s)) && RecordedFits(Restore(s))
  {
    hide LogOk, ExposureOk, RevisionOk, BooksBalance, Recorded, IssuersOk;
    if Accepts(s) {
      var a := Restore(s);
      forall i, b | i in a.issuers
        ensures Recorded(a, i, b) <= U64_MAX
      {
        OnlyGrossCanOverflow(a, i, b);
      }
    }
  }

  ghost predicate RecordedFits(a: Account) {
    forall i, b :: i in a.issuers ==> Recorded(a, i, b) <= U64_MAX
  }

  lemma PhasesAccept(s: Snapshot)
    requires s.version == SNAPSHOT_VERSION && DepositListSorted(s.deposits)
    requires IssuersOk(Restore(s)) && RecordsOk(Restore(s)) && LogOk(Restore(s)) && BooksBalance(Restore(s))
    requires ExposureOk(Restore(s)) && RevisionOk(Restore(s)) && RecordedFits(Restore(s))
    ensures Accepts(s)
  {
    hide LogOk, ExposureOk, RevisionOk, BooksBalance, Recorded, IssuersOk;
    var a := Restore(s);
    forall i | i in a.issuers
      ensures GrossPeerCredit(a, i) <= U64_MAX
    {
      GrossIsRecorded(a, i);
    }
  }

  const ZERO: Expected := map[]

  /** What the first `n` kinds of record post. */
  ghost function Upto(a: Account, n: nat, i: Id, b: Bucket): nat {
    (if n > 0 then Sum(a.receipts, ReceiptPosting(i, b)) else 0)
    + (if n > 1 then Sum(a.novations, NovationPosting(i, b)) else 0)
    + (if n > 2 then Sum(a.deposits, DepositPosting(i, b)) else 0)
    + (if n > 3 then Sum(a.backed, BackedPosting(i, b)) else 0)
    + (if n > 4 then Sum(a.consumptions, ConsumptionPosting(i, b)) else 0)
    + (if n > 5 then Sum(a.settlements, SettlementPosting(i, b)) else 0)
  }

  ghost predicate Stage(a: Account, n: nat, t: Expected) {
    forall i, b :: Get(t, i, b) == Upto(a, n, i, b)
  }

  ghost predicate NextKind<K, V>(a: Account, n: nat, f: (Id, Bucket) -> (V -> nat), m: map<K, V>) {
    && (forall i, b :: Upto(a, n + 1, i, b) == Upto(a, n, i, b) + Sum(m, f(i, b)))
    && (forall i, b :: Upto(a, n + 1, i, b) <= Recorded(a, i, b))
    && (n == 5 ==> forall i, b :: Upto(a, n + 1, i, b) == Recorded(a, i, b))
  }

  lemma Kinds(a: Account)
    ensures NextKind(a, 0, ReceiptPosting, a.receipts) && NextKind(a, 1, NovationPosting, a.novations)
    ensures NextKind(a, 2, DepositPosting, a.deposits) && NextKind(a, 3, BackedPosting, a.backed)
    ensures NextKind(a, 4, ConsumptionPosting, a.consumptions)
    ensures NextKind(a, 5, SettlementPosting, a.settlements)
    ensures Stage(a, 0, ZERO)
  {
    hide Sum;
  }

  /** One more kind cannot overflow when the whole does not; the last kind decides. */
  lemma KindFits<K, V>(a: Account, n: nat, t: Expected, f: (Id, Bucket) -> (V -> nat), m: map<K, V>)
    requires Stage(a, n, t) && NextKind(a, n, f, m)
    ensures RecordedFits(a) ==> Fits(a.issuers.Keys, t, f, m)
    ensures n == 5 && Fits(a.issuers.Keys, t, f, m) ==> RecordedFits(a)
    ensures forall t' :: Added(t', t, f, m) ==> Stage(a, n + 1, t')
  {
    hide Upto, Recorded;
    forall i, b
      ensures Get(t, i, b) + Sum(m, f(i, b)) == Upto(a, n + 1, i, b) <= Recorded(a, i, b)
    {
    }
    if n == 5 && Fits(a.issuers.Keys, t, f, m) {
      forall i, b | i in a.issuers
        ensures Recorded(a, i, b) <= U64_MAX
      {
        assert Get(t, i, b) + Sum(m, f(i, b)) == Upto(a, 6, i, b);
      }
    }
    forall t' | Added(t', t, f, m)
      ensures Stage(a, n + 1, t')
    {
      forall i, b
        ensures Get(t', i, b) == Upto(a, n + 1, i, b)
      {
      }
    }
  }

  /** The six loops over the records, each adding to the totals of the one before. */
  method ValidateRecords(s: Snapshot) returns (r: Option<Expected>)
    ensures r.Some? <==> DepositListSorted(s.deposits) && RecordsOk(Restore(s)) && RecordedFits(Restore(s))
    ensures r.Some? ==> forall i, b :: Get(r.value, i, b) == Recorded(Restore(s), i, b)
  {
    hide ReceiptsOk, NovationsOk, DepositsOk, BackedAllOk, ConsumptionsOk, SettlementsOk, DepositListSorted;
    hide Stage, NextKind, RecordedFits, Fits, Added;
    ghost var a := Restore(s);
    Kinds(a);
    KindFits(a, 0, ZERO, ReceiptPosting, a.receipts);
    var t1 := ValidateReceipts(s, ZERO);
    if t1.None? { return None; }
    KindFits(a, 1, t1.value, NovationPosting, a.novations);
    var t2 := ValidateNovations(s, t1.value);
    if t2.None? { return None; }
    KindFits(a, 2, t2.value, DepositPosting, a.deposits);
    var t3 := ValidateDeposits(s, t2.value);
    if t3.None? { return None; }
    KindFits(a, 3, t3.value, BackedPosting, a.backed);
    var t4 := ValidateBackedSettlements(s, t3.value);
    if t4.None? { return None; }
    KindFits(a, 4, t4.value, ConsumptionPosting, a.consumptions);
    var t5 := ValidateConsumptions(s, t4.value);
    if t5.None? { return None; }
    KindFits(a, 5, t5.value, SettlementPosting, a.settlements);
    r := ValidateSettlements(s, t5.value);
    if r.Some? {
      LastStage(a, r.value);
    }
  }

  lemma LastStage(a: Account, t: Expected)
    requires Stage(a, 6, t)
    ensures forall i, b :: Get(t, i, b) == Recorded(a, i, b)
  {
  }

  /** The validator accepts a snapshot exactly when it restores to a state of the invariant whose gross fits. */
  method Validate(s: Snapshot) returns (r: Check<CreditError>)
    ensures r == if s.version != SNAPSHOT_VERSION then Fail(UnsupportedSnapshotVersion)
                 else if Accepts(s) then Pass else Fail(InvalidSnapshot)
  {
    hide *;
    if s.version != SNAPSHOT_VERSION {
      return Fail(UnsupportedSnapshotVersion);
    }
    AcceptedPhases(s);
    var issuersOk := ValidateIssuers(s);
    if !issuersOk { return Fail(InvalidSnapshot); }
    var totals := ValidateRecords(s);
    if totals.None? { return Fail(InvalidSnapshot); }
    var eventsOk := ValidateEvents(s);
    if !eventsOk { return Fail(InvalidSnapshot); }
    var totalsOk := ValidateTotals(s, totals.value);
    if !totalsOk { return Fail(InvalidSnapshot); }
    var revisionOk := ValidateRevision(s);
    if !revisionOk { return Fail(InvalidSnapshot); }
    PhasesAccept(s);
    return Pass;
  }

  /** Restoring an account: the snapshot is validated first and an accepted one comes back whole. */
  method FromSnapshot(s: Snapshot) returns (r: Result<Account, CreditError>)
    ensures Accepts(s) ==> r == Ok(Restore(s)) && Inv(Restore(s)) && TakeSnapshot(Restore(s)) == s
    ensures !Accepts(s) ==> r == Err(if s.version != SNAPSHOT_VERSION then UnsupportedSnapshotVersion else InvalidSnapshot)
  {
    hide Inv, GrossFits, TakeSnapshot;
    var verdict := Validate(s);
    if verdict.Fail? {
      return Err(verdict.error);
    }
    AcceptedSnapshotIsSound(s, []);
    return Ok(Restore(s));
  }
}
