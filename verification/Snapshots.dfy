/** Versioned snapshots: how an account is written out and read back, and which ones are accepted. */
module Snapshots {
  import opened Base
  import opened Protocol
  import opened Order
  import opened Sums
  import opened Accounts
  import opened Books
  import opened AccountRuns

  const SNAPSHOT_VERSION: nat := 1

  datatype Snapshot = Snapshot(
    version: nat,
    revision: u64,
    counterparty: Id,
    maxTotalPeerCredit: u64,
    totalPeerCredit: u64,
    issuers: map<Id, IssuerState>,
    receipts: map<Id, Receipt>,
    events: seq<Event>,
    novations: map<Id, Novation>,
    deposits: seq<Deposit>,
    backed: map<Id, BackedSettlement>,
    consumptions: map<Id, Consumption>,
    settlements: map<Id, SettlementRecord>)

  // ---------------------------------------------------------------- deposits as a sorted list

  /** The deposits in the order of their keys. */
  function SortedDeposits(deposits: map<Key, Deposit>): (list: seq<Deposit>)
    ensures |list| == |deposits|
  {
    var keys := SortedKeys(deposits.Keys);
    assert |keys| == |deposits.Keys| == |deposits|;
    assert forall i :: 0 <= i < |keys| ==> keys[i] in keys;
    seq(|keys|, i requires 0 <= i < |keys| => deposits[keys[i]])
  }

  /** The list collected into a map by key; a later entry replaces an earlier one. */
  function DepositMap(list: seq<Deposit>): map<Key, Deposit> {
    if list == [] then map[]
    else DepositMap(list[..|list| - 1])[DepositKey(list[|list| - 1]) := list[|list| - 1]]
  }

  function KeysOf(list: seq<Deposit>): (keys: seq<Key>)
    ensures |keys| == |list|
  {
    seq(|list|, i requires 0 <= i < |list| => DepositKey(list[i]))
  }

  ghost predicate DepositListSorted(list: seq<Deposit>) { StrictlySorted(KeysOf(list)) }

  lemma {:induction false} DepositMapEntries(list: seq<Deposit>)
    requires DepositListSorted(list)
    ensures forall k :: k in DepositMap(list) <==> k in KeysOf(list)
    ensures forall i :: 0 <= i < |list| ==>
              DepositKey(list[i]) in DepositMap(list) && DepositMap(list)[DepositKey(list[i])] == list[i]
  {
    if list != [] {
      var n := |list| - 1;
      var front := list[..n];
      assert KeysOf(front) == KeysOf(list)[..n];
      DepositMapEntries(front);
      assert KeysOf(list) == KeysOf(front) + [DepositKey(list[n])];
      forall i | 0 <= i < n
        ensures DepositKey(list[i]) != DepositKey(list[n])
      {
        assert KeyLess(KeysOf(list)[i], KeysOf(list)[n]);
        KeyLessTotal(DepositKey(list[i]), DepositKey(list[n]));
      }
      forall i | 0 <= i < |list|
        ensures DepositKey(list[i]) in DepositMap(list) && DepositMap(list)[DepositKey(list[i])] == list[i]
      {
        if i < n {
          assert front[i] == list[i];
        }
      }
    }
  }

  /** Reading a strictly sorted list into a map and listing the map gives the list back. */
  lemma ListRoundTrip(list: seq<Deposit>)
    requires DepositListSorted(list)
    ensures SortedDeposits(DepositMap(list)) == list
  {
    hide DepositMap, StrictlySorted;
    DepositMapEntries(list);
    var m := DepositMap(list);
    SortedListUnique(KeysOf(list), m.Keys);
    var back := SortedDeposits(m);
    assert SortedKeys(m.Keys) == KeysOf(list);
    forall i | 0 <= i < |list|
      ensures back[i] == list[i]
    {
      assert KeysOf(list)[i] == DepositKey(list[i]);
    }
  }

  /** Listing a map whose entries sit under their own keys and reading the list gives the map back. */
  lemma MapRoundTrip(deposits: map<Key, Deposit>)
    requires forall k :: k in deposits ==> k == DepositKey(deposits[k])
    ensures DepositListSorted(SortedDeposits(deposits))
    ensures DepositMap(SortedDeposits(deposits)) == deposits
  {
    var list := SortedDeposits(deposits);
    var keys := SortedKeys(deposits.Keys);
    assert KeysOf(list) == keys;
    DepositMapEntries(list);
    forall k | k in deposits
      ensures DepositMap(list)[k] == deposits[k]
    {
      assert k in keys;
      var i :| 0 <= i < |keys| && keys[i] == k;
      assert list[i] == deposits[k];
    }
  }

  // ---------------------------------------------------------------- snapshot and restore

  function TakeSnapshot(a: Account): Snapshot {
    Snapshot(SNAPSHOT_VERSION, a.revision, a.counterparty, a.maxTotalPeerCredit, a.totalPeerCredit,
             a.issuers, a.receipts, a.events, a.novations, SortedDeposits(a.deposits), a.backed,
             a.consumptions, a.settlements)
  }

  function Restore(s: Snapshot): Account {
    Account(s.revision, s.counterparty, s.maxTotalPeerCredit, s.totalPeerCredit, s.issuers, s.receipts,
            s.events, s.novations, DepositMap(s.deposits), s.backed, s.consumptions, s.settlements)
  }

  /** Everything ever credited to issuer `i` as peer credit, never netted against debits. */
  ghost function GrossPeerCredit(a: Account, i: Id): nat {
    Sum(a.receipts, ReceiptPosting(i, PeerCredits)) + Sum(a.novations, NovationPosting(i, PeerCredits))
  }

  ghost predicate GrossFits(a: Account) {
    forall i :: i in a.issuers ==> GrossPeerCredit(a, i) <= U64_MAX
  }

  /** The snapshots the validator accepts; `Validator.Validate` is proved to decide this. */
  ghost predicate Accepts(s: Snapshot) {
    && s.version == SNAPSHOT_VERSION
    && DepositListSorted(s.deposits)
    && Inv(Restore(s))
    && GrossFits(Restore(s))
  }

  lemma RestoreOfSnapshot(a: Account)
    requires DepositsOk(a.deposits, a.issuers.Keys)
    ensures Restore(TakeSnapshot(a)) == a && DepositListSorted(TakeSnapshot(a).deposits)
  {
    MapRoundTrip(a.deposits);
  }

  /** A state that meets the invariant restores from its own snapshot; accepted iff the gross fits. */
  lemma SnapshotAcceptedIffGrossFits(a: Account)
    ensures Inv(a) ==> Restore(TakeSnapshot(a)) == a
    ensures Inv(a) ==> (Accepts(TakeSnapshot(a)) <==> GrossFits(a))
  {
    hide LogOk, ExposureOk, RevisionOk, BooksBalance, IssuersOk;
    if Inv(a) {
      RestoreOfSnapshot(a);
    }
  }

  /** Completeness: in every run, the snapshot is accepted exactly when the gross peer credit fits. */
  lemma EverySnapshotAcceptedIffGrossFits(policy: AccountPolicy, ops: seq<Op>)
    requires New(policy).Ok?
    ensures var a := Run(New(policy).value, ops);
            Restore(TakeSnapshot(a)) == a && (Accepts(TakeSnapshot(a)) <==> GrossFits(a))
  {
    hide *;
    EveryRunKeepsTheBooks(policy, ops);
    SnapshotAcceptedIffGrossFits(Run(New(policy).value, ops));
  }

  /** Soundness: an accepted snapshot restores to an account whose every later run keeps the invariant. */
  lemma AcceptedSnapshotIsSound(s: Snapshot, ops: seq<Op>)
    requires Accepts(s)
    ensures TakeSnapshot(Restore(s)) == s
    ensures Inv(Restore(s)) && Inv(Run(Restore(s), ops))
  {
    hide Inv, GrossFits, Run;
    ListRoundTrip(s.deposits);
    RunKeeps(Restore(s), ops);
  }
}
