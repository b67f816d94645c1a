/**
 * The snapshot validator's loops over the records, with running checked totals.
 *
 * Maps are visited in an arbitrary order, so the result holds for every order of iteration.
 */
module Validator {
  import opened Base
  import opened Protocol
  import opened Order
  import opened Sums
  import opened Accounts
  import opened Books
  import opened Snapshots

  /** The running totals by issuer and bucket; an absent entry is zero. */
  type Expected = map<(Id, Bucket), u64>

  function Get(t: Expected, i: Id, b: Bucket): u64 {
    if (i, b) in t then t[(i, b)] else 0
  }

  /** `amount` added to one total: refused for an unknown issuer or on overflow. */
  function Add(t: Expected, issuers: set<Id>, i: Id, b: Bucket, amount: u64): Option<Expected> {
    if i !in issuers || Get(t, i, b) + amount > U64_MAX then None
    else Some(t[(i, b) := Get(t, i, b) + amount])
  }

  /** The totals `t` and the sums `f` over what is still to visit stay together the same. */
  ghost predicate Remaining<K, V>(t: Expected, rest: map<K, V>, f: (Id, Bucket) -> (V -> nat), t0: Expected, all: map<K, V>) {
    forall i, b :: Get(t, i, b) + Sum(rest, f(i, b)) == Get(t0, i, b) + Sum(all, f(i, b))
  }

  /** Every total stays in range when `all` is added to `t0`. */
  ghost predicate Fits<K, V>(issuers: set<Id>, t0: Expected, f: (Id, Bucket) -> (V -> nat), all: map<K, V>) {
    forall i, b :: i in issuers ==> Get(t0, i, b) + Sum(all, f(i, b)) <= U64_MAX
  }

  /** `t` is `t0` with the sums over `all` added. */
  ghost predicate Added<K, V>(t: Expected, t0: Expected, f: (Id, Bucket) -> (V -> nat), all: map<K, V>) {
    forall i, b :: Get(t, i, b) == Get(t0, i, b) + Sum(all, f(i, b))
  }

  /** Visiting key `k` moves its value from the remaining sum into the totals. */
  lemma Visit<K, V>(t: Expected, t': Expected, rest: map<K, V>, k: K, f: (Id, Bucket) -> (V -> nat), t0: Expected, all: map<K, V>)
    requires k in rest && Remaining(t, rest, f, t0, all)
    requires forall i, b :: Get(t', i, b) == Get(t, i, b) + f(i, b)(rest[k])
    ensures Remaining(t', rest - {k}, f, t0, all)
  {
    forall i, b
      ensures Get(t', i, b) + Sum(rest - {k}, f(i, b)) == Get(t0, i, b) + Sum(all, f(i, b))
    {
      SumRemove(rest, k, f(i, b));
    }
  }

  /** A total that overflows on key `k` overflows in the end. */
  lemma Overflow<K, V>(t: Expected, rest: map<K, V>, k: K, f: (Id, Bucket) -> (V -> nat), t0: Expected, all: map<K, V>,
                       issuers: set<Id>, i: Id, b: Bucket)
    requires k in rest && Remaining(t, rest, f, t0, all) && i in issuers
    requires Get(t, i, b) + f(i, b)(rest[k]) > U64_MAX
    ensures !Fits(issuers, t0, f, all)
  {
    SumAtLeast(rest, k, f(i, b));
  }

  lemma Finished<K, V>(t: Expected, f: (Id, Bucket) -> (V -> nat), t0: Expected, all: map<K, V>, issuers: set<Id>)
    requires Remaining(t, map[], f, t0, all)
    ensures Added(t, t0, f, all) && Fits(issuers, t0, f, all)
  {
  }

  lemma AddedFits<K, V>(t: Expected, t0: Expected, f: (Id, Bucket) -> (V -> nat), all: map<K, V>, issuers: set<Id>)
    requires Added(t, t0, f, all)
    ensures Fits(issuers, t0, f, all)
  {
  }

  lemma Start<K, V>(f: (Id, Bucket) -> (V -> nat), t0: Expected, all: map<K, V>)
    ensures Remaining(t0, all, f, t0, all)
  {
  }

  // ---------------------------------------------------------------- one loop per kind of record

  method ValidateReceipts(s: Snapshot, t0: Expected) returns (r: Option<Expected>)
    ensures r.Some? <==> ReceiptsOk(s.receipts, s.counterparty, s.issuers.Keys)
                         && Fits(s.issuers.Keys, t0, ReceiptPosting, s.receipts)
    ensures r.Some? ==> Added(r.value, t0, ReceiptPosting, s.receipts)
  {
    hide Remaining, Fits, Added;
    var t, rest := t0, s.receipts;
    Start(ReceiptPosting, t0, rest);
    while rest != map[]
      invariant forall k :: k in rest ==> k in s.receipts && s.receipts[k] == rest[k]
      invariant forall k :: k in s.receipts && k !in rest ==>
                  ReceiptOk(s.counterparty, k, s.receipts[k]) && s.receipts[k].issuer in s.issuers
      invariant Remaining(t, rest, ReceiptPosting, t0, s.receipts)
      decreases rest
    {
      var k :| k in rest;
      var v := rest[k];
      if !ReceiptOk(s.counterparty, k, v) {
        return None;
      }
      var added := Add(t, s.issuers.Keys, v.issuer, ReceiptBucket(v.valueClass), v.amount);
      if added.None? {
        if v.issuer in s.issuers {
          Overflow(t, rest, k, ReceiptPosting, t0, s.receipts, s.issuers.Keys, v.issuer, ReceiptBucket(v.valueClass));
        }
        return None;
      }
      Visit(t, added.value, rest, k, ReceiptPosting, t0, s.receipts);
      t, rest := added.value, rest - {k};
    }
    Finished(t, ReceiptPosting, t0, s.receipts, s.issuers.Keys);
    return Some(t);
  }

  method ValidateNovations(s: Snapshot, t0: Expected) returns (r: Option<Expected>)
    ensures r.Some? <==> NovationsOk(s.novations, s.counterparty, s.issuers.Keys)
                         && Fits(s.issuers.Keys, t0, NovationPosting, s.novations)
    ensures r.Some? ==> Added(r.value, t0, NovationPosting, s.novations)
  {
    hide Remaining, Fits, Added;
    var t, rest := t0, s.novations;
    Start(NovationPosting, t0, rest);
    while rest != map[]
      invariant forall k :: k in rest ==> k in s.novations && s.novations[k] == rest[k]
      invariant forall k :: k in s.novations && k !in rest ==>
                  NovationOk(s.counterparty, k, s.novations[k]) && s.novations[k].fromIssuer in s.issuers && s.novations[k].toIssuer in s.issuers
      invariant Remaining(t, rest, NovationPosting, t0, s.novations)
      decreases rest
    {
      var k :| k in rest;
      var v := rest[k];
      if !NovationOk(s.counterparty, k, v) {
        return None;
      }
      var debited := Add(t, s.issuers.Keys, v.fromIssuer, PeerDebits, v.amount);
      if debited.None? {
        if v.fromIssuer in s.issuers {
          Overflow(t, rest, k, NovationPosting, t0, s.novations, s.issuers.Keys, v.fromIssuer, PeerDebits);
        }
        return None;
      }
      var added := Add(debited.value, s.issuers.Keys, v.toIssuer, PeerCredits, v.amount);
      if added.None? {
        if v.toIssuer in s.issuers {
          Overflow(t, rest, k, NovationPosting, t0, s.novations, s.issuers.Keys, v.toIssuer, PeerCredits);
        }
        return None;
      }
      Visit(t, added.value, rest, k, NovationPosting, t0, s.novations);
      t := added.value;
      rest := rest - {k};
    }
    Finished(t, NovationPosting, t0, s.novations, s.issuers.Keys);
    return Some(t);
  }

  method ValidateBackedSettlements(s: Snapshot, t0: Expected) returns (r: Option<Expected>)
    ensures r.Some? <==> BackedAllOk(s.backed, s.counterparty, s.issuers.Keys)
                         && Fits(s.issuers.Keys, t0, BackedPosting, s.backed)
    ensures r.Some? ==> Added(r.value, t0, BackedPosting, s.backed)
  {
    hide Remaining, Fits, Added;
    var t, rest := t0, s.backed;
    Start(BackedPosting, t0, rest);
    while rest != map[]
      invariant forall k :: k in rest ==> k in s.backed && s.backed[k] == rest[k]
      invariant forall k :: k in s.backed && k !in rest ==>
                  BackedOk(s.counterparty, k, s.backed[k]) && s.backed[k].fromIssuer in s.issuers && s.backed[k].backingIssuer in s.issuers
      invariant Remaining(t, rest, BackedPosting, t0, s.backed)
      decreases rest
    {
      var k :| k in rest;
      var v := rest[k];
      if !BackedOk(s.counterparty, k, v) {
        return None;
      }
      var debited := Add(t, s.issuers.Keys, v.fromIssuer, PeerDebits, v.amount);
      if debited.None? {
        if v.fromIssuer in s.issuers {
          Overflow(t, rest, k, BackedPosting, t0, s.backed, s.issuers.Keys, v.fromIssuer, PeerDebits);
        }
        return None;
      }
      var added := Add(debited.value, s.issuers.Keys, v.backingIssuer, ReceiptBucket(v.valueClass), v.amount);
      if added.None? {
        if v.backingIssuer in s.issuers {
          Overflow(t, rest, k, BackedPosting, t0, s.backed, s.issuers.Keys, v.backingIssuer, ReceiptBucket(v.valueClass));
        }
        return None;
      }
      Visit(t, added.value, rest, k, BackedPosting, t0, s.backed);
      t := added.value;
      rest := rest - {k};
    }
    Finished(t, BackedPosting, t0, s.backed, s.issuers.Keys);
    return Some(t);
  }

  method ValidateConsumptions(s: Snapshot, t0: Expected) returns (r: Option<Expected>)
    ensures r.Some? <==> ConsumptionsOk(s.consumptions, s.counterparty, s.issuers.Keys)
                         && Fits(s.issuers.Keys, t0, ConsumptionPosting, s.consumptions)
    ensures r.Some? ==> Added(r.value, t0, ConsumptionPosting, s.consumptions)
  {
    hide Remaining, Fits, Added;
    var t, rest := t0, s.consumptions;
    Start(ConsumptionPosting, t0, rest);
    while rest != map[]
      invariant forall k :: k in rest ==> k in s.consumptions && s.consumptions[k] == rest[k]
      invariant forall k :: k in s.consumptions && k !in rest ==>
                  ConsumptionOk(s.counterparty, k, s.consumptions[k]) && s.consumptions[k].issuer in s.issuers
      invariant Remaining(t, rest, ConsumptionPosting, t0, s.consumptions)
      decreases rest
    {
      var k :| k in rest;
      var v := rest[k];
      if !ConsumptionOk(s.counterparty, k, v) {
        return None;
      }
      var added := Add(t, s.issuers.Keys, v.issuer, ClosedConsumptions, v.amount);
      if added.None? {
        if v.issuer in s.issuers {
          Overflow(t, rest, k, ConsumptionPosting, t0, s.consumptions, s.issuers.Keys, v.issuer, ClosedConsumptions);
        }
        return None;
      }
      Visit(t, added.value, rest, k, ConsumptionPosting, t0, s.consumptions);
      t := added.value;
      rest := rest - {k};
    }
    Finished(t, ConsumptionPosting, t0, s.consumptions, s.issuers.Keys);
    return Some(t);
  }

  /** The bucket and amount a settlement posts, if it posts anything. */
  function SettlementEntry(v: SettlementRecord): Option<(Bucket, nat)> {
    match v.status
    case Pending => Some((PendingExternal, v.request.amount + v.request.maxFee))
    case Completed(fee) => Some((SettledExternal, v.request.amount + fee))
    case Cancelled => None
  }

  method ValidateSettlements(s: Snapshot, t0: Expected) returns (r: Option<Expected>)
    ensures r.Some? <==> SettlementsOk(s.settlements, s.counterparty, s.issuers.Keys)
                         && Fits(s.issuers.Keys, t0, SettlementPosting, s.settlements)
    ensures r.Some? ==> Added(r.value, t0, SettlementPosting, s.settlements)
  {
    hide Remaining, Fits, Added;
    var t, rest := t0, s.settlements;
    Start(SettlementPosting, t0, rest);
    while rest != map[]
      invariant forall k :: k in rest ==> k in s.settlements && s.settlements[k] == rest[k]
      invariant forall k :: k in s.settlements && k !in rest ==>
                  SettlementOk(s.counterparty, k, s.settlements[k]) && s.settlements[k].request.issuer in s.issuers
      invariant Remaining(t, rest, SettlementPosting, t0, s.settlements)
      decreases rest
    {
      var k :| k in rest;
      var v := rest[k];
      if !SettlementOk(s.counterparty, k, v) {
        return None;
      }
      var i := v.request.issuer;
      if i !in s.issuers {
        return None;
      }
      var t' := t;
      var entry := SettlementEntry(v);
      if entry.Some? {
        var added := Add(t, s.issuers.Keys, i, entry.value.0, entry.value.1);
        if added.None? {
          Overflow(t, rest, k, SettlementPosting, t0, s.settlements, s.issuers.Keys, i, entry.value.0);
          return None;
        }
        t' := added.value;
      }
      Visit(t, t', rest, k, SettlementPosting, t0, s.settlements);
      t := t';
      rest := rest - {k};
    }
    Finished(t, SettlementPosting, t0, s.settlements, s.issuers.Keys);
    return Some(t);
  }

  // ---------------------------------------------------------------- the sorted deposit list

  lemma {:induction false} DepositPrefix(list: seq<Deposit>, n: nat, f: Deposit -> nat)
    requires DepositListSorted(list) && n <= |list|
    ensures DepositListSorted(list[..n])
    ensures Sum(DepositMap(list[..n]), f) <= Sum(DepositMap(list), f)
  {
    assert KeysOf(list[..n]) == KeysOf(list)[..n];
    if n < |list| {
      var m := |list| - 1;
      assert KeysOf(list[..m]) == KeysOf(list)[..m];
      assert list[..m + 1] == list;
      DepositAppend(list, m, f);
      assert list[..m][..n] == list[..n];
      DepositPrefix(list[..m], n, f);
    } else {
      assert list[..n] == list;
    }
  }

  lemma DepositAppend(list: seq<Deposit>, n: nat, f: Deposit -> nat)
    requires n < |list| && DepositListSorted(list[..n + 1])
    ensures DepositMap(list[..n + 1]) == DepositMap(list[..n])[DepositKey(list[n]) := list[n]]
    ensures DepositKey(list[n]) !in DepositMap(list[..n])
    ensures Sum(DepositMap(list[..n + 1]), f) == Sum(DepositMap(list[..n]), f) + f(list[n])
  {
    var front, long := list[..n], list[..n + 1];
    assert long[..n] == front && long[n] == list[n];
    assert KeysOf(front) == KeysOf(long)[..n];
    DepositMapEntries(front);
    if DepositKey(list[n]) in KeysOf(front) {
      var j :| 0 <= j < n && KeysOf(front)[j] == DepositKey(list[n]);
      assert KeyLess(KeysOf(long)[j], KeysOf(long)[n]);
      KeyLessTotal(KeysOf(long)[j], KeysOf(long)[n]);
    }
    SumInsert(DepositMap(front), DepositKey(list[n]), list[n], f);
  }

  method ValidateDeposits(s: Snapshot, t0: Expected) returns (r: Option<Expected>)
    ensures r.Some? <==> DepositListSorted(s.deposits)
                         && DepositsOk(DepositMap(s.deposits), s.issuers.Keys)
                         && Fits(s.issuers.Keys, t0, DepositPosting, DepositMap(s.deposits))
    ensures r.Some? ==> Added(r.value, t0, DepositPosting, DepositMap(s.deposits))
  {
    hide KeyLess, DepositsOk, Fits, Added, DepositMap;
    DepositStart(t0, s.deposits);
    var t := t0;
    var previous: Option<Key> := None;
    var list := s.deposits;
    for n := 0 to |list|
      invariant previous == if n == 0 then None else Some(DepositKey(list[n - 1]))
      invariant DepositListSorted(list[..n])
      invariant forall j :: 0 <= j < n ==> DepositOk(list[j]) && list[j].issuer in s.issuers
      invariant Added(t, t0, DepositPosting, DepositMap(list[..n]))
    {
      var d := list[n];
      if previous.Some? && !KeyLess(previous.value, DepositKey(d)) {
        assert KeysOf(list)[n - 1] == previous.value && KeysOf(list)[n] == DepositKey(d);
        return None;
      }
      if !DepositOk(d) || d.issuer !in s.issuers {
        DepositRefused(list, n, s.issuers.Keys);
        return None;
      }
      SortedAppend(list, n);
      var bucket := if d.valueClass == ClosedLoopDeposit then ClosedDeposits else ReserveDeposits;
      var added := Add(t, s.issuers.Keys, d.issuer, bucket, d.amount);
      DepositStep(t, t0, list, n, d.issuer, bucket);
      if added.None? {
        DepositOverflow(t, t0, list, n, d.issuer, bucket, s.issuers.Keys);
        return None;
      }
      DepositAdded(t, added.value, t0, list, n);
      t := added.value;
      previous := Some(DepositKey(d));
    }
    assert list[..|list|] == list;
    DepositsAccepted(list, s.issuers.Keys);
    AddedFits(t, t0, DepositPosting, DepositMap(list), s.issuers.Keys);
    return Some(t);
  }

  lemma DepositStart(t0: Expected, list: seq<Deposit>)
    ensures Added(t0, t0, DepositPosting, DepositMap(list[..0]))
    ensures DepositListSorted(list[..0])
  {
  }

  lemma SortedAppend(list: seq<Deposit>, n: nat)
    requires n < |list| && DepositListSorted(list[..n])
    requires n > 0 ==> KeyLess(DepositKey(list[n - 1]), DepositKey(list[n]))
    ensures DepositListSorted(list[..n + 1])
  {
    var keys := KeysOf(list[..n + 1]);
    assert KeysOf(list[..n]) == keys[..n];
    forall i, j | 0 <= i < j < n + 1
      ensures KeyLess(keys[i], keys[j])
    {
      if j < n {
        assert keys[..n][i] == keys[i] && keys[..n][j] == keys[j];
      } else if i < n - 1 {
        assert KeyLess(keys[..n][i], keys[..n][n - 1]);
        KeyLessTransitive(keys[i], keys[n - 1], keys[n]);
      }
    }
  }

  lemma DepositRefused(list: seq<Deposit>, n: nat, issuers: set<Id>)
    requires n < |list| && (!DepositOk(list[n]) || list[n].issuer !in issuers)
    ensures !(DepositListSorted(list) && DepositsOk(DepositMap(list), issuers))
  {
    if DepositListSorted(list) {
      DepositMapEntries(list);
    }
  }

  lemma DepositStep(t: Expected, t0: Expected, list: seq<Deposit>, n: nat, i: Id, b: Bucket)
    requires n < |list| && DepositListSorted(list[..n + 1])
    requires Added(t, t0, DepositPosting, DepositMap(list[..n]))
    ensures Get(t, i, b) + DepositPosting(i, b)(list[n])
            == Get(t0, i, b) + Sum(DepositMap(list[..n + 1]), DepositPosting(i, b))
  {
    DepositAppend(list, n, DepositPosting(i, b));
  }

  lemma DepositOverflow(t: Expected, t0: Expected, list: seq<Deposit>, n: nat, i: Id, b: Bucket, issuers: set<Id>)
    requires n < |list| && i in issuers
    requires Get(t0, i, b) + Sum(DepositMap(list[..n + 1]), DepositPosting(i, b)) > U64_MAX
    ensures !(DepositListSorted(list) && Fits(issuers, t0, DepositPosting, DepositMap(list)))
  {
    if DepositListSorted(list) {
      DepositPrefix(list, n + 1, DepositPosting(i, b));
    }
  }

  lemma DepositAdded(t: Expected, t': Expected, t0: Expected, list: seq<Deposit>, n: nat)
    requires n < |list| && DepositListSorted(list[..n + 1])
    requires Added(t, t0, DepositPosting, DepositMap(list[..n]))
    requires forall i, b :: Get(t', i, b) == Get(t, i, b) + DepositPosting(i, b)(list[n])
    ensures Added(t', t0, DepositPosting, DepositMap(list[..n + 1]))
  {
    forall i, b
      ensures Get(t', i, b) == Get(t0, i, b) + Sum(DepositMap(list[..n + 1]), DepositPosting(i, b))
    {
      DepositStep(t, t0, list, n, i, b);
    }
  }

  lemma DepositsAccepted(list: seq<Deposit>, issuers: set<Id>)
    requires DepositListSorted(list)
    requires forall j :: 0 <= j < |list| ==> DepositOk(list[j]) && list[j].issuer in issuers
    ensures DepositsOk(DepositMap(list), issuers)
  {
    DepositMapEntries(list);
    var m := DepositMap(list);
    forall k | k in m
      ensures DepositOk(m[k]) && k == DepositKey(m[k]) && m[k].issuer in issuers
    {
      assert k in KeysOf(list);
      var j :| 0 <= j < |list| && KeysOf(list)[j] == k;
      assert DepositKey(list[j]) == k;
    }
  }
}
