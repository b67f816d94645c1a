/**
 * The persistent account store: one row per account under compare-and-swap on the revision, and a
 * global table that binds each backing operation to one account, both changed in one transaction.
 */
module Stores {
  import opened Base
  import opened Protocol
  import opened Order
  import opened Accounts
  import opened Snapshots
  import opened SnapshotValidation

  type byte = x: int | 0 <= x < 256

  datatype Row = Row(revision: seq<byte>, snapshot: Snapshot)

  datatype Db = Db(rows: map<Id, Row>, claims: map<Key, Id>)

  datatype StoreError =
    | InvalidAccountId
    | AlreadyExists
    | NotFound
    | NonMonotonicRevision(expected: u64, snapshot: u64)
    | CasConflict(expected: u64, actual: u64)
    | CorruptStoredRevision
    | SnapshotRevisionMismatch(stored: u64, snapshot: u64)
    | BackingClaimConflict(key: Key, claimedBy: Id)
    | SnapshotRejected

  // ---------------------------------------------------------------- revisions as big-endian bytes

  function Digits(r: nat, n: nat): (b: seq<byte>)
    ensures |b| == n
  {
    if n == 0 then [] else Digits(r / 256, n - 1) + [r % 256]
  }

  function Value(b: seq<byte>): nat {
    if b == [] then 0 else Value(b[..|b| - 1]) * 256 + b[|b| - 1]
  }

  function Pow256(n: nat): nat { if n == 0 then 1 else 256 * Pow256(n - 1) }

  function RevisionBytes(revision: u64): seq<byte> { Digits(revision, 8) }

  lemma {:induction false} ValueBelow(b: seq<byte>)
    ensures Value(b) < Pow256(|b|)
  {
    if b != [] {
      ValueBelow(b[..|b| - 1]);
    }
  }

  lemma EightBytes()
    ensures Pow256(8) == U64_MAX + 1
  {
    assert Pow256(4) == 0x1_0000_0000;
    assert Pow256(8) == 256 * (256 * (256 * (256 * Pow256(4))));
  }

  function DecodeRevision(b: seq<byte>): Result<u64, StoreError> {
    if |b| != 8 then Err(CorruptStoredRevision)
    else
      ValueBelow(b);
      EightBytes();
      Ok(Value(b))
  }

  lemma {:induction false} DigitsRoundTrip(r: nat, n: nat)
    requires r < Pow256(n)
    ensures Value(Digits(r, n)) == r
  {
    if n > 0 {
      DigitsRoundTrip(r / 256, n - 1);
      var b := Digits(r, n);
      assert b[..|b| - 1] == Digits(r / 256, n - 1);
    }
  }

  /** Decoding undoes encoding, so comparing the bytes compares the revisions. */
  lemma RevisionRoundTrip(revision: u64)
    ensures DecodeRevision(RevisionBytes(revision)) == Ok(revision)
  {
    EightBytes();
    DigitsRoundTrip(revision, 8);
  }

  // ---------------------------------------------------------------- what each call does

  /** The claims after binding the deposits of `list` to `id`, or the first one bound elsewhere. */
  function Bind(claims: map<Key, Id>, id: Id, list: seq<Deposit>): Result<map<Key, Id>, StoreError>
    decreases |list|
  {
    if list == [] then Ok(claims)
    else
      var key := DepositKey(list[0]);
      if key !in claims then Bind(claims[key := id], id, list[1..])
      else if claims[key] != id then Err(BackingClaimConflict(key, claims[key]))
      else Bind(claims, id, list[1..])
  }

  function NewRow(account: Account): Row {
    Row(RevisionBytes(account.revision), TakeSnapshot(account))
  }

  function CreateIn(db: Db, id: Id, account: Account): Result<Db, StoreError> {
    if Blank(id) then Err(InvalidAccountId)
    else if id in db.rows then Err(AlreadyExists)
    else
      var claims :- Bind(db.claims, id, SortedDeposits(account.deposits));
      Ok(Db(db.rows[id := NewRow(account)], claims))
  }

  function SaveIn(db: Db, id: Id, expected: u64, account: Account): Result<Db, StoreError> {
    if Blank(id) then Err(InvalidAccountId)
    else if account.revision <= expected then Err(NonMonotonicRevision(expected, account.revision))
    else if id !in db.rows then Err(NotFound)
    else if db.rows[id].revision != RevisionBytes(expected) then
      var actual :- DecodeRevision(db.rows[id].revision);
      Err(CasConflict(expected, actual))
    else
      var claims :- Bind(db.claims, id, SortedDeposits(account.deposits));
      Ok(Db(db.rows[id := NewRow(account)], claims))
  }

  ghost function LoadFrom(db: Db, id: Id): Result<Option<Account>, StoreError> {
    if Blank(id) then Err(InvalidAccountId)
    else if id !in db.rows then Ok(None)
    else
      var revision :- DecodeRevision(db.rows[id].revision);
      var s := db.rows[id].snapshot;
      if !Accepts(s) then Err(SnapshotRejected)
      else if s.revision != revision then Err(SnapshotRevisionMismatch(revision, s.revision))
      else Ok(Some(Restore(s)))
  }

  /** Binding only adds claims, keeps every owner, and leaves each listed deposit bound to `id`. */
  lemma {:induction false} BindBinds(claims: map<Key, Id>, id: Id, list: seq<Deposit>)
    requires Bind(claims, id, list).Ok?
    ensures forall k :: k in claims ==> k in Bind(claims, id, list).value && Bind(claims, id, list).value[k] == claims[k]
    ensures forall j :: 0 <= j < |list| ==> DepositKey(list[j]) in Bind(claims, id, list).value
                                            && Bind(claims, id, list).value[DepositKey(list[j])] == id
    decreases |list|
  {
    if list != [] {
      var key := DepositKey(list[0]);
      var claims' := if key in claims then claims else claims[key := id];
      BindBinds(claims', id, list[1..]);
      assert key in claims' && claims'[key] == id;
      forall j | 0 <= j < |list|
        ensures DepositKey(list[j]) in Bind(claims, id, list).value
        ensures Bind(claims, id, list).value[DepositKey(list[j])] == id
      {
        if j > 0 {
          assert list[1..][j - 1] == list[j];
        }
      }
    }
  }

  /** Binding is refused exactly when some listed deposit is claimed by another account. */
  lemma {:induction false} BindsUnlessTaken(claims: map<Key, Id>, id: Id, list: seq<Deposit>)
    ensures Bind(claims, id, list).Ok?
            <==> forall j :: 0 <= j < |list| && DepositKey(list[j]) in claims ==> claims[DepositKey(list[j])] == id
    decreases |list|
  {
    if list != [] {
      var key := DepositKey(list[0]);
      var claims' := if key in claims then claims else claims[key := id];
      BindsUnlessTaken(claims', id, list[1..]);
      assert forall j :: 0 <= j < |list| - 1 ==> list[1..][j] == list[j + 1];
      assert forall j :: 0 < j < |list| ==> list[j] == list[1..][j - 1];
    }
  }

  /** Binding claims nothing but the listed deposits. */
  lemma {:induction false} BindAddsOnlyListed(claims: map<Key, Id>, id: Id, list: seq<Deposit>, k: Key)
    requires Bind(claims, id, list).Ok? && k in Bind(claims, id, list).value
    ensures k in claims || exists j :: 0 <= j < |list| && DepositKey(list[j]) == k
    decreases |list|
  {
    if list != [] {
      var key, rest := DepositKey(list[0]), list[1..];
      BindAddsOnlyListed(if key in claims then claims else claims[key := id], id, rest, k);
      assert forall j :: 0 <= j < |rest| ==> rest[j] == list[j + 1];
      if key == k {
        assert DepositKey(list[0]) == k;
      }
    }
  }

  /** A claim conflict names a listed deposit and the other account that claims it. */
  predicate TakenBy(claims: map<Key, Id>, id: Id, list: seq<Deposit>, e: StoreError) {
    && e.BackingClaimConflict? && e.key in claims && claims[e.key] == e.claimedBy != id
    && exists j :: 0 <= j < |list| && DepositKey(list[j]) == e.key
  }

  lemma {:induction false} ConflictNamesTheOwner(claims: map<Key, Id>, id: Id, list: seq<Deposit>)
    requires Bind(claims, id, list).Err?
    ensures TakenBy(claims, id, list, Bind(claims, id, list).error)
    decreases |list|
  {
    var key, rest := DepositKey(list[0]), list[1..];
    if key !in claims || claims[key] == id {
      var claims' := if key in claims then claims else claims[key := id];
      ConflictNamesTheOwner(claims', id, rest);
      assert forall j :: 0 <= j < |rest| ==> rest[j] == list[j + 1];
    }
  }

  ghost predicate NoneTaken(claims: map<Key, Id>, id: Id, account: Account) {
    var list := SortedDeposits(account.deposits);
    forall j :: 0 <= j < |list| && DepositKey(list[j]) in claims ==> claims[DepositKey(list[j])] == id
  }

  /** Creating: exactly when it is done, what it leaves, and that every refusal is true. */
  lemma CreatesExactlyWhen(db: Db, id: Id, account: Account)
    ensures var r := CreateIn(db, id, account);
            && (r.Ok? <==> !Blank(id) && id !in db.rows && NoneTaken(db.claims, id, account))
            && (r.Ok? ==> r.value.rows == db.rows[id := NewRow(account)])
            && (r.Err? ==>
                  match r.error
                  case InvalidAccountId => Blank(id)
                  case AlreadyExists => id in db.rows
                  case _ => TakenBy(db.claims, id, SortedDeposits(account.deposits), r.error))
  {
    hide Blank, Bind, NewRow, SortedDeposits, TakenBy;
    var list := SortedDeposits(account.deposits);
    BindsUnlessTaken(db.claims, id, list);
    if Bind(db.claims, id, list).Err? {
      ConflictNamesTheOwner(db.claims, id, list);
      OnlyConflicts(db.claims, id, list);
    }
  }

  lemma OnlyConflicts(claims: map<Key, Id>, id: Id, list: seq<Deposit>)
    requires Bind(claims, id, list).Err?
    ensures Bind(claims, id, list).error.BackingClaimConflict?
  {
    ConflictNamesTheOwner(claims, id, list);
  }

  /** Saving: exactly when it is done, what it leaves, and that every refusal is true. */
  lemma SavesExactlyWhen(db: Db, id: Id, expected: u64, account: Account)
    ensures var r := SaveIn(db, id, expected, account);
            && (r.Ok? <==>
                  && !Blank(id) && expected < account.revision && id in db.rows
                  && db.rows[id].revision == RevisionBytes(expected) && NoneTaken(db.claims, id, account))
            && (r.Ok? ==> r.value.rows == db.rows[id := NewRow(account)])
            && (r.Err? ==>
                  match r.error
                  case InvalidAccountId => Blank(id)
                  case NonMonotonicRevision(e, s) => e == expected && s == account.revision <= expected
                  case NotFound => id !in db.rows
                  case CasConflict(e, actual) =>
                    e == expected != actual && id in db.rows && DecodeRevision(db.rows[id].revision) == Ok(actual)
                  case CorruptStoredRevision => id in db.rows && |db.rows[id].revision| != 8
                  case _ => TakenBy(db.claims, id, SortedDeposits(account.deposits), r.error))
  {
    hide Blank, Bind, NewRow, SortedDeposits, TakenBy, RevisionBytes, Value;
    var list := SortedDeposits(account.deposits);
    BindsUnlessTaken(db.claims, id, list);
    if Bind(db.claims, id, list).Err? {
      ConflictNamesTheOwner(db.claims, id, list);
      OnlyConflicts(db.claims, id, list);
    }
    if id in db.rows {
      BytesDetermine(db.rows[id].revision, expected);
    }
  }

  /** Loading: exactly what comes back, and that every refusal is true. */
  lemma LoadsExactlyWhen(db: Db, id: Id)
    ensures var r := LoadFrom(db, id);
            && (r == Ok(None) <==> !Blank(id) && id !in db.rows)
            && (r.Ok? && r.value.Some? <==>
                  && !Blank(id) && id in db.rows && Accepts(db.rows[id].snapshot)
                  && db.rows[id].revision == RevisionBytes(db.rows[id].snapshot.revision))
            && (r.Ok? && r.value.Some? ==> r.value.value == Restore(db.rows[id].snapshot))
            && (r.Err? ==>
                  match r.error
                  case InvalidAccountId => Blank(id)
                  case CorruptStoredRevision => id in db.rows && |db.rows[id].revision| != 8
                  case SnapshotRejected => id in db.rows && !Accepts(db.rows[id].snapshot)
                  case SnapshotRevisionMismatch(stored, snapshot) =>
                    && id in db.rows && db.rows[id].snapshot.revision == snapshot != stored
                    && DecodeRevision(db.rows[id].revision) == Ok(stored)
                  case _ => false)
  {
    hide Blank, Accepts, Restore, RevisionBytes, Value;
    if id in db.rows {
      BytesDetermine(db.rows[id].revision, db.rows[id].snapshot.revision);
    }
  }

  lemma {:induction false} DigitsOfValue(b: seq<byte>)
    ensures Digits(Value(b), |b|) == b
  {
    if b != [] {
      var n := |b| - 1;
      DigitsOfValue(b[..n]);
      assert Value(b) / 256 == Value(b[..n]) && Value(b) % 256 == b[n];
      assert b == b[..n] + [b[n]];
    }
  }

  /** Eight bytes decode to a revision only if they are its encoding. */
  lemma BytesDetermine(b: seq<byte>, revision: u64)
    ensures DecodeRevision(b) == Ok(revision) <==> b == RevisionBytes(revision)
  {
    RevisionRoundTrip(revision);
    if |b| == 8 {
      DigitsOfValue(b);
    }
  }

  /** The encoding is big-endian. */
  lemma {:induction false} DigitsAreBigEndian(r: nat, n: nat, i: nat)
    requires i < n
    ensures Pow256(n - 1 - i) > 0 && Digits(r, n)[i] == r / Pow256(n - 1 - i) % 256
  {
    if i < n - 1 {
      DigitsAreBigEndian(r / 256, n - 1, i);
      DivideTwice(r, Pow256(n - 2 - i));
    }
  }

  lemma DivideTwice(r: nat, b: nat)
    requires b > 0
    ensures r / 256 / b == r / (256 * b)
  {
    var h := r / 256;
    var q, s := h / b, h % b;
    var x := q * b;
    assert h == x + s;
    assert q * (256 * b) == 256 * x;
    QuotientIs(r, 256 * b, q, 256 * s + r % 256);
  }

  lemma QuotientIs(r: nat, d: nat, q: nat, m: nat)
    requires d > 0 && m < d
    ensures r == q * d + m ==> r / d == q
  {
    var k := r / d;
    assert r == k * d + r % d;
    assert k < q ==> (k + 1) * d <= q * d;
    assert k > q ==> (q + 1) * d <= k * d;
  }

  // ---------------------------------------------------------------- the store object

  class CreditAccountStore {
    var rows: map<Id, Row>
    var claims: map<Key, Id>

    function View(): Db
      reads this
    {
      Db(rows, claims)
    }

    constructor Open()
      ensures View() == Db(map[], map[])
    {
      rows, claims := map[], map[];
    }

    /** Binds the account's deposits inside a transaction holding the claim table `pending`. */
    method BindBackingDeposits(pending: map<Key, Id>, id: Id, account: Account)
      returns (r: Result<map<Key, Id>, StoreError>)
      ensures r == Bind(pending, id, SortedDeposits(account.deposits))
    {
      var list := SortedDeposits(account.deposits);
      var table := pending;
      for n := 0 to |list|
        invariant Bind(pending, id, list) == Bind(table, id, list[n..])
      {
        var key := DepositKey(list[n]);
        assert list[n..][0] == list[n] && list[n..][1..] == list[n + 1..];
        if key !in table {
          table := table[key := id];
        } else if table[key] != id {
          return Err(BackingClaimConflict(key, table[key]));
        }
      }
      return Ok(table);
    }

    /** The row is inserted, then the deposits are bound; a conflict discards both. */
    method Create(id: Id, account: Account) returns (r: Result<(), StoreError>)
      modifies this
      ensures match CreateIn(old(View()), id, account)
              case Ok(db) => r == Ok(()) && View() == db
              case Err(e) => r == Err(e) && View() == old(View())
    {
      if Blank(id) {
        return Err(InvalidAccountId);
      }
      if id in rows {
        return Err(AlreadyExists);
      }
      var newRows := rows[id := NewRow(account)];
      var bound := BindBackingDeposits(claims, id, account);
      if bound.Err? {
        return Err(bound.error);
      }
      rows, claims := newRows, bound.value;
      return Ok(());
    }

    /** The row is replaced only when its stored revision bytes are those of `expected`. */
    method Save(id: Id, expected: u64, account: Account) returns (r: Result<(), StoreError>)
      modifies this
      ensures match SaveIn(old(View()), id, expected, account)
              case Ok(db) => r == Ok(()) && View() == db
              case Err(e) => r == Err(e) && View() == old(View())
    {
      if Blank(id) {
        return Err(InvalidAccountId);
      }
      if account.revision <= expected {
        return Err(NonMonotonicRevision(expected, account.revision));
      }
      if id !in rows || rows[id].revision != RevisionBytes(expected) {
        if id !in rows {
          return Err(NotFound);
        }
        var actual := DecodeRevision(rows[id].revision);
        return Err(if actual.Ok? then CasConflict(expected, actual.value) else actual.error);
      }
      var newRows := rows[id := NewRow(account)];
      var bound := BindBackingDeposits(claims, id, account);
      if bound.Err? {
        return Err(bound.error);
      }
      rows, claims := newRows, bound.value;
      return Ok(());
    }

    /** The stored snapshot is validated before an account comes back. */
    method Load(id: Id) returns (r: Result<Option<Account>, StoreError>)
      ensures r == LoadFrom(View(), id)
    {
      hide Accepts, Restore, Value;
      if Blank(id) {
        return Err(InvalidAccountId);
      }
      if id !in rows {
        return Ok(None);
      }
      var revision := DecodeRevision(rows[id].revision);
      if revision.Err? {
        return Err(revision.error);
      }
      var account := FromSnapshot(rows[id].snapshot);
      if account.Err? {
        return Err(SnapshotRejected);
      }
      if rows[id].snapshot.revision != revision.value {
        return Err(SnapshotRevisionMismatch(revision.value, rows[id].snapshot.revision));
      }
      return Ok(Some(account.value));
    }
  }
}
