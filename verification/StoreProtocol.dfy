/**
 * Many clients over one store. Each loads an account, applies calls to its own copy and saves
 * against the revision it loaded; every database transaction is one atomic step of the interleaving.
 */
module StoreProtocol {
  import opened Base
  import opened Protocol
  import opened Order
  import opened Sums
  import opened Accounts
  import opened Books
  import opened AccountRuns
  import opened AccountHistory
  import opened Snapshots
  import opened Stores

  type Client = nat

  /** A client's copy: what it loaded (or last saved) and what it has made of it. */
  datatype Session = Session(id: Id, loaded: Account, current: Account)

  /** The database, the clients' copies, and every value ever stored under each id, oldest first. */
  datatype World = World(db: Db, sessions: map<Client, Session>, history: map<Id, seq<Account>>)

  datatype Action =
    | Create(id: Id, policy: AccountPolicy, ops: seq<Op>)
    | Load(client: Client, id: Id)
    | Call(client: Client, op: Op)
    | Save(client: Client)
    | Forget(client: Client)

  const EMPTY := World(Db(map[], map[]), map[], map[])

  ghost function Act(w: World, action: Action): World {
    match action
    case Create(id, policy, ops) =>
      if New(policy).Err? then w
      else
        var account := Run(New(policy).value, ops);
        (match CreateIn(w.db, id, account)
         case Ok(db) => w.(db := db, history := w.history[id := [account]])
         case Err(_) => w)
    case Load(client, id) =>
      (match LoadFrom(w.db, id)
       case Ok(Some(account)) => w.(sessions := w.sessions[client := Session(id, account, account)])
       case _ => w)
    case Call(client, op) =>
      if client !in w.sessions then w
      else
        var s := w.sessions[client];
        w.(sessions := w.sessions[client := s.(current := Step(s.current, op))])
    case Save(client) =>
      if client !in w.sessions then w
      else
        var s := w.sessions[client];
        (match SaveIn(w.db, s.id, s.loaded.revision, s.current)
         case Ok(db) =>
           w.(db := db, sessions := w.sessions[client := s.(loaded := s.current)],
              history := w.history[s.id := (if s.id in w.history then w.history[s.id] else []) + [s.current]])
         case Err(_) => w)
    case Forget(client) => w.(sessions := w.sessions - {client})
  }

  ghost function Trace(w: World, actions: seq<Action>): World
    decreases |actions|
  {
    if actions == [] then w else Trace(Act(w, actions[0]), actions[1..])
  }

  // ---------------------------------------------------------------- the invariant of the protocol

  ghost predicate Reaches(a: Account, b: Account) { exists ops :: Run(a, ops) == b }

  /** One stored value replaces another: reached from it by calls, at a higher revision. */
  ghost predicate Replaces(a: Account, b: Account) { a.revision < b.revision && Reaches(a, b) }

  ghost predicate Chain(h: seq<Account>) {
    && h != []
    && (forall k :: 0 <= k < |h| ==> Inv(h[k]))
    && (forall k :: 0 < k < |h| ==> Replaces(h[k - 1], h[k]))
  }

  function Latest(h: seq<Account>): Account
    requires h != []
  {
    h[|h| - 1]
  }

  ghost predicate ChainsOk(w: World) {
    w.history.Keys == w.db.rows.Keys && forall id :: id in w.history ==> !Blank(id) && Chain(w.history[id])
  }

  ghost predicate RowsOk(w: World) {
    forall id :: id in w.history && id in w.db.rows && w.history[id] != [] ==> w.db.rows[id] == NewRow(Latest(w.history[id]))
  }

  ghost predicate SessionOk(w: World, s: Session) {
    && s.id in w.history && s.loaded in w.history[s.id]
    && Reaches(s.loaded, s.current) && Inv(s.current)
  }

  ghost predicate SessionsOk(w: World) {
    forall c :: c in w.sessions ==> SessionOk(w, w.sessions[c])
  }

  /** Every deposit of the value now stored under `id` is claimed by `id`. */
  ghost predicate Claimed(w: World, id: Id)
    requires id in w.history && w.history[id] != []
  {
    forall k :: k in Latest(w.history[id]).deposits ==> k in w.db.claims && w.db.claims[k] == id
  }

  ghost predicate ClaimsOk(w: World) {
    forall id :: id in w.history && w.history[id] != [] ==> Claimed(w, id)
  }

  ghost predicate Consistent(w: World) {
    ChainsOk(w) && RowsOk(w) && SessionsOk(w) && ClaimsOk(w)
  }

  // ---------------------------------------------------------------- chains

  lemma ReachesSame(a: Account)
    ensures Reaches(a, a)
  {
    assert Run(a, []) == a;
  }

  lemma ReachesStep(a: Account, b: Account, op: Op)
    requires Reaches(a, b)
    ensures Reaches(a, Step(b, op))
  {
    var ops :| Run(a, ops) == b;
    RunAppend(a, ops, [op]);
    assert Run(b, [op]) == Run(Step(b, op), []);
    assert Run(a, ops + [op]) == Step(b, op);
  }

  lemma ReachesLater(a: Account, b: Account)
    requires Reaches(a, b)
    ensures Later(a, b)
  {
    var ops :| Run(a, ops) == b;
    RunLater(a, ops);
  }

  /** Along a chain revisions rise strictly and no record is lost or rewritten. */
  lemma {:induction false} ChainLater(h: seq<Account>, j: nat, k: nat)
    requires Chain(h) && j <= k < |h|
    ensures Later(h[j], h[k])
    ensures j < k ==> h[j].revision < h[k].revision
  {
    hide Later, Inv;
    if j == k {
      NextSame(h[j]);
      assert Later(h[j], h[j]);
    } else {
      ChainLater(h, j, k - 1);
      assert Replaces(h[k - 1], h[k]);
      ReachesLater(h[k - 1], h[k]);
      LaterTransitive(h[j], h[k - 1], h[k]);
    }
  }

  /** No ABA: a stored value with the latest revision is the latest value. */
  lemma RevisionIdentifies(h: seq<Account>, a: Account)
    requires Chain(h) && a in h && a.revision == Latest(h).revision
    ensures a == Latest(h)
  {
    hide Later, Chain;
    var j :| 0 <= j < |h| && h[j] == a;
    ChainLater(h, j, |h| - 1);
  }

  lemma ChainExtends(h: seq<Account>, a: Account)
    requires Chain(h) && Inv(a) && Replaces(Latest(h), a)
    ensures Chain(h + [a])
  {
    hide Inv, Replaces;
    var g := h + [a];
    forall k | 0 < k < |g|
      ensures Replaces(g[k - 1], g[k])
    {
      if k < |h| {
        assert g[k - 1] == h[k - 1] && g[k] == h[k];
      }
    }
  }

  // ---------------------------------------------------------------- every action keeps it

  lemma SameBytes(r: u64, q: u64)
    requires RevisionBytes(r) == RevisionBytes(q)
    ensures r == q
  {
    RevisionRoundTrip(r);
    RevisionRoundTrip(q);
  }

  lemma ListedDeposits(a: Account)
    requires DepositsOk(a.deposits, a.issuers.Keys)
    ensures forall k :: k in a.deposits ==>
              exists j :: 0 <= j < |SortedDeposits(a.deposits)| && DepositKey(SortedDeposits(a.deposits)[j]) == k
  {
    var list := SortedDeposits(a.deposits);
    MapRoundTrip(a.deposits);
    DepositMapEntries(list);
    forall k | k in a.deposits
      ensures exists j :: 0 <= j < |list| && DepositKey(list[j]) == k
    {
      assert k in KeysOf(list);
      var j :| 0 <= j < |list| && KeysOf(list)[j] == k;
      assert DepositKey(list[j]) == k;
    }
  }

  /** What a committed transaction leaves: the new row, and claims that only grew and cover it. */
  lemma CommitClaims(claims: map<Key, Id>, id: Id, account: Account, claims': map<Key, Id>)
    requires DepositsOk(account.deposits, account.issuers.Keys)
    requires Bind(claims, id, SortedDeposits(account.deposits)) == Ok(claims')
    ensures Submap(claims, claims')
    ensures forall k :: k in account.deposits ==> k in claims' && claims'[k] == id
  {
    BindBinds(claims, id, SortedDeposits(account.deposits));
    ListedDeposits(account);
  }

  lemma InvDeposits(a: Account)
    requires Inv(a)
    ensures DepositsOk(a.deposits, a.issuers.Keys)
  {
    hide LogOk, ExposureOk, BooksBalance, RevisionOk, IssuersOk;
  }

  /** Storing `account` under `id`, after `h`, keeps the claims consistent. */
  lemma CommitKeepsClaims(w: World, id: Id, account: Account, db: Db, h: seq<Account>, w': World)
    requires ClaimsOk(w) && DepositsOk(account.deposits, account.issuers.Keys)
    requires Bind(w.db.claims, id, SortedDeposits(account.deposits)) == Ok(db.claims)
    requires w'.db == db && w'.history == w.history[id := h + [account]]
    ensures ClaimsOk(w')
  {
    CommitClaims(w.db.claims, id, account, db.claims);
    forall other | other in w'.history && w'.history[other] != []
      ensures Claimed(w', other)
    {
      if other == id {
        assert Latest(w'.history[id]) == account;
      } else {
        assert Claimed(w, other);
      }
    }
  }

  lemma CommitKeepsRows(w: World, id: Id, account: Account, db: Db, h: seq<Account>, w': World)
    requires ChainsOk(w) && RowsOk(w) && Chain(h + [account])
    requires db.rows == w.db.rows[id := NewRow(account)] && !Blank(id)
    requires w'.db == db && w'.history == w.history[id := h + [account]]
    ensures ChainsOk(w') && RowsOk(w')
  {
    hide Chain, NewRow, Blank;
    assert Latest(h + [account]) == account;
    assert w'.history.Keys == w'.db.rows.Keys;
    forall other | other in w'.history
      ensures !Blank(other) && Chain(w'.history[other])
      ensures w'.history[other] != [] ==> w'.db.rows[other] == NewRow(Latest(w'.history[other]))
    {
      if other != id {
        assert w'.history[other] == w.history[other] && w'.db.rows[other] == w.db.rows[other];
      }
    }
  }

  /** What a call that stores `account` under `id`, after `h`, leaves of the database and history. */
  ghost predicate Commits(w: World, w': World, id: Id, account: Account, h: seq<Account>) {
    && !Blank(id)
    && w'.db.rows == w.db.rows[id := NewRow(account)]
    && Bind(w.db.claims, id, SortedDeposits(account.deposits)) == Ok(w'.db.claims)
    && w'.history == w.history[id := h + [account]]
  }

  lemma CreateShape(w: World, id: Id, policy: AccountPolicy, ops: seq<Op>)
    requires New(policy).Ok? && CreateIn(w.db, id, Run(New(policy).value, ops)).Ok?
    ensures Commits(w, Act(w, Create(id, policy, ops)), id, Run(New(policy).value, ops), [])
    ensures Act(w, Create(id, policy, ops)).sessions == w.sessions && id !in w.db.rows
  {
    hide New, Run, Inv, NewRow, Bind;
    assert [] + [Run(New(policy).value, ops)] == [Run(New(policy).value, ops)];
  }

  lemma SaveShape(w: World, c: Client)
    requires c in w.sessions && w.sessions[c].id in w.history
    requires SaveIn(w.db, w.sessions[c].id, w.sessions[c].loaded.revision, w.sessions[c].current).Ok?
    ensures Commits(w, Act(w, Save(c)), w.sessions[c].id, w.sessions[c].current, w.history[w.sessions[c].id])
    ensures Act(w, Save(c)).sessions == w.sessions[c := w.sessions[c].(loaded := w.sessions[c].current)]
  {
    hide New, Run, Inv, NewRow, Bind, RevisionBytes, DecodeRevision;
  }

  lemma CommitKeeps(w: World, w': World, id: Id, account: Account, h: seq<Account>)
    requires ChainsOk(w) && RowsOk(w) && ClaimsOk(w) && Chain(h + [account]) && Inv(account)
    requires Commits(w, w', id, account, h)
    ensures ChainsOk(w') && RowsOk(w') && ClaimsOk(w')
  {
    hide ChainsOk, RowsOk, ClaimsOk, Chain, Inv, NewRow, Bind, Blank;
    InvDeposits(account);
    CommitKeepsClaims(w, id, account, w'.db, h, w');
    CommitKeepsRows(w, id, account, w'.db, h, w');
  }

  lemma SingleChain(a: Account)
    requires Inv(a)
    ensures Chain([] + [a])
  {
    hide Inv;
  }

  ghost predicate HistoryGrows(w: World, w': World) {
    forall id :: id in w.history ==> id in w'.history && (forall a :: a in w.history[id] ==> a in w'.history[id])
  }

  lemma CommitGrows(w: World, w': World, id: Id, account: Account, h: seq<Account>)
    requires Commits(w, w', id, account, h) && (id in w.history ==> h == w.history[id])
    ensures HistoryGrows(w, w') && id in w'.history && account in w'.history[id]
  {
    hide NewRow, Bind, Blank;
  }

  /** Sessions stay valid while history only grows. */
  lemma SessionsFrame(w: World, w': World, c: Client, s: Session)
    requires SessionsOk(w) && SessionOk(w', s)
    requires HistoryGrows(w, w')
    requires w'.sessions == w.sessions || w'.sessions == w.sessions[c := s]
    ensures SessionsOk(w')
  {
    hide Reaches, Inv;
    forall d | d in w'.sessions
      ensures SessionOk(w', w'.sessions[d])
    {
      if w'.sessions[d] != s {
        assert SessionOk(w, w.sessions[d]);
      }
    }
  }

  lemma SessionsUntouched(w: World, w': World)
    requires SessionsOk(w) && w'.sessions == w.sessions
    requires HistoryGrows(w, w')
    ensures SessionsOk(w')
  {
    hide Reaches, Inv;
    forall d | d in w'.sessions
      ensures SessionOk(w', w'.sessions[d])
    {
      assert SessionOk(w, w.sessions[d]);
    }
  }

  lemma CreateKeeps(w: World, id: Id, policy: AccountPolicy, ops: seq<Op>)
    requires Consistent(w)
    ensures Consistent(Act(w, Create(id, policy, ops)))
  {
    hide *;
    ConsistentParts(w);
    if New(policy).Ok? {
      var account := Run(New(policy).value, ops);
      if CreateIn(w.db, id, account).Ok? {
        var w' := Act(w, Create(id, policy, ops));
        EveryRunKeepsTheBooks(policy, ops);
        SingleChain(account);
        CreateShape(w, id, policy, ops);
        CommitKeeps(w, w', id, account, []);
        NewIdIsUnused(w, id);
        CommitGrows(w, w', id, account, []);
        SessionsUntouched(w, w');
        ConsistentWhole(w');
        return;
      }
    }
    CreateRefused(w, id, policy, ops);
  }

  lemma CreateRefused(w: World, id: Id, policy: AccountPolicy, ops: seq<Op>)
    requires New(policy).Err? || CreateIn(w.db, id, Run(New(policy).value, ops)).Err?
    ensures Act(w, Create(id, policy, ops)) == w
  {
    hide New, Run, CreateIn;
  }

  lemma ConsistentParts(w: World)
    requires Consistent(w)
    ensures ChainsOk(w) && RowsOk(w) && SessionsOk(w) && ClaimsOk(w)
  {
    hide ChainsOk, RowsOk, SessionsOk, ClaimsOk;
  }

  lemma ConsistentWhole(w: World)
    requires ChainsOk(w) && RowsOk(w) && SessionsOk(w) && ClaimsOk(w)
    ensures Consistent(w)
  {
    hide ChainsOk, RowsOk, SessionsOk, ClaimsOk;
  }

  lemma NewIdIsUnused(w: World, id: Id)
    requires ChainsOk(w) && id !in w.db.rows
    ensures id !in w.history
  {
  }

  /** A successful save replaces exactly the value its client had loaded. */
  lemma SaveReplacesWhatWasLoaded(w: World, c: Client)
    requires Consistent(w) && c in w.sessions
    requires SaveIn(w.db, w.sessions[c].id, w.sessions[c].loaded.revision, w.sessions[c].current).Ok?
    ensures w.sessions[c].id in w.history && w.history[w.sessions[c].id] != []
    ensures Latest(w.history[w.sessions[c].id]) == w.sessions[c].loaded
    ensures Replaces(w.sessions[c].loaded, w.sessions[c].current)
  {
    hide Inv, Reaches, ClaimsOk, RevisionBytes, Chain, DecodeRevision;
    var s := w.sessions[c];
    assert SessionOk(w, s);
    var h := w.history[s.id];
    ChainNonEmpty(h);
    assert w.db.rows[s.id] == NewRow(Latest(h));
    SameBytes(Latest(h).revision, s.loaded.revision);
    RevisionIdentifies(h, s.loaded);
  }

  lemma ChainNonEmpty(h: seq<Account>)
    requires Chain(h)
    ensures h != []
  {
  }

  lemma SaveKeeps(w: World, c: Client)
    requires Consistent(w)
    ensures Consistent(Act(w, Save(c)))
  {
    hide *;
    ConsistentParts(w);
    if c in w.sessions {
      var s := w.sessions[c];
      if SaveIn(w.db, s.id, s.loaded.revision, s.current).Ok? {
        var w' := Act(w, Save(c));
        SaveReplacesWhatWasLoaded(w, c);
        SessionAt(w, c);
        var h := w.history[s.id];
        ChainAt(w, s.id);
        ChainExtends(h, s.current);
        SaveShape(w, c);
        CommitKeeps(w, w', s.id, s.current, h);
        CommitGrows(w, w', s.id, s.current, h);
        SessionSaved(w', s);
        SessionsFrame(w, w', c, s.(loaded := s.current));
        ConsistentWhole(w');
        return;
      }
    }
    SaveRefused(w, c);
  }

  lemma SaveRefused(w: World, c: Client)
    requires c in w.sessions ==>
               SaveIn(w.db, w.sessions[c].id, w.sessions[c].loaded.revision, w.sessions[c].current).Err?
    ensures Act(w, Save(c)) == w
  {
    hide New, Run, SaveIn;
  }

  lemma SessionAt(w: World, c: Client)
    requires SessionsOk(w) && c in w.sessions
    ensures w.sessions[c].id in w.history && Inv(w.sessions[c].current)
  {
    hide Inv, Reaches;
    assert SessionOk(w, w.sessions[c]);
  }

  lemma SessionSaved(w: World, s: Session)
    requires s.id in w.history && s.current in w.history[s.id] && Inv(s.current)
    ensures SessionOk(w, s.(loaded := s.current))
  {
    hide Inv, Reaches;
    ReachesSame(s.current);
  }

  lemma ChainAt(w: World, id: Id)
    requires ChainsOk(w) && id in w.history
    ensures Chain(w.history[id])
  {
  }

  lemma LoadKeeps(w: World, c: Client, id: Id)
    requires Consistent(w)
    ensures Consistent(Act(w, Load(c, id)))
  {
    hide Inv, ChainsOk, RowsOk, ClaimsOk, SessionsOk, Reaches, Accepts, Restore, TakeSnapshot;
    match LoadFrom(w.db, id) {
      case Ok(Some(account)) =>
        var w' := Act(w, Load(c, id));
        LoadedIsLatest(w, id, account);
        FrameOfDb(w, w');
        ReachesSame(account);
        SessionsFrame(w, w', c, Session(id, account, account));
      case _ =>
    }
  }

  lemma FrameOfDb(w: World, w': World)
    requires ChainsOk(w) && RowsOk(w) && ClaimsOk(w) && w'.db == w.db && w'.history == w.history
    ensures ChainsOk(w') && RowsOk(w') && ClaimsOk(w')
  {
    hide Chain, NewRow;
    forall id | id in w'.history && w'.history[id] != []
      ensures Claimed(w', id)
    {
      assert Claimed(w, id);
    }
  }

  /** What a load returns is the latest stored value, whole. */
  lemma LoadedIsLatest(w: World, id: Id, account: Account)
    requires ChainsOk(w) && RowsOk(w) && LoadFrom(w.db, id) == Ok(Some(account))
    ensures id in w.history && account in w.history[id] && account == Latest(w.history[id]) && Inv(account)
  {
    hide Accepts, Inv, Restore, TakeSnapshot, DecodeRevision, RevisionBytes, Replaces;
    var h := w.history[id];
    assert Chain(h) && Inv(Latest(h));
    assert w.db.rows[id] == NewRow(Latest(h));
    SnapshotAcceptedIffGrossFits(Latest(h));
  }

  lemma CallKeeps(w: World, c: Client, op: Op)
    requires Consistent(w)
    ensures Consistent(Act(w, Call(c, op)))
  {
    hide Inv, ChainsOk, RowsOk, ClaimsOk, Reaches, Step;
    if c in w.sessions {
      var s := w.sessions[c];
      var w' := Act(w, Call(c, op));
      assert SessionOk(w, s);
      StepKeeps(s.current, op);
      ReachesStep(s.loaded, s.current, op);
      FrameOfDb(w, w');
      SessionsFrame(w, w', c, s.(current := Step(s.current, op)));
    }
  }

  lemma ForgetKeeps(w: World, c: Client)
    requires Consistent(w)
    ensures Consistent(Act(w, Forget(c)))
  {
    hide Inv, ChainsOk, RowsOk, ClaimsOk, Reaches;
    var w' := Act(w, Forget(c));
    FrameOfDb(w, w');
    forall d | d in w'.sessions
      ensures SessionOk(w', w'.sessions[d])
    {
      assert SessionOk(w, w.sessions[d]);
    }
  }

  lemma ActKeeps(w: World, action: Action)
    requires Consistent(w)
    ensures Consistent(Act(w, action))
  {
    hide *;
    match action
    case Create(id, policy, ops) => CreateKeeps(w, id, policy, ops);
    case Load(c, id) => LoadKeeps(w, c, id);
    case Call(c, op) => CallKeeps(w, c, op);
    case Save(c) => SaveKeeps(w, c);
    case Forget(c) => ForgetKeeps(w, c);
  }

  lemma {:induction false} TraceKeeps(w: World, actions: seq<Action>)
    requires Consistent(w)
    ensures Consistent(Trace(w, actions))
    decreases |actions|
  {
    hide Consistent, Act;
    if actions != [] {
      ActKeeps(w, actions[0]);
      TraceKeeps(Act(w, actions[0]), actions[1..]);
    }
  }

  // ---------------------------------------------------------------- the promises

  /**
   * For every interleaving: the values stored under an id form one chain, each reached by calls from
   * the one before at a higher revision; the row holds the last; no stored record is ever lost.
   */
  lemma StoreIsLinearizable(actions: seq<Action>, id: Id)
    ensures var w := Trace(EMPTY, actions);
            && w.history.Keys == w.db.rows.Keys
            && (id in w.history ==>
                  var h := w.history[id];
                  && h != [] && w.db.rows[id] == NewRow(Latest(h))
                  && (forall k :: 0 < k < |h| ==> Replaces(h[k - 1], h[k]))
                  && (forall j, k :: 0 <= j < k < |h| ==> Later(h[j], h[k]) && h[j].revision < h[k].revision))
  {
    hide Later, Inv, Reaches, Act, NewRow;
    TraceKeeps(EMPTY, actions);
    var w := Trace(EMPTY, actions);
    if id in w.history {
      var h := w.history[id];
      assert Chain(h);
      forall j, k | 0 <= j < k < |h|
        ensures Later(h[j], h[k]) && h[j].revision < h[k].revision
      {
        ChainLater(h, j, k);
      }
    }
  }

  /** After a save, the account loads back unchanged exactly when its gross peer credit fits. */
  lemma LoadAfterSave(actions: seq<Action>, id: Id)
    ensures var w := Trace(EMPTY, actions);
            id in w.history && w.history[id] != [] ==>
              var a := Latest(w.history[id]);
              LoadFrom(w.db, id) == if GrossFits(a) then Ok(Some(a)) else Err(SnapshotRejected)
  {
    hide *;
    var w := Trace(EMPTY, actions);
    EmptyIsConsistent();
    TraceKeeps(EMPTY, actions);
    if id in w.history && w.history[id] != [] {
      LoadOfLatest(w, id);
    }
  }

  lemma EmptyIsConsistent()
    ensures Consistent(EMPTY)
  {
  }

  lemma LoadOfLatest(w: World, id: Id)
    requires Consistent(w) && id in w.history && w.history[id] != []
    ensures var a := Latest(w.history[id]);
            LoadFrom(w.db, id) == if GrossFits(a) then Ok(Some(a)) else Err(SnapshotRejected)
  {
    hide Inv, Accepts, GrossFits, Restore, DecodeRevision, RevisionBytes, Blank, Replaces, ClaimsOk, SessionsOk;
    var a := Latest(w.history[id]);
    assert Chain(w.history[id]) && Inv(a);
    assert w.db.rows[id] == NewRow(a);
    SnapshotAcceptedIffGrossFits(a);
    RevisionRoundTrip(a.revision);
    assert NewRow(a).snapshot.revision == a.revision;
  }

  /** A claim, once made, keeps its owner for ever. */
  lemma ClaimsNeverMove(w: World, action: Action)
    ensures Submap(w.db.claims, Act(w, action).db.claims)
  {
    hide Bind, NewRow, LoadFrom, DecodeRevision, RevisionBytes, New, Run, Step, SortedDeposits, Blank;
    match action
    case Create(id, policy, ops) =>
      if New(policy).Ok? && CreateIn(w.db, id, Run(New(policy).value, ops)).Ok? {
        BindBinds(w.db.claims, id, SortedDeposits(Run(New(policy).value, ops).deposits));
      }
    case Save(c) =>
      if c in w.sessions {
        var s := w.sessions[c];
        if SaveIn(w.db, s.id, s.loaded.revision, s.current).Ok? {
          BindBinds(w.db.claims, s.id, SortedDeposits(s.current.deposits));
        }
      }
    case _ =>
  }

  /** No backing operation is held by two stored accounts. */
  lemma OneBackingOneAccount(actions: seq<Action>, p: Id, q: Id, key: Key)
    ensures var w := Trace(EMPTY, actions);
            && p in w.history && q in w.history && w.history[p] != [] && w.history[q] != []
            && key in Latest(w.history[p]).deposits && key in Latest(w.history[q]).deposits
            ==> p == q
  {
    hide Act, Chain, Reaches, Inv, NewRow;
    TraceKeeps(EMPTY, actions);
    var w := Trace(EMPTY, actions);
    if p in w.history && w.history[p] != [] && q in w.history && w.history[q] != [] {
      assert Claimed(w, p) && Claimed(w, q);
    }
  }

  /** The no-ABA promise over every interleaving: a save that succeeds replaces the value that was loaded. */
  lemma NoLostUpdate(actions: seq<Action>, c: Client)
    ensures var w := Trace(EMPTY, actions);
            c in w.sessions
            && SaveIn(w.db, w.sessions[c].id, w.sessions[c].loaded.revision, w.sessions[c].current).Ok? ==>
              && w.sessions[c].id in w.history && w.history[w.sessions[c].id] != []
              && Latest(w.history[w.sessions[c].id]) == w.sessions[c].loaded
              && Replaces(w.sessions[c].loaded, w.sessions[c].current)
  {
    hide *;
    EmptyIsConsistent();
    TraceKeeps(EMPTY, actions);
    var w := Trace(EMPTY, actions);
    if c in w.sessions
       && SaveIn(w.db, w.sessions[c].id, w.sessions[c].loaded.revision, w.sessions[c].current).Ok? {
      SaveReplacesWhatWasLoaded(w, c);
    }
  }

  /** None of the account's backing operations is claimed by another account. */
  ghost predicate Unclaimed(claims: map<Key, Id>, id: Id, account: Account) {
    forall k :: k in account.deposits && k in claims ==> claims[k] == id
  }

  lemma BindsWhenUnclaimed(claims: map<Key, Id>, id: Id, account: Account)
    requires DepositsOk(account.deposits, account.issuers.Keys)
    ensures Bind(claims, id, SortedDeposits(account.deposits)).Ok? <==> Unclaimed(claims, id, account)
  {
    hide Bind;
    var list := SortedDeposits(account.deposits);
    BindsUnlessTaken(claims, id, list);
    ListedDeposits(account);
    MapRoundTrip(account.deposits);
    DepositMapEntries(list);
    assert forall j :: 0 <= j < |list| ==> DepositKey(list[j]) in account.deposits;
  }

  lemma SaveSucceeds(w: World, c: Client)
    requires Consistent(w) && c in w.sessions
    ensures w.sessions[c].id in w.history && w.history[w.sessions[c].id] != []
    ensures var s := w.sessions[c];
            SaveIn(w.db, s.id, s.loaded.revision, s.current).Ok?
            <==> && Latest(w.history[s.id]) == s.loaded && s.loaded.revision < s.current.revision
                 && Unclaimed(w.db.claims, s.id, s.current)
  {
    hide Inv, Reaches, ClaimsOk, RevisionBytes, Chain, DecodeRevision, Bind, Unclaimed, SortedDeposits, Blank;
    var s := w.sessions[c];
    assert SessionOk(w, s);
    var h := w.history[s.id];
    ChainNonEmpty(h);
    InvDeposits(s.current);
    BindsWhenUnclaimed(w.db.claims, s.id, s.current);
    assert w.db.rows[s.id] == NewRow(Latest(h));
    if SaveIn(w.db, s.id, s.loaded.revision, s.current).Ok? {
      SaveReplacesWhatWasLoaded(w, c);
    }
  }

  /**
   * Over every interleaving a save succeeds exactly when nobody saved since the client loaded, the client
   * has applied something, and no other account claims its backing.
   */
  lemma SaveSucceedsExactlyWhen(actions: seq<Action>, c: Client)
    ensures var w := Trace(EMPTY, actions);
            c in w.sessions ==>
              && w.sessions[c].id in w.history && w.history[w.sessions[c].id] != []
              && var s := w.sessions[c];
              (SaveIn(w.db, s.id, s.loaded.revision, s.current).Ok?
               <==> && Latest(w.history[s.id]) == s.loaded && s.loaded.revision < s.current.revision
                    && Unclaimed(w.db.claims, s.id, s.current))
  {
    hide *;
    EmptyIsConsistent();
    TraceKeeps(EMPTY, actions);
    var w := Trace(EMPTY, actions);
    if c in w.sessions {
      SaveSucceeds(w, c);
    }
  }

  // ---------------------------------------------------------------- backing over all accounts

  function Amount(): Deposit -> nat { (d: Deposit) => d.amount }

  ghost function BackingOf(): Account -> nat { (a: Account) => Sum(a.deposits, Amount()) }

  /** `all` holds the deposits of every account of `accounts` and nothing else. */
  ghost predicate Union(accounts: map<Id, Account>, all: map<Key, Deposit>) {
    && (forall id, k :: id in accounts && k in accounts[id].deposits ==> k in all && all[k] == accounts[id].deposits[k])
    && (forall k :: k in all ==> exists id :: id in accounts && k in accounts[id].deposits)
  }

  ghost predicate Disjoint(accounts: map<Id, Account>) {
    forall p, q, k :: p in accounts && q in accounts && k in accounts[p].deposits && k in accounts[q].deposits ==> p == q
  }

  lemma {:induction false} SumDisjoint(m: map<Key, Deposit>, n: map<Key, Deposit>, f: Deposit -> nat)
    requires m.Keys !! n.Keys
    ensures Sum(m + n, f) == Sum(m, f) + Sum(n, f)
    decreases n
  {
    if n == map[] {
      assert m + n == m;
    } else {
      var k :| k in n;
      SumDisjoint(m, n - {k}, f);
      SumRemove(n, k, f);
      SumRemove(m + n, k, f);
      assert (m + n) - {k} == m + (n - {k});
    }
  }

  /** Adding up the accounts' backing counts each backing operation once. */
  lemma {:induction false} BackingAddsUp(accounts: map<Id, Account>) returns (all: map<Key, Deposit>)
    requires Disjoint(accounts)
    ensures Union(accounts, all) && Sum(accounts, BackingOf()) == Sum(all, Amount())
    decreases accounts
  {
    if accounts == map[] {
      return map[];
    }
    var id :| id in accounts;
    var rest := accounts - {id};
    var others := BackingAddsUp(rest);
    var mine := accounts[id].deposits;
    UnionGrows(accounts, id, others);
    SumDisjoint(others, mine, Amount());
    SumRemove(accounts, id, BackingOf());
    all := others + mine;
  }

  lemma UnionGrows(accounts: map<Id, Account>, id: Id, others: map<Key, Deposit>)
    requires Disjoint(accounts) && id in accounts && Union(accounts - {id}, others)
    ensures others.Keys !! accounts[id].deposits.Keys && Union(accounts, others + accounts[id].deposits)
  {
    var rest, mine := accounts - {id}, accounts[id].deposits;
    forall k | k in others
      ensures k !in mine && exists q :: q in accounts && k in accounts[q].deposits
    {
      var q :| q in rest && k in rest[q].deposits;
      assert q in accounts && k in accounts[q].deposits;
    }
    var all := others + mine;
    forall q, k | q in accounts && k in accounts[q].deposits
      ensures k in all && all[k] == accounts[q].deposits[k]
    {
      if q != id {
        assert q in rest && k in rest[q].deposits;
      }
    }
  }

  /** The accounts as they stand in the database. */
  ghost function Stored(w: World): map<Id, Account> {
    map id | id in w.history && w.history[id] != [] :: Latest(w.history[id])
  }

  /** Over every interleaving, the backing of all stored accounts counts each `(issuer, deposit)` once. */
  lemma BackingCountedOnce(actions: seq<Action>) returns (all: map<Key, Deposit>)
    ensures Union(Stored(Trace(EMPTY, actions)), all)
    ensures Sum(Stored(Trace(EMPTY, actions)), BackingOf()) == Sum(all, Amount())
  {
    hide Trace, Inv, Reaches, Sum, Union;
    var w := Trace(EMPTY, actions);
    var accounts := Stored(w);
    forall p, q, k | p in accounts && q in accounts && k in accounts[p].deposits && k in accounts[q].deposits
      ensures p == q
    {
      OneBackingOneAccount(actions, p, q, k);
    }
    all := BackingAddsUp(accounts);
  }
}
