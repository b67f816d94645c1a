/**
 * A three-call run whose every ledger is within its caps but whose snapshot the validator rejects:
 * gross peer credit is never netted, so moving one credit away and back doubles it.
 */
module GrossOverflow {
  import opened Base
  import opened Protocol
  import opened Ledgers
  import opened Sums
  import opened Accounts
  import opened Books
  import opened Snapshots

  const HALF: u64 := 0x8000_0000_0000_0000

  function Peer(id: Id): IssuerPolicy { IssuerPolicy(id, U64_MAX, 0, 0, 0, None) }

  const POLICY := AccountPolicy("p", U64_MAX, [Peer("a"), Peer("b")])
  const EARNED := Receipt("r", "a", "p", "s", "s", 1, HALF, PeerCredit, 0, 2)
  const AWAY := Novation("n", "p", "a", "b", HALF, 2)
  const BACK := Novation("m", "p", "b", "a", HALF, 2)
  const CALLS := [OpReceipt(EARNED, "a", Online, 1), OpNovate(AWAY, "b", 1), OpNovate(BACK, "a", 1)]

  /** Issuers `a` and `b` with the given outstanding peer credit. */
  function Issuers(a: u64, b: u64): map<Id, IssuerState> {
    map["a" := NewIssuer(Peer("a")).(peer := PeerLedger(a, 0)),
        "b" := NewIssuer(Peer("b")).(peer := PeerLedger(b, 0))]
  }

  lemma LettersAreNotBlank()
    ensures forall c: char {:trigger Blank([c])} :: c in "abprsnm" ==> !Blank([c])
  {
    forall c: char | c in "abprsnm"
      ensures !Blank([c])
    {
      assert !IsWhite([c][0]);
    }
  }

  lemma Start()
    ensures New(POLICY) == Ok(EmptyAccount("p", U64_MAX, Issuers(0, 0)))
  {
    LettersAreNotBlank();
    assert !Blank("a") && !Blank("b") && !Blank("p");
    var first := map["a" := NewIssuer(Peer("a"))];
    assert POLICY.issuers[1..] == [Peer("b")];
    assert AddIssuers(first, [Peer("b")]) == AddIssuers(first["b" := NewIssuer(Peer("b"))], []);
    assert first["b" := NewIssuer(Peer("b"))] == Issuers(0, 0);
  }

  function Earned(): Account {
    EmptyAccount("p", U64_MAX, Issuers(HALF, 0)).(
      revision := 1, totalPeerCredit := HALF, receipts := map["r" := EARNED],
      events := [ReceiptEvent(1, "r", Online)])
  }

  function MovedAway(): Account {
    Earned().(revision := 2, issuers := Issuers(0, HALF), novations := map["n" := AWAY],
              events := Earned().events + [NovationEvent(2, "n")])
  }

  function MovedBack(): Account {
    MovedAway().(revision := 3, issuers := Issuers(HALF, 0), novations := map["n" := AWAY]["m" := BACK],
                 events := MovedAway().events + [NovationEvent(3, "m")])
  }

  lemma FirstCall()
    ensures Step(EmptyAccount("p", U64_MAX, Issuers(0, 0)), CALLS[0]) == Earned()
  {
    LettersAreNotBlank();
    assert !Blank("r") && !Blank("s");
    var a := EmptyAccount("p", U64_MAX, Issuers(0, 0));
    assert a.issuers["a" := a.issuers["a"].(peer := PeerLedger(HALF, 0))] == Issuers(HALF, 0);
  }

  lemma SecondCall()
    ensures Step(Earned(), CALLS[1]) == MovedAway()
  {
    LettersAreNotBlank();
    assert !Blank("n");
    var i := Earned().issuers;
    assert i["a" := i["a"].(peer := PeerLedger(0, 0))]["b" := i["b"].(peer := PeerLedger(HALF, 0))] == Issuers(0, HALF);
  }

  lemma ThirdCall()
    ensures Step(MovedAway(), CALLS[2]) == MovedBack()
  {
    LettersAreNotBlank();
    assert !Blank("m");
    var i := MovedAway().issuers;
    assert i["b" := i["b"].(peer := PeerLedger(0, 0))]["a" := i["a"].(peer := PeerLedger(HALF, 0))] == Issuers(HALF, 0);
  }

  lemma WholeRun()
    ensures Run(EmptyAccount("p", U64_MAX, Issuers(0, 0)), CALLS) == MovedBack()
  {
    hide Step, Earned, MovedAway, MovedBack;
    FirstCall();
    SecondCall();
    ThirdCall();
    assert CALLS[1..][0] == CALLS[1] && CALLS[1..][1..] == [CALLS[2]];
    assert Run(MovedAway(), [CALLS[2]]) == Run(MovedBack(), []);
  }

  lemma GrossIsDoubled()
    ensures GrossPeerCredit(MovedBack(), "a") == U64_MAX + 1
  {
    var a := MovedBack();
    SumInsert(map[], "r", EARNED, ReceiptPosting("a", PeerCredits));
    assert a.receipts == map[]["r" := EARNED];
    SumInsert(map[], "n", AWAY, NovationPosting("a", PeerCredits));
    assert map["n" := AWAY] == map[]["n" := AWAY];
    SumInsert(map["n" := AWAY], "m", BACK, NovationPosting("a", PeerCredits));
  }

  /** The rejected run: three accepted calls, exposure within every cap, and no valid snapshot. */
  lemma NovationRoundTripIsRejected()
    ensures New(POLICY).Ok?
    ensures var a := Run(New(POLICY).value, CALLS);
            && a.revision == 3 && a.totalPeerCredit == HALF <= a.maxTotalPeerCredit
            && !GrossFits(a) && !Accepts(TakeSnapshot(a))
  {
    hide Run, MovedBack, New;
    Start();
    WholeRun();
    GrossIsDoubled();
    EverySnapshotAcceptedIffGrossFits(POLICY, CALLS);
    LastFacts();
  }

  lemma LastFacts()
    ensures "a" in MovedBack().issuers && MovedBack().revision == 3
    ensures MovedBack().totalPeerCredit == HALF && MovedBack().maxTotalPeerCredit == U64_MAX
  {
  }
}
