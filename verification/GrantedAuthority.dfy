/**
 * What an account grants and the transfer adapter then makes of it. Any filled-in settlement request is
 * granted by a three-call account, so the adapter's own checks decide which authorities come to nothing,
 * and its transfer requests, which name no account, decide which authorities share one payment.
 */
module GrantedAuthority {
  import opened Base
  import opened Protocol
  import opened Ledgers
  import opened Order
  import opened Accounts
  import opened AccountTheorems
  import SagaProtocol
  import opened Sagas
  import opened Settlements

  // ---------------------------------------------------------------- an account that grants a request

  /** A request any account could be asked for at time 1. */
  predicate Askable(q: SettlementRequest) {
    && !Blank(q.settlementId) && !Blank(q.issuer) && !Blank(q.counterparty) && !Blank(q.payoutDestination)
    && q.amount > 0 && q.amount + q.maxFee <= U64_MAX && q.expiresAt > 1
  }

  function Issuer(q: SettlementRequest): IssuerPolicy { IssuerPolicy(q.issuer, 0, 0, 0, U64_MAX, None) }

  function PolicyFor(q: SettlementRequest): AccountPolicy { AccountPolicy(q.counterparty, 0, [Issuer(q)]) }

  function Total(q: SettlementRequest): u64
    requires Askable(q)
  {
    q.amount + q.maxFee
  }

  function Funds(q: SettlementRequest): Deposit
    requires Askable(q)
  {
    Deposit("d", q.issuer, Total(q), ReserveBackedWithdrawable)
  }

  function Earns(q: SettlementRequest): Receipt
    requires Askable(q)
  {
    Receipt("r", q.issuer, q.counterparty, "s", "s", 1, Total(q), ReserveBackedWithdrawable, 0, 2)
  }

  /** Fund the reserve, earn the whole of it, and ask to be paid out. */
  function Calls(q: SettlementRequest): seq<Op>
    requires Askable(q)
  {
    [OpDeposit(Funds(q), q.issuer), OpReceipt(Earns(q), q.issuer, Online, 1), OpAuthorize(q, q.counterparty, 1)]
  }

  /** The account with the given reserve. */
  function With(q: SettlementRequest, reserve: ReserveLedger): Account {
    EmptyAccount(q.counterparty, 0, map[q.issuer := NewIssuer(Issuer(q)).(reserve := reserve)])
  }

  function Deposited(q: SettlementRequest): map<Key, Deposit>
    requires Askable(q)
  {
    map[][DepositKey(Funds(q)) := Funds(q)]
  }

  function Funded(q: SettlementRequest): Account
    requires Askable(q)
  {
    With(q, ReserveLedger(Total(q), Total(q), 0, 0, 0)).(
      revision := 1, deposits := Deposited(q))
  }

  function Earned(q: SettlementRequest): Account
    requires Askable(q)
  {
    With(q, ReserveLedger(Total(q), 0, Total(q), 0, 0)).(
      revision := 2, deposits := Deposited(q), receipts := map["r" := Earns(q)])
  }

  function Granted(q: SettlementRequest): Account
    requires Askable(q)
  {
    With(q, ReserveLedger(Total(q), 0, 0, Total(q), 0)).(
      revision := 3, deposits := Deposited(q), receipts := map["r" := Earns(q)],
      settlements := map[q.settlementId := SettlementRecord(q, AuthorizationFor(q, Total(q), 1), Pending)])
  }

  lemma LettersAreNotBlank()
    ensures !Blank("d") && !Blank("r") && !Blank("s")
  {
    assert !IsWhite("d"[0]) && !IsWhite("r"[0]) && !IsWhite("s"[0]);
  }

  lemma Start(q: SettlementRequest)
    requires Askable(q)
    ensures New(PolicyFor(q)) == Ok(With(q, ReserveLedger(0, 0, 0, 0, 0)))
  {
    hide Blank;
    var p := PolicyFor(q).issuers;
    assert p[1..] == [];
    assert AddIssuers(map[], p) == AddIssuers(map[][q.issuer := NewIssuer(Issuer(q))], p[1..]);
    assert map[][q.issuer := NewIssuer(Issuer(q))] == map[q.issuer := NewIssuer(Issuer(q))];
  }

  lemma DepositFits(l: ReserveLedger, amount: u64)
    requires l.totalDeposited == 0 && l.available == 0
    ensures l.Deposit(amount) == Ok(l.(totalDeposited := amount, available := amount))
  {
    assert l.totalDeposited + amount <= U64_MAX && l.available + amount <= U64_MAX;
  }

  lemma Funding(q: SettlementRequest, s: IssuerState)
    requires Askable(q) && s.reserve.totalDeposited == 0 && s.reserve.available == 0
    ensures AddBacking(s, Funds(q))
            == Ok(s.(reserve := s.reserve.(totalDeposited := Total(q), available := Total(q))))
  {
    hide Blank, Askable, ReserveLedger.Deposit;
    DepositFits(s.reserve, Total(q));
  }

  lemma FirstCall(q: SettlementRequest)
    requires Askable(q)
    ensures Step(With(q, ReserveLedger(0, 0, 0, 0, 0)), Calls(q)[0]) == Funded(q)
  {
    LettersAreNotBlank();
    hide Blank, AddBacking;
    var i := With(q, ReserveLedger(0, 0, 0, 0, 0)).issuers;
    Funding(q, i[q.issuer]);
    assert i[q.issuer := i[q.issuer].(reserve := ReserveLedger(Total(q), Total(q), 0, 0, 0))] == Funded(q).issuers;
  }

  lemma SecondCall(q: SettlementRequest)
    requires Askable(q)
    ensures Step(Funded(q), Calls(q)[1]) == Earned(q)
  {
    LettersAreNotBlank();
    hide Blank;
    var i := Funded(q).issuers;
    assert i[q.issuer := i[q.issuer].(reserve := ReserveLedger(Total(q), 0, Total(q), 0, 0))] == Earned(q).issuers;
  }

  lemma ThirdCall(q: SettlementRequest)
    requires Askable(q)
    ensures Step(Earned(q), Calls(q)[2]) == Granted(q)
  {
    hide Blank;
    var i := Earned(q).issuers;
    assert i[q.issuer := i[q.issuer].(reserve := ReserveLedger(Total(q), 0, 0, Total(q), 0))] == Granted(q).issuers;
  }

  /** Every askable request is granted, and pending, in an account that made three calls. */
  lemma EveryAskableIsGranted(q: SettlementRequest)
    requires Askable(q)
    ensures New(PolicyFor(q)).Ok? && Run(New(PolicyFor(q)).value, Calls(q)) == Granted(q)
    ensures q.settlementId in Granted(q).settlements
    ensures Granted(q).settlements[q.settlementId].status == Pending
    ensures Granted(q).settlements[q.settlementId].authorization == AuthorizationFor(q, Total(q), 1)
  {
    Start(q);
    FirstCall(q);
    SecondCall(q);
    ThirdCall(q);
    hide Step, New, Funded, Earned, With;
    var calls := Calls(q);
    assert calls[1..][0] == calls[1] && calls[1..][1..] == [calls[2]];
    assert Run(Earned(q), [calls[2]]) == Run(Granted(q), []);
  }

  // ---------------------------------------------------------------- granted, and never carried out

  /** The adapter refuses the authority, when it binds it or when it normalizes what it bound. */
  predicate RefusedFor(auth: Authorization, route: Route, url: Urls) {
    Bind(auth, route, url).None? || Normalize(Bind(auth, route, url).value, url).None?
  }

  lemma RefusedWhen(auth: Authorization, route: Route, url: Urls)
    ensures !CanonicalId(auth.settlementId) || auth.amount * 1000 > U64_MAX
            || url(auth.payoutDestination) != Some(auth.payoutDestination)
            ==> RefusedFor(auth, route, url)
  {
    hide Trim, Blank;
  }

  /**
   * Whatever the id, the payout and the amount, an account grants it; and if the id is not canonical, the
   * payout not a canonical URL or the amount too large in msat, no route carries it out.
   */
  lemma GrantedYetRefused(q: SettlementRequest, route: Route, url: Urls)
    requires Askable(q)
    requires !CanonicalId(q.settlementId) || q.amount * 1000 > U64_MAX
             || url(q.payoutDestination) != Some(q.payoutDestination)
    ensures New(PolicyFor(q)).Ok?
    ensures var a := Run(New(PolicyFor(q)).value, Calls(q));
            && q.settlementId in a.settlements && a.settlements[q.settlementId].status.Pending?
            && RefusedFor(a.settlements[q.settlementId].authorization, route, url)
  {
    EveryAskableIsGranted(q);
    RefusedWhen(AuthorizationFor(q, Total(q), 1), route, url);
    hide New, Run, RefusedFor, Granted;
  }

  const SPACED := SettlementRequest("s 1", "a", "p", "x", 1, 0, 2)

  /** A space in the id is enough: the settlement is pending, and no route and no normalizer can pay it. */
  lemma SpacedIdIsNeverCarriedOut()
    ensures Askable(SPACED) && New(PolicyFor(SPACED)).Ok?
    ensures var a := Run(New(PolicyFor(SPACED)).value, Calls(SPACED));
            && "s 1" in a.settlements && a.settlements["s 1"].status.Pending?
            && forall route, url :: RefusedFor(a.settlements["s 1"].authorization, route, url)
  {
    SpacedIsAskable();
    hide New, Run, RefusedFor, Askable, CanonicalId;
    EveryAskableIsGranted(SPACED);
    var a := Run(New(PolicyFor(SPACED)).value, Calls(SPACED));
    forall route, url
      ensures RefusedFor(a.settlements["s 1"].authorization, route, url)
    {
      GrantedYetRefused(SPACED, route, url);
    }
  }

  lemma SpacedIsAskable()
    ensures Askable(SPACED) && !CanonicalId(SPACED.settlementId)
  {
    assert !IsWhite("s 1"[0]) && !IsWhite("a"[0]) && !IsWhite("p"[0]) && !IsWhite("x"[0]);
    assert !IdByte("s 1"[1]);
  }

  // ---------------------------------------------------------------- two authorities, one transfer

  /**
   * Two authorities that bind stand for the same transfer exactly when they agree on id, payout, amount,
   * maximum fee and source mint: neither the counterparty nor the issuer nor the account is part of it.
   */
  lemma SameTransferExactlyWhen(x: Authorization, y: Authorization, p: Route, q: Route, url: Urls)
    requires Bind(x, p, url).Some? && Bind(y, q, url).Some?
    ensures Bind(x, p, url) == Bind(y, q, url)
            <==> && x.settlementId == y.settlementId && x.payoutDestination == y.payoutDestination
                 && x.amount == y.amount && x.maxFee == y.maxFee
                 && url(p.sourceMint) == url(q.sourceMint)
  {
    hide Trim, Blank;
  }

  /** When two pending authorities share a transfer, its one return completes both, each exactly. */
  lemma OneTransferSettlesBoth(first: AccountPolicy, ops: seq<Op>, second: AccountPolicy, ops': seq<Op>,
                               run: SagaProtocol.Run, j: nat, p: Route, q: Route, url: Urls)
    requires New(first).Ok? && New(second).Ok? && SagaProtocol.Path(SagaProtocol.NOTHING, run)
    requires j < |SagaProtocol.End(SagaProtocol.NOTHING, run).returned|
    ensures var a, b := Run(New(first).value, ops), Run(New(second).value, ops');
            var (id, transfer) := SagaProtocol.End(SagaProtocol.NOTHING, run).returned[j];
            && id in a.settlements && a.settlements[id].status.Pending? && a.revision < U64_MAX
            && id in b.settlements && b.settlements[id].status.Pending? && b.revision < U64_MAX
            && Bind(a.settlements[id].authorization, p, url) == Some(transfer.request)
            && Bind(b.settlements[id].authorization, q, url) == Some(transfer.request)
            ==>
              && Complete(a, id, transfer.feePaid).Ok? && Complete(b, id, transfer.feePaid).Ok?
              && Settled(a, Complete(a, id, transfer.feePaid).value.account, id, transfer.feePaid)
              && Settled(b, Complete(b, id, transfer.feePaid).value.account, id, transfer.feePaid)
  {
    hide *;
    EveryReturnedTransferSettles(first, ops, run, j, j, p, url);
    EveryReturnedTransferSettles(second, ops', run, j, j, q, url);
  }

  const ONE := SettlementRequest("s", "a", "p", "x", 1, 0, 2)
  const OTHER := SettlementRequest("s", "a", "q", "x", 1, 0, 2)

  /** The account of `q` holds `q` pending, and its authority binds to `transfer`. */
  predicate PendingFor(q: SettlementRequest, a: Account, route: Route, url: Urls, transfer: SagaProtocol.Request) {
    && a.counterparty == q.counterparty && q.settlementId in a.settlements
    && a.settlements[q.settlementId].status.Pending?
    && Bind(a.settlements[q.settlementId].authorization, route, url) == Some(transfer)
  }

  /** Two accounts of different counterparties do grant authorities that share a transfer. */
  lemma TwoAccountsShareOneTransfer(route: Route, url: Urls)
    requires url(route.sourceMint).Some? && url("x") == Some("x") && route.issuer == "a"
    ensures ONE.counterparty != OTHER.counterparty && Askable(ONE) && Askable(OTHER)
    ensures New(PolicyFor(ONE)).Ok? && New(PolicyFor(OTHER)).Ok?
    ensures var transfer := SagaProtocol.Request("s", url(route.sourceMint).value, "x", 1, 0);
            && PendingFor(ONE, Run(New(PolicyFor(ONE)).value, Calls(ONE)), route, url, transfer)
            && PendingFor(OTHER, Run(New(PolicyFor(OTHER)).value, Calls(OTHER)), route, url, transfer)
  {
    hide New, Run, Askable, PendingFor, Calls, PolicyFor;
    PlainGrantBinds(ONE, route, url);
    PlainGrantBinds(OTHER, route, url);
  }

  lemma PlainGrantBinds(q: SettlementRequest, route: Route, url: Urls)
    requires Plain(q)
    requires url(route.sourceMint).Some? && url("x") == Some("x") && route.issuer == "a"
    ensures Askable(q) && New(PolicyFor(q)).Ok?
    ensures PendingFor(q, Run(New(PolicyFor(q)).value, Calls(q)), route, url,
                       SagaProtocol.Request("s", url(route.sourceMint).value, "x", 1, 0))
  {
    PlainIsAskable(q);
    hide New, Run, Askable, Bind, Calls, PolicyFor;
    EveryAskableIsGranted(q);
    PlainBinds(q, route, url);
  }

  predicate Plain(q: SettlementRequest) {
    && q.settlementId == "s" && q.issuer == "a" && q.payoutDestination == "x"
    && (q.counterparty == "p" || q.counterparty == "q") && q.amount == 1 && q.maxFee == 0 && q.expiresAt == 2
  }

  lemma PlainIsAskable(q: SettlementRequest)
    requires Plain(q)
    ensures Askable(q)
  {
    assert !IsWhite("s"[0]) && !IsWhite("a"[0]) && !IsWhite("x"[0]) && !IsWhite("p"[0]) && !IsWhite("q"[0]);
  }

  lemma PlainBinds(q: SettlementRequest, route: Route, url: Urls)
    requires Plain(q) && Askable(q)
    requires url(route.sourceMint).Some? && url("x") == Some("x") && route.issuer == "a"
    ensures Bind(AuthorizationFor(q, Total(q), 1), route, url)
            == Some(SagaProtocol.Request("s", url(route.sourceMint).value, "x", 1, 0))
  {
    assert !IsWhite("s"[0]);
    TrimKeepsInk("s");
    hide Trim, Blank;
  }
}
