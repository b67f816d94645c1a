/**
 * The link from an account's settlement authority to a cross-mint transfer and back: binding an
 * authorization to one exact transfer, executing or resuming it, and completing the settlement.
 */
module Settlements {
  import opened Base
  import opened Protocol
  import opened Accounts
  import opened Books
  import opened AccountRuns
  import opened AccountTheorems
  import SagaProtocol
  import SagaRuns
  import opened Sagas

  datatype Route = Route(issuer: Id, sourceMint: Id)

  type Urls = string -> Option<string>

  // ---------------------------------------------------------------- binding

  /** The exact transfer an authorization stands for; `url` is the mint-URL normalizer. */
  function Bind(auth: Authorization, route: Route, url: Urls): Option<SagaProtocol.Request> {
    if route.issuer != auth.issuer then None
    else if Trim(auth.settlementId) != auth.settlementId || auth.settlementId == ""
            || Blank(auth.issuer) || Blank(auth.counterparty) then None
    else if auth.amount == 0 then None
    else if auth.amount + auth.maxFee > U64_MAX || auth.reserved != auth.amount + auth.maxFee then None
    else if auth.authorizedAt >= auth.expiresAt then None
    else
      var source :- url(route.sourceMint);
      var destination :- url(auth.payoutDestination);
      if destination != auth.payoutDestination then None
      else Some(SagaProtocol.Request(auth.settlementId, source, destination, auth.amount, auth.maxFee))
  }

  /**
   * Any authority, whoever made it up, binds exactly when it is routed for its issuer, canonical, reserves
   * exactly amount plus maximum fee, was given before its deadline, and names canonical mints.
   */
  lemma BindsExactlyWhen(auth: Authorization, route: Route, url: Urls)
    ensures Bind(auth, route, url).Some? <==>
              && route.issuer == auth.issuer && Trim(auth.settlementId) == auth.settlementId && !Blank(auth.settlementId)
              && !Blank(auth.issuer) && !Blank(auth.counterparty)
              && 0 < auth.amount && auth.reserved == auth.amount + auth.maxFee && auth.authorizedAt < auth.expiresAt
              && url(route.sourceMint).Some? && url(auth.payoutDestination) == Some(auth.payoutDestination)
    ensures Bind(auth, route, url).Some? ==>
              Bind(auth, route, url).value
              == SagaProtocol.Request(auth.settlementId, url(route.sourceMint).value, auth.payoutDestination,
                                      auth.amount, auth.maxFee)
  {
    BlankIsTrimmedAway(auth.settlementId);
    hide Trim, Blank;
  }

  ghost predicate Idempotent(url: Urls) {
    forall u :: url(u).Some? ==> url(url(u).value) == url(u)
  }

  lemma CanonicalIsTrimmed(id: Id)
    requires CanonicalId(id)
    ensures Trim(id) == id
  {
    forall k | 0 <= k < |id|
      ensures !IsWhite(id[k])
    {
      assert IdByte(id[k]);
    }
    TrimKeepsInk(id);
  }

  lemma PendingIsWellFormed(a: Account, id: Id)
    requires Inv(a) && id in a.settlements
    ensures SettlementOk(a.counterparty, id, a.settlements[id])
    ensures !Blank(a.counterparty) && a.settlements[id].request.issuer in a.issuers
    ensures !Blank(a.settlements[id].request.issuer)
  {
    hide LogOk, BooksBalance, RevisionOk, ExposureOk, SettlementOk;
    assert IssuerOk(a.settlements[id].request.issuer, a.issuers[a.settlements[id].request.issuer]);
  }

  lemma NormalizesIff(q: SagaProtocol.Request, url: Urls)
    requires Trim(q.transferId) == q.transferId && q.amount != 0
    requires url(q.sourceMint) == Some(q.sourceMint) && url(q.destinationMint) == Some(q.destinationMint)
    ensures Normalize(q, url).Some?
            <==> CanonicalId(q.transferId) && q.amount * 1000 <= U64_MAX && q.sourceMint != q.destinationMint
  {
    hide Trim;
  }

  lemma BindsIff(counterparty: Id, id: Id, s: SettlementRecord, route: Route, url: Urls)
    requires SettlementOk(counterparty, id, s) && Idempotent(url)
    requires !Blank(counterparty) && !Blank(s.request.issuer)
    ensures var auth := s.authorization;
            (Bind(auth, route, url).Some? && Normalize(Bind(auth, route, url).value, url).Some?)
            <==> (&& route.issuer == auth.issuer && CanonicalId(id) && auth.amount * 1000 <= U64_MAX
                  && url(auth.payoutDestination) == Some(auth.payoutDestination)
                  && url(route.sourceMint).Some? && url(route.sourceMint) != Some(auth.payoutDestination))
  {
    hide Trim, Normalize, CanonicalId, IsWhite;
    if CanonicalId(id) {
      CanonicalIsTrimmed(id);
    }
    assert id != "";
    var bound := Bind(s.authorization, route, url);
    if bound.Some? {
      NormalizesIff(bound.value, url);
    }
  }

  /**
   * Which of the authorities an account grants can be carried out at all: those whose id is canonical,
   * whose payout is a canonical mint URL other than the source, and whose amount fits in msat.
   */
  lemma WhichAuthoritiesBind(a: Account, id: Id, route: Route, url: Urls)
    requires Inv(a) && id in a.settlements && Idempotent(url)
    ensures var auth := a.settlements[id].authorization;
            (Bind(auth, route, url).Some? && Normalize(Bind(auth, route, url).value, url).Some?)
            <==> (&& route.issuer == auth.issuer && CanonicalId(id) && auth.amount * 1000 <= U64_MAX
                  && url(auth.payoutDestination) == Some(auth.payoutDestination)
                  && url(route.sourceMint).Some? && url(route.sourceMint) != Some(auth.payoutDestination))
  {
    hide *;
    PendingIsWellFormed(a, id);
    BindsIff(a.counterparty, id, a.settlements[id], route, url);
  }

  /** Normalization leaves a bound request alone, so the transfer runs under the settlement's own id. */
  lemma BoundIsNormal(auth: Authorization, route: Route, url: Urls)
    requires Idempotent(url) && Bind(auth, route, url).Some?
    ensures var q := Bind(auth, route, url).value;
            Normalize(q, url).Some? ==> Normalize(q, url).value == q
  {
    hide Trim;
  }

  // ---------------------------------------------------------------- what a resumption cannot do

  lemma StepStartsNothing(w: SagaProtocol.World, l: SagaProtocol.Label, w': SagaProtocol.World)
    requires SagaProtocol.Does(w, l, w') && !l.Confirm? && !l.Begin?
    ensures w'.confirms == w.confirms && w'.kv.Keys == w.kv.Keys
  {
    hide SagaProtocol.ExactAmount, SagaProtocol.Issued;
  }

  lemma {:induction false} NothingStarted(w: SagaProtocol.World, before: SagaProtocol.Run, run: SagaProtocol.Run)
    requires SagaProtocol.Path(w, run) && SagaRuns.Grows(before, run, false)
    ensures SagaProtocol.End(w, run).confirms == SagaProtocol.End(w, before).confirms
    ensures SagaProtocol.End(w, run).kv.Keys == SagaProtocol.End(w, before).kv.Keys
    decreases |run|
  {
    hide SagaProtocol.Does;
    if |run| > |before| {
      var last := |run| - 1;
      var shorter := run[..last];
      assert forall k :: |before| <= k < |shorter| ==> shorter[k] == run[k];
      NothingStarted(w, before, shorter);
      StepStartsNothing(SagaProtocol.End(w, shorter), run[last].0, run[last].1);
    } else {
      assert run == before;
    }
  }

  // ---------------------------------------------------------------- execution

  /**
   * Executes the transfer of one authority, or only resumes it once the authority has expired. A result
   * answers the bound request exactly; an expired authority confirms no payment and begins no saga.
   */
  method Execute(service: TransferService, auth: Authorization, route: Route, url: Urls, now: u64)
    returns (r: Ending)
    requires service.Recorded()
    modifies service
    ensures service.Recorded() && old(service.run) <= service.run
    ensures SagaRuns.Careful(old(service.run), service.run, r.Returned?)
    ensures auth.expiresAt <= now ==>
              && service.world.confirms == old(service.world.confirms)
              && service.world.kv.Keys == old(service.world.kv.Keys)
    ensures Bind(auth, route, url).None? ==> r == Refused && service.run == old(service.run)
    ensures r.Returned? ==>
              && Bind(auth, route, url) == Some(r.result.request)
              && Concluded(service.world, service.run, auth.settlementId, r.result)
  {
    hide Bind, SagaProtocol.Path, SagaProtocol.Good, Concluded, SagaProtocol.Does, SagaRuns.CarefulAt;
    var bound := Bind(auth, route, url);
    if bound.None? { return Refused; }
    var normal := Normalize(bound.value, url);
    if normal.None? { return Refused; }
    r := service.Attempt(normal.value, !(auth.expiresAt <= now));
    if auth.expiresAt <= now {
      NothingStarted(SagaProtocol.NOTHING, old(service.run), service.run);
    }
    if r.Returned? && (r.result.request != bound.value || r.result.feePaid > bound.value.maxFee) {
      SagaRuns.CarefulAnyway(old(service.run), service.run, true);
      return Refused;
    }
    BoundKeepsId(auth, route, url);
  }

  lemma BoundKeepsId(auth: Authorization, route: Route, url: Urls)
    ensures Bind(auth, route, url).Some? ==>
              && Bind(auth, route, url).value.transferId == auth.settlementId
              && Bind(auth, route, url).value.amount == auth.amount
              && Bind(auth, route, url).value.maxFee == auth.maxFee
  {
  }

  // ---------------------------------------------------------------- every result settles

  lemma ReturnedFee(run: SagaProtocol.Run, j: nat, k: nat)
    requires SagaProtocol.Path(SagaProtocol.NOTHING, run)
    ensures var w := SagaProtocol.End(SagaProtocol.NOTHING, run);
            && (j < |w.returned| ==> w.returned[j].1.feePaid <= w.returned[j].1.request.maxFee)
            && (j < |w.returned| && k < |w.returned| && w.returned[j].0 == w.returned[k].0
                ==> w.returned[j].1 == w.returned[k].1)
  {
    SagaProtocol.ReturnsAgree(run, j, j);
    SagaProtocol.ReturnsAgree(run, j, k);
  }

  lemma SettledIsCompleted(a: Account, b: Account, id: Id, fee: u64)
    requires Settled(a, b, id, fee)
    ensures id in b.settlements && b.settlements[id].status == Completed(fee)
  {
  }

  lemma CompletedAgain(a: Account, id: Id, fee: u64)
    requires id in a.settlements && a.settlements[id].status == Completed(fee)
    ensures Complete(a, id, fee) == Ok(Outcome(a, Done))
  {
  }

  /**
   * Whatever the account and the wallets have been through: a transfer returned for a still pending
   * authority completes it, settling exactly the amount and the fee; and any return for that id, now
   * or from a later retry, is then accepted again without changing the account.
   */
  lemma EveryReturnedTransferSettles(policy: AccountPolicy, ops: seq<Op>, run: SagaProtocol.Run, j: nat, k: nat,
                                     route: Route, url: Urls)
    requires New(policy).Ok? && SagaProtocol.Path(SagaProtocol.NOTHING, run)
    ensures var a, w := Run(New(policy).value, ops), SagaProtocol.End(SagaProtocol.NOTHING, run);
            j < |w.returned| ==>
              var (id, transfer) := w.returned[j];
              && id in a.settlements && a.settlements[id].status.Pending?
              && Bind(a.settlements[id].authorization, route, url) == Some(transfer.request)
              ==>
                if a.revision == U64_MAX then Complete(a, id, transfer.feePaid) == Err(RevisionOverflow)
                else
                  && Complete(a, id, transfer.feePaid).Ok?
                  && var b := Complete(a, id, transfer.feePaid).value.account;
                  && Settled(a, b, id, transfer.feePaid)
                  && (k < |w.returned| && w.returned[k].0 == id ==>
                        Complete(b, id, w.returned[k].1.feePaid) == Ok(Outcome(b, Done)))
  {
    hide *;
    var a, w := Run(New(policy).value, ops), SagaProtocol.End(SagaProtocol.NOTHING, run);
    EveryRunKeepsTheBooks(policy, ops);
    ReturnedFee(run, j, k);
    if j < |w.returned| {
      var (id, transfer) := w.returned[j];
      if id in a.settlements && a.settlements[id].status.Pending?
         && Bind(a.settlements[id].authorization, route, url) == Some(transfer.request)
      {
        BoundKeepsId(a.settlements[id].authorization, route, url);
        PendingMaxFee(a, id);
        PendingCanBeCompleted(a, id, transfer.feePaid);
        if a.revision != U64_MAX {
          SettledIsCompleted(a, Complete(a, id, transfer.feePaid).value.account, id, transfer.feePaid);
          CompletedAgain(Complete(a, id, transfer.feePaid).value.account, id, transfer.feePaid);
        }
      }
    }
  }

  lemma PendingMaxFee(a: Account, id: Id)
    requires Inv(a) && id in a.settlements
    ensures a.settlements[id].authorization.maxFee == a.settlements[id].request.maxFee
  {
    PendingIsWellFormed(a, id);
    hide Inv;
  }
}
