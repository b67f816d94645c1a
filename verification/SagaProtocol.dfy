/**
 * The cross-mint transfer as a protocol over durable state. Every label is one durable step; a crash
 * is a run that stops, since whatever was only in memory is gone and the next attempt starts from
 * what was saved.
 */
module SagaProtocol {
  import opened Base

  // ---------------------------------------------------------------- durable data

  datatype Request = Request(
    transferId: Id, sourceMint: Id, destinationMint: Id, amount: u64, maxFee: u64)

  /** A payment request: whether it parses as BOLT11, and the amount it then carries. */
  datatype PaymentRequest = PaymentRequest(text: string, parses: bool, amountMsat: Option<u64>)

  datatype TransferResult = TransferResult(
    request: Request, meltFeeReserve: u64, walletFee: u64, feePaid: u64,
    sourceQuote: Id, destinationQuote: Id, balanceBefore: u64, balanceAfter: u64)

  datatype Saga = Saga(
    version: nat, request: Request, balanceBefore: u64, destinationQuote: Option<Id>,
    invoice: Option<PaymentRequest>, sourceQuote: Option<Id>, meltFeeReserve: Option<u64>,
    walletFee: Option<u64>, feePaid: Option<u64>, result: Option<TransferResult>)

  const SAGA_VERSION: nat := 1

  datatype MeltState = MeltUnpaid | MeltPending | MeltPaid | MeltOther

  datatype MeltQuote = MeltQuote(request: PaymentRequest, amount: u64, feeReserve: u64, state: MeltState)

  datatype MintState = MintUnpaid | MintPaid | MintIssued

  datatype MintQuote = MintQuote(
    mint: Id, bolt11: bool, sat: bool, amount: Option<u64>, request: PaymentRequest,
    state: MintState, amountIssued: u64)

  /** One call that asked the source mint to pay a melt quote, and the whole fee it had allowed for. */
  datatype Confirmation = Confirmation(
    transferId: Id, quote: Id, invoice: PaymentRequest, amount: u64, preflightFee: nat)

  /**
   * `kv` holds the sagas, `melts` and `mints` the wallets' stored quotes, `payments` the fee of each
   * outgoing wallet transaction by quote. `created`, `confirms` and `returned` record the past: for
   * which transfer a melt quote was asked for, every confirmation, and every result returned.
   */
  datatype World = World(
    kv: map<Id, Saga>, melts: map<Id, MeltQuote>, mints: map<Id, MintQuote>, payments: map<Id, u64>,
    created: map<Id, Id>, confirms: seq<Confirmation>, returned: seq<(Id, TransferResult)>)

  /** The invoice parses and asks for exactly `amount` sats. */
  predicate ExactAmount(p: PaymentRequest, amount: u64) {
    p.parses && amount * 1000 <= U64_MAX && p.amountMsat == Some(amount * 1000)
  }

  function OrZero(n: Option<u64>): u64 { if n.Some? then n.value else 0 }

  // ---------------------------------------------------------------- what the wallets may do

  predicate SameTerms(q: MeltQuote, r: MeltQuote) {
    r.request == q.request && r.amount == q.amount && r.feeReserve == q.feeReserve
  }

  /** Some call has asked the source mint to pay this quote, whatever became of the call. */
  predicate Asked(w: World, q: Id) {
    exists k :: 0 <= k < |w.confirms| && w.confirms[k].quote == q
  }

  /**
   * The wallets and mints acting by themselves: stored terms and transactions survive, and a quote that
   * nobody confirmed and that is not under way stays unpaid, without a transaction. A confirmed quote may
   * turn out paid at any later time, even one still stored as unpaid. Mint quotes are unconstrained.
   */
  predicate Wallets(w: World, w': World) {
    && w'.kv == w.kv && w'.created == w.created && w'.confirms == w.confirms && w'.returned == w.returned
    && (forall q :: q in w.melts ==>
          q in w'.melts && SameTerms(w.melts[q], w'.melts[q])
          && (w.melts[q].state == MeltUnpaid && !Asked(w, q) ==> w'.melts[q].state == MeltUnpaid))
    && (forall q :: q in w.payments ==> q in w'.payments && w'.payments[q] == w.payments[q])
    && (forall q :: q in w'.payments && q !in w.payments && q in w.created ==>
          q in w.melts && (w.melts[q].state != MeltUnpaid || Asked(w, q)))
  }

  /**
   * The contract leaves room for the crash the saga is there for: the process stops inside a
   * confirmation, the quote still reads unpaid, and recovery finds it paid.
   */
  lemma ConfirmedMayTurnOutPaid(w: World, q: Id, fee: u64)
    requires Asked(w, q) && q in w.melts && q !in w.payments
    ensures Wallets(w, w.(melts := w.melts[q := w.melts[q].(state := MeltPaid)], payments := w.payments[q := fee]))
  {
  }

  // ---------------------------------------------------------------- the steps

  datatype Label =
    | Outside
    | Begin(id: Id)
    | BindDestination(id: Id)
    | AskMelt(id: Id, quote: Id)
    | BindSource(id: Id)
    | NoteFees(id: Id)
    | Confirm(id: Id)
    | Finish(id: Id)
    | Return(id: Id)

  /** `w'` is `w` with one saga saved. */
  predicate Saves(w: World, w': World, id: Id, s: Saga) { w' == w.(kv := w.kv[id := s]) }

  predicate Does(w: World, l: Label, w': World) {
    match l
    case Outside => Wallets(w, w')
    case Begin(id) =>
      && id !in w.kv && id in w'.kv
      && var s := w'.kv[id];
      && s == Saga(SAGA_VERSION, s.request, s.balanceBefore, None, None, None, None, None, None, None)
      && s.request.transferId == id && Saves(w, w', id, s)
    case BindDestination(id) =>
      && id in w.kv && w.kv[id].destinationQuote.None? && id in w'.kv
      && var s, s' := w.kv[id], w'.kv[id];
      && s'.destinationQuote.Some? && s'.invoice.Some? && ExactAmount(s'.invoice.value, s.request.amount)
      && s'.destinationQuote.value in w.mints
      && w.mints[s'.destinationQuote.value].amount == Some(s.request.amount)
      && w.mints[s'.destinationQuote.value].request == s'.invoice.value
      && s' == s.(destinationQuote := s'.destinationQuote, invoice := s'.invoice)
      && Saves(w, w', id, s')
    case AskMelt(id, q) =>
      && q !in w.melts && q !in w.created && q !in w.payments && q in w'.melts
      && w'.melts[q].state == MeltUnpaid
      && w' == w.(melts := w.melts[q := w'.melts[q]], created := w.created[q := id])
    case BindSource(id) =>
      && id in w.kv && w.kv[id].sourceQuote.None? && w.kv[id].invoice.Some? && id in w'.kv
      && var s, s' := w.kv[id], w'.kv[id];
      && s'.sourceQuote.Some? && s'.sourceQuote.value in w.created && w.created[s'.sourceQuote.value] == id
      && s'.sourceQuote.value in w.melts && w.melts[s'.sourceQuote.value].amount == s.request.amount
      && w.melts[s'.sourceQuote.value].feeReserve <= s.request.maxFee
      && s'.meltFeeReserve == Some(w.melts[s'.sourceQuote.value].feeReserve)
      && s' == s.(sourceQuote := s'.sourceQuote, meltFeeReserve := s'.meltFeeReserve)
      && Saves(w, w', id, s')
    case NoteFees(id) =>
      && id in w.kv && id in w'.kv && w.kv[id].result.None?
      && w'.kv[id] == w.kv[id].(walletFee := w'.kv[id].walletFee, feePaid := w'.kv[id].feePaid)
      && Saves(w, w', id, w'.kv[id])
    case Confirm(id) =>
      && id in w.kv && w.kv[id].sourceQuote.Some? && w.kv[id].invoice.Some?
      && var s, q := w.kv[id], w.kv[id].sourceQuote.value;
      && q in w.melts
      && w.melts[q].request == s.invoice.value && w.melts[q].amount == s.request.amount
      && s.walletFee.Some? && w.melts[q].feeReserve + s.walletFee.value <= s.request.maxFee
      && q in w'.melts && SameTerms(w.melts[q], w'.melts[q])
      && (q in w.payments ==> q in w'.payments && w'.payments[q] == w.payments[q])
      && w' == w.(melts := w.melts[q := w'.melts[q]],
                  payments := if q in w'.payments then w.payments[q := w'.payments[q]] else w.payments,
                  confirms := w.confirms + [Confirmation(id, q, s.invoice.value, s.request.amount,
                                                         w.melts[q].feeReserve + s.walletFee.value)])
    case Finish(id) =>
      && id in w.kv && w.kv[id].result.None? && id in w'.kv
      && var s, s' := w.kv[id], w'.kv[id];
      && s.sourceQuote.Some? && s.sourceQuote.value in w.payments && Issued(w, id)
      && s'.result.Some? && w.payments[s.sourceQuote.value] <= s.request.maxFee
      && s'.result.value == TransferResult(
           s.request, OrZero(s.meltFeeReserve), OrZero(s.walletFee), w.payments[s.sourceQuote.value],
           s.sourceQuote.value, s.destinationQuote.value, s.balanceBefore, s'.result.value.balanceAfter)
      && s' == s.(result := s'.result)
      && Saves(w, w', id, s')
    case Return(id) =>
      && id in w.kv && w.kv[id].result.Some?
      && w' == w.(returned := w.returned + [(id, w.kv[id].result.value)])
  }

  /** The destination quote of this saga has issued exactly the amount, against the stored invoice. */
  predicate Issued(w: World, id: Id) {
    && id in w.kv && w.kv[id].destinationQuote.Some? && w.kv[id].invoice.Some?
    && w.kv[id].destinationQuote.value in w.mints
    && w.mints[w.kv[id].destinationQuote.value]
       == MintQuote(w.kv[id].request.destinationMint, true, true, Some(w.kv[id].request.amount),
                    w.kv[id].invoice.value, MintIssued, w.kv[id].request.amount)
  }

  /** A run: each entry is a label and the world it leaves. */
  type Run = seq<(Label, World)>

  function End(w: World, run: Run): World { if run == [] then w else run[|run| - 1].1 }

  ghost predicate Path(w: World, run: Run) {
    run != [] ==>
      Path(w, run[..|run| - 1]) && Does(End(w, run[..|run| - 1]), run[|run| - 1].0, run[|run| - 1].1)
  }

  const NOTHING := World(map[], map[], map[], map[], map[], [], [])

  // ---------------------------------------------------------------- the invariant

  ghost predicate SagaOk(w: World, id: Id, s: Saga) {
    && s.request.transferId == id && (s.destinationQuote.Some? ==> s.invoice.Some?)
    && (s.invoice.Some? ==> s.destinationQuote.Some? && ExactAmount(s.invoice.value, s.request.amount))
    && (s.sourceQuote.Some? ==> s.invoice.Some? && s.sourceQuote.value in w.created
                                && w.created[s.sourceQuote.value] == id)
    && (s.result.Some? ==>
          && s.sourceQuote == Some(s.result.value.sourceQuote) && s.result.value.request == s.request
          && s.result.value.sourceQuote in w.payments
          && s.result.value.feePaid == w.payments[s.result.value.sourceQuote] <= s.request.maxFee)
  }

  /** A confirmation was for the quote and the invoice its saga holds. */
  ghost predicate ConfirmOk(w: World, c: Confirmation) {
    && c.transferId in w.kv
    && w.kv[c.transferId].sourceQuote == Some(c.quote) && w.kv[c.transferId].invoice == Some(c.invoice)
    && w.kv[c.transferId].request.amount == c.amount && c.preflightFee <= w.kv[c.transferId].request.maxFee
  }

  ghost predicate ConfirmedFor(w: World, q: Id, id: Id) {
    exists k :: 0 <= k < |w.confirms| && w.confirms[k].quote == q && w.confirms[k].transferId == id
  }

  ghost predicate SagasOk(w: World) { forall id :: id in w.kv ==> SagaOk(w, id, w.kv[id]) }

  ghost predicate ConfirmsOk(w: World) { forall k :: 0 <= k < |w.confirms| ==> ConfirmOk(w, w.confirms[k]) }

  ghost predicate ReturnsOk(w: World) {
    forall k :: 0 <= k < |w.returned| ==>
      w.returned[k].0 in w.kv && w.kv[w.returned[k].0].result == Some(w.returned[k].1)
  }

  /** A melt quote asked for by a transfer leaves the unpaid state only by being confirmed for it. */
  ghost predicate QuotesOk(w: World) {
    forall q :: q in w.created ==>
      && q in w.melts
      && (q in w.payments || w.melts[q].state != MeltUnpaid ==> ConfirmedFor(w, q, w.created[q]))
  }

  ghost predicate Good(w: World) { SagasOk(w) && ConfirmsOk(w) && ReturnsOk(w) && QuotesOk(w) }

  // ---------------------------------------------------------------- every step keeps it

  lemma SagasKeep(w: World, l: Label, w': World)
    requires SagasOk(w) && QuotesOk(w) && Does(w, l, w')
    ensures SagasOk(w')
  {
    hide ExactAmount;
    forall id | id in w'.kv
      ensures SagaOk(w', id, w'.kv[id])
    {
      if id in w.kv {
        assert SagaOk(w, id, w.kv[id]);
      }
    }
  }

  lemma ConfirmsKeep(w: World, l: Label, w': World)
    requires SagasOk(w) && ConfirmsOk(w) && Does(w, l, w')
    ensures ConfirmsOk(w')
  {
    forall k | 0 <= k < |w'.confirms|
      ensures ConfirmOk(w', w'.confirms[k])
    {
      if k < |w.confirms| {
        assert w'.confirms[k] == w.confirms[k] && ConfirmOk(w, w.confirms[k]);
        assert SagaOk(w, w.confirms[k].transferId, w.kv[w.confirms[k].transferId]);
      }
    }
  }

  lemma ReturnsKeep(w: World, l: Label, w': World)
    requires ReturnsOk(w) && Does(w, l, w')
    ensures ReturnsOk(w')
  {
  }

  /** Whatever was asked to be paid was asked for by the transfer the quote was made for. */
  lemma AskedIsConfirmedFor(w: World, q: Id)
    requires SagasOk(w) && ConfirmsOk(w) && Asked(w, q)
    ensures q in w.created && ConfirmedFor(w, q, w.created[q])
  {
    hide ExactAmount;
    var k :| 0 <= k < |w.confirms| && w.confirms[k].quote == q;
    assert ConfirmOk(w, w.confirms[k]);
    assert SagaOk(w, w.confirms[k].transferId, w.kv[w.confirms[k].transferId]);
  }

  lemma QuotesKeep(w: World, l: Label, w': World)
    requires SagasOk(w) && ConfirmsOk(w) && QuotesOk(w) && Does(w, l, w')
    ensures QuotesOk(w')
  {
    hide ExactAmount, Issued, ConfirmsOk;
    forall q | q in w'.created
      ensures q in w'.melts
      ensures q in w'.payments || w'.melts[q].state != MeltUnpaid ==> ConfirmedFor(w', q, w'.created[q])
    {
      if q in w.created && Asked(w, q) {
        AskedIsConfirmedFor(w, q);
        var k :| 0 <= k < |w.confirms| && w.confirms[k].quote == q && w.confirms[k].transferId == w.created[q];
        assert w'.confirms[k] == w.confirms[k];
      }
      if q in w.created && ConfirmedFor(w, q, w.created[q]) {
        assert Asked(w, q);
      }
      if l.Confirm? && w.kv[l.id].sourceQuote == Some(q) {
        assert SagaOk(w, l.id, w.kv[l.id]);
        assert w'.confirms[|w.confirms|].quote == q;
      }
    }
  }

  lemma StepKeeps(w: World, l: Label, w': World)
    requires Good(w) && Does(w, l, w')
    ensures Good(w')
  {
    hide SagasOk, ConfirmsOk, ReturnsOk, QuotesOk, Does;
    SagasKeep(w, l, w');
    ConfirmsKeep(w, l, w');
    ReturnsKeep(w, l, w');
    QuotesKeep(w, l, w');
  }

  lemma {:induction false} PathKeeps(w: World, run: Run)
    requires Good(w) && Path(w, run)
    ensures Good(End(w, run))
  {
    hide Good, Does;
    if run != [] {
      var before := run[..|run| - 1];
      PathKeeps(w, before);
      StepKeeps(End(w, before), run[|run| - 1].0, run[|run| - 1].1);
    }
  }

  lemma NothingIsGood()
    ensures Good(NOTHING)
  {
  }

  // ---------------------------------------------------------------- the promises

  /**
   * Over every run of attempts, retries and crashes: all confirmations for a transfer are of one melt
   * quote, for the same invoice, of the exact amount its request asked for, and none was made without
   * room for its whole fee under the request's maximum.
   */
  lemma AtMostOneQuoteIsConfirmed(run: Run, j: nat, k: nat)
    requires Path(NOTHING, run)
    ensures var w := End(NOTHING, run);
            && (j < |w.confirms| ==> ExactAmount(w.confirms[j].invoice, w.confirms[j].amount))
            && (j < |w.confirms| && k < |w.confirms| && w.confirms[j].transferId == w.confirms[k].transferId
                ==>
                  && w.confirms[j].quote == w.confirms[k].quote && w.confirms[j].invoice == w.confirms[k].invoice
                  && w.confirms[j].amount == w.confirms[k].amount)
            && (j < |w.confirms| ==>
                  && w.confirms[j].transferId in w.kv
                  && w.confirms[j].preflightFee <= w.kv[w.confirms[j].transferId].request.maxFee)
  {
    NothingIsGood();
    PathKeeps(NOTHING, run);
    hide Path, ReturnsOk, QuotesOk, ExactAmount;
    var w := End(NOTHING, run);
    if j < |w.confirms| {
      assert ConfirmOk(w, w.confirms[j]);
      assert SagaOk(w, w.confirms[j].transferId, w.kv[w.confirms[j].transferId]);
      if k < |w.confirms| {
        assert ConfirmOk(w, w.confirms[k]);
      }
    }
  }

  /** Of all the melt quotes a transfer ever asked for, at most one is ever paid. */
  lemma AtMostOneQuoteIsPaid(run: Run, p: Id, q: Id)
    requires Path(NOTHING, run)
    ensures var w := End(NOTHING, run);
            && p in w.payments && q in w.payments && p in w.created && q in w.created
            && w.created[p] == w.created[q]
            ==> p == q
  {
    NothingIsGood();
    PathKeeps(NOTHING, run);
    hide Path, ReturnsOk, ExactAmount, SagasOk;
    var w := End(NOTHING, run);
    if p in w.payments && q in w.payments && p in w.created && q in w.created && w.created[p] == w.created[q] {
      assert ConfirmedFor(w, p, w.created[p]) && ConfirmedFor(w, q, w.created[q]);
      var j :| 0 <= j < |w.confirms| && w.confirms[j].quote == p && w.confirms[j].transferId == w.created[p];
      var k :| 0 <= k < |w.confirms| && w.confirms[k].quote == q && w.confirms[k].transferId == w.created[q];
      assert ConfirmOk(w, w.confirms[j]) && ConfirmOk(w, w.confirms[k]);
    }
  }

  /** Every successful return for a transfer id is the same result, with a fee within the maximum. */
  lemma ReturnsAgree(run: Run, j: nat, k: nat)
    requires Path(NOTHING, run)
    ensures var w := End(NOTHING, run);
            j < |w.returned| && k < |w.returned| && w.returned[j].0 == w.returned[k].0 ==>
              && w.returned[j].1 == w.returned[k].1
              && w.returned[j].1.request.transferId == w.returned[j].0
              && w.returned[j].1.feePaid <= w.returned[j].1.request.maxFee
  {
    NothingIsGood();
    PathKeeps(NOTHING, run);
    hide Path, ConfirmsOk, QuotesOk, ExactAmount;
    var w := End(NOTHING, run);
    if j < |w.returned| && k < |w.returned| && w.returned[j].0 == w.returned[k].0 {
      assert SagaOk(w, w.returned[j].0, w.kv[w.returned[j].0]);
    }
  }

  lemma ResultsComeFromFinish(w: World, l: Label, w': World, id: Id)
    requires Does(w, l, w') && id in w'.kv && w'.kv[id].result.Some?
    ensures if l == Finish(id) then Issued(w, id) else id in w.kv && w.kv[id].result == w'.kv[id].result
  {
    hide ExactAmount, Issued;
  }

  /** No saga holds a result unless the destination had issued the exact amount when it was saved. */
  lemma {:induction false} ResultsWereIssued(run: Run, id: Id)
    requires Path(NOTHING, run) && id in End(NOTHING, run).kv && End(NOTHING, run).kv[id].result.Some?
    ensures exists k :: 0 <= k < |run| && run[k].0 == Finish(id) && Issued(End(NOTHING, run[..k]), id)
                        && id in run[k].1.kv && run[k].1.kv[id].result == End(NOTHING, run).kv[id].result
  {
    hide Does, Issued;
    var n := |run| - 1;
    var before := run[..n];
    ResultsComeFromFinish(End(NOTHING, before), run[n].0, run[n].1, id);
    if run[n].0 != Finish(id) {
      ResultsWereIssued(before, id);
      var k :| 0 <= k < |before| && before[k].0 == Finish(id) && Issued(End(NOTHING, before[..k]), id)
               && id in before[k].1.kv && before[k].1.kv[id].result == End(NOTHING, before).kv[id].result;
      assert before[..k] == run[..k] && before[k] == run[k];
    }
  }

  /**
   * No paid and issued transfer is stuck: from where it stands some step finishes it, and its result can
   * then be returned, exactly when the fee that was paid is within the maximum.
   */
  lemma PaidTransferCanConclude(w: World, id: Id)
    requires Issued(w, id) && w.kv[id].result.None? && w.kv[id].sourceQuote.Some?
    requires w.kv[id].sourceQuote.value in w.payments
    ensures (exists w' :: Does(w, Finish(id), w'))
            <==> w.payments[w.kv[id].sourceQuote.value] <= w.kv[id].request.maxFee
    ensures forall w' :: Does(w, Finish(id), w') ==> exists w'' :: Does(w', Return(id), w'')
  {
    hide Wallets;
    var s := w.kv[id];
    if w.payments[s.sourceQuote.value] <= s.request.maxFee {
      var result := TransferResult(s.request, OrZero(s.meltFeeReserve), OrZero(s.walletFee),
                                   w.payments[s.sourceQuote.value], s.sourceQuote.value,
                                   s.destinationQuote.value, s.balanceBefore, 0);
      assert Does(w, Finish(id), w.(kv := w.kv[id := s.(result := Some(result))]));
    }
    forall w' | Does(w, Finish(id), w')
      ensures exists w'' :: Does(w', Return(id), w'')
    {
      assert Does(w', Return(id), w'.(returned := w'.returned + [(id, w'.kv[id].result.value)]));
    }
  }
}
