/**
 * One attempt at a cross-mint transfer, as it runs: recover, load or begin the saga, bind the two
 * quotes, pay the source quote, issue at the destination, record and return the result. The process
 * may stop before or after any durable effect, and any wallet call may fail or act on the wallets.
 */
module Sagas {
  import opened Base
  import opened SagaProtocol
  import opened SagaRuns

  datatype Ending = Returned(result: TransferResult) | Refused | Crashed

  // ---------------------------------------------------------------- request normalization

  predicate IdByte(c: char) {
    'a' <= c <= 'z' || 'A' <= c <= 'Z' || '0' <= c <= '9' || c == '-' || c == '_'
  }

  /** The normalized request; `url` stands for the mint-URL normalizer. */
  function Normalize(r: Request, url: string -> Option<string>): Option<Request> {
    var id := Trim(r.transferId);
    if id == "" || |id| > 128 || exists k :: 0 <= k < |id| && !IdByte(id[k]) then None
    else if r.amount == 0 || r.amount * 1000 > U64_MAX then None
    else
      var source :- url(r.sourceMint);
      var destination :- url(r.destinationMint);
      if source == destination then None
      else Some(Request(id, source, destination, r.amount, r.maxFee))
  }

  predicate CanonicalId(id: Id) {
    0 < |id| <= 128 && forall k :: 0 <= k < |id| ==> IdByte(id[k])
  }

  /** A request is normalized exactly when its trimmed id is canonical, its amount fits and its mints differ. */
  lemma NormalizesExactlyWhen(r: Request, url: string -> Option<string>)
    ensures Normalize(r, url).Some? <==>
              && CanonicalId(Trim(r.transferId)) && 0 < r.amount && r.amount * 1000 <= U64_MAX
              && url(r.sourceMint).Some? && url(r.destinationMint).Some? && url(r.sourceMint) != url(r.destinationMint)
    ensures Normalize(r, url).Some? ==>
              Normalize(r, url).value == Request(Trim(r.transferId), url(r.sourceMint).value,
                                                 url(r.destinationMint).value, r.amount, r.maxFee)
  {
    hide Trim;
  }

  lemma {:induction false} TrimKeepsInk(s: string)
    requires forall k :: 0 <= k < |s| ==> !IsWhite(s[k])
    ensures Trim(s) == s
  {
  }

  /** Normalizing an already normalized request changes nothing, for an idempotent URL normalizer. */
  lemma NormalizeIsIdempotent(r: Request, url: string -> Option<string>)
    requires forall u :: url(u).Some? ==> url(url(u).value) == url(u)
    ensures Normalize(r, url).Some? ==> Normalize(Normalize(r, url).value, url) == Normalize(r, url)
  {
    if Normalize(r, url).Some? {
      var id := Trim(r.transferId);
      forall k | 0 <= k < |id|
        ensures !IsWhite(id[k])
      {
        assert IdByte(id[k]);
      }
      TrimKeepsInk(id);
    }
  }

  // ---------------------------------------------------------------- the running process

  lemma WalletsCompose(w: World, w1: World, w2: World)
    requires Wallets(w, w1) && Wallets(w1, w2)
    requires forall q :: q in w.created ==> q in w.melts
    ensures Wallets(w, w2)
  {
  }

  /** What one phase of an attempt leaves alone. */
  ghost predicate SameTransfer(w: World, w': World, id: Id) {
    && id in w.kv && id in w'.kv && w'.returned == w.returned
    && w'.kv[id].request == w.kv[id].request && w'.kv[id].result == w.kv[id].result
  }

  ghost predicate SameQuotes(w: World, w': World, id: Id) {
    && id in w.kv && id in w'.kv
    && w'.kv[id].destinationQuote == w.kv[id].destinationQuote && w'.kv[id].invoice == w.kv[id].invoice
    && w'.kv[id].sourceQuote == w.kv[id].sourceQuote && w'.kv[id].meltFeeReserve == w.kv[id].meltFeeReserve
  }

  /** The saga's source quote is stored, for its invoice, its exact amount and its noted fee reserve. */
  ghost predicate SourceMatches(w: World, id: Id) {
    && id in w.kv && w.kv[id].invoice.Some? && w.kv[id].sourceQuote.Some?
    && w.kv[id].sourceQuote.value in w.melts
    && var q := w.melts[w.kv[id].sourceQuote.value];
    && q.request == w.kv[id].invoice.value && q.amount == w.kv[id].request.amount
    && w.kv[id].meltFeeReserve == Some(q.feeReserve)
  }

  lemma SourceStays(w: World, w': World, id: Id)
    requires Wallets(w, w') && SourceMatches(w, id)
    ensures SourceMatches(w', id) && SameTransfer(w, w', id) && SameQuotes(w, w', id)
    ensures w'.kv == w.kv && w'.melts[w.kv[id].sourceQuote.value].feeReserve == w.melts[w.kv[id].sourceQuote.value].feeReserve
  {
  }

  lemma SameSagas(w: World, w': World)
    requires Wallets(w, w')
    ensures w'.kv == w.kv
  {
  }

  lemma SagasStay(w: World, w': World, id: Id)
    requires Wallets(w, w') && id in w.kv
    ensures w'.kv == w.kv && SameTransfer(w, w', id) && SameQuotes(w, w', id)
  {
  }

  /** The transfer stands where it can be concluded: paid as bound, issued as bound, the fee within the limit. */
  ghost predicate Concludable(w: World, id: Id) {
    && SourceMatches(w, id) && Issued(w, id) && w.kv[id].sourceQuote.value in w.payments
    && w.payments[w.kv[id].sourceQuote.value] <= w.kv[id].request.maxFee
  }

  /** The id is bound to another request, or no saga may be begun for it. */
  ghost predicate NotThisTransfer(w: World, request: Request, mayStart: bool) {
    if request.transferId in w.kv then
      w.kv[request.transferId].version != SAGA_VERSION || w.kv[request.transferId].request != request
    else !mayStart
  }

  lemma PaymentsStay(w: World, w': World)
    requires Wallets(w, w')
    ensures forall q :: q in w.payments ==> q in w'.payments
  {
  }

  lemma BoundDestination(w: World, id: Id)
    requires Good(w) && id in w.kv && w.kv[id].destinationQuote.Some?
    ensures w.kv[id].invoice.Some? && ExactAmount(w.kv[id].invoice.value, w.kv[id].request.amount)
  {
    hide ExactAmount;
    assert SagaOk(w, id, w.kv[id]);
  }

  lemma CreatedAreStored(w: World)
    requires Good(w)
    ensures forall q :: q in w.created ==> q in w.melts
  {
  }

  /**
   * The attempt ended by returning `result` for transfer `id`: every return for it is this one, and every
   * payment ever confirmed for it was of this result's source quote, for the exact amount.
   */
  ghost predicate Concluded(w: World, run: Run, id: Id, result: TransferResult) {
    && run != [] && run[|run| - 1].0 == Return(id)
    && w.returned != [] && w.returned[|w.returned| - 1] == (id, result)
    && result.request.transferId == id && result.feePaid <= result.request.maxFee
    && (forall k :: 0 <= k < |w.returned| && w.returned[k].0 == id ==> w.returned[k].1 == result)
    && (forall k :: 0 <= k < |w.confirms| && w.confirms[k].transferId == id ==>
          && w.confirms[k].quote == result.sourceQuote && w.confirms[k].amount == result.request.amount
          && ExactAmount(w.confirms[k].invoice, result.request.amount))
  }

  lemma GoodConcludes(w: World, run: Run, id: Id, result: TransferResult)
    requires Good(w) && run != [] && run[|run| - 1].0 == Return(id)
    requires w.returned != [] && w.returned[|w.returned| - 1] == (id, result)
    ensures Concluded(w, run, id, result) && w.kv[id].result == Some(result)
  {
    hide ExactAmount, QuotesOk;
    assert SagaOk(w, id, w.kv[id]);
    forall k | 0 <= k < |w.confirms| && w.confirms[k].transferId == id
      ensures w.confirms[k].quote == result.sourceQuote && w.confirms[k].amount == result.request.amount
      ensures ExactAmount(w.confirms[k].invoice, result.request.amount)
    {
      assert ConfirmOk(w, w.confirms[k]);
    }
  }

  class TransferService {
    /** Everything that survives a crash. */
    var world: World
    /** Every durable step so far, from an empty store. */
    ghost var run: Run
    /** How often the process stopped, or a wallet or a mint failed or gave an answer that is no use. */
    ghost var setbacks: nat

    ghost predicate Recorded()
      reads this
    {
      Path(NOTHING, run) && End(NOTHING, run) == world && Good(world)
    }

    constructor ()
      ensures Recorded() && world == NOTHING && run == []
    {
      world, run, setbacks := NOTHING, [], 0;
      NothingIsGood();
    }

    /** One durable step. The process may stop just before it or just after it. */
    method Effect(ghost l: Label, next: World) returns (alive: bool)
      requires Recorded() && Does(world, l, next)
      modifies this
      ensures Recorded()
      ensures alive ==> world == next
      ensures (run == old(run) && world == old(world)) || (run == old(run) + [(l, next)] && world == next)
      ensures alive ==> run == old(run) + [(l, next)]
      ensures setbacks >= old(setbacks) && (alive <==> setbacks == old(setbacks))
    {
      hide Good, Does;
      setbacks := setbacks + 1;
      if * { return false; }
      PathExtends(NOTHING, run, l, next);
      StepKeeps(world, l, next);
      world, run := next, run + [(l, next)];
      if * { return false; }
      setbacks := setbacks - 1;
      return true;
    }

    /** A wallet call: the wallets may move on within their contract, and the call may fail. */
    method WalletCall() returns (alive: bool, ok: bool)
      requires Recorded()
      modifies this
      ensures Recorded() && Grows(old(run), run, false)
      ensures Wallets(old(world), world)
      ensures setbacks >= old(setbacks) && (!alive || !ok ==> setbacks > old(setbacks))
    {
      hide Good, Path;
      var next: World := *;
      if !Wallets(world, next) {
        next := world;
      }
      alive := Effect(Outside, next);
      ok := *;
      if !ok {
        setbacks := setbacks + 1;
      }
    }

    /** Hands the stored result to the caller. */
    method ReturnStored(id: Id) returns (alive: bool)
      requires Recorded() && id in world.kv && world.kv[id].result.Some?
      modifies this
      ensures Recorded() && Grows(old(run), run, false)
      ensures setbacks >= old(setbacks) && (!alive ==> setbacks > old(setbacks))
      ensures alive ==> Concluded(world, run, id, old(world.kv[id].result.value))
      ensures old(world.kv[id].result.value).request == old(world.kv[id].request)
    {
      hide Path;
      assert SagaOk(world, id, world.kv[id]);
      hide Good, Concluded;
      alive := Effect(Return(id), world.(returned := world.returned + [(id, world.kv[id].result.value)]));
      if alive {
        GoodConcludes(world, run, id, old(world.kv[id].result.value));
      }
    }

    /** Loads the saga of this id, or begins one if allowed; a stored result ends the attempt. */
    method LoadOrBegin(request: Request, mayStart: bool) returns (r: Option<Ending>)
      requires Recorded()
      modifies this
      ensures Recorded() && Grows(old(run), run, mayStart) && Quiet(old(run), run)
      ensures setbacks >= old(setbacks) && (r == Some(Crashed) ==> setbacks > old(setbacks))
      ensures r == Some(Refused) <==> NotThisTransfer(old(world), request, mayStart)
      ensures r.None? ==> request.transferId in world.kv && world.kv[request.transferId].request == request
                          && world.kv[request.transferId].result.None?
      ensures r.Some? && r.value.Returned? ==>
                Concluded(world, run, request.transferId, r.value.result) && r.value.result.request == request
    {
      hide Path, Good, Concluded;
      var id := request.transferId;
      if id in world.kv {
        var saga := world.kv[id];
        if saga.version != SAGA_VERSION || saga.request != request {
          return Some(Refused);
        }
        if saga.result.Some? {
          var alive := ReturnStored(id);
          return Some(if alive then Returned(saga.result.value) else Crashed);
        }
        return None;
      }
      if !mayStart {
        return Some(Refused);
      }
      var balance: u64 := *;
      var saga := Saga(SAGA_VERSION, request, balance, None, None, None, None, None, None, None);
      var alive := Effect(Begin(id), world.(kv := world.kv[id := saga]));
      return if alive then None else Some(Crashed);
    }

    /** Asks the destination mint for a quote, which its wallet stores. One for another amount is no use. */
    method AskForMintQuote(id: Id) returns (alive: bool, answer: Option<Id>)
      requires Recorded() && id in world.kv
      modifies this
      ensures Recorded() && Grows(old(run), run, false)
      ensures world.kv == old(world.kv) && world.returned == old(world.returned)
      ensures setbacks >= old(setbacks) && (!alive || answer.None? ==> setbacks > old(setbacks))
      ensures answer.Some? ==> answer.value in world.mints
      ensures answer.Some? && setbacks == old(setbacks) ==>
                && world.mints[answer.value].amount == Some(world.kv[id].request.amount)
                && ExactAmount(world.mints[answer.value].request, world.kv[id].request.amount)
    {
      hide Path, Good, ExactAmount;
      var ok;
      alive, ok := WalletCall();
      var quoteId: Id := *;
      answer := if ok && quoteId in world.mints then Some(quoteId) else None;
      if answer.None? || world.mints[quoteId].amount != Some(world.kv[id].request.amount)
         || !ExactAmount(world.mints[quoteId].request, world.kv[id].request.amount)
      {
        setbacks := setbacks + 1;
      }
    }

    /** Asks for an exact destination quote and saves it with its invoice, unless that is done already. */
    method EnsureDestination(id: Id) returns (r: Option<Ending>)
      requires Recorded() && id in world.kv
      modifies this
      ensures Recorded() && Grows(old(run), run, false) && SameTransfer(old(world), world, id)
      ensures setbacks >= old(setbacks) && (r.Some? ==> setbacks > old(setbacks) && !r.value.Returned?)
      ensures r.None? ==> world.kv[id].destinationQuote.Some? && world.kv[id].invoice.Some?
                          && ExactAmount(world.kv[id].invoice.value, world.kv[id].request.amount)
    {
      hide Path, Good, ExactAmount;
      var request := world.kv[id].request;
      if world.kv[id].destinationQuote.None? {
        var alive, answer := AskForMintQuote(id);
        if !alive { return Some(Crashed); }
        if answer.None? { return Some(Refused); }
        var quote := world.mints[answer.value];
        if quote.amount != Some(request.amount) || !ExactAmount(quote.request, request.amount) {
          return Some(Refused);
        }
        var saga := world.kv[id].(destinationQuote := answer, invoice := Some(quote.request));
        alive := Effect(BindDestination(id), world.(kv := world.kv[id := saga]));
        if !alive { return Some(Crashed); }
      }
      BoundDestination(world, id);
      if world.kv[id].destinationQuote.None? || world.kv[id].invoice.None?
         || !ExactAmount(world.kv[id].invoice.value, request.amount)
      {
        return Some(Refused);
      }
      return None;
    }

    /**
     * Asks the source mint for a new melt quote. A quote id used before counts as a failed call, and a
     * quote for another amount or with too high a reserve is no use.
     */
    method AskForMeltQuote(id: Id) returns (alive: bool, answer: Option<Id>)
      requires Recorded() && id in world.kv
      modifies this
      ensures Recorded() && Grows(old(run), run, false)
      ensures world.kv == old(world.kv) && world.returned == old(world.returned)
      ensures setbacks >= old(setbacks) && (!alive || answer.None? ==> setbacks > old(setbacks))
      ensures alive && answer.Some? ==>
                && answer.value in world.created && world.created[answer.value] == id
                && answer.value in world.melts
      ensures alive && answer.Some? && setbacks == old(setbacks) ==>
                && world.melts[answer.value].amount == world.kv[id].request.amount
                && world.melts[answer.value].feeReserve <= world.kv[id].request.maxFee
    {
      hide Path, Good, Wallets;
      var quoteId: Id, quote: MeltQuote := *, *;
      var fails: bool := *;
      quote := quote.(state := MeltUnpaid);
      if fails || quoteId in world.melts || quoteId in world.created || quoteId in world.payments {
        setbacks := setbacks + 1;
        return true, None;
      }
      answer := Some(quoteId);
      alive := Effect(AskMelt(id, quoteId),
                      world.(melts := world.melts[quoteId := quote], created := world.created[quoteId := id]));
      if quote.amount != world.kv[id].request.amount || quote.feeReserve > world.kv[id].request.maxFee {
        setbacks := setbacks + 1;
      }
    }

    /** Binds a source quote within the fee limit, unless one is bound, and checks what the wallet stored. */
    method EnsureSource(id: Id) returns (r: Option<Ending>)
      requires Recorded() && id in world.kv && world.kv[id].invoice.Some?
      modifies this
      ensures Recorded() && Grows(old(run), run, false) && SameTransfer(old(world), world, id)
      ensures setbacks >= old(setbacks) && (r == Some(Crashed) ==> setbacks > old(setbacks))
      ensures r.Some? ==> !r.value.Returned? && (setbacks > old(setbacks) || !SourceMatches(world, id))
      ensures world.kv[id].invoice == old(world.kv[id].invoice)
      ensures world.kv[id].destinationQuote == old(world.kv[id].destinationQuote)
      ensures r.None? ==> SourceMatches(world, id)
    {
      hide Path, Good, ExactAmount, Wallets;
      if world.kv[id].sourceQuote.None? {
        var alive, answer := AskForMeltQuote(id);
        if !alive { return Some(Crashed); }
        if answer.None? { return Some(Refused); }
        var quote := world.melts[answer.value];
        if quote.amount != world.kv[id].request.amount || quote.feeReserve > world.kv[id].request.maxFee {
          return Some(Refused);
        }
        var saga := world.kv[id].(sourceQuote := answer, meltFeeReserve := Some(quote.feeReserve));
        alive := Effect(BindSource(id), world.(kv := world.kv[id := saga]));
        if !alive { return Some(Crashed); }
      }
      var saga := world.kv[id];
      if saga.sourceQuote.None? || saga.sourceQuote.value !in world.melts || saga.meltFeeReserve.None? {
        return Some(Refused);
      }
      var stored := world.melts[saga.sourceQuote.value];
      if stored.request != saga.invoice.value || stored.amount != saga.request.amount
         || stored.feeReserve != saga.meltFeeReserve.value
      {
        return Some(Refused);
      }
      return None;
    }

    /** Saves the fees noted so far. */
    method SaveFees(id: Id, walletFee: Option<u64>, feePaid: Option<u64>) returns (alive: bool)
      requires Recorded() && id in world.kv && world.kv[id].result.None?
      modifies this
      ensures Recorded() && Grows(old(run), run, false) && SameTransfer(old(world), world, id)
      ensures SameQuotes(old(world), world, id)
      ensures setbacks >= old(setbacks) && (alive <==> setbacks == old(setbacks))
      ensures world.melts == old(world.melts) && world.payments == old(world.payments)
      ensures alive ==> world.kv[id].walletFee == walletFee && world.kv[id].feePaid == feePaid
    {
      hide Path, Good;
      var saga := world.kv[id].(walletFee := walletFee, feePaid := feePaid);
      alive := Effect(NoteFees(id), world.(kv := world.kv[id := saga]));
    }

    /** Prepares the payment and learns the wallet's own fee. One that breaks the limit is no use. */
    method PreparePayment(id: Id, reserve: u64) returns (alive: bool, fee: Option<u64>)
      requires Recorded() && id in world.kv
      modifies this
      ensures Recorded() && Grows(old(run), run, false) && Wallets(old(world), world)
      ensures setbacks >= old(setbacks) && (!alive || fee.None? ==> setbacks > old(setbacks))
      ensures fee.Some? && setbacks == old(setbacks) ==> reserve + fee.value <= world.kv[id].request.maxFee
    {
      hide Path, Good, Wallets;
      ghost var w := world;
      var ok;
      alive, ok := WalletCall();
      SagasStay(w, world, id);
      var walletFee: u64 := *;
      fee := if ok then Some(walletFee) else None;
      if reserve + walletFee > world.kv[id].request.maxFee {
        setbacks := setbacks + 1;
      }
    }

    /** Asks the mint to pay; what became of the quote, and whether a transaction was stored, is the mint's answer. */
    method ConfirmPayment(id: Id) returns (alive: bool, state: MeltState)
      requires Recorded() && SourceMatches(world, id)
      requires world.kv[id].walletFee.Some?
      requires world.melts[world.kv[id].sourceQuote.value].feeReserve + world.kv[id].walletFee.value
               <= world.kv[id].request.maxFee
      modifies this
      ensures Recorded() && Grows(old(run), run, true) && world.kv == old(world.kv)
      ensures OneConfirm(old(run), run, old(world.kv[id].sourceQuote.value), state == MeltPaid)
      ensures alive ==> !Quiet(old(run), run)
      ensures setbacks >= old(setbacks) && (!alive || state != MeltPaid ==> setbacks > old(setbacks))
      ensures world.returned == old(world.returned)
    {
      hide Path, Good;
      var saga := world.kv[id];
      var q := saga.sourceQuote.value;
      var fee: u64 := *;
      var stored: bool := *;
      state := *;
      var next := world.(melts := world.melts[q := world.melts[q].(state := state)],
                         confirms := world.confirms
                                     + [Confirmation(id, q, saga.invoice.value, saga.request.amount,
                                                     world.melts[q].feeReserve + saga.walletFee.value)]);
      if stored && q !in world.payments {
        next := next.(payments := world.payments[q := fee]);
      }
      alive := Effect(Confirm(id), next);
      if state != MeltPaid {
        setbacks := setbacks + 1;
      }
    }

    /** Prepares the payment, checks its whole fee against the limit, saves the wallet fee, and confirms. */
    method StartPayment(id: Id) returns (r: Option<Ending>)
      requires Recorded() && SourceMatches(world, id) && world.kv[id].result.None?
      modifies this
      ensures Recorded() && Grows(old(run), run, true) && SameTransfer(old(world), world, id)
      ensures SameQuotes(old(world), world, id)
      ensures OneConfirm(old(run), run, old(world.kv[id].sourceQuote.value), r.None?)
      ensures r.None? ==> !Quiet(old(run), run)
      ensures setbacks >= old(setbacks) && (r.Some? ==> !r.value.Returned? && setbacks > old(setbacks))
    {
      hide Path, Good, Wallets, OneConfirm, Grows, Quiet;
      var q := world.kv[id].sourceQuote.value;
      var feePaid := world.kv[id].feePaid;
      var reserve := world.melts[q].feeReserve;
      ghost var w0, r0 := world, run;
      var alive, walletFee := PreparePayment(id, reserve);
      SourceStays(w0, world, id);
      ghost var r1 := run;
      StillQuiet(r0, r1, q);
      if !alive { return Some(Crashed); }
      if walletFee.None? { return Some(Refused); }
      if reserve + walletFee.value > U64_MAX || reserve + walletFee.value > world.kv[id].request.maxFee {
        return Some(Refused);
      }
      alive := SaveFees(id, walletFee, feePaid);
      ghost var r2 := run;
      GrowsOn(r0, r1, r2, false);
      StillQuiet(r0, r2, q);
      if !alive { return Some(Crashed); }
      var state;
      alive, state := ConfirmPayment(id);
      ghost var r3 := run;
      ConfirmedOnce(r0, r2, r3, q, state == MeltPaid);
      if !alive { return Some(Crashed); }
      if state != MeltPaid { return Some(Refused); }
      var fee: u64 := *;
      alive := SaveFees(id, walletFee, Some(fee));
      ConfirmedStays(r0, r3, run, q);
      NoLongerQuiet(r0, r2, r3, run);
      return if alive then None else Some(Crashed);
    }

    /**
     * Finds the source payment, or starts it if it was read as unpaid and that is allowed; saves the fee
     * paid. `recovered` is what recovery reported at the start of the attempt.
     */
    method PaySource(id: Id, mayStart: bool, recovered: map<Id, MeltState>) returns (r: Option<Ending>)
      requires Recorded() && SourceMatches(world, id) && world.kv[id].result.None?
      modifies this
      ensures Recorded() && Grows(old(run), run, mayStart) && SameTransfer(old(world), world, id)
      ensures SameQuotes(old(world), world, id)
      ensures Careful(old(run), run, r.None?)
      ensures var q := old(world.kv[id].sourceQuote.value);
              && (q in old(world.payments) || old(world.melts)[q].state != MeltUnpaid
                  || (q in recovered && recovered[q] != MeltPaid)
                  ==> Quiet(old(run), run))
              && (r == Some(Refused) ==>
                    || setbacks > old(setbacks)
                    || (&& q !in world.payments
                        && (old(world.melts)[q].state == MeltUnpaid && mayStart && q !in recovered
                            ==> !Quiet(old(run), run))))
              && (r.None? ==> q in world.payments && world.kv[id].feePaid == Some(world.payments[q]))
      ensures setbacks >= old(setbacks) && (r == Some(Crashed) ==> setbacks > old(setbacks))
      ensures r.Some? ==> !r.value.Returned?
    {
      hide Path, Good, Wallets, Careful, OneConfirm, Quiet, Grows;
      var q := world.kv[id].sourceQuote.value;
      // The quote as it was read; by the time the transactions are listed it may have moved on.
      var state := world.melts[q].state;
      ghost var w0, r0 := world, run;
      var alive, ok := WalletCall();
      SourceStays(w0, world, id);
      PaymentsStay(w0, world);
      ghost var r1 := run;
      QuietGrowth(r0, r1, mayStart);
      if !alive { return Some(Crashed); }
      if !ok { return Some(Refused); }
      if q !in world.payments {
        if q in recovered && recovered[q] != MeltPaid {
          return Some(Refused);
        }
        ghost var w1 := world;
        match state {
          case MeltUnpaid =>
            if !mayStart { return Some(Refused); }
            r := StartPayment(id);
            GrowsOn(r0, r1, run, mayStart);
            NowCareful(r0, r1, run, w0, w1, q, r.None?);
            if r.None? {
              NoLongerQuiet(r0, r1, run, run);
            }
            if r.Some? { return r; }
          case MeltPaid =>
          case _ =>
            return Some(Refused);
        }
        ghost var w2, r2 := world, run;
        alive, ok := WalletCall();
        SagasStay(w2, world, id);
        CarefulGrowth(r0, r2, run, mayStart, true);
        if !Quiet(r0, r2) {
          NoLongerQuiet(r0, r0, r2, run);
        }
        if !alive { return Some(Crashed); }
        if !ok || q !in world.payments { return Some(Refused); }
      }
      ghost var r3 := run;
      alive := SaveFees(id, world.kv[id].walletFee, Some(world.payments[q]));
      CarefulGrowth(r0, r3, run, mayStart, true);
      return if alive then None else Some(Crashed);
    }

    /** Mints at the destination if its quote is paid, and checks the issued quote field by field. */
    method IssueDestination(id: Id) returns (r: Option<Ending>)
      requires Recorded() && id in world.kv && world.kv[id].destinationQuote.Some? && world.kv[id].invoice.Some?
      modifies this
      ensures Recorded() && Grows(old(run), run, false)
      ensures Wallets(old(world), world)
      ensures setbacks >= old(setbacks) && (r == Some(Crashed) ==> setbacks > old(setbacks))
      ensures r == Some(Refused) ==> setbacks > old(setbacks) || !Issued(world, id)
      ensures r.Some? ==> !r.value.Returned?
      ensures r.None? ==> Issued(world, id)
    {
      hide Path, Good;
      var q := world.kv[id].destinationQuote.value;
      var amount := world.kv[id].request.amount;
      ghost var w0, r0 := world, run;
      var alive, ok := WalletCall();
      if !alive { return Some(Crashed); }
      if !ok || q !in world.mints || world.mints[q].amount != Some(amount) { return Some(Refused); }
      if world.mints[q].state == MintPaid {
        ghost var w1, r1 := world, run;
        alive, ok := WalletCall();
        CreatedAreStored(w0);
        WalletsCompose(w0, w1, world);
        GrowsOn(r0, r1, run, false);
        if !alive { return Some(Crashed); }
        if !ok || q !in world.mints { return Some(Refused); }
      } else if world.mints[q].state != MintIssued {
        return Some(Refused);
      }
      if world.mints[q] != MintQuote(world.kv[id].request.destinationMint, true, true, Some(amount),
                                     world.kv[id].invoice.value, MintIssued, amount)
      {
        return Some(Refused);
      }
      return None;
    }

    /** Checks the fee that was paid, saves the result and returns it. */
    method Conclude(id: Id) returns (r: Ending)
      requires Recorded() && id in world.kv && world.kv[id].result.None? && world.kv[id].sourceQuote.Some?
      requires world.kv[id].sourceQuote.value in world.payments && Issued(world, id)
      modifies this
      ensures Recorded() && Grows(old(run), run, false)
      ensures setbacks >= old(setbacks) && (r.Crashed? ==> setbacks > old(setbacks))
      ensures r.Refused? ==> world == old(world)
      ensures r.Refused? <==> old(world.payments[world.kv[id].sourceQuote.value]) > old(world.kv[id].request.maxFee)
      ensures r.Returned? ==> Concluded(world, run, id, r.result) && r.result.request == old(world.kv[id].request)
      ensures r.Returned? ==> r.result.destinationQuote == old(world.kv[id].destinationQuote.value)
    {
      hide Path, Good;
      var balanceAfter: u64 := *;
      var saga := world.kv[id];
      var fee := world.payments[saga.sourceQuote.value];
      if fee > saga.request.maxFee { return Refused; }
      var result := TransferResult(saga.request, OrZero(saga.meltFeeReserve), OrZero(saga.walletFee),
                                   fee, saga.sourceQuote.value, saga.destinationQuote.value,
                                   saga.balanceBefore, balanceAfter);
      var alive := Effect(Finish(id), world.(kv := world.kv[id := saga.(result := Some(result))]));
      if !alive { return Crashed; }
      ghost var r1 := run;
      alive := ReturnStored(id);
      GrowsOn(old(run), r1, run, false);
      return if alive then Returned(result) else Crashed;
    }

    /** Everything after the saga has been loaded. */
    method Proceed(id: Id, mayStart: bool, recovered: map<Id, MeltState>) returns (r: Ending)
      requires Recorded() && id in world.kv && world.kv[id].result.None?
      modifies this
      ensures Recorded() && Grows(old(run), run, mayStart) && Careful(old(run), run, r.Returned?)
      ensures setbacks >= old(setbacks) && (r.Crashed? ==> setbacks > old(setbacks))
      ensures r.Refused? ==> setbacks > old(setbacks) || !Concludable(world, id)
      ensures r.Returned? ==> Concluded(world, run, id, r.result) && r.result.request == old(world.kv[id].request)
    {
      hide Path, Good, ExactAmount, Concluded, Issued, Grows, Careful, Quiet;
      ghost var r0 := run;
      var stop := EnsureDestination(id);
      ghost var r1 := run;
      QuietGrowth(r0, r1, mayStart);
      if stop.Some? { return stop.value; }
      stop := EnsureSource(id);
      ghost var r2 := run;
      GrowsOn(r0, r1, r2, false);
      QuietGrowth(r0, r2, mayStart);
      if stop.Some? { return stop.value; }
      stop := PaySource(id, mayStart, recovered);
      ghost var r3 := run;
      GrowsOn(r0, r2, r3, mayStart);
      CarefulEarlier(r0, r2, r3, stop.None?);
      if stop.Some? { return stop.value; }
      CarefulAnyway(r0, r3, true);
      stop := IssueDestination(id);
      ghost var r4 := run;
      CarefulGrowth(r0, r3, r4, mayStart, true);
      if stop.Some? { return stop.value; }
      r := Conclude(id);
      CarefulGrowth(r0, r4, run, mayStart, true);
    }

    /**
     * One attempt, first to last, for a normalized request. It confirms at most one payment: of a quote it
     * read as unpaid and then did not find among the transactions; and it returns a result only if the mint
     * answered such a confirmation as paid.
     */
    method Attempt(request: Request, mayStart: bool) returns (r: Ending)
      requires Recorded()
      modifies this
      ensures Recorded() && Grows(old(run), run, mayStart) && Careful(old(run), run, r.Returned?)
      ensures setbacks >= old(setbacks) && (r.Crashed? ==> setbacks > old(setbacks))
      ensures r.Refused? ==>
                || setbacks > old(setbacks) || NotThisTransfer(old(world), request, mayStart)
                || !Concludable(world, request.transferId)
      ensures r.Returned? ==> Concluded(world, run, request.transferId, r.result) && r.result.request == request
    {
      hide Path, Good, Wallets, ExactAmount, Concluded, Grows, Careful, Quiet, Concludable;
      var id := request.transferId;
      ghost var w0, r0 := world, run;
      var alive, ok := WalletCall();
      SameSagas(w0, world);
      // What finalizing pending payments reports.
      var recovered: map<Id, MeltState> := *;
      ghost var r1 := run;
      QuietGrowth(r0, r1, mayStart);
      if !alive { return Crashed; }
      if !ok { return Refused; }
      var stop := LoadOrBegin(request, mayStart);
      ghost var r2 := run;
      GrowsOn(r0, r1, r2, mayStart);
      QuietOn(r0, r1, r2);
      QuietIsCareful(r0, r2);
      if stop.Some? { return stop.value; }
      r := Proceed(id, mayStart, recovered);
      GrowsOn(r0, r2, run, mayStart);
      CarefulEarlier(r0, r2, run, r.Returned?);
    }
  }
}
