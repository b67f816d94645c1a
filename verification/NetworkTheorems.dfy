/** The reserves of the payment network are a running summary of its invoice log. */
module NetworkTheorems {
  import opened Base
  import opened Sums
  import opened Networks

  // ---------------------------------------------------------------- the log, read per mint

  function ReceivedBy(m: Id): InvoiceRecord -> nat {
    (r: InvoiceRecord) => if r.paidBy.Some? && r.recipient == m then r.amount else 0
  }

  function SpentBy(m: Id): InvoiceRecord -> nat {
    (r: InvoiceRecord) => if r.paidBy == Some(m) then r.amount + r.fee else 0
  }

  function Balance(): u64 -> nat { (x: u64) => x }

  /** External funding pays as the name `external`, so only that name's books differ from the log. */
  function Funding(n: Network, m: Id): nat { if m == EXTERNAL then n.externalFunding else 0 }

  function ReserveOf(n: Network, m: Id): nat { if m in n.reserves then n.reserves[m] else 0 }

  /** Mint `m`'s reserve and everything it paid equal everything it received. */
  ghost predicate Reconciled(n: Network, m: Id) {
    ReserveOf(n, m) + Sum(n.invoices, SpentBy(m)) == Sum(n.invoices, ReceivedBy(m)) + Funding(n, m)
  }

  predicate RecordOk(n: Network, h: PaymentHash, r: InvoiceRecord) {
    && h.serial < n.nextInvoice && h.mint == r.recipient && r.recipient in n.reserves
    && 0 < r.amount && r.amount * 1000 <= U64_MAX && r.amount + r.fee <= U64_MAX
    && (r.paidBy.None? ==> r.fee == 0)
    && (r.paidBy.Some? ==> r.paidBy.value == EXTERNAL || r.paidBy.value in n.reserves)
  }

  ghost predicate LogOk(n: Network) { forall h :: h in n.invoices ==> RecordOk(n, h, n.invoices[h]) }

  ghost predicate MintsOk(n: Network) { n.modes.Keys == n.online.Keys == n.reserves.Keys }

  ghost predicate ReservesOk(n: Network) { forall m :: Reconciled(n, m) }

  ghost predicate Conserved(n: Network) { Sum(n.reserves, Balance()) + n.feeSink == n.externalFunding }

  ghost predicate NetInv(n: Network) { MintsOk(n) && LogOk(n) && ReservesOk(n) && Conserved(n) }

  // ---------------------------------------------------------------- calls and runs

  datatype NetOp =
    | Register(mint: Id, mode: IssuerMode)
    | Switch(mint: Id, up: bool)
    | Invoice(mint: Id, amount: u64, expiry: Option<u64>, now: u64, built: bool)
    | Fund(invoice: Bolt11, now: u64)
    | Send(payer: Id, unit: CurrencyUnit, options: OutgoingOptions, now: u64)

  function NetAfter(n: Network, r: Result<Network, NetError>): Network { if r.Ok? then r.value else n }

  function NetStep(n: Network, fee: u64, op: NetOp): Network {
    match op
    case Register(mint, mode) => NetAfter(n, PaymentBackend(n, mint, mode))
    case Switch(mint, up) => NetAfter(n, SetOnline(n, mint, up))
    case Invoice(mint, amount, expiry, now, built) => CreateInvoice(n, mint, amount, expiry, now, built).network
    case Fund(invoice, now) => NetAfter(n, SettleExternal(n, invoice, now))
    case Send(payer, unit, options, now) => NetAfter(n, PayFrom(n, fee, payer, unit, options, now))
  }

  function NetRun(n: Network, fee: u64, ops: seq<NetOp>): Network
    decreases |ops|
  {
    if ops == [] then n else NetRun(NetStep(n, fee, ops[0]), fee, ops[1..])
  }

  // ---------------------------------------------------------------- each call keeps the invariant

  lemma RegisterKeeps(n: Network, mint: Id, mode: IssuerMode)
    requires NetInv(n)
    ensures NetInv(NetAfter(n, PaymentBackend(n, mint, mode)))
  {
    var n' := NetAfter(n, PaymentBackend(n, mint, mode));
    if n' != n {
      SumInsert(n.reserves, mint, 0, Balance());
      forall m
        ensures Reconciled(n', m)
      {
        assert Reconciled(n, m);
      }
    }
  }

  lemma SwitchKeeps(n: Network, mint: Id, up: bool)
    requires NetInv(n)
    ensures NetInv(NetAfter(n, SetOnline(n, mint, up)))
  {
    var n' := NetAfter(n, SetOnline(n, mint, up));
    forall m
      ensures Reconciled(n', m)
    {
      assert Reconciled(n, m);
    }
  }

  /** A new invoice is under an unused hash and unpaid, so it adds nothing to any sum. */
  lemma UnpaidReconciles(n: Network, n': Network, h: PaymentHash, r: InvoiceRecord)
    requires ReservesOk(n) && h !in n.invoices && r.paidBy.None?
    requires n'.invoices == n.invoices[h := r] && n'.reserves == n.reserves
    requires n'.externalFunding == n.externalFunding
    ensures ReservesOk(n')
  {
    forall m
      ensures Reconciled(n', m)
    {
      assert Reconciled(n, m);
      SumInsert(n.invoices, h, r, SpentBy(m));
      SumInsert(n.invoices, h, r, ReceivedBy(m));
    }
  }

  lemma SerialIsNew(n: Network, mint: Id)
    requires LogOk(n)
    ensures PaymentHash(n.nextInvoice, mint) !in n.invoices
  {
    assert forall h :: h in n.invoices ==> h.serial < n.nextInvoice;
  }

  lemma InvoiceKeeps(n: Network, mint: Id, amount: u64, expiry: Option<u64>, now: u64, built: bool)
    requires NetInv(n)
    ensures NetInv(CreateInvoice(n, mint, amount, expiry, now, built).network)
  {
    hide ReservesOk;
    var n' := CreateInvoice(n, mint, amount, expiry, now, built).network;
    var h := PaymentHash(n.nextInvoice, mint);
    SerialIsNew(n, mint);
    if h in n'.invoices {
      UnpaidReconciles(n, n', h, n'.invoices[h]);
    } else {
      SameReconciles(n, n');
    }
    forall k | k in n'.invoices
      ensures RecordOk(n', k, n'.invoices[k])
    {
      if k in n.invoices {
        assert RecordOk(n, k, n.invoices[k]);
      }
    }
  }

  lemma SameReconciles(n: Network, n': Network)
    requires ReservesOk(n) && n'.invoices == n.invoices && n'.reserves == n.reserves
    requires n'.externalFunding == n.externalFunding
    ensures ReservesOk(n')
  {
    forall m
      ensures Reconciled(n', m)
    {
      assert Reconciled(n, m);
    }
  }

  /** What marking invoice `h` paid adds to the sums. */
  lemma PaidSums(n: Network, h: PaymentHash, r: InvoiceRecord, m: Id)
    requires h in n.invoices && n.invoices[h].paidBy.None?
    ensures Sum(n.invoices[h := r], SpentBy(m)) == Sum(n.invoices, SpentBy(m)) + SpentBy(m)(r)
    ensures Sum(n.invoices[h := r], ReceivedBy(m)) == Sum(n.invoices, ReceivedBy(m)) + ReceivedBy(m)(r)
  {
    SumUpdate(n.invoices, h, r, SpentBy(m));
    SumUpdate(n.invoices, h, r, ReceivedBy(m));
  }

  lemma FundKeeps(n: Network, invoice: Bolt11, now: u64)
    requires NetInv(n)
    ensures NetInv(NetAfter(n, SettleExternal(n, invoice, now)))
  {
    var n' := NetAfter(n, SettleExternal(n, invoice, now));
    if n' != n {
      var h := invoice.hash;
      var r := n'.invoices[h];
      assert RecordOk(n, h, n.invoices[h]);
      forall m
        ensures Reconciled(n', m)
      {
        assert Reconciled(n, m);
        PaidSums(n, h, r, m);
      }
      SumUpdate(n.reserves, r.recipient, n'.reserves[r.recipient], Balance());
      LogKeeps(n, n', h, r);
    }
  }

  lemma LogKeeps(n: Network, n': Network, h: PaymentHash, r: InvoiceRecord)
    requires LogOk(n) && n'.nextInvoice == n.nextInvoice && n'.reserves.Keys == n.reserves.Keys
    requires n'.invoices == n.invoices[h := r] && RecordOk(n', h, r)
    ensures LogOk(n')
  {
    forall k | k in n'.invoices
      ensures RecordOk(n', k, n'.invoices[k])
    {
      if k != h {
        assert RecordOk(n, k, n.invoices[k]);
      }
    }
  }

  lemma TransferKeeps(n: Network, fee: u64, payer: Id, h: PaymentHash, amount: u64)
    requires NetInv(n) && h in n.invoices && n.invoices[h].paidBy.None? && n.invoices[h].amount == amount
    requires amount + fee <= U64_MAX && Transfer(n, fee, payer, h, amount, amount + fee).Ok?
    ensures NetInv(Transfer(n, fee, payer, h, amount, amount + fee).value)
  {
    var n' := Transfer(n, fee, payer, h, amount, amount + fee).value;
    var r := n'.invoices[h];
    assert RecordOk(n, h, n.invoices[h]);
    TransferReconciles(n, n', fee, payer, h, amount);
    TransferConserves(n, n', fee, payer, h, amount);
    LogKeeps(n, n', h, r);
  }

  lemma TransferReconciles(n: Network, n': Network, fee: u64, payer: Id, h: PaymentHash, amount: u64)
    requires ReservesOk(n) && h in n.invoices && n.invoices[h].paidBy.None? && n.invoices[h].amount == amount
    requires amount + fee <= U64_MAX && Transfer(n, fee, payer, h, amount, amount + fee) == Ok(n')
    ensures ReservesOk(n')
  {
    forall m
      ensures Reconciled(n', m)
    {
      assert Reconciled(n, m);
      PaidSums(n, h, n'.invoices[h], m);
    }
  }

  lemma TransferConserves(n: Network, n': Network, fee: u64, payer: Id, h: PaymentHash, amount: u64)
    requires Conserved(n) && h in n.invoices
    requires amount + fee <= U64_MAX && Transfer(n, fee, payer, h, amount, amount + fee) == Ok(n')
    ensures Conserved(n')
  {
    var recipient := n.invoices[h].recipient;
    var debited: u64 := n.reserves[payer] - (amount + fee);
    var mid := n.reserves[payer := debited];
    SumUpdate(n.reserves, payer, debited, Balance());
    SumUpdate(mid, recipient, n'.reserves[recipient], Balance());
    assert n'.reserves == mid[recipient := n'.reserves[recipient]];
  }

  lemma SendKeeps(n: Network, fee: u64, payer: Id, unit: CurrencyUnit, options: OutgoingOptions, now: u64)
    requires NetInv(n)
    ensures NetInv(NetAfter(n, PayFrom(n, fee, payer, unit, options, now)))
  {
    hide NetInv, Transfer;
    if PayFrom(n, fee, payer, unit, options, now).Ok? {
      var out := Outbound(n.modes[payer], unit, options).value;
      TransferKeeps(n, fee, payer, out.invoice.hash, out.amount);
    }
  }

  lemma NetStepKeeps(n: Network, fee: u64, op: NetOp)
    requires NetInv(n)
    ensures NetInv(NetStep(n, fee, op))
  {
    hide NetInv, NetAfter;
    match op
    case Register(mint, mode) => RegisterKeeps(n, mint, mode);
    case Switch(mint, up) => SwitchKeeps(n, mint, up);
    case Invoice(mint, amount, expiry, now, built) => InvoiceKeeps(n, mint, amount, expiry, now, built);
    case Fund(invoice, now) => FundKeeps(n, invoice, now);
    case Send(payer, unit, options, now) => SendKeeps(n, fee, payer, unit, options, now);
  }

  lemma {:induction false} NetRunKeeps(n: Network, fee: u64, ops: seq<NetOp>)
    requires NetInv(n)
    ensures NetInv(NetRun(n, fee, ops))
    decreases |ops|
  {
    hide NetInv, NetStep;
    if ops != [] {
      NetStepKeeps(n, fee, ops[0]);
      NetRunKeeps(NetStep(n, fee, ops[0]), fee, ops[1..]);
    }
  }

  lemma NewNetworkOk()
    ensures NetInv(NEW_NETWORK)
  {
    forall m
      ensures Reconciled(NEW_NETWORK, m)
    {
    }
  }

  // ---------------------------------------------------------------- the promises

  lemma Reconciles(n: Network, m: Id)
    requires NetInv(n)
    ensures Sum(n.reserves, Balance()) + n.feeSink == n.externalFunding
    ensures ReserveOf(n, m) + Sum(n.invoices, SpentBy(m)) == Sum(n.invoices, ReceivedBy(m)) + Funding(n, m)
  {
    hide MintsOk, LogOk, ReserveOf, Sum, SpentBy, ReceivedBy, Balance, Funding;
    assert Reconciled(n, m);
  }

  /**
   * In every run a mint's reserve plus all it paid, fees included, is all it received (self-payment
   * included) exactly when the mint is not named `external` or nothing was funded externally; and
   * reserves plus fees are the external funding.
   */
  lemma ReservesRefineTheInvoiceLog(fee: u64, ops: seq<NetOp>, m: Id)
    ensures var n := NetRun(NEW_NETWORK, fee, ops);
            && Sum(n.reserves, Balance()) + n.feeSink == n.externalFunding
            && (ReserveOf(n, m) + Sum(n.invoices, SpentBy(m)) == Sum(n.invoices, ReceivedBy(m))
                <==> m != EXTERNAL || n.externalFunding == 0)
  {
    hide NetRun, NetInv, ReserveOf, Sum, SpentBy, ReceivedBy, Balance;
    NewNetworkOk();
    NetRunKeeps(NEW_NETWORK, fee, ops);
    Reconciles(NetRun(NEW_NETWORK, fee, ops), m);
  }

  /** The equation does fail for a mint that takes the reserved name: fund it once. */
  lemma ReservedNameBreaksTheBooks()
    ensures var n := NetRun(NEW_NETWORK, 0, [Register(EXTERNAL, Withdrawable), Invoice(EXTERNAL, 1, None, 0, true),
                                             Fund(Bolt11(PaymentHash(0, EXTERNAL), Some(1000)), 0)]);
            ReserveOf(n, EXTERNAL) + Sum(n.invoices, SpentBy(EXTERNAL)) != Sum(n.invoices, ReceivedBy(EXTERNAL))
  {
    var ops := [Register(EXTERNAL, Withdrawable), Invoice(EXTERNAL, 1, None, 0, true),
                Fund(Bolt11(PaymentHash(0, EXTERNAL), Some(1000)), 0)];
    var n1 := NetStep(NEW_NETWORK, 0, ops[0]);
    var n2 := NetStep(n1, 0, ops[1]);
    var n3 := NetStep(n2, 0, ops[2]);
    assert n1.modes == map[EXTERNAL := Withdrawable];
    assert n2.invoices == map[PaymentHash(0, EXTERNAL) := InvoiceRecord(EXTERNAL, 1, 3600, None, 0)];
    assert n3.externalFunding == 1;
    assert NetRun(n2, 0, [ops[2]]) == NetRun(n3, 0, []);
    assert ops[1..][1..] == [ops[2]] && ops[1..][0] == ops[1];
    assert NetRun(NEW_NETWORK, 0, ops) == n3;
    ReservesRefineTheInvoiceLog(0, ops, EXTERNAL);
  }

  lemma PaidStepStays(n: Network, fee: u64, op: NetOp, h: PaymentHash)
    requires NetInv(n) && h in n.invoices && n.invoices[h].paidBy.Some?
    ensures h in NetStep(n, fee, op).invoices && NetStep(n, fee, op).invoices[h] == n.invoices[h]
  {
    hide ReservesOk, Conserved;
    assert RecordOk(n, h, n.invoices[h]);
  }

  /** A paid invoice never changes again: no later call pays, refunds or replaces it. */
  lemma {:induction false} PaidOnce(n: Network, fee: u64, ops: seq<NetOp>, h: PaymentHash)
    requires NetInv(n) && h in n.invoices && n.invoices[h].paidBy.Some?
    ensures h in NetRun(n, fee, ops).invoices && NetRun(n, fee, ops).invoices[h] == n.invoices[h]
    decreases |ops|
  {
    hide NetInv, NetStep;
    if ops != [] {
      PaidStepStays(n, fee, ops[0], h);
      NetStepKeeps(n, fee, ops[0]);
      PaidOnce(NetStep(n, fee, ops[0]), fee, ops[1..], h);
    }
  }

  /** Once the payer has the money, no overflow can stop a payment. */
  lemma PaymentsNeverOverflow(n: Network, fee: u64, payer: Id, mode: IssuerMode, unit: CurrencyUnit, options: OutgoingOptions, now: u64)
    requires NetInv(n)
    ensures Pay(n, fee, payer, mode, unit, options, now) != Err(ReserveOverflow)
    ensures Pay(n, fee, payer, mode, unit, options, now) != Err(FeeSinkOverflow)
  {
    hide NetInv, Transfer;
    if Pay(n, fee, payer, mode, unit, options, now).Err? && Outbound(mode, unit, options).Ok? {
      var out := Outbound(mode, unit, options).value;
      if out.invoice.hash in n.invoices && out.amount + fee <= U64_MAX {
        TransferNeverOverflows(n, fee, payer, out.invoice.hash, out.amount);
      }
    }
  }

  lemma TransferNeverOverflows(n: Network, fee: u64, payer: Id, h: PaymentHash, amount: u64)
    requires NetInv(n) && h in n.invoices && amount + fee <= U64_MAX
    ensures Transfer(n, fee, payer, h, amount, amount + fee) != Err(ReserveOverflow)
    ensures Transfer(n, fee, payer, h, amount, amount + fee) != Err(FeeSinkOverflow)
  {
    var recipient := n.invoices[h].recipient;
    if payer in n.reserves {
      SumRemove(n.reserves, payer, Balance());
      assert Balance()(n.reserves[payer]) == n.reserves[payer];
      if recipient in n.reserves && recipient != payer {
        SumRemove(n.reserves - {payer}, recipient, Balance());
        assert Balance()(n.reserves[recipient]) == n.reserves[recipient];
      }
    }
  }

  /** The invoice is one of the network's, unpaid, unexpired, and presented for the amount it was made for. */
  predicate Presentable(n: Network, invoice: Bolt11, now: u64) {
    && invoice.hash in n.invoices
    && n.invoices[invoice.hash].paidBy.None? && now < n.invoices[invoice.hash].expiresAt
    && invoice.amountMsat == Some(n.invoices[invoice.hash].amount * 1000)
  }

  lemma OutboundAmount(mode: IssuerMode, unit: CurrencyUnit, invoice: Bolt11, melt: Option<u64>,
                       maxFee: Option<(CurrencyUnit, u64)>)
    ensures Outbound(mode, unit, PayBolt11(invoice, melt, maxFee)).Ok? <==>
              && mode == Withdrawable && unit == Sat && invoice.amountMsat.Some?
              && invoice.amountMsat.value % 1000 == 0 && (melt.None? || melt == invoice.amountMsat)
              && (maxFee.None? || maxFee.value.0 == Sat)
    ensures Outbound(mode, unit, PayBolt11(invoice, melt, maxFee)).Ok? ==>
              var out := Outbound(mode, unit, PayBolt11(invoice, melt, maxFee)).value;
              && out.invoice == invoice && out.amount * 1000 == invoice.amountMsat.value
              && (out.maxFee.None? <==> maxFee.None?) && (maxFee.Some? ==> out.maxFee == Some(maxFee.value.1))
  {
  }

  lemma TransferSucceedsExactlyWhen(n: Network, fee: u64, payer: Id, h: PaymentHash, amount: u64)
    requires NetInv(n) && h in n.invoices && amount + fee <= U64_MAX && Online(n, payer)
    ensures payer in n.reserves
    ensures Transfer(n, fee, payer, h, amount, amount + fee).Ok?
            <==> Online(n, n.invoices[h].recipient) && amount + fee <= n.reserves[payer]
  {
    TransferNeverOverflows(n, fee, payer, h, amount);
    hide ReservesOk, Conserved;
    assert RecordOk(n, h, n.invoices[h]);
  }

  lemma PaySucceedsExactlyWhen(n: Network, fee: u64, payer: Id, mode: IssuerMode, unit: CurrencyUnit,
                               invoice: Bolt11, melt: Option<u64>, maxFee: Option<(CurrencyUnit, u64)>, now: u64)
    requires NetInv(n)
    ensures Pay(n, fee, payer, mode, unit, PayBolt11(invoice, melt, maxFee), now).Ok? <==>
              && mode == Withdrawable && unit == Sat && Presentable(n, invoice, now)
              && (melt.None? || melt == invoice.amountMsat)
              && (maxFee.None? || (maxFee.value.0 == Sat && fee <= maxFee.value.1))
              && Online(n, payer) && Online(n, n.invoices[invoice.hash].recipient)
              && payer in n.reserves && n.invoices[invoice.hash].amount + fee <= n.reserves[payer]
  {
    hide Transfer, Outbound, Online;
    OutboundAmount(mode, unit, invoice, melt, maxFee);
    if invoice.hash in n.invoices {
      var r := n.invoices[invoice.hash];
      assert RecordOk(n, invoice.hash, r);
      hide NetInv;
      if r.amount + fee <= U64_MAX && Online(n, payer) {
        TransferSucceedsExactlyWhen(n, fee, payer, invoice.hash, r.amount);
      }
    }
  }

  /**
   * A payment goes through exactly when a mint registered as withdrawable presents an open invoice of the
   * network for its amount, both mints are online, the fee is within the limit and the reserve covers it.
   */
  lemma PaymentSucceedsExactlyWhen(n: Network, fee: u64, payer: Id, unit: CurrencyUnit, invoice: Bolt11,
                                   melt: Option<u64>, maxFee: Option<(CurrencyUnit, u64)>, now: u64)
    requires NetInv(n)
    ensures PayFrom(n, fee, payer, unit, PayBolt11(invoice, melt, maxFee), now).Ok? <==>
              && payer in n.modes && n.modes[payer] == Withdrawable && unit == Sat
              && Presentable(n, invoice, now) && (melt.None? || melt == invoice.amountMsat)
              && (maxFee.None? || (maxFee.value.0 == Sat && fee <= maxFee.value.1))
              && Online(n, payer) && Online(n, n.invoices[invoice.hash].recipient)
              && payer in n.reserves && n.invoices[invoice.hash].amount + fee <= n.reserves[payer]
  {
    hide Pay, Online, NetInv, Presentable;
    if payer in n.modes {
      PaySucceedsExactlyWhen(n, fee, payer, n.modes[payer], unit, invoice, melt, maxFee, now);
    }
  }

  lemma QuotedIffPresentable(n: Network, fee: u64, mode: IssuerMode, unit: CurrencyUnit, invoice: Bolt11,
                             melt: Option<u64>, maxFee: Option<(CurrencyUnit, u64)>, now: u64)
    requires NetInv(n)
    ensures var quote := Quote(n, fee, mode, unit, PayBolt11(invoice, melt, maxFee), now);
            && (quote.Ok? <==>
                  && mode == Withdrawable && unit == Sat && Presentable(n, invoice, now)
                  && (melt.None? || melt == invoice.amountMsat) && (maxFee.None? || maxFee.value.0 == Sat))
            && (quote.Ok? ==> quote.value == Quoted(n.invoices[invoice.hash].amount, fee))
  {
    hide Outbound;
    OutboundAmount(mode, unit, invoice, melt, maxFee);
    if invoice.hash in n.invoices {
      assert RecordOk(n, invoice.hash, n.invoices[invoice.hash]);
      hide NetInv;
    }
  }

  lemma PaidAsQuoted(n: Network, fee: u64, payer: Id, unit: CurrencyUnit, invoice: Bolt11,
                     melt: Option<u64>, maxFee: Option<(CurrencyUnit, u64)>, now: u64)
    requires PayFrom(n, fee, payer, unit, PayBolt11(invoice, melt, maxFee), now).Ok?
    ensures var n' := PayFrom(n, fee, payer, unit, PayBolt11(invoice, melt, maxFee), now).value;
            && invoice.hash in n.invoices && invoice.hash in n'.invoices
            && n'.invoices[invoice.hash]
               == n.invoices[invoice.hash].(paidBy := Some(payer), fee := fee)
            && n.invoices[invoice.hash].amount + fee <= U64_MAX
  {
  }

  /**
   * A quote is exact: it is given for a payment that goes through once both mints are online, the fee is
   * within the limit and the reserve covers it, for no other, and the payer then spends what was quoted.
   */
  lemma QuoteIsExact(n: Network, fee: u64, payer: Id, unit: CurrencyUnit, invoice: Bolt11,
                     melt: Option<u64>, maxFee: Option<(CurrencyUnit, u64)>, now: u64)
    requires NetInv(n) && payer in n.modes
    ensures var options := PayBolt11(invoice, melt, maxFee);
            var quote, paid := Quote(n, fee, n.modes[payer], unit, options, now), PayFrom(n, fee, payer, unit, options, now);
            && (paid.Ok? <==>
                  && quote.Ok? && (maxFee.None? || fee <= maxFee.value.1) && invoice.hash in n.invoices
                  && Online(n, payer) && Online(n, n.invoices[invoice.hash].recipient)
                  && payer in n.reserves && quote.value.amount + quote.value.fee <= n.reserves[payer])
            && (paid.Ok? ==>
                  OutgoingStatus(paid.value, payer, invoice.hash)
                  == Ok(Payment(true, quote.value.amount + quote.value.fee)))
  {
    hide Quote, PayFrom, NetInv, Online;
    PaymentSucceedsExactlyWhen(n, fee, payer, unit, invoice, melt, maxFee, now);
    QuotedIffPresentable(n, fee, n.modes[payer], unit, invoice, melt, maxFee, now);
    if PayFrom(n, fee, payer, unit, PayBolt11(invoice, melt, maxFee), now).Ok? {
      PaidAsQuoted(n, fee, payer, unit, invoice, melt, maxFee, now);
    }
  }

  /** A payer is told `paid`, with the exact total, for the invoices it paid and for no others. */
  lemma OutgoingStatusIsExact(fee: u64, ops: seq<NetOp>, payer: Id, h: PaymentHash)
    ensures var n := NetRun(NEW_NETWORK, fee, ops);
            if h !in n.invoices then OutgoingStatus(n, payer, h) == Err(UnknownPaymentState)
            else
              && OutgoingStatus(n, payer, h).Ok?
              && var status := OutgoingStatus(n, payer, h).value;
              && (status.paid <==> n.invoices[h].paidBy == Some(payer))
              && status.totalSpent == SpentBy(payer)(n.invoices[h])
  {
    hide NetRun, ReservesOk, Conserved;
    NewNetworkOk();
    NetRunKeeps(NEW_NETWORK, fee, ops);
    var n := NetRun(NEW_NETWORK, fee, ops);
    if h in n.invoices {
      assert RecordOk(n, h, n.invoices[h]);
    }
  }

  /** A recipient is told of exactly what counts as received by it in the reserve equation. */
  lemma IncomingStatusIsExact(fee: u64, ops: seq<NetOp>, mint: Id, h: PaymentHash)
    ensures var n := NetRun(NEW_NETWORK, fee, ops);
            && (IncomingStatus(n, mint, h).Some? <==> h in n.invoices && ReceivedBy(mint)(n.invoices[h]) > 0)
            && (IncomingStatus(n, mint, h).Some? ==>
                  IncomingStatus(n, mint, h).value == ReceivedBy(mint)(n.invoices[h]))
  {
    hide NetRun, ReservesOk, Conserved;
    NewNetworkOk();
    NetRunKeeps(NEW_NETWORK, fee, ops);
    var n := NetRun(NEW_NETWORK, fee, ops);
    if h in n.invoices {
      assert RecordOk(n, h, n.invoices[h]);
    }
  }

  function ReservePart(): ((IssuerMode, u64)) -> nat { (p: (IssuerMode, u64)) => p.1 }

  /** The report says what the network holds, figure by figure. */
  ghost predicate Reports(n: Network, r: Accounting) {
    && n.reserves.Keys == n.modes.Keys == r.mints.Keys
    && (forall m :: m in n.modes ==> r.mints[m] == (n.modes[m], n.reserves[m]))
    && r.totalReserve == Sum(n.reserves, Balance()) && r.feeSink == n.feeSink
    && r.totalAccounted == Sum(n.reserves, Balance()) + n.feeSink && r.externalFunding == n.externalFunding
  }

  /**
   * The accounting report, in checked arithmetic. Of any network, sound or broken, it reports the true
   * figures, so it calls conserved exactly the networks that are; and a reachable one always gets a report.
   */
  method Report(n: Network) returns (r: Result<Accounting, NetError>)
    ensures r.Ok? <==> n.reserves.Keys == n.modes.Keys && Sum(n.reserves, Balance()) + n.feeSink <= U64_MAX
    ensures r.Ok? ==> Reports(n, r.value) && (r.value.IsConserved() <==> Conserved(n))
    ensures NetInv(n) ==> r.Ok? && r.value.IsConserved()
  {
    hide LogOk, ReservesOk;
    KeysAgree(n);
    if |n.reserves| != |n.modes| {
      return Err(InconsistentReserves);
    }
    if exists m :: m in n.modes && m !in n.reserves {
      return Err(NoReserveAccount);
    }
    var mints := map m | m in n.modes :: (n.modes[m], n.reserves[m]);
    ReportTotal(n, mints);
    var total: u64, rest := 0, mints;
    while rest != map[]
      invariant total + Sum(rest, ReservePart()) == Sum(mints, ReservePart())
      decreases rest
    {
      var m :| m in rest;
      SumRemove(rest, m, ReservePart());
      if total + rest[m].1 > U64_MAX {
        return Err(ReserveOverflow);
      }
      total, rest := total + rest[m].1, rest - {m};
    }
    if total + n.feeSink > U64_MAX {
      return Err(ReserveOverflow);
    }
    return Ok(Accounting(mints, total, n.feeSink, total + n.feeSink, n.externalFunding));
  }

  lemma SameSize(small: set<Id>, large: set<Id>)
    requires small <= large && |small| == |large|
    ensures small == large
  {
    var extra := large - small;
    assert large == small + extra;
    assert |large| == |small| + |extra|;
  }

  /** As many reserves as mints, and one for every mint: the names are the same. */
  lemma KeysAgree(n: Network)
    ensures n.reserves.Keys == n.modes.Keys <==>
              |n.reserves| == |n.modes| && forall m :: m in n.modes ==> m in n.reserves
  {
    var reserves, modes := n.reserves.Keys, n.modes.Keys;
    assert |n.reserves| == |reserves| && |n.modes| == |modes|;
    if |n.reserves| == |n.modes| && forall m :: m in n.modes ==> m in n.reserves {
      SameSize(modes, reserves);
    }
  }

  lemma ReportTotal(n: Network, mints: map<Id, (IssuerMode, u64)>)
    requires mints.Keys == n.modes.Keys == n.reserves.Keys
    requires forall m :: m in n.modes ==> m in n.reserves && mints[m] == (n.modes[m], n.reserves[m])
    ensures Sum(mints, ReservePart()) == Sum(n.reserves, Balance())
  {
    SumMatch(mints, n.reserves, ReservePart(), Balance());
  }
}
