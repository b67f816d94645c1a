/** What the network answers: when each call succeeds, and that every refusal gives a true reason. */
module NetworkAnswers {
  import opened Base
  import opened Sums
  import opened Networks
  import opened NetworkTheorems

  // ---------------------------------------------------------------- exactly when

  /** A name is registered exactly when it is not empty and not taken in another mode, online and empty. */
  lemma RegistersExactlyWhen(n: Network, mint: Id, mode: IssuerMode)
    ensures PaymentBackend(n, mint, mode).Ok? <==> mint != "" && (mint in n.modes ==> n.modes[mint] == mode)
    ensures PaymentBackend(n, mint, mode).Ok? ==>
              var n' := PaymentBackend(n, mint, mode).value;
              if mint in n.modes then n' == n
              else
                && n'.modes == n.modes[mint := mode] && Online(n', mint) && ReserveOf(n', mint) == 0
                && n'.invoices == n.invoices && n'.externalFunding == n.externalFunding && n'.feeSink == n.feeSink
    ensures PaymentBackend(n, mint, mode).Err? ==>
              PaymentBackend(n, mint, mode).error == (if mint == "" then EmptyMintId else ModeConflict)
  {
  }

  /** Switching a mint is seen by every later call, and only for that mint. */
  lemma SwitchIsSeen(n: Network, mint: Id, up: bool, m: Id)
    ensures SetOnline(n, mint, up).Ok? <==> mint in n.online
    ensures SetOnline(n, mint, up).Ok? ==>
              Online(SetOnline(n, mint, up).value, m) == if m == mint then up else Online(n, m)
  {
  }

  /**
   * An invoice is made exactly when its amount is positive and fits in msat, its expiry is ahead, the mint
   * is known, serials are left and it could be built; and the one handed back can be presented at once.
   */
  lemma InvoiceIsPresentable(n: Network, mint: Id, amount: u64, expiry: Option<u64>, now: u64, built: bool)
    ensures var made := CreateInvoice(n, mint, amount, expiry, now, built);
            && (made.invoice.Ok? <==>
                  && 0 < amount && amount * 1000 <= U64_MAX && mint in n.modes && n.nextInvoice < U64_MAX && built
                  && (if expiry.Some? then now < expiry.value else now < U64_MAX))
            && (made.invoice.Ok? ==>
                  && var invoice := made.invoice.value;
                  && Presentable(made.network, invoice, now)
                  && made.network.invoices[invoice.hash].recipient == mint
                  && made.network.invoices[invoice.hash].amount == amount
                  && (expiry.Some? ==> made.network.invoices[invoice.hash].expiresAt == expiry.value)
                  && (LogOk(n) ==> invoice.hash !in n.invoices))
  {
    hide LogOk;
    if LogOk(n) {
      SerialIsNew(n, mint);
    }
  }

  lemma FundingFits(n: Network, recipient: Id, amount: u64)
    requires NetInv(n) && recipient in n.reserves && n.externalFunding + amount <= U64_MAX
    ensures n.reserves[recipient] + amount <= U64_MAX
  {
    hide LogOk, ReservesOk, MintsOk;
    SumAtLeast(n.reserves, recipient, Balance());
  }

  /**
   * External funding goes through exactly when an open invoice is presented for its amount, its mint is
   * online and the total funding still fits: no reserve can overflow before that.
   */
  lemma FundsExactlyWhen(n: Network, invoice: Bolt11, now: u64)
    requires NetInv(n)
    ensures SettleExternal(n, invoice, now).Ok? <==>
              && Presentable(n, invoice, now) && Online(n, n.invoices[invoice.hash].recipient)
              && n.externalFunding + n.invoices[invoice.hash].amount <= U64_MAX
    ensures SettleExternal(n, invoice, now).Ok? ==>
              IncomingStatus(SettleExternal(n, invoice, now).value, n.invoices[invoice.hash].recipient, invoice.hash)
              == Some(n.invoices[invoice.hash].amount)
  {
    if invoice.hash in n.invoices {
      var r := n.invoices[invoice.hash];
      assert RecordOk(n, invoice.hash, r);
      hide NetInv;
      if n.externalFunding + r.amount <= U64_MAX {
        FundingFits(n, r.recipient, r.amount);
      }
    }
  }

  // ---------------------------------------------------------------- refusals

  predicate CreateReason(n: Network, mint: Id, amount: u64, expiry: Option<u64>, now: u64, built: bool, e: NetError) {
    match e
    case AmountMismatch => amount == 0 || amount * 1000 > U64_MAX
    case ExpiryNotInFuture => if expiry.Some? then expiry.value <= now else now == U64_MAX
    case UnknownMint => mint !in n.modes
    case SequenceOverflow => n.nextInvoice == U64_MAX
    case InvoiceNotBuilt => !built
    case _ => false
  }

  predicate PresentReason(n: Network, invoice: Bolt11, now: u64, e: NetError) {
    match e
    case UnknownInvoice => invoice.hash !in n.invoices
    case InvoiceAlreadyPaid => invoice.hash in n.invoices && n.invoices[invoice.hash].paidBy.Some?
    case InvoiceExpired => invoice.hash in n.invoices && n.invoices[invoice.hash].expiresAt <= now
    case AmountMismatch =>
      invoice.hash in n.invoices && invoice.amountMsat != Some(n.invoices[invoice.hash].amount * 1000)
    case DestinationOffline => invoice.hash in n.invoices && !Online(n, n.invoices[invoice.hash].recipient)
    case _ => false
  }

  predicate FundReason(n: Network, invoice: Bolt11, now: u64, e: NetError) {
    match e
    case ReserveOverflow =>
      invoice.hash in n.invoices && n.externalFunding + n.invoices[invoice.hash].amount > U64_MAX
    case FundingOverflow =>
      invoice.hash in n.invoices && n.externalFunding + n.invoices[invoice.hash].amount > U64_MAX
    case _ => PresentReason(n, invoice, now, e)
  }

  /** What is wrong with the payment order itself. */
  predicate OrderReason(fee: u64, unit: CurrencyUnit, options: OutgoingOptions, e: NetError) {
    match e
    case UnsupportedUnit => unit != Sat || (options.PayBolt11? && options.maxFee.Some? && options.maxFee.value.0 != Sat)
    case UnsupportedPaymentOption => options.OtherOptions?
    case AmountMismatch =>
      && options.PayBolt11?
      && (|| options.invoice.amountMsat.None?
          || (options.meltMsat.Some? && options.meltMsat != options.invoice.amountMsat)
          || options.invoice.amountMsat.value % 1000 != 0
          || options.invoice.amountMsat.value / 1000 + fee > U64_MAX)
    case FeeAboveMaximum => options.PayBolt11? && options.maxFee.Some? && options.maxFee.value.1 < fee
    case _ => false
  }

  predicate PayReason(n: Network, fee: u64, payer: Id, unit: CurrencyUnit, options: OutgoingOptions, now: u64, e: NetError) {
    || OrderReason(fee, unit, options, e)
    || (options.PayBolt11? && PresentReason(n, options.invoice, now, e))
    || match e
       case UnknownMint => payer !in n.modes
       case WithdrawalsNotAllowed => payer in n.modes && n.modes[payer] == ClosedLoop
       case SourceOffline => !Online(n, payer)
       case InsufficientLiquidity =>
         && options.PayBolt11? && options.invoice.hash in n.invoices && payer in n.reserves
         && n.invoices[options.invoice.hash].amount + fee > n.reserves[payer]
       case _ => false
  }

  lemma CreateRefusal(n: Network, mint: Id, amount: u64, expiry: Option<u64>, now: u64, built: bool)
    ensures var made := CreateInvoice(n, mint, amount, expiry, now, built);
            made.invoice.Err? ==>
              && CreateReason(n, mint, amount, expiry, now, built, made.invoice.error)
              && made.network.(nextInvoice := n.nextInvoice) == n
  {
  }

  lemma PayableRefusal(n: Network, invoice: Bolt11, now: u64)
    requires NetInv(n) && invoice.hash in n.invoices
    ensures var payable := EnsurePayable(n.invoices[invoice.hash], invoice, now);
            payable.Fail? ==> PresentReason(n, invoice, now, payable.error)
    ensures n.invoices[invoice.hash].recipient in n.reserves
  {
    hide ReservesOk, Conserved;
    assert RecordOk(n, invoice.hash, n.invoices[invoice.hash]);
  }

  lemma FundRefusal(n: Network, invoice: Bolt11, now: u64)
    requires NetInv(n)
    ensures SettleExternal(n, invoice, now).Err? ==> FundReason(n, invoice, now, SettleExternal(n, invoice, now).error)
  {
    hide NetInv, EnsurePayable, Online;
    if invoice.hash in n.invoices {
      var r := n.invoices[invoice.hash];
      PayableRefusal(n, invoice, now);
      if n.externalFunding + r.amount <= U64_MAX {
        FundingFits(n, r.recipient, r.amount);
      }
    }
  }

  lemma OrderRefusal(n: Network, fee: u64, payer: Id, unit: CurrencyUnit, options: OutgoingOptions, now: u64)
    requires payer in n.modes
    ensures var out := Outbound(n.modes[payer], unit, options);
            && (out.Err? ==> PayReason(n, fee, payer, unit, options, now, out.error))
            && (out.Ok? ==>
                  && options.PayBolt11? && out.value.invoice == options.invoice && options.invoice.amountMsat.Some?
                  && out.value.amount == options.invoice.amountMsat.value / 1000
                  && (out.value.maxFee.Some? ==> options.maxFee.Some? && out.value.maxFee.value == options.maxFee.value.1))
  {
    hide PresentReason;
  }

  lemma TransferRefusal(n: Network, fee: u64, payer: Id, h: PaymentHash, amount: u64)
    requires NetInv(n) && h in n.invoices && amount + fee <= U64_MAX && Online(n, payer)
    ensures payer in n.reserves
    ensures var r := Transfer(n, fee, payer, h, amount, amount + fee);
            r.Err? ==>
              || (r.error == DestinationOffline && !Online(n, n.invoices[h].recipient))
              || (r.error == InsufficientLiquidity && amount + fee > n.reserves[payer])
  {
    TransferNeverOverflows(n, fee, payer, h, amount);
    hide ReservesOk, Conserved;
    assert RecordOk(n, h, n.invoices[h]);
  }

  /** In any reachable network, a refused payment is given a reason that is true. */
  lemma PayRefusal(n: Network, fee: u64, payer: Id, unit: CurrencyUnit, options: OutgoingOptions, now: u64)
    requires NetInv(n)
    ensures var paid := PayFrom(n, fee, payer, unit, options, now);
            paid.Err? ==> PayReason(n, fee, payer, unit, options, now, paid.error)
  {
    hide NetInv, EnsurePayable, Online, Outbound, Transfer;
    if payer in n.modes {
      OrderRefusal(n, fee, payer, unit, options, now);
      var out := Outbound(n.modes[payer], unit, options);
      if out.Ok? && options.invoice.hash in n.invoices {
        PayableRefusal(n, options.invoice, now);
        if out.value.amount + fee <= U64_MAX && Online(n, payer) {
          TransferRefusal(n, fee, payer, options.invoice.hash, out.value.amount);
        }
      }
    }
  }

  /** In every run, every refusal of a payment or of external funding gives a true reason. */
  lemma EveryRefusalHasItsReason(fee: u64, ops: seq<NetOp>, payer: Id, unit: CurrencyUnit,
                                 options: OutgoingOptions, invoice: Bolt11, now: u64)
    ensures var n := NetRun(NEW_NETWORK, fee, ops);
            var paid, funded := PayFrom(n, fee, payer, unit, options, now), SettleExternal(n, invoice, now);
            && (paid.Err? ==> PayReason(n, fee, payer, unit, options, now, paid.error))
            && (funded.Err? ==> FundReason(n, invoice, now, funded.error))
  {
    hide *;
    NewNetworkOk();
    NetRunKeeps(NEW_NETWORK, fee, ops);
    PayRefusal(NetRun(NEW_NETWORK, fee, ops), fee, payer, unit, options, now);
    FundRefusal(NetRun(NEW_NETWORK, fee, ops), invoice, now);
  }
}
