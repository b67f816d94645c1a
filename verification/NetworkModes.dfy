/** Closed-loop mints: registered once in a mode that never changes, and never the payer of anything. */
module NetworkModes {
  import opened Base
  import opened Sums
  import opened Networks
  import opened NetworkTheorems

  /** A mode, once given to a name, stays: every backend ever handed out keeps matching the network. */
  lemma ModesNeverChange(n: Network, fee: u64, op: NetOp, mint: Id)
    ensures mint in n.modes ==>
              mint in NetStep(n, fee, op).modes && NetStep(n, fee, op).modes[mint] == n.modes[mint]
  {
    hide Pay;
    if op.Send? && op.payer in n.modes {
      PayKeepsModes(n, fee, op.payer, n.modes[op.payer], op.unit, op.options, op.now);
    }
  }

  /** The mint has no right to withdraw. */
  predicate MayNotSpend(n: Network, m: Id) { m in n.modes ==> n.modes[m] == ClosedLoop }

  /** All that is recorded as spent by such a mint is what external funding paid under its name. */
  ghost predicate SpendersOk(n: Network) {
    forall m :: MayNotSpend(n, m) ==> Sum(n.invoices, SpentBy(m)) == Funding(n, m)
  }

  lemma InvoiceSpends(n: Network, mint: Id, amount: u64, expiry: Option<u64>, now: u64, built: bool)
    requires LogOk(n) && SpendersOk(n)
    ensures SpendersOk(CreateInvoice(n, mint, amount, expiry, now, built).network)
  {
    hide LogOk;
    var n' := CreateInvoice(n, mint, amount, expiry, now, built).network;
    var h := PaymentHash(n.nextInvoice, mint);
    SerialIsNew(n, mint);
    forall m | MayNotSpend(n', m)
      ensures Sum(n'.invoices, SpentBy(m)) == Funding(n', m)
    {
      assert MayNotSpend(n, m);
      if h in n'.invoices {
        SumInsert(n.invoices, h, n'.invoices[h], SpentBy(m));
      }
    }
  }

  lemma FundSpends(n: Network, invoice: Bolt11, now: u64)
    requires SpendersOk(n)
    ensures SpendersOk(NetAfter(n, SettleExternal(n, invoice, now)))
  {
    var n' := NetAfter(n, SettleExternal(n, invoice, now));
    if n' != n {
      forall m | MayNotSpend(n', m)
        ensures Sum(n'.invoices, SpentBy(m)) == Funding(n', m)
      {
        assert MayNotSpend(n, m);
        PaidSums(n, invoice.hash, n'.invoices[invoice.hash], m);
      }
    }
  }

  /** What a payment does to the log: one unpaid invoice becomes paid by a withdrawable mint. */
  lemma SendShape(n: Network, fee: u64, payer: Id, unit: CurrencyUnit, options: OutgoingOptions, now: u64)
    returns (h: PaymentHash)
    requires PayFrom(n, fee, payer, unit, options, now).Ok?
    ensures var n' := PayFrom(n, fee, payer, unit, options, now).value;
            && payer in n.modes && n.modes[payer] == Withdrawable && n'.modes == n.modes
            && n'.externalFunding == n.externalFunding
            && h in n.invoices && n.invoices[h].paidBy.None?
            && n'.invoices == n.invoices[h := n.invoices[h].(paidBy := Some(payer), fee := fee)]
  {
    h := Outbound(n.modes[payer], unit, options).value.invoice.hash;
  }

  lemma SendSpends(n: Network, fee: u64, payer: Id, unit: CurrencyUnit, options: OutgoingOptions, now: u64)
    requires SpendersOk(n)
    ensures SpendersOk(NetAfter(n, PayFrom(n, fee, payer, unit, options, now)))
  {
    hide PayFrom;
    if PayFrom(n, fee, payer, unit, options, now).Ok? {
      var h := SendShape(n, fee, payer, unit, options, now);
      var n' := PayFrom(n, fee, payer, unit, options, now).value;
      forall m | MayNotSpend(n', m)
        ensures Sum(n'.invoices, SpentBy(m)) == Funding(n', m)
      {
        assert MayNotSpend(n, m);
        PaidSums(n, h, n'.invoices[h], m);
      }
    }
  }

  lemma StepSpends(n: Network, fee: u64, op: NetOp)
    requires LogOk(n) && SpendersOk(n)
    ensures SpendersOk(NetStep(n, fee, op))
  {
    hide LogOk, CreateInvoice, SettleExternal, PayFrom;
    match op
    case Register(mint, mode) =>
      forall m | MayNotSpend(NetStep(n, fee, op), m)
        ensures Sum(n.invoices, SpentBy(m)) == Funding(n, m)
      {
        assert MayNotSpend(n, m);
      }
    case Switch(mint, up) =>
      forall m | MayNotSpend(NetStep(n, fee, op), m)
        ensures Sum(n.invoices, SpentBy(m)) == Funding(n, m)
      {
        assert MayNotSpend(n, m);
      }
    case Invoice(mint, amount, expiry, now, built) => InvoiceSpends(n, mint, amount, expiry, now, built);
    case Fund(invoice, now) => FundSpends(n, invoice, now);
    case Send(payer, unit, options, now) => SendSpends(n, fee, payer, unit, options, now);
  }

  lemma {:induction false} RunSpends(n: Network, fee: u64, ops: seq<NetOp>)
    requires NetInv(n) && SpendersOk(n)
    ensures SpendersOk(NetRun(n, fee, ops))
    decreases |ops|
  {
    hide NetStep, SpendersOk, LogOk, ReservesOk, Conserved, MintsOk;
    if ops != [] {
      StepSpends(n, fee, ops[0]);
      NetStepKeeps(n, fee, ops[0]);
      RunSpends(NetStep(n, fee, ops[0]), fee, ops[1..]);
    }
  }

  /**
   * In every run a closed-loop mint, or a name that is no mint, has paid nothing: all that is recorded as
   * spent under the name `external` is the external funding, and under every other such name zero. So a
   * closed-loop mint's reserve is all it ever received.
   */
  lemma ClosedLoopNeverPays(fee: u64, ops: seq<NetOp>, m: Id)
    ensures var n := NetRun(NEW_NETWORK, fee, ops);
            MayNotSpend(n, m) ==>
              && Sum(n.invoices, SpentBy(m)) == (if m == EXTERNAL then n.externalFunding else 0)
              && ReserveOf(n, m) == Sum(n.invoices, ReceivedBy(m))
  {
    hide NetRun, NetInv, ReserveOf, Sum, SpentBy, ReceivedBy, Balance;
    NewNetworkOk();
    NewNetworkSpends();
    NetRunKeeps(NEW_NETWORK, fee, ops);
    RunSpends(NEW_NETWORK, fee, ops);
    Reconciles(NetRun(NEW_NETWORK, fee, ops), m);
  }

  lemma NewNetworkSpends()
    ensures SpendersOk(NEW_NETWORK)
  {
  }
}
