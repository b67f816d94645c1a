/**
 * The simulated payment network: mint reserves, a fee sink, external funding, and invoices that go
 * from unpaid to paid once. The functions say what each call does to the state; `PaymentNetwork`
 * updates the state in place and is proved to do the same.
 */
module Networks {
  import opened Base

  datatype IssuerMode = ClosedLoop | Withdrawable

  datatype CurrencyUnit = Sat | OtherUnit

  /** The payment hash of the preimage derived from a serial and a mint; distinct pairs hash apart. */
  datatype PaymentHash = PaymentHash(serial: u64, mint: Id)

  datatype Bolt11 = Bolt11(hash: PaymentHash, amountMsat: Option<u64>)

  datatype InvoiceRecord = InvoiceRecord(
    recipient: Id, amount: u64, expiresAt: u64, paidBy: Option<Id>, fee: u64)

  datatype Network = Network(
    nextInvoice: u64,
    invoices: map<PaymentHash, InvoiceRecord>,
    modes: map<Id, IssuerMode>,
    online: map<Id, bool>,
    reserves: map<Id, u64>,
    externalFunding: u64,
    feeSink: u64)

  datatype OutgoingOptions =
    | PayBolt11(invoice: Bolt11, meltMsat: Option<u64>, maxFee: Option<(CurrencyUnit, u64)>)
    | OtherOptions

  datatype NetError =
    | EmptyMintId | ModeConflict | UnknownMint | UnknownInvoice | InvoiceAlreadyPaid | InvoiceExpired
    | AmountMismatch | SourceOffline | DestinationOffline | NoReserveAccount | InsufficientLiquidity
    | ReserveOverflow | FundingOverflow | FeeSinkOverflow | WithdrawalsNotAllowed | UnsupportedUnit
    | UnsupportedPaymentOption | FeeAboveMaximum | ExpiryNotInFuture | SequenceOverflow
    | InvoiceNotBuilt | UnknownPaymentState | InconsistentReserves

  const EXTERNAL: Id := "external"
  const DEFAULT_LIFETIME: u64 := 3600

  const NEW_NETWORK := Network(0, map[], map[], map[], map[], 0, 0)

  // ---------------------------------------------------------------- registration

  function PaymentBackend(n: Network, mint: Id, mode: IssuerMode): Result<Network, NetError> {
    if mint == "" then Err(EmptyMintId)
    else if mint in n.modes then (if n.modes[mint] != mode then Err(ModeConflict) else Ok(n))
    else Ok(n.(modes := n.modes[mint := mode], online := n.online[mint := true],
               reserves := n.reserves[mint := 0]))
  }

  function SetOnline(n: Network, mint: Id, up: bool): Result<Network, NetError> {
    if mint !in n.online then Err(UnknownMint) else Ok(n.(online := n.online[mint := up]))
  }

  // ---------------------------------------------------------------- invoices

  datatype Created = Created(network: Network, invoice: Result<Bolt11, NetError>)

  /**
   * A refusal after the serial is taken leaves the serial used up. `built` says whether deriving the
   * key and building and signing the invoice succeeded.
   */
  function CreateInvoice(n: Network, mint: Id, amount: u64, requestedExpiry: Option<u64>, now: u64, built: bool): Created {
    var expiresAt := if requestedExpiry.Some? then requestedExpiry.value else SaturatingAdd(now, DEFAULT_LIFETIME);
    if amount == 0 then Created(n, Err(AmountMismatch))
    else if expiresAt <= now then Created(n, Err(ExpiryNotInFuture))
    else if mint !in n.modes then Created(n, Err(UnknownMint))
    else if n.nextInvoice + 1 > U64_MAX then Created(n, Err(SequenceOverflow))
    else
      var taken := n.(nextInvoice := n.nextInvoice + 1);
      if amount * 1000 > U64_MAX then Created(taken, Err(AmountMismatch))
      else if !built then Created(taken, Err(InvoiceNotBuilt))
      else
        var hash := PaymentHash(n.nextInvoice, mint);
        Created(taken.(invoices := n.invoices[hash := InvoiceRecord(mint, amount, expiresAt, None, 0)]),
                Ok(Bolt11(hash, Some(amount * 1000))))
  }

  function EnsurePayable(record: InvoiceRecord, invoice: Bolt11, now: u64): Check<NetError> {
    if record.paidBy.Some? then Fail(InvoiceAlreadyPaid)
    else if record.expiresAt <= now then Fail(InvoiceExpired)
    else if invoice.amountMsat.None? || invoice.amountMsat.value != SaturatingMul(record.amount, 1000) then
      Fail(AmountMismatch)
    else Pass
  }

  function Online(n: Network, mint: Id): bool { mint in n.online && n.online[mint] }

  function SettleExternal(n: Network, invoice: Bolt11, now: u64): Result<Network, NetError> {
    if invoice.hash !in n.invoices then Err(UnknownInvoice)
    else
      var record := n.invoices[invoice.hash];
      :- EnsurePayable(record, invoice, now);
      :- Need(Online(n, record.recipient), DestinationOffline);
      :- Need(record.recipient in n.reserves, NoReserveAccount);
      :- Need(n.reserves[record.recipient] + record.amount <= U64_MAX, ReserveOverflow);
      :- Need(n.externalFunding + record.amount <= U64_MAX, FundingOverflow);
      Ok(n.(invoices := n.invoices[invoice.hash := record.(paidBy := Some(EXTERNAL), fee := 0)],
            reserves := n.reserves[record.recipient := n.reserves[record.recipient] + record.amount],
            externalFunding := n.externalFunding + record.amount))
  }

  // ---------------------------------------------------------------- payments

  datatype Outgoing = Outgoing(invoice: Bolt11, amount: u64, maxFee: Option<u64>)

  function OutgoingInvoice(options: OutgoingOptions): Result<Outgoing, NetError> {
    match options
    case OtherOptions => Err(UnsupportedPaymentOption)
    case PayBolt11(invoice, meltMsat, maxFee) =>
      if invoice.amountMsat.None? then Err(AmountMismatch)
      else
        var requested := if meltMsat.Some? then meltMsat.value else invoice.amountMsat.value;
        if requested != invoice.amountMsat.value || requested % 1000 != 0 then Err(AmountMismatch)
        else if maxFee.Some? && maxFee.value.0 != Sat then Err(UnsupportedUnit)
        else Ok(Outgoing(invoice, requested / 1000, if maxFee.Some? then Some(maxFee.value.1) else None))
  }

  /** The checks shared by a quote and a payment, and the outgoing invoice they leave. */
  function Outbound(mode: IssuerMode, unit: CurrencyUnit, options: OutgoingOptions): Result<Outgoing, NetError> {
    if mode == ClosedLoop then Err(WithdrawalsNotAllowed)
    else if unit != Sat then Err(UnsupportedUnit)
    else OutgoingInvoice(options)
  }

  datatype Quoted = Quoted(amount: u64, fee: u64)

  function Quote(n: Network, fee: u64, mode: IssuerMode, unit: CurrencyUnit, options: OutgoingOptions, now: u64)
    : Result<Quoted, NetError>
  {
    var out :- Outbound(mode, unit, options);
    :- Need(out.invoice.hash in n.invoices, UnknownInvoice);
    var record := n.invoices[out.invoice.hash];
    :- EnsurePayable(record, out.invoice, now);
    :- Need(out.amount == record.amount, AmountMismatch);
    Ok(Quoted(out.amount, fee))
  }

  /** The transfer inside a payment, once the invoice is known to be payable. */
  function Transfer(n: Network, fee: u64, payer: Id, hash: PaymentHash, amount: u64, total: u64): Result<Network, NetError>
    requires hash in n.invoices && total == amount + fee
  {
    var record := n.invoices[hash];
    var recipient := record.recipient;
    :- Need(Online(n, recipient), DestinationOffline);
    :- Need(payer in n.reserves, NoReserveAccount);
    :- Need(total <= n.reserves[payer], InsufficientLiquidity);
    :- Need(recipient in n.reserves, NoReserveAccount);
    var debited := n.reserves[payer] - total;
    var base := if payer == recipient then debited else n.reserves[recipient];
    :- Need(base + amount <= U64_MAX, ReserveOverflow);
    :- Need(n.feeSink + fee <= U64_MAX, FeeSinkOverflow);
    Ok(n.(invoices := n.invoices[hash := record.(paidBy := Some(payer), fee := fee)],
          reserves := if payer == recipient then n.reserves[payer := base + amount]
                      else n.reserves[payer := debited][recipient := base + amount],
          feeSink := n.feeSink + fee))
  }

  function Pay(n: Network, fee: u64, payer: Id, mode: IssuerMode, unit: CurrencyUnit, options: OutgoingOptions, now: u64)
    : Result<Network, NetError>
  {
    var out :- Outbound(mode, unit, options);
    :- Need(out.maxFee.None? || fee <= out.maxFee.value, FeeAboveMaximum);
    :- Need(out.amount + fee <= U64_MAX, AmountMismatch);
    :- Need(Online(n, payer), SourceOffline);
    :- Need(out.invoice.hash in n.invoices, UnknownInvoice);
    var record := n.invoices[out.invoice.hash];
    :- EnsurePayable(record, out.invoice, now);
    :- Need(out.amount == record.amount, AmountMismatch);
    Transfer(n, fee, payer, out.invoice.hash, out.amount, out.amount + fee)
  }

  /** A payment by the backend of `payer`: a backend exists only for a registered mint, in its mode. */
  function PayFrom(n: Network, fee: u64, payer: Id, unit: CurrencyUnit, options: OutgoingOptions, now: u64)
    : Result<Network, NetError>
  {
    if payer !in n.modes then Err(UnknownMint) else Pay(n, fee, payer, n.modes[payer], unit, options, now)
  }

  // ---------------------------------------------------------------- status

  /** What the recipient is told: the amount received, once paid. */
  function IncomingStatus(n: Network, mint: Id, hash: PaymentHash): Option<u64> {
    if hash in n.invoices && n.invoices[hash].recipient == mint && n.invoices[hash].paidBy.Some?
    then Some(n.invoices[hash].amount) else None
  }

  datatype Payment = Payment(paid: bool, totalSpent: u64)

  /** What a payer is told about an invoice. */
  function OutgoingStatus(n: Network, payer: Id, hash: PaymentHash): Result<Payment, NetError> {
    if hash !in n.invoices then Err(UnknownPaymentState)
    else
      var record := n.invoices[hash];
      if record.paidBy == Some(payer) then Ok(Payment(true, SaturatingAdd(record.amount, record.fee)))
      else Ok(Payment(false, 0))
  }

  datatype Accounting = Accounting(
    mints: map<Id, (IssuerMode, u64)>, totalReserve: u64, feeSink: u64, totalAccounted: u64, externalFunding: u64)
  {
    predicate IsConserved() { totalAccounted == externalFunding }
  }

  // ---------------------------------------------------------------- the network object

  class PaymentNetwork {
    const fee: u64
    var nextInvoice: u64
    var invoices: map<PaymentHash, InvoiceRecord>
    var modes: map<Id, IssuerMode>
    var online: map<Id, bool>
    var reserves: map<Id, u64>
    var externalFunding: u64
    var feeSink: u64

    function View(): Network
      reads this
    {
      Network(nextInvoice, invoices, modes, online, reserves, externalFunding, feeSink)
    }

    constructor (fee: u64)
      ensures View() == NEW_NETWORK && this.fee == fee
    {
      this.fee := fee;
      nextInvoice, invoices, modes, online, reserves := 0, map[], map[], map[], map[];
      externalFunding, feeSink := 0, 0;
    }

    method RegisterBackend(mint: Id, mode: IssuerMode) returns (r: Result<MintBackend, NetError>)
      modifies this
      ensures match PaymentBackend(old(View()), mint, mode)
              case Ok(n) =>
                && r.Ok? && View() == n && r.value.network == this && r.value.Registered()
                && r.value.mint == mint && r.value.mode == mode
              case Err(e) => r == Err(e) && View() == old(View())
    {
      if mint == "" {
        return Err(EmptyMintId);
      }
      if mint in modes {
        if modes[mint] != mode {
          return Err(ModeConflict);
        }
      } else {
        modes := modes[mint := mode];
        online := online[mint := true];
        reserves := reserves[mint := 0];
      }
      var backend := new MintBackend(mint, mode, this);
      return Ok(backend);
    }

    method NewInvoice(mint: Id, amount: u64, requestedExpiry: Option<u64>, now: u64, built: bool)
      returns (r: Result<Bolt11, NetError>)
      modifies this
      ensures Created(View(), r) == CreateInvoice(old(View()), mint, amount, requestedExpiry, now, built)
    {
      if amount == 0 {
        return Err(AmountMismatch);
      }
      var expiresAt := if requestedExpiry.Some? then requestedExpiry.value else SaturatingAdd(now, DEFAULT_LIFETIME);
      if expiresAt <= now {
        return Err(ExpiryNotInFuture);
      }
      if mint !in modes {
        return Err(UnknownMint);
      }
      var serial := nextInvoice;
      if nextInvoice + 1 > U64_MAX {
        return Err(SequenceOverflow);
      }
      nextInvoice := nextInvoice + 1;
      var msat := CheckedMul(amount, 1000);
      if msat.None? {
        return Err(AmountMismatch);
      }
      if !built {
        return Err(InvoiceNotBuilt);
      }
      var hash := PaymentHash(serial, mint);
      invoices := invoices[hash := InvoiceRecord(mint, amount, expiresAt, None, 0)];
      return Ok(Bolt11(hash, msat));
    }

    method FundExternally(invoice: Bolt11, now: u64) returns (r: Check<NetError>)
      modifies this
      ensures match SettleExternal(old(View()), invoice, now)
              case Ok(n) => r == Pass && View() == n
              case Err(e) => r == Fail(e) && View() == old(View())
    {
      if invoice.hash !in invoices {
        return Fail(UnknownInvoice);
      }
      var record := invoices[invoice.hash];
      var payable := EnsurePayable(record, invoice, now);
      if payable.Fail? {
        return payable;
      }
      if !Online(View(), record.recipient) {
        return Fail(DestinationOffline);
      }
      if record.recipient !in reserves {
        return Fail(NoReserveAccount);
      }
      var funded := CheckedAdd(reserves[record.recipient], record.amount);
      if funded.None? {
        return Fail(ReserveOverflow);
      }
      var funding := CheckedAdd(externalFunding, record.amount);
      if funding.None? {
        return Fail(FundingOverflow);
      }
      invoices := invoices[invoice.hash := record.(paidBy := Some(EXTERNAL), fee := 0)];
      reserves := reserves[record.recipient := funded.value];
      externalFunding := funding.value;
      return Pass;
    }

    method MakePayment(payer: Id, mode: IssuerMode, unit: CurrencyUnit, options: OutgoingOptions, now: u64)
      returns (r: Check<NetError>)
      modifies this
      ensures match Pay(old(View()), fee, payer, mode, unit, options, now)
              case Ok(n) => r == Pass && View() == n
              case Err(e) => r == Fail(e) && View() == old(View())
    {
      var out := Outbound(mode, unit, options);
      if out.Err? {
        return Fail(out.error);
      }
      var amount, hash := out.value.amount, out.value.invoice.hash;
      if out.value.maxFee.Some? && fee > out.value.maxFee.value {
        return Fail(FeeAboveMaximum);
      }
      var total := CheckedAdd(amount, fee);
      if total.None? {
        return Fail(AmountMismatch);
      }
      if !Online(View(), payer) {
        return Fail(SourceOffline);
      }
      if hash !in invoices {
        return Fail(UnknownInvoice);
      }
      var payable := EnsurePayable(invoices[hash], out.value.invoice, now);
      if payable.Fail? {
        return payable;
      }
      if amount != invoices[hash].amount {
        return Fail(AmountMismatch);
      }
      r := Move(payer, hash, amount, total.value);
    }

    method Move(payer: Id, hash: PaymentHash, amount: u64, total: u64) returns (r: Check<NetError>)
      requires hash in invoices && total == amount + fee
      modifies this
      ensures match Transfer(old(View()), fee, payer, hash, amount, total)
              case Ok(n) => r == Pass && View() == n
              case Err(e) => r == Fail(e) && View() == old(View())
    {
      var recipient := invoices[hash].recipient;
      if !Online(View(), recipient) {
        return Fail(DestinationOffline);
      }
      if payer !in reserves {
        return Fail(NoReserveAccount);
      }
      if total > reserves[payer] {
        return Fail(InsufficientLiquidity);
      }
      var debited := reserves[payer] - total;
      if recipient !in reserves {
        return Fail(NoReserveAccount);
      }
      var credited := CheckedAdd(if payer == recipient then debited else reserves[recipient], amount);
      if credited.None? {
        return Fail(ReserveOverflow);
      }
      var sink := CheckedAdd(feeSink, fee);
      if sink.None? {
        return Fail(FeeSinkOverflow);
      }
      invoices := invoices[hash := invoices[hash].(paidBy := Some(payer), fee := fee)];
      if payer == recipient {
        reserves := reserves[payer := credited.value];
      } else {
        reserves := reserves[payer := debited];
        reserves := reserves[recipient := credited.value];
      }
      feeSink := sink.value;
      return Pass;
    }
  }

  /** What a mint holds of the network: its name and its mode, fixed when it was registered. */
  class MintBackend {
    const mint: Id
    const mode: IssuerMode
    const network: PaymentNetwork

    predicate Registered()
      reads network
    {
      mint in network.modes && network.modes[mint] == mode
    }

    constructor (mint: Id, mode: IssuerMode, network: PaymentNetwork)
      ensures this.mint == mint && this.mode == mode && this.network == network
    {
      this.mint, this.mode, this.network := mint, mode, network;
    }

    method MakePayment(unit: CurrencyUnit, options: OutgoingOptions, now: u64) returns (r: Check<NetError>)
      requires Registered()
      modifies network
      ensures Registered()
      ensures match PayFrom(old(network.View()), network.fee, mint, unit, options, now)
              case Ok(n) => r == Pass && network.View() == n
              case Err(e) => r == Fail(e) && network.View() == old(network.View())
    {
      PayKeepsModes(network.View(), network.fee, mint, mode, unit, options, now);
      hide Pay;
      r := network.MakePayment(mint, mode, unit, options, now);
    }
  }

  lemma PayKeepsModes(n: Network, fee: u64, payer: Id, mode: IssuerMode, unit: CurrencyUnit,
                      options: OutgoingOptions, now: u64)
    ensures Pay(n, fee, payer, mode, unit, options, now).Ok? ==>
              Pay(n, fee, payer, mode, unit, options, now).value.modes == n.modes
  {
  }
}
