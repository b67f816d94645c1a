/**
 * The three per-issuer ledgers. The account copies a ledger, edits the copy and writes it back, so a
 * ledger is a value and an edit is a function that either refuses or yields the edited ledger.
 */
module Ledgers {
  import opened Base
  import opened Protocol

  datatype PeerLedger = PeerLedger(outstanding: u64, offline: u64) {

    function Credit(amount: u64, viaOffline: bool): (r: Result<PeerLedger, CreditError>)
      ensures r.Ok? && offline <= outstanding ==> r.value.offline <= r.value.outstanding
    {
      if outstanding + amount > U64_MAX then Err(ArithmeticOverflow)
      else if !viaOffline then Ok(PeerLedger(outstanding + amount, offline))
      else if offline + amount > U64_MAX then Err(ArithmeticOverflow)
      else Ok(PeerLedger(outstanding + amount, offline + amount))
    }

    /** The offline part is clamped, so what it was before a debit cannot be recovered after it. */
    function Debit(amount: u64): (r: Result<PeerLedger, CreditError>)
      ensures r.Ok? ==> r.value.offline <= r.value.outstanding && r.value.offline <= offline
    {
      if amount > outstanding then Err(InsufficientPeerCredit)
      else Ok(PeerLedger(outstanding - amount, Min(offline, outstanding - amount)))
    }
  }

  datatype ClosedLoopLedger = ClosedLoopLedger(
    totalDeposited: u64, availableBacking: u64, claimable: u64, consumed: u64)
  {
    function Accounted(): nat { availableBacking + claimable + consumed }

    predicate Conserved() { Accounted() == totalDeposited }

    function Deposit(amount: u64): (r: Result<ClosedLoopLedger, CreditError>)
      ensures r.Ok? && Conserved() ==> r.value.Conserved()
    {
      if totalDeposited + amount > U64_MAX then Err(ArithmeticOverflow)
      else if availableBacking + amount > U64_MAX then Err(ArithmeticOverflow)
      else Ok(this.(totalDeposited := totalDeposited + amount,
                    availableBacking := availableBacking + amount))
    }

    function Allocate(amount: u64): (r: Result<ClosedLoopLedger, CreditError>)
      ensures r.Ok? && Conserved() ==> r.value.Conserved()
    {
      if amount > availableBacking then Err(InsufficientClosedLoopBacking)
      else if claimable + amount > U64_MAX then Err(ArithmeticOverflow)
      else Ok(this.(availableBacking := availableBacking - amount, claimable := claimable + amount))
    }

    function Consume(amount: u64): (r: Result<ClosedLoopLedger, CreditError>)
      ensures r.Ok? && Conserved() ==> r.value.Conserved()
    {
      if amount > claimable then Err(InsufficientClosedLoopBacking)
      else if consumed + amount > U64_MAX then Err(ArithmeticOverflow)
      else Ok(this.(claimable := claimable - amount, consumed := consumed + amount))
    }
  }

  datatype ReserveLedger = ReserveLedger(
    totalDeposited: u64, available: u64, redeemable: u64, pending: u64, settled: u64)
  {
    function Accounted(): nat { available + redeemable + pending + settled }

    predicate Conserved() { Accounted() == totalDeposited }

    function Deposit(amount: u64): (r: Result<ReserveLedger, CreditError>)
      ensures r.Ok? && Conserved() ==> r.value.Conserved()
    {
      if totalDeposited + amount > U64_MAX then Err(ArithmeticOverflow)
      else if available + amount > U64_MAX then Err(ArithmeticOverflow)
      else Ok(this.(totalDeposited := totalDeposited + amount, available := available + amount))
    }

    function Allocate(amount: u64): (r: Result<ReserveLedger, CreditError>)
      ensures r.Ok? && Conserved() ==> r.value.Conserved()
    {
      if amount > available then Err(InsufficientAvailableReserve)
      else if redeemable + amount > U64_MAX then Err(ArithmeticOverflow)
      else Ok(this.(available := available - amount, redeemable := redeemable + amount))
    }

    function Authorize(amount: u64): (r: Result<ReserveLedger, CreditError>)
      ensures r.Ok? && Conserved() ==> r.value.Conserved()
    {
      if amount > redeemable then Err(InsufficientRedeemableReserve)
      else if pending + amount > U64_MAX then Err(ArithmeticOverflow)
      else Ok(this.(redeemable := redeemable - amount, pending := pending + amount))
    }

    function Complete(amount: u64): (r: Result<ReserveLedger, CreditError>)
      ensures r.Ok? && Conserved() ==> r.value.Conserved()
    {
      if amount > pending then Err(ConservationViolation)
      else if settled + amount > U64_MAX then Err(ArithmeticOverflow)
      else Ok(this.(pending := pending - amount, settled := settled + amount))
    }

    function Cancel(amount: u64): (r: Result<ReserveLedger, CreditError>)
      ensures r.Ok? && Conserved() ==> r.value.Conserved()
    {
      if amount > pending then Err(ConservationViolation)
      else if redeemable + amount > U64_MAX then Err(ArithmeticOverflow)
      else Ok(this.(pending := pending - amount, redeemable := redeemable + amount))
    }
  }
}
