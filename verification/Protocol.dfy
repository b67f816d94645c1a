/** The records exchanged with a credit account, and the errors it answers with. */
module Protocol {
  import opened Base

  datatype CreditError =
    | WrongIssuer | WrongCounterparty | UnauthenticatedIssuer | UnauthenticatedCounterparty
    | PolicyExpired | ReceiptExpired | ReceiptNotYetValid | MissingReceiptId | ReceiptConflict
    | MissingDepositId | DepositConflict | MissingBackedSettlementId | BackedSettlementExpired
    | BackedSettlementConflict | MissingConsumptionId | ConsumptionConflict
    | UnsupportedBackingClass | NoUsefulService | ZeroAmount | ArithmeticOverflow
    | RevisionOverflow | IssuerExposureExceeded | TotalExposureExceeded | OfflineExposureExceeded
    | BackingVerificationRequired | InsufficientClosedLoopBacking | InsufficientAvailableReserve
    | InsufficientRedeemableReserve | ClosedLoopExposureExceeded | WithdrawableExposureExceeded
    | InsufficientPeerCredit | NovationExpired | MissingNovationId | NovationConflict
    | SameIssuerNovation | SettlementExpired | MissingSettlementId | MissingPayoutDestination
    | SettlementConflict | SettlementCompletionConflict | SettlementFeeExceeded
    | SettlementCancelled | SettlementCompleted | UnknownSettlement | DuplicateIssuer | NoIssuers
    | InvalidPolicy | UnsupportedSnapshotVersion | InvalidSnapshot | ConservationViolation

  datatype ValueClass = PeerCredit | ClosedLoopDeposit | ReserveBackedWithdrawable

  datatype AcceptanceMode = Online | OfflineDeferred

  datatype Receipt = Receipt(
    receiptId: Id, issuer: Id, counterparty: Id, service: Id, resource: Id, usefulUnits: u64,
    amount: u64, valueClass: ValueClass, issuedAt: u64, expiresAt: u64)

  datatype IssuerPolicy = IssuerPolicy(
    issuer: Id, maxPeerCredit: u64, maxOfflinePeerCredit: u64, maxClosedLoop: u64,
    maxWithdrawable: u64, expiresAt: Option<u64>)

  datatype AccountPolicy = AccountPolicy(
    counterparty: Id, maxTotalPeerCredit: u64, issuers: seq<IssuerPolicy>)

  datatype Novation = Novation(
    novationId: Id, counterparty: Id, fromIssuer: Id, toIssuer: Id, amount: u64, expiresAt: u64)

  datatype Deposit = Deposit(depositId: Id, issuer: Id, amount: u64, valueClass: ValueClass)

  datatype BackedSettlement = BackedSettlement(
    settlementId: Id, counterparty: Id, fromIssuer: Id, backingIssuer: Id, amount: u64,
    valueClass: ValueClass, expiresAt: u64)

  datatype Consumption = Consumption(
    consumptionId: Id, issuer: Id, counterparty: Id, resource: Id, amount: u64)

  datatype SettlementRequest = SettlementRequest(
    settlementId: Id, issuer: Id, counterparty: Id, payoutDestination: Id, amount: u64,
    maxFee: u64, expiresAt: u64)

  datatype Authorization = Authorization(
    settlementId: Id, issuer: Id, counterparty: Id, payoutDestination: Id, amount: u64,
    maxFee: u64, reserved: u64, authorizedAt: u64, expiresAt: u64)

  /** The authority granted to `request` at time `now`. */
  function AuthorizationFor(request: SettlementRequest, reserved: u64, now: u64): Authorization {
    Authorization(request.settlementId, request.issuer, request.counterparty,
                  request.payoutDestination, request.amount, request.maxFee, reserved, now,
                  request.expiresAt)
  }
}
