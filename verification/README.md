# A verified model of the Cashu credit account, its store, and the wallets around it

The repository keeps a two-party credit account in Cashu sats (`cashu-credit`) and the services that
store it and move the money (`cashu-service`). This project models that logic in Dafny and proves what
the design relies on, for every input, every run of calls, every interleaving and every crash point.

* **Credit account.** Peer credit, closed-loop value and withdrawable reserve per issuer; six record maps
  that are idempotency keys; an event log; an exposure counter; a revision; settlements that are pending,
  completed or cancelled. `Accounts` gives each call as a function of the account, `CreditAccounts` is the
  object with mutable fields whose methods are proved to compute those functions, and `Books` states the
  inductive invariant: every ledger bucket is the sum of what the records post to it, the log replays to
  the live ledgers, the revision counts the operations, every cap holds. `AccountAuthority` traces every
  record to an entitled caller, `AccountAvailability` says exactly when a call takes effect, `AccountAnswers` and
  `AccountRefusals` what its caller is told.
* **Snapshot validator.** The second, independent description of the same state. `Validator` and
  `SnapshotValidation` run it as the source does (loops over the records with checked totals, an in-order
  replay of the log, counting for coverage), and prove that it accepts a snapshot *exactly when* the
  snapshot restores to a state of the invariant whose gross peer credit fits in 64 bits.
* **Store.** Rows with a revision and a table of global backing claims, updated in one transaction;
  `StoreProtocol` runs any number of clients over it.
* **Payment network.** Reserves, fee sink, external funding, and invoices that are paid once.
* **Cross-mint transfer.** A crash-recovery saga: every durable step is a label of `SagaProtocol`, and the
  imperative attempt in `Sagas` is proved to perform only such steps, stopping anywhere. A *setback* is a
  stop of the process, a failed call, or an answer of a wallet or mint that is no use. `Settlements`
  links an account's authority to a transfer and its result back to the account.
* **Streaming routes.** Ceiling prices, the grace window and the routing gate; building and checking
  signed payments in sats or millisats.
* **Wallet seed.** Resolution, migration and database preservation, with a failure or stop after any effect.

The arithmetic is Rust's: `u64` is a bounded type, every checked, saturating or truncating step is written
out. `dafny verify dfyconfig.toml` checks everything.

Results where the code does *not* meet its plain reading:

* An account can be saved and then be impossible to load. Gross peer credit is never netted, so moving
  2^63 sats of credit away and back makes the validator overflow although all live exposure is 2^63
  (`GrossOverflow.NovationRoundTripIsRejected`). `Snapshots.EverySnapshotAcceptedIffGrossFits` gives the
  exact condition, `SnapshotValidation.OnlyGrossCanOverflow` shows no other total can do this.
* A mint registered under the name `external` breaks the reserve equation once it is funded
  (`NetworkTheorems.ReservedNameBreaksTheBooks`); the theorem beside it is an if-and-only-if.
* The amount due is truncated to 64 bits. The exposure bound, and that the gate never reopens by using
  more, hold exactly when the untruncated amount the gate asks for fits in 64 bits
  (`RoutePricing.ExposureIsBoundedExactlyWhen`, `NeverReopensExactlyWhen`; a failing input in
  `TruncationOpensTheGate`). That "allowed" means "not suspended" holds for every payment exactly when the
  usage is inside the grace window or the truncated price asked for is at most the truncated price owed
  (`AllowedIffNotSuspendedExactlyWhen`; `PaidButRefused` is an input where a paid-up buyer is refused).
* The account grants settlements that the transfer adapter then refuses over every route: any filled-in id,
  payout and amount is granted, but a non-canonical id (such as `s 1`) or payout, or an amount too large in
  msat, is never carried out (`GrantedAuthority.GrantedYetRefused`, `SpacedIdIsNeverCarriedOut`).
  `Settlements.WhichAuthoritiesBind` says exactly which ones can be.
* A transfer request names neither the account nor the counterparty, so authorities of two accounts can
  stand for one transfer, and its one return then completes both (`GrantedAuthority.SameTransferExactlyWhen`,
  `TwoAccountsShareOneTransfer`, `OneTransferSettlesBoth`).

## Model

| member | source | states |
|---|---|---|
| `CreditAccounts.CreditAccount.RecordBackingDeposit` | crates/cashu-credit/src/account.rs:174-203 | Field-by-field update in place gives the specified new account and reply: applied, already applied, or the conflict of a recorded id with other contents; a refused or repeated deposit leaves every field alone |
| `CreditAccounts.CreditAccount.ApplyServiceReceipt` | crates/cashu-credit/src/account.rs:206-246 | As above for receipts of all three value classes, with the event appended for peer credit only |
| `CreditAccounts.CreditAccount.ApplyPeerCredit` | crates/cashu-credit/src/account.rs:581-605 | Grants peer credit within the issuer, offline and total caps, or changes nothing |
| `CreditAccounts.CreditAccount.AllocateBacking` | crates/cashu-credit/src/account.rs:607-644 | Allocates closed-loop or withdrawable backing within its cap, or changes nothing |
| `CreditAccounts.CreditAccount.NovatePeerCredit` | crates/cashu-credit/src/account.rs:249-284 | Moves credit between two issuers, records and logs it, repeats without effect, or refuses; other contents under the same id conflict |
| `CreditAccounts.CreditAccount.ConvertPeerCredit` | crates/cashu-credit/src/account.rs:309-353 | Debits the issuer and allocates backing, also when both issuers are one |
| `CreditAccounts.CreditAccount.SettlePeerCreditWithBacking` | crates/cashu-credit/src/account.rs:287-353 | The whole backed settlement, its replay, its conflict and its refusals |
| `CreditAccounts.CreditAccount.ConsumeClosedLoop` | crates/cashu-credit/src/account.rs:356-380 | Consumes claimable closed-loop value once per id; other contents under the same id conflict |
| `CreditAccounts.CreditAccount.AuthorizeExternalSettlement` | crates/cashu-credit/src/account.rs:383-431 | Reserves amount plus maximum fee and hands out the authority on record, on a first grant and again |
| `CreditAccounts.CreditAccount.CompleteExternalSettlement` | crates/cashu-credit/src/account.rs:449-494 | Settles amount plus fee and releases the rest, once; another fee conflicts |
| `CreditAccounts.CreditAccount.CancelExternalSettlement` | crates/cashu-credit/src/account.rs:500-521 | Releases the whole reservation, once |
| `CreditAccounts.CreditAccount.Call` | crates/cashu-credit/src/account.rs:99-521 | Any public call on the object is one step of the specification |
| `AccountRuns.NewEstablishes` | crates/cashu-credit/src/account.rs:100-133 | A new account satisfies the whole invariant |
| `AccountRuns.StepKeeps` | crates/cashu-credit/src/account.rs:174-521 | Every call keeps the whole invariant |
| `AccountRuns.EveryRunKeepsTheBooks` | crates/cashu-credit/src/account.rs:100-521 | Every account reached by any run of calls from any policy satisfies the invariant |
| `Preservation.DepositKeeps` | crates/cashu-credit/src/account.rs:174-203 | A deposit keeps record sums, caps, log and revision count in step |
| `Preservation.ConsumeKeeps` | crates/cashu-credit/src/account.rs:356-380 | So does a consumption |
| `Preservation.SettlementEditKeeps` | crates/cashu-credit/src/account.rs:383-521 | So does authorizing, completing or cancelling a settlement |
| `PeerPreservation.ReceiptKeeps` | crates/cashu-credit/src/account.rs:206-246 | So does a receipt, including the replayed log and the exposure counter |
| `PeerPreservation.NovateKeeps` | crates/cashu-credit/src/account.rs:249-284 | So does a novation, with the offline clamp replayed in order |
| `PeerPreservation.BackedKeeps` | crates/cashu-credit/src/account.rs:287-353 | So does a backed settlement, same issuer included |
| `AccountHistory.RefusedOrRecordedIsInert` | crates/cashu-credit/src/account.rs:174-521 | A call that errs, or whose id is on record whatever its contents, clock or mode, leaves the whole account unchanged |
| `AccountHistory.RetryErasure` | crates/cashu-credit/src/account.rs:174-521 | Deleting all such calls from a run gives the same account, and the revision rises by exactly the number of calls kept |
| `AccountHistory.InertCallDeletes` | crates/cashu-credit/src/account.rs:174-521 | Deleting one of them from the middle of a run changes no later state and no later answer |
| `AccountHistory.RetryAfterAnyRun` | crates/cashu-credit/src/account.rs:174-521 | A call that applied is answered from its record after any further calls, at any time and in any mode |
| `AccountHistory.RunLater` | crates/cashu-credit/src/account.rs:174-521 | Over any run no record disappears or changes, and a settlement only moves out of pending |
| `AccountAuthority.ChangeIsEntitled` | crates/cashu-credit/src/account.rs:537-818 | A call that changes the account makes its own record and no other, and its caller was the party entitled to it, within policy and deadline |
| `AccountAuthority.EveryRecordWasEntitled` | crates/cashu-credit/src/account.rs:174-521 | In every run, every record of every kind was made by one call, absent before it and present after it, of the entitled authenticated party while policies and deadlines were in force; a completed or cancelled outcome, whose calls carry no caller, by the call that closed it with a fee within the maximum |
| `AccountAvailability.EveryCallAppliesExactlyWhen` | crates/cashu-credit/src/account.rs:174-521 | In every run a call takes effect exactly when it is entitled, new, filled in, and caps and ledgers leave room: no overflow but the revision and the total deposited can refuse it |
| `AccountAnswers.AcceptedIsOnRecord` | crates/cashu-credit/src/account.rs:174-521 | For every account and call, what was accepted is on record afterwards exactly as it was asked for |
| `AccountAnswers.OtherContentsConflict` | crates/cashu-credit/src/account.rs:213-219 | For every account and call, a recorded id with other contents, or a settlement closed another way, is refused with its own conflict error |
| `AccountAnswers.RepliesTellTheRecord` | crates/cashu-credit/src/account.rs:402-431 | The reply of every accepted call; an authority handed out is the one on record in the account it leaves |
| `AccountAnswers.EveryGrantIsWhole` | crates/cashu-credit/src/account.rs:402-431 | In every run the authority handed out covers the amount and the whole maximum fee and was granted before its deadline |
| `AccountAnswers.EveryCallAcceptedExactlyWhen` | crates/cashu-credit/src/account.rs:174-521 | In every run a call is accepted exactly when it takes effect or asks again for what is on record |
| `AccountRefusals.EveryRefusalHasItsReason` | crates/cashu-credit/src/account.rs:174-521 | In every run the error a refused call is given is true of the account and the call |
| `AccountRefusals.NewExactlyWhen` | crates/cashu-credit/src/account.rs:100-133 | A policy is accepted exactly when it names a counterparty and distinct well-formed issuers, and is refused for a true reason |
| `AccountTheorems.CashOutIsBacked` | crates/cashu-credit/src/account.rs:383-494 | In every run, reserved pending amounts plus amount and fee of completed settlements never exceed the issuer's recorded withdrawable deposits |
| `AccountTheorems.ExposureStaysWithinPolicy` | crates/cashu-credit/src/account.rs:581-605 | In every run the exposure counter is the sum of outstanding credit, and every configured cap of the original policy holds |
| `AccountTheorems.NovationMovesCredit` | crates/cashu-credit/src/account.rs:249-284 | Novation changes no total: one issuer loses exactly what the other gains |
| `AccountTheorems.BackedSettlementConverts` | crates/cashu-credit/src/account.rs:287-353 | Backed settlement turns unbacked credit into exactly as much backed liability |
| `AccountTheorems.PendingCanBeCancelled` | crates/cashu-credit/src/account.rs:500-521 | Any pending settlement can be cancelled; only an exhausted revision stops it |
| `AccountTheorems.PendingCanBeCompleted` | crates/cashu-credit/src/account.rs:449-494 | Any pending settlement can be completed with any fee up to its maximum, settling exactly amount plus fee |
| `AccountTheorems.ConservationErrorIsUnreachable` | crates/cashu-credit/src/account.rs:305-308 | No call in any run answers with the conservation error |
| `AccountTheorems.LogReplaysToLiveLedgers` | crates/cashu-credit/src/snapshot.rs:200-290 | In every run, replaying the log from empty ledgers gives each issuer's outstanding and offline amounts, one event per peer record |
| `AccountTheorems.ReplayOrderMatters` | crates/cashu-credit/src/ledger.rs:19-45 | An online credit and a debit commute exactly when the clamp takes nothing or the credit is zero |
| `Ledgers.PeerLedger.Debit` | crates/cashu-credit/src/ledger.rs:36-45 | The offline part never exceeds the outstanding part after a debit, and never grows |
| `Ledgers.ClosedLoopLedger.Consume` | crates/cashu-credit/src/ledger.rs:111-124 | Consumption keeps the closed-loop total conserved |
| `Ledgers.ReserveLedger.Complete` | crates/cashu-credit/src/ledger.rs:209-220 | Completion keeps the reserve total conserved |
| `Ledgers.ReserveLedger.Cancel` | crates/cashu-credit/src/ledger.rs:222-233 | So does cancellation |
| `Validator.ValidateReceipts` | crates/cashu-credit/src/snapshot.rs:162-198 | The receipt loop succeeds exactly when every receipt is well formed and the totals fit, and then adds what the receipts post |
| `Validator.ValidateNovations` | crates/cashu-credit/src/snapshot.rs:292-317 | The same for novations, debit and credit sides |
| `Validator.ValidateDeposits` | crates/cashu-credit/src/snapshot.rs:319-349 | The same for the deposit list, and exactly when it is strictly sorted by key |
| `Validator.ValidateBackedSettlements` | crates/cashu-credit/src/snapshot.rs:351-384 | The same for backed settlements |
| `Validator.ValidateConsumptions` | crates/cashu-credit/src/snapshot.rs:386-406 | The same for consumptions |
| `Validator.ValidateSettlements` | crates/cashu-credit/src/snapshot.rs:408-465 | The same for external settlements in each of their three states |
| `SnapshotValidation.ReplayEvents` | crates/cashu-credit/src/snapshot.rs:200-262 | The replay loop ends with the log's meaning, or refuses exactly when it has none or passes the revision |
| `SnapshotValidation.ValidateEvents` | crates/cashu-credit/src/snapshot.rs:200-290 | Replaying and counting accepts exactly the logs that replay to the live ledgers and cover every record, by pigeonhole |
| `SnapshotValidation.ValidateIssuers` | crates/cashu-credit/src/snapshot.rs:691-730 | Every issuer's caps and conservation, by checked sums |
| `SnapshotValidation.ValidateTotals` | crates/cashu-credit/src/snapshot.rs:467-522 | Compares each ledger bucket with the recomputed totals and the exposure with its sum and cap |
| `SnapshotValidation.ValidateRevision` | crates/cashu-credit/src/snapshot.rs:524-543 | The recount of operations equals the revision, without overflow |
| `SnapshotValidation.OnlyGrossCanOverflow` | crates/cashu-credit/src/snapshot.rs:97-108 | Under the invariant every recomputed bucket fits if the gross peer credit does |
| `SnapshotValidation.Validate` | crates/cashu-credit/src/snapshot.rs:137-160 | Accepts exactly the snapshots that restore to the invariant with gross peer credit in range |
| `SnapshotValidation.FromSnapshot` | crates/cashu-credit/src/snapshot.rs:573-606 | Restores exactly the accepted snapshots, to an account whose snapshot is the one given |
| `Snapshots.EverySnapshotAcceptedIffGrossFits` | crates/cashu-credit/src/snapshot.rs:137-160 | In every run the snapshot restores to the same account, and is accepted exactly when each issuer's gross peer credit fits |
| `Snapshots.AcceptedSnapshotIsSound` | crates/cashu-credit/src/snapshot.rs:573-606 | An accepted snapshot round-trips, satisfies the invariant, and so does every later run from it |
| `Snapshots.ListRoundTrip` | crates/cashu-credit/src/snapshot.rs:319-349 | A strictly sorted deposit list is the listing of the map it makes |
| `Snapshots.MapRoundTrip` | crates/cashu-credit/src/snapshot.rs:547-571 | Listing a keyed deposit map in order and reading the list gives the map back |
| `GrossOverflow.NovationRoundTripIsRejected` | crates/cashu-credit/src/snapshot.rs:97-101 | Three accepted calls reach an account within every cap whose snapshot is rejected |
| `Stores.RevisionRoundTrip` | crates/cashu-service/src/credit_store.rs:236-246 | Decoding the eight stored bytes gives the revision back |
| `Stores.BindBinds` | crates/cashu-service/src/credit_store.rs:184-213 | Binding keeps every owner and leaves each deposit bound to the account, or refuses |
| `Stores.BindsUnlessTaken` | crates/cashu-service/src/credit_store.rs:184-213 | Binding is refused exactly when some deposit is claimed by another account |
| `Stores.BindAddsOnlyListed` | crates/cashu-service/src/credit_store.rs:184-213 | Binding claims nothing but the listed deposits |
| `Stores.ConflictNamesTheOwner` | crates/cashu-service/src/credit_store.rs:184-213 | A claim conflict names a listed deposit and the other account that claims it |
| `Stores.CreatesExactlyWhen` | crates/cashu-service/src/credit_store.rs:92-116 | Creating succeeds exactly when the id is new and no deposit is taken; every refusal is true |
| `Stores.SavesExactlyWhen` | crates/cashu-service/src/credit_store.rs:143-181 | Saving succeeds exactly on a matching stored revision, a higher new one and free claims; every refusal, with its figures, is true |
| `Stores.LoadsExactlyWhen` | crates/cashu-service/src/credit_store.rs:118-141 | What loading answers for any database, the mismatch of stored and snapshot revision included |
| `Stores.BytesDetermine` | crates/cashu-service/src/credit_store.rs:236-246 | Eight bytes decode to a revision exactly when they are its encoding |
| `Stores.CreditAccountStore.BindBackingDeposits` | crates/cashu-service/src/credit_store.rs:184-213 | The insert loop computes the specified claim table or error |
| `Stores.CreditAccountStore.Create` | crates/cashu-service/src/credit_store.rs:92-116 | Commits row and claims together, or changes neither |
| `Stores.CreditAccountStore.Save` | crates/cashu-service/src/credit_store.rs:143-181 | Compare-and-swap on the stored revision, rolled back whole on any error |
| `Stores.CreditAccountStore.Load` | crates/cashu-service/src/credit_store.rs:118-141 | Decodes, validates and cross-checks the row |
| `StoreProtocol.StoreIsLinearizable` | crates/cashu-service/src/credit_store.rs:92-181 | For every interleaving the values stored under an id form one chain, each reached by calls from the one before; no record disappears |
| `StoreProtocol.NoLostUpdate` | crates/cashu-service/src/credit_store.rs:143-181 | For every interleaving, a save that succeeds replaces exactly the value that client loaded |
| `StoreProtocol.SaveReplacesWhatWasLoaded` | crates/cashu-service/src/credit_store.rs:143-181 | Along a chain the revision identifies the value, so a matching revision is a matching account |
| `StoreProtocol.SaveSucceedsExactlyWhen` | crates/cashu-service/src/credit_store.rs:143-181 | For every interleaving a save succeeds exactly when nobody saved since the load, something was applied, and no other account claims the backing |
| `StoreProtocol.LoadAfterSave` | crates/cashu-service/src/credit_store.rs:118-141 | What is stored loads back unchanged exactly when its gross peer credit fits |
| `StoreProtocol.ClaimsNeverMove` | crates/cashu-service/src/credit_store.rs:184-213 | No step, committed or rolled back, changes the owner of a claim |
| `StoreProtocol.OneBackingOneAccount` | crates/cashu-service/src/credit_store.rs:184-213 | For every interleaving no backing operation is in two stored accounts |
| `StoreProtocol.BackingCountedOnce` | crates/cashu-service/src/credit_store.rs:101-114 | Backing summed over all stored accounts counts each (issuer, deposit) once |
| `Networks.PaymentNetwork.RegisterBackend` | crates/cashu-service/src/simulation/network.rs:153-185 | Registering in place gives the specified network and a backend whose name and mode are the registered ones; a name taken with another mode is refused |
| `Networks.PaymentNetwork.NewInvoice` | crates/cashu-service/src/simulation/network.rs:323-390 | Issues an invoice under a fresh serial, which is used up even when building it fails |
| `Networks.PaymentNetwork.FundExternally` | crates/cashu-service/src/simulation/network.rs:203-254 | Pays an unpaid invoice from outside, or changes nothing |
| `Networks.PaymentNetwork.MakePayment` | crates/cashu-service/src/simulation/network.rs:419-513 | Pays an invoice from a reserve, payer equal to recipient included, or changes nothing |
| `Networks.MintBackend.MakePayment` | crates/cashu-service/src/simulation/network.rs:654-660 | A backend pays under its own name in its registered mode, and stays registered |
| `NetworkTheorems.ReservesRefineTheInvoiceLog` | crates/cashu-service/src/simulation/network.rs:203-513 | In every run a reserve plus everything it spent is everything it received, exactly when the mint is not named `external` or nothing was funded; reserves plus fees are the funding |
| `NetworkTheorems.ReservedNameBreaksTheBooks` | crates/cashu-service/src/simulation/network.rs:203-254 | A concrete run where the reserved name breaks the equation |
| `NetworkTheorems.PaidOnce` | crates/cashu-service/src/simulation/network.rs:739-757 | Once paid, an invoice record never changes again in any run |
| `NetworkTheorems.PaymentsNeverOverflow` | crates/cashu-service/src/simulation/network.rs:419-513 | The reserve and fee-sink overflow errors of a payment are unreachable |
| `NetworkTheorems.PaymentSucceedsExactlyWhen` | crates/cashu-service/src/simulation/network.rs:419-513 | A payment goes through exactly when a mint registered as withdrawable presents an open invoice for its amount, both mints are online, the fee is within its limit and the reserve covers it |
| `NetworkTheorems.QuoteIsExact` | crates/cashu-service/src/simulation/network.rs:392-417 | A payment goes through exactly when it is quoted, both mints are online, the fee is within its limit and the reserve covers the quote; the payer then spends what was quoted |
| `NetworkAnswers.RegistersExactlyWhen` | crates/cashu-service/src/simulation/network.rs:153-185 | When a name is registered, and that a new mint is online with an empty reserve |
| `NetworkAnswers.SwitchIsSeen` | crates/cashu-service/src/simulation/network.rs:193-201 | Switching a mint is seen by every later call, and only for that mint |
| `NetworkAnswers.InvoiceIsPresentable` | crates/cashu-service/src/simulation/network.rs:323-390 | When an invoice is made, and that the one handed back is new and can be presented at once for its amount |
| `NetworkAnswers.FundsExactlyWhen` | crates/cashu-service/src/simulation/network.rs:203-254 | External funding goes through exactly when an open invoice is presented for its amount, its mint is online and total funding fits |
| `NetworkAnswers.EveryRefusalHasItsReason` | crates/cashu-service/src/simulation/network.rs:203-513 | In every run every refusal of a payment or of external funding gives a true reason |
| `NetworkAnswers.CreateRefusal` | crates/cashu-service/src/simulation/network.rs:323-390 | A refused invoice gets a true reason and uses up at most a serial |
| `NetworkModes.ModesNeverChange` | crates/cashu-service/src/simulation/network.rs:163-184 | A registered mode never changes, so every backend handed out keeps matching the network |
| `NetworkModes.ClosedLoopNeverPays` | crates/cashu-service/src/simulation/network.rs:766-771 | In every run a closed-loop mint (or a name that is no mint) has spent nothing but external funding under the name `external`, so its reserve is all it received |
| `NetworkTheorems.OutgoingStatusIsExact` | crates/cashu-service/src/simulation/network.rs:533-563 | A payer is told it paid, and how much, for its own payments and no others |
| `NetworkTheorems.IncomingStatusIsExact` | crates/cashu-service/src/simulation/network.rs:515-531 | A recipient is told of exactly the amounts the reserve equation counts as received |
| `NetworkTheorems.Report` | crates/cashu-service/src/simulation/network.rs:256-292 | Of any network, sound or broken, the report gives the true reserves, fee sink, total and funding, so it calls conserved exactly the networks that are; a reachable one always gets a report |
| `SagaProtocol.AtMostOneQuoteIsConfirmed` | crates/cashu-service/src/wallet/cross_mint/mod.rs:314-434 | Over every run of attempts, retries and crashes, all confirmations for a transfer are of one melt quote, for one invoice of the exact amount, each with its whole preflight fee within the maximum |
| `SagaProtocol.AtMostOneQuoteIsPaid` | crates/cashu-service/src/wallet/cross_mint/mod.rs:314-434 | Of all melt quotes a transfer asked for, at most one is ever paid |
| `SagaProtocol.ConfirmedMayTurnOutPaid` | crates/cashu-service/src/wallet/cross_mint/mod.rs:231-242 | The runs considered include the crash inside a confirmation: a confirmed quote still stored as unpaid may turn out paid at any later time |
| `SagaProtocol.ReturnsAgree` | crates/cashu-service/src/wallet/cross_mint/mod.rs:244-256 | Every successful return for a transfer id is the same result, with its fee within the maximum |
| `SagaProtocol.ResultsWereIssued` | crates/cashu-service/src/wallet/cross_mint/mod.rs:436-506 | A result is saved only when the destination has issued exactly the amount against the stored invoice |
| `SagaProtocol.PaidTransferCanConclude` | crates/cashu-service/src/wallet/cross_mint/mod.rs:482-506 | For a paid and issued transfer a finishing step exists exactly when the fee is within the maximum, and after any such step its result can be returned |
| `SagaProtocol.StepKeeps` | crates/cashu-service/src/wallet/cross_mint/mod.rs:225-507 | Every durable step keeps the saga invariant |
| `Sagas.NormalizeIsIdempotent` | crates/cashu-service/src/wallet/cross_mint/mod.rs:133-159 | Normalizing a normalized request changes nothing |
| `Sagas.NormalizesExactlyWhen` | crates/cashu-service/src/wallet/cross_mint/mod.rs:133-159 | Exactly which requests are normalized, and to what |
| `Sagas.TransferService.LoadOrBegin` | crates/cashu-service/src/wallet/cross_mint/mod.rs:244-283 | Returns the stored result, resumes the same request, or begins a saga; refuses exactly another request under the id, or a beginning that is not allowed |
| `Sagas.TransferService.EnsureDestination` | crates/cashu-service/src/wallet/cross_mint/mod.rs:285-312 | Goes on only with a stored destination quote of the exact amount and its exact invoice; stops only for a setback |
| `Sagas.TransferService.EnsureSource` | crates/cashu-service/src/wallet/cross_mint/mod.rs:314-352 | Goes on only with one bound source quote whose stored terms match the saga; stops only for a setback or a mismatch |
| `Sagas.TransferService.PaySource` | crates/cashu-service/src/wallet/cross_mint/mod.rs:354-434 | Confirms nothing for a quote that was not read as unpaid, is already listed as paid, or was recovered as not paid; at most once otherwise; goes on only with a stored transaction, whose fee it saves, and only if a confirmation was answered as paid |
| `Sagas.TransferService.IssueDestination` | crates/cashu-service/src/wallet/cross_mint/mod.rs:436-475 | Goes on only when the stored destination quote is issued as bound |
| `Sagas.TransferService.Conclude` | crates/cashu-service/src/wallet/cross_mint/mod.rs:477-507 | Saves the result before returning it, and only with a fee within the maximum |
| `Sagas.TransferService.Attempt` | crates/cashu-service/src/wallet/cross_mint/mod.rs:225-507 | Stopped anywhere, an attempt leaves a run of protocol steps; it confirms at most one quote, which it read as unpaid and then found unlisted within this attempt; without leave to start it begins no saga and confirms nothing; a result agrees with every earlier return and every confirmation for its id; a refusal means a setback, another transfer, or one that cannot be concluded |
| `Settlements.WhichAuthoritiesBind` | crates/cashu-service/src/credit_settlement.rs:34-77 | Exactly which authorities of a reachable account can be carried out over a given route |
| `Settlements.BindsExactlyWhen` | crates/cashu-service/src/credit_settlement.rs:34-77 | Exactly which authorities, granted or made up, bind to a transfer, and to which |
| `GrantedAuthority.EveryAskableIsGranted` | crates/cashu-credit/src/account.rs:383-431 | Any filled-in settlement request is granted, and pending, in an account that made three calls |
| `GrantedAuthority.GrantedYetRefused` | crates/cashu-service/src/credit_settlement.rs:34-77 | Such a grant is refused over every route when its id or payout is not canonical or its amount is too large in msat |
| `GrantedAuthority.SpacedIdIsNeverCarriedOut` | crates/cashu-service/src/wallet/cross_mint/mod.rs:136-145 | A concrete pending settlement that no route and no URL normalizer can carry out |
| `GrantedAuthority.SameTransferExactlyWhen` | crates/cashu-service/src/credit_settlement.rs:70-76 | Exactly when two authorities stand for the same transfer |
| `GrantedAuthority.OneTransferSettlesBoth` | crates/cashu-service/src/credit_settlement.rs:92-117 | If two pending authorities share a transfer, its return completes both, each exactly |
| `GrantedAuthority.TwoAccountsShareOneTransfer` | crates/cashu-service/src/credit_settlement.rs:70-76 | Accounts of different counterparties do grant authorities that share a transfer |
| `Settlements.BoundIsNormal` | crates/cashu-service/src/credit_settlement.rs:70-76 | A bound request is already normal, so the transfer runs under the settlement's id |
| `Settlements.Execute` | crates/cashu-service/src/credit_settlement.rs:92-117 | An expired authority confirms no payment and begins no saga; a result answers the bound request exactly |
| `Settlements.EveryReturnedTransferSettles` | crates/cashu-service/src/credit_settlement.rs:79-117 | After any account run and any wallet run, a transfer returned for a pending authority completes it exactly, and every later return is accepted without effect |
| `RoutePricing.PriceIsLeast` | crates/cashu-service/src/spilman.rs:690-699 | The price is the least whole number of millisats covering the units at the rate |
| `RoutePricing.DueIsTruncated` | crates/cashu-service/src/spilman.rs:690-699 | The computed amount is the exact one modulo 2^64 |
| `RoutePricing.DecisionIsExact` | crates/cashu-service/src/spilman.rs:709-740 | Every figure and the state of a decision in terms of exact prices |
| `RoutePricing.RemaindersAreExact` | crates/cashu-service/src/spilman.rs:711-713 | The remainders are exactly how much more can be delivered free, and inside the grace window |
| `RoutePricing.ExposureIsBounded` | crates/cashu-service/src/spilman.rs:709-740 | While routing is allowed, what is owed beyond the payment, and the unpaid amount reported, are at most the price of the grace units, if the amount asked for fits |
| `RoutePricing.ExposureIsBoundedExactlyWhen` | crates/cashu-service/src/spilman.rs:709-740 | For every policy the bound holds for every payment exactly when the amount asked for fits |
| `RoutePricing.AllowedIffNotSuspended` | crates/cashu-service/src/spilman.rs:716-727 | Allowed exactly when not suspended, if what is owed fits |
| `RoutePricing.AllowedIffNotSuspendedExactlyWhen` | crates/cashu-service/src/spilman.rs:716-727 | The exact condition for the two to agree for every payment |
| `RoutePricing.PaidButRefused` | crates/cashu-service/src/spilman.rs:716-727 | An input where the state is paid and routing is refused |
| `RoutePricing.PayingMoreNeverSuspends` | crates/cashu-service/src/spilman.rs:716-717 | The gate is monotone in the payment, always |
| `RoutePricing.NeverReopensExactlyWhen` | crates/cashu-service/src/spilman.rs:716-717 | The gate never reopens by delivering more, up to a usage, exactly when the amount asked for there fits |
| `RoutePricing.TruncationOpensTheGate` | crates/cashu-service/src/spilman.rs:696-698 | A policy under which a suspended buyer is let through again by using more |
| `RoutePayments.UnitRoundTrip` | crates/cashu-service/src/spilman.rs:114-128 | A unit's name parses back to it |
| `RoutePayments.BalanceIsLeast` | crates/cashu-service/src/spilman.rs:130-142 | The balance for an amount is the least one worth it, saturation included |
| `RoutePayments.BuyerAndSellerAgree` | crates/cashu-service/src/spilman.rs:330-376 | Every built payment passes the claim check with the buyer's own figures and never underpays |
| `RoutePayments.ClaimIsWorthItsBalance` | crates/cashu-service/src/spilman.rs:420-470 | An accepted claim is exactly what the signed balance is worth, within capacity |
| `RoutePayments.ClaimPassesExactlyWhen` | crates/cashu-service/src/spilman.rs:420-470 | A claim passes exactly when it is on the expected channel, signed, funded if it has to be, in a known unit, worth the balance and within capacity |
| `RoutePayments.BuildsExactlyWhen` | crates/cashu-service/src/spilman.rs:330-376 | A payment is built exactly when the request is sound and the signer signed what it was asked for |
| `RoutePayments.UnitSpellings` | crates/cashu-service/src/spilman.rs:115-121 | The accepted spellings of each unit |
| `RoutePayments.ChainNeverDecreases` | crates/cashu-service/src/spilman.rs:383-411 | Along any chain of payments neither balance nor worth goes down |
| `Seeds.WalletDir.LoadSeed` | crates/cashu-service/src/wallet/persistence.rs:43-49 | What each store answers; it fails exactly when it is unavailable or the file is torn, which is never an absence |
| `Seeds.WalletDir.StoreSeed` | crates/cashu-service/src/wallet/persistence.rs:51-63 | The file store never replaces an existing file |
| `Seeds.WalletDir.Resolve` | crates/cashu-service/src/wallet/persistence.rs:102-177 | Never generates over an existing database and never chooses between two different seeds; fails only for a setback or in those states |
| `Seeds.WalletDir.FinalizeMigration` | crates/cashu-service/src/wallet/persistence.rs:179-198 | Removes the legacy file only when told to, and then succeeds only with the file gone |
| `Seeds.WalletDir.Open` | crates/cashu-service/src/wallet/runtime.rs:72-102 | Succeeds only with the seed the database was created under, which its profile then holds; the legacy file goes away only when the secure store holds its seed; fails only for a setback or where no seed can be resolved |
| `Seeds.WalletDir.RollBack` | crates/cashu-service/src/wallet/persistence.rs:255-269 | Undoing the moves last first restores every file, or leaves each in exactly one place |
| `Seeds.WalletDir.Preserve` | crates/cashu-service/src/wallet/persistence.rs:226-281 | All moved, all back, or cut short: every database file is in exactly one place, unchanged |
| `Seeds.WalletDir.Runs` | crates/cashu-service/src/wallet/persistence.rs:102-281 | Over any run of opens, preservations, failures and stops, every successful open used the seed of what it found and no seed ever held is lost |

## Left out

- Encoding: JSON, serde attributes, SQL text and TEXT columns are not modelled; a row holds the snapshot value itself, and a transaction is copy, edit, then commit or discard.
- Reasons inside an invalid-snapshot error, and the texts of all other error messages: only the kind of error is modelled.
- Snapshot record types: the snapshot shares the issuer and settlement datatypes of the account, so the field-by-field conversions between the two copies (crates/cashu-credit/src/snapshot.rs:609-689) are identities here.
- Ledgers: values with functions rather than objects edited in place, because the account edits a copy and writes it back; aliasing of a ledger is not captured.
- Map iteration order: loops over records visit them in any order, which covers the ordered iteration of the source; the order of the mint list in the accounting report is dropped.
- Authentication of issuers and counterparties, signatures and proofs: the authenticated identity is an argument, as in the source.
- Store clients: accounts enter the store by construction and calls (not by importing foreign snapshots), and a client saves with the revision it loaded.
- Payment hashes are built from serial and mint name and so are distinct by construction; BOLT11 parsing and signing, key derivation and the event broadcast streams of the payment network are not modelled.
- The CDK wallets are an environment with a stated contract (`SagaProtocol.Wallets` and the labels `AskMelt` and `Confirm`): stored quotes and transactions survive, a quote that nobody confirmed and that is not under way stays unpaid, a confirmed quote may turn out paid at any time whatever is stored about it, a quote has one transaction, a quote id is not reused, key-value writes are atomic. Mint quotes are left unconstrained. Liveness of the wallets is not modelled, so no retry is promised to finish.
- Sagas.TransferService.Attempt: fees reported by recovery or confirmation, and balances, are arbitrary values; the fee that is returned is the one of the stored transaction, as in the source.
- URL normalization is a parameter, assumed idempotent where a lemma says so.
- Seeds.WalletDir.Open: the database content beyond the seed it was written under is arbitrary; the writer lock is taken as exclusive; file permissions are not modelled.
- Seeds.WalletDir.StoreSeed: a secure store may keep anything on a write, but what it holds changes only through writes made here.
- The receiver-side bridge, token leases and message envelopes of crates/cashu-service/src/spilman.rs, the Spilman client, receiver and refund files, `helper.rs`, `private_file.rs`, `wallet.rs`, `wallet/send.rs` and `simulation/mint.rs`: thin layers over libraries and the operating system.
- Preparing a settlement without executing it (crates/cashu-service/src/credit_settlement.rs:22-32): binding plus one comparison with the deadline, which execution makes too.
- Plain accessors and listings of the account, such as the list of pending authorizations: they would only add easy members.
