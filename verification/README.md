# Verified model of the escrow marketplace's money core

A Dafny 4.11 project about the part of the marketplace that moves money, and the small stateful
services it leans on. `dafny verify dfyconfig.toml` checks it as a whole.

The project reads in seven groups of files.

* **Ledger and wallet** - `Ledger`, `Wallet`, `WalletProtocol`, `WalletFunds`, `WalletService`.
  Wallet calls are clients of a step machine: each has a program counter, a snapshot of the rows it
  read and, later, a write guarded by the version it read. `WalletService` is the same code as
  sequential methods in which other calls commit during every wait.
* **Settlement** - `Settlement` (the machine), `SettlementRules` (assumptions and invariants),
  `SettlementLedger` (books and postings), `SettlementFrames`, `SettlementFunding`,
  `SettlementPayout`, `SettlementRefund` (each step keeps the invariants), `SettlementEffects` (who may
  ask, and which columns change), `SettlementFees` (which fee a payout posts), `SettlementEscrow` (escrow against obligations), `SettlementLimits` (when
  exactly one more charge, payout or refund is right), `SettlementExamples`, `SettlementBreaks` and
  `SettlementLateJobs` (concrete runs), `SettlementRerun` and `SettlementRetry` (aborted handlers that run again),
  `PaymentsService` (the handlers as methods) and `Reconciliation` (the nightly report). Charges,
  redirect verifications, transfers and refunds are events that may repeat, overlap and come in any
  order. The two handlers that call the contract service inside their own transaction take two
  steps, because the contract service commits on its own connection before them; the row lock is
  held in between. No modelled method leads out of FUNDED, so contracts may also be moved along the
  table by somebody else (`MovedByOthers`).
* **Contracts** - `Contracts`: the transition table, the confirmation flags and the audit trail.
  Each transition is one atomic step, although the code reads, validates and writes without a lock.
* **Idempotency and the webhook gate** - `Idempotency`, `EventGate`.
* **Cache** - `Glob`, `Cache`, `CacheMemory`, `CacheCleanup`, `CacheVisibility`, `CacheLocks`.
* **Sessions** - `Sessions`, `SessionMemory`, `SessionService`.
* **Limiters** - `Rates`, `Throttler`, `ThrottlerBlocks`, `Lockout`.

Objects whose methods update fields are classes; their methods are proved against functions on
values, and what the service promises is proved about those functions over whole runs. Every lemma
switches automatic induction off: inductive proofs are written out, and an empty body means that the
definitions alone give the result. Amounts are whole naira, except that Paystack speaks kobo; a fee
percentage is a nonnegative rational; clocks are milliseconds and parameters. Tokens, references and
ids are opaque values that are fresh where the code draws a UUID.

## Good runs

That escrow equals the obligations is not true of all runs. `Good` in `SettlementRules` says what is
assumed of each event, and nothing else is:

* amounts and fee percentages are not negative, and a charge that is not turned away is of the payment's
  amount and for its contract;
* no `transfer.failed` is handled after the success of the same transfer;
* a funded contract is not cancelled;
* the payout job of a transfer that is not completed, and the refund job of a contract that is not
  settled, finish within the hour for which their lock was taken; a client's refund job that finds its
  contract disputed since the request does not finish, because it throws;
* a transfer's success that is not turned away is handled while the release lock stands, that is within
  the hour after the request or, once the job has completed the lock, within a week of the job, and not
  between a refund's posting and its mark;
* `refund.processed` posts for a disputed contract only, and from the posting to the mark the refund lock
  stands in the same sense;
* no disputed contract is marked for a refund that was not posted.

Success and refund may be handled before their job is through: each job calls Paystack first and
completes its lock some awaits later. That a contract is funded once, paid out once, refunded once and
never both is proved from the locks under these assumptions, not assumed. `SettlementExamples` holds
good runs to PAID_OUT, one of them with a success that overtakes its job, and to REFUNDED.
`SettlementBreaks` and `SettlementLateJobs` hold, for a late success, a success during a refund, a
refund without a row, a posting that waits for its mark, a late payout job, a late refund job and a
client's refund job after a dispute, a run that is good up to that event and ends with the wrong escrow.
`SettlementLimits` and `SettlementLedger` say exactly when a charge, a payout, a refund, a cancellation
or a reopened transfer goes wrong.

## What the proofs found

* Activation asks for FUNDED to IN_PROGRESS, which the table lacks, so a contract made by
  `createContract` can only ever be PENDING_PAYMENT or FUNDED. The other results start from any status.
* An escrow release to oneself can never commit: its first update moves the version that its second
  one needs.
* Two overlapping verifications of one wallet deposit credit it twice, because the status is checked
  outside the database transaction. An approval that overlaps an execution reopens a paid payout, which
  is then debited again.
* `unfreezeFunds` and `releaseEscrowToUser` compare with `frozen`, which also contains money promised
  to payouts. Overdrawing a hold that way is exactly what breaks the wallet's funds, and approving the
  open payouts then drives `frozen` below zero.
* Settlement changes a wallet without touching its version. If that lands between the read and the
  write of a wallet operation that writes the balance, a release included, the change is lost.
* A negative fee would unbalance the books; an admin release with a reason leaves the whole fee in
  escrow, and nothing else does.
* A `transfer.failed` handled after the success reopens the transfer, and the next success pays again
  unless the paid-out lock has been purged by then.
* A refund of a contract that is not DISPUTED takes its money out of escrow while the contract still
  counts as an obligation; a `refund.processed` for a DISPUTED contract that nobody asked a refund for
  posts nothing and yet makes the contract REFUNDED, so that its money stays in escrow for nobody.
* A transfer that succeeds more than a week after its job may be paid beside a second payout, because
  the release lock was purged; one that succeeds between a refund's posting and its mark is paid
  beside the refund; a posted refund that waits a week for its mark can be posted again.
* A funding or payout that aborted after its contract was marked converges when it runs again, whatever
  happened in between, exactly if the mark's lock row has not been purged by then.
* The audit row of a confirmation is written outside its transaction; a rollback leaves a trail that
  ends in another status.
* The idempotency lock has no owner: a holder that comes late frees the lock of its successor.
* A webhook event's key is its numeric id without its type, so two events of different types with one
  id are one event to the gate.
* The glob pattern of the cache is exact on keys without line terminators and on no others.
* The cache's sweep makes no difference to anything later exactly if it found nothing expired or the
  cache has room for one entry only.

## Model

| member | source | states |
|---|---|---|
| Ledger.PostKeepsBalanced | src/modules/wallet/wallet.service.ts:523-536 | an entry with its debit and credit keeps every account equal to its credited minus debited entries |
| Ledger.BalancedBooksSumToZero | src/modules/reconciliation/reconciliation.service.ts:93-102 | when every balance equals its entries, all balances together are zero |
| Wallet.CommitIsExec | src/modules/wallet/wallet.service.ts:515-521 | a transaction whose version guards match does exactly what the operation, funds check included, would do alone on the current state, however old the snapshot; otherwise nothing changes |
| Wallet.SelfReleaseNeverCommits | src/modules/wallet/wallet.service.ts:998-1020 | a release from a user to the same user always ends in a version conflict |
| Wallet.CommitGoesThroughIffCurrent | src/modules/wallet/wallet.service.ts:585-607 | a one-wallet transaction commits if and only if the row is still the one that was read (and a new payout's id is unused) |
| Wallet.ExecAges | src/modules/wallet/wallet.service.ts:1097-1107 | versions never fall, a row whose version stands still has not changed, and no operation changes another transaction's kind, owner or payout amount |
| Wallet.SnapshotSurvives | src/modules/wallet/wallet.service.ts:728-741 | a snapshot taken earlier stays usable across any operation of any other client |
| Wallet.ExecKeepsBalanced | src/modules/wallet/wallet.service.ts:733-786 | each wallet operation keeps the books balanced |
| Wallet.ChecksByColumns | src/modules/wallet/wallet.service.ts:567-572 | the checks refuse exactly nonpositive amounts, transactions in another status, missing wallets, new claims beyond balance less frozen and claims taken back beyond frozen |
| Wallet.ExecIsBooked | src/modules/wallet/wallet.service.ts:733-786 | each operation changes exactly the named columns: the wallet's balance, frozen and version, the system account, one entry and one transaction row |
| Wallet.NairaIsNearest | src/modules/wallet/wallet.service.ts:477 | naira are kobo divided by a hundred and rounded, halves up |
| WalletProtocol.EveryInterleavingIsSerial | src/modules/wallet/wallet.service.ts:467-540 | every interleaving of reads, guarded writes, retries and aborts ends in the state of running its committed operations one at a time in commit order, each passing its funds check there |
| WalletProtocol.EachCallCommitsAtMostOnce | src/modules/wallet/wallet.service.ts:59-87 | a call, retried or not, has committed its operation once if it finished and never otherwise |
| WalletProtocol.UndisturbedCallCommitsIffUnhindered | src/modules/wallet/wallet.service.ts:549-617 | from any state of the machine, a call that nobody disturbs commits if and only if its status, amount and funds checks pass on the current columns, no row it would create exists and a release has two different wallets; and then it changes exactly its columns |
| WalletProtocol.SelfReleaseNeverFinishes | src/modules/wallet/wallet.service.ts:938-1072 | no run ever contains a committed release to oneself |
| WalletProtocol.WalletRunsBalance | src/modules/wallet/wallet.service.ts:1097-1152 | from balanced books, every interleaving of wallet calls leaves balanced books and a zero trial balance |
| WalletFunds.EachTransactionSettlesAtMostOnce | src/modules/wallet/wallet.service.ts:670-678 | if calls on one transaction do not overlap, no deposit is credited and no payout debited more than once |
| WalletFunds.SettlesOnceIffStillOpen | src/modules/wallet/wallet.service.ts:430-439 | a settlement is the transaction's first if and only if its row is still open at commit, which the transaction itself does not recheck |
| WalletFunds.NoPayoutWithoutApproval | src/modules/wallet/wallet.service.ts:625-655 | if calls on one payout do not overlap, every execution of it in any interleaving has an approval of its own |
| WalletFunds.OverlappingVerificationsCreditTwice | src/modules/wallet/wallet.service.ts:430-480 | a concrete run in which two overlapping verifications credit one deposit twice |
| WalletFunds.OverlappingApprovalPaysTwice | src/modules/wallet/wallet.service.ts:643-655 | a concrete run in which an approval overlaps an execution, the payout is debited twice and both balance and frozen end at minus its amount |
| WalletFunds.FundsStayOkIffHoldsAreDrawnOn | src/modules/wallet/wallet.service.ts:890-905 | one operation keeps "frozen is holds plus open payouts, holds are not negative, frozen is within the balance" if and only if it draws no more than the outstanding hold |
| WalletFunds.FrozenMoneyIsCovered | src/modules/wallet/wallet.service.ts:728-754 | in every interleaving whose approvals and executions of one payout do not overlap and whose draws stay within holds, deposits credited twice included, frozen is exactly holds plus PENDING and PROCESSING payouts and lies between zero and the balance |
| WalletFunds.OverdrawnHoldsGoNegative | src/modules/wallet/wallet.service.ts:976-1009 | once a hold is overdrawn, approving and executing the user's open payouts drives frozen below zero |
| WalletServices.WalletService.UpdateWhereVersion | src/modules/wallet/wallet.service.ts:515-521 | the guarded update writes the row and raises its version if the version read is current, and reports not found and changes nothing otherwise |
| WalletServices.WalletService.Attempt | src/modules/wallet/wallet.service.ts:574-611 | one attempt is refused if and only if its wallet is missing or short, conflicts if and only if somebody wrote that wallet during the wait, clashes if and only if what it creates was created meanwhile, and otherwise commits its columns on the state others left |
| WalletServices.WalletService.ExecuteWithOptimisticLockingRetry | src/modules/wallet/wallet.service.ts:59-87 | the call ends at the first attempt that is not overtaken: refused, clashed or committed if and only if that attempt is, with the committed columns; and in a conflict if and only if every attempt was overtaken |
| WalletServices.WalletService.VerifyWalletDeposit | src/modules/wallet/wallet.service.ts:415-547 | a completed or unknown deposit is refused, a failed charge marks the transaction failed, and a successful one is credited once unless all three attempts are overtaken or the missing wallet is created meanwhile |
| WalletServices.WalletService.RequestWalletPayout | src/modules/wallet/wallet.service.ts:549-617 | a payout request freezes the amount and records a PENDING transaction together, unless the available money is short at the first undisturbed attempt, its id is taken or all three attempts are overtaken; then neither |
| WalletServices.WalletService.ProcessPayout | src/modules/wallet/wallet.service.ts:619-662 | approval succeeds exactly for a PENDING payout and moves it to PROCESSING |
| WalletServices.WalletService.ExecutePayoutTask | src/modules/wallet/wallet.service.ts:664-787 | only a PROCESSING payout is executed; after the call to Paystack it fails if and only if the wallet is missing or was written during the wait, and otherwise debits balance and frozen |
| WalletServices.WalletService.OneShot | src/modules/wallet/wallet.service.ts:789-862 | freeze, unfreeze and fee refuse exactly on a nonpositive amount, a missing wallet or too little money, conflict exactly if the wallet was written during the wait, and commit otherwise |
| WalletServices.WalletService.ReleaseEscrowToUser | src/modules/wallet/wallet.service.ts:938-1072 | refuses exactly on a nonpositive amount, a missing source or too little frozen; clashes exactly if the missing destination is created meanwhile; conflicts exactly if either wallet was written after it was read or both are one; and otherwise moves the money |
| WalletServices.WalletService.WriteRelease | src/modules/wallet/wallet.service.ts:998-1060 | the transaction of a release commits if and only if both wallets are two and still as they were read |
| Settlement.LatestRefund | src/modules/payments/paystack-webhook.service.ts:331-342 | the refund transaction found for a payment is its latest one |
| SettlementLedger.WalletEntries | src/modules/wallet/wallet.service.ts:772-785 | a wallet operation appends at most one entry, of no contract and never on the escrow account |
| SettlementLedger.PayoutBalancesIffFeeIsNotNegative | src/modules/payments/paystack-webhook.service.ts:173-214 | posting a payout keeps the books balanced if and only if its fee is not negative |
| SettlementLedger.FeeIsNotNegative | src/modules/payments/payments.service.ts:616-620 | the rounded-down platform fee of a nonnegative percentage is not negative |
| SettlementEffects.FeeIsThePercentage | src/modules/payments/payments.service.ts:616-620 | the platform fee is the largest whole amount that is at most the percentage of the contract's amount |
| SettlementEffects.ReleaseActsIffAllowed | src/modules/payments/payments.service.ts:700-740 | in any state a release does anything at all if and only if the contract is READY_FOR_PAYOUT, or for an admin with a verified artisan in one of five statuses, and the release lock is free |
| SettlementEffects.ReleasePaysTheArtisan | src/modules/payments/payments.service.ts:597-698 | it adds a transfer if and only if moreover there is a recipient and the fee is below the amount; the transfer pays the artisan the amount less the floored percentage, holds the lock for an hour if it was queued, and is failed with the lock freed if it was not |
| SettlementEffects.EveryTransferWasAllowed | src/modules/payments/payments.service.ts:700-740 | in every run every transfer goes back to a release that its contract's status and the lock allowed at that moment |
| SettlementEffects.RefundActsIffAllowed | src/modules/payments/payments.service.ts:782-820 | a refund request acts if and only if the payment is verified, an admin asks or the status is none of the five that are closed to clients, and the refund lock is free; it then adds one refund of that payment |
| SettlementEffects.EveryRefundWasAllowed | src/modules/payments/payments.service.ts:782-820 | in every run every refund goes back to a request that was allowed at that moment |
| SettlementEffects.PaymentIsTheClients | src/modules/contracts/contracts.service.ts:538-563 | a payment can be initialized exactly before funding, asks the client for the contract's amount and leaves the contract PENDING_PAYMENT |
| SettlementEffects.ChargeBeginsIff | src/modules/payments/payments.service.ts:325-338 | a charge gets past its mark if and only if it is neither verified nor at work and the contract was marked for it before or is PENDING_PAYMENT; its amount is the nearest naira |
| SettlementEffects.TransferBeginsIff | src/modules/payments/paystack-webhook.service.ts:99-137 | a success gets past its mark if and only if the transfer is neither completed nor at work and the contract was marked before or is READY_FOR_PAYOUT or DISPUTED; its fee is the one in the metadata |
| SettlementEffects.RefundMarksIff | src/modules/payments/paystack-webhook.service.ts:421-424 | the mark after a refund makes exactly a DISPUTED contract REFUNDED |
| SettlementEffects.ChargeMovesMoney | src/modules/payments/payments.service.ts:403-427 | a committed charge moves exactly its naira from the payer's wallet to escrow, verifies the payment and touches no other balance |
| SettlementEffects.PayoutMovesMoney | src/modules/payments/paystack-webhook.service.ts:173-214 | a committed payout moves its amount from escrow to the artisan and its fee to the fee account, completes the transfer and touches no other balance |
| SettlementEffects.RefundMovesMoney | src/modules/payments/paystack-webhook.service.ts:344-400 | a posted refund moves the payment's amount from escrow to the payer's wallet and touches no other balance |
| SettlementEffects.PayoutJobSends | src/modules/payments/payments.service.ts:965-1010 | a payout job marks a queued transfer as sent and completes the release lock if it has a row |
| SettlementEffects.RefundJobSends | src/modules/payments/payments.service.ts:1030-1075 | a refund job does the same for the refund lock unless the contract is settled, or it is a client's and the contract disputed |
| SettlementLedger.EveryRunBalances | src/modules/payments/payments.service.ts:403-427 | after any sequence of wallet and settlement steps with nonnegative fees, every account equals its entries and the trial balance is zero |
| SettlementLedger.PlainIncrementIsLostIffBalanceIsWritten | src/modules/payments/paystack-webhook.service.ts:204-207 | an unversioned increment or decrement of a wallet between a wallet operation's read and write, releases included, leaves the books unbalanced if and only if that operation writes the balance |
| SettlementLedger.PostedAtMostOnce | src/modules/payments/paystack-webhook.service.ts:99-109 | however charge, transfer and refund events are repeated, reordered or overlapped, each charge and each transfer (payout and fee) is posted at most once and each payment's refund entries equal its completed refund transactions, if no failure follows a success |
| SettlementLedger.LateFailurePaysTwiceIffLockIsKept | src/modules/payments/paystack-webhook.service.ts:264-299 | after a late transfer.failed, the next transfer.success of that reference posts the payout again if and only if the paid-out lock has not been purged |
| SettlementFrames.MarkCaseEffect | src/modules/contracts/contracts.service.ts:479-508 | a mark takes the lock, moves the contract along the table and completes the lock; without the lock it does nothing and succeeds; with a forbidden move it fails and frees the lock |
| SettlementFunding.ChargeBeginKeepsInv | src/modules/payments/payments.service.ts:325-338 | starting a charge under the row lock keeps the settlement invariants, whatever its amount and contract if it is turned away |
| SettlementFunding.ChargeEndKeepsInv | src/modules/payments/payments.service.ts:340-465 | committing or aborting a charge keeps them |
| SettlementPayout.InitiatePayoutKeepsInv | src/modules/payments/payments.service.ts:597-698 | initiating a payout, whatever its outcome, keeps them, among them that each contract has at most one transfer that can still pay |
| SettlementPayout.RunPayoutJobKeepsInv | src/modules/payments/payments.service.ts:965-1019 | running a payout job once or again, before or after its transfer's success, keeps them |
| SettlementPayout.TransferBeginKeepsInv | src/modules/payments/paystack-webhook.service.ts:99-109 | starting a transfer's success handler keeps them, before or after the job completed its lock, and at any time if the handler is turned away |
| SettlementPayout.TransferEndKeepsInv | src/modules/payments/paystack-webhook.service.ts:114-237 | committing or aborting it keeps them |
| SettlementRefund.RequestRefundKeepsInv | src/modules/payments/payments.service.ts:762-891 | a refund request, granted, refused or undone, keeps the invariants, among them that each contract has at most one refund that can still be posted |
| SettlementRefund.RunRefundJobKeepsInv | src/modules/payments/payments.service.ts:1030-1075 | running a refund job once or again keeps them |
| SettlementRefund.PostableOnce | src/modules/payments/payments.service.ts:810-820 | from the refund lock: when a refund may be posted, no other refund of its contract was posted |
| SettlementRefund.RefundPostKeepsInv | src/modules/payments/paystack-webhook.service.ts:320-419 | posting a refund keeps them, before or after the job completed its lock |
| SettlementRefund.RefundMarkKeepsInv | src/modules/payments/paystack-webhook.service.ts:421-424 | marking a contract for its refund keeps them |
| SettlementFees.FeeIsKeptIffOverwritten | src/modules/payments/payments.service.ts:745-758 | a completed payout leaves its whole fee in escrow if an admin's reason replaced its metadata before the confirmation, and none of it otherwise |
| SettlementFees.NoReasonNoFeeKept | src/modules/payments/paystack-webhook.service.ts:131-137 | a run without such a replacement leaves no fee in escrow |
| SettlementEscrow.GoodRunsKeepInv | src/modules/payments/paystack-webhook.service.ts:99-259 | every good run keeps the settlement invariants: who funded a contract, who may pay it out, which refund may be posted |
| SettlementEscrow.EscrowPerContract | src/modules/payments/paystack-webhook.service.ts:99-259 | in every good run and at every moment, the escrow held for a contract is its amount while it holds funds, plus the fees of its payouts whose metadata was replaced, plus its lag, which is zero unless a handler is between its mark and its postings |
| SettlementEscrow.EscrowAtEveryMoment | src/modules/reconciliation/reconciliation.service.ts:28-46 | in every good run and at every moment the escrow balance is the summed amounts of the contracts in the six fund-holding statuses, plus the fees of payouts settled after an admin release with a reason, plus the lags of all contracts |
| SettlementEscrow.EscrowMatchesObligations | src/modules/reconciliation/reconciliation.service.ts:28-46 | so it is exactly the obligations and those fees whenever no contract lags behind an unfinished handler |
| SettlementEscrow.EscrowIsReconciledAtRest | src/modules/reconciliation/reconciliation.service.ts:28-46 | the same at every moment of an abort-free good run with no handler in flight and every posted refund marked |
| SettlementEscrow.EscrowIsTheObligations | src/modules/reconciliation/reconciliation.service.ts:28-46 | there, without releases that give a reason, escrow is exactly the obligations |
| SettlementExamples.AGoodRunPaysOut | src/modules/payments/payments.service.ts:745-758 | a good run takes a contract to PAID_OUT by an admin release with a reason, after which exactly the dropped fee is left in escrow |
| SettlementExamples.AnEarlySuccessIsGood | src/modules/payments/payments.service.ts:975-1010 | a good run in which the success is handled before the payout job has completed its lock ends in the same state |
| SettlementExamples.AGoodRunRefunds | src/modules/payments/paystack-webhook.service.ts:301-427 | a good run takes a disputed contract to REFUNDED and empties its escrow |
| SettlementBreaks.RefundNobodyAskedForBreaks | src/modules/payments/paystack-webhook.service.ts:331-344 | a good run after which refund.processed for a disputed contract without a refund row marks it REFUNDED with its amount still in escrow |
| SettlementBreaks.LateSuccessBreaks | src/common/services/idempotency.service.ts:85-101 | a good run in which the release lock is purged after a week and a second payout succeeds, after which the first one succeeds too and the amount is missing in escrow |
| SettlementBreaks.SuccessDuringRefundBreaks | src/modules/payments/paystack-webhook.service.ts:421-424 | a good run up to a refund's posting, after which a payout of the same disputed contract succeeds and the amount is missing in escrow |
| SettlementBreaks.UnmarkedRefundBreaks | src/modules/payments/paystack-webhook.service.ts:421-424 | a good run up to a refund's posting, whose mark then waits a week: the refund is requested and posted again and the amount is missing in escrow |
| SettlementLateJobs.LatePayoutJobBreaks | src/modules/payments/payments.service.ts:965-1019 | a good run in which a release lock expires and a second payout succeeds, after which the first job runs and its transfer succeeds too and the amount is missing in escrow |
| SettlementLateJobs.LateRefundJobBreaks | src/modules/payments/payments.service.ts:1030-1075 | a good run up to a refund job that finds its lock purged; the refund is requested and posted again before the mark and the amount is missing in escrow |
| SettlementLateJobs.ClientJobAfterDisputeBreaks | src/modules/contracts/contracts.service.ts:782-810 | a good run up to a client's refund job on a contract disputed since; its lock expires, the refund is requested and posted again before the mark and the amount is missing in escrow |
| SettlementLimits.SecondPaymentRollsBack | src/modules/payments/payments.service.ts:452-462 | a second payment for a funded contract leaves no trace at all |
| SettlementLimits.EscrowIsRightIffAmountMatches | src/modules/payments/payments.service.ts:403-413 | committing a charge leaves the contract's escrow right if and only if Paystack charged the contract's amount |
| SettlementLimits.PayoutIsRightIffNothingElseWasPaid | src/modules/payments/paystack-webhook.service.ts:99-259 | a success handled from mark to commit leaves the contract's escrow right, up to the retained fee, if and only if no other transfer of the contract is completed and no refund of it is posted |
| SettlementLimits.RefundIsRightIffPostedForDispute | src/modules/payments/paystack-webhook.service.ts:320-424 | handling refund.processed for a contract that has its amount in escrow, from posting to mark, leaves it right if and only if it posts exactly when the contract is DISPUTED |
| SettlementLimits.RefundIsRightIffPaidOnce | src/modules/payments/paystack-webhook.service.ts:320-424 | in any status of a funded contract it leaves escrow right, up to retained fees, if and only if payouts and refunds posted for the contract, this one included, number one if it is settled afterwards and none if it holds funds |
| SettlementLimits.RefundIsRightIffNothingElseWasPaid | src/modules/payments/paystack-webhook.service.ts:331-344 | a refund posted for a disputed contract is right if and only if no other refund of it was posted and no transfer of it is completed |
| SettlementLimits.MoveIsRightIffNothingHeldIsCancelled | src/modules/contracts/contracts.service.ts:85-132 | a move along the table from outside leaves escrow right if and only if it does not cancel a contract that holds funds |
| SettlementRerun.MarkAgain | src/modules/contracts/contracts.service.ts:724-755 | a second mark under the same key, at any later time before a purge, changes nothing and succeeds |
| SettlementRerun.RerunningFunding | src/modules/payments/payments.service.ts:452-462 | running the funding handler any number of times, aborted or not and with any waits, equals running it once, committed if any run committed |
| SettlementRerun.RerunPostsIffLockIsKept | src/modules/contracts/contracts.service.ts:479-508 | after an abort, whatever became of the locks and the clock, a rerun posts the charge if and only if the mark's lock row has not been purged |
| SettlementRerun.RerunningPayout | src/modules/payments/paystack-webhook.service.ts:236-237 | the same for the payout confirmation |
| SettlementRetry.FundingRetriedIffLockIsKept | src/modules/payments/payments.service.ts:452-462 | after any number of aborted fundings of a payment, with any other events between them, a retry records exactly the charge if the mark's lock row is still there and changes nothing otherwise; it is there for a week |
| SettlementRetry.PayoutRetriedIffLockIsKept | src/modules/payments/paystack-webhook.service.ts:236-237 | the same for a payout confirmation whose contract is PAID_OUT without its postings, with job reruns, failure reports and metadata changes of the same transfer in between; the fee is read at the retry |
| PaymentsServices.PaymentsService.MarkContract | src/modules/contracts/contracts.service.ts:724-763 | acquire, transition and complete, or release and throw |
| PaymentsServices.PaymentsService.VerifyPaystackPayment | src/modules/payments/payments.service.ts:325-465 | the funding handler run alone does what its two steps of the machine do together |
| PaymentsServices.PaymentsService.InitiatePayout | src/modules/payments/payments.service.ts:597-698 | the payout request with its undo does what its step of the machine does, and succeeds exactly if the status allows it to the caller, the lock is free, there is a recipient and something to pay, and the job is queued |
| PaymentsServices.PaymentsService.ReleaseEscrowByAdmin | src/modules/payments/payments.service.ts:707-760 | an admin release is a payout whose metadata a reason overwrites |
| PaymentsServices.PaymentsService.ProcessEscrowPayout | src/modules/payments/payments.service.ts:965-1019 | the payout job sends the transfer and completes the release lock |
| PaymentsServices.PaymentsService.HandleTransferSuccess | src/modules/payments/paystack-webhook.service.ts:79-262 | the handler run alone does what its two steps of the machine do together |
| PaymentsServices.PaymentsService.HandleTransferFailed | src/modules/payments/paystack-webhook.service.ts:264-299 | the transfer becomes FAILED whatever it was |
| PaymentsServices.PaymentsService.RefundContract | src/modules/payments/payments.service.ts:762-891 | the refund request with its undo does what its step of the machine does, and succeeds exactly if the payment is verified, the status allows it to the caller, the lock is free and the job is queued |
| PaymentsServices.PaymentsService.ProcessEscrowRefund | src/modules/payments/payments.service.ts:1030-1075 | the refund job asks Paystack and completes the refund lock unless the contract service throws in between |
| PaymentsServices.PaymentsService.FindLatestRefund | src/modules/payments/paystack-webhook.service.ts:331-342 | the search finds the latest refund transaction of the payment |
| PaymentsServices.PaymentsService.HandleRefundProcessed | src/modules/payments/paystack-webhook.service.ts:301-427 | the refund is posted first and the contract marked afterwards |
| Reconciliation.ReconciliationService.SumObligations | src/modules/reconciliation/reconciliation.service.ts:28-46 | the sum of the amounts of contracts in the six fund-holding statuses |
| Reconciliation.ReconciliationService.SumBalances | src/modules/reconciliation/reconciliation.service.ts:93-99 | the sum of all account balances, in whatever order the rows come |
| Reconciliation.ReconciliationService.RunReconciliation | src/modules/reconciliation/reconciliation.service.ts:23-149 | the report is a success if and only if Paystack's balance equals the obligations and the trial balance is zero; each mismatch leaves its audit record and nothing else does |
| Reconciliation.ReplyDecidesTheReport | src/modules/reconciliation/reconciliation.service.ts:154-183 | the first balance counts, in kobo; an empty list counts as nothing; and during an outage the report never shows a discrepancy |
| Reconciliation.NeverImbalanced | src/modules/reconciliation/reconciliation.service.ts:101-127 | the report never says IMBALANCED after a run with nonnegative fees and amounts |
| Reconciliation.SuccessIffPaystackHoldsTheEscrow | src/modules/reconciliation/reconciliation.service.ts:55-91 | at rest after an abort-free good run the report is a success if and only if Paystack holds the escrow balance less the fees that admin releases with a reason left there |
| Contracts.TableLeadsTo | src/modules/contracts/contracts.service.ts:80-127 | the transition table read backwards: from which statuses each one can be reached |
| Contracts.MarkGoesThroughIff | src/modules/contracts/contracts.service.ts:466-564 | each mark moves the contract if and only if its lock is granted and the status is one of those named |
| Contracts.ConfirmationGoesThroughIff | src/modules/contracts/contracts.service.ts:566-653 | a client's confirmation goes through exactly from IN_PROGRESS, or from CLIENT_CONFIRMED after the artisan's; an artisan's exactly from CLIENT_CONFIRMED; with the flag and the next status |
| Contracts.ApprovalGoesThroughIff | src/modules/contracts/contracts.service.ts:655-685 | an approved deliverable makes exactly a CLIENT_CONFIRMED contract READY_FOR_PAYOUT, with both flags |
| Contracts.RankFallsIffFlagIsMissing | src/modules/contracts/contracts.service.ts:106-110 | a service step lowers a contract's rank in one case only: an artisan confirming a CLIENT_CONFIRMED contract without the client's flag |
| Contracts.StatusOnlyRises | src/modules/contracts/contracts.service.ts:566-685 | in every run CLIENT_CONFIRMED implies the client's flag and READY_FOR_PAYOUT both, every change of status raises the rank, at most eight changes happen, and a settled status is never left |
| Contracts.ReachableStatuses | src/modules/contracts/contracts.service.ts:357-464 | from a new contract exactly PENDING_PAYMENT and FUNDED are reachable |
| Contracts.AuditReplaysToStatus | src/modules/contracts/contracts.service.ts:142-208 | after any run the audit records form a chain of table entries from the first status to the current one |
| Contracts.RolledBackConfirmationBreaksTheTrail | src/modules/contracts/contracts.service.ts:571-652 | if a confirmation rolls back after its audit row was written, the trail ends in another status than the contract's |
| Contracts.ContractsService.TransitionContractStatus | src/modules/contracts/contracts.service.ts:155-207 | a transition happens with its audit record if the table has it, and otherwise nothing changes |
| Contracts.ContractsService.MarkUnderLock | src/modules/contracts/contracts.service.ts:724-763 | the mark* methods: acquire, transition, complete, or release and throw |
| Contracts.ContractsService.ActivateContract | src/modules/contracts/contracts.service.ts:410-464 | activation of a FUNDED contract that gets its lock always fails |
| Contracts.ContractsService.RequestPaymentInit | src/modules/contracts/contracts.service.ts:538-563 | succeeds exactly from DRAFT, PAYMENT_FAILED and PENDING_PAYMENT and leaves the contract PENDING_PAYMENT |
| Contracts.ContractsService.Confirm | src/modules/contracts/contracts.service.ts:566-653 | a confirmation sets the party's flag and moves the status as the machine says, or refuses and changes nothing |
| Contracts.ContractsService.HandleDeliverableApproved | src/modules/contracts/contracts.service.ts:655-685 | approval of a deliverable sets both flags together with READY_FOR_PAYOUT where the table allows it |
| Idempotency.LocksByColumns | src/common/services/idempotency.service.ts:21-101 | a key is to be had exactly without a row or with an uncompleted one that ran out, a lock lasts an hour, and a purge deletes exactly the uncompleted rows that ran out and the completed ones after seven days |
| Idempotency.PurgeChangesAnswerIffOld | src/common/services/idempotency.service.ts:85-101 | purging changes what tryAcquire answers, then or later, if and only if the row was completed over seven days before |
| Idempotency.IdempotencyService.TryAcquire | src/common/services/idempotency.service.ts:21-49 | granted exactly for a missing row or an expired uncompleted one |
| Idempotency.IdempotencyService.PurgeExpired | src/common/services/idempotency.service.ts:85-101 | the two deletions remove exactly the stale and the old rows and count them |
| IdempotencyRuns.AtMostOneHolder | src/common/services/idempotency.service.ts:21-80 | in every run whose holders finish within the hour a key has at most one holder |
| IdempotencyRuns.NoAcquireWhileHeldOrDone | src/common/services/idempotency.service.ts:54-66 | no acquire succeeds while the key is held or within seven days of its completion, purges included |
| IdempotencyRuns.SecondHolderIffLate | src/common/services/idempotency.service.ts:35-47 | a held key is granted again if and only if the holder's hour is over |
| IdempotencyRuns.LateReleaseFreesTheSuccessor | src/common/services/idempotency.service.ts:71-80 | a late holder's release frees the lock its successor holds |
| EventGate.SameIdSameKey | src/modules/payments/payments.controller.ts:145-153 | two deliveries with ids have one key if and only if the ids agree, whatever their types |
| EventGate.OtherKeys | src/modules/payments/payments.controller.ts:145-153 | without an id the reference decides, and without either the type and the whole data |
| EventGate.AdmittedTenMinutesApart | src/common/services/webhook-signature.service.ts:84-96 | no event is admitted to processing twice within ten minutes, in any interleaving |
| EventGate.OneHandlerForTenMinutes | src/modules/payments/payments.controller.ts:155-176 | two handlers are at work on one event only if one of them has been for at least ten minutes |
| EventGate.MarkedEventsAreTurnedAway | src/common/services/webhook-signature.service.ts:103-107 | for seven days after an event was marked every delivery of it is answered already processed |
| EventGate.AdmittedIffNotBusy | src/common/services/webhook-signature.service.ts:84-107 | in any interleaving a delivery is let through, and a checked one admitted, if and only if its event was neither begun in the last ten minutes nor marked in the last seven days; a success marks it |
| EventGate.WebhookSignatureService.PaystackWebhook | src/modules/payments/payments.controller.ts:145-181 | one delivery alone does what its check, lock and finish steps do together; a handler that throws leaves the lock |
| Glob.ParsesToAtoms | src/common/cache/in-memory-cache.service.ts:202-208 | the three rewriting passes of every pattern give a regular expression whose atoms are those of the glob, in order |
| Glob.TestIsDenotes | src/common/cache/in-memory-cache.service.ts:202-208 | the expression accepts a key without line terminators if and only if the glob denotes it |
| Glob.RightForAllPatternsIffPlain | src/common/cache/in-memory-cache.service.ts:202-208 | a key is treated right by all patterns if and only if it has no line terminator |
| Cache.InvalidationIsExact | src/common/cache/in-memory-cache.service.ts:103-115 | invalidation removes exactly the keys the glob denotes, returns their number and keeps the others in order |
| Cache.InMemoryCache.Get | src/common/cache/in-memory-cache.service.ts:46-57 | answers the unexpired entry and deletes an expired one |
| Cache.InMemoryCache.Set | src/common/cache/in-memory-cache.service.ts:65-79 | evicts only for a new key in a full store, then stores in place or at the end |
| Cache.InMemoryCache.EvictOldest | src/common/cache/in-memory-cache.service.ts:213-222 | the loop drops exactly the first tenth of the capacity, at least one entry |
| Cache.InMemoryCache.InvalidatePattern | src/common/cache/in-memory-cache.service.ts:103-115 | the loop over a snapshot of the keys keeps exactly the unmatched entries, in order, and counts the others |
| Cache.InMemoryCache.CleanupExpired | src/common/cache/in-memory-cache.service.ts:183-197 | the two sweeps keep exactly the unexpired entries and locks |
| Cache.InMemoryCache.AcquireLock | src/common/cache/in-memory-cache.service.ts:123-139 | granted exactly if no unexpired lock is on record |
| Cache.InMemoryCache.ReleaseLock | src/common/cache/in-memory-cache.service.ts:146-156 | only the token on record releases |
| CacheMemory.SizeIsBounded | src/common/cache/in-memory-cache.service.ts:65-79 | after any run the store holds at most its capacity and each key once |
| CacheMemory.MayForgetNeverLies | src/common/cache/in-memory-cache.service.ts:46-87 | after any run a lookup answers exactly the item last set and not deleted, invalidated or cleared since, unless it expired or was evicted |
| CacheMemory.OldestFirst | src/common/cache/in-memory-cache.service.ts:213-222 | after any run the entries stand in the order of their first insertion |
| CacheMemory.EvictsTheOldest | src/common/cache/in-memory-cache.service.ts:213-222 | whatever an eviction drops was first inserted before everything it leaves, and it drops a tenth of the capacity |
| CacheCleanup.CleanupIsInvisible | src/common/cache/in-memory-cache.service.ts:183-197 | a sweep changes no later answer of a lookup or of a lock acquisition, in every later run in which the unswept store need not evict |
| CacheCleanup.CleanupShowsIffSomethingExpired | src/common/cache/in-memory-cache.service.ts:65-69 | with an eviction the sweep shows: on a full store with a live oldest entry, a new key saves or loses that entry depending on whether the sweep found anything expired |
| CacheVisibility.CleanupIsInvisibleIffNothingExpired | src/common/cache/in-memory-cache.service.ts:183-197 | a sweep changes no answer of a lookup or of a lock acquisition in any later run, evictions included, if and only if it found no expired entry or the capacity is one |
| CacheLocks.HoldsAreDisjoint | src/common/cache/in-memory-cache.service.ts:123-156 | over any run the tenures of one lock key, from acquisition to the earlier of release and expiry, never overlap |
| CacheLocks.GrantedIffNobodyHolds | src/common/cache/in-memory-cache.service.ts:123-139 | after any run a key is granted if and only if every earlier tenure of it was released or has run out; the tenure lasts its lease |
| CacheLocks.StaleTokenReleasesNothing | src/common/cache/in-memory-cache.service.ts:146-156 | once a key has a later holder, releasing with the earlier token is refused and changes nothing |
| CacheLocks.OwnerReleases | src/common/cache/in-memory-cache.service.ts:146-156 | the holder of an unexpired lock can release it and the key is free from then on |
| Sessions.LiveSessionsAreIndexed | src/common/services/session.service.ts:53-69 | after any run every live session is in its user's index, which expires no earlier than the session |
| SessionMemory.SessionsAreRemembered | src/common/services/session.service.ts:45-69 | after any run a session is live exactly while its grant is good, by the history of logins, validations and logouts alone, and shows what it was created with and when it was last used |
| SessionMemory.ValidatesIffRemembered | src/common/services/session.service.ts:94-118 | a session validates if and only if it was issued, neither logged out since nor left unused for 24 hours; the answer shows it as created with the current time as last activity |
| SessionMemory.LogoutAnswers | src/common/services/session.service.ts:131-140 | logging out a session succeeds if and only if its grant is good |
| SessionMemory.LogoutCountsThem | src/common/services/session.service.ts:164-186 | logging out a user counts at least every session of that user whose grant is good |
| Sessions.LoggedOutEverywhere | src/common/services/session.service.ts:164-175 | after invalidateUserSessions no session issued to that user before ever validates again, whatever happens later |
| Sessions.ListingIsExact | src/common/services/session.service.ts:196-235 | listing returns exactly the user's live sessions and leaves exactly their ids in the index |
| SessionServices.SortIsNewestFirst | src/common/services/session.service.ts:235 | sorting keeps every session and puts the most recently active first |
| SessionServices.SessionService.CreateSession | src/common/services/session.service.ts:53-69 | the pipeline stores the session, lists it and extends the index |
| SessionServices.SessionService.ValidateSession | src/common/services/session.service.ts:94-118 | a live session is renewed together with its user's index; a dead one is refused and nothing changes |
| SessionServices.SessionService.InvalidateSession | src/common/services/session.service.ts:131-140 | a live session is deleted and taken off the index |
| SessionServices.SessionService.InvalidateUserSessions | src/common/services/session.service.ts:164-186 | every listed session and the index are deleted and counted |
| SessionServices.SessionService.GetUserSessions | src/common/services/session.service.ts:196-235 | the loop returns each live listed session once, newest first, and prunes exactly the dead ids |
| Rates.SpacedBoundsRate | src/common/throttler/redis-throttler-storage.ts:95-101 | events of which every n-th is a window later number at most n in any half-open interval as long as the window |
| Throttler.AtMostTwiceTheLimit | src/common/throttler/redis-throttler-storage.ts:83-119 | over any mix of keys and any block durations a key with limit L has at most 2L - 1 calls admitted in any half-open interval as long as its window |
| Throttler.AtMostTheLimitPerWindow | src/common/throttler/redis-throttler-storage.ts:95-101 | at most L calls are admitted per window |
| Throttler.TheBoundIsReached | src/common/throttler/redis-throttler-storage.ts:95-119 | for every limit a run reaches 2L - 1, so no smaller bound holds |
| ThrottlerBlocks.CallsAreAnsweredByTheLog | src/common/throttler/redis-throttler-storage.ts:83-119 | after any log a call is refused uncounted while a block stands, and otherwise gets the next number of its window and is refused if and only if that is beyond the limit; times left are given in seconds, rounded up |
| ThrottlerBlocks.ABlockLastsItsDuration | src/common/throttler/redis-throttler-storage.ts:83-105 | the call that exceeds the limit is refused, and so is every call of its key until its block duration is over, whatever comes in between; the first one after that finds no block |
| Throttler.ThrottlerStorage.Increment | src/common/throttler/redis-throttler-storage.ts:83-119 | one call blocks, counts or opens a window as the specification of the limiter says |
| Lockout.AtMostEightGuesses | src/common/services/account-lockout.service.ts:12-36 | over any mix of accounts, an account nobody logs in to lets at most 2M - 2 failed attempts past the lock check in any half-open interval of one attempt window; with the configured limits, eight in fifteen minutes |
| Lockout.LockHolds | src/common/services/account-lockout.service.ts:29-33 | after the attempt that reaches the limit the account is locked exactly for the lock duration |
| Lockout.SuccessForgets | src/common/services/account-lockout.service.ts:92-102 | after a success the account's counter, lock and counted attempts are what the later logins alone would give |
| Lockout.AtMostEightGuessesAfterASuccess | src/common/services/account-lockout.service.ts:12-36 | so the bound on guesses holds anew after every success |
| Lockout.RepliesTellTheState | src/common/services/account-lockout.service.ts:60-80 | a failed attempt is answered with the time the account stays locked exactly if it is locked, and otherwise with the number of counted attempts, which is below the limit |
| Lockout.AccountLockoutService.RecordFailedAttempt | src/common/services/account-lockout.service.ts:12-87 | one failed attempt does what the script specifies: refuse while locked, else count, and at the limit lock and delete the counter |
| Lockout.AccountLockoutService.RecordSuccessfulAttempt | src/common/services/account-lockout.service.ts:92-102 | a success deletes counter and lock |
| Lockout.AccountLockoutService.IsLocked | src/common/services/account-lockout.service.ts:107-131 | answers exactly whether a lock is on record that has not expired |

## Left out

- SettlementEscrow.EscrowIsReconciledAtRest: holds for good runs only, and the code enforces none of the assumptions listed under "Good runs"; `SettlementBreaks`, `SettlementLateJobs` and the if-and-only-if lemmas named there show what happens without them.
- SettlementEscrow.EscrowMatchesObligations: needs every contract without lag, that is without a handler that has marked it and not committed, or not been rerun after an abort; `EscrowAtEveryMoment` holds with the lags added, and `SettlementRetry` says when and how contracts catch up.
- SettlementEscrow.GoodRunsKeepInv: the same assumptions on runs.
- SettlementRerun.RerunPostsIffLockIsKept: between the abort and the rerun only locks and the clock change; `SettlementRetry.FundingRetriedIffLockIsKept` allows everything else.
- SettlementRerun.RerunningFunding: only the clock moves between deliveries, and a committed one may be among them; with other events in between see `SettlementRetry`.
- SettlementRerun.RerunningPayout: the same.
- WalletFunds.FrozenMoneyIsCovered: takes the discipline on holds as an assumption on the run, because the code does not enforce it; `FundsStayOkIffHoldsAreDrawnOn` shows that nothing weaker would do.
- CacheCleanup.CleanupIsInvisible: excludes later evictions of the unswept store, where the claim is false; `CacheVisibility.CleanupIsInvisibleIffNothingExpired` says exactly when.
- Contracts.StatusOnlyRises: each transition is one atomic step, although the code reads, checks and writes without a lock, so that two overlapping transitions could both pass the check.
- Lockout.AtMostEightGuesses: identifiers are taken as already normalised; a success in between resets the count; `AtMostEightGuessesAfterASuccess` states the bound from there on.
- Sessions.LiveSessionsAreIndexed: each session method is one atomic step; Redis errors, on which the service fails closed, are not modelled.
- A thrown error between acquiring an idempotency key and completing it is modelled only as a refused transition or an aborted transaction; a process crash there, or a failing job lookup after a mark, is not.
- Settlement increments of user wallets are kept out of the versioned wallet protocol; both meet in one run of the settlement machine as atomic steps.
- The ESCROW_HOLD, ESCROW_RELEASE and PLATFORM_FEE transaction rows, financial events and audit logs of payments: written and never read by the modelled code.
- transfer.success for wallet payout references: it touches only PENDING rows, which the executed payout has left.
- The eligibility checks before a wallet payout request (identity verification, bank details): they only turn calls away earlier.
- verifyPayment by code, markPayoutInitiated, job status updates and payment metadata.
- Freezing, unfreezing and releasing also take a Redis lock; whether it is granted changes no outcome proved here, so it is not in the machine.
- The Redis path of the throttler and the two-tier Redis cache: exclusion and coherence across a switch of modes do not hold.
- Paystack requests, queues, mail, HMAC verification, JWT, password hashing and UUID generation: nondeterministic events, parameters or opaque values.
- The clients of the cache, cursor pagination, soft deletion, reviews, deliverables, analytics, admin listings and DTO validation.
