/** Escrow settlement: funding, payout and refund of contracts under webhooks that may be
    repeated, reordered and concurrent. One event is one atomic database step; the two handlers
    that call the contract service inside their own transaction take two, with the row lock
    held in between. */
module Settlement {
  import opened Prelude
  import opened Ledger
  import opened Idempotency
  import opened Contracts
  import W = Wallet

  datatype Case = Case(contract: Contract, amount: int, client: UserId, artisan: UserId)

  /** `txExists`: a PAYMENT transaction with this reference is on record, for `paid` naira. */
  datatype Payment = Payment(contract: nat, user: UserId, amount: int, verified: bool, txExists: bool, paid: int)

  datatype Stage = Dropped | Queued(at: int) | Sent(at: int)

  /** A TRANSFER transaction; `fee` is the platform fee that was computed for it, `metaFee` what
      its metadata says, `postedFee` what was posted with it. */
  datatype TransferRow = TransferRow(
    contract: nat,
    payee: UserId,
    amount: int,
    fee: int,
    metaFee: Option<int>,
    status: W.TxStatus,
    stage: Stage,
    postedFee: int)

  /** A REFUND transaction and its job; `admin` is who asked for it. */
  datatype RefundRow = RefundRow(contract: nat, payment: nat, admin: bool, completed: bool, stage: Stage)

  /** ReleaseKey and RefundKey are held from a request to the end of its job; the others keep a
      mark* method from running twice. */
  datatype Key = ReleaseKey(contract: nat) | RefundKey(contract: nat) | FundedKey(contract: nat, payment: nat)
               | PaidOutKey(contract: nat) | RefundedKey(contract: nat)

  /** An outer transaction that has marked its contract and not yet committed. */
  datatype Flight = ChargeFlight(about: nat, naira: int) | TransferFlight(postedFee: int)

  datatype State = State(
    books: Books,
    txs: map<W.TxId, W.Tx>,
    cases: seq<Case>,
    payments: seq<Payment>,
    transfers: seq<TransferRow>,
    refunds: seq<RefundRow>,
    keys: map<Key, Lock>,
    flights: map<Reference, Flight>,
    now: int)

  type Positive = n: nat | n > 0 witness 1

  /** How a release ends that its status allows: an admin's is turned away if the artisan is not
      verified; once the lock is held there may be no recipient, or the job cannot be queued. */
  datatype Initiation = Unverified | NoRecipient | QueueFailed | Enqueued

  datatype Event =
    | CreateContract(amount: int, client: UserId, artisan: UserId)
    | InitializePayment(contract: nat)
    | ContractStep(contract: nat, step: Contracts.Event)
    | MovedByOthers(contract: nat, moved: Contract)
    | WalletStep(op: W.Op)
    | ChargeBegin(payment: nat, kobo: int, about: nat)
    | ChargeEnd(payment: nat, commit: bool)
    | InitiatePayout(contract: nat, admin: bool, percent: int, per: Positive, outcome: Initiation)
    | OverwriteMetadata(transfer: nat)
    | RunPayoutJob(transfer: nat)
    | TransferBegin(transfer: nat)
    | TransferEnd(transfer: nat, commit: bool)
    | TransferFailed(transfer: nat)
    | RequestRefund(payment: nat, admin: bool, enqueued: bool)
    | RunRefundJob(refund: nat)
    | RefundPost(payment: nat)
    | RefundMark(payment: nat)
    | Purge
    | Tick(ms: nat)

  function Start(txs: map<W.TxId, W.Tx>): State
  {
    State(EMPTY_BOOKS, txs, [], [], [], [], map[], map[], 0)
  }

  function PurgeStep(s: State): State
  {
    s.(keys := PurgedRows(s.keys, s.now))
  }

  function TickStep(s: State, ms: nat): State
  {
    s.(now := s.now + ms)
  }

  // ----- contracts

  function CreateContractStep(s: State, k: Case): State
  {
    s.(cases := s.cases + [k])
  }

  /** A mark* method of the contract service, on its own connection. */
  function MarkCase(s: State, c: nat, k: Key, next: Status): (State, bool)
    requires c < |s.cases|
  {
    var (contract, keys, ok) := Mark(s.cases[c].contract, s.keys, k, next, s.now);
    (s.(cases := s.cases[c := s.cases[c].(contract := contract)], keys := keys), ok)
  }

  predicate MovesMoney(e: Contracts.Event)
  {
    e.MarkFunded? || e.MarkPaidOut? || e.MarkRefunded?
  }

  function StepContract(s: State, c: nat, e: Contracts.Event): State
  {
    if c < |s.cases| && !MovesMoney(e)
    then s.(cases := s.cases[c := s.cases[c].(contract := Contracts.Next(s.cases[c].contract, e))]) else s
  }

  /** Somebody outside these services moves a contract along the table. No modelled method leads
      out of FUNDED, so without such a step no contract would ever be paid out or refunded. */
  function MovedByOthersStep(s: State, c: nat, moved: Contract): State
  {
    if c < |s.cases| && moved.status in Targets(s.cases[c].contract.status)
       && moved.status !in {FUNDED, PAID_OUT, REFUNDED}
    then s.(cases := s.cases[c := s.cases[c].(contract := moved)]) else s
  }

  function InitializePaymentStep(s: State, c: nat): State
  {
    if c < |s.cases| && s.cases[c].contract.status in {PENDING_PAYMENT, DRAFT}
    then
      var s1 := s.(payments := s.payments + [Payment(c, s.cases[c].client, s.cases[c].amount, false, false, 0)]);
      StepContract(s1, c, RequestPaymentInitialization)
    else s
  }

  function WalletStepOn(s: State, op: W.Op): State
  {
    var db := W.Db(s.books, s.txs);
    if W.Legal(db, op) then s.(books := W.Exec(db, op).books, txs := W.Exec(db, op).txs) else s
  }

  // ----- funding

  /** Locks the payment row, rechecks it and marks the contract funded; an error rolls back. */
  function ChargeBeginStep(s: State, p: nat, kobo: int, about: nat): State
  {
    if p >= |s.payments| || about >= |s.cases| || Charge(p) in s.flights || s.payments[p].verified then s
    else
      var (s1, ok) := MarkCase(s, about, FundedKey(about, p), FUNDED);
      if ok then s1.(flights := s1.flights[Charge(p) := ChargeFlight(about, W.Naira(kobo))]) else s1
  }

  function ChargeEntry(p: Payment, ref: nat, about: nat, naira: int): Entry
  {
    Entry(Wallet(p.user), Escrow, naira, Charge(ref), Some(about))
  }

  function ChargeEndStep(s: State, p: nat, commit: bool): State
  {
    if p >= |s.payments| || Charge(p) !in s.flights || !s.flights[Charge(p)].ChargeFlight? then s
    else
      var f, pay := s.flights[Charge(p)], s.payments[p];
      var s1 := s.(flights := s.flights - {Charge(p)});
      if !commit then s1
      else if pay.txExists then s1.(payments := s.payments[p := pay.(verified := true)])
      else
        s1.(payments := s.payments[p := pay.(verified := true, txExists := true, paid := f.naira)],
            books := Post(EnsureWallet(s.books, pay.user), ChargeEntry(pay, p, f.about, f.naira)))
  }

  // ----- payout

  /** Math.floor(amount * percent / 100) for a percentage percent/per. */
  function PlatformFee(amount: int, percent: int, per: Positive): int
  {
    (amount * percent) / (100 * per)
  }

  predicate MayRelease(status: Status, admin: bool)
  {
    if admin then status in {FUNDED, IN_PROGRESS, CLIENT_CONFIRMED, READY_FOR_PAYOUT, DISPUTED}
    else status == READY_FOR_PAYOUT
  }

  function InitiatePayoutStep(s: State, c: nat, admin: bool, percent: int, per: Positive, outcome: Initiation): State
  {
    if c >= |s.cases| || !MayRelease(s.cases[c].contract.status, admin) || (admin && outcome.Unverified?) then s
    else if !Available(Lookup(s.keys, ReleaseKey(c)), s.now) then s
    else
      var fee := PlatformFee(s.cases[c].amount, percent, per);
      var payout := s.cases[c].amount - fee;
      var held := s.keys[ReleaseKey(c) := Acquired(s.now)];
      var row := TransferRow(c, s.cases[c].artisan, payout, fee, Some(fee), W.Pending, Queued(s.now), 0);
      if outcome.NoRecipient? || payout <= 0 then s.(keys := held)
      else if outcome.QueueFailed?
      then s.(keys := held - {ReleaseKey(c)}, transfers := s.transfers + [row.(status := W.Failed, stage := Dropped)])
      else s.(keys := held, transfers := s.transfers + [row])
  }

  /** releaseEscrowByAdmin with a reason replaces the metadata. */
  function OverwriteMetadataStep(s: State, t: nat): State
  {
    if t >= |s.transfers| || Transfer(t) in s.flights then s
    else s.(transfers := s.transfers[t := s.transfers[t].(metaFee := None)])
  }

  /** Sends the transfer and completes the release lock; a job may run again. */
  function RunPayoutJobStep(s: State, t: nat): State
  {
    if t >= |s.transfers| || s.transfers[t].stage.Dropped? then s
    else
      var row := s.transfers[t];
      var k := ReleaseKey(row.contract);
      var s1 := if row.stage.Queued? then s.(transfers := s.transfers[t := row.(stage := Sent(s.now))]) else s;
      if k in s.keys then s1.(keys := s.keys[k := s.keys[k].(completedAt := Some(s.now))]) else s1
  }

  function TransferBeginStep(s: State, t: nat): State
  {
    if t >= |s.transfers| || Transfer(t) in s.flights || s.transfers[t].status == W.Completed
       || s.transfers[t].contract >= |s.cases| then s
    else
      var row := s.transfers[t];
      var (s1, ok) := MarkCase(s, row.contract, PaidOutKey(row.contract), PAID_OUT);
      var fee := if row.metaFee.Some? then row.metaFee.value else 0;
      if ok then s1.(flights := s1.flights[Transfer(t) := TransferFlight(fee)]) else s1
  }

  function PayoutEntry(row: TransferRow, t: nat): Entry
  {
    Entry(Escrow, Wallet(row.payee), row.amount, Transfer(t), Some(row.contract))
  }

  function FeeEntry(row: TransferRow, t: nat, fee: int): Entry
  {
    Entry(Escrow, Fee, fee, Transfer(t), Some(row.contract))
  }

  /** Both entries, and the balances: escrow is debited payout plus fee whatever the fee's sign. */
  function PostPayout(b: Books, row: TransferRow, t: nat, fee: int): Books
  {
    var paid := Post(EnsureWallet(b, row.payee), PayoutEntry(row, t));
    if fee > 0 then Post(paid, FeeEntry(row, t, fee)) else paid.(escrow := paid.escrow - fee)
  }

  function TransferEndStep(s: State, t: nat, commit: bool): State
  {
    if t >= |s.transfers| || Transfer(t) !in s.flights || !s.flights[Transfer(t)].TransferFlight? then s
    else
      var fee, row := s.flights[Transfer(t)].postedFee, s.transfers[t];
      var s1 := s.(flights := s.flights - {Transfer(t)});
      if !commit then s1
      else
        s1.(transfers := s.transfers[t := row.(status := W.Completed, postedFee := fee)],
            books := PostPayout(s.books, row, t, fee))
  }

  function TransferFailedStep(s: State, t: nat): State
  {
    if t >= |s.transfers| || Transfer(t) in s.flights then s
    else s.(transfers := s.transfers[t := s.transfers[t].(status := W.Failed)])
  }

  // ----- refund

  predicate MayRequestRefund(status: Status, admin: bool)
  {
    admin || status !in {IN_PROGRESS, CLIENT_CONFIRMED, READY_FOR_PAYOUT, COMPLETED, DISPUTED}
  }

  /** refundContract: takes the refund lock, records the transaction and queues the job; if queueing
      fails the transaction stays as failed and the lock is released. */
  function RequestRefundStep(s: State, p: nat, admin: bool, enqueued: bool): State
  {
    if p >= |s.payments| || !s.payments[p].verified || s.payments[p].contract >= |s.cases| then s
    else
      var c := s.payments[p].contract;
      if !MayRequestRefund(s.cases[c].contract.status, admin) || !Available(Lookup(s.keys, RefundKey(c)), s.now) then s
      else
        var held := s.keys[RefundKey(c) := Acquired(s.now)];
        var row := RefundRow(c, p, admin, false, Queued(s.now));
        if enqueued then s.(keys := held, refunds := s.refunds + [row])
        else s.(keys := held - {RefundKey(c)}, refunds := s.refunds + [row.(stage := Dropped)])
  }

  /** The contract service's part of a refund job throws once the contract is settled, and for a
      client once it is disputed. */
  predicate RefundJobFinishes(status: Status, admin: bool)
  {
    status !in {PAID_OUT, REFUNDED} && (admin || status != DISPUTED)
  }

  /** Asks Paystack for the refund and, unless the job throws after that, completes the refund
      lock; a job may run again. */
  function RunRefundJobStep(s: State, r: nat): State
  {
    if r >= |s.refunds| || s.refunds[r].stage.Dropped? || s.refunds[r].contract >= |s.cases| then s
    else
      var row := s.refunds[r];
      var k := RefundKey(row.contract);
      var s1 := if row.stage.Queued? then s.(refunds := s.refunds[r := row.(stage := Sent(s.now))]) else s;
      if k in s.keys && RefundJobFinishes(s.cases[row.contract].contract.status, row.admin)
      then s1.(keys := s.keys[k := s.keys[k].(completedAt := Some(s.now))]) else s1
  }

  /** The most recent REFUND transaction for a payment. */
  function LatestRefund(refunds: seq<RefundRow>, p: nat): (r: Option<nat>)
    ensures r.Some? ==> r.value < |refunds| && refunds[r.value].payment == p
    ensures r.Some? ==> forall i :: r.value < i < |refunds| ==> refunds[i].payment != p
    ensures r.None? ==> forall i :: 0 <= i < |refunds| ==> refunds[i].payment != p
  {
    if refunds == [] then None
    else if refunds[|refunds| - 1].payment == p then Some(|refunds| - 1)
    else LatestRefund(refunds[..|refunds| - 1], p)
  }

  predicate RefundPosts(s: State, p: nat)
  {
    p < |s.payments| && LatestRefund(s.refunds, p).Some? && !s.refunds[LatestRefund(s.refunds, p).value].completed
  }

  function RefundEntry(pay: Payment, p: nat): Entry
  {
    Entry(Escrow, Wallet(pay.user), pay.amount, RefundOf(p), Some(pay.contract))
  }

  function RefundPostStep(s: State, p: nat): State
  {
    if !RefundPosts(s, p) then s
    else
      var r, pay := LatestRefund(s.refunds, p).value, s.payments[p];
      s.(refunds := s.refunds[r := s.refunds[r].(completed := true)],
         books := Post(EnsureWallet(s.books, pay.user), RefundEntry(pay, p)))
  }

  function RefundMarkStep(s: State, p: nat): State
  {
    if p >= |s.payments| || s.payments[p].contract >= |s.cases| then s
    else MarkCase(s, s.payments[p].contract, RefundedKey(s.payments[p].contract), REFUNDED).0
  }

  // ----- runs

  function Next(s: State, e: Event): State
  {
    match e
    case CreateContract(amount, client, artisan) => CreateContractStep(s, Case(CREATED, amount, client, artisan))
    case InitializePayment(c) => InitializePaymentStep(s, c)
    case ContractStep(c, step) => StepContract(s, c, step)
    case MovedByOthers(c, moved) => MovedByOthersStep(s, c, moved)
    case WalletStep(op) => WalletStepOn(s, op)
    case ChargeBegin(p, kobo, about) => ChargeBeginStep(s, p, kobo, about)
    case ChargeEnd(p, commit) => ChargeEndStep(s, p, commit)
    case InitiatePayout(c, admin, percent, per, outcome) => InitiatePayoutStep(s, c, admin, percent, per, outcome)
    case OverwriteMetadata(t) => OverwriteMetadataStep(s, t)
    case RunPayoutJob(t) => RunPayoutJobStep(s, t)
    case TransferBegin(t) => TransferBeginStep(s, t)
    case TransferEnd(t, commit) => TransferEndStep(s, t, commit)
    case TransferFailed(t) => TransferFailedStep(s, t)
    case RequestRefund(p, admin, enqueued) => RequestRefundStep(s, p, admin, enqueued)
    case RunRefundJob(r) => RunRefundJobStep(s, r)
    case RefundPost(p) => RefundPostStep(s, p)
    case RefundMark(p) => RefundMarkStep(s, p)
    case Purge => PurgeStep(s)
    case Tick(ms) => TickStep(s, ms)
  }

  function Run(txs: map<W.TxId, W.Tx>, es: seq<Event>): State
  {
    if es == [] then Start(txs) else Next(Run(txs, es[..|es| - 1]), es[|es| - 1])
  }
}
