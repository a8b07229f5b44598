/** What is assumed of a settlement run, and what then holds in every state of it. */
module SettlementRules {
  import opened Prelude
  import opened Ledger
  import opened Idempotency
  import opened Contracts
  import opened Settlement
  import S = Settlement
  import SL = SettlementLedger
  import W = Wallet

  // ----- the runs that are considered

  ghost predicate RefundDone(s: State, c: nat)
  {
    exists r :: 0 <= r < |s.refunds| && s.refunds[r].contract == c && s.refunds[r].completed
  }

  function StatusOf(s: State, c: nat): Status
    requires c < |s.cases|
  {
    s.cases[c].contract.status
  }

  /** What is assumed of an event in the state where it happens. */
  ghost predicate Good(s: State, e: S.Event)
  {
    SL.NonNegative(e) && SL.NoLateFailure(s, e) &&
    match e
    // A charge that is not turned away is of the payment's amount and names its contract.
    case ChargeBegin(p, kobo, about) =>
      p < |s.payments| && Begins(s, ChargeBeginStep(s, p, kobo, about), Charge(p)) ==>
        W.Naira(kobo) == s.payments[p].amount && about == s.payments[p].contract
    // Nothing is cancelled once it is funded.
    case MovedByOthers(c, moved) =>
      c < |s.cases| && HoldsFunds(StatusOf(s, c)) ==> moved.status != CANCELLED
    // A payout job that may still pay runs within the hour for which its lock was taken.
    case RunPayoutJob(t) =>
      t < |s.transfers| && s.transfers[t].stage.Queued? && s.transfers[t].status != W.Completed ==>
        InTime(s.transfers[t].stage, s.now)
    // A success that is not turned away comes before the release lock runs out or may be purged, and
    // not between a refund's posting and its mark.
    case TransferBegin(t) =>
      t < |s.transfers| && Begins(s, TransferBeginStep(s, t), Transfer(t)) ==>
        && InTime(s.transfers[t].stage, s.now)
        && !(s.transfers[t].contract < |s.cases| && StatusOf(s, s.transfers[t].contract) == DISPUTED
             && RefundDone(s, s.transfers[t].contract))
    // The job of a refund that may still be posted runs within the hour for which its lock was taken,
    // and a client's job not for a contract that became disputed in between: it would throw after
    // Paystack was asked.
    case RunRefundJob(r) =>
      r < |s.refunds| && s.refunds[r].stage.Queued? && s.refunds[r].contract < |s.cases|
      && StatusOf(s, s.refunds[r].contract) !in {PAID_OUT, REFUNDED} ==>
        InTime(s.refunds[r].stage, s.now)
        && (s.refunds[r].admin || StatusOf(s, s.refunds[r].contract) != DISPUTED)
    // A refund is posted for a disputed contract, before the refund lock runs out or may be purged.
    case RefundPost(p) =>
      RefundPosts(s, p) && s.payments[p].contract < |s.cases| ==>
        && StatusOf(s, s.payments[p].contract) == DISPUTED
        && InTime(s.refunds[LatestRefund(s.refunds, p).value].stage, s.now)
    // No disputed contract is marked for a refund that was never posted.
    case RefundMark(p) =>
      p < |s.payments| && s.payments[p].contract < |s.cases| && StatusOf(s, s.payments[p].contract) == DISPUTED ==>
        RefundDone(s, s.payments[p].contract)
    // Nor does that lock while a refund that was posted awaits its mark.
    case Tick(ms) => forall r :: 0 <= r < |s.refunds| ==> !Unmarked(s, r) || InTime(s.refunds[r].stage, s.now + ms)
    case _ => true
  }

  /** A handler starts its transaction and gets past its mark. */
  predicate Begins(s: State, s': State, ref: Reference)
  {
    ref !in s.flights && ref in s'.flights
  }

  /** The lock taken for a request stands: for an hour until its job has completed it, for a week
      after that. */
  predicate InTime(stage: Stage, now: int)
  {
    match stage
    case Dropped => false
    case Queued(at) => now <= at + HOUR
    case Sent(at) => now <= at + WEEK
  }

  /** A refund that was posted while its contract is still to be marked. */
  predicate Unmarked(s: State, r: nat)
    requires r < |s.refunds|
  {
    var row := s.refunds[r];
    row.completed && row.contract < |s.cases| && StatusOf(s, row.contract) == DISPUTED
  }

  ghost predicate GoodRun(txs: map<W.TxId, W.Tx>, es: seq<S.Event>)
  {
    es == [] || (GoodRun(txs, es[..|es| - 1]) && Good(S.Run(txs, es[..|es| - 1]), es[|es| - 1]))
  }

  // ----- what the rows of a contract add up to

  function EscrowOn(c: nat): Entry -> int
  {
    (e: Entry) => if e.contract == Some(c) then Effect(e, Escrow) else 0
  }

  function FundedOn(c: nat): Payment -> int
  {
    (p: Payment) => if p.contract == c && p.verified then p.paid else 0
  }

  function PaidOn(c: nat): TransferRow -> int
  {
    (t: TransferRow) => if t.contract == c && t.status == W.Completed then t.amount + t.postedFee else 0
  }

  function RefundedOn(c: nat, amount: int): RefundRow -> int
  {
    (r: RefundRow) => if r.contract == c && r.completed then amount else 0
  }

  /** The part of a settled payout's fee that was never posted. */
  function Retained(t: TransferRow): int
  {
    if t.status == W.Completed then t.fee - t.postedFee else 0
  }

  function RetainedOn(c: nat): TransferRow -> int
  {
    (t: TransferRow) => if t.contract == c then Retained(t) else 0
  }

  /** The six statuses whose amounts count as obligations. */
  predicate HoldsFunds(status: Status)
  {
    status in {FUNDED, ACTIVE, IN_PROGRESS, CLIENT_CONFIRMED, READY_FOR_PAYOUT, DISPUTED}
  }

  function Obligation(k: Case): int
  {
    if HoldsFunds(k.contract.status) then k.amount else 0
  }

  /** What the ledger holds in escrow for one contract. */
  function InEscrow(s: State, c: nat): int
  {
    SumSeq(s.books.entries, EscrowOn(c))
  }

  // ----- invariants

  ghost predicate FlightShape(s: State, ref: Reference, f: Flight)
  {
    match ref
    case Charge(p) =>
      p < |s.payments| && f == ChargeFlight(s.payments[p].contract, s.payments[p].amount) && !s.payments[p].verified
    case Transfer(t) =>
      t < |s.transfers| && f.TransferFlight? && s.transfers[t].status != W.Completed && !s.transfers[t].stage.Dropped?
    case _ => false
  }

  ghost predicate Shape(s: State)
  {
    && (forall p :: 0 <= p < |s.payments| ==>
          var pay := s.payments[p];
          pay.contract < |s.cases| && pay.amount == s.cases[pay.contract].amount
          && (pay.verified <==> pay.txExists) && (pay.verified ==> pay.paid == pay.amount))
    && (forall t :: 0 <= t < |s.transfers| ==>
          var row := s.transfers[t];
          row.contract < |s.cases| && row.amount + row.fee == s.cases[row.contract].amount
          && (row.status == W.Completed ==> !row.stage.Dropped?))
    && (forall r :: 0 <= r < |s.refunds| ==>
          var row := s.refunds[r];
          row.payment < |s.payments| && row.contract == s.payments[row.payment].contract)
    && (forall ref :: ref in s.flights ==> FlightShape(s, ref, s.flights[ref]))
  }

  /** Entries name existing contracts, and escrow moves only on behalf of one. */
  ghost predicate Filed(s: State)
  {
    forall i :: 0 <= i < |s.books.entries| ==>
      var e := s.books.entries[i];
      if e.contract.Some? then e.contract.value < |s.cases| else e.debit != Escrow && e.credit != Escrow
  }

  /** The entries of each contract add up to what its rows say. */
  ghost predicate NetOk(s: State)
  {
    forall c :: 0 <= c < |s.cases| ==>
      InEscrow(s, c) == SumSeq(s.payments, FundedOn(c)) - SumSeq(s.transfers, PaidOn(c))
                        - SumSeq(s.refunds, RefundedOn(c, s.cases[c].amount))
  }

  predicate PastFunding(status: Status)
  {
    HoldsFunds(status) || status == PAID_OUT || status == REFUNDED
  }

  /** The payment that has funded its contract, or is about to, or may resume doing so. */
  ghost predicate Funder(s: State, p: nat)
  {
    p < |s.payments|
    && (s.payments[p].verified || Charge(p) in s.flights || FundedKey(s.payments[p].contract, p) in s.keys)
  }

  ghost predicate FundInv(s: State)
  {
    && (forall p: nat :: Funder(s, p) && s.payments[p].contract < |s.cases| ==>
          PastFunding(StatusOf(s, s.payments[p].contract)))
    && (forall p: nat, q: nat :: Funder(s, p) && Funder(s, q) && s.payments[p].contract == s.payments[q].contract ==> p == q)
    && (forall c: nat, p: nat :: FundedKey(c, p) in s.keys ==>
          s.keys[FundedKey(c, p)].completedAt.Some? && p < |s.payments| && s.payments[p].contract == c)
  }

  /** A transfer that may still be reported successful. */
  ghost predicate Live(s: State, t: nat)
  {
    t < |s.transfers| && s.transfers[t].status != W.Completed && InTime(s.transfers[t].stage, s.now)
  }

  ghost predicate Claimant(s: State, t: nat)
  {
    t < |s.transfers| && (s.transfers[t].status == W.Completed || Transfer(t) in s.flights || Live(s, t))
  }

  /** The release lock stands in the way of a second transfer. */
  ghost predicate Guards(lock: Lock, stage: Stage)
  {
    match stage
    case Dropped => true
    case Queued(at) => if lock.completedAt.None? then lock.expiresAt == at + HOUR else lock.completedAt.value >= at
    case Sent(at) => lock.completedAt.Some? && lock.completedAt.value >= at
  }

  ghost predicate PaysOut(s: State, t: nat)
  {
    t < |s.transfers| && s.transfers[t].contract < |s.cases|
    && (s.transfers[t].status == W.Completed || Transfer(t) in s.flights)
  }

  ghost predicate PayInv(s: State)
  {
    && (forall t: nat, u: nat :: Claimant(s, t) && Claimant(s, u) && s.transfers[t].contract == s.transfers[u].contract ==>
          t == u)
    && (forall t: nat :: PaysOut(s, t) ==> StatusOf(s, s.transfers[t].contract) == PAID_OUT)
    && (forall c: nat :: PaidOutKey(c) in s.keys ==>
          c < |s.cases| && StatusOf(s, c) == PAID_OUT && s.keys[PaidOutKey(c)].completedAt.Some?)
    && (forall t: nat :: Live(s, t) ==>
          ReleaseKey(s.transfers[t].contract) in s.keys
          && Guards(s.keys[ReleaseKey(s.transfers[t].contract)], s.transfers[t].stage))
    && (forall t: nat :: t < |s.transfers| && !s.transfers[t].stage.Dropped? ==> s.transfers[t].stage.at <= s.now)
  }

  /** Refunds that were posted and the statuses of their contracts. */
  ghost predicate DoneInv(s: State)
  {
    && (forall c: nat :: c < |s.cases| && RefundDone(s, c) ==> StatusOf(s, c) in {DISPUTED, REFUNDED})
    && (forall c: nat :: c < |s.cases| && StatusOf(s, c) == REFUNDED ==> RefundDone(s, c))
    && (forall r, q :: 0 <= r < q < |s.refunds| && s.refunds[r].completed && s.refunds[q].completed ==>
          s.refunds[r].contract != s.refunds[q].contract)
  }

  /** A refund that may still be posted, or was posted for a contract still to be marked. */
  ghost predicate Pending(s: State, r: nat)
  {
    r < |s.refunds| && s.refunds[r].contract < |s.cases|
    && StatusOf(s, s.refunds[r].contract) !in {PAID_OUT, REFUNDED} && InTime(s.refunds[r].stage, s.now)
  }

  ghost predicate PendingInv(s: State)
  {
    && (forall r: nat, q: nat :: Pending(s, r) && Pending(s, q) && s.refunds[r].contract == s.refunds[q].contract ==> r == q)
    && (forall r: nat :: Pending(s, r) ==>
          RefundKey(s.refunds[r].contract) in s.keys
          && Guards(s.keys[RefundKey(s.refunds[r].contract)], s.refunds[r].stage))
    && (forall r: nat :: r < |s.refunds| ==> RefundStageOk(s, r))
  }

  predicate RefundStageOk(s: State, r: nat)
    requires r < |s.refunds|
  {
    var row := s.refunds[r];
    && (!row.stage.Dropped? ==> row.stage.at <= s.now)
    && (row.completed ==> !row.stage.Dropped?)
    && (Unmarked(s, r) ==> InTime(row.stage, s.now))
  }

  ghost predicate Inv(s: State)
  {
    Shape(s) && Filed(s) && NetOk(s) && FundInv(s) && PayInv(s) && DoneInv(s) && PendingInv(s) && SL.FeesOk(s)
  }
}
