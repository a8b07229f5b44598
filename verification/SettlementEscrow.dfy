/** The escrow account against the contracts that are in escrow. */
module SettlementEscrow {
  import opened Prelude
  import opened Ledger
  import opened Contracts
  import opened Settlement
  import opened SettlementRules
  import opened SettlementFrames
  import opened SettlementFunding
  import opened SettlementPayout
  import opened SettlementRefund
  import opened SettlementFees
  import S = Settlement
  import SL = SettlementLedger
  import W = Wallet

  // ----- every state of a run

  lemma {:induction false} ContractStepsKeepInv(s: State, e: S.Event)
    requires Inv(s) && Good(s, e)
    requires e.CreateContract? || e.ContractStep? || e.MovedByOthers?
    ensures Inv(S.Next(s, e))
  {
    match e
    case CreateContract(amount, client, artisan) => CreateContractKeepsInv(s, Case(CREATED, amount, client, artisan));
    case ContractStep(c, step) => ContractStepKeepsInv(s, c, step);
    case MovedByOthers(c, moved) => MovedByOthersKeepsInv(s, c, moved);
  }

  lemma {:induction false} OtherStepsKeepInv(s: State, e: S.Event)
    requires Inv(s) && Good(s, e)
    requires e.WalletStep? || e.Purge? || e.Tick?
    ensures Inv(S.Next(s, e))
  {
    match e
    case WalletStep(op) => WalletStepKeepsInv(s, op);
    case Purge => PurgeKeepsInv(s);
    case Tick(ms) => TickKeepsInv(s, ms);
  }

  lemma {:induction false} FundingKeepsInv(s: State, e: S.Event)
    requires Inv(s) && Good(s, e)
    requires e.InitializePayment? || e.ChargeBegin? || e.ChargeEnd?
    ensures Inv(S.Next(s, e))
  {
    match e
    case InitializePayment(c) => InitializePaymentKeepsInv(s, c);
    case ChargeBegin(p, kobo, about) => ChargeBeginKeepsInv(s, p, kobo, about);
    case ChargeEnd(p, commit) => ChargeEndKeepsInv(s, p, commit);
  }

  lemma {:induction false} PayoutRequestKeepsInv(s: State, e: S.Event)
    requires Inv(s) && Good(s, e)
    requires e.InitiatePayout? || e.OverwriteMetadata? || e.RunPayoutJob?
    ensures Inv(S.Next(s, e))
  {
    match e
    case InitiatePayout(c, admin, percent, per, outcome) => InitiatePayoutKeepsInv(s, c, admin, percent, per, outcome);
    case OverwriteMetadata(t) => OverwriteKeepsInv(s, t);
    case RunPayoutJob(t) => RunPayoutJobKeepsInv(s, t);
  }

  lemma {:induction false} PayoutResultKeepsInv(s: State, e: S.Event)
    requires Inv(s) && Good(s, e)
    requires e.TransferBegin? || e.TransferEnd? || e.TransferFailed?
    ensures Inv(S.Next(s, e))
  {
    match e
    case TransferBegin(t) => TransferBeginKeepsInv(s, t);
    case TransferEnd(t, commit) => TransferEndKeepsInv(s, t, commit);
    case TransferFailed(t) => FailedKeepsInv(s, t);
  }

  lemma {:induction false} RefundRequestKeepsInv(s: State, e: S.Event)
    requires Inv(s) && Good(s, e)
    requires e.RequestRefund? || e.RunRefundJob?
    ensures Inv(S.Next(s, e))
  {
    match e
    case RequestRefund(p, admin, enqueued) => RequestRefundKeepsInv(s, p, admin, enqueued);
    case RunRefundJob(r) => RunRefundJobKeepsInv(s, r);
  }

  lemma {:induction false} RefundResultKeepsInv(s: State, e: S.Event)
    requires Inv(s) && Good(s, e)
    requires e.RefundPost? || e.RefundMark?
    ensures Inv(S.Next(s, e))
  {
    match e
    case RefundPost(p) => RefundPostKeepsInv(s, p);
    case RefundMark(p) => RefundMarkKeepsInv(s, p);
  }

  lemma {:induction false} StepKeepsInv(s: State, e: S.Event)
    requires Inv(s) && Good(s, e)
    ensures Inv(S.Next(s, e))
  {
    if e.CreateContract? || e.ContractStep? || e.MovedByOthers? {
      ContractStepsKeepInv(s, e);
    } else if e.WalletStep? || e.Purge? || e.Tick? {
      OtherStepsKeepInv(s, e);
    } else if e.InitializePayment? || e.ChargeBegin? || e.ChargeEnd? {
      FundingKeepsInv(s, e);
    } else if e.InitiatePayout? || e.OverwriteMetadata? || e.RunPayoutJob? {
      PayoutRequestKeepsInv(s, e);
    } else if e.TransferBegin? || e.TransferEnd? || e.TransferFailed? {
      PayoutResultKeepsInv(s, e);
    } else if e.RequestRefund? || e.RunRefundJob? {
      RefundRequestKeepsInv(s, e);
    } else {
      RefundResultKeepsInv(s, e);
    }
  }

  lemma {:induction false} StartRows(txs: map<W.TxId, W.Tx>)
    ensures Shape(Start(txs)) && Filed(Start(txs)) && NetOk(Start(txs)) && SL.FeesOk(Start(txs))
  {
  }

  lemma {:induction false} StartFund(txs: map<W.TxId, W.Tx>)
    ensures FundInv(Start(txs)) && DoneInv(Start(txs)) && PendingInv(Start(txs))
  {
  }

  lemma {:induction false} StartPay(txs: map<W.TxId, W.Tx>)
    ensures PayInv(Start(txs))
  {
  }

  lemma {:induction false} StartInv(txs: map<W.TxId, W.Tx>)
    ensures Inv(Start(txs))
  {
    StartRows(txs);
    StartFund(txs);
    StartPay(txs);
  }

  lemma {:induction false} GoodRunsKeepInv(txs: map<W.TxId, W.Tx>, es: seq<S.Event>)
    requires GoodRun(txs, es)
    ensures Inv(S.Run(txs, es))
  {
    if es == [] {
      StartInv(txs);
    } else {
      GoodRunsKeepInv(txs, es[..|es| - 1]);
      StepKeepsInv(S.Run(txs, es[..|es| - 1]), es[|es| - 1]);
    }
  }

  // ----- escrow against obligations

  ghost predicate Funded(s: State, c: nat)
  {
    exists p :: 0 <= p < |s.payments| && s.payments[p].contract == c && s.payments[p].verified
  }

  ghost predicate PaidOut(s: State, c: nat)
  {
    exists t :: 0 <= t < |s.transfers| && s.transfers[t].contract == c && s.transfers[t].status == W.Completed
  }

  /** What the postings of a contract are behind its status, or ahead of it: a funding or a payout
      that was marked and is not committed, a refund that was posted and is not marked. */
  ghost function Lag(s: State, c: nat): int
    requires c < |s.cases|
  {
    var status, amount := StatusOf(s, c), s.cases[c].amount;
    (if status == PAID_OUT && !PaidOut(s, c) then amount else 0)
    - (if PastFunding(status) && !Funded(s, c) then amount else 0)
    - (if RefundDone(s, c) && status != REFUNDED then amount else 0)
  }

  ghost function LagAt(s: State): nat -> int
  {
    (c: nat) => if c < |s.cases| then Lag(s, c) else 0
  }

  ghost predicate Lags(s: State, c: nat)
    requires c < |s.cases|
  {
    var status := StatusOf(s, c);
    (PastFunding(status) && !Funded(s, c)) || (status == PAID_OUT && !PaidOut(s, c)) || (RefundDone(s, c) && status != REFUNDED)
  }

  lemma {:induction false} FundedSum(s: State, c: nat)
    requires Inv(s) && c < |s.cases|
    ensures SumSeq(s.payments, FundedOn(c))
         == if Funded(s, c) then s.cases[c].amount else 0
  {
    if p :| 0 <= p < |s.payments| && s.payments[p].contract == c && s.payments[p].verified {
      assert Funder(s, p);
      forall q | 0 <= q < |s.payments| && q != p ensures FundedOn(c)(s.payments[q]) == 0 {
        assert s.payments[q].verified ==> Funder(s, q);
      }
      SumSeqOnly(s.payments, FundedOn(c), p);
    } else {
      SumSeqZero(s.payments, FundedOn(c));
    }
  }

  lemma {:induction false} PaidSum(s: State, c: nat)
    requires Inv(s) && c < |s.cases|
    ensures SumSeq(s.transfers, PaidOn(c)) + SumSeq(s.transfers, RetainedOn(c))
         == if PaidOut(s, c) then s.cases[c].amount else 0
  {
    if t :| 0 <= t < |s.transfers| && s.transfers[t].contract == c && s.transfers[t].status == W.Completed {
      assert Claimant(s, t);
      forall u | 0 <= u < |s.transfers| && u != t
        ensures PaidOn(c)(s.transfers[u]) == 0 && RetainedOn(c)(s.transfers[u]) == 0
      {
        assert s.transfers[u].status == W.Completed ==> Claimant(s, u);
      }
      SumSeqOnly(s.transfers, PaidOn(c), t);
      SumSeqOnly(s.transfers, RetainedOn(c), t);
    } else {
      SumSeqZero(s.transfers, PaidOn(c));
      SumSeqZero(s.transfers, RetainedOn(c));
    }
  }

  lemma {:induction false} RefundedSum(s: State, c: nat)
    requires Inv(s) && c < |s.cases|
    ensures SumSeq(s.refunds, RefundedOn(c, s.cases[c].amount)) == if RefundDone(s, c) then s.cases[c].amount else 0
  {
    var f := RefundedOn(c, s.cases[c].amount);
    if RefundDone(s, c) {
      var r :| 0 <= r < |s.refunds| && s.refunds[r].contract == c && s.refunds[r].completed;
      SumSeqOnly(s.refunds, f, r);
    } else {
      SumSeqZero(s.refunds, f);
    }
  }

  /** In every good run, whatever is under way, the ledger holds in escrow for a contract its amount
      while the status says so, the fees of its payouts released with a reason, and its lag. */
  lemma {:induction false} EscrowPerContract(txs: map<W.TxId, W.Tx>, es: seq<S.Event>, c: nat)
    requires GoodRun(txs, es) && c < |S.Run(txs, es).cases|
    ensures var s := S.Run(txs, es);
            InEscrow(s, c) == Obligation(s.cases[c]) + KeptFeesOn(txs, es, c) + Lag(s, c)
    ensures !Lags(S.Run(txs, es), c) ==> Lag(S.Run(txs, es), c) == 0
  {
    GoodRunsKeepInv(txs, es);
    ContractInEscrow(S.Run(txs, es), c);
    GoodRunsFailInOrder(txs, es);
    KeptFeesAreRetained(txs, es, c);
  }

  /** Only funded contracts are past funding, and only those marked PAID_OUT are paid. */
  lemma {:induction false} PostedIsMarked(s: State, c: nat)
    requires FundInv(s) && PayInv(s) && c < |s.cases|
    ensures Funded(s, c) ==> PastFunding(StatusOf(s, c))
    ensures PaidOut(s, c) ==> StatusOf(s, c) == PAID_OUT
  {
    if Funded(s, c) {
      var p :| 0 <= p < |s.payments| && s.payments[p].contract == c && s.payments[p].verified;
      assert Funder(s, p);
    }
    if PaidOut(s, c) {
      var t :| 0 <= t < |s.transfers| && s.transfers[t].contract == c && s.transfers[t].status == W.Completed;
      assert PaysOut(s, t);
    }
  }

  lemma {:induction false} ContractInEscrow(s: State, c: nat)
    requires Inv(s) && c < |s.cases|
    ensures InEscrow(s, c) == Obligation(s.cases[c]) + SumSeq(s.transfers, RetainedOn(c)) + Lag(s, c)
  {
    FundedSum(s, c);
    PaidSum(s, c);
    RefundedSum(s, c);
    PostedIsMarked(s, c);
  }

  // ----- the total

  lemma {:induction false} NetIsSum(es: seq<Entry>, a: Account)
    ensures Net(es, a) == SumSeq(es, (e: Entry) => Effect(e, a))
  {
    if es != [] { NetIsSum(es[..|es| - 1], a); }
  }

  /** A summand that belongs to one group at most. */
  lemma {:induction false} OneGroup(n: nat, f: nat -> int, k: Option<nat>, value: int)
    requires k.Some? ==> k.value < n && f(k.value) == value
    requires k.None? ==> value == 0
    requires forall c: nat :: k != Some(c) ==> f(c) == 0
    ensures SumUpTo(n, f) == value
  {
    if k.Some? { SumUpToOnly(n, f, k.value); } else { SumUpToZero(n, f); }
  }

  lemma {:induction false} EscrowByContract(s: State)
    requires Filed(s)
    ensures Net(s.books.entries, Escrow) == SumUpTo(|s.cases|, (c: nat) => InEscrow(s, c))
  {
    var es, n, whole := s.books.entries, |s.cases|, (e: Entry) => Effect(e, Escrow);
    var parts := (c: nat) => EscrowOn(c);
    forall i | 0 <= i < |es| ensures SumUpTo(n, (c: nat) => parts(c)(es[i])) == whole(es[i]) {
      OneGroup(n, (c: nat) => parts(c)(es[i]), es[i].contract, whole(es[i]));
    }
    SumSeqGrouped(n, es, parts, whole);
    NetIsSum(es, Escrow);
    SumUpToSame(n, (c: nat) => SumSeq(es, parts(c)), (c: nat) => InEscrow(s, c));
  }

  lemma {:induction false} RetainedByContract(s: State)
    requires Shape(s)
    ensures SumUpTo(|s.cases|, (c: nat) => SumSeq(s.transfers, RetainedOn(c))) == SumSeq(s.transfers, Retained)
  {
    var ts, n := s.transfers, |s.cases|;
    var parts := (c: nat) => RetainedOn(c);
    forall i | 0 <= i < |ts| ensures SumUpTo(n, (c: nat) => parts(c)(ts[i])) == Retained(ts[i]) {
      OneGroup(n, (c: nat) => parts(c)(ts[i]), Some(ts[i].contract), Retained(ts[i]));
    }
    SumSeqGrouped(n, ts, parts, Retained);
    SumUpToSame(n, (c: nat) => SumSeq(ts, parts(c)), (c: nat) => SumSeq(s.transfers, RetainedOn(c)));
  }

  lemma {:induction false} ContractsAddUp(s: State)
    requires Shape(s) && Filed(s)
    requires forall c: nat :: c < |s.cases| ==>
               InEscrow(s, c) == Obligation(s.cases[c]) + SumSeq(s.transfers, RetainedOn(c)) + Lag(s, c)
    ensures Net(s.books.entries, Escrow)
         == SumSeq(s.cases, Obligation) + SumSeq(s.transfers, Retained) + SumUpTo(|s.cases|, LagAt(s))
  {
    var n, owed, kept := |s.cases|, Indexed(s.cases, Obligation), (c: nat) => SumSeq(s.transfers, RetainedOn(c));
    var both := (c: nat) => owed(c) + kept(c);
    EscrowByContract(s);
    RetainedByContract(s);
    SumSeqByIndex(s.cases, Obligation);
    SumUpToAdd(n, owed, kept, both);
    SumUpToAdd(n, both, LagAt(s), (c: nat) => InEscrow(s, c));
  }

  /** In every good run and at every moment the escrow balance is the obligations that reconciliation
      adds up, plus the fees of payouts settled through an admin release with a reason, plus the lags
      of the contracts. */
  lemma {:induction false} EscrowAtEveryMoment(txs: map<W.TxId, W.Tx>, es: seq<S.Event>)
    requires GoodRun(txs, es)
    ensures var s := S.Run(txs, es);
            s.books.escrow == SumSeq(s.cases, Obligation) + KeptFees(txs, es) + SumUpTo(|s.cases|, LagAt(s))
  {
    EscrowAddsUp(txs, es, S.Run(txs, es));
    GoodRunsFailInOrder(txs, es);
    KeptFeesAreRetained(txs, es, 0);
  }

  /** So whenever no contract lags, it is exactly the obligations and those fees. */
  lemma {:induction false} EscrowMatchesObligations(txs: map<W.TxId, W.Tx>, es: seq<S.Event>)
    requires GoodRun(txs, es)
    requires forall c: nat :: c < |S.Run(txs, es).cases| ==> !Lags(S.Run(txs, es), c)
    ensures var s := S.Run(txs, es);
            s.books.escrow == SumSeq(s.cases, Obligation) + KeptFees(txs, es)
  {
    EscrowAtEveryMoment(txs, es);
    NobodyLags(S.Run(txs, es));
  }

  lemma {:induction false} NobodyLags(s: State)
    requires forall c: nat :: c < |s.cases| ==> !Lags(s, c)
    ensures SumUpTo(|s.cases|, LagAt(s)) == 0
  {
    forall c: nat | c < |s.cases| ensures LagAt(s)(c) == 0 { assert !Lags(s, c); }
    SumUpToZero(|s.cases|, LagAt(s));
  }

  lemma {:induction false} EscrowAddsUp(txs: map<W.TxId, W.Tx>, es: seq<S.Event>, s: State)
    requires GoodRun(txs, es) && s == S.Run(txs, es)
    ensures s.books.escrow == SumSeq(s.cases, Obligation) + SumSeq(s.transfers, Retained) + SumUpTo(|s.cases|, LagAt(s))
  {
    GoodRunsKeepInv(txs, es);
    GoodRunsBalance(txs, es);
    AllContractsAddUp(s);
  }

  lemma {:induction false} AllContractsAddUp(s: State)
    requires Inv(s) && Balanced(s.books)
    ensures s.books.escrow == SumSeq(s.cases, Obligation) + SumSeq(s.transfers, Retained) + SumUpTo(|s.cases|, LagAt(s))
  {
    assert BalanceOf(s.books, Escrow) == Net(s.books.entries, Escrow);
    forall c: nat | c < |s.cases|
      ensures InEscrow(s, c) == Obligation(s.cases[c]) + SumSeq(s.transfers, RetainedOn(c)) + Lag(s, c)
    {
      ContractInEscrow(s, c);
    }
    ContractsAddUp(s);
  }

  lemma {:induction false} GoodRunsFailInOrder(txs: map<W.TxId, W.Tx>, es: seq<S.Event>)
    requires GoodRun(txs, es)
    ensures SL.FailuresInOrder(txs, es)
  {
    if es != [] { GoodRunsFailInOrder(txs, es[..|es| - 1]); }
  }

  lemma {:induction false} GoodRunsBalance(txs: map<W.TxId, W.Tx>, es: seq<S.Event>)
    requires GoodRun(txs, es)
    ensures Balanced(S.Run(txs, es).books)
  {
    GoodRunIsNonNegative(txs, es);
    SL.EveryRunBalances(txs, es);
  }

  lemma {:induction false} GoodIsNonNegative(s: State, e: S.Event)
    requires Good(s, e)
    ensures SL.NonNegative(e)
  {
  }

  lemma {:induction false} GoodRunIsNonNegative(txs: map<W.TxId, W.Tx>, es: seq<S.Event>)
    requires GoodRun(txs, es)
    ensures forall i :: 0 <= i < |es| ==> SL.NonNegative(es[i])
  {
    if es != [] {
      var init := es[..|es| - 1];
      GoodRunIsNonNegative(txs, init);
      GoodIsNonNegative(S.Run(txs, init), es[|es| - 1]);
      assert forall i :: 0 <= i < |es| - 1 ==> es[i] == init[i];
    }
  }

  // ----- when contracts lag

  /** Payment `p` has funded contract `c` or is in the middle of it. */
  ghost predicate Backs(s: State, p: nat, c: nat)
  {
    p < |s.payments| && s.payments[p].contract == c && (s.payments[p].verified || Charge(p) in s.flights)
  }

  /** Transfer `t` has paid out contract `c` or is in the middle of it. */
  ghost predicate Settles(s: State, t: nat, c: nat)
  {
    t < |s.transfers| && s.transfers[t].contract == c
    && (s.transfers[t].status == W.Completed || Transfer(t) in s.flights)
  }

  ghost predicate Explained(s: State)
  {
    && (forall c: nat :: c < |s.cases| && PastFunding(StatusOf(s, c)) ==> exists p: nat :: Backs(s, p, c))
    && (forall c: nat :: c < |s.cases| && StatusOf(s, c) == PAID_OUT ==> exists t: nat :: Settles(s, t, c))
  }

  predicate Aborts(e: S.Event)
  {
    (e.ChargeEnd? || e.TransferEnd?) && !e.commit
  }

  lemma {:induction false} MarkingKeepsBacks(s: State, e: S.Event, p: nat, t: nat, c: nat)
    requires e.ChargeBegin? || e.TransferBegin? || e.RefundMark? || e.ContractStep? || e.MovedByOthers?
             || e.InitializePayment?
    ensures Backs(s, p, c) ==> Backs(S.Next(s, e), p, c)
    ensures Settles(s, t, c) ==> Settles(S.Next(s, e), t, c)
  {
  }

  lemma {:induction false} ChargeEndKeepsBacks(s: State, p: nat, q: nat, t: nat, c: nat)
    requires Shape(s)
    ensures Backs(s, q, c) ==> Backs(ChargeEndStep(s, p, true), q, c)
    ensures Settles(s, t, c) ==> Settles(ChargeEndStep(s, p, true), t, c)
  {
  }

  lemma {:induction false} TransferEndKeepsBacks(s: State, t: nat, p: nat, u: nat, c: nat)
    requires Shape(s)
    ensures Backs(s, p, c) ==> Backs(TransferEndStep(s, t, true), p, c)
    ensures Settles(s, u, c) ==> Settles(TransferEndStep(s, t, true), u, c)
  {
  }

  lemma {:induction false} EndingKeepsBacks(s: State, e: S.Event, p: nat, t: nat, c: nat)
    requires Shape(s) && !Aborts(e) && (e.ChargeEnd? || e.TransferEnd? || e.RefundPost?)
    ensures Backs(s, p, c) ==> Backs(S.Next(s, e), p, c)
    ensures Settles(s, t, c) ==> Settles(S.Next(s, e), t, c)
  {
    if e.ChargeEnd? { ChargeEndKeepsBacks(s, e.payment, p, t, c); }
    if e.TransferEnd? { TransferEndKeepsBacks(s, e.transfer, p, t, c); }
  }

  lemma {:induction false} PayoutsKeepBacks(s: State, e: S.Event, p: nat, t: nat, c: nat)
    requires SL.NoLateFailure(s, e)
    requires e.InitiatePayout? || e.OverwriteMetadata? || e.RunPayoutJob? || e.TransferFailed?
    ensures Backs(s, p, c) ==> Backs(S.Next(s, e), p, c)
    ensures Settles(s, t, c) ==> Settles(S.Next(s, e), t, c)
  {
  }

  lemma {:induction false} OthersKeepBacks(s: State, e: S.Event, p: nat, t: nat, c: nat)
    requires e.CreateContract? || e.WalletStep? || e.RequestRefund? || e.RunRefundJob? || e.Purge? || e.Tick?
    ensures Backs(s, p, c) ==> Backs(S.Next(s, e), p, c)
    ensures Settles(s, t, c) ==> Settles(S.Next(s, e), t, c)
  {
  }

  lemma {:induction false} BackingSurvives(s: State, e: S.Event, p: nat, t: nat, c: nat)
    requires Shape(s) && SL.NoLateFailure(s, e) && !Aborts(e)
    ensures Backs(s, p, c) ==> Backs(S.Next(s, e), p, c)
    ensures Settles(s, t, c) ==> Settles(S.Next(s, e), t, c)
  {
    if e.ChargeBegin? || e.TransferBegin? || e.RefundMark? || e.ContractStep? || e.MovedByOthers?
       || e.InitializePayment?
    {
      MarkingKeepsBacks(s, e, p, t, c);
    } else if e.ChargeEnd? || e.TransferEnd? || e.RefundPost? {
      EndingKeepsBacks(s, e, p, t, c);
    } else if e.InitiatePayout? || e.OverwriteMetadata? || e.RunPayoutJob? || e.TransferFailed? {
      PayoutsKeepBacks(s, e, p, t, c);
    } else {
      OthersKeepBacks(s, e, p, t, c);
    }
  }

  /** Only the two marking handlers make a contract funded or paid out. */
  ghost predicate MovesExplained(s: State, e: S.Event, s': State)
  {
    |s.cases| <= |s'.cases| &&
    forall c: nat :: c < |s'.cases| ==>
      && (PastFunding(StatusOf(s', c)) ==>
            (c < |s.cases| && PastFunding(StatusOf(s, c))) || (e.ChargeBegin? && Backs(s', e.payment, c)))
      && (StatusOf(s', c) == PAID_OUT ==>
            (c < |s.cases| && StatusOf(s, c) == PAID_OUT) || (e.TransferBegin? && Settles(s', e.transfer, c)))
  }

  lemma {:induction false} ChargeBeginMoves(s: State, p: nat, kobo: int, about: nat)
    requires Shape(s) && Good(s, ChargeBegin(p, kobo, about))
    ensures MovesExplained(s, ChargeBegin(p, kobo, about), ChargeBeginStep(s, p, kobo, about))
  {}

  lemma {:induction false} TransferBeginMoves(s: State, t: nat)
    requires Shape(s)
    ensures MovesExplained(s, TransferBegin(t), TransferBeginStep(s, t))
  {}

  lemma {:induction false} RefundMarkMoves(s: State, p: nat)
    requires Shape(s)
    ensures MovesExplained(s, RefundMark(p), RefundMarkStep(s, p))
  {}

  lemma {:induction false} ContractStepMoves(s: State, c: nat, step: Contracts.Event)
    ensures MovesExplained(s, ContractStep(c, step), StepContract(s, c, step))
  {}

  lemma {:induction false} StatusMoves(s: State, e: S.Event)
    requires Shape(s) && Good(s, e)
    ensures MovesExplained(s, e, S.Next(s, e))
  {
    match e
    case ContractStep(c, step) => ContractStepMoves(s, c, step);
    case MovedByOthers(c, moved) => MovedByOthersEffect(s, c, moved);
    case InitializePayment(c) => InitializePaymentMoves(s, c);
    case ChargeBegin(p, kobo, about) => ChargeBeginMoves(s, p, kobo, about);
    case TransferBegin(t) => TransferBeginMoves(s, t);
    case RefundMark(p) => RefundMarkMoves(s, p);
    case _ => OtherMoves(s, e);
  }

  lemma {:induction false} OtherMoves(s: State, e: S.Event)
    requires !e.ContractStep? && !e.MovedByOthers? && !e.InitializePayment? && !e.ChargeBegin? && !e.TransferBegin? && !e.RefundMark?
    ensures MovesExplained(s, e, S.Next(s, e))
  {}

  lemma {:induction false} InitializePaymentMoves(s: State, c: nat)
    ensures MovesExplained(s, InitializePayment(c), InitializePaymentStep(s, c))
  {}

  lemma {:induction false} StepKeepsExplained(s: State, e: S.Event)
    requires Shape(s) && Good(s, e) && !Aborts(e) && Explained(s)
    ensures Explained(S.Next(s, e))
  {
    var s' := S.Next(s, e);
    StatusMoves(s, e);
    forall c: nat | c < |s'.cases| && PastFunding(StatusOf(s', c)) ensures exists p: nat :: Backs(s', p, c) {
      if c < |s.cases| && PastFunding(StatusOf(s, c)) { BackedStaysBacked(s, e, c); }
    }
    forall c: nat | c < |s'.cases| && StatusOf(s', c) == PAID_OUT ensures exists t: nat :: Settles(s', t, c) {
      if c < |s.cases| && StatusOf(s, c) == PAID_OUT { SettledStaysSettled(s, e, c); }
    }
  }

  lemma {:induction false} BackedStaysBacked(s: State, e: S.Event, c: nat)
    requires Shape(s) && SL.NoLateFailure(s, e) && !Aborts(e) && exists p: nat :: Backs(s, p, c)
    ensures exists p: nat :: Backs(S.Next(s, e), p, c)
  {
    var p: nat :| Backs(s, p, c);
    BackingSurvives(s, e, p, 0, c);
  }

  lemma {:induction false} SettledStaysSettled(s: State, e: S.Event, c: nat)
    requires Shape(s) && SL.NoLateFailure(s, e) && !Aborts(e) && exists t: nat :: Settles(s, t, c)
    ensures exists t: nat :: Settles(S.Next(s, e), t, c)
  {
    var t: nat :| Settles(s, t, c);
    BackingSurvives(s, e, 0, t, c);
  }

  lemma {:induction false} RunsWithoutAbortsExplain(txs: map<W.TxId, W.Tx>, es: seq<S.Event>)
    requires GoodRun(txs, es) && forall i :: 0 <= i < |es| ==> !Aborts(es[i])
    ensures Explained(S.Run(txs, es))
  {
    if es != [] {
      RunsWithoutAbortsExplain(txs, es[..|es| - 1]);
      GoodRunsKeepInv(txs, es[..|es| - 1]);
      StepKeepsExplained(S.Run(txs, es[..|es| - 1]), es[|es| - 1]);
    }
  }

  /** No handler is in flight and every posted refund has been marked. */
  ghost predicate AtRest(s: State)
  {
    s.flights == map[] && forall c: nat :: c < |s.cases| && RefundDone(s, c) ==> StatusOf(s, c) == REFUNDED
  }

  /** In a run without aborted transactions, whenever it is at rest, escrow is exactly the
      obligations plus the fees of payouts released with a reason. */
  lemma {:induction false} EscrowIsReconciledAtRest(txs: map<W.TxId, W.Tx>, es: seq<S.Event>)
    requires GoodRun(txs, es) && (forall i :: 0 <= i < |es| ==> !Aborts(es[i])) && AtRest(S.Run(txs, es))
    ensures var s := S.Run(txs, es);
            s.books.escrow == SumSeq(s.cases, Obligation) + KeptFees(txs, es)
  {
    var s := S.Run(txs, es);
    RunsWithoutAbortsExplain(txs, es);
    forall c: nat | c < |s.cases| ensures !Lags(s, c) {
      if PastFunding(StatusOf(s, c)) { var p: nat :| Backs(s, p, c); }
      if StatusOf(s, c) == PAID_OUT { var t: nat :| Settles(s, t, c); }
    }
    EscrowMatchesObligations(txs, es);
  }

  /** Without such releases escrow is the obligations and nothing else. */
  lemma {:induction false} EscrowIsTheObligations(txs: map<W.TxId, W.Tx>, es: seq<S.Event>)
    requires GoodRun(txs, es) && (forall i :: 0 <= i < |es| ==> !Aborts(es[i])) && AtRest(S.Run(txs, es))
    requires forall i :: 0 <= i < |es| ==> !es[i].OverwriteMetadata?
    ensures S.Run(txs, es).books.escrow == SumSeq(S.Run(txs, es).cases, Obligation)
  {
    EscrowIsReconciledAtRest(txs, es);
    NoReasonNoFeeKept(txs, es);
  }
}
