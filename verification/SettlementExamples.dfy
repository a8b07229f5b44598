/** Two good runs that go all the way: one contract is paid out and leaves its fee in escrow, one is
    refunded. So the conditions on good runs shut out neither. */
module SettlementExamples {
  import opened Prelude
  import opened Ledger
  import opened Idempotency
  import opened Contracts
  import opened Settlement
  import opened SettlementRules
  import opened SettlementFees
  import opened SettlementEscrow
  import S = Settlement
  import W = Wallet

  const NO_TXS: map<W.TxId, W.Tx> := map[]

  /** A good run that ends in state `s`. */
  ghost predicate Leads(es: seq<S.Event>, s: State)
  {
    GoodRun(NO_TXS, es) && S.Run(NO_TXS, es) == s
  }

  lemma {:induction false} Then(es: seq<S.Event>, s: State, e: S.Event, s': State) returns (more: seq<S.Event>)
    requires Leads(es, s) && Good(s, e) && S.Next(s, e) == s'
    ensures more == es + [e] && Leads(more, s')
  {
    more := es + [e];
    assert more[..|es|] == es;
  }

  // ----- funding and starting work

  const AUDITED := [Audit(PENDING_PAYMENT, FUNDED)]
  const IS_FUNDED := Contract(FUNDED, false, false, false, AUDITED)
  const IS_ACTIVE := Contract(ACTIVE, false, false, false, AUDITED)
  const AT_WORK := Contract(IN_PROGRESS, false, false, true, AUDITED)

  const PAYMENT := Payment(0, 1, 1000, false, false, 0)
  const PAID := Payment(0, 1, 1000, true, true, 1000)
  const MARKED := Lock(0, HOUR, Some(0))
  const FUNDING := Entry(Account.Wallet(1), Escrow, 1000, Charge(0), Some(0))

  const ONE_PAID := Books(map[1 := Row(-1000, 0, 1)], 1000, 0, 0, [FUNDING])

  /** The one contract of 1000 in the given stage. */
  function At(contract: Contract): seq<Case>
  {
    [Case(contract, 1000, 1, 2)]
  }

  const S1 := State(EMPTY_BOOKS, NO_TXS, At(CREATED), [], [], [], map[], map[], 0)
  const S2 := State(EMPTY_BOOKS, NO_TXS, At(CREATED), [PAYMENT], [], [], map[], map[], 0)
  const S3 := State(EMPTY_BOOKS, NO_TXS, At(IS_FUNDED), [PAYMENT], [], [], map[FundedKey(0, 0) := MARKED],
                    map[Charge(0) := ChargeFlight(0, 1000)], 0)
  const S4 := State(ONE_PAID, NO_TXS, At(IS_FUNDED), [PAID], [], [], map[FundedKey(0, 0) := MARKED], map[], 0)
  const S5 := State(ONE_PAID, NO_TXS, At(IS_ACTIVE), [PAID], [], [], map[FundedKey(0, 0) := MARKED], map[], 0)
  const S6 := State(ONE_PAID, NO_TXS, At(AT_WORK), [PAID], [], [], map[FundedKey(0, 0) := MARKED], map[], 0)

  lemma {:induction false} Create()
    ensures Good(Start(NO_TXS), CreateContract(1000, 1, 2)) && S.Next(Start(NO_TXS), CreateContract(1000, 1, 2)) == S1
  {
  }

  lemma {:induction false} Initialize()
    ensures Good(S1, InitializePayment(0)) && S.Next(S1, InitializePayment(0)) == S2
  {
  }

  lemma {:induction false} BeginCharge()
    ensures Good(S2, ChargeBegin(0, 100000, 0)) && S.Next(S2, ChargeBegin(0, 100000, 0)) == S3
  {
    assert W.Naira(100000) == 1000;
    var (contract, keys, ok) := Mark(CREATED, map[], FundedKey(0, 0), FUNDED, 0);
    assert ok && contract == IS_FUNDED && keys == map[FundedKey(0, 0) := MARKED];
  }

  lemma {:induction false} EndCharge()
    ensures Good(S3, ChargeEnd(0, true)) && S.Next(S3, ChargeEnd(0, true)) == S4
  {
  }

  lemma {:induction false} Funded() returns (es: seq<S.Event>)
    ensures Leads(es, S4)
  {
    Create();
    Initialize();
    BeginCharge();
    EndCharge();
    es := [];
    es := Then(es, Start(NO_TXS), CreateContract(1000, 1, 2), S1);
    es := Then(es, S1, InitializePayment(0), S2);
    es := Then(es, S2, ChargeBegin(0, 100000, 0), S3);
    es := Then(es, S3, ChargeEnd(0, true), S4);
  }

  lemma {:induction false} StartWork()
    ensures Good(S4, MovedByOthers(0, IS_ACTIVE)) && S.Next(S4, MovedByOthers(0, IS_ACTIVE)) == S5
    ensures Good(S5, MovedByOthers(0, AT_WORK)) && S.Next(S5, MovedByOthers(0, AT_WORK)) == S6
  {
  }

  lemma {:induction false} Started() returns (es: seq<S.Event>)
    ensures Leads(es, S5)
  {
    es := Funded();
    StartWork();
    es := Then(es, S4, MovedByOthers(0, IS_ACTIVE), S5);
  }

  lemma {:induction false} Working() returns (es: seq<S.Event>)
    ensures Leads(es, S6)
  {
    es := Started();
    StartWork();
    es := Then(es, S5, MovedByOthers(0, AT_WORK), S6);
  }

  // ----- payout by an admin who gives a reason

  const CONFIRMED := AT_WORK.(status := CLIENT_CONFIRMED, clientConfirmed := true,
    audit := AUDITED + [Audit(IN_PROGRESS, CLIENT_CONFIRMED)])
  const READY := CONFIRMED.(status := READY_FOR_PAYOUT, artisanConfirmed := true,
    audit := CONFIRMED.audit + [Audit(CLIENT_CONFIRMED, READY_FOR_PAYOUT)])
  const IS_PAID_OUT := READY.(status := PAID_OUT, audit := READY.audit + [Audit(READY_FOR_PAYOUT, PAID_OUT)])

  const QUEUED := TransferRow(0, 2, 950, 50, Some(50), W.Pending, Queued(0), 0)
  const PAYOUT := Entry(Escrow, Account.Wallet(2), 950, Transfer(0), Some(0))

  const AFTER_PAYOUT := Books(map[1 := Row(-1000, 0, 1), 2 := Row(950, 0, 1)], 50, 0, 0, [FUNDING, PAYOUT])
  const SENT := QUEUED.(metaFee := None, stage := Sent(0))
  const REQUESTED := map[FundedKey(0, 0) := MARKED, ReleaseKey(0) := Lock(0, HOUR, None)]
  const RELEASED := map[FundedKey(0, 0) := MARKED, ReleaseKey(0) := MARKED]
  const MARKED_PAID := map[FundedKey(0, 0) := MARKED, ReleaseKey(0) := MARKED, PaidOutKey(0) := MARKED]

  const P7 := State(ONE_PAID, NO_TXS, At(CONFIRMED), [PAID], [], [], map[FundedKey(0, 0) := MARKED], map[], 0)
  const P8 := State(ONE_PAID, NO_TXS, At(READY), [PAID], [], [], map[FundedKey(0, 0) := MARKED], map[], 0)
  const P9 := State(ONE_PAID, NO_TXS, At(READY), [PAID], [QUEUED], [], REQUESTED, map[], 0)
  const P10 := State(ONE_PAID, NO_TXS, At(READY), [PAID], [QUEUED.(metaFee := None)], [], REQUESTED, map[], 0)
  const P11 := State(ONE_PAID, NO_TXS, At(READY), [PAID], [SENT], [], RELEASED, map[], 0)
  const P12 := State(ONE_PAID, NO_TXS, At(IS_PAID_OUT), [PAID], [SENT], [], MARKED_PAID,
                     map[Transfer(0) := TransferFlight(0)], 0)
  const P13 := State(AFTER_PAYOUT, NO_TXS, At(IS_PAID_OUT), [PAID], [SENT.(status := W.Completed)], [], MARKED_PAID, map[], 0)

  lemma {:induction false} Confirm()
    ensures Good(S6, ContractStep(0, ConfirmCompletion(true))) && S.Next(S6, ContractStep(0, ConfirmCompletion(true))) == P7
    ensures Good(P7, ContractStep(0, ConfirmCompletion(false))) && S.Next(P7, ContractStep(0, ConfirmCompletion(false))) == P8
  {
    assert Contracts.Next(AT_WORK, ConfirmCompletion(true)) == CONFIRMED;
    assert Contracts.Next(CONFIRMED, ConfirmCompletion(false)) == READY;
  }

  lemma {:induction false} Initiate()
    ensures Good(P8, InitiatePayout(0, true, 5, 1, Enqueued)) && S.Next(P8, InitiatePayout(0, true, 5, 1, Enqueued)) == P9
  {
    assert PlatformFee(1000, 5, 1) == 50;
  }

  lemma {:induction false} Send()
    ensures Good(P9, OverwriteMetadata(0)) && S.Next(P9, OverwriteMetadata(0)) == P10
    ensures Good(P10, RunPayoutJob(0)) && S.Next(P10, RunPayoutJob(0)) == P11
  {
  }

  lemma {:induction false} BeginTransfer()
    ensures Good(P11, TransferBegin(0)) && S.Next(P11, TransferBegin(0)) == P12
  {
    var (contract, keys, ok) := Mark(READY, P11.keys, PaidOutKey(0), PAID_OUT, 0);
    assert ok && contract == IS_PAID_OUT && keys == P12.keys;
  }

  lemma {:induction false} EndTransfer()
    ensures Good(P12, TransferEnd(0, true)) && S.Next(P12, TransferEnd(0, true)) == P13
  {
    assert PostPayout(P12.books, P12.transfers[0], 0, 0) == P13.books;
  }

  lemma {:induction false} PayoutRequested() returns (es: seq<S.Event>)
    ensures Leads(es, P9)
  {
    es := Working();
    Confirm();
    Initiate();
    es := Then(es, S6, ContractStep(0, ConfirmCompletion(true)), P7);
    es := Then(es, P7, ContractStep(0, ConfirmCompletion(false)), P8);
    es := Then(es, P8, InitiatePayout(0, true, 5, 1, Enqueued), P9);
  }

  lemma {:induction false} PayoutSent() returns (es: seq<S.Event>)
    ensures Leads(es, P11)
  {
    es := PayoutRequested();
    Send();
    es := Then(es, P9, OverwriteMetadata(0), P10);
    es := Then(es, P10, RunPayoutJob(0), P11);
  }

  /** A good run of one contract up to PAID_OUT; the fee of 50 that the admin's reason dropped is
      still in escrow. */
  lemma {:induction false} AGoodRunPaysOut() returns (es: seq<S.Event>)
    ensures GoodRun(NO_TXS, es)
    ensures var s := S.Run(NO_TXS, es);
            && s.flights == map[] && |s.cases| == 1 && StatusOf(s, 0) == PAID_OUT
            && s.books.escrow == 50 == KeptFees(NO_TXS, es)
  {
    es := PayoutSent();
    BeginTransfer();
    EndTransfer();
    es := Then(es, P11, TransferBegin(0), P12);
    es := Then(es, P12, TransferEnd(0, true), P13);
    SumSeqAppend([], Retained, P13.transfers[0]);
    assert [] + P13.transfers == P13.transfers;
    GoodRunsFailInOrder(NO_TXS, es);
    KeptFeesAreRetained(NO_TXS, es, 0);
  }

  // ----- a success that overtakes its job

  const MARKED_EARLY := map[FundedKey(0, 0) := MARKED, ReleaseKey(0) := Lock(0, HOUR, None), PaidOutKey(0) := MARKED]

  const E11 := State(ONE_PAID, NO_TXS, At(IS_PAID_OUT), [PAID], [QUEUED.(metaFee := None)], [], MARKED_EARLY,
                     map[Transfer(0) := TransferFlight(0)], 0)
  const E12 := State(AFTER_PAYOUT, NO_TXS, At(IS_PAID_OUT), [PAID], [QUEUED.(metaFee := None, status := W.Completed)], [],
                     MARKED_EARLY, map[], 0)

  lemma {:induction false} BeginEarly()
    ensures Good(P10, TransferBegin(0)) && S.Next(P10, TransferBegin(0)) == E11
  {
    var (contract, keys, ok) := Mark(READY, P10.keys, PaidOutKey(0), PAID_OUT, 0);
    assert ok && contract == IS_PAID_OUT && keys == E11.keys;
  }

  lemma {:induction false} EndEarly()
    ensures Good(E11, TransferEnd(0, true)) && S.Next(E11, TransferEnd(0, true)) == E12
  {
    assert PostPayout(E11.books, E11.transfers[0], 0, 0) == E12.books;
  }

  lemma {:induction false} JobFinishesLast()
    ensures Good(E12, RunPayoutJob(0)) && S.Next(E12, RunPayoutJob(0)) == P13
  {
    assert E12.transfers[0].stage == Queued(0);
  }

  /** The success may be handled before the job has completed its lock; the end is the same. */
  lemma {:induction false} AnEarlySuccessIsGood() returns (es: seq<S.Event>)
    ensures Leads(es, P13) && es != [] && es[|es| - 1] == RunPayoutJob(0)
  {
    es := PayoutRequested();
    Send();
    es := Then(es, P9, OverwriteMetadata(0), P10);
    BeginEarly();
    EndEarly();
    JobFinishesLast();
    es := Then(es, P10, TransferBegin(0), E11);
    es := Then(es, E11, TransferEnd(0, true), E12);
    es := Then(es, E12, RunPayoutJob(0), P13);
  }

  // ----- dispute and refund

  const IN_DISPUTE := AT_WORK.(status := DISPUTED, audit := AUDITED + [Audit(IN_PROGRESS, DISPUTED)])
  const IS_REFUNDED := IN_DISPUTE.(status := REFUNDED, audit := IN_DISPUTE.audit + [Audit(DISPUTED, REFUNDED)])
  const REFUND := Entry(Escrow, Account.Wallet(1), 1000, RefundOf(0), Some(0))

  const ASKED := RefundRow(0, 0, true, false, Queued(0))
  const PROCESSED := RefundRow(0, 0, true, true, Sent(0))
  const AFTER_REFUND := Books(map[1 := Row(0, 0, 1)], 0, 0, 0, [FUNDING, REFUND])
  const REFUND_ASKED := map[FundedKey(0, 0) := MARKED, RefundKey(0) := Lock(0, HOUR, None)]
  const REFUND_SENT := map[FundedKey(0, 0) := MARKED, RefundKey(0) := MARKED]

  const R7 := State(ONE_PAID, NO_TXS, At(IN_DISPUTE), [PAID], [], [], map[FundedKey(0, 0) := MARKED], map[], 0)
  const R8 := State(ONE_PAID, NO_TXS, At(IN_DISPUTE), [PAID], [], [ASKED], REFUND_ASKED, map[], 0)
  const R9 := State(ONE_PAID, NO_TXS, At(IN_DISPUTE), [PAID], [], [ASKED.(stage := Sent(0))], REFUND_SENT, map[], 0)
  const R10 := State(AFTER_REFUND, NO_TXS, At(IN_DISPUTE), [PAID], [], [PROCESSED], REFUND_SENT, map[], 0)
  const R11 := State(AFTER_REFUND, NO_TXS, At(IS_REFUNDED), [PAID], [], [PROCESSED],
                     REFUND_SENT[RefundedKey(0) := MARKED], map[], 0)

  lemma {:induction false} Dispute()
    ensures Good(S6, ContractStep(0, MarkDisputed(true))) && S.Next(S6, ContractStep(0, MarkDisputed(true))) == R7
  {
    assert Contracts.Next(AT_WORK, MarkDisputed(true)) == IN_DISPUTE;
  }

  lemma {:induction false} Disputed() returns (es: seq<S.Event>)
    ensures Leads(es, R7)
  {
    es := Working();
    Dispute();
    es := Then(es, S6, ContractStep(0, MarkDisputed(true)), R7);
  }

  lemma {:induction false} AskForRefund()
    ensures Good(R7, S.Event.RequestRefund(0, true, true)) && S.Next(R7, S.Event.RequestRefund(0, true, true)) == R8
  {
  }

  lemma {:induction false} SendRefund()
    ensures Good(R8, RunRefundJob(0)) && S.Next(R8, RunRefundJob(0)) == R9
  {
  }

  lemma {:induction false} PostRefund()
    ensures Good(R9, RefundPost(0)) && S.Next(R9, RefundPost(0)) == R10
  {
    assert LatestRefund(R9.refunds, 0) == Some(0);
    assert Post(EnsureWallet(R9.books, 1), RefundEntry(R9.payments[0], 0)) == R10.books;
  }

  lemma {:induction false} RefundRequested() returns (es: seq<S.Event>)
    ensures Leads(es, R8)
  {
    es := Disputed();
    AskForRefund();
    es := Then(es, R7, S.Event.RequestRefund(0, true, true), R8);
  }

  lemma {:induction false} RefundPosted() returns (es: seq<S.Event>)
    ensures Leads(es, R10)
  {
    es := RefundRequested();
    SendRefund();
    PostRefund();
    es := Then(es, R8, RunRefundJob(0), R9);
    es := Then(es, R9, RefundPost(0), R10);
  }

  lemma {:induction false} MarkRefund()
    ensures Good(R10, RefundMark(0)) && S.Next(R10, RefundMark(0)) == R11
  {
    assert R10.refunds[0].completed && RefundDone(R10, 0);
    var (contract, keys, ok) := Mark(IN_DISPUTE, R10.keys, RefundedKey(0), REFUNDED, 0);
    assert ok && contract == IS_REFUNDED && keys == R11.keys;
  }

  /** A good run of one contract up to REFUNDED; escrow is empty again. */
  lemma {:induction false} AGoodRunRefunds() returns (es: seq<S.Event>)
    ensures GoodRun(NO_TXS, es)
    ensures var s := S.Run(NO_TXS, es);
            && s.flights == map[] && |s.cases| == 1 && StatusOf(s, 0) == REFUNDED
            && s.books.escrow == 0 && |s.books.entries| == 2
  {
    es := RefundPosted();
    MarkRefund();
    es := Then(es, R10, RefundMark(0), R11);
  }
}
