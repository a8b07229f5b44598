/** Runs that are good up to a job that comes too late, or throws after Paystack was asked. */
module SettlementLateJobs {
  import opened Prelude
  import opened Ledger
  import opened Idempotency
  import opened Contracts
  import opened Settlement
  import opened SettlementRules
  import opened SettlementExamples
  import opened SettlementBreaks
  import S = Settlement
  import W = Wallet

  const PAST := HOUR + 1
  const PAST_LOCK := Lock(PAST, PAST + HOUR, None)
  const PAST_MARK := Lock(PAST, PAST + HOUR, Some(PAST))

  // ----- a payout job

  const SENT_LATE := QUEUED.(stage := Sent(PAST))
  const PAID_LATE := SENT_LATE.(status := W.Completed, postedFee := 50)
  const FEE_ENTRY := Entry(Escrow, Fee, 50, Transfer(0), Some(0))
  const AFTER_ALL := Books(map[1 := Row(-1000, 0, 1), 2 := Row(1900, 0, 1)], -1000, 100, 0,
                           [FUNDING, SECOND_PAYOUT, SECOND_FEE, PAYOUT, FEE_ENTRY])
  const RELEASED_LATE := map[FundedKey(0, 0) := MARKED, ReleaseKey(0) := PAST_MARK]
  const PAID_OUT_LATE := map[FundedKey(0, 0) := MARKED, ReleaseKey(0) := PAST_MARK, PaidOutKey(0) := PAST_MARK]

  const J10 := State(ONE_PAID, NO_TXS, At(READY), [PAID], [QUEUED], [], REQUESTED, map[], PAST)
  const J11 := State(ONE_PAID, NO_TXS, At(READY), [PAID], [QUEUED, QUEUED.(stage := Queued(PAST))], [],
                     map[FundedKey(0, 0) := MARKED, ReleaseKey(0) := PAST_LOCK], map[], PAST)
  const J12 := State(ONE_PAID, NO_TXS, At(READY), [PAID], [QUEUED, SENT_LATE], [], RELEASED_LATE, map[], PAST)
  const J13 := State(ONE_PAID, NO_TXS, At(IS_PAID_OUT), [PAID], [QUEUED, SENT_LATE], [], PAID_OUT_LATE,
                     map[Transfer(1) := TransferFlight(50)], PAST)
  const J14 := State(AFTER_SECOND, NO_TXS, At(IS_PAID_OUT), [PAID], [QUEUED, PAID_LATE], [], PAID_OUT_LATE, map[], PAST)
  const J15 := State(AFTER_SECOND, NO_TXS, At(IS_PAID_OUT), [PAID], [SENT_LATE, PAID_LATE], [], PAID_OUT_LATE, map[], PAST)
  const J16 := State(AFTER_SECOND, NO_TXS, At(IS_PAID_OUT), [PAID], [SENT_LATE, PAID_LATE], [], PAID_OUT_LATE,
                     map[Transfer(0) := TransferFlight(50)], PAST)
  const J17 := State(AFTER_ALL, NO_TXS, At(IS_PAID_OUT), [PAID], [PAID_LATE, PAID_LATE], [], PAID_OUT_LATE, map[], PAST)

  lemma {:induction false} LockExpires()
    ensures Good(P9, Tick(PAST)) && S.Next(P9, Tick(PAST)) == J10
    ensures Good(J10, InitiatePayout(0, true, 5, 1, Enqueued)) && S.Next(J10, InitiatePayout(0, true, 5, 1, Enqueued)) == J11
  {
    assert PlatformFee(1000, 5, 1) == 50;
  }

  lemma {:induction false} SecondJob()
    ensures Good(J11, RunPayoutJob(1)) && S.Next(J11, RunPayoutJob(1)) == J12
  {
  }

  lemma {:induction false} SecondBegins()
    ensures Good(J12, TransferBegin(1)) && S.Next(J12, TransferBegin(1)) == J13
  {
    var (contract, keys, ok) := Mark(READY, J12.keys, PaidOutKey(0), PAID_OUT, PAST);
    assert ok && contract == IS_PAID_OUT && keys == J13.keys;
  }

  lemma {:induction false} SecondEnds()
    ensures Good(J13, TransferEnd(1, true)) && S.Next(J13, TransferEnd(1, true)) == J14
  {
    assert PostPayout(J13.books, J13.transfers[1], 1, 50) == J14.books;
  }

  lemma {:induction false} FirstJobIsLate()
    ensures !Good(J14, RunPayoutJob(0)) && S.Next(J14, RunPayoutJob(0)) == J15
  {
    assert J14.transfers[0] == QUEUED;
  }

  lemma {:induction false} FirstBegins()
    ensures S.Next(J15, TransferBegin(0)) == J16
  {
  }

  lemma {:induction false} FirstEnds()
    ensures S.Next(J16, TransferEnd(0, true)) == J17
  {
    assert PostPayout(J16.books, J16.transfers[0], 0, 50) == J17.books;
  }

  lemma {:induction false} RequestedAgain() returns (es: seq<S.Event>)
    ensures Leads(es, J12)
  {
    es := PayoutRequested();
    LockExpires();
    SecondJob();
    es := Then(es, P9, Tick(PAST), J10);
    es := Then(es, J10, InitiatePayout(0, true, 5, 1, Enqueued), J11);
    es := Then(es, J11, RunPayoutJob(1), J12);
  }

  lemma {:induction false} PaidBySecond() returns (es: seq<S.Event>)
    ensures Leads(es, J14)
  {
    es := RequestedAgain();
    SecondBegins();
    SecondEnds();
    es := Then(es, J12, TransferBegin(1), J13);
    es := Then(es, J13, TransferEnd(1, true), J14);
  }

  lemma {:induction false} PaidByBothIsShort()
    ensures Short(J17, 1000)
  {
    OneContract(J17, J17.cases[0]);
    SumSeqAppend([], Retained, PAID_LATE);
    SumSeqAppend([PAID_LATE], Retained, PAID_LATE);
    assert [] + [PAID_LATE] == [PAID_LATE];
    assert [PAID_LATE] + [PAID_LATE] == J17.transfers;
  }

  /** A payout job that runs after its lock has expired and a second payout was made: both pay. */
  lemma {:induction false} LatePayoutJobBreaks() returns (good: seq<S.Event>, es: seq<S.Event>)
    ensures Breaks(good, RunPayoutJob(0), es, 1000)
  {
    good := PaidBySecond();
    FirstJobIsLate();
    LeadsWrong(good, J14, RunPayoutJob(0));
    es := GoesWrong(good, J14, RunPayoutJob(0), J15);
    FirstBegins();
    es := AndNow(good, RunPayoutJob(0), es, J15, TransferBegin(0), J16);
    FirstEnds();
    es := AndNow(good, RunPayoutJob(0), es, J16, TransferEnd(0, true), J17);
    PaidByBothIsShort();
    Broken(good, RunPayoutJob(0), es, J17, 1000);
  }

  // ----- a second refund after an hour

  const ASKED_LATE := RefundRow(0, 0, true, false, Queued(PAST))
  const DONE_LATE := RefundRow(0, 0, true, true, Sent(PAST))

  /** The first refund was posted, and its lock does not stand any more. */
  predicate Unlocked(s: State, first: RefundRow)
  {
    && first.completed && first.payment == 0
    && s == State(AFTER_REFUND, NO_TXS, At(IN_DISPUTE), [PAID], [], [first], s.keys, map[], PAST)
    && s.keys in {map[FundedKey(0, 0) := MARKED], REFUND_ASKED}
  }

  function T1(first: RefundRow): State
  {
    State(AFTER_REFUND, NO_TXS, At(IN_DISPUTE), [PAID], [], [first, ASKED_LATE],
          map[FundedKey(0, 0) := MARKED, RefundKey(0) := PAST_LOCK], map[], PAST)
  }

  function T2(first: RefundRow): State
  {
    State(AFTER_REFUND, NO_TXS, At(IN_DISPUTE), [PAID], [], [first, ASKED_LATE.(stage := Sent(PAST))],
          map[FundedKey(0, 0) := MARKED, RefundKey(0) := PAST_MARK], map[], PAST)
  }

  function T3(first: RefundRow): State
  {
    State(AFTER_TWICE, NO_TXS, At(IN_DISPUTE), [PAID], [], [first, DONE_LATE],
          map[FundedKey(0, 0) := MARKED, RefundKey(0) := PAST_MARK], map[], PAST)
  }

  function T4(first: RefundRow): State
  {
    State(AFTER_TWICE, NO_TXS, At(IS_REFUNDED), [PAID], [], [first, DONE_LATE],
          map[FundedKey(0, 0) := MARKED, RefundKey(0) := PAST_MARK, RefundedKey(0) := PAST_MARK], map[], PAST)
  }

  lemma {:induction false} SecondRequest(s: State, first: RefundRow)
    requires Unlocked(s, first)
    ensures S.Next(s, S.Event.RequestRefund(0, true, true)) == T1(first)
  {
  }

  lemma {:induction false} SecondSent(first: RefundRow)
    ensures S.Next(T1(first), RunRefundJob(1)) == T2(first)
  {
    assert T1(first).refunds[1] == ASKED_LATE;
  }

  lemma {:induction false} SecondPosted(first: RefundRow)
    ensures S.Next(T2(first), RefundPost(0)) == T3(first)
  {
    assert LatestRefund(T2(first).refunds, 0) == Some(1);
    assert Post(EnsureWallet(AFTER_REFUND, 1), RefundEntry(PAID, 0)) == AFTER_TWICE;
  }

  lemma {:induction false} SecondMarked(first: RefundRow)
    ensures S.Next(T3(first), RefundMark(0)) == T4(first)
  {
    var (contract, keys, ok) := Mark(IN_DISPUTE, T3(first).keys, RefundedKey(0), REFUNDED, PAST);
    assert ok && contract == IS_REFUNDED && keys == T4(first).keys;
  }

  lemma {:induction false} RefundRequestedAgain(good: seq<S.Event>, bad: S.Event, es: seq<S.Event>, s: State, first: RefundRow)
    returns (more: seq<S.Event>)
    requires GoesOn(good, bad, es, s) && Unlocked(s, first)
    ensures GoesOn(good, bad, more, T2(first))
  {
    SecondRequest(s, first);
    more := AndNow(good, bad, es, s, S.Event.RequestRefund(0, true, true), T1(first));
    SecondSent(first);
    more := AndNow(good, bad, more, T1(first), RunRefundJob(1), T2(first));
  }

  lemma {:induction false} RefundPaidAgain(good: seq<S.Event>, bad: S.Event, es: seq<S.Event>, first: RefundRow)
    returns (more: seq<S.Event>)
    requires GoesOn(good, bad, es, T2(first))
    ensures good + [bad] <= more && Short(S.Run(NO_TXS, more), 1000)
  {
    SecondPosted(first);
    more := AndNow(good, bad, es, T2(first), RefundPost(0), T3(first));
    SecondMarked(first);
    more := AndNow(good, bad, more, T3(first), RefundMark(0), T4(first));
    OneContract(T4(first), T4(first).cases[0]);
  }

  lemma {:induction false} RefundedTwice(good: seq<S.Event>, bad: S.Event, es: seq<S.Event>, s: State, first: RefundRow)
    returns (more: seq<S.Event>)
    requires Wrong(good, bad) && GoesOn(good, bad, es, s) && Unlocked(s, first)
    ensures Breaks(good, bad, more, 1000)
  {
    more := RefundRequestedAgain(good, bad, es, s, first);
    more := RefundPaidAgain(good, bad, more, first);
  }

  // ----- a late refund job

  const K9 := State(ONE_PAID, NO_TXS, At(IN_DISPUTE), [PAID], [], [ASKED], REFUND_ASKED, map[], PAST)
  const K10 := State(ONE_PAID, NO_TXS, At(IN_DISPUTE), [PAID], [], [ASKED], map[FundedKey(0, 0) := MARKED], map[], PAST)
  const K11 := State(ONE_PAID, NO_TXS, At(IN_DISPUTE), [PAID], [], [ASKED.(stage := Sent(PAST))],
                     map[FundedKey(0, 0) := MARKED], map[], PAST)
  const K12 := State(AFTER_REFUND, NO_TXS, At(IN_DISPUTE), [PAID], [], [DONE_LATE], map[FundedKey(0, 0) := MARKED], map[], PAST)

  lemma {:induction false} RefundLockExpires()
    ensures Good(R8, Tick(PAST)) && S.Next(R8, Tick(PAST)) == K9
    ensures Good(K9, S.Event.Purge) && S.Next(K9, S.Event.Purge) == K10
  {
  }

  lemma {:induction false} RefundJobIsLate()
    ensures !Good(K10, RunRefundJob(0)) && S.Next(K10, RunRefundJob(0)) == K11
  {
    assert K10.refunds[0] == ASKED;
  }

  lemma {:induction false} LateRefundPosts()
    ensures S.Next(K11, RefundPost(0)) == K12
  {
    assert LatestRefund(K11.refunds, 0) == Some(0);
    assert Post(EnsureWallet(ONE_PAID, 1), RefundEntry(PAID, 0)) == AFTER_REFUND;
  }

  lemma {:induction false} RefundLockIsGone() returns (es: seq<S.Event>)
    ensures Leads(es, K10)
  {
    es := RefundRequested();
    RefundLockExpires();
    es := Then(es, R8, Tick(PAST), K9);
    es := Then(es, K9, S.Event.Purge, K10);
  }

  /** A refund job that runs after its lock was purged: the refund can be asked for again between
      its posting and its mark. */
  lemma {:induction false} LateRefundJobBreaks() returns (good: seq<S.Event>, es: seq<S.Event>)
    ensures Breaks(good, RunRefundJob(0), es, 1000)
  {
    good := RefundLockIsGone();
    RefundJobIsLate();
    LeadsWrong(good, K10, RunRefundJob(0));
    es := GoesWrong(good, K10, RunRefundJob(0), K11);
    LateRefundPosts();
    es := AndNow(good, RunRefundJob(0), es, K11, RefundPost(0), K12);
    es := RefundedTwice(good, RunRefundJob(0), es, K12, DONE_LATE);
  }

  // ----- a client's refund job after a dispute

  const BY_CLIENT := RefundRow(0, 0, false, false, Queued(0))
  const CLIENT_SENT := RefundRow(0, 0, false, false, Sent(0))
  const CLIENT_DONE := RefundRow(0, 0, false, true, Sent(0))

  const C6 := State(ONE_PAID, NO_TXS, At(IS_ACTIVE), [PAID], [], [BY_CLIENT], REFUND_ASKED, map[], 0)
  const C7 := State(ONE_PAID, NO_TXS, At(AT_WORK), [PAID], [], [BY_CLIENT], REFUND_ASKED, map[], 0)
  const C8 := State(ONE_PAID, NO_TXS, At(IN_DISPUTE), [PAID], [], [BY_CLIENT], REFUND_ASKED, map[], 0)
  const C9 := State(ONE_PAID, NO_TXS, At(IN_DISPUTE), [PAID], [], [CLIENT_SENT], REFUND_ASKED, map[], 0)
  const C10 := State(AFTER_REFUND, NO_TXS, At(IN_DISPUTE), [PAID], [], [CLIENT_DONE], REFUND_ASKED, map[], 0)
  const C11 := State(AFTER_REFUND, NO_TXS, At(IN_DISPUTE), [PAID], [], [CLIENT_DONE], REFUND_ASKED, map[], PAST)

  lemma {:induction false} ClientAsks()
    ensures Good(S5, S.Event.RequestRefund(0, false, true)) && S.Next(S5, S.Event.RequestRefund(0, false, true)) == C6
  {
  }

  lemma {:induction false} WorkIsDisputed()
    ensures Good(C6, MovedByOthers(0, AT_WORK)) && S.Next(C6, MovedByOthers(0, AT_WORK)) == C7
    ensures Good(C7, ContractStep(0, MarkDisputed(true))) && S.Next(C7, ContractStep(0, MarkDisputed(true))) == C8
  {
    assert Contracts.Next(AT_WORK, MarkDisputed(true)) == IN_DISPUTE;
  }

  lemma {:induction false} ClientJobThrows()
    ensures !Good(C8, RunRefundJob(0)) && S.Next(C8, RunRefundJob(0)) == C9
  {
    assert C8.refunds[0] == BY_CLIENT;
  }

  lemma {:induction false} ClientRefundPosts()
    ensures S.Next(C9, RefundPost(0)) == C10
    ensures S.Next(C10, Tick(PAST)) == C11
  {
    assert LatestRefund(C9.refunds, 0) == Some(0);
    assert Post(EnsureWallet(ONE_PAID, 1), RefundEntry(PAID, 0)) == AFTER_REFUND;
  }

  lemma {:induction false} DisputedAfterRequest() returns (es: seq<S.Event>)
    ensures Leads(es, C8)
  {
    es := Started();
    ClientAsks();
    WorkIsDisputed();
    es := Then(es, S5, S.Event.RequestRefund(0, false, true), C6);
    es := Then(es, C6, MovedByOthers(0, AT_WORK), C7);
    es := Then(es, C7, ContractStep(0, MarkDisputed(true)), C8);
  }

  lemma {:induction false} ClientJobGoesOn(good: seq<S.Event>) returns (es: seq<S.Event>)
    requires S.Run(NO_TXS, good) == C8
    ensures GoesOn(good, RunRefundJob(0), es, C11)
  {
    ClientJobThrows();
    es := GoesWrong(good, C8, RunRefundJob(0), C9);
    ClientRefundPosts();
    es := AndNow(good, RunRefundJob(0), es, C9, RefundPost(0), C10);
    es := AndNow(good, RunRefundJob(0), es, C10, Tick(PAST), C11);
  }

  /** A client's refund job that finds the contract disputed throws after Paystack was asked and
      leaves its lock to expire, so that the refund can be asked for again. */
  lemma {:induction false} ClientJobAfterDisputeBreaks() returns (good: seq<S.Event>, es: seq<S.Event>)
    ensures Breaks(good, RunRefundJob(0), es, 1000)
  {
    good := DisputedAfterRequest();
    ClientJobThrows();
    LeadsWrong(good, C8, RunRefundJob(0));
    es := ClientJobGoesOn(good);
    es := RefundedTwice(good, RunRefundJob(0), es, C11, CLIENT_DONE);
  }
}
