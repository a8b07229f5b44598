/** Runs that are good up to one event and break the escrow equation with it. */
module SettlementBreaks {
  import opened Prelude
  import opened Ledger
  import opened Idempotency
  import opened Contracts
  import opened Settlement
  import opened SettlementRules
  import opened SettlementExamples
  import S = Settlement
  import W = Wallet

  /** The run `good` is good, but not with `bad` after it; at the end of `es`, which goes on from
      there, no handler is in flight and `missing` naira are missing in escrow. */
  ghost predicate Breaks(good: seq<S.Event>, bad: S.Event, es: seq<S.Event>, missing: int)
  {
    Wrong(good, bad) && good + [bad] <= es && Short(S.Run(NO_TXS, es), missing)
  }

  ghost predicate Wrong(good: seq<S.Event>, bad: S.Event)
  {
    GoodRun(NO_TXS, good) && !Good(S.Run(NO_TXS, good), bad)
  }

  predicate Short(s: State, missing: int)
  {
    s.flights == map[] && s.books.escrow == SumSeq(s.cases, Obligation) + SumSeq(s.transfers, Retained) - missing
  }

  /** The run `es` goes on from `good` with `bad` and ends in state `s`. */
  ghost predicate GoesOn(good: seq<S.Event>, bad: S.Event, es: seq<S.Event>, s: State)
  {
    good + [bad] <= es && S.Run(NO_TXS, es) == s
  }

  lemma {:induction false} GoesWrong(good: seq<S.Event>, s: State, bad: S.Event, s': State) returns (es: seq<S.Event>)
    requires S.Run(NO_TXS, good) == s && S.Next(s, bad) == s'
    ensures GoesOn(good, bad, es, s')
  {
    es := good + [bad];
    assert es[..|good|] == good;
  }

  lemma {:induction false} AndNow(good: seq<S.Event>, bad: S.Event, es: seq<S.Event>, s: State, e: S.Event, s': State)
    returns (more: seq<S.Event>)
    requires GoesOn(good, bad, es, s) && S.Next(s, e) == s'
    ensures GoesOn(good, bad, more, s')
  {
    more := es + [e];
    assert more[..|es|] == es;
  }

  lemma {:induction false} LeadsWrong(good: seq<S.Event>, s: State, bad: S.Event)
    requires Leads(good, s) && !Good(s, bad)
    ensures Wrong(good, bad)
  {
  }

  lemma {:induction false} Broken(good: seq<S.Event>, bad: S.Event, es: seq<S.Event>, s: State, missing: int)
    requires Wrong(good, bad) && GoesOn(good, bad, es, s) && Short(s, missing)
    ensures Breaks(good, bad, es, missing)
  {
  }

  lemma {:induction false} OneContract(s: State, k: Case)
    requires s.cases == [k]
    ensures SumSeq(s.cases, Obligation) == Obligation(k)
  {
    SumSeqAppend([], Obligation, k);
    assert [] + [k] == [k];
  }

  // ----- a mark without a posting

  const U8 := State(ONE_PAID, NO_TXS, At(IS_REFUNDED), [PAID], [], [],
                    map[FundedKey(0, 0) := MARKED, RefundedKey(0) := MARKED], map[], 0)

  lemma {:induction false} MarkUnposted()
    ensures Good(R7, RefundPost(0)) && S.Next(R7, RefundPost(0)) == R7
    ensures !Good(R7, RefundMark(0)) && S.Next(R7, RefundMark(0)) == U8
  {
    var (contract, keys, ok) := Mark(IN_DISPUTE, R7.keys, RefundedKey(0), REFUNDED, 0);
    assert ok && contract == IS_REFUNDED && keys == U8.keys;
  }

  /** refund.processed for a disputed contract without a refund row: nothing is posted, and the
      mark makes the contract REFUNDED with its 1000 still in escrow. */
  lemma {:induction false} RefundNobodyAskedForBreaks() returns (good: seq<S.Event>, es: seq<S.Event>)
    ensures Breaks(good, RefundMark(0), es, -1000)
    ensures Good(S.Run(NO_TXS, good), RefundPost(0)) && S.Next(S.Run(NO_TXS, good), RefundPost(0)) == S.Run(NO_TXS, good)
  {
    good := Disputed();
    MarkUnposted();
    es := GoesWrong(good, R7, RefundMark(0), U8);
    OneContract(U8, U8.cases[0]);
    LeadsWrong(good, R7, RefundMark(0));
    Broken(good, RefundMark(0), es, U8, -1000);
  }

  // ----- a late success

  const LATE := WEEK + 1
  const LATE_MARK := Lock(LATE, LATE + HOUR, Some(LATE))
  const SECOND := QUEUED.(stage := Sent(LATE))
  const SECOND_PAYOUT := Entry(Escrow, Account.Wallet(2), 950, Transfer(1), Some(0))
  const SECOND_FEE := Entry(Escrow, Fee, 50, Transfer(1), Some(0))
  const SECOND_PAID := SECOND.(status := W.Completed, postedFee := 50)
  const AFTER_SECOND := Books(map[1 := Row(-1000, 0, 1), 2 := Row(950, 0, 1)], 0, 50, 0, [FUNDING, SECOND_PAYOUT, SECOND_FEE])
  const AFTER_BOTH := Books(map[1 := Row(-1000, 0, 1), 2 := Row(1900, 0, 1)], -950, 50, 0,
                            [FUNDING, SECOND_PAYOUT, SECOND_FEE, PAYOUT])
  const MARKED_LATE := map[ReleaseKey(0) := LATE_MARK, PaidOutKey(0) := LATE_MARK]

  const L12 := State(ONE_PAID, NO_TXS, At(READY), [PAID], [SENT], [], RELEASED, map[], LATE)
  const L13 := State(ONE_PAID, NO_TXS, At(READY), [PAID], [SENT], [], map[], map[], LATE)
  const L14 := State(ONE_PAID, NO_TXS, At(READY), [PAID], [SENT, QUEUED.(stage := Queued(LATE))], [],
                     map[ReleaseKey(0) := Lock(LATE, LATE + HOUR, None)], map[], LATE)
  const L15 := State(ONE_PAID, NO_TXS, At(READY), [PAID], [SENT, SECOND], [], map[ReleaseKey(0) := LATE_MARK], map[], LATE)
  const L16 := State(ONE_PAID, NO_TXS, At(IS_PAID_OUT), [PAID], [SENT, SECOND], [], MARKED_LATE,
                     map[Transfer(1) := TransferFlight(50)], LATE)
  const L17 := State(AFTER_SECOND, NO_TXS, At(IS_PAID_OUT), [PAID], [SENT, SECOND_PAID], [], MARKED_LATE, map[], LATE)
  const L18 := State(AFTER_SECOND, NO_TXS, At(IS_PAID_OUT), [PAID], [SENT, SECOND_PAID], [], MARKED_LATE,
                     map[Transfer(0) := TransferFlight(0)], LATE)
  const L19 := State(AFTER_BOTH, NO_TXS, At(IS_PAID_OUT), [PAID], [SENT.(status := W.Completed), SECOND_PAID], [],
                     MARKED_LATE, map[], LATE)

  lemma {:induction false} AWeekLater()
    ensures Good(P11, Tick(LATE)) && S.Next(P11, Tick(LATE)) == L12
    ensures Good(L12, S.Event.Purge) && S.Next(L12, S.Event.Purge) == L13
  {
  }

  lemma {:induction false} InitiateAgain()
    ensures Good(L13, InitiatePayout(0, true, 5, 1, Enqueued)) && S.Next(L13, InitiatePayout(0, true, 5, 1, Enqueued)) == L14
    ensures Good(L14, RunPayoutJob(1)) && S.Next(L14, RunPayoutJob(1)) == L15
  {
    assert PlatformFee(1000, 5, 1) == 50;
  }

  lemma {:induction false} BeginSecond()
    ensures Good(L15, TransferBegin(1)) && S.Next(L15, TransferBegin(1)) == L16
  {
    var (contract, keys, ok) := Mark(READY, L15.keys, PaidOutKey(0), PAID_OUT, LATE);
    assert ok && contract == IS_PAID_OUT && keys == L16.keys;
  }

  lemma {:induction false} EndSecond()
    ensures Good(L16, TransferEnd(1, true)) && S.Next(L16, TransferEnd(1, true)) == L17
  {
    assert PostPayout(L16.books, L16.transfers[1], 1, 50) == L17.books;
  }

  lemma {:induction false} LateSuccess()
    ensures !Good(L17, TransferBegin(0)) && S.Next(L17, TransferBegin(0)) == L18
  {
    assert L17.transfers[0] == SENT;
  }

  lemma {:induction false} LateCommit()
    ensures S.Next(L18, TransferEnd(0, true)) == L19
  {
    assert PostPayout(L18.books, L18.transfers[0], 0, 0) == L19.books;
  }

  lemma {:induction false} PaidAgainAfterAWeek() returns (es: seq<S.Event>)
    ensures Leads(es, L17)
  {
    es := PayoutSent();
    AWeekLater();
    InitiateAgain();
    BeginSecond();
    EndSecond();
    es := Then(es, P11, Tick(LATE), L12);
    es := Then(es, L12, S.Event.Purge, L13);
    es := Then(es, L13, InitiatePayout(0, true, 5, 1, Enqueued), L14);
    es := Then(es, L14, RunPayoutJob(1), L15);
    es := Then(es, L15, TransferBegin(1), L16);
    es := Then(es, L16, TransferEnd(1, true), L17);
  }

  /** A transfer still unconfirmed after a week: the release lock is purged, a second payout is
      made and succeeds, and when the first succeeds too the contract is paid twice. */
  lemma {:induction false} LateSuccessBreaks() returns (good: seq<S.Event>, es: seq<S.Event>)
    ensures Breaks(good, TransferBegin(0), es, 1000)
  {
    good := PaidAgainAfterAWeek();
    LateSuccess();
    es := GoesWrong(good, L17, TransferBegin(0), L18);
    LateCommit();
    es := AndNow(good, TransferBegin(0), es, L18, TransferEnd(0, true), L19);
    PaidTwiceIsShort();
    LeadsWrong(good, L17, TransferBegin(0));
    Broken(good, TransferBegin(0), es, L19, 1000);
  }

  lemma {:induction false} PaidTwiceIsShort()
    ensures Short(L19, 1000)
  {
    OneContract(L19, L19.cases[0]);
    SumSeqAppend([], Retained, L19.transfers[0]);
    SumSeqAppend([L19.transfers[0]], Retained, L19.transfers[1]);
    assert [] + [L19.transfers[0]] == [L19.transfers[0]];
    assert [L19.transfers[0]] + [L19.transfers[1]] == L19.transfers;
  }

  // ----- a success between a refund's posting and its mark

  const PAID_IN_DISPUTE := IN_DISPUTE.(status := PAID_OUT, audit := IN_DISPUTE.audit + [Audit(DISPUTED, PAID_OUT)])
  const QUICK := QUEUED.(stage := Sent(0))
  const BOTH_SENT := map[FundedKey(0, 0) := MARKED, ReleaseKey(0) := MARKED, RefundKey(0) := MARKED]
  const BOTH_BOOKS := Books(map[1 := Row(0, 0, 1), 2 := Row(950, 0, 1)], -1000, 50, 0,
                            [FUNDING, REFUND, PAYOUT, Entry(Escrow, Fee, 50, Transfer(0), Some(0))])

  const B8 := State(ONE_PAID, NO_TXS, At(IN_DISPUTE), [PAID], [QUEUED], [], REQUESTED, map[], 0)
  const B9 := State(ONE_PAID, NO_TXS, At(IN_DISPUTE), [PAID], [QUICK], [], RELEASED, map[], 0)
  const B10 := State(ONE_PAID, NO_TXS, At(IN_DISPUTE), [PAID], [QUICK], [ASKED],
                     RELEASED[RefundKey(0) := Lock(0, HOUR, None)], map[], 0)
  const B11 := State(ONE_PAID, NO_TXS, At(IN_DISPUTE), [PAID], [QUICK], [ASKED.(stage := Sent(0))], BOTH_SENT, map[], 0)
  const B12 := State(AFTER_REFUND, NO_TXS, At(IN_DISPUTE), [PAID], [QUICK], [PROCESSED], BOTH_SENT, map[], 0)
  const B13 := State(AFTER_REFUND, NO_TXS, At(PAID_IN_DISPUTE), [PAID], [QUICK], [PROCESSED],
                     BOTH_SENT[PaidOutKey(0) := MARKED], map[Transfer(0) := TransferFlight(50)], 0)
  const B14 := State(BOTH_BOOKS, NO_TXS, At(PAID_IN_DISPUTE), [PAID], [QUICK.(status := W.Completed, postedFee := 50)],
                     [PROCESSED], BOTH_SENT[PaidOutKey(0) := MARKED], map[], 0)

  lemma {:induction false} SendInDispute()
    ensures Good(R7, InitiatePayout(0, true, 5, 1, Enqueued)) && S.Next(R7, InitiatePayout(0, true, 5, 1, Enqueued)) == B8
    ensures Good(B8, RunPayoutJob(0)) && S.Next(B8, RunPayoutJob(0)) == B9
  {
    assert PlatformFee(1000, 5, 1) == 50;
  }

  lemma {:induction false} AskInDispute()
    ensures Good(B9, S.Event.RequestRefund(0, true, true)) && S.Next(B9, S.Event.RequestRefund(0, true, true)) == B10
  {
  }

  lemma {:induction false} RefundInDispute()
    ensures Good(B10, RunRefundJob(0)) && S.Next(B10, RunRefundJob(0)) == B11
  {
  }

  lemma {:induction false} PostInDispute()
    ensures Good(B11, RefundPost(0)) && S.Next(B11, RefundPost(0)) == B12
  {
    assert LatestRefund(B11.refunds, 0) == Some(0);
    assert Post(EnsureWallet(B11.books, 1), RefundEntry(B11.payments[0], 0)) == B12.books;
  }

  lemma {:induction false} PayInDispute()
    ensures !Good(B12, TransferBegin(0)) && S.Next(B12, TransferBegin(0)) == B13
  {
    assert B12.refunds[0].completed && RefundDone(B12, 0);
    assert B12.transfers[0] == QUICK;
    var (contract, keys, ok) := Mark(IN_DISPUTE, B12.keys, PaidOutKey(0), PAID_OUT, 0);
    assert ok && contract == PAID_IN_DISPUTE && keys == B13.keys;
  }

  lemma {:induction false} CommitInDispute()
    ensures S.Next(B13, TransferEnd(0, true)) == B14
  {
    assert PostPayout(B13.books, B13.transfers[0], 0, 50) == B14.books;
  }

  lemma {:induction false} PayingAndRefunding() returns (es: seq<S.Event>)
    ensures Leads(es, B12)
  {
    es := Disputed();
    SendInDispute();
    AskInDispute();
    RefundInDispute();
    PostInDispute();
    es := Then(es, R7, InitiatePayout(0, true, 5, 1, Enqueued), B8);
    es := Then(es, B8, RunPayoutJob(0), B9);
    es := Then(es, B9, S.Event.RequestRefund(0, true, true), B10);
    es := Then(es, B10, RunRefundJob(0), B11);
    es := Then(es, B11, RefundPost(0), B12);
  }

  /** An admin pays a disputed contract out and then asks for its refund; if the payout succeeds
      between the refund's posting and its mark, both are paid. */
  lemma {:induction false} SuccessDuringRefundBreaks() returns (good: seq<S.Event>, es: seq<S.Event>)
    ensures Breaks(good, TransferBegin(0), es, 1000)
  {
    good := PayingAndRefunding();
    PayInDispute();
    es := GoesWrong(good, B12, TransferBegin(0), B13);
    CommitInDispute();
    es := AndNow(good, TransferBegin(0), es, B13, TransferEnd(0, true), B14);
    PaidAndRefundedIsShort();
    LeadsWrong(good, B12, TransferBegin(0));
    Broken(good, TransferBegin(0), es, B14, 1000);
  }

  lemma {:induction false} PaidAndRefundedIsShort()
    ensures Short(B14, 1000)
  {
    OneContract(B14, B14.cases[0]);
    SumSeqAppend([], Retained, B14.transfers[0]);
    assert [] + B14.transfers == B14.transfers;
  }

  // ----- a posted refund that waits a week for its mark

  const AGAIN := RefundRow(0, 0, true, false, Queued(LATE))
  const AGAIN_DONE := RefundRow(0, 0, true, true, Sent(LATE))
  const AFTER_TWICE := Books(map[1 := Row(1000, 0, 1)], -1000, 0, 0, [FUNDING, REFUND, REFUND])

  const W11 := State(AFTER_REFUND, NO_TXS, At(IN_DISPUTE), [PAID], [], [PROCESSED], REFUND_SENT, map[], LATE)
  const W12 := State(AFTER_REFUND, NO_TXS, At(IN_DISPUTE), [PAID], [], [PROCESSED], map[], map[], LATE)
  const W13 := State(AFTER_REFUND, NO_TXS, At(IN_DISPUTE), [PAID], [], [PROCESSED, AGAIN],
                     map[RefundKey(0) := Lock(LATE, LATE + HOUR, None)], map[], LATE)
  const W14 := State(AFTER_REFUND, NO_TXS, At(IN_DISPUTE), [PAID], [], [PROCESSED, AGAIN.(stage := Sent(LATE))],
                     map[RefundKey(0) := LATE_MARK], map[], LATE)
  const W15 := State(AFTER_TWICE, NO_TXS, At(IN_DISPUTE), [PAID], [], [PROCESSED, AGAIN_DONE],
                     map[RefundKey(0) := LATE_MARK], map[], LATE)
  const W16 := State(AFTER_TWICE, NO_TXS, At(IS_REFUNDED), [PAID], [], [PROCESSED, AGAIN_DONE],
                     map[RefundKey(0) := LATE_MARK, RefundedKey(0) := LATE_MARK], map[], LATE)

  lemma {:induction false} WaitingIsWrong(good: seq<S.Event>, s: State, ms: nat)
    requires Leads(good, s) && |s.refunds| == 1 && Unmarked(s, 0) && !InTime(s.refunds[0].stage, s.now + ms)
    ensures Wrong(good, Tick(ms))
  {
    assert !Good(s, Tick(ms));
  }

  lemma {:induction false} LockRunsOut()
    ensures S.Next(R10, Tick(LATE)) == W11 && S.Next(W11, S.Event.Purge) == W12
  {
  }

  lemma {:induction false} AskAgain()
    ensures S.Next(W12, S.Event.RequestRefund(0, true, true)) == W13
  {
    assert W13.refunds[1].stage == Queued(LATE);
  }

  lemma {:induction false} SendAgain()
    ensures S.Next(W13, RunRefundJob(1)) == W14
  {
  }

  lemma {:induction false} PostAgain()
    ensures S.Next(W14, RefundPost(0)) == W15
  {
    assert LatestRefund(W14.refunds, 0) == Some(1);
    assert Post(EnsureWallet(W14.books, 1), RefundEntry(W14.payments[0], 0)) == W15.books;
  }

  lemma {:induction false} MarkAtLast()
    ensures S.Next(W15, RefundMark(0)) == W16
  {
    var (contract, keys, ok) := Mark(IN_DISPUTE, W15.keys, RefundedKey(0), REFUNDED, LATE);
    assert ok && contract == IS_REFUNDED && keys == W16.keys;
  }

  lemma {:induction false} TwiceRefundedIsShort()
    ensures Short(W16, 1000)
  {
    OneContract(W16, W16.cases[0]);
  }

  lemma {:induction false} RefundLockRunsOut() returns (good: seq<S.Event>, es: seq<S.Event>)
    ensures Wrong(good, Tick(LATE)) && GoesOn(good, Tick(LATE), es, W12)
  {
    good := RefundPosted();
    WaitingIsWrong(good, R10, LATE);
    LockRunsOut();
    es := GoesWrong(good, R10, Tick(LATE), W11);
    es := AndNow(good, Tick(LATE), es, W11, S.Event.Purge, W12);
  }

  lemma {:induction false} RefundAskedAgain(good: seq<S.Event>, es: seq<S.Event>) returns (more: seq<S.Event>)
    requires GoesOn(good, Tick(LATE), es, W12)
    ensures GoesOn(good, Tick(LATE), more, W13)
  {
    AskAgain();
    more := AndNow(good, Tick(LATE), es, W12, S.Event.RequestRefund(0, true, true), W13);
  }

  lemma {:induction false} RefundSentAgain(good: seq<S.Event>, es: seq<S.Event>) returns (more: seq<S.Event>)
    requires GoesOn(good, Tick(LATE), es, W13)
    ensures GoesOn(good, Tick(LATE), more, W14)
  {
    SendAgain();
    more := AndNow(good, Tick(LATE), es, W13, RunRefundJob(1), W14);
  }

  lemma {:induction false} RefundPostedAgain(good: seq<S.Event>, es: seq<S.Event>) returns (more: seq<S.Event>)
    requires GoesOn(good, Tick(LATE), es, W14)
    ensures GoesOn(good, Tick(LATE), more, W15)
  {
    PostAgain();
    more := AndNow(good, Tick(LATE), es, W14, RefundPost(0), W15);
  }

  lemma {:induction false} RefundMarkedAtLast(good: seq<S.Event>, es: seq<S.Event>) returns (more: seq<S.Event>)
    requires GoesOn(good, Tick(LATE), es, W15)
    ensures good + [Tick(LATE)] <= more && Short(S.Run(NO_TXS, more), 1000)
  {
    MarkAtLast();
    more := AndNow(good, Tick(LATE), es, W15, RefundMark(0), W16);
    TwiceRefundedIsShort();
  }

  /** A posted refund that is not marked for a week: the refund lock is purged, the refund can be
      asked for and posted again, and the client gets the money twice. */
  lemma {:induction false} UnmarkedRefundBreaks() returns (good: seq<S.Event>, es: seq<S.Event>)
    ensures Breaks(good, Tick(LATE), es, 1000)
  {
    good, es := RefundLockRunsOut();
    es := RefundAskedAgain(good, es);
    es := RefundSentAgain(good, es);
    es := RefundPostedAgain(good, es);
    es := RefundMarkedAtLast(good, es);
  }
}
