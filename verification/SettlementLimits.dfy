/** What lies beyond the assumptions on good runs: when exactly one more charge, payout or refund
    leaves the escrow of its contract right. */
module SettlementLimits {
  import opened Prelude
  import opened Ledger
  import opened Idempotency
  import opened Contracts
  import opened Settlement
  import opened SettlementRules
  import opened SettlementFrames
  import opened SettlementPayout
  import opened SettlementRefund
  import W = Wallet

  /** A second payment for a funded contract fails and leaves no trace. */
  lemma {:induction false} SecondPaymentRollsBack(s: State, p: nat, kobo: int)
    requires Shape(s) && p < |s.payments| && PastFunding(StatusOf(s, s.payments[p].contract)) && !Funder(s, p)
    ensures ChargeBeginStep(s, p, kobo, s.payments[p].contract) == s
  {
    var c := s.payments[p].contract;
    MarkCaseEffect(s, c, FundedKey(c, p), FUNDED);
    assert s.keys - {FundedKey(c, p)} == s.keys;
  }

  /** Committing a charge leaves its contract's escrow right iff Paystack charged the amount. */
  lemma {:induction false} EscrowIsRightIffAmountMatches(s: State, p: nat)
    requires p < |s.payments| && Charge(p) in s.flights && s.flights[Charge(p)].ChargeFlight?
    requires !s.payments[p].txExists
    requires var c := s.flights[Charge(p)].about; c < |s.cases| && HoldsFunds(StatusOf(s, c)) && InEscrow(s, c) == 0
    ensures var s', c := ChargeEndStep(s, p, true), s.flights[Charge(p)].about;
            InEscrow(s', c) == Obligation(s'.cases[c]) <==> s.flights[Charge(p)].naira == s.cases[c].amount
  {
    var f := s.flights[Charge(p)];
    SumSeqAppend(s.books.entries, EscrowOn(f.about), ChargeEntry(s.payments[p], p, f.about, f.naira));
  }

  lemma {:induction false} RefundPostEffect(s: State, p: nat)
    requires p < |s.payments|
    ensures var s', c := RefundPostStep(s, p), s.payments[p].contract;
            && s' == s.(books := s'.books, refunds := s'.refunds)
            && InEscrow(s', c) == InEscrow(s, c) - if RefundPosts(s, p) then s.payments[p].amount else 0
  {
    SumSeqAppend(s.books.entries, EscrowOn(s.payments[p].contract), RefundEntry(s.payments[p], p));
  }

  lemma {:induction false} MarkOutcome(s: State, p: nat)
    requires p < |s.payments| && s.payments[p].contract < |s.cases|
    requires var c := s.payments[p].contract; StatusOf(s, c) == DISPUTED ==> Available(Lookup(s.keys, RefundedKey(c)), s.now)
    ensures var s', c := RefundMarkStep(s, p), s.payments[p].contract;
            && s'.books == s.books && s'.transfers == s.transfers && |s'.cases| == |s.cases|
            && Obligation(s'.cases[c])
               == if HoldsFunds(StatusOf(s, c)) && StatusOf(s, c) != DISPUTED then s.cases[c].amount else 0
  {
    MarkCaseEffect(s, s.payments[p].contract, RefundedKey(s.payments[p].contract), REFUNDED);
  }

  /** Handling refund.processed, from posting to mark, leaves the contract's escrow right iff it
      posts for a disputed contract, or neither posts nor finds the contract disputed. The code
      marks a disputed contract even if nothing was posted, and posts for any other one although
      the mark then fails. */
  lemma {:induction false} RefundIsRightIffPostedForDispute(s: State, p: nat)
    requires p < |s.payments| && s.payments[p].contract < |s.cases| && s.payments[p].amount != 0
    requires var c := s.payments[p].contract;
             && HoldsFunds(StatusOf(s, c)) && s.cases[c].amount == s.payments[p].amount
             && InEscrow(s, c) == s.cases[c].amount && Available(Lookup(s.keys, RefundedKey(c)), s.now)
    ensures var s', c := RefundMarkStep(RefundPostStep(s, p), p), s.payments[p].contract;
            InEscrow(s', c) == Obligation(s'.cases[c]) <==> (RefundPosts(s, p) <==> StatusOf(s, c) == DISPUTED)
  {
    RefundPostEffect(s, p);
    MarkOutcome(RefundPostStep(s, p), p);
  }

  // ----- one more payout

  function CompletedOn(c: nat): TransferRow -> int
  {
    (t: TransferRow) => if t.contract == c && t.status == W.Completed then 1 else 0
  }

  function DoneOn(c: nat): RefundRow -> int
  {
    (r: RefundRow) => if r.contract == c && r.completed then 1 else 0
  }

  /** Each completed transfer takes the contract's amount, less the fee it retains. */
  lemma {:induction false} PaidByCount(rows: seq<TransferRow>, c: nat, amount: int)
    requires forall t :: 0 <= t < |rows| && rows[t].contract == c ==> rows[t].amount + rows[t].fee == amount
    ensures SumSeq(rows, PaidOn(c)) + SumSeq(rows, RetainedOn(c)) == amount * SumSeq(rows, CompletedOn(c))
  {
    if rows == [] {
    } else {
      PaidByCount(rows[..|rows| - 1], c, amount);
    }
  }

  lemma {:induction false} RefundedByCount(rows: seq<RefundRow>, c: nat, amount: int)
    ensures SumSeq(rows, RefundedOn(c, amount)) == amount * SumSeq(rows, DoneOn(c))
  {
    if rows == [] {
    } else {
      RefundedByCount(rows[..|rows| - 1], c, amount);
    }
  }

  /** Counting: none, or none but one. */
  lemma {:induction false} CountIsZero<T>(xs: seq<T>, f: T -> int)
    requires forall i :: 0 <= i < |xs| ==> f(xs[i]) in {0, 1}
    ensures SumSeq(xs, f) >= 0 && (SumSeq(xs, f) == 0 <==> forall i :: 0 <= i < |xs| ==> f(xs[i]) == 0)
  {
    if xs == [] {
    } else {
      var init := xs[..|xs| - 1];
      CountIsZero(init, f);
      assert forall i :: 0 <= i < |init| ==> init[i] == xs[i];
    }
  }

  lemma {:induction false} CountIsOne<T>(xs: seq<T>, f: T -> int, k: nat)
    requires forall i :: 0 <= i < |xs| ==> f(xs[i]) in {0, 1}
    requires k < |xs| && f(xs[k]) == 1
    ensures SumSeq(xs, f) >= 1 && (SumSeq(xs, f) == 1 <==> forall i :: 0 <= i < |xs| && i != k ==> f(xs[i]) == 0)
  {
    var init := xs[..|xs| - 1];
    assert forall i :: 0 <= i < |init| ==> init[i] == xs[i];
    if k == |xs| - 1 {
      CountIsZero(init, f);
    } else {
      CountIsOne(init, f, k);
    }
  }

  lemma {:induction false} MultipleIsItself(amount: int, n: int)
    requires amount != 0
    ensures amount * n == amount <==> n == 1
  {
    if n == 1 {
    } else {
      assert amount * n - amount == amount * (n - 1);
    }
  }

  /** The rows that a posted payout leaves behind, counted. */
  lemma {:induction false} EscrowByCount(s: State, c: nat)
    requires NetOk(s) && c < |s.cases|
    requires forall t :: 0 <= t < |s.transfers| && s.transfers[t].contract == c ==>
               s.transfers[t].amount + s.transfers[t].fee == s.cases[c].amount
    ensures InEscrow(s, c) == SumSeq(s.payments, FundedOn(c)) + SumSeq(s.transfers, RetainedOn(c))
              - s.cases[c].amount * (SumSeq(s.transfers, CompletedOn(c)) + SumSeq(s.refunds, DoneOn(c)))
  {
    PaidByCount(s.transfers, c, s.cases[c].amount);
    RefundedByCount(s.refunds, c, s.cases[c].amount);
  }

  lemma {:induction false} CountsAre(s: State, c: nat, t: nat)
    requires t < |s.transfers| && s.transfers[t].contract == c && s.transfers[t].status == W.Completed
    ensures SumSeq(s.transfers, CompletedOn(c)) + SumSeq(s.refunds, DoneOn(c)) == 1
        <==> (forall u :: 0 <= u < |s.transfers| && u != t && s.transfers[u].contract == c ==>
                s.transfers[u].status != W.Completed)
             && !RefundDone(s, c)
  {
    CountIsOne(s.transfers, CompletedOn(c), t);
    CountIsZero(s.refunds, DoneOn(c));
    if SumSeq(s.transfers, CompletedOn(c)) == 1 {
      forall u | 0 <= u < |s.transfers| && u != t && s.transfers[u].contract == c
        ensures s.transfers[u].status != W.Completed
      {
        assert CompletedOn(c)(s.transfers[u]) == 0;
      }
    }
    if SumSeq(s.refunds, DoneOn(c)) == 0 {
      forall r | 0 <= r < |s.refunds| && s.refunds[r].contract == c ensures !s.refunds[r].completed {
        assert DoneOn(c)(s.refunds[r]) == 0;
      }
    }
  }

  /** One transfer of the contract is completed; is that all? */
  lemma {:induction false} PaidRightIffOnlyOnce(s: State, c: nat, t: nat)
    requires NetOk(s) && c < |s.cases| && StatusOf(s, c) == PAID_OUT && t < |s.transfers|
    requires forall u :: 0 <= u < |s.transfers| && s.transfers[u].contract == c ==>
               s.transfers[u].amount + s.transfers[u].fee == s.cases[c].amount
    requires SumSeq(s.payments, FundedOn(c)) == s.cases[c].amount != 0
    requires s.transfers[t].contract == c && s.transfers[t].status == W.Completed
    ensures InEscrow(s, c) == Obligation(s.cases[c]) + SumSeq(s.transfers, RetainedOn(c))
            <==> NothingElsePaid(s, c, t)
  {
    EscrowByCount(s, c);
    CountsAre(s, c, t);
    MultipleIsItself(s.cases[c].amount, SumSeq(s.transfers, CompletedOn(c)) + SumSeq(s.refunds, DoneOn(c)));
  }

  /** The transaction has locked the row and marked the contract; only the flight is new. */
  lemma {:induction false} BegunPayout(s: State, t: nat)
    requires Filed(s) && NetOk(s) && t < |s.transfers| && s.transfers[t].contract < |s.cases|
    requires Transfer(t) !in s.flights && Transfer(t) in TransferBeginStep(s, t).flights
    requires s.transfers[t].metaFee.Some? ==> s.transfers[t].metaFee.value >= 0
    ensures var begun := TransferBeginStep(s, t);
            && begun == s.(flights := begun.flights, cases := begun.cases, keys := begun.keys)
            && SameAmounts(s, begun) && |begun.cases| == |s.cases| && s.transfers[t].status != W.Completed
            && NetOk(begun) && Filed(begun)
            && begun.flights[Transfer(t)].TransferFlight? && begun.flights[Transfer(t)].postedFee >= 0
  {
    var begun := TransferBeginStep(s, t);
    MarkCaseEffect(s, s.transfers[t].contract, PaidOutKey(s.transfers[t].contract), PAID_OUT);
    NetFrame(s, begun);
  }

  /** Its commit completes the row and posts. */
  lemma {:induction false} CommittedPayout(s: State, t: nat)
    requires Filed(s) && NetOk(s) && t < |s.transfers| && s.transfers[t].contract < |s.cases|
    requires Transfer(t) in s.flights && s.flights[Transfer(t)].TransferFlight? && s.flights[Transfer(t)].postedFee >= 0
    requires s.transfers[t].status != W.Completed
    ensures var s', row := TransferEndStep(s, t, true), s.transfers[t];
            && s' == s.(flights := s'.flights, transfers := s'.transfers, books := s'.books)
            && NetOk(s')
            && s'.transfers == s.transfers[t := row.(status := W.Completed, postedFee := s.flights[Transfer(t)].postedFee)]
  {
    var landed := s.(flights := s.flights - {Transfer(t)});
    TransferEndEffect(s, t);
    NetFrame(s, landed);
    PayoutPostedNet(landed, TransferEndStep(s, t, true), t, s.flights[Transfer(t)].postedFee);
  }

  ghost predicate NothingElsePaid(s: State, c: nat, t: nat)
  {
    && (forall u :: 0 <= u < |s.transfers| && u != t && s.transfers[u].contract == c ==> s.transfers[u].status != W.Completed)
    && !RefundDone(s, c)
  }

  /** What a payout's success, from mark to commit, does to the rows. */
  ghost predicate Settled(s: State, s': State, t: nat)
  {
    && t < |s.transfers| && |s'.transfers| == |s.transfers| && s'.transfers[t].status == W.Completed
    && s'.transfers[t].amount == s.transfers[t].amount && s'.transfers[t].fee == s.transfers[t].fee
    && s'.transfers[t].contract == s.transfers[t].contract
    && (forall u :: 0 <= u < |s.transfers| && u != t ==> s'.transfers[u] == s.transfers[u])
    && s'.refunds == s.refunds && s'.payments == s.payments
    && |s'.cases| == |s.cases| && SameAmounts(s, s')
  }

  lemma {:induction false} PayoutSettles(s: State, t: nat)
    requires Filed(s) && NetOk(s) && t < |s.transfers| && s.transfers[t].contract < |s.cases|
    requires Transfer(t) !in s.flights && Transfer(t) in TransferBeginStep(s, t).flights
    requires s.transfers[t].metaFee.Some? ==> s.transfers[t].metaFee.value >= 0
    ensures var begun := TransferBeginStep(s, t);
            var s' := TransferEndStep(begun, t, true);
            NetOk(s') && Settled(s, s', t) && s'.cases == begun.cases
  {
    BegunPayout(s, t);
    CommittedPayout(TransferBeginStep(s, t), t);
  }

  lemma {:induction false} SettledRight(s: State, s': State, c: nat, t: nat)
    requires Shape(s) && NetOk(s') && Settled(s, s', t) && s.transfers[t].contract == c
    requires StatusOf(s', c) == PAID_OUT && SumSeq(s.payments, FundedOn(c)) == s.cases[c].amount != 0
    ensures InEscrow(s', c) == Obligation(s'.cases[c]) + SumSeq(s'.transfers, RetainedOn(c))
            <==> NothingElsePaid(s, c, t)
  {
    PaidRightIffOnlyOnce(s', c, t);
    assert RefundDone(s', c) == RefundDone(s, c);
    forall u | 0 <= u < |s.transfers| && u != t ensures s'.transfers[u] == s.transfers[u] {}
  }

  /** A transfer that succeeds for a funded contract leaves the contract's escrow right, up to the
      fee it retains, iff no other transfer of the contract is completed and no refund of it is
      done. So a success that comes after the release lock was purged and used again pays twice,
      and one between a refund's posting and its mark pays beside the refund. */
  lemma {:induction false} PayoutIsRightIffNothingElseWasPaid(s: State, t: nat)
    requires Shape(s) && Filed(s) && NetOk(s) && t < |s.transfers| && Transfer(t) !in s.flights
    requires s.transfers[t].metaFee.Some? ==> s.transfers[t].metaFee.value >= 0
    requires var c, begun := s.transfers[t].contract, TransferBeginStep(s, t);
             && Transfer(t) in begun.flights && c < |begun.cases| && StatusOf(begun, c) == PAID_OUT
             && SumSeq(s.payments, FundedOn(c)) == s.cases[c].amount != 0
    ensures var c, s' := s.transfers[t].contract, TransferEndStep(TransferBeginStep(s, t), t, true);
            InEscrow(s', c) == Obligation(s'.cases[c]) + SumSeq(s'.transfers, RetainedOn(c))
            <==> NothingElsePaid(s, c, t)
  {
    PayoutSettles(s, t);
    SettledRight(s, TransferEndStep(TransferBeginStep(s, t), t, true), s.transfers[t].contract, t);
  }

  // ----- one more refund

  /** How many payouts and refunds of a contract were posted. */
  function TimesPaid(s: State, c: nat): int
  {
    SumSeq(s.transfers, CompletedOn(c)) + SumSeq(s.refunds, DoneOn(c))
  }

  lemma {:induction false} NeverPaid(s: State, c: nat)
    ensures TimesPaid(s, c) == 0
        <==> !RefundDone(s, c)
             && forall t :: 0 <= t < |s.transfers| && s.transfers[t].contract == c ==> s.transfers[t].status != W.Completed
  {
    CountIsZero(s.transfers, CompletedOn(c));
    CountIsZero(s.refunds, DoneOn(c));
    if TimesPaid(s, c) == 0 {
      forall t | 0 <= t < |s.transfers| && s.transfers[t].contract == c ensures s.transfers[t].status != W.Completed {
        assert CompletedOn(c)(s.transfers[t]) == 0;
      }
      forall r | 0 <= r < |s.refunds| && s.refunds[r].contract == c ensures !s.refunds[r].completed {
        assert DoneOn(c)(s.refunds[r]) == 0;
      }
    }
  }

  lemma {:induction false} PostingIsCounted(s: State, p: nat)
    requires Shape(s) && Filed(s) && NetOk(s) && p < |s.payments|
    ensures var s', c := RefundPostStep(s, p), s.payments[p].contract;
            && Shape(s') && NetOk(s') && s' == s.(books := s'.books, refunds := s'.refunds)
            && TimesPaid(s', c) == TimesPaid(s, c) + if RefundPosts(s, p) then 1 else 0
  {
    if RefundPosts(s, p) {
      var r, s' := LatestRefund(s.refunds, p).value, RefundPostStep(s, p);
      RefundPostedShape(s, s', r);
      RefundPostedNet(s, s', r);
      SumSeqUpdate(s.refunds, DoneOn(s.payments[p].contract), r, s'.refunds[r]);
    }
  }

  lemma {:induction false} RightByCount(amount: int, times: int, obligation: int)
    requires amount != 0 && obligation in {0, amount}
    ensures amount - amount * times == obligation <==> times == if obligation == 0 then 1 else 0
  {
    MultipleIsItself(amount, times);
    if times != 0 { assert amount * times != 0; }
  }

  /** A contract that was funded once, against an obligation of all or nothing. */
  lemma {:induction false} RightIffTimes(s: State, c: nat, obligation: int)
    requires Shape(s) && NetOk(s) && c < |s.cases| && SumSeq(s.payments, FundedOn(c)) == s.cases[c].amount != 0
    requires obligation in {0, s.cases[c].amount}
    ensures InEscrow(s, c) == obligation + SumSeq(s.transfers, RetainedOn(c))
            <==> TimesPaid(s, c) == if obligation == 0 then 1 else 0
  {
    EscrowByCount(s, c);
    RightByCount(s.cases[c].amount, TimesPaid(s, c), obligation);
  }

  /** The same in general: handling refund.processed leaves the escrow of a funded contract right, up
      to retained fees, iff afterwards it was paid once if it is settled, and not at all if it still
      holds funds. */
  lemma {:induction false} RefundIsRightIffPaidOnce(s: State, p: nat)
    requires Shape(s) && Filed(s) && NetOk(s) && p < |s.payments|
    requires var c := s.payments[p].contract;
             && SumSeq(s.payments, FundedOn(c)) == s.cases[c].amount != 0
             && (StatusOf(s, c) == DISPUTED ==> Available(Lookup(s.keys, RefundedKey(c)), s.now))
    ensures var s', c := RefundMarkStep(RefundPostStep(s, p), p), s.payments[p].contract;
            InEscrow(s', c) == Obligation(s'.cases[c]) + SumSeq(s'.transfers, RetainedOn(c))
            <==> TimesPaid(s, c) + (if RefundPosts(s, p) then 1 else 0)
                 == if HoldsFunds(StatusOf(s, c)) && StatusOf(s, c) != DISPUTED then 0 else 1
  {
    var c, posted := s.payments[p].contract, RefundPostStep(s, p);
    PostingIsCounted(s, p);
    MarkOutcome(posted, p);
    RightIffTimes(posted, c, Obligation(RefundMarkStep(posted, p).cases[c]));
  }

  /** So a refund posted for a disputed contract is right iff nothing else of it was paid: not one
      that was posted again after the refund lock was purged, nor one beside a payout. */
  lemma {:induction false} RefundIsRightIffNothingElseWasPaid(s: State, p: nat)
    requires Shape(s) && Filed(s) && NetOk(s) && p < |s.payments| && RefundPosts(s, p)
    requires var c := s.payments[p].contract;
             && SumSeq(s.payments, FundedOn(c)) == s.cases[c].amount != 0
             && StatusOf(s, c) == DISPUTED && Available(Lookup(s.keys, RefundedKey(c)), s.now)
    ensures var s', c := RefundMarkStep(RefundPostStep(s, p), p), s.payments[p].contract;
            InEscrow(s', c) == Obligation(s'.cases[c]) + SumSeq(s'.transfers, RetainedOn(c))
            <==> !RefundDone(s, c)
                 && forall t :: 0 <= t < |s.transfers| && s.transfers[t].contract == c ==>
                      s.transfers[t].status != W.Completed
  {
    RefundIsRightIffPaidOnce(s, p);
    NeverPaid(s, s.payments[p].contract);
  }

  // ----- a cancellation

  /** Moving a contract along the table from outside leaves its escrow as right as it was, unless
      that cancels a contract that holds funds; then never. */
  lemma {:induction false} MoveIsRightIffNothingHeldIsCancelled(s: State, c: nat, moved: Contract)
    requires c < |s.cases| && s.cases[c].amount != 0 && moved.status in Targets(StatusOf(s, c))
    requires moved.status !in {FUNDED, PAID_OUT, REFUNDED}
    requires InEscrow(s, c) == Obligation(s.cases[c]) + SumSeq(s.transfers, RetainedOn(c))
    ensures var s' := MovedByOthersStep(s, c, moved);
            InEscrow(s', c) == Obligation(s'.cases[c]) + SumSeq(s'.transfers, RetainedOn(c))
            <==> !(HoldsFunds(StatusOf(s, c)) && moved.status == CANCELLED)
  {
  }
}
