/** Who may ask for money, how much of it goes where, and which balances each posting moves: the
    settlement steps by their columns. */
module SettlementEffects {
  import opened Prelude
  import opened Ledger
  import opened Idempotency
  import opened Contracts
  import opened Settlement
  import opened SettlementRules
  import opened SettlementFrames
  import S = Settlement
  import W = Wallet

  // ----- the platform fee

  /** The fee is the largest whole amount that is at most the percentage percent/per. */
  lemma {:induction false} FeeIsThePercentage(amount: int, percent: int, per: Positive)
    ensures var fee := PlatformFee(amount, percent, per);
            100 * per * fee <= amount * percent < 100 * per * (fee + 1)
  {
    FloorBounds(amount * percent, 100 * per);
  }

  lemma {:induction false} FloorBounds(x: int, d: int)
    requires d > 0
    ensures d * (x / d) <= x < d * (x / d + 1)
  {
    assert x == d * (x / d) + x % d;
  }

  /** The fee leaves something to pay out iff the percentage is below the whole amount. */
  lemma {:induction false} FeeIsBelow(amount: int, percent: int, per: Positive)
    ensures PlatformFee(amount, percent, per) < amount <==> amount * percent < 100 * per * amount
  {
    var fee := PlatformFee(amount, percent, per);
    FeeIsThePercentage(amount, percent, per);
    if fee < amount {
      MultiplyBoth(100 * per, fee + 1, amount);
    } else {
      MultiplyBoth(100 * per, amount, fee);
    }
  }

  lemma {:induction false} MultiplyBoth(d: int, x: int, y: int)
    requires d > 0 && x <= y
    ensures d * x <= d * y
  {
    assert d * (y - x) >= 0;
  }

  // ----- who may release

  /** No unexpired or completed lock stands. */
  predicate Free(s: State, k: Key)
  {
    k in s.keys ==> s.keys[k].completedAt == None && s.keys[k].expiresAt < s.now
  }

  /** The client's release needs READY_FOR_PAYOUT; an admin's one of five statuses and a verified artisan. */
  predicate Releasable(status: Status, admin: bool, outcome: Initiation)
  {
    if admin
    then outcome != Unverified && status in {FUNDED, IN_PROGRESS, CLIENT_CONFIRMED, READY_FOR_PAYOUT, DISPUTED}
    else status in {READY_FOR_PAYOUT}
  }

  /** A release does anything at all iff the status of that moment allows it and the lock is free. */
  lemma {:induction false} ReleaseActsIffAllowed(s: State, c: nat, admin: bool, percent: int, per: Positive, outcome: Initiation)
    requires c < |s.cases|
    ensures InitiatePayoutStep(s, c, admin, percent, per, outcome) != s
        <==> Releasable(StatusOf(s, c), admin, outcome) && Free(s, ReleaseKey(c))
  {
    var s' := InitiatePayoutStep(s, c, admin, percent, per, outcome);
    if Releasable(StatusOf(s, c), admin, outcome) && Free(s, ReleaseKey(c)) {
      assert s'.transfers == s.transfers ==> s'.keys[ReleaseKey(c)] == Lock(s.now, s.now + HOUR, None);
    }
  }

  /** It adds a transfer iff moreover there is a recipient and something to pay; and the transfer
      pays the artisan what the percentage leaves of the contract's amount. */
  lemma {:induction false} ReleasePaysTheArtisan(s: State, c: nat, admin: bool, percent: int, per: Positive, outcome: Initiation)
    requires c < |s.cases|
    ensures var s' := InitiatePayoutStep(s, c, admin, percent, per, outcome);
            var amount := s.cases[c].amount;
            && (s'.transfers != s.transfers <==>
                  Releasable(StatusOf(s, c), admin, outcome) && Free(s, ReleaseKey(c))
                  && outcome != NoRecipient && amount * percent < 100 * per * amount)
            && (s'.transfers != s.transfers ==>
                  && |s'.transfers| == |s.transfers| + 1 && s.transfers == s'.transfers[..|s.transfers|]
                  && var row := s'.transfers[|s.transfers|];
                     && row.contract == c && row.payee == s.cases[c].artisan && row.amount + row.fee == amount
                     && 100 * per * row.fee <= amount * percent < 100 * per * (row.fee + 1)
                     && row.metaFee == Some(row.fee)
                     && (if outcome == QueueFailed then row.status == W.Failed && row.stage == Dropped && ReleaseKey(c) !in s'.keys
                         else row.status == W.Pending && row.stage == Queued(s.now)
                              && ReleaseKey(c) in s'.keys && s'.keys[ReleaseKey(c)] == Lock(s.now, s.now + HOUR, None)))
  {
    FeeIsThePercentage(s.cases[c].amount, percent, per);
    FeeIsBelow(s.cases[c].amount, percent, per);
  }

  /** Somebody who was allowed to released contract `c` at step `i`. */
  predicate ReleasedAt(txs: map<W.TxId, W.Tx>, es: seq<S.Event>, i: nat, c: nat)
  {
    i < |es| && es[i].InitiatePayout? && es[i].contract == c
    && var s := S.Run(txs, es[..i]);
       c < |s.cases| && Releasable(StatusOf(s, c), es[i].admin, es[i].outcome) && Free(s, ReleaseKey(c))
  }

  lemma {:induction false} ReleasedEarlier(txs: map<W.TxId, W.Tx>, es: seq<S.Event>, i: nat, c: nat)
    requires es != [] && ReleasedAt(txs, es[..|es| - 1], i, c)
    ensures ReleasedAt(txs, es, i, c)
  {
    assert es[..|es| - 1][..i] == es[..i];
  }

  lemma {:induction false} OnlyReleasesAddTransfers(s: State, e: S.Event)
    requires !e.InitiatePayout?
    ensures |S.Next(s, e).transfers| == |s.transfers|
    ensures forall t :: 0 <= t < |s.transfers| ==> S.Next(s, e).transfers[t].contract == s.transfers[t].contract
  {
  }

  /** In every run, every transfer goes back to a release that its status allowed at that moment. */
  lemma {:induction false} EveryTransferWasAllowed(txs: map<W.TxId, W.Tx>, es: seq<S.Event>, t: nat) returns (i: nat)
    requires t < |S.Run(txs, es).transfers|
    ensures ReleasedAt(txs, es, i, S.Run(txs, es).transfers[t].contract)
  {
    var init, e := es[..|es| - 1], es[|es| - 1];
    var s := S.Run(txs, init);
    if e.InitiatePayout? && e.contract < |s.cases| {
      ReleasePaysTheArtisan(s, e.contract, e.admin, e.percent, e.per, e.outcome);
    } else if !e.InitiatePayout? {
      OnlyReleasesAddTransfers(s, e);
    }
    if t < |s.transfers| {
      i := EveryTransferWasAllowed(txs, init, t);
      ReleasedEarlier(txs, es, i, s.transfers[t].contract);
    } else {
      i := |es| - 1;
    }
  }

  // ----- who may have a refund

  /** A client may ask before work starts and after the end, an admin always. */
  predicate Refundable(status: Status, admin: bool)
  {
    admin || status in {DRAFT, PENDING_PAYMENT, FUNDED, ACTIVE, PAID_OUT, CANCELLED, REFUNDED, PAYMENT_FAILED, EXPIRED}
  }

  lemma {:induction false} RefundableStatuses(status: Status, admin: bool)
    ensures Refundable(status, admin) <==> MayRequestRefund(status, admin)
  {
  }

  /** A refund request acts iff the payment is verified, the status allows it and the lock is free; then
      it adds one refund of that payment. */
  lemma {:induction false} RefundActsIffAllowed(s: State, p: nat, admin: bool, enqueued: bool)
    requires p < |s.payments| && s.payments[p].contract < |s.cases|
    ensures var s', c := RequestRefundStep(s, p, admin, enqueued), s.payments[p].contract;
            && (s' != s <==> s.payments[p].verified && Refundable(StatusOf(s, c), admin) && Free(s, RefundKey(c)))
            && (s' != s ==>
                  && s'.refunds == s.refunds + [RefundRow(c, p, admin, false, if enqueued then Queued(s.now) else Dropped)]
                  && (if enqueued then RefundKey(c) in s'.keys && s'.keys[RefundKey(c)] == Lock(s.now, s.now + HOUR, None)
                      else RefundKey(c) !in s'.keys))
  {
    var s' := RequestRefundStep(s, p, admin, enqueued);
    RefundableStatuses(StatusOf(s, s.payments[p].contract), admin);
    assert |s'.refunds| != |s.refunds| ==> s' != s;
  }

  predicate RefundedAt(txs: map<W.TxId, W.Tx>, es: seq<S.Event>, i: nat, row: RefundRow)
  {
    i < |es| && es[i].RequestRefund? && es[i].payment == row.payment && es[i].admin == row.admin
    && var s := S.Run(txs, es[..i]);
       row.payment < |s.payments| && s.payments[row.payment].verified && s.payments[row.payment].contract == row.contract
       && row.contract < |s.cases| && Refundable(StatusOf(s, row.contract), row.admin) && Free(s, RefundKey(row.contract))
  }

  /** The row keeps what was asked for, whatever happens to it. */
  predicate SameRequest(a: RefundRow, b: RefundRow)
  {
    a.contract == b.contract && a.payment == b.payment && a.admin == b.admin
  }

  lemma {:induction false} OnlyRequestsAddRefunds(s: State, e: S.Event)
    requires !e.RequestRefund?
    ensures |S.Next(s, e).refunds| == |s.refunds|
    ensures forall r :: 0 <= r < |s.refunds| ==> SameRequest(S.Next(s, e).refunds[r], s.refunds[r])
  {
  }

  lemma {:induction false} RequestAdds(s: State, e: S.Event)
    requires e.RequestRefund?
    ensures |s.refunds| <= |S.Next(s, e).refunds| <= |s.refunds| + 1
    ensures forall r :: 0 <= r < |s.refunds| ==> S.Next(s, e).refunds[r] == s.refunds[r]
    ensures |S.Next(s, e).refunds| == |s.refunds| + 1 ==>
              var row := S.Next(s, e).refunds[|s.refunds|];
              && e.payment == row.payment && e.admin == row.admin && row.payment < |s.payments|
              && s.payments[row.payment].verified && s.payments[row.payment].contract == row.contract < |s.cases|
              && Refundable(StatusOf(s, row.contract), row.admin) && Free(s, RefundKey(row.contract))
  {
    if e.payment < |s.payments| && s.payments[e.payment].contract < |s.cases| {
      RefundActsIffAllowed(s, e.payment, e.admin, e.enqueued);
    }
  }

  /** In every run, every refund goes back to a request that was allowed at that moment. */
  lemma {:induction false} EveryRefundWasAllowed(txs: map<W.TxId, W.Tx>, es: seq<S.Event>, r: nat) returns (i: nat)
    requires r < |S.Run(txs, es).refunds|
    ensures RefundedAt(txs, es, i, S.Run(txs, es).refunds[r])
  {
    var init, e := es[..|es| - 1], es[|es| - 1];
    var s := S.Run(txs, init);
    if e.RequestRefund? { RequestAdds(s, e); } else { OnlyRequestsAddRefunds(s, e); }
    if r < |s.refunds| {
      i := EveryRefundWasAllowed(txs, init, r);
      assert init[..i] == es[..i];
    } else {
      i := |es| - 1;
    }
  }

  // ----- payments

  /** A client is asked to pay the contract's amount, for a contract that is not funded yet. */
  lemma {:induction false} PaymentIsTheClients(s: State, c: nat)
    requires c < |s.cases|
    ensures var s' := InitializePaymentStep(s, c);
            && (s' != s <==> StatusOf(s, c) in {DRAFT, PENDING_PAYMENT})
            && (s' != s ==>
                  && s'.payments == s.payments + [Payment(c, s.cases[c].client, s.cases[c].amount, false, false, 0)]
                  && |s'.cases| == |s.cases| && StatusOf(s', c) == PENDING_PAYMENT)
  {
    var s' := InitializePaymentStep(s, c);
    assert s'.payments != s.payments ==> s' != s;
  }

  // ----- handlers that begin

  /** A charge gets past its mark iff it is neither verified nor at work, and the mark was made before
      or makes a PENDING_PAYMENT contract FUNDED; the amount is the nearest naira. */
  lemma {:induction false} ChargeBeginsIff(s: State, p: nat, kobo: int, about: nat)
    requires p < |s.payments| && about < |s.cases|
    ensures var s', k := ChargeBeginStep(s, p, kobo, about), FundedKey(about, p);
            && (Begins(s, s', Charge(p)) <==>
                  Charge(p) !in s.flights && !s.payments[p].verified
                  && (Free(s, k) ==> StatusOf(s, about) in {PENDING_PAYMENT}))
            && (Begins(s, s', Charge(p)) ==>
                  && |s'.cases| == |s.cases| && StatusOf(s', about) == (if Free(s, k) then FUNDED else StatusOf(s, about))
                  && s'.flights[Charge(p)].ChargeFlight? && s'.flights[Charge(p)].about == about
                  && -50 <= kobo - 100 * s'.flights[Charge(p)].naira < 50)
  {
    MarkCaseEffect(s, about, FundedKey(about, p), FUNDED);
    TableLeadsTo(StatusOf(s, about), FUNDED);
    W.NairaIsNearest(kobo);
  }

  /** The same for a transfer's success, whose fee is the one in its metadata. */
  lemma {:induction false} TransferBeginsIff(s: State, t: nat)
    requires t < |s.transfers| && s.transfers[t].contract < |s.cases|
    ensures var s', c, row := TransferBeginStep(s, t), s.transfers[t].contract, s.transfers[t];
            var k := PaidOutKey(c);
            && (Begins(s, s', Transfer(t)) <==>
                  Transfer(t) !in s.flights && row.status != W.Completed
                  && (Free(s, k) ==> StatusOf(s, c) in {READY_FOR_PAYOUT, DISPUTED}))
            && (Begins(s, s', Transfer(t)) ==>
                  && |s'.cases| == |s.cases| && StatusOf(s', c) == (if Free(s, k) then PAID_OUT else StatusOf(s, c))
                  && s'.flights[Transfer(t)] == TransferFlight(if row.metaFee == None then 0 else row.metaFee.value))
  {
    var c := s.transfers[t].contract;
    MarkCaseEffect(s, c, PaidOutKey(c), PAID_OUT);
    TableLeadsTo(StatusOf(s, c), PAID_OUT);
  }

  /** The mark after a refund makes exactly a DISPUTED contract REFUNDED, if it was not marked before. */
  lemma {:induction false} RefundMarksIff(s: State, p: nat)
    requires p < |s.payments| && s.payments[p].contract < |s.cases|
    ensures var s', c := RefundMarkStep(s, p), s.payments[p].contract;
            && |s'.cases| == |s.cases| && s'.books == s.books && s'.refunds == s.refunds
            && StatusOf(s', c)
               == (if Free(s, RefundedKey(c)) && StatusOf(s, c) in {DISPUTED} then REFUNDED else StatusOf(s, c))
  {
    var c := s.payments[p].contract;
    MarkCaseEffect(s, c, RefundedKey(c), REFUNDED);
    TableLeadsTo(StatusOf(s, c), REFUNDED);
  }

  // ----- balances

  lemma {:induction false} EnsureMovesNothing(b: Books, u: UserId, a: Account)
    ensures BalanceOf(EnsureWallet(b, u), a) == BalanceOf(b, a)
  {
  }

  function Delta(a: Account, from: Account, to: Account, amount: int): int
  {
    (if a == to then amount else 0) - (if a == from then amount else 0)
  }

  /** A committed charge moves the naira that Paystack took from the payer's wallet into escrow, and
      verifies the payment. */
  lemma {:induction false} ChargeMovesMoney(s: State, p: nat, a: Account)
    requires p < |s.payments| && Charge(p) in s.flights && s.flights[Charge(p)].ChargeFlight? && !s.payments[p].txExists
    ensures var s', f, pay := ChargeEndStep(s, p, true), s.flights[Charge(p)], s.payments[p];
            && BalanceOf(s'.books, a) == BalanceOf(s.books, a) + Delta(a, Account.Wallet(pay.user), Escrow, f.naira)
            && s'.books.entries
               == s.books.entries + [Entry(Account.Wallet(pay.user), Escrow, f.naira, Charge(p), Some(f.about))]
            && s'.payments == s.payments[p := Payment(pay.contract, pay.user, pay.amount, true, true, f.naira)]
            && s'.flights == s.flights - {Charge(p)}
  {
    var f, pay := s.flights[Charge(p)], s.payments[p];
    EnsureMovesNothing(s.books, pay.user, a);
    PostBalances(EnsureWallet(s.books, pay.user), ChargeEntry(pay, p, f.about, f.naira), a);
  }

  /** A committed payout moves its amount from escrow to the artisan's wallet and its fee to the fee
      account, and completes the transfer. */
  lemma {:induction false} PayoutMovesMoney(s: State, t: nat, a: Account)
    requires t < |s.transfers| && Transfer(t) in s.flights && s.flights[Transfer(t)].TransferFlight?
    requires s.flights[Transfer(t)].postedFee >= 0
    ensures var s', fee, row := TransferEndStep(s, t, true), s.flights[Transfer(t)].postedFee, s.transfers[t];
            && BalanceOf(s'.books, a)
               == BalanceOf(s.books, a) + Delta(a, Escrow, Account.Wallet(row.payee), row.amount) + Delta(a, Escrow, Fee, fee)
            && s'.transfers == s.transfers[t := row.(status := W.Completed, postedFee := fee)]
            && s'.flights == s.flights - {Transfer(t)}
  {
    var fee, row := s.flights[Transfer(t)].postedFee, s.transfers[t];
    var b := EnsureWallet(s.books, row.payee);
    EnsureMovesNothing(s.books, row.payee, a);
    PostBalances(b, PayoutEntry(row, t), a);
    if fee > 0 { PostBalances(Post(b, PayoutEntry(row, t)), FeeEntry(row, t, fee), a); }
  }

  /** A posted refund moves the payment's amount from escrow back to the payer's wallet. */
  lemma {:induction false} RefundMovesMoney(s: State, p: nat, a: Account)
    requires RefundPosts(s, p)
    ensures var s', pay := RefundPostStep(s, p), s.payments[p];
            && BalanceOf(s'.books, a) == BalanceOf(s.books, a) + Delta(a, Escrow, Account.Wallet(pay.user), pay.amount)
            && s'.books.entries
               == s.books.entries + [Entry(Escrow, Account.Wallet(pay.user), pay.amount, RefundOf(p), Some(pay.contract))]
  {
    var pay := s.payments[p];
    EnsureMovesNothing(s.books, pay.user, a);
    PostBalances(EnsureWallet(s.books, pay.user), RefundEntry(pay, p), a);
  }

  // ----- jobs

  /** A payout job marks a queued transfer as sent and completes its release lock, if there is one. */
  lemma {:induction false} PayoutJobSends(s: State, t: nat)
    requires t < |s.transfers| && s.transfers[t].stage != Dropped
    ensures var s', k := RunPayoutJobStep(s, t), ReleaseKey(s.transfers[t].contract);
            && s'.transfers[t].stage == (if s.transfers[t].stage.Queued? then Sent(s.now) else s.transfers[t].stage)
            && (k in s'.keys <==> k in s.keys)
            && (k in s.keys ==> s'.keys[k] == Lock(s.keys[k].lockedAt, s.keys[k].expiresAt, Some(s.now)))
  {
  }

  /** A refund job does the same unless the contract is settled, or it is a client's and the contract
      disputed: then the lock is left as it is. */
  lemma {:induction false} RefundJobSends(s: State, r: nat)
    requires r < |s.refunds| && s.refunds[r].stage != Dropped && s.refunds[r].contract < |s.cases|
    ensures var s', row := RunRefundJobStep(s, r), s.refunds[r];
            var k, status := RefundKey(row.contract), StatusOf(s, row.contract);
            var throws := status in {PAID_OUT, REFUNDED} || (!row.admin && status == DISPUTED);
            && s'.refunds[r].stage == (if row.stage.Queued? then Sent(s.now) else row.stage)
            && (k in s'.keys <==> k in s.keys)
            && (k in s.keys ==>
                  s'.keys[k] == if throws then s.keys[k] else Lock(s.keys[k].lockedAt, s.keys[k].expiresAt, Some(s.now)))
  {
  }
}
