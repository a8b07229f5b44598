/** The payment service and the webhook handlers as they rewrite rows one after the other. A
    handler's own transaction may abort at its end; what the contract service wrote stays. */
module PaymentsServices {
  import opened Prelude
  import opened Ledger
  import opened Idempotency
  import opened Contracts
  import opened Settlement
  import opened SettlementRerun
  import opened SettlementRules
  import opened SettlementEffects
  import W = Wallet

  class PaymentsService {
    var books: Books
    var txs: map<W.TxId, W.Tx>
    var cases: seq<Case>
    var payments: seq<Payment>
    var transfers: seq<TransferRow>
    var refunds: seq<RefundRow>
    const idempotency: IdempotencyService<Key>
    ghost var flights: map<Reference, Flight>
    var now: int

    ghost function Value(): State
      reads this, idempotency
    {
      State(books, txs, cases, payments, transfers, refunds, idempotency.rows, flights, now)
    }

    constructor (txs: map<W.TxId, W.Tx>)
      ensures Value() == Start(txs) && fresh(idempotency)
    {
      books, this.txs, flights, now := EMPTY_BOOKS, txs, map[], 0;
      cases, payments, transfers, refunds := [], [], [], [];
      idempotency := new IdempotencyService();
    }

    /** markFunded, markPaidOut and markRefunded; false where they throw. */
    method MarkContract(c: nat, k: Key, next: Status) returns (ok: bool)
      requires c < |cases|
      modifies this`cases, idempotency
      ensures (Value(), ok) == MarkCase(old(Value()), c, k, next)
    {
      ghost var before := idempotency.rows;
      var acquired := idempotency.TryAcquire(k, now);
      if !acquired {
        assert cases == cases[c := cases[c].(contract := cases[c].contract)];
        return true;
      }
      var contract := cases[c].contract;
      ok := next in Targets(contract.status);
      if ok {
        contract := contract.(status := next, audit := contract.audit + [Audit(contract.status, next)]);
        cases := cases[c := cases[c].(contract := contract)];
        var completed := idempotency.Complete(k, now);
        assert idempotency.rows == before[k := Acquired(now).(completedAt := Some(now))];
      } else {
        var released := idempotency.Release(k);
        assert idempotency.rows == before - {k};
        assert cases == cases[c := cases[c].(contract := cases[c].contract)];
      }
    }

    method CreateEntry(e: Entry)
      requires e.debit.Wallet? ==> e.debit.user in books.wallets
      requires e.credit.Wallet? ==> e.credit.user in books.wallets
      modifies this`books
      ensures books == Post(old(books), e)
    {
      var entries := books.entries + [e];
      books := AddTo(books, e.debit, -e.amount);
      books := AddTo(books, e.credit, e.amount);
      books := books.(entries := entries);
    }

    /** Creates the wallet row of a user who has none. */
    method FindOrCreateWallet(u: UserId)
      modifies this`books
      ensures books == EnsureWallet(old(books), u)
    {
      if u !in books.wallets {
        books := books.(wallets := books.wallets[u := NEW_ROW]);
      }
    }

    /** verifyPaystackPayment after Paystack confirmed the charge; `about` is the contract that
        the charge names. False where it throws. */
    method VerifyPaystackPayment(p: nat, kobo: int, about: nat, commit: bool) returns (ok: bool)
      requires p < |payments| && about < |cases| && Charge(p) !in flights
      modifies this, idempotency
      ensures Value() == Fund(old(Value()), p, kobo, about, commit)
      ensures payments[p].verified <==> old(payments[p].verified) || (ok && commit)
    {
      if payments[p].verified { return true; }
      var savedPayments, savedBooks := payments, books;
      var pay, naira := payments[p], W.Naira(kobo);
      payments := payments[p := pay.(verified := true)];
      if !pay.txExists {
        payments := payments[p := payments[p].(txExists := true, paid := naira)];
        FindOrCreateWallet(pay.user);
        CreateEntry(ChargeEntry(pay, p, about, naira));
      }
      ok := MarkContract(about, FundedKey(about, p), FUNDED);
      if !ok || !commit {
        payments, books := savedPayments, savedBooks;
      }
      assert (flights[Charge(p) := ChargeFlight(about, naira)]) - {Charge(p)} == flights;
    }

    method InitiatePayout(c: nat, admin: bool, percent: int, per: Positive, outcome: Initiation) returns (ok: bool)
      requires c < |cases|
      modifies this`transfers, idempotency
      ensures Value() == InitiatePayoutStep(old(Value()), c, admin, percent, per, outcome)
      ensures ok <==> |transfers| > |old(transfers)| && transfers[|old(transfers)|].stage.Queued?
      ensures ok <==>
                Releasable(StatusOf(old(Value()), c), admin, outcome) && Free(old(Value()), ReleaseKey(c))
                && outcome !in {NoRecipient, QueueFailed} && cases[c].amount * percent < 100 * per * cases[c].amount
    {
      ReleasePaysTheArtisan(Value(), c, admin, percent, per, outcome);
      if !MayRelease(cases[c].contract.status, admin) { return false; }
      if admin && outcome.Unverified? { return false; }
      var acquired := idempotency.TryAcquire(ReleaseKey(c), now);
      if !acquired { return false; }
      if outcome.NoRecipient? { return false; }
      var platformFee := PlatformFee(cases[c].amount, percent, per);
      var payoutAmount := cases[c].amount - platformFee;
      if payoutAmount <= 0 { return false; }
      var row := TransferRow(c, cases[c].artisan, payoutAmount, platformFee, Some(platformFee), W.Pending, Queued(now), 0);
      transfers := transfers + [row];
      ok := !outcome.QueueFailed?;
      if !ok {
        transfers := transfers[|transfers| - 1 := row.(status := W.Failed, stage := Dropped)];
        assert transfers == old(transfers) + [row.(status := W.Failed, stage := Dropped)];
        var released := idempotency.Release(ReleaseKey(c));
      }
    }

    /** An admin release; with a reason the transfer's metadata is replaced afterwards. */
    method ReleaseEscrowByAdmin(c: nat, percent: int, per: Positive, outcome: Initiation, reason: bool)
      requires c < |cases| && Transfer(|transfers|) !in flights
      modifies this`transfers, idempotency
      ensures var s := InitiatePayoutStep(old(Value()), c, true, percent, per, outcome);
              Value() == if reason && |s.transfers| > |old(transfers)| && outcome.Enqueued?
                         then OverwriteMetadataStep(s, |old(transfers)|) else s
    {
      var ok := InitiatePayout(c, true, percent, per, outcome);
      if ok && reason {
        var t := |transfers| - 1;
        transfers := transfers[t := transfers[t].(metaFee := None)];
      }
    }

    method ProcessEscrowPayout(t: nat)
      modifies this`transfers, idempotency
      ensures Value() == RunPayoutJobStep(old(Value()), t)
    {
      if t >= |transfers| || transfers[t].stage.Dropped? { return; }
      var k := ReleaseKey(transfers[t].contract);
      if transfers[t].stage.Queued? {
        transfers := transfers[t := transfers[t].(stage := Sent(now))];
      }
      var completed := idempotency.Complete(k, now);
    }

    /** The entries of a payout first, then the three balances. */
    method PostRelease(row: TransferRow, t: nat, platformFee: int)
      modifies this`books
      ensures books == PostPayout(old(books), row, t, platformFee)
    {
      FindOrCreateWallet(row.payee);
      books := books.(entries := books.entries + [PayoutEntry(row, t)]);
      if platformFee > 0 {
        books := books.(entries := books.entries + [FeeEntry(row, t, platformFee)]);
      }
      books := books.(escrow := books.escrow - (row.amount + platformFee));
      books := AddTo(books, Account.Wallet(row.payee), row.amount);
      if platformFee > 0 {
        books := books.(fee := books.fee + platformFee);
      }
    }

    /** handleTransferSuccess. False where it throws. */
    method HandleTransferSuccess(t: nat, commit: bool) returns (ok: bool)
      requires t < |transfers| && transfers[t].contract < |cases| && Transfer(t) !in flights
      modifies this, idempotency
      ensures Value() == Pay(old(Value()), t, commit)
      ensures transfers[t].status == W.Completed <==> old(transfers[t].status) == W.Completed || (ok && commit)
    {
      if transfers[t].status == W.Completed { return true; }
      var savedTransfers, savedBooks := transfers, books;
      var row := transfers[t];
      var platformFee := if row.metaFee.Some? then row.metaFee.value else 0;
      transfers := transfers[t := row.(status := W.Completed, postedFee := platformFee)];
      PostRelease(row, t, platformFee);
      ok := MarkContract(row.contract, PaidOutKey(row.contract), PAID_OUT);
      if !ok || !commit {
        transfers, books := savedTransfers, savedBooks;
      }
      assert (flights[Transfer(t) := TransferFlight(platformFee)]) - {Transfer(t)} == flights;
    }

    method HandleTransferFailed(t: nat)
      modifies this`transfers
      ensures Transfer(t) !in flights ==> Value() == TransferFailedStep(old(Value()), t)
    {
      if t < |transfers| {
        transfers := transfers[t := transfers[t].(status := W.Failed)];
      }
    }

    /** refundContract for the contract of payment `p`; `enqueued` says whether its job could be
        queued. False where it throws. */
    method RefundContract(p: nat, admin: bool, enqueued: bool) returns (ok: bool)
      requires p < |payments| && payments[p].contract < |cases|
      modifies this`refunds, idempotency
      ensures Value() == RequestRefundStep(old(Value()), p, admin, enqueued)
      ensures ok <==> |refunds| > |old(refunds)| && refunds[|old(refunds)|].stage.Queued?
      ensures var c := payments[p].contract;
              ok <==> enqueued && payments[p].verified && Refundable(StatusOf(old(Value()), c), admin)
                      && Free(old(Value()), RefundKey(c))
    {
      RefundActsIffAllowed(Value(), p, admin, enqueued);
      var c := payments[p].contract;
      if !MayRequestRefund(cases[c].contract.status, admin) || !payments[p].verified { return false; }
      var acquired := idempotency.TryAcquire(RefundKey(c), now);
      if !acquired { return false; }
      var row := RefundRow(c, p, admin, false, Queued(now));
      refunds := refunds + [row];
      ok := enqueued;
      if !ok {
        refunds := refunds[|refunds| - 1 := row.(stage := Dropped)];
        assert refunds == old(refunds) + [row.(stage := Dropped)];
        var released := idempotency.Release(RefundKey(c));
      }
    }

    /** The job of refund `r`: Paystack is asked first, then the contract service may throw. */
    method ProcessEscrowRefund(r: nat)
      requires r < |refunds| ==> refunds[r].contract < |cases|
      modifies this`refunds, idempotency
      ensures Value() == RunRefundJobStep(old(Value()), r)
    {
      if r >= |refunds| || refunds[r].stage.Dropped? { return; }
      var c := refunds[r].contract;
      if refunds[r].stage.Queued? {
        refunds := refunds[r := refunds[r].(stage := Sent(now))];
      }
      if RefundJobFinishes(cases[c].contract.status, refunds[r].admin) {
        var completed := idempotency.Complete(RefundKey(c), now);
      }
    }

    /** The most recent refund of a payment, found from the end. */
    method FindLatestRefund(p: nat) returns (r: Option<nat>)
      ensures r == LatestRefund(refunds, p)
    {
      var i := |refunds|;
      while i > 0
        invariant 0 <= i <= |refunds|
        invariant LatestRefund(refunds, p) == LatestRefund(refunds[..i], p)
      {
        i := i - 1;
        if refunds[i].payment == p { return Some(i); }
        assert refunds[..i + 1][..i] == refunds[..i];
      }
      return None;
    }

    /** handleRefundProcessed: postings first, in their own transaction, then the contract. */
    method HandleRefundProcessed(p: nat) returns (ok: bool)
      requires p < |payments| && payments[p].contract < |cases|
      modifies this`refunds, this`books, this`cases, idempotency
      ensures Value() == RefundMarkStep(RefundPostStep(old(Value()), p), p)
    {
      var r := FindLatestRefund(p);
      if r.Some? && !refunds[r.value].completed {
        refunds := refunds[r.value := refunds[r.value].(completed := true)];
        FindOrCreateWallet(payments[p].user);
        CreateEntry(RefundEntry(payments[p], p));
      }
      ok := MarkContract(payments[p].contract, RefundedKey(payments[p].contract), REFUNDED);
    }
  }
}
