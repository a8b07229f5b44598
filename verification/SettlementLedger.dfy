/** What every run of settlement and wallet steps does to the books. */
module SettlementLedger {
  import opened Prelude
  import opened Ledger
  import opened Settlement
  import Contracts
  import W = Wallet

  /** A wallet operation posts at most one entry, never on the escrow account or a contract. */
  lemma {:induction false} WalletEntries(db: W.Db, op: W.Op)
    requires W.Legal(db, op)
    ensures var es, es' := db.books.entries, W.Exec(db, op).books.entries;
            es' == es
            || exists e: Entry :: es' == es + [e] && e.ref == WalletOp && e.contract.None?
                               && e.debit != Escrow && e.credit != Escrow
  {
    var es, es' := db.books.entries, W.Exec(db, op).books.entries;
    if es' != es {
      var e := es'[|es|];
      assert es' == es + [e];
    }
  }

  // ----- conservation

  /** Fee percentages and contract amounts are not negative. */
  predicate NonNegative(e: Event)
  {
    match e
    case InitiatePayout(_, _, percent, _, _) => percent >= 0
    case CreateContract(amount, _, _) => amount >= 0
    case _ => true
  }

  ghost predicate FeesOk(s: State)
  {
    && (forall c :: 0 <= c < |s.cases| ==> s.cases[c].amount >= 0)
    && (forall t :: 0 <= t < |s.transfers| && s.transfers[t].metaFee.Some? ==> s.transfers[t].metaFee.value >= 0)
    && (forall r :: r in s.flights && s.flights[r].TransferFlight? ==> s.flights[r].postedFee >= 0)
  }

  /** Paying out keeps the books balanced iff the fee that is posted is not negative. */
  lemma {:induction false} PayoutBalancesIffFeeIsNotNegative(b: Books, row: TransferRow, t: nat, fee: int)
    requires Balanced(b) && Closed(b)
    ensures Balanced(PostPayout(b, row, t, fee)) <==> fee >= 0
    ensures fee >= 0 ==> Closed(PostPayout(b, row, t, fee))
  {
    EnsureKeepsBalanced(b, row.payee);
    var paid := Post(EnsureWallet(b, row.payee), PayoutEntry(row, t));
    PostKeepsBalanced(EnsureWallet(b, row.payee), PayoutEntry(row, t));
    if fee > 0 {
      PostKeepsBalanced(paid, FeeEntry(row, t, fee));
    } else if fee < 0 {
      assert BalanceOf(PostPayout(b, row, t, fee), Escrow) == BalanceOf(paid, Escrow) - fee;
      assert PostPayout(b, row, t, fee).entries == paid.entries;
    } else {
      assert PostPayout(b, row, t, fee) == paid;
    }
  }

  lemma {:induction false} FeeIsNotNegative(amount: int, percent: int, per: Positive)
    requires amount >= 0 && percent >= 0
    ensures PlatformFee(amount, percent, per) >= 0
  {
    ProductIsNotNegative(amount, percent);
    QuotientIsNotNegative(amount * percent, 100 * per);
  }

  lemma {:induction false} ProductIsNotNegative(x: int, y: int)
    requires x >= 0 && y >= 0
    ensures x * y >= 0
  {
  }

  lemma {:induction false} QuotientIsNotNegative(x: int, d: int)
    requires x >= 0 && d > 0
    ensures x / d >= 0
  {
  }

  lemma {:induction false} PayoutStepsKeepFees(s: State, e: Event)
    requires FeesOk(s) && NonNegative(e)
    requires e.InitiatePayout? || e.OverwriteMetadata? || e.RunPayoutJob? || e.TransferFailed?
    ensures FeesOk(Next(s, e))
  {
    if e.InitiatePayout? && e.contract < |s.cases| {
      FeeIsNotNegative(s.cases[e.contract].amount, e.percent, e.per);
    }
  }

  lemma {:induction false} BeginStepsKeepFees(s: State, e: Event)
    requires FeesOk(s)
    requires e.ChargeBegin? || e.TransferBegin?
    ensures FeesOk(Next(s, e))
  {
  }

  lemma {:induction false} EndStepsKeepFees(s: State, e: Event)
    requires FeesOk(s)
    requires e.ChargeEnd? || e.TransferEnd? || e.RefundMark?
    ensures FeesOk(Next(s, e))
  {
  }

  lemma {:induction false} OtherStepsKeepFees(s: State, e: Event)
    requires FeesOk(s) && NonNegative(e)
    requires e.CreateContract? || e.InitializePayment? || e.ContractStep? || e.MovedByOthers? || e.WalletStep?
             || e.RequestRefund? || e.RunRefundJob?
             || e.RefundPost? || e.Purge? || e.Tick?
    ensures FeesOk(Next(s, e))
  {
  }

  lemma {:induction false} StepKeepsFees(s: State, e: Event)
    requires FeesOk(s) && NonNegative(e)
    ensures FeesOk(Next(s, e))
  {
    if e.InitiatePayout? || e.OverwriteMetadata? || e.RunPayoutJob? || e.TransferFailed? {
      PayoutStepsKeepFees(s, e);
    } else if e.ChargeBegin? || e.TransferBegin? {
      BeginStepsKeepFees(s, e);
    } else if e.ChargeEnd? || e.TransferEnd? || e.RefundMark? {
      EndStepsKeepFees(s, e);
    } else {
      OtherStepsKeepFees(s, e);
    }
  }

  /** Only wallet steps, the ends of the two handlers and refunds write the books. */
  predicate Posts(e: Event)
  {
    e.WalletStep? || e.ChargeEnd? || e.TransferEnd? || e.RefundPost?
  }

  lemma {:induction false} OtherStepsKeepBooks(s: State, e: Event)
    requires !Posts(e)
    ensures Next(s, e).books == s.books
  {
  }

  lemma {:induction false} ChargeKeepsBalanced(s: State, p: nat, commit: bool)
    requires Balanced(s.books) && Closed(s.books)
    ensures Balanced(ChargeEndStep(s, p, commit).books) && Closed(ChargeEndStep(s, p, commit).books)
  {
    if p < |s.payments| && Charge(p) in s.flights && s.flights[Charge(p)].ChargeFlight? {
      var f, pay := s.flights[Charge(p)], s.payments[p];
      EnsureKeepsBalanced(s.books, pay.user);
      PostKeepsBalanced(EnsureWallet(s.books, pay.user), ChargeEntry(pay, p, f.about, f.naira));
    }
  }

  lemma {:induction false} PayoutKeepsBalanced(s: State, t: nat, commit: bool)
    requires Balanced(s.books) && Closed(s.books) && FeesOk(s)
    ensures Balanced(TransferEndStep(s, t, commit).books) && Closed(TransferEndStep(s, t, commit).books)
  {
    if t < |s.transfers| && Transfer(t) in s.flights && s.flights[Transfer(t)].TransferFlight? {
      PayoutBalancesIffFeeIsNotNegative(s.books, s.transfers[t], t, s.flights[Transfer(t)].postedFee);
    }
  }

  lemma {:induction false} RefundKeepsBalanced(s: State, p: nat)
    requires Balanced(s.books) && Closed(s.books)
    ensures Balanced(RefundPostStep(s, p).books) && Closed(RefundPostStep(s, p).books)
  {
    if RefundPosts(s, p) {
      EnsureKeepsBalanced(s.books, s.payments[p].user);
      PostKeepsBalanced(EnsureWallet(s.books, s.payments[p].user), RefundEntry(s.payments[p], p));
    }
  }

  lemma {:induction false} StepKeepsBalanced(s: State, e: Event)
    requires Balanced(s.books) && Closed(s.books) && FeesOk(s)
    ensures Balanced(Next(s, e).books) && Closed(Next(s, e).books)
  {
    match e
    case WalletStep(op) =>
      if W.Legal(W.Db(s.books, s.txs), op) { W.ExecKeepsBalanced(W.Db(s.books, s.txs), op); }
    case ChargeEnd(p, commit) => ChargeKeepsBalanced(s, p, commit);
    case TransferEnd(t, commit) => PayoutKeepsBalanced(s, t, commit);
    case RefundPost(p) => RefundKeepsBalanced(s, p);
    case _ => OtherStepsKeepBooks(s, e);
  }

  lemma {:induction false} EmptyBooksBalance()
    ensures Balanced(EMPTY_BOOKS) && Closed(EMPTY_BOOKS)
  {
  }

  /** Every account's balance equals its credited minus its debited entries after any sequence
      of wallet and settlement steps, so the trial balance is always zero. */
  lemma {:induction false} EveryRunBalances(txs: map<W.TxId, W.Tx>, es: seq<Event>)
    requires forall i :: 0 <= i < |es| ==> NonNegative(es[i])
    ensures Balanced(Run(txs, es).books) && Closed(Run(txs, es).books) && FeesOk(Run(txs, es))
    ensures TrialBalance(Run(txs, es).books) == 0
  {
    if es == [] {
      EmptyBooksBalance();
    } else {
      EveryRunBalances(txs, es[..|es| - 1]);
      StepKeepsFees(Run(txs, es[..|es| - 1]), es[|es| - 1]);
      StepKeepsBalanced(Run(txs, es[..|es| - 1]), es[|es| - 1]);
    }
    BalancedBooksSumToZero(Run(txs, es).books);
  }

  // ----- an increment between a wallet operation's read and its write

  predicate WritesBalance(op: W.Op)
  {
    op.Deposit? || op.ExecutePayout? || op.ChargeFee? || op.ReleaseEscrow?
  }

  /** The operation reads and later writes the wallet of `u`, whose funds check it passed. */
  predicate Reads(db: W.Db, op: W.Op, u: UserId)
  {
    W.TxOk(db, op) && u in db.books.wallets && (op.RequestPayout? ==> op.tx !in db.txs) &&
    if op.ReleaseEscrow?
    then u in {op.src, op.dst} && op.src != op.dst && op.src in db.books.wallets && op.dst in db.books.wallets
         && W.RowOk(db.books.wallets[op.src], op)
    else W.Source(db, op) == Some(u) && !op.CreateWallet? && W.RowOk(db.books.wallets[u], op)
  }

  function Seen(db: W.Db, op: W.Op, u: UserId): W.Snapshot
    requires Reads(db, op, u)
  {
    if op.ReleaseEscrow? then W.Two(db.books.wallets[op.src], db.books.wallets[op.dst]) else W.One(db.books.wallets[u])
  }

  /** A transaction on rows whose balance moved but whose version did not. */
  lemma {:induction false} StaleWrite(db: W.Db, op: W.Op, row: Row, u: UserId)
    requires W.TxOk(db, op) && W.Source(db, op) == Some(u) && !op.ReleaseEscrow? && !op.CreateWallet?
    requires u in db.books.wallets && db.books.wallets[u].version == row.version
    requires op.RequestPayout? ==> op.tx !in db.txs
    ensures W.Commit(db, op, W.One(row)).1 == W.Done
    ensures var es, b := db.books.entries, W.Commit(db, op, W.One(row)).0.books;
            if WritesBalance(op)
            then |b.entries| == |es| + 1 && b.entries[..|es|] == es
                 && BalanceOf(b, Account.Wallet(u)) == row.balance + Effect(b.entries[|es|], Account.Wallet(u))
            else b.entries == es && forall a: Account :: BalanceOf(b, a) == BalanceOf(db.books, a)
  {
    var es, b := db.books.entries, W.Commit(db, op, W.One(row)).0.books;
    if !WritesBalance(op) {
      forall a: Account ensures BalanceOf(b, a) == BalanceOf(db.books, a) {}
    }
  }

  lemma {:induction false} StaleRelease(db: W.Db, op: W.Op, src: Row, dst: Row, u: UserId)
    requires op.ReleaseEscrow? && W.TxOk(db, op) && op.src != op.dst && u in {op.src, op.dst}
    requires op.src in db.books.wallets && db.books.wallets[op.src].version == src.version
    requires op.dst in db.books.wallets && db.books.wallets[op.dst].version == dst.version
    ensures W.Commit(db, op, W.Two(src, dst)).1 == W.Done
    ensures var es, b := db.books.entries, W.Commit(db, op, W.Two(src, dst)).0.books;
            && |b.entries| == |es| + 1 && b.entries[..|es|] == es
            && BalanceOf(b, Account.Wallet(u))
               == (if u == op.src then src else dst).balance + Effect(b.entries[|es|], Account.Wallet(u))
  {
  }

  /** Settlement moves money on a wallet without touching its version. If that happens between
      the read and the write of a wallet operation, the write still goes through, and the books
      come out balanced iff the operation leaves the balance column alone: otherwise the
      settlement's change is lost. */
  lemma {:induction false} PlainIncrementIsLostIffBalanceIsWritten(db: W.Db, op: W.Op, e: Entry, u: UserId)
    requires Balanced(db.books) && Closed(db.books) && Reads(db, op, u) && e.amount != 0
    requires (e.credit == Account.Wallet(u) && e.debit == Escrow)
             || (e.debit == Account.Wallet(u) && e.credit == Escrow)
    ensures var moved := db.(books := Post(db.books, e));
            var (after, r) := W.Commit(moved, op, Seen(db, op, u));
            r == W.Done && (Balanced(after.books) <==> !WritesBalance(op))
  {
    var me, moved := Account.Wallet(u), db.(books := Post(db.books, e));
    PostKeepsBalanced(db.books, e);
    PostBalances(db.books, e, me);
    if op.ReleaseEscrow? {
      StaleRelease(moved, op, db.books.wallets[op.src], db.books.wallets[op.dst], u);
    } else {
      StaleWrite(moved, op, db.books.wallets[u], u);
    }
    var b := W.Commit(moved, op, Seen(db, op, u)).0.books;
    if WritesBalance(op) { LostChange(moved.books, b, me, BalanceOf(db.books, me)); }
  }

  /** A balance that was computed from an earlier one no longer equals its entries. */
  lemma {:induction false} LostChange(moved: Books, after: Books, me: Account, seen: int)
    requires Net(moved.entries, me) != seen
    requires |after.entries| == |moved.entries| + 1 && after.entries[..|moved.entries|] == moved.entries
    requires BalanceOf(after, me) == seen + Effect(after.entries[|moved.entries|], me)
    ensures !Balanced(after)
  {
    var e := after.entries[|moved.entries|];
    NetAppend(moved.entries, e, me);
    assert after.entries == moved.entries + [e];
    assert BalanceOf(after, me) != Net(after.entries, me);
  }

  // ----- at most one posting per reference

  /** How many entries carry a reference, on the fee account or elsewhere. */
  function Times(es: seq<Entry>, ref: Reference, fee: bool): nat
  {
    if es == [] then 0
    else
      var last := es[|es| - 1];
      Times(es[..|es| - 1], ref, fee) + if last.ref == ref && (last.credit == Fee) == fee then 1 else 0
  }

  function CompletedRefunds(rs: seq<RefundRow>, p: nat): nat
  {
    if rs == [] then 0
    else
      var last := rs[|rs| - 1];
      CompletedRefunds(rs[..|rs| - 1], p) + if last.payment == p && last.completed then 1 else 0
  }

  lemma {:induction false} TimesAppend(es: seq<Entry>, e: Entry, ref: Reference, fee: bool)
    ensures Times(es + [e], ref, fee)
         == Times(es, ref, fee) + if e.ref == ref && (e.credit == Fee) == fee then 1 else 0
  {
    assert (es + [e])[..|es|] == es;
  }

  lemma {:induction false} CompletingOneRefund(rs: seq<RefundRow>, r: nat, p: nat)
    requires r < |rs| && !rs[r].completed
    ensures CompletedRefunds(rs[r := rs[r].(completed := true)], p)
         == CompletedRefunds(rs, p) + if rs[r].payment == p then 1 else 0
  {
    var rs' := rs[r := rs[r].(completed := true)];
    if r == |rs| - 1 {
      assert rs'[..|rs| - 1] == rs[..|rs| - 1];
    } else {
      CompletingOneRefund(rs[..|rs| - 1], r, p);
      assert rs'[..|rs| - 1] == rs[..|rs| - 1][r := rs[r].(completed := true)];
    }
  }

  /** Postings agree with the transaction rows. */
  ghost predicate Once(s: State)
  {
    forall n: nat :: OnceFor(s, n)
  }

  /** Charge `n`, transfer `n` and the refunds of payment `n`. */
  ghost predicate OnceFor(s: State, n: nat)
  {
    var es := s.books.entries;
    && Times(es, Charge(n), false) == (if n < |s.payments| && s.payments[n].txExists then 1 else 0)
    && Times(es, Transfer(n), false) == (if Paid(s, n) then 1 else 0)
    && Times(es, Transfer(n), true) <= Times(es, Transfer(n), false)
    && Times(es, RefundOf(n), false) == CompletedRefunds(s.refunds, n)
  }

  predicate Paid(s: State, t: nat)
  {
    t < |s.transfers| && s.transfers[t].status == W.Completed
  }

  /** No transfer.failed is handled for a transfer that has succeeded. */
  predicate NoLateFailure(s: State, e: Event)
  {
    e.TransferFailed? && e.transfer < |s.transfers| ==> s.transfers[e.transfer].status != W.Completed
  }

  /** A transfer in flight has not been completed by anybody else. */
  ghost predicate FlightsOpen(s: State)
  {
    forall t: nat :: Transfer(t) in s.flights && t < |s.transfers| ==> s.transfers[t].status != W.Completed
  }

  lemma {:induction false} ChargeEndCounts(s: State, p: nat, commit: bool, n: nat)
    requires OnceFor(s, n)
    ensures OnceFor(ChargeEndStep(s, p, commit), n)
  {
    var s' := ChargeEndStep(s, p, commit);
    if s'.books != s.books {
      var e := ChargeEntry(s.payments[p], p, s.flights[Charge(p)].about, s.flights[Charge(p)].naira);
      assert s'.books.entries == s.books.entries + [e];
      EntryCounts(s.books.entries, e, n);
    }
  }

  lemma {:induction false} ChargeEndOnce(s: State, p: nat, commit: bool)
    requires Once(s)
    ensures Once(ChargeEndStep(s, p, commit))
  {
    forall n: nat ensures OnceFor(ChargeEndStep(s, p, commit), n) {
      assert OnceFor(s, n);
      ChargeEndCounts(s, p, commit, n);
    }
  }

  /** What one more entry adds to the counters of number `n`. */
  lemma {:induction false} EntryCounts(es: seq<Entry>, e: Entry, n: nat)
    ensures Times(es + [e], Charge(n), false) == Times(es, Charge(n), false) + if e.ref == Charge(n) && e.credit != Fee then 1 else 0
    ensures Times(es + [e], Transfer(n), false) == Times(es, Transfer(n), false) + if e.ref == Transfer(n) && e.credit != Fee then 1 else 0
    ensures Times(es + [e], Transfer(n), true) == Times(es, Transfer(n), true) + if e.ref == Transfer(n) && e.credit == Fee then 1 else 0
    ensures Times(es + [e], RefundOf(n), false) == Times(es, RefundOf(n), false) + if e.ref == RefundOf(n) && e.credit != Fee then 1 else 0
  {
    TimesAppend(es, e, Charge(n), false);
    TimesAppend(es, e, Transfer(n), false);
    TimesAppend(es, e, Transfer(n), true);
    TimesAppend(es, e, RefundOf(n), false);
  }

  lemma {:induction false} TransferEndEntries(s: State, t: nat, n: nat)
    requires t < |s.transfers| && Transfer(t) in s.flights && s.flights[Transfer(t)].TransferFlight?
    ensures var es, es' := s.books.entries, TransferEndStep(s, t, true).books.entries;
            && Times(es', Charge(n), false) == Times(es, Charge(n), false)
            && Times(es', RefundOf(n), false) == Times(es, RefundOf(n), false)
            && Times(es', Transfer(n), false) == Times(es, Transfer(n), false) + (if n == t then 1 else 0)
            && Times(es', Transfer(n), true)
               == Times(es, Transfer(n), true) + if n == t && s.flights[Transfer(t)].postedFee > 0 then 1 else 0
  {
    var row, fee := s.transfers[t], s.flights[Transfer(t)].postedFee;
    var first := s.books.entries + [PayoutEntry(row, t)];
    EntryCounts(s.books.entries, PayoutEntry(row, t), n);
    EntryCounts(first, FeeEntry(row, t, fee), n);
    assert TransferEndStep(s, t, true).books.entries == if fee > 0 then first + [FeeEntry(row, t, fee)] else first;
  }

  lemma {:induction false} TransferEndOnce(s: State, t: nat, commit: bool)
    requires Once(s) && FlightsOpen(s)
    ensures Once(TransferEndStep(s, t, commit))
  {
    var s' := TransferEndStep(s, t, commit);
    forall n: nat ensures OnceFor(s', n) {
      assert OnceFor(s, n);
      if commit && t < |s.transfers| && Transfer(t) in s.flights && s.flights[Transfer(t)].TransferFlight? {
        TransferEndEntries(s, t, n);
      }
    }
  }

  lemma {:induction false} RefundPostOnce(s: State, p: nat)
    requires Once(s)
    ensures Once(RefundPostStep(s, p))
  {
    var s' := RefundPostStep(s, p);
    forall n: nat ensures OnceFor(s', n) {
      assert OnceFor(s, n);
      if RefundPosts(s, p) {
        EntryCounts(s.books.entries, RefundEntry(s.payments[p], p), n);
        CompletingOneRefund(s.refunds, LatestRefund(s.refunds, p).value, n);
        assert s'.books.entries == s.books.entries + [RefundEntry(s.payments[p], p)];
      }
    }
  }

  lemma {:induction false} WalletStepOnce(s: State, op: W.Op)
    requires Once(s)
    ensures Once(WalletStepOn(s, op))
  {
    var db, s' := W.Db(s.books, s.txs), WalletStepOn(s, op);
    if W.Legal(db, op) {
      WalletEntries(db, op);
      var es, es' := s.books.entries, s'.books.entries;
      forall n: nat ensures OnceFor(s', n) {
        assert OnceFor(s, n);
        if es' != es {
          var e: Entry :| es' == es + [e] && e.ref == WalletOp;
          EntryCounts(es, e, n);
        }
      }
    }
  }

  /** A step that posts nothing keeps the counters as long as it completes no row. */
  lemma {:induction false} SilentStepKeepsOnce(s: State, s': State)
    requires Once(s) && s'.books.entries == s.books.entries
    requires |s.payments| <= |s'.payments| && forall p :: 0 <= p < |s'.payments| ==>
               s'.payments[p].txExists == (p < |s.payments| && s.payments[p].txExists)
    requires forall t: nat :: Paid(s', t) == Paid(s, t)
    requires forall p: nat :: CompletedRefunds(s'.refunds, p) == CompletedRefunds(s.refunds, p)
    ensures Once(s')
  {
    forall n: nat ensures OnceFor(s', n) { assert OnceFor(s, n) && Paid(s', n) == Paid(s, n); }
  }

  lemma {:induction false} TransferRowsAreSilent(s: State, e: Event)
    requires NoLateFailure(s, e)
    requires e.OverwriteMetadata? || e.RunPayoutJob? || e.TransferFailed?
    ensures var s' := Next(s, e);
            && s'.books == s.books && s'.payments == s.payments && s'.refunds == s.refunds && s'.flights == s.flights
            && forall t: nat :: Paid(s', t) == Paid(s, t)
  {
  }

  lemma {:induction false} InitiationIsSilent(s: State, c: nat, admin: bool, percent: int, per: Positive, outcome: Initiation)
    ensures var s' := InitiatePayoutStep(s, c, admin, percent, per, outcome);
            && s'.books == s.books && s'.payments == s.payments && s'.refunds == s.refunds && s'.flights == s.flights
            && forall t: nat :: Paid(s', t) == Paid(s, t)
  {
  }

  lemma {:induction false} MarksAreSilent(s: State, e: Event)
    requires e.ChargeBegin? || e.TransferBegin? || e.RefundMark? || e.ContractStep? || e.MovedByOthers?
    ensures var s' := Next(s, e);
            s'.books == s.books && s'.payments == s.payments && s'.refunds == s.refunds && s'.transfers == s.transfers
  {
  }

  /** A job changes the stage of a refund row, which no counter sees. */
  lemma {:induction false} RestagedRefund(rs: seq<RefundRow>, r: nat, stage: Stage, p: nat)
    requires r < |rs|
    ensures CompletedRefunds(rs[r := rs[r].(stage := stage)], p) == CompletedRefunds(rs, p)
  {
    var rs' := rs[r := rs[r].(stage := stage)];
    if r == |rs| - 1 {
      assert rs'[..|rs| - 1] == rs[..|rs| - 1];
    } else {
      RestagedRefund(rs[..|rs| - 1], r, stage, p);
      assert rs'[..|rs| - 1] == rs[..|rs| - 1][r := rs[r].(stage := stage)];
    }
  }

  lemma {:induction false} RequestIsSilent(s: State, p: nat, admin: bool, enqueued: bool, n: nat)
    ensures var s' := RequestRefundStep(s, p, admin, enqueued);
            && s' == s.(keys := s'.keys, refunds := s'.refunds)
            && CompletedRefunds(s'.refunds, n) == CompletedRefunds(s.refunds, n)
  {
    var s' := RequestRefundStep(s, p, admin, enqueued);
    if s'.refunds != s.refunds { assert s'.refunds[..|s.refunds|] == s.refunds; }
  }

  lemma {:induction false} RefundJobIsSilent(s: State, r: nat, n: nat)
    ensures var s' := RunRefundJobStep(s, r);
            && s' == s.(keys := s'.keys, refunds := s'.refunds)
            && CompletedRefunds(s'.refunds, n) == CompletedRefunds(s.refunds, n)
  {
    if r < |s.refunds| { RestagedRefund(s.refunds, r, Sent(s.now), n); }
  }

  lemma {:induction false} OthersAreSilent(s: State, e: Event, n: nat)
    requires e.CreateContract? || e.InitializePayment? || e.Purge? || e.Tick?
    ensures var s' := Next(s, e);
            && s'.books == s.books && s'.transfers == s.transfers && s'.flights == s.flights && s'.refunds == s.refunds
            && |s.payments| <= |s'.payments|
            && (n < |s'.payments| ==> s'.payments[n].txExists == (n < |s.payments| && s.payments[n].txExists))
  {
  }

  lemma {:induction false} SilentEvents(s: State, e: Event)
    requires Once(s) && NoLateFailure(s, e)
    requires !e.WalletStep? && !e.ChargeEnd? && !e.TransferEnd? && !e.RefundPost?
    ensures Once(Next(s, e))
  {
    var s' := Next(s, e);
    if e.ChargeBegin? || e.TransferBegin? || e.RefundMark? || e.ContractStep? || e.MovedByOthers? {
      MarksAreSilent(s, e);
      forall t: nat ensures Paid(s', t) == Paid(s, t) {}
    } else if e.InitiatePayout? {
      InitiationIsSilent(s, e.contract, e.admin, e.percent, e.per, e.outcome);
    } else if e.OverwriteMetadata? || e.RunPayoutJob? || e.TransferFailed? {
      TransferRowsAreSilent(s, e);
    } else if e.RequestRefund? {
      forall p: nat ensures CompletedRefunds(s'.refunds, p) == CompletedRefunds(s.refunds, p) {
        RequestIsSilent(s, e.payment, e.admin, e.enqueued, p);
      }
      RequestIsSilent(s, e.payment, e.admin, e.enqueued, 0);
      forall t: nat ensures Paid(s', t) == Paid(s, t) {}
    } else if e.RunRefundJob? {
      forall p: nat ensures CompletedRefunds(s'.refunds, p) == CompletedRefunds(s.refunds, p) {
        RefundJobIsSilent(s, e.refund, p);
      }
      RefundJobIsSilent(s, e.refund, 0);
      forall t: nat ensures Paid(s', t) == Paid(s, t) {}
    } else {
      OthersAreSilent(s, e, 0);
      forall t: nat ensures Paid(s', t) == Paid(s, t) {}
      forall p: nat
        ensures p < |s'.payments| ==> s'.payments[p].txExists == (p < |s.payments| && s.payments[p].txExists)
      {
        OthersAreSilent(s, e, p);
      }
    }
    SilentStepKeepsOnce(s, s');
  }

  lemma {:induction false} FlightsStayOpen(s: State, e: Event)
    requires FlightsOpen(s) && NoLateFailure(s, e)
    ensures FlightsOpen(Next(s, e))
  {
    if e.InitiatePayout? {
      InitiationIsSilent(s, e.contract, e.admin, e.percent, e.per, e.outcome);
      forall t: nat | Transfer(t) in s.flights ensures !Paid(Next(s, e), t) { assert !Paid(s, t); }
    } else if e.OverwriteMetadata? || e.RunPayoutJob? || e.TransferFailed? {
      TransferRowsAreSilent(s, e);
      forall t: nat | Transfer(t) in s.flights ensures !Paid(Next(s, e), t) { assert !Paid(s, t); }
    }
  }

  lemma {:induction false} StepKeepsOnce(s: State, e: Event)
    requires Once(s) && FlightsOpen(s) && NoLateFailure(s, e)
    ensures Once(Next(s, e)) && FlightsOpen(Next(s, e))
  {
    FlightsStayOpen(s, e);
    match e {
      case WalletStep(op) => WalletStepOnce(s, op);
      case ChargeEnd(p, commit) => ChargeEndOnce(s, p, commit);
      case TransferEnd(t, commit) => TransferEndOnce(s, t, commit);
      case RefundPost(p) => RefundPostOnce(s, p);
      case _ => SilentEvents(s, e);
    }
  }

  ghost predicate FailuresInOrder(txs: map<W.TxId, W.Tx>, es: seq<Event>)
  {
    es == [] ||
    (FailuresInOrder(txs, es[..|es| - 1]) && NoLateFailure(Run(txs, es[..|es| - 1]), es[|es| - 1]))
  }

  lemma {:induction false} RunsKeepOnce(txs: map<W.TxId, W.Tx>, es: seq<Event>)
    requires FailuresInOrder(txs, es)
    ensures Once(Run(txs, es)) && FlightsOpen(Run(txs, es))
  {
    if es != [] {
      RunsKeepOnce(txs, es[..|es| - 1]);
      StepKeepsOnce(Run(txs, es[..|es| - 1]), es[|es| - 1]);
    }
  }

  /** Whatever is duplicated, reordered or concurrent: a charge is posted at most once, a transfer
      pays out and deducts its fee at most once, and a payment is refunded in the books exactly
      as often as its refund transactions completed. */
  lemma {:induction false} PostedAtMostOnce(txs: map<W.TxId, W.Tx>, es: seq<Event>, n: nat)
    requires FailuresInOrder(txs, es)
    ensures var s := Run(txs, es);
            && Times(s.books.entries, Charge(n), false) <= 1
            && Times(s.books.entries, Transfer(n), false) <= 1
            && Times(s.books.entries, Transfer(n), true) <= 1
            && Times(s.books.entries, RefundOf(n), false) == CompletedRefunds(s.refunds, n)
  {
    RunsKeepOnce(txs, es);
    assert OnceFor(Run(txs, es), n);
  }

  /** After a late failure the webhook begins its work on the transfer again iff the mark's lock
      row is still there: without it the mark asks for a second move to PAID_OUT. */
  lemma {:induction false} ReopenedBeginsIffLockIsKept(s: State, t: nat)
    requires t < |s.transfers| && s.transfers[t].status == W.Completed && Transfer(t) !in s.flights
    requires s.transfers[t].contract < |s.cases| && s.cases[s.transfers[t].contract].contract.status == Contracts.PAID_OUT
    requires var k := PaidOutKey(s.transfers[t].contract); k in s.keys ==> s.keys[k].completedAt.Some?
    ensures var s' := TransferBeginStep(TransferFailedStep(s, t), t);
            && s'.books == s.books && |s'.transfers| == |s.transfers|
            && (Transfer(t) in s'.flights <==> PaidOutKey(s.transfers[t].contract) in s.keys)
            && (Transfer(t) in s'.flights ==> s'.flights[Transfer(t)].TransferFlight?)
  {
  }

  /** A transfer.failed handled late reopens the transfer. Its next transfer.success pays again iff
      the lock row of the contract's mark has not been purged. */
  lemma {:induction false} LateFailurePaysTwiceIffLockIsKept(s: State, t: nat)
    requires t < |s.transfers| && s.transfers[t].status == W.Completed && Transfer(t) !in s.flights
    requires s.transfers[t].contract < |s.cases| && s.cases[s.transfers[t].contract].contract.status == Contracts.PAID_OUT
    requires var k := PaidOutKey(s.transfers[t].contract); k in s.keys ==> s.keys[k].completedAt.Some?
    ensures var s' := TransferEndStep(TransferBeginStep(TransferFailedStep(s, t), t), t, true);
            Times(s'.books.entries, Transfer(t), false)
            == Times(s.books.entries, Transfer(t), false) + if PaidOutKey(s.transfers[t].contract) in s.keys then 1 else 0
  {
    ReopenedBeginsIffLockIsKept(s, t);
    var begun := TransferBeginStep(TransferFailedStep(s, t), t);
    if Transfer(t) in begun.flights { TransferEndEntries(begun, t, t); }
  }
}
