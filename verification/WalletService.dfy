/** The wallet service itself: methods that rewrite rows step by step, each given the operations
    that other calls commit while it waits. Locks taken in Redis play no part in the results. */
module WalletServices {
  import opened Ledger
  import opened Wallet
  import opened WalletProtocol

  datatype Reply = Committed | Refused | ConflictError | ClashError

  /** Other calls' operations, one after the other; what is not legal does not commit. */
  function Serially(db: Db, ops: seq<Op>): Db
  {
    if ops == [] then db
    else
      var before := Serially(db, ops[..|ops| - 1]);
      if Legal(before, ops[|ops| - 1]) then Exec(before, ops[|ops| - 1]) else before
  }

  /** The state after the first `k` waits. */
  function AfterWaits(db: Db, waits: seq<seq<Op>>, k: nat): Db
    requires k <= |waits|
  {
    if k == 0 then db else Serially(AfterWaits(db, waits, k - 1), waits[k - 1])
  }

  lemma {:induction false} SeriallyAges(db: Db, ops: seq<Op>, op: Op, snap: Snapshot)
    requires SnapshotOk(db, op, snap)
    ensures SnapshotOk(Serially(db, ops), op, snap)
  {
    if ops != [] {
      var before, last := Serially(db, ops[..|ops| - 1]), ops[|ops| - 1];
      SeriallyAges(db, ops[..|ops| - 1], op, snap);
      if Legal(before, last) { SnapshotSurvives(before, last, op, snap); }
    }
  }

  lemma {:induction false} SeriallyKeepsTxOk(db: Db, ops: seq<Op>, op: Op)
    requires TxOk(db, op)
    ensures TxOk(Serially(db, ops), op)
    ensures Source(Serially(db, ops), op) == Source(db, op)
  {
    if ops != [] {
      SeriallyKeepsTxOk(db, ops[..|ops| - 1], op);
      var before := Serially(db, ops[..|ops| - 1]);
      if Legal(before, ops[|ops| - 1]) { ExecAges(before, ops[|ops| - 1]); }
    }
  }

  /** Operations with one wallet read between check and transaction. */
  predicate ReadsOneWallet(op: Op)
  {
    op.Deposit? || op.RequestPayout? || op.ExecutePayout? || op.Freeze? || op.Unfreeze? || op.ChargeFee?
  }

  /** Somebody wrote wallet `u` in between. */
  predicate Moved(before: Db, after: Db, u: UserId)
  {
    u in before.books.wallets && u in after.books.wallets && after.books.wallets[u] != before.books.wallets[u]
  }

  /** Somebody has created in between what the operation would create. */
  predicate Collides(before: Db, after: Db, op: Op)
  {
    match op
    case Deposit(t, _) =>
      t in before.txs && before.txs[t].user !in before.books.wallets && before.txs[t].user in after.books.wallets
    case RequestPayout(_, _, t) => t in after.txs
    case _ => false
  }

  /** What one attempt comes to, by the states before and after its wait. */
  predicate Answers(before: Db, after: Db, op: Op, r: Reply)
    requires ReadsOneWallet(op) && TxOk(before, op)
  {
    var moved := Moved(before, after, Source(before, op).value);
    && (r == Refused <==> Short(before, op))
    && (r == ConflictError <==> !Short(before, op) && moved)
    && (r == ClashError <==> !Short(before, op) && !moved && Collides(before, after, op))
    && (r == Committed <==> !Short(before, op) && !moved && !Collides(before, after, op))
  }

  // ----- the attempts of a retried operation

  /** Attempt `k` passes its check, and then somebody else writes the wallet. */
  predicate Contended(db: Db, waits: seq<seq<Op>>, k: nat, op: Op)
    requires k < |waits|
  {
    Overtaken(db, waits, k, op) && !Short(AfterWaits(db, waits, k), op)
  }

  /** Attempt `k` takes place: all before it were contended. */
  predicate Reaches(db: Db, waits: seq<seq<Op>>, k: nat, op: Op)
    requires k <= |waits|
  {
    forall j :: 0 <= j < k ==> Contended(db, waits, j, op)
  }

  predicate RefusedAt(db: Db, waits: seq<seq<Op>>, k: nat, op: Op)
    requires k < |waits|
  {
    Reaches(db, waits, k, op) && Short(AfterWaits(db, waits, k), op)
  }

  predicate ClashesAt(db: Db, waits: seq<seq<Op>>, k: nat, op: Op)
    requires k < |waits|
  {
    var before, after := AfterWaits(db, waits, k), AfterWaits(db, waits, k + 1);
    Reaches(db, waits, k, op) && !Short(before, op) && !Overtaken(db, waits, k, op) && Collides(before, after, op)
  }

  predicate CommitsAt(db: Db, waits: seq<seq<Op>>, k: nat, op: Op)
    requires k < |waits|
  {
    var before, after := AfterWaits(db, waits, k), AfterWaits(db, waits, k + 1);
    Reaches(db, waits, k, op) && !Short(before, op) && !Overtaken(db, waits, k, op) && !Collides(before, after, op)
  }

  predicate StopsAt(db: Db, waits: seq<seq<Op>>, k: nat, op: Op)
    requires k < |waits|
  {
    RefusedAt(db, waits, k, op) || ClashesAt(db, waits, k, op) || CommitsAt(db, waits, k, op)
  }

  /** The attempt at which the call stops is the only one. */
  lemma {:induction false} OneStop(db: Db, waits: seq<seq<Op>>, j: nat, k: nat, op: Op)
    requires j < |waits| && k < |waits|
    ensures StopsAt(db, waits, j, op) && StopsAt(db, waits, k, op) ==> j == k
  {
    StopIsNotContended(db, waits, j, op);
    StopIsNotContended(db, waits, k, op);
  }

  lemma {:induction false} StopIsNotContended(db: Db, waits: seq<seq<Op>>, k: nat, op: Op)
    requires k < |waits|
    ensures StopsAt(db, waits, k, op) ==> Reaches(db, waits, k, op) && !Contended(db, waits, k, op)
    ensures Reaches(db, waits, |waits|, op) ==> Contended(db, waits, k, op)
  {
  }

  /** The result of a retried operation, by what the other calls commit during its waits. */
  ghost predicate Ends(db: Db, waits: seq<seq<Op>>, op: Op, r: Reply)
  {
    && (r == Refused <==> exists k :: 0 <= k < |waits| && RefusedAt(db, waits, k, op))
    && (r == ClashError <==> exists k :: 0 <= k < |waits| && ClashesAt(db, waits, k, op))
    && (r == Committed <==> exists k :: 0 <= k < |waits| && CommitsAt(db, waits, k, op))
    && (r == ConflictError <==> Reaches(db, waits, |waits|, op))
  }

  lemma {:induction false} EndsThere(db: Db, waits: seq<seq<Op>>, k: nat, op: Op, r: Reply)
    requires k < |waits|
    requires || (r == Refused && RefusedAt(db, waits, k, op))
             || (r == ClashError && ClashesAt(db, waits, k, op))
             || (r == Committed && CommitsAt(db, waits, k, op))
    ensures Ends(db, waits, op, r)
  {
    assert StopsAt(db, waits, k, op);
    StopIsNotContended(db, waits, k, op);
    forall j | 0 <= j < |waits| && j != k
      ensures !RefusedAt(db, waits, j, op) && !ClashesAt(db, waits, j, op) && !CommitsAt(db, waits, j, op)
    {
      OneStop(db, waits, j, k, op);
      assert StopsAt(db, waits, j, op) <==> RefusedAt(db, waits, j, op) || ClashesAt(db, waits, j, op) || CommitsAt(db, waits, j, op);
    }
  }

  lemma {:induction false} EndsInConflict(db: Db, waits: seq<seq<Op>>, op: Op)
    requires Reaches(db, waits, |waits|, op)
    ensures Ends(db, waits, op, ConflictError)
  {
    forall k | 0 <= k < |waits|
      ensures !RefusedAt(db, waits, k, op) && !ClashesAt(db, waits, k, op) && !CommitsAt(db, waits, k, op)
    {
      StopIsNotContended(db, waits, k, op);
      assert StopsAt(db, waits, k, op) <==> RefusedAt(db, waits, k, op) || ClashesAt(db, waits, k, op) || CommitsAt(db, waits, k, op);
    }
  }

  class WalletService {
    var wallets: map<UserId, Row>
    var escrow: int
    var fee: int
    var bank: int
    var entries: seq<Entry>
    var txs: map<TxId, Tx>

    function Value(): Db
      reads this
    {
      Db(Books(wallets, escrow, fee, bank, entries), txs)
    }

    constructor (db: Db)
      ensures Value() == db
    {
      wallets, escrow, fee, bank := db.books.wallets, db.books.escrow, db.books.fee, db.books.bank;
      entries, txs := db.books.entries, db.txs;
    }

    /** ledgerAccount.update({ where: { id, version }, data: { balance, frozen, version } }) */
    method UpdateWhereVersion(u: UserId, seen: Row, balance: int, frozen: int) returns (found: bool)
      modifies this`wallets
      ensures found == Guarded(old(wallets), u, seen, balance, frozen).Some?
      ensures wallets == if found then Guarded(old(wallets), u, seen, balance, frozen).value else old(wallets)
    {
      found := u in wallets && wallets[u].version == seen.version;
      if found {
        wallets := wallets[u := Row(balance, frozen, seen.version + 1)];
      }
    }

    method CreateEntry(debit: Account, credit: Account, amount: int)
      modifies this`entries
      ensures entries == old(entries) + [Posting(debit, credit, amount)]
    {
      entries := entries + [Posting(debit, credit, amount)];
    }

    /** The deposit transaction; any error rolls every write back. */
    method DepositTransaction(t: TxId, amount: int, snap: Snapshot) returns (r: CommitResult)
      requires TxOk(Value(), Deposit(t, amount)) && SnapshotFits(Deposit(t, amount), snap)
      modifies this
      ensures (Value(), r) == Commit(old(Value()), Deposit(t, amount), snap)
    {
      var savedTxs, savedWallets := txs, wallets;
      var u, seen := txs[t].user, NEW_ROW;
      txs := txs[t := txs[t].(status := Completed, amount := amount)];
      if snap.One? {
        seen := snap.row;
      } else if u in wallets {
        txs := savedTxs;
        return Clash;
      } else {
        wallets := wallets[u := NEW_ROW];
      }
      var found := false;
      if u in wallets {
        found := UpdateWhereVersion(u, seen, seen.balance + amount, wallets[u].frozen);
      }
      if !found {
        txs, wallets := savedTxs, savedWallets;
        return Conflict;
      }
      CreateEntry(Bank, Account.Wallet(u), amount);
      bank := bank - amount;
      return Done;
    }

    method PayoutTransaction(t: TxId, seen: Row) returns (r: CommitResult)
      requires TxOk(Value(), ExecutePayout(t))
      modifies this
      ensures (Value(), r) == Commit(old(Value()), ExecutePayout(t), One(seen))
    {
      var u, amount := txs[t].user, Abs(txs[t].amount);
      var found := UpdateWhereVersion(u, seen, seen.balance - amount, seen.frozen - amount);
      if !found { return Conflict; }
      txs := SetStatus(txs, t, Completed);
      CreateEntry(Account.Wallet(u), Bank, amount);
      bank := bank + amount;
      return Done;
    }

    method ReleaseTransaction(s: UserId, d: UserId, amount: int, src: Row, dst: Row) returns (r: CommitResult)
      requires amount > 0
      modifies this
      ensures (Value(), r) == Commit(old(Value()), ReleaseEscrow(s, d, amount), Two(src, dst))
    {
      var saved := wallets;
      var found := UpdateWhereVersion(s, src, src.balance - amount, src.frozen - amount);
      if !found { return Conflict; }
      found := false;
      if d in wallets {
        found := UpdateWhereVersion(d, dst, dst.balance + amount, wallets[d].frozen);
      }
      if !found {
        wallets := saved;
        return Conflict;
      }
      CreateEntry(Account.Wallet(s), Account.Wallet(d), amount);
      return Done;
    }

    /** The transactions that write the operation's own wallet only. */
    method OwnWalletTransaction(op: Op, seen: Row) returns (r: CommitResult)
      requires op.RequestPayout? || op.Freeze? || op.Unfreeze? || op.ChargeFee?
      requires op.amount > 0
      modifies this
      ensures (Value(), r) == Commit(old(Value()), op, One(seen))
    {
      var u := op.user;
      if u !in wallets { return Conflict; }
      var saved, found := wallets, false;
      if op.ChargeFee? {
        found := UpdateWhereVersion(u, seen, seen.balance - op.amount, wallets[u].frozen);
      } else if op.Unfreeze? {
        found := UpdateWhereVersion(u, seen, wallets[u].balance, seen.frozen - op.amount);
      } else {
        found := UpdateWhereVersion(u, seen, wallets[u].balance, seen.frozen + op.amount);
      }
      if !found { return Conflict; }
      if op.ChargeFee? {
        CreateEntry(Account.Wallet(u), Fee, op.amount);
        fee := fee + op.amount;
      } else if op.RequestPayout? {
        if op.tx in txs {
          wallets := saved;
          return Clash;
        }
        txs := txs[op.tx := Tx(Payout, u, -op.amount, Pending)];
      }
      return Done;
    }

    /** What other calls commit while this one waits. */
    method Wait(ops: seq<Op>)
      modifies this
      ensures Value() == Serially(old(Value()), ops)
    {
      for i := 0 to |ops|
        invariant Value() == Serially(old(Value()), ops[..i])
      {
        assert ops[..i + 1][..i] == ops[..i];
        if Legal(Value(), ops[i]) {
          var db := Exec(Value(), ops[i]);
          wallets, escrow, fee, bank := db.books.wallets, db.books.escrow, db.books.fee, db.books.bank;
          entries, txs := db.books.entries, db.txs;
        }
      }
      assert ops[..|ops|] == ops;
    }

    /** Read, check, wait, write: one attempt of an operation. */
    method Attempt(op: Op, wait: seq<Op>) returns (r: Reply)
      requires ReadsOneWallet(op) && TxOk(Value(), op)
      modifies this
      ensures Answers(old(Value()), Serially(old(Value()), wait), op, r)
      ensures r == Committed ==>
                var at := Serially(old(Value()), wait);
                Legal(at, op) && Value() == Exec(at, op) && Booked(at, Value(), op)
      ensures r == ConflictError || r == ClashError ==> Value() == Serially(old(Value()), wait)
      ensures r == Refused ==> Value() == old(Value())
    {
      var u := Source(Value(), op).value;
      var snap := Missing;
      ChecksByColumns(Value(), op);
      if u in wallets {
        if !RowOk(wallets[u], op) { return Refused; }
        snap := One(wallets[u]);
      } else if !op.Deposit? {
        return Refused;
      }
      SeriallyAges(Value(), wait, op, snap);
      SeriallyKeepsTxOk(Value(), wait, op);
      Wait(wait);
      CommitIsExec(Value(), op, snap);
      if Legal(Value(), op) { ExecIsBooked(Value(), op); }
      var c;
      if op.Deposit? {
        c := DepositTransaction(op.tx, op.amount, snap);
      } else if op.ExecutePayout? {
        c := PayoutTransaction(op.tx, snap.row);
      } else {
        c := OwnWalletTransaction(op, snap.row);
      }
      r := match c case Done => Committed case Conflict => ConflictError case Clash => ClashError;
    }

    /** The bounded retry loop: it stops at the first attempt that is not overtaken, and gives up
        when all were. */
    method ExecuteWithOptimisticLockingRetry(op: Op, maxRetries: nat, waits: seq<seq<Op>>)
      returns (r: Reply, attempts: nat)
      requires (op.Deposit? || op.RequestPayout?) && TxOk(Value(), op)
      requires |waits| == maxRetries
      modifies this
      ensures attempts <= maxRetries
      ensures Ends(old(Value()), waits, op, r)
      ensures r == Committed ==>
                var at := AfterWaits(old(Value()), waits, attempts);
                attempts > 0 && CommitsAt(old(Value()), waits, attempts - 1, op)
                && Legal(at, op) && Value() == Exec(at, op) && Booked(at, Value(), op)
      ensures r != Committed ==> Value() == AfterWaits(old(Value()), waits, attempts)
    {
      ghost var db := Value();
      var retries := maxRetries;
      attempts := 0;
      while retries > 0
        invariant retries == maxRetries - attempts
        invariant 0 <= attempts <= maxRetries
        invariant Value() == AfterWaits(db, waits, attempts) && TxOk(Value(), op)
        invariant Reaches(db, waits, attempts, op)
      {
        SeriallyKeepsTxOk(Value(), waits[attempts], op);
        r := Attempt(op, waits[attempts]);
        if r == Refused {
          EndsThere(db, waits, attempts, op, r);
          return;
        }
        attempts := attempts + 1;
        if r != ConflictError {
          EndsThere(db, waits, attempts - 1, op, r);
          return;
        }
        retries := retries - 1;
      }
      r := ConflictError;
      EndsInConflict(db, waits, op);
    }

    // ----- the public operations

    /** `success`: whether Paystack reports the charge as successful. */
    method VerifyWalletDeposit(t: TxId, success: bool, kobo: int, waits: seq<seq<Op>>)
      returns (r: Reply, attempts: nat)
      requires |waits| == 3
      modifies this
      ensures attempts <= 3
      ensures Unacceptable(old(Value()), Deposit(t, Naira(kobo))) ==> r == Refused && Value() == old(Value())
      ensures !Unacceptable(old(Value()), Deposit(t, Naira(kobo))) && !success ==>
                r == Refused && Booked(old(Value()), Value(), FailDeposit(t))
      ensures !Unacceptable(old(Value()), Deposit(t, Naira(kobo))) && success ==>
                r != Refused && Ends(old(Value()), waits, Deposit(t, Naira(kobo)), r)
      ensures r == Committed ==>
                var op, at := Deposit(t, Naira(kobo)), AfterWaits(old(Value()), waits, attempts);
                Legal(at, op) && Value() == Exec(at, op) && Booked(at, Value(), op)
      ensures success && r != Committed ==> Value() == AfterWaits(old(Value()), waits, attempts)
    {
      attempts := 0;
      if t !in txs || txs[t].kind != Funding || txs[t].status == Completed {
        return Refused, 0;
      }
      if !success {
        txs := SetStatus(txs, t, Failed);
        return Refused, 0;
      }
      r, attempts := ExecuteWithOptimisticLockingRetry(Deposit(t, Naira(kobo)), MAX_RETRIES, waits);
    }

    method RequestWalletPayout(u: UserId, amount: int, t: TxId, waits: seq<seq<Op>>)
      returns (r: Reply, attempts: nat)
      requires |waits| == 3
      modifies this
      ensures attempts <= 3
      ensures amount <= 0 ==> r == Refused && Value() == old(Value())
      ensures amount > 0 ==> Ends(old(Value()), waits, RequestPayout(u, amount, t), r)
      ensures r == Committed ==>
                var op, at := RequestPayout(u, amount, t), AfterWaits(old(Value()), waits, attempts);
                Legal(at, op) && Value() == Exec(at, op) && Booked(at, Value(), op)
      ensures r != Committed ==> Value() == AfterWaits(old(Value()), waits, attempts)
    {
      if amount <= 0 { return Refused, 0; }
      r, attempts := ExecuteWithOptimisticLockingRetry(RequestPayout(u, amount, t), MAX_RETRIES, waits);
    }

    /** An admin's approval; the write is not conditional on the status that was checked. */
    method ProcessPayout(t: TxId, wait: seq<Op>) returns (r: Reply)
      modifies this
      ensures r == Committed <==> !Unacceptable(old(Value()), Op.ProcessPayout(t))
      ensures r == Committed ==>
                var op, at := Op.ProcessPayout(t), Serially(old(Value()), wait);
                Legal(at, op) && Value() == Exec(at, op) && Booked(at, Value(), op)
      ensures r != Committed ==> r == Refused && Value() == old(Value())
    {
      if t !in txs || txs[t].kind != Payout || txs[t].status != Pending { return Refused; }
      SeriallyKeepsTxOk(Value(), wait, Op.ProcessPayout(t));
      Wait(wait);
      txs := SetStatus(txs, t, Processing);
      return Committed;
    }

    /** `call`: what others commit while Paystack is called; `wait`: between read and write. */
    method ExecutePayoutTask(t: TxId, call: seq<Op>, wait: seq<Op>) returns (r: Reply)
      modifies this
      ensures Unacceptable(old(Value()), ExecutePayout(t)) ==> r == Refused && Value() == old(Value())
      ensures !Unacceptable(old(Value()), ExecutePayout(t)) ==>
                var read := Serially(old(Value()), call);
                TxOk(read, ExecutePayout(t)) && Answers(read, Serially(read, wait), ExecutePayout(t), r)
                && (r == Refused ==> Value() == read)
      ensures r == Committed ==>
                var op, at := ExecutePayout(t), Serially(Serially(old(Value()), call), wait);
                Legal(at, op) && Value() == Exec(at, op) && Booked(at, Value(), op)
      ensures r == ConflictError || r == ClashError ==> Value() == Serially(Serially(old(Value()), call), wait)
    {
      if t !in txs || txs[t].kind != Payout || txs[t].status != Processing { return Refused; }
      SeriallyKeepsTxOk(Value(), call, ExecutePayout(t));
      Wait(call);
      r := Attempt(ExecutePayout(t), wait);
    }

    /** freezeFunds, unfreezeFunds and chargePlatformFee: one attempt, no retry. */
    method OneShot(op: Op, wait: seq<Op>) returns (r: Reply)
      requires op.Freeze? || op.Unfreeze? || op.ChargeFee?
      modifies this
      ensures op.amount <= 0 ==> r == Refused
      ensures op.amount > 0 ==> Answers(old(Value()), Serially(old(Value()), wait), op, r) && r != ClashError
      ensures r == Refused ==> Value() == old(Value())
      ensures r == Committed ==>
                var at := Serially(old(Value()), wait);
                Legal(at, op) && Value() == Exec(at, op) && Booked(at, Value(), op)
      ensures r == ConflictError ==> Value() == Serially(old(Value()), wait)
    {
      if op.amount <= 0 { return Refused; }
      r := Attempt(op, wait);
    }

    /** Reads the two wallets one after the other, creates a missing destination, then writes
        both; `w1`, `w2` and `w3` are what others commit in between. */
    method ReleaseEscrowToUser(s: UserId, d: UserId, amount: int, w1: seq<Op>, w2: seq<Op>, w3: seq<Op>)
      returns (r: Reply)
      modifies this
      ensures r == Refused <==> amount <= 0 || s !in old(wallets) || old(wallets)[s].frozen < amount
      ensures r == Refused ==> Value() == old(Value())
      ensures var seen := Serially(old(Value()), w1);
              r == ClashError <==>
                r != Refused && d !in seen.books.wallets && d in Serially(seen, w2).books.wallets
      ensures r == ClashError ==> Value() == Serially(Serially(old(Value()), w1), w2)
      ensures r == ConflictError <==>
                r != Refused && r != ClashError
                && var read, at := Destination(old(Value()), d, w1, w2), Released(old(Value()), d, w1, w2, w3);
                   s == d || Moved(old(Value()), at, s) || Moved(read, at, d)
      ensures r == Committed ==>
                var op, at := ReleaseEscrow(s, d, amount), Released(old(Value()), d, w1, w2, w3);
                Legal(at, op) && Value() == Exec(at, op) && Booked(at, Value(), op)
      ensures r == ConflictError ==> Value() == Released(old(Value()), d, w1, w2, w3)
    {
      if amount <= 0 || s !in wallets || wallets[s].frozen < amount { return Refused; }
      var op, src := ReleaseEscrow(s, d, amount), wallets[s];
      SeenSurvives(Value(), w1, s, src);
      Wait(w1);
      var dst;
      if d in wallets {
        dst := wallets[d];
      } else {
        SeenSurvives(Value(), w2, s, src);
        Wait(w2);
        if d in wallets { return ClashError; }
        dst := NEW_ROW;
        wallets := wallets[d := dst];
      }
      assert SnapshotOk(Value(), op, Two(src, dst));
      r := WriteRelease(s, d, amount, src, dst, w3);
    }

    /** The last wait of a release and its transaction. */
    method WriteRelease(s: UserId, d: UserId, amount: int, src: Row, dst: Row, wait: seq<Op>) returns (r: Reply)
      requires SnapshotOk(Value(), ReleaseEscrow(s, d, amount), Two(src, dst))
      modifies this
      ensures r == Committed || r == ConflictError
      ensures var ws := Serially(old(Value()), wait).books.wallets;
              s in ws && d in ws && (r == ConflictError <==> s == d || ws[s] != src || ws[d] != dst)
      ensures r == Committed ==>
                var op, at := ReleaseEscrow(s, d, amount), Serially(old(Value()), wait);
                Legal(at, op) && Value() == Exec(at, op) && Booked(at, Value(), op)
      ensures r == ConflictError ==> Value() == Serially(old(Value()), wait)
    {
      var op, snap := ReleaseEscrow(s, d, amount), Two(src, dst);
      SeriallyAges(Value(), wait, op, snap);
      Wait(wait);
      CommitIsExec(Value(), op, snap);
      if Legal(Value(), op) { ExecIsBooked(Value(), op); }
      var c := ReleaseTransaction(s, d, amount, src, dst);
      r := match c case Done => Committed case Conflict => ConflictError case Clash => ClashError;
    }
  }

  /** The state in which a release has read, or created, its destination. */
  function Destination(db: Db, d: UserId, w1: seq<Op>, w2: seq<Op>): Db
  {
    var a := Serially(db, w1);
    var b := if d in a.books.wallets then a else Serially(a, w2);
    if d in b.books.wallets then b else Exec(b, CreateWallet(d))
  }

  /** The state in which a release's transaction runs. */
  function Released(db: Db, d: UserId, w1: seq<Op>, w2: seq<Op>, w3: seq<Op>): Db
  {
    Serially(Destination(db, d, w1, w2), w3)
  }

  lemma {:induction false} SeenSurvives(db: Db, ops: seq<Op>, u: UserId, row: Row)
    requires Seen(db, u, row)
    ensures Seen(Serially(db, ops), u, row)
  {
    if ops != [] {
      SeenSurvives(db, ops[..|ops| - 1], u, row);
      var before := Serially(db, ops[..|ops| - 1]);
      if Legal(before, ops[|ops| - 1]) { ExecAges(before, ops[|ops| - 1]); }
    }
  }

  /** During wait `k` somebody else wrote the wallet of `op`. */
  predicate Overtaken(db: Db, waits: seq<seq<Op>>, k: nat, op: Op)
    requires k < |waits|
  {
    var before, after := AfterWaits(db, waits, k), AfterWaits(db, waits, k + 1);
    TxOk(before, op) &&
    var u := Source(before, op);
    u.Some? &&
    u.value in before.books.wallets && u.value in after.books.wallets &&
    after.books.wallets[u.value] != before.books.wallets[u.value]
  }
}
