/** The wallet operations: what each one means when it runs alone, and what its transaction writes. */
module Wallet {
  import opened Prelude
  import opened Ledger

  type TxId = nat

  datatype TxKind = Funding | Payout

  datatype TxStatus = Pending | Processing | Completed | Failed

  /** A Transaction row of type FUNDING or PAYOUT; a payout's amount is stored negated. */
  datatype Tx = Tx(kind: TxKind, user: UserId, amount: int, status: TxStatus)

  datatype Db = Db(books: Books, txs: map<TxId, Tx>)

  datatype Op =
    | Deposit(tx: TxId, amount: int)
    | FailDeposit(tx: TxId)
    | RequestPayout(user: UserId, amount: int, tx: TxId)
    | ProcessPayout(tx: TxId)
    | ExecutePayout(tx: TxId)
    | Freeze(user: UserId, amount: int)
    | Unfreeze(user: UserId, amount: int)
    | ReleaseEscrow(src: UserId, dst: UserId, amount: int)
    | ChargeFee(user: UserId, amount: int)
    | CreateWallet(user: UserId)

  function Abs(x: int): int { if x < 0 then -x else x }

  /** Kobo to naira, rounded half up as Math.round does. */
  function Naira(kobo: int): int { (kobo + 50) / 100 }

  // ----- the checks

  /** The amount and transaction-status checks made before any wallet row is read. */
  predicate StatusOk(db: Db, op: Op)
  {
    match op
    case Deposit(t, _) => t in db.txs && db.txs[t].kind == Funding && db.txs[t].status != Completed
    case FailDeposit(t) => t in db.txs && db.txs[t].kind == Funding && db.txs[t].status != Completed
    case ProcessPayout(t) => t in db.txs && db.txs[t].kind == Payout && db.txs[t].status == Pending
    case ExecutePayout(t) => t in db.txs && db.txs[t].kind == Payout && db.txs[t].status == Processing
    case CreateWallet(_) => true
    case _ => op.amount > 0
  }

  /** The funds check on the row that the operation draws on. */
  predicate RowOk(row: Row, op: Op)
  {
    match op
    case RequestPayout(_, amount, _) => row.balance - row.frozen >= amount
    case Freeze(_, amount) => row.balance - row.frozen >= amount
    case ChargeFee(_, amount) => row.balance - row.frozen >= amount
    case Unfreeze(_, amount) => row.frozen >= amount
    case ReleaseEscrow(_, _, amount) => row.frozen >= amount
    case _ => true
  }

  /** Facts about the transaction row that no operation can change later. */
  predicate TxOk(db: Db, op: Op)
  {
    match op
    case Deposit(t, _) => t in db.txs && db.txs[t].kind == Funding
    case FailDeposit(t) => t in db.txs && db.txs[t].kind == Funding
    case ProcessPayout(t) => t in db.txs && db.txs[t].kind == Payout
    case ExecutePayout(t) => t in db.txs && db.txs[t].kind == Payout
    case CreateWallet(_) => true
    case _ => op.amount > 0
  }

  /** The wallet that the operation reads first, if it reads one. */
  function Source(db: Db, op: Op): Option<UserId>
    requires TxOk(db, op)
  {
    match op
    case Deposit(t, _) => Some(db.txs[t].user)
    case ExecutePayout(t) => Some(db.txs[t].user)
    case FailDeposit(_) => None
    case ProcessPayout(_) => None
    case ReleaseEscrow(s, _, _) => Some(s)
    case _ => Some(op.user)
  }

  // ----- the operations run alone

  /** The operation may run on `db`: its rows exist and its funds check holds. */
  predicate Legal(db: Db, op: Op)
  {
    TxOk(db, op) &&
    match op
    case Deposit(_, _) => true
    case FailDeposit(_) => true
    case ProcessPayout(_) => true
    case CreateWallet(u) => u !in db.books.wallets
    case RequestPayout(u, _, t) => u in db.books.wallets && RowOk(db.books.wallets[u], op) && t !in db.txs
    case ReleaseEscrow(s, d, _) =>
      s != d && s in db.books.wallets && d in db.books.wallets && RowOk(db.books.wallets[s], op)
    case _ =>
      var u := Source(db, op).value;
      u in db.books.wallets && RowOk(db.books.wallets[u], op)
  }

  /** Adds to the frozen amount of a wallet and bumps its version. */
  function Touch(b: Books, u: UserId, frozen: int): Books
    requires u in b.wallets
  {
    var row := b.wallets[u];
    b.(wallets := b.wallets[u := row.(frozen := row.frozen + frozen, version := row.version + 1)])
  }

  function SetStatus(txs: map<TxId, Tx>, t: TxId, status: TxStatus): map<TxId, Tx>
    requires t in txs
  {
    txs[t := txs[t].(status := status)]
  }

  function Posting(debit: Account, credit: Account, amount: int): Entry
  {
    Entry(debit, credit, amount, WalletOp, None)
  }

  /** The meaning of a legal operation, relative to the state it runs on. */
  function Exec(db: Db, op: Op): Db
    requires Legal(db, op)
  {
    var b := db.books;
    match op
    case Deposit(t, amount) =>
      var u := db.txs[t].user;
      Db(Touch(Post(EnsureWallet(b, u), Posting(Bank, Account.Wallet(u), amount)), u, 0),
         db.txs[t := db.txs[t].(status := Completed, amount := amount)])
    case FailDeposit(t) => db.(txs := SetStatus(db.txs, t, Failed))
    case RequestPayout(u, amount, t) =>
      Db(Touch(b, u, amount), db.txs[t := Tx(Payout, u, -amount, Pending)])
    case ProcessPayout(t) => db.(txs := SetStatus(db.txs, t, Processing))
    case ExecutePayout(t) =>
      var u, amount := db.txs[t].user, Abs(db.txs[t].amount);
      Db(Touch(Post(b, Posting(Account.Wallet(u), Bank, amount)), u, -amount), SetStatus(db.txs, t, Completed))
    case Freeze(u, amount) => db.(books := Touch(b, u, amount))
    case Unfreeze(u, amount) => db.(books := Touch(b, u, -amount))
    case ReleaseEscrow(s, d, amount) =>
      var moved := Post(b, Posting(Account.Wallet(s), Account.Wallet(d), amount));
      db.(books := Touch(Touch(moved, s, -amount), d, 0))
    case ChargeFee(u, amount) =>
      db.(books := Touch(Post(b, Posting(Account.Wallet(u), Fee, amount)), u, 0))
    case CreateWallet(u) => db.(books := EnsureWallet(b, u))
  }

  // ----- the checks and the operations by columns

  /** An amount or status that is refused before a wallet is read. */
  predicate Unacceptable(db: Db, op: Op)
  {
    match op
    case Deposit(t, _) => !(t in db.txs && db.txs[t].kind == Funding && db.txs[t].status in {Pending, Processing, Failed})
    case FailDeposit(t) => !(t in db.txs && db.txs[t].kind == Funding && db.txs[t].status in {Pending, Processing, Failed})
    case ProcessPayout(t) => !(t in db.txs && db.txs[t].kind == Payout && db.txs[t].status in {Pending})
    case ExecutePayout(t) => !(t in db.txs && db.txs[t].kind == Payout && db.txs[t].status in {Processing})
    case CreateWallet(_) => false
    case _ => op.amount <= 0
  }

  /** The wallet that pays, or is held, has no row or too little money: available money for new
      claims, frozen money for taking claims back. */
  predicate Short(db: Db, op: Op)
  {
    var ws := db.books.wallets;
    match op
    case RequestPayout(u, amount, _) => u !in ws || ws[u].balance < ws[u].frozen + amount
    case Freeze(u, amount) => u !in ws || ws[u].balance < ws[u].frozen + amount
    case ChargeFee(u, amount) => u !in ws || ws[u].balance < ws[u].frozen + amount
    case Unfreeze(u, amount) => u !in ws || ws[u].frozen < amount
    case ReleaseEscrow(s, _, amount) => s !in ws || ws[s].frozen < amount
    case ExecutePayout(t) => t in db.txs && db.txs[t].user !in ws
    case _ => false
  }

  lemma {:induction false} ChecksByColumns(db: Db, op: Op)
    ensures StatusOk(db, op) <==> !Unacceptable(db, op)
    ensures TxOk(db, op) && Source(db, op).Some? && !op.Deposit? && !op.CreateWallet? ==>
              var u := Source(db, op).value;
              Short(db, op) <==> u !in db.books.wallets || !RowOk(db.books.wallets[u], op)
  {
  }

  /** Wallet `u` gains `balance` and `frozen` and one version; the other wallets stay. */
  predicate WalletGains(ws: map<UserId, Row>, ws': map<UserId, Row>, u: UserId, balance: int, frozen: int)
  {
    var row := if u in ws then ws[u] else Row(0, 0, 1);
    ws' == ws[u := Row(row.balance + balance, row.frozen + frozen, row.version + 1)]
  }

  /** One entry from `debit` to `credit`, on the system accounts as well. */
  predicate Posted(b: Books, b': Books, debit: Account, credit: Account, amount: int)
  {
    && b'.entries == b.entries + [Entry(debit, credit, amount, WalletOp, None)]
    && b'.escrow == b.escrow
    && b'.bank == b.bank + (if credit == Bank then amount else 0) - (if debit == Bank then amount else 0)
    && b'.fee == b.fee + if credit == Fee then amount else 0
  }

  predicate NothingPosted(b: Books, b': Books)
  {
    b'.entries == b.entries && b'.escrow == b.escrow && b'.bank == b.bank && b'.fee == b.fee
  }

  /** What a committed operation has done to every column. */
  predicate Booked(db: Db, db': Db, op: Op)
  {
    var b, b' := db.books, db'.books;
    var ws, ws' := b.wallets, b'.wallets;
    match op
    case Deposit(t, amount) =>
      t in db.txs && db'.txs == db.txs[t := Tx(db.txs[t].kind, db.txs[t].user, amount, Completed)]
      && WalletGains(ws, ws', db.txs[t].user, amount, 0) && Posted(b, b', Bank, Account.Wallet(db.txs[t].user), amount)
    case FailDeposit(t) =>
      t in db.txs && b' == b && db'.txs == db.txs[t := Tx(db.txs[t].kind, db.txs[t].user, db.txs[t].amount, Failed)]
    case RequestPayout(u, amount, t) =>
      db'.txs == db.txs[t := Tx(Payout, u, -amount, Pending)] && WalletGains(ws, ws', u, 0, amount) && NothingPosted(b, b')
    case ProcessPayout(t) =>
      t in db.txs && b' == b && db'.txs == db.txs[t := Tx(db.txs[t].kind, db.txs[t].user, db.txs[t].amount, Processing)]
    case ExecutePayout(t) =>
      t in db.txs && db'.txs == db.txs[t := Tx(db.txs[t].kind, db.txs[t].user, db.txs[t].amount, Completed)]
      && var paid := if db.txs[t].amount < 0 then -db.txs[t].amount else db.txs[t].amount;
         WalletGains(ws, ws', db.txs[t].user, -paid, -paid) && Posted(b, b', Account.Wallet(db.txs[t].user), Bank, paid)
    case Freeze(u, amount) => db'.txs == db.txs && WalletGains(ws, ws', u, 0, amount) && NothingPosted(b, b')
    case Unfreeze(u, amount) => db'.txs == db.txs && WalletGains(ws, ws', u, 0, -amount) && NothingPosted(b, b')
    case ReleaseEscrow(s, d, amount) =>
      db'.txs == db.txs && Posted(b, b', Account.Wallet(s), Account.Wallet(d), amount)
      && s in ws && WalletGains(ws[s := Row(ws[s].balance - amount, ws[s].frozen - amount, ws[s].version + 1)], ws', d, amount, 0)
    case ChargeFee(u, amount) =>
      db'.txs == db.txs && WalletGains(ws, ws', u, -amount, 0) && Posted(b, b', Account.Wallet(u), Fee, amount)
    case CreateWallet(u) => db'.txs == db.txs && ws' == ws[u := Row(0, 0, 1)] && NothingPosted(b, b')
  }

  lemma {:induction false} ReleaseIsBooked(db: Db, op: Op)
    requires Legal(db, op) && op.ReleaseEscrow?
    ensures Booked(db, Exec(db, op), op)
  {
    var ws, ws' := db.books.wallets, Exec(db, op).books.wallets;
    var paid := ws[op.src := Row(ws[op.src].balance - op.amount, ws[op.src].frozen - op.amount, ws[op.src].version + 1)];
    assert ws' == paid[op.dst := Row(ws[op.dst].balance + op.amount, ws[op.dst].frozen, ws[op.dst].version + 1)];
  }

  lemma {:induction false} PostingIsBooked(db: Db, op: Op)
    requires Legal(db, op) && (op.Deposit? || op.ExecutePayout? || op.ChargeFee?)
    ensures Booked(db, Exec(db, op), op)
  {
  }

  /** An operation run alone changes exactly these columns. */
  lemma {:induction false} ExecIsBooked(db: Db, op: Op)
    requires Legal(db, op)
    ensures Booked(db, Exec(db, op), op)
  {
    if op.ReleaseEscrow? {
      ReleaseIsBooked(db, op);
    } else if op.Deposit? || op.ExecutePayout? || op.ChargeFee? {
      PostingIsBooked(db, op);
    }
  }

  /** Naira are the nearest whole number of hundreds of kobo, and the higher one in the middle. */
  lemma {:induction false} NairaIsNearest(kobo: int)
    ensures -50 <= kobo - 100 * Naira(kobo) < 50
  {
  }

  /** Every operation of `log` is legal where it runs. */
  predicate LegalLog(db: Db, log: seq<Op>)
    decreases log, 0
  {
    log == [] || (LegalLog(db, log[..|log| - 1]) && Legal(Replay(db, log[..|log| - 1]), log[|log| - 1]))
  }

  /** Running the operations of `log` one at a time. */
  function Replay(db: Db, log: seq<Op>): Db
    requires LegalLog(db, log)
    decreases log, 1
  {
    if log == [] then db else Exec(Replay(db, log[..|log| - 1]), log[|log| - 1])
  }

  // ----- the transactions: absolute writes guarded by the version that was read

  datatype Snapshot = NoRow | Missing | One(row: Row) | Two(src: Row, dst: Row)

  /** Conflict is P2025, a guarded update that matched no row; Clash is a unique-key violation. */
  datatype CommitResult = Done | Conflict | Clash

  /** `update({ where: { id, version } })`: None when no row matches. */
  function Guarded(ws: map<UserId, Row>, u: UserId, seen: Row, balance: int, frozen: int): Option<map<UserId, Row>>
  {
    if u in ws && ws[u].version == seen.version
    then Some(ws[u := Row(balance, frozen, seen.version + 1)])
    else None
  }

  /** As Guarded, for the updates that leave the `frozen` column alone. */
  function GuardedBalance(ws: map<UserId, Row>, u: UserId, seen: Row, balance: int): Option<map<UserId, Row>>
  {
    if u in ws then Guarded(ws, u, seen, balance, ws[u].frozen) else None
  }

  /** As Guarded, for the updates that leave the `balance` column alone. */
  function GuardedFrozen(ws: map<UserId, Row>, u: UserId, seen: Row, frozen: int): Option<map<UserId, Row>>
  {
    if u in ws then Guarded(ws, u, seen, ws[u].balance, frozen) else None
  }

  /** The database transaction of an operation, given what the operation read before. */
  function Commit(db: Db, op: Op, snap: Snapshot): (Db, CommitResult)
    requires TxOk(db, op)
    requires SnapshotFits(op, snap)
  {
    var b := db.books;
    match op
    case Deposit(t, amount) =>
      var u := db.txs[t].user;
      if snap.Missing? && u in b.wallets then (db, Clash)
      else
        var ws := if snap.Missing? then b.wallets[u := NEW_ROW] else b.wallets;
        var seen := if snap.Missing? then NEW_ROW else snap.row;
        var w := GuardedBalance(ws, u, seen, seen.balance + amount);
        if w.None? then (db, Conflict)
        else
          (Db(b.(wallets := w.value, bank := b.bank - amount,
                 entries := b.entries + [Posting(Bank, Account.Wallet(u), amount)]),
              db.txs[t := db.txs[t].(status := Completed, amount := amount)]),
           Done)
    case FailDeposit(t) => (db.(txs := SetStatus(db.txs, t, Failed)), Done)
    case ProcessPayout(t) => (db.(txs := SetStatus(db.txs, t, Processing)), Done)
    case CreateWallet(u) =>
      if u in b.wallets then (db, Clash) else (db.(books := b.(wallets := b.wallets[u := NEW_ROW])), Done)
    case RequestPayout(u, amount, t) =>
      var w := GuardedFrozen(b.wallets, u, snap.row, snap.row.frozen + amount);
      if w.None? then (db, Conflict)
      else if t in db.txs then (db, Clash)
      else (Db(b.(wallets := w.value), db.txs[t := Tx(Payout, u, -amount, Pending)]), Done)
    case ExecutePayout(t) =>
      var u, amount := db.txs[t].user, Abs(db.txs[t].amount);
      var w := Guarded(b.wallets, u, snap.row, snap.row.balance - amount, snap.row.frozen - amount);
      if w.None? then (db, Conflict)
      else
        (Db(b.(wallets := w.value, bank := b.bank + amount,
               entries := b.entries + [Posting(Account.Wallet(u), Bank, amount)]),
            SetStatus(db.txs, t, Completed)),
         Done)
    case Freeze(u, amount) =>
      var w := GuardedFrozen(b.wallets, u, snap.row, snap.row.frozen + amount);
      if w.None? then (db, Conflict) else (db.(books := b.(wallets := w.value)), Done)
    case Unfreeze(u, amount) =>
      var w := GuardedFrozen(b.wallets, u, snap.row, snap.row.frozen - amount);
      if w.None? then (db, Conflict) else (db.(books := b.(wallets := w.value)), Done)
    case ReleaseEscrow(s, d, amount) =>
      var w := Guarded(b.wallets, s, snap.src, snap.src.balance - amount, snap.src.frozen - amount);
      if w.None? then (db, Conflict)
      else
        var w2 := GuardedBalance(w.value, d, snap.dst, snap.dst.balance + amount);
        if w2.None? then (db, Conflict)
        else
          (db.(books := b.(wallets := w2.value,
                           entries := b.entries + [Posting(Account.Wallet(s), Account.Wallet(d), amount)])),
           Done)
    case ChargeFee(u, amount) =>
      var w := GuardedBalance(b.wallets, u, snap.row, snap.row.balance - amount);
      if w.None? then (db, Conflict)
      else
        (db.(books := b.(wallets := w.value, fee := b.fee + amount,
                         entries := b.entries + [Posting(Account.Wallet(u), Fee, amount)])),
         Done)
  }

  predicate SnapshotFits(op: Op, snap: Snapshot)
  {
    match op
    case Deposit(_, _) => snap.Missing? || snap.One?
    case FailDeposit(_) => snap.NoRow?
    case ProcessPayout(_) => snap.NoRow?
    case CreateWallet(_) => snap.Missing?
    case ReleaseEscrow(_, _, _) => snap.Two?
    case _ => snap.One?
  }

  /** `seen` was read from wallet `u` at some earlier moment. */
  predicate Seen(db: Db, u: UserId, seen: Row)
  {
    u in db.books.wallets
    && seen.version <= db.books.wallets[u].version
    && (seen.version == db.books.wallets[u].version ==> seen == db.books.wallets[u])
  }

  /** The snapshot was read earlier and passed the operation's funds check. */
  predicate SnapshotOk(db: Db, op: Op, snap: Snapshot)
  {
    && TxOk(db, op)
    && SnapshotFits(op, snap)
    && (snap.One? ==> Seen(db, Source(db, op).value, snap.row) && RowOk(snap.row, op))
    && (snap.Two? ==> Seen(db, op.src, snap.src) && Seen(db, op.dst, snap.dst) && RowOk(snap.src, op))
  }

  lemma {:induction false} ReleaseIsExec(db: Db, op: Op, snap: Snapshot)
    requires SnapshotOk(db, op, snap) && op.ReleaseEscrow?
    ensures var (db', r) := Commit(db, op, snap);
            if r == Done then Legal(db, op) && db' == Exec(db, op) else db' == db
  {}

  /** A version-guarded transaction that goes through does what the operation would do
      run alone on the current state, however old its snapshot is; otherwise nothing changes. */
  lemma {:induction false} CommitIsExec(db: Db, op: Op, snap: Snapshot)
    requires SnapshotOk(db, op, snap)
    ensures var (db', r) := Commit(db, op, snap);
            if r == Done then Legal(db, op) && db' == Exec(db, op) else db' == db
  {
    if op.ReleaseEscrow? { ReleaseIsExec(db, op, snap); }
  }

  /** Releasing to oneself always aborts: the first update moves the version the second one needs. */
  lemma {:induction false} SelfReleaseNeverCommits(db: Db, op: Op, snap: Snapshot)
    requires SnapshotOk(db, op, snap)
    ensures op.ReleaseEscrow? && op.src == op.dst ==> Commit(db, op, snap) == (db, Conflict)
  {
  }

  /** The guard is exact: with the row still at the version that was read, every transaction
      on one wallet goes through. */
  lemma {:induction false} CommitGoesThroughIffCurrent(db: Db, op: Op, row: Row)
    requires SnapshotOk(db, op, One(row)) && Source(db, op).Some?
    ensures Commit(db, op, One(row)).1 == Done
            <==> row == db.books.wallets[Source(db, op).value] && (op.RequestPayout? ==> op.tx !in db.txs)
  {
  }

  /** What one operation does to the rows others may have read: versions never fall, and a
      row whose version stands still has not changed. Kinds, owners and payout amounts stay. */
  lemma {:induction false} ExecAges(db: Db, op: Op)
    requires Legal(db, op)
    ensures forall u :: u in db.books.wallets ==> Seen(Exec(db, op), u, db.books.wallets[u])
    ensures forall t :: t in db.txs ==> SameTx(db.txs[t], Exec(db, op), t)
  {
  }

  predicate SameTx(tx: Tx, db: Db, t: TxId)
  {
    t in db.txs && db.txs[t].kind == tx.kind && db.txs[t].user == tx.user
    && (tx.kind == Payout ==> db.txs[t].amount == tx.amount)
  }

  /** A snapshot stays usable across any operation of anybody else. */
  lemma {:induction false} SnapshotSurvives(db: Db, other: Op, op: Op, snap: Snapshot)
    requires Legal(db, other) && SnapshotOk(db, op, snap)
    ensures SnapshotOk(Exec(db, other), op, snap)
  {}

  // ----- the books

  lemma {:induction false} DepositKeepsBalanced(db: Db, op: Op)
    requires op.Deposit? && Legal(db, op) && Balanced(db.books) && Closed(db.books)
    ensures Balanced(Exec(db, op).books) && Closed(Exec(db, op).books)
  {}

  lemma {:induction false} ReleaseKeepsBalanced(db: Db, op: Op)
    requires op.ReleaseEscrow? && Legal(db, op) && Balanced(db.books) && Closed(db.books)
    ensures Balanced(Exec(db, op).books) && Closed(Exec(db, op).books)
  {}

  lemma {:induction false} OtherOpsKeepBalanced(db: Db, op: Op)
    requires !op.Deposit? && !op.ReleaseEscrow? && Legal(db, op) && Balanced(db.books) && Closed(db.books)
    ensures Balanced(Exec(db, op).books) && Closed(Exec(db, op).books)
  {}

  lemma {:induction false} ExecKeepsBalanced(db: Db, op: Op)
    requires Legal(db, op) && Balanced(db.books) && Closed(db.books)
    ensures Balanced(Exec(db, op).books) && Closed(Exec(db, op).books)
  {
    match op
    case Deposit(_, _) => DepositKeepsBalanced(db, op);
    case ReleaseEscrow(_, _, _) => ReleaseKeepsBalanced(db, op);
    case _ => OtherOpsKeepBalanced(db, op);
  }
}
