/** The wallet operations under concurrency: any number of calls, each advancing one atomic
    database step at a time, in any order. */
module WalletProtocol {
  import opened Ledger
  import opened Wallet

  /** Where a call stands between two of its awaits. */
  datatype Pc =
    | Start(op: Op)                              // nothing read yet
    | Ready(op: Op, tries: int)                  // checked, about to read its wallet row
    | HalfRead(op: Op, src: Row)                 // a release that has read its source row
    | Creating(op: Op, src: Row)                 // ... and found no destination row
    | Armed(op: Op, snap: Snapshot, tries: int)  // about to run its transaction
    | Finished(op: Op)
    | Rejected(op: Op)
    | Exhausted(op: Op)                          // gave up on conflicts

  datatype Event = Call(client: nat, op: Op) | Step(client: nat) | Abort(client: nat)

  /** A committed operation; `own` is false for the wallet a release creates on the way. */
  datatype Logged = Logged(client: nat, op: Op, own: bool)

  datatype Machine = Machine(db: Db, clients: map<nat, Pc>, log: seq<Logged>)

  const MAX_RETRIES := 3

  function Tries(op: Op): int
  {
    if op.Deposit? || op.RequestPayout? then MAX_RETRIES else 1
  }

  predicate Active(pc: Pc)
  {
    pc.Ready? || pc.HalfRead? || pc.Creating? || pc.Armed?
  }

  // ----- the steps

  /** Reads the wallet row of an operation and checks it. */
  function Read(db: Db, op: Op, tries: int): Pc
    requires TxOk(db, op)
  {
    var ws := db.books.wallets;
    match op
    case FailDeposit(_) => Armed(op, NoRow, tries)
    case ProcessPayout(_) => Armed(op, NoRow, tries)
    case CreateWallet(u) => if u in ws then Rejected(op) else Armed(op, Missing, tries)
    case Deposit(t, _) =>
      var u := db.txs[t].user;
      Armed(op, if u in ws then One(ws[u]) else Missing, tries)
    case ReleaseEscrow(s, _, _) =>
      if s !in ws || !RowOk(ws[s], op) then Rejected(op) else HalfRead(op, ws[s])
    case _ =>
      var u := Source(db, op).value;
      if u !in ws || !RowOk(ws[u], op) then Rejected(op) else Armed(op, One(ws[u]), tries)
  }

  /** After a conflict: try again while retries are left. */
  function AfterConflict(op: Op, tries: int): Pc
  {
    if tries > 1 then Ready(op, tries - 1) else Exhausted(op)
  }

  function Advance(m: Machine, c: nat): Machine
    requires c in m.clients
  {
    var pc, db := m.clients[c], m.db;
    match pc
    case Start(op) =>
      Move(m, c, if StatusOk(db, op) then Ready(op, Tries(op)) else Rejected(op))
    case Ready(op, tries) =>
      if TxOk(db, op) then Move(m, c, Read(db, op, tries)) else Move(m, c, Rejected(op))
    case HalfRead(op, src) =>
      if op.ReleaseEscrow? && op.dst in db.books.wallets
      then Move(m, c, Armed(op, Two(src, db.books.wallets[op.dst]), 1))
      else Move(m, c, Creating(op, src))
    case Creating(op, src) =>
      if op.ReleaseEscrow? && Legal(db, CreateWallet(op.dst))
      then
        Machine(Exec(db, CreateWallet(op.dst)),
                m.clients[c := Armed(op, Two(src, NEW_ROW), 1)],
                m.log + [Logged(c, CreateWallet(op.dst), false)])
      else Move(m, c, Rejected(op))
    case Armed(op, snap, tries) =>
      if !TxOk(db, op) || !SnapshotFits(op, snap) then Move(m, c, Rejected(op))
      else
        var (db', r) := Commit(db, op, snap);
        if r == Done then Machine(db', m.clients[c := Finished(op)], m.log + [Logged(c, op, true)])
        else Move(m, c, if r == Conflict then AfterConflict(op, tries) else Rejected(op))
    case _ => m
  }

  function Move(m: Machine, c: nat, pc: Pc): Machine
  {
    m.(clients := m.clients[c := pc])
  }

  function Next(m: Machine, e: Event): Machine
  {
    match e
    case Call(c, op) => if c in m.clients then m else Move(m, c, Start(op))
    case Step(c) => if c in m.clients then Advance(m, c) else m
    case Abort(c) =>
      if c in m.clients && !m.clients[c].Finished? then Move(m, c, Rejected(m.clients[c].op)) else m
  }

  function Initial(db: Db): Machine { Machine(db, map[], []) }

  function Run(db: Db, es: seq<Event>): Machine
  {
    if es == [] then Initial(db) else Next(Run(db, es[..|es| - 1]), es[|es| - 1])
  }

  function Ops(log: seq<Logged>): (ops: seq<Op>)
    ensures |ops| == |log| && forall i :: 0 <= i < |log| ==> ops[i] == log[i].op
  {
    seq(|log|, i requires 0 <= i < |log| => log[i].op)
  }

  // ----- the invariant

  ghost predicate ClientOk(db: Db, pc: Pc)
  {
    match pc
    case Ready(op, tries) => TxOk(db, op) && 1 <= tries <= MAX_RETRIES
    case HalfRead(op, src) => op.ReleaseEscrow? && op.amount > 0 && RowOk(src, op) && Seen(db, op.src, src)
    case Creating(op, src) => op.ReleaseEscrow? && op.amount > 0 && RowOk(src, op) && Seen(db, op.src, src)
    case Armed(op, snap, tries) => SnapshotOk(db, op, snap) && 1 <= tries <= MAX_RETRIES
    case _ => true
  }

  /** How often a call has committed its own operation. */
  function Commits(log: seq<Logged>, c: nat): nat
  {
    if log == [] then 0
    else Commits(log[..|log| - 1], c) + if log[|log| - 1].client == c && log[|log| - 1].own then 1 else 0
  }

  ghost predicate Inv(db0: Db, m: Machine)
  {
    && LegalLog(db0, Ops(m.log))
    && m.db == Replay(db0, Ops(m.log))
    && (forall c :: c in m.clients ==> ClientOk(m.db, m.clients[c]))
    && (forall c :: Commits(m.log, c) == if c in m.clients && m.clients[c].Finished? then 1 else 0)
  }

  lemma {:induction false} CommitsAppend(log: seq<Logged>, e: Logged, c: nat)
    ensures Commits(log + [e], c) == Commits(log, c) + if e.client == c && e.own then 1 else 0
  {}

  /** Appending an operation that is legal now extends the serial run by it. */
  lemma {:induction false} LogGrows(db0: Db, m: Machine, e: Logged)
    requires LegalLog(db0, Ops(m.log)) && m.db == Replay(db0, Ops(m.log)) && Legal(m.db, e.op)
    ensures LegalLog(db0, Ops(m.log + [e])) && Replay(db0, Ops(m.log + [e])) == Exec(m.db, e.op)
  {
    var ops := Ops(m.log + [e]);
    assert ops[..|ops| - 1] == Ops(m.log);
  }

  /** Whatever another call commits, a call's own snapshot keeps its meaning. */
  lemma {:induction false} OthersSurvive(db: Db, other: Op, pc: Pc)
    requires Legal(db, other) && ClientOk(db, pc)
    ensures ClientOk(Exec(db, other), pc)
  {
    ExecAges(db, other);
    if pc.Armed? { SnapshotSurvives(db, other, pc.op, pc.snap); }
  }

  /** A step that commits: the serial run grows by one operation and nobody's snapshot breaks. */
  lemma {:induction false} CommitKeepsInv(db0: Db, m: Machine, e: Logged, pc: Pc)
    requires Inv(db0, m) && Legal(m.db, e.op) && e.client in m.clients && !m.clients[e.client].Finished?
    requires pc.Finished? <==> e.own
    requires ClientOk(Exec(m.db, e.op), pc)
    ensures Inv(db0, Machine(Exec(m.db, e.op), m.clients[e.client := pc], m.log + [e]))
  {
    LogGrows(db0, m, e);
    forall d | d in m.clients && d != e.client ensures ClientOk(Exec(m.db, e.op), m.clients[d]) {
      OthersSurvive(m.db, e.op, m.clients[d]);
    }
    forall d: nat
      ensures Commits(m.log + [e], d) == Commits(m.log, d) + if e.client == d && e.own then 1 else 0
    {
      CommitsAppend(m.log, e, d);
    }
  }

  /** A step that only moves a program counter. */
  lemma {:induction false} MoveKeepsInv(db0: Db, m: Machine, c: nat, pc: Pc)
    requires Inv(db0, m) && ClientOk(m.db, pc) && !pc.Finished?
    requires c in m.clients ==> !m.clients[c].Finished?
    ensures Inv(db0, Move(m, c, pc))
  {
  }

  lemma {:induction false} WriteKeepsInv(db0: Db, m: Machine, c: nat)
    requires Inv(db0, m) && c in m.clients && m.clients[c].Armed?
    ensures Inv(db0, Advance(m, c))
  {
    var op, snap := m.clients[c].op, m.clients[c].snap;
    CommitIsExec(m.db, op, snap);
    if Commit(m.db, op, snap).1 == Done {
      CommitKeepsInv(db0, m, Logged(c, op, true), Finished(op));
    } else {
      MoveKeepsInv(db0, m, c, Advance(m, c).clients[c]);
    }
  }

  lemma {:induction false} CreationKeepsInv(db0: Db, m: Machine, c: nat)
    requires Inv(db0, m) && c in m.clients && m.clients[c].Creating?
    ensures Inv(db0, Advance(m, c))
  {
    var create := CreateWallet(m.clients[c].op.dst);
    if Legal(m.db, create) {
      OthersSurvive(m.db, create, m.clients[c]);
      CommitKeepsInv(db0, m, Logged(c, create, false), Advance(m, c).clients[c]);
    } else {
      MoveKeepsInv(db0, m, c, Advance(m, c).clients[c]);
    }
  }

  lemma {:induction false} ReadKeepsInv(db0: Db, m: Machine, c: nat)
    requires Inv(db0, m) && c in m.clients && !m.clients[c].Armed? && !m.clients[c].Creating?
    ensures Inv(db0, Advance(m, c))
  {
    var pc := m.clients[c];
    if pc.Start? || pc.Ready? || pc.HalfRead? { MoveKeepsInv(db0, m, c, Advance(m, c).clients[c]); }
  }

  lemma {:induction false} AdvanceKeepsInv(db0: Db, m: Machine, c: nat)
    requires Inv(db0, m) && c in m.clients
    ensures Inv(db0, Advance(m, c))
  {
    if m.clients[c].Armed? {
      WriteKeepsInv(db0, m, c);
    } else if m.clients[c].Creating? {
      CreationKeepsInv(db0, m, c);
    } else {
      ReadKeepsInv(db0, m, c);
    }
  }

  lemma {:induction false} RunKeepsInv(db0: Db, es: seq<Event>)
    ensures Inv(db0, Run(db0, es))
  {
    if es != [] {
      RunKeepsInv(db0, es[..|es| - 1]);
      var m, e := Run(db0, es[..|es| - 1]), es[|es| - 1];
      if e.Step? && e.client in m.clients { AdvanceKeepsInv(db0, m, e.client); }
    }
  }

  // ----- the main results

  /** Every interleaving ends where its committed operations, run one at a time in commit
      order, end; each of them passes its funds check at that point. So no update is lost. */
  lemma {:induction false} EveryInterleavingIsSerial(db0: Db, es: seq<Event>)
    ensures var m := Run(db0, es);
            LegalLog(db0, Ops(m.log)) && m.db == Replay(db0, Ops(m.log))
  {
    RunKeepsInv(db0, es);
  }

  /** A call commits its operation once if it finished and never otherwise, retries or not. */
  lemma {:induction false} EachCallCommitsAtMostOnce(db0: Db, es: seq<Event>, c: nat)
    ensures var m := Run(db0, es);
            Commits(m.log, c) == if c in m.clients && m.clients[c].Finished? then 1 else 0
  {
    RunKeepsInv(db0, es);
  }

  /** A release never adds or removes money in two places: releasing to oneself never finishes. */
  lemma {:induction false} SelfReleaseNeverFinishes(db0: Db, es: seq<Event>, i: nat)
    requires i < |Run(db0, es).log|
    ensures var op := Run(db0, es).log[i].op; op.ReleaseEscrow? ==> op.src != op.dst
  {
    EveryInterleavingIsSerial(db0, es);
    LegalAt(db0, Ops(Run(db0, es).log), i);
  }

  lemma {:induction false} LegalAt(db0: Db, log: seq<Op>, i: nat)
    requires LegalLog(db0, log) && i < |log|
    ensures LegalLog(db0, log[..i]) && Legal(Replay(db0, log[..i]), log[i])
  {
    if i < |log| - 1 {
      LegalAt(db0, log[..|log| - 1], i);
      assert log[..|log| - 1][..i] == log[..i];
    }
  }

  /** Balanced books stay balanced under every interleaving of wallet calls. */
  lemma {:induction false} ReplayKeepsBalanced(db0: Db, log: seq<Op>)
    requires Balanced(db0.books) && Closed(db0.books) && LegalLog(db0, log)
    ensures Balanced(Replay(db0, log).books) && Closed(Replay(db0, log).books)
  {
    if log != [] {
      ReplayKeepsBalanced(db0, log[..|log| - 1]);
      ExecKeepsBalanced(Replay(db0, log[..|log| - 1]), log[|log| - 1]);
    }
  }

  lemma {:induction false} WalletRunsBalance(db0: Db, es: seq<Event>)
    requires Balanced(db0.books) && Closed(db0.books)
    ensures Balanced(Run(db0, es).db.books) && TrialBalance(Run(db0, es).db.books) == 0
  {
    EveryInterleavingIsSerial(db0, es);
    ReplayKeepsBalanced(db0, Ops(Run(db0, es).log));
    BalancedBooksSumToZero(Run(db0, es).db.books);
  }

  // ----- a call that nobody disturbs

  /** A new call runs on its own: at most five steps are enough. */
  function Alone(m: Machine, c: nat, op: Op): Machine
  {
    var begun := Next(m, Call(c, op));
    Next(Next(Next(Next(Next(begun, Step(c)), Step(c)), Step(c)), Step(c)), Step(c))
  }

  /** What stands in the way of an operation that nobody disturbs. */
  predicate Hindered(db: Db, op: Op)
  {
    || Unacceptable(db, op) || Short(db, op)
    || (op.RequestPayout? && op.tx in db.txs)
    || (op.ReleaseEscrow? && op.src == op.dst)
    || (op.CreateWallet? && op.user in db.books.wallets)
  }

  /** A release creates a missing destination first. */
  function Prepared(db: Db, op: Op): Db
  {
    if op.ReleaseEscrow? && op.dst !in db.books.wallets
    then db.(books := db.books.(wallets := db.books.wallets[op.dst := NEW_ROW])) else db
  }

  lemma {:induction false} RestStays(m: Machine, c: nat)
    requires c in m.clients && (m.clients[c].Finished? || m.clients[c].Rejected? || m.clients[c].Exhausted?)
    ensures Next(m, Step(c)) == m
  {
  }

  lemma {:induction false} MoveTwice(m: Machine, c: nat, pc: Pc, pc': Pc)
    ensures Move(Move(m, c, pc), c, pc') == Move(m, c, pc')
  {
    assert m.clients[c := pc][c := pc'] == m.clients[c := pc'];
  }

  lemma {:induction false} AloneChecks(m: Machine, c: nat, op: Op)
    requires c !in m.clients
    ensures var checked := Next(Next(m, Call(c, op)), Step(c));
            checked == Move(m, c, if Unacceptable(m.db, op) then Rejected(op) else Ready(op, Tries(op)))
  {
    ChecksByColumns(m.db, op);
    MoveTwice(m, c, Start(op), if Unacceptable(m.db, op) then Rejected(op) else Ready(op, Tries(op)));
  }

  /** The snapshot that an undisturbed call reads. */
  function FreshSnapshot(db: Db, op: Op): Snapshot
    requires TxOk(db, op)
  {
    var ws := db.books.wallets;
    match op
    case FailDeposit(_) => NoRow
    case ProcessPayout(_) => NoRow
    case CreateWallet(_) => Missing
    case ReleaseEscrow(s, d, _) =>
      if s in ws then Two(ws[s], if d in ws then ws[d] else NEW_ROW) else NoRow
    case _ => var u := Source(db, op).value; if u in ws then One(ws[u]) else Missing
  }

  lemma {:induction false} AloneReads(m: Machine, c: nat, op: Op, tries: int)
    requires !Unacceptable(m.db, op) && TxOk(m.db, op) && !op.ReleaseEscrow?
    ensures var read := Next(Move(m, c, Ready(op, tries)), Step(c));
            read == Move(m, c, if Short(m.db, op) || (op.CreateWallet? && op.user in m.db.books.wallets) then Rejected(op)
                               else Armed(op, FreshSnapshot(m.db, op), tries))
  {
    ChecksByColumns(m.db, op);
    var read := Next(Move(m, c, Ready(op, tries)), Step(c));
    MoveTwice(m, c, Ready(op, tries), read.clients[c]);
  }

  lemma {:induction false} AloneReadsRelease(m: Machine, c: nat, op: Op, tries: int)
    requires !Unacceptable(m.db, op) && op.ReleaseEscrow?
    ensures var read := Next(Move(m, c, Ready(op, tries)), Step(c));
            read == Move(m, c, if Short(m.db, op) then Rejected(op) else HalfRead(op, m.db.books.wallets[op.src]))
  {
    var read := Next(Move(m, c, Ready(op, tries)), Step(c));
    MoveTwice(m, c, Ready(op, tries), read.clients[c]);
  }

  /** With a fresh snapshot the guards match. */
  lemma {:induction false} FreshCommits(db: Db, op: Op)
    requires !Unacceptable(db, op) && !Short(db, op) && TxOk(db, op) && !op.ReleaseEscrow?
    requires op.CreateWallet? ==> op.user !in db.books.wallets
    ensures var snap := FreshSnapshot(db, op);
            SnapshotFits(op, snap) &&
            var (db', r) := Commit(db, op, snap);
            if Hindered(db, op) then r != Done && r != Conflict else r == Done && Booked(db, db', op)
  {
    var snap := FreshSnapshot(db, op);
    ChecksByColumns(db, op);
    CommitIsExec(db, op, snap);
    if Legal(db, op) { ExecIsBooked(db, op); }
  }

  lemma {:induction false} FreshReleaseCommits(db: Db, op: Op)
    requires !Unacceptable(db, op) && !Short(db, op) && op.ReleaseEscrow? && op.dst in db.books.wallets
    ensures var ws := db.books.wallets;
            var (db', r) := Commit(db, op, Two(ws[op.src], ws[op.dst]));
            if op.src == op.dst then r == Conflict else r == Done && Booked(db, db', op)
  {
    var ws := db.books.wallets;
    CommitIsExec(db, op, Two(ws[op.src], ws[op.dst]));
    if Legal(db, op) { ExecIsBooked(db, op); }
  }

  /** A call that nobody disturbs commits iff its checks pass on the current columns, and then it
      changes exactly the columns it should. */
  lemma {:induction false} UndisturbedCallCommitsIffUnhindered(m: Machine, c: nat, op: Op)
    requires c !in m.clients
    ensures var m' := Alone(m, c, op);
            && c in m'.clients
            && (m'.clients[c].Finished? <==> !Hindered(m.db, op))
            && (m'.clients[c].Finished? ==> Booked(Prepared(m.db, op), m'.db, op))
  {
    AloneChecks(m, c, op);
    ChecksByColumns(m.db, op);
    if Unacceptable(m.db, op) {
      RestStays(Move(m, c, Rejected(op)), c);
    } else if op.ReleaseEscrow? {
      AloneReleases(m, c, op);
    } else {
      AloneWrites(m, c, op);
    }
  }

  lemma {:induction false} AloneWrites(m: Machine, c: nat, op: Op)
    requires !Unacceptable(m.db, op) && TxOk(m.db, op) && !op.ReleaseEscrow?
    ensures var m' := Next(Next(Next(Next(Move(m, c, Ready(op, Tries(op))), Step(c)), Step(c)), Step(c)), Step(c));
            && c in m'.clients
            && (m'.clients[c].Finished? <==> !Hindered(m.db, op))
            && (m'.clients[c].Finished? ==> Booked(m.db, m'.db, op))
  {
    AloneReads(m, c, op, Tries(op));
    if Short(m.db, op) || (op.CreateWallet? && op.user in m.db.books.wallets) {
      RestStays(Move(m, c, Rejected(op)), c);
    } else {
      FreshCommits(m.db, op);
      var armed := Move(m, c, Armed(op, FreshSnapshot(m.db, op), Tries(op)));
      var done := Next(armed, Step(c));
      RestStays(done, c);
    }
  }

  lemma {:induction false} AloneReleases(m: Machine, c: nat, op: Op)
    requires !Unacceptable(m.db, op) && op.ReleaseEscrow?
    ensures var m' := Next(Next(Next(Next(Move(m, c, Ready(op, Tries(op))), Step(c)), Step(c)), Step(c)), Step(c));
            && c in m'.clients
            && (m'.clients[c].Finished? <==> !Hindered(m.db, op))
            && (m'.clients[c].Finished? ==> Booked(Prepared(m.db, op), m'.db, op))
  {
    AloneReadsRelease(m, c, op, Tries(op));
    if Short(m.db, op) {
      RestStays(Move(m, c, Rejected(op)), c);
    } else {
      var src := m.db.books.wallets[op.src];
      FreshReleaseCommits(Prepared(m.db, op), op);
      if op.dst in m.db.books.wallets {
        ReleaseWithDestination(m, c, op, src);
      } else {
        ReleaseToNewWallet(m, c, op, src);
      }
    }
  }

  lemma {:induction false} ReleaseWithDestination(m: Machine, c: nat, op: Op, src: Row)
    requires !Unacceptable(m.db, op) && op.ReleaseEscrow? && !Short(m.db, op) && op.dst in m.db.books.wallets
    requires src == m.db.books.wallets[op.src]
    ensures var m' := Next(Next(Next(Move(m, c, HalfRead(op, src)), Step(c)), Step(c)), Step(c));
            var (db', r) := Commit(m.db, op, Two(src, m.db.books.wallets[op.dst]));
            c in m'.clients && (m'.clients[c].Finished? <==> r == Done) && (r == Done ==> m'.db == db')
  {
    var dst := m.db.books.wallets[op.dst];
    MoveTwice(m, c, HalfRead(op, src), Armed(op, Two(src, dst), 1));
    RestStays(Next(Move(m, c, Armed(op, Two(src, dst), 1)), Step(c)), c);
  }

  lemma {:induction false} ReleaseToNewWallet(m: Machine, c: nat, op: Op, src: Row)
    requires !Unacceptable(m.db, op) && op.ReleaseEscrow? && !Short(m.db, op) && op.dst !in m.db.books.wallets
    requires src == m.db.books.wallets[op.src]
    ensures var m' := Next(Next(Next(Move(m, c, HalfRead(op, src)), Step(c)), Step(c)), Step(c));
            var (db', r) := Commit(Prepared(m.db, op), op, Two(src, NEW_ROW));
            c in m'.clients && (m'.clients[c].Finished? <==> r == Done) && (r == Done ==> m'.db == db')
  {
    MoveTwice(m, c, HalfRead(op, src), Creating(op, src));
    var created := Next(Move(m, c, Creating(op, src)), Step(c));
    assert created.db == Prepared(m.db, op) && created.clients[c] == Armed(op, Two(src, NEW_ROW), 1);
  }
}
