/** What disciplined callers get: each transaction settles once, and frozen money is accounted for. */
module WalletFunds {
  import opened Prelude
  import opened Ledger
  import opened Wallet
  import opened WalletProtocol

  // ----- calls on one transaction that do not overlap

  /** Which calls are to be kept apart: all calls on one transaction, or only those on one payout. */
  datatype Kept = AllApart | PayoutsApart

  predicate Concerns(kept: Kept, op: Op)
  {
    op.ProcessPayout? || op.ExecutePayout? || (kept.AllApart? && (op.Deposit? || op.FailDeposit?))
  }

  /** The transaction row whose status check a call has passed but not yet acted upon. */
  function Claim(kept: Kept, pc: Pc): Option<TxId>
  {
    if Active(pc) && Concerns(kept, pc.op) then Some(pc.op.tx) else None
  }

  /** The operation passes its status check here, except that deposits that are not kept apart are
      not asked. */
  predicate Passes(kept: Kept, db: Db, op: Op)
  {
    StatusOk(db, op) || (kept.PayoutsApart? && (op.Deposit? || op.FailDeposit?))
  }

  ghost predicate Unclaimed(kept: Kept, m: Machine, op: Op)
  {
    forall c :: c in m.clients ==>
      Claim(kept, m.clients[c]).None? || Claim(kept, m.clients[c]) != Claim(kept, Ready(op, 1))
  }

  /** No call passes its status check while another call is at work on the same transaction. */
  ghost predicate NoOverlap(kept: Kept, db0: Db, es: seq<Event>)
  {
    es == [] ||
    var m, e := Run(db0, es[..|es| - 1]), es[|es| - 1];
    NoOverlap(kept, db0, es[..|es| - 1])
    && (e.Step? && e.client in m.clients && m.clients[e.client].Start? ==> Unclaimed(kept, m, m.clients[e.client].op))
  }

  /** Every operation passes its status check at the point where it commits. */
  predicate CarefulLog(kept: Kept, db0: Db, log: seq<Op>)
  {
    LegalLog(db0, log) &&
    (log == [] ||
     (CarefulLog(kept, db0, log[..|log| - 1]) && Passes(kept, Replay(db0, log[..|log| - 1]), log[|log| - 1])))
  }

  ghost predicate Disjoint(kept: Kept, m: Machine)
  {
    && (forall c :: c in m.clients && Claim(kept, m.clients[c]).Some? ==> StatusOk(m.db, m.clients[c].op))
    && (forall c, d :: c in m.clients && d in m.clients && c != d && Claim(kept, m.clients[c]).Some? ==>
          Claim(kept, m.clients[c]) != Claim(kept, m.clients[d]))
  }

  lemma {:induction false} CarefulSnoc(kept: Kept, db0: Db, log: seq<Op>, op: Op)
    requires CarefulLog(kept, db0, log) && Legal(Replay(db0, log), op) && Passes(kept, Replay(db0, log), op)
    ensures CarefulLog(kept, db0, log + [op]) && Replay(db0, log + [op]) == Exec(Replay(db0, log), op)
  {}

  lemma {:induction false} MoveKeepsDisjoint(kept: Kept, m: Machine, c: nat, pc: Pc)
    requires Disjoint(kept, m)
    requires Claim(kept, pc).Some? ==> StatusOk(m.db, pc.op)
    requires Claim(kept, pc).Some? ==> forall d :: d in m.clients && d != c ==> Claim(kept, m.clients[d]) != Claim(kept, pc)
    ensures Disjoint(kept, Move(m, c, pc))
  {
  }

  lemma {:induction false} CommitKeepsDisjoint(kept: Kept, m: Machine, e: Logged, pc: Pc)
    requires Disjoint(kept, m) && Legal(m.db, e.op) && Claim(kept, pc).None?
    requires forall d :: d in m.clients && d != e.client ==>
               Claim(kept, Ready(e.op, 1)).None? || Claim(kept, m.clients[d]) != Claim(kept, Ready(e.op, 1))
    ensures Disjoint(kept, Machine(Exec(m.db, e.op), m.clients[e.client := pc], m.log + [e]))
  {}

  lemma {:induction false} CommitIsCareful(kept: Kept, db0: Db, m: Machine, e: Logged)
    requires CarefulLog(kept, db0, Ops(m.log)) && m.db == Replay(db0, Ops(m.log))
    requires Legal(m.db, e.op) && Passes(kept, m.db, e.op)
    ensures CarefulLog(kept, db0, Ops(m.log + [e]))
  {
    CarefulSnoc(kept, db0, Ops(m.log), e.op);
    assert Ops(m.log + [e]) == Ops(m.log) + [e.op];
  }

  lemma {:induction false} DoneKeepsDisjoint(kept: Kept, db0: Db, m: Machine, c: nat)
    requires CarefulLog(kept, db0, Ops(m.log)) && m.db == Replay(db0, Ops(m.log)) && Disjoint(kept, m)
    requires c in m.clients && m.clients[c].Armed? && Legal(m.db, m.clients[c].op)
    ensures var e := Logged(c, m.clients[c].op, true);
            && CarefulLog(kept, db0, Ops(m.log + [e]))
            && Disjoint(kept, Machine(Exec(m.db, e.op), m.clients[c := Finished(e.op)], m.log + [e]))
  {
    var op := m.clients[c].op;
    assert Claim(kept, m.clients[c]) == Claim(kept, Ready(op, 1));
    CommitIsCareful(kept, db0, m, Logged(c, op, true));
    CommitKeepsDisjoint(kept, m, Logged(c, op, true), Finished(op));
  }

  lemma {:induction false} ArmedStepKeepsDisjoint(kept: Kept, db0: Db, m: Machine, c: nat)
    requires CarefulLog(kept, db0, Ops(m.log)) && m.db == Replay(db0, Ops(m.log)) && Disjoint(kept, m)
    requires c in m.clients && m.clients[c].Armed? && ClientOk(m.db, m.clients[c])
    ensures Disjoint(kept, Advance(m, c)) && CarefulLog(kept, db0, Ops(Advance(m, c).log))
  {
    var op, snap := m.clients[c].op, m.clients[c].snap;
    CommitIsExec(m.db, op, snap);
    if Commit(m.db, op, snap).1 == Done {
      DoneKeepsDisjoint(kept, db0, m, c);
    } else {
      MoveKeepsDisjoint(kept, m, c, Advance(m, c).clients[c]);
    }
  }

  lemma {:induction false} CreatingStepKeepsDisjoint(kept: Kept, db0: Db, m: Machine, c: nat)
    requires CarefulLog(kept, db0, Ops(m.log)) && m.db == Replay(db0, Ops(m.log)) && Disjoint(kept, m)
    requires c in m.clients && m.clients[c].Creating? && ClientOk(m.db, m.clients[c])
    ensures Disjoint(kept, Advance(m, c)) && CarefulLog(kept, db0, Ops(Advance(m, c).log))
  {
    var create := CreateWallet(m.clients[c].op.dst);
    if Legal(m.db, create) {
      CommitIsCareful(kept, db0, m, Logged(c, create, false));
      CommitKeepsDisjoint(kept, m, Logged(c, create, false), Advance(m, c).clients[c]);
    } else {
      MoveKeepsDisjoint(kept, m, c, Advance(m, c).clients[c]);
    }
  }

  lemma {:induction false} MovingStepKeepsDisjoint(kept: Kept, db0: Db, m: Machine, c: nat)
    requires Disjoint(kept, m) && CarefulLog(kept, db0, Ops(m.log)) && c in m.clients
    requires !m.clients[c].Armed? && !m.clients[c].Creating?
    requires m.clients[c].Start? ==> Unclaimed(kept, m, m.clients[c].op)
    ensures Disjoint(kept, Advance(m, c)) && CarefulLog(kept, db0, Ops(Advance(m, c).log))
  {
    var m' := Advance(m, c);
    var pc, pc' := m.clients[c], m'.clients[c];
    assert m' == m || m' == Move(m, c, pc');
    assert Claim(kept, pc').Some? ==> StatusOk(m.db, pc'.op) && pc'.op == pc.op && (Claim(kept, pc).Some? || pc.Start?);
    MoveKeepsDisjoint(kept, m, c, pc');
  }

  lemma {:induction false} StepKeepsDisjoint(kept: Kept, db0: Db, m: Machine, c: nat)
    requires Inv(db0, m) && Disjoint(kept, m) && CarefulLog(kept, db0, Ops(m.log)) && c in m.clients
    requires m.clients[c].Start? ==> Unclaimed(kept, m, m.clients[c].op)
    ensures Disjoint(kept, Advance(m, c)) && CarefulLog(kept, db0, Ops(Advance(m, c).log))
  {
    var pc := m.clients[c];
    match pc
    case Armed(_, _, _) => ArmedStepKeepsDisjoint(kept, db0, m, c);
    case Creating(_, _) => CreatingStepKeepsDisjoint(kept, db0, m, c);
    case _ => MovingStepKeepsDisjoint(kept, db0, m, c);
  }

  lemma {:induction false} NoOverlapIsCareful(kept: Kept, db0: Db, es: seq<Event>)
    requires NoOverlap(kept, db0, es)
    ensures CarefulLog(kept, db0, Ops(Run(db0, es).log)) && Disjoint(kept, Run(db0, es))
  {
    if es != [] {
      var prefix, e := es[..|es| - 1], es[|es| - 1];
      NoOverlapIsCareful(kept, db0, prefix);
      RunKeepsInv(db0, prefix);
      var m := Run(db0, prefix);
      match e
      case Step(c) => if c in m.clients { StepKeepsDisjoint(kept, db0, m, c); }
      case Call(c, op) => MoveKeepsDisjoint(kept, m, c, Start(op));
      case Abort(c) => if c in m.clients { MoveKeepsDisjoint(kept, m, c, Rejected(m.clients[c].op)); }
    }
  }

  // ----- once per transaction

  predicate Settles(op: Op, t: TxId)
  {
    (op.Deposit? || op.ExecutePayout?) && op.tx == t
  }

  /** How often transaction `t` has moved money. */
  function Settlements(log: seq<Op>, t: TxId): nat
  {
    if log == [] then 0
    else Settlements(log[..|log| - 1], t) + if Settles(log[|log| - 1], t) then 1 else 0
  }

  predicate Open(db: Db, t: TxId)
  {
    t !in db.txs || db.txs[t].status != Completed
  }

  /** The status column tells whether a transaction has moved its money. */
  lemma {:induction false} SettledIffCompleted(db0: Db, log: seq<Op>, t: TxId)
    requires CarefulLog(AllApart, db0, log) && Open(db0, t)
    ensures Settlements(log, t) == if Open(Replay(db0, log), t) then 0 else 1
  {
    if log != [] {
      SettledIffCompleted(db0, log[..|log| - 1], t);
    }
  }

  /** With calls on one transaction kept apart, no deposit is credited twice and no payout
      debited twice, under every interleaving. */
  lemma {:induction false} EachTransactionSettlesAtMostOnce(db0: Db, es: seq<Event>, t: TxId)
    requires NoOverlap(AllApart, db0, es) && Open(db0, t)
    ensures Settlements(Ops(Run(db0, es).log), t) <= 1
  {
    NoOverlapIsCareful(AllApart, db0, es);
    SettledIffCompleted(db0, Ops(Run(db0, es).log), t);
  }

  /** The exact condition: a further settlement is the first one iff the row is still open when
      it commits. The transaction does not recheck this, which is why callers must not overlap. */
  lemma {:induction false} SettlesOnceIffStillOpen(db0: Db, log: seq<Op>, op: Op, t: TxId)
    requires CarefulLog(AllApart, db0, log) && Open(db0, t) && Legal(Replay(db0, log), op) && Settles(op, t)
    ensures Settlements(log + [op], t) == 1 <==> Open(Replay(db0, log), t)
  {
    assert (log + [op])[..|log|] == log;
    SettledIffCompleted(db0, log, t);
  }

  const DOUBLE := Deposit(0, 100)

  const PENDING_DB := Db(EMPTY_BOOKS, map[0 := Tx(Funding, 7, 100, Pending)])

  const CREDITED_DB :=
    Db(Books(map[7 := Row(100, 0, 2)], 0, 0, -100, [Posting(Bank, Account.Wallet(7), 100)]),
       map[0 := Tx(Funding, 7, 100, Completed)])

  const BOTH_CHECKED := [Call(1, DOUBLE), Call(2, DOUBLE), Step(1), Step(2)]

  const OVERLAP := BOTH_CHECKED + [Step(1), Step(1)] + [Step(2), Step(2)]

  lemma {:induction false} RunTwo(db0: Db, es: seq<Event>, a: Event, b: Event)
    ensures Run(db0, es + [a, b]) == Next(Next(Run(db0, es), a), b)
  {
    assert (es + [a, b])[..|es| + 1] == es + [a];
    assert (es + [a])[..|es|] == es;
  }

  lemma {:induction false} BothPassTheCheck()
    ensures Run(PENDING_DB, BOTH_CHECKED)
         == Machine(PENDING_DB, map[1 := Ready(DOUBLE, 3), 2 := Ready(DOUBLE, 3)], [])
  {
    RunTwo(PENDING_DB, [], Call(1, DOUBLE), Call(2, DOUBLE));
    RunTwo(PENDING_DB, [] + [Call(1, DOUBLE), Call(2, DOUBLE)], Step(1), Step(2));
    assert BOTH_CHECKED == [] + [Call(1, DOUBLE), Call(2, DOUBLE)] + [Step(1), Step(2)];
  }

  lemma {:induction false} FirstVerification(m: Machine)
    requires m == Machine(PENDING_DB, map[1 := Ready(DOUBLE, 3), 2 := Ready(DOUBLE, 3)], [])
    ensures Next(Next(m, Step(1)), Step(1))
         == Machine(CREDITED_DB, map[1 := Finished(DOUBLE), 2 := Ready(DOUBLE, 3)], [Logged(1, DOUBLE, true)])
  {}

  lemma {:induction false} SecondVerification(m: Machine)
    requires m == Machine(CREDITED_DB, map[1 := Finished(DOUBLE), 2 := Ready(DOUBLE, 3)], [Logged(1, DOUBLE, true)])
    ensures Next(Next(m, Step(2)), Step(2)).log == [Logged(1, DOUBLE, true), Logged(2, DOUBLE, true)]
  {}

  lemma {:induction false} OverlapRuns()
    ensures Run(PENDING_DB, OVERLAP).log == [Logged(1, DOUBLE, true), Logged(2, DOUBLE, true)]
  {
    BothPassTheCheck();
    RunTwo(PENDING_DB, BOTH_CHECKED, Step(1), Step(1));
    FirstVerification(Run(PENDING_DB, BOTH_CHECKED));
    RunTwo(PENDING_DB, BOTH_CHECKED + [Step(1), Step(1)], Step(2), Step(2));
    SecondVerification(Run(PENDING_DB, BOTH_CHECKED + [Step(1), Step(1)]));
  }

  /** Two verifications of one deposit that overlap credit it twice. */
  lemma {:induction false} OverlappingVerificationsCreditTwice()
    ensures Open(PENDING_DB, 0) && Settlements(Ops(Run(PENDING_DB, OVERLAP).log), 0) == 2
  {
    OverlapRuns();
    var ops := Ops(Run(PENDING_DB, OVERLAP).log);
    assert ops == [DOUBLE, DOUBLE] && ops[..1] == [DOUBLE];
    assert Settlements(ops[..1], 0) == 1;
  }

  // ----- no payout without an approval

  function Count(log: seq<Op>, op: Op): nat
  {
    if log == [] then 0 else Count(log[..|log| - 1], op) + if log[|log| - 1] == op then 1 else 0
  }

  predicate Approved(db: Db, t: TxId)
  {
    t in db.txs && db.txs[t].kind == Payout && db.txs[t].status == Processing
  }

  lemma {:induction false} ExecutionsAreApproved(kept: Kept, db0: Db, log: seq<Op>, t: TxId)
    requires CarefulLog(kept, db0, log) && !Approved(db0, t)
    ensures Count(log, ExecutePayout(t)) + (if Approved(Replay(db0, log), t) then 1 else 0) <= Count(log, ProcessPayout(t))
  {
    if log != [] {
      var before, op := Replay(db0, log[..|log| - 1]), log[|log| - 1];
      ExecutionsAreApproved(kept, db0, log[..|log| - 1], t);
      ChecksByColumns(before, op);
      ExecIsBooked(before, op);
    }
  }

  /** Every execution of a payout was approved by an admin on its own, under every interleaving whose
      calls on that payout do not overlap. */
  lemma {:induction false} NoPayoutWithoutApproval(db0: Db, es: seq<Event>, t: TxId)
    requires NoOverlap(PayoutsApart, db0, es) && !Approved(db0, t)
    ensures Count(Ops(Run(db0, es).log), ExecutePayout(t)) <= Count(Ops(Run(db0, es).log), ProcessPayout(t))
  {
    NoOverlapIsCareful(PayoutsApart, db0, es);
    ExecutionsAreApproved(PayoutsApart, db0, Ops(Run(db0, es).log), t);
  }

  // ----- why approvals must not overlap executions

  const APPROVE := ProcessPayout(0)
  const PAY := ExecutePayout(0)

  function Debits(n: nat): seq<Entry>
  {
    if n == 0 then [] else Debits(n - 1) + [Posting(Account.Wallet(7), Bank, 100)]
  }

  /** User 7's payout of 100 in the given status, after it was debited `paid` times. */
  function PayoutDb(status: TxStatus, paid: nat): Db
  {
    var left := 100 - 100 * paid;
    Db(Books(map[7 := Row(left, left, 1 + paid)], 0, 0, 100 * paid, Debits(paid)), map[0 := Tx(Payout, 7, -100, status)])
  }

  /** Both admins have passed the check and are about to write. */
  const APPROVALS := [Call(1, APPROVE), Call(2, APPROVE), Step(1), Step(2), Step(1), Step(2)]

  const EXECUTION := [Call(3, PAY), Step(3), Step(3), Step(3)]
  const SECOND_EXECUTION := [Call(4, PAY), Step(4), Step(4), Step(4)]

  const REOPENING := APPROVALS + [Step(1)] + EXECUTION + [Step(2)] + SECOND_EXECUTION

  const ARMED := Armed(APPROVE, NoRow, 1)

  lemma {:induction false} RunOne(db0: Db, es: seq<Event>, a: Event)
    ensures Run(db0, es + [a]) == Next(Run(db0, es), a)
  {
    assert (es + [a])[..|es|] == es;
  }

  lemma {:induction false} RunFour(db0: Db, es: seq<Event>, a: Event, b: Event, c: Event, d: Event)
    ensures Run(db0, es + [a, b, c, d]) == Next(Next(Next(Next(Run(db0, es), a), b), c), d)
  {
    RunTwo(db0, es, a, b);
    RunTwo(db0, es + [a, b], c, d);
    assert es + [a, b, c, d] == es + [a, b] + [c, d];
  }

  lemma {:induction false} BothApprovalsPass()
    ensures Run(PayoutDb(Pending, 0), APPROVALS) == Machine(PayoutDb(Pending, 0), map[1 := ARMED, 2 := ARMED], [])
  {
    var db0 := PayoutDb(Pending, 0);
    RunTwo(db0, [], Call(1, APPROVE), Call(2, APPROVE));
    RunFour(db0, [Call(1, APPROVE), Call(2, APPROVE)], Step(1), Step(2), Step(1), Step(2));
    assert [] + [Call(1, APPROVE), Call(2, APPROVE)] == [Call(1, APPROVE), Call(2, APPROVE)];
    assert APPROVALS == [Call(1, APPROVE), Call(2, APPROVE)] + [Step(1), Step(2), Step(1), Step(2)];
  }

  lemma {:induction false} Approval(m: Machine, c: nat, paid: nat)
    requires c in m.clients && m.clients[c] == ARMED
    requires m.db == PayoutDb(if paid == 0 then Pending else Completed, paid)
    ensures Next(m, Step(c))
         == Machine(PayoutDb(Processing, paid), m.clients[c := Finished(APPROVE)], m.log + [Logged(c, APPROVE, true)])
  {
  }

  lemma {:induction false} ExecutionCommits(paid: nat)
    ensures var db := PayoutDb(Processing, paid);
            Commit(db, PAY, One(db.books.wallets[7])) == (PayoutDb(Completed, paid + 1), Done)
  {
    var db := PayoutDb(Processing, paid);
    var db' := Commit(db, PAY, One(db.books.wallets[7])).0;
    assert db'.books.wallets == map[7 := Row(100 - 100 * (paid + 1), 100 - 100 * (paid + 1), 2 + paid)];
    assert db'.books.entries == Debits(paid + 1);
    assert db'.txs == map[0 := Tx(Payout, 7, -100, Completed)];
  }

  lemma {:induction false} Execution(m: Machine, c: nat, paid: nat)
    requires c !in m.clients && m.db == PayoutDb(Processing, paid)
    ensures Next(Next(Next(Next(m, Call(c, PAY)), Step(c)), Step(c)), Step(c))
         == Machine(PayoutDb(Completed, paid + 1), m.clients[c := Finished(PAY)], m.log + [Logged(c, PAY, true)])
  {
    var row := m.db.books.wallets[7];
    var m1 := Move(m, c, Start(PAY));
    assert Next(m1, Step(c)) == Move(m, c, Ready(PAY, 1)) by { assert m1.clients[c := Ready(PAY, 1)] == m.clients[c := Ready(PAY, 1)]; }
    var m2 := Move(m, c, Ready(PAY, 1));
    assert Next(m2, Step(c)) == Move(m, c, Armed(PAY, One(row), 1)) by {
      assert m2.clients[c := Armed(PAY, One(row), 1)] == m.clients[c := Armed(PAY, One(row), 1)];
    }
    ExecutionCommits(paid);
  }

  lemma {:induction false} PaidOnce() returns (m: Machine)
    ensures m == Run(PayoutDb(Pending, 0), APPROVALS + [Step(1)] + EXECUTION)
    ensures m.db == PayoutDb(Completed, 1) && m.log == [Logged(1, APPROVE, true), Logged(3, PAY, true)]
    ensures 2 in m.clients && m.clients[2] == ARMED && 4 !in m.clients
  {
    var db0 := PayoutDb(Pending, 0);
    BothApprovalsPass();
    RunOne(db0, APPROVALS, Step(1));
    Approval(Run(db0, APPROVALS), 1, 0);
    RunFour(db0, APPROVALS + [Step(1)], Call(3, PAY), Step(3), Step(3), Step(3));
    Execution(Run(db0, APPROVALS + [Step(1)]), 3, 0);
    m := Run(db0, APPROVALS + [Step(1)] + EXECUTION);
  }

  lemma {:induction false} PaidAgain(es: seq<Event>)
    requires var m := Run(PayoutDb(Pending, 0), es);
             && m.db == PayoutDb(Completed, 1) && m.log == [Logged(1, APPROVE, true), Logged(3, PAY, true)]
             && 2 in m.clients && m.clients[2] == ARMED && 4 !in m.clients
    ensures var m := Run(PayoutDb(Pending, 0), es + [Step(2)] + SECOND_EXECUTION);
            && m.db == PayoutDb(Completed, 2)
            && m.log == [Logged(1, APPROVE, true), Logged(3, PAY, true), Logged(2, APPROVE, true), Logged(4, PAY, true)]
  {
    var db0 := PayoutDb(Pending, 0);
    RunOne(db0, es, Step(2));
    Approval(Run(db0, es), 2, 1);
    RunFour(db0, es + [Step(2)], Call(4, PAY), Step(4), Step(4), Step(4));
    Execution(Run(db0, es + [Step(2)]), 4, 1);
  }

  /** An approval writes PROCESSING without looking. One that overlaps an execution reopens a paid
      payout, which is then debited again; the money frozen for it goes below zero. */
  lemma {:induction false} OverlappingApprovalPaysTwice()
    ensures var m := Run(PayoutDb(Pending, 0), REOPENING);
            && Settlements(Ops(m.log), 0) == 2
            && m.db.books.wallets == map[7 := Row(-100, -100, 3)]
  {
    var before := PaidOnce();
    PaidAgain(APPROVALS + [Step(1)] + EXECUTION);
    var ops := Ops(Run(PayoutDb(Pending, 0), REOPENING).log);
    assert ops == [APPROVE, PAY, APPROVE, PAY];
    CountFour(APPROVE, PAY, APPROVE, PAY, 0);
  }

  lemma {:induction false} CountFour(a: Op, b: Op, c: Op, d: Op, t: TxId)
    requires !Settles(a, t) && Settles(b, t) && !Settles(c, t) && Settles(d, t)
    ensures Settlements([a, b, c, d], t) == 2
  {
    assert [a, b][..1] == [a] && [a, b, c][..2] == [a, b] && [a, b, c, d][..3] == [a, b, c];
    assert Settlements([a], t) == 0;
    assert Settlements([a, b], t) == 1;
    assert Settlements([a, b, c], t) == 1;
  }

  // ----- frozen money

  /** The part of `u`'s frozen money that payout `t` accounts for. */
  function Reserved(db: Db, u: UserId, t: TxId): int
  {
    if t in db.txs && db.txs[t].kind == Payout && db.txs[t].user == u
       && (db.txs[t].status == Pending || db.txs[t].status == Processing)
    then Abs(db.txs[t].amount) else 0
  }

  /** PENDING and PROCESSING payouts of `u`. */
  ghost function Reserve(db: Db, u: UserId): int
  {
    SumOver(db.txs.Keys, t => Reserved(db, u, t))
  }

  /** What an operation adds to the outstanding holds of `u`. */
  function HoldChange(op: Op, u: UserId): int
  {
    match op
    case Freeze(v, amount) => if v == u then amount else 0
    case Unfreeze(v, amount) => if v == u then -amount else 0
    case ReleaseEscrow(s, _, amount) => if s == u then -amount else 0
    case _ => 0
  }

  /** Money frozen by freezeFunds and not yet unfrozen or released. */
  function Holds(log: seq<Op>, u: UserId): int
  {
    if log == [] then 0 else Holds(log[..|log| - 1], u) + HoldChange(log[|log| - 1], u)
  }

  /** Frozen money is exactly the outstanding holds and the open payouts. */
  ghost predicate FrozenExplained(db0: Db, log: seq<Op>)
    requires LegalLog(db0, log)
  {
    var db := Replay(db0, log);
    forall u ::
      if u in db.books.wallets then db.books.wallets[u].frozen == Holds(log, u) + Reserve(db, u)
      else Holds(log, u) == 0 && Reserve(db, u) == 0
  }

  /** ... and is never more than the balance, nor are holds overdrawn. */
  ghost predicate FundsOk(db0: Db, log: seq<Op>)
    requires LegalLog(db0, log)
  {
    FrozenExplained(db0, log)
    && forall u :: u in Replay(db0, log).books.wallets ==>
         var row := Replay(db0, log).books.wallets[u];
         0 <= Holds(log, u) && 0 <= row.frozen <= row.balance
  }

  lemma {:induction false} ReserveIsNonNegative(db: Db, u: UserId, s: set<TxId>)
    ensures SumOver(s, t => Reserved(db, u, t)) >= 0
    decreases |s|
  {
    var f := t => Reserved(db, u, t);
    if s != {} {
      var t :| t in s;
      SumRemove(s, f, t);
      ReserveIsNonNegative(db, u, s - {t});
      SumSame(s - {t}, f, t => Reserved(db, u, t));
    }
    SumSame(s, f, t => Reserved(db, u, t));
  }

  /** What an operation adds to the open payouts of `u`. */
  function ReserveChange(db: Db, op: Op, u: UserId): int
  {
    match op
    case RequestPayout(v, amount, _) => if v == u then amount else 0
    case ExecutePayout(t) => -Reserved(db, u, t)
    case _ => 0
  }

  lemma {:induction false} RequestReserves(db: Db, op: Op, u: UserId)
    requires op.RequestPayout? && Legal(db, op)
    ensures Reserve(Exec(db, op), u) == Reserve(db, u) + ReserveChange(db, op, u)
  {
    var db' := Exec(db, op);
    var f, g := t => Reserved(db, u, t), t => Reserved(db', u, t);
    SumInsert(db.txs.Keys, f, g, op.tx);
    assert db'.txs.Keys == db.txs.Keys + {op.tx};
    SumSame(db.txs.Keys, f, t => Reserved(db, u, t));
    SumSame(db'.txs.Keys, g, t => Reserved(db', u, t));
  }

  lemma {:induction false} ReserveAfter(db: Db, op: Op, u: UserId)
    requires Legal(db, op) && Passes(PayoutsApart, db, op)
    ensures Reserve(Exec(db, op), u) == Reserve(db, u) + ReserveChange(db, op, u)
  {
    if op.RequestPayout? {
      RequestReserves(db, op, u);
    } else {
      var db' := Exec(db, op);
      var f, g := t => Reserved(db, u, t), t => Reserved(db', u, t);
      assert db'.txs.Keys == db.txs.Keys;
      if Concerns(PayoutsApart, op) { SumChange(db.txs.Keys, f, g, op.tx); } else { SumSame(db.txs.Keys, f, g); }
      SumSame(db.txs.Keys, f, t => Reserved(db, u, t));
      SumSame(db'.txs.Keys, g, t => Reserved(db', u, t));
    }
  }

  /** A wallet row after one operation, by what the operation adds to it. */
  function BalanceChange(db: Db, op: Op, u: UserId): int
    requires Legal(db, op)
  {
    match op
    case Deposit(t, amount) => if db.txs[t].user == u then amount else 0
    case ExecutePayout(t) => if db.txs[t].user == u then -Abs(db.txs[t].amount) else 0
    case ReleaseEscrow(s, d, amount) => if s == u then -amount else if d == u then amount else 0
    case ChargeFee(v, amount) => if v == u then -amount else 0
    case _ => 0
  }

  lemma {:induction false} RowAfter(db: Db, op: Op, u: UserId)
    requires Legal(db, op) && Passes(PayoutsApart, db, op)
    ensures u in db.books.wallets ==> u in Exec(db, op).books.wallets
    ensures u in Exec(db, op).books.wallets ==>
              var before := if u in db.books.wallets then db.books.wallets[u] else NEW_ROW;
              var after := Exec(db, op).books.wallets[u];
              && after.balance == before.balance + BalanceChange(db, op, u)
              && after.frozen == before.frozen + HoldChange(op, u) + ReserveChange(db, op, u)
    ensures u !in Exec(db, op).books.wallets ==> HoldChange(op, u) == 0 && ReserveChange(db, op, u) == 0
  {
  }

  lemma {:induction false} ExplainedStep(db0: Db, log: seq<Op>, op: Op)
    requires LegalLog(db0, log) && FrozenExplained(db0, log)
    requires Legal(Replay(db0, log), op) && Passes(PayoutsApart, Replay(db0, log), op)
    ensures LegalLog(db0, log + [op]) && FrozenExplained(db0, log + [op])
    ensures Replay(db0, log + [op]) == Exec(Replay(db0, log), op)
  {
    assert (log + [op])[..|log|] == log;
    var db := Replay(db0, log);
    forall u: UserId
      ensures if u in Exec(db, op).books.wallets
              then Exec(db, op).books.wallets[u].frozen == Holds(log + [op], u) + Reserve(Exec(db, op), u)
              else Holds(log + [op], u) == 0 && Reserve(Exec(db, op), u) == 0
    {
      RowAfter(db, op, u);
      ReserveAfter(db, op, u);
    }
  }

  /** Unfreezing and releasing draw only on earlier holds. */
  predicate DrawsOnHolds(log: seq<Op>, op: Op)
  {
    match op
    case Unfreeze(u, amount) => amount <= Holds(log, u)
    case ReleaseEscrow(s, _, amount) => amount <= Holds(log, s)
    case _ => true
  }

  /** One operation keeps the funds in order iff it does not overdraw a hold. The code only
      compares with `frozen`, which also contains money promised to payouts. */
  lemma {:induction false} FundsStayOkIffHoldsAreDrawnOn(db0: Db, log: seq<Op>, op: Op)
    requires LegalLog(db0, log) && FundsOk(db0, log)
    requires Legal(Replay(db0, log), op) && Passes(PayoutsApart, Replay(db0, log), op)
    requires op.Deposit? ==> op.amount >= 0
    ensures LegalLog(db0, log + [op])
    ensures FundsOk(db0, log + [op]) <==> DrawsOnHolds(log, op)
  {
    ExplainedStep(db0, log, op);
    assert (log + [op])[..|log|] == log;
    var db := Replay(db0, log);
    var db' := Exec(db, op);
    if !DrawsOnHolds(log, op) {
      var u := if op.Unfreeze? then op.user else op.src;
      assert u in db'.books.wallets && Holds(log + [op], u) < 0;
    } else {
      forall u | u in db'.books.wallets
        ensures 0 <= Holds(log + [op], u) && 0 <= db'.books.wallets[u].frozen <= db'.books.wallets[u].balance
      {
        RowAfter(db, op, u);
        ReserveIsNonNegative(db', u, db'.txs.Keys);
      }
    }
  }

  /** Every draw stays within the holds of its moment, and no deposit is negative. */
  ghost predicate DisciplinedLog(log: seq<Op>)
  {
    forall i :: 0 <= i < |log| ==> DrawsOnHolds(log[..i], log[i]) && (log[i].Deposit? ==> log[i].amount >= 0)
  }

  lemma {:induction false} DisciplinedLogsKeepFunds(db0: Db, log: seq<Op>)
    requires CarefulLog(PayoutsApart, db0, log) && DisciplinedLog(log) && FundsOk(db0, [])
    ensures FundsOk(db0, log)
  {
    if log != [] {
      var prefix, op := log[..|log| - 1], log[|log| - 1];
      forall i | 0 <= i < |prefix|
        ensures DrawsOnHolds(prefix[..i], prefix[i]) && (prefix[i].Deposit? ==> prefix[i].amount >= 0)
      {
        assert prefix[..i] == log[..i] && prefix[i] == log[i];
      }
      DisciplinedLogsKeepFunds(db0, prefix);
      FundsStayOkIffHoldsAreDrawnOn(db0, prefix, op);
      assert prefix + [op] == log;
    }
  }

  /** In every interleaving whose calls on one transaction are kept apart and whose draws stay
      within their holds, frozen money is the holds plus the open payouts and is covered by the
      balance, although executing a payout checks no funds. */
  lemma {:induction false} FrozenMoneyIsCovered(db0: Db, es: seq<Event>, u: UserId)
    requires NoOverlap(PayoutsApart, db0, es) && FundsOk(db0, [])
    requires DisciplinedLog(Ops(Run(db0, es).log))
    requires u in Run(db0, es).db.books.wallets
    ensures var m := Run(db0, es);
            var row := m.db.books.wallets[u];
            row.frozen == Holds(Ops(m.log), u) + Reserve(m.db, u) && 0 <= row.frozen <= row.balance
  {
    EveryInterleavingIsSerial(db0, es);
    NoOverlapIsCareful(PayoutsApart, db0, es);
    DisciplinedLogsKeepFunds(db0, Ops(Run(db0, es).log));
  }

  // ----- why the condition on holds is needed

  ghost function OpenPayouts(db: Db, u: UserId): set<TxId>
  {
    set t | t in db.txs && db.txs[t].kind == Payout && db.txs[t].user == u
            && (db.txs[t].status == Pending || db.txs[t].status == Processing)
  }

  ghost function Unapproved(db: Db, u: UserId): set<TxId>
  {
    set t | t in OpenPayouts(db, u) && db.txs[t].status == Pending
  }

  lemma {:induction false} NextPayout(db: Db, u: UserId) returns (op: Op)
    requires OpenPayouts(db, u) != {} && u in db.books.wallets
    ensures op.ProcessPayout? || op.ExecutePayout?
    ensures Legal(db, op) && StatusOk(db, op) && u in Exec(db, op).books.wallets
    ensures var db' := Exec(db, op);
            |OpenPayouts(db', u)| + |Unapproved(db', u)| < |OpenPayouts(db, u)| + |Unapproved(db, u)|
  {
    if t :| t in Unapproved(db, u) {
      op := ProcessPayout(t);
      assert OpenPayouts(Exec(db, op), u) == OpenPayouts(db, u);
      assert Unapproved(Exec(db, op), u) == Unapproved(db, u) - {t};
    } else {
      var t :| t in OpenPayouts(db, u);
      assert t !in Unapproved(db, u);
      op := ExecutePayout(t);
      assert OpenPayouts(Exec(db, op), u) == OpenPayouts(db, u) - {t};
      assert Unapproved(Exec(db, op), u) == Unapproved(db, u);
    }
  }

  ghost predicate Overdrawn(kept: Kept, db0: Db, log: seq<Op>, u: UserId)
  {
    CarefulLog(kept, db0, log) && FrozenExplained(db0, log)
    && u in Replay(db0, log).books.wallets && Holds(log, u) < 0
  }

  ghost function Outstanding(db: Db, u: UserId): nat
  {
    |OpenPayouts(db, u)| + |Unapproved(db, u)|
  }

  lemma {:induction false} PayoutKeepsOverdrawn(kept: Kept, db0: Db, log: seq<Op>, u: UserId) returns (op: Op)
    requires Overdrawn(kept, db0, log, u) && OpenPayouts(Replay(db0, log), u) != {}
    ensures op.ProcessPayout? || op.ExecutePayout?
    ensures Overdrawn(kept, db0, log + [op], u)
    ensures Outstanding(Replay(db0, log + [op]), u) < Outstanding(Replay(db0, log), u)
  {
    op := NextPayout(Replay(db0, log), u);
    ExplainedStep(db0, log, op);
    CarefulSnoc(kept, db0, log, op);
    assert (log + [op])[..|log|] == log;
  }

  /** Once a hold is overdrawn, merely approving and executing the open payouts of that user
      drives `frozen` below zero. */
  lemma {:induction false} OverdrawnHoldsGoNegative(kept: Kept, db0: Db, log: seq<Op>, u: UserId) returns (log': seq<Op>)
    requires Overdrawn(kept, db0, log, u)
    ensures log <= log'
    ensures forall i :: |log| <= i < |log'| ==> log'[i].ProcessPayout? || log'[i].ExecutePayout?
    ensures Overdrawn(kept, db0, log', u)
    ensures Replay(db0, log').books.wallets[u].frozen < 0
    decreases Outstanding(Replay(db0, log), u)
  {
    if OpenPayouts(Replay(db0, log), u) == {} {
      NothingReserved(Replay(db0, log), u);
      log' := log;
    } else {
      var op := PayoutKeepsOverdrawn(kept, db0, log, u);
      log' := OverdrawnHoldsGoNegative(kept, db0, log + [op], u);
    }
  }

  lemma {:induction false} NothingReserved(db: Db, u: UserId)
    requires OpenPayouts(db, u) == {}
    ensures Reserve(db, u) == 0
  {
    forall t ensures Reserved(db, u, t) == 0 { assert t !in OpenPayouts(db, u); }
    SumZero(db.txs.Keys, t => Reserved(db, u, t));
  }
}
