/** What keeps the settlement invariants although it moves no escrow money: contract steps, wallet
    steps, the clock, and changes beside the point. */
module SettlementFrames {
  import opened Prelude
  import opened Ledger
  import opened Idempotency
  import opened Contracts
  import opened Settlement
  import opened SettlementRules
  import SL = SettlementLedger
  import W = Wallet

  // ----- what stays when nothing that matters changes

  ghost predicate SameAmounts(s: State, s': State)
  {
    |s.cases| <= |s'.cases| && forall c :: 0 <= c < |s.cases| ==> s'.cases[c].amount == s.cases[c].amount
  }

  lemma {:induction false} ShapeFrame(s: State, s': State)
    requires Shape(s) && SameAmounts(s, s')
    requires s'.payments == s.payments && s'.transfers == s.transfers
    requires s'.refunds == s.refunds && s'.flights == s.flights
    ensures Shape(s')
  {
  }

  lemma {:induction false} NetFrame(s: State, s': State)
    requires NetOk(s) && Filed(s) && SameAmounts(s, s') && |s'.cases| == |s.cases|
    requires s'.payments == s.payments && s'.transfers == s.transfers && s'.refunds == s.refunds
    requires s'.books.entries == s.books.entries
    ensures NetOk(s') && Filed(s')
  {
  }

  lemma {:induction false} FundFrame(s: State, s': State)
    requires FundInv(s) && Shape(s) && |s'.cases| >= |s.cases| && s'.payments == s.payments
    requires forall p: nat :: Charge(p) in s'.flights ==> Charge(p) in s.flights
    requires forall c: nat, p: nat :: FundedKey(c, p) in s'.keys ==>
               FundedKey(c, p) in s.keys && s'.keys[FundedKey(c, p)] == s.keys[FundedKey(c, p)]
    requires forall c :: 0 <= c < |s.cases| && PastFunding(StatusOf(s, c)) ==> PastFunding(StatusOf(s', c))
    ensures FundInv(s')
  {
    forall p: nat | Funder(s', p) ensures Funder(s, p) {}
  }

  lemma {:induction false} PayFrame(s: State, s': State)
    requires PayInv(s) && Shape(s) && |s'.cases| >= |s.cases| && s'.transfers == s.transfers && s.now <= s'.now
    requires forall t: nat :: Transfer(t) in s'.flights ==> Transfer(t) in s.flights
    requires forall c: nat :: PaidOutKey(c) in s'.keys ==>
               PaidOutKey(c) in s.keys && s'.keys[PaidOutKey(c)] == s.keys[PaidOutKey(c)]
    requires forall t: nat :: Live(s', t) && ReleaseKey(s.transfers[t].contract) in s.keys ==>
               ReleaseKey(s.transfers[t].contract) in s'.keys
               && s'.keys[ReleaseKey(s.transfers[t].contract)] == s.keys[ReleaseKey(s.transfers[t].contract)]
    requires forall c :: 0 <= c < |s.cases| && StatusOf(s, c) == PAID_OUT ==> StatusOf(s', c) == PAID_OUT
    ensures PayInv(s')
  {
    forall t: nat | Live(s', t) ensures Live(s, t) {}
    forall t: nat | Claimant(s', t) ensures Claimant(s, t) {}
    forall t: nat | PaysOut(s', t) ensures PaysOut(s, t) {}
  }

  ghost predicate KeyKept(s: State, s': State, k: Key)
  {
    k in s.keys ==> k in s'.keys && s'.keys[k] == s.keys[k]
  }

  /** Nothing happens to refunds, their locks or the statuses they depend on. */
  ghost predicate Calm(s: State, s': State)
  {
    && s'.refunds == s.refunds && s'.now == s.now && |s.cases| <= |s'.cases|
    && (forall c: nat :: KeyKept(s, s', RefundKey(c)))
    && (forall c :: 0 <= c < |s.cases| ==>
          && (StatusOf(s, c) in {DISPUTED, PAID_OUT, REFUNDED} ==> StatusOf(s', c) == StatusOf(s, c))
          && (StatusOf(s', c) == REFUNDED ==> StatusOf(s, c) == REFUNDED))
    && (forall c :: |s.cases| <= c < |s'.cases| ==> StatusOf(s', c) != REFUNDED)
  }

  lemma {:induction false} CalmKeepsDone(s: State, s': State)
    requires Shape(s) && DoneInv(s) && Calm(s, s')
    ensures DoneInv(s')
  {
    forall c: nat ensures RefundDone(s', c) == RefundDone(s, c) {}
    forall c: nat | c < |s'.cases| && RefundDone(s', c) ensures StatusOf(s', c) in {DISPUTED, REFUNDED} {
      var r :| 0 <= r < |s.refunds| && s.refunds[r].contract == c && s.refunds[r].completed;
      assert c < |s.cases| && RefundDone(s, c);
    }
  }

  lemma {:induction false} CalmKeepsPending(s: State, s': State)
    requires Shape(s) && DoneInv(s) && PendingInv(s) && Calm(s, s')
    ensures PendingInv(s')
  {
    forall r: nat | Pending(s', r) ensures Pending(s, r) && KeyKept(s, s', RefundKey(s.refunds[r].contract)) {}
    forall r: nat | r < |s.refunds| ensures RefundStageOk(s', r) {
      assert RefundStageOk(s, r);
      if s.refunds[r].completed { assert RefundDone(s, s.refunds[r].contract); }
    }
  }

  lemma {:induction false} RefundFrame(s: State, s': State)
    requires Shape(s) && DoneInv(s) && PendingInv(s) && Calm(s, s')
    ensures DoneInv(s') && PendingInv(s')
  {
    CalmKeepsDone(s, s');
    CalmKeepsPending(s, s');
  }

  lemma {:induction false} MarkCaseEffect(s: State, c: nat, k: Key, next: Status)
    requires c < |s.cases|
    ensures var (s', ok) := MarkCase(s, c, k, next);
            && s' == s.(cases := s'.cases, keys := s'.keys)
            && |s'.cases| == |s.cases| && SameAmounts(s, s')
            && (forall d :: 0 <= d < |s.cases| && d != c ==> s'.cases[d] == s.cases[d])
            && if !Available(Lookup(s.keys, k), s.now) then ok && s' == s
               else if next in Targets(StatusOf(s, c))
               then ok && StatusOf(s', c) == next && s'.keys == s.keys[k := Acquired(s.now).(completedAt := Some(s.now))]
               else !ok && s'.cases == s.cases && s'.keys == s.keys - {k}
  {
    var (s', ok) := MarkCase(s, c, k, next);
    if !Available(Lookup(s.keys, k), s.now) || next !in Targets(StatusOf(s, c)) {
      assert s'.cases == s.cases;
    }
  }

  // ----- contract steps, wallet steps and the clock

  /** No contract crosses a line that the rows know about. */
  ghost predicate SameStage(s: State, s': State)
  {
    && SameAmounts(s, s') && |s'.cases| == |s.cases| && s' == s.(cases := s'.cases)
    && forall c :: 0 <= c < |s.cases| ==>
         var was, now := StatusOf(s, c), StatusOf(s', c);
         && (PastFunding(was) <==> PastFunding(now))
         && (was in {DISPUTED, PAID_OUT, REFUNDED} ==> now == was)
         && (now in {PAID_OUT, REFUNDED} ==> was == now)
  }

  lemma {:induction false} SameStageKeepsInv(s: State, s': State)
    requires Inv(s) && SameStage(s, s')
    ensures Inv(s')
  {
    ShapeFrame(s, s');
    NetFrame(s, s');
    FundFrame(s, s');
    PayFrame(s, s');
    RefundFrame(s, s');
  }

  lemma {:induction false} ContractStepEffect(s: State, c: nat, e: Contracts.Event)
    requires c < |s.cases| && !MovesMoney(e)
    ensures SameStage(s, StepContract(s, c, e))
  {
  }

  lemma {:induction false} ContractStepKeepsInv(s: State, c: nat, e: Contracts.Event)
    requires Inv(s)
    ensures Inv(StepContract(s, c, e))
  {
    if c < |s.cases| && !MovesMoney(e) {
      ContractStepEffect(s, c, e);
      SameStageKeepsInv(s, StepContract(s, c, e));
    }
  }

  lemma {:induction false} MovedByOthersEffect(s: State, c: nat, moved: Contract)
    requires Good(s, MovedByOthers(c, moved))
    ensures SameStage(s, MovedByOthersStep(s, c, moved))
  {
  }

  lemma {:induction false} MovedByOthersKeepsInv(s: State, c: nat, moved: Contract)
    requires Inv(s) && Good(s, MovedByOthers(c, moved))
    ensures Inv(MovedByOthersStep(s, c, moved))
  {
    MovedByOthersEffect(s, c, moved);
    SameStageKeepsInv(s, MovedByOthersStep(s, c, moved));
  }

  lemma {:induction false} NewContractIsEmpty(s: State, n: nat, amount: int)
    requires Shape(s) && Filed(s) && n == |s.cases|
    ensures SumSeq(s.books.entries, EscrowOn(n)) == 0 && SumSeq(s.payments, FundedOn(n)) == 0
    ensures SumSeq(s.transfers, PaidOn(n)) == 0 && SumSeq(s.refunds, RefundedOn(n, amount)) == 0
    ensures !RefundDone(s, n)
  {
    SumSeqZero(s.books.entries, EscrowOn(n));
    SumSeqZero(s.payments, FundedOn(n));
    SumSeqZero(s.transfers, PaidOn(n));
    SumSeqZero(s.refunds, RefundedOn(n, amount));
  }

  lemma {:induction false} CreateContractNet(s: State, k: Case)
    requires Shape(s) && Filed(s) && NetOk(s)
    ensures NetOk(CreateContractStep(s, k)) && Filed(CreateContractStep(s, k))
  {
    NewContractIsEmpty(s, |s.cases|, k.amount);
  }

  lemma {:induction false} CreateContractClaims(s: State, k: Case)
    requires Shape(s) && FundInv(s) && PayInv(s)
    ensures FundInv(CreateContractStep(s, k)) && PayInv(CreateContractStep(s, k))
  {
    FundFrame(s, CreateContractStep(s, k));
    PayFrame(s, CreateContractStep(s, k));
  }

  lemma {:induction false} CreateContractRows(s: State, k: Case)
    requires Shape(s) && SL.FeesOk(s) && k.amount >= 0
    ensures Shape(CreateContractStep(s, k)) && SL.FeesOk(CreateContractStep(s, k))
  {
    ShapeFrame(s, CreateContractStep(s, k));
  }

  lemma {:induction false} CreateContractRefunds(s: State, k: Case)
    requires Shape(s) && DoneInv(s) && PendingInv(s) && k.contract.status == PENDING_PAYMENT
    ensures DoneInv(CreateContractStep(s, k)) && PendingInv(CreateContractStep(s, k))
  {
    RefundFrame(s, CreateContractStep(s, k));
  }

  lemma {:induction false} CreateContractKeepsInv(s: State, k: Case)
    requires Inv(s) && k.contract.status == PENDING_PAYMENT && k.amount >= 0
    ensures Inv(CreateContractStep(s, k))
  {
    CreateContractRows(s, k);
    CreateContractNet(s, k);
    CreateContractClaims(s, k);
    CreateContractRefunds(s, k);
  }

  lemma {:induction false} WalletStepNet(s: State, op: W.Op)
    requires NetOk(s) && Filed(s)
    ensures NetOk(WalletStepOn(s, op)) && Filed(WalletStepOn(s, op))
  {
    var s', db := WalletStepOn(s, op), W.Db(s.books, s.txs);
    if W.Legal(db, op) {
      SL.WalletEntries(db, op);
      var es, es' := s.books.entries, s'.books.entries;
      if es' == es {
        NetFrame(s, s');
      } else {
        var e: Entry :| es' == es + [e] && e.contract.None? && e.debit != Escrow && e.credit != Escrow;
        forall c: nat ensures SumSeq(es', EscrowOn(c)) == SumSeq(es, EscrowOn(c)) { SumSeqAppend(es, EscrowOn(c), e); }
      }
    }
  }

  lemma {:induction false} WalletStepFrame(s: State, op: W.Op)
    ensures var s' := WalletStepOn(s, op); s' == s.(books := s'.books, txs := s'.txs)
  {
  }

  lemma {:induction false} WalletStepKeepsInv(s: State, op: W.Op)
    requires Inv(s)
    ensures Inv(WalletStepOn(s, op))
  {
    var s' := WalletStepOn(s, op);
    WalletStepFrame(s, op);
    WalletStepNet(s, op);
    ShapeFrame(s, s');
    FundFrame(s, s');
    PayFrame(s, s');
    RefundFrame(s, s');
  }

  /** The lock of a live transfer survives the purge and the clock. */
  lemma {:induction false} ClockKeepsPay(s: State, s': State)
    requires PayInv(s) && Shape(s)
    requires s' == PurgeStep(s) || (s' == s.(now := s'.now) && s.now <= s'.now)
    ensures PayInv(s')
  {
    forall t: nat | Live(s', t) && ReleaseKey(s.transfers[t].contract) in s.keys
      ensures ReleaseKey(s.transfers[t].contract) in s'.keys
    {
      assert Live(s, t);
      GuardsAreKept(s.keys[ReleaseKey(s.transfers[t].contract)], s.transfers[t].stage, s.now);
    }
    PayFrame(s, s');
  }

  /** A lock that guards a request or a job of the last week is neither stale nor old. */
  lemma {:induction false} GuardsAreKept(lock: Lock, stage: Stage, now: int)
    requires Guards(lock, stage)
    requires InTime(stage, now) && stage.at <= now
    ensures !Stale(lock, now) && !Old(lock, now)
  {
  }

  lemma {:induction false} PurgeKeepsPending(s: State)
    requires PendingInv(s)
    ensures PendingInv(PurgeStep(s))
  {
    var s' := PurgeStep(s);
    forall r: nat ensures Pending(s', r) == Pending(s, r) {}
    forall r: nat | Pending(s, r) ensures KeyKept(s, s', RefundKey(s.refunds[r].contract)) {
      assert RefundStageOk(s, r);
      GuardsAreKept(s.keys[RefundKey(s.refunds[r].contract)], s.refunds[r].stage, s.now);
    }
    forall r: nat | r < |s.refunds| ensures RefundStageOk(s', r) { assert RefundStageOk(s, r); }
  }

  lemma {:induction false} TickKeepsPending(s: State, ms: nat)
    requires PendingInv(s) && Good(s, Tick(ms))
    ensures PendingInv(TickStep(s, ms))
  {
    var s' := TickStep(s, ms);
    forall r: nat | Pending(s', r) ensures Pending(s, r) {}
    forall r: nat | r < |s.refunds| ensures RefundStageOk(s', r) {
      assert RefundStageOk(s, r);
      assert Unmarked(s', r) == Unmarked(s, r);
    }
  }

  lemma {:induction false} ClockKeepsDone(s: State, s': State)
    requires DoneInv(s) && s'.refunds == s.refunds && s'.cases == s.cases
    ensures DoneInv(s')
  {
    forall c: nat ensures RefundDone(s', c) == RefundDone(s, c) {}
  }

  lemma {:induction false} PurgeKeepsInv(s: State)
    requires Inv(s)
    ensures Inv(PurgeStep(s))
  {
    var s' := PurgeStep(s);
    ShapeFrame(s, s');
    NetFrame(s, s');
    FundFrame(s, s');
    ClockKeepsPay(s, s');
    ClockKeepsDone(s, s');
    PurgeKeepsPending(s);
  }

  lemma {:induction false} TickKeepsInv(s: State, ms: nat)
    requires Inv(s) && Good(s, Tick(ms))
    ensures Inv(TickStep(s, ms))
  {
    var s' := TickStep(s, ms);
    ShapeFrame(s, s');
    NetFrame(s, s');
    FundFrame(s, s');
    ClockKeepsPay(s, s');
    ClockKeepsDone(s, s');
    TickKeepsPending(s, ms);
  }

  lemma {:induction false} PayFrameSameTransfers(s: State, s': State)
    requires PayInv(s)
    requires s'.transfers == s.transfers && s'.keys == s.keys && s'.flights == s.flights && s'.now == s.now
    requires s'.cases == s.cases
    ensures PayInv(s')
  {
    forall t: nat ensures Live(s', t) == Live(s, t) {}
    forall t: nat ensures Claimant(s', t) == Claimant(s, t) {}
    forall t: nat ensures PaysOut(s', t) == PaysOut(s, t) {}
  }

  lemma {:induction false} LandingKeepsInv(s: State, ref: Reference)
    requires Inv(s)
    ensures Inv(s.(flights := s.flights - {ref}))
  {
    var s' := s.(flights := s.flights - {ref});
    LandingShape(s, ref);
    NetFrame(s, s');
    FundFrame(s, s');
    PayFrame(s, s');
    RefundFrame(s, s');
  }

  lemma {:induction false} LandingShape(s: State, ref: Reference)
    requires Shape(s)
    ensures Shape(s.(flights := s.flights - {ref}))
  {
    var s' := s.(flights := s.flights - {ref});
    forall r | r in s'.flights ensures FlightShape(s', r, s'.flights[r]) {
      assert FlightShape(s, r, s.flights[r]);
    }
  }
}
