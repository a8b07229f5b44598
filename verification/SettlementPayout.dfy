/** Payout steps keep the settlement invariants. */
module SettlementPayout {
  import opened Prelude
  import opened Ledger
  import opened Idempotency
  import opened Contracts
  import opened Settlement
  import opened SettlementRules
  import opened SettlementFrames
  import SL = SettlementLedger
  import W = Wallet

  lemma {:induction false} NewTransferNet(s: State, row: TransferRow)
    requires NetOk(s) && Filed(s) && row.status != W.Completed
    ensures NetOk(s.(transfers := s.transfers + [row])) && Filed(s.(transfers := s.transfers + [row]))
  {
    var s' := s.(transfers := s.transfers + [row]);
    forall c: nat ensures SumSeq(s'.transfers, PaidOn(c)) == SumSeq(s.transfers, PaidOn(c)) {
      SumSeqAppend(s.transfers, PaidOn(c), row);
    }
  }

  lemma {:induction false} NewTransferShape(s: State, row: TransferRow)
    requires Shape(s) && row.contract < |s.cases| && row.amount + row.fee == s.cases[row.contract].amount
    requires row.status != W.Completed
    ensures Shape(s.(transfers := s.transfers + [row]))
  {
    var s' := s.(transfers := s.transfers + [row]);
    forall ref | ref in s'.flights ensures FlightShape(s', ref, s'.flights[ref]) {
      assert FlightShape(s, ref, s.flights[ref]);
    }
  }

  /** While the release key of a contract is to be had and it is not paid out, no transfer of
      that contract has a claim. */
  lemma {:induction false} NoClaimantsWhenAvailable(s: State, c: nat, t: nat)
    requires Shape(s) && PayInv(s) && c < |s.cases| && StatusOf(s, c) != PAID_OUT
    requires Available(Lookup(s.keys, ReleaseKey(c)), s.now)
    requires Claimant(s, t)
    ensures s.transfers[t].contract != c
  {
    assert PaysOut(s, t) || Live(s, t);
  }

  lemma {:induction false} ReleaseKeyPay(s: State, s': State, c: nat)
    requires Shape(s) && PayInv(s) && c < |s.cases| && StatusOf(s, c) != PAID_OUT
    requires Available(Lookup(s.keys, ReleaseKey(c)), s.now)
    requires s' == s.(keys := s'.keys)
    requires forall k :: k != ReleaseKey(c) ==> (k in s'.keys <==> k in s.keys)
    requires forall k :: k != ReleaseKey(c) && k in s.keys ==> s'.keys[k] == s.keys[k]
    ensures PayInv(s')
  {
    forall t: nat | Live(s', t) ensures s.transfers[t].contract != c {
      assert Live(s, t);
      NoClaimantsWhenAvailable(s, c, t);
    }
    PayFrame(s, s');
  }

  lemma {:induction false} NewTransferPay(s: State, row: TransferRow)
    requires Shape(s) && PayInv(s) && row.contract < |s.cases| && row.status != W.Completed
    requires forall t: nat :: Claimant(s, t) ==> s.transfers[t].contract != row.contract
    requires row.stage == Dropped || row.stage == Queued(s.now)
    requires row.stage.Queued? ==>
               ReleaseKey(row.contract) in s.keys && Guards(s.keys[ReleaseKey(row.contract)], row.stage)
    ensures PayInv(s.(transfers := s.transfers + [row]))
  {
    var s', n := s.(transfers := s.transfers + [row]), |s.transfers|;
    assert Transfer(n) !in s.flights;
    forall t: nat | t != n ensures Live(s', t) == Live(s, t) {}
    forall t: nat | t != n ensures Claimant(s', t) == Claimant(s, t) {}
    forall t: nat | PaysOut(s', t) ensures PaysOut(s, t) {}
    forall t: nat | Claimant(s', t) && t != n ensures s'.transfers[t].contract != row.contract {
      assert Claimant(s, t);
    }
  }

  lemma {:induction false} ReleaseKeyKeepsInv(s: State, s': State, c: nat)
    requires Inv(s) && c < |s.cases| && StatusOf(s, c) != PAID_OUT
    requires Available(Lookup(s.keys, ReleaseKey(c)), s.now)
    requires s' == s.(keys := s'.keys)
    requires forall k :: k != ReleaseKey(c) ==> (k in s'.keys <==> k in s.keys)
    requires forall k :: k != ReleaseKey(c) && k in s.keys ==> s'.keys[k] == s.keys[k]
    ensures Inv(s')
    ensures forall t: nat :: Claimant(s', t) ==> s.transfers[t].contract != c
  {
    ReleaseKeyRows(s, s', c);
    ReleaseKeyPay(s, s', c);
    ReleaseKeyRefunds(s, s', c);
    ReleaseKeyClaims(s, s', c);
  }

  lemma {:induction false} ReleaseKeyRows(s: State, s': State, c: nat)
    requires Shape(s) && Filed(s) && NetOk(s) && FundInv(s) && SL.FeesOk(s) && s' == s.(keys := s'.keys)
    requires forall k :: k != ReleaseKey(c) ==> (k in s'.keys <==> k in s.keys)
    requires forall k :: k != ReleaseKey(c) && k in s.keys ==> s'.keys[k] == s.keys[k]
    ensures Shape(s') && Filed(s') && NetOk(s') && FundInv(s') && SL.FeesOk(s')
  {
    ShapeFrame(s, s');
    NetFrame(s, s');
    FundFrame(s, s');
  }

  lemma {:induction false} ReleaseKeyRefunds(s: State, s': State, c: nat)
    requires Shape(s) && DoneInv(s) && PendingInv(s) && s' == s.(keys := s'.keys)
    requires forall k :: k != ReleaseKey(c) ==> (k in s'.keys <==> k in s.keys)
    requires forall k :: k != ReleaseKey(c) && k in s.keys ==> s'.keys[k] == s.keys[k]
    ensures DoneInv(s') && PendingInv(s')
  {
    RefundFrame(s, s');
  }

  lemma {:induction false} ReleaseKeyClaims(s: State, s': State, c: nat)
    requires Shape(s) && PayInv(s) && c < |s.cases| && StatusOf(s, c) != PAID_OUT
    requires Available(Lookup(s.keys, ReleaseKey(c)), s.now) && s' == s.(keys := s'.keys)
    ensures forall t: nat :: Claimant(s', t) ==> s.transfers[t].contract != c
  {
    forall t: nat | Claimant(s', t) ensures s.transfers[t].contract != c {
      assert Claimant(s, t);
      NoClaimantsWhenAvailable(s, c, t);
    }
  }

  lemma {:induction false} NewTransferKeepsInv(s: State, row: TransferRow)
    requires Inv(s) && row.contract < |s.cases| && row.amount + row.fee == s.cases[row.contract].amount
    requires row.status != W.Completed && (row.metaFee.Some? ==> row.metaFee.value >= 0)
    requires forall t: nat :: Claimant(s, t) ==> s.transfers[t].contract != row.contract
    requires row.stage == Dropped || row.stage == Queued(s.now)
    requires row.stage.Queued? ==>
               ReleaseKey(row.contract) in s.keys && Guards(s.keys[ReleaseKey(row.contract)], row.stage)
    ensures Inv(s.(transfers := s.transfers + [row]))
  {
    var s' := s.(transfers := s.transfers + [row]);
    NewTransferShape(s, row);
    NewTransferNet(s, row);
    NewTransferPay(s, row);
    FundFrame(s, s');
    RefundFrame(s, s');
  }

  lemma {:induction false} InitiatePayoutKeepsInv(s: State, c: nat, admin: bool, percent: int, per: Positive, outcome: Initiation)
    requires Inv(s) && percent >= 0
    ensures Inv(InitiatePayoutStep(s, c, admin, percent, per, outcome))
  {
    var s' := InitiatePayoutStep(s, c, admin, percent, per, outcome);
    if c < |s.cases| && MayRelease(s.cases[c].contract.status, admin)
       && Available(Lookup(s.keys, ReleaseKey(c)), s.now)
    {
      var held := s.(keys := s'.keys);
      InitiationEffect(s, c, admin, percent, per, outcome);
      ReleaseKeyKeepsInv(s, held, c);
      if s'.transfers != s.transfers { NewTransferKeepsInv(held, s'.transfers[|s.transfers|]); }
    }
  }

  /** What InitiatePayout does once past its guards: the release lock, and maybe a new row. */
  lemma {:induction false} InitiationEffect(s: State, c: nat, admin: bool, percent: int, per: Positive, outcome: Initiation)
    requires c < |s.cases| && MayRelease(StatusOf(s, c), admin) && Available(Lookup(s.keys, ReleaseKey(c)), s.now)
    requires percent >= 0 && s.cases[c].amount >= 0
    ensures StatusOf(s, c) != PAID_OUT
    ensures var s' := InitiatePayoutStep(s, c, admin, percent, per, outcome);
            && s' == s.(keys := s'.keys, transfers := s'.transfers)
            && (forall k :: k != ReleaseKey(c) ==> (k in s'.keys <==> k in s.keys))
            && (forall k :: k != ReleaseKey(c) && k in s.keys ==> s'.keys[k] == s.keys[k])
            && (s'.transfers == s.transfers ||
                (&& |s'.transfers| == |s.transfers| + 1
                 && var row := s'.transfers[|s.transfers|];
                 && s'.transfers == s.transfers + [row]
                 && row.contract == c && row.amount + row.fee == s.cases[c].amount && row.status != W.Completed
                 && (row.metaFee.Some? ==> row.metaFee.value >= 0)
                 && (row.stage == Dropped || row.stage == Queued(s.now))
                 && (row.stage.Queued? ==> ReleaseKey(c) in s'.keys && Guards(s'.keys[ReleaseKey(c)], row.stage))))
  {
    SL.FeeIsNotNegative(s.cases[c].amount, percent, per);
  }

  /** A transfer row changes without gaining or losing its money. */
  lemma {:induction false} RowChangeNet(s: State, s': State, t: nat)
    requires NetOk(s) && Filed(s) && t < |s.transfers| && s' == s.(transfers := s'.transfers)
    requires |s'.transfers| == |s.transfers|
    requires s'.transfers == s.transfers[t := s'.transfers[t]]
    requires s'.transfers[t].status == s.transfers[t].status
             || (s'.transfers[t].status != W.Completed && s.transfers[t].status != W.Completed)
    requires s'.transfers[t].amount == s.transfers[t].amount && s'.transfers[t].postedFee == s.transfers[t].postedFee
    requires s'.transfers[t].contract == s.transfers[t].contract
    ensures NetOk(s') && Filed(s')
  {
    forall c: nat ensures SumSeq(s'.transfers, PaidOn(c)) == SumSeq(s.transfers, PaidOn(c)) {
      SumSeqUpdate(s.transfers, PaidOn(c), t, s'.transfers[t]);
    }
  }

  ghost predicate RowChanged(s: State, s': State, t: nat)
  {
    && t < |s.transfers| && s' == s.(transfers := s'.transfers)
    && |s'.transfers| == |s.transfers| && s'.transfers == s.transfers[t := s'.transfers[t]]
    && var was, now := s.transfers[t], s'.transfers[t];
       now.contract == was.contract && now.amount == was.amount && now.fee == was.fee && now.postedFee == was.postedFee
       && (now.status == W.Completed <==> was.status == W.Completed)
       && (now.stage == was.stage
           || (was.stage.Queued? && now.stage == Sent(s.now) && (was.status != W.Completed ==> InTime(was.stage, s.now))))
  }

  lemma {:induction false} RowChangeShape(s: State, s': State, t: nat)
    requires Shape(s) && RowChanged(s, s', t)
    ensures Shape(s')
  {
    forall ref | ref in s'.flights ensures FlightShape(s', ref, s'.flights[ref]) {
      assert FlightShape(s, ref, s.flights[ref]);
    }
  }

  lemma {:induction false} RowChangePay(s: State, s': State, t: nat)
    requires Shape(s) && PayInv(s) && RowChanged(s, s', t)
    requires s'.transfers[t].stage != s.transfers[t].stage && s.transfers[t].status != W.Completed ==>
               var k := ReleaseKey(s.transfers[t].contract); k in s.keys && s.keys[k].completedAt == Some(s.now)
    ensures PayInv(s')
  {
    forall u: nat | Live(s', u) ensures Live(s, u) {}
    forall u: nat | Claimant(s', u) ensures Claimant(s, u) {}
    forall u: nat | PaysOut(s', u) ensures PaysOut(s, u) {}
    forall u: nat | Live(s', u)
      ensures ReleaseKey(s'.transfers[u].contract) in s'.keys
      ensures Guards(s'.keys[ReleaseKey(s'.transfers[u].contract)], s'.transfers[u].stage)
    {
      assert Live(s, u);
    }
  }

  lemma {:induction false} RowChangeKeepsInv(s: State, s': State, t: nat)
    requires Inv(s) && RowChanged(s, s', t) && SL.FeesOk(s')
    requires s'.transfers[t].stage != s.transfers[t].stage && s.transfers[t].status != W.Completed ==>
               var k := ReleaseKey(s.transfers[t].contract); k in s.keys && s.keys[k].completedAt == Some(s.now)
    ensures Inv(s')
  {
    RowChangeShape(s, s', t);
    RowChangeNet(s, s', t);
    FundFrame(s, s');
    RowChangePay(s, s', t);
    RefundFrame(s, s');
  }

  lemma {:induction false} OverwriteKeepsInv(s: State, t: nat)
    requires Inv(s)
    ensures Inv(OverwriteMetadataStep(s, t))
  {
    SL.StepKeepsFees(s, OverwriteMetadata(t));
    if t < |s.transfers| && Transfer(t) !in s.flights { RowChangeKeepsInv(s, OverwriteMetadataStep(s, t), t); }
  }

  lemma {:induction false} FailedKeepsInv(s: State, t: nat)
    requires Inv(s) && Good(s, TransferFailed(t))
    ensures Inv(TransferFailedStep(s, t))
  {
    SL.StepKeepsFees(s, TransferFailed(t));
    if t < |s.transfers| && Transfer(t) !in s.flights { RowChangeKeepsInv(s, TransferFailedStep(s, t), t); }
  }

  /** Completing a release lock only makes it stand longer. */
  lemma {:induction false} CompletePay(s: State, s': State, k: Key)
    requires Shape(s) && PayInv(s) && k.ReleaseKey? && k in s.keys
    requires s' == s.(keys := s.keys[k := s.keys[k].(completedAt := Some(s.now))])
    ensures PayInv(s')
  {
    forall t: nat ensures Live(s', t) == Live(s, t) {}
    forall t: nat ensures Claimant(s', t) == Claimant(s, t) {}
    forall t: nat ensures PaysOut(s', t) == PaysOut(s, t) {}
  }

  lemma {:induction false} CompleteKeepsInv(s: State, k: Key)
    requires Inv(s) && k.ReleaseKey? && k in s.keys
    ensures Inv(s.(keys := s.keys[k := s.keys[k].(completedAt := Some(s.now))]))
  {
    var s' := s.(keys := s.keys[k := s.keys[k].(completedAt := Some(s.now))]);
    ShapeFrame(s, s');
    NetFrame(s, s');
    FundFrame(s, s');
    CompletePay(s, s', k);
    RefundFrame(s, s');
  }

  lemma {:induction false} RunPayoutJobKeepsInv(s: State, t: nat)
    requires Inv(s) && Good(s, RunPayoutJob(t))
    ensures Inv(RunPayoutJobStep(s, t))
  {
    var s' := RunPayoutJobStep(s, t);
    SL.StepKeepsFees(s, RunPayoutJob(t));
    if t < |s.transfers| && !s.transfers[t].stage.Dropped? {
      var k := ReleaseKey(s.transfers[t].contract);
      if k in s.keys {
        CompleteKeepsInv(s, k);
      } else {
        assert !Live(s, t);
      }
      if s.transfers[t].stage.Queued? {
        RowChangeKeepsInv(s.(keys := s'.keys), s', t);
      }
    }
  }

  ghost predicate TransferBegun(s: State, s': State, t: nat)
    requires t < |s.transfers| && s.transfers[t].contract < |s.cases|
  {
    var c, row := s.transfers[t].contract, s.transfers[t];
    var k := PaidOutKey(c);
    var flight := s.flights[Transfer(t) := TransferFlight(if row.metaFee.Some? then row.metaFee.value else 0)];
    && SameAmounts(s, s') && |s'.cases| == |s.cases|
    && (forall d :: 0 <= d < |s.cases| && d != c ==> s'.cases[d] == s.cases[d])
    && (|| (k in s.keys && s' == s.(flights := flight))
        || (s' == s.(flights := flight, cases := s'.cases, keys := s'.keys)
            && StatusOf(s, c) in {READY_FOR_PAYOUT, DISPUTED} && StatusOf(s', c) == PAID_OUT
            && s'.keys == s.keys[k := Acquired(s.now).(completedAt := Some(s.now))]))
  }

  lemma {:induction false} TransferBeginEffect(s: State, t: nat)
    requires t < |s.transfers| && s.transfers[t].contract < |s.cases| && Begins(s, TransferBeginStep(s, t), Transfer(t))
    requires var k := PaidOutKey(s.transfers[t].contract); k in s.keys ==> s.keys[k].completedAt.Some?
    ensures s.transfers[t].status != W.Completed && TransferBegun(s, TransferBeginStep(s, t), t)
  {
    MarkCaseEffect(s, s.transfers[t].contract, PaidOutKey(s.transfers[t].contract), PAID_OUT);
  }

  /** A success that is turned away leaves no trace. */
  lemma {:induction false} TransferTurnedAway(s: State, t: nat)
    requires Shape(s) && PayInv(s) && !Begins(s, TransferBeginStep(s, t), Transfer(t))
    ensures TransferBeginStep(s, t) == s
  {
    if t < |s.transfers| && Transfer(t) !in s.flights && s.transfers[t].status != W.Completed {
      var c := s.transfers[t].contract;
      MarkCaseEffect(s, c, PaidOutKey(c), PAID_OUT);
      assert s.keys - {PaidOutKey(c)} == s.keys;
    }
  }

  lemma {:induction false} TransferBegunShape(s: State, s': State, t: nat)
    requires Shape(s) && t < |s.transfers| && s.transfers[t].status != W.Completed && !s.transfers[t].stage.Dropped?
    requires TransferBegun(s, s', t)
    ensures Shape(s')
  {
    forall ref | ref in s'.flights ensures FlightShape(s', ref, s'.flights[ref]) {
      if ref != Transfer(t) { assert FlightShape(s, ref, s.flights[ref]); }
    }
  }

  lemma {:induction false} TransferBegunFund(s: State, s': State, t: nat)
    requires FundInv(s) && Shape(s) && t < |s.transfers| && TransferBegun(s, s', t)
    ensures FundInv(s')
  {
    FundFrame(s, s');
  }

  /** A beginning transfer claims no more than it did before. */
  lemma {:induction false} TransferBegunClaims(s: State, s': State, t: nat)
    requires t < |s.transfers| && s.transfers[t].contract < |s.cases| && Live(s, t) && TransferBegun(s, s', t)
    ensures forall u: nat :: Live(s', u) == Live(s, u)
    ensures forall u: nat :: Claimant(s', u) ==> Claimant(s, u)
    ensures forall u: nat :: PaysOut(s', u) && u != t ==> PaysOut(s, u)
  {
    assert Claimant(s, t);
    forall u: nat ensures Live(s', u) == Live(s, u) {}
    forall u: nat | Claimant(s', u) ensures Claimant(s, u) {}
    forall u: nat | PaysOut(s', u) && u != t ensures PaysOut(s, u) {}
  }

  lemma {:induction false} TransferBegunPay(s: State, s': State, t: nat)
    requires PayInv(s) && Shape(s) && Live(s, t) && TransferBegun(s, s', t)
    ensures PayInv(s')
  {
    TransferBegunClaims(s, s', t);
  }

  lemma {:induction false} TransferBegunDone(s: State, s': State, t: nat)
    requires DoneInv(s) && t < |s.transfers| && s.transfers[t].contract < |s.cases| && TransferBegun(s, s', t)
    requires StatusOf(s, s.transfers[t].contract) == DISPUTED ==> !RefundDone(s, s.transfers[t].contract)
    ensures DoneInv(s')
  {
    forall c: nat ensures RefundDone(s', c) == RefundDone(s, c) {}
  }

  lemma {:induction false} TransferBegunPending(s: State, s': State, t: nat)
    requires PendingInv(s) && t < |s.transfers| && s.transfers[t].contract < |s.cases| && TransferBegun(s, s', t)
    ensures PendingInv(s')
  {
    forall r: nat | Pending(s', r) ensures Pending(s, r) {}
    forall r: nat | r < |s.refunds| ensures RefundStageOk(s', r) { assert RefundStageOk(s, r); }
  }

  lemma {:induction false} TransferBeginKeepsInv(s: State, t: nat)
    requires Inv(s) && Good(s, TransferBegin(t))
    ensures Inv(TransferBeginStep(s, t))
  {
    var s' := TransferBeginStep(s, t);
    SL.StepKeepsFees(s, TransferBegin(t));
    if Begins(s, s', Transfer(t)) {
      assert t < |s.transfers| && s.transfers[t].contract < |s.cases|;
      TransferBeginEffect(s, t);
      TransferBegunShape(s, s', t);
      TransferBegunFund(s, s', t);
      TransferBegunPay(s, s', t);
      TransferBegunDone(s, s', t);
      TransferBegunPending(s, s', t);
      NetFrame(s, s');
    } else {
      TransferTurnedAway(s, t);
    }
  }

  ghost predicate PayoutPosted(s: State, s': State, t: nat, fee: int)
    requires t < |s.transfers|
  {
    var row := s.transfers[t];
    && s' == s.(transfers := s.transfers[t := row.(status := W.Completed, postedFee := fee)], books := s'.books)
    && s'.books.entries == s.books.entries + [PayoutEntry(row, t)] + if fee > 0 then [FeeEntry(row, t, fee)] else []
  }

  lemma {:induction false} PayoutPostedNet(s: State, s': State, t: nat, fee: int)
    requires NetOk(s) && Filed(s) && t < |s.transfers| && s.transfers[t].contract < |s.cases|
    requires s.transfers[t].status != W.Completed && fee >= 0 && PayoutPosted(s, s', t, fee)
    ensures NetOk(s') && Filed(s')
  {
    var row := s.transfers[t];
    var first := s.books.entries + [PayoutEntry(row, t)];
    forall c: nat
      ensures SumSeq(s'.transfers, PaidOn(c)) == SumSeq(s.transfers, PaidOn(c)) + PaidOn(c)(s'.transfers[t])
      ensures InEscrow(s', c) == InEscrow(s, c) - PaidOn(c)(s'.transfers[t])
    {
      SumSeqUpdate(s.transfers, PaidOn(c), t, s'.transfers[t]);
      SumSeqAppend(s.books.entries, EscrowOn(c), PayoutEntry(row, t));
      SumSeqAppend(first, EscrowOn(c), FeeEntry(row, t, fee));
      assert s'.books.entries == if fee > 0 then first + [FeeEntry(row, t, fee)] else first;
    }
  }

  lemma {:induction false} PayoutPostedShape(s: State, s': State, t: nat, fee: int)
    requires Shape(s) && t < |s.transfers| && Transfer(t) !in s.flights && !s.transfers[t].stage.Dropped?
    requires PayoutPosted(s, s', t, fee)
    ensures Shape(s')
  {
    forall ref | ref in s'.flights ensures FlightShape(s', ref, s'.flights[ref]) {
      assert FlightShape(s, ref, s.flights[ref]);
    }
  }

  lemma {:induction false} PayoutPostedPay(s: State, s': State, t: nat, fee: int)
    requires PayInv(s) && t < |s.transfers| && s.transfers[t].contract < |s.cases|
    requires StatusOf(s, s.transfers[t].contract) == PAID_OUT
    requires forall u: nat :: Claimant(s, u) && s.transfers[u].contract == s.transfers[t].contract ==> u == t
    requires PayoutPosted(s, s', t, fee)
    ensures PayInv(s')
  {
    forall u: nat | Live(s', u) ensures Live(s, u) {}
    forall u: nat | Claimant(s', u) && u != t ensures Claimant(s, u) {}
    forall u: nat | PaysOut(s', u) && u != t ensures PaysOut(s, u) {}
  }

  lemma {:induction false} PayoutPostedOthers(s: State, s': State, t: nat, fee: int)
    requires Shape(s) && FundInv(s) && DoneInv(s) && PendingInv(s) && t < |s.transfers| && PayoutPosted(s, s', t, fee)
    ensures FundInv(s') && DoneInv(s') && PendingInv(s')
  {
    FundFrame(s, s');
    RefundFrame(s, s');
  }

  lemma {:induction false} PayoutPostedKeepsInv(s: State, s': State, t: nat, fee: int)
    requires Inv(s) && t < |s.transfers| && Transfer(t) !in s.flights && !s.transfers[t].stage.Dropped? && fee >= 0
    requires s.transfers[t].status != W.Completed && StatusOf(s, s.transfers[t].contract) == PAID_OUT
    requires forall u: nat :: Claimant(s, u) && s.transfers[u].contract == s.transfers[t].contract ==> u == t
    requires PayoutPosted(s, s', t, fee)
    ensures Inv(s')
  {
    PayoutPostedShape(s, s', t, fee);
    PayoutPostedNet(s, s', t, fee);
    PayoutPostedPay(s, s', t, fee);
    PayoutPostedOthers(s, s', t, fee);
  }

  lemma {:induction false} TransferEndEffect(s: State, t: nat)
    requires t < |s.transfers| && Transfer(t) in s.flights && s.flights[Transfer(t)].TransferFlight?
    ensures PayoutPosted(s.(flights := s.flights - {Transfer(t)}), TransferEndStep(s, t, true), t, s.flights[Transfer(t)].postedFee)
  {
  }

  /** A transfer in flight was sent, has its contract to itself and is about to complete. */
  lemma {:induction false} InFlight(s: State, t: nat)
    requires Inv(s) && t < |s.transfers| && Transfer(t) in s.flights && s.flights[Transfer(t)].TransferFlight?
    ensures !s.transfers[t].stage.Dropped? && s.flights[Transfer(t)].postedFee >= 0
    ensures s.transfers[t].status != W.Completed && StatusOf(s, s.transfers[t].contract) == PAID_OUT
    ensures var landed := s.(flights := s.flights - {Transfer(t)});
            forall u: nat :: Claimant(landed, u) && s.transfers[u].contract == s.transfers[t].contract ==> u == t
  {
    assert FlightShape(s, Transfer(t), s.flights[Transfer(t)]);
    assert Claimant(s, t) && PaysOut(s, t);
    forall u: nat | Claimant(s.(flights := s.flights - {Transfer(t)}), u) ensures Claimant(s, u) {}
  }

  lemma {:induction false} TransferEndKeepsInv(s: State, t: nat, commit: bool)
    requires Inv(s)
    ensures Inv(TransferEndStep(s, t, commit))
  {
    if t < |s.transfers| && Transfer(t) in s.flights && s.flights[Transfer(t)].TransferFlight? {
      var landed := s.(flights := s.flights - {Transfer(t)});
      InFlight(s, t);
      LandingKeepsInv(s, Transfer(t));
      if commit {
        TransferEndEffect(s, t);
        PayoutPostedKeepsInv(landed, TransferEndStep(s, t, true), t, s.flights[Transfer(t)].postedFee);
      }
    }
  }
}
