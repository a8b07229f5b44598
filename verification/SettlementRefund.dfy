/** Refund steps keep the settlement invariants: the refund lock lets one refund of a contract
    through at a time. */
module SettlementRefund {
  import opened Prelude
  import opened Idempotency
  import opened Contracts
  import opened Settlement
  import opened SettlementRules
  import opened SettlementFrames
  import SL = SettlementLedger

  // ----- requests

  lemma {:induction false} NewRefundNet(s: State, row: RefundRow)
    requires NetOk(s) && Filed(s) && !row.completed
    ensures NetOk(s.(refunds := s.refunds + [row])) && Filed(s.(refunds := s.refunds + [row]))
  {
    var s' := s.(refunds := s.refunds + [row]);
    forall c: nat, amount: int
      ensures SumSeq(s'.refunds, RefundedOn(c, amount)) == SumSeq(s.refunds, RefundedOn(c, amount))
    {
      SumSeqAppend(s.refunds, RefundedOn(c, amount), row);
    }
  }

  lemma {:induction false} NewRefundShape(s: State, row: RefundRow)
    requires Shape(s) && row.payment < |s.payments| && row.contract == s.payments[row.payment].contract
    ensures Shape(s.(refunds := s.refunds + [row]))
  {
    var s' := s.(refunds := s.refunds + [row]);
    forall ref | ref in s'.flights ensures FlightShape(s', ref, s'.flights[ref]) {
      assert FlightShape(s, ref, s.flights[ref]);
    }
  }

  lemma {:induction false} RefundDoneAppend(s: State, row: RefundRow, c: nat)
    requires !row.completed
    ensures RefundDone(s.(refunds := s.refunds + [row]), c) == RefundDone(s, c)
  {
    var s' := s.(refunds := s.refunds + [row]);
    if RefundDone(s, c) {
      var r :| 0 <= r < |s.refunds| && s.refunds[r].contract == c && s.refunds[r].completed;
      assert s'.refunds[r] == s.refunds[r];
    }
  }

  lemma {:induction false} NewRefundDone(s: State, row: RefundRow)
    requires DoneInv(s) && !row.completed
    ensures DoneInv(s.(refunds := s.refunds + [row]))
  {
    forall c: nat ensures RefundDone(s.(refunds := s.refunds + [row]), c) == RefundDone(s, c) {
      RefundDoneAppend(s, row, c);
    }
  }

  /** While the refund lock of a contract is to be had, no refund of it is pending. */
  lemma {:induction false} NonePendingWhenAvailable(s: State, c: nat, r: nat)
    requires PendingInv(s) && Pending(s, r) && Available(Lookup(s.keys, RefundKey(c)), s.now)
    ensures s.refunds[r].contract != c
  {
    assert RefundStageOk(s, r);
  }

  /** Only the refund lock of `c` differs. */
  ghost predicate OtherLocksKept(s: State, s': State, c: nat)
  {
    && s' == s.(keys := s'.keys)
    && (forall k :: k != RefundKey(c) ==> (k in s'.keys <==> k in s.keys))
    && (forall k :: k != RefundKey(c) && k in s.keys ==> s'.keys[k] == s.keys[k])
  }

  lemma {:induction false} LockingKeepsPending(s: State, s': State, c: nat)
    requires PendingInv(s) && Available(Lookup(s.keys, RefundKey(c)), s.now) && OtherLocksKept(s, s', c)
    ensures PendingInv(s')
    ensures forall r: nat :: Pending(s', r) ==> s.refunds[r].contract != c
  {
    forall r: nat ensures Pending(s', r) == Pending(s, r) {}
    forall r: nat | Pending(s, r) ensures s.refunds[r].contract != c { NonePendingWhenAvailable(s, c, r); }
    forall r: nat | r < |s.refunds| ensures RefundStageOk(s', r) { assert RefundStageOk(s, r); }
  }

  lemma {:induction false} NewRefundPending(s: State, row: RefundRow)
    requires PendingInv(s) && !row.completed && row.stage in {Dropped, Queued(s.now)}
    requires forall r: nat :: Pending(s, r) ==> s.refunds[r].contract != row.contract
    requires row.stage.Queued? ==>
               RefundKey(row.contract) in s.keys && Guards(s.keys[RefundKey(row.contract)], row.stage)
    ensures PendingInv(s.(refunds := s.refunds + [row]))
  {
    var s', n := s.(refunds := s.refunds + [row]), |s.refunds|;
    forall r: nat | r != n ensures Pending(s', r) == Pending(s, r) {}
    forall r: nat | r < |s'.refunds| ensures RefundStageOk(s', r) {
      if r < n { assert RefundStageOk(s, r); }
    }
  }

  lemma {:induction false} LockingKeepsInv(s: State, s': State, c: nat)
    requires Inv(s) && Available(Lookup(s.keys, RefundKey(c)), s.now) && OtherLocksKept(s, s', c)
    ensures Inv(s')
    ensures forall r: nat :: Pending(s', r) ==> s.refunds[r].contract != c
  {
    ShapeFrame(s, s');
    NetFrame(s, s');
    FundFrame(s, s');
    PayFrame(s, s');
    ClockKeepsDone(s, s');
    LockingKeepsPending(s, s', c);
  }

  lemma {:induction false} NewRefundKeepsInv(s: State, row: RefundRow)
    requires Inv(s) && row.payment < |s.payments| && row.contract == s.payments[row.payment].contract
    requires !row.completed && row.stage in {Dropped, Queued(s.now)}
    requires forall r: nat :: Pending(s, r) ==> s.refunds[r].contract != row.contract
    requires row.stage.Queued? ==>
               RefundKey(row.contract) in s.keys && Guards(s.keys[RefundKey(row.contract)], row.stage)
    ensures Inv(s.(refunds := s.refunds + [row]))
  {
    var s' := s.(refunds := s.refunds + [row]);
    NewRefundNet(s, row);
    NewRefundShape(s, row);
    FundFrame(s, s');
    PayFrameSameTransfers(s, s');
    NewRefundDone(s, row);
    NewRefundPending(s, row);
  }

  /** What a refund request does once past its guards. */
  lemma {:induction false} RequestEffect(s: State, p: nat, admin: bool, enqueued: bool)
    requires p < |s.payments| && s.payments[p].verified && s.payments[p].contract < |s.cases|
    requires MayRequestRefund(StatusOf(s, s.payments[p].contract), admin)
    requires Available(Lookup(s.keys, RefundKey(s.payments[p].contract)), s.now)
    ensures var s', c := RequestRefundStep(s, p, admin, enqueued), s.payments[p].contract;
            var row := RefundRow(c, p, admin, false, if enqueued then Queued(s.now) else Dropped);
            && s' == s.(keys := s'.keys, refunds := s.refunds + [row])
            && OtherLocksKept(s, s.(keys := s'.keys), c)
            && (enqueued ==> RefundKey(c) in s'.keys && Guards(s'.keys[RefundKey(c)], row.stage))
  {
  }

  lemma {:induction false} RequestRefundKeepsInv(s: State, p: nat, admin: bool, enqueued: bool)
    requires Inv(s)
    ensures Inv(RequestRefundStep(s, p, admin, enqueued))
  {
    var s' := RequestRefundStep(s, p, admin, enqueued);
    if s' != s {
      var c := s.payments[p].contract;
      RequestEffect(s, p, admin, enqueued);
      LockingKeepsInv(s, s.(keys := s'.keys), c);
      NewRefundKeepsInv(s.(keys := s'.keys), RefundRow(c, p, admin, false, if enqueued then Queued(s.now) else Dropped));
    }
  }

  // ----- jobs

  /** Completing a refund lock only makes it stand longer. */
  lemma {:induction false} CompletingKeepsPending(s: State, k: Key)
    requires PendingInv(s) && k.RefundKey? && k in s.keys
    ensures PendingInv(s.(keys := s.keys[k := s.keys[k].(completedAt := Some(s.now))]))
  {
    var s' := s.(keys := s.keys[k := s.keys[k].(completedAt := Some(s.now))]);
    forall r: nat ensures Pending(s', r) == Pending(s, r) {}
    forall r: nat | Pending(s, r)
      ensures RefundKey(s.refunds[r].contract) in s'.keys
      ensures Guards(s'.keys[RefundKey(s.refunds[r].contract)], s.refunds[r].stage)
    {
      assert RefundStageOk(s, r);
    }
    forall r: nat | r < |s.refunds| ensures RefundStageOk(s', r) { assert RefundStageOk(s, r); }
  }

  lemma {:induction false} CompletingKeepsInv(s: State, k: Key)
    requires Inv(s) && k.RefundKey? && k in s.keys
    ensures Inv(s.(keys := s.keys[k := s.keys[k].(completedAt := Some(s.now))]))
  {
    var s' := s.(keys := s.keys[k := s.keys[k].(completedAt := Some(s.now))]);
    ShapeFrame(s, s');
    NetFrame(s, s');
    FundFrame(s, s');
    PayFrame(s, s');
    ClockKeepsDone(s, s');
    CompletingKeepsPending(s, k);
  }

  function SentNow(s: State, r: nat): State
    requires r < |s.refunds|
  {
    s.(refunds := s.refunds[r := s.refunds[r].(stage := Sent(s.now))])
  }

  lemma {:induction false} SendingNet(s: State, r: nat)
    requires NetOk(s) && Filed(s) && r < |s.refunds|
    ensures NetOk(SentNow(s, r)) && Filed(SentNow(s, r))
  {
    forall c: nat, amount: int
      ensures SumSeq(SentNow(s, r).refunds, RefundedOn(c, amount)) == SumSeq(s.refunds, RefundedOn(c, amount))
    {
      SumSeqUpdate(s.refunds, RefundedOn(c, amount), r, SentNow(s, r).refunds[r]);
    }
  }

  lemma {:induction false} SendingDone(s: State, r: nat)
    requires DoneInv(s) && r < |s.refunds|
    ensures DoneInv(SentNow(s, r))
  {
    var s' := SentNow(s, r);
    forall c: nat ensures RefundDone(s', c) == RefundDone(s, c) {
      if q :| 0 <= q < |s.refunds| && s.refunds[q].contract == c && s.refunds[q].completed {
        assert s'.refunds[q].contract == c && s'.refunds[q].completed;
      }
    }
  }

  predicate InTimeOrSettled(s: State, r: nat)
    requires r < |s.refunds|
  {
    var row := s.refunds[r];
    row.contract < |s.cases| && StatusOf(s, row.contract) !in {PAID_OUT, REFUNDED} ==> InTime(row.stage, s.now)
  }

  lemma {:induction false} SendingPending(s: State, r: nat)
    requires PendingInv(s) && r < |s.refunds| && s.refunds[r].stage.Queued? && InTimeOrSettled(s, r)
    requires Pending(s, r) ==>
               var k := RefundKey(s.refunds[r].contract); k in s.keys && s.keys[k].completedAt == Some(s.now)
    ensures PendingInv(SentNow(s, r))
  {
    var s' := SentNow(s, r);
    forall q: nat ensures Pending(s', q) == Pending(s, q) {}
    forall q: nat | q < |s.refunds| ensures RefundStageOk(s', q) { assert RefundStageOk(s, q); }
  }

  lemma {:induction false} SendingShape(s: State, r: nat)
    requires Shape(s) && r < |s.refunds|
    ensures Shape(SentNow(s, r))
  {
    forall ref | ref in s.flights ensures FlightShape(SentNow(s, r), ref, s.flights[ref]) {
      assert FlightShape(s, ref, s.flights[ref]);
    }
  }

  lemma {:induction false} SendingKeepsInv(s: State, r: nat)
    requires Inv(s) && r < |s.refunds| && s.refunds[r].stage.Queued? && InTimeOrSettled(s, r)
    requires Pending(s, r) ==>
               var k := RefundKey(s.refunds[r].contract); k in s.keys && s.keys[k].completedAt == Some(s.now)
    ensures Inv(SentNow(s, r))
  {
    var s' := SentNow(s, r);
    SendingShape(s, r);
    SendingNet(s, r);
    FundFrame(s, s');
    PayFrameSameTransfers(s, s');
    SendingDone(s, r);
    SendingPending(s, r);
  }

  function JobDone(s: State, r: nat): State
    requires r < |s.refunds| && s.refunds[r].contract < |s.cases|
  {
    var k := RefundKey(s.refunds[r].contract);
    if k in s.keys && RefundJobFinishes(StatusOf(s, s.refunds[r].contract), s.refunds[r].admin)
    then s.(keys := s.keys[k := s.keys[k].(completedAt := Some(s.now))]) else s
  }

  lemma {:induction false} RunRefundJobEffect(s: State, r: nat)
    requires r < |s.refunds| && !s.refunds[r].stage.Dropped? && s.refunds[r].contract < |s.cases|
    ensures RunRefundJobStep(s, r) == if s.refunds[r].stage.Queued? then SentNow(JobDone(s, r), r) else JobDone(s, r)
  {
  }

  lemma {:induction false} JobDoneKeepsInv(s: State, r: nat)
    requires Inv(s) && r < |s.refunds| && s.refunds[r].contract < |s.cases|
    ensures Inv(JobDone(s, r))
  {
    if JobDone(s, r) != s { CompletingKeepsInv(s, RefundKey(s.refunds[r].contract)); }
  }

  /** The job of a pending refund completes its lock; a late one belongs to a settled contract. */
  lemma {:induction false} PendingJobFinishes(s: State, r: nat)
    requires PendingInv(s) && Good(s, RunRefundJob(r))
    requires r < |s.refunds| && s.refunds[r].stage.Queued? && s.refunds[r].contract < |s.cases|
    ensures InTimeOrSettled(JobDone(s, r), r) && JobDone(s, r).refunds == s.refunds && JobDone(s, r).now == s.now
    ensures Pending(JobDone(s, r), r) ==>
              var k := RefundKey(s.refunds[r].contract);
              k in JobDone(s, r).keys && JobDone(s, r).keys[k].completedAt == Some(s.now)
  {
    assert Pending(JobDone(s, r), r) == Pending(s, r);
  }

  lemma {:induction false} RunRefundJobKeepsInv(s: State, r: nat)
    requires Inv(s) && Good(s, RunRefundJob(r))
    ensures Inv(RunRefundJobStep(s, r))
  {
    if r < |s.refunds| && !s.refunds[r].stage.Dropped? && s.refunds[r].contract < |s.cases| {
      RunRefundJobEffect(s, r);
      JobDoneKeepsInv(s, r);
      if s.refunds[r].stage.Queued? {
        PendingJobFinishes(s, r);
        SendingKeepsInv(JobDone(s, r), r);
      }
    }
  }

  // ----- postings

  ghost predicate RefundPosted(s: State, s': State, r: nat)
    requires r < |s.refunds| && s.refunds[r].payment < |s.payments|
  {
    var p := s.refunds[r].payment;
    && s' == s.(refunds := s.refunds[r := s.refunds[r].(completed := true)], books := s'.books)
    && s'.books.entries == s.books.entries + [RefundEntry(s.payments[p], p)]
  }

  lemma {:induction false} UnmarkedIsPending(s: State, r: nat, q: nat)
    requires PendingInv(s) && Pending(s, r) && q < |s.refunds| && Unmarked(s, q)
    requires s.refunds[q].contract == s.refunds[r].contract
    ensures q == r
  {
    assert RefundStageOk(s, q);
    assert Pending(s, q);
  }

  /** One refund at a time: when a refund may be posted, its contract has no other posted one. */
  lemma {:induction false} PostableOnce(s: State, r: nat)
    requires PendingInv(s) && Pending(s, r) && !s.refunds[r].completed
    requires StatusOf(s, s.refunds[r].contract) == DISPUTED
    ensures !RefundDone(s, s.refunds[r].contract)
  {
    var c := s.refunds[r].contract;
    if RefundDone(s, c) {
      var q :| 0 <= q < |s.refunds| && s.refunds[q].contract == c && s.refunds[q].completed;
      UnmarkedIsPending(s, r, q);
    }
  }

  lemma {:induction false} RefundPostedNet(s: State, s': State, r: nat)
    requires NetOk(s) && Filed(s) && Shape(s) && r < |s.refunds| && !s.refunds[r].completed
    requires RefundPosted(s, s', r)
    ensures NetOk(s') && Filed(s')
  {
    var p := s.refunds[r].payment;
    forall c: nat, amount: int
      ensures SumSeq(s'.refunds, RefundedOn(c, amount))
           == SumSeq(s.refunds, RefundedOn(c, amount)) + RefundedOn(c, amount)(s'.refunds[r])
      ensures InEscrow(s', c) == InEscrow(s, c) + EscrowOn(c)(RefundEntry(s.payments[p], p))
    {
      SumSeqUpdate(s.refunds, RefundedOn(c, amount), r, s'.refunds[r]);
      SumSeqAppend(s.books.entries, EscrowOn(c), RefundEntry(s.payments[p], p));
    }
  }

  lemma {:induction false} RefundPostedShape(s: State, s': State, r: nat)
    requires Shape(s) && r < |s.refunds| && RefundPosted(s, s', r)
    ensures Shape(s')
  {
    forall ref | ref in s'.flights ensures FlightShape(s', ref, s'.flights[ref]) {
      assert FlightShape(s, ref, s.flights[ref]);
    }
  }

  lemma {:induction false} RefundPostedDone(s: State, s': State, r: nat)
    requires Shape(s) && DoneInv(s) && r < |s.refunds| && RefundPosted(s, s', r)
    requires StatusOf(s, s.refunds[r].contract) == DISPUTED && !RefundDone(s, s.refunds[r].contract)
    ensures DoneInv(s')
  {
    var c := s.refunds[r].contract;
    forall d: nat | d != c ensures RefundDone(s', d) == RefundDone(s, d) {
      if RefundDone(s, d) {
        var q :| 0 <= q < |s.refunds| && s.refunds[q].contract == d && s.refunds[q].completed;
        assert s'.refunds[q] == s.refunds[q];
      }
    }
    assert s'.refunds[r].contract == c && s'.refunds[r].completed;
  }

  lemma {:induction false} RefundPostedPending(s: State, s': State, r: nat)
    requires PendingInv(s) && Pending(s, r)
    requires s.refunds[r].payment < |s.payments| && RefundPosted(s, s', r)
    ensures PendingInv(s')
  {
    forall q: nat ensures Pending(s', q) == Pending(s, q) {}
    forall q: nat | q < |s.refunds| ensures RefundStageOk(s', q) { assert RefundStageOk(s, q); }
  }

  lemma {:induction false} RefundPostKeepsInv(s: State, p: nat)
    requires Inv(s) && Good(s, RefundPost(p))
    ensures Inv(RefundPostStep(s, p))
  {
    var s' := RefundPostStep(s, p);
    if RefundPosts(s, p) {
      var r := LatestRefund(s.refunds, p).value;
      PostableOnce(s, r);
      RefundPostedShape(s, s', r);
      RefundPostedNet(s, s', r);
      FundFrame(s, s');
      PayFrameSameTransfers(s, s');
      RefundPostedDone(s, s', r);
      RefundPostedPending(s, s', r);
    }
  }

  // ----- marks

  ghost predicate MarkedRefunded(s: State, s': State, c: nat)
    requires c < |s.cases|
  {
    && SameAmounts(s, s') && |s'.cases| == |s.cases| && s' == s.(cases := s'.cases, keys := s'.keys)
    && (forall d :: 0 <= d < |s.cases| && d != c ==> s'.cases[d] == s.cases[d])
    && (StatusOf(s', c) == StatusOf(s, c) || (StatusOf(s, c) == DISPUTED && StatusOf(s', c) == REFUNDED))
    && (forall k :: k != RefundedKey(c) ==> (k in s'.keys <==> k in s.keys))
    && (forall k :: k != RefundedKey(c) && k in s.keys ==> s'.keys[k] == s.keys[k])
  }

  lemma {:induction false} RefundMarkEffect(s: State, c: nat)
    requires c < |s.cases|
    ensures MarkedRefunded(s, MarkCase(s, c, RefundedKey(c), REFUNDED).0, c)
  {
    MarkCaseEffect(s, c, RefundedKey(c), REFUNDED);
  }

  lemma {:induction false} MarkedRefundedKeepsMoney(s: State, s': State, c: nat)
    requires FundInv(s) && PayInv(s) && Shape(s) && c < |s.cases| && MarkedRefunded(s, s', c)
    ensures FundInv(s') && PayInv(s')
  {
    FundFrame(s, s');
    PayFrame(s, s');
  }

  lemma {:induction false} MarkedRefundedDone(s: State, s': State, c: nat)
    requires DoneInv(s) && c < |s.cases| && MarkedRefunded(s, s', c) && (StatusOf(s, c) == DISPUTED ==> RefundDone(s, c))
    ensures DoneInv(s')
  {
    forall d: nat ensures RefundDone(s', d) == RefundDone(s, d) {}
  }

  lemma {:induction false} MarkedRefundedPending(s: State, s': State, c: nat)
    requires PendingInv(s) && c < |s.cases| && MarkedRefunded(s, s', c)
    ensures PendingInv(s')
  {
    forall r: nat | Pending(s', r) ensures Pending(s, r) {}
    forall r: nat | r < |s.refunds| ensures RefundStageOk(s', r) { assert RefundStageOk(s, r); }
  }

  lemma {:induction false} MarkedRefundedRows(s: State, s': State, c: nat)
    requires Shape(s) && Filed(s) && NetOk(s) && SL.FeesOk(s) && c < |s.cases| && MarkedRefunded(s, s', c)
    ensures Shape(s') && Filed(s') && NetOk(s') && SL.FeesOk(s')
  {
    ShapeFrame(s, s');
    NetFrame(s, s');
  }

  lemma {:induction false} RefundMarkKeepsInv(s: State, p: nat)
    requires Inv(s) && Good(s, RefundMark(p))
    ensures Inv(RefundMarkStep(s, p))
  {
    if p < |s.payments| {
      var s', c := RefundMarkStep(s, p), s.payments[p].contract;
      RefundMarkEffect(s, c);
      MarkedRefundedRows(s, s', c);
      MarkedRefundedKeepsMoney(s, s', c);
      MarkedRefundedDone(s, s', c);
      MarkedRefundedPending(s, s', c);
    }
  }
}
