/** Handlers whose outer transaction aborts after the contract was already marked: running them
    again ends where a run that never aborted ends. */
module SettlementRerun {
  import opened Ledger
  import opened Idempotency
  import opened Contracts
  import opened Settlement
  import W = Wallet

  /** One delivery of an event: whether its transaction commits, and the time until the next. */
  datatype Delivery = Delivery(commit: bool, wait: nat)

  function Wait(s: State, ms: nat): State { s.(now := s.now + ms) }

  function TotalWait(ds: seq<Delivery>): nat
  {
    if ds == [] then 0 else TotalWait(ds[..|ds| - 1]) + ds[|ds| - 1].wait
  }

  predicate Commits(ds: seq<Delivery>)
  {
    exists i :: 0 <= i < |ds| && ds[i].commit
  }

  // ----- funding

  /** The whole handler of charge.success, or of the redirect, on one payment. */
  function Fund(s: State, p: nat, kobo: int, about: nat, commit: bool): State
  {
    ChargeEndStep(ChargeBeginStep(s, p, kobo, about), p, commit)
  }

  function FundAll(s: State, p: nat, kobo: int, about: nat, ds: seq<Delivery>): State
  {
    if ds == [] then s
    else Wait(Fund(FundAll(s, p, kobo, about, ds[..|ds| - 1]), p, kobo, about, ds[|ds| - 1].commit), ds[|ds| - 1].wait)
  }

  /** Locks left by mark* methods are completed: nothing stops between acquiring and completing. */
  predicate KeyComplete(s: State, k: Key)
  {
    k in s.keys ==> s.keys[k].completedAt.Some?
  }

  /** A mark that is repeated, at once or later, changes nothing more and answers the same. */
  lemma {:induction false} MarkAgain(s: State, c: nat, k: Key, next: Status, ms: nat)
    requires c < |s.cases| && KeyComplete(s, k) && next !in Targets(next)
    ensures var (marked, ok) := MarkCase(s, c, k, next);
            && MarkCase(Wait(marked, ms), c, k, next) == (Wait(marked, ms), ok)
            && marked == s.(cases := marked.cases, keys := marked.keys)
  {
    var (marked, ok) := MarkCase(s, c, k, next);
    var (again, ok2) := MarkCase(Wait(marked, ms), c, k, next);
    if ok {
      assert k in marked.keys && marked.keys[k].completedAt.Some?;
      assert again.cases == marked.cases;
    } else {
      assert marked.cases == s.cases && again.cases == marked.cases && again.keys == marked.keys;
    }
  }

  lemma {:induction false} FundAfterAbort(s: State, p: nat, kobo: int, about: nat, ms: nat, commit: bool)
    requires Charge(p) !in s.flights && KeyComplete(s, FundedKey(about, p))
    ensures Fund(Wait(Fund(s, p, kobo, about, false), ms), p, kobo, about, commit)
         == Wait(Fund(s, p, kobo, about, commit), ms)
  {
    if p < |s.payments| && about < |s.cases| && !s.payments[p].verified {
      MarkAgain(s, about, FundedKey(about, p), FUNDED, ms);
      var (marked, ok) := MarkCase(s, about, FundedKey(about, p), FUNDED);
      assert Fund(s, p, kobo, about, false).flights == s.flights;
      assert Fund(s, p, kobo, about, false) == marked;
    }
  }

  lemma {:induction false} FundAfterCommit(s: State, p: nat, kobo: int, about: nat, ms: nat, commit: bool)
    requires Charge(p) !in s.flights && KeyComplete(s, FundedKey(about, p))
    ensures Fund(Wait(Fund(s, p, kobo, about, true), ms), p, kobo, about, commit)
         == Wait(Fund(s, p, kobo, about, true), ms)
  {
    var done := Fund(s, p, kobo, about, true);
    if p < |s.payments| && about < |s.cases| && !s.payments[p].verified {
      var (marked, ok) := MarkCase(s, about, FundedKey(about, p), FUNDED);
      if ok {
        assert done.payments[p].verified;
      } else {
        FundAfterAbort(s, p, kobo, about, ms, commit);
        assert done == Fund(s, p, kobo, about, false);
      }
    }
  }

  /** However often the handler runs and however many of its transactions abort, the state is
      that of one run: a committed one if any of them commits. */
  lemma {:induction false} RerunningFunding(s: State, p: nat, kobo: int, about: nat, ds: seq<Delivery>)
    requires ds != [] && Charge(p) !in s.flights && KeyComplete(s, FundedKey(about, p))
    ensures FundAll(s, p, kobo, about, ds) == Wait(Fund(s, p, kobo, about, Commits(ds)), TotalWait(ds))
  {
    var init, last := ds[..|ds| - 1], ds[|ds| - 1];
    if init == [] {
      assert FundAll(s, p, kobo, about, init) == s;
      assert Commits(ds) == last.commit;
    } else {
      RerunningFunding(s, p, kobo, about, init);
      CommitsSnoc(ds);
      var before := Fund(s, p, kobo, about, Commits(init));
      if Commits(init) {
        FundAfterCommit(s, p, kobo, about, TotalWait(init), last.commit);
      } else {
        FundAfterAbort(s, p, kobo, about, TotalWait(init), last.commit);
      }
    }
  }

  /** After an abort, running again posts the charge iff the mark's lock row is still there.
      purgeExpired deletes it seven days later; then the contract can no longer be marked. */
  lemma {:induction false} RerunPostsIffLockIsKept(s: State, p: nat, kobo: int, keys: map<Key, Lock>, now: int)
    requires p < |s.payments| && !s.payments[p].verified && Charge(p) !in s.flights
    requires var about := s.payments[p].contract;
             about < |s.cases| && s.cases[about].contract.status == PENDING_PAYMENT
             && Available(Lookup(s.keys, FundedKey(about, p)), s.now)
             && (FundedKey(about, p) in keys ==> keys[FundedKey(about, p)].completedAt.Some?)
    ensures var about := s.payments[p].contract;
            var later := Fund(s, p, kobo, about, false).(keys := keys, now := now);
            Fund(later, p, kobo, about, true).payments[p].verified <==> FundedKey(about, p) in keys
  {}

  // ----- payout

  /** The whole handler of transfer.success. */
  function Pay(s: State, t: nat, commit: bool): State
  {
    TransferEndStep(TransferBeginStep(s, t), t, commit)
  }

  function PayAll(s: State, t: nat, ds: seq<Delivery>): State
  {
    if ds == [] then s else Wait(Pay(PayAll(s, t, ds[..|ds| - 1]), t, ds[|ds| - 1].commit), ds[|ds| - 1].wait)
  }

  predicate PayReady(s: State, t: nat)
  {
    Transfer(t) !in s.flights && (t < |s.transfers| ==> KeyComplete(s, PaidOutKey(s.transfers[t].contract)))
  }

  lemma {:induction false} PayAfterAbort(s: State, t: nat, ms: nat, commit: bool)
    requires PayReady(s, t)
    ensures Pay(Wait(Pay(s, t, false), ms), t, commit) == Wait(Pay(s, t, commit), ms)
  {
    if t < |s.transfers| && s.transfers[t].status != W.Completed && s.transfers[t].contract < |s.cases| {
      var c := s.transfers[t].contract;
      MarkAgain(s, c, PaidOutKey(c), PAID_OUT, ms);
      var (marked, ok) := MarkCase(s, c, PaidOutKey(c), PAID_OUT);
      assert Pay(s, t, false).flights == s.flights;
      assert Pay(s, t, false) == marked;
    }
  }

  lemma {:induction false} PayAfterCommit(s: State, t: nat, ms: nat, commit: bool)
    requires PayReady(s, t)
    ensures Pay(Wait(Pay(s, t, true), ms), t, commit) == Wait(Pay(s, t, true), ms)
  {
    var done := Pay(s, t, true);
    if t < |s.transfers| && s.transfers[t].status != W.Completed && s.transfers[t].contract < |s.cases| {
      var c := s.transfers[t].contract;
      var (marked, ok) := MarkCase(s, c, PaidOutKey(c), PAID_OUT);
      if ok {
        assert done.transfers[t].status == W.Completed;
      } else {
        PayAfterAbort(s, t, ms, commit);
        assert done == Pay(s, t, false);
      }
    }
  }

  lemma {:induction false} CommitsSnoc(ds: seq<Delivery>)
    requires ds != []
    ensures Commits(ds) == (Commits(ds[..|ds| - 1]) || ds[|ds| - 1].commit)
  {
    var init, last := ds[..|ds| - 1], ds[|ds| - 1];
    if i :| 0 <= i < |init| && init[i].commit { assert ds[i].commit; }
    if last.commit { assert ds[|ds| - 1].commit; }
    if i :| 0 <= i < |ds| && ds[i].commit && i < |init| { assert init[i].commit; }
  }

  /** The same for a payout confirmation. */
  lemma {:induction false} RerunningPayout(s: State, t: nat, ds: seq<Delivery>)
    requires ds != [] && PayReady(s, t)
    ensures PayAll(s, t, ds) == Wait(Pay(s, t, Commits(ds)), TotalWait(ds))
  {
    var init, last := ds[..|ds| - 1], ds[|ds| - 1];
    if init == [] {
      assert PayAll(s, t, init) == s;
      assert Commits(ds) == last.commit;
    } else {
      RerunningPayout(s, t, init);
      CommitsSnoc(ds);
      if Commits(init) {
        PayAfterCommit(s, t, TotalWait(init), last.commit);
      } else {
        PayAfterAbort(s, t, TotalWait(init), last.commit);
      }
    }
  }
}
