/** A handler whose transaction aborted after the mark, run again any number of times while anything
    else may happen in between: other payments, payouts, refunds, contract steps, purges and time. */
module SettlementRetry {
  import opened Prelude
  import opened Ledger
  import opened Idempotency
  import opened Contracts
  import opened Settlement
  import opened SettlementRules
  import opened SettlementFrames
  import opened SettlementRerun
  import S = Settlement
  import W = Wallet

  function After(s: State, es: seq<S.Event>): State
  {
    if es == [] then s else S.Next(After(s, es[..|es| - 1]), es[|es| - 1])
  }

  /** A completed lock row stays as it is until a purge removes it, a week later at the earliest. */
  ghost predicate LockStays(s: State, s': State, k: Key)
  {
    && s.now <= s'.now
    && (k in s'.keys ==> k in s.keys && s'.keys[k] == s.keys[k])
    && (k in s.keys && s.keys[k].completedAt.Some? && s'.now <= s.keys[k].completedAt.value + WEEK ==> k in s'.keys)
  }

  predicate Plain(e: S.Event)
  {
    e.CreateContract? || e.InitializePayment? || e.WalletStep? || e.Purge? || e.Tick?
  }

  predicate Moves(e: S.Event)
  {
    e.ContractStep? || e.MovedByOthers?
  }

  predicate Charges(e: S.Event)
  {
    e.ChargeBegin? || e.ChargeEnd?
  }

  predicate Pays(e: S.Event)
  {
    e.OverwriteMetadata? || e.RunPayoutJob? || e.TransferFailed?
  }

  predicate Confirms(e: S.Event)
  {
    e.TransferBegin? || e.TransferEnd?
  }

  // ----- funding

  /** Out of reach of another funding. */
  predicate PastStart(status: Status)
  {
    status !in {DRAFT, PAYMENT_FAILED, PENDING_PAYMENT}
  }

  lemma {:induction false} NoWayBack(status: Status)
    ensures PastStart(status) ==> FUNDED !in Targets(status) && forall next :: next in Targets(status) ==> PastStart(next)
  {
  }

  predicate LeavesCharge(e: S.Event, p: nat)
  {
    Charges(e) ==> e.payment != p
  }

  /** Payment `p` of contract `c` was marked, and its own transaction is not at work. */
  ghost predicate MarkedCharge(s: State, c: nat, p: nat)
  {
    && p < |s.payments| && c < |s.cases| && PastStart(StatusOf(s, c)) && Charge(p) !in s.flights
    && KeyComplete(s, FundedKey(c, p))
  }

  ghost predicate ChargeStays(s: State, s': State, c: nat, p: nat)
  {
    MarkedCharge(s', c, p) && p < |s.payments| && s'.payments[p] == s.payments[p] && LockStays(s, s', FundedKey(c, p))
  }

  lemma {:induction false} PlainLeavesCharge(s: State, e: S.Event, c: nat, p: nat)
    requires MarkedCharge(s, c, p) && Plain(e)
    ensures ChargeStays(s, S.Next(s, e), c, p)
  {
    NoWayBack(StatusOf(s, c));
  }

  lemma {:induction false} MovesLeaveCharge(s: State, e: S.Event, c: nat, p: nat)
    requires MarkedCharge(s, c, p) && Moves(e)
    ensures ChargeStays(s, S.Next(s, e), c, p)
  {
    NoWayBack(StatusOf(s, c));
  }

  lemma {:induction false} ChargesLeaveCharge(s: State, e: S.Event, c: nat, p: nat)
    requires MarkedCharge(s, c, p) && Charges(e) && e.payment != p
    ensures ChargeStays(s, S.Next(s, e), c, p)
  {
    NoWayBack(StatusOf(s, c));
    if e.ChargeBegin? && e.about < |s.cases| { MarkCaseEffect(s, e.about, FundedKey(e.about, e.payment), FUNDED); }
  }

  lemma {:induction false} InitiationLeavesCharge(s: State, d: nat, admin: bool, percent: int, per: Positive,
    outcome: Initiation, c: nat, p: nat)
    requires MarkedCharge(s, c, p)
    ensures ChargeStays(s, InitiatePayoutStep(s, d, admin, percent, per, outcome), c, p)
  {
  }

  lemma {:induction false} PaysLeaveCharge(s: State, e: S.Event, c: nat, p: nat)
    requires MarkedCharge(s, c, p) && Pays(e)
    ensures ChargeStays(s, S.Next(s, e), c, p)
  {
  }

  lemma {:induction false} ConfirmsLeaveCharge(s: State, e: S.Event, c: nat, p: nat)
    requires MarkedCharge(s, c, p) && Confirms(e)
    ensures ChargeStays(s, S.Next(s, e), c, p)
  {
    NoWayBack(StatusOf(s, c));
    if e.TransferBegin? && e.transfer < |s.transfers| && s.transfers[e.transfer].contract < |s.cases| {
      MarkCaseEffect(s, s.transfers[e.transfer].contract, PaidOutKey(s.transfers[e.transfer].contract), PAID_OUT);
    }
  }

  lemma {:induction false} RefundsLeaveCharge(s: State, e: S.Event, c: nat, p: nat)
    requires MarkedCharge(s, c, p) && (e.RequestRefund? || e.RunRefundJob? || e.RefundPost?)
    ensures ChargeStays(s, S.Next(s, e), c, p)
  {
  }

  lemma {:induction false} RefundMarkLeavesCharge(s: State, q: nat, c: nat, p: nat)
    requires MarkedCharge(s, c, p)
    ensures ChargeStays(s, RefundMarkStep(s, q), c, p)
  {
    NoWayBack(StatusOf(s, c));
    if q < |s.payments| && s.payments[q].contract < |s.cases| {
      MarkCaseEffect(s, s.payments[q].contract, RefundedKey(s.payments[q].contract), REFUNDED);
    }
  }

  lemma {:induction false} StepLeavesCharge(s: State, e: S.Event, c: nat, p: nat)
    requires MarkedCharge(s, c, p) && LeavesCharge(e, p)
    ensures ChargeStays(s, S.Next(s, e), c, p)
  {
    if Plain(e) {
      PlainLeavesCharge(s, e, c, p);
    } else if Moves(e) {
      MovesLeaveCharge(s, e, c, p);
    } else if Charges(e) {
      ChargesLeaveCharge(s, e, c, p);
    } else if e.InitiatePayout? {
      InitiationLeavesCharge(s, e.contract, e.admin, e.percent, e.per, e.outcome, c, p);
    } else if Pays(e) {
      PaysLeaveCharge(s, e, c, p);
    } else if Confirms(e) {
      ConfirmsLeaveCharge(s, e, c, p);
    } else if e.RefundMark? {
      RefundMarkLeavesCharge(s, e.payment, c, p);
    } else {
      RefundsLeaveCharge(s, e, c, p);
    }
  }

  lemma {:induction false} RunLeavesCharge(s: State, es: seq<S.Event>, c: nat, p: nat)
    requires MarkedCharge(s, c, p) && forall i :: 0 <= i < |es| ==> LeavesCharge(es[i], p)
    ensures ChargeStays(s, After(s, es), c, p)
  {
    if es != [] {
      RunLeavesCharge(s, es[..|es| - 1], c, p);
      StepLeavesCharge(After(s, es[..|es| - 1]), es[|es| - 1], c, p);
    }
  }

  /** The state after a charge is recorded for a contract that is marked already. */
  function Charged(s: State, p: nat, naira: int): State
    requires p < |s.payments|
  {
    var pay := s.payments[p];
    if pay.txExists then s.(payments := s.payments[p := pay.(verified := true)])
    else
      s.(payments := s.payments[p := pay.(verified := true, txExists := true, paid := naira)],
         books := Post(EnsureWallet(s.books, pay.user), ChargeEntry(pay, p, pay.contract, naira)))
  }

  lemma {:induction false} FundMarked(s: State, p: nat, kobo: int, c: nat, commit: bool)
    requires MarkedCharge(s, c, p) && !s.payments[p].verified && c == s.payments[p].contract
    ensures Fund(s, p, kobo, c, commit) == if commit && FundedKey(c, p) in s.keys then Charged(s, p, W.Naira(kobo)) else s
  {
    NoWayBack(StatusOf(s, c));
    MarkCaseEffect(s, c, FundedKey(c, p), FUNDED);
    if FundedKey(c, p) in s.keys {
      assert (s.flights[Charge(p) := ChargeFlight(c, W.Naira(kobo))]) - {Charge(p)} == s.flights;
    } else {
      assert s.keys - {FundedKey(c, p)} == s.keys;
    }
  }

  lemma {:induction false} AbortMarksCharge(s: State, p: nat, kobo: int)
    requires p < |s.payments| && !s.payments[p].verified && Charge(p) !in s.flights
    requires var c := s.payments[p].contract;
             c < |s.cases| && StatusOf(s, c) == PENDING_PAYMENT && Available(Lookup(s.keys, FundedKey(c, p)), s.now)
    ensures var c := s.payments[p].contract;
            var aborted := Fund(s, p, kobo, c, false);
            && MarkedCharge(aborted, c, p) && aborted.now == s.now && aborted.payments == s.payments
            && FundedKey(c, p) in aborted.keys && aborted.keys[FundedKey(c, p)].completedAt == Some(s.now)
  {
    var c := s.payments[p].contract;
    MarkCaseEffect(s, c, FundedKey(c, p), FUNDED);
  }

  /** Aborted deliveries of the charge, each followed by other events. */
  function AbortedFundings(s: State, p: nat, kobo: int, c: nat, gaps: seq<seq<S.Event>>): State
  {
    if gaps == [] then s
    else After(Fund(AbortedFundings(s, p, kobo, c, gaps[..|gaps| - 1]), p, kobo, c, false), gaps[|gaps| - 1])
  }

  predicate AllLeaveCharge(gaps: seq<seq<S.Event>>, p: nat)
  {
    forall i, j :: 0 <= i < |gaps| && 0 <= j < |gaps[i]| ==> LeavesCharge(gaps[i][j], p)
  }

  lemma {:induction false} AbortedFundingsStay(s: State, p: nat, kobo: int, c: nat, gaps: seq<seq<S.Event>>)
    requires p < |s.payments| && !s.payments[p].verified && c == s.payments[p].contract
    requires gaps != [] && AllLeaveCharge(gaps, p)
    requires var aborted := Fund(s, p, kobo, c, false); MarkedCharge(aborted, c, p) && aborted.payments == s.payments
    ensures ChargeStays(Fund(s, p, kobo, c, false), AbortedFundings(s, p, kobo, c, gaps), c, p)
  {
    var init, aborted := gaps[..|gaps| - 1], Fund(s, p, kobo, c, false);
    if init == [] {
      assert AbortedFundings(s, p, kobo, c, init) == s;
      RunLeavesCharge(aborted, gaps[0], c, p);
    } else {
      AbortedFundingsStay(s, p, kobo, c, init);
      var before := AbortedFundings(s, p, kobo, c, init);
      FundMarked(before, p, kobo, c, false);
      RunLeavesCharge(before, gaps[|gaps| - 1], c, p);
    }
  }

  /** A funding that aborted after its mark: however often it aborts again and whatever else happens,
      running it records the charge, and nothing but the charge, iff the mark's lock row was not
      purged; and it is not purged within a week of the first delivery. */
  lemma {:induction false} FundingRetriedIffLockIsKept(s: State, p: nat, kobo: int, gaps: seq<seq<S.Event>>)
    requires p < |s.payments| && !s.payments[p].verified && Charge(p) !in s.flights
    requires var c := s.payments[p].contract;
             c < |s.cases| && StatusOf(s, c) == PENDING_PAYMENT && Available(Lookup(s.keys, FundedKey(c, p)), s.now)
    requires gaps != [] && AllLeaveCharge(gaps, p)
    ensures var c := s.payments[p].contract;
            var later := AbortedFundings(s, p, kobo, c, gaps);
            && p < |later.payments| && later.payments[p] == s.payments[p]
            && Fund(later, p, kobo, c, true)
               == (if FundedKey(c, p) in later.keys then Charged(later, p, W.Naira(kobo)) else later)
            && (later.now <= s.now + WEEK ==> FundedKey(c, p) in later.keys)
  {
    var c := s.payments[p].contract;
    AbortMarksCharge(s, p, kobo);
    AbortedFundingsStay(s, p, kobo, c, gaps);
    FundMarked(AbortedFundings(s, p, kobo, c, gaps), p, kobo, c, true);
  }

  // ----- payout

  predicate LeavesTransfer(e: S.Event, t: nat)
  {
    Confirms(e) ==> e.transfer != t
  }

  ghost predicate MarkedTransfer(s: State, c: nat, t: nat)
  {
    && t < |s.transfers| && s.transfers[t].status != W.Completed && Transfer(t) !in s.flights
    && c < |s.cases| && StatusOf(s, c) == PAID_OUT
    && KeyComplete(s, PaidOutKey(c))
  }

  ghost predicate TransferStays(s: State, s': State, c: nat, t: nat)
  {
    MarkedTransfer(s', c, t) && t < |s.transfers| && SameMoney(s.transfers[t], s'.transfers[t])
    && LockStays(s, s', PaidOutKey(c))
  }

  /** A job run again, a report of failure or an admin's reason may have come in between. */
  predicate SameMoney(was: TransferRow, now: TransferRow)
  {
    now == was.(status := now.status, stage := now.stage, metaFee := now.metaFee)
  }

  lemma {:induction false} PlainLeavesTransfer(s: State, e: S.Event, c: nat, t: nat)
    requires MarkedTransfer(s, c, t) && Plain(e)
    ensures TransferStays(s, S.Next(s, e), c, t)
  {
  }

  lemma {:induction false} MovesLeaveTransfer(s: State, e: S.Event, c: nat, t: nat)
    requires MarkedTransfer(s, c, t) && Moves(e)
    ensures TransferStays(s, S.Next(s, e), c, t)
  {
  }

  lemma {:induction false} ChargesLeaveTransfer(s: State, e: S.Event, c: nat, t: nat)
    requires MarkedTransfer(s, c, t) && Charges(e)
    ensures TransferStays(s, S.Next(s, e), c, t)
  {
    if e.ChargeBegin? && e.about < |s.cases| { MarkCaseEffect(s, e.about, FundedKey(e.about, e.payment), FUNDED); }
  }

  lemma {:induction false} InitiationLeavesTransfer(s: State, d: nat, admin: bool, percent: int, per: Positive,
    outcome: Initiation, c: nat, t: nat)
    requires MarkedTransfer(s, c, t)
    ensures TransferStays(s, InitiatePayoutStep(s, d, admin, percent, per, outcome), c, t)
  {
  }

  lemma {:induction false} PaysLeaveTransfer(s: State, e: S.Event, c: nat, t: nat)
    requires MarkedTransfer(s, c, t) && Pays(e)
    ensures TransferStays(s, S.Next(s, e), c, t)
  {
  }

  lemma {:induction false} ConfirmsLeaveTransfer(s: State, e: S.Event, c: nat, t: nat)
    requires MarkedTransfer(s, c, t) && Confirms(e) && e.transfer != t
    ensures TransferStays(s, S.Next(s, e), c, t)
  {
    if e.TransferBegin? && e.transfer < |s.transfers| && s.transfers[e.transfer].contract < |s.cases| {
      MarkCaseEffect(s, s.transfers[e.transfer].contract, PaidOutKey(s.transfers[e.transfer].contract), PAID_OUT);
    }
  }

  lemma {:induction false} RefundsLeaveTransfer(s: State, e: S.Event, c: nat, t: nat)
    requires MarkedTransfer(s, c, t) && (e.RequestRefund? || e.RunRefundJob? || e.RefundPost?)
    ensures TransferStays(s, S.Next(s, e), c, t)
  {
  }

  lemma {:induction false} RefundMarkLeavesTransfer(s: State, q: nat, c: nat, t: nat)
    requires MarkedTransfer(s, c, t)
    ensures TransferStays(s, RefundMarkStep(s, q), c, t)
  {
    if q < |s.payments| && s.payments[q].contract < |s.cases| {
      MarkCaseEffect(s, s.payments[q].contract, RefundedKey(s.payments[q].contract), REFUNDED);
    }
  }

  lemma {:induction false} StepLeavesTransfer(s: State, e: S.Event, c: nat, t: nat)
    requires MarkedTransfer(s, c, t) && LeavesTransfer(e, t)
    ensures TransferStays(s, S.Next(s, e), c, t)
  {
    if Plain(e) {
      PlainLeavesTransfer(s, e, c, t);
    } else if Moves(e) {
      MovesLeaveTransfer(s, e, c, t);
    } else if Charges(e) {
      ChargesLeaveTransfer(s, e, c, t);
    } else if e.InitiatePayout? {
      InitiationLeavesTransfer(s, e.contract, e.admin, e.percent, e.per, e.outcome, c, t);
    } else if Pays(e) {
      PaysLeaveTransfer(s, e, c, t);
    } else if Confirms(e) {
      ConfirmsLeaveTransfer(s, e, c, t);
    } else if e.RefundMark? {
      RefundMarkLeavesTransfer(s, e.payment, c, t);
    } else {
      RefundsLeaveTransfer(s, e, c, t);
    }
  }

  lemma {:induction false} RunLeavesTransfer(s: State, es: seq<S.Event>, c: nat, t: nat)
    requires MarkedTransfer(s, c, t) && forall i :: 0 <= i < |es| ==> LeavesTransfer(es[i], t)
    ensures TransferStays(s, After(s, es), c, t)
  {
    if es != [] {
      RunLeavesTransfer(s, es[..|es| - 1], c, t);
      StepLeavesTransfer(After(s, es[..|es| - 1]), es[|es| - 1], c, t);
    }
  }

  /** The state after a payout is recorded for a contract that is marked already. */
  function PaidOut(s: State, t: nat): State
    requires t < |s.transfers|
  {
    var row := s.transfers[t];
    var fee := if row.metaFee.Some? then row.metaFee.value else 0;
    s.(transfers := s.transfers[t := row.(status := W.Completed, postedFee := fee)], books := PostPayout(s.books, row, t, fee))
  }

  lemma {:induction false} PayMarked(s: State, t: nat, c: nat, commit: bool)
    requires MarkedTransfer(s, c, t) && c == s.transfers[t].contract
    ensures Pay(s, t, commit) == if commit && PaidOutKey(c) in s.keys then PaidOut(s, t) else s
  {
    MarkCaseEffect(s, c, PaidOutKey(c), PAID_OUT);
    if PaidOutKey(c) in s.keys {
      var row := s.transfers[t];
      assert (s.flights[Transfer(t) := TransferFlight(if row.metaFee.Some? then row.metaFee.value else 0)]) - {Transfer(t)}
          == s.flights;
    } else {
      assert s.keys - {PaidOutKey(c)} == s.keys;
    }
  }

  lemma {:induction false} AbortMarksTransfer(s: State, t: nat)
    requires t < |s.transfers| && s.transfers[t].status != W.Completed && Transfer(t) !in s.flights
    requires var c := s.transfers[t].contract;
             c < |s.cases| && StatusOf(s, c) in {READY_FOR_PAYOUT, DISPUTED}
             && Available(Lookup(s.keys, PaidOutKey(c)), s.now)
    ensures var c := s.transfers[t].contract;
            var aborted := Pay(s, t, false);
            && MarkedTransfer(aborted, c, t) && aborted.now == s.now && aborted.transfers == s.transfers
            && PaidOutKey(c) in aborted.keys && aborted.keys[PaidOutKey(c)].completedAt == Some(s.now)
  {
    var c := s.transfers[t].contract;
    MarkCaseEffect(s, c, PaidOutKey(c), PAID_OUT);
  }

  /** Aborted deliveries of the confirmation, each followed by other events. */
  function AbortedPayouts(s: State, t: nat, gaps: seq<seq<S.Event>>): State
  {
    if gaps == [] then s else After(Pay(AbortedPayouts(s, t, gaps[..|gaps| - 1]), t, false), gaps[|gaps| - 1])
  }

  predicate AllLeaveTransfer(gaps: seq<seq<S.Event>>, t: nat)
  {
    forall i, j :: 0 <= i < |gaps| && 0 <= j < |gaps[i]| ==> LeavesTransfer(gaps[i][j], t)
  }

  lemma {:induction false} AbortedPayoutsStay(s: State, t: nat, c: nat, gaps: seq<seq<S.Event>>)
    requires t < |s.transfers| && s.transfers[t].status != W.Completed && c == s.transfers[t].contract
    requires gaps != [] && AllLeaveTransfer(gaps, t)
    requires var aborted := Pay(s, t, false); MarkedTransfer(aborted, c, t) && aborted.transfers == s.transfers
    ensures TransferStays(Pay(s, t, false), AbortedPayouts(s, t, gaps), c, t)
  {
    var init, aborted := gaps[..|gaps| - 1], Pay(s, t, false);
    if init == [] {
      assert AbortedPayouts(s, t, init) == s;
      RunLeavesTransfer(aborted, gaps[0], c, t);
    } else {
      AbortedPayoutsStay(s, t, c, init);
      var before := AbortedPayouts(s, t, init);
      PayMarked(before, t, c, false);
      RunLeavesTransfer(before, gaps[|gaps| - 1], c, t);
    }
  }

  /** The same for a payout confirmation: a contract that was marked PAID_OUT by an aborted
      transaction gets its postings iff a retry comes before the lock row is purged. The fee is the
      one that the metadata has by then. */
  lemma {:induction false} PayoutRetriedIffLockIsKept(s: State, t: nat, gaps: seq<seq<S.Event>>)
    requires t < |s.transfers| && s.transfers[t].status != W.Completed && Transfer(t) !in s.flights
    requires var c := s.transfers[t].contract;
             c < |s.cases| && StatusOf(s, c) in {READY_FOR_PAYOUT, DISPUTED}
             && Available(Lookup(s.keys, PaidOutKey(c)), s.now)
    requires gaps != [] && AllLeaveTransfer(gaps, t)
    ensures var c := s.transfers[t].contract;
            var later := AbortedPayouts(s, t, gaps);
            && t < |later.transfers| && SameMoney(s.transfers[t], later.transfers[t])
            && Pay(later, t, true) == (if PaidOutKey(c) in later.keys then PaidOut(later, t) else later)
            && (later.now <= s.now + WEEK ==> PaidOutKey(c) in later.keys)
  {
    var c := s.transfers[t].contract;
    AbortMarksTransfer(s, t);
    AbortedPayoutsStay(s, t, c, gaps);
    PayMarked(AbortedPayouts(s, t, gaps), t, c, true);
  }
}
