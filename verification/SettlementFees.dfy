/** Which fee a settled payout posts and which it leaves in escrow. */
module SettlementFees {
  import opened Prelude
  import opened Ledger
  import opened Settlement
  import opened SettlementRules
  import S = Settlement
  import SL = SettlementLedger
  import W = Wallet

  /** An admin's reason replaces the metadata of transfer `t` while it is still to be confirmed; a
      confirmation that holds the row lock makes the update wait. */
  predicate Overwrites(s: State, e: S.Event, t: nat)
  {
    e == OverwriteMetadata(t) && t < |s.transfers| && s.transfers[t].status != W.Completed && Transfer(t) !in s.flights
  }

  /** Some step of the run did that. */
  predicate Overwritten(txs: map<W.TxId, W.Tx>, es: seq<S.Event>, t: nat)
  {
    es != [] &&
    var init := es[..|es| - 1];
    Overwritten(txs, init, t) || Overwrites(S.Run(txs, init), es[|es| - 1], t)
  }

  /** The metadata keeps the computed fee until it is overwritten, and the posting follows it. */
  predicate FeeKnown(s: State, t: nat, overwritten: bool)
    requires t < |s.transfers|
  {
    var row := s.transfers[t];
    var due := if overwritten then 0 else row.fee;
    if row.status == W.Completed then row.postedFee == due
    else
      && row.metaFee == (if overwritten then None else Some(row.fee))
      && (Transfer(t) in s.flights ==> s.flights[Transfer(t)] == TransferFlight(due))
  }

  predicate FlightKnown(s: State, t: nat)
  {
    Transfer(t) in s.flights ==> t < |s.transfers| && s.flights[Transfer(t)].TransferFlight?
  }

  // ----- one step

  lemma {:induction false} InitiationKeepsFee(s: State, c: nat, admin: bool, percent: int, per: Positive,
    outcome: Initiation, t: nat, overwritten: bool)
    requires t < |s.transfers| && FeeKnown(s, t, overwritten)
    ensures var s' := InitiatePayoutStep(s, c, admin, percent, per, outcome);
            t < |s'.transfers| && FeeKnown(s', t, overwritten)
  {
  }

  lemma {:induction false} RowStepKeepsFee(s: State, e: S.Event, t: nat, overwritten: bool)
    requires e.OverwriteMetadata? || e.RunPayoutJob?
    requires t < |s.transfers| && FeeKnown(s, t, overwritten)
    ensures var s' := S.Next(s, e); t < |s'.transfers| && FeeKnown(s', t, overwritten || Overwrites(s, e, t))
  {
  }

  lemma {:induction false} TransferStepKeepsFee(s: State, e: S.Event, t: nat, overwritten: bool)
    requires (e.TransferBegin? || e.TransferEnd? || e.TransferFailed?) && SL.NoLateFailure(s, e) && SL.FlightsOpen(s)
    requires t < |s.transfers| && FeeKnown(s, t, overwritten) && FlightKnown(s, t)
    ensures var s' := S.Next(s, e); t < |s'.transfers| && FeeKnown(s', t, overwritten)
  {
  }

  predicate TouchesTransfers(e: S.Event)
  {
    e.InitiatePayout? || e.OverwriteMetadata? || e.RunPayoutJob? || e.TransferBegin? || e.TransferEnd? || e.TransferFailed?
  }

  /** Neither the transfers nor a handler at work on transfer `t`. */
  ghost predicate SameTransfer(s: State, s': State, t: nat)
  {
    && s'.transfers == s.transfers && (Transfer(t) in s'.flights <==> Transfer(t) in s.flights)
    && (Transfer(t) in s.flights ==> s'.flights[Transfer(t)] == s.flights[Transfer(t)])
  }

  lemma {:induction false} PaymentStepsKeepTransfers(s: State, e: S.Event, t: nat)
    requires e.InitializePayment? || e.ChargeBegin? || e.ChargeEnd? || e.RequestRefund? || e.RunRefundJob?
             || e.RefundPost? || e.RefundMark?
    ensures SameTransfer(s, S.Next(s, e), t)
  {
  }

  lemma {:induction false} PlainStepsKeepTransfers(s: State, e: S.Event, t: nat)
    requires e.CreateContract? || e.ContractStep? || e.MovedByOthers? || e.WalletStep? || e.Purge? || e.Tick?
    ensures SameTransfer(s, S.Next(s, e), t)
  {
  }

  lemma {:induction false} OtherStepsKeepTransfers(s: State, e: S.Event, t: nat)
    requires !TouchesTransfers(e)
    ensures SameTransfer(s, S.Next(s, e), t)
  {
    if e.CreateContract? || e.ContractStep? || e.MovedByOthers? || e.WalletStep? || e.Purge? || e.Tick? {
      PlainStepsKeepTransfers(s, e, t);
    } else {
      PaymentStepsKeepTransfers(s, e, t);
    }
  }

  lemma {:induction false} StepKeepsFee(s: State, e: S.Event, t: nat, overwritten: bool)
    requires t < |s.transfers| && FeeKnown(s, t, overwritten) && FlightKnown(s, t)
    requires SL.NoLateFailure(s, e) && SL.FlightsOpen(s)
    ensures var s' := S.Next(s, e); t < |s'.transfers| && FeeKnown(s', t, overwritten || Overwrites(s, e, t))
  {
    if e.InitiatePayout? {
      InitiationKeepsFee(s, e.contract, e.admin, e.percent, e.per, e.outcome, t, overwritten);
    } else if e.OverwriteMetadata? || e.RunPayoutJob? {
      RowStepKeepsFee(s, e, t, overwritten);
    } else if TouchesTransfers(e) {
      TransferStepKeepsFee(s, e, t, overwritten);
    } else {
      OtherStepsKeepTransfers(s, e, t);
    }
  }

  lemma {:induction false} StepKeepsFlight(s: State, e: S.Event, t: nat)
    requires FlightKnown(s, t)
    ensures FlightKnown(S.Next(s, e), t) && |s.transfers| <= |S.Next(s, e).transfers|
  {
    if !TouchesTransfers(e) { OtherStepsKeepTransfers(s, e, t); }
  }

  lemma {:induction false} NewFee(s: State, e: S.Event, t: nat)
    requires FlightKnown(s, t) && |s.transfers| <= t < |S.Next(s, e).transfers|
    ensures FeeKnown(S.Next(s, e), t, false)
  {
    if !TouchesTransfers(e) { OtherStepsKeepTransfers(s, e, t); }
  }

  // ----- runs

  lemma {:induction false} RunKeepsFlight(txs: map<W.TxId, W.Tx>, es: seq<S.Event>, t: nat)
    ensures FlightKnown(S.Run(txs, es), t)
  {
    if es != [] {
      RunKeepsFlight(txs, es[..|es| - 1], t);
      StepKeepsFlight(S.Run(txs, es[..|es| - 1]), es[|es| - 1], t);
    }
  }

  lemma {:induction false} OverwrittenExists(txs: map<W.TxId, W.Tx>, es: seq<S.Event>, t: nat)
    requires Overwritten(txs, es, t)
    ensures t < |S.Run(txs, es).transfers|
  {
    var init := es[..|es| - 1];
    if Overwritten(txs, init, t) { OverwrittenExists(txs, init, t); }
    RunKeepsFlight(txs, init, t);
    StepKeepsFlight(S.Run(txs, init), es[|es| - 1], t);
  }

  lemma {:induction false} FeesAreKnown(txs: map<W.TxId, W.Tx>, es: seq<S.Event>, t: nat)
    requires SL.FailuresInOrder(txs, es) && t < |S.Run(txs, es).transfers|
    ensures FeeKnown(S.Run(txs, es), t, Overwritten(txs, es, t))
  {
    if es != [] {
      var init, e := es[..|es| - 1], es[|es| - 1];
      var s := S.Run(txs, init);
      RunKeepsFlight(txs, init, t);
      if t < |s.transfers| {
        FeesAreKnown(txs, init, t);
        SL.RunsKeepOnce(txs, init);
        StepKeepsFee(s, e, t, Overwritten(txs, init, t));
      } else {
        if Overwritten(txs, init, t) { OverwrittenExists(txs, init, t); }
        NewFee(s, e, t);
      }
    }
  }

  /** The fee that a payout settled by an admin release with a reason has left in escrow. */
  function KeptFee(txs: map<W.TxId, W.Tx>, es: seq<S.Event>, t: nat): int
  {
    var s := S.Run(txs, es);
    if t < |s.transfers| && s.transfers[t].status == W.Completed && Overwritten(txs, es, t) then s.transfers[t].fee else 0
  }

  /** Exactly those payouts retain a fee, and they retain all of it. */
  lemma {:induction false} FeeIsKeptIffOverwritten(txs: map<W.TxId, W.Tx>, es: seq<S.Event>, t: nat)
    requires SL.FailuresInOrder(txs, es) && t < |S.Run(txs, es).transfers|
    ensures Retained(S.Run(txs, es).transfers[t]) == KeptFee(txs, es, t)
  {
    FeesAreKnown(txs, es, t);
  }

  // ----- sums

  function KeptFeeAt(txs: map<W.TxId, W.Tx>, es: seq<S.Event>): nat -> int
  {
    (t: nat) => KeptFee(txs, es, t)
  }

  function KeptFeeOn(txs: map<W.TxId, W.Tx>, es: seq<S.Event>, c: nat): nat -> int
  {
    var rows := S.Run(txs, es).transfers;
    (t: nat) => if t < |rows| && rows[t].contract == c then KeptFee(txs, es, t) else 0
  }

  ghost function KeptFees(txs: map<W.TxId, W.Tx>, es: seq<S.Event>): int
  {
    SumUpTo(|S.Run(txs, es).transfers|, KeptFeeAt(txs, es))
  }

  ghost function KeptFeesOn(txs: map<W.TxId, W.Tx>, es: seq<S.Event>, c: nat): int
  {
    SumUpTo(|S.Run(txs, es).transfers|, KeptFeeOn(txs, es, c))
  }

  lemma {:induction false} KeptFeesAreRetained(txs: map<W.TxId, W.Tx>, es: seq<S.Event>, c: nat)
    requires SL.FailuresInOrder(txs, es)
    ensures SumSeq(S.Run(txs, es).transfers, Retained) == KeptFees(txs, es)
    ensures SumSeq(S.Run(txs, es).transfers, RetainedOn(c)) == KeptFeesOn(txs, es, c)
  {
    var rows := S.Run(txs, es).transfers;
    forall t: nat | t < |rows| ensures Retained(rows[t]) == KeptFee(txs, es, t) { FeeIsKeptIffOverwritten(txs, es, t); }
    SumSeqByIndex(rows, Retained);
    SumUpToSame(|rows|, Indexed(rows, Retained), KeptFeeAt(txs, es));
    SumSeqByIndex(rows, RetainedOn(c));
    SumUpToSame(|rows|, Indexed(rows, RetainedOn(c)), KeptFeeOn(txs, es, c));
  }

  lemma {:induction false} NothingOverwritten(txs: map<W.TxId, W.Tx>, es: seq<S.Event>, t: nat)
    requires forall i :: 0 <= i < |es| ==> !es[i].OverwriteMetadata?
    ensures !Overwritten(txs, es, t)
  {
    if es != [] { NothingOverwritten(txs, es[..|es| - 1], t); }
  }

  /** Runs without such a release keep no fee. */
  lemma {:induction false} NoReasonNoFeeKept(txs: map<W.TxId, W.Tx>, es: seq<S.Event>)
    requires forall i :: 0 <= i < |es| ==> !es[i].OverwriteMetadata?
    ensures KeptFees(txs, es) == 0
  {
    forall t: nat ensures KeptFeeAt(txs, es)(t) == 0 { NothingOverwritten(txs, es, t); }
    SumUpToZero(|S.Run(txs, es).transfers|, KeptFeeAt(txs, es));
  }
}
