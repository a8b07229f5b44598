/** Funding steps keep the settlement invariants. */
module SettlementFunding {
  import opened Prelude
  import opened Ledger
  import opened Idempotency
  import opened Contracts
  import opened Settlement
  import opened SettlementRules
  import opened SettlementFrames
  import SL = SettlementLedger
  import W = Wallet

  lemma {:induction false} NewPaymentNet(s: State, p: Payment)
    requires NetOk(s) && Filed(s) && !p.verified
    ensures NetOk(s.(payments := s.payments + [p])) && Filed(s.(payments := s.payments + [p]))
  {
    forall c: nat { SumSeqAppend(s.payments, FundedOn(c), p); }
  }

  lemma {:induction false} NewPaymentShape(s: State, p: Payment)
    requires Shape(s) && p.contract < |s.cases| && p.amount == s.cases[p.contract].amount
    requires !p.verified && !p.txExists
    ensures Shape(s.(payments := s.payments + [p]))
  {
    var s' := s.(payments := s.payments + [p]);
    forall ref | ref in s'.flights ensures FlightShape(s', ref, s'.flights[ref]) {
      assert FlightShape(s, ref, s.flights[ref]);
    }
  }

  lemma {:induction false} NewPaymentFund(s: State, p: Payment)
    requires FundInv(s) && Shape(s) && !p.verified
    ensures FundInv(s.(payments := s.payments + [p]))
  {
    var s' := s.(payments := s.payments + [p]);
    assert Charge(|s.payments|) !in s.flights;
    forall q: nat | Funder(s', q) ensures Funder(s, q) {}
  }

  lemma {:induction false} NewPaymentKeepsInv(s: State, p: Payment)
    requires Inv(s) && p.contract < |s.cases| && p.amount == s.cases[p.contract].amount
    requires !p.verified && !p.txExists
    ensures Inv(s.(payments := s.payments + [p]))
  {
    var s' := s.(payments := s.payments + [p]);
    NewPaymentShape(s, p);
    NewPaymentNet(s, p);
    NewPaymentFund(s, p);
    PayFrameSameTransfers(s, s');
    RefundFrame(s, s');
  }

  lemma {:induction false} InitializePaymentKeepsInv(s: State, c: nat)
    requires Inv(s)
    ensures Inv(InitializePaymentStep(s, c))
  {
    if c < |s.cases| && s.cases[c].contract.status in {PENDING_PAYMENT, DRAFT} {
      var p := Payment(c, s.cases[c].client, s.cases[c].amount, false, false, 0);
      NewPaymentKeepsInv(s, p);
      ContractStepKeepsInv(s.(payments := s.payments + [p]), c, RequestPaymentInitialization);
    }
  }

  /** What ChargeBegin does when it gets past its guards. */
  ghost predicate ChargeBegun(s: State, s': State, p: nat)
    requires p < |s.payments| && s.payments[p].contract < |s.cases|
  {
    var c := s.payments[p].contract;
    var k := FundedKey(c, p);
    var flight := s.flights[Charge(p) := ChargeFlight(c, s.payments[p].amount)];
    && SameAmounts(s, s') && |s'.cases| == |s.cases|
    && (forall d :: 0 <= d < |s.cases| && d != c ==> s'.cases[d] == s.cases[d])
    && (|| (k in s.keys && s' == s.(flights := flight))
        || (s' == s.(flights := flight, cases := s'.cases, keys := s'.keys) && StatusOf(s, c) == PENDING_PAYMENT
            && StatusOf(s', c) == FUNDED && s'.keys == s.keys[k := Acquired(s.now).(completedAt := Some(s.now))]))
  }

  lemma {:induction false} ChargeBeginEffect(s: State, p: nat, kobo: int, about: nat)
    requires p < |s.payments| && Begins(s, ChargeBeginStep(s, p, kobo, about), Charge(p))
    requires about == s.payments[p].contract < |s.cases| && W.Naira(kobo) == s.payments[p].amount
    requires FundedKey(about, p) in s.keys ==> s.keys[FundedKey(about, p)].completedAt.Some?
    ensures !s.payments[p].verified && ChargeBegun(s, ChargeBeginStep(s, p, kobo, about), p)
  {
    MarkCaseEffect(s, about, FundedKey(about, p), FUNDED);
  }

  /** A charge that is turned away leaves no trace, whatever its amount and its contract. */
  lemma {:induction false} ChargeTurnedAway(s: State, p: nat, kobo: int, about: nat)
    requires FundInv(s) && !Begins(s, ChargeBeginStep(s, p, kobo, about), Charge(p))
    ensures ChargeBeginStep(s, p, kobo, about) == s
  {
    if p < |s.payments| && about < |s.cases| && Charge(p) !in s.flights && !s.payments[p].verified {
      MarkCaseEffect(s, about, FundedKey(about, p), FUNDED);
      assert s.keys - {FundedKey(about, p)} == s.keys;
    }
  }

  lemma {:induction false} ChargeBegunFund(s: State, s': State, p: nat)
    requires FundInv(s) && p < |s.payments| && s.payments[p].contract < |s.cases| && ChargeBegun(s, s', p)
    ensures FundInv(s')
  {
    var c := s.payments[p].contract;
    forall q: nat | Funder(s', q) && q != p ensures Funder(s, q) {}
    if s'.flights != s.flights {
      if StatusOf(s, c) == PENDING_PAYMENT {
        forall q: nat | Funder(s, q) ensures s.payments[q].contract != c {}
      }
      assert Funder(s', p) && PastFunding(StatusOf(s', c)) by {
        if FundedKey(c, p) in s.keys { assert Funder(s, p); }
      }
    }
  }

  lemma {:induction false} ChargeBegunShape(s: State, s': State, p: nat)
    requires Shape(s) && p < |s.payments| && !s.payments[p].verified && ChargeBegun(s, s', p)
    ensures Shape(s')
  {
    forall ref | ref in s'.flights ensures FlightShape(s', ref, s'.flights[ref]) {
      if ref != Charge(p) { assert FlightShape(s, ref, s.flights[ref]); }
    }
  }

  lemma {:induction false} ChargeBegunPay(s: State, s': State, p: nat)
    requires Shape(s) && PayInv(s) && p < |s.payments| && ChargeBegun(s, s', p)
    ensures PayInv(s')
  {
    PayFrame(s, s');
  }

  lemma {:induction false} ChargeBegunRefund(s: State, s': State, p: nat)
    requires Shape(s) && DoneInv(s) && PendingInv(s) && p < |s.payments| && ChargeBegun(s, s', p)
    ensures DoneInv(s') && PendingInv(s')
  {
    RefundFrame(s, s');
  }

  lemma {:induction false} ChargeBeginKeepsInv(s: State, p: nat, kobo: int, about: nat)
    requires Inv(s) && Good(s, ChargeBegin(p, kobo, about))
    ensures Inv(ChargeBeginStep(s, p, kobo, about))
  {
    var s' := ChargeBeginStep(s, p, kobo, about);
    if Begins(s, s', Charge(p)) {
      ChargeBeginEffect(s, p, kobo, about);
      ChargeBegunFund(s, s', p);
      ChargeBegunShape(s, s', p);
      ChargeBegunPay(s, s', p);
      ChargeBegunRefund(s, s', p);
      NetFrame(s, s');
      SL.StepKeepsFees(s, ChargeBegin(p, kobo, about));
    } else {
      ChargeTurnedAway(s, p, kobo, about);
    }
  }

  ghost predicate ChargePosted(s: State, s': State, p: nat)
    requires p < |s.payments|
  {
    var pay := s.payments[p];
    && s' == s.(payments := s.payments[p := pay.(verified := true, txExists := true, paid := pay.amount)],
                books := s'.books)
    && s'.books.entries == s.books.entries + [ChargeEntry(pay, p, pay.contract, pay.amount)]
  }

  lemma {:induction false} ChargePostedNet(s: State, s': State, p: nat)
    requires NetOk(s) && Filed(s) && p < |s.payments| && s.payments[p].contract < |s.cases| && !s.payments[p].verified
    requires ChargePosted(s, s', p)
    ensures NetOk(s') && Filed(s')
  {
    var pay := s.payments[p];
    var e := ChargeEntry(pay, p, pay.contract, pay.amount);
    forall c: nat
      ensures SumSeq(s'.payments, FundedOn(c)) == SumSeq(s.payments, FundedOn(c)) + FundedOn(c)(s'.payments[p])
      ensures InEscrow(s', c) == InEscrow(s, c) + EscrowOn(c)(e)
    {
      SumSeqUpdate(s.payments, FundedOn(c), p, s'.payments[p]);
      SumSeqAppend(s.books.entries, EscrowOn(c), e);
    }
  }

  lemma {:induction false} ChargePostedShape(s: State, s': State, p: nat)
    requires Shape(s) && p < |s.payments| && Charge(p) !in s.flights && ChargePosted(s, s', p)
    ensures Shape(s')
  {
    forall ref | ref in s'.flights ensures FlightShape(s', ref, s'.flights[ref]) {
      assert FlightShape(s, ref, s.flights[ref]);
    }
  }

  lemma {:induction false} ChargePostedFund(s: State, s': State, p: nat)
    requires FundInv(s) && p < |s.payments| && s.payments[p].contract < |s.cases|
    requires PastFunding(StatusOf(s, s.payments[p].contract))
    requires forall q: nat :: Funder(s, q) && s.payments[q].contract == s.payments[p].contract ==> q == p
    requires ChargePosted(s, s', p)
    ensures FundInv(s')
  {
    forall q: nat | Funder(s', q) && q != p ensures Funder(s, q) {}
  }

  lemma {:induction false} ChargePostedKeepsInv(s: State, s': State, p: nat)
    requires Inv(s) && p < |s.payments| && !s.payments[p].verified && Charge(p) !in s.flights
    requires PastFunding(StatusOf(s, s.payments[p].contract))
    requires forall q: nat :: Funder(s, q) && s.payments[q].contract == s.payments[p].contract ==> q == p
    requires ChargePosted(s, s', p)
    ensures Inv(s')
  {
    ChargePostedShape(s, s', p);
    ChargePostedNet(s, s', p);
    ChargePostedFund(s, s', p);
    PayFrameSameTransfers(s, s');
    RefundFrame(s, s');
  }

  lemma {:induction false} ChargeEndKeepsInv(s: State, p: nat, commit: bool)
    requires Inv(s)
    ensures Inv(ChargeEndStep(s, p, commit))
  {
    if p < |s.payments| && Charge(p) in s.flights && s.flights[Charge(p)].ChargeFlight? {
      assert FlightShape(s, Charge(p), s.flights[Charge(p)]);
      var landed := s.(flights := s.flights - {Charge(p)});
      LandingKeepsInv(s, Charge(p));
      if commit {
        assert Funder(s, p);
        forall q: nat | Funder(landed, q) ensures Funder(s, q) {}
        ChargePostedKeepsInv(landed, ChargeEndStep(s, p, commit), p);
      }
    }
  }
}
