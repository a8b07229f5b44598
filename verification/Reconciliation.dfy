/** The nightly reconciliation report. */
module Reconciliation {
  import opened Prelude
  import opened Ledger
  import opened Settlement
  import opened SettlementRules
  import opened SettlementFees
  import S = Settlement
  import SE = SettlementEscrow
  import SL = SettlementLedger
  import W = Wallet

  /** What Paystack answers for the dedicated account: balances in kobo, or an error. */
  datatype BalanceReply = Balances(kobo: seq<int>) | RequestFailed

  datatype Outcome = Success | Discrepancy

  datatype TrialOutcome = Even | Imbalanced

  datatype Report = Report(
    status: Outcome,
    totalObligations: int,
    actualPaystackBalance: real,
    discrepancy: real,
    trialBalanceStatus: TrialOutcome,
    trialBalanceSum: int)

  datatype AuditAction = ReconciliationDiscrepancy(discrepancy: real) | TrialBalanceImbalance(sum: int)

  /** The dedicated account's balance in naira; if Paystack is down, the obligations stand in. */
  function ActualBalance(reply: BalanceReply, obligations: int): real
  {
    match reply
    case Balances(kobo) => if |kobo| > 0 then kobo[0] as real / 100.0 else 0.0
    case RequestFailed => obligations as real
  }

  // ----- summing account rows

  /** The balances of the three system accounts and of the wallets of `users`. */
  ghost function SumOfRows(b: Books, users: set<UserId>): int
  {
    SumOver(Rows(users), a => BalanceOf(b, a))
  }

  ghost function Rows(users: set<UserId>): set<Account>
  {
    (set u | u in users :: Wallet(u)) + {Escrow, Fee, Bank}
  }

  lemma {:induction false} NoWallets(b: Books)
    ensures SumOfRows(b, {}) == b.escrow + b.fee + b.bank
  {
    var f := a => BalanceOf(b, a);
    assert Rows({}) == {Escrow, Fee, Bank};
    SumRemove({Escrow, Fee, Bank}, f, Escrow);
    assert {Escrow, Fee, Bank} - {Escrow} == {Fee, Bank};
    SumRemove({Fee, Bank}, f, Fee);
    assert {Fee, Bank} - {Fee} == {Bank};
    SumRemove({Bank}, f, Bank);
    assert {Bank} - {Bank} == {};
  }

  lemma {:induction false} OneMoreWallet(b: Books, users: set<UserId>, u: UserId)
    requires u !in users && u in b.wallets
    ensures SumOfRows(b, users + {u}) == SumOfRows(b, users) + b.wallets[u].balance
  {
    var f := a => BalanceOf(b, a);
    assert Rows(users + {u}) == Rows(users) + {Wallet(u)};
    SumInsert(Rows(users), f, f, Wallet(u));
  }

  lemma {:induction false} AllWallets(b: Books)
    ensures SumOfRows(b, b.wallets.Keys) == TrialBalance(b)
  {}

  /** What a report says about contracts and books. */
  ghost predicate Reports(cases: seq<Case>, books: Books, reply: BalanceReply, r: Report)
  {
    && r.totalObligations == SumSeq(cases, Obligation)
    && r.actualPaystackBalance == ActualBalance(reply, r.totalObligations)
    && r.discrepancy == r.actualPaystackBalance - r.totalObligations as real
    && r.trialBalanceSum == TrialBalance(books)
    && (r.trialBalanceStatus == Imbalanced <==> r.trialBalanceSum != 0)
    && (r.status == Success <==> r.discrepancy == 0.0 && r.trialBalanceSum == 0)
  }

  class ReconciliationService {
    var cases: seq<Case>
    var books: Books
    var auditLog: seq<AuditAction>

    constructor (cases: seq<Case>, books: Books)
      ensures this.cases == cases && this.books == books && auditLog == []
    {
      this.cases, this.books, auditLog := cases, books, [];
    }

    /** The sum of the amounts of the contracts in a fund-holding status. */
    method SumObligations() returns (total: int)
      ensures total == SumSeq(cases, Obligation)
    {
      total := 0;
      for i := 0 to |cases|
        invariant total == SumSeq(cases[..i], Obligation)
      {
        assert cases[..i + 1] == cases[..i] + [cases[i]];
        SumSeqAppend(cases[..i], Obligation, cases[i]);
        if HoldsFunds(cases[i].contract.status) { total := total + cases[i].amount; }
      }
      assert cases[..|cases|] == cases;
    }

    /** The sum of all ledger account balances, row by row in any order. */
    method SumBalances() returns (total: int)
      ensures total == TrialBalance(books)
    {
      total := books.escrow + books.fee + books.bank;
      NoWallets(books);
      var done: set<UserId> := {};
      while done != books.wallets.Keys
        invariant done <= books.wallets.Keys && total == SumOfRows(books, done)
        decreases |books.wallets.Keys - done|
      {
        var u :| u in books.wallets.Keys - done;
        OneMoreWallet(books, done, u);
        total := total + books.wallets[u].balance;
        assert books.wallets.Keys - (done + {u}) == books.wallets.Keys - done - {u};
        done := done + {u};
      }
      AllWallets(books);
    }

    method RunReconciliation(reply: BalanceReply) returns (r: Report)
      modifies this`auditLog
      ensures Reports(cases, books, reply, r)
      ensures auditLog == old(auditLog)
        + (if r.discrepancy != 0.0 then [ReconciliationDiscrepancy(r.discrepancy)] else [])
        + (if r.trialBalanceSum != 0 then [TrialBalanceImbalance(r.trialBalanceSum)] else [])
    {
      var totalObligations := SumObligations();
      var actual := ActualBalance(reply, totalObligations);
      var discrepancy := actual - totalObligations as real;
      if discrepancy != 0.0 {
        auditLog := auditLog + [ReconciliationDiscrepancy(discrepancy)];
      }
      var trialBalanceSum := SumBalances();
      var trialBalanceStatus := Even;
      if trialBalanceSum != 0 {
        trialBalanceStatus := Imbalanced;
        auditLog := auditLog + [TrialBalanceImbalance(trialBalanceSum)];
      }
      var status := if discrepancy == 0.0 && trialBalanceStatus == Even then Success else Discrepancy;
      return Report(status, totalObligations, actual, discrepancy, trialBalanceStatus, trialBalanceSum);
    }
  }

  /** What Paystack's answer makes of a report: the first balance counts, in kobo; no balance counts as
      none; and an outage hides every discrepancy, so that the trial balance alone decides. */
  lemma {:induction false} ReplyDecidesTheReport(cases: seq<Case>, books: Books, reply: BalanceReply, r: Report)
    requires Reports(cases, books, reply, r)
    ensures reply.Balances? && reply.kobo != [] ==>
              100.0 * r.actualPaystackBalance == reply.kobo[0] as real
              && (r.status == Success <==> reply.kobo[0] == 100 * r.totalObligations && r.trialBalanceSum == 0)
    ensures reply.Balances? && reply.kobo == [] ==>
              r.actualPaystackBalance == 0.0 && (r.status == Success <==> r.totalObligations == 0 && r.trialBalanceSum == 0)
    ensures reply.RequestFailed? ==> r.discrepancy == 0.0 && (r.status == Success <==> r.trialBalanceSum == 0)
  {
  }

  /** The report never says IMBALANCED, after any run whose fees and amounts are not negative. */
  lemma {:induction false} NeverImbalanced(txs: map<W.TxId, W.Tx>, es: seq<S.Event>, reply: BalanceReply, r: Report)
    requires forall i :: 0 <= i < |es| ==> SL.NonNegative(es[i])
    requires Reports(S.Run(txs, es).cases, S.Run(txs, es).books, reply, r)
    ensures r.trialBalanceStatus == Even
  {
    SL.EveryRunBalances(txs, es);
  }

  /** At rest after a good run the report is a success exactly when Paystack holds what the escrow
      account holds, less the fees that admin releases with a reason left there. */
  lemma {:induction false} SuccessIffPaystackHoldsTheEscrow(txs: map<W.TxId, W.Tx>, es: seq<S.Event>, kobo: int, r: Report)
    requires GoodRun(txs, es) && (forall i :: 0 <= i < |es| ==> !SE.Aborts(es[i])) && SE.AtRest(S.Run(txs, es))
    requires Reports(S.Run(txs, es).cases, S.Run(txs, es).books, Balances([kobo]), r)
    ensures r.status == Success <==> kobo == 100 * (S.Run(txs, es).books.escrow - KeptFees(txs, es))
  {
    SE.EscrowIsReconciledAtRest(txs, es);
    SE.GoodRunIsNonNegative(txs, es);
    SL.EveryRunBalances(txs, es);
  }
}
