/** The double-entry books: ledger accounts, ledger entries and the postings that tie them. */
module Ledger {
  import opened Prelude

  type UserId = nat

  datatype Account = Wallet(user: UserId) | Escrow | Fee | Bank

  /** A USER_WALLET row. The version guards every write made by the wallet service. */
  datatype Row = Row(balance: int, frozen: int, version: int)

  /** What an entry refers to: a charge, a transfer, a refund of a charge, or a wallet operation. */
  datatype Reference = Charge(payment: nat) | Transfer(transfer: nat) | RefundOf(payment: nat) | WalletOp

  datatype Entry = Entry(debit: Account, credit: Account, amount: int, ref: Reference, contract: Option<nat>)

  datatype Books = Books(
    wallets: map<UserId, Row>,
    escrow: int,
    fee: int,
    bank: int,
    entries: seq<Entry>)

  const NEW_ROW := Row(0, 0, 1)

  const EMPTY_BOOKS := Books(map[], 0, 0, 0, [])

  function BalanceOf(b: Books, a: Account): int
  {
    match a
    case Wallet(u) => if u in b.wallets then b.wallets[u].balance else 0
    case Escrow => b.escrow
    case Fee => b.fee
    case Bank => b.bank
  }

  /** Find-or-create of a wallet row. */
  function EnsureWallet(b: Books, u: UserId): Books
  {
    if u in b.wallets then b else b.(wallets := b.wallets[u := NEW_ROW])
  }

  function AddTo(b: Books, a: Account, amount: int): Books
    requires a.Wallet? ==> a.user in b.wallets
  {
    match a
    case Wallet(u) =>
      b.(wallets := b.wallets[u := b.wallets[u].(balance := b.wallets[u].balance + amount)])
    case Escrow => b.(escrow := b.escrow + amount)
    case Fee => b.(fee := b.fee + amount)
    case Bank => b.(bank := b.bank + amount)
  }

  /** One double-entry posting: the entry, the debit and the credit. */
  function Post(b: Books, e: Entry): Books
    requires e.debit.Wallet? ==> e.debit.user in b.wallets
    requires e.credit.Wallet? ==> e.credit.user in b.wallets
  {
    AddTo(AddTo(b, e.debit, -e.amount), e.credit, e.amount).(entries := b.entries + [e])
  }

  // ----- what the entries say

  /** What one entry does to one account. */
  function Effect(e: Entry, a: Account): int
  {
    (if e.credit == a then e.amount else 0) - (if e.debit == a then e.amount else 0)
  }

  /** Credited minus debited amounts of account `a`. */
  function Net(es: seq<Entry>, a: Account): int
  {
    if es == [] then 0 else Net(es[..|es| - 1], a) + Effect(es[|es| - 1], a)
  }

  /** Every balance equals what its ledger entries add up to. */
  ghost predicate Balanced(b: Books)
  {
    forall a: Account :: BalanceOf(b, a) == Net(b.entries, a)
  }

  /** Accounts that exist as rows. */
  ghost function Accounts(b: Books): set<Account>
  {
    (set u | u in b.wallets :: Wallet(u)) + {Escrow, Fee, Bank}
  }

  /** The sum that the nightly trial balance aggregates. */
  ghost function TrialBalance(b: Books): int
  {
    SumOver(Accounts(b), a => BalanceOf(b, a))
  }

  /** Entries name only accounts that exist. */
  ghost predicate Closed(b: Books)
  {
    forall i :: 0 <= i < |b.entries| ==>
      b.entries[i].debit in Accounts(b) && b.entries[i].credit in Accounts(b)
  }

  lemma {:induction false} NetAppend(es: seq<Entry>, e: Entry, a: Account)
    ensures Net(es + [e], a) == Net(es, a) + Effect(e, a)
  {}

  lemma {:induction false} PostBalances(b: Books, e: Entry, a: Account)
    requires e.debit.Wallet? ==> e.debit.user in b.wallets
    requires e.credit.Wallet? ==> e.credit.user in b.wallets
    ensures BalanceOf(Post(b, e), a) == BalanceOf(b, a) + Effect(e, a)
  {
  }

  lemma {:induction false} PostKeepsBalanced(b: Books, e: Entry)
    requires Balanced(b) && Closed(b)
    requires e.debit.Wallet? ==> e.debit.user in b.wallets
    requires e.credit.Wallet? ==> e.credit.user in b.wallets
    ensures Balanced(Post(b, e)) && Closed(Post(b, e))
    ensures Accounts(Post(b, e)) == Accounts(b)
  {
    assert Post(b, e).wallets.Keys == b.wallets.Keys;
    forall a: Account ensures BalanceOf(Post(b, e), a) == Net(Post(b, e).entries, a) {
      PostBalances(b, e, a);
      NetAppend(b.entries, e, a);
    }
  }

  lemma {:induction false} EnsureKeepsBalanced(b: Books, u: UserId)
    requires Balanced(b) && Closed(b)
    ensures Balanced(EnsureWallet(b, u)) && Closed(EnsureWallet(b, u))
  {}

  /** Each entry credits what it debits, so the net effects of all entries cancel out. */
  lemma {:induction false} NetsCancel(es: seq<Entry>, s: set<Account>)
    requires forall i :: 0 <= i < |es| ==> es[i].debit in s && es[i].credit in s
    ensures SumOver(s, a => Net(es, a)) == 0
  {
    if es == [] {
      SumZero(s, a => Net(es, a));
    } else {
      var last := es[|es| - 1];
      NetsCancel(es[..|es| - 1], s);
      var credit := (a: Account) => if a == last.credit then last.amount else 0;
      var debit := (a: Account) => if a == last.debit then -last.amount else 0;
      var before := (a: Account) => Net(es[..|es| - 1], a);
      SumPoint(s, credit, last.credit);
      SumPoint(s, debit, last.debit);
      SumAdd(s, credit, debit, a => Effect(last, a));
      SumAdd(s, before, a => Effect(last, a), a => Net(es, a));
      SumSame(s, before, a => Net(es[..|es| - 1], a));
    }
  }

  lemma {:induction false} SumPoint(s: set<Account>, f: Account -> int, x: Account)
    requires x in s && forall a :: a in s && a != x ==> f(a) == 0
    ensures SumOver(s, f) == f(x)
  {
    SumRemove(s, f, x);
    SumZero(s - {x}, f);
  }

  /** Balanced books always pass the trial balance. */
  lemma {:induction false} BalancedBooksSumToZero(b: Books)
    requires Balanced(b) && Closed(b)
    ensures TrialBalance(b) == 0
  {
    NetsCancel(b.entries, Accounts(b));
    SumSame(Accounts(b), a => BalanceOf(b, a), a => Net(b.entries, a));
  }
}
