/** Shared helpers: optional values and sums over finite sets. */
module Prelude {

  datatype Option<+T> = None | Some(value: T)

  function Min(a: int, b: int): int { if a <= b then a else b }

  /** The sum of `f` over the elements of `s`. */
  ghost function SumOver<T(!new)>(s: set<T>, f: T -> int): int
  {
    if s == {} then 0 else var x :| x in s; f(x) + SumOver(s - {x}, f)
  }

  /** The sum does not depend on which element is taken out first. */
  lemma {:induction false} SumRemove<T(!new)>(s: set<T>, f: T -> int, x: T)
    requires x in s
    ensures SumOver(s, f) == f(x) + SumOver(s - {x}, f)
    decreases |s|
  {
    var y :| y in s && SumOver(s, f) == f(y) + SumOver(s - {y}, f);
    if y != x {
      SumRemove(s - {y}, f, x);
      SumRemove(s - {x}, f, y);
      assert s - {y} - {x} == s - {x} - {y};
    }
  }

  lemma {:induction false} SumSame<T(!new)>(s: set<T>, f: T -> int, g: T -> int)
    requires forall x :: x in s ==> f(x) == g(x)
    ensures SumOver(s, f) == SumOver(s, g)
    decreases |s|
  {
    if s != {} {
      var x :| x in s;
      SumRemove(s, f, x);
      SumRemove(s, g, x);
      SumSame(s - {x}, f, g);
    }
  }

  /** Changing the summand at one element changes the sum by that difference. */
  lemma {:induction false} SumChange<T(!new)>(s: set<T>, f: T -> int, g: T -> int, x: T)
    requires x in s
    requires forall y :: y in s && y != x ==> f(y) == g(y)
    ensures SumOver(s, g) == SumOver(s, f) - f(x) + g(x)
  {
    SumRemove(s, f, x);
    SumRemove(s, g, x);
    SumSame(s - {x}, f, g);
  }

  /** A new element adds its own summand. */
  lemma {:induction false} SumInsert<T(!new)>(s: set<T>, f: T -> int, g: T -> int, x: T)
    requires x !in s
    requires forall y :: y in s ==> f(y) == g(y)
    ensures SumOver(s + {x}, g) == SumOver(s, f) + g(x)
  {
    SumRemove(s + {x}, g, x);
    assert s + {x} - {x} == s;
    SumSame(s, f, g);
  }

  lemma {:induction false} SumAdd<T(!new)>(s: set<T>, f: T -> int, g: T -> int, h: T -> int)
    requires forall x :: x in s ==> h(x) == f(x) + g(x)
    ensures SumOver(s, h) == SumOver(s, f) + SumOver(s, g)
    decreases |s|
  {
    if s != {} {
      var x :| x in s;
      SumRemove(s, f, x);
      SumRemove(s, g, x);
      SumRemove(s, h, x);
      SumAdd(s - {x}, f, g, h);
    }
  }

  lemma {:induction false} SumZero<T(!new)>(s: set<T>, f: T -> int)
    requires forall x :: x in s ==> f(x) == 0
    ensures SumOver(s, f) == 0
    decreases |s|
  {
    if s != {} {
      var x :| x in s;
      SumRemove(s, f, x);
      SumZero(s - {x}, f);
    }
  }

  /** The sum of f(0), ..., f(n - 1). */
  ghost function SumUpTo(n: nat, f: nat -> int): int
  {
    if n == 0 then 0 else SumUpTo(n - 1, f) + f(n - 1)
  }

  lemma {:induction false} SumUpToSame(n: nat, f: nat -> int, g: nat -> int)
    requires forall i :: 0 <= i < n ==> f(i) == g(i)
    ensures SumUpTo(n, f) == SumUpTo(n, g)
  {
    if n > 0 { SumUpToSame(n - 1, f, g); }
  }

  lemma {:induction false} SumUpToZero(n: nat, f: nat -> int)
    requires forall i :: 0 <= i < n ==> f(i) == 0
    ensures SumUpTo(n, f) == 0
  {
    if n > 0 { SumUpToZero(n - 1, f); }
  }

  lemma {:induction false} SumUpToAdd(n: nat, f: nat -> int, g: nat -> int, h: nat -> int)
    requires forall i :: 0 <= i < n ==> h(i) == f(i) + g(i)
    ensures SumUpTo(n, h) == SumUpTo(n, f) + SumUpTo(n, g)
  {
    if n > 0 { SumUpToAdd(n - 1, f, g, h); }
  }

  /** A sum with at most one summand that is not zero. */
  lemma {:induction false} SumUpToOnly(n: nat, f: nat -> int, x: nat)
    requires x < n
    requires forall i :: 0 <= i < n && i != x ==> f(i) == 0
    ensures SumUpTo(n, f) == f(x)
  {
    if x == n - 1 { SumUpToZero(n - 1, f); } else { SumUpToOnly(n - 1, f, x); }
  }

  /** The sum of `f` over the elements of a sequence. */
  function SumSeq<T>(xs: seq<T>, f: T -> int): int
  {
    if xs == [] then 0 else SumSeq(xs[..|xs| - 1], f) + f(xs[|xs| - 1])
  }

  lemma {:induction false} SumSeqAppend<T>(xs: seq<T>, f: T -> int, x: T)
    ensures SumSeq(xs + [x], f) == SumSeq(xs, f) + f(x)
  {}

  lemma {:induction false} SumSeqUpdate<T>(xs: seq<T>, f: T -> int, i: nat, x: T)
    requires i < |xs|
    ensures SumSeq(xs[i := x], f) == SumSeq(xs, f) - f(xs[i]) + f(x)
  {
    var ys, n := xs[i := x], |xs| - 1;
    if i == n {
      assert ys[..n] == xs[..n];
    } else {
      SumSeqUpdate(xs[..n], f, i, x);
      assert ys[..n] == xs[..n][i := x];
    }
  }

  lemma {:induction false} SumSeqZero<T>(xs: seq<T>, f: T -> int)
    requires forall i :: 0 <= i < |xs| ==> f(xs[i]) == 0
    ensures SumSeq(xs, f) == 0
  {
    if xs != [] { SumSeqZero(xs[..|xs| - 1], f); }
  }

  lemma {:induction false} SumSeqOnly<T>(xs: seq<T>, f: T -> int, x: nat)
    requires x < |xs|
    requires forall i :: 0 <= i < |xs| && i != x ==> f(xs[i]) == 0
    ensures SumSeq(xs, f) == f(xs[x])
  {
    if x == |xs| - 1 { SumSeqZero(xs[..|xs| - 1], f); } else { SumSeqOnly(xs[..|xs| - 1], f, x); }
  }

  function Indexed<T>(xs: seq<T>, f: T -> int): nat -> int
  {
    (i: nat) => if i < |xs| then f(xs[i]) else 0
  }

  lemma {:induction false} SumSeqByIndex<T>(xs: seq<T>, f: T -> int)
    ensures SumSeq(xs, f) == SumUpTo(|xs|, Indexed(xs, f))
  {
    if xs == [] {
    } else {
      SumSeqByIndex(xs[..|xs| - 1], f);
      SumUpToSame(|xs| - 1, Indexed(xs, f), Indexed(xs[..|xs| - 1], f));
    }
  }

  /** Summing a sequence group by group. */
  lemma {:induction false} SumSeqGrouped<T>(n: nat, xs: seq<T>, parts: nat -> (T -> int), whole: T -> int)
    requires forall i :: 0 <= i < |xs| ==> SumUpTo(n, (c: nat) => parts(c)(xs[i])) == whole(xs[i])
    ensures SumUpTo(n, (c: nat) => SumSeq(xs, parts(c))) == SumSeq(xs, whole)
  {
    if xs == [] {
      assert forall c: nat :: SumSeq(xs, parts(c)) == 0;
      SumUpToZero(n, (c: nat) => SumSeq(xs, parts(c)));
    } else {
      var init, last := xs[..|xs| - 1], xs[|xs| - 1];
      SumSeqGrouped(n, init, parts, whole);
      SumUpToAdd(n, (c: nat) => SumSeq(init, parts(c)), (c: nat) => parts(c)(last), (c: nat) => SumSeq(xs, parts(c)));
    }
  }
}
