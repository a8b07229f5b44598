/** From spacing to rates: if every `gap`-th event is at least `length` later, then no half-open
    interval of that length holds more than `gap` events. */
module Rates {

  predicate Rising(times: seq<int>)
  {
    forall i, j :: 0 <= i < j < |times| ==> times[i] <= times[j]
  }

  predicate Spaced(times: seq<int>, gap: nat, length: int)
  {
    forall i, j :: 0 <= i < |times| && 0 <= j < |times| && j == i + gap ==> times[i] + length <= times[j]
  }

  /** How many events fall into the interval from `start` of the given length. */
  function Inside(times: seq<int>, start: int, length: int): (count: nat)
    ensures count <= |times|
  {
    if times == [] then 0 else
      var last := times[|times| - 1];
      Inside(times[..|times| - 1], start, length) + if start <= last < start + length then 1 else 0
  }

  lemma {:induction false} NoneBefore(times: seq<int>, start: int, length: int)
    requires forall i :: 0 <= i < |times| ==> times[i] < start
    ensures Inside(times, start, length) == 0
  {
    if times != [] { NoneBefore(times[..|times| - 1], start, length); }
  }

  lemma {:induction false} SuffixBound(times: seq<int>, start: int, length: int, i: nat)
    requires i <= |times|
    ensures Inside(times, start, length) <= Inside(times[..i], start, length) + |times| - i
    decreases |times|
  {
    if i == |times| {
      assert times[..i] == times;
    } else {
      SuffixBound(times[..|times| - 1], start, length, i);
      assert times[..|times| - 1][..i] == times[..i];
    }
  }

  lemma {:induction false} SpacedBoundsRate(times: seq<int>, gap: nat, length: int, start: int)
    requires Rising(times) && Spaced(times, gap, length)
    ensures Inside(times, start, length) <= gap
  {
    if |times| > gap {
      var n := |times|;
      if times[n - 1] < start + length {
        assert times[n - 1 - gap] < start;
        NoneBefore(times[..n - gap], start, length);
        SuffixBound(times, start, length, n - gap);
      } else {
        SpacedBoundsRate(times[..n - 1], gap, length, start);
      }
    }
  }
}
