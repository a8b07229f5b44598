/** Exactly when the periodic sweep is invisible to all that may happen later, evictions included. */
module CacheVisibility {
  import opened Prelude
  import opened Cache
  import opened CacheMemory
  import opened CacheCleanup

  /** Two stores answer every lookup and every lock acquisition of the run alike. */
  ghost predicate SameAnswers<V>(s: Store<V>, t: Store<V>, steps: seq<Step<V>>, maxEntries: nat)
  {
    forall i :: 0 <= i < |steps| && (steps[i].op.Get? || steps[i].op.AcquireLock?) ==>
      Answers(s, steps, maxEntries)[i] == Answers(t, steps, maxEntries)[i]
  }

  ghost predicate Invisible<V(!new)>(s: Store<V>, now: int, maxEntries: nat)
  {
    forall steps :: From(now, steps) ==>
      SameAnswers(s, Apply(s, CleanupExpired, now, maxEntries).0, steps, maxEntries)
  }

  predicate AllLive<V>(items: seq<Item<V>>, now: int)
  {
    forall i :: 0 <= i < |items| ==> !Expired(items[i], now)
  }

  // ----- nothing expired, or a store of one entry

  /** The same entries, or one expired entry less where there is room for one only. */
  ghost predicate Hidden<V>(s: seq<Item<V>>, t: seq<Item<V>>, now: int, maxEntries: nat)
  {
    t == s || (maxEntries == 1 && t == [] && |s| == 1 && Expired(s[0], now))
  }

  lemma {:induction false} GetHides<V>(s: Store<V>, t: Store<V>, k: string, now: int, maxEntries: nat)
    requires Hidden(s.items, t.items, now, maxEntries)
    ensures var (s', a), (t', b) := Apply(s, Get(k), now, maxEntries), Apply(t, Get(k), now, maxEntries);
            a == b && Hidden(s'.items, t'.items, now, maxEntries) && s'.locks == s.locks && t'.locks == t.locks
  {
  }

  lemma {:induction false} StepHides<V>(s: Store<V>, t: Store<V>, op: Op<V>, now: int, maxEntries: nat)
    requires Hidden(s.items, t.items, now, maxEntries) && LocksAgree(s.locks, t.locks, now)
    ensures var (s', a), (t', b) := Apply(s, op, now, maxEntries), Apply(t, op, now, maxEntries);
            && Hidden(s'.items, t'.items, now, maxEntries) && LocksAgree(s'.locks, t'.locks, now)
            && (op.Get? || op.AcquireLock? ==> a == b)
  {
    if op.Get? { GetHides(s, t, op.key, now, maxEntries); }
  }

  lemma {:induction false} RunHides<V>(s: Store<V>, t: Store<V>, steps: seq<Step<V>>, now: int, maxEntries: nat, i: nat)
    requires Hidden(s.items, t.items, now, maxEntries) && LocksAgree(s.locks, t.locks, now) && From(now, steps)
    requires i < |steps| && (steps[i].op.Get? || steps[i].op.AcquireLock?)
    ensures Answers(s, steps, maxEntries)[i] == Answers(t, steps, maxEntries)[i]
    decreases |steps|
  {
    var op, later := steps[0].op, steps[0].now;
    StepHides(s, t, op, later, maxEntries);
    if i > 0 {
      RunHides(Apply(s, op, later, maxEntries).0, Apply(t, op, later, maxEntries).0, steps[1..], later, maxEntries, i - 1);
    }
  }

  // ----- an expired entry shows

  /** The store after a run. */
  function Final<V>(s: Store<V>, steps: seq<Step<V>>, maxEntries: nat): Store<V>
    decreases |steps|
  {
    if steps == [] then s else Final(Apply(s, steps[0].op, steps[0].now, maxEntries).0, steps[1..], maxEntries)
  }

  lemma {:induction false} FinalConcat<V>(s: Store<V>, a: seq<Step<V>>, b: seq<Step<V>>, maxEntries: nat)
    ensures Final(s, a + b, maxEntries) == Final(Final(s, a, maxEntries), b, maxEntries)
    decreases |a|
  {
    if a == [] {
      assert a + b == b;
    } else {
      assert (a + b)[0] == a[0] && (a + b)[1..] == a[1..] + b;
      FinalConcat(Apply(s, a[0].op, a[0].now, maxEntries).0, a[1..], b, maxEntries);
    }
  }

  lemma {:induction false} LastAnswer<V>(s: Store<V>, steps: seq<Step<V>>, last: Step<V>, maxEntries: nat)
    ensures Answers(s, steps + [last], maxEntries)[|steps|]
         == Apply(Final(s, steps, maxEntries), last.op, last.now, maxEntries).1
    decreases |steps|
  {
    if steps == [] {
      assert steps + [last] == [last];
    } else {
      assert (steps + [last])[0] == steps[0] && (steps + [last])[1..] == steps[1..] + [last];
      LastAnswer(Apply(s, steps[0].op, steps[0].now, maxEntries).0, steps[1..], last, maxEntries);
    }
  }

  predicate AllAt<V>(steps: seq<Step<V>>, now: int)
  {
    forall i :: 0 <= i < |steps| ==> steps[i].now == now
  }

  lemma {:induction false} AtOnce<V>(steps: seq<Step<V>>, now: int)
    requires AllAt(steps, now)
    ensures From(now, steps)
    decreases |steps|
  {
    if steps != [] { AtOnce(steps[1..], now); }
  }

  /** Deletes the keys of `items`, except `x`. */
  function Dels<V>(items: seq<Item<V>>, x: string, now: int): (steps: seq<Step<V>>)
    ensures AllAt(steps, now)
  {
    if items == [] then [] else
      (if items[0].key == x then [] else [Step(Del(items[0].key), now)]) + Dels(items[1..], x, now)
  }

  lemma {:induction false} DelsLeave<V>(s: Store<V>, items: seq<Item<V>>, x: string, now: int, maxEntries: nat, k: string)
    requires Distinct(s.items)
    ensures var left := Final(s, Dels(items, x, now), maxEntries).items;
            && Distinct(left)
            && Find(left, k) == if k != x && Find(items, k).Some? then None else Find(s.items, k)
    decreases |items|
  {
    if items != [] {
      var c, rest := items[0].key, Dels(items[1..], x, now);
      if c == x {
        assert Dels(items, x, now) == rest;
        DelsLeave(s, items[1..], x, now, maxEntries, k);
      } else {
        var s1 := Apply(s, Del(c), now, maxEntries).0;
        KeepDistinct(s.items, NotKey(c));
        KeepFinds(s.items, NotKey(c), k);
        FinalConcat(s, [Step(Del(c), now)], rest, maxEntries);
        assert Final(s, [Step(Del(c), now)], maxEntries) == s1;
        DelsLeave(s1, items[1..], x, now, maxEntries, k);
      }
    }
  }

  lemma {:induction false} OnlyOne<V>(items: seq<Item<V>>, x: string)
    requires Distinct(items) && forall k :: k != x ==> Find(items, k).None?
    ensures items == if Find(items, x).Some? then [Find(items, x).value] else []
  {
    assert |items| > 1 ==> items[0].key != items[1].key;
    forall i | 0 <= i < |items| ensures items[i].key == x { FindAt(items, i); }
  }

  function Fresh(x: string, n: nat): (k: string)
    ensures |k| == |x| + 1 + n
  {
    if n == 0 then x + "a" else Fresh(x, n - 1) + "a"
  }

  /** New entries `a` up to, but not including, `b`. */
  function News<V>(x: string, v: V, a: nat, b: nat): (items: seq<Item<V>>)
    requires a <= b
    ensures |items| == b - a && forall i :: 0 <= i < |items| ==> items[i] == Item(Fresh(x, a + i), v, None)
    decreases b
  {
    if a == b then [] else News(x, v, a, b - 1) + [Item(Fresh(x, b - 1), v, None)]
  }

  function Sets<V>(x: string, v: V, a: nat, b: nat, now: int): (steps: seq<Step<V>>)
    requires a <= b
    ensures AllAt(steps, now)
    decreases b
  {
    if a == b then [] else Sets(x, v, a, b - 1, now) + [Step(Set(Fresh(x, b - 1), v, None), now)]
  }

  /** While there is room, new entries go to the end. */
  lemma {:induction false} SetsAppend<V>(s: Store<V>, x: string, v: V, a: nat, b: nat, now: int, maxEntries: nat)
    requires a <= b && |s.items| + (b - a) <= maxEntries
    requires forall i :: 0 <= i < |s.items| ==> |s.items[i].key| <= |x| + a
    ensures Final(s, Sets(x, v, a, b, now), maxEntries).items == s.items + News(x, v, a, b)
    decreases b
  {
    if a < b {
      var before := Final(s, Sets(x, v, a, b - 1, now), maxEntries);
      var step := Step(Set(Fresh(x, b - 1), v, None), now);
      SetsAppend(s, x, v, a, b - 1, now, maxEntries);
      FinalConcat(s, Sets(x, v, a, b - 1, now), [step], maxEntries);
      assert Final(before, [step], maxEntries) == Apply(before, step.op, now, maxEntries).0;
      IsNew(before.items, Fresh(x, b - 1));
      PutKeys(before.items, Item(Fresh(x, b - 1), v, None));
    }
  }

  lemma {:induction false} IsNew<V>(items: seq<Item<V>>, k: string)
    requires forall i :: 0 <= i < |items| ==> |items[i].key| != |k|
    ensures Find(items, k).None?
  {
  }

  /** Fills the store around key `x` until one more entry has to go. */
  function Filling<V>(x: string, v: V, now: int, maxEntries: nat): (steps: seq<Step<V>>)
    requires maxEntries >= 2
    ensures AllAt(steps, now)
  {
    var q := Quota(maxEntries);
    Sets(x, v, 0, q, now) + [Step(Set(x, v, None), now)] + Sets(x, v, q, maxEntries - 1, now)
    + [Step(Set(Fresh(x, maxEntries - 1), v, None), now)]
  }

  lemma {:induction false} SetOnce<V>(s: Store<V>, k: string, v: V, now: int, maxEntries: nat)
    requires Find(s.items, k).Some? || |s.items| < maxEntries
    ensures Final(s, [Step(Set(k, v, None), now)], maxEntries).items == Put(s.items, Item(k, v, None))
  {
  }

  /** A full store drops its first entries for a new one. */
  lemma {:induction false} SetEvicts<V>(s: Store<V>, k: string, v: V, now: int, maxEntries: nat)
    requires Find(s.items, k).None? && |s.items| == maxEntries >= 2
    ensures Final(s, [Step(Set(k, v, None), now)], maxEntries).items
         == s.items[Quota(maxEntries)..] + [Item(k, v, None)]
  {
    var left := s.items[Quota(maxEntries)..];
    forall i | 0 <= i < |left| ensures left[i].key != k { assert left[i] == s.items[i + Quota(maxEntries)]; }
    PutKeys(left, Item(k, v, None));
  }

  /** Key `x` keeps its place at the front if it was there, so it is dropped first; otherwise it
      stands behind the entries that are dropped. */
  lemma {:induction false} FillingSets<V>(s: Store<V>, x: string, v: V, now: int, maxEntries: nat)
    requires maxEntries >= 2 && (s.items == [] || (|s.items| == 1 && s.items[0].key == x))
    ensures var q, item := Quota(maxEntries), Item(x, v, None);
            var first := Sets(x, v, 0, q, now) + [Step(Set(x, v, None), now)];
            Final(s, first, maxEntries).items
            == if s.items == [] then News(x, v, 0, q) + [item] else [item] + News(x, v, 0, q)
  {
    var q, item := Quota(maxEntries), Item(x, v, None);
    var sets := Sets(x, v, 0, q, now);
    var filled := Final(s, sets, maxEntries);
    SetsAppend(s, x, v, 0, q, now, maxEntries);
    FinalConcat(s, sets, [Step(Set(x, v, None), now)], maxEntries);
    if s.items == [] {
      assert filled.items == News(x, v, 0, q);
      IsNew(filled.items, x);
    } else {
      assert filled.items == [s.items[0]] + News(x, v, 0, q);
      assert filled.items[0].key == x;
    }
    SetOnce(filled, x, v, now, maxEntries);
    PutKeys(filled.items, item);
  }

  lemma {:induction false} NewsAreShorter<V>(items: seq<Item<V>>, x: string, v: V, a: nat, b: nat)
    requires a <= b && forall i :: 0 <= i < |items| ==> |items[i].key| <= |x| + a
    ensures Find(items + News(x, v, a, b), Fresh(x, b)).None?
  {
    var all := items + News(x, v, a, b);
    forall i | 0 <= i < |all| ensures |all[i].key| <= |x| + b {
      if i < |items| {
        assert all[i] == items[i];
      } else {
        assert all[i] == Item(Fresh(x, a + (i - |items|)), v, None);
      }
    }
    IsNew(all, Fresh(x, b));
  }

  lemma {:induction false} DropsFromFront<V>(items: seq<Item<V>>, x: string, v: V, q: nat, b: nat)
    requires q <= |items| && q < b
    ensures (items + News(x, v, q, b - 1))[q..] + [Item(Fresh(x, b - 1), v, None)] == items[q..] + News(x, v, q, b)
  {
    assert (items + News(x, v, q, b - 1))[q..] == items[q..] + News(x, v, q, b - 1);
  }

  lemma {:induction false} FillingEnds<V>(s: Store<V>, x: string, v: V, now: int, maxEntries: nat)
    requires maxEntries >= 2 && |s.items| == Quota(maxEntries) + 1
    requires forall i :: 0 <= i < |s.items| ==> |s.items[i].key| <= |x| + Quota(maxEntries)
    ensures var q := Quota(maxEntries);
            var last := Sets(x, v, q, maxEntries - 1, now) + [Step(Set(Fresh(x, maxEntries - 1), v, None), now)];
            Final(s, last, maxEntries).items == s.items[q..] + News(x, v, q, maxEntries)
  {
    var q, k := Quota(maxEntries), Fresh(x, maxEntries - 1);
    SetsAppend(s, x, v, q, maxEntries - 1, now, maxEntries);
    NewsAreShorter(s.items, x, v, q, maxEntries - 1);
    FinalConcat(s, Sets(x, v, q, maxEntries - 1, now), [Step(Set(k, v, None), now)], maxEntries);
    SetEvicts(Final(s, Sets(x, v, q, maxEntries - 1, now), maxEntries), k, v, now, maxEntries);
    DropsFromFront(s.items, x, v, q, maxEntries);
  }

  lemma {:induction false} FillingShows<V>(s: Store<V>, x: string, v: V, now: int, maxEntries: nat)
    requires maxEntries >= 2 && (s.items == [] || (|s.items| == 1 && s.items[0].key == x))
    ensures Find(Final(s, Filling(x, v, now, maxEntries), maxEntries).items, x)
         == if s.items == [] then Some(Item(x, v, None)) else None
  {
    var q := Quota(maxEntries);
    var first := Sets(x, v, 0, q, now) + [Step(Set(x, v, None), now)];
    var last := Sets(x, v, q, maxEntries - 1, now) + [Step(Set(Fresh(x, maxEntries - 1), v, None), now)];
    assert Filling(x, v, now, maxEntries) == first + last;
    FinalConcat(s, first, last, maxEntries);
    FillingSets(s, x, v, now, maxEntries);
    var middle := Final(s, first, maxEntries);
    FillingEnds(middle, x, v, now, maxEntries);
    if s.items != [] {
      var end := middle.items[q..] + News(x, v, q, maxEntries);
      assert end[0] == News(x, v, 0, q)[q - 1];
      IsNew(end, x);
    }
  }

  /** Deletes all but `x`, fills the store and looks `x` up. */
  function Experiment<V>(items: seq<Item<V>>, x: string, v: V, now: int, maxEntries: nat): (steps: seq<Step<V>>)
    requires maxEntries >= 2
    ensures AllAt(steps, now) && |steps| > 0 && steps[|steps| - 1] == Step(Get(x), now)
  {
    Dels(items, x, now) + Filling(x, v, now, maxEntries) + [Step(Get(x), now)]
  }

  lemma {:induction false} ExperimentEnds<V>(s: Store<V>, items: seq<Item<V>>, x: string, v: V, now: int, maxEntries: nat)
    requires maxEntries >= 2 && Distinct(s.items) && forall k :: Find(s.items, k).Some? ==> Find(items, k).Some?
    ensures var steps := Experiment(items, x, v, now, maxEntries);
            Answers(s, steps, maxEntries)[|steps| - 1] == if Find(s.items, x).Some? then Absent else Value(v)
  {
    var dels, filling := Dels(items, x, now), Filling(x, v, now, maxEntries);
    ClearedBut(s, items, x, now, maxEntries);
    FillingShows(Final(s, dels, maxEntries), x, v, now, maxEntries);
    FinalConcat(s, dels, filling, maxEntries);
    LastAnswer(s, dels + filling, Step(Get(x), now), maxEntries);
  }

  /** An experiment that tells the swept store from the unswept one. */
  lemma {:induction false} ExpiredShows<V>(s: Store<V>, now: int, maxEntries: nat, i: nat)
    requires Distinct(s.items) && |s.items| <= maxEntries && maxEntries >= 2
    requires i < |s.items| && Expired(s.items[i], now)
    ensures var steps := Experiment(s.items, s.items[i].key, s.items[i].value, now, maxEntries);
            From(now, steps) && !SameAnswers(s, Apply(s, CleanupExpired, now, maxEntries).0, steps, maxEntries)
  {
    var x, v := s.items[i].key, s.items[i].value;
    var swept := Apply(s, CleanupExpired, now, maxEntries).0;
    var steps := Experiment(s.items, x, v, now, maxEntries);
    AtOnce(steps, now);
    FindAt(s.items, i);
    KeepDistinct(s.items, Unexpired(now));
    forall k ensures Find(swept.items, k).Some? ==> Find(s.items, k).Some? { KeepFinds(s.items, Unexpired(now), k); }
    KeepFinds(s.items, Unexpired(now), x);
    ExperimentEnds(s, s.items, x, v, now, maxEntries);
    ExperimentEnds(swept, s.items, x, v, now, maxEntries);
    assert steps[|steps| - 1].op.Get?;
  }

  lemma {:induction false} ClearedBut<V>(s: Store<V>, items: seq<Item<V>>, x: string, now: int, maxEntries: nat)
    requires Distinct(s.items) && forall k :: Find(s.items, k).Some? ==> Find(items, k).Some?
    ensures Final(s, Dels(items, x, now), maxEntries).items
         == if Find(s.items, x).Some? then [Find(s.items, x).value] else []
  {
    var left := Final(s, Dels(items, x, now), maxEntries).items;
    forall k ensures Find(left, k) == if k == x then Find(s.items, x) else None {
      DelsLeave(s, items, x, now, maxEntries, k);
    }
    DelsLeave(s, items, x, now, maxEntries, x);
    OnlyOne(left, x);
  }

  /** No later run whatsoever can tell whether the sweep took place iff it found no expired entry,
      or the store has room for one entry only. */
  lemma {:induction false} CleanupIsInvisibleIffNothingExpired<V(!new)>(s: Store<V>, now: int, maxEntries: nat)
    requires Distinct(s.items) && |s.items| <= maxEntries
    ensures Invisible(s, now, maxEntries) <==> maxEntries == 1 || AllLive(s.items, now)
  {
    var swept := Apply(s, CleanupExpired, now, maxEntries).0;
    if maxEntries == 1 || AllLive(s.items, now) {
      KeepShrinks(s.items, Unexpired(now));
      forall steps: seq<Step<V>> | From(now, steps) ensures SameAnswers(s, swept, steps, maxEntries) {
        forall i | 0 <= i < |steps| && (steps[i].op.Get? || steps[i].op.AcquireLock?)
          ensures Answers(s, steps, maxEntries)[i] == Answers(swept, steps, maxEntries)[i]
        {
          RunHides(s, swept, steps, now, maxEntries, i);
        }
      }
    } else {
      var i :| 0 <= i < |s.items| && Expired(s.items[i], now);
      ExpiredShows(s, now, maxEntries, i);
    }
  }
}
