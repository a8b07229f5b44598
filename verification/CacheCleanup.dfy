/** The periodic sweep is invisible: it changes no later lookup and no later lock acquisition. */
module CacheCleanup {
  import opened Prelude
  import opened Cache
  import opened CacheMemory

  // ----- runs from any state

  function Answers<V>(s: Store<V>, steps: seq<Step<V>>, maxEntries: nat): (answers: seq<Answer<V>>)
    ensures |answers| == |steps|
    decreases |steps|
  {
    if steps == [] then [] else
      var (next, answer) := Apply(s, steps[0].op, steps[0].now, maxEntries);
      [answer] + Answers(next, steps[1..], maxEntries)
  }

  /** No Set of the run finds the store full. */
  predicate NeverEvicts<V>(s: Store<V>, steps: seq<Step<V>>, maxEntries: nat)
    decreases |steps|
  {
    steps == [] ||
    (&& (steps[0].op.Set? ==> !Evicts(s.items, steps[0].op.key, maxEntries))
     && NeverEvicts(Apply(s, steps[0].op, steps[0].now, maxEntries).0, steps[1..], maxEntries))
  }

  predicate From<V>(now: int, steps: seq<Step<V>>)
    decreases |steps|
  {
    steps == [] || (now <= steps[0].now && From(steps[0].now, steps[1..]))
  }

  // ----- the simulation

  /** Under one key, `t` holds what `s` holds, or has dropped something that expired. */
  ghost predicate ItemAgrees<V>(s: seq<Item<V>>, t: seq<Item<V>>, k: string, now: int)
  {
    || Find(t, k) == Find(s, k)
    || (Find(t, k).None? && Find(s, k).Some? && Expired(Find(s, k).value, now))
  }

  ghost predicate ItemsAgree<V>(s: seq<Item<V>>, t: seq<Item<V>>, now: int)
  {
    Distinct(s) && Distinct(t) && forall k :: ItemAgrees(s, t, k, now)
  }

  ghost predicate LocksAgree(s: map<string, LockEntry>, t: map<string, LockEntry>, now: int)
  {
    && (forall k :: k in t ==> k in s && s[k] == t[k])
    && (forall k :: k in s && k !in t ==> s[k].expiresAt < now)
  }

  ghost predicate Swept<V>(s: Store<V>, t: Store<V>, now: int)
  {
    ItemsAgree(s.items, t.items, now) && LocksAgree(s.locks, t.locks, now)
  }

  function Keys<V>(items: seq<Item<V>>): set<string>
  {
    set i | 0 <= i < |items| :: items[i].key
  }

  lemma {:induction false} KeysCount<V>(items: seq<Item<V>>)
    requires Distinct(items)
    ensures |Keys(items)| == |items|
  {
    if items != [] {
      KeysCount(items[1..]);
      assert Keys(items) == {items[0].key} + Keys(items[1..]);
      assert items[0].key !in Keys(items[1..]);
    }
  }

  /** A swept store is no fuller, so it evicts only when the other does. */
  lemma {:induction false} EvictsLess<V>(s: seq<Item<V>>, t: seq<Item<V>>, now: int, k: string, maxEntries: nat)
    requires ItemsAgree(s, t, now)
    requires Evicts(t, k, maxEntries) && |s| <= maxEntries
    ensures Evicts(s, k, maxEntries)
  {
    KeysCount(s);
    KeysCount(t);
    forall c | c in Keys(t) ensures c in Keys(s) {
      var i :| 0 <= i < |t| && t[i].key == c;
      FindAt(t, i);
      assert ItemAgrees(s, t, c, now);
      var j := FoundAt(s, c);
    }
    KeepsCount(Keys(t), Keys(s));
    assert k !in Keys(s) && Keys(s) == Keys(t);
    if Find(s, k).Some? { var j := FoundAt(s, k); }
  }

  lemma {:induction false} KeepsCount(a: set<string>, b: set<string>)
    requires a <= b
    ensures |a| <= |b| && (|a| == |b| ==> a == b)
  {
    assert b == a + (b - a);
    assert |b| == |a| + |b - a|;
  }

  lemma {:induction false} KeepAgrees<V>(s: seq<Item<V>>, t: seq<Item<V>>, keep: Item<V> -> bool, now: int)
    requires ItemsAgree(s, t, now)
    ensures ItemsAgree(Keep(s, keep), Keep(t, keep), now)
  {
    KeepDistinct(s, keep);
    KeepDistinct(t, keep);
    forall k ensures ItemAgrees(Keep(s, keep), Keep(t, keep), k, now) {
      assert ItemAgrees(s, t, k, now);
      KeepFinds(s, keep, k);
      KeepFinds(t, keep, k);
    }
  }

  lemma {:induction false} PutAgrees<V>(s: seq<Item<V>>, t: seq<Item<V>>, item: Item<V>, now: int)
    requires ItemsAgree(s, t, now)
    ensures ItemsAgree(Put(s, item), Put(t, item), now)
  {
    PutDistinct(s, item);
    PutDistinct(t, item);
    forall k ensures ItemAgrees(Put(s, item), Put(t, item), k, now) {
      assert ItemAgrees(s, t, k, now);
      PutFinds(s, item, k);
      PutFinds(t, item, k);
    }
  }

  lemma {:induction false} Later<V>(s: Store<V>, t: Store<V>, now: int, later: int)
    requires Swept(s, t, now) && now <= later
    ensures Swept(s, t, later)
  {
    forall k ensures ItemAgrees(s.items, t.items, k, later) { assert ItemAgrees(s.items, t.items, k, now); }
  }

  /** A lookup finds the same in both, whichever of the two had to delete an expired entry. */
  lemma {:induction false} GetAgrees<V>(s: Store<V>, t: Store<V>, k: string, now: int, maxEntries: nat)
    requires Swept(s, t, now)
    ensures var (s', a), (t', b) := Apply(s, Get(k), now, maxEntries), Apply(t, Get(k), now, maxEntries);
            a == b && Swept(s', t', now)
  {
    assert ItemAgrees(s.items, t.items, k, now);
    KeepAgrees(s.items, t.items, NotKey(k), now);
    forall c ensures Find(t.items, k).None? ==> ItemAgrees(Keep(s.items, NotKey(k)), t.items, c, now) {
      assert ItemAgrees(s.items, t.items, c, now);
      KeepFinds(s.items, NotKey(k), c);
    }
    KeepDistinct(s.items, NotKey(k));
  }

  lemma {:induction false} StepAgrees<V>(s: Store<V>, t: Store<V>, op: Op<V>, now: int, maxEntries: nat)
    requires Swept(s, t, now) && |s.items| <= maxEntries
    requires op.Set? ==> !Evicts(s.items, op.key, maxEntries)
    ensures var (s', a), (t', b) := Apply(s, op, now, maxEntries), Apply(t, op, now, maxEntries);
            Swept(s', t', now) && (op.Get? || op.AcquireLock? ==> a == b)
  {
    match op {
      case Get(k) => GetAgrees(s, t, k, now, maxEntries);
      case Set(k, v, ttl) =>
        if Evicts(t.items, k, maxEntries) { EvictsLess(s.items, t.items, now, k, maxEntries); }
        PutAgrees(s.items, t.items, Item(k, v, Expiry(ttl, now)), now);
      case Del(k) => KeepAgrees(s.items, t.items, NotKey(k), now);
      case InvalidatePattern(p) => KeepAgrees(s.items, t.items, Unmatched(p), now);
      case CleanupExpired => KeepAgrees(s.items, t.items, Unexpired(now), now);
      case _ =>
    }
  }

  lemma {:induction false} StepIsBounded<V>(s: Store<V>, op: Op<V>, now: int, maxEntries: nat)
    requires |s.items| <= maxEntries
    requires op.Set? ==> !Evicts(s.items, op.key, maxEntries)
    ensures |Apply(s, op, now, maxEntries).0.items| <= maxEntries
  {
    if op.Set? { PutFinds(s.items, Item(op.key, op.value, Expiry(op.ttl, now)), op.key); }
  }

  lemma {:induction false} AnswersAgree<V>(s: Store<V>, t: Store<V>, steps: seq<Step<V>>, now: int, maxEntries: nat, i: nat)
    requires Swept(s, t, now) && |s.items| <= maxEntries
    requires From(now, steps) && NeverEvicts(s, steps, maxEntries)
    requires i < |steps| && (steps[i].op.Get? || steps[i].op.AcquireLock?)
    ensures Answers(s, steps, maxEntries)[i] == Answers(t, steps, maxEntries)[i]
    decreases |steps|
  {
    var op, later := steps[0].op, steps[0].now;
    Later(s, t, now, later);
    StepAgrees(s, t, op, later, maxEntries);
    StepIsBounded(s, op, later, maxEntries);
    if i > 0 {
      AnswersAgree(Apply(s, op, later, maxEntries).0, Apply(t, op, later, maxEntries).0, steps[1..], later, maxEntries, i - 1);
    }
  }

  /** Sweeping now changes no later answer of a lookup or of a lock acquisition, for every later run
      in which the unswept store never has to evict. */
  lemma {:induction false} CleanupIsInvisible<V>(s: Store<V>, now: int, steps: seq<Step<V>>, maxEntries: nat, i: nat)
    requires Distinct(s.items) && |s.items| <= maxEntries
    requires From(now, steps) && NeverEvicts(s, steps, maxEntries)
    requires i < |steps| && (steps[i].op.Get? || steps[i].op.AcquireLock?)
    ensures var swept := Apply(s, CleanupExpired, now, maxEntries).0;
            Answers(s, steps, maxEntries)[i] == Answers(swept, steps, maxEntries)[i]
  {
    var swept := Apply(s, CleanupExpired, now, maxEntries).0;
    KeepDistinct(s.items, Unexpired(now));
    forall k ensures ItemAgrees(s.items, swept.items, k, now) { KeepFinds(s.items, Unexpired(now), k); }
    AnswersAgree(s, swept, steps, now, maxEntries, i);
  }

  lemma {:induction false} KeepShrinks<V>(items: seq<Item<V>>, keep: Item<V> -> bool)
    ensures |Keep(items, keep)| == |items| <==> forall i :: 0 <= i < |items| ==> keep(items[i])
    ensures |Keep(items, keep)| == |items| ==> Keep(items, keep) == items
  {
    if items != [] {
      KeepShrinks(items[1..], keep);
      assert items == [items[0]] + items[1..];
    }
  }

  /** After a new key, the first entry of a store is still found iff the store was not full. */
  lemma {:induction false} FirstSurvivesIffNotFull<V>(s: Store<V>, now: int, item: Item<V>, maxEntries: nat)
    requires Distinct(s.items) && 0 < |s.items| <= maxEntries
    requires !Expired(s.items[0], now) && Find(s.items, item.key).None?
    ensures var put := Step(Set(item.key, item.value, None), now);
            var get := Step(Get(s.items[0].key), now);
            Answers(s, [put, get], maxEntries)
            == [Done, if |s.items| < maxEntries then Value(s.items[0].value) else Absent]
  {
    var first := s.items[0];
    FindAt(s.items, 0);
    InsertFinds(s.items, Item(item.key, item.value, None), maxEntries, first.key);
    if |s.items| == maxEntries { assert MakesRoom(s.items, item.key, first.key, maxEntries); }
    TwoAnswers(s, Step(Set(item.key, item.value, None), now), Step(Get(first.key), now), maxEntries);
  }

  lemma {:induction false} SweepKeepsFirst<V>(items: seq<Item<V>>, now: int)
    requires Distinct(items) && items != [] && !Expired(items[0], now)
    ensures var kept := Keep(items, Unexpired(now));
            && Distinct(kept) && kept != [] && kept[0] == items[0] && |kept| <= |items|
            && (|kept| < |items| <==> exists i :: 0 <= i < |items| && Expired(items[i], now))
            && forall k :: Find(items, k).None? ==> Find(kept, k).None?
  {
    KeepDistinct(items, Unexpired(now));
    KeepShrinks(items, Unexpired(now));
    forall k | Find(items, k).None? ensures Find(Keep(items, Unexpired(now)), k).None? { KeepFinds(items, Unexpired(now), k); }
    if |Keep(items, Unexpired(now))| < |items| {
      var i :| 0 <= i < |items| && !Unexpired(now)(items[i]);
      assert Expired(items[i], now);
    }
  }

  lemma {:induction false} SweptIsKept<V>(s: Store<V>, now: int, maxEntries: nat)
    ensures Apply(s, CleanupExpired, now, maxEntries).0.items == Keep(s.items, Unexpired(now))
  {
  }

  lemma {:induction false} TellsApart<V>(value: V)
    ensures [Done, Value(value)] != [Done, Absent]
  {
    assert [Done, Value(value)][1] != [Done, Absent][1];
  }

  /** Why evictions are excluded: on a full store whose oldest entry is live, whether a sweep before
      the next new key saves that entry depends on whether the sweep finds anything to remove. */
  lemma {:induction false} CleanupShowsIffSomethingExpired<V>(s: Store<V>, now: int, item: Item<V>, maxEntries: nat)
    requires Distinct(s.items) && |s.items| == maxEntries > 0
    requires !Expired(s.items[0], now) && Find(s.items, item.key).None?
    ensures var put := Step(Set(item.key, item.value, None), now);
            var get := Step(Get(s.items[0].key), now);
            var swept := Apply(s, CleanupExpired, now, maxEntries).0;
            Answers(s, [put, get], maxEntries) != Answers(swept, [put, get], maxEntries)
            <==> exists i :: 0 <= i < maxEntries && Expired(s.items[i], now)
  {
    SweepKeepsFirst(s.items, now);
    SweptIsKept(s, now, maxEntries);
    FirstSurvivesIffNotFull(s, now, item, maxEntries);
    FirstSurvivesIffNotFull(Apply(s, CleanupExpired, now, maxEntries).0, now, item, maxEntries);
    TellsApart(s.items[0].value);
  }

  lemma {:induction false} TwoAnswers<V>(s: Store<V>, a: Step<V>, b: Step<V>, maxEntries: nat)
    ensures var (next, answer) := Apply(s, a.op, a.now, maxEntries);
            Answers(s, [a, b], maxEntries) == [answer, Apply(next, b.op, b.now, maxEntries).1]
  {}
}
