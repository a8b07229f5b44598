/** Histories of the cache as a memory: it may forget, but it never lies. */
module CacheMemory {
  import opened Prelude
  import opened Glob
  import opened Cache

  datatype Step<V> = Step(op: Op<V>, now: int)

  function Run<V>(steps: seq<Step<V>>, maxEntries: nat): Store<V>
    decreases |steps|
  {
    if steps == [] then Store([], map[])
    else Apply(Run(steps[..|steps| - 1], maxEntries), steps[|steps| - 1].op, steps[|steps| - 1].now, maxEntries).0
  }

  predicate Monotone<V>(steps: seq<Step<V>>)
  {
    forall i, j :: 0 <= i < j < |steps| ==> steps[i].now <= steps[j].now
  }

  // ----- the ideal memory of one key

  /** What a caller may expect under a key: the last item set and not taken back since. */
  function Remembered<V>(steps: seq<Step<V>>, k: string): Option<Item<V>>
    decreases |steps|
  {
    if steps == [] then None else
      var before := Remembered(steps[..|steps| - 1], k);
      var now := steps[|steps| - 1].now;
      match steps[|steps| - 1].op
      case Set(c, v, ttl) =>
        if c == k then Some(Item(k, v, if ttl.Some? && ttl.value > 0 then Some(now + ttl.value) else None)) else before
      case Del(c) => if c == k then None else before
      case InvalidatePattern(p) => if Test(p, k) then None else before
      case Clear => None
      case _ => before
  }

  /** A ttl in milliseconds was given and that time has gone by since. */
  predicate Lapsed<V>(item: Item<V>, now: int)
  {
    item.expiresAt.Some? && item.expiresAt.value < now
  }

  /** The key was dropped to make room since it was last set. */
  predicate Evicted<V>(steps: seq<Step<V>>, k: string, maxEntries: nat)
    decreases |steps|
  {
    if steps == [] then false else
      var earlier := steps[..|steps| - 1];
      match steps[|steps| - 1].op
      case Set(c, v, ttl) =>
        c != k && (Evicted(earlier, k, maxEntries) || MakesRoom(Run(earlier, maxEntries).items, c, k, maxEntries))
      case _ => Evicted(earlier, k, maxEntries)
  }

  /** Setting `c` drops `k`: the store is full, `c` is new, and `k` is among the first entries. */
  predicate MakesRoom<V>(items: seq<Item<V>>, c: string, k: string, maxEntries: nat)
  {
    Evicts(items, c, maxEntries) && exists i :: 0 <= i < |items| && i < Quota(maxEntries) && items[i].key == k
  }

  // ----- lists

  lemma {:induction false} FindAt<V>(items: seq<Item<V>>, i: nat)
    requires Distinct(items) && i < |items|
    ensures Find(items, items[i].key) == Some(items[i])
  {}

  lemma {:induction false} FoundAt<V>(items: seq<Item<V>>, k: string) returns (i: nat)
    requires Find(items, k).Some?
    ensures i < |items| && items[i] == Find(items, k).value && items[i].key == k
  {
    if items[0].key == k {
      i := 0;
    } else {
      i := FoundAt(items[1..], k);
      i := i + 1;
    }
  }

  lemma {:induction false} SuffixFinds<V>(items: seq<Item<V>>, q: nat, k: string)
    requires Distinct(items) && q <= |items|
    ensures var dropped := exists i :: 0 <= i < q && items[i].key == k;
            Find(items[q..], k) == if dropped then None else Find(items, k)
    ensures Distinct(items[q..])
  {
    if q > 0 {
      SuffixFinds(items[1..], q - 1, k);
      assert items[1..][q - 1..] == items[q..];
      assert forall i :: 0 < i < q ==> items[i] == items[1..][i - 1];
      if items[0].key == k {
        assert forall i :: 0 <= i < |items[1..]| ==> items[1..][i].key != k;
      }
    }
  }

  /** What an eviction leaves under one key. */
  lemma {:induction false} EvictFinds<V>(items: seq<Item<V>>, maxEntries: nat, k: string)
    requires Distinct(items)
    ensures var dropped := exists i :: 0 <= i < |items| && i < Quota(maxEntries) && items[i].key == k;
            Find(Evict(items, maxEntries), k) == if dropped then None else Find(items, k)
    ensures Distinct(Evict(items, maxEntries))
  {
    var q := if Quota(maxEntries) >= |items| then |items| else Quota(maxEntries);
    SuffixFinds(items, q, k);
    assert Evict(items, maxEntries) == items[q..];
  }

  lemma {:induction false} InsertFinds<V>(items: seq<Item<V>>, item: Item<V>, maxEntries: nat, k: string)
    requires Distinct(items)
    ensures Find(Insert(items, item, maxEntries), k)
         == if k == item.key then Some(item)
            else if MakesRoom(items, item.key, k, maxEntries) then None
            else Find(items, k)
    ensures Distinct(Insert(items, item, maxEntries))
  {
    EvictFinds(items, maxEntries, k);
    var left := if Evicts(items, item.key, maxEntries) then Evict(items, maxEntries) else items;
    PutFinds(left, item, k);
    PutDistinct(left, item);
  }

  /** The store never exceeds its capacity. */
  lemma {:induction false} SizeIsBounded<V>(steps: seq<Step<V>>, maxEntries: nat)
    requires maxEntries > 0
    ensures Distinct(Run(steps, maxEntries).items) && |Run(steps, maxEntries).items| <= maxEntries
    decreases |steps|
  {
    if steps != [] {
      var s := Run(steps[..|steps| - 1], maxEntries);
      SizeIsBounded(steps[..|steps| - 1], maxEntries);
      match steps[|steps| - 1].op {
        case Get(k) => KeepDistinct(s.items, NotKey(k));
        case Set(k, v, ttl) =>
          var item := Item(k, v, Expiry(ttl, steps[|steps| - 1].now));
          InsertFinds(s.items, item, maxEntries, k);
          PutFinds(if Evicts(s.items, k, maxEntries) then Evict(s.items, maxEntries) else s.items, item, k);
        case Del(k) => KeepDistinct(s.items, NotKey(k));
        case InvalidatePattern(p) => KeepDistinct(s.items, Unmatched(p));
        case CleanupExpired => KeepDistinct(s.items, Unexpired(steps[|steps| - 1].now));
        case _ =>
      }
    }
  }

  /** What the store holds under a key, against the ideal memory at time `now`. */
  ghost predicate Agrees<V>(found: Option<Item<V>>, remembered: Option<Item<V>>, evicted: bool, now: int)
  {
    && (found.Some? ==> remembered == found && !evicted)
    && (found.None? ==> remembered.None? || evicted || Lapsed(remembered.value, now))
  }

  /** The run so far agrees about key `k`, at a time before its last step. */
  ghost predicate AgreesBefore<V>(steps: seq<Step<V>>, k: string, maxEntries: nat, clock: int)
    requires steps != [] && maxEntries > 0
  {
    var last, earlier := steps[|steps| - 1], steps[..|steps| - 1];
    && clock <= last.now && Distinct(Run(earlier, maxEntries).items)
    && Agrees(Find(Run(earlier, maxEntries).items, k), Remembered(earlier, k), Evicted(earlier, k, maxEntries), clock)
  }

  lemma {:induction false} SetAgrees<V>(steps: seq<Step<V>>, k: string, maxEntries: nat, clock: int)
    requires steps != [] && maxEntries > 0 && steps[|steps| - 1].op.Set? && AgreesBefore(steps, k, maxEntries, clock)
    ensures Agrees(Find(Run(steps, maxEntries).items, k), Remembered(steps, k), Evicted(steps, k, maxEntries), steps[|steps| - 1].now)
  {
    var op, now := steps[|steps| - 1].op, steps[|steps| - 1].now;
    var items := Run(steps[..|steps| - 1], maxEntries).items;
    InsertFinds(items, Item(op.key, op.value, Expiry(op.ttl, now)), maxEntries, k);
  }

  lemma {:induction false} GetAgrees<V>(steps: seq<Step<V>>, k: string, maxEntries: nat, clock: int)
    requires steps != [] && maxEntries > 0 && steps[|steps| - 1].op.Get? && AgreesBefore(steps, k, maxEntries, clock)
    ensures Agrees(Find(Run(steps, maxEntries).items, k), Remembered(steps, k), Evicted(steps, k, maxEntries), steps[|steps| - 1].now)
  {
    KeepFinds(Run(steps[..|steps| - 1], maxEntries).items, NotKey(steps[|steps| - 1].op.key), k);
  }

  lemma {:induction false} StepAgrees<V>(steps: seq<Step<V>>, k: string, maxEntries: nat, clock: int)
    requires steps != [] && maxEntries > 0 && AgreesBefore(steps, k, maxEntries, clock)
    ensures Agrees(Find(Run(steps, maxEntries).items, k), Remembered(steps, k), Evicted(steps, k, maxEntries), steps[|steps| - 1].now)
  {
    var last := steps[|steps| - 1];
    var items := Run(steps[..|steps| - 1], maxEntries).items;
    match last.op {
      case Get(_) => GetAgrees(steps, k, maxEntries, clock);
      case Set(_, _, _) => SetAgrees(steps, k, maxEntries, clock);
      case Del(c) => KeepFinds(items, NotKey(c), k);
      case InvalidatePattern(p) => KeepFinds(items, Unmatched(p), k);
      case CleanupExpired => KeepFinds(items, Unexpired(last.now), k);
      case _ =>
    }
  }

  lemma {:induction false} RunAgrees<V>(steps: seq<Step<V>>, k: string, maxEntries: nat, now: int)
    requires maxEntries > 0 && Monotone(steps)
    requires forall i :: 0 <= i < |steps| ==> steps[i].now <= now
    ensures Agrees(Find(Run(steps, maxEntries).items, k), Remembered(steps, k), Evicted(steps, k, maxEntries), now)
    decreases |steps|
  {
    if steps != [] {
      var earlier := steps[..|steps| - 1];
      SizeIsBounded(earlier, maxEntries);
      RunAgrees(earlier, k, maxEntries, steps[|steps| - 1].now);
      StepAgrees(steps, k, maxEntries, steps[|steps| - 1].now);
    }
  }

  /** The cache may forget but never lies: after any run, a lookup answers exactly the item last set
      and not deleted, invalidated or cleared since, unless it expired or was evicted. */
  lemma {:induction false} MayForgetNeverLies<V>(steps: seq<Step<V>>, k: string, now: int, maxEntries: nat)
    requires maxEntries > 0 && Monotone(steps)
    requires forall i :: 0 <= i < |steps| ==> steps[i].now <= now
    ensures var item := Remembered(steps, k);
            Apply(Run(steps, maxEntries), Get(k), now, maxEntries).1
            == if item.Some? && !Lapsed(item.value, now) && !Evicted(steps, k, maxEntries)
               then Value(item.value.value) else Absent
  {
    RunAgrees(steps, k, maxEntries, now);
  }

  // ----- eviction order

  /** The step at which a key now in the store was first inserted. */
  function Birth<V>(steps: seq<Step<V>>, k: string, maxEntries: nat): Option<nat>
    decreases |steps|
  {
    if Find(Run(steps, maxEntries).items, k).None? then None
    else
      var earlier := steps[..|steps| - 1];
      if Find(Run(earlier, maxEntries).items, k).Some? then Birth(earlier, k, maxEntries) else Some(|earlier|)
  }

  ghost predicate SameOrder<V>(items: seq<Item<V>>, items': seq<Item<V>>)
  {
    forall i, j :: 0 <= i < j < |items'| ==> Follows(items, items'[i].key, items'[j].key)
  }

  /** Of two neighbours in the new list, the first is old, and the second is a later old one or new. */
  ghost predicate Follows<V>(items: seq<Item<V>>, a: string, b: string)
  {
    exists i :: 0 <= i < |items| && items[i].key == a &&
      (Find(items, b).None? || exists j :: i < j < |items| && items[j].key == b)
  }

  lemma {:induction false} KeepPair<V>(items: seq<Item<V>>, keep: Item<V> -> bool, i: nat, j: nat)
    returns (i': nat, j': nat)
    requires i < j < |Keep(items, keep)|
    ensures i' < j' < |items| && items[i'] == Keep(items, keep)[i] && items[j'] == Keep(items, keep)[j]
  {
    var head := if keep(items[0]) then [items[0]] else [];
    assert Keep(items, keep) == head + Keep(items[1..], keep);
    if i < |head| {
      i' := 0;
      j' := KeepOrigin(items[1..], keep, j - 1);
    } else {
      i', j' := KeepPair(items[1..], keep, i - |head|, j - |head|);
      i' := i' + 1;
    }
    j' := j' + 1;
  }

  lemma {:induction false} KeepOrder<V>(items: seq<Item<V>>, keep: Item<V> -> bool)
    ensures SameOrder(items, Keep(items, keep))
  {
    var kept := Keep(items, keep);
    forall i, j | 0 <= i < j < |kept| ensures Follows(items, kept[i].key, kept[j].key) {
      var i', j' := KeepPair(items, keep, i, j);
    }
  }

  lemma {:induction false} InsertOrder<V>(items: seq<Item<V>>, item: Item<V>, maxEntries: nat)
    ensures SameOrder(items, Insert(items, item, maxEntries))
  {
    if Evicts(items, item.key, maxEntries) {
      var left := Evict(items, maxEntries);
      assert forall i :: 0 <= i < |left| ==> left[i] == items[i + Quota(maxEntries)];
      if Find(left, item.key).Some? {
        var i := FoundAt(left, item.key);
      }
      assert Find(left, item.key).None?;
      PutKeys(left, item);
      var next := Insert(items, item, maxEntries);
      assert next == left + [item];
      forall i, j | 0 <= i < j < |next| ensures Follows(items, next[i].key, next[j].key) {
        assert next[i] == items[i + Quota(maxEntries)];
        assert j < |left| ==> next[j] == items[j + Quota(maxEntries)];
      }
    } else {
      PutKeys(items, item);
      var next := Insert(items, item, maxEntries);
      forall i, j | 0 <= i < j < |next| ensures Follows(items, next[i].key, next[j].key) {
        assert next[i].key == items[i].key;
        assert j < |items| ==> next[j].key == items[j].key;
      }
    }
  }

  lemma {:induction false} StepOrder<V>(s: Store<V>, step: Step<V>, maxEntries: nat)
    requires Distinct(s.items)
    ensures SameOrder(s.items, Apply(s, step.op, step.now, maxEntries).0.items)
  {
    match step.op {
      case Get(k) => KeepOrder(s.items, NotKey(k));
      case Set(k, v, ttl) => InsertOrder(s.items, Item(k, v, Expiry(ttl, step.now)), maxEntries);
      case Del(k) => KeepOrder(s.items, NotKey(k));
      case InvalidatePattern(p) => KeepOrder(s.items, Unmatched(p));
      case CleanupExpired => KeepOrder(s.items, Unexpired(step.now));
      case _ =>
    }
    var next := Apply(s, step.op, step.now, maxEntries).0.items;
    if next == s.items {
      forall i, j | 0 <= i < j < |next| ensures Follows(s.items, next[i].key, next[j].key) {}
    }
  }

  /** The list is always in order of first insertion. */
  lemma {:induction false} OldestFirst<V>(steps: seq<Step<V>>, maxEntries: nat, i: nat, j: nat)
    requires maxEntries > 0
    requires i < j < |Run(steps, maxEntries).items|
    ensures var items := Run(steps, maxEntries).items;
            var a, b := Birth(steps, items[i].key, maxEntries), Birth(steps, items[j].key, maxEntries);
            a.Some? && b.Some? && a.value < b.value < |steps|
    decreases |steps|
  {
    if steps != [] {
      var earlier, last := steps[..|steps| - 1], steps[|steps| - 1];
      var items, next := Run(earlier, maxEntries).items, Run(steps, maxEntries).items;
      SizeIsBounded(earlier, maxEntries);
      SizeIsBounded(steps, maxEntries);
      StepOrder(Run(earlier, maxEntries), last, maxEntries);
      FindAt(next, i);
      FindAt(next, j);
      assert Follows(items, next[i].key, next[j].key);
      var i' :| 0 <= i' < |items| && items[i'].key == next[i].key &&
        (Find(items, next[j].key).None? || exists j' :: i' < j' < |items| && items[j'].key == next[j].key);
      FindAt(items, i');
      if Find(items, next[j].key).Some? {
        var j' :| i' < j' < |items| && items[j'].key == next[j].key;
        OldestFirst(earlier, maxEntries, i', j');
      } else {
        BirthIsPast(earlier, next[i].key, maxEntries);
      }
    }
  }

  lemma {:induction false} BirthIsPast<V>(steps: seq<Step<V>>, k: string, maxEntries: nat)
    requires Find(Run(steps, maxEntries).items, k).Some?
    ensures Birth(steps, k, maxEntries).Some? && Birth(steps, k, maxEntries).value < |steps|
    decreases |steps|
  {
    var earlier := steps[..|steps| - 1];
    if Find(Run(earlier, maxEntries).items, k).Some? { BirthIsPast(earlier, k, maxEntries); }
  }

  /** Where an eviction separates the list. */
  lemma {:induction false} EvictionSplits<V>(items: seq<Item<V>>, item: Item<V>, maxEntries: nat, a: string, b: string)
    returns (i: nat, j: nat)
    requires Distinct(items) && Evicts(items, item.key, maxEntries)
    requires Find(items, a).Some? && Find(Insert(items, item, maxEntries), a).None?
    requires Find(items, b).Some? && Find(Insert(items, item, maxEntries), b).Some?
    ensures i < j < |items| && items[i].key == a && items[j].key == b
  {
    InsertFinds(items, item, maxEntries, a);
    InsertFinds(items, item, maxEntries, b);
    i :| 0 <= i < |items| && i < Quota(maxEntries) && items[i].key == a;
    j := FoundAt(items, b);
  }

  lemma {:induction false} EvictionSize<V>(items: seq<Item<V>>, item: Item<V>, maxEntries: nat)
    requires Distinct(items) && Evicts(items, item.key, maxEntries) && |items| == maxEntries > 0
    ensures |Insert(items, item, maxEntries)| == maxEntries - Quota(maxEntries) + 1
  {
    EvictFinds(items, maxEntries, item.key);
    PutFinds(Evict(items, maxEntries), item, item.key);
  }

  /** An eviction drops a tenth of the capacity, and whatever it drops was first inserted before
      everything it leaves. */
  lemma {:induction false} EvictsTheOldest<V>(steps: seq<Step<V>>, item: Item<V>, maxEntries: nat, a: string, b: string)
    requires maxEntries > 0 && Evicts(Run(steps, maxEntries).items, item.key, maxEntries)
    requires var items := Run(steps, maxEntries).items;
             && Find(items, a).Some? && Find(Insert(items, item, maxEntries), a).None?
             && Find(items, b).Some? && Find(Insert(items, item, maxEntries), b).Some?
    ensures var born, later := Birth(steps, a, maxEntries), Birth(steps, b, maxEntries);
            born.Some? && later.Some? && born.value < later.value
    ensures var dropped := maxEntries + 1 - |Insert(Run(steps, maxEntries).items, item, maxEntries)|;
            dropped >= 1 && maxEntries < 10 * (dropped + 1) && (dropped > 1 ==> 10 * dropped <= maxEntries)
  {
    var items := Run(steps, maxEntries).items;
    SizeIsBounded(steps, maxEntries);
    var i, j := EvictionSplits(items, item, maxEntries, a, b);
    OldestFirst(steps, maxEntries, i, j);
    EvictionSize(items, item, maxEntries);
  }
}
