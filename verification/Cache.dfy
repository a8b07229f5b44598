/** The in-memory cache: a Map in insertion order with expiry, eviction and locks. */
module Cache {
  import opened Prelude
  import opened Glob

  datatype Item<V> = Item(key: string, value: V, expiresAt: Option<int>)

  datatype LockEntry = LockEntry(token: nat, expiresAt: int)

  /** The two maps; `items` are the entries of the store in the order the Map keeps them. */
  datatype Store<V> = Store(items: seq<Item<V>>, locks: map<string, LockEntry>)

  predicate Distinct<V>(items: seq<Item<V>>)
  {
    forall i, j :: 0 <= i < j < |items| ==> items[i].key != items[j].key
  }

  predicate Expired<V>(item: Item<V>, now: int)
  {
    item.expiresAt.Some? && now > item.expiresAt.value
  }

  function Keep<V>(items: seq<Item<V>>, keep: Item<V> -> bool): (kept: seq<Item<V>>)
    ensures |kept| <= |items|
  {
    if items == [] then [] else
      (if keep(items[0]) then [items[0]] else []) + Keep(items[1..], keep)
  }

  function NotKey<V>(k: string): Item<V> -> bool { (i: Item<V>) => i.key != k }

  function Unmatched<V>(pattern: string): Item<V> -> bool { (i: Item<V>) => !Test(pattern, i.key) }

  function Unexpired<V>(now: int): Item<V> -> bool { (i: Item<V>) => !Expired(i, now) }

  function Find<V>(items: seq<Item<V>>, k: string): (r: Option<Item<V>>)
    ensures r.Some? ==> r.value in items && r.value.key == k
    ensures r.None? ==> forall i :: 0 <= i < |items| ==> items[i].key != k
  {
    if items == [] then None else if items[0].key == k then Some(items[0]) else Find(items[1..], k)
  }

  /** Map.set: an existing key keeps its place, a new one goes to the end. */
  function Put<V>(items: seq<Item<V>>, item: Item<V>): seq<Item<V>>
  {
    if items == [] then [item]
    else if items[0].key == item.key then [item] + items[1..]
    else [items[0]] + Put(items[1..], item)
  }

  /** How many entries one eviction takes: a tenth of the capacity, at least one. */
  function Quota(maxEntries: nat): nat
  {
    if maxEntries / 10 > 1 then maxEntries / 10 else 1
  }

  function Evict<V>(items: seq<Item<V>>, maxEntries: nat): seq<Item<V>>
  {
    if Quota(maxEntries) >= |items| then [] else items[Quota(maxEntries)..]
  }

  predicate Evicts<V>(items: seq<Item<V>>, k: string, maxEntries: nat)
  {
    |items| >= maxEntries && Find(items, k).None?
  }

  function Insert<V>(items: seq<Item<V>>, item: Item<V>, maxEntries: nat): seq<Item<V>>
  {
    Put(if Evicts(items, item.key, maxEntries) then Evict(items, maxEntries) else items, item)
  }

  function Expiry(ttl: Option<int>, now: int): Option<int>
  {
    if ttl.Some? && ttl.value > 0 then Some(now + ttl.value) else None
  }

  // ----- operations

  datatype Op<V> =
    | Get(key: string)
    | Set(key: string, value: V, ttl: Option<int>)
    | Del(key: string)
    | InvalidatePattern(pattern: string)
    | AcquireLock(key: string, lease: int, token: nat)
    | ReleaseLock(key: string, token: nat)
    | CleanupExpired
    | Clear

  datatype Answer<V> = Value(v: V) | Absent | Granted(token: nat) | Refused | Released(ok: bool) | Removed(n: nat) | Done

  predicate Free(locks: map<string, LockEntry>, k: string, now: int)
  {
    k in locks ==> locks[k].expiresAt <= now
  }

  function LiveLocks(locks: map<string, LockEntry>, now: int): map<string, LockEntry>
  {
    map k | k in locks && now <= locks[k].expiresAt :: locks[k]
  }

  /** One operation at time `now`. */
  function Apply<V>(s: Store<V>, op: Op<V>, now: int, maxEntries: nat): (Store<V>, Answer<V>)
  {
    match op
    case Get(k) =>
      var found := Find(s.items, k);
      if found.None? then (s, Absent)
      else if Expired(found.value, now) then (s.(items := Keep(s.items, NotKey(k))), Absent)
      else (s, Value(found.value.value))
    case Set(k, v, ttl) => (s.(items := Insert(s.items, Item(k, v, Expiry(ttl, now)), maxEntries)), Done)
    case Del(k) => (s.(items := Keep(s.items, NotKey(k))), Done)
    case InvalidatePattern(p) =>
      var kept := Keep(s.items, Unmatched(p));
      (s.(items := kept), Removed(|s.items| - |kept|))
    case AcquireLock(k, ttl, token) =>
      if Free(s.locks, k, now) then (s.(locks := s.locks[k := LockEntry(token, now + ttl)]), Granted(token))
      else (s, Refused)
    case ReleaseLock(k, token) =>
      if k in s.locks && s.locks[k].token == token then (s.(locks := s.locks - {k}), Released(true))
      else (s, Released(false))
    case CleanupExpired => (Store(Keep(s.items, Unexpired(now)), LiveLocks(s.locks, now)), Done)
    case Clear => (Store([], map[]), Done)
  }

  // ----- lists

  /** Where a kept entry came from. */
  lemma {:induction false} KeepOrigin<V>(items: seq<Item<V>>, keep: Item<V> -> bool, i: nat) returns (j: nat)
    requires i < |Keep(items, keep)|
    ensures j < |items| && items[j] == Keep(items, keep)[i] && keep(items[j])
  {
    var head := if keep(items[0]) then [items[0]] else [];
    assert Keep(items, keep) == head + Keep(items[1..], keep);
    if i < |head| {
      j := 0;
    } else {
      j := KeepOrigin(items[1..], keep, i - |head|);
      j := j + 1;
    }
  }

  lemma {:induction false} KeepConcat<V>(a: seq<Item<V>>, b: seq<Item<V>>, keep: Item<V> -> bool)
    ensures Keep(a + b, keep) == Keep(a, keep) + Keep(b, keep)
  {
    if a == [] {
      assert a + b == b;
    } else {
      var head := if keep(a[0]) then [a[0]] else [];
      KeepConcat(a[1..], b, keep);
      assert (a + b)[0] == a[0] && (a + b)[1..] == a[1..] + b;
      assert Keep(a + b, keep) == head + (Keep(a[1..], keep) + Keep(b, keep));
      assert Keep(a, keep) == head + Keep(a[1..], keep);
    }
  }

  lemma {:induction false} KeepAll<V>(a: seq<Item<V>>, keep: Item<V> -> bool)
    requires forall i :: 0 <= i < |a| ==> keep(a[i])
    ensures Keep(a, keep) == a
  {
    if a != [] { KeepAll(a[1..], keep); }
  }

  lemma {:induction false} KeepOne<V>(x: Item<V>, keep: Item<V> -> bool)
    ensures Keep([x], keep) == if keep(x) then [x] else []
  {}

  lemma {:induction false} KeepAllButOne<V>(a: seq<Item<V>>, x: Item<V>, b: seq<Item<V>>, keep: Item<V> -> bool)
    requires forall i :: 0 <= i < |a| ==> keep(a[i])
    requires forall i :: 0 <= i < |b| ==> keep(b[i])
    requires !keep(x)
    ensures Keep(a + ([x] + b), keep) == a + b
  {
    KeepConcat(a, [x] + b, keep);
    KeepConcat([x], b, keep);
    KeepAll(a, keep);
    KeepAll(b, keep);
    KeepOne(x, keep);
    assert Keep([x] + b, keep) == b;
  }

  /** Deleting one key of a Map. */
  lemma {:induction false} DeleteOne<V>(a: seq<Item<V>>, x: Item<V>, b: seq<Item<V>>)
    requires forall i :: 0 <= i < |a| ==> a[i].key != x.key
    requires forall i :: 0 <= i < |b| ==> b[i].key != x.key
    ensures Keep(a + ([x] + b), NotKey(x.key)) == a + b
  {
    KeepAllButOne(a, x, b, NotKey(x.key));
  }

  /** One step of a sweep over the entries: what is kept grows by entry `i`, or `i` is deleted. */
  lemma {:induction false} SweepStep<V>(all: seq<Item<V>>, i: nat, keep: Item<V> -> bool)
    requires Distinct(all) && i < |all|
    ensures var before, after := Keep(all[..i], keep) + all[i..], Keep(all[..i + 1], keep) + all[i + 1..];
            after == if keep(all[i]) then before else Keep(before, NotKey(all[i].key))
    ensures |Keep(all[..i + 1], keep)| == |Keep(all[..i], keep)| + if keep(all[i]) then 1 else 0
  {
    var kept := Keep(all[..i], keep);
    assert all[..i + 1] == all[..i] + [all[i]];
    KeepConcat(all[..i], [all[i]], keep);
    KeepOne(all[i], keep);
    assert all[i..] == [all[i]] + all[i + 1..];
    forall j | 0 <= j < |kept| ensures kept[j].key != all[i].key {
      var origin := KeepOrigin(all[..i], keep, j);
    }
    DeleteOne(kept, all[i], all[i + 1..]);
  }

  lemma {:induction false} KeepDistinct<V>(items: seq<Item<V>>, keep: Item<V> -> bool)
    requires Distinct(items)
    ensures Distinct(Keep(items, keep))
  {
    if items != [] {
      var rest := Keep(items[1..], keep);
      KeepDistinct(items[1..], keep);
      forall i | 0 <= i < |rest| ensures rest[i].key != items[0].key {
        var origin := KeepOrigin(items[1..], keep, i);
      }
    }
  }

  lemma {:induction false} PutFinds<V>(items: seq<Item<V>>, item: Item<V>, k: string)
    ensures Find(Put(items, item), k) == if k == item.key then Some(item) else Find(items, k)
    ensures |Put(items, item)| == |items| + if Find(items, item.key).None? then 1 else 0
  {
    if items != [] && items[0].key != item.key { PutFinds(items[1..], item, k); }
  }

  lemma {:induction false} PutKeys<V>(items: seq<Item<V>>, item: Item<V>)
    ensures Find(items, item.key).None? ==> Put(items, item) == items + [item]
    ensures Find(items, item.key).Some? ==>
              |Put(items, item)| == |items| && forall i :: 0 <= i < |items| ==> Put(items, item)[i].key == items[i].key
  {
    if items != [] && items[0].key != item.key { PutKeys(items[1..], item); }
  }

  lemma {:induction false} PutDistinct<V>(items: seq<Item<V>>, item: Item<V>)
    requires Distinct(items)
    ensures Distinct(Put(items, item))
  {
    PutKeys(items, item);
  }

  lemma {:induction false} KeepFinds<V>(items: seq<Item<V>>, keep: Item<V> -> bool, k: string)
    requires Distinct(items)
    ensures Find(Keep(items, keep), k)
         == if Find(items, k).Some? && keep(Find(items, k).value) then Find(items, k) else None
  {
    if items != [] {
      KeepFinds(items[1..], keep, k);
      var rest := Keep(items[1..], keep);
      if keep(items[0]) {
        assert Keep(items, keep)[1..] == rest;
      } else {
        assert Keep(items, keep) == rest;
        if items[0].key == k { assert Find(items[1..], k).None?; }
      }
    }
  }

  /** Invalidation by pattern removes exactly the keys that the glob denotes, keeps the others in
      order and returns how many it removed. */
  lemma {:induction false} InvalidationIsExact<V>(s: Store<V>, pattern: string, now: int, maxEntries: nat, k: string)
    requires Distinct(s.items)
    requires forall i :: 0 <= i < |s.items| ==> Plain(s.items[i].key)
    ensures var (s', answer) := Apply(s, InvalidatePattern(pattern), now, maxEntries);
            && answer == Removed(|s.items| - |s'.items|)
            && Find(s'.items, k) == (if Find(s.items, k).Some? && Denotes(pattern, k) then None else Find(s.items, k))
            && Subsequence(s'.items, s.items)
  {
    KeepFinds(s.items, Unmatched(pattern), k);
    KeepIsSubsequence(s.items, Unmatched(pattern));
    if Find(s.items, k).Some? { TestIsDenotes(pattern, k); }
  }

  ghost predicate Subsequence<V>(a: seq<Item<V>>, b: seq<Item<V>>)
  {
    if a == [] then true
    else if b == [] then false
    else Subsequence(if a[0] == b[0] then a[1..] else a, b[1..])
  }

  lemma {:induction false} KeepIsSubsequence<V>(items: seq<Item<V>>, keep: Item<V> -> bool)
    requires Distinct(items)
    ensures Subsequence(Keep(items, keep), items)
  {
    if items != [] {
      var rest := Keep(items[1..], keep);
      KeepIsSubsequence(items[1..], keep);
      if keep(items[0]) {
        assert Keep(items, keep)[1..] == rest;
      } else {
        assert Keep(items, keep) == rest;
        if rest != [] {
          var origin := KeepOrigin(items[1..], keep, 0);
        }
      }
    }
  }

  // ----- the service

  class InMemoryCache<V(==)> {
    var items: seq<Item<V>>
    var locks: map<string, LockEntry>
    const maxEntries: nat

    function Value(): Store<V>
      reads this
    {
      Store(items, locks)
    }

    ghost predicate Valid()
      reads this
    {
      Distinct(items) && |items| <= maxEntries && maxEntries > 0
    }

    constructor ()
      ensures Valid() && Value() == Store([], map[]) && maxEntries == 10000
    {
      items, locks, maxEntries := [], map[], 10000;
    }

    method Delete(k: string)
      modifies this`items
      ensures items == Keep(old(items), NotKey(k))
    {
      items := Keep(items, NotKey(k));
    }

    method Get(k: string, now: int) returns (r: Option<V>)
      requires Valid()
      modifies this`items
      ensures Valid()
      ensures Apply(old(Value()), Op.Get(k), now, maxEntries)
           == (Value(), if r.Some? then Answer.Value(r.value) else Absent)
    {
      var entry := Find(items, k);
      if entry.None? { return None; }
      if Expired(entry.value, now) {
        KeepDistinct(items, NotKey(k));
        Delete(k);
        return None;
      }
      return Some(entry.value.value);
    }

    method Set(k: string, v: V, ttl: Option<int>, now: int)
      requires Valid()
      modifies this`items
      ensures Valid()
      ensures Value() == Apply(old(Value()), Op.Set(k, v, ttl), now, maxEntries).0
    {
      var item := Item(k, v, Expiry(ttl, now));
      if |items| >= maxEntries && Find(items, k).None? {
        EvictOldest();
      }
      PutDistinct(items, item);
      PutFinds(items, item, k);
      items := Put(items, item);
    }

    method Del(k: string)
      requires Valid()
      modifies this`items
      ensures Valid()
      ensures Value() == Apply(old(Value()), Op.Del(k), 0, maxEntries).0
    {
      KeepDistinct(items, NotKey(k));
      Delete(k);
    }

    /** Deletes entries from the front of the Map. */
    method EvictOldest()
      requires Valid()
      modifies this`items
      ensures Valid() && items == Evict(old(items), maxEntries)
      ensures old(items) != [] ==> |items| < |old(items)|
    {
      var toRemove := Quota(maxEntries);
      var removed := 0;
      while items != [] && removed < toRemove
        invariant removed <= |old(items)| && removed <= toRemove && items == old(items)[removed..]
        invariant Distinct(items)
        decreases |items|
      {
        assert items == [] + ([items[0]] + items[1..]);
        DeleteOne([], items[0], items[1..]);
        Delete(items[0].key);
        removed := removed + 1;
      }
    }

    /** Tests a snapshot of the keys and deletes those that match. */
    method InvalidatePattern(pattern: string) returns (count: nat)
      requires Valid()
      modifies this`items
      ensures Valid()
      ensures items == Keep(old(items), Unmatched(pattern)) && count == |old(items)| - |items|
    {
      var all := items;
      count := 0;
      for i := 0 to |all|
        invariant items == Keep(all[..i], Unmatched(pattern)) + all[i..]
        invariant count == i - |Keep(all[..i], Unmatched(pattern))|
      {
        SweepStep(all, i, Unmatched(pattern));
        if Test(pattern, all[i].key) {
          Delete(all[i].key);
          count := count + 1;
        }
      }
      assert all[..|all|] == all && all[|all|..] == [];
      assert items == Keep(all, Unmatched(pattern));
      assert count == |all| - |items|;
      KeepDistinct(all, Unmatched(pattern));
    }

    method SweepItems(now: int)
      requires Valid()
      modifies this`items
      ensures Valid() && items == Keep(old(items), Unexpired(now))
    {
      var all := items;
      for i := 0 to |all|
        invariant items == Keep(all[..i], Unexpired(now)) + all[i..]
      {
        SweepStep(all, i, Unexpired(now));
        if Expired(all[i], now) {
          Delete(all[i].key);
        }
      }
      assert all[..|all|] == all && all[|all|..] == [];
      KeepDistinct(all, Unexpired(now));
    }

    method SweepLocks(now: int)
      modifies this`locks
      ensures locks == LiveLocks(old(locks), now)
    {
      var todo := locks.Keys;
      while todo != {}
        invariant todo <= old(locks).Keys
        invariant locks == map k | k in old(locks) && (k in todo || now <= old(locks)[k].expiresAt) :: old(locks)[k]
        decreases |todo|
      {
        var k :| k in todo;
        if now > locks[k].expiresAt { locks := locks - {k}; }
        todo := todo - {k};
      }
    }

    /** The periodic sweep over entries, then over locks. */
    method CleanupExpired(now: int)
      requires Valid()
      modifies this
      ensures Valid()
      ensures Value() == Apply(old(Value()), Op.CleanupExpired, now, maxEntries).0
    {
      SweepItems(now);
      SweepLocks(now);
    }

    method Clear()
      modifies this
      ensures Value() == Apply(old(Value()), Op.Clear, 0, maxEntries).0
    {
      items, locks := [], map[];
    }

    method AcquireLock(k: string, ttl: int, now: int, token: nat) returns (r: Option<nat>)
      modifies this`locks
      ensures Apply(old(Value()), Op.AcquireLock(k, ttl, token), now, maxEntries)
           == (Value(), if r.Some? then Granted(r.value) else Refused)
    {
      if k in locks && locks[k].expiresAt > now { return None; }
      locks := locks[k := LockEntry(token, now + ttl)];
      return Some(token);
    }

    method ReleaseLock(k: string, token: nat) returns (ok: bool)
      modifies this`locks
      ensures Apply(old(Value()), Op.ReleaseLock(k, token), 0, maxEntries) == (Value(), Released(ok))
    {
      if k !in locks { return false; }
      if locks[k].token == token {
        locks := locks - {k};
        return true;
      }
      return false;
    }
  }
}
