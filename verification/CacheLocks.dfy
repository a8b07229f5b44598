/** Histories of the in-memory locks: who held which key, and when. */
module CacheLocks {
  import opened Prelude
  import opened Cache

  /** One tenure of a lock: from acquisition to the earlier of release and expiry. */
  datatype Hold = Hold(key: string, token: nat, from: int, until: int)

  datatype World<V> = World(store: Store<V>, holds: seq<Hold>, clock: int)

  datatype Step<V> = Step(op: Op<V>, now: int)

  /** The clock does not go back, nobody clears the cache, and a new token was never used before. */
  predicate Allowed<V>(w: World<V>, step: Step<V>)
  {
    && w.clock <= step.now
    && !step.op.Clear?
    && (step.op.AcquireLock? ==> forall i :: 0 <= i < |w.holds| ==> w.holds[i].token != step.op.token)
  }

  function Cut(h: Hold, k: string, token: nat, now: int): Hold
  {
    if h.key == k && h.token == token then h.(until := Min(h.until, now)) else h
  }

  function Next<V>(w: World<V>, step: Step<V>, maxEntries: nat): World<V>
  {
    var (store, answer) := Apply(w.store, step.op, step.now, maxEntries);
    var holds :=
      match step.op
      case AcquireLock(k, lease, token) =>
        if answer.Granted? then w.holds + [Hold(k, token, step.now, step.now + lease)] else w.holds
      case ReleaseLock(k, token) =>
        if answer == Released(true) then CutAll(w.holds, k, token, step.now) else w.holds
      case _ => w.holds;
    World(store, holds, step.now)
  }

  predicate AllowedRun<V>(w: World<V>, steps: seq<Step<V>>, maxEntries: nat)
    decreases |steps|
  {
    steps == [] || (Allowed(w, steps[0]) && AllowedRun(Next(w, steps[0], maxEntries), steps[1..], maxEntries))
  }

  function Run<V>(w: World<V>, steps: seq<Step<V>>, maxEntries: nat): World<V>
    decreases |steps|
  {
    if steps == [] then w else Run(Next(w, steps[0], maxEntries), steps[1..], maxEntries)
  }

  /** A hold that has not ended is the lock on record. */
  predicate Current(locks: map<string, LockEntry>, h: Hold, clock: int)
  {
    h.until <= clock || (h.key in locks && locks[h.key] == LockEntry(h.token, h.until))
  }

  predicate Ordered(holds: seq<Hold>)
  {
    forall i, j :: 0 <= i < j < |holds| ==>
      holds[i].token != holds[j].token && (holds[i].key == holds[j].key ==> holds[i].until <= holds[j].from)
  }

  /** Hold `i` is the last one of its key. */
  predicate Latest(holds: seq<Hold>, k: string, i: int)
  {
    0 <= i < |holds| && holds[i].key == k && forall j :: i < j < |holds| ==> holds[j].key != k
  }

  /** The lock on record is that hold's. */
  predicate Records(lock: LockEntry, h: Hold)
  {
    h.token == lock.token && h.until == lock.expiresAt
  }

  ghost predicate Recorded(locks: map<string, LockEntry>, holds: seq<Hold>)
  {
    forall k :: k in locks ==> exists i :: Latest(holds, k, i) && Records(locks[k], holds[i])
  }

  ghost predicate AllCurrent(locks: map<string, LockEntry>, holds: seq<Hold>, clock: int)
  {
    forall i :: 0 <= i < |holds| ==> Current(locks, holds[i], clock)
  }

  ghost predicate LocksInv(locks: map<string, LockEntry>, holds: seq<Hold>, clock: int)
  {
    Ordered(holds) && AllCurrent(locks, holds, clock) && Recorded(locks, holds)
  }

  ghost predicate Inv<V>(w: World<V>)
  {
    LocksInv(w.store.locks, w.holds, w.clock)
  }

  /** A granted lock: every earlier hold of the key has ended. */
  lemma {:induction false} GrantIsOrdered(locks: map<string, LockEntry>, holds: seq<Hold>, clock: int, h: Hold)
    requires Ordered(holds) && AllCurrent(locks, holds, clock) && Free(locks, h.key, h.from) && clock <= h.from
    requires forall i :: 0 <= i < |holds| ==> holds[i].token != h.token
    ensures Ordered(holds + [h])
  {}

  lemma {:induction false} GrantIsCurrent(locks: map<string, LockEntry>, holds: seq<Hold>, clock: int, h: Hold)
    requires AllCurrent(locks, holds, clock) && Free(locks, h.key, h.from) && clock <= h.from
    ensures AllCurrent(locks[h.key := LockEntry(h.token, h.until)], holds + [h], h.from)
  {}

  lemma {:induction false} GrantIsRecorded(locks: map<string, LockEntry>, holds: seq<Hold>, h: Hold)
    requires Recorded(locks, holds)
    ensures Recorded(locks[h.key := LockEntry(h.token, h.until)], holds + [h])
  {
    var locks', holds' := locks[h.key := LockEntry(h.token, h.until)], holds + [h];
    forall c | c in locks' ensures exists i :: Latest(holds', c, i) && Records(locks'[c], holds'[i]) {
      if c == h.key {
        assert Latest(holds', c, |holds|);
      } else {
        var i :| Latest(holds, c, i) && Records(locks[c], holds[i]);
        assert Latest(holds', c, i);
      }
    }
  }

  lemma {:induction false} GrantKeepsInv(locks: map<string, LockEntry>, holds: seq<Hold>, clock: int, h: Hold)
    requires LocksInv(locks, holds, clock) && Free(locks, h.key, h.from) && clock <= h.from
    requires forall i :: 0 <= i < |holds| ==> holds[i].token != h.token
    ensures LocksInv(locks[h.key := LockEntry(h.token, h.until)], holds + [h], h.from)
  {
    GrantIsOrdered(locks, holds, clock, h);
    GrantIsCurrent(locks, holds, clock, h);
    GrantIsRecorded(locks, holds, h);
  }

  /** Locks that are dropped must have run out. */
  lemma {:induction false} TimeKeepsInv(locks: map<string, LockEntry>, locks': map<string, LockEntry>, holds: seq<Hold>,
    clock: int, now: int)
    requires LocksInv(locks, holds, clock) && clock <= now
    requires forall k :: k in locks' ==> k in locks && locks'[k] == locks[k]
    requires forall k :: k in locks && k !in locks' ==> locks[k].expiresAt <= now
    ensures LocksInv(locks', holds, now)
  {}

  function CutAll(holds: seq<Hold>, k: string, token: nat, now: int): (cut: seq<Hold>)
    ensures |cut| == |holds| && forall i :: 0 <= i < |holds| ==> cut[i] == Cut(holds[i], k, token, now)
  {
    seq(|holds|, i requires 0 <= i < |holds| => Cut(holds[i], k, token, now))
  }

  lemma {:induction false} AcquireGranted<V>(w: World<V>, step: Step<V>, maxEntries: nat, h: Hold)
    requires step.op.AcquireLock? && Free(w.store.locks, step.op.key, step.now)
    requires h == Hold(step.op.key, step.op.token, step.now, step.now + step.op.lease)
    ensures var w' := Next(w, step, maxEntries);
            && w'.clock == h.from && w'.holds == w.holds + [h]
            && w'.store.locks == w.store.locks[h.key := LockEntry(h.token, h.until)]
  {
  }

  lemma {:induction false} AcquireRefused<V>(w: World<V>, step: Step<V>, maxEntries: nat)
    requires step.op.AcquireLock? && !Free(w.store.locks, step.op.key, step.now)
    ensures Next(w, step, maxEntries) == w.(clock := step.now)
  {
  }

  lemma {:induction false} AcquireKeepsInv<V>(w: World<V>, step: Step<V>, maxEntries: nat)
    requires Inv(w) && Allowed(w, step) && step.op.AcquireLock?
    ensures Inv(Next(w, step, maxEntries))
  {
    if Free(w.store.locks, step.op.key, step.now) {
      var h := Hold(step.op.key, step.op.token, step.now, step.now + step.op.lease);
      AcquireGranted(w, step, maxEntries, h);
      GrantKeepsInv(w.store.locks, w.holds, w.clock, h);
    } else {
      AcquireRefused(w, step, maxEntries);
      TimeKeepsInv(w.store.locks, w.store.locks, w.holds, w.clock, step.now);
    }
  }

  /** Only the recorded token deletes the lock, and its hold ends with it. */
  lemma {:induction false} CutKeepsOrder(holds: seq<Hold>, k: string, token: nat, now: int)
    requires Ordered(holds)
    ensures Ordered(CutAll(holds, k, token, now))
  {
  }

  lemma {:induction false} CutKeepsRecords(locks: map<string, LockEntry>, holds: seq<Hold>, k: string, token: nat, now: int)
    requires Recorded(locks, holds)
    ensures Recorded(locks - {k}, CutAll(holds, k, token, now))
  {
    var cut := CutAll(holds, k, token, now);
    forall c | c in locks - {k} ensures exists i :: Latest(cut, c, i) && Records(locks[c], cut[i]) {
      var i :| Latest(holds, c, i) && Records(locks[c], holds[i]);
      assert Latest(cut, c, i);
    }
  }

  lemma {:induction false} CutKeepsCurrent(locks: map<string, LockEntry>, holds: seq<Hold>, clock: int, k: string, token: nat, now: int)
    requires AllCurrent(locks, holds, clock) && clock <= now && k in locks && locks[k].token == token
    ensures AllCurrent(locks - {k}, CutAll(holds, k, token, now), now)
  {
    var cut := CutAll(holds, k, token, now);
    forall i | 0 <= i < |cut| ensures Current(locks - {k}, cut[i], now) { assert Current(locks, holds[i], clock); }
  }

  lemma {:induction false} ReleaseEffect<V>(w: World<V>, step: Step<V>, maxEntries: nat)
    requires step.op.ReleaseLock?
    ensures var w', k, token := Next(w, step, maxEntries), step.op.key, step.op.token;
            if k in w.store.locks && w.store.locks[k].token == token
            then w'.clock == step.now && w'.holds == CutAll(w.holds, k, token, step.now) && w'.store.locks == w.store.locks - {k}
            else w' == w.(clock := step.now)
  {
  }

  lemma {:induction false} ReleaseKeepsInv<V>(w: World<V>, step: Step<V>, maxEntries: nat)
    requires Inv(w) && Allowed(w, step) && step.op.ReleaseLock?
    ensures Inv(Next(w, step, maxEntries))
  {
    var k, token := step.op.key, step.op.token;
    ReleaseEffect(w, step, maxEntries);
    if k in w.store.locks && w.store.locks[k].token == token {
      CutKeepsOrder(w.holds, k, token, step.now);
      CutKeepsCurrent(w.store.locks, w.holds, w.clock, k, token, step.now);
      CutKeepsRecords(w.store.locks, w.holds, k, token, step.now);
    } else {
      TimeKeepsInv(w.store.locks, w.store.locks, w.holds, w.clock, step.now);
    }
  }

  lemma {:induction false} OtherStepsKeepInv<V>(w: World<V>, step: Step<V>, maxEntries: nat)
    requires Inv(w) && Allowed(w, step) && !step.op.AcquireLock? && !step.op.ReleaseLock?
    ensures Inv(Next(w, step, maxEntries))
  {}

  lemma {:induction false} RunsKeepInv<V>(w: World<V>, steps: seq<Step<V>>, maxEntries: nat)
    requires Inv(w) && AllowedRun(w, steps, maxEntries)
    ensures Inv(Run(w, steps, maxEntries))
    decreases |steps|
  {
    if steps != [] {
      var step := steps[0];
      if step.op.AcquireLock? {
        AcquireKeepsInv(w, step, maxEntries);
      } else if step.op.ReleaseLock? {
        ReleaseKeepsInv(w, step, maxEntries);
      } else {
        OtherStepsKeepInv(w, step, maxEntries);
      }
      RunsKeepInv(Next(w, step, maxEntries), steps[1..], maxEntries);
    }
  }

  function Begin<V>(clock: int): World<V>
  {
    World(Store([], map[]), [], clock)
  }

  /** Mutual exclusion: two tenures of one key never overlap, over any run. */
  lemma {:induction false} HoldsAreDisjoint<V>(steps: seq<Step<V>>, clock: int, maxEntries: nat, i: nat, j: nat)
    requires AllowedRun(Begin(clock), steps, maxEntries)
    requires var holds := Run(Begin(clock), steps, maxEntries).holds;
             i < j < |holds| && holds[i].key == holds[j].key
    ensures var holds := Run(Begin(clock), steps, maxEntries).holds; holds[i].until <= holds[j].from
  {
    RunsKeepInv(Begin(clock), steps, maxEntries);
  }

  /** No tenure of the key is left: each was released or has run out. */
  predicate Unheld(holds: seq<Hold>, k: string, now: int)
  {
    forall i :: 0 <= i < |holds| && holds[i].key == k ==> holds[i].until <= now
  }

  lemma {:induction false} FreeIffUnheld(locks: map<string, LockEntry>, holds: seq<Hold>, clock: int, k: string, now: int)
    requires LocksInv(locks, holds, clock) && clock <= now
    ensures Free(locks, k, now) <==> Unheld(holds, k, now)
  {
    forall i | 0 <= i < |holds| && holds[i].key == k && holds[i].until > now ensures !Free(locks, k, now) {
      assert Current(locks, holds[i], clock);
    }
    if !Free(locks, k, now) {
      var i :| Latest(holds, k, i) && Records(locks[k], holds[i]);
      assert holds[i].key == k && holds[i].until > now;
    }
  }

  /** After any run a key is granted iff nobody holds it. The tenure begins now and lasts its lease. */
  lemma {:induction false} GrantedIffNobodyHolds<V>(steps: seq<Step<V>>, clock: int, maxEntries: nat, k: string, lease: int,
    token: nat, now: int)
    requires AllowedRun(Begin(clock), steps, maxEntries) && Run(Begin(clock), steps, maxEntries).clock <= now
    ensures var w: World<V> := Run(Begin(clock), steps, maxEntries);
            var w' := Next(w, Step(AcquireLock(k, lease, token), now), maxEntries);
            var answer := Apply(w.store, AcquireLock(k, lease, token), now, maxEntries).1;
            && answer == (if Unheld(w.holds, k, now) then Granted(token) else Refused)
            && w'.holds == if Unheld(w.holds, k, now) then w.holds + [Hold(k, token, now, now + lease)] else w.holds
  {
    RunsKeepInv(Begin(clock), steps, maxEntries);
    var w: World<V> := Run(Begin(clock), steps, maxEntries);
    FreeIffUnheld(w.store.locks, w.holds, w.clock, k, now);
  }

  /** A stale token frees nobody: once the key has a later holder, releasing with the earlier
      token is refused and changes nothing. */
  lemma {:induction false} StaleTokenReleasesNothing<V>(steps: seq<Step<V>>, clock: int, maxEntries: nat, i: nat, j: nat, now: int)
    requires AllowedRun(Begin(clock), steps, maxEntries)
    requires var holds := Run(Begin(clock), steps, maxEntries).holds;
             i < j < |holds| && holds[i].key == holds[j].key
    ensures var w: World<V> := Run(Begin(clock), steps, maxEntries);
            Apply(w.store, ReleaseLock(w.holds[i].key, w.holds[i].token), now, maxEntries) == (w.store, Released(false))
  {
    RunsKeepInv(Begin(clock), steps, maxEntries);
    var w: World<V> := Run(Begin(clock), steps, maxEntries);
    var k := w.holds[i].key;
    if k in w.store.locks {
      var last :| Latest(w.holds, k, last) && Records(w.store.locks[k], w.holds[last]);
      assert last >= j;
    }
  }

  /** The owner of an unexpired lock can release it, and the key is free from then on. */
  lemma {:induction false} OwnerReleases<V>(steps: seq<Step<V>>, clock: int, maxEntries: nat, i: nat, now: int)
    requires AllowedRun(Begin(clock), steps, maxEntries)
    requires var w: World<V> := Run(Begin(clock), steps, maxEntries);
             i < |w.holds| && w.clock <= now < w.holds[i].until
    ensures var w: World<V> := Run(Begin(clock), steps, maxEntries);
            var h := w.holds[i];
            var (store, answer) := Apply(w.store, ReleaseLock(h.key, h.token), now, maxEntries);
            && answer == Released(true)
            && Free(store.locks, h.key, now)
            && Next(w, Step(ReleaseLock(h.key, h.token), now), maxEntries).holds[i].until == now
  {
    RunsKeepInv(Begin(clock), steps, maxEntries);
    var w: World<V> := Run(Begin(clock), steps, maxEntries);
    assert Current(w.store.locks, w.holds[i], w.clock);
  }
}
