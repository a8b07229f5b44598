/** Operation locks kept in the IdempotencyKey table. */
module Idempotency {
  import opened Prelude

  /** A row of the table; times are in milliseconds. */
  datatype Lock = Lock(lockedAt: int, expiresAt: int, completedAt: Option<int>)

  const HOUR := 60 * 60 * 1000

  const WEEK := 7 * 24 * HOUR

  /** The answer of tryAcquire for a key, by its row. */
  predicate Available(row: Option<Lock>, now: int)
  {
    row.None? || (row.value.completedAt.None? && row.value.expiresAt < now)
  }

  /** The row after a successful tryAcquire; a reclaimed row keeps its other columns. */
  function Acquired(now: int): Lock
  {
    Lock(now, now + HOUR, None)
  }

  /** Deleted by the first statement of purgeExpired. */
  predicate Stale(row: Lock, now: int)
  {
    row.expiresAt < now && row.completedAt.None?
  }

  /** Deleted by the second statement. */
  predicate Old(row: Lock, now: int)
  {
    row.completedAt.Some? && row.completedAt.value < now - WEEK
  }

  function Purged(row: Option<Lock>, now: int): Option<Lock>
  {
    if row.Some? && (Stale(row.value, now) || Old(row.value, now)) then None else row
  }

  function Lookup<K>(rows: map<K, Lock>, k: K): Option<Lock>
  {
    if k in rows then Some(rows[k]) else None
  }

  function PurgedRows<K>(rows: map<K, Lock>, now: int): map<K, Lock>
  {
    map k | k in rows && !Stale(rows[k], now) && !Old(rows[k], now) :: rows[k]
  }

  /** The lock service by its columns: a key is to be had iff it has no row or an uncompleted one that
      ran out; a lock lasts an hour; a purge deletes the uncompleted rows that ran out and the
      completed ones after seven days. */
  lemma {:induction false} LocksByColumns<K>(rows: map<K, Lock>, k: K, now: int)
    ensures Available(Lookup(rows, k), now) <==> (k in rows ==> rows[k].completedAt == None && rows[k].expiresAt < now)
    ensures Acquired(now).lockedAt == now && Acquired(now).expiresAt == now + 3600000 && Acquired(now).completedAt == None
    ensures k in PurgedRows(rows, now)
        <==> k in rows && if rows[k].completedAt == None then rows[k].expiresAt >= now
                          else rows[k].completedAt.value >= now - 604800000
    ensures k in PurgedRows(rows, now) ==> PurgedRows(rows, now)[k] == rows[k]
  {
  }

  /** Purging changes tryAcquire's answer, now or later, only for rows completed over a week ago. */
  lemma {:induction false} PurgeChangesAnswerIffOld(row: Option<Lock>, purgedAt: int, now: int)
    requires purgedAt <= now
    ensures Available(Purged(row, purgedAt), now) != Available(row, now)
            <==> row.Some? && Old(row.value, purgedAt)
  {
  }

  class IdempotencyService<K(==)> {
    var rows: map<K, Lock>

    constructor ()
      ensures rows == map[]
    {
      rows := map[];
    }

    /** Creates the row, or reclaims one that expired without completing. */
    method TryAcquire(k: K, now: int) returns (acquired: bool)
      modifies this
      ensures acquired == Available(Lookup(old(rows), k), now)
      ensures rows == if acquired then old(rows)[k := Acquired(now)] else old(rows)
    {
      var expiresAt := now + 60 * 60 * 1000;
      if k !in rows {
        rows := rows[k := Lock(now, expiresAt, None)];
        return true;
      }
      var count := 0;
      if rows[k].completedAt.None? && rows[k].expiresAt < now {
        rows := rows[k := rows[k].(lockedAt := now, expiresAt := expiresAt)];
        count := count + 1;
      }
      return count > 0;
    }

    /** Throws, here found == false, when the row is gone. */
    method Complete(k: K, now: int) returns (found: bool)
      modifies this
      ensures found == (k in old(rows))
      ensures rows == if found then old(rows)[k := old(rows)[k].(completedAt := Some(now))] else old(rows)
    {
      found := k in rows;
      if found { rows := rows[k := rows[k].(completedAt := Some(now))]; }
    }

    method Release(k: K) returns (found: bool)
      modifies this
      ensures found == (k in old(rows))
      ensures rows == old(rows) - {k}
    {
      found := k in rows;
      rows := rows - {k};
    }

    /** deleteMany: removes the given rows and says how many there were. */
    method DeleteMany(keys: set<K>) returns (count: nat)
      requires keys <= rows.Keys
      modifies this
      ensures rows == old(rows) - keys && count == |old(rows)| - |rows|
    {
      rows := rows - keys;
      assert old(rows).Keys == rows.Keys + keys;
      count := |keys|;
    }

    method PurgeExpired(now: int) returns (count: nat)
      modifies this
      ensures rows == PurgedRows(old(rows), now)
      ensures count == |old(rows)| - |rows|
    {
      var stale := DeleteMany(set k | k in rows && Stale(rows[k], now));
      var done := DeleteMany(set k | k in rows && Old(rows[k], now));
      count := stale + done;
    }
  }

}

/** Runs of the lock service by any number of holders, under a clock that never goes back. */
module IdempotencyRuns {
  import opened Prelude
  import opened Idempotency

  datatype Event<K> = Acquire(holder: nat, key: K) | Complete(holder: nat, key: K) | Release(holder: nat, key: K)
                    | Purge | Tick(ms: nat)

  /** `holding` records who acquired a key and has neither completed nor released it;
      `completions` when a key was last completed. */
  datatype State<K> = State(rows: map<K, Lock>, now: int, holding: set<(nat, K)>, completions: map<K, int>)

  function Next<K>(s: State<K>, e: Event<K>): State<K>
  {
    match e
    case Acquire(h, k) =>
      if Available(Lookup(s.rows, k), s.now)
      then s.(rows := s.rows[k := Acquired(s.now)], holding := s.holding + {(h, k)}) else s
    case Complete(h, k) =>
      if (h, k) in s.holding && k in s.rows
      then s.(rows := s.rows[k := s.rows[k].(completedAt := Some(s.now))], holding := s.holding - {(h, k)},
              completions := s.completions[k := s.now])
      else s
    case Release(h, k) =>
      if (h, k) in s.holding then s.(rows := s.rows - {k}, holding := s.holding - {(h, k)}) else s
    case Purge => s.(rows := PurgedRows(s.rows, s.now))
    case Tick(ms) => s.(now := s.now + ms)
  }

  function Run<K>(es: seq<Event<K>>): State<K>
  {
    if es == [] then State(map[], 0, {}, map[]) else Next(Run(es[..|es| - 1]), es[|es| - 1])
  }

  /** Time passes only while no holder is past the hour it acquired for. */
  ghost predicate InTime<K(!new)>(es: seq<Event<K>>)
  {
    es == [] ||
    (InTime(es[..|es| - 1]) && Prompt(Run(es)))
  }

  ghost predicate Held<K(!new)>(s: State<K>)
  {
    && (forall p :: p in s.holding ==>
          p.1 in s.rows && s.rows[p.1].completedAt.None? && s.now <= s.rows[p.1].expiresAt)
    && (forall p, q :: p in s.holding && q in s.holding && p.1 == q.1 ==> p == q)
    && (forall k :: k in s.rows ==> s.rows[k].expiresAt == s.rows[k].lockedAt + HOUR && s.rows[k].lockedAt <= s.now)
    && (forall k :: k in s.completions ==>
          s.completions[k] <= s.now
          && (s.now <= s.completions[k] + WEEK ==>
                k in s.rows && s.rows[k].completedAt == Some(s.completions[k])))
  }

  ghost predicate Prompt<K(!new)>(s: State<K>)
  {
    forall p :: p in s.holding && p.1 in s.rows ==> s.now <= s.rows[p.1].lockedAt + HOUR
  }

  lemma {:induction false} StepKeepsHeld<K(!new)>(s: State<K>, e: Event<K>)
    requires Held(s) && Prompt(Next(s, e))
    ensures Held(Next(s, e))
  {}

  lemma {:induction false} RunsAreHeld<K(!new)>(es: seq<Event<K>>)
    requires InTime(es)
    ensures Held(Run(es))
  {
    if es != [] {
      RunsAreHeld(es[..|es| - 1]);
      StepKeepsHeld(Run(es[..|es| - 1]), es[|es| - 1]);
    }
  }

  /** At most one holder per key, if holders complete or release within the hour. */
  lemma {:induction false} AtMostOneHolder<K(!new)>(es: seq<Event<K>>, g: nat, h: nat, k: K)
    requires InTime(es) && (g, k) in Run(es).holding && (h, k) in Run(es).holding
    ensures g == h
  {
    RunsAreHeld(es);
  }

  /** No acquire succeeds while the key is held or within seven days of its completion. */
  lemma {:induction false} NoAcquireWhileHeldOrDone<K(!new)>(es: seq<Event<K>>, h: nat, k: K)
    requires InTime(es)
    requires var s := Run(es);
             (h, k) in s.holding || (k in s.completions && s.now <= s.completions[k] + WEEK)
    ensures !Available(Lookup(Run(es).rows, k), Run(es).now)
  {
    RunsAreHeld(es);
  }

  /** The hour is exact: a held key is granted to somebody else iff the hour is over by then. */
  lemma {:induction false} SecondHolderIffLate<K(!new)>(es: seq<Event<K>>, g: nat, h: nat, k: K, ms: nat)
    requires InTime(es) && (g, k) in Run(es).holding && g != h
    ensures k in Run(es).rows
    ensures (h, k) in Next(Next(Run(es), Tick(ms)), Acquire(h, k)).holding
            <==> Run(es).now + ms > Run(es).rows[k].lockedAt + HOUR
  {
    RunsAreHeld(es);
  }

  /** release carries no owner: a holder that is late frees the lock of its successor. */
  lemma {:induction false} LateReleaseFreesTheSuccessor(s: State<nat>, g: nat, h: nat, k: nat)
    requires Held(s) && (g, k) in s.holding && g != h
    ensures var late := Next(s, Tick(HOUR + 1));
            var taken := Next(late, Acquire(h, k));
            (h, k) in taken.holding && !Available(Lookup(taken.rows, k), taken.now)
            && Available(Lookup(Next(taken, Event.Release(g, k)).rows, k), taken.now)
  {
  }
}
