/** Account lockout: the Redis script that counts failed logins and locks the account. */
module Lockout {
  import opened Rates

  /** Durations in milliseconds. */
  datatype Config = Config(maxAttempts: int, lockout: int, window: int)

  const ACCOUNT_POLICY := Config(5, 15 * 60 * 1000, 15 * 60 * 1000)

  datatype Counter = Counter(count: int, expiresAt: int)

  /** Redis: the attempt counters, and the locks with the time they expire. */
  datatype Redis = Redis(attempts: map<string, Counter>, locks: map<string, int>)

  datatype Reply = Locked(remaining: int) | Counted(attempts: int)

  predicate LockedAt(r: Redis, id: string, now: int)
  {
    id in r.locks && now < r.locks[id]
  }

  /** The counter after INCR, and EXPIRE when it starts afresh. */
  function Incremented(r: Redis, id: string, now: int, window: int): Counter
  {
    var count := if id in r.attempts && now < r.attempts[id].expiresAt then r.attempts[id].count + 1 else 1;
    Counter(count, if count == 1 then now + window else r.attempts[id].expiresAt)
  }

  /** The script for one failed attempt. */
  function Fail(r: Redis, id: string, now: int, c: Config): (Redis, Reply)
  {
    if LockedAt(r, id, now) then (r, Locked(r.locks[id] - now))
    else
      var counter := Incremented(r, id, now, c.window);
      if counter.count >= c.maxAttempts
      then (Redis(r.attempts - {id}, r.locks[id := now + c.lockout]), Locked(c.lockout))
      else (r.(attempts := r.attempts[id := counter]), Counted(counter.count))
  }

  function Succeed(r: Redis, id: string): Redis
  {
    Redis(r.attempts - {id}, r.locks - {id})
  }

  // ----- runs over any mix of accounts

  datatype Login = Failed(id: string, now: int) | Succeeded(id: string, now: int)

  /** A failed attempt that passed the lock check: when, its number, and when its count started. */
  datatype Attempt = Attempt(time: int, number: int, start: int)

  function Serve(logins: seq<Login>, c: Config): Redis
    decreases |logins|
  {
    if logins == [] then Redis(map[], map[]) else
      var before := Serve(logins[..|logins| - 1], c);
      match logins[|logins| - 1]
      case Failed(id, now) => Fail(before, id, now, c).0
      case Succeeded(id, _) => Succeed(before, id)
  }

  function Passed(r: Redis, id: string, now: int, c: Config): seq<Attempt>
  {
    if LockedAt(r, id, now) then [] else
      var counter := Incremented(r, id, now, c.window);
      [Attempt(now, counter.count, counter.expiresAt - c.window)]
  }

  /** The failed attempts on one account that passed the lock check. */
  function Attempts(logins: seq<Login>, id: string, c: Config): seq<Attempt>
    decreases |logins|
  {
    if logins == [] then [] else
      var earlier, last := logins[..|logins| - 1], logins[|logins| - 1];
      Attempts(earlier, id, c) +
      if last.Failed? && last.id == id then Passed(Serve(earlier, c), id, last.now, c) else []
  }

  function Times(log: seq<Attempt>): (times: seq<int>)
    ensures |times| == |log| && forall i :: 0 <= i < |log| ==> times[i] == log[i].time
  {
    seq(|log|, i requires 0 <= i < |log| => log[i].time)
  }

  /** The clock does not go back, and nobody logs in to this account. */
  predicate OnlyFailures(logins: seq<Login>, id: string)
  {
    && (forall i, j :: 0 <= i < j < |logins| ==> logins[i].now <= logins[j].now)
    && (forall i :: 0 <= i < |logins| && logins[i].id == id ==> logins[i].Failed?)
  }

  /** Attempt `b` right after attempt `a`: it continues the count, or it starts afresh because the
      count expired or the account was locked in between. */
  predicate Follows(a: Attempt, b: Attempt, c: Config)
  {
    && a.time <= b.time
    && (|| (a.number < c.maxAttempts && b.number == a.number + 1 && b.start == a.start)
        || (a.number < c.maxAttempts && b.number == 1 && a.start + c.window <= b.time)
        || (a.number == c.maxAttempts && b.number == 1 && a.time + c.lockout <= b.time))
  }

  predicate Counting(log: seq<Attempt>, c: Config)
  {
    && (forall i :: 0 <= i < |log| ==>
          && 1 <= log[i].number <= c.maxAttempts && (log[i].number == 1 ==> log[i].start == log[i].time))
    && (forall i, j :: 0 <= i < |log| && 0 <= j < |log| && j == i + 1 ==> Follows(log[i], log[j], c))
  }

  /** Redis holds the count of the last attempt, or the lock it set. */
  predicate Matches(r: Redis, id: string, log: seq<Attempt>, c: Config)
  {
    if log == [] then id !in r.attempts && id !in r.locks
    else
      var last := log[|log| - 1];
      if last.number < c.maxAttempts
      then id in r.attempts && r.attempts[id] == Counter(last.number, last.start + c.window)
           && (id in r.locks ==> r.locks[id] <= last.time)
      else id !in r.attempts && id in r.locks && r.locks[id] == last.time + c.lockout
  }

  ghost predicate Inv(logins: seq<Login>, log: seq<Attempt>, id: string, c: Config)
  {
    && Counting(log, c) && Matches(Serve(logins, c), id, log, c)
    && (log != [] ==> logins != [] && log[|log| - 1].time <= logins[|logins| - 1].now)
  }

  lemma {:induction false} LoginKeepsInv(logins: seq<Login>, log: seq<Attempt>, id: string, c: Config)
    requires c.maxAttempts >= 1 && logins != [] && OnlyFailures(logins, id)
    requires Inv(logins[..|logins| - 1], log, id, c)
    ensures var earlier, last := logins[..|logins| - 1], logins[|logins| - 1];
            Inv(logins, log + if last.Failed? && last.id == id then Passed(Serve(earlier, c), id, last.now, c) else [], id, c)
  {}

  lemma {:induction false} RunsKeepInv(logins: seq<Login>, id: string, c: Config)
    requires c.maxAttempts >= 1 && OnlyFailures(logins, id)
    ensures Inv(logins, Attempts(logins, id, c), id, c)
    decreases |logins|
  {
    if logins != [] {
      RunsKeepInv(logins[..|logins| - 1], id, c);
      LoginKeepsInv(logins, Attempts(logins[..|logins| - 1], id, c), id, c);
    }
  }

  lemma {:induction false} TimesRise(log: seq<Attempt>, c: Config, i: nat, j: nat)
    requires Counting(log, c) && i <= j < |log|
    ensures log[i].time <= log[j].time
    decreases j
  {
    if i < j {
      TimesRise(log, c, i, j - 1);
      assert Follows(log[j - 1], log[j], c);
    }
  }

  /** The next fresh count after attempt `i`: either a lock came between, or the count expired. */
  lemma {:induction false} NextCount(log: seq<Attempt>, c: Config, i: nat) returns (j: nat)
    requires Counting(log, c) && i < |log| && i + c.maxAttempts - log[i].number + 1 < |log|
    ensures i < j <= i + c.maxAttempts - log[i].number + 1 && log[j].number == 1
    ensures || log[i].time + c.lockout <= log[j].time
            || (j <= i + c.maxAttempts - log[i].number && log[i].start + c.window <= log[j].time)
    decreases |log| - i
  {
    j := i + 1;
    assert Follows(log[i], log[j], c);
    if log[j].number != 1 { j := NextCount(log, c, j); }
  }

  lemma {:induction false} AttemptsAreSpaced(log: seq<Attempt>, c: Config, i: nat)
    requires c.maxAttempts >= 2 && c.lockout >= c.window && Counting(log, c)
    requires i + 2 * c.maxAttempts - 2 < |log|
    ensures log[i].time + c.window <= log[i + 2 * c.maxAttempts - 2].time
  {
    var j := NextCount(log, c, i);
    if log[j].time < log[i].time + c.window {
      TimesRise(log, c, i, j);
      j := NextCount(log, c, j);
    }
    TimesRise(log, c, j, i + 2 * c.maxAttempts - 2);
  }

  /** Guessing is slow: over any mix of accounts, an account nobody logs in to lets at most
      `2 * maxAttempts - 2` failed attempts past the lock check in any half-open interval as long as
      the attempt window, whenever the lock lasts at least that window. */
  lemma {:induction false} AtMostEightGuesses(logins: seq<Login>, id: string, c: Config, start: int)
    requires c.maxAttempts >= 2 && c.lockout >= c.window && OnlyFailures(logins, id)
    ensures Inside(Times(Attempts(logins, id, c)), start, c.window) <= 2 * c.maxAttempts - 2
    ensures c == ACCOUNT_POLICY ==> Inside(Times(Attempts(logins, id, c)), start, 900000) <= 8 && c.lockout == 900000
  {
    RunsKeepInv(logins, id, c);
    var log := Attempts(logins, id, c);
    forall i, j | 0 <= i < j < |log| ensures log[i].time <= log[j].time { TimesRise(log, c, i, j); }
    forall i | 0 <= i && i + 2 * c.maxAttempts - 2 < |log|
      ensures log[i].time + c.window <= log[i + 2 * c.maxAttempts - 2].time
    {
      AttemptsAreSpaced(log, c, i);
    }
    SpacedBoundsRate(Times(log), 2 * c.maxAttempts - 2, c.window, start);
  }

  /** A lock lasts: from the attempt that reached the limit on, every attempt within the lock
      duration is refused. */
  lemma {:induction false} LockHolds(logins: seq<Login>, id: string, c: Config, now: int)
    requires c.maxAttempts >= 1 && OnlyFailures(logins, id)
    requires var log := Attempts(logins, id, c); log != [] && log[|log| - 1].number == c.maxAttempts
    ensures LockedAt(Serve(logins, c), id, now)
        <==> now < Attempts(logins, id, c)[|Attempts(logins, id, c)| - 1].time + c.lockout
  {
    RunsKeepInv(logins, id, c);
  }

  // ----- successes

  /** Redis holds the same about one account. */
  predicate SameAccount(r: Redis, s: Redis, id: string)
  {
    && (id in r.attempts <==> id in s.attempts) && (id in r.attempts ==> r.attempts[id] == s.attempts[id])
    && (id in r.locks <==> id in s.locks) && (id in r.locks ==> r.locks[id] == s.locks[id])
  }

  function Served(r: Redis, login: Login, c: Config): Redis
  {
    match login
    case Failed(id, now) => Fail(r, id, now, c).0
    case Succeeded(id, _) => Succeed(r, id)
  }

  function Adds(r: Redis, login: Login, id: string, c: Config): seq<Attempt>
  {
    if login.Failed? && login.id == id then Passed(r, id, login.now, c) else []
  }

  lemma {:induction false} OneMore(logins: seq<Login>, last: Login, id: string, c: Config)
    ensures Serve(logins + [last], c) == Served(Serve(logins, c), last, c)
    ensures Attempts(logins + [last], id, c) == Attempts(logins, id, c) + Adds(Serve(logins, c), last, id, c)
  {
    assert (logins + [last])[..|logins|] == logins;
  }

  lemma {:induction false} SameLoginSameAccount(r: Redis, s: Redis, last: Login, id: string, c: Config)
    requires SameAccount(r, s, id)
    ensures SameAccount(Served(r, last, c), Served(s, last, c), id) && Adds(r, last, id, c) == Adds(s, last, id, c)
  {
  }

  lemma {:induction false} StillForgotten(a: seq<Login>, b: seq<Login>, done: seq<Attempt>, last: Login, id: string, c: Config)
    requires SameAccount(Serve(a, c), Serve(b, c), id) && Attempts(a, id, c) == done + Attempts(b, id, c)
    ensures SameAccount(Serve(a + [last], c), Serve(b + [last], c), id)
    ensures Attempts(a + [last], id, c) == done + Attempts(b + [last], id, c)
  {
    SameLoginSameAccount(Serve(a, c), Serve(b, c), last, id, c);
    OneMore(a, last, id, c);
    OneMore(b, last, id, c);
  }

  /** A success clears the account: from then on everything is as if nothing had happened before. */
  lemma {:induction false} SuccessForgets(before: seq<Login>, id: string, now: int, after: seq<Login>, c: Config)
    ensures SameAccount(Serve(before + [Succeeded(id, now)] + after, c), Serve(after, c), id)
    ensures Attempts(before + [Succeeded(id, now)] + after, id, c) == Attempts(before, id, c) + Attempts(after, id, c)
    decreases |after|
  {
    var start := before + [Succeeded(id, now)];
    if after == [] {
      assert start + after == start;
      OneMore(before, Succeeded(id, now), id, c);
    } else {
      var init, last := after[..|after| - 1], after[|after| - 1];
      SuccessForgets(before, id, now, init, c);
      StillForgotten(start + init, init, Attempts(before, id, c), last, id, c);
      assert start + after == (start + init) + [last] && init + [last] == after;
    }
  }

  /** So the bound on guesses holds anew after every success. */
  lemma {:induction false} AtMostEightGuessesAfterASuccess(before: seq<Login>, id: string, now: int, after: seq<Login>, c: Config,
    start: int)
    requires c.maxAttempts >= 2 && c.lockout >= c.window && OnlyFailures(after, id)
    ensures var all, done := Attempts(before + [Succeeded(id, now)] + after, id, c), Attempts(before, id, c);
            |done| <= |all| && Inside(Times(all[|done|..]), start, c.window) <= 2 * c.maxAttempts - 2
  {
    SuccessForgets(before, id, now, after, c);
    AtMostEightGuesses(after, id, c, start);
    assert Attempts(before + [Succeeded(id, now)] + after, id, c)[|Attempts(before, id, c)|..] == Attempts(after, id, c);
  }

  /** A failed attempt is told how long the account is locked, exactly if it is; otherwise how many
      attempts were counted, which are too few to lock it. */
  lemma {:induction false} RepliesTellTheState(r: Redis, id: string, now: int, c: Config)
    requires c.lockout > 0
    ensures var (r', reply) := Fail(r, id, now, c);
            && (reply.Locked? <==> id in r'.locks && now < r'.locks[id])
            && (reply.Locked? ==> reply.remaining == r'.locks[id] - now)
            && (reply.Counted? ==>
                  id in r'.attempts && reply.attempts == r'.attempts[id].count < c.maxAttempts)
  {
  }

  // ----- the service

  class AccountLockoutService {
    var attempts: map<string, Counter>
    var locks: map<string, int>
    const config: Config

    function Value(): Redis
      reads this
    {
      Redis(attempts, locks)
    }

    constructor ()
      ensures Value() == Redis(map[], map[]) && config == ACCOUNT_POLICY
    {
      attempts, locks, config := map[], map[], ACCOUNT_POLICY;
    }

    method RecordFailedAttempt(id: string, now: int) returns (reply: Reply)
      modifies this
      ensures (Value(), reply) == Fail(old(Value()), id, now, config)
    {
      if id in locks && now < locks[id] {
        return Locked(locks[id] - now);
      }
      var count := 1;
      if id in attempts && now < attempts[id].expiresAt {
        count := attempts[id].count + 1;
      }
      if count == 1 {
        attempts := attempts[id := Counter(1, now + config.window)];
      } else {
        attempts := attempts[id := Counter(count, attempts[id].expiresAt)];
      }
      if count >= config.maxAttempts {
        locks := locks[id := now + config.lockout];
        attempts := attempts - {id};
        assert attempts == old(attempts) - {id};
        return Locked(config.lockout);
      }
      return Counted(count);
    }

    method RecordSuccessfulAttempt(id: string)
      modifies this
      ensures Value() == Succeed(old(Value()), id)
    {
      attempts := attempts - {id};
      locks := locks - {id};
    }

    method IsLocked(id: string, now: int) returns (locked: bool)
      ensures locked == LockedAt(Value(), id, now)
    {
      return id in locks && now < locks[id];
    }
  }
}
