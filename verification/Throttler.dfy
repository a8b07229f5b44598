/** The in-memory fixed-window rate limiter with a block after the limit is exceeded. */
module Throttler {
  import opened Rates

  datatype Hits = Hits(totalHits: int, expiresAt: int)

  datatype Tables = Tables(hits: map<string, Hits>, blocks: map<string, int>)

  datatype Call = Call(now: int, ttl: int, limit: int, blockDuration: int)

  datatype Record = Record(totalHits: int, timeToExpire: int, isBlocked: bool, timeToBlockExpire: int)

  /** Milliseconds to seconds, rounded up. */
  function Seconds(ms: int): int
  {
    -((-ms) / 1000)
  }

  function BlockKey(cleanKey: string): string
  {
    cleanKey + ":blocked"
  }

  predicate Blocked(t: Tables, k: string, now: int)
  {
    BlockKey(k) in t.blocks && t.blocks[BlockKey(k)] != 0 && t.blocks[BlockKey(k)] > now
  }

  /** One call under the key `k`. */
  function Bump(t: Tables, k: string, c: Call): (Tables, Record)
  {
    if Blocked(t, k, c.now) then
      (t, Record(c.limit + 1, 0, true, Seconds(t.blocks[BlockKey(k)] - c.now)))
    else
      var opens := k !in t.hits || t.hits[k].expiresAt <= c.now;
      var hits := if opens then Hits(1, c.now + c.ttl) else Hits(t.hits[k].totalHits + 1, t.hits[k].expiresAt);
      var left := Seconds(hits.expiresAt - c.now);
      var timeToExpire := if left > 1 then left else 1;
      if hits.totalHits > c.limit
      then (Tables(t.hits[k := hits], t.blocks[BlockKey(k) := c.now + c.blockDuration]),
            Record(hits.totalHits, timeToExpire, true, Seconds(c.blockDuration)))
      else (Tables(t.hits[k := hits], t.blocks), Record(hits.totalHits, timeToExpire, false, 0))
  }

  // ----- runs over any mix of keys

  datatype Request = Request(key: string, call: Call)

  /** An admitted call: when it came, when its window opened, and its number in that window. */
  datatype Admission = Admission(time: int, start: int, number: int)

  function Serve(requests: seq<Request>): Tables
    decreases |requests|
  {
    if requests == [] then Tables(map[], map[]) else
      var last := requests[|requests| - 1];
      Bump(Serve(requests[..|requests| - 1]), last.key, last.call).0
  }

  /** What one call under key `k` adds to the log of admissions. */
  function Passed(t: Tables, k: string, c: Call): seq<Admission>
  {
    var (t', record) := Bump(t, k, c);
    if record.isBlocked || k !in t'.hits then []
    else [Admission(c.now, t'.hits[k].expiresAt - c.ttl, record.totalHits)]
  }

  /** The calls under key `k` that were let through. */
  function Admitted(requests: seq<Request>, k: string): seq<Admission>
    decreases |requests|
  {
    if requests == [] then [] else
      var last, earlier := requests[|requests| - 1], requests[..|requests| - 1];
      Admitted(earlier, k) + if last.key == k then Passed(Serve(earlier), k, last.call) else []
  }

  function Times(log: seq<Admission>): (times: seq<int>)
    ensures |times| == |log| && forall i :: 0 <= i < |log| ==> times[i] == log[i].time
  {
    seq(|log|, i requires 0 <= i < |log| => log[i].time)
  }

  /** The clock does not go back, and the key is always used with the same window and limit. */
  predicate Steady(requests: seq<Request>, k: string, ttl: int, limit: int)
  {
    && (forall i, j :: 0 <= i < j < |requests| ==> requests[i].call.now <= requests[j].call.now)
    && (forall i :: 0 <= i < |requests| && requests[i].key == k ==>
          requests[i].call.ttl == ttl && requests[i].call.limit == limit)
  }

  /** Within a window the admissions are numbered from one up to the limit; the next window opens no
      earlier than the previous one ends, with an admitted call. */
  predicate Windowed(log: seq<Admission>, ttl: int, limit: int)
  {
    && (forall i :: 0 <= i < |log| ==>
          && 1 <= log[i].number <= limit && log[i].start <= log[i].time
          && (log[i].number == 1 ==> log[i].start == log[i].time))
    && (forall i, j :: 0 <= i < |log| && 0 <= j < |log| && j == i + 1 ==>
          && log[i].time <= log[j].time
          && (|| (log[j].start == log[i].start && log[j].number == log[i].number + 1)
              || (log[j].number == 1 && log[i].start + ttl <= log[j].start)))
  }

  /** The counter belongs to the window of the last admission. */
  predicate Counts(t: Tables, k: string, log: seq<Admission>, ttl: int, limit: int)
  {
    if log == [] then k !in t.hits
    else
      var last := log[|log| - 1];
      && k in t.hits && t.hits[k].expiresAt == last.start + ttl
      && last.number <= t.hits[k].totalHits
      && (t.hits[k].totalHits <= limit ==> t.hits[k].totalHits == last.number)
  }

  /** An admission after the last one. */
  predicate Extends(log: seq<Admission>, a: Admission, ttl: int, limit: int)
  {
    && 1 <= a.number <= limit && a.start <= a.time && (a.number == 1 ==> a.start == a.time)
    && (log != [] ==>
          var last := log[|log| - 1];
          && last.time <= a.time
          && (|| (a.start == last.start && a.number == last.number + 1)
              || (a.number == 1 && last.start + ttl <= a.start)))
  }

  lemma {:induction false} PassedExtends(t: Tables, k: string, log: seq<Admission>, c: Call)
    requires c.limit >= 1 && Counts(t, k, log, c.ttl, c.limit)
    requires log != [] ==> 1 <= log[|log| - 1].number && log[|log| - 1].start <= log[|log| - 1].time <= c.now
    ensures var passed := Passed(t, k, c);
            passed == [] || (|passed| == 1 && Extends(log, passed[0], c.ttl, c.limit))
    ensures Counts(Bump(t, k, c).0, k, log + Passed(t, k, c), c.ttl, c.limit)
  {
    assert Passed(t, k, c) == [] ==> log + Passed(t, k, c) == log;
  }

  lemma {:induction false} StepKeepsWindows(t: Tables, k: string, log: seq<Admission>, c: Call)
    requires c.limit >= 1
    requires Windowed(log, c.ttl, c.limit) && Counts(t, k, log, c.ttl, c.limit)
    requires log != [] ==> log[|log| - 1].time <= c.now
    ensures Windowed(log + Passed(t, k, c), c.ttl, c.limit)
    ensures Counts(Bump(t, k, c).0, k, log + Passed(t, k, c), c.ttl, c.limit)
  {
    PassedExtends(t, k, log, c);
  }

  lemma {:induction false} OtherKeysDoNotCount(t: Tables, k: string, other: string, log: seq<Admission>, c: Call, ttl: int, limit: int)
    requires other != k && Counts(t, k, log, ttl, limit)
    ensures Counts(Bump(t, other, c).0, k, log, ttl, limit)
  {}

  lemma {:induction false} EarlierIsSteady(requests: seq<Request>, k: string, ttl: int, limit: int)
    requires requests != [] && Steady(requests, k, ttl, limit)
    ensures Steady(requests[..|requests| - 1], k, ttl, limit)
  {}

  predicate UpTo(log: seq<Admission>, requests: seq<Request>)
  {
    log != [] ==> requests != [] && log[|log| - 1].time <= requests[|requests| - 1].call.now
  }

  ghost predicate Inv(requests: seq<Request>, log: seq<Admission>, k: string, ttl: int, limit: int)
  {
    Windowed(log, ttl, limit) && Counts(Serve(requests), k, log, ttl, limit) && UpTo(log, requests)
  }

  lemma {:induction false} RequestKeepsInv(requests: seq<Request>, log: seq<Admission>, k: string, ttl: int, limit: int)
    requires limit >= 1 && requests != [] && Steady(requests, k, ttl, limit)
    requires Inv(requests[..|requests| - 1], log, k, ttl, limit)
    ensures var last := requests[|requests| - 1];
            var passed := if last.key == k then Passed(Serve(requests[..|requests| - 1]), k, last.call) else [];
            Inv(requests, log + passed, k, ttl, limit)
  {
    var last, earlier := requests[|requests| - 1], requests[..|requests| - 1];
    if last.key == k {
      assert last.call.ttl == ttl && last.call.limit == limit;
      assert log != [] ==> log[|log| - 1].time <= last.call.now;
      StepKeepsWindows(Serve(earlier), k, log, last.call);
    } else {
      OtherKeysDoNotCount(Serve(earlier), k, last.key, log, last.call, ttl, limit);
      assert log + [] == log;
    }
  }

  lemma {:induction false} RunsKeepInv(requests: seq<Request>, k: string, ttl: int, limit: int)
    requires limit >= 1 && Steady(requests, k, ttl, limit)
    ensures Inv(requests, Admitted(requests, k), k, ttl, limit)
    decreases |requests|
  {
    if requests != [] {
      EarlierIsSteady(requests, k, ttl, limit);
      RunsKeepInv(requests[..|requests| - 1], k, ttl, limit);
      RequestKeepsInv(requests, Admitted(requests[..|requests| - 1], k), k, ttl, limit);
    }
  }

  /** After an admission numbered `n`, a new window opens within the next `limit - n + 1`. */
  lemma {:induction false} NextWindow(log: seq<Admission>, ttl: int, limit: int, i: nat) returns (j: nat)
    requires Windowed(log, ttl, limit)
    requires i < |log| && i + limit - log[i].number + 1 < |log|
    ensures i < j <= i + limit - log[i].number + 1 && log[j].number == 1
    ensures log[i].start + ttl <= log[j].start && log[i].time <= log[j].time
    decreases |log| - i
  {
    j := i + 1;
    if log[j].number != 1 { j := NextWindow(log, ttl, limit, j); }
  }

  lemma {:induction false} TimesRise(log: seq<Admission>, ttl: int, limit: int, i: nat, j: nat)
    requires Windowed(log, ttl, limit) && i <= j < |log|
    ensures log[i].time <= log[j].time
    decreases j
  {
    if i < j { TimesRise(log, ttl, limit, i, j - 1); }
  }

  lemma {:induction false} AdmissionsAreSpaced(log: seq<Admission>, ttl: int, limit: int, i: nat)
    requires limit >= 1 && Windowed(log, ttl, limit) && i + 2 * limit - 1 < |log|
    ensures log[i].time + ttl <= log[i + 2 * limit - 1].time
  {
    var j := NextWindow(log, ttl, limit, i);
    if log[i].number > 1 {
      j := NextWindow(log, ttl, limit, j);
    }
    TimesRise(log, ttl, limit, j, i + 2 * limit - 1);
  }

  /** The rate limit: for any mix of keys and any block durations, a key used with one window and one
      limit has at most `2 * limit - 1` calls admitted in any half-open interval as long as the window. */
  lemma {:induction false} AtMostTwiceTheLimit(requests: seq<Request>, k: string, ttl: int, limit: int, start: int)
    requires limit >= 1 && Steady(requests, k, ttl, limit)
    ensures Inside(Times(Admitted(requests, k)), start, ttl) <= 2 * limit - 1
  {
    RunsKeepInv(requests, k, ttl, limit);
    var log := Admitted(requests, k);
    forall i, j | 0 <= i < j < |log| ensures log[i].time <= log[j].time { TimesRise(log, ttl, limit, i, j); }
    forall i | 0 <= i && i + 2 * limit - 1 < |log| ensures log[i].time + ttl <= log[i + 2 * limit - 1].time {
      AdmissionsAreSpaced(log, ttl, limit, i);
    }
    SpacedBoundsRate(Times(log), 2 * limit - 1, ttl, start);
  }

  /** At most `limit` calls per window: the admission `limit` places later is in a later window. */
  lemma {:induction false} AtMostTheLimitPerWindow(requests: seq<Request>, k: string, ttl: int, limit: int, i: nat)
    requires limit >= 1 && Steady(requests, k, ttl, limit)
    requires i + limit < |Admitted(requests, k)|
    ensures var log := Admitted(requests, k); log[i].start + ttl <= log[i + limit].start
  {
    RunsKeepInv(requests, k, ttl, limit);
    var log := Admitted(requests, k);
    var j := NextWindow(log, ttl, limit, i);
    StartsAfter(log, ttl, limit, j, i + limit);
  }

  lemma {:induction false} StartsAfter(log: seq<Admission>, ttl: int, limit: int, i: nat, j: nat)
    requires Windowed(log, ttl, limit) && i <= j < |log| && log[i].number == 1
    ensures log[i].start <= log[j].start
    decreases j
  {
    if i < j {
      StartsAfter(log, ttl, limit, i, j - 1);
      if log[j].number == 1 { TimesRise(log, ttl, limit, i, j); }
    }
  }

  // ----- the bound is reached

  function Repeat(r: Request, m: nat): (requests: seq<Request>)
    ensures |requests| == m && forall i :: 0 <= i < m ==> requests[i] == r
  {
    if m == 0 then [] else Repeat(r, m - 1) + [r]
  }

  function Load(requests: seq<Request>, k: string, start: int, ttl: int): nat
  {
    Inside(Times(Admitted(requests, k)), start, ttl)
  }

  /** The state of the key after the requests: a counter and no block. */
  predicate Counting(requests: seq<Request>, k: string, hits: Hits)
  {
    var t := Serve(requests);
    BlockKey(k) !in t.blocks && k in t.hits && t.hits[k] == hits
  }

  /** The counter after a call that finds room in it, or finds it expired. */
  function After(hits: Hits, c: Call): Hits
  {
    if hits.expiresAt <= c.now then Hits(1, c.now + c.ttl) else Hits(hits.totalHits + 1, hits.expiresAt)
  }

  lemma {:induction false} OneMoreCounts(requests: seq<Request>, r: Request, hits: Hits)
    requires Counting(requests, r.key, hits) && After(hits, r.call).totalHits <= r.call.limit
    ensures Counting(requests + [r], r.key, After(hits, r.call))
  {
    assert (requests + [r])[..|requests|] == requests;
  }

  lemma {:induction false} OneMoreLoads(requests: seq<Request>, r: Request, hits: Hits, start: int)
    requires Counting(requests, r.key, hits) && After(hits, r.call).totalHits <= r.call.limit
    requires start <= r.call.now < start + r.call.ttl
    ensures Load(requests + [r], r.key, start, r.call.ttl) == Load(requests, r.key, start, r.call.ttl) + 1
  {
    assert (requests + [r])[..|requests|] == requests;
    var log, passed := Admitted(requests, r.key), Passed(Serve(requests), r.key, r.call);
    assert |passed| == 1;
    assert Admitted(requests + [r], r.key) == log + passed;
    assert Times(log + passed)[..|log|] == Times(log);
  }

  lemma {:induction false} RepeatOnce(requests: seq<Request>, r: Request, m: nat)
    ensures requests + Repeat(r, 0) == requests
    ensures requests + Repeat(r, m + 1) == requests + Repeat(r, m) + [r]
  {
    assert Repeat(r, m + 1) == Repeat(r, m) + [r];
  }

  /** Calls under a counter that has room are all admitted. */
  lemma {:induction false} BurstCounts(requests: seq<Request>, r: Request, m: nat, hits: Hits)
    requires Counting(requests, r.key, hits) && hits.totalHits + m <= r.call.limit && r.call.now < hits.expiresAt
    ensures Counting(requests + Repeat(r, m), r.key, Hits(hits.totalHits + m, hits.expiresAt))
  {
    if m == 0 {
      RepeatOnce(requests, r, 0);
    } else {
      BurstCounts(requests, r, m - 1, hits);
      OneMoreCounts(requests + Repeat(r, m - 1), r, Hits(hits.totalHits + m - 1, hits.expiresAt));
      RepeatOnce(requests, r, m - 1);
    }
  }

  lemma {:induction false} LoadsAfter(requests: seq<Request>, more: seq<Request>, r: Request, hits: Hits, start: int, load: int)
    requires more == requests + [r] && Counting(requests, r.key, hits) && After(hits, r.call).totalHits <= r.call.limit
    requires start <= r.call.now < start + r.call.ttl && Load(requests, r.key, start, r.call.ttl) == load
    ensures Load(more, r.key, start, r.call.ttl) == load + 1
  {
    OneMoreLoads(requests, r, hits, start);
  }

  lemma {:induction false} RepeatFirst(requests: seq<Request>, r: Request, m: nat)
    ensures requests + Repeat(r, m + 1) == requests + [r] + Repeat(r, m)
  {
    assert forall i :: 0 <= i < m + 1 ==> ([r] + Repeat(r, m))[i] == r;
    assert Repeat(r, m + 1) == [r] + Repeat(r, m);
  }

  lemma {:induction false} BurstLoads(requests: seq<Request>, r: Request, m: nat, hits: Hits, start: int, load: int)
    requires Counting(requests, r.key, hits) && hits.totalHits + m <= r.call.limit && r.call.now < hits.expiresAt
    requires start <= r.call.now < start + r.call.ttl && Load(requests, r.key, start, r.call.ttl) == load
    ensures Load(requests + Repeat(r, m), r.key, start, r.call.ttl) == load + m
    decreases m
  {
    if m == 0 {
      RepeatOnce(requests, r, 0);
    } else {
      var more := requests + [r];
      OneMoreCounts(requests, r, hits);
      LoadsAfter(requests, more, r, hits, start, load);
      BurstLoads(more, r, m - 1, After(hits, r.call), start, load + 1);
      RepeatFirst(requests, r, m - 1);
    }
  }

  lemma {:induction false} FirstCall(first: Request, start: int)
    requires first.call.limit >= 1 && first.call.now < start
    ensures Counting([first], first.key, Hits(1, first.call.now + first.call.ttl))
    ensures Load([first], first.key, start, first.call.ttl) == 0
  {
    assert [first][..0] == [] && Serve([first]) == Bump(Serve([]), first.key, first.call).0;
    assert Admitted([first], first.key) == [] + Passed(Serve([]), first.key, first.call);
    assert Times(Admitted([first], first.key))[..0] == [];
  }

  lemma {:induction false} PhasesAreSteady(a: Request, b: Request, c: Request, m: nat, n: nat)
    requires a.key == b.key == c.key
    requires a.call.ttl == b.call.ttl == c.call.ttl && a.call.limit == b.call.limit == c.call.limit
    requires a.call.now <= b.call.now <= c.call.now
    ensures Steady([a] + Repeat(b, m) + [c] + Repeat(c, n), a.key, a.call.ttl, a.call.limit)
  {
    var all := [a] + Repeat(b, m) + [c] + Repeat(c, n);
    assert forall i :: 0 <= i < |all| ==> all[i] == if i == 0 then a else if i <= m then b else c;
  }

  lemma {:induction false} Reopens(window: seq<Request>, next: Request, hits: Hits, start: int, load: int)
    requires next.call.limit >= 1 && Counting(window, next.key, hits) && hits.expiresAt <= next.call.now
    requires start <= next.call.now < start + next.call.ttl && Load(window, next.key, start, next.call.ttl) == load
    ensures Counting(window + [next], next.key, Hits(1, next.call.now + next.call.ttl))
    ensures Load(window + [next], next.key, start, next.call.ttl) == load + 1
  {
    OneMoreCounts(window, next, hits);
    OneMoreLoads(window, next, hits, start);
  }

  /** A full limit of calls as soon as the window has ended. */
  lemma {:induction false} Reopened(window: seq<Request>, next: Request, hits: Hits, start: int, load: int)
    returns (requests: seq<Request>)
    requires next.call.limit >= 1 && Counting(window, next.key, hits) && hits.expiresAt <= next.call.now
    requires start <= next.call.now < start + next.call.ttl && Load(window, next.key, start, next.call.ttl) == load
    ensures requests == window + [next] + Repeat(next, next.call.limit - 1)
    ensures Load(requests, next.key, start, next.call.ttl) == load + next.call.limit
  {
    Reopens(window, next, hits, start, load);
    BurstLoads(window + [next], next, next.call.limit - 1, Hits(1, next.call.now + next.call.ttl), start, load + 1);
    requests := window + [next] + Repeat(next, next.call.limit - 1);
  }

  /** One call when the window opens, the rest of the limit just before it ends. */
  lemma {:induction false} Filled(first: Request, late: Request, start: int) returns (window: seq<Request>)
    requires first.key == late.key && first.call.ttl == late.call.ttl && first.call.limit == late.call.limit >= 1
    requires first.call.now < start == late.call.now < first.call.now + first.call.ttl
    ensures window == [first] + Repeat(late, late.call.limit - 1)
    ensures Counting(window, first.key, Hits(late.call.limit, first.call.now + first.call.ttl))
    ensures Load(window, first.key, start, first.call.ttl) == late.call.limit - 1
  {
    var hits := Hits(1, first.call.now + first.call.ttl);
    FirstCall(first, start);
    BurstCounts([first], late, late.call.limit - 1, hits);
    BurstLoads([first], late, late.call.limit - 1, hits, start, 0);
    window := [first] + Repeat(late, late.call.limit - 1);
  }

  lemma {:induction false} BurstsLoad(first: Request, late: Request, next: Request) returns (requests: seq<Request>)
    requires first.key == late.key == next.key && first.call.ttl == late.call.ttl == next.call.ttl >= 2
    requires first.call.limit == late.call.limit == next.call.limit >= 1
    requires first.call.now + first.call.ttl == late.call.now + 1 == next.call.now
    ensures requests == [first] + Repeat(late, late.call.limit - 1) + [next] + Repeat(next, next.call.limit - 1)
    ensures Load(requests, first.key, late.call.now, first.call.ttl) == 2 * first.call.limit - 1
  {
    var window := Filled(first, late, late.call.now);
    requests := Reopened(window, next, Hits(late.call.limit, next.call.now), late.call.now, late.call.limit - 1);
  }

  /** No smaller bound holds: one early call, the rest of the limit just before the window ends and
      a full limit right after make `2 * limit - 1` admissions within one window length. */
  lemma {:induction false} TheBoundIsReached(k: string, ttl: int, limit: int, blockDuration: int)
    returns (requests: seq<Request>)
    requires limit >= 1 && ttl >= 2
    ensures Steady(requests, k, ttl, limit)
    ensures Load(requests, k, ttl - 1, ttl) == 2 * limit - 1
  {
    var first := Request(k, Call(0, ttl, limit, blockDuration));
    var late := Request(k, Call(ttl - 1, ttl, limit, blockDuration));
    var next := Request(k, Call(ttl, ttl, limit, blockDuration));
    requests := BurstsLoad(first, late, next);
    PhasesAreSteady(first, late, next, limit - 1, limit - 1);
  }

  // ----- the service

  class ThrottlerStorage {
    var memoryHits: map<string, Hits>
    var memoryBlocks: map<string, int>

    function Value(): Tables
      reads this
    {
      Tables(memoryHits, memoryBlocks)
    }

    constructor ()
      ensures Value() == Tables(map[], map[])
    {
      memoryHits, memoryBlocks := map[], map[];
    }

    method Increment(key: string, ttl: int, limit: int, blockDuration: int, throttlerName: string, now: int)
      returns (r: Record)
      modifies this
      ensures var k := "throttler:" + throttlerName + ":" + key;
              (Value(), r) == Bump(old(Value()), k, Call(now, ttl, limit, blockDuration))
    {
      var cleanKey := "throttler:" + throttlerName + ":" + key;
      var blockKey := BlockKey(cleanKey);
      if blockKey in memoryBlocks && memoryBlocks[blockKey] != 0 && memoryBlocks[blockKey] > now {
        return Record(limit + 1, 0, true, Seconds(memoryBlocks[blockKey] - now));
      }
      if cleanKey !in memoryHits || memoryHits[cleanKey].expiresAt <= now {
        memoryHits := memoryHits[cleanKey := Hits(1, now + ttl)];
      } else {
        var record := memoryHits[cleanKey];
        memoryHits := memoryHits[cleanKey := record.(totalHits := record.totalHits + 1)];
      }
      var record := memoryHits[cleanKey];
      var left := Seconds(record.expiresAt - now);
      var timeToExpire := if left > 1 then left else 1;
      if record.totalHits > limit {
        memoryBlocks := memoryBlocks[blockKey := now + blockDuration];
        return Record(record.totalHits, timeToExpire, true, Seconds(blockDuration));
      }
      return Record(record.totalHits, timeToExpire, false, 0);
    }
  }
}
