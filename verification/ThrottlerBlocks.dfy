/** What the rate limiter answers, by the log of calls under one key: windows, numbers and blocks. */
module ThrottlerBlocks {
  import opened Prelude
  import opened Throttler

  /** What the next request is told after the given ones. */
  function Answer(requests: seq<Request>, r: Request): Record
  {
    Bump(Serve(requests), r.key, r.call).1
  }

  predicate Stands(end: Option<int>, now: int)
  {
    end.Some? && now < end.value
  }

  /** When the last block of a key ends: a refusal that no earlier block explains starts one. */
  function BlockEnds(requests: seq<Request>, k: string): Option<int>
    decreases |requests|
  {
    if requests == [] then None else
      var earlier, last := requests[..|requests| - 1], requests[|requests| - 1];
      var before := BlockEnds(earlier, k);
      if last.key == k && Answer(earlier, last).isBlocked && !Stands(before, last.call.now)
      then Some(last.call.now + last.call.blockDuration) else before
  }

  /** The last call that no block turned away: its number in its window and the end of that window. */
  datatype Counted = Counted(number: int, ends: int)

  function Count(before: Option<Counted>, c: Call): Counted
  {
    if before.None? || before.value.ends <= c.now then Counted(1, c.now + c.ttl)
    else Counted(before.value.number + 1, before.value.ends)
  }

  function LastCounted(requests: seq<Request>, k: string): Option<Counted>
    decreases |requests|
  {
    if requests == [] then None else
      var earlier, last := requests[..|requests| - 1], requests[|requests| - 1];
      var before := LastCounted(earlier, k);
      if last.key == k && !Stands(BlockEnds(earlier, k), last.call.now) then Some(Count(before, last.call)) else before
  }

  /** Times are dates, which are not negative. */
  predicate Dated(requests: seq<Request>)
  {
    forall i :: 0 <= i < |requests| ==> requests[i].call.now >= 0
  }

  /** The tables hold what the log says. */
  predicate Holds(t: Tables, k: string, end: Option<int>, counted: Option<Counted>)
  {
    && (BlockKey(k) in t.blocks <==> end.Some?) && (end.Some? ==> t.blocks[BlockKey(k)] == end.value)
    && (k in t.hits <==> counted.Some?)
    && (counted.Some? ==> t.hits[k] == Hits(counted.value.number, counted.value.ends))
  }

  lemma {:induction false} BlockKeysDiffer(a: string, b: string)
    ensures BlockKey(a) == BlockKey(b) <==> a == b
  {
    if BlockKey(a) == BlockKey(b) {
      assert |BlockKey(a)| == |a| + 8 && |BlockKey(b)| == |b| + 8;
      assert BlockKey(a)[..|a|] == a && BlockKey(b)[..|b|] == b;
    }
  }

  lemma {:induction false} SameKeyHolds(t: Tables, k: string, c: Call, end: Option<int>, counted: Option<Counted>)
    requires c.now >= 0 && Holds(t, k, end, counted)
    ensures var (t', record) := Bump(t, k, c);
            Holds(t', k, if record.isBlocked && !Stands(end, c.now) then Some(c.now + c.blockDuration) else end,
                  if Stands(end, c.now) then counted else Some(Count(counted, c)))
  {
  }

  lemma {:induction false} OtherKeyHolds(t: Tables, k: string, other: string, c: Call, end: Option<int>, counted: Option<Counted>)
    requires other != k && Holds(t, k, end, counted)
    ensures Holds(Bump(t, other, c).0, k, end, counted)
  {
    BlockKeysDiffer(k, other);
  }

  lemma {:induction false} TablesHoldTheLog(requests: seq<Request>, k: string)
    requires Dated(requests)
    ensures Holds(Serve(requests), k, BlockEnds(requests, k), LastCounted(requests, k))
    decreases |requests|
  {
    if requests != [] {
      var earlier, last := requests[..|requests| - 1], requests[|requests| - 1];
      TablesHoldTheLog(earlier, k);
      if last.key == k {
        SameKeyHolds(Serve(earlier), k, last.call, BlockEnds(earlier, k), LastCounted(earlier, k));
      } else {
        OtherKeyHolds(Serve(earlier), k, last.key, last.call, BlockEnds(earlier, k), LastCounted(earlier, k));
      }
    }
  }

  /** `s` is the time `ms` in whole seconds, rounded up. */
  predicate InSeconds(s: int, ms: int)
  {
    1000 * (s - 1) < ms <= 1000 * s
  }

  lemma {:induction false} SecondsRoundUp(ms: int)
    ensures InSeconds(Seconds(ms), ms)
  {
  }

  /** While a block stands a call is refused and not counted. Otherwise it is counted, with the next
      number of its window or as the first of a new one, and refused iff that is beyond the limit. */
  lemma {:induction false} CallsAreAnsweredByTheLog(requests: seq<Request>, r: Request)
    requires Dated(requests) && r.call.now >= 0
    ensures var end, c, answer := BlockEnds(requests, r.key), r.call, Answer(requests, r);
            if Stands(end, c.now)
            then answer.isBlocked && answer.totalHits == c.limit + 1 && answer.timeToExpire == 0
                 && InSeconds(answer.timeToBlockExpire, end.value - c.now)
            else
              var counted := Count(LastCounted(requests, r.key), c);
              && answer.totalHits == counted.number && (answer.isBlocked <==> counted.number > c.limit)
              && answer.timeToExpire >= 1
              && (answer.timeToExpire > 1 || counted.ends - c.now > 0 ==> InSeconds(answer.timeToExpire, counted.ends - c.now))
              && (if answer.isBlocked then InSeconds(answer.timeToBlockExpire, c.blockDuration) else answer.timeToBlockExpire == 0)
  {
    TablesHoldTheLog(requests, r.key);
    var end := BlockEnds(requests, r.key);
    if Stands(end, r.call.now) {
      SecondsRoundUp(end.value - r.call.now);
    } else {
      SecondsRoundUp(Count(LastCounted(requests, r.key), r.call).ends - r.call.now);
      SecondsRoundUp(r.call.blockDuration);
    }
  }

  /** A call beyond the limit of its window that no block turns away. */
  predicate Exceeds(requests: seq<Request>, r: Request)
  {
    !Stands(BlockEnds(requests, r.key), r.call.now) && Count(LastCounted(requests, r.key), r.call).number > r.call.limit
  }

  lemma {:induction false} BlockStays(requests: seq<Request>, k: string, end: int, more: seq<Request>)
    requires BlockEnds(requests, k) == Some(end)
    requires forall i :: 0 <= i < |more| && more[i].key == k ==> more[i].call.now < end
    ensures BlockEnds(requests + more, k) == Some(end)
    decreases |more|
  {
    if more == [] {
      assert requests + more == requests;
    } else {
      BlockStays(requests, k, end, more[..|more| - 1]);
      assert (requests + more)[..|requests + more| - 1] == requests + more[..|more| - 1];
    }
  }

  /** The call that exceeds the limit is refused, and so is every call of its key before its block
      duration is over; the first one after that finds no block. */
  lemma {:induction false} ABlockLastsItsDuration(requests: seq<Request>, r: Request, more: seq<Request>, next: Request)
    requires Dated(requests) && r.call.now >= 0 && Dated(more) && next.call.now >= 0 && Exceeds(requests, r)
    requires var end := r.call.now + r.call.blockDuration;
             next.key == r.key && forall i :: 0 <= i < |more| && more[i].key == r.key ==> more[i].call.now < end
    ensures Answer(requests, r).isBlocked
    ensures var end, answer := r.call.now + r.call.blockDuration, Answer(requests + [r] + more, next);
            && (next.call.now < end ==>
                  answer.isBlocked && answer.totalHits == next.call.limit + 1
                  && InSeconds(answer.timeToBlockExpire, end - next.call.now))
            && (next.call.now >= end ==>
                  answer.totalHits == Count(LastCounted(requests + [r] + more, r.key), next.call).number
                  && (answer.isBlocked <==> answer.totalHits > next.call.limit))
  {
    CallsAreAnsweredByTheLog(requests, r);
    assert (requests + [r])[..|requests|] == requests;
    BlockStays(requests + [r], r.key, r.call.now + r.call.blockDuration, more);
    CallsAreAnsweredByTheLog(requests + [r] + more, next);
  }
}
