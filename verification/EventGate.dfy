/** The webhook endpoint's gate: which event a delivery is, and the key that lets one handler at a
    time work on it. Check, lock, work and mark are separate steps that calls interleave. */
module EventGate {
  import opened Prelude

  const LOCK_MS := 10 * 60 * 1000
  const DONE_MS := 7 * 24 * 60 * 60 * 1000

  /** A request body: `id` is the text of `data.id` where that is a string or a number. */
  datatype Body = Body(event: Option<string>, id: Option<string>, reference: Option<string>, data: string)

  /** The key of an event: the id, else the reference, else the type and the whole data. */
  function EventKey(b: Body): string
  {
    if b.id.Some? && b.id.value != "" then b.id.value
    else if b.reference.Some? && b.reference.value != "" then b.reference.value
    else (if b.event.Some? then b.event.value else "unknown") + ":" + b.data
  }

  /** The event type is not part of an id's key: two events with one id are one event to the gate. */
  lemma {:induction false} SameIdSameKey(a: Body, b: Body)
    requires a.id.Some? && a.id.value != "" && b.id.Some? && b.id.value != ""
    ensures EventKey(a) == EventKey(b) <==> a.id == b.id
  {}

  /** Without an id the reference decides; without either, the type and the whole data. */
  lemma {:induction false} OtherKeys(a: Body, b: Body)
    requires (a.id.None? || a.id.value == "") && (b.id.None? || b.id.value == "")
    ensures a.reference.Some? && a.reference.value != "" && b.reference.Some? && b.reference.value != "" ==>
              (EventKey(a) == EventKey(b) <==> a.reference == b.reference)
    ensures a.reference.None? && b.reference.None? && a.event == b.event ==> (EventKey(a) == EventKey(b) <==> a.data == b.data)
  {
    if a.reference.None? && b.reference.None? && a.event == b.event && EventKey(a) == EventKey(b) {
      var head := (if a.event.Some? then a.event.value else "unknown") + ":";
      assert EventKey(a) == head + a.data && EventKey(b) == head + b.data;
      assert (head + a.data)[|head|..] == a.data && (head + b.data)[|head|..] == b.data;
    }
  }

  datatype Status = AlreadyProcessed | AlreadyProcessing | Processed | Failed

  datatype Call =
    | Checked(key: string)
    | Working(key: string, since: int)
    | Answered(key: string, status: Status)

  /** `keys` are the Redis keys with their expiry; the two logs are what happened to each event. */
  datatype State = State(
    keys: map<string, int>,
    calls: seq<Call>,
    clock: int,
    begun: seq<(string, int)>,
    marked: seq<(string, int)>)

  datatype Step =
    | Deliver(body: Body, now: int)
    | TryBegin(call: nat, now: int)
    | Finish(call: nat, succeeds: bool, now: int)

  predicate Exists(s: State, key: string, now: int)
  {
    key in s.keys && now < s.keys[key]
  }

  function Next(s: State, step: Step): State
  {
    match step
    case Deliver(body, now) =>
      var key := EventKey(body);
      s.(clock := now,
         calls := s.calls + [if Exists(s, key, now) then Answered(key, AlreadyProcessed) else Checked(key)])
    case TryBegin(c, now) =>
      if c < |s.calls| && s.calls[c].Checked? then
        var key := s.calls[c].key;
        if Exists(s, key, now) then s.(clock := now, calls := s.calls[c := Answered(key, AlreadyProcessing)])
        else s.(clock := now, calls := s.calls[c := Working(key, now)], keys := s.keys[key := now + LOCK_MS],
                begun := s.begun + [(key, now)])
      else s.(clock := now)
    case Finish(c, succeeds, now) =>
      if c < |s.calls| && s.calls[c].Working? then
        var key := s.calls[c].key;
        if succeeds
        then s.(clock := now, calls := s.calls[c := Answered(key, Processed)], keys := s.keys[key := now + DONE_MS],
                marked := s.marked + [(key, now)])
        else s.(clock := now, calls := s.calls[c := Answered(key, Failed)])
      else s.(clock := now)
  }

  /** The clock does not go back. */
  predicate Monotone(steps: seq<Step>)
  {
    forall i, j :: 0 <= i < j < |steps| ==> steps[i].now <= steps[j].now
  }

  function Run(steps: seq<Step>, clock: int): State
    decreases |steps|
  {
    if steps == [] then State(map[], [], clock, [], []) else Next(Run(steps[..|steps| - 1], clock), steps[|steps| - 1])
  }

  /** The key outlives every lock taken on it by ten minutes and every mark by seven days. */
  predicate Held(s: State)
  {
    && (forall i :: 0 <= i < |s.begun| ==>
          s.begun[i].1 <= s.clock && s.begun[i].0 in s.keys && s.begun[i].1 + LOCK_MS <= s.keys[s.begun[i].0])
    && (forall i :: 0 <= i < |s.marked| ==>
          s.marked[i].1 <= s.clock && s.marked[i].0 in s.keys && s.marked[i].1 + DONE_MS <= s.keys[s.marked[i].0])
    && (forall k :: k in s.keys ==> s.keys[k] <= s.clock + DONE_MS)
  }

  predicate Spaced(s: State)
  {
    forall i, j :: 0 <= i < j < |s.begun| && s.begun[i].0 == s.begun[j].0 ==> s.begun[i].1 + LOCK_MS <= s.begun[j].1
  }

  /** The key of a call at work outlives the call's first ten minutes. */
  predicate Placed(s: State)
  {
    forall c :: 0 <= c < |s.calls| && s.calls[c].Working? ==>
      (var w := s.calls[c]; w.since <= s.clock && w.key in s.keys && w.since + LOCK_MS <= s.keys[w.key])
  }

  predicate FarApart(a: Call, b: Call)
  {
    a.Working? && b.Working? && a.key == b.key ==> a.since + LOCK_MS <= b.since || b.since + LOCK_MS <= a.since
  }

  predicate Apart(s: State)
  {
    forall c, d :: 0 <= c < |s.calls| && 0 <= d < |s.calls| && c != d ==> FarApart(s.calls[c], s.calls[d])
  }

  lemma {:induction false} StepKeepsHeld(s: State, step: Step)
    requires Held(s) && s.clock <= step.now
    ensures Held(Next(s, step))
  {}

  lemma {:induction false} StepKeepsSpaced(s: State, step: Step)
    requires Held(s) && Spaced(s) && s.clock <= step.now
    ensures Spaced(Next(s, step))
  {}

  lemma {:induction false} StepKeepsPlaced(s: State, step: Step)
    requires Held(s) && Placed(s) && s.clock <= step.now
    ensures Placed(Next(s, step))
  {}

  lemma {:induction false} StepKeepsApart(s: State, step: Step)
    requires Placed(s) && Apart(s) && s.clock <= step.now
    ensures Apart(Next(s, step))
  {}

  lemma {:induction false} RunsAreSpaced(steps: seq<Step>, clock: int)
    requires Monotone(steps) && forall i :: 0 <= i < |steps| ==> clock <= steps[i].now
    ensures var s := Run(steps, clock); Held(s) && Spaced(s) && Placed(s) && Apart(s)
    ensures Run(steps, clock).clock == if steps == [] then clock else steps[|steps| - 1].now
    decreases |steps|
  {
    if steps != [] {
      var earlier := steps[..|steps| - 1];
      RunsAreSpaced(earlier, clock);
      StepKeepsHeld(Run(earlier, clock), steps[|steps| - 1]);
      StepKeepsSpaced(Run(earlier, clock), steps[|steps| - 1]);
      StepKeepsPlaced(Run(earlier, clock), steps[|steps| - 1]);
      StepKeepsApart(Run(earlier, clock), steps[|steps| - 1]);
    }
  }

  /** Two handlers are at work on one event only when one of them has been for ten minutes or more. */
  lemma {:induction false} OneHandlerForTenMinutes(steps: seq<Step>, clock: int, c: nat, d: nat)
    requires Monotone(steps) && forall i :: 0 <= i < |steps| ==> clock <= steps[i].now
    requires var s := Run(steps, clock);
             && c < |s.calls| && d < |s.calls| && c != d && s.calls[c].Working? && s.calls[d].Working?
             && s.calls[c].key == s.calls[d].key
    ensures var s := Run(steps, clock);
            s.calls[c].since + LOCK_MS <= s.clock || s.calls[d].since + LOCK_MS <= s.clock
  {
    RunsAreSpaced(steps, clock);
    var s := Run(steps, clock);
    assert FarApart(s.calls[c], s.calls[d]);
  }

  /** For seven days after an event was marked, every delivery of it is turned away at the check. */
  lemma {:induction false} MarkedEventsAreTurnedAway(steps: seq<Step>, clock: int, i: nat, body: Body, now: int)
    requires Monotone(steps) && forall k :: 0 <= k < |steps| ==> clock <= steps[k].now
    requires var s := Run(steps, clock);
             && i < |s.marked| && s.marked[i].0 == EventKey(body)
             && s.clock <= now < s.marked[i].1 + DONE_MS
    ensures var s' := Next(Run(steps, clock), Deliver(body, now));
            s'.calls[|s'.calls| - 1] == Answered(EventKey(body), AlreadyProcessed)
  {
    RunsAreSpaced(steps, clock);
  }

  /** No event is admitted twice within ten minutes. */
  lemma {:induction false} AdmittedTenMinutesApart(steps: seq<Step>, clock: int, i: nat, j: nat)
    requires Monotone(steps) && forall k :: 0 <= k < |steps| ==> clock <= steps[k].now
    requires var begun := Run(steps, clock).begun; i < j < |begun| && begun[i].0 == begun[j].0
    ensures var begun := Run(steps, clock).begun; begun[i].1 + LOCK_MS <= begun[j].1
  {
    RunsAreSpaced(steps, clock);
  }

  /** By the logs alone: event `key` was begun less than ten minutes ago, or marked less than seven
      days ago. */
  predicate Busy(s: State, key: string, now: int)
  {
    || (exists i :: 0 <= i < |s.begun| && s.begun[i].0 == key && now < s.begun[i].1 + 600000)
    || (exists i :: 0 <= i < |s.marked| && s.marked[i].0 == key && now < s.marked[i].1 + 604800000)
  }

  /** Every key in Redis was set by a lock or by a mark. */
  predicate Grounded(s: State)
  {
    forall k :: k in s.keys ==> GroundedKey(s, k)
  }

  predicate GroundedKey(s: State, k: string)
    requires k in s.keys
  {
    || (exists i :: 0 <= i < |s.begun| && s.begun[i] == (k, s.keys[k] - LOCK_MS))
    || (exists i :: 0 <= i < |s.marked| && s.marked[i] == (k, s.keys[k] - DONE_MS))
  }

  lemma {:induction false} LogsGrow(s: State, s': State, k: string)
    requires k in s.keys && GroundedKey(s, k) && k in s'.keys && s'.keys[k] == s.keys[k]
    requires s.begun <= s'.begun && s.marked <= s'.marked
    ensures GroundedKey(s', k)
  {
    if i :| 0 <= i < |s.begun| && s.begun[i] == (k, s.keys[k] - LOCK_MS) {
      assert s'.begun[i] == (k, s'.keys[k] - LOCK_MS);
    } else {
      var i :| 0 <= i < |s.marked| && s.marked[i] == (k, s.keys[k] - DONE_MS);
      assert s'.marked[i] == (k, s'.keys[k] - DONE_MS);
    }
  }

  lemma {:induction false} StepKeepsGrounded(s: State, step: Step)
    requires Grounded(s)
    ensures Grounded(Next(s, step))
  {
    var s' := Next(s, step);
    forall k | k in s'.keys ensures GroundedKey(s', k) {
      if k in s.keys && s'.keys[k] == s.keys[k] {
        LogsGrow(s, s', k);
      } else if step.TryBegin? {
        assert s'.begun[|s.begun|] == (k, s'.keys[k] - LOCK_MS);
      } else {
        assert s'.marked[|s.marked|] == (k, s'.keys[k] - DONE_MS);
      }
    }
  }

  lemma {:induction false} RunsAreGrounded(steps: seq<Step>, clock: int)
    ensures Grounded(Run(steps, clock))
    decreases |steps|
  {
    if steps != [] {
      RunsAreGrounded(steps[..|steps| - 1], clock);
      StepKeepsGrounded(Run(steps[..|steps| - 1], clock), steps[|steps| - 1]);
    }
  }

  lemma {:induction false} ExistingIsBusy(s: State, key: string, now: int)
    requires Grounded(s) && Exists(s, key, now)
    ensures Busy(s, key, now)
  {
    assert GroundedKey(s, key);
    if i :| 0 <= i < |s.begun| && s.begun[i] == (key, s.keys[key] - LOCK_MS) {
      assert s.begun[i].0 == key && now < s.begun[i].1 + 600000;
    } else {
      var i :| 0 <= i < |s.marked| && s.marked[i] == (key, s.keys[key] - DONE_MS);
      assert s.marked[i].0 == key && now < s.marked[i].1 + 604800000;
    }
  }

  lemma {:induction false} BusyExists(s: State, key: string, now: int)
    requires Held(s) && Busy(s, key, now)
    ensures Exists(s, key, now)
  {
  }

  lemma {:induction false} ExistsIffBusy(steps: seq<Step>, clock: int, key: string, now: int)
    requires Monotone(steps) && forall k :: 0 <= k < |steps| ==> clock <= steps[k].now
    ensures Exists(Run(steps, clock), key, now) <==> Busy(Run(steps, clock), key, now)
  {
    RunsAreSpaced(steps, clock);
    RunsAreGrounded(steps, clock);
    var s := Run(steps, clock);
    if Exists(s, key, now) { ExistingIsBusy(s, key, now); }
    if Busy(s, key, now) { BusyExists(s, key, now); }
  }

  /** A delivery is checked through, and a checked one admitted to its handler, iff the event was
      neither begun in the last ten minutes nor marked in the last seven days; a handler that
      succeeds marks it. So an event that nobody works on is always worked on. */
  lemma {:induction false} AdmittedIffNotBusy(steps: seq<Step>, clock: int, body: Body, c: nat, succeeds: bool, now: int)
    requires Monotone(steps) && forall k :: 0 <= k < |steps| ==> clock <= steps[k].now
    requires Run(steps, clock).clock <= now
    ensures var s := Run(steps, clock);
            var delivered := Next(s, Deliver(body, now));
            delivered.calls == s.calls + [if Busy(s, EventKey(body), now) then Answered(EventKey(body), AlreadyProcessed)
                                          else Checked(EventKey(body))]
    ensures var s := Run(steps, clock);
            c < |s.calls| && s.calls[c].Checked? ==>
              var key, tried := s.calls[c].key, Next(s, TryBegin(c, now));
              if Busy(s, key, now) then tried.calls == s.calls[c := Answered(key, AlreadyProcessing)] && tried.begun == s.begun
              else tried.calls == s.calls[c := Working(key, now)] && tried.begun == s.begun + [(key, now)]
    ensures var s := Run(steps, clock);
            c < |s.calls| && s.calls[c].Working? ==>
              var key, finished := s.calls[c].key, Next(s, Finish(c, succeeds, now));
              if succeeds then finished.calls == s.calls[c := Answered(key, Processed)] && finished.marked == s.marked + [(key, now)]
              else finished.calls == s.calls[c := Answered(key, Failed)] && finished.marked == s.marked
  {
    ExistsIffBusy(steps, clock, EventKey(body), now);
    var s := Run(steps, clock);
    if c < |s.calls| && s.calls[c].Checked? { ExistsIffBusy(steps, clock, s.calls[c].key, now); }
  }

  // ----- the service and the endpoint

  class WebhookSignatureService {
    var keys: map<string, int>

    constructor ()
      ensures keys == map[]
    {
      keys := map[];
    }

    method IsEventProcessed(eventId: string, now: int) returns (processed: bool)
      ensures processed == (eventId in keys && now < keys[eventId])
    {
      return eventId in keys && now < keys[eventId];
    }

    method TryBeginEventProcessing(eventId: string, now: int) returns (acquired: bool)
      modifies this
      ensures acquired == !(eventId in old(keys) && now < old(keys)[eventId])
      ensures keys == if acquired then old(keys)[eventId := now + LOCK_MS] else old(keys)
    {
      acquired := eventId !in keys || keys[eventId] <= now;
      if acquired { keys := keys[eventId := now + LOCK_MS]; }
    }

    method MarkEventProcessed(eventId: string, now: int)
      modifies this
      ensures keys == old(keys)[eventId := now + DONE_MS]
    {
      keys := keys[eventId := now + DONE_MS];
    }

    /** One delivery with nothing in between: check, lock, process, mark. The handler's outcome and
        the times of the Redis calls are given; on an exception the lock stays. */
    method PaystackWebhook(body: Body, checkedAt: int, lockedAt: int, markedAt: int, succeeds: bool)
      returns (status: Status)
      modifies this
      ensures var s0 := State(old(keys), [], checkedAt, [], []);
              var s1 := Next(s0, Deliver(body, checkedAt));
              var s2 := Next(s1, TryBegin(0, lockedAt));
              var s3 := Next(s2, Finish(0, succeeds, markedAt));
              keys == s3.keys && s3.calls == [Answered(EventKey(body), status)]
    {
      var eventKey := EventKey(body);
      var alreadyProcessed := IsEventProcessed(eventKey, checkedAt);
      if alreadyProcessed { return AlreadyProcessed; }
      var acquired := TryBeginEventProcessing(eventKey, lockedAt);
      if !acquired { return AlreadyProcessing; }
      if !succeeds { return Failed; }
      MarkEventProcessed(eventKey, markedAt);
      return Processed;
    }
  }
}
