/** The session service over its Redis keys. */
module SessionServices {
  import opened Prelude
  import opened Sessions

  // ----- newest first

  predicate NewestFirst(list: seq<Session>)
  {
    forall i, j :: 0 <= i < j < |list| ==> list[i].lastActivity >= list[j].lastActivity
  }

  /** A stable insertion before the first session that is not newer. */
  function Insert(s: Session, list: seq<Session>): seq<Session>
  {
    if list == [] || list[0].lastActivity <= s.lastActivity then [s] + list else [list[0]] + Insert(s, list[1..])
  }

  function Sort(list: seq<Session>): (sorted: seq<Session>)
    ensures |sorted| == |list|
  {
    if list == [] then [] else InsertLength(list[0], Sort(list[1..])); Insert(list[0], Sort(list[1..]))
  }

  lemma {:induction false} InsertLength(s: Session, list: seq<Session>)
    ensures |Insert(s, list)| == |list| + 1
  {
    if list != [] && list[0].lastActivity > s.lastActivity { InsertLength(s, list[1..]); }
  }

  lemma {:induction false} InsertKeeps(s: Session, list: seq<Session>)
    ensures multiset(Insert(s, list)) == multiset(list) + multiset{s}
  {
    if list != [] && list[0].lastActivity > s.lastActivity {
      InsertKeeps(s, list[1..]);
      assert list == [list[0]] + list[1..];
    }
  }

  lemma {:induction false} InsertSorts(s: Session, list: seq<Session>)
    requires NewestFirst(list)
    ensures NewestFirst(Insert(s, list))
    ensures forall i :: 0 <= i < |Insert(s, list)| ==>
              Insert(s, list)[i] == s || exists j :: 0 <= j < |list| && list[j] == Insert(s, list)[i]
  {
    if list != [] && list[0].lastActivity > s.lastActivity {
      var rest := list[1..];
      InsertSorts(s, rest);
      forall i | 0 <= i < |Insert(s, rest)|
        ensures list[0].lastActivity >= Insert(s, rest)[i].lastActivity
        ensures Insert(s, rest)[i] == s || exists j :: 0 <= j < |list| && list[j] == Insert(s, rest)[i]
      {
        if Insert(s, rest)[i] != s {
          var j :| 0 <= j < |rest| && rest[j] == Insert(s, rest)[i];
          assert list[j + 1] == rest[j];
        }
      }
    }
  }

  /** Sorting keeps every session and puts the most recently active first. */
  lemma {:induction false} SortIsNewestFirst(list: seq<Session>)
    ensures NewestFirst(Sort(list)) && multiset(Sort(list)) == multiset(list)
  {
    if list != [] {
      SortIsNewestFirst(list[1..]);
      InsertSorts(list[0], Sort(list[1..]));
      InsertKeeps(list[0], Sort(list[1..]));
      assert list == [list[0]] + list[1..];
    }
  }

  lemma {:induction false} SortKeepsMembers(list: seq<Session>, s: Session)
    ensures s in Sort(list) <==> s in list
  {
    SortIsNewestFirst(list);
    assert s in Sort(list) <==> s in multiset(Sort(list));
    assert s in list <==> s in multiset(list);
  }

  // ----- reading a list of ids

  /** The stored sessions of the ids that are live, in the order of the ids. */
  function Fetched(r: Redis, order: seq<string>, now: int): seq<Session>
  {
    if order == [] then [] else
      var last := order[|order| - 1];
      Fetched(r, order[..|order| - 1], now) + if Live(r, last, now) then [r.sessions[last].value] else []
  }

  function Orphans(r: Redis, order: seq<string>, now: int): set<string>
  {
    if order == [] then {} else
      var last := order[|order| - 1];
      Orphans(r, order[..|order| - 1], now) + if Live(r, last, now) then {} else {last}
  }

  function Elements(order: seq<string>): set<string>
  {
    set i | 0 <= i < |order| :: order[i]
  }

  predicate NoRepeats(order: seq<string>)
  {
    forall i, j :: 0 <= i < j < |order| ==> order[i] != order[j]
  }

  lemma {:induction false} ElementsSnoc(order: seq<string>)
    requires order != []
    ensures Elements(order) == Elements(order[..|order| - 1]) + {order[|order| - 1]}
  {}

  lemma {:induction false} OrphansAreTheDead(r: Redis, order: seq<string>, now: int)
    ensures Orphans(r, order, now) == Elements(order) - LiveOf(r, Elements(order), now)
  {
    if order != [] {
      OrphansAreTheDead(r, order[..|order| - 1], now);
      ElementsSnoc(order);
    }
  }

  lemma {:induction false} FetchedAreTheLive(r: Redis, order: seq<string>, now: int, s: Session)
    ensures s in Fetched(r, order, now) <==> s in Data(r, LiveOf(r, Elements(order), now))
  {
    if order != [] {
      var init, last := order[..|order| - 1], order[|order| - 1];
      FetchedAreTheLive(r, init, now, s);
      ElementsSnoc(order);
      if Live(r, last, now) {
        assert last in LiveOf(r, Elements(order), now);
        assert Fetched(r, order, now)[|Fetched(r, init, now)|] == r.sessions[last].value;
      }
    }
  }

  lemma {:induction false} FetchedOnce(r: Redis, order: seq<string>, now: int)
    requires NoRepeats(order)
    ensures |Fetched(r, order, now)| == |LiveOf(r, Elements(order), now)|
  {
    if order != [] {
      var init, last := order[..|order| - 1], order[|order| - 1];
      FetchedOnce(r, init, now);
      ElementsSnoc(order);
      assert last !in Elements(init);
      assert LiveOf(r, Elements(order), now)
          == LiveOf(r, Elements(init), now) + if Live(r, last, now) then {last} else {};
    }
  }

  ghost predicate Lists(list: seq<Session>, sessions: set<Session>)
  {
    forall s :: s in list <==> s in sessions
  }

  lemma {:induction false} SortedListing(r: Redis, order: seq<string>, now: int)
    requires NoRepeats(order)
    ensures Orphans(r, order, now) == Elements(order) - LiveOf(r, Elements(order), now)
    ensures Lists(Sort(Fetched(r, order, now)), Data(r, LiveOf(r, Elements(order), now)))
    ensures |Sort(Fetched(r, order, now))| == |LiveOf(r, Elements(order), now)|
    ensures NewestFirst(Sort(Fetched(r, order, now)))
  {
    OrphansAreTheDead(r, order, now);
    SortIsNewestFirst(Fetched(r, order, now));
    FetchedOnce(r, order, now);
    forall s ensures s in Sort(Fetched(r, order, now)) <==> s in Data(r, LiveOf(r, Elements(order), now)) {
      SortKeepsMembers(Fetched(r, order, now), s);
      FetchedAreTheLive(r, order, now, s);
    }
  }

  lemma {:induction false} NoneLeft(ids: set<string>, live: set<string>)
    requires live <= ids
    ensures ids - live == {} <==> live == ids
  {
    if ids - live == {} {
      forall id | id in ids ensures id in live { assert id !in ids - live; }
    }
  }

  // ----- the service

  class SessionService {
    var sessions: map<string, Timed<Session>>
    var index: map<string, Timed<set<string>>>

    function Value(): Redis
      reads this
    {
      Redis(sessions, index)
    }

    constructor ()
      ensures Value() == Redis(map[], map[])
    {
      sessions, index := map[], map[];
    }

    method CreateSession(sessionId: string, userId: string, email: string, role: string, ipAddress: string,
      userAgent: string, now: int)
      modifies this
      ensures Value() == Create(old(Value()), sessionId, userId, email, role, ipAddress, userAgent, now)
    {
      var data := Session(sessionId, userId, email, role, now, now, ipAddress, Agent(userAgent));
      sessions := sessions[sessionId := Timed(data, now + SESSION_TTL)];
      var ids := Members(Value(), userId, now);
      index := index[userId := Timed(ids + {sessionId}, now + SESSION_TTL)];
    }

    method ValidateSession(sessionId: string, now: int) returns (r: Option<Session>)
      modifies this
      ensures (Value(), r) == Validate(old(Value()), sessionId, now)
      ensures r.Some? <==> sessionId in old(sessions) && now < old(sessions)[sessionId].expiresAt
      ensures r.Some? ==>
                && r.value == old(sessions)[sessionId].value.(lastActivity := now)
                && sessions == old(sessions)[sessionId := Timed(r.value, now + 86400000)]
      ensures r.None? ==> Value() == old(Value())
    {
      if !Live(Value(), sessionId, now) { return None; }
      var data := sessions[sessionId].value.(lastActivity := now);
      index := Extended(Value(), data.userId, now);
      sessions := sessions[sessionId := Timed(data, now + SESSION_TTL)];
      return Some(data);
    }

    method InvalidateSession(sessionId: string, now: int) returns (ok: bool)
      modifies this
      ensures (Value(), ok) == Invalidate(old(Value()), sessionId, now)
    {
      if !Live(Value(), sessionId, now) { return false; }
      var userId := sessions[sessionId].value.userId;
      sessions := sessions - {sessionId};
      index := Unlisted(Value(), userId, {sessionId}, now);
      return true;
    }

    method InvalidateUserSessions(userId: string, now: int) returns (count: nat)
      modifies this
      ensures (Value(), count) == InvalidateUser(old(Value()), userId, now)
    {
      var ids := Members(Value(), userId, now);
      if ids == {} { return 0; }
      var todo := ids;
      while todo != {}
        invariant todo <= ids && index == old(index)
        invariant sessions == old(sessions) - (ids - todo)
        decreases |todo|
      {
        var id :| id in todo;
        sessions := sessions - {id};
        todo := todo - {id};
      }
      assert sessions == old(sessions) - ids;
      index := index - {userId};
      return |ids|;
    }

    /** SMEMBERS: the members in some order. */
    static method Enumerate(ids: set<string>) returns (order: seq<string>)
      ensures Elements(order) == ids && NoRepeats(order)
    {
      var todo := ids;
      order := [];
      while todo != {}
        invariant todo <= ids && Elements(order) == ids - todo && NoRepeats(order)
        decreases |todo|
      {
        var id :| id in todo;
        assert id !in Elements(order);
        order := order + [id];
        ElementsSnoc(order);
        assert order[..|order| - 1] + [id] == order;
        todo := todo - {id};
      }
    }

    /** MGET, told apart into the sessions found and the ids that found none. */
    method Fetch(order: seq<string>, now: int) returns (found: seq<Session>, expired: set<string>)
      ensures found == Fetched(Value(), order, now) && expired == Orphans(Value(), order, now)
    {
      found, expired := [], {};
      for i := 0 to |order|
        invariant found == Fetched(Value(), order[..i], now) && expired == Orphans(Value(), order[..i], now)
      {
        assert order[..i + 1][..i] == order[..i];
        if Live(Value(), order[i], now) {
          found := found + [sessions[order[i]].value];
        } else {
          expired := expired + {order[i]};
        }
      }
      assert order[..|order|] == order;
    }

    method GetUserSessions(userId: string, now: int) returns (list: seq<Session>)
      modifies this`index
      ensures Value() == List(old(Value()), userId, now).0
      ensures Lists(list, List(old(Value()), userId, now).1)
      ensures |list| == |LiveOf(old(Value()), Members(old(Value()), userId, now), now)|
      ensures NewestFirst(list)
    {
      var order := Enumerate(Members(Value(), userId, now));
      var found, expired := Fetch(order, now);
      SortedListing(Value(), order, now);
      ghost var ids := Members(Value(), userId, now);
      ghost var live := LiveOf(Value(), ids, now);
      assert expired == ids - live;
      NoneLeft(ids, live);
      if expired != {} {
        index := Unlisted(Value(), userId, expired, now);
      }
      return Sort(found);
    }
  }
}
