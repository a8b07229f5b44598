/** Login sessions in Redis and the index of each user's sessions. */
module Sessions {
  import opened Prelude

  datatype Session = Session(sessionId: string, userId: string, email: string, role: string,
    loginTime: int, lastActivity: int, ipAddress: string, userAgent: string)

  const SESSION_TTL := 24 * 60 * 60 * 1000

  /** A key with its expiry: it exists while `now < expiresAt`. */
  datatype Timed<T> = Timed(value: T, expiresAt: int)

  /** `auth:session:<id>` and `auth:user_sessions:<user>`. */
  datatype Redis = Redis(sessions: map<string, Timed<Session>>, index: map<string, Timed<set<string>>>)

  predicate Live(r: Redis, id: string, now: int)
  {
    id in r.sessions && now < r.sessions[id].expiresAt
  }

  /** SMEMBERS of a user's index. */
  function Members(r: Redis, user: string, now: int): set<string>
  {
    if user in r.index && now < r.index[user].expiresAt then r.index[user].value else {}
  }

  /** SREM: a set with no members left is no longer a key. */
  function Unlisted(r: Redis, user: string, ids: set<string>, now: int): map<string, Timed<set<string>>>
  {
    var left := Members(r, user, now) - ids;
    if left == {} then r.index - {user} else r.index[user := Timed(left, r.index[user].expiresAt)]
  }

  /** EXPIRE: nothing happens to a missing key. */
  function Extended(r: Redis, user: string, now: int): map<string, Timed<set<string>>>
  {
    if Members(r, user, now) == {} then r.index - {user}
    else r.index[user := Timed(r.index[user].value, now + SESSION_TTL)]
  }

  function Agent(userAgent: string): string
  {
    if userAgent == "" then "unknown" else if |userAgent| > 255 then userAgent[..255] else userAgent
  }

  function Create(r: Redis, id: string, user: string, email: string, role: string, ip: string, agent: string, now: int): Redis
  {
    Redis(r.sessions[id := Timed(Session(id, user, email, role, now, now, ip, Agent(agent)), now + SESSION_TTL)],
          r.index[user := Timed(Members(r, user, now) + {id}, now + SESSION_TTL)])
  }

  function Validate(r: Redis, id: string, now: int): (Redis, Option<Session>)
  {
    if !Live(r, id, now) then (r, None) else
      var data := r.sessions[id].value.(lastActivity := now);
      (Redis(r.sessions[id := Timed(data, now + SESSION_TTL)], Extended(r, data.userId, now)), Some(data))
  }

  function Invalidate(r: Redis, id: string, now: int): (Redis, bool)
  {
    if !Live(r, id, now) then (r, false)
    else (Redis(r.sessions - {id}, Unlisted(r, r.sessions[id].value.userId, {id}, now)), true)
  }

  function InvalidateUser(r: Redis, user: string, now: int): (Redis, nat)
  {
    var ids := Members(r, user, now);
    (if ids == {} then r else Redis(r.sessions - ids, r.index - {user}), |ids|)
  }

  function LiveOf(r: Redis, ids: set<string>, now: int): set<string>
  {
    set id | id in ids && Live(r, id, now)
  }

  function Data(r: Redis, ids: set<string>): set<Session>
  {
    set id | id in ids && id in r.sessions :: r.sessions[id].value
  }

  /** What listing a user's sessions leaves behind and which sessions it returns. */
  function List(r: Redis, user: string, now: int): (Redis, set<Session>)
  {
    var ids := Members(r, user, now);
    var live := LiveOf(r, ids, now);
    (if live == ids then r else r.(index := Unlisted(r, user, ids - live, now)), Data(r, live))
  }

  // ----- runs

  datatype Op =
    | CreateSession(id: string, user: string, email: string, role: string, ip: string, agent: string)
    | ValidateSession(id: string)
    | InvalidateSession(id: string)
    | InvalidateUserSessions(user: string)
    | GetUserSessions(user: string)

  datatype Step = Step(op: Op, now: int)

  /** `owners` remembers every session id ever issued and its user. */
  datatype World = World(redis: Redis, owners: map<string, string>, clock: int)

  predicate Allowed(w: World, step: Step)
  {
    w.clock <= step.now && (step.op.CreateSession? ==> step.op.id !in w.owners)
  }

  function Next(w: World, step: Step): World
  {
    var r, now := w.redis, step.now;
    match step.op
    case CreateSession(id, user, email, role, ip, agent) =>
      World(Create(r, id, user, email, role, ip, agent, now), w.owners[id := user], now)
    case ValidateSession(id) => World(Validate(r, id, now).0, w.owners, now)
    case InvalidateSession(id) => World(Invalidate(r, id, now).0, w.owners, now)
    case InvalidateUserSessions(user) => World(InvalidateUser(r, user, now).0, w.owners, now)
    case GetUserSessions(user) => World(List(r, user, now).0, w.owners, now)
  }

  predicate AllowedRun(w: World, steps: seq<Step>)
    decreases |steps|
  {
    steps == [] || (Allowed(w, steps[0]) && AllowedRun(Next(w, steps[0]), steps[1..]))
  }

  function Run(w: World, steps: seq<Step>): World
    decreases |steps|
  {
    if steps == [] then w else Run(Next(w, steps[0]), steps[1..])
  }

  function Begin(clock: int): World
  {
    World(Redis(map[], map[]), map[], clock)
  }

  /** A stored session is indexed under its owner until it expires. */
  predicate Indexed(r: Redis, owners: map<string, string>, id: string, now: int)
  {
    Live(r, id, now) ==>
      && id in owners && r.sessions[id].value.userId == owners[id] && r.sessions[id].value.sessionId == id
      && id in Members(r, owners[id], now)
      && r.sessions[id].expiresAt <= r.index[owners[id]].expiresAt
      && r.sessions[id].expiresAt <= now + SESSION_TTL
  }

  /** An index lists only sessions of its own user. */
  predicate Owned(r: Redis, owners: map<string, string>, user: string)
  {
    user in r.index ==> forall id :: id in r.index[user].value ==> id in owners && owners[id] == user
  }

  ghost predicate Inv(w: World)
  {
    && (forall id :: Indexed(w.redis, w.owners, id, w.clock))
    && (forall user :: Owned(w.redis, w.owners, user))
    && (forall id :: id in w.redis.sessions ==> id in w.owners)
  }

  lemma {:induction false} Later(w: World, now: int)
    requires Inv(w) && w.clock <= now
    ensures Inv(w.(clock := now))
  {
    forall id ensures Indexed(w.redis, w.owners, id, now) { assert Indexed(w.redis, w.owners, id, w.clock); }
  }

  lemma {:induction false} CreateKeepsInv(w: World, step: Step)
    requires Inv(w) && w.clock == step.now && Allowed(w, step) && step.op.CreateSession?
    ensures Inv(Next(w, step))
  {
    var w' := Next(w, step);
    forall id ensures Indexed(w'.redis, w'.owners, id, w'.clock) { assert Indexed(w.redis, w.owners, id, w.clock); }
    forall user ensures Owned(w'.redis, w'.owners, user) { assert Owned(w.redis, w.owners, user); }
  }

  lemma {:induction false} ValidateKeepsInv(w: World, step: Step)
    requires Inv(w) && w.clock == step.now && Allowed(w, step) && step.op.ValidateSession?
    ensures Inv(Next(w, step))
  {
    var w' := Next(w, step);
    assert Indexed(w.redis, w.owners, step.op.id, w.clock);
    forall id ensures Indexed(w'.redis, w'.owners, id, w'.clock) { assert Indexed(w.redis, w.owners, id, w.clock); }
    forall user ensures Owned(w'.redis, w'.owners, user) { assert Owned(w.redis, w.owners, user); }
  }

  lemma {:induction false} InvalidateKeepsInv(w: World, step: Step)
    requires Inv(w) && w.clock == step.now && Allowed(w, step) && step.op.InvalidateSession?
    ensures Inv(Next(w, step))
  {
    var w' := Next(w, step);
    assert Indexed(w.redis, w.owners, step.op.id, w.clock);
    forall id ensures Indexed(w'.redis, w'.owners, id, w'.clock) { assert Indexed(w.redis, w.owners, id, w.clock); }
    forall user ensures Owned(w'.redis, w'.owners, user) { assert Owned(w.redis, w.owners, user); }
  }

  lemma {:induction false} InvalidateUserKeepsInv(w: World, step: Step)
    requires Inv(w) && w.clock == step.now && Allowed(w, step) && step.op.InvalidateUserSessions?
    ensures Inv(Next(w, step))
  {
    var w' := Next(w, step);
    forall id ensures Indexed(w'.redis, w'.owners, id, w'.clock) { assert Indexed(w.redis, w.owners, id, w.clock); }
    forall user ensures Owned(w'.redis, w'.owners, user) { assert Owned(w.redis, w.owners, user); }
  }

  lemma {:induction false} ListKeepsInv(w: World, step: Step)
    requires Inv(w) && w.clock == step.now && Allowed(w, step) && step.op.GetUserSessions?
    ensures Inv(Next(w, step))
  {
    var w' := Next(w, step);
    forall id ensures Indexed(w'.redis, w'.owners, id, w'.clock) { assert Indexed(w.redis, w.owners, id, w.clock); }
    forall user ensures Owned(w'.redis, w'.owners, user) { assert Owned(w.redis, w.owners, user); }
  }

  lemma {:induction false} StepKeepsInv(w: World, step: Step)
    requires Inv(w) && Allowed(w, step)
    ensures Inv(Next(w, step))
  {
    Later(w, step.now);
    var v := w.(clock := step.now);
    assert Next(v, step) == Next(w, step);
    match step.op {
      case CreateSession(_, _, _, _, _, _) => CreateKeepsInv(v, step);
      case ValidateSession(_) => ValidateKeepsInv(v, step);
      case InvalidateSession(_) => InvalidateKeepsInv(v, step);
      case InvalidateUserSessions(_) => InvalidateUserKeepsInv(v, step);
      case GetUserSessions(_) => ListKeepsInv(v, step);
    }
  }

  lemma {:induction false} RunKeepsInv(w: World, steps: seq<Step>)
    requires Inv(w) && AllowedRun(w, steps)
    ensures Inv(Run(w, steps))
    decreases |steps|
  {
    if steps != [] {
      StepKeepsInv(w, steps[0]);
      RunKeepsInv(Next(w, steps[0]), steps[1..]);
    }
  }

  /** After any run, every live session is listed in its user's index, which lives at least as long. */
  lemma {:induction false} LiveSessionsAreIndexed(clock: int, steps: seq<Step>, id: string, now: int)
    requires AllowedRun(Begin(clock), steps) && Run(Begin(clock), steps).clock <= now
    requires Live(Run(Begin(clock), steps).redis, id, now)
    ensures var r := Run(Begin(clock), steps).redis;
            var user := r.sessions[id].value.userId;
            id in Members(r, user, now) && r.sessions[id].expiresAt <= r.index[user].expiresAt
  {
    RunKeepsInv(Begin(clock), steps);
    var w := Run(Begin(clock), steps);
    Later(w, now);
    assert Indexed(w.redis, w.owners, id, now);
  }

  // ----- logging out everywhere

  predicate Dead(w: World, id: string)
  {
    id in w.owners && !Live(w.redis, id, w.clock)
  }

  lemma {:induction false} DeadStaysDead(w: World, steps: seq<Step>, id: string)
    requires Dead(w, id) && AllowedRun(w, steps)
    ensures Dead(Run(w, steps), id)
    decreases |steps|
  {
    if steps != [] {
      assert Dead(Next(w, steps[0]), id);
      DeadStaysDead(Next(w, steps[0]), steps[1..], id);
    }
  }

  /** After invalidateUserSessions no session issued to that user before ever validates again. */
  lemma {:induction false} LoggedOutEverywhere(clock: int, before: seq<Step>, user: string, t: int, after: seq<Step>,
    id: string, now: int)
    requires AllowedRun(Begin(clock), before)
    requires var w := Run(Begin(clock), before);
             && w.clock <= t && id in w.owners && w.owners[id] == user
             && AllowedRun(Next(w, Step(InvalidateUserSessions(user), t)), after)
             && Run(Next(w, Step(InvalidateUserSessions(user), t)), after).clock <= now
    ensures var w := Run(Begin(clock), before);
            Validate(Run(Next(w, Step(InvalidateUserSessions(user), t)), after).redis, id, now).1 == None
  {
    RunKeepsInv(Begin(clock), before);
    var w := Run(Begin(clock), before);
    Later(w, t);
    assert Indexed(w.redis, w.owners, id, t);
    var out := Next(w, Step(InvalidateUserSessions(user), t));
    assert Dead(out, id);
    DeadStaysDead(out, after, id);
  }

  /** Listing returns exactly the user's live sessions and leaves exactly their ids in the index. */
  lemma {:induction false} ListingIsExact(clock: int, steps: seq<Step>, user: string, now: int, id: string)
    requires AllowedRun(Begin(clock), steps) && Run(Begin(clock), steps).clock <= now
    ensures var w := Run(Begin(clock), steps);
            var (r, listed) := List(w.redis, user, now);
            var mine := Live(w.redis, id, now) && w.redis.sessions[id].value.userId == user;
            && (mine <==> id in w.redis.sessions && w.redis.sessions[id].value in listed && w.redis.sessions[id].value.sessionId == id)
            && (mine <==> id in Members(r, user, now))
            && r.sessions == w.redis.sessions
  {
    RunKeepsInv(Begin(clock), steps);
    var w := Run(Begin(clock), steps);
    Later(w, now);
    forall c ensures Indexed(w.redis, w.owners, c, now) {}
    assert Owned(w.redis, w.owners, user);
    var (r, listed) := List(w.redis, user, now);
    if id in w.redis.sessions && w.redis.sessions[id].value in listed && w.redis.sessions[id].value.sessionId == id {
      var c :| c in LiveOf(w.redis, Members(w.redis, user, now), now) && w.redis.sessions[c].value == w.redis.sessions[id].value;
      assert Indexed(w.redis, w.owners, c, now);
    }
    assert Indexed(w.redis, w.owners, id, now);
  }
}
