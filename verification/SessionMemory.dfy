/** Sessions against an ideal memory of logins: which ones validate, and what they show. */
module SessionMemory {
  import opened Prelude
  import opened Sessions

  const DAY := 86400000

  /** What a login was granted, and when it was last made use of. */
  datatype Grant = Grant(user: string, email: string, role: string, ip: string, agent: string, login: int, renewed: int)

  /** A grant lapses 24 hours after its last use. */
  predicate Good(grant: Option<Grant>, now: int)
  {
    grant.Some? && now < grant.value.renewed + DAY
  }

  /** What one call does to a grant: it is issued once, renewed by every validation in time, and gone with
      a logout of the session or of its user. */
  function After(before: Option<Grant>, step: Step, id: string): Option<Grant>
  {
    match step.op
    case CreateSession(c, user, email, role, ip, agent) =>
      if c == id then Some(Grant(user, email, role, ip, agent, step.now, step.now)) else before
    case ValidateSession(c) => if c == id && Good(before, step.now) then Some(before.value.(renewed := step.now)) else before
    case InvalidateSession(c) => if c == id then None else before
    case InvalidateUserSessions(user) => if before.Some? && before.value.user == user then None else before
    case GetUserSessions(_) => before
  }

  /** The grant of a session by the history of calls alone. */
  function Remembered(steps: seq<Step>, id: string): Option<Grant>
    decreases |steps|
  {
    if steps == [] then None else After(Remembered(steps[..|steps| - 1], id), steps[|steps| - 1], id)
  }

  /** The user agent is kept up to 255 characters, and called unknown if there is none. */
  predicate Abridges(shown: string, agent: string)
  {
    if agent == "" then shown == "unknown" else shown <= agent && |shown| == if |agent| <= 255 then |agent| else 255
  }

  /** The session shows what it was created with, and its last activity. */
  predicate Shows(data: Session, id: string, grant: Grant, lastActivity: int)
  {
    && data.sessionId == id && data.userId == grant.user && data.email == grant.email && data.role == grant.role
    && data.loginTime == grant.login && data.ipAddress == grant.ip && Abridges(data.userAgent, grant.agent)
    && data.lastActivity == lastActivity
  }

  predicate Matches(r: Redis, id: string, grant: Option<Grant>, clock: int)
  {
    if Good(grant, clock)
    then id in r.sessions && r.sessions[id].expiresAt == grant.value.renewed + DAY
         && Shows(r.sessions[id].value, id, grant.value, grant.value.renewed)
    else !Live(r, id, clock)
  }

  lemma {:induction false} TimePasses(r: Redis, id: string, grant: Option<Grant>, clock: int, now: int)
    requires Matches(r, id, grant, clock) && clock <= now
    ensures Matches(r, id, grant, now)
  {
  }

  lemma {:induction false} RunSnoc(w: World, steps: seq<Step>)
    requires steps != [] && AllowedRun(w, steps)
    ensures var init, last := steps[..|steps| - 1], steps[|steps| - 1];
            AllowedRun(w, init) && Allowed(Run(w, init), last) && Run(w, steps) == Next(Run(w, init), last)
    decreases |steps|
  {
    if |steps| > 1 {
      RunSnoc(Next(w, steps[0]), steps[1..]);
      assert steps[..|steps| - 1][0] == steps[0] && steps[..|steps| - 1][1..] == steps[1..][..|steps| - 2];
    } else {
      assert steps[1..] == [] && steps[..0] == [];
    }
  }

  lemma {:induction false} LogoutMatches(w: World, step: Step, id: string, grant: Option<Grant>)
    requires Inv(w) && w.clock == step.now && step.op.InvalidateUserSessions? && Matches(w.redis, id, grant, w.clock)
    ensures Matches(Next(w, step).redis, id, After(grant, step, id), step.now)
  {
    assert Sessions.Indexed(w.redis, w.owners, id, w.clock);
    assert Owned(w.redis, w.owners, step.op.user);
  }

  lemma {:induction false} LoginMatches(w: World, step: Step, id: string, grant: Option<Grant>)
    requires w.clock == step.now && step.op.CreateSession? && Matches(w.redis, id, grant, w.clock)
    ensures Matches(Next(w, step).redis, id, After(grant, step, id), step.now)
  {
  }

  lemma {:induction false} StepMatches(w: World, step: Step, id: string, grant: Option<Grant>)
    requires Inv(w) && w.clock <= step.now && Matches(w.redis, id, grant, w.clock)
    ensures Matches(Next(w, step).redis, id, After(grant, step, id), step.now)
  {
    TimePasses(w.redis, id, grant, w.clock, step.now);
    Later(w, step.now);
    var v := w.(clock := step.now);
    assert Next(v, step).redis == Next(w, step).redis;
    if step.op.CreateSession? { LoginMatches(v, step, id, grant); }
    if step.op.InvalidateUserSessions? { LogoutMatches(v, step, id, grant); }
  }

  lemma {:induction false} RunMatches(clock: int, steps: seq<Step>, id: string)
    requires AllowedRun(Begin(clock), steps)
    ensures var w := Run(Begin(clock), steps); Matches(w.redis, id, Remembered(steps, id), w.clock)
    decreases |steps|
  {
    if steps != [] {
      var init, last := steps[..|steps| - 1], steps[|steps| - 1];
      RunSnoc(Begin(clock), steps);
      RunMatches(clock, init, id);
      RunKeepsInv(Begin(clock), init);
      StepMatches(Run(Begin(clock), init), last, id, Remembered(init, id));
    }
  }

  /** After any run a session is live exactly while its grant is good, and shows what it was created with
      and when it was last used. */
  lemma {:induction false} SessionsAreRemembered(clock: int, steps: seq<Step>, id: string, now: int)
    requires AllowedRun(Begin(clock), steps) && Run(Begin(clock), steps).clock <= now
    ensures var r, grant := Run(Begin(clock), steps).redis, Remembered(steps, id);
            && (Live(r, id, now) <==> Good(grant, now))
            && (Live(r, id, now) ==> Shows(r.sessions[id].value, id, grant.value, grant.value.renewed))
  {
    RunMatches(clock, steps, id);
    var w := Run(Begin(clock), steps);
    TimePasses(w.redis, id, Remembered(steps, id), w.clock, now);
  }

  /** A session validates iff it was issued, neither logged out since, alone or with its user, nor left
      unused for 24 hours; the answer shows it as created, with the current time as last activity. */
  lemma {:induction false} ValidatesIffRemembered(clock: int, steps: seq<Step>, id: string, now: int)
    requires AllowedRun(Begin(clock), steps) && Run(Begin(clock), steps).clock <= now
    ensures var r, grant := Run(Begin(clock), steps).redis, Remembered(steps, id);
            var answer := Validate(r, id, now).1;
            && (answer.Some? <==> Good(grant, now))
            && (answer.Some? ==> Shows(answer.value, id, grant.value, now))
  {
    SessionsAreRemembered(clock, steps, id, now);
  }

  /** Logging out one session reports success iff there was one to log out. */
  lemma {:induction false} LogoutAnswers(clock: int, steps: seq<Step>, id: string, now: int)
    requires AllowedRun(Begin(clock), steps) && Run(Begin(clock), steps).clock <= now
    ensures Invalidate(Run(Begin(clock), steps).redis, id, now).1 <==> Good(Remembered(steps, id), now)
  {
    SessionsAreRemembered(clock, steps, id, now);
  }

  /** Logging out everywhere counts at least the user's sessions that were still good. */
  lemma {:induction false} LogoutCountsThem(clock: int, steps: seq<Step>, user: string, now: int, ids: set<string>)
    requires AllowedRun(Begin(clock), steps) && Run(Begin(clock), steps).clock <= now
    requires forall id :: id in ids ==> Good(Remembered(steps, id), now) && Remembered(steps, id).value.user == user
    ensures InvalidateUser(Run(Begin(clock), steps).redis, user, now).1 >= |ids|
  {
    var w := Run(Begin(clock), steps);
    RunKeepsInv(Begin(clock), steps);
    Later(w, now);
    var members := Members(w.redis, user, now);
    forall id | id in ids ensures id in members {
      SessionsAreRemembered(clock, steps, id, now);
      assert Sessions.Indexed(w.redis, w.owners, id, now);
    }
    assert members == ids + (members - ids);
  }
}
