/**
 Sessions and the projects their records name (src/gateway/SessionRouter.ts): a record takes over the project of a
 later request if it names none, although its session was built for the default project.
 */
module GatewayProjects {
  import opened Options
  import opened Gateway
  import opened GatewayFreshness

  /** Every session that is not dirty was built for the project its record names. */
  ghost predicate Matches(env: Env, s: Router) {
    forall k :: k in s.sessions ==> IsDirty(s.sessions[k]) || Matching(env, s.sessions[k])
  }

  predicate Matching(env: Env, r: Record) { r.session.root == RootOf(env, r.context.projectKey) }

  /** The request names a project, other than the default one, for a session that was built without naming any. */
  predicate Adopts(env: Env, s: Router, c: Context, sweepAt: int) {
    && c.sessionKey in s.sessions && c.sessionKey !in IdleKeys(env, s, sweepAt)
    && !IsDirty(s.sessions[c.sessionKey])
    && s.sessions[c.sessionKey].context.projectKey.None?
    && RootOf(env, c.projectKey) != RootOf(env, None)
  }

  lemma BuiltMatches(env: Env, r: Registry, c: Context, loaded: Loaded, clock: nat, build: Build, now: int)
    ensures var session := Prepare(env, r, c, loaded, clock, build).1;
      session.Some? ==> Matching(env, Record(session.value, now, c, None))
  {
    PrepareRoot(env, r, c, loaded, clock, build);
    hide Prepare, RootOf;
  }

  /** What the part of `getOrCreate` after the sweep does to the record and to the session handed out. */
  lemma MatchAfterSweep(env: Env, w: World, c: Context, now: int, loaded: Loaded, build: Build)
    requires Matches(env, w.router)
    ensures var (after, session) := GetAfterSweep(env, w, c, now, loaded, build);
      var key := c.sessionKey;
      var adopts := key in w.router.sessions && !IsDirty(w.router.sessions[key])
                    && w.router.sessions[key].context.projectKey.None?
                    && RootOf(env, c.projectKey) != RootOf(env, None);
      && (forall k :: k in after.router.sessions && k != key ==>
            k in w.router.sessions && after.router.sessions[k] == w.router.sessions[k])
      && (forall k :: k in w.router.sessions ==> k in after.router.sessions)
      && (key in after.router.sessions ==>
            (IsDirty(after.router.sessions[key]) || Matching(env, after.router.sessions[key]) <==> !adopts))
      && (session.Some? ==>
            key in after.router.sessions && after.router.sessions[key].session == session.value
            && !IsDirty(after.router.sessions[key]))
  {
    var key := c.sessionKey;
    if key in w.router.sessions {
      var merged := MergeContext(w.router.sessions[key].context, c);
      BuiltMatches(env, EvictMcp(w.registry, {key}), merged, loaded, w.changes.clock, build, now);
    } else {
      BuiltMatches(env, w.registry, c, loaded, w.changes.clock, build, now);
    }
    hide Prepare, EvictMcp, RootOf;
  }

  /** A request keeps records and sessions in agreement, and hands out the session of the project the record names,
      iff it does not name a project for a session that was built without. */
  lemma RequestMatchesIff(env: Env, w: World, c: Context, sweepAt: int, now: int, loaded: Loaded, build: Build)
    requires Matches(env, w.router)
    ensures var (after, session) := GetOrCreate(env, w, c, sweepAt, now, loaded, build);
      && (Matches(env, after.router) <==> !Adopts(env, w.router, c, sweepAt))
      && (session.Some? ==>
            c.sessionKey in after.router.sessions && after.router.sessions[c.sessionKey].session == session.value
            && (Matching(env, after.router.sessions[c.sessionKey]) <==> !Adopts(env, w.router, c, sweepAt)))
  {
    var swept := Sweep(env, w, sweepAt);
    assert forall k :: k in swept.router.sessions <==> k in w.router.sessions && k !in IdleKeys(env, w.router, sweepAt);
    assert forall k :: k in swept.router.sessions ==> swept.router.sessions[k] == w.router.sessions[k];
    MatchAfterSweep(env, swept, c, now, loaded, build);
    hide Sweep, GetAfterSweep, IdleKeys, Matching, RootOf;
  }

  lemma StepMatchesIff(env: Env, w: World, e: Event)
    requires Matches(env, w.router)
    ensures Matches(env, Step(env, w, e).0.router) <==> !(e.Request? && Adopts(env, w.router, e.context, e.sweepAt))
  {
    if e.Request? {
      RequestMatchesIff(env, w, e.context, e.sweepAt, e.now, e.loaded, e.build);
      hide GetOrCreate, Adopts, Matches;
    } else {
      hide GetOrCreate, EvictMcp, Invalidate, Resolve, RootOf;
    }
  }

  /** No request of the run names a project for a session that was built without. */
  ghost predicate NoAdoption(env: Env, w: World, events: seq<Event>)
    decreases events
  {
    events != [] ==>
      && !(events[0].Request? && Adopts(env, w.router, events[0].context, events[0].sweepAt))
      && NoAdoption(env, Step(env, w, events[0]).0, events[1..])
  }

  /** At every moment of the run all sessions that are not dirty were built for the project their record names. */
  ghost predicate AlwaysMatches(env: Env, w: World, events: seq<Event>)
    decreases events
  {
    Matches(env, w.router) && (events != [] ==> AlwaysMatches(env, Step(env, w, events[0]).0, events[1..]))
  }

  lemma {:induction false} RunMatchesIff(env: Env, w: World, events: seq<Event>)
    requires Matches(env, w.router)
    ensures AlwaysMatches(env, w, events) <==> NoAdoption(env, w, events)
    decreases events
  {
    hide Step, Adopts, Matches;
    if events != [] {
      var after := Step(env, w, events[0]).0;
      StepMatchesIff(env, w, events[0]);
      if Matches(env, after.router) {
        RunMatchesIff(env, after, events[1..]);
      }
    }
  }

  /** A session of the default project is handed to a request for another one, whose name its record then bears. */
  lemma DefaultSessionIsAdopted(env: Env, project: string)
    requires env.idleTimeoutMs >= 0 && env.resolve(project) != env.resolve(env.defaultRoot)
    ensures !NoAdoption(env, EMPTY, [Ask("s", None, 0), Ask("s", Some(project), 0)])
  {
    var w := Step(env, EMPTY, Ask("s", None, 0)).0;
    FirstRequest(env, None);
    assert "s" !in IdleKeys(env, w.router, 0);
    var second := Ask("s", Some(project), 0);
    assert Adopts(env, w.router, second.context, second.sweepAt);
    hide Step, Adopts, RootOf, IdleKeys;
    assert [Ask("s", None, 0), second][1..] == [second];
    assert !NoAdoption(env, w, [second]);
  }
}
