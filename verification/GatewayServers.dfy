/**
 Sessions and the tool servers they were built with (src/cli/createLocalGateway.ts): servers are stopped with the
 runtimes, so a session that is handed out again without being rebuilt may have tools whose servers are gone.
 */
module GatewayServers {
  import opened Options
  import opened Gateway
  import opened GatewayFreshness

  /** The session has no tool servers of its own, or they are live. */
  predicate HasServers(r: Registry, key: string, s: Session) {
    s.servers.None? || (key in r.live && r.live[key] == s.servers.value)
  }

  ghost predicate Served(w: World) {
    forall k :: k in w.router.sessions ==>
      IsDirty(w.router.sessions[k]) || HasServers(w.registry, k, w.router.sessions[k].session)
  }

  /** There is a session with tool servers of its own that is neither dirty nor named by the project `root`. */
  predicate Unmarked(s: Router, root: Option<string>) {
    exists k :: k in s.sessions && !IsDirty(s.sessions[k]) && s.sessions[k].session.servers.Some?
      && (root.Some? ==> s.sessions[k].context.projectKey != root)
  }

  /** The event stops all tool servers and leaves a session that has some unmarked. */
  predicate Strands(w: World, e: Event) {
    || (e.ProjectExtensionsChange? && Unmarked(w.router, Some(e.root)))
    || (e.UpdateSubsystems? && Unmarked(w.router, None))
  }

  lemma EvictedOthers(r: Registry, keys: set<string>)
    ensures forall k :: k !in keys ==>
      (k in EvictMcp(r, keys).live <==> k in r.live)
      && (k in r.live ==> EvictMcp(r, keys).live[k] == r.live[k])
  {
  }

  /** Preparing a session serves it, and leaves the tool servers of the others alone. */
  lemma PreparedServers(env: Env, r: Registry, c: Context, loaded: Loaded, clock: nat, build: Build)
    ensures var (after, session) := Prepare(env, r, c, loaded, clock, build);
      && (session.Some? ==> HasServers(after, c.sessionKey, session.value))
      && forall k :: k != c.sessionKey ==>
           (k in after.live <==> k in r.live) && (k in r.live ==> after.live[k] == r.live[k])
  {
    var root := RootOf(env, c.projectKey);
    var resolved := Resolve(r, root, loaded, clock);
    EvictedOthers(resolved, {c.sessionKey});
    assert resolved.live == r.live;
    hide EvictMcp, RootOf, StartsServers;
  }

  lemma RemoveKeepsServed(w: World, keys: set<string>)
    requires Served(w) && keys <= w.router.sessions.Keys
    ensures Served(Remove(w, keys))
  {
    EvictedOthers(w.registry, keys);
    hide EvictMcp;
  }

  lemma GetKeepsServed(env: Env, w: World, c: Context, now: int, loaded: Loaded, build: Build)
    requires Served(w)
    ensures Served(GetAfterSweep(env, w, c, now, loaded, build).0)
  {
    var key := c.sessionKey;
    EvictedOthers(w.registry, {key});
    if key in w.router.sessions {
      var merged := MergeContext(w.router.sessions[key].context, c);
      PreparedServers(env, EvictMcp(w.registry, {key}), merged, loaded, w.changes.clock, build);
    } else {
      PreparedServers(env, w.registry, c, loaded, w.changes.clock, build);
    }
    hide Prepare, EvictMcp;
  }

  lemma ProjectChangeServesIff(w: World, root: string)
    requires Served(w)
    ensures Served(ChangeProject(w, root)) <==> !Unmarked(w.router, Some(root))
  {
    var after := ChangeProject(w, root);
    assert after.registry.live == map[];
    forall k | k in w.router.sessions
      ensures k in after.router.sessions && after.router.sessions[k].session == w.router.sessions[k].session
      ensures IsDirty(after.router.sessions[k])
        <==> IsDirty(w.router.sessions[k]) || w.router.sessions[k].context.projectKey == Some(root)
    {
    }
    hide ChangeProject;
  }

  lemma SubsystemsServeIff(w: World)
    requires Served(w)
    ensures Served(ReplaceSubsystems(w)) <==> !Unmarked(w.router, None)
  {
    assert ReplaceSubsystems(w).registry.live == map[];
    hide Invalidate;
  }

  /** Every step keeps the tool servers of sessions that are not dirty live, iff it does not strand one. */
  lemma StepServesIff(env: Env, w: World, e: Event)
    requires Served(w)
    ensures Served(Step(env, w, e).0) <==> !Strands(w, e)
  {
    hide EvictMcp, Sweep, GetAfterSweep, ChangeProject, ReplaceSubsystems, Invalidate;
    match e {
      case Request(c, sweepAt, now, loaded, build) =>
        SweepKeepsServed(env, w, sweepAt);
        GetKeepsServed(env, Sweep(env, w, sweepAt), c, now, loaded, build);
      case Begin(key, runId, now) => SweepKeepsServed(env, w, now);
      case CloseSession(key) => if key in w.router.sessions { RemoveKeepsServed(w, {key}); }
      case CountSessions(now) => SweepKeepsServed(env, w, now);
      case ProjectExtensionsChange(root) => ProjectChangeServesIff(w, root);
      case UpdateSubsystems => SubsystemsServeIff(w);
      case _ =>
    }
  }

  lemma SweepKeepsServed(env: Env, w: World, now: int)
    requires Served(w)
    ensures Served(Sweep(env, w, now))
  {
    RemoveKeepsServed(w, IdleKeys(env, w.router, now));
    hide Remove, IdleKeys;
  }

  ghost predicate NoStranding(env: Env, w: World, events: seq<Event>)
    decreases events
  {
    events != [] ==> !Strands(w, events[0]) && NoStranding(env, Step(env, w, events[0]).0, events[1..])
  }

  ghost predicate AlwaysServed(env: Env, w: World, events: seq<Event>)
    decreases events
  {
    Served(w) && (events != [] ==> AlwaysServed(env, Step(env, w, events[0]).0, events[1..]))
  }

  /** In a run, every session that is not dirty has its tool servers at all times iff no event strands one. */
  lemma {:induction false} RunServesIff(env: Env, w: World, events: seq<Event>)
    requires Served(w)
    ensures AlwaysServed(env, w, events) <==> NoStranding(env, w, events)
    decreases events
  {
    hide Step, Strands, Served;
    if events != [] {
      var after := Step(env, w, events[0]).0;
      StepServesIff(env, w, events[0]);
      if Served(after) {
        RunServesIff(env, after, events[1..]);
      }
    }
  }

  /** A change of one project's extensions takes the tool servers from a session of another project. */
  lemma OtherProjectIsStranded(env: Env, project: string, other: string)
    requires project != other
    ensures var ask := Request(Context("s", Some(project), ""), 0, 0, Loaded(true, 1), Built);
      !NoStranding(env, EMPTY, [ask, ProjectExtensionsChange(other)])
  {
    var ask := Request(Context("s", Some(project), ""), 0, 0, Loaded(true, 1), Built);
    var change := ProjectExtensionsChange(other);
    var w := Step(env, EMPTY, ask).0;
    ServedRequest(env, project);
    assert Strands(w, change);
    hide Step, Strands;
    assert [ask, change][1..] == [change];
    assert !NoStranding(env, w, [change]);
  }

  lemma ServedRequest(env: Env, project: string)
    ensures var ask := Request(Context("s", Some(project), ""), 0, 0, Loaded(true, 1), Built);
      var w := Step(env, EMPTY, ask).0;
      "s" in w.router.sessions && !IsDirty(w.router.sessions["s"])
      && w.router.sessions["s"].session.servers.Some? && w.router.sessions["s"].context.projectKey == Some(project)
  {
    hide RootOf;
    var swept := Sweep(env, EMPTY, 0);
    assert IdleKeys(env, EMPTY.router, 0) == {};
    assert swept.router.sessions == map[] && swept.registry.runtimes == map[] && swept.registry.live == map[];
    hide Sweep, EvictMcp;
  }
}
