/**
 The gateway's two objects, with the fields they update: `ProjectRuntimeRegistry` of
 src/cli/createLocalGateway.ts and `SessionRouter` of src/gateway/SessionRouter.ts. Every method is proved
 to do what the operation of the same name in `Gateway` describes.
 */
module GatewayObjects {
  import opened Options
  import opened Gateway
  import opened GatewayAccounting

  class ProjectRuntimeRegistry {
    const env: Env
    var runtimes: map<string, Runtime>
    var sessionMcpRuntimes: map<string, nat>
    /** The tool-server runtimes that were told to stop, and how many were started. */
    var stopped: multiset<nat>
    var started: nat

    function State(): Registry
      reads this
    {
      Registry(runtimes, sessionMcpRuntimes, stopped, started)
    }

    constructor (env: Env)
      ensures this.env == env && State() == EMPTY.registry
    {
      this.env := env;
      runtimes, sessionMcpRuntimes, stopped, started := map[], map[], multiset{}, 0;
    }

    method EvictSessionMcp(sessionKey: string)
      modifies this
      ensures State() == EvictMcp(old(State()), {sessionKey})
    {
      if sessionKey in sessionMcpRuntimes {
        var mcp := sessionMcpRuntimes[sessionKey];
        assert ValuesOf(sessionMcpRuntimes, {sessionKey}) == {mcp};
        sessionMcpRuntimes := Dropped(sessionMcpRuntimes, {sessionKey});
        stopped := stopped + multiset{mcp};
      } else {
        assert ValuesOf(sessionMcpRuntimes, {sessionKey}) == {};
        assert Dropped(sessionMcpRuntimes, {sessionKey}) == sessionMcpRuntimes;
      }
    }

    method StopAllSessions()
      requires LiveApart(State())
      modifies this`sessionMcpRuntimes, this`stopped
      ensures State() == StopAll(old(State()))
    {
      NoValues(sessionMcpRuntimes);
      AllValues(sessionMcpRuntimes);
      hide ValuesOf;
      var keys := sessionMcpRuntimes.Keys;
      assert sessionMcpRuntimes.Keys - keys == {};
      while keys != {}
        invariant keys <= sessionMcpRuntimes.Keys && sessionMcpRuntimes == old(sessionMcpRuntimes)
        invariant stopped == old(stopped) + multiset(ValuesOf(sessionMcpRuntimes, sessionMcpRuntimes.Keys - keys))
        decreases keys
      {
        var key :| key in keys;
        ValuesMore(sessionMcpRuntimes, sessionMcpRuntimes.Keys - keys, key);
        assert sessionMcpRuntimes.Keys - (keys - {key}) == sessionMcpRuntimes.Keys - keys + {key};
        keys := keys - {key};
        stopped := stopped + multiset{sessionMcpRuntimes[key]};
      }
      assert sessionMcpRuntimes.Keys - keys == sessionMcpRuntimes.Keys;
      sessionMcpRuntimes := map[];
    }

    method InvalidateRuntimes(projectRoot: Option<string>)
      requires LiveApart(State())
      modifies this
      ensures State() == Invalidate(old(State()), projectRoot)
    {
      StopAllSessions();
      if projectRoot.Some? && projectRoot.value != "" {
        runtimes := runtimes - {projectRoot.value};
      } else {
        runtimes := map[];
      }
    }

    /** The new tools and overrides are left to the sessions that are built next. */
    method UpdateSubsystems()
      requires LiveApart(State())
      modifies this
      ensures State() == Invalidate(old(State()), None)
    {
      InvalidateRuntimes(None);
    }

    method ResolveProject(projectKey: Option<string>, loaded: Loaded, clock: nat) returns (runtime: Runtime)
      modifies this
      ensures State() == Resolve(old(State()), RootOf(env, projectKey), loaded, clock)
      ensures RootOf(env, projectKey) in State().runtimes && runtime == State().runtimes[RootOf(env, projectKey)]
    {
      var projectRoot := env.resolve(projectKey.GetOr(env.defaultRoot));
      if projectRoot !in runtimes {
        runtimes := runtimes[projectRoot := Runtime(clock, loaded)];
      }
      runtime := runtimes[projectRoot];
    }

    method PrepareSessionRuntime(c: Context, loaded: Loaded, clock: nat, build: Build)
      returns (session: Option<Session>)
      modifies this
      ensures (State(), session) == Prepare(env, old(State()), c, loaded, clock, build)
    {
      hide EvictMcp;
      if RootOf(env, c.projectKey) !in runtimes && build == FailsToLoad {
        return None;
      }
      var runtime := ResolveProject(c.projectKey, loaded, clock);
      if build == FailsToLoad || build == FailsBeforeMcp {
        return None;
      }
      var servers: Option<nat> := None;
      if runtime.config.perSession && |sessionMcpRuntimes| < runtime.config.limit {
        servers := Some(started);
        EvictSessionMcp(c.sessionKey);
        sessionMcpRuntimes := sessionMcpRuntimes[c.sessionKey := started];
        started := started + 1;
      }
      return if build == Built then Some(Session(RootOf(env, c.projectKey), runtime.loadedAt, servers)) else None;
    }
  }

  /** The values of one more key, in a map without repeated values. */
  lemma ValuesMore(m: map<string, nat>, keys: set<string>, key: string)
    requires forall k, k' :: k in m && k' in m && m[k] == m[k'] ==> k == k'
    requires key !in keys
    ensures multiset(ValuesOf(m, keys + {key})) == multiset(ValuesOf(m, keys)) + multiset(ValuesOf(m, {key}))
    ensures key in m ==> ValuesOf(m, {key}) == {m[key]}
  {
    assert ValuesOf(m, keys + {key}) == ValuesOf(m, keys) + ValuesOf(m, {key});
    assert ValuesOf(m, keys) !! ValuesOf(m, {key});
  }

  lemma NoValues(m: map<string, nat>)
    ensures ValuesOf(m, {}) == {}
  {
  }

  lemma AllValues(m: map<string, nat>)
    ensures ValuesOf(m, m.Keys) == m.Values
  {
  }

  class SessionRouter {
    const env: Env
    const registry: ProjectRuntimeRegistry
    var sessions: map<string, Record>
    var inFlightTurns: map<string, string>
    /** The keys the evict callback was called with. */
    var evicted: multiset<string>

    function State(): Router
      reads this
    {
      Router(sessions, inFlightTurns, evicted)
    }

    function TheWorld(changes: Changes): World
      reads this, registry
    {
      World(State(), registry.State(), changes)
    }

    ghost predicate Valid()
      reads this, registry
    {
      registry.env == env && Balanced(registry.State())
    }

    constructor (registry: ProjectRuntimeRegistry)
      requires Balanced(registry.State())
      ensures Valid() && this.registry == registry && env == registry.env && State() == EMPTY.router
    {
      this.registry := registry;
      env := registry.env;
      sessions, inFlightTurns, evicted := map[], map[], multiset{};
    }

    /** Deletes a record and calls the evict callback. */
    method RemoveRecord(key: string, ghost changes: Changes)
      requires key in sessions
      modifies this, registry
      ensures TheWorld(changes) == Remove(old(TheWorld(changes)), {key})
    {
      hide EvictMcp;
      sessions := sessions - {key};
      evicted := evicted + multiset{key};
      registry.EvictSessionMcp(key);
    }

    /** Visits the records in any order and removes the idle ones. */
    method SweepIdle(now: int, ghost changes: Changes)
      requires Valid()
      modifies this, registry
      ensures Valid() && TheWorld(changes) == Sweep(env, old(TheWorld(changes)), now)
    {
      ghost var w := TheWorld(changes);
      ghost var idle := IdleKeys(env, w.router, now);
      assert LiveApart(w.registry) && idle <= w.router.sessions.Keys && idle - sessions.Keys == {};
      hide Remove, EvictMcp, Balanced, LiveApart, IdleKeys;
      var keys := sessions.Keys;
      EvictNothing(w);
      while keys != {}
        invariant keys <= w.router.sessions.Keys
        invariant TheWorld(changes) == Remove(w, idle - keys)
        decreases keys
      {
        var key :| key in keys;
        VisitOne(idle, keys, key);
        IdleIff(env, w.router, now, key);
        RecordRemains(w, idle - keys, key);
        if key !in inFlightTurns && now - sessions[key].lastUsedAt > env.idleTimeoutMs {
          EvictMore(w, idle - keys, key);
          RemoveRecord(key, changes);
        }
        keys := keys - {key};
      }
      assert idle - keys == idle;
      RemoveFacts(w, idle);
      EvictKeepsBalance(w.registry, idle);
    }

    method GetOrCreate(c: Context, sweepAt: int, now: int, loaded: Loaded, build: Build, changes: Changes)
      returns (session: Option<Session>)
      requires Valid()
      modifies this, registry
      ensures Valid()
      ensures (TheWorld(changes), session)
           == Gateway.GetOrCreate(env, old(TheWorld(changes)), c, sweepAt, now, loaded, build)
    {
      GetIsBalanced(env, TheWorld(changes), c, sweepAt, now, loaded, build);
      hide Sweep, GetAfterSweep, Balanced;
      SweepIdle(sweepAt, changes);
      session := GetSwept(c, now, loaded, build, changes);
    }

    /** The lookup, once the idle records are gone. */
    method GetSwept(c: Context, now: int, loaded: Loaded, build: Build, changes: Changes)
      returns (session: Option<Session>)
      requires registry.env == env
      modifies this, registry
      ensures registry.env == env
      ensures (TheWorld(changes), session) == GetAfterSweep(env, old(TheWorld(changes)), c, now, loaded, build)
    {
      hide EvictMcp, Prepare;
      var key := c.sessionKey;
      if key !in sessions {
        session := registry.PrepareSessionRuntime(c, loaded, changes.clock, build);
        if session.Some? {
          sessions := sessions[key := Record(session.value, now, c, None)];
        }
        return;
      }
      ghost var before := sessions;
      var cached := sessions[key].(context := MergeContext(sessions[key].context, c));
      sessions := sessions[key := cached];
      if cached.dirty.Some? && cached.dirty.value != "" {
        evicted := evicted + multiset{key};
        registry.EvictSessionMcp(key);
        session := registry.PrepareSessionRuntime(cached.context, loaded, changes.clock, build);
        if session.None? {
          return;
        }
        cached := cached.(session := session.value, dirty := None);
      }
      cached := cached.(lastUsedAt := now);
      assert sessions[key := cached] == before[key := cached];
      sessions := sessions[key := cached];
      return Some(cached.session);
    }

    method BeginTurn(key: string, runId: string, now: int, ghost changes: Changes) returns (ok: bool)
      requires Valid()
      modifies this, registry
      ensures Valid() && (TheWorld(changes), ok) == Gateway.BeginTurn(env, old(TheWorld(changes)), key, runId, now)
    {
      hide Sweep, Balanced;
      SweepIdle(now, changes);
      if key in inFlightTurns {
        return false;
      }
      inFlightTurns := inFlightTurns[key := runId];
      return true;
    }

    method EndTurn(key: string, runId: Option<string>, now: int)
      modifies this
      ensures State() == Gateway.EndTurn(old(State()), key, runId, now)
    {
      if runId.None? || runId.value == "" || (key in inFlightTurns && inFlightTurns[key] == runId.value) {
        inFlightTurns := inFlightTurns - {key};
      }
      if key in sessions {
        sessions := sessions[key := sessions[key].(lastUsedAt := now)];
      }
    }

    method Close(key: string, ghost changes: Changes)
      requires Valid()
      modifies this, registry
      ensures Valid() && TheWorld(changes) == Gateway.Close(old(TheWorld(changes)), key)
    {
      EvictKeepsBalance(registry.State(), {key});
      hide EvictMcp, Balanced;
      if key in sessions {
        RemoveRecord(key, changes);
      }
    }

    method MarkAllDirty(reason: string) returns (count: nat)
      modifies this
      ensures State() == MarkDirty(old(State()), old(sessions).Keys, reason) && count == |old(sessions)|
    {
      count := MarkRecords(sessions.Keys, reason);
    }

    method MarkProjectDirty(projectKey: string) returns (count: nat)
      modifies this
      ensures var marked := KeysOfProject(old(State()), projectKey);
              State() == MarkDirty(old(State()), marked, "extension_changed") && count == |marked|
    {
      var keys := set k | k in sessions && sessions[k].context.projectKey == Some(projectKey);
      count := MarkRecords(keys, "extension_changed");
    }

    /** Visits the records in any order and marks those of `keys`. */
    method MarkRecords(keys: set<string>, reason: string) returns (count: nat)
      requires keys <= sessions.Keys
      modifies this`sessions
      ensures State() == MarkDirty(old(State()), keys, reason) && count == |keys|
    {
      count := 0;
      var left := sessions.Keys;
      assert keys - left == {};
      MarkNone(sessions, reason);
      hide Marked;
      while left != {}
        invariant left <= old(sessions).Keys && sessions == Marked(old(sessions), keys - left, reason)
        invariant count == |keys - left|
        decreases left
      {
        var key :| key in left;
        MarkOneMore(old(sessions), keys - left, key, reason);
        VisitOne(keys, left, key);
        left := left - {key};
        if key in keys {
          sessions := sessions[key := sessions[key].(dirty := Some(reason))];
          count := count + 1;
        }
      }
      assert keys - left == keys;
    }
  }

  lemma MarkNone(sessions: map<string, Record>, reason: string)
    ensures Marked(sessions, {}, reason) == sessions
  {
  }

  lemma MarkOneMore(sessions: map<string, Record>, keys: set<string>, key: string, reason: string)
    requires key in sessions && key !in keys
    ensures Marked(sessions, keys + {key}, reason) ==
            Marked(sessions, keys, reason)[key := sessions[key].(dirty := Some(reason))]
    ensures key in Marked(sessions, keys, reason) && Marked(sessions, keys, reason)[key] == sessions[key]
  {
  }

  lemma RecordRemains(w: World, keys: set<string>, key: string)
    requires keys <= w.router.sessions.Keys && key in w.router.sessions && key !in keys
    ensures var after := Remove(w, keys).router;
            key in after.sessions && after.sessions[key] == w.router.sessions[key]
            && after.inFlight == w.router.inFlight
  {
  }

  lemma RemoveFacts(w: World, keys: set<string>)
    requires keys <= w.router.sessions.Keys
    ensures Remove(w, keys) ==
            World(Router(w.router.sessions - keys, w.router.inFlight, w.router.evicted + multiset(keys)),
                  EvictMcp(w.registry, keys), w.changes)
  {
  }

  /** What the gateway does on a reload of the configuration or of extensions. */
  method HandleConfigChange(router: SessionRouter, classes: seq<ChangeClass>, ghost changes: Changes)
    requires router.Valid()
    modifies router, router.registry
    ensures router.Valid()
    ensures var before := old(router.TheWorld(changes));
            var after := if Applies(classes) then ChangeAll(before, "config_changed") else before;
            router.State() == after.router && router.registry.State() == after.registry
  {
    hide StopAll, Balanced, Marked;
    BalancedIsApart(router.registry.State());
    if exists i :: 0 <= i < |classes| && classes[i] != RestartRequired {
      router.registry.InvalidateRuntimes(None);
      var count := router.MarkAllDirty("config_changed");
      InvalidateKeepsBalance(old(router.registry.State()), None);
    }
  }

  method HandleExtensionChange(router: SessionRouter, root: Option<string>, ghost changes: Changes)
    requires router.Valid()
    modifies router, router.registry
    ensures router.Valid()
    ensures var before := old(router.TheWorld(changes));
            var after := if root.Some? then ChangeProject(before, root.value)
                         else ChangeAll(before, "extension_changed");
            router.State() == after.router && router.registry.State() == after.registry
  {
    hide StopAll, Balanced, Marked;
    BalancedIsApart(router.registry.State());
    InvalidateKeepsBalance(router.registry.State(), root);
    router.registry.InvalidateRuntimes(root);
    var count;
    if root.Some? {
      count := router.MarkProjectDirty(root.value);
    } else {
      count := router.MarkAllDirty("extension_changed");
    }
  }

  lemma BalancedIsApart(r: Registry)
    requires Balanced(r)
    ensures LiveApart(r)
  {
  }

  lemma InvalidateKeepsBalance(r: Registry, root: Option<string>)
    requires Balanced(r)
    ensures Balanced(Invalidate(r, root))
  {
    StopAllKeepsBalance(r);
  }

  lemma EvictNothing(w: World)
    ensures Remove(w, {}) == w
  {
    NoValues(w.registry.live);
    var none: set<string> := {};
    assert EvictMcp(w.registry, none).live == w.registry.live;
  }

  /** Removing one more session, when tool servers belong to one session each. */
  lemma EvictMore(w: World, removed: set<string>, key: string)
    requires LiveApart(w.registry) && removed <= w.router.sessions.Keys && key in w.router.sessions && key !in removed
    ensures Remove(w, removed + {key}) == Remove(Remove(w, removed), {key})
  {
    EvictMcpMore(w.registry, removed, key);
    assert w.router.sessions - (removed + {key}) == w.router.sessions - removed - {key};
    assert multiset(removed + {key}) == multiset(removed) + multiset({key});
    hide EvictMcp, LiveApart;
  }

  lemma EvictMcpMore(r: Registry, removed: set<string>, key: string)
    requires LiveApart(r) && key !in removed
    ensures EvictMcp(r, removed + {key}) == EvictMcp(EvictMcp(r, removed), {key})
  {
    ValuesMore(r.live, removed, key);
    DropMore(r.live, removed, key);
    hide LiveApart, ValuesOf, Dropped;
  }

  /** The visited part of `keys` when one more of the keys in `left` is visited. */
  lemma VisitOne(keys: set<string>, left: set<string>, key: string)
    requires key in left
    ensures keys - (left - {key}) == if key in keys then keys - left + {key} else keys - left
    ensures |keys - (left - {key})| == |keys - left| + if key in keys then 1 else 0
  {
    assert keys - (left - {key}) == if key in keys then keys - left + {key} else keys - left;
  }

  lemma DropMore(m: map<string, nat>, keys: set<string>, key: string)
    requires key !in keys
    ensures Dropped(m, keys + {key}) == Dropped(Dropped(m, keys), {key})
    ensures ValuesOf(Dropped(m, keys), {key}) == ValuesOf(m, {key})
  {
  }

  lemma IdleIff(env: Env, s: Router, now: int, key: string)
    requires key in s.sessions
    ensures key in IdleKeys(env, s, now) <==> Idle(env, s, key, now)
  {
  }
}
