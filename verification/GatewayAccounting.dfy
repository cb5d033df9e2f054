/** What the gateway starts, stops, evicts and locks over whole runs. */
module GatewayAccounting {
  import opened Options
  import opened Gateway
  import opened Sets

  // ---- Tool servers of single sessions

  ghost predicate IsLive(r: Registry, id: nat) {
    exists k :: k in r.live && r.live[k] == id
  }

  /** Live runtimes were started and not stopped, and belong to one session each. */
  ghost predicate LiveApart(r: Registry) {
    && (forall k :: k in r.live ==> r.live[k] < r.started && r.live[k] !in r.stopped)
    && (forall k, k' :: k in r.live && k' in r.live && r.live[k] == r.live[k'] ==> k == k')
  }

  /** Every started runtime is either live for exactly one session or was stopped, once. */
  ghost predicate Balanced(r: Registry) {
    && LiveApart(r)
    && (forall id :: id in r.stopped ==> id < r.started && r.stopped[id] == 1)
    && (forall id: nat :: id < r.started ==> id in r.stopped || IsLive(r, id))
  }

  lemma EvictKeepsBalance(r: Registry, keys: set<string>)
    requires Balanced(r)
    ensures Balanced(EvictMcp(r, keys))
    ensures EvictMcp(r, keys).live.Keys == r.live.Keys - keys
  {
    var after := EvictMcp(r, keys);
    forall id: nat | id < after.started
      ensures id in after.stopped || IsLive(after, id)
    {
      if id !in r.stopped {
        var k :| k in r.live && r.live[k] == id;
        if k !in keys {
          assert after.live[k] == id;
        }
      }
    }
  }

  lemma StopAllKeepsBalance(r: Registry)
    requires Balanced(r)
    ensures Balanced(StopAll(r)) && StopAll(r).live == map[]
  {
  }

  lemma AddKeepsBalance(r: Registry, key: string)
    requires Balanced(r) && key !in r.live
    ensures Balanced(AddServers(r, key))
  {
    var after := AddServers(r, key);
    assert r.started !in r.stopped;
    assert LiveApart(after);
    forall id: nat | id < after.started
      ensures id in after.stopped || IsLive(after, id)
    {
      if id == r.started {
        assert key in after.live && after.live[key] == id;
      } else if id !in r.stopped {
        var k :| k in r.live && r.live[k] == id;
        assert k in after.live && after.live[k] == id;
      }
    }
  }

  lemma AddSize(r: Registry, key: string)
    requires key !in r.live
    ensures AddServers(r, key).live.Keys == r.live.Keys + {key} && |AddServers(r, key).live| == |r.live| + 1
  {
    var after := AddServers(r, key);
    assert after.live.Keys == r.live.Keys + {key};
    assert |after.live| == |after.live.Keys| && |r.live| == |r.live.Keys|;
  }

  lemma StartKeepsBalance(r: Registry, runtime: Runtime, key: string)
    requires Balanced(r)
    ensures Balanced(StartMcp(r, runtime, key))
    ensures StartMcp(r, runtime, key).live.Keys <= r.live.Keys + {key}
    ensures |StartMcp(r, runtime, key).live| <= |r.live| || |StartMcp(r, runtime, key).live| <= runtime.config.limit
    ensures StartMcp(r, runtime, key).runtimes == r.runtimes
  {
    if runtime.config.perSession && |r.live| < runtime.config.limit {
      var free := EvictMcp(r, {key});
      EvictKeepsBalance(r, {key});
      SmallerMap(free.live, r.live);
      AddKeepsBalance(free, key);
      AddSize(free, key);
      assert free.runtimes == r.runtimes;
      hide Balanced, EvictMcp, AddServers;
    }
  }

  lemma SmallerMap(a: map<string, nat>, b: map<string, nat>)
    requires a.Keys <= b.Keys
    ensures |a| <= |b|
  {
    SubsetSize(a.Keys, b.Keys);
  }

  /** At most `limit` sessions have tool servers of their own, and no cached runtime allows more. */
  ghost predicate WithinLimit(r: Registry, limit: nat) {
    |r.live| <= limit && forall root :: root in r.runtimes ==> r.runtimes[root].config.limit <= limit
  }

  lemma PrepareKeepsBalance(env: Env, r: Registry, c: Context, loaded: Loaded, clock: nat, build: Build, limit: nat)
    requires Balanced(r) && WithinLimit(r, limit) && loaded.limit <= limit
    ensures var after := Prepare(env, r, c, loaded, clock, build).0;
            Balanced(after) && WithinLimit(after, limit) && after.live.Keys <= r.live.Keys + {c.sessionKey}
  {
    hide StartMcp, Balanced, RootOf;
    var root := RootOf(env, c.projectKey);
    var resolved := Resolve(r, root, loaded, clock);
    ResolveKeepsAccount(r, root, loaded, clock, limit);
    StartKeepsBalance(resolved, resolved.runtimes[root], c.sessionKey);
    assert resolved.live == r.live;
  }

  ghost predicate Accounted(w: World, limit: nat) {
    Balanced(w.registry) && WithinLimit(w.registry, limit)
  }

  lemma RemoveKeepsAccount(w: World, keys: set<string>, limit: nat)
    requires Accounted(w, limit) && keys <= w.router.sessions.Keys
    ensures Accounted(Remove(w, keys), limit)
  {
    EvictKeepsBalance(w.registry, keys);
    SmallerMap(EvictMcp(w.registry, keys).live, w.registry.live);
    hide Balanced;
  }

  lemma GetKeepsAccount(
    env: Env, w: World, c: Context, sweepAt: int, now: int, loaded: Loaded, build: Build, limit: nat)
    requires Accounted(w, limit) && loaded.limit <= limit
    ensures Accounted(GetOrCreate(env, w, c, sweepAt, now, loaded, build).0, limit)
  {
    RemoveKeepsAccount(w, IdleKeys(env, w.router, sweepAt), limit);
    var swept, key := Sweep(env, w, sweepAt), c.sessionKey;
    hide Balanced, Prepare, EvictMcp, Sweep, WithinLimit;
    RegistryAfterGet(env, swept, c, now, loaded, build);
    PrepareKeepsBalance(env, swept.registry, c, loaded, w.changes.clock, build, limit);
    if key in swept.router.sessions {
      EvictWithinLimit(swept.registry, {key}, limit);
      var merged := MergeContext(swept.router.sessions[key].context, c);
      PrepareKeepsBalance(env, EvictMcp(swept.registry, {key}), merged, loaded, w.changes.clock, build, limit);
    }
  }

  lemma EvictWithinLimit(r: Registry, keys: set<string>, limit: nat)
    requires Balanced(r) && WithinLimit(r, limit)
    ensures Balanced(EvictMcp(r, keys)) && WithinLimit(EvictMcp(r, keys), limit)
  {
    EvictKeepsBalance(r, keys);
    SmallerMap(EvictMcp(r, keys).live, r.live);
    hide Balanced;
  }

  /** What the part of `getOrCreate` after the sweep does to the registry and to the session keys. */
  lemma RegistryAfterGet(env: Env, w: World, c: Context, now: int, loaded: Loaded, build: Build)
    ensures var (after, session) := GetAfterSweep(env, w, c, now, loaded, build);
            var key := c.sessionKey;
            if key in w.router.sessions then
              var record := w.router.sessions[key];
              && after.router.sessions.Keys == w.router.sessions.Keys
              && after.registry ==
                 if record.dirty.GetOr("") != "" then
                   Prepare(env, EvictMcp(w.registry, {key}), MergeContext(record.context, c), loaded,
                           w.changes.clock, build).0
                 else w.registry
            else
              var (registry, built) := Prepare(env, w.registry, c, loaded, w.changes.clock, build);
              && after.registry == registry
              && after.router.sessions.Keys == w.router.sessions.Keys + (if built.Some? then {key} else {})
  {
    hide Prepare, EvictMcp;
  }

  lemma PrepareIsBalanced(env: Env, r: Registry, c: Context, loaded: Loaded, clock: nat, build: Build)
    requires Balanced(r)
    ensures Balanced(Prepare(env, r, c, loaded, clock, build).0)
  {
    hide Balanced, StartMcp, RootOf;
    var root := RootOf(env, c.projectKey);
    var resolved := Resolve(r, root, loaded, clock);
    SameServers(r, resolved);
    StartKeepsBalance(resolved, resolved.runtimes[root], c.sessionKey);
  }

  lemma SameServers(a: Registry, b: Registry)
    requires Balanced(a) && a.live == b.live && a.stopped == b.stopped && a.started == b.started
    ensures Balanced(b)
  {
    forall id: nat
      ensures IsLive(b, id) <==> IsLive(a, id)
    {
      SameServersLive(a, b, id);
    }
    hide IsLive;
  }

  lemma SameServersLive(r: Registry, after: Registry, id: nat)
    requires after.live == r.live
    ensures IsLive(after, id) <==> IsLive(r, id)
  {
  }

  lemma GetIsBalanced(env: Env, w: World, c: Context, sweepAt: int, now: int, loaded: Loaded, build: Build)
    requires Balanced(w.registry)
    ensures Balanced(GetOrCreate(env, w, c, sweepAt, now, loaded, build).0.registry)
  {
    EvictKeepsBalance(w.registry, IdleKeys(env, w.router, sweepAt));
    var swept, key := Sweep(env, w, sweepAt), c.sessionKey;
    EvictKeepsBalance(swept.registry, {key});
    hide Balanced, Prepare, EvictMcp, Sweep;
    RegistryAfterGet(env, swept, c, now, loaded, build);
    PrepareIsBalanced(env, swept.registry, c, loaded, w.changes.clock, build);
    if key in swept.router.sessions {
      var merged := MergeContext(swept.router.sessions[key].context, c);
      PrepareIsBalanced(env, EvictMcp(swept.registry, {key}), merged, loaded, w.changes.clock, build);
    }
  }

  /** No configuration that is loaded during the run allows more than `limit` sessions with their own servers. */
  predicate LoadsWithin(e: Event, limit: nat) {
    && (e.Request? ==> e.loaded.limit <= limit)
    && (e.ResolveProject? ==> e.loaded.limit <= limit)
  }

  lemma StepKeepsAccount(env: Env, w: World, e: Event, limit: nat)
    requires Accounted(w, limit) && LoadsWithin(e, limit)
    ensures Accounted(Step(env, w, e).0, limit)
  {
    hide Balanced, GetOrCreate, StopAll, EvictMcp, Remove;
    match e {
      case Request(c, sweepAt, now, loaded, build) => GetKeepsAccount(env, w, c, sweepAt, now, loaded, build, limit);
      case Begin(key, runId, now) => RemoveKeepsAccount(w, IdleKeys(env, w.router, now), limit);
      case CloseSession(key) => if key in w.router.sessions { RemoveKeepsAccount(w, {key}, limit); }
      case CountSessions(now) => RemoveKeepsAccount(w, IdleKeys(env, w.router, now), limit);
      case ConfigChange(_) => InvalidateKeepsAccount(w.registry, None, limit);
      case ExtensionsChange => InvalidateKeepsAccount(w.registry, None, limit);
      case ProjectExtensionsChange(root) => InvalidateKeepsAccount(w.registry, Some(root), limit);
      case UpdateSubsystems => InvalidateKeepsAccount(w.registry, None, limit);
      case ResolveProject(projectKey, loaded) =>
        ResolveKeepsAccount(w.registry, RootOf(env, projectKey), loaded, w.changes.clock, limit);
      case _ =>
    }
  }

  lemma InvalidateKeepsAccount(r: Registry, root: Option<string>, limit: nat)
    requires Balanced(r) && WithinLimit(r, limit)
    ensures Balanced(Invalidate(r, root)) && WithinLimit(Invalidate(r, root), limit)
    ensures Invalidate(r, root).live == map[]
  {
    StopAllKeepsBalance(r);
  }

  lemma ResolveKeepsAccount(r: Registry, root: string, loaded: Loaded, clock: nat, limit: nat)
    requires Balanced(r) && WithinLimit(r, limit) && loaded.limit <= limit
    ensures Balanced(Resolve(r, root, loaded, clock)) && WithinLimit(Resolve(r, root, loaded, clock), limit)
  {
    var after := Resolve(r, root, loaded, clock);
    SameServers(r, after);
    hide Balanced;
  }

  lemma {:induction false} RunKeepsAccount(env: Env, w: World, events: seq<Event>, limit: nat)
    requires Accounted(w, limit) && forall e :: e in events ==> LoadsWithin(e, limit)
    ensures Accounted(After(env, w, events), limit)
    decreases events
  {
    hide Step, Accounted, LoadsWithin;
    if events != [] {
      assert events[0] in events;
      StepKeepsAccount(env, w, events[0], limit);
      RunKeepsAccount(env, Step(env, w, events[0]).0, events[1..], limit);
    }
  }

  /** In every run: started runtimes are the live ones and the stopped ones, each stopped at most once, and
      the live ones never exceed the limit that all configurations share. */
  lemma ToolServersBalance(env: Env, events: seq<Event>, limit: nat)
    requires forall e :: e in events ==> LoadsWithin(e, limit)
    ensures Accounted(After(env, EMPTY, events), limit)
  {
    RunKeepsAccount(env, EMPTY, events, limit);
  }

  // ---- Live tool servers belong to live sessions

  ghost predicate Owned(w: World) { w.registry.live.Keys <= w.router.sessions.Keys }

  /** A session for `c` will be created, gets tool servers, and fails afterwards. */
  predicate Leaks(env: Env, w: World, c: Context, sweepAt: int, loaded: Loaded, build: Build) {
    var swept := Sweep(env, w, sweepAt);
    && build == FailsAfterMcp
    && c.sessionKey !in swept.router.sessions
    && StartsServers(swept.registry, RuntimeFor(env, swept.registry, c, loaded, w.changes.clock))
  }

  /** `getOrCreate` keeps live tool servers tied to live sessions exactly if it does not fail between starting
      the servers of a new session and recording the session. */
  lemma GetKeepsOwnedIffNoLeak(
    env: Env, w: World, c: Context, sweepAt: int, now: int, loaded: Loaded, build: Build)
    requires Owned(w)
    ensures Owned(GetOrCreate(env, w, c, sweepAt, now, loaded, build).0) <==> !Leaks(env, w, c, sweepAt, loaded, build)
  {
    var swept, key := Sweep(env, w, sweepAt), c.sessionKey;
    assert Owned(swept) && EvictMcp(swept.registry, {key}).live.Keys == swept.registry.live.Keys - {key};
    hide Sweep, Prepare, EvictMcp, GetAfterSweep, RuntimeFor, MergeContext, StartsServers;
    RegistryAfterGet(env, swept, c, now, loaded, build);
    if key in swept.router.sessions {
      var merged := MergeContext(swept.router.sessions[key].context, c);
      MergeKeepsKey(swept.router.sessions[key].context, c);
      PrepareKeys(env, EvictMcp(swept.registry, {key}), merged, loaded, w.changes.clock, build);
    } else {
      PrepareKeys(env, swept.registry, c, loaded, w.changes.clock, build);
      PrepareSucceeds(env, swept.registry, c, loaded, w.changes.clock, build);
    }
  }

  lemma MergeKeepsKey(current: Context, next: Context)
    ensures MergeContext(current, next).sessionKey == next.sessionKey
  {
  }

  /** The runtime a session for `c` is built from. */
  function RuntimeFor(env: Env, r: Registry, c: Context, loaded: Loaded, clock: nat): Runtime {
    var root := RootOf(env, c.projectKey);
    if root in r.runtimes then r.runtimes[root] else Runtime(clock, loaded)
  }

  /** Preparing a session adds its key to the live ones exactly if it gets as far as starting servers. */
  lemma PrepareKeys(env: Env, r: Registry, c: Context, loaded: Loaded, clock: nat, build: Build)
    ensures Prepare(env, r, c, loaded, clock, build).0.live.Keys ==
            r.live.Keys + (if (build == Built || build == FailsAfterMcp)
                              && StartsServers(r, RuntimeFor(env, r, c, loaded, clock))
                           then {c.sessionKey} else {})
  {
    var root := RootOf(env, c.projectKey);
    var resolved := Resolve(r, root, loaded, clock);
    assert resolved.live == r.live && resolved.runtimes[root] == RuntimeFor(env, r, c, loaded, clock);
    hide RuntimeFor, RootOf, Resolve;
    StartKeys(resolved, resolved.runtimes[root], c.sessionKey);
    hide StartMcp;
  }

  lemma PrepareSucceeds(env: Env, r: Registry, c: Context, loaded: Loaded, clock: nat, build: Build)
    ensures Prepare(env, r, c, loaded, clock, build).1.Some? <==> build == Built
  {
    hide StartMcp, RootOf;
  }

  lemma StartKeys(r: Registry, runtime: Runtime, key: string)
    ensures StartMcp(r, runtime, key).live.Keys ==
            r.live.Keys + (if StartsServers(r, runtime) then {key} else {})
  {
  }

  lemma StepKeepsOwned(env: Env, w: World, e: Event)
    requires Owned(w)
    requires e.Request? ==> !Leaks(env, w, e.context, e.sweepAt, e.loaded, e.build)
    ensures Owned(Step(env, w, e).0)
  {
    if e.Request? {
      GetKeepsOwnedIffNoLeak(env, w, e.context, e.sweepAt, e.now, e.loaded, e.build);
    }
    hide GetOrCreate, Leaks;
  }

  /** A first request that fails after its tool servers started leaves them running for a session that is not there. */
  lemma FailedRequestLeaks(env: Env, now: int)
    ensures var c := Context("s", None, "web");
      var after := GetOrCreate(env, EMPTY, c, now, now, Loaded(true, 1), FailsAfterMcp).0;
      Owned(EMPTY) && "s" in after.registry.live && "s" !in after.router.sessions
  {
    var c, loaded := Context("s", None, "web"), Loaded(true, 1);
    var swept := Sweep(env, EMPTY, now);
    assert IdleKeys(env, EMPTY.router, now) == {};
    assert swept.router.sessions == map[] && swept.registry.live == map[] && swept.registry.runtimes == map[];
    hide Sweep, EvictMcp, Prepare, RootOf, MergeContext;
    RegistryAfterGet(env, swept, c, now, loaded, FailsAfterMcp);
    PrepareKeys(env, swept.registry, c, loaded, 0, FailsAfterMcp);
    PrepareSucceeds(env, swept.registry, c, loaded, 0, FailsAfterMcp);
  }

  /** No request of the run leaks the tool servers of a session that is never recorded. */
  ghost predicate NoLeaks(env: Env, w: World, events: seq<Event>)
    decreases events
  {
    events != [] ==>
      && (events[0].Request? ==>
            !Leaks(env, w, events[0].context, events[0].sweepAt, events[0].loaded, events[0].build))
      && NoLeaks(env, Step(env, w, events[0]).0, events[1..])
  }

  /** In every run without leaks, every live tool server belongs to a live session. */
  lemma {:induction false} ServersBelongToSessions(env: Env, w: World, events: seq<Event>)
    requires Owned(w) && NoLeaks(env, w, events)
    ensures Owned(After(env, w, events))
    decreases events
  {
    hide Step, Owned, Leaks;
    if events != [] {
      StepKeepsOwned(env, w, events[0]);
      ServersBelongToSessions(env, Step(env, w, events[0]).0, events[1..]);
    }
  }

  // ---- Evictions

  /** A sweep removes exactly the sessions that are idle past the timeout and not in flight, and evicts each once. */
  lemma SweepIsExact(env: Env, w: World, now: int)
    ensures var after := Sweep(env, w, now).router;
            && after.inFlight == w.router.inFlight
            && (forall k :: k in after.sessions <==>
                  k in w.router.sessions
                  && (k in w.router.inFlight || now - w.router.sessions[k].lastUsedAt <= env.idleTimeoutMs))
            && (forall k :: k in after.sessions ==> after.sessions[k] == w.router.sessions[k])
            && (forall k :: after.evicted[k] == w.router.evicted[k]
                                                + if k in w.router.sessions && k !in after.sessions then 1 else 0)
  {
    hide EvictMcp;
  }

  /** The sessions that a step removes. */
  function Removed(env: Env, w: World, e: Event): set<string> {
    match e
    case Request(_, sweepAt, _, _, _) => IdleKeys(env, w.router, sweepAt)
    case Begin(_, _, now) => IdleKeys(env, w.router, now)
    case CountSessions(now) => IdleKeys(env, w.router, now)
    case CloseSession(key) => if key in w.router.sessions then {key} else {}
    case _ => {}
  }

  /** The session that a step adds: that of a request which finds none and builds one. */
  function Added(env: Env, w: World, e: Event): set<string> {
    if e.Request? && e.build == Built && e.context.sessionKey !in w.router.sessions.Keys - Removed(env, w, e)
    then {e.context.sessionKey} else {}
  }

  /** The dirty session that a step tries to build again. */
  function Rebuilt(env: Env, w: World, e: Event): set<string> {
    if e.Request? && e.context.sessionKey in w.router.sessions.Keys - Removed(env, w, e)
       && w.router.sessions[e.context.sessionKey].dirty.GetOr("") != ""
    then {e.context.sessionKey} else {}
  }

  /** The evict callback runs once for every removed session and once for every attempt to rebuild a dirty one. */
  lemma StepEvictions(env: Env, w: World, e: Event)
    ensures var after := Step(env, w, e).0.router;
            && after.sessions.Keys == w.router.sessions.Keys - Removed(env, w, e) + Added(env, w, e)
            && after.evicted == w.router.evicted + multiset(Removed(env, w, e)) + multiset(Rebuilt(env, w, e))
  {
    if e.Request? {
      RequestEvictions(env, w, e);
    } else {
      OtherEvictions(env, w, e);
    }
    hide Step, Removed, Added, Rebuilt;
  }

  lemma OtherEvictions(env: Env, w: World, e: Event)
    requires !e.Request?
    ensures Step(env, w, e).0.router.sessions.Keys == w.router.sessions.Keys - Removed(env, w, e) + Added(env, w, e)
    ensures Step(env, w, e).0.router.evicted
         == w.router.evicted + multiset(Removed(env, w, e)) + multiset(Rebuilt(env, w, e))
  {
    assert Added(env, w, e) == {} && Rebuilt(env, w, e) == {};
    if e.ConfigChange? || e.ExtensionsChange? || e.ProjectExtensionsChange? {
      MarkKeepsKeys(env, w, e);
      assert Removed(env, w, e) == {};
      hide Step, Removed, Added, Rebuilt;
    } else {
      PlainEvictions(env, w, e);
      hide Step, Removed, Added, Rebuilt;
    }
  }

  lemma PlainEvictions(env: Env, w: World, e: Event)
    requires !(e.Request? || e.ConfigChange? || e.ExtensionsChange? || e.ProjectExtensionsChange?)
    ensures Step(env, w, e).0.router.sessions.Keys == w.router.sessions.Keys - Removed(env, w, e)
    ensures Step(env, w, e).0.router.evicted == w.router.evicted + multiset(Removed(env, w, e))
  {
    hide EvictMcp, Invalidate, Resolve, IdleKeys, GetOrCreate, ChangeAll, ChangeProject;
  }

  lemma MarkKeepsKeys(env: Env, w: World, e: Event)
    requires e.ConfigChange? || e.ExtensionsChange? || e.ProjectExtensionsChange?
    ensures Step(env, w, e).0.router.sessions.Keys == w.router.sessions.Keys
    ensures Step(env, w, e).0.router.evicted == w.router.evicted
  {
    hide Invalidate, KeysOfProject;
  }

  lemma RequestEvictions(env: Env, w: World, e: Event)
    requires e.Request?
    ensures var after := Step(env, w, e).0.router;
            && after.sessions.Keys == w.router.sessions.Keys - Removed(env, w, e) + Added(env, w, e)
            && after.evicted == w.router.evicted + multiset(Removed(env, w, e)) + multiset(Rebuilt(env, w, e))
  {
    var swept := Sweep(env, w, e.sweepAt);
    assert swept.router.sessions.Keys == w.router.sessions.Keys - Removed(env, w, e);
    assert forall k :: k in swept.router.sessions ==> swept.router.sessions[k] == w.router.sessions[k];
    assert swept.router.evicted == w.router.evicted + multiset(Removed(env, w, e));
    EvictionsAfterSweep(env, swept, e.context, e.now, e.loaded, e.build);
    hide GetAfterSweep, IdleKeys, EvictMcp, Sweep;
  }

  lemma EvictionsAfterSweep(env: Env, w: World, c: Context, now: int, loaded: Loaded, build: Build)
    ensures var after := GetAfterSweep(env, w, c, now, loaded, build).0.router;
            var key := c.sessionKey;
            && after.sessions.Keys ==
               w.router.sessions.Keys + (if key !in w.router.sessions && build == Built then {key} else {})
            && after.evicted ==
               w.router.evicted + (if key in w.router.sessions && w.router.sessions[key].dirty.GetOr("") != ""
                                   then multiset{key} else multiset{})
  {
    RegistryAfterGet(env, w, c, now, loaded, build);
    PrepareSucceeds(env, w.registry, c, loaded, w.changes.clock, build);
    hide Prepare, EvictMcp, MergeContext, StartsServers, RuntimeFor;
  }

  datatype Totals = Totals(added: nat, removed: nat, rebuilt: nat)

  function RunTotals(env: Env, w: World, events: seq<Event>): Totals
    decreases events
  {
    if events == [] then Totals(0, 0, 0)
    else
      var e, rest := events[0], RunTotals(env, Step(env, w, events[0]).0, events[1..]);
      Totals(|Added(env, w, e)| + rest.added, |Removed(env, w, e)| + rest.removed, |Rebuilt(env, w, e)| + rest.rebuilt)
  }

  lemma {:induction false} TotalsFrom(env: Env, w: World, events: seq<Event>)
    ensures var after, t := After(env, w, events).router, RunTotals(env, w, events);
            && |after.sessions| + t.removed == |w.router.sessions| + t.added
            && |after.evicted| == |w.router.evicted| + t.removed + t.rebuilt
    decreases events
  {
    hide Step, Added, Removed, Rebuilt;
    if events != [] {
      var e, next := events[0], Step(env, w, events[0]).0;
      StepEvictions(env, w, e);
      RemovedAndAdded(env, w, e);
      SizeAfter(w.router.sessions, next.router.sessions, Removed(env, w, e), Added(env, w, e));
      TotalsFrom(env, next, events[1..]);
    }
  }

  lemma RemovedAndAdded(env: Env, w: World, e: Event)
    ensures Removed(env, w, e) <= w.router.sessions.Keys
    ensures Added(env, w, e) !! w.router.sessions.Keys - Removed(env, w, e)
  {
  }

  lemma SizeAfter(before: map<string, Record>, after: map<string, Record>, removed: set<string>, added: set<string>)
    requires removed <= before.Keys && added !! before.Keys - removed && after.Keys == before.Keys - removed + added
    ensures |after| + |removed| == |before| + |added|
  {
    assert |after| == |after.Keys| && |before| == |before.Keys|;
    assert before.Keys == (before.Keys - removed) + removed;
  }

  /** Conservation over runs: live sessions are those added minus those removed, and the evict callback runs
      once for every removal and every rebuild. */
  lemma SessionsBalance(env: Env, events: seq<Event>)
    ensures var after, t := After(env, EMPTY, events).router, RunTotals(env, EMPTY, events);
            |after.sessions| == t.added - t.removed && |after.evicted| == t.removed + t.rebuilt
  {
    TotalsFrom(env, EMPTY, events);
  }

  /** The project of a live session never changes once it is set. */
  lemma ProjectKeyIsStable(env: Env, w: World, e: Event, key: string)
    requires key in w.router.sessions && w.router.sessions[key].context.projectKey.Some?
    requires e.Request? ==> key !in IdleKeys(env, w.router, e.sweepAt)
    requires key in Step(env, w, e).0.router.sessions
    ensures Step(env, w, e).0.router.sessions[key].context.projectKey == w.router.sessions[key].context.projectKey
  {
    hide Prepare, EvictMcp, Invalidate, Resolve, IdleKeys;
  }

  // ---- Turns

  /** An event that ends the turn `run` of session `key`; without a run id, it ends any turn. */
  predicate Releases(e: Event, key: string, run: string) {
    e.End? && e.key == key && (e.endedRun.GetOr("") == "" || e.endedRun == Some(run))
  }

  lemma TurnStep(env: Env, w: World, e: Event, key: string, run: string)
    requires key in w.router.inFlight && w.router.inFlight[key] == run && !Releases(e, key, run)
    ensures var (after, answer) := Step(env, w, e);
            && key in after.router.inFlight && after.router.inFlight[key] == run
            && (e.Begin? && e.key == key ==> answer == Began(false))
            && (key in w.router.sessions && e != CloseSession(key) ==> key in after.router.sessions)
  {
    hide Prepare, EvictMcp, Invalidate, Resolve;
  }

  /** A turn stays in flight, keeps its session alive and blocks every other turn until it is released: an end
      with another run id never frees it. */
  lemma {:induction false} TurnHoldsUntilReleased(env: Env, w: World, events: seq<Event>, key: string, run: string)
    requires key in w.router.inFlight && w.router.inFlight[key] == run
    requires forall e :: e in events ==> !Releases(e, key, run)
    ensures var after, answers := After(env, w, events).router, Answers(env, w, events);
            && key in after.inFlight && after.inFlight[key] == run
            && |answers| == |events|
            && (forall p :: 0 <= p < |events| && events[p].Begin? && events[p].key == key ==>
                  answers[p] == Began(false))
            && (key in w.router.sessions && CloseSession(key) !in events ==> key in after.sessions)
    decreases events
  {
    if events != [] {
      var next := Step(env, w, events[0]).0;
      assert events[0] in events && forall e :: e in events[1..] ==> e in events;
      TurnStep(env, w, events[0], key, run);
      hide Step, Releases;
      TurnHoldsUntilReleased(env, next, events[1..], key, run);
      assert forall p :: 1 <= p < |events| ==> events[p] == events[1..][p - 1];
      assert forall p :: 1 <= p < |events| ==> Answers(env, w, events)[p] == Answers(env, next, events[1..])[p - 1];
    }
  }

  lemma BeginReleasesNothing(e: Event, key: string, run: string)
    requires e.Begin?
    ensures !Releases(e, key, run)
  {
  }

  /** A session has at most one turn at a time: between two turns that were both admitted, the first one was
      released. */
  lemma TurnsExclude(env: Env, w: World, first: Event, between: seq<Event>, second: Event)
    requires first.Begin? && second.Begin? && first.key == second.key
    requires Step(env, w, first).1 == Began(true)
    requires Step(env, After(env, Step(env, w, first).0, between), second).1 == Began(true)
    ensures exists e :: e in between && Releases(e, first.key, first.runId)
  {
    var key, run, begun := first.key, first.runId, Step(env, w, first).0;
    assert key in begun.router.inFlight && begun.router.inFlight[key] == run;
    var there := After(env, begun, between);
    hide Step, Releases, After;
    if forall e :: e in between ==> !Releases(e, key, run) {
      TurnHoldsUntilReleased(env, begun, between, key, run);
      BeginReleasesNothing(second, key, run);
      TurnStep(env, there, second, key, run);
      assert false;
    }
  }
}
