/** Every session the gateway hands out was built from a configuration no older than the last change. */
module GatewayFreshness {
  import opened Options
  import opened Gateway

  predicate IsDirty(r: Record) { r.dirty.Some? && r.dirty.value != "" }

  predicate IsCurrent(c: Changes, s: Session) { ChangedAt(c, s.root) <= s.loadedAt }

  ghost predicate FreshRuntimes(r: Registry, c: Changes) {
    forall root :: root in r.runtimes ==> ChangedAt(c, root) <= r.runtimes[root].loadedAt <= c.clock
  }

  ghost predicate FreshSessions(s: Router, c: Changes) {
    forall k :: k in s.sessions ==>
      s.sessions[k].session.loadedAt <= c.clock &&
      (IsDirty(s.sessions[k]) || IsCurrent(c, s.sessions[k].session))
  }

  ghost predicate ClockLeads(c: Changes) {
    c.global <= c.clock && forall root :: root in c.project ==> c.project[root] <= c.clock
  }

  /** The invariant: every cached runtime is current, and so is every session that is not marked dirty. */
  ghost predicate Fresh(w: World) {
    ClockLeads(w.changes) && FreshRuntimes(w.registry, w.changes) && FreshSessions(w.router, w.changes)
  }

  // ---- Operations that do not change the configuration

  lemma RemoveKeepsFresh(w: World, keys: set<string>)
    requires Fresh(w) && keys <= w.router.sessions.Keys
    ensures Fresh(Remove(w, keys)) && Remove(w, keys).changes == w.changes
  {
  }

  lemma PrepareIsFresh(env: Env, r: Registry, c: Context, loaded: Loaded, changes: Changes, build: Build)
    requires ClockLeads(changes) && FreshRuntimes(r, changes)
    ensures var (after, session) := Prepare(env, r, c, loaded, changes.clock, build);
            && FreshRuntimes(after, changes)
            && (session.Some? ==> session.value.root == RootOf(env, c.projectKey)
                                  && IsCurrent(changes, session.value) && session.value.loadedAt <= changes.clock)
  {
  }

  lemma PutKeepsFresh(w: World, key: string, record: Record)
    requires Fresh(w) && record.session.loadedAt <= w.changes.clock
    requires IsDirty(record) || IsCurrent(w.changes, record.session)
    ensures Fresh(PutRecord(w, key, record))
  {
  }

  lemma GetKeepsFresh(env: Env, w: World, c: Context, sweepAt: int, now: int, loaded: Loaded, build: Build)
    requires Fresh(w)
    ensures var (after, session) := GetOrCreate(env, w, c, sweepAt, now, loaded, build);
            && Fresh(after) && after.changes == w.changes
            && (session.Some? ==> IsCurrent(after.changes, session.value))
  {
    RemoveKeepsFresh(w, IdleKeys(env, w.router, sweepAt));
    var swept, key := Sweep(env, w, sweepAt), c.sessionKey;
    hide Fresh, IsCurrent, FreshRuntimes, ClockLeads, Prepare, PutRecord, Remove, EvictMcp, IdleKeys;
    FreshParts(swept);
    if key in swept.router.sessions {
      var cached := swept.router.sessions[key].(context := MergeContext(swept.router.sessions[key].context, c));
      if IsDirty(cached) {
        EvictKeepsFresh(swept, key);
        var evicted := swept.(router := swept.router.(evicted := swept.router.evicted + multiset{key}),
                              registry := EvictMcp(swept.registry, {key}));
        FreshParts(evicted);
        Rebuild(env, evicted, key, cached, cached.context, now, loaded, build);
      } else {
        PutKeepsFresh(swept, key, cached.(lastUsedAt := now));
      }
    } else {
      Rebuild(env, swept, key, Record(Session("", 0, None), 0, c, Some("dirty")), c, now, loaded, build);
    }
  }

  lemma FreshParts(w: World)
    requires Fresh(w)
    ensures ClockLeads(w.changes) && FreshRuntimes(w.registry, w.changes) && FreshSessions(w.router, w.changes)
  {
  }

  lemma EvictKeepsFresh(w: World, key: string)
    requires Fresh(w)
    ensures Fresh(w.(router := w.router.(evicted := w.router.evicted + multiset{key}),
                     registry := EvictMcp(w.registry, {key})))
  {
  }

  /** Building a session for `key`; if that fails, a dirty record may stay behind. */
  lemma Rebuild(env: Env, w: World, key: string, dirty: Record, c: Context, now: int, loaded: Loaded, build: Build)
    requires Fresh(w) && IsDirty(dirty) && dirty.session.loadedAt <= w.changes.clock
    ensures var (registry, session) := Prepare(env, w.registry, c, loaded, w.changes.clock, build);
            var prepared := w.(registry := registry);
            && Fresh(prepared) && Fresh(PutRecord(prepared, key, dirty))
            && (session.Some? ==>
                  && IsCurrent(w.changes, session.value)
                  && Fresh(PutRecord(prepared, key, Record(session.value, now, c, None))))
  {
    hide Prepare;
    PrepareIsFresh(env, w.registry, c, loaded, w.changes, build);
    var (registry, session) := Prepare(env, w.registry, c, loaded, w.changes.clock, build);
    var prepared := w.(registry := registry);
    assert Fresh(prepared);
    PutKeepsFresh(prepared, key, dirty);
    if session.Some? {
      PutKeepsFresh(prepared, key, Record(session.value, now, c, None));
    }
  }

  lemma TouchKeepsFresh(w: World, s: Router, key: string, now: int)
    requires Fresh(w) && s.sessions == w.router.sessions
    ensures Fresh(w.(router := Touch(s, key, now)))
  {
  }

  // ---- Changes of the configuration

  lemma ChangeAllKeepsFresh(w: World, reason: string)
    requires Fresh(w) && reason != ""
    ensures Fresh(ChangeAll(w, reason))
  {
  }

  /** Every session that was built for project `root` and is not dirty yet names it verbatim in its context. */
  ghost predicate Marks(w: World, root: string) {
    forall k ::
      k in w.router.sessions && w.router.sessions[k].session.root == root && !IsDirty(w.router.sessions[k]) ==>
      w.router.sessions[k].context.projectKey == Some(root)
  }

  /**
   A change of one project's extensions marks sessions by the project key of their context. It keeps the
   invariant exactly when that finds every session built for the project: sessions that got the project by
   default, or under another spelling of its path, are missed.
   */
  lemma ProjectChangeKeepsFreshIffMarked(w: World, root: string)
    requires Fresh(w)
    ensures Fresh(ChangeProject(w, root)) <==> Marks(w, root)
  {
    var after := ChangeProject(w, root);
    if Marks(w, root) {
      assert FreshRuntimes(after.registry, after.changes);
    } else {
      var k :| k in w.router.sessions && w.router.sessions[k].session.root == root
               && !IsDirty(w.router.sessions[k]) && w.router.sessions[k].context.projectKey != Some(root);
      assert after.router.sessions[k] == w.router.sessions[k];
      assert ChangedAt(after.changes, root) == w.changes.clock + 1;
      assert !FreshSessions(after.router, after.changes);
    }
  }

  ghost predicate AllDirty(s: Router) { forall k :: k in s.sessions ==> IsDirty(s.sessions[k]) }

  /** Replacing the subsystems marks no session: it keeps the invariant iff all sessions are dirty already. */
  lemma SubsystemsKeepFreshIffDirty(w: World)
    requires Fresh(w)
    ensures Fresh(ReplaceSubsystems(w)) <==> AllDirty(w.router)
  {
    var after := ReplaceSubsystems(w);
    forall k | k in w.router.sessions
      ensures ChangedAt(after.changes, w.router.sessions[k].session.root) > w.router.sessions[k].session.loadedAt
    {
      assert ChangedAt(after.changes, w.router.sessions[k].session.root) == w.changes.clock + 1;
    }
    assert ClockLeads(after.changes) && FreshRuntimes(after.registry, after.changes);
  }

  // ---- Whole runs

  /** A change finds the sessions it concerns: those of its project, or, for the subsystems, all dirty. */
  ghost predicate Finds(w: World, e: Event) {
    && (e.ProjectExtensionsChange? ==> Marks(w, e.root))
    && (e.UpdateSubsystems? ==> AllDirty(w.router))
  }

  /** Every change in the run finds the sessions it concerns. */
  ghost predicate MarksAll(env: Env, w: World, events: seq<Event>)
    decreases events
  {
    events != [] ==> Finds(w, events[0]) && MarksAll(env, Step(env, w, events[0]).0, events[1..])
  }

  /** Every session the run hands out is current at that moment. */
  ghost predicate HandsOutCurrent(env: Env, w: World, events: seq<Event>)
    decreases events
  {
    events != [] ==>
      var (after, answer) := Step(env, w, events[0]);
      && (answer.Got? ==> IsCurrent(after.changes, answer.session))
      && HandsOutCurrent(env, after, events[1..])
  }

  lemma StepKeepsFresh(env: Env, w: World, e: Event)
    requires Fresh(w) && Finds(w, e)
    ensures var (after, answer) := Step(env, w, e);
            Fresh(after) && (answer.Got? ==> IsCurrent(after.changes, answer.session))
  {
    match e {
      case Request(c, sweepAt, now, loaded, build) => GetKeepsFresh(env, w, c, sweepAt, now, loaded, build);
      case Begin(key, runId, now) => RemoveKeepsFresh(w, IdleKeys(env, w.router, now));
      case End(key, runId, now) =>
        var frees := runId.None? || runId.value == ""
                     || (key in w.router.inFlight && w.router.inFlight[key] == runId.value);
        TouchKeepsFresh(w, if frees then w.router.(inFlight := w.router.inFlight - {key}) else w.router, key, now);
      case Abort(key, now) => TouchKeepsFresh(w, w.router, key, now);
      case CloseSession(key) => if key in w.router.sessions { RemoveKeepsFresh(w, {key}); }
      case CountSessions(now) => RemoveKeepsFresh(w, IdleKeys(env, w.router, now));
      case ConfigChange(classes) => ChangeAllKeepsFresh(w, "config_changed");
      case ExtensionsChange => ChangeAllKeepsFresh(w, "extension_changed");
      case ProjectExtensionsChange(root) => ProjectChangeKeepsFreshIffMarked(w, root);
      case UpdateSubsystems => SubsystemsKeepFreshIffDirty(w);
      case ResolveProject(projectKey, loaded) =>
    }
  }

  lemma {:induction false} RunStaysFresh(env: Env, w: World, events: seq<Event>)
    requires Fresh(w) && MarksAll(env, w, events)
    ensures HandsOutCurrent(env, w, events) && Fresh(After(env, w, events))
    decreases events
  {
    hide Step, Fresh, Finds, IsCurrent;
    if events != [] {
      StepKeepsFresh(env, w, events[0]);
      RunStaysFresh(env, Step(env, w, events[0]).0, events[1..]);
    }
  }

  /** Subsystems are replaced only while all sessions are dirty. */
  ghost predicate ReplacesWhileDirty(env: Env, w: World, events: seq<Event>)
    decreases events
  {
    events != [] ==>
      && (events[0].UpdateSubsystems? ==> AllDirty(w.router))
      && ReplacesWhileDirty(env, Step(env, w, events[0]).0, events[1..])
  }

  /** Config freshness: in every run without changes of single projects whose subsystems are replaced only while all
      sessions are dirty, every session is current. */
  lemma ConfigFreshness(env: Env, events: seq<Event>)
    requires forall e :: e in events ==> !e.ProjectExtensionsChange?
    requires ReplacesWhileDirty(env, EMPTY, events)
    ensures HandsOutCurrent(env, EMPTY, events)
  {
    NothingToMark(env, EMPTY, events);
    RunStaysFresh(env, EMPTY, events);
  }

  lemma {:induction false} NothingToMark(env: Env, w: World, events: seq<Event>)
    requires forall e :: e in events ==> !e.ProjectExtensionsChange?
    requires ReplacesWhileDirty(env, w, events)
    ensures MarksAll(env, w, events)
    decreases events
  {
    hide Step, Marks, AllDirty;
    if events != [] {
      NothingToMark(env, Step(env, w, events[0]).0, events[1..]);
    }
  }

  lemma DirtyStep(env: Env, w: World, e: Event)
    requires AllDirty(w.router) && !e.Request?
    ensures AllDirty(Step(env, w, e).0.router)
  {
    hide EvictMcp, Invalidate, Resolve, GetOrCreate;
  }

  /** A reload that replaces the subsystems later finds all sessions dirty, if none is requested in between. */
  lemma {:induction false} ReloadFindsDirty(env: Env, w: World, between: seq<Event>)
    requires AllDirty(w.router) && forall e :: e in between ==> !e.Request?
    ensures AllDirty(After(env, w, between).router)
    decreases between
  {
    hide Step, AllDirty;
    if between != [] {
      assert between[0] in between;
      DirtyStep(env, w, between[0]);
      ReloadFindsDirty(env, Step(env, w, between[0]).0, between[1..]);
    }
  }

  /** The event marks every session there is. */
  predicate MarksEverything(e: Event) { (e.ConfigChange? && Applies(e.classes)) || e.ExtensionsChange? }

  lemma MarkedAreDirty(env: Env, w: World, e: Event)
    requires MarksEverything(e)
    ensures AllDirty(Step(env, w, e).0.router)
  {
    hide Invalidate;
  }

  /**
   Subsystems are replaced only before the first request, or after a change that marks everything with no request in
   between. `marked` says that the events so far leave nothing unmarked.
   */
  predicate ReplacesAfterMarking(events: seq<Event>, marked: bool) {
    events != [] ==>
      && (events[0].UpdateSubsystems? ==> marked)
      && ReplacesAfterMarking(events[1..], MarksEverything(events[0]) || (marked && !events[0].Request?))
  }

  lemma {:induction false} MarkingFindsDirty(env: Env, w: World, events: seq<Event>, marked: bool)
    requires ReplacesAfterMarking(events, marked) && (marked ==> AllDirty(w.router))
    ensures ReplacesWhileDirty(env, w, events)
    decreases events
  {
    hide Step, AllDirty, MarksEverything;
    if events != [] {
      var e, after := events[0], Step(env, w, events[0]).0;
      if MarksEverything(e) {
        MarkedAreDirty(env, w, e);
      } else if marked && !e.Request? {
        DirtyStep(env, w, e);
      }
      MarkingFindsDirty(env, after, events[1..], MarksEverything(e) || (marked && !e.Request?));
    }
  }

  /** In every run without changes of single projects that replaces the subsystems only after marking everything,
      every session handed out is current, whatever the requests find and load. */
  lemma MarkedRunsAreFresh(env: Env, events: seq<Event>)
    requires forall e :: e in events ==> !e.ProjectExtensionsChange?
    requires ReplacesAfterMarking(events, true)
    ensures HandsOutCurrent(env, EMPTY, events)
  {
    MarkingFindsDirty(env, EMPTY, events, true);
    ConfigFreshness(env, events);
  }

  lemma {:induction false} NothingReplaced(events: seq<Event>, marked: bool)
    requires forall e :: e in events ==> !e.UpdateSubsystems?
    ensures ReplacesAfterMarking(events, marked)
  {
    hide MarksEverything;
    if events != [] {
      NothingReplaced(events[1..], MarksEverything(events[0]) || (marked && !events[0].Request?));
    }
  }

  /** In particular, in every run that neither changes a single project nor replaces the subsystems. */
  lemma GlobalChangesAreSeen(env: Env, events: seq<Event>)
    requires forall e :: e in events ==> !e.ProjectExtensionsChange? && !e.UpdateSubsystems?
    ensures HandsOutCurrent(env, EMPTY, events)
  {
    NothingReplaced(events, true);
    MarkedRunsAreFresh(env, events);
  }

  // ---- What callers see of a change that is missed

  function Ask(key: string, projectKey: Option<string>, now: int): Event {
    Request(Context(key, projectKey, ""), now, now, Loaded(false, 0), Built)
  }

  /** A session that is not current and not marked is handed out to a request in time. */
  lemma StaleIsHandedOut(env: Env, w: World, key: string, projectKey: Option<string>)
    requires key in w.router.sessions && env.idleTimeoutMs >= 0
    requires !IsDirty(w.router.sessions[key]) && !IsCurrent(w.changes, w.router.sessions[key].session)
    ensures !HandsOutCurrent(env, w, [Ask(key, projectKey, w.router.sessions[key].lastUsedAt)])
  {
    var record := w.router.sessions[key];
    var now := record.lastUsedAt;
    var e := Ask(key, projectKey, now);
    assert key !in IdleKeys(env, w.router, now);
    var swept := Sweep(env, w, now);
    assert swept.router.sessions[key] == record && swept.changes == w.changes;
    hide IsCurrent, Sweep, EvictMcp, Prepare;
    assert Step(env, w, e).1 == Got(record.session) && Step(env, w, e).0.changes == w.changes;
    hide Step;
  }

  /** In a fresh world the next request never hands out a stale session. */
  lemma FreshIsHandedOut(env: Env, w: World, e: Event)
    requires Fresh(w) && e.Request?
    ensures HandsOutCurrent(env, w, [e])
  {
    StepKeepsFresh(env, w, e);
    hide Step, Fresh, IsCurrent;
    assert [e][1..] == [];
  }

  /** A stale session appears after a change of one project's extensions iff the change misses a session. */
  lemma ProjectChangeSeenIffMissed(env: Env, w: World, root: string)
    requires Fresh(w) && env.idleTimeoutMs >= 0
    ensures Marks(w, root) <==> forall e: Event :: e.Request? ==> HandsOutCurrent(env, ChangeProject(w, root), [e])
  {
    var after := ChangeProject(w, root);
    ProjectChangeKeepsFreshIffMarked(w, root);
    if Marks(w, root) {
      hide Fresh, ChangeProject, HandsOutCurrent, Marks;
      forall e: Event | e.Request?
        ensures HandsOutCurrent(env, after, [e])
      {
        FreshIsHandedOut(env, after, e);
      }
    } else {
      var k :| k in w.router.sessions && w.router.sessions[k].session.root == root
               && !IsDirty(w.router.sessions[k]) && w.router.sessions[k].context.projectKey != Some(root);
      assert after.router.sessions[k] == w.router.sessions[k];
      assert ChangedAt(after.changes, root) == w.changes.clock + 1;
      hide HandsOutCurrent;
      StaleIsHandedOut(env, after, k, None);
    }
  }

  /** A stale session appears after the subsystems were replaced iff some session was not dirty. */
  lemma SubsystemsSeenIffNotDirty(env: Env, w: World)
    requires Fresh(w) && env.idleTimeoutMs >= 0
    ensures AllDirty(w.router) <==> forall e: Event :: e.Request? ==> HandsOutCurrent(env, ReplaceSubsystems(w), [e])
  {
    var after := ReplaceSubsystems(w);
    SubsystemsKeepFreshIffDirty(w);
    if AllDirty(w.router) {
      hide Fresh, ReplaceSubsystems, HandsOutCurrent;
      forall e: Event | e.Request?
        ensures HandsOutCurrent(env, after, [e])
      {
        FreshIsHandedOut(env, after, e);
      }
    } else {
      var k :| k in w.router.sessions && !IsDirty(w.router.sessions[k]);
      assert ChangedAt(after.changes, w.router.sessions[k].session.root) == w.changes.clock + 1;
      hide HandsOutCurrent;
      StaleIsHandedOut(env, after, k, None);
    }
  }

  // ---- Runs whose requests name their project by its resolved path

  predicate NamesProject(env: Env, e: Event) {
    e.Request? ==> e.context.projectKey.Some? && env.resolve(e.context.projectKey.value) == e.context.projectKey.value
  }

  /** Every session's context names the project it was built for. */
  ghost predicate Named(env: Env, s: Router) {
    forall k :: k in s.sessions ==>
      && s.sessions[k].context.projectKey == Some(s.sessions[k].session.root)
      && env.resolve(s.sessions[k].session.root) == s.sessions[k].session.root
  }

  lemma GetKeepsNamed(env: Env, w: World, c: Context, sweepAt: int, now: int, loaded: Loaded, build: Build)
    requires Named(env, w.router) && c.projectKey.Some? && env.resolve(c.projectKey.value) == c.projectKey.value
    ensures Named(env, GetOrCreate(env, w, c, sweepAt, now, loaded, build).0.router)
  {
    var swept, key := Sweep(env, w, sweepAt), c.sessionKey;
    assert Named(env, swept.router);
    if key in swept.router.sessions {
      var cached := swept.router.sessions[key].(context := MergeContext(swept.router.sessions[key].context, c));
      assert NamedRecord(env, cached);
      var evicted := swept.(router := swept.router.(evicted := swept.router.evicted + multiset{key}),
                            registry := EvictMcp(swept.registry, {key}));
      hide Prepare, EvictMcp, Sweep, PutRecord;
      PutKeepsNamed(env, swept, key, cached.(lastUsedAt := now));
      RebuildNamed(env, evicted, key, cached, cached.context, now, loaded, build);
    } else {
      hide Prepare, EvictMcp, Sweep, PutRecord;
      RebuildNamed(env, swept, key, Record(Session(c.projectKey.value, 0, None), 0, c, None), c, now, loaded, build);
    }
  }

  predicate NamedRecord(env: Env, r: Record) {
    r.context.projectKey == Some(r.session.root) && env.resolve(r.session.root) == r.session.root
  }

  lemma PutKeepsNamed(env: Env, w: World, key: string, record: Record)
    requires Named(env, w.router) && NamedRecord(env, record)
    ensures Named(env, PutRecord(w, key, record).router)
  {
  }

  lemma RebuildNamed(env: Env, w: World, key: string, kept: Record, c: Context, now: int, loaded: Loaded, build: Build)
    requires Named(env, w.router) && NamedRecord(env, kept)
    requires c.projectKey.Some? && env.resolve(c.projectKey.value) == c.projectKey.value
    ensures var (registry, session) := Prepare(env, w.registry, c, loaded, w.changes.clock, build);
            var prepared := w.(registry := registry);
            && Named(env, prepared.router) && Named(env, PutRecord(prepared, key, kept).router)
            && (session.Some? ==> Named(env, PutRecord(prepared, key, Record(session.value, now, c, None)).router))
  {
    PrepareRoot(env, w.registry, c, loaded, w.changes.clock, build);
    hide Prepare, Named, PutRecord;
    var (registry, session) := Prepare(env, w.registry, c, loaded, w.changes.clock, build);
    var prepared := w.(registry := registry);
    PutKeepsNamed(env, prepared, key, kept);
    if session.Some? {
      PutKeepsNamed(env, prepared, key, Record(session.value, now, c, None));
    }
  }

  lemma PrepareRoot(env: Env, r: Registry, c: Context, loaded: Loaded, clock: nat, build: Build)
    ensures var session := Prepare(env, r, c, loaded, clock, build).1;
            session.Some? ==> session.value.root == RootOf(env, c.projectKey)
  {
  }

  lemma StepKeepsNamed(env: Env, w: World, e: Event)
    requires Named(env, w.router) && NamesProject(env, e)
    ensures Named(env, Step(env, w, e).0.router)
  {
    if e.Request? {
      GetKeepsNamed(env, w, e.context, e.sweepAt, e.now, e.loaded, e.build);
    }
    hide GetOrCreate, EvictMcp, Invalidate, Resolve;
  }

  lemma {:induction false} NamedRunMarksAll(env: Env, w: World, events: seq<Event>)
    requires Named(env, w.router) && (forall e :: e in events ==> NamesProject(env, e))
    requires ReplacesWhileDirty(env, w, events)
    ensures MarksAll(env, w, events)
    decreases events
  {
    if events != [] {
      assert NamesProject(env, events[0]);
      StepKeepsNamed(env, w, events[0]);
      assert forall root :: Marks(w, root);
      hide Step, Marks, NamesProject, Named, AllDirty;
      NamedRunMarksAll(env, Step(env, w, events[0]).0, events[1..]);
    }
  }

  /** If every request names its project by the resolved path, and subsystems are replaced only while all sessions are
      dirty, no change is ever missed. */
  lemma NamedRunsAreFresh(env: Env, events: seq<Event>)
    requires forall e :: e in events ==> NamesProject(env, e)
    requires ReplacesWhileDirty(env, EMPTY, events)
    ensures HandsOutCurrent(env, EMPTY, events)
  {
    NamedRunMarksAll(env, EMPTY, events);
    RunStaysFresh(env, EMPTY, events);
  }

  /** The same, with a condition on the events alone. */
  lemma NamedMarkedRunsAreFresh(env: Env, events: seq<Event>)
    requires forall e :: e in events ==> NamesProject(env, e)
    requires ReplacesAfterMarking(events, true)
    ensures HandsOutCurrent(env, EMPTY, events)
  {
    MarkingFindsDirty(env, EMPTY, events, true);
    NamedRunsAreFresh(env, events);
  }

  /** The world after the first request of a session `s` for the project `projectKey`. */
  lemma FirstRequest(env: Env, projectKey: Option<string>)
    ensures var w := Step(env, EMPTY, Ask("s", projectKey, 0)).0;
      var session := Session(RootOf(env, projectKey), 0, None);
      w.router.sessions == map["s" := Record(session, 0, Context("s", projectKey, ""), None)]
      && w.router.inFlight == map[] && w.changes == EMPTY.changes
  {
    hide StartMcp, RootOf;
    var swept := Sweep(env, EMPTY, 0);
    assert IdleKeys(env, EMPTY.router, 0) == {};
    assert swept.router.sessions == map[] && swept.router.inFlight == map[] && swept.changes == EMPTY.changes;
    assert swept.registry.runtimes == map[];
    hide Sweep, EvictMcp;
  }

  /** One request, a change that does not mark its session, and the same request again. */
  lemma MissedChangeGoesStale(env: Env, projectKey: Option<string>, change: Event)
    requires env.idleTimeoutMs >= 0
    requires var w := Step(env, EMPTY, Ask("s", projectKey, 0)).0;
      var after := Step(env, w, change).0;
      after.router.sessions == w.router.sessions && ChangedAt(after.changes, RootOf(env, projectKey)) > 0
    ensures !HandsOutCurrent(env, EMPTY, [Ask("s", projectKey, 0), change, Ask("s", projectKey, 0)])
  {
    var ask := Ask("s", projectKey, 0);
    FirstRequest(env, projectKey);
    var w := Step(env, EMPTY, ask).0;
    var after := Step(env, w, change).0;
    hide Step, RootOf, Ask, HandsOutCurrent;
    StaleIsHandedOut(env, after, "s", projectKey);
    StaleAtThird(env, ask, change, ask);
  }

  lemma StaleAtThird(env: Env, ask: Event, change: Event, again: Event)
    requires var w := Step(env, EMPTY, ask).0; !HandsOutCurrent(env, Step(env, w, change).0, [again])
    ensures !HandsOutCurrent(env, EMPTY, [ask, change, again])
  {
    hide Step, IsCurrent;
    var w := Step(env, EMPTY, ask).0;
    assert [ask, change, again][1..] == [change, again] && [change, again][1..] == [again];
    assert !HandsOutCurrent(env, w, [change, again]);
  }

  /** A session that got the default project keeps its old runtime after that project's extensions changed. */
  lemma DefaultProjectGoesStale(env: Env)
    requires env.resolve(env.defaultRoot) == env.defaultRoot && env.idleTimeoutMs >= 0
    ensures var change := ProjectExtensionsChange(env.defaultRoot);
      !HandsOutCurrent(env, EMPTY, [Ask("s", None, 0), change, Ask("s", None, 0)])
  {
    FirstRequest(env, None);
    var w := Step(env, EMPTY, Ask("s", None, 0)).0;
    assert Step(env, w, ProjectExtensionsChange(env.defaultRoot)).0 == ChangeProject(w, env.defaultRoot);
    assert RootOf(env, None) == env.defaultRoot;
    assert KeysOfProject(w.router, env.defaultRoot) == {};
    hide Step, HandsOutCurrent, Ask, RootOf;
    MissedChangeGoesStale(env, None, ProjectExtensionsChange(env.defaultRoot));
  }

  /** So does a session that names its project by the resolved path, when the subsystems are replaced. */
  lemma SubsystemsGoStale(env: Env, root: string)
    requires env.resolve(root) == root && env.idleTimeoutMs >= 0
    ensures var run := [Ask("s", Some(root), 0), UpdateSubsystems, Ask("s", Some(root), 0)];
      (forall e :: e in run ==> NamesProject(env, e)) && !HandsOutCurrent(env, EMPTY, run)
  {
    FirstRequest(env, Some(root));
    var w := Step(env, EMPTY, Ask("s", Some(root), 0)).0;
    assert Step(env, w, UpdateSubsystems).0 == ReplaceSubsystems(w);
    assert NamesProject(env, Ask("s", Some(root), 0)) && NamesProject(env, UpdateSubsystems);
    hide Step, HandsOutCurrent, Ask, RootOf, NamesProject;
    MissedChangeGoesStale(env, Some(root), UpdateSubsystems);
  }
}
