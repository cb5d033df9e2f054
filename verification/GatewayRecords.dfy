/**
 What the records of sessions and the project runtimes hold after each event, and when a session was last used
 (src/gateway/SessionRouter.ts, src/cli/createLocalGateway.ts).
 */
module GatewayRecords {
  import opened Options
  import opened Gateway
  import opened GatewayFreshness
  import opened GatewayAccounting
  import opened GatewayTurns

  // ---- One record, one event

  /** The event hands the session out. */
  predicate Serves(e: Event, a: Answer, key: string) { e.Request? && e.context.sessionKey == key && a.Got? }

  /** The event is a use of the session: a request that gets it, the end of a turn, or an abort. */
  predicate Uses(e: Event, a: Answer, key: string) {
    Serves(e, a, key) || (e.End? && e.key == key) || (e.Abort? && e.key == key)
  }

  /** The event concerns the session, which has to be built again. */
  predicate MarksRecord(e: Event, r: Record) {
    match e
    case ConfigChange(classes) => exists i :: 0 <= i < |classes| && classes[i] != RestartRequired
    case ExtensionsChange => true
    case ProjectExtensionsChange(root) => r.context.projectKey == Some(root)
    case _ => false
  }

  /** A later channel replaces an earlier one, and a project is given once. */
  predicate Combines(r: Context, current: Context, next: Context) {
    && r.sessionKey == next.sessionKey
    && (match current.projectKey case Some(p) => r.projectKey == Some(p) case None => r.projectKey == next.projectKey)
    && r.channelKey == (if |next.channelKey| > 0 then next.channelKey else current.channelKey)
  }

  predicate NextRecord(e: Event, a: Answer, key: string, was: Record, becomes: Record) {
    && becomes.lastUsedAt == (if Uses(e, a, key) then e.now else was.lastUsedAt)
    && becomes.session == (if Serves(e, a, key) then a.session else was.session)
    && (IsDirty(becomes) <==> MarksRecord(e, was) || (IsDirty(was) && !Serves(e, a, key)))
    && if e.Request? && e.context.sessionKey == key then
         && Combines(becomes.context, was.context, e.context)
         && (a.Got? <==> IsDirty(was) ==> e.build == Built)
         && (a.Got? && !IsDirty(was) ==> a.session == was.session)
       else becomes.context == was.context
  }

  lemma RequestRecord(env: Env, w: World, e: Event, key: string)
    requires e.Request? && key in w.router.sessions
    ensures var (after, session) := GetAfterSweep(env, w, e.context, e.now, e.loaded, e.build);
      var a := if session.Some? then Got(session.value) else BuildFailed;
      key in after.router.sessions && NextRecord(e, a, key, w.router.sessions[key], after.router.sessions[key])
  {
    if e.context.sessionKey == key {
      var merged := MergeContext(w.router.sessions[key].context, e.context);
      PrepareSucceeds(env, EvictMcp(w.registry, {key}), merged, e.loaded, w.changes.clock, e.build);
    }
    hide Prepare, EvictMcp;
  }

  lemma MarkedRecord(env: Env, w: World, e: Event, key: string)
    requires key in w.router.sessions && (e.ConfigChange? || e.ExtensionsChange? || e.ProjectExtensionsChange?)
    ensures var (after, a) := Step(env, w, e);
      key in after.router.sessions && NextRecord(e, a, key, w.router.sessions[key], after.router.sessions[key])
  {
    hide Invalidate, Combines;
  }

  lemma PlainRecord(env: Env, w: World, e: Event, key: string)
    requires key in w.router.sessions && key !in Removed(env, w, e)
    requires !(e.Request? || e.ConfigChange? || e.ExtensionsChange? || e.ProjectExtensionsChange?)
    ensures var (after, a) := Step(env, w, e);
      key in after.router.sessions && NextRecord(e, a, key, w.router.sessions[key], after.router.sessions[key])
  {
    hide EvictMcp, Invalidate, Resolve, IdleKeys, GetOrCreate, Combines, ChangeAll, ChangeProject;
  }

  /** A record that an event does not remove changes exactly as the event says. */
  lemma RecordAfter(env: Env, w: World, e: Event, key: string)
    requires key in w.router.sessions && key !in Removed(env, w, e)
    ensures var (after, a) := Step(env, w, e);
      key in after.router.sessions && NextRecord(e, a, key, w.router.sessions[key], after.router.sessions[key])
  {
    if e.Request? {
      var swept := Sweep(env, w, e.sweepAt);
      assert key in swept.router.sessions && swept.router.sessions[key] == w.router.sessions[key];
      RequestRecord(env, swept, e, key);
      hide GetAfterSweep, Sweep, IdleKeys, NextRecord;
    } else if e.ConfigChange? || e.ExtensionsChange? || e.ProjectExtensionsChange? {
      MarkedRecord(env, w, e, key);
      hide Step, Removed, NextRecord;
    } else {
      PlainRecord(env, w, e, key);
      hide Step, Removed, NextRecord;
    }
  }

  lemma RequestMakes(env: Env, w: World, e: Event)
    requires e.Request?
    ensures var (after, session) := GetAfterSweep(env, w, e.context, e.now, e.loaded, e.build);
      var key := e.context.sessionKey;
      && (forall k :: k != key ==> (k in after.router.sessions <==> k in w.router.sessions))
      && (key !in w.router.sessions ==>
            && (session.Some? <==> e.build == Built) && (key in after.router.sessions <==> session.Some?)
            && (session.Some? ==>
                  after.router.sessions[key] == Record(session.value, e.now, e.context, None)))
  {
    PrepareSucceeds(env, w.registry, e.context, e.loaded, w.changes.clock, e.build);
    hide Prepare, EvictMcp, MergeContext;
  }

  /** Where there is no record, or none any more, only a request that builds the session makes one. */
  lemma RecordMade(env: Env, w: World, e: Event, key: string)
    requires key !in w.router.sessions || key in Removed(env, w, e)
    ensures var (after, a) := Step(env, w, e);
      && (key in after.router.sessions <==> Serves(e, a, key))
      && (Serves(e, a, key) ==>
            e.build == Built && after.router.sessions[key] == Record(a.session, e.now, e.context, None))
      && (e.Request? && e.context.sessionKey == key && e.build == Built ==> a.Got?)
  {
    if e.Request? {
      var swept := Sweep(env, w, e.sweepAt);
      assert key !in swept.router.sessions;
      RequestMakes(env, swept, e);
      hide GetAfterSweep, Sweep, IdleKeys;
    } else {
      hide EvictMcp, Invalidate, Resolve, IdleKeys, GetOrCreate;
    }
  }

  // ---- Over a run

  /** Event number `j` is the last use of the session. */
  predicate LastUse(events: seq<Event>, answers: seq<Answer>, key: string, j: nat)
    requires |events| == |answers|
  {
    && j < |events| && Uses(events[j], answers[j], key)
    && forall later :: j < later < |events| ==> !Uses(events[later], answers[later], key)
  }

  lemma LastUseMore(events: seq<Event>, answers: seq<Answer>, e: Event, a: Answer, key: string, j: nat)
    requires |events| == |answers|
    ensures LastUse(events + [e], answers + [a], key, j) <==>
      if Uses(e, a, key) then j == |events| else LastUse(events, answers, key, j)
    ensures j < |events| ==> (events + [e])[j] == events[j]
    ensures (events + [e])[|events|] == e
  {
    var more, replies := events + [e], answers + [a];
    assert forall i :: 0 <= i < |events| ==> more[i] == events[i] && replies[i] == answers[i];
    assert more[|events|] == e && replies[|events|] == a;
    hide Uses;
  }

  /** Every record bears the time of the last use of its session. */
  ghost predicate UsedAt(s: Router, events: seq<Event>, answers: seq<Answer>, key: string)
    requires |events| == |answers|
  {
    key in s.sessions ==>
      exists j: nat :: LastUse(events, answers, key, j) && s.sessions[key].lastUsedAt == events[j].now
  }

  lemma UsedMore(env: Env, w: World, events: seq<Event>, answers: seq<Answer>, e: Event, key: string)
    requires |events| == |answers| && UsedAt(w.router, events, answers, key)
    ensures var (after, a) := Step(env, w, e); UsedAt(after.router, events + [e], answers + [a], key)
  {
    var (after, a) := Step(env, w, e);
    var stays := key in w.router.sessions && key !in Removed(env, w, e);
    if stays {
      RecordAfter(env, w, e, key);
    } else {
      RecordMade(env, w, e, key);
    }
    hide Step, Removed, LastUse, IsDirty, MarksRecord, Combines;
    if key in after.router.sessions {
      if Uses(e, a, key) {
        LastUseMore(events, answers, e, a, key, |events|);
      } else {
        var j: nat :| LastUse(events, answers, key, j) && w.router.sessions[key].lastUsedAt == events[j].now;
        LastUseMore(events, answers, e, a, key, j);
        LastUseBound(events, answers, key, j);
      }
    }
  }

  lemma LastUseBound(events: seq<Event>, answers: seq<Answer>, key: string, j: nat)
    requires |events| == |answers| && LastUse(events, answers, key, j)
    ensures j < |events|
  {
  }

  /**
   In every run the record of a live session bears the time of its last use. Together with `SweepIsExact`: a sweep
   removes a session iff no turn of it is in flight and its last use is longer ago than the timeout.
   */
  lemma {:induction false} RecordsBearLastUse(env: Env, events: seq<Event>, key: string)
    ensures |Answers(env, EMPTY, events)| == |events|
    ensures UsedAt(After(env, EMPTY, events).router, events, Answers(env, EMPTY, events), key)
  {
    if events != [] {
      hide *;
      var front, last := events[..|events| - 1], events[|events| - 1];
      assert events == front + [last];
      RecordsBearLastUse(env, front, key);
      AfterMore(env, EMPTY, front, last);
      UsedMore(env, After(env, EMPTY, front), front, Answers(env, EMPTY, front), last, key);
    }
  }

  // ---- Runtimes

  /** The event drops the runtime of a project. */
  predicate DropsRuntime(e: Event, root: string) {
    match e
    case ConfigChange(classes) => exists i :: 0 <= i < |classes| && classes[i] != RestartRequired
    case ExtensionsChange => true
    case UpdateSubsystems => true
    case ProjectExtensionsChange(changed) => |changed| == 0 || changed == root
    case _ => false
  }

  /** The runtime of the project `root`, which is loaded at most once: a runtime that is there is used as it is. */
  predicate RuntimeIs(r: Registry, root: string, loaded: Loaded, clock: nat, runtime: Runtime) {
    if root in r.runtimes then runtime == r.runtimes[root] else runtime.loadedAt == clock && runtime.config == loaded
  }

  /**
   What building a session does: the runtime of its project is loaded if there is none; tool servers of its own are
   started iff the project wants them and the limit leaves room, and those the session had before are stopped; and
   there is a session iff nothing fails.
   */
  lemma PrepareMeaning(env: Env, r: Registry, c: Context, loaded: Loaded, clock: nat, build: Build)
    returns (runtime: Runtime)
    ensures var root := env.resolve(match c.projectKey case Some(p) => p case None => env.defaultRoot);
      var (after, session) := Prepare(env, r, c, loaded, clock, build);
      var serves := runtime.config.perSession && |r.live| < runtime.config.limit;
      && RuntimeIs(r, root, loaded, clock, runtime)
      && (session.Some? <==> build == Built)
      && (session.Some? ==> session.value == Session(root, runtime.loadedAt, if serves then Some(r.started) else None))
      && (forall k :: k != root ==>
            (k in after.runtimes <==> k in r.runtimes) && (k in r.runtimes ==> after.runtimes[k] == r.runtimes[k]))
      && (root in after.runtimes <==> root in r.runtimes || build != FailsToLoad)
      && (root in after.runtimes ==> after.runtimes[root] == runtime)
  {
    var root := RootOf(env, c.projectKey);
    runtime := RuntimeFor(env, r, c, loaded, clock);
    var resolved := Resolve(r, root, loaded, clock);
    assert resolved.live == r.live && resolved.started == r.started;
    hide EvictMcp;
  }

  lemma PrepareServers(env: Env, r: Registry, c: Context, loaded: Loaded, clock: nat, build: Build)
    ensures var after := Prepare(env, r, c, loaded, clock, build).0;
      var config := RuntimeFor(env, r, c, loaded, clock).config;
      if (build == Built || build == FailsAfterMcp) && config.perSession && |r.live| < config.limit then
        && after.started == r.started + 1
        && after.live == r.live[c.sessionKey := r.started]
        && after.stopped == r.stopped + (if c.sessionKey in r.live then multiset{r.live[c.sessionKey]} else multiset{})
      else after.started == r.started && after.live == r.live && after.stopped == r.stopped
  {
    var root := RootOf(env, c.projectKey);
    var resolved := Resolve(r, root, loaded, clock);
    assert resolved == r.(runtimes := resolved.runtimes);
    assert resolved.runtimes[root] == RuntimeFor(env, r, c, loaded, clock);
    hide RuntimeFor, RootOf, Resolve;
    StartServers(resolved, resolved.runtimes[root], c.sessionKey);
    hide StartMcp;
  }

  lemma StartServers(r: Registry, runtime: Runtime, key: string)
    ensures var after := StartMcp(r, runtime, key);
      if runtime.config.perSession && |r.live| < runtime.config.limit then
        && after.started == r.started + 1 && after.live == r.live[key := r.started]
        && after.stopped == r.stopped + (if key in r.live then multiset{r.live[key]} else multiset{})
      else after == r
  {
    if key in r.live {
      assert ValuesOf(r.live, {key}) == {r.live[key]};
    } else {
      assert ValuesOf(r.live, {key}) == {};
    }
    assert Dropped(r.live, {key})[key := r.started] == r.live[key := r.started];
    hide ValuesOf, Dropped;
  }

  /** A runtime stays until an event drops it, and is loaded only when there is none. */
  lemma RuntimeAfter(env: Env, w: World, e: Event, root: string)
    ensures var before, after := w.registry.runtimes, Step(env, w, e).0.registry.runtimes;
      && (DropsRuntime(e, root) ==> root !in after)
      && (!DropsRuntime(e, root) && root in before ==> root in after && after[root] == before[root])
      && (root in after && root !in before ==>
            && (e.Request? || e.ResolveProject?) && after[root].loadedAt == w.changes.clock
            && after[root].config == e.loaded
            && (e.ResolveProject? ==> env.resolve(e.projectKey.GetOr(env.defaultRoot)) == root))
      && (e.ResolveProject? && env.resolve(e.projectKey.GetOr(env.defaultRoot)) == root ==> root in after)
  {
    if e.Request? {
      RequestRuntime(env, w, e, root);
      hide GetOrCreate;
    } else {
      hide EvictMcp, IdleKeys, GetOrCreate, Marked;
    }
  }

  lemma RequestRuntime(env: Env, w: World, e: Event, root: string)
    requires e.Request?
    ensures var before, after := w.registry.runtimes, Step(env, w, e).0.registry.runtimes;
      && (root in before ==> root in after && after[root] == before[root])
      && (root in after && root !in before ==>
            after[root].loadedAt == w.changes.clock && after[root].config == e.loaded)
  {
    var swept, key := Sweep(env, w, e.sweepAt), e.context.sessionKey;
    assert swept.registry.runtimes == w.registry.runtimes && swept.changes == w.changes;
    var evicted := EvictMcp(swept.registry, {key});
    assert evicted.runtimes == w.registry.runtimes;
    hide Sweep, EvictMcp, Prepare, RootOf;
    if key in swept.router.sessions {
      var merged := MergeContext(swept.router.sessions[key].context, e.context);
      var runtime := PrepareMeaning(env, evicted, merged, e.loaded, w.changes.clock, e.build);
    } else {
      var runtime := PrepareMeaning(env, swept.registry, e.context, e.loaded, w.changes.clock, e.build);
    }
  }

  /** The event changes what a session of the project is built from. */
  predicate Concerns(e: Event, root: string) {
    match e
    case ConfigChange(classes) => exists i :: 0 <= i < |classes| && classes[i] != RestartRequired
    case ExtensionsChange => true
    case UpdateSubsystems => true
    case ProjectExtensionsChange(changed) => changed == root
    case _ => false
  }

  /** Every change is counted, for exactly the projects it concerns; and it drops their runtimes. */
  lemma ChangeIsCounted(env: Env, w: World, e: Event, root: string)
    requires ClockLeads(w.changes)
    ensures var after := Step(env, w, e).0.changes;
      && ChangedAt(after, root) == (if Concerns(e, root) then w.changes.clock + 1 else ChangedAt(w.changes, root))
      && (Concerns(e, root) ==> after.clock == w.changes.clock + 1 && DropsRuntime(e, root))
  {
    hide EvictMcp, IdleKeys, Invalidate, Resolve, Prepare, Marked;
  }
}
