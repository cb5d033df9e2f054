/**
 The session cache of the gateway and the registry of project runtimes behind it
 (src/gateway/SessionRouter.ts, src/cli/createLocalGateway.ts).

 The state of both is a value `World`; every operation is a function on it. Building a session is one
 atomic step: its configuration, whether it fails, and how far it gets are part of the event. A clock counts
 configuration changes, and every runtime remembers at which count it was loaded.
 */
module Gateway {
  import opened Options

  datatype Context = Context(sessionKey: string, projectKey: Option<string>, channelKey: string)

  /** A session, by the runtime it was built from and the tool servers of its own that it got, if any. */
  datatype Session = Session(root: string, loadedAt: nat, servers: Option<nat>)

  datatype Record = Record(session: Session, lastUsedAt: int, context: Context, dirty: Option<string>)

  /** What loading the configuration of a project yields. */
  datatype Loaded = Loaded(perSession: bool, limit: int)

  datatype Runtime = Runtime(loadedAt: nat, config: Loaded)

  /** How far building a session gets. */
  datatype Build = Built | FailsToLoad | FailsBeforeMcp | FailsAfterMcp

  /** The project runtimes, and the tool-server runtimes of single sessions: `live` by session key, the
      numbers of those that were stopped, and how many were ever started. */
  datatype Registry = Registry(
    runtimes: map<string, Runtime>,
    live: map<string, nat>,
    stopped: multiset<nat>,
    started: nat)

  /** The session records, the turns in flight, and the keys the evict callback was called with. */
  datatype Router = Router(
    sessions: map<string, Record>,
    inFlight: map<string, string>,
    evicted: multiset<string>)

  /** When the configuration last changed, for all projects and for single ones. */
  datatype Changes = Changes(clock: nat, global: nat, project: map<string, nat>)

  datatype World = World(router: Router, registry: Registry, changes: Changes)

  datatype Env = Env(resolve: string -> string, defaultRoot: string, idleTimeoutMs: int)

  const EMPTY := World(Router(map[], map[], multiset{}), Registry(map[], map[], multiset{}, 0), Changes(0, 0, map[]))

  function RootOf(env: Env, projectKey: Option<string>): string {
    env.resolve(projectKey.GetOr(env.defaultRoot))
  }

  function ChangedAt(c: Changes, root: string): nat {
    if root in c.project && c.project[root] > c.global then c.project[root] else c.global
  }

  /** The keys of a context never change once set, except that a later channel replaces an earlier one. */
  function MergeContext(current: Context, next: Context): Context {
    Context(next.sessionKey,
            if current.projectKey.Some? then current.projectKey else next.projectKey,
            if next.channelKey != "" then next.channelKey else current.channelKey)
  }

  // ---- The registry

  function ValuesOf(m: map<string, nat>, keys: set<string>): set<nat> {
    set k | k in m && k in keys :: m[k]
  }

  function Dropped(m: map<string, nat>, keys: set<string>): map<string, nat> {
    map k | k in m && k !in keys :: m[k]
  }

  /** Stops the tool servers of the sessions in `keys`. */
  function EvictMcp(r: Registry, keys: set<string>): Registry {
    r.(live := Dropped(r.live, keys),
       stopped := r.stopped + multiset(ValuesOf(r.live, keys)))
  }

  function StopAll(r: Registry): Registry {
    r.(live := map[], stopped := r.stopped + multiset(r.live.Values))
  }

  /** Drops the runtime of one project, or all of them; either way every session's tool servers stop. */
  function Invalidate(r: Registry, root: Option<string>): Registry {
    if root.Some? && root.value != "" then StopAll(r).(runtimes := r.runtimes - {root.value})
    else StopAll(r).(runtimes := map[])
  }

  function Resolve(r: Registry, root: string, loaded: Loaded, clock: nat): Registry {
    if root in r.runtimes then r else r.(runtimes := r.runtimes[root := Runtime(clock, loaded)])
  }

  /** The project wants tool servers for every session, and the limit allows for one more. */
  predicate StartsServers(r: Registry, runtime: Runtime) {
    runtime.config.perSession && |r.live| < runtime.config.limit
  }

  /** Starts tool servers of its own for a session. */
  function StartMcp(r: Registry, runtime: Runtime, key: string): Registry {
    if StartsServers(r, runtime) then AddServers(EvictMcp(r, {key}), key) else r
  }

  function AddServers(r: Registry, key: string): Registry {
    r.(live := r.live[key := r.started], started := r.started + 1)
  }

  /** Builds the runtime part of a session. */
  function Prepare(env: Env, r: Registry, c: Context, loaded: Loaded, clock: nat, build: Build)
    : (Registry, Option<Session>)
  {
    var root := RootOf(env, c.projectKey);
    if root !in r.runtimes && build == FailsToLoad then (r, None)
    else
      var resolved := Resolve(r, root, loaded, clock);
      var runtime := resolved.runtimes[root];
      if build == FailsToLoad || build == FailsBeforeMcp then (resolved, None)
      else
        var ready := StartMcp(resolved, runtime, c.sessionKey);
        var servers := if StartsServers(resolved, runtime) then Some(resolved.started) else None;
        (ready, if build == Built then Some(Session(root, runtime.loadedAt, servers)) else None)
  }

  // ---- The session router

  predicate Idle(env: Env, s: Router, key: string, now: int)
    requires key in s.sessions
  {
    key !in s.inFlight && now - s.sessions[key].lastUsedAt > env.idleTimeoutMs
  }

  /** Removes the sessions in `keys`; the evict callback stops their tool servers. */
  function Remove(w: World, keys: set<string>): World
    requires keys <= w.router.sessions.Keys
  {
    w.(router := w.router.(sessions := w.router.sessions - keys, evicted := w.router.evicted + multiset(keys)),
       registry := EvictMcp(w.registry, keys))
  }

  function IdleKeys(env: Env, s: Router, now: int): set<string> {
    set k | k in s.sessions && Idle(env, s, k, now)
  }

  function Sweep(env: Env, w: World, now: int): World {
    Remove(w, IdleKeys(env, w.router, now))
  }

  function PutRecord(w: World, key: string, record: Record): World {
    w.(router := w.router.(sessions := w.router.sessions[key := record]))
  }

  /** The rest of `getOrCreate` after the sweep; `now` is the time at its end. */
  function GetAfterSweep(env: Env, w: World, c: Context, now: int, loaded: Loaded, build: Build)
    : (World, Option<Session>)
  {
    var key, clock := c.sessionKey, w.changes.clock;
    if key in w.router.sessions then
      var cached := w.router.sessions[key].(context := MergeContext(w.router.sessions[key].context, c));
      if cached.dirty.Some? && cached.dirty.value != "" then
        var evicted := w.(router := w.router.(evicted := w.router.evicted + multiset{key}),
                          registry := EvictMcp(w.registry, {key}));
        var (registry, session) := Prepare(env, evicted.registry, cached.context, loaded, clock, build);
        var prepared := evicted.(registry := registry);
        if session.None? then (PutRecord(prepared, key, cached), None)
        else (PutRecord(prepared, key, Record(session.value, now, cached.context, None)), session)
      else (PutRecord(w, key, cached.(lastUsedAt := now)), Some(cached.session))
    else
      var (registry, session) := Prepare(env, w.registry, c, loaded, clock, build);
      var prepared := w.(registry := registry);
      if session.None? then (prepared, None)
      else (PutRecord(prepared, key, Record(session.value, now, c, None)), session)
  }

  function GetOrCreate(env: Env, w: World, c: Context, sweepAt: int, now: int, loaded: Loaded, build: Build)
    : (World, Option<Session>)
  {
    GetAfterSweep(env, Sweep(env, w, sweepAt), c, now, loaded, build)
  }

  function Touch(s: Router, key: string, now: int): Router {
    if key in s.sessions then s.(sessions := s.sessions[key := s.sessions[key].(lastUsedAt := now)]) else s
  }

  function BeginTurn(env: Env, w: World, key: string, runId: string, now: int): (World, bool) {
    var swept := Sweep(env, w, now);
    if key in swept.router.inFlight then (swept, false)
    else (swept.(router := swept.router.(inFlight := swept.router.inFlight[key := runId])), true)
  }

  /** Without a run id the slot is freed whoever holds it. */
  function EndTurn(s: Router, key: string, runId: Option<string>, now: int): Router {
    var frees := runId.None? || runId.value == "" || (key in s.inFlight && s.inFlight[key] == runId.value);
    Touch(if frees then s.(inFlight := s.inFlight - {key}) else s, key, now)
  }

  function Close(w: World, key: string): World {
    if key in w.router.sessions then Remove(w, {key}) else w
  }

  function Marked(sessions: map<string, Record>, keys: set<string>, reason: string): map<string, Record> {
    map k | k in sessions :: if k in keys then sessions[k].(dirty := Some(reason)) else sessions[k]
  }

  function MarkDirty(s: Router, keys: set<string>, reason: string): Router
    requires keys <= s.sessions.Keys
  {
    s.(sessions := Marked(s.sessions, keys, reason))
  }

  function KeysOfProject(s: Router, projectKey: string): set<string> {
    set k | k in s.sessions && s.sessions[k].context.projectKey == Some(projectKey)
  }

  // ---- Changes of the configuration

  datatype ChangeClass = RestartRequired | Reloadable

  /** An empty change and one that only a restart can apply are ignored. */
  predicate Applies(classes: seq<ChangeClass>) {
    Reloadable in classes
  }

  function ChangeAll(w: World, reason: string): World {
    var clock := w.changes.clock + 1;
    World(MarkDirty(w.router, w.router.sessions.Keys, reason), Invalidate(w.registry, None),
          Changes(clock, clock, w.changes.project))
  }

  function ChangeProject(w: World, root: string): World {
    var clock := w.changes.clock + 1;
    World(MarkDirty(w.router, KeysOfProject(w.router, root), "extension_changed"), Invalidate(w.registry, Some(root)),
          Changes(clock, w.changes.global, w.changes.project[root := clock]))
  }

  /** New tools and session overrides for every project; the runtimes are dropped, but no session is marked. */
  function ReplaceSubsystems(w: World): World {
    var clock := w.changes.clock + 1;
    World(w.router, Invalidate(w.registry, None), Changes(clock, clock, w.changes.project))
  }

  // ---- Runs

  datatype Event =
    | Request(context: Context, sweepAt: int, now: int, loaded: Loaded, build: Build)
    | Begin(key: string, runId: string, now: int)
    | End(key: string, endedRun: Option<string>, now: int)
    | Abort(key: string, now: int)
    | CloseSession(key: string)
    | CountSessions(now: int)
    | ConfigChange(classes: seq<ChangeClass>)
    | ExtensionsChange
    | ProjectExtensionsChange(root: string)
    | UpdateSubsystems
    | ResolveProject(projectKey: Option<string>, loaded: Loaded)

  datatype Answer = Got(session: Session) | BuildFailed | Began(ok: bool) | Done

  function Step(env: Env, w: World, e: Event): (World, Answer) {
    match e
    case Request(c, sweepAt, now, loaded, build) =>
      var (after, session) := GetOrCreate(env, w, c, sweepAt, now, loaded, build);
      (after, if session.Some? then Got(session.value) else BuildFailed)
    case Begin(key, runId, now) =>
      var (after, ok) := BeginTurn(env, w, key, runId, now);
      (after, Began(ok))
    case End(key, runId, now) => (w.(router := EndTurn(w.router, key, runId, now)), Done)
    case Abort(key, now) => (w.(router := Touch(w.router, key, now)), Done)
    case CloseSession(key) => (Close(w, key), Done)
    case CountSessions(now) => (Sweep(env, w, now), Done)
    case ConfigChange(classes) => (if Applies(classes) then ChangeAll(w, "config_changed") else w, Done)
    case ExtensionsChange => (ChangeAll(w, "extension_changed"), Done)
    case ProjectExtensionsChange(root) => (ChangeProject(w, root), Done)
    case UpdateSubsystems => (ReplaceSubsystems(w), Done)
    case ResolveProject(projectKey, loaded) =>
      (w.(registry := Resolve(w.registry, RootOf(env, projectKey), loaded, w.changes.clock)), Done)
  }

  function After(env: Env, w: World, events: seq<Event>): World
    decreases events
  {
    if events == [] then w else After(env, Step(env, w, events[0]).0, events[1..])
  }

  function Answers(env: Env, w: World, events: seq<Event>): seq<Answer>
    decreases events
  {
    if events == [] then [] else [Step(env, w, events[0]).1] + Answers(env, Step(env, w, events[0]).0, events[1..])
  }
}
