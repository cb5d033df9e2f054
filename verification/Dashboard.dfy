/**
 The routing dashboard of ui/server/pilotdeck-bridge.js: records are merged into sessions, sessions into projects,
 projects into an overall total, and sessions again into a lifetime summary. Every table built on the way is shown
 to be the grouping of exactly the records behind it, so nothing is lost or counted twice.
 */
module Dashboard {
  import opened Options
  import opened Buckets

  // ---- Which records belong to which session

  predicate Contains(s: string, part: string) {
    part <= s || (s != "" && Contains(s[1..], part))
  }

  predicate IsSubSession(r: Rec) { r.sessionId.Some? && Contains(r.sessionId.value, "::sub::") }

  function Kept(rs: seq<Rec>): seq<Rec> {
    if rs == [] then []
    else Kept(rs[..|rs| - 1]) + (if IsSubSession(rs[|rs| - 1]) then [] else [rs[|rs| - 1]])
  }

  type SessionId = Option<string>

  function OfSession(rs: seq<Rec>, id: SessionId): seq<Rec> {
    if rs == [] then []
    else
      var last := rs[|rs| - 1];
      OfSession(rs[..|rs| - 1], id) + (if !IsSubSession(last) && last.sessionId == id then [last] else [])
  }

  /** The sessions in the order in which they first appear. */
  function SessionIds(rs: seq<Rec>): seq<SessionId> {
    if rs == [] then []
    else
      var before, last := SessionIds(rs[..|rs| - 1]), rs[|rs| - 1];
      if IsSubSession(last) || last.sessionId in before then before else before + [last.sessionId]
  }

  predicate Distinct<T(==)>(s: seq<T>) { forall i, j :: 0 <= i < j < |s| ==> s[i] != s[j] }

  lemma {:induction false} SessionIdsDistinct(rs: seq<Rec>)
    ensures Distinct(SessionIds(rs))
  {
    if rs != [] {
      SessionIdsDistinct(rs[..|rs| - 1]);
    }
  }

  lemma {:induction false} UnseenSession(rs: seq<Rec>, id: SessionId)
    ensures OfSession(rs, id) == [] <==> id !in SessionIds(rs)
  {
    hide IsSubSession;
    if rs != [] {
      UnseenSession(rs[..|rs| - 1], id);
    }
  }

  lemma OneMore(rs: seq<Rec>, r: Rec, id: SessionId)
    ensures Kept(rs + [r]) == Kept(rs) + (if IsSubSession(r) then [] else [r])
    ensures OfSession(rs + [r], id)
         == OfSession(rs, id) + (if !IsSubSession(r) && r.sessionId == id then [r] else [])
    ensures SessionIds(rs + [r])
         == if IsSubSession(r) || r.sessionId in SessionIds(rs) then SessionIds(rs)
            else SessionIds(rs) + [r.sessionId]
  {
    hide IsSubSession;
    assert (rs + [r])[..|rs|] == rs;
  }

  // ---- One session

  datatype LogEntry = LogEntry(role: string, tier: string, model: string, query: Option<string>,
                               tokens: int, cost: Cost)

  function LogOf(r: Rec): LogEntry {
    var baseline := r.baselineCost.GetOr(r.cost);
    LogEntry(
      if r.role == "subagent" then "sub" else "main",
      OrElse(r.tier, r.scenarioType),
      ModelKey(r),
      if r.role == "subagent" then Some("sub-agent") else None,
      TotalTokens(r),
      Cost(r.cost, baseline, baseline - r.cost))
  }

  function Log(rs: seq<Rec>): seq<LogEntry> {
    if rs == [] then [] else Log(rs[..|rs| - 1]) + [LogOf(rs[|rs| - 1])]
  }

  class SessionEntry {
    const sessionId: SessionId
    var total: Bucket
    var byTier: Table
    var byScenario: Table
    var byRole: Table
    var byModel: Table
    var requestLog: seq<LogEntry>

    constructor (sessionId: SessionId)
      ensures this.sessionId == sessionId
      ensures total == EMPTY && requestLog == []
      ensures byTier == byScenario == byRole == byModel == map[]
      ensures Reflects([])
    {
      this.sessionId := sessionId;
      total, requestLog := EMPTY, [];
      byTier, byScenario, byRole, byModel := map[], map[], map[], map[];
    }

    /** The session holds the figures of exactly the records `rs`. */
    ghost predicate Reflects(rs: seq<Rec>)
      reads this
    {
      total == Sum(rs) && byTier == Group(rs, ByTier) && byScenario == Group(rs, ByScenario)
      && byRole == Group(rs, ByRole) && byModel == Group(rs, ByModel) && requestLog == Log(rs)
    }

    /** `mergeRecordIntoSession`: adds one record to the total and to one bucket of every table. */
    method MergeRecord(r: Rec)
      modifies this
      ensures requestLog == old(requestLog)
      ensures total == Add(old(total), Contribution(r))
      ensures byTier == Upsert(old(byTier), KeyOf(ByTier, r), Contribution(r))
      ensures byScenario == Upsert(old(byScenario), KeyOf(ByScenario, r), Contribution(r))
      ensures byRole == Upsert(old(byRole), KeyOf(ByRole, r), Contribution(r))
      ensures byModel == Upsert(old(byModel), KeyOf(ByModel, r), Contribution(r))
    {
      hide Add, Upsert;
      var baseline := r.baselineCost.GetOr(r.cost);
      var tokens := Tokens(r.usage.input, r.usage.output, r.usage.cacheRead,
                           r.usage.total.GetOr(r.usage.input + r.usage.output));
      var bucket := Bucket(tokens, 1, Cost(r.cost, baseline, baseline - r.cost));
      total := Add(total, bucket);
      var tierKey := OrElse(r.tier, OrElse(r.scenarioType, "default"));
      byTier := Upsert(byTier, tierKey, bucket);
      var scenarioKey := OrElse(r.scenarioType, "default");
      byScenario := Upsert(byScenario, scenarioKey, bucket);
      var roleKey := if r.resolvedFrom == "subagent" then "sub" else "main";
      byRole := Upsert(byRole, roleKey, bucket);
      var modelKey := OrElse(r.provider, "unknown") + "/" + OrElse(r.model, "unknown");
      byModel := Upsert(byModel, modelKey, bucket);
    }

    /** Logs and merges one record. */
    method Take(r: Rec, ghost rs: seq<Rec>)
      requires Reflects(rs)
      modifies this
      ensures Reflects(rs + [r])
    {
      hide Add, Upsert, Contribution, KeyOf, Sum, Group, LogOf;
      SumMore(rs, r);
      GroupMore(rs, r, ByTier);
      GroupMore(rs, r, ByScenario);
      GroupMore(rs, r, ByRole);
      GroupMore(rs, r, ByModel);
      assert (rs + [r])[..|rs|] == rs;
      requestLog := requestLog + [LogOf(r)];
      MergeRecord(r);
    }
  }

  function LogCost(log: seq<LogEntry>): Cost {
    if log == [] then Cost(0, 0, 0) else AddCost(LogCost(log[..|log| - 1]), log[|log| - 1].cost)
  }

  function LogTokens(log: seq<LogEntry>): int {
    if log == [] then 0 else LogTokens(log[..|log| - 1]) + log[|log| - 1].tokens
  }

  lemma LogLast(r: Rec)
    ensures LogOf(r).cost == Contribution(r).cost && LogOf(r).tokens == Contribution(r).tokens.total
    ensures Contribution(r).requests == 1
  {
  }

  /** A session's request log, its total and every breakdown agree. */
  lemma {:induction false} LogAddsUp(rs: seq<Rec>)
    ensures |Log(rs)| == |rs| == Sum(rs).requests
    ensures LogCost(Log(rs)) == Sum(rs).cost
    ensures LogTokens(Log(rs)) == Sum(rs).tokens.total
  {
    if rs != [] {
      var front, last := rs[..|rs| - 1], rs[|rs| - 1];
      LogAddsUp(front);
      assert Log(rs) == Log(front) + [LogOf(last)];
      assert Log(rs)[..|Log(rs)| - 1] == Log(front);
      assert Sum(rs) == Add(Sum(front), Contribution(last));
      LogLast(last);
      hide Log, Sum, Contribution, LogOf, Group;
    }
  }

  // ---- Splitting the records into sessions loses nothing

  function SumOver(ids: seq<SessionId>, rs: seq<Rec>): Bucket {
    if ids == [] then EMPTY
    else Add(SumOver(ids[..|ids| - 1], rs), Sum(OfSession(rs, ids[|ids| - 1])))
  }

  function GroupOver(ids: seq<SessionId>, rs: seq<Rec>, d: Dim): Table {
    if ids == [] then map[]
    else Merge(GroupOver(ids[..|ids| - 1], rs, d), Group(OfSession(rs, ids[|ids| - 1]), d))
  }

  lemma {:induction false} SumOverMore(ids: seq<SessionId>, rs: seq<Rec>, r: Rec)
    requires Distinct(ids)
    ensures SumOver(ids, rs + [r])
         == if !IsSubSession(r) && r.sessionId in ids then Add(SumOver(ids, rs), Contribution(r))
            else SumOver(ids, rs)
  {
    hide Add, Contribution, IsSubSession, OfSession, Sum, SessionIds;
    if ids != [] {
      var front, id := ids[..|ids| - 1], ids[|ids| - 1];
      assert ids == front + [id] && id !in front;
      SumOverMore(front, rs, r);
      OneMore(rs, r, id);
      var mine := OfSession(rs, id);
      SumMore(mine, r);
      assert mine + [] == mine;
      AddLaws(SumOver(front, rs), Sum(mine), Contribution(r));
      AddLaws(SumOver(front, rs), Contribution(r), Sum(mine));
      AddLaws(Contribution(r), Sum(mine), Sum(mine));
    }
  }

  lemma {:induction false} GroupOverMore(ids: seq<SessionId>, rs: seq<Rec>, r: Rec, d: Dim)
    requires Distinct(ids)
    ensures GroupOver(ids, rs + [r], d)
         == if !IsSubSession(r) && r.sessionId in ids then Upsert(GroupOver(ids, rs, d), KeyOf(d, r), Contribution(r))
            else GroupOver(ids, rs, d)
  {
    hide Add, Upsert, Merge, Contribution, KeyOf, IsSubSession, OfSession, Group, SessionIds;
    if ids != [] {
      var front, id := ids[..|ids| - 1], ids[|ids| - 1];
      assert ids == front + [id] && id !in front;
      GroupOverMore(front, rs, r, d);
      OneMore(rs, r, id);
      var mine := OfSession(rs, id);
      GroupMore(mine, r, d);
      assert mine + [] == mine;
      UpsertMerge(GroupOver(front, rs, d), Group(mine, d), KeyOf(d, r), Contribution(r));
    }
  }

  lemma NewSession(ids: seq<SessionId>, rs: seq<Rec>, id: SessionId, d: Dim)
    ensures SumOver(ids + [id], rs) == Add(SumOver(ids, rs), Sum(OfSession(rs, id)))
    ensures GroupOver(ids + [id], rs, d) == Merge(GroupOver(ids, rs, d), Group(OfSession(rs, id), d))
  {
    assert (ids + [id])[..|ids|] == ids;
    hide Add, Merge, Sum, Group, OfSession;
  }

  lemma FirstOfSession(rs: seq<Rec>, r: Rec, d: Dim)
    requires !IsSubSession(r) && r.sessionId !in SessionIds(rs)
    ensures Sum(OfSession(rs + [r], r.sessionId)) == Contribution(r)
    ensures Group(OfSession(rs + [r], r.sessionId), d) == Upsert(map[], KeyOf(d, r), Contribution(r))
  {
    OneMore(rs, r, r.sessionId);
    UnseenSession(rs, r.sessionId);
    var none: seq<Rec> := [];
    SumMore(none, r);
    GroupMore(none, r, d);
    AddEmpty(Contribution(r));
    assert Sum(none) == EMPTY && Group(none, d) == map[];
    hide Add, Upsert, KeyOf, Contribution, IsSubSession, OfSession, Sum, Group, SessionIds;
    assert none + [r] == [r];
  }

  lemma SumOverStep(rs: seq<Rec>, r: Rec)
    ensures SumOver(SessionIds(rs + [r]), rs + [r])
         == if IsSubSession(r) then SumOver(SessionIds(rs), rs) else Add(SumOver(SessionIds(rs), rs), Contribution(r))
  {
    hide *;
    var ids := SessionIds(rs);
    OneMore(rs, r, r.sessionId);
    SessionIdsDistinct(rs);
    SumOverMore(ids, rs, r);
    if !IsSubSession(r) && r.sessionId !in ids {
      NewSession(ids, rs + [r], r.sessionId, ByTier);
      FirstOfSession(rs, r, ByTier);
    }
  }

  lemma GroupOverStep(rs: seq<Rec>, r: Rec, d: Dim)
    ensures GroupOver(SessionIds(rs + [r]), rs + [r], d)
         == if IsSubSession(r) then GroupOver(SessionIds(rs), rs, d)
            else Upsert(GroupOver(SessionIds(rs), rs, d), KeyOf(d, r), Contribution(r))
  {
    hide *;
    var ids := SessionIds(rs);
    OneMore(rs, r, r.sessionId);
    SessionIdsDistinct(rs);
    GroupOverMore(ids, rs, r, d);
    if !IsSubSession(r) && r.sessionId !in ids {
      NewSession(ids, rs + [r], r.sessionId, d);
      FirstOfSession(rs, r, d);
      UpsertMerge(GroupOver(ids, rs, d), map[], KeyOf(d, r), Contribution(r));
      MergeEmpty(GroupOver(ids, rs, d));
    }
  }

  lemma NoRecords(d: Dim)
    ensures SumOver(SessionIds([]), []) == EMPTY == Sum(Kept([]))
    ensures GroupOver(SessionIds([]), [], d) == map[] == Group(Kept([]), d)
  {
    var ids := SessionIds([]);
    assert ids == [] && Kept([]) == [];
    hide OfSession;
  }

  /** The sessions' totals add up to the sum of all records that are kept. */
  lemma {:induction false} SessionsConserve(rs: seq<Rec>)
    ensures SumOver(SessionIds(rs), rs) == Sum(Kept(rs))
  {
    hide *;
    if rs == [] {
      NoRecords(ByTier);
    } else {
      var front, last := rs[..|rs| - 1], rs[|rs| - 1];
      assert rs == front + [last];
      SessionsConserve(front);
      SumOverStep(front, last);
      OneMore(front, last, last.sessionId);
      SumMore(Kept(front), last);
      assert Kept(front) + [] == Kept(front);
    }
  }

  /** In every dimension the sessions' tables merge into the grouping of all records that are kept. */
  lemma {:induction false} SessionsRegroup(rs: seq<Rec>, d: Dim)
    ensures GroupOver(SessionIds(rs), rs, d) == Group(Kept(rs), d)
  {
    hide *;
    if rs == [] {
      NoRecords(d);
    } else {
      var front, last := rs[..|rs| - 1], rs[|rs| - 1];
      assert rs == front + [last];
      SessionsRegroup(front, d);
      GroupOverStep(front, last, d);
      OneMore(front, last, last.sessionId);
      GroupMore(Kept(front), last, d);
      assert Kept(front) + [] == Kept(front);
    }
  }

  // ---- Adding tables up

  /** Adds every bucket of one table to the bucket of the same key in another. */
  method AddEntries(target: Table, source: Table) returns (r: Table)
    ensures r == Merge(target, source)
  {
    hide Add, Upsert, Merge;
    r := target;
    var rest := source.Keys;
    ghost var done: Table := map[];
    MergeEmpty(target);
    while rest != {}
      invariant rest <= source.Keys
      invariant done == source - rest
      invariant r == Merge(target, done)
      decreases rest
    {
      var k :| k in rest;
      r := Upsert(r, k, source[k]);
      FreshEntry(done, k, source[k]);
      UpsertMerge(target, done, k, source[k]);
      done := done[k := source[k]];
      rest := rest - {k};
    }
    assert source - {} == source;
  }

  lemma FreshEntry(m: Table, k: string, b: Bucket)
    requires k !in m
    ensures Upsert(m, k, b) == m[k := b]
  {
    AddEmpty(b);
  }

  /** The entries of a table of models that belong to one provider. */
  function EntriesOf(m: Table, provider: string): Table {
    map k | k in m && ProviderOf(k) == provider :: m[k]
  }

  ghost function ByProviderOf(m: Table): Table {
    map p | p in (set k | k in m :: ProviderOf(k)) :: Total(EntriesOf(m, p))
  }

  lemma EntriesUpsert(m: Table, k: string, b: Bucket, p: string)
    ensures EntriesOf(Upsert(m, k, b), p)
         == if p == ProviderOf(k) then Upsert(EntriesOf(m, p), k, b) else EntriesOf(m, p)
  {
    hide Add, ProviderOf;
  }

  lemma ProviderKeys(m: Table, k: string, b: Bucket)
    ensures ByProviderOf(Upsert(m, k, b)).Keys == ByProviderOf(m).Keys + {ProviderOf(k)}
  {
    hide Add, ProviderOf, Total, EntriesOf;
    var after := Upsert(m, k, b);
    assert k in after;
    forall p
      ensures p in ByProviderOf(after) <==> p in ByProviderOf(m) || p == ProviderOf(k)
    {
      if p in ByProviderOf(m) {
        var j :| j in m && ProviderOf(j) == p;
        assert j in after;
      }
    }
  }

  lemma EmptyProvider(m: Table, p: string)
    ensures Get(ByProviderOf(m), p) == Total(EntriesOf(m, p))
  {
    hide Add, ProviderOf;
    if p !in ByProviderOf(m) {
      assert EntriesOf(m, p) == map[];
    }
  }

  lemma ProviderUpsert(m: Table, k: string, b: Bucket)
    ensures ByProviderOf(Upsert(m, k, b)) == Upsert(ByProviderOf(m), ProviderOf(k), b)
  {
    ProviderKeys(m, k, b);
    hide Add, ProviderOf, Total, EntriesOf;
    var after := Upsert(m, k, b);
    forall p | p in ByProviderOf(after)
      ensures ByProviderOf(after)[p] == Upsert(ByProviderOf(m), ProviderOf(k), b)[p]
    {
      EmptyProvider(m, p);
      EmptyProvider(after, p);
      EntriesUpsert(m, k, b, p);
      TotalUpsert(EntriesOf(m, p), k, b);
      hide Upsert, ByProviderOf;
    }
  }

  /** Regrouping the model buckets by provider equals grouping the records by provider. */
  lemma {:induction false} RegroupByProvider(rs: seq<Rec>)
    ensures ByProviderOf(Group(rs, ByModel)) == Group(rs, ByProvider)
  {
    if rs != [] {
      var front, last := rs[..|rs| - 1], rs[|rs| - 1];
      RegroupByProvider(front);
      ProviderUpsert(Group(front, ByModel), KeyOf(ByModel, last), Contribution(last));
      assert KeyOf(ByProvider, last) == ProviderOf(KeyOf(ByModel, last));
      hide Add, Upsert, ProviderOf, KeyOf, Contribution, ByProviderOf;
    } else {
      assert Group(rs, ByModel) == map[] && Group(rs, ByProvider) == map[];
      assert ByProviderOf(map[]) == map[];
    }
  }

  /** Adds every model's bucket to the bucket of the provider before its first slash. */
  method AddProviders(target: Table, byModel: Table) returns (r: Table)
    ensures r == Merge(target, ByProviderOf(byModel))
  {
    hide Add, Upsert, Merge, ProviderOf;
    r := target;
    var rest := byModel.Keys;
    ghost var done: Table := map[];
    MergeEmpty(target);
    assert ByProviderOf(done) == map[];
    hide ByProviderOf;
    while rest != {}
      invariant rest <= byModel.Keys
      invariant done == byModel - rest
      invariant r == Merge(target, ByProviderOf(done))
      decreases rest
    {
      var k :| k in rest;
      r := Upsert(r, ProviderOf(k), byModel[k]);
      FreshEntry(done, k, byModel[k]);
      ProviderUpsert(done, k, byModel[k]);
      UpsertMerge(target, ByProviderOf(done), ProviderOf(k), byModel[k]);
      done := done[k := byModel[k]];
      rest := rest - {k};
    }
    assert byModel - {} == byModel;
  }

  // ---- One project

  datatype Project = Project(key: string, sessions: seq<SessionEntry>,
                             total: Bucket, byTier: Table, byRole: Table)

  /** One object per session, in order of first appearance, each reflecting its own records. */
  ghost predicate SessionsReflect(sessions: seq<SessionEntry>, rs: seq<Rec>)
    reads sessions
  {
    && |sessions| == |SessionIds(rs)|
    && forall i :: 0 <= i < |sessions| ==>
         sessions[i].sessionId == SessionIds(rs)[i] && sessions[i].Reflects(OfSession(rs, sessions[i].sessionId))
  }

  ghost predicate Summarises(p: Project, rs: seq<Rec>)
    reads p.sessions
  {
    && SessionsReflect(p.sessions, rs)
    && p.total == Sum(Kept(rs))
    && p.byTier == Group(Kept(rs), ByTier)
    && p.byRole == Group(Kept(rs), ByRole)
  }

  lemma SessionFigures(sessions: seq<SessionEntry>, rs: seq<Rec>, i: nat)
    requires SessionsReflect(sessions, rs) && i < |sessions|
    ensures |sessions| == |SessionIds(rs)|
    ensures sessions[i].Reflects(OfSession(rs, SessionIds(rs)[i]))
    ensures var r, mine := sessions[i], OfSession(rs, SessionIds(rs)[i]);
      r.total == Sum(mine) && r.byTier == Group(mine, ByTier) && r.byScenario == Group(mine, ByScenario)
      && r.byRole == Group(mine, ByRole) && r.byModel == Group(mine, ByModel)
  {
    hide SessionIds, OfSession, Sum, Group, Log;
  }

  lemma SessionCount(sessions: seq<SessionEntry>, rs: seq<Rec>)
    requires SessionsReflect(sessions, rs)
    ensures |sessions| == |SessionIds(rs)|
  {
  }

  lemma MakeSummary(p: Project, rs: seq<Rec>)
    requires SessionsReflect(p.sessions, rs) && p.total == Sum(Kept(rs))
    requires p.byTier == Group(Kept(rs), ByTier) && p.byRole == Group(Kept(rs), ByRole)
    ensures Summarises(p, rs)
  {
    hide SessionsReflect, Sum, Group, Kept;
  }

  lemma ProjectSessions(p: Project, rs: seq<Rec>)
    requires Summarises(p, rs)
    ensures SessionsReflect(p.sessions, rs)
  {
    hide SessionsReflect, Sum, Group, Kept;
  }

  lemma NoSessions(rs: seq<Rec>, d: Dim)
    ensures SumOver([], rs) == EMPTY && GroupOver([], rs, d) == map[]
  {
  }

  lemma NoProjects(d: Dim)
    ensures Sum(AllKept([])) == EMPTY && Group(AllKept([]), d) == map[] && CountSessions([]) == 0
  {
  }

  /** The first loop of a project: every record that is kept goes to its session, which is made on first use. */
  method CollectSessions(records: seq<Rec>) returns (sessions: seq<SessionEntry>)
    ensures SessionsReflect(sessions, records)
    ensures forall i :: 0 <= i < |sessions| ==> fresh(sessions[i])
    ensures forall i, j :: 0 <= i < j < |sessions| ==> sessions[i] != sessions[j]
  {
    hide *;
    var sessionMap: map<SessionId, SessionEntry> := map[];
    var order: seq<SessionId> := [];
    UnseenEverywhere();
    for n := 0 to |records|
      invariant order == SessionIds(records[..n])
      invariant forall id :: id in sessionMap <==> id in order
      invariant forall id :: id in sessionMap ==> fresh(sessionMap[id]) && sessionMap[id].sessionId == id
      invariant forall a, b :: a in sessionMap && b in sessionMap && a != b ==> sessionMap[a] != sessionMap[b]
      invariant forall id :: id in sessionMap ==> sessionMap[id].Reflects(OfSession(records[..n], id))
    {
      ghost var before := records[..n];
      var r := records[n];
      assert records[..n + 1] == before + [r];
      SessionsAfter(before, r);
      label Start:
      if IsSubSession(r) {
        continue;
      }
      UnseenSession(before, r.sessionId);
      var entry: SessionEntry;
      if r.sessionId in sessionMap {
        entry := sessionMap[r.sessionId];
      } else {
        entry := new SessionEntry(r.sessionId);
        sessionMap := sessionMap[r.sessionId := entry];
        order := order + [r.sessionId];
      }
      assert entry.Reflects(OfSession(before, r.sessionId));
      entry.Take(r, OfSession(before, r.sessionId));
    }
    assert records[..|records|] == records;
    DistinctSessions(records);
    sessions := seq(|order|, i requires 0 <= i < |order| && order[i] in sessionMap => sessionMap[order[i]]);
    MakeReflect(sessions, records);
  }

  lemma DistinctSessions(rs: seq<Rec>)
    ensures forall i, j :: 0 <= i < j < |SessionIds(rs)| ==> SessionIds(rs)[i] != SessionIds(rs)[j]
  {
    SessionIdsDistinct(rs);
  }

  lemma MakeReflect(sessions: seq<SessionEntry>, rs: seq<Rec>)
    requires |sessions| == |SessionIds(rs)|
    requires forall i :: 0 <= i < |sessions| ==> sessions[i].sessionId == SessionIds(rs)[i]
    requires forall i :: 0 <= i < |sessions| ==> sessions[i].Reflects(OfSession(rs, sessions[i].sessionId))
    ensures SessionsReflect(sessions, rs)
  {
    hide OfSession, SessionIds;
  }

  lemma UnseenEverywhere()
    ensures SessionIds([]) == []
  {
  }

  lemma SessionsAfter(rs: seq<Rec>, r: Rec)
    ensures SessionIds(rs + [r])
         == if IsSubSession(r) || r.sessionId in SessionIds(rs) then SessionIds(rs)
            else SessionIds(rs) + [r.sessionId]
    ensures !IsSubSession(r) ==> OfSession(rs + [r], r.sessionId) == OfSession(rs, r.sessionId) + [r]
    ensures forall id :: IsSubSession(r) || id != r.sessionId ==> OfSession(rs + [r], id) == OfSession(rs, id)
  {
    hide *;
    OneMore(rs, r, r.sessionId);
    forall id | IsSubSession(r) || id != r.sessionId
      ensures OfSession(rs + [r], id) == OfSession(rs, id)
    {
      OneMore(rs, r, id);
      assert OfSession(rs, id) + [] == OfSession(rs, id);
    }
  }

  /** The second loop: the sessions' totals and tables are added into the project's. */
  method Aggregate(sessions: seq<SessionEntry>, ghost rs: seq<Rec>)
    returns (total: Bucket, byTier: Table, byRole: Table)
    requires SessionsReflect(sessions, rs)
    ensures total == Sum(Kept(rs))
    ensures byTier == Group(Kept(rs), ByTier) && byRole == Group(Kept(rs), ByRole)
  {
    hide *;
    total, byTier, byRole := EMPTY, map[], map[];
    ghost var ids := SessionIds(rs);
    SessionCount(sessions, rs);
    NoSessions(rs, ByTier);
    NoSessions(rs, ByRole);
    for n := 0 to |sessions|
      invariant total == SumOver(ids[..n], rs)
      invariant byTier == GroupOver(ids[..n], rs, ByTier)
      invariant byRole == GroupOver(ids[..n], rs, ByRole)
    {
      var routing := sessions[n];
      SessionFigures(sessions, rs, n);
      total := Add(total, routing.total);
      byTier := AddEntries(byTier, routing.byTier);
      byRole := AddEntries(byRole, routing.byRole);
      NewSession(ids[..n], rs, ids[n], ByTier);
      NewSession(ids[..n], rs, ids[n], ByRole);
      assert ids[..n + 1] == ids[..n] + [ids[n]];
    }
    assert ids[..|sessions|] == ids;
    SessionsConserve(rs);
    SessionsRegroup(rs, ByTier);
    SessionsRegroup(rs, ByRole);
  }

  // ---- All projects

  type Snapshot = (string, seq<Rec>)

  function AllKept(snapshots: seq<Snapshot>): seq<Rec> {
    if snapshots == [] then [] else AllKept(snapshots[..|snapshots| - 1]) + Kept(snapshots[|snapshots| - 1].1)
  }

  function CountSessions(snapshots: seq<Snapshot>): nat {
    if snapshots == [] then 0
    else CountSessions(snapshots[..|snapshots| - 1]) + |SessionIds(snapshots[|snapshots| - 1].1)|
  }

  lemma OneMoreProject(snapshots: seq<Snapshot>, s: Snapshot, d: Dim)
    ensures Sum(AllKept(snapshots + [s])) == Add(Sum(AllKept(snapshots)), Sum(Kept(s.1)))
    ensures Group(AllKept(snapshots + [s]), d) == Merge(Group(AllKept(snapshots), d), Group(Kept(s.1), d))
    ensures CountSessions(snapshots + [s]) == CountSessions(snapshots) + |SessionIds(s.1)|
  {
    assert (snapshots + [s])[..|snapshots|] == snapshots;
    assert AllKept(snapshots + [s]) == AllKept(snapshots) + Kept(s.1);
    GroupAppend(AllKept(snapshots), Kept(s.1), d);
    hide Add, Merge, Sum, Group, Kept, SessionIds;
  }

  datatype Overall = Overall(total: Bucket, byTier: Table, byRole: Table, sessionCount: nat)

  /** `getRouterDashboardData` */
  method GetRouterDashboardData(snapshots: seq<Snapshot>) returns (projects: seq<Project>, overall: Overall)
    ensures |projects| == |snapshots|
    ensures forall i :: 0 <= i < |projects| ==>
      projects[i].key == snapshots[i].0 && Summarises(projects[i], snapshots[i].1)
    ensures overall.total == Sum(AllKept(snapshots))
    ensures overall.byTier == Group(AllKept(snapshots), ByTier)
    ensures overall.byRole == Group(AllKept(snapshots), ByRole)
    ensures overall.sessionCount == CountSessions(snapshots)
  {
    projects := [];
    hide *;
    var total, byTier: Table, byRole: Table, sessionCount := EMPTY, map[], map[], 0;
    NoProjects(ByTier);
    NoProjects(ByRole);
    for n := 0 to |snapshots|
      invariant |projects| == n
      invariant forall i :: 0 <= i < n ==>
        projects[i].key == snapshots[i].0 && Summarises(projects[i], snapshots[i].1)
      invariant total == Sum(AllKept(snapshots[..n]))
      invariant byTier == Group(AllKept(snapshots[..n]), ByTier)
      invariant byRole == Group(AllKept(snapshots[..n]), ByRole)
      invariant sessionCount == CountSessions(snapshots[..n])
    {
      var snapshot := snapshots[n];
      assert snapshots[..n + 1] == snapshots[..n] + [snapshot];
      OneMoreProject(snapshots[..n], snapshot, ByTier);
      OneMoreProject(snapshots[..n], snapshot, ByRole);
      var sessions := CollectSessions(snapshot.1);
      var projectTotal, projectByTier, projectByRole := Aggregate(sessions, snapshot.1);
      total := Add(total, projectTotal);
      byTier := AddEntries(byTier, projectByTier);
      byRole := AddEntries(byRole, projectByRole);
      sessionCount := sessionCount + |sessions|;
      var project := Project(snapshot.0, sessions, projectTotal, projectByTier, projectByRole);
      SessionCount(sessions, snapshot.1);
      MakeSummary(project, snapshot.1);
      projects := projects + [project];
    }
    assert snapshots[..|snapshots|] == snapshots;
    overall := Overall(total, byTier, byRole, sessionCount);
  }

  datatype Lifetime = Lifetime(total: Bucket, byScenario: Table, byProvider: Table, byTier: Table)

  /** `getRouterStatsSummary`: regroups the sessions of the dashboard by scenario and by provider. */
  method GetRouterStatsSummary(snapshots: seq<Snapshot>) returns (lifetime: Lifetime)
    ensures lifetime.total == Sum(AllKept(snapshots))
    ensures lifetime.byScenario == Group(AllKept(snapshots), ByScenario)
    ensures lifetime.byProvider == Group(AllKept(snapshots), ByProvider)
    ensures lifetime.byTier == Group(AllKept(snapshots), ByTier)
  {
    var projects, overall := GetRouterDashboardData(snapshots);
    var byScenario: Table, byProvider: Table := map[], map[];
    hide *;
    NoProjects(ByScenario);
    NoProjects(ByProvider);
    for n := 0 to |projects|
      invariant byScenario == Group(AllKept(snapshots[..n]), ByScenario)
      invariant byProvider == Group(AllKept(snapshots[..n]), ByProvider)
      invariant forall i :: 0 <= i < |projects| ==> Summarises(projects[i], snapshots[i].1)
    {
      assert snapshots[..n + 1] == snapshots[..n] + [snapshots[n]];
      OneMoreProject(snapshots[..n], snapshots[n], ByScenario);
      OneMoreProject(snapshots[..n], snapshots[n], ByProvider);
      ProjectSessions(projects[n], snapshots[n].1);
      byScenario, byProvider := AddSessions(projects[n].sessions, snapshots[n].1, byScenario, byProvider);
    }
    assert snapshots[..|projects|] == snapshots;
    lifetime := Lifetime(overall.total, byScenario, byProvider, overall.byTier);
  }

  method AddSessions(sessions: seq<SessionEntry>, ghost rs: seq<Rec>, scenarios: Table, providers: Table)
    returns (byScenario: Table, byProvider: Table)
    requires SessionsReflect(sessions, rs)
    ensures byScenario == Merge(scenarios, Group(Kept(rs), ByScenario))
    ensures byProvider == Merge(providers, Group(Kept(rs), ByProvider))
  {
    byScenario, byProvider := scenarios, providers;
    ghost var ids := SessionIds(rs);
    MergeEmpty(scenarios);
    MergeEmpty(providers);
    hide *;
    SessionCount(sessions, rs);
    NoSessions(rs, ByScenario);
    NoSessions(rs, ByProvider);
    for n := 0 to |sessions|
      invariant byScenario == Merge(scenarios, GroupOver(ids[..n], rs, ByScenario))
      invariant byProvider == Merge(providers, GroupOver(ids[..n], rs, ByProvider))
    {
      var routing := sessions[n];
      SessionFigures(sessions, rs, n);
      byScenario := AddEntries(byScenario, routing.byScenario);
      byProvider := AddProviders(byProvider, routing.byModel);
      RegroupByProvider(OfSession(rs, ids[n]));
      NewSession(ids[..n], rs, ids[n], ByScenario);
      NewSession(ids[..n], rs, ids[n], ByProvider);
      MergeAssociates(scenarios, GroupOver(ids[..n], rs, ByScenario), Group(OfSession(rs, ids[n]), ByScenario));
      MergeAssociates(providers, GroupOver(ids[..n], rs, ByProvider), Group(OfSession(rs, ids[n]), ByProvider));
      assert ids[..n + 1] == ids[..n] + [ids[n]];
    }
    assert ids[..|sessions|] == ids;
    SessionsRegroup(rs, ByScenario);
    SessionsRegroup(rs, ByProvider);
  }

  lemma MergedEntry(a: Table, b: Table, k: string)
    ensures Get(Merge(a, b), k) == Add(Get(a, k), Get(b, k))
    ensures k in Merge(a, b) <==> k in a || k in b
  {
    AddEmpty(EMPTY);
    hide Add;
  }

  lemma SameTable(a: Table, b: Table)
    requires a.Keys == b.Keys && forall k :: Get(a, k) == Get(b, k)
    ensures a == b
  {
    forall k | k in a
      ensures a[k] == b[k]
    {
      assert Get(a, k) == Get(b, k);
    }
  }

  lemma MergeAssociates(a: Table, b: Table, c: Table)
    ensures Merge(Merge(a, b), c) == Merge(a, Merge(b, c))
  {
    hide *;
    var left, right := Merge(Merge(a, b), c), Merge(a, Merge(b, c));
    forall k
      ensures Get(left, k) == Get(right, k)
      ensures k in left <==> k in right
    {
      MergedEntry(Merge(a, b), c, k);
      MergedEntry(a, b, k);
      MergedEntry(a, Merge(b, c), k);
      MergedEntry(b, c, k);
      AddLaws(Get(a, k), Get(b, k), Get(c, k));
    }
    SameTable(left, right);
  }

  // ---- What the dashboard promises

  /** In every dimension the buckets of all projects add up to the overall total, and each bucket saves what it says. */
  lemma DashboardConserves(snapshots: seq<Snapshot>, d: Dim)
    ensures Total(Group(AllKept(snapshots), d)) == Sum(AllKept(snapshots))
    ensures Saves(Sum(AllKept(snapshots))) && Sum(AllKept(snapshots)).requests == |AllKept(snapshots)|
    ensures forall k :: k in Group(AllKept(snapshots), d) ==> Saves(Group(AllKept(snapshots), d)[k])
  {
    hide *;
    GroupConserves(AllKept(snapshots), d);
    SumFacts(AllKept(snapshots));
    GroupSaves(AllKept(snapshots), d);
  }

  /** The requests counted by a project are the entries of its sessions' request logs. */
  lemma {:induction false} RequestsAreLogged(ids: seq<SessionId>, rs: seq<Rec>)
    ensures SumOver(ids, rs).requests == LogLengths(ids, rs)
  {
    if ids != [] {
      RequestsAreLogged(ids[..|ids| - 1], rs);
      LogAddsUp(OfSession(rs, ids[|ids| - 1]));
      hide OfSession, Sum, Log;
    }
  }

  function LogLengths(ids: seq<SessionId>, rs: seq<Rec>): nat {
    if ids == [] then 0
    else LogLengths(ids[..|ids| - 1], rs) + |Log(OfSession(rs, ids[|ids| - 1]))|
  }
}
