/**
 The figures of the dashboard, field by field, as sums over the fields of the records (ui/server/pilotdeck-bridge.js):
 which record counts for which bucket, session and project, and with what.
 */
module DashboardFigures {
  import opened Options
  import opened Buckets
  import opened Dashboard

  datatype Field = Input | Output | CacheRead | TotalOfTokens | Requests | Estimated | Baseline | Saved

  function Of(b: Bucket, f: Field): int {
    match f
    case Input => b.tokens.input
    case Output => b.tokens.output
    case CacheRead => b.tokens.cacheRead
    case TotalOfTokens => b.tokens.total
    case Requests => b.requests
    case Estimated => b.cost.estimated
    case Baseline => b.cost.baseline
    case Saved => b.cost.saved
  }

  /** What a record counts for. */
  function Figure(r: Rec, f: Field): int {
    match f
    case Input => r.usage.input
    case Output => r.usage.output
    case CacheRead => r.usage.cacheRead
    case TotalOfTokens => (match r.usage.total case Some(total) => total case None => r.usage.input + r.usage.output)
    case Requests => 1
    case Estimated => r.cost
    case Baseline => (match r.baselineCost case Some(cost) => cost case None => r.cost)
    case Saved => (match r.baselineCost case Some(cost) => cost - r.cost case None => 0)
  }

  /** The sum of a figure over the records that `counts` selects. */
  function SumOf(rs: seq<Rec>, counts: Rec -> bool, f: Field): int {
    if rs == [] then 0 else (if counts(rs[0]) then Figure(rs[0], f) else 0) + SumOf(rs[1..], counts, f)
  }

  /** The record counts for the bucket `k`. */
  predicate CountsFor(d: Dim, k: string, r: Rec) {
    match d
    case ByRole => if r.resolvedFrom == "subagent" then k == "sub" else k == "main"
    case ByScenario => if |r.scenarioType| > 0 then k == r.scenarioType else k == "default"
    case ByTier =>
      if |r.tier| > 0 then k == r.tier
      else if |r.scenarioType| > 0 then k == r.scenarioType else k == "default"
    case ByModel =>
      k == (if |r.provider| > 0 then r.provider else "unknown") + "/" + (if |r.model| > 0 then r.model else "unknown")
    case ByProvider => IsProvider(k, if |r.provider| > 0 then r.provider else "unknown")
  }

  /** The part of a provider's name before a slash, or all of it. */
  predicate IsProvider(k: string, name: string) {
    '/' !in k && k <= name && (|k| < |name| ==> name[|k|] == '/')
  }

  /** The record was made by a session within another one. */
  ghost predicate OfSubSession(r: Rec) {
    match r.sessionId
    case Some(id) => exists i :: OccursAt(id, "::sub::", i)
    case None => false
  }

  predicate OccursAt(s: string, part: string, i: int) { 0 <= i <= |s| - |part| && s[i..i + |part|] == part }

  // ---- The model's keys, contributions and selections are these

  lemma {:induction false} ProviderIs(name: string, rest: string, k: string)
    ensures ProviderOf(name + "/" + rest) == k <==> IsProvider(k, name)
  {
    var key := name + "/" + rest;
    if name == "" {
      assert key[0] == '/';
    } else if name[0] == '/' {
      assert key[0] == '/';
      assert k != "" && k <= name ==> k[0] == '/';
    } else {
      assert key[0] == name[0] && key[1..] == name[1..] + "/" + rest;
      if k == "" {
        assert !IsProvider(k, name);
      } else {
        ProviderIs(name[1..], rest, k[1..]);
        ProviderCons(k, name);
        assert k == [k[0]] + k[1..];
      }
    }
  }

  lemma ProviderCons(k: string, name: string)
    requires k != "" && name != "" && name[0] != '/'
    ensures IsProvider(k, name) <==> k[0] == name[0] && IsProvider(k[1..], name[1..])
  {
    if k[0] == name[0] && k[1..] <= name[1..] {
      assert k == [k[0]] + k[1..] && name == [name[0]] + name[1..];
    }
    assert k == [k[0]] + k[1..];
  }

  lemma KeyIs(d: Dim, k: string, r: Rec)
    ensures KeyOf(d, r) == k <==> CountsFor(d, k, r)
  {
    if d.ByProvider? {
      var provider := if |r.provider| > 0 then r.provider else "unknown";
      ProviderIs(provider, OrElse(r.model, "unknown"), k);
      hide ProviderOf, IsProvider;
    }
  }

  lemma ContributionIs(r: Rec, f: Field)
    ensures Of(Contribution(r), f) == Figure(r, f)
    ensures Of(EMPTY, f) == 0
  {
  }

  lemma OfAdd(a: Bucket, b: Bucket, f: Field)
    ensures Of(Add(a, b), f) == Of(a, f) + Of(b, f)
  {
  }

  lemma OccursCons(s: string, part: string, i: int)
    requires s != ""
    ensures OccursAt(s, part, i) <==> if i == 0 then part <= s else OccursAt(s[1..], part, i - 1)
  {
    if i == 0 {
      assert |part| <= |s| ==> s[0..0 + |part|] == s[..|part|];
    } else if 0 < i <= |s| - |part| {
      assert s[1..][i - 1..i - 1 + |part|] == s[i..i + |part|];
    }
  }

  lemma ContainsCons(s: string, part: string)
    requires s != ""
    ensures Contains(s, part) <==> part <= s || Contains(s[1..], part)
  {
  }

  lemma {:induction false} ContainsIff(s: string, part: string)
    ensures Contains(s, part) <==> exists i :: OccursAt(s, part, i)
  {
    if s == "" {
      assert OccursAt(s, part, 0) <==> part == "";
    } else {
      ContainsIff(s[1..], part);
      forall i
        ensures OccursAt(s, part, i) <==> if i == 0 then part <= s else OccursAt(s[1..], part, i - 1)
      {
        OccursCons(s, part, i);
      }
      assert forall i :: OccursAt(s[1..], part, i) ==> 0 <= i;
      hide OccursAt, Contains;
      if part <= s {
        assert OccursAt(s, part, 0);
      }
      if i :| OccursAt(s[1..], part, i) {
        assert OccursAt(s, part, i + 1);
      }
      assert Contains(s, part) <==> part <= s || Contains(s[1..], part) by { ContainsCons(s, part); }
    }
  }

  lemma SubSessionIs(r: Rec)
    ensures IsSubSession(r) <==> OfSubSession(r)
  {
    if r.sessionId.Some? {
      ContainsIff(r.sessionId.value, "::sub::");
    }
  }

  // ---- Sums

  lemma {:induction false} SumOfAppend(a: seq<Rec>, b: seq<Rec>, counts: Rec -> bool, f: Field)
    ensures SumOf(a + b, counts, f) == SumOf(a, counts, f) + SumOf(b, counts, f)
  {
    hide Figure;
    if a == [] {
      assert a + b == b;
    } else {
      assert (a + b)[1..] == a[1..] + b;
      SumOfAppend(a[1..], b, counts, f);
    }
  }

  lemma SumOfOne(r: Rec, counts: Rec -> bool, f: Field)
    ensures SumOf([r], counts, f) == if counts(r) then Figure(r, f) else 0
  {
    hide Figure;
    assert [r][1..] == [];
  }

  /** Each bucket of a table, in each field, is the sum over exactly the records that count for its key. */
  lemma {:induction false} BucketFigures(rs: seq<Rec>, d: Dim, k: string, f: Field)
    ensures Of(Get(Group(rs, d), k), f) == SumOf(rs, r => CountsFor(d, k, r), f)
    ensures k in Group(rs, d) <==> exists r :: r in rs && CountsFor(d, k, r)
  {
    hide Add, Contribution, KeyOf, CountsFor, Of, Figure;
    var counts := (r: Rec) => CountsFor(d, k, r);
    if rs == [] {
      assert Get(Group(rs, d), k) == EMPTY;
      ContributionIs(AnyRecord(), f);
    } else {
      var front, last := rs[..|rs| - 1], rs[|rs| - 1];
      assert rs == front + [last];
      BucketFigures(front, d, k, f);
      GroupMore(front, last, d);
      KeyIs(d, k, last);
      ContributionIs(last, f);
      OfAdd(Get(Group(front, d), k), Contribution(last), f);
      SumOfAppend(front, [last], counts, f);
      SumOfOne(last, counts, f);
      hide SumOf, Group;
      assert forall r :: r in rs <==> r in front || r == last;
    }
  }

  function AnyRecord(): Rec {
    Rec(None, "", "", "", "", "", "", Usage(0, 0, 0, None), 0, None)
  }

  lemma {:induction false} SumOfSame(rs: seq<Rec>, a: Rec -> bool, b: Rec -> bool, f: Field)
    requires forall r :: r in rs ==> a(r) == b(r)
    ensures SumOf(rs, a, f) == SumOf(rs, b, f)
  {
    hide Figure;
    if rs != [] {
      assert rs[0] in rs && forall r :: r in rs[1..] ==> r in rs;
      SumOfSame(rs[1..], a, b, f);
    }
  }

  /** The total of a list of records, field by field. */
  lemma {:induction false} TotalFigures(rs: seq<Rec>, f: Field)
    ensures Of(Sum(rs), f) == SumOf(rs, (r: Rec) => true, f)
  {
    hide Add, Contribution, Of, Figure;
    var counts := (r: Rec) => true;
    if rs == [] {
      ContributionIs(AnyRecord(), f);
    } else {
      var front, last := rs[..|rs| - 1], rs[|rs| - 1];
      assert rs == front + [last];
      TotalFigures(front, f);
      SumMore(front, last);
      ContributionIs(last, f);
      OfAdd(Sum(front), Contribution(last), f);
      SumOfAppend(front, [last], counts, f);
      SumOfOne(last, counts, f);
      hide SumOf, Sum;
    }
  }

  /** A record of session `id`, unless it is one of a session within it. */
  ghost predicate OfSessionOnly(r: Rec, id: SessionId) { r.sessionId == id && !OfSubSession(r) }

  lemma {:induction false} KeptFigures(rs: seq<Rec>, counts: Rec -> bool, f: Field)
    ensures SumOf(Kept(rs), counts, f) == SumOf(rs, r => !OfSubSession(r) && counts(r), f)
  {
    hide IsSubSession, OfSubSession, Figure;
    var kept := (r: Rec) => !OfSubSession(r) && counts(r);
    if rs != [] {
      var front, last := rs[..|rs| - 1], rs[|rs| - 1];
      assert rs == front + [last];
      KeptFigures(front, counts, f);
      SubSessionIs(last);
      OneMore(front, last, None);
      SumOfAppend(front, [last], kept, f);
      SumOfOne(last, kept, f);
      SumOfOne(last, counts, f);
      SumOfAppend(Kept(front), [last], counts, f);
      assert Kept(front) + [] == Kept(front);
      hide SumOf, Kept;
    }
  }

  /** The records behind a session are exactly its own. */
  lemma {:induction false} SessionFigures(rs: seq<Rec>, id: SessionId, counts: Rec -> bool, f: Field)
    ensures SumOf(OfSession(rs, id), counts, f) == SumOf(rs, r => OfSessionOnly(r, id) && counts(r), f)
  {
    hide IsSubSession, OfSubSession, Figure;
    var mine := (r: Rec) => OfSessionOnly(r, id) && counts(r);
    if rs != [] {
      var front, last := rs[..|rs| - 1], rs[|rs| - 1];
      assert rs == front + [last];
      SessionFigures(front, id, counts, f);
      SubSessionIs(last);
      OneMore(front, last, id);
      SumOfAppend(front, [last], mine, f);
      SumOfOne(last, mine, f);
      SumOfOne(last, counts, f);
      SumOfAppend(OfSession(front, id), [last], counts, f);
      assert OfSession(front, id) + [] == OfSession(front, id);
      hide SumOf, OfSession;
    }
  }

  /** The same over the records of all projects. */
  function SumOfAll(snapshots: seq<Snapshot>, counts: Rec -> bool, f: Field): int {
    if snapshots == [] then 0 else SumOf(snapshots[0].1, counts, f) + SumOfAll(snapshots[1..], counts, f)
  }

  lemma {:induction false} SumOfAllAppend(a: seq<Snapshot>, b: seq<Snapshot>, counts: Rec -> bool, f: Field)
    ensures SumOfAll(a + b, counts, f) == SumOfAll(a, counts, f) + SumOfAll(b, counts, f)
  {
    hide SumOf;
    if a == [] {
      assert a + b == b;
    } else {
      assert (a + b)[1..] == a[1..] + b;
      SumOfAllAppend(a[1..], b, counts, f);
    }
  }

  lemma {:induction false} SumOfAllSame(snapshots: seq<Snapshot>, a: Rec -> bool, b: Rec -> bool, f: Field)
    requires forall r :: a(r) == b(r)
    ensures SumOfAll(snapshots, a, f) == SumOfAll(snapshots, b, f)
  {
    hide SumOf;
    if snapshots != [] {
      SumOfSame(snapshots[0].1, a, b, f);
      SumOfAllSame(snapshots[1..], a, b, f);
    }
  }

  lemma {:induction false} AllKeptFigures(snapshots: seq<Snapshot>, counts: Rec -> bool, f: Field)
    ensures SumOf(AllKept(snapshots), counts, f) == SumOfAll(snapshots, r => !OfSubSession(r) && counts(r), f)
  {
    hide IsSubSession, OfSubSession, Figure, Kept;
    var kept := (r: Rec) => !OfSubSession(r) && counts(r);
    if snapshots != [] {
      var front, last := snapshots[..|snapshots| - 1], snapshots[|snapshots| - 1];
      assert snapshots == front + [last];
      AllKeptFigures(front, counts, f);
      SumOfAllAppend(front, [last], kept, f);
      assert SumOfAll([last], kept, f) == SumOf(last.1, kept, f) by {
        assert [last][1..] == [];
      }
      KeptFigures(last.1, counts, f);
      SumOfAppend(AllKept(front), Kept(last.1), counts, f);
      hide SumOf;
    }
  }

  /** Every bucket of the dashboard and of the lifetime summary, in each field, is the sum over exactly the records, of
      all projects, that count for its key and are not of a session within another one. */
  lemma DashboardBuckets(snapshots: seq<Snapshot>, d: Dim, k: string, f: Field)
    ensures Of(Get(Group(AllKept(snapshots), d), k), f)
         == SumOfAll(snapshots, r => !OfSubSession(r) && CountsFor(d, k, r), f)
    ensures k in Group(AllKept(snapshots), d) <==> exists r :: r in AllKept(snapshots) && CountsFor(d, k, r)
  {
    hide Of, Get, Group, CountsFor, OfSubSession, SumOf, SumOfAll, AllKept;
    var counts, kept := (r: Rec) => CountsFor(d, k, r), (r: Rec) => !OfSubSession(r) && CountsFor(d, k, r);
    BucketFigures(AllKept(snapshots), d, k, f);
    SumOfSame(AllKept(snapshots), r => CountsFor(d, k, r), counts, f);
    AllKeptFigures(snapshots, counts, f);
    SumOfAllSame(snapshots, r => !OfSubSession(r) && counts(r), kept, f);
  }

  /** There are no roles but "main" and "sub". */
  lemma TwoRoles(rs: seq<Rec>, k: string)
    requires k in Group(rs, ByRole)
    ensures k == "main" || k == "sub"
  {
    BucketFigures(rs, ByRole, k, Requests);
  }

  // ---- Sessions and their logs

  /** A session is listed iff it has a record of its own, and sessions stay in the order of their first records. */
  lemma {:induction false} SessionListed(rs: seq<Rec>, id: SessionId)
    ensures id in SessionIds(rs) <==> exists r :: r in rs && OfSessionOnly(r, id)
  {
    hide IsSubSession, OfSubSession;
    if rs != [] {
      var front, last := rs[..|rs| - 1], rs[|rs| - 1];
      assert rs == front + [last];
      SessionListed(front, id);
      SubSessionIs(last);
      OneMore(front, last, id);
      hide SessionIds;
      assert forall r :: r in rs <==> r in front || r == last;
      assert last in rs;
    }
  }

  lemma {:induction false} SessionsKeepOrder(a: seq<Rec>, b: seq<Rec>)
    ensures SessionIds(a) <= SessionIds(a + b)
    decreases |b|
  {
    if b == [] {
      assert a + b == a;
    } else {
      var front, last := b[..|b| - 1], b[|b| - 1];
      SessionsKeepOrder(a, front);
      assert a + b == a + front + [last];
      OneMore(a + front, last, None);
      hide SessionIds;
    }
  }

  /** The entry of a record in the request log of its session. */
  predicate Logs(e: LogEntry, r: Rec) {
    var sub := r.role == "subagent";
    && e.role == (if sub then "sub" else "main")
    && e.query == (if sub then Some("sub-agent") else None)
    && e.tier == (if |r.tier| > 0 then r.tier else r.scenarioType)
    && CountsFor(ByModel, e.model, r)
    && e.tokens == Figure(r, TotalOfTokens)
    && e.cost == Cost(Figure(r, Estimated), Figure(r, Baseline), Figure(r, Saved))
  }

  lemma LogEntryIs(r: Rec)
    ensures Logs(LogOf(r), r)
  {
  }

  /** The log has one entry for each record, in order. */
  lemma {:induction false} LogEntries(rs: seq<Rec>)
    ensures |Log(rs)| == |rs| && forall i :: 0 <= i < |rs| ==> Logs(Log(rs)[i], rs[i])
  {
    if rs != [] {
      var front, last := rs[..|rs| - 1], rs[|rs| - 1];
      hide Logs, LogOf;
      LogEntries(front);
      LogEntryIs(last);
      assert rs == front + [last];
      assert Log(rs) == Log(front) + [LogOf(last)];
    }
  }
}
