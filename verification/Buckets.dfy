/**
 The statistics buckets of ui/server/pilotdeck-bridge.js (`makeBucket`, `addBuckets`), maps of buckets, and
 what it means to group records by a key. Amounts of money are integers here.
 */
module Buckets {
  import opened Options

  datatype Tokens = Tokens(input: int, output: int, cacheRead: int, total: int)

  datatype Cost = Cost(estimated: int, baseline: int, saved: int)

  datatype Bucket = Bucket(tokens: Tokens, requests: int, cost: Cost)

  const EMPTY := Bucket(Tokens(0, 0, 0, 0), 0, Cost(0, 0, 0))

  function AddTokens(a: Tokens, b: Tokens): Tokens {
    Tokens(a.input + b.input, a.output + b.output, a.cacheRead + b.cacheRead, a.total + b.total)
  }

  function AddCost(a: Cost, b: Cost): Cost {
    Cost(a.estimated + b.estimated, a.baseline + b.baseline, a.saved + b.saved)
  }

  function Add(a: Bucket, b: Bucket): Bucket {
    Bucket(AddTokens(a.tokens, b.tokens), a.requests + b.requests, AddCost(a.cost, b.cost))
  }

  lemma AddLaws(a: Bucket, b: Bucket, c: Bucket)
    ensures Add(a, b) == Add(b, a)
    ensures Add(Add(a, b), c) == Add(a, Add(b, c))
  {
  }

  lemma AddEmpty(a: Bucket)
    ensures Add(a, EMPTY) == a && Add(EMPTY, a) == a
  {
  }

  type Table = map<string, Bucket>

  function Get(m: Table, k: string): Bucket { if k in m then m[k] else EMPTY }

  /** Adds to the bucket of a key, which is made empty on first use. */
  function Upsert(m: Table, k: string, b: Bucket): Table { m[k := Add(Get(m, k), b)] }

  /** Adding every entry of `b` to `a`. */
  function Merge(a: Table, b: Table): Table {
    map k | k in a.Keys + b.Keys :: Add(Get(a, k), Get(b, k))
  }

  lemma UpsertMergeLeft(a: Table, b: Table, k: string, x: Bucket)
    ensures Merge(Upsert(a, k, x), b) == Upsert(Merge(a, b), k, x)
  {
    AddLaws(Get(a, k), x, Get(b, k));
    AddLaws(x, Get(b, k), Get(a, k));
    AddLaws(Get(a, k), Get(b, k), x);
    AddEmpty(EMPTY);
    hide Add;
    assert Get(Merge(a, b), k) == Add(Get(a, k), Get(b, k));
    assert Merge(Upsert(a, k, x), b).Keys == Upsert(Merge(a, b), k, x).Keys;
  }

  lemma UpsertMergeRight(a: Table, b: Table, k: string, x: Bucket)
    ensures Merge(a, Upsert(b, k, x)) == Upsert(Merge(a, b), k, x)
  {
    AddLaws(Get(a, k), Get(b, k), x);
    AddEmpty(EMPTY);
    hide Add;
    assert Get(Merge(a, b), k) == Add(Get(a, k), Get(b, k));
    assert Merge(a, Upsert(b, k, x)).Keys == Upsert(Merge(a, b), k, x).Keys;
  }

  lemma UpsertMerge(a: Table, b: Table, k: string, x: Bucket)
    ensures Merge(Upsert(a, k, x), b) == Upsert(Merge(a, b), k, x)
    ensures Merge(a, Upsert(b, k, x)) == Upsert(Merge(a, b), k, x)
  {
    hide *;
    UpsertMergeLeft(a, b, k, x);
    UpsertMergeRight(a, b, k, x);
  }

  lemma MergeEmpty(a: Table)
    ensures Merge(a, map[]) == a && Merge(map[], a) == a
  {
    forall k | k in a
      ensures Add(a[k], EMPTY) == a[k] && Add(EMPTY, a[k]) == a[k]
    {
      AddEmpty(a[k]);
    }
    hide Add;
  }

  // ---- The sum of all buckets of a table

  ghost function Total(m: Table): Bucket {
    if m == map[] then EMPTY
    else
      var k :| k in m;
      Add(m[k], Total(m - {k}))
  }

  /** The sum does not depend on the order. */
  lemma {:induction false} TotalWithout(m: Table, k: string)
    requires k in m
    ensures Total(m) == Add(m[k], Total(m - {k}))
    decreases |m|
  {
    hide Add;
    var j :| j in m && Total(m) == Add(m[j], Total(m - {j}));
    if j != k {
      SmallerTable(m, j);
      SmallerTable(m, k);
      TotalWithout(m - {j}, k);
      TotalWithout(m - {k}, j);
      assert m - {j} - {k} == m - {k} - {j};
      var rest := Total(m - {j} - {k});
      AddLaws(m[j], m[k], rest);
      AddLaws(m[k], m[j], rest);
    }
  }

  lemma SmallerTable(m: Table, k: string)
    requires k in m
    ensures |m - {k}| < |m|
  {
    assert (m - {k}).Keys == m.Keys - {k};
    assert |m - {k}| == |(m - {k}).Keys| && |m| == |m.Keys|;
  }

  lemma TotalUpsert(m: Table, k: string, b: Bucket)
    ensures Total(Upsert(m, k, b)) == Add(Total(m), b)
  {
    hide Add, Total;
    var after := Upsert(m, k, b);
    TotalWithout(after, k);
    assert after - {k} == m - {k};
    if k in m {
      TotalWithout(m, k);
      var rest := Total(m - {k});
      AddLaws(m[k], b, rest);
      AddLaws(b, rest, m[k]);
      AddLaws(m[k], rest, b);
    } else {
      assert m - {k} == m;
      AddEmpty(b);
      AddLaws(b, Total(m), b);
    }
  }

  // ---- Records

  datatype Usage = Usage(input: int, output: int, cacheRead: int, total: Option<int>)

  /** One persisted record; an empty string stands for a missing name. */
  datatype Rec = Rec(
    sessionId: Option<string>,
    provider: string,
    model: string,
    tier: string,
    scenarioType: string,
    role: string,
    resolvedFrom: string,
    usage: Usage,
    cost: int,
    baselineCost: Option<int>)

  function TotalTokens(r: Rec): int { r.usage.total.GetOr(r.usage.input + r.usage.output) }

  /** What a record adds to every bucket it belongs to. */
  function Contribution(r: Rec): Bucket {
    var baseline := r.baselineCost.GetOr(r.cost);
    Bucket(Tokens(r.usage.input, r.usage.output, r.usage.cacheRead, TotalTokens(r)), 1,
           Cost(r.cost, baseline, baseline - r.cost))
  }

  datatype Dim = ByTier | ByScenario | ByRole | ByModel | ByProvider

  function OrElse(a: string, b: string): string { if a != "" then a else b }

  function ModelKey(r: Rec): string { OrElse(r.provider, "unknown") + "/" + OrElse(r.model, "unknown") }

  /** The part of a model key before its first slash. */
  function ProviderOf(key: string): string {
    if key == "" || key[0] == '/' then "" else [key[0]] + ProviderOf(key[1..])
  }

  function KeyOf(d: Dim, r: Rec): string {
    match d
    case ByTier => OrElse(r.tier, OrElse(r.scenarioType, "default"))
    case ByScenario => OrElse(r.scenarioType, "default")
    case ByRole => if r.resolvedFrom == "subagent" then "sub" else "main"
    case ByModel => ModelKey(r)
    case ByProvider => ProviderOf(ModelKey(r))
  }

  function Sum(rs: seq<Rec>): Bucket {
    if rs == [] then EMPTY else Add(Sum(rs[..|rs| - 1]), Contribution(rs[|rs| - 1]))
  }

  function Group(rs: seq<Rec>, d: Dim): Table {
    if rs == [] then map[]
    else Upsert(Group(rs[..|rs| - 1], d), KeyOf(d, rs[|rs| - 1]), Contribution(rs[|rs| - 1]))
  }

  function Matching(rs: seq<Rec>, d: Dim, k: string): seq<Rec> {
    if rs == [] then []
    else Matching(rs[..|rs| - 1], d, k) + (if KeyOf(d, rs[|rs| - 1]) == k then [rs[|rs| - 1]] else [])
  }

  lemma SumMore(rs: seq<Rec>, r: Rec)
    ensures Sum(rs + [r]) == Add(Sum(rs), Contribution(r))
  {
    assert (rs + [r])[..|rs|] == rs;
    hide Add, Contribution;
  }

  lemma GroupMore(rs: seq<Rec>, r: Rec, d: Dim)
    ensures Group(rs + [r], d) == Upsert(Group(rs, d), KeyOf(d, r), Contribution(r))
  {
    assert (rs + [r])[..|rs|] == rs;
    hide Upsert, Contribution, KeyOf;
  }

  /** Each bucket of a group is the sum of exactly the records with its key. */
  lemma {:induction false} GroupMeaning(rs: seq<Rec>, d: Dim, k: string)
    ensures Get(Group(rs, d), k) == Sum(Matching(rs, d, k))
    ensures k in Group(rs, d) <==> exists r :: r in rs && KeyOf(d, r) == k
  {
    hide Add, Contribution, KeyOf;
    if rs != [] {
      var front, last := rs[..|rs| - 1], rs[|rs| - 1];
      GroupMeaning(front, d, k);
      assert rs == front + [last];
      if KeyOf(d, last) == k {
        SumMore(Matching(front, d, k), last);
        assert last in rs;
      } else {
        assert Matching(rs, d, k) == Matching(front, d, k);
      }
      assert forall r :: r in rs <==> r in front || r == last;
    }
  }

  /** However records are grouped, the buckets of the group add up to the sum of all records. */
  lemma {:induction false} GroupConserves(rs: seq<Rec>, d: Dim)
    ensures Total(Group(rs, d)) == Sum(rs)
  {
    hide Add, Contribution, KeyOf, Upsert;
    if rs != [] {
      var front, last := rs[..|rs| - 1], rs[|rs| - 1];
      GroupConserves(front, d);
      TotalUpsert(Group(front, d), KeyOf(d, last), Contribution(last));
    } else {
      assert Group(rs, d) == map[];
    }
  }

  lemma {:induction false} GroupAppend(a: seq<Rec>, b: seq<Rec>, d: Dim)
    ensures Group(a + b, d) == Merge(Group(a, d), Group(b, d))
    ensures Sum(a + b) == Add(Sum(a), Sum(b))
  {
    hide Add, Contribution, KeyOf, Upsert, Merge;
    if b == [] {
      assert a + b == a;
      MergeEmpty(Group(a, d));
      AddEmpty(Sum(a));
    } else {
      var front, last := b[..|b| - 1], b[|b| - 1];
      GroupAppend(a, front, d);
      assert a + b == a + front + [last];
      GroupMore(a + front, last, d);
      SumMore(a + front, last);
      UpsertMerge(Group(a, d), Group(front, d), KeyOf(d, last), Contribution(last));
      AddLaws(Sum(a), Sum(front), Contribution(last));
    }
  }

  /** The savings of a bucket are what its baseline costs more than it did. */
  predicate Saves(b: Bucket) { b.cost.saved == b.cost.baseline - b.cost.estimated }

  lemma {:induction false} SumFacts(rs: seq<Rec>)
    ensures Saves(Sum(rs)) && Sum(rs).requests == |rs|
  {
    if rs != [] {
      SumFacts(rs[..|rs| - 1]);
    }
  }

  lemma GroupSaves(rs: seq<Rec>, d: Dim)
    ensures forall k :: k in Group(rs, d) ==> Saves(Group(rs, d)[k])
  {
    forall k | k in Group(rs, d)
      ensures Saves(Group(rs, d)[k])
    {
      GroupMeaning(rs, d, k);
      SumFacts(Matching(rs, d, k));
    }
  }
}
