/**
 Project identifiers over whole runs (ui/server/projects.js): after any sequence of additions every path has one
 identifier of its own, and that identifier can be told from the order of first additions alone.
 */
module ProjectIdRuns {
  import opened Options
  import opened ProjectIds
  import opened ProjectSlugs
  import opened Text

  function Run(w: World, dirs: Dirs, paths: seq<string>): Dirs {
    if paths == [] then dirs
    else Added(w, Run(w, dirs, paths[..|paths| - 1]), paths[|paths| - 1])
  }

  /** Paths are resolved, digests tell them apart, and no longer identifier is another path's short one. */
  ghost predicate DigestsApart(w: World, paths: seq<string>) {
    && (forall p, q :: p in paths && q in paths && p != q ==> w.digest(p) != w.digest(q))
    && (forall p :: p in paths ==> w.resolve(p) == p && |w.digest(p)| == 10)
    && (forall p, q :: p in paths && q in paths ==> CollisionId(w, p) != ProjectId(w, q))
  }

  /** Besides, the paths survive being written to a marker and read back. */
  ghost predicate Apart(w: World, paths: seq<string>) {
    DigestsApart(w, paths) && forall p :: p in paths ==> Stable(w, p)
  }

  lemma ApartDigests(w: World, paths: seq<string>)
    requires Apart(w, paths)
    ensures DigestsApart(w, paths)
  {
  }

  predicate Unmarked(dirs: Dirs) { forall id :: id in dirs ==> dirs[id] == None }

  /** A tree of files: there is no directory without those above it. */
  predicate Shaped(dirs: Dirs) {
    && ("." in dirs ==> ".." in dirs)
    && (forall id :: id in dirs && !Dots(id) ==> "." in dirs && ".." in dirs)
  }

  /** The directories above those of projects are there before a path could be given one of them. */
  ghost predicate DotsTaken(w: World, start: Dirs, paths: seq<string>) {
    forall p :: p in paths && Dots(ProjectId(w, p)) ==> ProjectId(w, p) in start
  }

  /** What the runs below start from. */
  ghost predicate Fresh(w: World, start: Dirs, paths: seq<string>) {
    Unmarked(start) && Shaped(start) && DotsTaken(w, start, paths)
  }

  /** The first path added with its slug. */
  predicate IsFirst(w: World, paths: seq<string>, p: string) {
    exists i :: 0 <= i < |paths| && paths[i] == p
      && forall j :: 0 <= j < i ==> ProjectId(w, paths[j]) != ProjectId(w, p)
  }

  function IdOf(w: World, start: Dirs, paths: seq<string>, p: string): string {
    if ProjectId(w, p) !in start && IsFirst(w, paths, p) then ProjectId(w, p) else CollisionId(w, p)
  }

  lemma CollisionsApart(w: World, paths: seq<string>, p: string, q: string)
    requires DigestsApart(w, paths) && p in paths && q in paths && p != q
    ensures CollisionId(w, p) != CollisionId(w, q)
    ensures CollisionId(w, p) != ProjectId(w, q)
  {
    hide LegacyId, Owns;
    var a, b := CollisionId(w, p), CollisionId(w, q);
    assert w.resolve(p) == p && w.resolve(q) == q;
    assert a[|a| - 10..] == w.digest(p) && b[|b| - 10..] == w.digest(q);
  }

  /** Two paths are never both first with one slug. */
  lemma FirstIsUnique(w: World, paths: seq<string>, p: string, q: string)
    requires IsFirst(w, paths, p) && IsFirst(w, paths, q) && ProjectId(w, p) == ProjectId(w, q)
    ensures p == q
  {
    hide ProjectId;
  }

  lemma {:induction false} SomeoneIsFirst(w: World, paths: seq<string>, q: string) returns (p: string)
    requires q in paths
    ensures p in paths && IsFirst(w, paths, p) && ProjectId(w, p) == ProjectId(w, q)
  {
    hide ProjectId;
    var i := 0;
    while ProjectId(w, paths[i]) != ProjectId(w, q)
      invariant i < |paths| && q in paths[i..]
      invariant forall j :: 0 <= j < i ==> ProjectId(w, paths[j]) != ProjectId(w, q)
      decreases |paths| - i
    {
      assert q != paths[i];
      i := i + 1;
    }
    p := paths[i];
  }

  /** Different paths have different identifiers. */
  lemma IdsAreDistinct(w: World, start: Dirs, paths: seq<string>, p: string, q: string)
    requires Apart(w, paths) && p in paths && q in paths && p != q
    ensures IdOf(w, start, paths, p) != IdOf(w, start, paths, q)
  {
    hide ProjectId, CollisionId, Apart, DigestsApart, IsFirst;
    ApartDigests(w, paths);
    CollisionsApart(w, paths, p, q);
    CollisionsApart(w, paths, q, p);
    if ProjectId(w, p) == ProjectId(w, q) && IsFirst(w, paths, p) && IsFirst(w, paths, q) {
      FirstIsUnique(w, paths, p, q);
    }
  }

  /** No path has a directory above those of projects. */
  lemma IdIsPlain(w: World, start: Dirs, paths: seq<string>, p: string)
    requires DotsTaken(w, start, paths) && p in paths
    ensures !Dots(IdOf(w, start, paths, p))
  {
    IdsDiffer(w, p);
    hide ProjectId, CollisionId, IsFirst, Dots;
  }

  /** The directories are exactly those there at the start, those above, and one per path, marked with it. */
  ghost predicate Settled(w: World, start: Dirs, paths: seq<string>, dirs: Dirs) {
    && Shaped(dirs)
    && (forall id :: id in start ==> id in dirs)
    && (forall p :: p in paths ==> var id := IdOf(w, start, paths, p); id in dirs && dirs[id] == Some(p))
    && (forall id :: id in dirs ==>
          ((Dots(id) || id in start) && dirs[id] == None) || exists p :: p in paths && id == IdOf(w, start, paths, p))
  }

  lemma FirstStays(w: World, paths: seq<string>, p: string, q: string)
    requires q in paths
    ensures IsFirst(w, paths + [p], q) <==> IsFirst(w, paths, q)
  {
    hide ProjectId;
    var more := paths + [p];
    if IsFirst(w, more, q) {
      var i :| 0 <= i < |more| && more[i] == q && forall j :: 0 <= j < i ==> ProjectId(w, more[j]) != ProjectId(w, q);
      var k :| 0 <= k < |paths| && paths[k] == q;
      assert more[k] == q;
      assert forall j :: 0 <= j < i && j < |paths| ==> paths[j] == more[j];
    }
    if IsFirst(w, paths, q) {
      var i :| 0 <= i < |paths| && paths[i] == q
               && forall j :: 0 <= j < i ==> ProjectId(w, paths[j]) != ProjectId(w, q);
      assert more[i] == q;
      assert forall j :: 0 <= j < i ==> more[j] == paths[j];
    }
  }

  lemma FirstAtEnd(w: World, paths: seq<string>, p: string)
    requires p !in paths
    ensures IsFirst(w, paths + [p], p) <==> forall r :: r in paths ==> ProjectId(w, r) != ProjectId(w, p)
  {
    hide ProjectId;
    var more := paths + [p];
    assert more[|paths|] == p;
    if IsFirst(w, more, p) {
      var i :| 0 <= i < |more| && more[i] == p && forall j :: 0 <= j < i ==> ProjectId(w, more[j]) != ProjectId(w, p);
      assert i == |paths|;
      forall r | r in paths
        ensures ProjectId(w, r) != ProjectId(w, p)
      {
        var j :| 0 <= j < |paths| && paths[j] == r;
        assert more[j] == r;
      }
    }
    assert forall j :: 0 <= j < |paths| ==> more[j] == paths[j] && paths[j] in paths;
  }

  /** What the marker of another path says to a path looking for its own. */
  lemma MarkersTellApart(w: World, paths: seq<string>, p: string, q: string)
    requires Apart(w, paths) && p in paths && q in paths
    ensures Owns(w, Some(q), p) <==> p == q
  {
    hide LegacyId, CollisionId;
  }

  lemma NoMarker(w: World, p: string)
    ensures !Owns(w, None, p)
  {
  }

  lemma MarkerAt(w: World, start: Dirs, paths: seq<string>, dirs: Dirs, id: string)
    returns (q: string)
    requires Settled(w, start, paths, dirs) && id in dirs && dirs[id] != None
    ensures q in paths && id == IdOf(w, start, paths, q) && dirs[id] == Some(q)
  {
    hide IdOf;
    q :| q in paths && id == IdOf(w, start, paths, q);
  }

  lemma SlugIsTaken(w: World, start: Dirs, paths: seq<string>, dirs: Dirs, p: string)
    requires Settled(w, start, paths, dirs) && p in paths
    ensures ProjectId(w, p) in dirs
  {
    hide ProjectId, CollisionId, IsFirst;
    var q := SomeoneIsFirst(w, paths, p);
  }

  /** In a settled state a path that was added before is given its identifier again. */
  lemma AllocateKnown(w: World, start: Dirs, paths: seq<string>, dirs: Dirs, p: string)
    requires Apart(w, paths) && DotsTaken(w, start, paths) && Settled(w, start, paths, dirs) && p in paths
    ensures Allocate(w, dirs, p) == IdOf(w, start, paths, p)
    ensures Added(w, dirs, p) == dirs
  {
    var mine := IdOf(w, start, paths, p);
    IdIsPlain(w, start, paths, p);
    assert mine in dirs && dirs[mine] == Some(p);
    assert WithParents(dirs, mine) == dirs;
    hide ProjectId, CollisionId, Owns, Apart, DotsTaken, IsFirst, Settled, WithParents, Dots;
    var id := ProjectId(w, p);
    MarkersTellApart(w, paths, p, p);
    IdsDiffer(w, p);
    SlugIsTaken(w, start, paths, dirs, p);
    NoMarker(w, p);
    if mine != id && dirs[id] != None {
      var q := MarkerAt(w, start, paths, dirs, id);
      MarkersTellApart(w, paths, p, q);
    }
    assert dirs[mine := Some(p)] == dirs;
  }

  /** A path added for the first time gets its slug iff nobody has it yet, and is then settled like the others. */
  lemma AllocateNew(w: World, start: Dirs, paths: seq<string>, dirs: Dirs, p: string)
    requires Apart(w, paths + [p]) && DotsTaken(w, start, paths + [p]) && Settled(w, start, paths, dirs)
    requires p !in paths
    ensures Allocate(w, dirs, p) == IdOf(w, start, paths + [p], p)
  {
    hide ProjectId, CollisionId, Owns, Apart, DigestsApart, DotsTaken, IsFirst;
    ApartDigests(w, paths + [p]);
    var id, more := ProjectId(w, p), paths + [p];
    FirstAtEnd(w, paths, p);
    NoMarker(w, p);
    assert p in more && forall q :: q in paths ==> q in more;
    if id in dirs && dirs[id] != None {
      var q := MarkerAt(w, start, paths, dirs, id);
      MarkersTellApart(w, more, p, q);
    }
    SlugTakenIff(w, start, paths, dirs, p);
    hide Settled;
  }

  /** The slug of a new path is taken iff it was at the start or some path has it. */
  lemma SlugTakenIff(w: World, start: Dirs, paths: seq<string>, dirs: Dirs, p: string)
    requires Apart(w, paths + [p]) && DotsTaken(w, start, paths + [p]) && Settled(w, start, paths, dirs)
    requires p !in paths
    ensures ProjectId(w, p) in dirs <==>
      ProjectId(w, p) in start || exists q :: q in paths && ProjectId(w, q) == ProjectId(w, p)
  {
    hide ProjectId, CollisionId, Owns, Apart, DigestsApart, IsFirst, Dots;
    ApartDigests(w, paths + [p]);
    var id, more := ProjectId(w, p), paths + [p];
    assert p in more && forall q :: q in paths ==> q in more;
    if id in dirs && id !in start {
      var q :| q in paths && id == IdOf(w, start, paths, q);
      CollisionsApart(w, more, q, p);
    }
    if q :| q in paths && ProjectId(w, q) == id {
      SlugIsTaken(w, start, paths, dirs, q);
    }
  }

  lemma StaysSettled(w: World, start: Dirs, paths: seq<string>, dirs: Dirs, p: string)
    requires Apart(w, paths + [p]) && DotsTaken(w, start, paths + [p]) && Settled(w, start, paths, dirs)
    ensures Settled(w, start, paths + [p], Added(w, dirs, p))
  {
    hide ProjectId, CollisionId, Owns, Apart, DotsTaken, IsFirst, IdOf, Added;
    var more := paths + [p];
    forall q | q in paths
      ensures IdOf(w, start, more, q) == IdOf(w, start, paths, q)
    {
      FirstStays(w, paths, p, q);
      SameId(w, start, paths, more, q);
    }
    assert forall q :: q in more <==> q in paths || q == p;
    if p in paths {
      ApartPrefix(w, paths, p);
      DotsTakenPrefix(w, start, paths, p);
      AllocateKnown(w, start, paths, dirs, p);
    } else {
      AllocateNew(w, start, paths, dirs, p);
      forall q | q in paths
        ensures IdOf(w, start, more, q) != IdOf(w, start, more, p)
      {
        IdsAreDistinct(w, start, more, q, p);
      }
      AddedMarkers(w, dirs, p);
      AddedShape(w, dirs, p);
      hide Allocate, Dots, Shaped;
    }
  }

  lemma SameId(w: World, start: Dirs, paths: seq<string>, more: seq<string>, q: string)
    requires IsFirst(w, paths, q) <==> IsFirst(w, more, q)
    ensures IdOf(w, start, paths, q) == IdOf(w, start, more, q)
  {
    hide ProjectId, CollisionId, IsFirst;
  }

  /** An addition marks one directory, makes those above it, and leaves the others alone. */
  lemma AddedMarkers(w: World, dirs: Dirs, p: string)
    ensures var id, after := Allocate(w, dirs, p), Added(w, dirs, p);
      id in after && after[id] == Some(p)
      && (forall k :: k in dirs && k != id ==> k in after && after[k] == dirs[k])
      && (forall k :: k in after && k !in dirs && k != id ==> Dots(k) && after[k] == None)
  {
    hide Allocate;
  }

  lemma AddedShape(w: World, dirs: Dirs, p: string)
    requires Shaped(dirs)
    ensures Shaped(Added(w, dirs, p))
  {
    hide Allocate;
  }

  lemma ApartPrefix(w: World, paths: seq<string>, p: string)
    requires Apart(w, paths + [p])
    ensures Apart(w, paths)
  {
    hide ProjectId, CollisionId, Stable;
    assert forall q :: q in paths ==> q in paths + [p];
  }

  lemma DotsTakenPrefix(w: World, start: Dirs, paths: seq<string>, p: string)
    requires DotsTaken(w, start, paths + [p])
    ensures DotsTaken(w, start, paths)
  {
    hide ProjectId, Dots;
    assert forall q :: q in paths ==> q in paths + [p];
  }

  /** After any run of additions every path sits in exactly one directory, the one `IdOf` names. */
  lemma {:induction false} RunSettles(w: World, start: Dirs, paths: seq<string>)
    requires Fresh(w, start, paths) && Apart(w, paths)
    ensures Settled(w, start, paths, Run(w, start, paths))
  {
    hide ProjectId, CollisionId, Apart, DotsTaken, IsFirst, IdOf, Added, Dots;
    if paths != [] {
      var front, last := paths[..|paths| - 1], paths[|paths| - 1];
      assert paths == front + [last];
      ApartPrefix(w, front, last);
      DotsTakenPrefix(w, start, front, last);
      RunSettles(w, start, front);
      hide Settled;
      StaysSettled(w, start, front, Run(w, start, front), last);
    }
  }

  lemma FreshDots(w: World, start: Dirs, paths: seq<string>)
    requires Fresh(w, start, paths)
    ensures DotsTaken(w, start, paths)
  {
  }

  /** Adding a path again changes nothing and returns the identifier it has. */
  lemma ReAddingIsIdle(w: World, start: Dirs, paths: seq<string>, p: string)
    requires Fresh(w, start, paths) && Apart(w, paths) && p in paths
    ensures Allocate(w, Run(w, start, paths), p) == IdOf(w, start, paths, p)
    ensures Added(w, Run(w, start, paths), p) == Run(w, start, paths)
  {
    hide *;
    FreshDots(w, start, paths);
    RunSettles(w, start, paths);
    AllocateKnown(w, start, paths, Run(w, start, paths), p);
  }

  /** A search by path, which visits the directories listed, finds its identifier and no other. */
  lemma LookupFindsOwner(w: World, start: Dirs, paths: seq<string>, p: string, id: string)
    requires Fresh(w, start, paths) && Apart(w, paths) && p in paths
    ensures var dirs := Run(w, start, paths);
      id in dirs && Listed(dirs, id) && Owns(w, dirs[id], p) <==> id == IdOf(w, start, paths, p)
  {
    var dirs := Run(w, start, paths);
    RunSettles(w, start, paths);
    MarkersTellApart(w, paths, p, p);
    IdIsPlain(w, start, paths, p);
    NoMarker(w, p);
    hide Run, ProjectId, CollisionId, Owns, Apart, IsFirst, IdOf, Dots;
    if id in dirs && dirs[id] != None {
      var q := MarkerAt(w, start, paths, dirs, id);
      MarkersTellApart(w, paths, p, q);
    }
  }

  ghost predicate AllFound(w: World, dirs: Dirs, paths: seq<string>) { forall p :: p in paths ==> Found(w, dirs, p) }

  /** Every path is found after every run iff no path could be given a directory above those of projects. */
  lemma AllFoundIffDotsTaken(w: World, start: Dirs, paths: seq<string>)
    requires Unmarked(start) && Shaped(start) && Apart(w, paths)
    ensures DotsTaken(w, start, paths)
      <==> forall added: seq<string> ::
             (forall p :: p in added ==> p in paths) ==> AllFound(w, Run(w, start, added), added)
  {
    hide *;
    if DotsTaken(w, start, paths) {
      forall added: seq<string> | forall p :: p in added ==> p in paths
        ensures AllFound(w, Run(w, start, added), added)
      {
        TakenSoFound(w, start, paths, added);
      }
    } else {
      var added := NotFound(w, start, paths);
    }
  }

  lemma TakenSoFound(w: World, start: Dirs, paths: seq<string>, added: seq<string>)
    requires Unmarked(start) && Shaped(start) && DotsTaken(w, start, paths) && Apart(w, paths)
    requires forall p :: p in added ==> p in paths
    ensures AllFound(w, Run(w, start, added), added)
  {
    hide ProjectId, CollisionId, Stable, Dots, Owns;
    assert Apart(w, added) && Fresh(w, start, added);
    hide *;
    forall p | p in added
      ensures Found(w, Run(w, start, added), p)
    {
      var id := IdOf(w, start, added, p);
      LookupFindsOwner(w, start, added, p, id);
      ListedIsFound(w, Run(w, start, added), p, id);
    }
    EachFound(w, Run(w, start, added), added);
  }

  lemma ListedIsFound(w: World, dirs: Dirs, p: string, id: string)
    requires id in dirs && Listed(dirs, id) && Owns(w, dirs[id], p)
    ensures Found(w, dirs, p)
  {
    hide Owns;
  }

  lemma EachFound(w: World, dirs: Dirs, paths: seq<string>)
    requires forall p :: p in paths ==> Found(w, dirs, p)
    ensures AllFound(w, dirs, paths)
  {
    hide Found;
  }

  lemma NotFound(w: World, start: Dirs, paths: seq<string>) returns (added: seq<string>)
    requires !DotsTaken(w, start, paths) && Unmarked(start)
    ensures (forall p :: p in added ==> p in paths) && !AllFound(w, Run(w, start, added), added)
  {
    hide ProjectId, Dots, Found;
    var p :| p in paths && Dots(ProjectId(w, p)) && ProjectId(w, p) !in start;
    added := [p];
    assert added[..0] == [] && Run(w, start, []) == start && Run(w, start, added) == Added(w, start, p);
    UnmarkedFindsNothing(w, start, p);
    LegacyIdIsSegment(w.resolve(p));
    SlugNotFound(w, start, p);
    assert p in added;
  }

  lemma SlugNotFound(w: World, start: Dirs, p: string)
    requires Dots(ProjectId(w, p)) && ProjectId(w, p) !in start && !Found(w, start, p)
    ensures !Found(w, Added(w, start, p), p)
  {
    LegacyIdIsSegment(w.resolve(p));
    hide LegacyId, Dots, DotsOnly, Found, Added, Owns;
    FoundAfterAddingIff(w, start, p);
  }

  lemma UnmarkedFindsNothing(w: World, start: Dirs, p: string)
    requires Unmarked(start)
    ensures !Found(w, start, p)
  {
    NoMarker(w, p);
    hide Owns;
  }

  // ---- Runs with deletions

  datatype Step = Add(path: string) | Delete(id: string)

  function Do(w: World, dirs: Dirs, step: Step): Dirs {
    match step
    case Add(path) => Added(w, dirs, path)
    case Delete(id) => Deleted(dirs, id)
  }

  /** Every marker stands in a directory named after its path, with or without the digest. */
  ghost predicate Orderly(w: World, paths: seq<string>, dirs: Dirs) {
    forall id :: id in dirs && dirs[id].Some? ==>
      dirs[id].value in paths && (id == ProjectId(w, dirs[id].value) || id == CollisionId(w, dirs[id].value))
  }

  lemma AllocateEither(w: World, dirs: Dirs, p: string)
    ensures Allocate(w, dirs, p) == ProjectId(w, p) || Allocate(w, dirs, p) == CollisionId(w, p)
  {
    hide ProjectId, CollisionId, Owns;
  }

  /** The markers that are still there are the ones that were there. */
  ghost predicate KeepsMarkers(before: Dirs, after: Dirs) {
    forall id :: id in before && id in after && before[id].Some? ==> after[id] == before[id]
  }

  /** The step adds a path whose slug is held by another path, with a marker that reads back as the path added. */
  predicate TakesOver(w: World, dirs: Dirs, step: Step) {
    step.Add? && var id := ProjectId(w, step.path);
    id in dirs && Owns(w, dirs[id], step.path) && dirs[id] != Some(step.path)
  }

  predicate Within(paths: seq<string>, steps: seq<Step>) { forall s :: s in steps && s.Add? ==> s.path in paths }

  lemma StepStaysOrderly(w: World, paths: seq<string>, dirs: Dirs, step: Step)
    requires Orderly(w, paths, dirs) && Within(paths, [step])
    ensures Orderly(w, paths, Do(w, dirs, step))
  {
    assert step in [step];
    if step.Add? {
      AddedMarkers(w, dirs, step.path);
      AllocateEither(w, dirs, step.path);
    }
    hide ProjectId, CollisionId, Owns, Added, Allocate;
  }

  /** With digests apart, a step puts one path's marker in another's place iff it takes over. */
  lemma StepKeepsMarkersIff(w: World, paths: seq<string>, dirs: Dirs, step: Step)
    requires DigestsApart(w, paths) && Orderly(w, paths, dirs) && Within(paths, [step])
    ensures KeepsMarkers(dirs, Do(w, dirs, step)) <==> !TakesOver(w, dirs, step)
  {
    assert step in [step];
    hide DigestsApart, ProjectId, CollisionId, Owns;
    if step.Add? {
      var q, after := step.path, Do(w, dirs, step);
      AddedMarkers(w, dirs, q);
      AllocateEither(w, dirs, q);
      hide Added;
      forall id | id in dirs && dirs[id].Some? && dirs[id].value != q
        ensures after[id] == dirs[id] || (id == ProjectId(w, q) && TakesOver(w, dirs, step))
      {
        var p := dirs[id].value;
        TakenOverIff(w, dirs, id, p, q);
        CollisionsApart(w, paths, p, q);
        CollisionsApart(w, paths, q, p);
      }
      NoMarker(w, q);
      IdsDiffer(w, q);
    }
  }

  /** No step ever puts one path's marker in another's place, if all markers read back as their paths. */
  lemma NoMarkerIsOverwritten(w: World, paths: seq<string>, dirs: Dirs, step: Step)
    requires Apart(w, paths) && Orderly(w, paths, dirs)
    requires step.Add? ==> step.path in paths
    ensures Orderly(w, paths, Do(w, dirs, step)) && KeepsMarkers(dirs, Do(w, dirs, step))
    ensures step.Add? ==>
      var id, after := Allocate(w, dirs, step.path), Do(w, dirs, step);
      id in after && after[id] == Some(step.path)
  {
    StepStaysOrderly(w, paths, dirs, step);
    StepKeepsMarkersIff(w, paths, dirs, step);
    hide DigestsApart, ProjectId, CollisionId, Owns, KeepsMarkers;
    if TakesOver(w, dirs, step) {
      NoMarker(w, step.path);
      MarkersTellApart(w, paths, step.path, dirs[ProjectId(w, step.path)].value);
    }
  }

  /** In the whole run nobody's marker is replaced by another's. */
  ghost predicate NobodyLoses(w: World, dirs: Dirs, steps: seq<Step>)
    decreases steps
  {
    steps != [] ==>
      var after := Do(w, dirs, steps[0]);
      KeepsMarkers(dirs, after) && NobodyLoses(w, after, steps[1..])
  }

  predicate NoTakeOver(w: World, dirs: Dirs, steps: seq<Step>)
    decreases steps
  {
    steps != [] ==> !TakesOver(w, dirs, steps[0]) && NoTakeOver(w, Do(w, dirs, steps[0]), steps[1..])
  }

  /** In a run nobody's marker is replaced iff none of its steps takes over. */
  lemma {:induction false} RunKeepsMarkersIff(w: World, paths: seq<string>, dirs: Dirs, steps: seq<Step>)
    requires DigestsApart(w, paths) && Orderly(w, paths, dirs) && Within(paths, steps)
    ensures NobodyLoses(w, dirs, steps) <==> NoTakeOver(w, dirs, steps)
    decreases steps
  {
    hide DigestsApart, Orderly, Do, TakesOver, KeepsMarkers;
    if steps != [] {
      assert steps[0] in steps && forall s :: s in steps[1..] ==> s in steps;
      assert Within(paths, [steps[0]]) && Within(paths, steps[1..]);
      StepStaysOrderly(w, paths, dirs, steps[0]);
      StepKeepsMarkersIff(w, paths, dirs, steps[0]);
      RunKeepsMarkersIff(w, paths, Do(w, dirs, steps[0]), steps[1..]);
    }
  }

  /** The marker of `p` reads back as `q`, which has the same slug. */
  predicate Clash(w: World, p: string, q: string) {
    p != q && Owns(w, Some(p), q) && ProjectId(w, p) == ProjectId(w, q)
  }

  ghost predicate NoClash(w: World, paths: seq<string>) {
    forall p, q :: p in paths && q in paths ==> !Clash(w, p, q)
  }

  /** Only a clash lets a step take over. */
  lemma TakeOverIsClash(w: World, paths: seq<string>, dirs: Dirs, step: Step)
    requires DigestsApart(w, paths) && Orderly(w, paths, dirs) && Within(paths, [step]) && TakesOver(w, dirs, step)
    ensures var held := dirs[ProjectId(w, step.path)];
      held.Some? && held.value in paths && step.path in paths && Clash(w, held.value, step.path)
      && ProjectId(w, held.value) == ProjectId(w, step.path)
  {
    assert step in [step];
    NoMarker(w, step.path);
    hide ProjectId, CollisionId, Owns;
  }

  lemma {:induction false} NoClashNoTakeOver(w: World, paths: seq<string>, dirs: Dirs, steps: seq<Step>)
    requires DigestsApart(w, paths) && Orderly(w, paths, dirs) && Within(paths, steps) && NoClash(w, paths)
    ensures NoTakeOver(w, dirs, steps)
    decreases steps
  {
    hide DigestsApart, Orderly, Do, TakesOver, Clash;
    if steps != [] {
      assert steps[0] in steps && forall s :: s in steps[1..] ==> s in steps;
      assert Within(paths, [steps[0]]) && Within(paths, steps[1..]);
      StepStaysOrderly(w, paths, dirs, steps[0]);
      if TakesOver(w, dirs, steps[0]) {
        TakeOverIsClash(w, paths, dirs, steps[0]);
      }
      NoClashNoTakeOver(w, paths, Do(w, dirs, steps[0]), steps[1..]);
    }
  }

  /** With the slug free, adding two clashing paths takes the first one's directory. */
  lemma ClashTakesOver(w: World, dirs: Dirs, p: string, q: string)
    requires Clash(w, p, q) && ProjectId(w, p) !in dirs
    ensures !NobodyLoses(w, dirs, [Add(p), Add(q)])
  {
    var slug, first := ProjectId(w, p), Added(w, dirs, p);
    hide ProjectId, CollisionId, Owns;
    assert first[slug] == Some(p) && Added(w, first, q)[slug] == Some(q);
    assert [Add(p), Add(q)][1..] == [Add(q)];
    assert !KeepsMarkers(first, Do(w, first, Add(q)));
    assert !NobodyLoses(w, first, [Add(q)]);
  }

  /** Among paths with digests apart nobody's marker is replaced, in any run of additions and deletions, iff no two
      clash. */
  lemma NobodyLosesIffNoClash(w: World, paths: seq<string>, start: Dirs)
    requires DigestsApart(w, paths) && Orderly(w, paths, start)
    ensures NoClash(w, paths) <==> forall steps :: Within(paths, steps) ==> NobodyLoses(w, start, steps)
  {
    hide *;
    if NoClash(w, paths) {
      forall steps | Within(paths, steps)
        ensures NobodyLoses(w, start, steps)
      {
        NoClashNoTakeOver(w, paths, start, steps);
        RunKeepsMarkersIff(w, paths, start, steps);
      }
    } else {
      var steps := LosingRun(w, paths, start);
    }
  }

  lemma LosingRun(w: World, paths: seq<string>, start: Dirs) returns (steps: seq<Step>)
    requires !NoClash(w, paths)
    ensures Within(paths, steps) && !NobodyLoses(w, start, steps)
  {
    hide Clash;
    var p, q :| p in paths && q in paths && Clash(w, p, q);
    var slug := ProjectId(w, p);
    hide ProjectId, Added;
    steps := [Delete(slug)] + [Add(p), Add(q)];
    assert steps[1..] == [Add(p), Add(q)];
    ClashTakesOver(w, Deleted(start, slug), p, q);
  }

  // ---- The same for runs that only add

  function Additions(paths: seq<string>): seq<Step> { seq(|paths|, i requires 0 <= i < |paths| => Add(paths[i])) }

  /** The directories without marker that stand at the slug of a path stay that way. */
  ghost predicate SlugsStay(w: World, paths: seq<string>, start: Dirs, dirs: Dirs) {
    forall p :: p in paths && ProjectId(w, p) in start ==> ProjectId(w, p) in dirs && dirs[ProjectId(w, p)] == None
  }

  lemma SlugsStayAfter(w: World, paths: seq<string>, start: Dirs, dirs: Dirs, q: string)
    requires DigestsApart(w, paths) && SlugsStay(w, paths, start, dirs) && q in paths
    ensures SlugsStay(w, paths, start, Added(w, dirs, q))
  {
    hide ProjectId, CollisionId, Owns;
    NoMarker(w, q);
  }

  /** Clashing paths have a slug that is taken from the start. */
  ghost predicate ClashesBlocked(w: World, paths: seq<string>, start: Dirs) {
    forall p, q :: p in paths && q in paths && Clash(w, p, q) ==> ProjectId(w, p) in start
  }

  lemma {:induction false} BlockedNoTakeOver(w: World, paths: seq<string>, start: Dirs, dirs: Dirs, added: seq<string>)
    requires DigestsApart(w, paths) && Orderly(w, paths, dirs) && SlugsStay(w, paths, start, dirs)
    requires ClashesBlocked(w, paths, start) && forall p :: p in added ==> p in paths
    ensures NoTakeOver(w, dirs, Additions(added))
    decreases added
  {
    hide DigestsApart, Orderly, ProjectId, TakesOver, Clash, Added;
    if added != [] {
      var q, steps := added[0], Additions(added);
      assert q in added && forall p :: p in added[1..] ==> p in added;
      assert steps[0] == Add(q) && steps[1..] == Additions(added[1..]);
      StepStaysOrderly(w, paths, dirs, Add(q));
      SlugsStayAfter(w, paths, start, dirs, q);
      if TakesOver(w, dirs, Add(q)) {
        TakeOverIsClash(w, paths, dirs, Add(q));
      }
      BlockedNoTakeOver(w, paths, start, Added(w, dirs, q), added[1..]);
    }
  }

  lemma BlockedLosesNobody(w: World, paths: seq<string>, start: Dirs, added: seq<string>)
    requires DigestsApart(w, paths) && Unmarked(start) && ClashesBlocked(w, paths, start)
    requires forall p :: p in added ==> p in paths
    ensures NobodyLoses(w, start, Additions(added))
  {
    assert Orderly(w, paths, start) && SlugsStay(w, paths, start, start);
    assert Within(paths, Additions(added));
    hide *;
    BlockedNoTakeOver(w, paths, start, start, added);
    RunKeepsMarkersIff(w, paths, start, Additions(added));
  }

  lemma LosingAdditions(w: World, paths: seq<string>, start: Dirs) returns (added: seq<string>)
    requires !ClashesBlocked(w, paths, start)
    ensures (forall p :: p in added ==> p in paths) && !NobodyLoses(w, start, Additions(added))
  {
    var p, q :| p in paths && q in paths && Clash(w, p, q) && ProjectId(w, p) !in start;
    hide Clash, ProjectId, NobodyLoses;
    added := [p, q];
    ClashTakesOver(w, start, p, q);
    assert Additions(added) == [Add(p), Add(q)];
  }

  /** In runs that only add, a clash does no harm iff the slug is a directory without marker from the start. */
  lemma AdditionsLoseNobodyIff(w: World, paths: seq<string>, start: Dirs)
    requires DigestsApart(w, paths) && Unmarked(start)
    ensures ClashesBlocked(w, paths, start)
      <==> forall added: seq<string> ::
             (forall p :: p in added ==> p in paths) ==> NobodyLoses(w, start, Additions(added))
  {
    hide *;
    if ClashesBlocked(w, paths, start) {
      forall added: seq<string> | forall p :: p in added ==> p in paths
        ensures NobodyLoses(w, start, Additions(added))
      {
        BlockedLosesNobody(w, paths, start, added);
      }
    } else {
      var added := LosingAdditions(w, paths, start);
    }
  }

  // ---- Deletions move other paths

  /**
   Deleting a directory changes the identifier that an added path is given next iff the path holds the longer
   identifier and its slug goes: because it is what is deleted, or stands below it.
   */
  lemma DeletionMovesIff(w: World, start: Dirs, paths: seq<string>, p: string, id: string)
    requires Fresh(w, start, paths) && Apart(w, paths) && p in paths
    ensures var dirs := Run(w, start, paths);
      Allocate(w, Deleted(dirs, id), p) != IdOf(w, start, paths, p)
      <==> IdOf(w, start, paths, p) == CollisionId(w, p) && GoesWith(ProjectId(w, p), id)
  {
    var dirs := Run(w, start, paths);
    RunSettles(w, start, paths);
    AllocateKnown(w, start, paths, dirs, p);
    SlugIsTaken(w, start, paths, dirs, p);
    IdsDiffer(w, p);
    hide Run, ProjectId, CollisionId, Owns, Apart, DotsTaken, IsFirst, Settled;
    assert GoesWith(ProjectId(w, p), id) ==> id in dirs by { ShapedAbove(dirs, ProjectId(w, p), id); }
  }

  lemma ShapedAbove(dirs: Dirs, slug: string, id: string)
    requires Shaped(dirs) && slug in dirs
    ensures GoesWith(slug, id) ==> id in dirs
  {
  }

  /** When its slug is deleted and the path is added again it has a second directory, unless the slug is of dots:
      then the first one is gone. */
  lemma DeletionDuplicates(w: World, start: Dirs, paths: seq<string>, p: string)
    requires Fresh(w, start, paths) && Apart(w, paths) && p in paths
    requires IdOf(w, start, paths, p) == CollisionId(w, p)
    ensures var dirs := Added(w, Deleted(Run(w, start, paths), ProjectId(w, p)), p);
      ProjectId(w, p) in dirs && dirs[ProjectId(w, p)] == Some(p)
      && (CollisionId(w, p) in dirs <==> !Dots(ProjectId(w, p)))
      && (CollisionId(w, p) in dirs ==> dirs[CollisionId(w, p)] == Some(p))
  {
    var dirs := Run(w, start, paths);
    RunSettles(w, start, paths);
    SlugIsTaken(w, start, paths, dirs, p);
    IdsDiffer(w, p);
    NoOneHasIt(w, Deleted(dirs, ProjectId(w, p)), p);
    AddedMarkers(w, Deleted(dirs, ProjectId(w, p)), p);
    hide Run, ProjectId, CollisionId, Owns, Apart, DotsTaken, IsFirst, Added, Allocate;
    assert dirs[CollisionId(w, p)] == Some(p);
    hide Settled;
    assert !Dots(CollisionId(w, p));
  }

  lemma NoOneHasIt(w: World, dirs: Dirs, p: string)
    requires ProjectId(w, p) !in dirs
    ensures Allocate(w, dirs, p) == ProjectId(w, p)
  {
  }

  // ---- Deletions by path

  /** The directory of another path is gone. */
  predicate LosesAnother(w: World, start: Dirs, paths: seq<string>, q: string, after: Dirs) {
    exists p :: p in paths && p != q && IdOf(w, start, paths, p) !in after
  }

  /**
   Deleting by path takes the directory of another path iff the path was never added and its slug is somebody's
   identifier, or one or two dots.
   */
  lemma DeletionTakesOthersIff(w: World, start: Dirs, paths: seq<string>, q: string, id: string)
    requires Fresh(w, start, paths) && Apart(w, paths + [q]) && q != "" && q[0] == '/'
    requires ResolvesTo(w, Run(w, start, paths), q, q, id)
    ensures LosesAnother(w, start, paths, q, Deleted(Run(w, start, paths), id))
      <==> q !in paths && ((ProjectId(w, q) !in start && exists p :: p in paths && ProjectId(w, p) == ProjectId(w, q))
                           || (paths != [] && Dots(ProjectId(w, q))))
  {
    hide *;
    var dirs := Run(w, start, paths);
    ApartPrefix(w, paths, q);
    RunSettles(w, start, paths);
    FreshDots(w, start, paths);
    if q in paths {
      ResolvesToOwn(w, start, paths, dirs, q, id);
      OwnDeletion(w, start, paths, dirs, q);
    } else {
      ResolvesToSlug(w, start, paths, dirs, q, id);
      SlugDeletion(w, start, paths, dirs, q);
    }
  }

  lemma ResolvesToOwn(w: World, start: Dirs, paths: seq<string>, dirs: Dirs, q: string, id: string)
    requires DotsTaken(w, start, paths) && Apart(w, paths) && Settled(w, start, paths, dirs) && q in paths
    requires q != "" && q[0] == '/' && ResolvesTo(w, dirs, q, q, id)
    ensures id == IdOf(w, start, paths, q)
  {
    var mine := IdOf(w, start, paths, q);
    assert mine in dirs && dirs[mine] == Some(q);
    assert w.resolve(q) == q;
    MarkersTellApart(w, paths, q, q);
    IdIsPlain(w, start, paths, q);
    NoMarker(w, q);
    hide ProjectId, CollisionId, Owns, Apart, DotsTaken, IsFirst, IdOf, Dots;
    assert Listed(dirs, mine) && Owns(w, dirs[mine], w.resolve(q));
    hide Settled;
    assert id in dirs && Owns(w, dirs[id], q);
    var r := MarkerAt(w, start, paths, dirs, id);
    MarkersTellApart(w, paths, q, r);
  }

  lemma ResolvesToSlug(w: World, start: Dirs, paths: seq<string>, dirs: Dirs, q: string, id: string)
    requires Apart(w, paths + [q]) && Settled(w, start, paths, dirs) && q !in paths
    requires q != "" && q[0] == '/' && ResolvesTo(w, dirs, q, q, id)
    ensures id == ProjectId(w, q)
  {
    assert q in paths + [q] && w.resolve(q) == q;
    NoMarker(w, q);
    hide ProjectId, CollisionId, Owns, Apart, IsFirst, IdOf, Dots, Settled;
    if k :| k in dirs && Owns(w, dirs[k], q) {
      var r := MarkerAt(w, start, paths, dirs, k);
      MarkersTellApart(w, paths + [q], q, r);
    }
  }

  lemma OwnDeletion(w: World, start: Dirs, paths: seq<string>, dirs: Dirs, q: string)
    requires DotsTaken(w, start, paths) && Apart(w, paths) && Settled(w, start, paths, dirs) && q in paths
    ensures !LosesAnother(w, start, paths, q, Deleted(dirs, IdOf(w, start, paths, q)))
  {
    hide ProjectId, CollisionId, Owns, Apart, DotsTaken, IsFirst, IdOf;
    IdIsPlain(w, start, paths, q);
    forall p | p in paths && p != q
      ensures IdOf(w, start, paths, p) in Deleted(dirs, IdOf(w, start, paths, q))
    {
      IdsAreDistinct(w, start, paths, p, q);
    }
  }

  /** The name of a project stands for its own directory, whatever path is given with it. */
  lemma NameStandsForItself(w: World, start: Dirs, paths: seq<string>, p: string, path: string, id: string)
    requires Fresh(w, start, paths) && Apart(w, paths) && p in paths
    ensures var name := IdOf(w, start, paths, p);
      name != "" && name[0] != '/' && (ResolvesTo(w, Run(w, start, paths), name, path, id) <==> id == name)
  {
    hide *;
    var dirs, name := Run(w, start, paths), IdOf(w, start, paths, p);
    RunSettles(w, start, paths);
    FreshDots(w, start, paths);
    IdIsPlain(w, start, paths, p);
    IdIsRelative(w, start, paths, p);
    OwnMarker(w, start, paths, dirs, p);
    MarkedNameIff(w, dirs, name, path, id);
  }

  lemma IdIsRelative(w: World, start: Dirs, paths: seq<string>, p: string)
    ensures var name := IdOf(w, start, paths, p); name != "" && name[0] != '/'
  {
    LegacyIdIsSafe(w.resolve(p));
    assert !SafeChar('/');
    var slug := LegacyId(w.resolve(p));
    assert slug[0] in slug;
    hide LegacyId, IsFirst, SafeChar;
  }

  lemma OwnMarker(w: World, start: Dirs, paths: seq<string>, dirs: Dirs, p: string)
    requires Settled(w, start, paths, dirs) && Apart(w, paths) && p in paths && !Dots(IdOf(w, start, paths, p))
    ensures IsMarked(dirs, IdOf(w, start, paths, p))
  {
    hide LegacyId, CollisionId, IsFirst, IdOf, Dots, Trim;
    assert Stable(w, p);
  }

  lemma MarkedNameIff(w: World, dirs: Dirs, name: string, path: string, id: string)
    requires IsMarked(dirs, name) && name != "" && name[0] != '/'
    ensures ResolvesTo(w, dirs, name, path, id) <==> id == name
  {
    hide IsMarked, Owns, ProjectId;
  }

  /** What a slug deletes: everything if it is of dots, else the directory of the path that has it. */
  lemma SlugDeletion(w: World, start: Dirs, paths: seq<string>, dirs: Dirs, q: string)
    requires DotsTaken(w, start, paths) && Apart(w, paths + [q]) && Settled(w, start, paths, dirs) && q !in paths
    ensures LosesAnother(w, start, paths, q, Deleted(dirs, ProjectId(w, q)))
      <==> (ProjectId(w, q) !in start && exists p :: p in paths && ProjectId(w, p) == ProjectId(w, q))
           || (paths != [] && Dots(ProjectId(w, q)))
  {
    hide ProjectId, CollisionId, Owns, Apart, DotsTaken, IsFirst, IdOf, Settled, Deleted, Dots;
    var slug := ProjectId(w, q);
    forall p | p in paths
      ensures IdOf(w, start, paths, p) !in Deleted(dirs, slug) <==> IdOf(w, start, paths, p) == slug || Dots(slug)
    {
      IdIsPlain(w, start, paths, p);
      PlainGoesIff(w, start, paths, dirs, p, slug);
    }
    SlugHolderIff(w, start, paths, q);
    assert paths != [] ==> paths[0] in paths;
  }

  lemma PlainGoesIff(w: World, start: Dirs, paths: seq<string>, dirs: Dirs, p: string, id: string)
    requires Settled(w, start, paths, dirs) && p in paths && !Dots(IdOf(w, start, paths, p))
    ensures IdOf(w, start, paths, p) !in Deleted(dirs, id) <==> IdOf(w, start, paths, p) == id || Dots(id)
  {
    hide ProjectId, CollisionId, IdOf;
    var mine := IdOf(w, start, paths, p);
    assert mine in dirs && "." in dirs && ".." in dirs;
    hide Settled;
  }

  /** A slug is somebody's identifier iff it was not taken at the start and is the slug of some path. */
  lemma SlugHolderIff(w: World, start: Dirs, paths: seq<string>, q: string)
    requires Apart(w, paths + [q]) && q !in paths
    ensures (exists p :: p in paths && IdOf(w, start, paths, p) == ProjectId(w, q))
      <==> ProjectId(w, q) !in start && exists p :: p in paths && ProjectId(w, p) == ProjectId(w, q)
  {
    ApartDigests(w, paths + [q]);
    hide ProjectId, CollisionId, Apart, DigestsApart, IsFirst;
    forall p | p in paths
      ensures CollisionId(w, p) != ProjectId(w, q)
    {
      assert p in paths + [q] && q in paths + [q];
      CollisionsApart(w, paths + [q], p, q);
    }
    if p :| p in paths && ProjectId(w, p) == ProjectId(w, q) {
      var first := SomeoneIsFirst(w, paths, p);
    }
  }

  // ---- Two paths of one slug

  function TwoPaths(): World { World(p => p, p => if p == "/a" then "0123456789" else "9876543210") }

  lemma TwoIds()
    ensures var w := TwoPaths();
      ProjectId(w, "/a") == ProjectId(w, "/-a") == "a"
      && CollisionId(w, "/a") == "a--0123456789" && CollisionId(w, "/-a") == "a--9876543210"
  {
    ShortSlugs();
    hide LegacyId;
  }

  lemma TwoStable()
    ensures Stable(TwoPaths(), "/a") && Stable(TwoPaths(), "/-a")
  {
    SlashStable("/a");
    SlashStable("/-a");
  }

  lemma SlashStable(p: string)
    requires p == "/a" || p == "/-a"
    ensures Stable(TwoPaths(), p)
  {
    assert TrimLeft(ScriptSpace, p) == p && TrimRight(ScriptSpace, p) == p;
    hide TrimLeft, TrimRight;
  }

  lemma TwoApart()
    ensures Apart(TwoPaths(), ["/a", "/-a"])
  {
    TwoIds();
    TwoStable();
    hide ProjectId, CollisionId, Owns;
    assert "0123456789"[0] != "9876543210"[0];
    assert |"a--0123456789"| == |"a--9876543210"| == 13;
  }

  lemma TwoFirst()
    ensures IsFirst(TwoPaths(), ["/a", "/-a"], "/a") && !IsFirst(TwoPaths(), ["/a", "/-a"], "/-a")
  {
    TwoIds();
    var paths := ["/a", "/-a"];
    hide ProjectId, CollisionId;
    assert paths[0] == "/a" && paths[1] == "/-a" && |paths| == 2 && paths[0] != paths[1];
  }

  lemma TwoFresh(start: Dirs)
    requires Rooted(start) && start.Keys == {".", ".."}
    ensures Fresh(TwoPaths(), start, ["/a", "/-a"])
    ensures var w, paths := TwoPaths(), ["/a", "/-a"];
      IdOf(w, start, paths, "/a") == "a" && IdOf(w, start, paths, "/-a") == "a--9876543210"
  {
    TwoIds();
    TwoFirst();
    hide ProjectId, CollisionId, IsFirst;
    assert "a" !in start;
  }

  lemma GoesWithItself(id: string)
    ensures GoesWith(id, id)
  {
  }

  /** `/a` and `/-a` are two such paths: when the first is deleted the second moves, and keeps its old directory. */
  lemma DashMoves(start: Dirs)
    requires Rooted(start) && start.Keys == {".", ".."}
    ensures var w, paths := TwoPaths(), ["/a", "/-a"];
      var dirs := Run(w, start, paths);
      Fresh(w, start, paths) && Apart(w, paths)
      && IdOf(w, start, paths, "/a") == "a" && IdOf(w, start, paths, "/-a") == "a--9876543210"
      && Allocate(w, Deleted(dirs, "a"), "/-a") == "a"
      && var after := Added(w, Deleted(dirs, "a"), "/-a");
        "a" in after && "a--9876543210" in after && after["a"] == after["a--9876543210"] == Some("/-a")
  {
    hide *;
    var w, paths := TwoPaths(), ["/a", "/-a"];
    TwoIds();
    TwoApart();
    TwoFresh(start);
    GoesWithItself("a");
    DeletionMovesIff(w, start, paths, "/-a", "a");
    DeletionDuplicates(w, start, paths, "/-a");
    AllocateEither(w, Deleted(Run(w, start, paths), "a"), "/-a");
    assert !Dots("a") by { PlainA(); }
  }

  lemma PlainA()
    ensures !Dots("a")
  {
  }
}
