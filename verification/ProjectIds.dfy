/**
 Project identifiers (ui/server/projects.js, src/pilot/paths.ts): a directory per project, whose `.cwd` marker holds
 the project's path. Identifiers are slugs of paths, so different paths can share one; the second of them gets a
 longer identifier with a digest. Resolving a path and digesting it are parameters.

 Identifiers name directories below `projects`, so `.` is that directory itself and `..` the home it stands in. They
 are part of the model: they are made with the first directory below them, they are never listed, and whoever removes
 them removes what is below.
 */
module ProjectIds {
  import opened Options
  import opened ProjectSlugs
  import opened Text

  datatype World = World(resolve: string -> string, digest: string -> string)

  function ProjectId(w: World, path: string): string { LegacyId(w.resolve(path)) }

  function CollisionId(w: World, path: string): string {
    ProjectId(w, path) + "--" + w.digest(w.resolve(path))
  }

  lemma IdsDiffer(w: World, p: string)
    ensures ProjectId(w, p) != CollisionId(w, p) && !Dots(CollisionId(w, p))
  {
    LegacyIdIsSafe(w.resolve(p));
    hide LegacyId;
    assert |CollisionId(w, p)| > |ProjectId(w, p)| + 1;
  }

  // ---- Directories and their markers

  /** Directory names with their `.cwd` markers; a directory may have none. */
  type Dirs = map<string, Option<string>>

  function WithDir(dirs: Dirs, id: string): Dirs { if id in dirs then dirs else dirs[id := None] }

  /** Making a directory makes those above it. */
  function WithParents(dirs: Dirs, id: string): Dirs {
    if id == ".." then dirs
    else if id == "." then WithDir(dirs, "..")
    else WithDir(WithDir(dirs, ".."), ".")
  }

  /** The directory `k` goes when `id` is removed. */
  predicate GoesWith(k: string, id: string) { k == id || id == ".." || (id == "." && k != "..") }

  function Deleted(dirs: Dirs, id: string): Dirs {
    if id in dirs then map k | k in dirs && !GoesWith(k, id) :: dirs[k] else dirs
  }

  /** What a listing of `projects` shows. */
  predicate Listed(dirs: Dirs, id: string) { id in dirs && !Dots(id) }

  /** A marker is trimmed and resolved when it is read. */
  predicate Owns(w: World, marker: Option<string>, path: string) {
    marker.Some? && Trim(ScriptSpace, marker.value) != "" && w.resolve(Trim(ScriptSpace, marker.value)) == path
  }

  function Allocate(w: World, dirs: Dirs, path: string): string {
    var id := ProjectId(w, path);
    if id !in dirs || Owns(w, dirs[id], path) then id else CollisionId(w, path)
  }

  function Added(w: World, dirs: Dirs, path: string): Dirs {
    var id := Allocate(w, dirs, path);
    WithParents(dirs, id)[id := Some(path)]
  }

  /** The path survives being written to a marker and read back. */
  predicate Stable(w: World, path: string) { w.resolve(path) == path && Owns(w, Some(path), path) }

  class ProjectStore {
    var dirs: Dirs
    var directoryCache: map<string, string>

    constructor ()
      ensures dirs == map[] && directoryCache == map[]
    {
      dirs, directoryCache := map[], map[];
    }

    /** `allocateProjectIdForPath` */
    method AllocateProjectId(w: World, absolute: string) returns (id: string)
      ensures id == Allocate(w, dirs, absolute)
    {
      hide ProjectId, Owns;
      var legacyId := ProjectId(w, absolute);
      if legacyId !in dirs {
        return legacyId;
      }
      if Owns(w, dirs[legacyId], absolute) {
        return legacyId;
      }
      return CollisionId(w, absolute);
    }

    /** `addProjectManually`; an empty path is refused. */
    method AddProjectManually(w: World, projectPath: string) returns (name: Option<string>)
      modifies this
      ensures projectPath == "" ==> name == None && dirs == old(dirs) && directoryCache == old(directoryCache)
      ensures projectPath != "" ==>
        var path := w.resolve(projectPath);
        name == Some(Allocate(w, old(dirs), path))
        && dirs == Added(w, old(dirs), path)
        && directoryCache == Remembered(old(directoryCache), name.value, path)
    {
      hide Allocate, WithParents;
      if projectPath == "" {
        return None;
      }
      var absolute := w.resolve(projectPath);
      var id := AllocateProjectId(w, absolute);
      directoryCache := Remembered(directoryCache, id, absolute);
      dirs := WithParents(dirs, id);
      dirs := dirs[id := Some(absolute)];
      name := Some(id);
    }

    /** `resolveProjectIdForPathOrName`: a marked name stands for itself, else the markers are searched. */
    method ResolveProjectId(w: World, projectName: string, fullPath: string) returns (id: string)
      ensures ResolvesTo(w, dirs, projectName, fullPath, id)
    {
      hide ProjectId;
      if projectName != "" && projectName[0] != '/' && IsMarked(dirs, projectName) {
        return projectName;
      }
      var resolved := w.resolve(fullPath);
      var rest := dirs.Keys;
      while rest != {}
        invariant rest <= dirs.Keys
        invariant forall k :: Listed(dirs, k) && k !in rest ==> !Owns(w, dirs[k], resolved)
        decreases rest
      {
        var k :| k in rest;
        if Listed(dirs, k) && Owns(w, dirs[k], resolved) {
          return k;
        }
        rest := rest - {k};
      }
      return ProjectId(w, fullPath);
    }

    /** `deleteProject`: removes the directory the name or path resolves to, and what is below it. */
    method DeleteProject(w: World, projectName: string, fullPath: string, force: bool)
      returns (removed: bool, ghost id: string)
      modifies this
      ensures ResolvesTo(w, old(dirs), projectName, fullPath, id)
      ensures dirs == Deleted(old(dirs), id)
      ensures removed <==> force || id in old(dirs)
      ensures directoryCache == if removed then old(directoryCache) - {projectName} else old(directoryCache)
    {
      var projectId := ResolveProjectId(w, projectName, fullPath);
      id := projectId;
      removed := force || projectId in dirs;
      if removed {
        dirs := Deleted(dirs, projectId);
        directoryCache := directoryCache - {projectName};
      }
    }
  }

  /** A marked name stands for itself, a marked path for a directory that holds it, any other path for its slug. */
  predicate ResolvesTo(w: World, dirs: Dirs, projectName: string, fullPath: string, id: string) {
    if IsMarked(dirs, projectName) && projectName != "" && projectName[0] != '/' then id == projectName
    else if exists k :: k in dirs && Listed(dirs, k) && Owns(w, dirs[k], w.resolve(fullPath)) then
      Listed(dirs, id) && Owns(w, dirs[id], w.resolve(fullPath))
    else id == ProjectId(w, fullPath)
  }

  predicate IsMarked(dirs: Dirs, id: string) {
    Listed(dirs, id) && dirs[id].Some? && Trim(ScriptSpace, dirs[id].value) != ""
  }

  function Remembered(cache: map<string, string>, name: string, path: string): map<string, string> {
    if name == "" || path == "" then cache else cache[name := path]
  }

  /** A directory with a name is remembered under it, and nothing else changes. */
  lemma RememberedIs(cache: map<string, string>, name: string, path: string, other: string)
    ensures var after := Remembered(cache, name, path);
      && (|name| > 0 && |path| > 0 ==> name in after && after[name] == path)
      && (other != name || name == "" || path == "" ==>
            (other in after <==> other in cache) && (other in cache ==> after[other] == cache[other]))
  {
  }

  /** Identifiers depend on the resolved path only, and have its slug before the digest. */
  lemma IdsOfResolved(w: World, p: string, q: string)
    requires w.resolve(p) == w.resolve(q)
    ensures ProjectId(w, p) == ProjectId(w, q) == LegacyId(w.resolve(p)) && CollisionId(w, p) == CollisionId(w, q)
    ensures ProjectId(w, p) + "--" <= CollisionId(w, p)
  {
  }

  /** A marker says a path, whatever blanks stand around it, iff what it holds resolves to that path. */
  lemma MarkerSays(w: World, held: string, path: string)
    requires held != "" && Trimmed(ScriptSpace, held)
    ensures Owns(w, Some(held), path) <==> w.resolve(held) == path
    ensures Owns(w, Some([' '] + held + ['\n']), path) <==> w.resolve(held) == path
  {
    TrimFixes(ScriptSpace, held);
    TrimPadded(ScriptSpace, ' ', held, '\n');
    hide Trim, Trimmed;
  }

  // ---- What can go wrong with blanks at the end of a path

  /** Adding a path twice gives one identifier iff its marker reads back as the path, or another has its slug. */
  lemma ReAddIffStable(w: World, dirs: Dirs, p: string)
    ensures Allocate(w, Added(w, dirs, p), p) == Allocate(w, dirs, p)
      <==> Owns(w, Some(p), p) || (ProjectId(w, p) in dirs && !Owns(w, dirs[ProjectId(w, p)], p))
  {
    hide ProjectId, CollisionId, Owns;
    IdsDiffer(w, p);
  }

  /**
   When one path is added, another loses its directory iff that is the slug of the first and its marker reads back as
   the first, or it is the longer identifier of the first, whose slug is taken by somebody else.
   */
  lemma TakenOverIff(w: World, dirs: Dirs, id: string, p: string, q: string)
    requires id in dirs && dirs[id] == Some(p) && p != q
    ensures Added(w, dirs, q)[id] != Some(p)
      <==> (id == ProjectId(w, q) && Owns(w, Some(p), q))
           || (id == CollisionId(w, q) && ProjectId(w, q) in dirs && !Owns(w, dirs[ProjectId(w, q)], q))
  {
    hide ProjectId, CollisionId, Owns;
    IdsDiffer(w, q);
  }

  function Identity(): World { World(p => p, p => "0123456789") }

  /** `/a` takes over the identifier and the marker of `/a` followed by a blank. */
  lemma TrailingBlankLosesItsId()
    ensures var w := Identity();
      var first := Added(w, map[], "/a ");
      Allocate(w, map[], "/a ") == Allocate(w, first, "/a") == "a"
      && first["a"] == Some("/a ") && Added(w, first, "/a")["a"] == Some("/a")
      && !Stable(w, "/a ")
  {
    hide LegacyId, Trim;
    ShortSlugs();
    BlankDropped();
    TakenOverIff(Identity(), Added(Identity(), map[], "/a "), "a", "/a ", "/a");
  }

  lemma BlankDropped()
    ensures Trim(ScriptSpace, "/a ") == "/a"
  {
    assert TrimLeft(ScriptSpace, "/a ") == "/a ";
    assert "/a " == "/a" + [' '];
    TrimPaddedRight(ScriptSpace, "/a", ' ');
  }

  // ---- What can go wrong with paths of which only dots remain

  /** The home and the directory of projects exist and hold no markers. */
  predicate Rooted(dirs: Dirs) { "." in dirs && ".." in dirs && dirs["."] == dirs[".."] == None }

  /** A path is given one of the directories above iff nothing but dots remains of it, and that directory does not
      exist yet or is marked with it. */
  lemma DotsAllocatedIff(w: World, dirs: Dirs, p: string)
    ensures Dots(Allocate(w, dirs, p))
      <==> DotsOnly(w.resolve(p)) && (ProjectId(w, p) !in dirs || Owns(w, dirs[ProjectId(w, p)], p))
  {
    LegacyIdIsSegment(w.resolve(p));
    IdsDiffer(w, p);
    hide LegacyId, DotsOnly, CollisionId, Owns, Dots;
  }

  /** Once the home and the directory of projects exist they stay as they are, whatever is added. */
  lemma RootedStaysRooted(w: World, dirs: Dirs, p: string)
    requires Rooted(dirs)
    ensures Rooted(Added(w, dirs, p)) && !Dots(Allocate(w, dirs, p))
  {
    IdsDiffer(w, p);
    hide LegacyId, CollisionId;
  }

  predicate Found(w: World, dirs: Dirs, p: string) { exists k :: k in dirs && Listed(dirs, k) && Owns(w, dirs[k], p) }

  /** A path that was added is found again iff its marker reads back as the path and its directory is listed, or it
      was found before. */
  lemma FoundAfterAddingIff(w: World, dirs: Dirs, p: string)
    requires !Found(w, dirs, p)
    ensures Found(w, Added(w, dirs, p), p)
      <==> Owns(w, Some(p), p) && (DotsOnly(w.resolve(p)) ==>
             ProjectId(w, p) in dirs && !Owns(w, dirs[ProjectId(w, p)], p))
  {
    DotsAllocatedIff(w, dirs, p);
    var id, after := Allocate(w, dirs, p), Added(w, dirs, p);
    NoMarkerNoOwner(w, p);
    hide Allocate, Owns, DotsOnly, ProjectId, Dots;
    assert after[id] == Some(p);
    assert forall k :: k in after && k != id ==> (k in dirs && after[k] == dirs[k]) || after[k] == None;
  }

  lemma NoMarkerNoOwner(w: World, p: string)
    ensures !Owns(w, None, p)
  {
  }

  /** Deleting a path that is not marked, and of which two dots remain, removes everything. */
  lemma UnmarkedDotsRemoveAll(w: World, dirs: Dirs, path: string, id: string)
    requires path != "" && path[0] == '/'
    requires ProjectId(w, path) == ".." && ".." in dirs && !Found(w, dirs, w.resolve(path))
    ensures ResolvesTo(w, dirs, path, path, id) <==> id == ".."
    ensures Deleted(dirs, "..") == map[]
  {
    hide ProjectId, Owns;
  }

  /** The path `/-..` is such a path: added once and deleted twice, it leaves nothing. */
  lemma DeletedTwiceLeavesNothing(dirs: Dirs)
    requires Rooted(dirs) && dirs.Keys == {".", ".."}
    ensures var w := Identity();
      var id := Allocate(w, dirs, "/-..");
      var once := Deleted(Added(w, dirs, "/-.."), id);
      id == CollisionId(w, "/-..") && once == dirs
      && ResolvesTo(w, once, "/-..", "/-..", "..") && Deleted(once, "..") == map[]
  {
    ShortSlugs();
    IdsDiffer(Identity(), "/-..");
    hide LegacyId, Owns;
    var w := Identity();
    var id, added := Allocate(w, dirs, "/-.."), Added(w, dirs, "/-..");
    NoMarkerNoOwner(w, "/-..");
    assert Deleted(added, id) == dirs;
    UnmarkedDotsRemoveAll(w, dirs, "/-..", "..");
  }
}
