/**
 The slugs of paths that name project directories (src/pilot/paths.ts, `createLegacyProjectId`), and which paths have
 a given slug: one between whose dashes and other unsafe characters nothing but the slug stands.
 */
module ProjectSlugs {
  import opened Text

  predicate SafeChar(c: char) {
    'A' <= c <= 'Z' || 'a' <= c <= 'z' || '0' <= c <= '9' || c in "._-"
  }

  predicate Letter(c: char) { 'A' <= c <= 'Z' || 'a' <= c <= 'z' }

  function Slashes(s: string): string { seq(|s|, i requires 0 <= i < |s| => if s[i] == '\\' then '/' else s[i]) }

  function WithoutDrive(s: string): string {
    if |s| >= 2 && Letter(s[0]) && s[1] == ':' then s[2..] else s
  }

  function SkipUnsafe(s: string): (r: string)
    ensures |r| <= |s|
  {
    if s != "" && !SafeChar(s[0]) then SkipUnsafe(s[1..]) else s
  }

  /** Every run of other characters becomes one dash. */
  function Dashed(s: string): string
    decreases |s|
  {
    if s == "" then ""
    else if SafeChar(s[0]) then [s[0]] + Dashed(s[1..])
    else "-" + Dashed(SkipUnsafe(s[1..]))
  }

  function LegacyId(root: string): string {
    var slug := Trim(Only('-'), Dashed(WithoutDrive(Slashes(root))));
    if slug == "" then "project" else slug
  }

  lemma {:induction false} DashedIsSafe(s: string)
    ensures forall c :: c in Dashed(s) ==> SafeChar(c)
    decreases |s|
  {
    if s != "" {
      if SafeChar(s[0]) {
        DashedIsSafe(s[1..]);
      } else {
        DashedIsSafe(SkipUnsafe(s[1..]));
      }
    }
  }

  lemma {:induction false} TrimLeftKeeps(cs: Chars, s: string)
    ensures forall c :: c in TrimLeft(cs, s) ==> c in s
  {
    if s != "" && In(cs, s[0]) {
      TrimLeftKeeps(cs, s[1..]);
    }
  }

  lemma {:induction false} TrimRightKeeps(cs: Chars, s: string)
    ensures forall c :: c in TrimRight(cs, s) ==> c in s
  {
    if s != "" && In(cs, s[|s| - 1]) {
      TrimRightKeeps(cs, s[..|s| - 1]);
    }
  }

  // ---- Which texts have a given slug

  /** A character of which no more than a dash remains. */
  predicate Gap(c: char) { c == '-' || !SafeChar(c) }

  predicate AllGaps(s: string) { forall i :: 0 <= i < |s| ==> Gap(s[i]) }

  predicate AmongAt(s: string, core: string, i: int) {
    0 <= i <= |s| - |core| && s[i..i + |core|] == core && AllGaps(s[..i]) && AllGaps(s[i + |core|..])
  }

  /** Nothing but gaps stands around `core`. */
  predicate Among(s: string, core: string) { exists i :: 0 <= i <= |s| && AmongAt(s, core, i) }

  function Right(s: string): string { TrimRight(Only('-'), Dashed(s)) }

  lemma DashedStep(s: string)
    requires s != ""
    ensures !Gap(s[0]) ==> Dashed(s) == [s[0]] + Dashed(s[1..])
    ensures Gap(s[0]) ==> Dashed(s) != "" && Dashed(s)[0] == '-'
    ensures s[0] == '-' ==> Dashed(s)[1..] == Dashed(s[1..])
    ensures !SafeChar(s[0]) ==> Dashed(s)[1..] == Dashed(SkipUnsafe(s[1..]))
  {
    hide SkipUnsafe;
  }

  /** Leading unsafe characters make no difference but a dash. */
  lemma SkipKeepsTrimmed(t: string)
    ensures TrimLeft(Only('-'), Dashed(SkipUnsafe(t))) == TrimLeft(Only('-'), Dashed(t))
  {
    if t != "" && !SafeChar(t[0]) {
      DashedStep(t);
      assert SkipUnsafe(t) == SkipUnsafe(t[1..]);
      hide Dashed, SkipUnsafe;
      DropDash(Dashed(t));
    }
  }

  lemma DropDash(x: string)
    requires x != "" && x[0] == '-'
    ensures TrimLeft(Only('-'), x) == TrimLeft(Only('-'), x[1..])
  {
  }

  lemma GapStep(s: string)
    requires s != "" && Gap(s[0])
    ensures TrimLeft(Only('-'), Dashed(s)) == TrimLeft(Only('-'), Dashed(s[1..]))
  {
    DashedStep(s);
    SkipKeepsTrimmed(s[1..]);
    hide Dashed, SkipUnsafe;
    DropDash(Dashed(s));
  }

  /** The dashes at the left are those of the leading gaps. */
  lemma {:induction false} LeftGaps(s: string, i: nat)
    requires i <= |s| && AllGaps(s[..i]) && (i < |s| ==> !Gap(s[i]))
    ensures TrimLeft(Only('-'), Dashed(s)) == Dashed(s[i..])
    decreases i
  {
    hide Gap;
    if i > 0 {
      assert s[..i][0] == s[0];
      GapStep(s);
      GapsCons(s[..i]);
      assert s[..i][1..] == s[1..][..i - 1];
      LeftGaps(s[1..], i - 1);
      assert s[1..][i - 1..] == s[i..];
    } else {
      assert s[0..] == s;
      if s != "" {
        DashedStep(s);
        NoDashFirst(s);
      }
    }
  }

  lemma NoDashFirst(s: string)
    requires s != "" && !Gap(s[0])
    ensures TrimLeft(Only('-'), Dashed(s)) == Dashed(s)
  {
    DashedStep(s);
    hide Dashed;
  }

  lemma {:induction false} TrimRightCons(c: char, x: string)
    requires c != '-'
    ensures TrimRight(Only('-'), [c] + x) == [c] + TrimRight(Only('-'), x)
  {
    var all := [c] + x;
    if x != "" && x[|x| - 1] == '-' {
      assert all[|all| - 1] == '-' && all[..|all| - 1] == [c] + x[..|x| - 1];
      TrimRightCons(c, x[..|x| - 1]);
    } else if x == "" {
      assert all == [c];
    } else {
      assert all[|all| - 1] == x[|x| - 1];
    }
  }

  /** What is left of a text that starts with a dash starts with it, or is empty. */
  lemma {:induction false} TrimRightDash(x: string)
    requires x != "" && x[0] == '-'
    ensures var t := TrimRight(Only('-'), x); t == "" || t[0] == '-'
  {
    TrimRightFacts(Only('-'), x);
  }

  predicate AllDashes(x: string) { forall i :: 0 <= i < |x| ==> x[i] == '-' }

  /** Nothing is left iff there are only gaps. */
  lemma RightEmptyIff(s: string)
    ensures Right(s) == "" <==> AllGaps(s)
  {
    hide Dashed, Gap, TrimRight, AllDashes, AllGaps;
    DashesIff(s);
    OnlyDashes(Dashed(s));
  }

  lemma {:induction false} OnlyDashes(x: string)
    ensures TrimRight(Only('-'), x) == "" <==> AllDashes(x)
  {
    if x != "" && x[|x| - 1] == '-' {
      OnlyDashes(x[..|x| - 1]);
      assert forall i :: 0 <= i < |x| - 1 ==> x[..|x| - 1][i] == x[i];
    }
  }

  lemma DashesCons(c: char, x: string)
    ensures AllDashes([c] + x) <==> c == '-' && AllDashes(x)
  {
    var all := [c] + x;
    assert all[0] == c && forall i :: 0 <= i < |x| ==> all[i + 1] == x[i];
    assert forall i :: 0 < i < |all| ==> all[i] == x[i - 1];
  }

  lemma {:induction false} DashesIff(s: string)
    ensures AllDashes(Dashed(s)) <==> AllGaps(s)
    decreases |s|
  {
    if s != "" {
      var first := if SafeChar(s[0]) then s[0] else '-';
      var rest := if SafeChar(s[0]) then s[1..] else SkipUnsafe(s[1..]);
      assert Dashed(s) == [first] + Dashed(rest);
      hide Dashed, SkipUnsafe, AllGaps, AllDashes;
      DashesIff(rest);
      DashesCons(first, Dashed(rest));
      SkippedGaps(s[1..]);
      GapsCons(s);
    }
  }

  lemma GapsCons(s: string)
    requires s != ""
    ensures AllGaps(s) <==> Gap(s[0]) && AllGaps(s[1..])
  {
    hide Gap;
    assert forall i :: 0 <= i < |s| - 1 ==> s[1..][i] == s[i + 1];
    assert forall i :: 0 < i < |s| ==> s[i] == s[1..][i - 1];
  }

  lemma {:induction false} SkippedGaps(t: string)
    ensures AllGaps(SkipUnsafe(t)) <==> AllGaps(t)
  {
    if t != "" && !SafeChar(t[0]) {
      SkippedGaps(t[1..]);
      GapsCons(t);
    }
  }

  predicate NoGaps(core: string) { forall i :: 0 <= i < |core| ==> !Gap(core[i]) }

  lemma PrefixCons(s: string, core: string)
    requires s != "" && core != ""
    ensures core <= s <==> core[0] == s[0] && core[1..] <= s[1..]
    ensures core <= s ==> s[1..][|core| - 1..] == s[|core|..]
    ensures [s[0]] + s[1..] == s && [core[0]] + core[1..] == core
  {
    if core[0] == s[0] && core[1..] <= s[1..] {
      assert s == [s[0]] + s[1..] && core == [core[0]] + core[1..];
    }
  }

  /** Without leading gaps, `core` is left iff it is followed by gaps only. */
  lemma {:induction false} RightIs(s: string, core: string)
    requires NoGaps(core)
    ensures Right(s) == core <==> core <= s && AllGaps(s[|core|..])
  {
    hide Gap, AllGaps;
    if core == "" {
      RightEmptyIff(s);
      assert s[0..] == s;
    } else if s == "" {
      assert Dashed(s) == "" && TrimRight(Only('-'), Dashed(s)) == "";
    } else if Gap(s[0]) {
      DashedStep(s);
      TrimRightDash(Dashed(s));
      assert core[0] != '-' && core[0] != s[0] by { DashIsGap(); }
    } else {
      DashedStep(s);
      DashIsGap();
      TrimRightCons(s[0], Dashed(s[1..]));
      RightIs(s[1..], core[1..]);
      hide Dashed, TrimRight;
      PrefixCons(s, core);
    }
  }

  lemma DashIsGap()
    ensures Gap('-')
  {
  }

  lemma {:induction false} GapCount(s: string) returns (i: nat)
    ensures i <= |s| && AllGaps(s[..i]) && (i < |s| ==> !Gap(s[i]))
  {
    hide Gap;
    i := 0;
    while i < |s| && Gap(s[i])
      invariant i <= |s| && AllGaps(s[..i])
    {
      i := i + 1;
    }
  }

  /** The slug of a text, before an empty one is replaced. */
  function Slug(s: string): string { Trim(Only('-'), Dashed(s)) }

  lemma GapBefore(s: string, j: int, i: int)
    requires 0 <= i < j <= |s| && AllGaps(s[..j])
    ensures Gap(s[i])
  {
    hide Gap;
    assert s[..j][i] == s[i];
  }

  /** The core can only stand where the leading gaps end. */
  lemma AmongWhere(s: string, core: string, i: nat)
    requires core != "" && NoGaps(core)
    requires i <= |s| && AllGaps(s[..i]) && (i < |s| ==> !Gap(s[i]))
    ensures Among(s, core) <==> core <= s[i..] && AllGaps(s[i..][|core|..])
  {
    hide Gap, AllGaps;
    if core <= s[i..] && AllGaps(s[i..][|core|..]) {
      assert s[i..][|core|..] == s[i + |core|..];
      assert AmongAt(s, core, i);
    }
    if Among(s, core) {
      var j :| 0 <= j <= |s| && AmongAt(s, core, j);
      CoreAt(s, core, i, j);
      assert s[i..][|core|..] == s[i + |core|..];
    }
  }

  lemma CoreAt(s: string, core: string, i: nat, j: int)
    requires core != "" && NoGaps(core) && AmongAt(s, core, j)
    requires i <= |s| && AllGaps(s[..i]) && (i < |s| ==> !Gap(s[i]))
    ensures i == j
  {
    assert s[j] == s[j..j + |core|][0] == core[0];
    hide Gap, AllGaps;
    if i < j {
      GapBefore(s, j, i);
    } else if j < i {
      GapBefore(s, i, j);
    }
  }

  lemma SlugIs(s: string, core: string)
    requires core != "" && NoGaps(core)
    ensures Slug(s) == core <==> Among(s, core)
  {
    hide Gap, AllGaps, NoGaps, Dashed, TrimLeft, TrimRight, Among;
    var i := GapCount(s);
    LeftGaps(s, i);
    RightIs(s[i..], core);
    AmongWhere(s, core, i);
  }

  // ---- Identifiers

  /** Names that do not name a directory of its own. */
  predicate Dots(id: string) { id == "." || id == ".." }

  /** The path without its drive holds one dot, or two side by side, and apart from that nothing but gaps. */
  predicate DotsOnly(root: string) {
    var s := WithoutDrive(Slashes(root));
    Among(s, ".") || Among(s, "..")
  }

  lemma LegacyIdIs(root: string, core: string)
    requires core != "" && NoGaps(core) && core != "project"
    ensures LegacyId(root) == core <==> Among(WithoutDrive(Slashes(root)), core)
  {
    SlugIs(WithoutDrive(Slashes(root)), core);
    hide Among, Slashes, WithoutDrive, Trim, Dashed;
  }

  /**
   An identifier is not empty, of safe characters only, and has no dash at either end; so it names a directory of its
   own, unless it is one dot or two, which it is iff the path holds nothing else.
   */
  lemma LegacyIdIsSegment(root: string)
    ensures LegacyId(root) != "" && forall c :: c in LegacyId(root) ==> SafeChar(c)
    ensures Trimmed(Only('-'), LegacyId(root))
    ensures Dots(LegacyId(root)) <==> DotsOnly(root)
  {
    LegacyIdIs(root, ".");
    LegacyIdIs(root, "..");
    LegacyIdIsSafe(root);
    hide LegacyId, Among, Slashes, WithoutDrive, Trimmed;
  }

  lemma LegacyIdIsSafe(root: string)
    ensures LegacyId(root) != "" && forall c :: c in LegacyId(root) ==> SafeChar(c)
    ensures Trimmed(Only('-'), LegacyId(root))
  {
    var s := Dashed(WithoutDrive(Slashes(root)));
    DashedIsSafe(WithoutDrive(Slashes(root)));
    TrimLeftKeeps(Only('-'), s);
    TrimRightKeeps(Only('-'), TrimLeft(Only('-'), s));
    TrimIsTrimmed(Only('-'), s);
    hide TrimLeft, TrimRight, Dashed, Slashes, WithoutDrive;
  }

  /** Slugs of some short paths. */
  lemma ShortSlugs()
    ensures LegacyId("/a") == LegacyId("/a ") == LegacyId("/-a") == "a"
    ensures LegacyId("/-..") == ".."
  {
    hide *;
    Cores();
    SlugOf("/", "a", "");
    SlugOf("/", "a", " ");
    SlugOf("/-", "a", "");
    SlugOf("/-", "..", "");
    assert "/" + "a" + "" == "/a" && "/" + "a" + " " == "/a ";
    assert "/-" + "a" + "" == "/-a" && "/-" + ".." + "" == "/-..";
  }

  lemma Cores()
    ensures NoGaps("a") && NoGaps("..") && AllGaps("/") && AllGaps("/-") && AllGaps(" ") && AllGaps("")
  {
  }

  lemma SlugOf(before: string, core: string, after: string)
    requires core == "a" || core == ".."
    requires before == "/" || before == "/-"
    requires after == "" || after == " "
    requires NoGaps(core) && AllGaps(before) && AllGaps(after)
    ensures LegacyId(before + core + after) == core
  {
    hide LegacyId, NoGaps, AllGaps;
    var path := before + core + after;
    assert path[..|before|] == before && path[|before|..|before| + |core|] == core;
    assert path[|before| + |core|..] == after;
    PathSlug(path, |before|, core);
  }

  lemma PathSlug(path: string, i: nat, core: string)
    requires core != "" && NoGaps(core) && core != "project" && '\\' !in path
    requires |path| >= 2 && path[0] == '/'
    requires AmongAt(path, core, i)
    ensures LegacyId(path) == core
  {
    assert Slashes(path) == path && WithoutDrive(path) == path;
    hide LegacyId, AmongAt;
    assert Among(path, core);
    LegacyIdIs(path, core);
  }

  // ---- Slugs of ordinary paths

  lemma UpperIff(c: char)
    ensures 'A' <= c <= 'Z' <==> c in "ABCDEFGHIJKLMNOPQRSTUVWXYZ"
  {
    var upper := "ABCDEFGHIJKLMNOPQRSTUVWXYZ";
    if 'A' <= c <= 'Z' {
      assert upper[c as int - 'A' as int] == c;
    }
  }

  lemma LowerIff(c: char)
    ensures 'a' <= c <= 'z' <==> c in "abcdefghijklmnopqrstuvwxyz"
  {
    var lower := "abcdefghijklmnopqrstuvwxyz";
    if 'a' <= c <= 'z' {
      assert lower[c as int - 'a' as int] == c;
    }
  }

  lemma DigitIff(c: char)
    ensures '0' <= c <= '9' <==> c in "0123456789"
  {
    var digits := "0123456789";
    if '0' <= c <= '9' {
      assert digits[c as int - '0' as int] == c;
    }
  }

  /** The characters that are kept: the letters and digits of ASCII, dots, underscores and dashes. */
  lemma SafeCharIff(c: char)
    ensures SafeChar(c) <==>
      c in "ABCDEFGHIJKLMNOPQRSTUVWXYZ" || c in "abcdefghijklmnopqrstuvwxyz" || c in "0123456789"
      || c == '.' || c == '_' || c == '-'
    ensures Letter(c) <==> c in "ABCDEFGHIJKLMNOPQRSTUVWXYZ" || c in "abcdefghijklmnopqrstuvwxyz"
  {
    UpperIff(c);
    LowerIff(c);
    DigitIff(c);
  }

  predicate AllSafe(s: string) { forall i :: 0 <= i < |s| ==> SafeChar(s[i]) }

  predicate NoneSafe(s: string) { forall i :: 0 <= i < |s| ==> !SafeChar(s[i]) }

  /** Safe characters stay as they are. */
  lemma {:induction false} SafeKept(word: string, rest: string)
    requires AllSafe(word)
    ensures Dashed(word + rest) == word + Dashed(rest)
  {
    hide SafeChar;
    if word == "" {
      assert word + rest == rest;
    } else {
      assert (word + rest)[0] == word[0] && (word + rest)[1..] == word[1..] + rest;
      SafeKept(word[1..], rest);
      assert [word[0]] + (word[1..] + Dashed(rest)) == word + Dashed(rest);
    }
  }

  lemma {:induction false} RunSkipped(run: string, rest: string)
    requires NoneSafe(run) && (rest != "" ==> SafeChar(rest[0]))
    ensures SkipUnsafe(run + rest) == rest
  {
    hide SafeChar;
    if run == "" {
      assert run + rest == rest;
    } else {
      assert (run + rest)[0] == run[0] && (run + rest)[1..] == run[1..] + rest;
      RunSkipped(run[1..], rest);
    }
  }

  /** A run of other characters becomes one dash. */
  lemma RunBecomesDash(run: string, rest: string)
    requires run != "" && NoneSafe(run) && (rest != "" ==> SafeChar(rest[0]))
    ensures Dashed(run + rest) == "-" + Dashed(rest)
  {
    assert (run + rest)[0] == run[0] && (run + rest)[1..] == run[1..] + rest;
    hide SafeChar, SkipUnsafe;
    RunSkipped(run[1..], rest);
  }

  /** A name of a directory as most are: of safe characters, without a dash at either end. */
  predicate Ordinary(name: string) {
    name != "" && AllSafe(name) && name[0] != '-' && name[|name| - 1] != '-'
  }

  lemma SlashBecomesDash(s: string)
    requires s != "" && SafeChar(s[0])
    ensures Dashed("/" + s) == "-" + Dashed(s)
  {
    SlashIsUnsafe();
    hide SafeChar;
    RunBecomesDash("/", s);
  }

  lemma {:induction false} NamesDashed(names: seq<string>)
    requires names != [] && forall i :: 0 <= i < |names| ==> Ordinary(names[i])
    ensures Dashed(Join(names, "/")) == Join(names, "-")
    ensures var s := Join(names, "/"); s != "" && SafeChar(s[0])
  {
    hide SafeChar, Dashed;
    var first, rest := names[0], names[1..];
    if rest == [] {
      assert names == [first];
      SafeKept(first, "");
      assert Dashed("") == "" by { NothingDashed(); }
      assert first + "" == first;
    } else {
      NamesDashed(rest);
      var s := Join(rest, "/");
      assert Join(names, "/") == first + ("/" + s);
      SafeKept(first, "/" + s);
      SlashBecomesDash(s);
      assert first + ("-" + Dashed(s)) == Join(names, "-");
    }
  }

  lemma NothingDashed()
    ensures Dashed("") == ""
  {
  }

  lemma SlashIsUnsafe()
    ensures !SafeChar('/') && !SafeChar('\\')
  {
  }

  lemma {:induction false} NamesWithoutBackslash(names: seq<string>)
    requires forall i :: 0 <= i < |names| ==> Ordinary(names[i])
    ensures '\\' !in Join(names, "/")
  {
    SlashIsUnsafe();
    hide SafeChar;
    if |names| > 0 {
      var first := names[0];
      assert forall i :: 0 <= i < |first| ==> first[i] != '\\';
      if |names| > 1 {
        NamesWithoutBackslash(names[1..]);
      }
    }
  }

  lemma SlashFirst(s: string)
    requires '\\' !in s
    ensures WithoutDrive(Slashes("/" + s)) == "/" + s
  {
    assert Slashes("/" + s) == "/" + s;
  }

  lemma LeadingDashDropped(slug: string)
    requires slug != "" && slug[0] != '-' && slug[|slug| - 1] != '-'
    ensures Trim(Only('-'), "-" + slug) == slug
  {
    assert "-" + slug == ['-'] + slug;
    TrimPaddedLeft(Only('-'), '-', slug);
    assert TrimRight(Only('-'), slug) == slug;
    hide TrimLeft, TrimRight;
  }

  /** The identifier of an ordinary path: its names with dashes between them. */
  lemma OrdinaryPath(names: seq<string>)
    requires names != [] && forall i :: 0 <= i < |names| ==> Ordinary(names[i])
    ensures LegacyId("/" + Join(names, "/")) == Join(names, "-")
  {
    var s, slug := Join(names, "/"), Join(names, "-");
    hide Dashed, Join, AllSafe, Slashes, WithoutDrive, Trim, SafeChar;
    NamesDashed(names);
    NamesWithoutBackslash(names);
    JoinOuter(names, "-");
    SlashBecomesDash(s);
    SlashFirst(s);
    LeadingDashDropped(slug);
  }

  /** A drive and the direction of slashes make no difference. */
  lemma DriveIgnored(c: char, rest: string)
    requires Letter(c) && (rest == "" || rest[0] == '/' || rest[0] == '\\')
    ensures LegacyId([c] + ":" + rest) == LegacyId(rest) == LegacyId(Slashes(rest))
  {
    var s := [c] + ":" + rest;
    assert Slashes(s)[0] == c && Slashes(s)[1] == ':' && Slashes(s)[2..] == Slashes(rest);
    assert Slashes(Slashes(rest)) == Slashes(rest);
    assert WithoutDrive(Slashes(rest)) == Slashes(rest);
    hide Dashed, Trim;
  }

  /** A path of which nothing remains is called `project`, like one of which just that remains. */
  lemma ProjectIff(root: string)
    ensures LegacyId(root) == "project" <==>
      AllGaps(WithoutDrive(Slashes(root))) || Among(WithoutDrive(Slashes(root)), "project")
  {
    var s := WithoutDrive(Slashes(root));
    assert NoGaps("project");
    SlugIs(s, "project");
    SlugEmptyIff(s);
    hide Dashed, Trim, AllGaps, Among, Slashes, WithoutDrive;
  }

  lemma SlugEmptyIff(s: string)
    ensures Slug(s) == "" <==> AllGaps(s)
  {
    hide Dashed, TrimRight, AllGaps, Gap;
    TrimmedAway(Dashed(s));
    RightEmptyIff(s);
  }

  /** Trimming from both sides leaves nothing iff trimming from the right does. */
  lemma {:induction false} TrimmedAway(x: string)
    ensures Trim(Only('-'), x) == "" <==> TrimRight(Only('-'), x) == ""
  {
    OnlyDashes(x);
    OnlyDashes(TrimLeft(Only('-'), x));
    DashesLeft(x);
    hide TrimLeft, TrimRight, AllDashes;
  }

  lemma {:induction false} DashesLeft(x: string)
    ensures AllDashes(TrimLeft(Only('-'), x)) <==> AllDashes(x)
  {
    if x != "" && x[0] == '-' {
      DashesLeft(x[1..]);
      DashesCons(x[0], x[1..]);
      assert [x[0]] + x[1..] == x;
    }
  }
}
