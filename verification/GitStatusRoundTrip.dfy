/**
 Printing a status in "Porcelain Format Version 2" of git-status(1), as `ProjectGitService.status` asks for it, and
 reading it back with `parsePorcelainV2` (src/adapters/web/projectGit.ts): the counts always survive; the branch does
 iff its name has no blank at an end, and a file iff it is neither renamed nor unmerged and git does not quote its path.
 */
module GitStatusRoundTrip {
  import opened Options
  import opened Text
  import opened GitQuoting
  import opened GitStatus

  /** The fields between the state and the path: six for a changed, seven for a renamed, eight for an unmerged file. */
  datatype Entry =
    | Changed(x: char, y: char, fields: seq<string>, path: string)
    | Renamed(x: char, y: char, fields: seq<string>, path: string, origin: string)
    | Unmerged(x: char, y: char, fields: seq<string>, path: string)
    | Untracked(path: string)

  /** `Gone` if the upstream has no commit, `Unknown` if git was told not to count. */
  datatype Counted = Known(ahead: nat, behind: nat) | Unknown | Gone

  datatype Upstream = Upstream(name: string, counts: Counted)

  /** `quotePath` is the setting core.quotePath under which the report is printed. */
  datatype Report = Report(
    commit: string,
    head: string,
    upstream: Option<Upstream>,
    entries: seq<Entry>,
    quotePath: bool)

  /** Fields are separated by single blanks, the path comes last. */
  function Spaced(fields: seq<string>, path: string): string {
    if fields == [] then path else fields[0] + [' '] + Spaced(fields[1..], path)
  }

  /** What stands for the path or paths of an entry. */
  function PrintPaths(full: bool, e: Entry): string {
    if e.Renamed? then PrintPath(full, e.path) + "\t" + PrintPath(full, e.origin) else PrintPath(full, e.path)
  }

  function PrintEntry(full: bool, e: Entry): string {
    match e
    case Changed(x, y, fields, _) => Spaced(["1", [x, y]] + fields, PrintPaths(full, e))
    case Renamed(x, y, fields, _, _) => Spaced(["2", [x, y]] + fields, PrintPaths(full, e))
    case Unmerged(x, y, fields, _) => Spaced(["u", [x, y]] + fields, PrintPaths(full, e))
    case Untracked(_) => "? " + PrintPaths(full, e)
  }

  function CountsLine(ahead: nat, behind: nat): string {
    "# branch.ab +" + Decimal(ahead) + " -" + Decimal(behind)
  }

  const UNKNOWN_COUNTS := "# branch.ab +? -?"

  function PrintCounts(c: Counted): seq<string> {
    match c
    case Known(ahead, behind) => [CountsLine(ahead, behind)]
    case Unknown => [UNKNOWN_COUNTS]
    case Gone => []
  }

  function PrintUpstream(u: Option<Upstream>): seq<string> {
    if u.None? then [] else ["# branch.upstream " + u.value.name] + PrintCounts(u.value.counts)
  }

  function PrintEntries(full: bool, entries: seq<Entry>): seq<string> {
    if entries == [] then []
    else PrintEntries(full, entries[..|entries| - 1]) + [PrintEntry(full, entries[|entries| - 1])]
  }

  function Lines(r: Report): seq<string> {
    ["# branch.oid " + r.commit, "# branch.head " + r.head] + PrintUpstream(r.upstream)
    + PrintEntries(r.quotePath, r.entries)
  }

  /** Every line ends in a line feed. */
  function Print(r: Report): string { Join(Lines(r) + [""], "\n") }

  predicate OneLine(s: string) { '\n' !in s }

  predicate Field(s: string) { OneLine(s) && ' ' !in s }

  /** Paths are arbitrary; the states and the fields before them hold no blanks. */
  predicate WellFormedEntry(e: Entry) {
    && (!e.Untracked? ==>
          e.x !in " \n" && e.y !in " \n" && forall i :: 0 <= i < |e.fields| ==> Field(e.fields[i]))
    && (e.Changed? ==> |e.fields| == 6)
    && (e.Renamed? ==> |e.fields| == 7)
    && (e.Unmerged? ==> |e.fields| == 8)
  }

  predicate WellFormed(r: Report) {
    && OneLine(r.commit) && OneLine(r.head)
    && (r.upstream.Some? ==> OneLine(r.upstream.value.name))
    && forall i :: 0 <= i < |r.entries| ==> WellFormedEntry(r.entries[i])
  }

  /** The file as the status should show it. */
  function Meant(e: Entry): FileStatus {
    match e
    case Untracked(path) => FileStatus(path, '?', '?', false, true, true)
    case _ => FileStatus(e.path, e.x, e.y, e.x != '.', e.y != '.', false)
  }

  /** What the reader makes of it: the path is the printed one, with the similarity score of a renamed file. */
  function Seen(full: bool, e: Entry): seq<FileStatus> {
    match e
    case Renamed(_, _, fields, _, _) =>
      var score := if fields == [] then "" else fields[|fields| - 1];
      [Meant(e).(path := score + [' '] + PrintPaths(full, e))]
    case Unmerged(_, _, _, _) => []
    case _ => [Meant(e).(path := PrintPaths(full, e))]
  }

  function SeenAll(full: bool, entries: seq<Entry>): seq<FileStatus> {
    if entries == [] then []
    else SeenAll(full, entries[..|entries| - 1]) + Seen(full, entries[|entries| - 1])
  }

  function MeantAll(entries: seq<Entry>): seq<FileStatus> {
    seq(|entries|, i requires 0 <= i < |entries| => Meant(entries[i]))
  }

  function MeantCounts(u: Option<Upstream>): Option<(nat, nat)> {
    if u.Some? && u.value.counts.Known? then Some((u.value.counts.ahead, u.value.counts.behind)) else None
  }

  function WithCounts(s: Status, c: Option<(nat, nat)>): Status {
    if c.Some? then s.(ahead := Some(c.value.0), behind := Some(c.value.1)) else s
  }

  function MeantStatus(r: Report): Status {
    WithCounts(Status(Some(r.head), None, None, MeantAll(r.entries)), MeantCounts(r.upstream))
  }

  // ---- Lines of files

  lemma {:induction false} SpacedTokens(fields: seq<string>, path: string)
    requires forall i :: 0 <= i < |fields| ==> ' ' !in fields[i]
    ensures Tokens(Spaced(fields, path)) == fields + Split(path, ' ')
  {
    hide Split;
    if fields == [] {
      assert Spaced(fields, path) == path;
    } else {
      var rest := Spaced(fields[1..], path);
      SpacedTokens(fields[1..], path);
      SplitFirst(fields[0], ' ', rest);
    }
  }

  lemma {:induction false} SpacedOneLine(fields: seq<string>, path: string)
    requires OneLine(path) && forall i :: 0 <= i < |fields| ==> OneLine(fields[i])
    ensures OneLine(Spaced(fields, path))
  {
    if fields != [] {
      SpacedOneLine(fields[1..], path);
    }
  }

  lemma {:induction false} SpacedJoins(a: seq<string>, b: seq<string>, path: string)
    ensures Spaced(a + b, path) == Spaced(a, Spaced(b, path))
  {
    if a == [] {
      assert a + b == b;
    } else {
      assert (a + b)[1..] == a[1..] + b;
      SpacedJoins(a[1..], b, path);
    }
  }

  lemma FileLineRead(s: Status, kind: string, x: char, y: char, fields: seq<string>, rest: string)
    requires kind == "1" || kind == "2"
    requires x != ' ' && y != ' ' && |fields| == 6 && forall i :: 0 <= i < |fields| ==> ' ' !in fields[i]
    ensures ReadLine(s, Spaced([kind, [x, y]] + fields, rest))
         == s.(files := s.files + [FileStatus(rest, x, y, x != '.', y != '.', false)])
  {
    hide Split, Trim, Counts;
    var all := [kind, [x, y]] + fields;
    var line := Spaced(all, rest);
    assert all[0] == kind && all[1] == [x, y];
    assert forall i :: 2 <= i < 8 ==> all[i] == fields[i - 2];
    SpacedTokens(all, rest);
    JoinSplit(rest, ' ');
    assert line == kind + [' '] + Spaced(all[1..], rest);
    assert line[0] == kind[0] && line[1] == ' ';
    hide Spaced;
    var tokens := Tokens(line);
    assert tokens[8..] == Split(rest, ' ');
  }

  lemma RenamedRead(s: Status, full: bool, e: Entry)
    requires WellFormedEntry(e) && e.Renamed?
    ensures ReadLine(s, PrintEntry(full, e)) == s.(files := s.files + Seen(full, e))
  {
    hide ReadLine, OneLine, PrintPaths;
    var score, rest, first := e.fields[6], PrintPaths(full, e), ["2", [e.x, e.y]] + e.fields[..6];
    assert ["2", [e.x, e.y]] + e.fields == first + [score];
    SpacedJoins(first, [score], rest);
    assert Spaced([score], rest) == score + [' '] + rest by { assert [score][1..] == []; }
    hide Spaced;
    FileLineRead(s, "2", e.x, e.y, e.fields[..6], score + [' '] + rest);
  }

  lemma EntryRead(s: Status, full: bool, e: Entry)
    requires WellFormedEntry(e)
    ensures ReadLine(s, PrintEntry(full, e)) == s.(files := s.files + Seen(full, e))
  {
    hide Split, Trim, Counts, PathOf, PrintPaths;
    match e
    case Changed(x, y, fields, _) =>
      hide Spaced, ReadLine;
      FileLineRead(s, "1", x, y, fields, PrintPaths(full, e));
    case Renamed(_, _, _, _, _) =>
      hide Spaced, ReadLine;
      RenamedRead(s, full, e);
    case Unmerged(x, y, fields, _) =>
      var all := ["u", [x, y]] + fields;
      assert PrintEntry(full, e) == "u" + [' '] + Spaced(all[1..], PrintPaths(full, e));
      assert PrintEntry(full, e)[0] == 'u';
    case Untracked(_) =>
      var line := "? " + PrintPaths(full, e);
      assert line[0] == '?' && line[2..] == PrintPaths(full, e);
  }

  lemma {:induction false} EntriesRead(s: Status, full: bool, entries: seq<Entry>)
    requires forall i :: 0 <= i < |entries| ==> WellFormedEntry(entries[i])
    ensures ReadLines(s, PrintEntries(full, entries)) == s.(files := s.files + SeenAll(full, entries))
  {
    hide ReadLine, PrintEntry, WellFormedEntry, Seen;
    if entries == [] {
      assert s.files + [] == s.files;
    } else {
      var front, last := entries[..|entries| - 1], entries[|entries| - 1];
      var lines := PrintEntries(full, entries);
      EntriesRead(s, full, front);
      assert lines[..|lines| - 1] == PrintEntries(full, front);
      EntryRead(s.(files := s.files + SeenAll(full, front)), full, last);
      assert s.files + (SeenAll(full, front) + Seen(full, last)) == s.files + SeenAll(full, front) + Seen(full, last);
    }
  }

  lemma {:induction false} ReadAppend(s: Status, a: seq<string>, b: seq<string>)
    ensures ReadLines(s, a + b) == ReadLines(ReadLines(s, a), b)
  {
    hide ReadLine;
    if b == [] {
      assert a + b == a;
    } else {
      var front := b[..|b| - 1];
      ReadAppend(s, a, front);
      assert (a + b)[..|a + b| - 1] == a + front;
    }
  }

  // ---- Header lines

  lemma TwoCountsAre(t: string, n: nat)
    requires n == DigitsOf(t) > 0 && n + 2 <= |t| && t[n] == ' ' && t[n + 1] == '-'
    requires DigitsOf(t[n + 2..]) == |t| - n - 2 > 0
    ensures TwoCounts(t) == Some((ParseDecimal(t[..n]), ParseDecimal(t[n + 2..])))
  {
    hide DigitsOf, ParseDecimal, IsDigit;
    var u := t[n + 2..];
    assert u[..|u|] == u;
  }

  lemma CountsSplit(x: string, y: string)
    requires x != "" && y != ""
    requires (forall i :: 0 <= i < |x| ==> IsDigit(x[i])) && forall i :: 0 <= i < |y| ==> IsDigit(y[i])
    ensures TwoCounts(x + (" -" + y)) == Some((ParseDecimal(x), ParseDecimal(y)))
  {
    hide *;
    NoDigit();
    var u := " -" + y;
    var t := x + u;
    DigitsEnd(y, "");
    DigitsEnd(x, u);
    assert y + "" == y;
    assert t[..|x|] == x && t[|x| + 2..] == y;
    TwoCountsAre(t, |x|);
  }

  lemma NoDigit()
    ensures !IsDigit(' ')
  {
  }

  lemma CountsSkip(s: string)
    requires s != "" && s[0] != 'b'
    ensures Counts(s) == Counts(s[1..])
  {
    hide TwoCounts;
  }

  lemma CountsHere(t: string)
    requires TwoCounts(t).Some?
    ensures Counts("branch.ab +" + t) == TwoCounts(t)
  {
    hide TwoCounts;
    assert ("branch.ab +" + t)[11..] == t;
  }

  lemma CountsFound(ahead: nat, behind: nat)
    ensures Counts(CountsLine(ahead, behind)) == Some((ahead, behind))
  {
    DecimalReadsBack(ahead);
    DecimalReadsBack(behind);
    hide Decimal, ParseDecimal, IsDigit, TwoCounts, CountsAt, Counts;
    var t := Decimal(ahead) + (" -" + Decimal(behind));
    CountsSplit(Decimal(ahead), Decimal(behind));
    CountsHere(t);
    var tail := "branch.ab +" + t;
    assert CountsLine(ahead, behind) == ['#'] + ([' '] + tail);
    assert (['#'] + ([' '] + tail))[1..] == [' '] + tail && ([' '] + tail)[1..] == tail;
    CountsSkip(CountsLine(ahead, behind));
    CountsSkip([' '] + tail);
  }

  /** Without digits there are no counts. */
  lemma {:induction false} NoCounts(s: string)
    requires forall i :: 0 <= i < |s| ==> !IsDigit(s[i])
    ensures Counts(s) == None
  {
    hide ParseDecimal, IsDigit;
    if Starts(s, "branch.ab +") && |s| > 11 {
      assert s[11..][0] == s[11];
    }
    assert CountsAt(s) == None;
    if s != "" {
      NoCounts(s[1..]);
    }
  }

  lemma CountsLineRead(s: Status, ahead: nat, behind: nat)
    ensures ReadLine(s, CountsLine(ahead, behind)) == s.(ahead := Some(ahead), behind := Some(behind))
  {
    hide Decimal, Trim, Split, CountsAt, Counts;
    CountsFound(ahead, behind);
    var line := CountsLine(ahead, behind);
    assert line[..12] == "# branch.ab ";
    assert line[9] == 'a';
  }

  lemma UnknownCountsRead(s: Status)
    ensures ReadLine(s, UNKNOWN_COUNTS) == s
  {
    hide Trim, Split, CountsAt, Counts;
    NoCounts(UNKNOWN_COUNTS);
    assert UNKNOWN_COUNTS[..12] == "# branch.ab ";
    assert UNKNOWN_COUNTS[9] == 'a';
  }

  lemma HeaderLinesRead(s: Status, commit: string, head: string, name: string)
    ensures ReadLine(s, "# branch.oid " + commit) == s
    ensures ReadLine(s, "# branch.head " + head) == s.(branch := Some(Trim(ScriptSpace, head)))
    ensures ReadLine(s, "# branch.upstream " + name) == s
  {
    hide Trim, Split, Counts;
    assert ("# branch.oid " + commit)[9] == 'o';
    assert ("# branch.head " + head)[14..] == head;
    assert ("# branch.upstream " + name)[9] == 'u';
  }

  // ---- The whole report

  lemma OneRead(s: Status, line: string)
    ensures ReadLines(s, [line]) == ReadLine(s, line) && ReadLines(s, []) == s
  {
    hide ReadLine;
    assert [line][..0] == [];
  }

  lemma UpstreamRead(s: Status, u: Option<Upstream>)
    ensures ReadLines(s, PrintUpstream(u)) == WithCounts(s, MeantCounts(u))
  {
    hide ReadLine, CountsLine, Trim;
    OneRead(s, "");
    if u.Some? {
      var name, counts := "# branch.upstream " + u.value.name, u.value.counts;
      HeaderLinesRead(s, "", "", u.value.name);
      OneRead(s, name);
      ReadAppend(s, [name], PrintCounts(counts));
      if counts.Known? {
        CountsLineRead(s, counts.ahead, counts.behind);
        OneRead(s, CountsLine(counts.ahead, counts.behind));
      } else if counts.Unknown? {
        UnknownCountsRead(s);
        OneRead(s, UNKNOWN_COUNTS);
      }
    }
  }

  /** The status that is read: the branch trimmed, the files as `Seen` says. */
  function SeenStatus(r: Report): Status {
    MeantStatus(r).(branch := Some(Trim(ScriptSpace, r.head)), files := SeenAll(r.quotePath, r.entries))
  }

  lemma HeadRead(r: Report)
    ensures ReadLines(NOTHING, ["# branch.oid " + r.commit, "# branch.head " + r.head])
         == NOTHING.(branch := Some(Trim(ScriptSpace, r.head)))
  {
    hide ReadLine, Trim;
    var oid, head := "# branch.oid " + r.commit, "# branch.head " + r.head;
    HeaderLinesRead(NOTHING, r.commit, r.head, "");
    OneRead(NOTHING, oid);
    OneRead(NOTHING, head);
    ReadAppend(NOTHING, [oid], [head]);
    assert [oid] + [head] == [oid, head];
  }

  lemma LinesRead(r: Report)
    requires WellFormed(r)
    ensures ReadLines(NOTHING, Lines(r)) == SeenStatus(r)
  {
    hide ReadLine, ReadLines, PrintEntries, SeenAll, OneLine, Trim, WellFormedEntry, MeantAll, Split, PrintUpstream;
    var start := ["# branch.oid " + r.commit, "# branch.head " + r.head];
    var s := NOTHING.(branch := Some(Trim(ScriptSpace, r.head)));
    HeadRead(r);
    ReadAppend(NOTHING, start, PrintUpstream(r.upstream));
    UpstreamRead(s, r.upstream);
    ReadAppend(NOTHING, start + PrintUpstream(r.upstream), PrintEntries(r.quotePath, r.entries));
    EntriesRead(WithCounts(s, MeantCounts(r.upstream)), r.quotePath, r.entries);
    assert [] + SeenAll(r.quotePath, r.entries) == SeenAll(r.quotePath, r.entries);
  }

  lemma PathsOneLine(full: bool, e: Entry)
    ensures OneLine(PrintPaths(full, e))
  {
    PrintedPath(full, e.path);
    if e.Renamed? {
      PrintedPath(full, e.origin);
    }
    hide PrintPath;
  }

  lemma EntryOneLine(full: bool, e: Entry)
    requires WellFormedEntry(e)
    ensures OneLine(PrintEntry(full, e))
  {
    PathsOneLine(full, e);
    hide PrintPaths;
    match e
    case Changed(x, y, fields, _) => SpacedOneLine(["1", [x, y]] + fields, PrintPaths(full, e));
    case Renamed(x, y, fields, _, _) => SpacedOneLine(["2", [x, y]] + fields, PrintPaths(full, e));
    case Unmerged(x, y, fields, _) => SpacedOneLine(["u", [x, y]] + fields, PrintPaths(full, e));
    case Untracked(_) =>
  }

  lemma {:induction false} EntriesOneLine(full: bool, entries: seq<Entry>)
    requires forall i :: 0 <= i < |entries| ==> WellFormedEntry(entries[i])
    ensures forall i :: 0 <= i < |PrintEntries(full, entries)| ==> OneLine(PrintEntries(full, entries)[i])
  {
    hide WellFormedEntry, PrintEntry, OneLine;
    if entries != [] {
      EntriesOneLine(full, entries[..|entries| - 1]);
      EntryOneLine(full, entries[|entries| - 1]);
    }
  }

  lemma CountsOneLine(ahead: nat, behind: nat)
    ensures OneLine(CountsLine(ahead, behind)) && OneLine(UNKNOWN_COUNTS)
  {
    DecimalReadsBack(ahead);
    DecimalReadsBack(behind);
    hide Decimal, ParseDecimal;
  }

  lemma UpstreamOneLine(u: Option<Upstream>)
    requires u.Some? ==> OneLine(u.value.name)
    ensures forall i :: 0 <= i < |PrintUpstream(u)| ==> OneLine(PrintUpstream(u)[i])
  {
    if u.Some? && u.value.counts.Known? {
      CountsOneLine(u.value.counts.ahead, u.value.counts.behind);
    }
    CountsOneLine(0, 0);
    hide CountsLine;
  }

  predicate AllOneLine(lines: seq<string>) { forall i :: 0 <= i < |lines| ==> OneLine(lines[i]) }

  lemma AllOneLineAppend(a: seq<string>, b: seq<string>)
    requires AllOneLine(a) && AllOneLine(b)
    ensures AllOneLine(a + b)
  {
    hide OneLine;
  }

  lemma HeaderOneLine(commit: string, head: string)
    requires OneLine(commit) && OneLine(head)
    ensures AllOneLine(["# branch.oid " + commit, "# branch.head " + head]) && AllOneLine([""])
  {
  }

  lemma LinesAreOneLine(r: Report)
    requires WellFormed(r)
    ensures AllOneLine(Lines(r) + [""])
  {
    hide PrintUpstream, PrintEntries, OneLine, WellFormedEntry;
    HeaderOneLine(r.commit, r.head);
    UpstreamOneLine(r.upstream);
    EntriesOneLine(r.quotePath, r.entries);
    var start := ["# branch.oid " + r.commit, "# branch.head " + r.head];
    assert AllOneLine(PrintUpstream(r.upstream)) && AllOneLine(PrintEntries(r.quotePath, r.entries));
    hide AllOneLine;
    AllOneLineAppend(start, PrintUpstream(r.upstream));
    AllOneLineAppend(start + PrintUpstream(r.upstream), PrintEntries(r.quotePath, r.entries));
    AllOneLineAppend(Lines(r), [""]);
  }

  /** The text of a report is split into its lines and one empty string. */
  lemma PrintedLines(r: Report)
    requires WellFormed(r)
    ensures Split(Print(r), '\n') == Lines(r) + [""]
  {
    hide WellFormed, Lines, Join, Split;
    LinesAreOneLine(r);
    SplitJoin(Lines(r) + [""], '\n');
  }

  /** Whatever the report, its header and every file line are read as `SeenStatus` says. */
  lemma ReportRead(r: Report)
    requires WellFormed(r)
    ensures ReadLines(NOTHING, Split(Print(r), '\n')) == SeenStatus(r)
  {
    hide *;
    PrintedLines(r);
    LinesRead(r);
    ReadAppend(NOTHING, Lines(r), [""]);
    OneRead(SeenStatus(r), "");
    EmptyLineRead(SeenStatus(r));
  }

  lemma EmptyLineRead(s: Status)
    ensures ReadLine(s, "") == s
  {
  }

  /** A file that is neither renamed nor unmerged, with a path that git prints as it is. */
  predicate Faithful(full: bool, e: Entry) {
    (e.Changed? || e.Untracked?) && !NeedsQuoting(full, e.path)
  }

  lemma SeenOne(full: bool, e: Entry)
    requires WellFormedEntry(e)
    ensures |Seen(full, e)| <= 1
    ensures Seen(full, e) == [Meant(e)] <==> Faithful(full, e)
  {
    PrintedPath(full, e.path);
    hide OneLine, Field, PrintPath, NeedsQuoting;
    if e.Renamed? {
      assert |Seen(full, e)[0].path| > |e.path|;
    }
  }

  lemma {:induction false} SeenIsMeantIff(full: bool, entries: seq<Entry>)
    requires forall i :: 0 <= i < |entries| ==> WellFormedEntry(entries[i])
    ensures |SeenAll(full, entries)| <= |entries|
    ensures SeenAll(full, entries) == MeantAll(entries)
      <==> forall i :: 0 <= i < |entries| ==> Faithful(full, entries[i])
  {
    hide Meant, WellFormedEntry, Seen, Faithful;
    if entries != [] {
      var front, last := entries[..|entries| - 1], entries[|entries| - 1];
      SeenIsMeantIff(full, front);
      assert MeantAll(entries) == MeantAll(front) + [Meant(last)];
      SeenOne(full, last);
      if SeenAll(full, entries) == MeantAll(entries) {
        assert |Seen(full, last)| == 1;
        assert SeenAll(full, front) == MeantAll(entries)[..|front|] == MeantAll(front);
        assert Seen(full, last)[0] == MeantAll(entries)[|front|];
      }
      assert forall i :: 0 <= i < |front| ==> entries[i] == front[i];
    }
  }

  /** The status is read back as meant iff the branch name has no blank at an end, no file is renamed or unmerged, and
      no path needs quoting. */
  lemma ReportReadsBackIff(r: Report)
    requires WellFormed(r)
    ensures ReadLines(NOTHING, Split(Print(r), '\n')) == MeantStatus(r)
      <==> Trimmed(ScriptSpace, r.head) && forall i :: 0 <= i < |r.entries| ==> Faithful(r.quotePath, r.entries[i])
  {
    ReportRead(r);
    SeenIsMeantIff(r.quotePath, r.entries);
    TrimFixes(ScriptSpace, r.head);
    hide Split, Print, ReadLines, SeenAll, MeantAll, WellFormedEntry, Trim, Trimmed, Faithful;
  }

  lemma SeenSingle(full: bool, e: Entry)
    ensures SeenAll(full, [e]) == Seen(full, e) && MeantAll([e]) == [Meant(e)]
  {
    hide Seen, Meant;
    assert [e][..0] == [];
    assert [] + Seen(full, e) == Seen(full, e);
  }

  function QuotedName(commit: string, quotePath: bool): Report {
    Report(commit, "main", None, [Untracked("a\"b")], quotePath)
  }

  lemma QuotedNameIsWellFormed(commit: string, quotePath: bool)
    requires OneLine(commit)
    ensures WellFormed(QuotedName(commit, quotePath))
  {
  }

  /** An untracked file whose name holds a double quote is shown under a name of six characters. */
  lemma QuotedNameIsMisread(commit: string, quotePath: bool)
    requires OneLine(commit)
    ensures var read := ReadLines(NOTHING, Split(Print(QuotedName(commit, quotePath)), '\n'));
      read.files == [UntrackedFile("\"a\\\"b\"")] && read != MeantStatus(QuotedName(commit, quotePath))
  {
    hide Split, Print, ReadLines, PrintPath, Trim, SeenAll, MeantAll, WellFormed;
    QuotedNames();
    QuotedNameIsWellFormed(commit, quotePath);
    ReportRead(QuotedName(commit, quotePath));
    SeenSingle(quotePath, Untracked("a\"b"));
    assert |"a\"b"| == 3 && |"\"a\\\"b\""| == 6;
  }
}
