/**
 Reading `git status --porcelain=v2 --branch` (src/adapters/web/projectGit.ts, `parsePorcelainV2`), against the format
 that git-status(1) describes under "Porcelain Format Version 2".
 */
module GitStatus {
  import opened Options
  import opened Text

  datatype FileStatus = FileStatus(path: string, index: char, workTree: char,
                                   staged: bool, unstaged: bool, untracked: bool)

  datatype Status = Status(branch: Option<string>, ahead: Option<nat>, behind: Option<nat>, files: seq<FileStatus>)

  // ---- Reading

  /** `(\d+) -(\d+)` at the start of `t`. */
  function TwoCounts(t: string): Option<(nat, nat)> {
    var n := DigitsOf(t);
    if n == 0 || !Starts(t[n..], " -") then None
    else
      var u := t[n + 2..];
      var m := DigitsOf(u);
      if m == 0 then None else Some((ParseDecimal(t[..n]), ParseDecimal(u[..m])))
  }

  /** `branch\.ab \+(\d+) -(\d+)` at the start of `s`. */
  function CountsAt(s: string): Option<(nat, nat)> {
    if Starts(s, "branch.ab +") then TwoCounts(s[11..]) else None
  }

  /** The pattern is searched for anywhere in the line. */
  function Counts(s: string): Option<(nat, nat)> {
    if CountsAt(s).Some? then CountsAt(s)
    else if s == "" then None
    else Counts(s[1..])
  }

  function UntrackedFile(path: string): FileStatus { FileStatus(path, '?', '?', false, true, true) }

  function ChangedFile(path: string, index: char, workTree: char): FileStatus {
    FileStatus(path, index, workTree, index !in ". ", workTree !in ". ", false)
  }

  function At(s: string, i: nat): char { if i < |s| then s[i] else ' ' }

  function Tokens(line: string): seq<string> { Split(line, ' ') }

  /** The path of a `1` or `2` line: everything from the ninth token on. */
  function PathOf(tokens: seq<string>): string { if |tokens| <= 8 then "" else Join(tokens[8..], " ") }

  function ReadLine(s: Status, line: string): Status {
    if Starts(line, "# branch.head ") then s.(branch := Some(Trim(ScriptSpace, line[14..])))
    else if Starts(line, "# branch.ab ") then
      match Counts(line)
      case Some(ab) => s.(ahead := Some(ab.0), behind := Some(ab.1))
      case None => s
    else if Starts(line, "# ") then s
    else if Starts(line, "? ") then s.(files := s.files + [UntrackedFile(line[2..])])
    else if Starts(line, "1 ") || Starts(line, "2 ") then
      var tokens := Tokens(line);
      var xy := if |tokens| > 1 then tokens[1] else "  ";
      s.(files := s.files + [ChangedFile(PathOf(tokens), At(xy, 0), At(xy, 1))])
    else s
  }

  function ReadLines(s: Status, lines: seq<string>): Status {
    if lines == [] then s else ReadLine(ReadLines(s, lines[..|lines| - 1]), lines[|lines| - 1])
  }

  const NOTHING := Status(None, None, None, [])

  method ParsePorcelainV2(input: string) returns (status: Status)
    ensures status == ReadLines(NOTHING, Split(input, '\n'))
  {
    hide Split, Trim, Counts, PathOf, DigitsOf;
    var lines := Split(input, '\n');
    var branch: Option<string> := None;
    var ahead: Option<nat> := None;
    var behind: Option<nat> := None;
    var files: seq<FileStatus> := [];
    for i := 0 to |lines|
      invariant Status(branch, ahead, behind, files) == ReadLines(NOTHING, lines[..i])
    {
      var line := lines[i];
      assert lines[..i + 1][..i] == lines[..i];
      if line == "" {
        continue;
      }
      if Starts(line, "# branch.head ") {
        branch := Some(Trim(ScriptSpace, line[14..]));
        continue;
      }
      if Starts(line, "# branch.ab ") {
        var counts := Counts(line);
        if counts.Some? {
          ahead := Some(counts.value.0);
          behind := Some(counts.value.1);
        }
        continue;
      }
      if Starts(line, "# ") {
        continue;
      }
      if Starts(line, "? ") {
        files := files + [FileStatus(line[2..], '?', '?', false, true, true)];
        continue;
      }
      if Starts(line, "1 ") || Starts(line, "2 ") {
        var tokens := Tokens(line);
        var xy := if |tokens| > 1 then tokens[1] else "  ";
        var indexStatus, workTreeStatus := At(xy, 0), At(xy, 1);
        files := files + [FileStatus(PathOf(tokens), indexStatus, workTreeStatus,
                                     indexStatus != '.' && indexStatus != ' ',
                                     workTreeStatus != '.' && workTreeStatus != ' ', false)];
      }
    }
    assert lines[..|lines|] == lines;
    status := Status(branch, ahead, behind, files);
  }

  lemma FirstOf(prefix: string, line: string)
    ensures prefix != "" && prefix <= line ==> line != "" && line[0] == prefix[0]
  {
  }

  lemma Prefixes(line: string)
    ensures Starts(line, "# branch.head ") || Starts(line, "# branch.ab ") || Starts(line, "# ") ==> line[0] == '#'
    ensures Starts(line, "? ") ==> line[0] == '?'
    ensures Starts(line, "1 ") ==> line[0] == '1'
    ensures Starts(line, "2 ") ==> line[0] == '2'
  {
    FirstOf("# branch.head ", line);
    FirstOf("# branch.ab ", line);
    FirstOf("# ", line);
    FirstOf("? ", line);
    FirstOf("1 ", line);
    FirstOf("2 ", line);
  }

  /** A line changes the branch, the counts or the files, and nothing but what it is about. */
  lemma LineIsAbout(s: Status, line: string)
    ensures var after := ReadLine(s, line);
      && (after.branch != s.branch ==> Starts(line, "# branch.head "))
      && (after.ahead != s.ahead || after.behind != s.behind ==> Starts(line, "# branch.ab "))
      && s.files <= after.files
      && |after.files| ==
         |s.files| + (if Starts(line, "? ") || Starts(line, "1 ") || Starts(line, "2 ") then 1 else 0)
  {
    Prefixes(line);
    hide Counts, Trim, Tokens, PathOf, Starts;
  }

  /** A line for a file that breaks off too early gives a file without path; a missing state is no change. */
  lemma ShortLine(s: Status, line: string)
    requires (Starts(line, "1 ") || Starts(line, "2 ")) && |Tokens(line)| <= 8
    ensures |Tokens(line)| >= 2
    ensures var xy := Tokens(line)[1];
      var x, y := if |xy| > 0 then xy[0] else ' ', if |xy| > 1 then xy[1] else ' ';
      ReadLine(s, line).files
      == s.files + [FileStatus("", x, y, x != '.' && x != ' ', y != '.' && y != ' ', false)]
  {
    Prefixes(line);
    TwoTokens(line);
    hide Trim, Counts, Tokens, Starts;
  }

  lemma TwoTokens(line: string)
    requires Starts(line, "1 ") || Starts(line, "2 ")
    ensures |Tokens(line)| >= 2
  {
    assert line[1] == ' ' && line[0] != ' ';
    assert line == line[..1] + [' '] + line[2..];
    hide Split, Starts;
    SplitFirst(line[..1], ' ', line[2..]);
  }
}
