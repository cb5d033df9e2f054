/**
 Which lines start which block in the Markdown reader (skills/minimax-pdf/scripts/reformat_parse.py): running text is
 exactly what matches none of the patterns, a block without an end mark takes the rest of the text, and blanks around
 a line make no difference outside fences.
 */
module MarkdownLines {
  import opened Text
  import opened Markdown

  // ---- The patterns, as decompositions of a line

  /** One to three `#`, a blank, and anything. */
  predicate HeadingOf(s: string, level: int) {
    1 <= level <= 3 && level < |s| && Space(s[level]) && forall i :: 0 <= i < level ==> s[i] == '#'
  }

  /** Digits up to position `n`, a dot and a blank. */
  predicate NumberOf(d: Dialect, s: string, n: int) {
    1 <= n && n + 1 < |s| && s[n] == '.' && Space(s[n + 1]) && forall i :: 0 <= i < n ==> d.digit(s[i])
  }

  predicate BulletOf(s: string) { |s| > 1 && (s[0] == '-' || s[0] == '*' || s[0] == '+') && Space(s[1]) }

  predicate RulerOf(s: string) {
    |s| > 2 && forall i :: 0 <= i < |s| ==> s[i] == '-' || s[i] == '*' || s[i] == '_'
  }

  predicate OpensBlock(s: string) {
    "$$" <= s || "```" <= s || "~~~" <= s || ">" <= s || "|" <= s
  }

  /** A stripped line that matches one of the patterns. */
  ghost predicate Matches(d: Dialect, s: string) {
    || (exists level :: HeadingOf(s, level))
    || (exists n :: NumberOf(d, s, n))
    || BulletOf(s) || RulerOf(s) || OpensBlock(s)
  }

  lemma HeadingIff(s: string, level: int)
    requires !Space('#')
    ensures HeadingOf(s, level) <==> HeadingLevel(s) == level && level > 0
  {
    var n := Leading(s, '#');
    hide Space, Leading;
    if HeadingOf(s, level) {
      assert s[level] != '#';
      assert !(n < level);
      assert n == level;
    }
  }

  lemma {:induction false} DigitsMeaning(d: Dialect, s: string)
    ensures forall i :: 0 <= i < Digits(d, s) ==> d.digit(s[i])
    ensures Digits(d, s) < |s| ==> !d.digit(s[Digits(d, s)])
  {
    if s != "" && d.digit(s[0]) {
      DigitsMeaning(d, s[1..]);
    }
  }

  lemma NumberIff(d: Dialect, s: string, n: int)
    requires !d.digit('.')
    ensures NumberOf(d, s, n) <==> NumberEnd(d, s) == n + 1 && n > 0
  {
    DigitsMeaning(d, s);
    hide Space, Digits;
    var m := Digits(d, s);
    assert NumberOf(d, s, n) ==> m == n;
  }

  lemma HashIsNoSpace()
    ensures !Space('#')
  {
  }

  lemma RulerIff(s: string)
    ensures RulerOf(s) <==> IsRule(s)
    ensures BulletOf(s) <==> IsBullet(s)
  {
    hide Space;
    if RulerOf(s) {
      forall c | c in s
        ensures c in "-*_"
      {
        var i :| 0 <= i < |s| && s[i] == c;
      }
    }
    if IsRule(s) {
      forall i | 0 <= i < |s|
        ensures s[i] == '-' || s[i] == '*' || s[i] == '_'
      {
        assert s[i] in s;
      }
    }
  }

  predicate RulerMarks(s: string) {
    |s| > 0 && forall i :: 0 <= i < |s| ==> s[i] == '-' || s[i] == ':' || s[i] == '|' || s[i] == ' '
  }

  lemma RulerMarksIff(s: string)
    ensures RulerMarks(s) <==> s != "" && forall c :: c in s ==> c in "-:| "
  {
    if forall c :: c in s ==> c in "-:| " {
      assert forall i :: 0 <= i < |s| ==> s[i] in s;
    }
  }

  /** A ruler of a table is at least one dash, colon, bar or blank between two bars. */
  lemma SeparatorIff(row: string)
    ensures IsSeparator(row) <==> exists inner: string :: RulerMarks(inner) && row == "|" + inner + "|"
  {
    if |row| >= 2 {
      RulerMarksIff(row[1..|row| - 1]);
    }
    hide RulerMarks;
    if IsSeparator(row) {
      assert row == "|" + row[1..|row| - 1] + "|";
    }
    if inner: string :| RulerMarks(inner) && row == "|" + inner + "|" {
      assert row[1..|row| - 1] == inner;
      RulerMarksIff(inner);
    }
  }

  lemma MatchesIff(d: Dialect, s: string)
    requires !d.digit('.')
    ensures Matches(d, s) <==> HeadingLevel(s) > 0 || NumberEnd(d, s) > 0 || IsBullet(s) || IsRule(s) || OpensBlock(s)
  {
    HashIsNoSpace();
    RulerIff(s);
    NumberEndAtLeast(d, s);
    hide HeadingLevel, NumberEnd, IsRule, IsBullet, RulerOf, BulletOf, HeadingOf, NumberOf, OpensBlock, Space;
    HeadingIff(s, HeadingLevel(s));
    NumberIff(d, s, NumberEnd(d, s) - 1);
    if level :| HeadingOf(s, level) {
      HeadingIff(s, level);
    }
    if n :| NumberOf(d, s, n) {
      NumberIff(d, s, n);
    }
  }

  /** A line is running text iff it is not blank and matches none of the patterns. */
  lemma ProseIff(d: Dialect, lines: seq<string>)
    requires lines != [] && !d.digit('.')
    ensures Next(d, lines).Prose? <==> Strip(lines[0]) != "" && !Matches(d, Strip(lines[0]))
  {
    MatchesIff(d, Strip(lines[0]));
    hide Strip, HeadingLevel, NumberEnd, IsRule, IsBullet, Dollars, MathStep, CodeStep, TableStep, AfterBlanks, Matches;
  }

  lemma NumberEndAtLeast(d: Dialect, s: string)
    ensures NumberEnd(d, s) != 1
  {
    hide Space;
  }

  // ---- Blocks without an end mark

  lemma {:induction false} ScanReachesEnd(lines: seq<string>, stop: Stop)
    ensures Scan(lines, stop) == |lines| <==> forall i :: 0 <= i < |lines| ==> !Stops(stop, lines[i])
  {
    hide Stops;
    var n := Scan(lines, stop);
    if forall i :: 0 <= i < |lines| ==> !Stops(stop, lines[i]) {
      assert n == |lines|;
    }
  }

  /** A fence that no later line closes takes all of them as code. */
  lemma UnclosedFence(d: Dialect, first: string, rest: seq<string>)
    requires Starts(Strip(first), "```") || Starts(Strip(first), "~~~")
    requires forall i :: 0 <= i < |rest| ==> !Starts(Strip(rest[i]), Strip(first)[..3])
    ensures Parse(d, [first] + rest, []) == [Code(Join(rest, "\n"))] && LeavesOpen(d, [first] + rest)
  {
    var lines, s := [first] + rest, Strip(first);
    assert lines[1..] == rest && lines[0] == first && rest[..|rest|] == rest && s[0] != '#';
    assert HeadingLevel(s) == 0;
    hide Strip, HeadingLevel, Join, Scan, Parse, LeavesOpen, Dollars, Flush, TableStep, NumberEnd, IsRule, IsBullet;
    ScanReachesEnd(rest, AtFence(s[..3]));
    assert Next(d, lines) == Emit([Code(Join(rest, "\n"))], |lines|, true);
    OpenRead(d, lines);
  }

  /** A `$$` that no later line closes takes all of them as a formula. */
  lemma UnclosedFormula(d: Dialect, first: string, rest: seq<string>)
    requires Starts(Strip(first), "$$") && Dollars(Strip(first)) == ""
    requires forall i :: 0 <= i < |rest| ==> Strip(rest[i]) != "$$"
    ensures Parse(d, [first] + rest, []) == [Math(Strip(Join(rest, "\n")))] && LeavesOpen(d, [first] + rest)
  {
    var lines, s := [first] + rest, Strip(first);
    assert lines[1..] == rest && lines[0] == first && rest[..|rest|] == rest && s[0] != '#';
    assert HeadingLevel(s) == 0;
    hide Strip, HeadingLevel, Join, Scan, Parse, LeavesOpen, Dollars, Flush, TableStep, NumberEnd, IsRule, IsBullet;
    ScanReachesEnd(rest, AtDollars);
    assert Next(d, lines) == Emit([Math(Strip(Join(rest, "\n")))], |lines|, true);
    OpenRead(d, lines);
  }

  lemma OpenRead(d: Dialect, lines: seq<string>)
    requires lines != [] && Next(d, lines).Emit? && Next(d, lines).open && Next(d, lines).used == |lines|
    ensures Parse(d, lines, []) == Next(d, lines).blocks && LeavesOpen(d, lines)
  {
    hide *;
    ParseUnfolds(d, lines, []);
    NoParagraph(d);
    ParseNothing(d, []);
    assert lines[|lines|..] == [];
  }

  // ---- Blanks around a line

  lemma {:induction false} StripAgain(s: string)
    ensures Strip(Strip(s)) == Strip(s)
  {
    TrimIsTrimmed(PythonSpace, s);
    TrimFixes(PythonSpace, Strip(s));
    hide Trim, Trimmed;
  }

  /** Blanks around the first line of a block do not change what is read. */
  lemma IndentationIsIgnored(d: Dialect, first: string, rest: seq<string>)
    ensures Next(d, [Strip(first)] + rest) == Next(d, [first] + rest)
  {
    var a, b := [first] + rest, [Strip(first)] + rest;
    StripAgain(first);
    assert a[1..] == rest && b[1..] == rest && a[0] == first && b[0] == Strip(first);
    TableIgnores(first, rest);
    hide Space, Strip, HeadingLevel, Dollars, MathStep, CodeStep, TableStep, NumberEnd, IsRule, IsBullet, AfterBlanks;
  }

  lemma TableIgnores(first: string, rest: seq<string>)
    ensures TableStep([Strip(first)] + rest) == TableStep([first] + rest)
  {
    var a, b := [first] + rest, [Strip(first)] + rest;
    assert a[1..] == rest && b[1..] == rest;
    StripAgain(first);
    assert Scan(a, AtNonTable) == Scan(b, AtNonTable);
    hide Strip, Scan, TableBlocks, Stops;
    RowsIgnore(first, a[..Scan(a, AtNonTable)], b[..Scan(a, AtNonTable)]);
  }

  lemma {:induction false} RowsIgnore(first: string, a: seq<string>, b: seq<string>)
    requires |a| == |b| && (a != [] ==> a[0] == first && b[0] == Strip(first))
    requires forall i :: 1 <= i < |a| ==> a[i] == b[i]
    ensures Rows(a) == Rows(b)
  {
    StripAgain(first);
    hide Strip, RowOf;
    if a != [] {
      RowsIgnore(first, a[..|a| - 1], b[..|b| - 1]);
    }
  }

  // ---- Line breaks

  /** What ends a line: a line feed, a carriage return, both, or one of the other eight. */
  predicate IsBreak(b: string, rest: string) {
    if b == "\r" then rest == "" || rest[0] != '\n'
    else b in ["\n", "\r\n", "\U{b}", "\U{c}", "\U{1c}", "\U{1d}", "\U{1e}", "\U{85}", "\U{2028}", "\U{2029}"]
  }

  /** A text is cut at its first line break. */
  lemma FirstLineCut(line: string, b: string, rest: string)
    requires OneLine(line) && IsBreak(b, rest)
    ensures SplitLines(line + b + rest) == [line] + SplitLines(rest)
  {
    var s := line + b + rest;
    BreakFound(line, b, rest);
    hide OneLine, BreakAt, LineBreak;
    assert s[..|line|] == line && s[|line| + |b|..] == rest;
  }

  lemma BreakFound(line: string, b: string, rest: string)
    requires OneLine(line) && IsBreak(b, rest)
    ensures var s := line + b + rest; BreakAt(s) == |line| && BreakWidth(s, |line|) == |b|
  {
    var s := line + b + rest;
    BreakShape(b, rest);
    assert s == line + (b + rest) && s[|line|] == b[0];
    hide LineBreak;
    BreakAfter(line, b + rest);
    if |line| + 1 < |s| {
      assert s[|line| + 1] == (b + rest)[1];
    }
  }

  lemma BreakShape(b: string, rest: string)
    requires IsBreak(b, rest)
    ensures b != "" && LineBreak(b[0])
    ensures |b| == if b[0] == '\r' && |b + rest| > 1 && (b + rest)[1] == '\n' then 2 else 1
  {
  }

  lemma {:induction false} BreakAfter(line: string, rest: string)
    requires OneLine(line) && rest != "" && LineBreak(rest[0])
    ensures BreakAt(line + rest) == |line|
  {
    hide LineBreak;
    if line == "" {
      assert line + rest == rest;
    } else {
      assert (line + rest)[0] == line[0] && (line + rest)[1..] == line[1..] + rest;
      assert forall i :: 0 <= i < |line| - 1 ==> line[1..][i] == line[i + 1];
      BreakAfter(line[1..], rest);
    }
  }
}
