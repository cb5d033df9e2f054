/**
 The Markdown reader of skills/minimax-pdf/scripts/reformat_parse.py (`parse_markdown`). Rewriting inside a line
 (`_md_inline`) and the digits that `\d` accepts are parameters.
 */
module Markdown {
  import opened Text

  datatype Dialect = Dialect(inline: string -> string, digit: char -> bool)

  datatype Block =
    | Heading(level: nat, text: string)
    | Body(text: string)
    | Math(text: string)
    | Code(text: string)
    | Callout(text: string)
    | Bullet(text: string)
    | Numbered(text: string)
    | Table(headers: seq<string>, rows: seq<seq<string>>)
    | Spacer(pt: nat)

  // ---- Lines, as Python's `splitlines` makes them

  predicate LineBreak(c: char) {
    '\n' <= c <= '\r' || '\U{1c}' <= c <= '\U{1e}' || c == '\U{85}' || c == '\U{2028}' || c == '\U{2029}'
  }

  predicate OneLine(s: string) { forall i :: 0 <= i < |s| ==> !LineBreak(s[i]) }

  /** The position of the first line break, or the length of `s`. */
  function BreakAt(s: string): (n: nat)
    ensures n <= |s| && (n < |s| ==> LineBreak(s[n])) && OneLine(s[..n])
  {
    if s == "" || LineBreak(s[0]) then 0
    else
      var n := BreakAt(s[1..]);
      assert s[..n + 1] == [s[0]] + s[1..][..n];
      n + 1
  }

  /** A carriage return and a line feed are one break. */
  function BreakWidth(s: string, n: nat): (w: nat)
    requires n < |s|
    ensures 1 <= w <= |s| - n
  {
    if s[n] == '\r' && n + 1 < |s| && s[n + 1] == '\n' then 2 else 1
  }

  function AfterBreak(s: string): (r: string)
    requires BreakAt(s) < |s|
    ensures |r| < |s|
  {
    s[BreakAt(s) + BreakWidth(s, BreakAt(s))..]
  }

  function SplitLines(s: string): seq<string>
    decreases |s|
  {
    if BreakAt(s) < |s| then [s[..BreakAt(s)]] + SplitLines(AfterBreak(s))
    else if s == "" then []
    else [s]
  }

  function Strip(s: string): string { Trim(PythonSpace, s) }

  predicate Space(c: char) { In(PythonSpace, c) }

  // ---- The patterns a stripped line is tried against

  function Leading(s: string, c: char): (n: nat)
    ensures n <= |s| && (n < |s| ==> s[n] != c)
    ensures forall i :: 0 <= i < n ==> s[i] == c
  {
    if s == "" || s[0] != c then 0 else 1 + Leading(s[1..], c)
  }

  /** `^(#{1,3})\s+(.*)`: the level, or zero. */
  function HeadingLevel(s: string): (n: nat)
    ensures n <= |s|
  {
    var n := Leading(s, '#');
    if 1 <= n <= 3 && n < |s| && Space(s[n]) then n else 0
  }

  /** `^[-*+]\s+` */
  predicate IsBullet(s: string) { |s| >= 2 && s[0] in "-*+" && Space(s[1]) }

  function Digits(d: Dialect, s: string): (n: nat)
    ensures n <= |s|
  {
    if s == "" || !d.digit(s[0]) then 0 else 1 + Digits(d, s[1..])
  }

  /** `^\d+\.\s+`: the position after the dot, or zero. */
  function NumberEnd(d: Dialect, s: string): (n: nat)
    ensures n <= |s|
  {
    var n := Digits(d, s);
    if n > 0 && n + 1 < |s| && s[n] == '.' && Space(s[n + 1]) then n + 1 else 0
  }

  /** `^[-*_]{3,}$` */
  predicate IsRule(s: string) { |s| >= 3 && forall c :: c in s ==> c in "-*_" }

  /** `^\|[-:| ]+\|$` */
  predicate IsSeparator(row: string) {
    |row| >= 3 && row[0] == '|' == row[|row| - 1] && forall c :: c in row[1..|row| - 1] ==> c in "-:| "
  }

  function AfterBlanks(s: string): string { TrimLeft(PythonSpace, s) }

  // ---- Blocks of several lines

  datatype Stop = AtFence(fence: string) | AtDollars | AtNonTable

  predicate Stops(stop: Stop, line: string) {
    match stop
    case AtFence(fence) => Starts(Strip(line), fence)
    case AtDollars => Strip(line) == "$$"
    case AtNonTable => !Starts(Strip(line), "|")
  }

  /** The position of the first line that stops the scan, or the number of lines. */
  function Scan(lines: seq<string>, stop: Stop): (n: nat)
    ensures n <= |lines| && (n < |lines| ==> Stops(stop, lines[n]))
    ensures forall i :: 0 <= i < n ==> !Stops(stop, lines[i])
  {
    if lines == [] || Stops(stop, lines[0]) then 0 else 1 + Scan(lines[1..], stop)
  }

  function Cells(row: string): seq<string> {
    var parts := Split(Trim(Only('|'), row), '|');
    seq(|parts|, i requires 0 <= i < |parts| => Strip(parts[i]))
  }

  /** The cells of the rows of a table, separator rows left out. */
  function Rows(lines: seq<string>): seq<seq<string>> {
    if lines == [] then [] else Rows(lines[..|lines| - 1]) + RowOf(Strip(lines[|lines| - 1]))
  }

  function RowOf(row: string): seq<seq<string>> { if IsSeparator(row) then [] else [Cells(row)] }

  function TableBlocks(rows: seq<seq<string>>): seq<Block> {
    if |rows| >= 2 then [Table(rows[0], rows[1..])]
    else if |rows| == 1 then [Body(Join(rows[0], " | "))]
    else []
  }

  // ---- One step of the reader

  /** A line of running text, or some blocks made of the next `used` lines; `open` if their end mark is missing. */
  datatype Step = Prose(line: string) | Emit(blocks: seq<Block>, used: nat, open: bool)

  function Fenced(block: Block, closedAt: nat, n: nat): Step
    requires closedAt <= n
  {
    if closedAt < n then Emit([block], closedAt + 2, false) else Emit([block], n + 1, true)
  }

  function Dollars(s: string): string
    requires Starts(s, "$$")
  {
    Strip(TrimRight(Only('$'), s[2..]))
  }

  /** The rest of a `$$` block, after its first line. */
  function MathStep(rest: seq<string>): (step: Step)
    ensures step.Emit?
  {
    var n := Scan(rest, AtDollars);
    Fenced(Math(Strip(Join(rest[..n], "\n"))), n, |rest|)
  }

  /** The rest of a fenced block, after its first line. */
  function CodeStep(fence: string, rest: seq<string>): (step: Step)
    ensures step.Emit?
  {
    var n := Scan(rest, AtFence(fence));
    Fenced(Code(Join(rest[..n], "\n")), n, |rest|)
  }

  function TableStep(lines: seq<string>): (step: Step)
    ensures step.Emit? && !step.open
  {
    var n := Scan(lines, AtNonTable);
    Emit(TableBlocks(Rows(lines[..n])), n, false)
  }

  function Next(d: Dialect, lines: seq<string>): (step: Step)
    requires lines != []
    ensures step.Emit? ==> 1 <= step.used <= |lines|
    ensures step.Prose? ==> step.line == Strip(lines[0])
  {
    var s, rest := Strip(lines[0]), lines[1..];
    if s == "" then Emit([], 1, false)
    else if HeadingLevel(s) > 0 then
      Emit([Heading(HeadingLevel(s), d.inline(AfterBlanks(s[HeadingLevel(s)..])))], 1, false)
    else if Starts(s, "$$") then
      if Dollars(s) != "" then Emit([Math(Dollars(s))], 1, false)
      else MathStep(rest)
    else if Starts(s, "```") || Starts(s, "~~~") then CodeStep(s[..3], rest)
    else if Starts(s, ">") then Emit([Callout(d.inline(AfterBlanks(s[1..])))], 1, false)
    else if IsBullet(s) then Emit([Bullet(d.inline(AfterBlanks(s[1..])))], 1, false)
    else if NumberEnd(d, s) > 0 then Emit([Numbered(d.inline(AfterBlanks(s[NumberEnd(d, s)..])))], 1, false)
    else if Starts(s, "|") then
      assert !Stops(AtNonTable, lines[0]);
      TableStep(lines)
    else if IsRule(s) then Emit([Spacer(16)], 1, false)
    else Prose(s)
  }

  /** The paragraph collected so far, if any. */
  function Flush(d: Dialect, para: seq<string>): seq<Block> {
    var t := Strip(Join(para, " "));
    if t == "" then [] else [Body(d.inline(t))]
  }

  function Parse(d: Dialect, lines: seq<string>, para: seq<string>): seq<Block>
    decreases |lines|
  {
    if lines == [] then Flush(d, para)
    else
      match Next(d, lines)
      case Prose(s) => Parse(d, lines[1..], para + [s])
      case Emit(blocks, used, _) => Flush(d, para) + blocks + Parse(d, lines[used..], [])
  }

  /** The text ends inside a fence or a `$$` block. */
  predicate LeavesOpen(d: Dialect, lines: seq<string>)
    decreases |lines|
  {
    lines != []
    && match Next(d, lines)
       case Prose(_) => LeavesOpen(d, lines[1..])
       case Emit(_, used, open) => open || LeavesOpen(d, lines[used..])
  }

  // ---- The reader's loop

  lemma ScanStep(lines: seq<string>, i: nat, stop: Stop)
    requires i <= |lines|
    ensures Scan(lines[i..], stop)
         == if i == |lines| || Stops(stop, lines[i]) then 0 else 1 + Scan(lines[i + 1..], stop)
  {
    hide Stops;
    if i < |lines| {
      assert lines[i..][0] == lines[i] && lines[i..][1..] == lines[i + 1..];
    }
  }

  /** An inner loop: collects lines until one stops it. */
  method CollectUntil(lines: seq<string>, start: nat, stop: Stop) returns (collected: seq<string>, next: nat)
    requires start <= |lines|
    ensures next == start + Scan(lines[start..], stop) <= |lines|
    ensures collected == lines[start..][..next - start]
  {
    hide *;
    collected, next := [], start;
    assert forall n :: start <= n <= |lines| ==> lines[start..][..n - start] == lines[start..n];
    ScanStep(lines, start, stop);
    while next < |lines| && !Stops(stop, lines[next])
      invariant start <= next <= |lines|
      invariant collected == lines[start..next]
      invariant Scan(lines[start..], stop) == next - start + Scan(lines[next..], stop)
      decreases |lines| - next
    {
      ScanStep(lines, next, stop);
      collected, next := collected + [lines[next]], next + 1;
    }
    ScanStep(lines, next, stop);
  }

  /** Separator rows are dropped, the other rows split into cells. */
  method ParseRows(lines: seq<string>) returns (parsed: seq<seq<string>>)
    ensures parsed == Rows(lines)
  {
    hide IsSeparator, Cells, Strip;
    parsed := [];
    for i := 0 to |lines|
      invariant parsed == Rows(lines[..i])
    {
      var row := Strip(lines[i]);
      if !IsSeparator(row) {
        parsed := parsed + [Cells(row)];
      }
      assert lines[..i + 1][..i] == lines[..i];
    }
    assert lines[..|lines|] == lines;
  }

  /** Reads the block that starts at line `i`, or nothing if the line is running text. */
  method ReadBlock(d: Dialect, lines: seq<string>, i: nat) returns (block: bool, read: seq<Block>, next: nat)
    requires i < |lines|
    ensures match Next(d, lines[i..])
      case Prose(_) => !block
      case Emit(blocks, used, _) => block && read == blocks && next == i + used
  {
    hide Trim, HeadingLevel, NumberEnd, Dollars, IsBullet, IsRule, Rows, Stops;
    var stripped := Strip(lines[i]);
    block, read, next := true, [], i + 1;
    ghost var rest := lines[i..][1..];
    assert rest == lines[i + 1..];
    if stripped == "" {
    } else if HeadingLevel(stripped) > 0 {
      read := [Heading(HeadingLevel(stripped), d.inline(AfterBlanks(stripped[HeadingLevel(stripped)..])))];
    } else if Starts(stripped, "$$") {
      var expr := Dollars(stripped);
      if expr != "" {
        read := [Math(expr)];
      } else {
        var collected;
        collected, next := CollectUntil(lines, i + 1, AtDollars);
        if next < |lines| {
          next := next + 1;
        }
        read := [Math(Strip(Join(collected, "\n")))];
      }
    } else if Starts(stripped, "```") || Starts(stripped, "~~~") {
      var collected;
      collected, next := CollectUntil(lines, i + 1, AtFence(stripped[..3]));
      if next < |lines| {
        next := next + 1;
      }
      read := [Code(Join(collected, "\n"))];
    } else if Starts(stripped, ">") {
      read := [Callout(d.inline(AfterBlanks(stripped[1..])))];
    } else if IsBullet(stripped) {
      read := [Bullet(d.inline(AfterBlanks(stripped[1..])))];
    } else if NumberEnd(d, stripped) > 0 {
      read := [Numbered(d.inline(AfterBlanks(stripped[NumberEnd(d, stripped)..])))];
    } else if Starts(stripped, "|") {
      var collected;
      collected, next := CollectUntil(lines, i, AtNonTable);
      var parsed := ParseRows(collected);
      read := TableBlocks(parsed);
    } else if IsRule(stripped) {
      read := [Spacer(16)];
    } else {
      block := false;
    }
  }

  lemma ParseStep(d: Dialect, lines: seq<string>, i: nat, para: seq<string>)
    requires i < |lines|
    ensures match Next(d, lines[i..])
      case Prose(_) =>
        Parse(d, lines[i..], para) == Parse(d, lines[i + 1..], para + [Strip(lines[i])])
      case Emit(blocks, used, _) =>
        i + used <= |lines|
        && Parse(d, lines[i..], para) == Flush(d, para) + blocks + Parse(d, lines[i + used..], [])
  {
    hide Next, Flush, Strip;
    assert forall n :: 0 <= n <= |lines| - i ==> lines[i..][n..] == lines[i + n..];
  }

  lemma ParseNothing(d: Dialect, para: seq<string>)
    ensures Parse(d, [], para) == Flush(d, para)
  {
  }

  lemma Regroup<T>(a: seq<T>, b: seq<T>, c: seq<T>, rest: seq<T>)
    ensures a + (b + c + rest) == a + b + c + rest
  {
  }

  function ParseText(d: Dialect, text: string): seq<Block> { Parse(d, SplitLines(text), []) }

  lemma ParseTextIs(d: Dialect, text: string)
    ensures ParseText(d, text) == Parse(d, SplitLines(text), [])
  {
  }

  method ParseMarkdown(d: Dialect, text: string) returns (blocks: seq<Block>)
    ensures blocks == ParseText(d, text)
  {
    hide *;
    blocks := [];
    var lines := SplitLines(text);
    var para: seq<string>, i := [], 0;
    ParseTextIs(d, text);
    assert lines[0..] == lines;
    while i < |lines|
      invariant i <= |lines|
      invariant blocks + Parse(d, lines[i..], para) == Parse(d, lines, [])
    {
      ParseStep(d, lines, i, para);
      var block, read, next := ReadBlock(d, lines, i);
      if block {
        Regroup(blocks, Flush(d, para), read, Parse(d, lines[next..], []));
        blocks := blocks + Flush(d, para) + read;
        para, i := [], next;
      } else {
        para, i := para + [Strip(lines[i])], i + 1;
      }
    }
    ParseNothing(d, para);
    assert lines[i..] == [];
    blocks := blocks + Flush(d, para);
  }

  // ---- Reading is a homomorphism at blank lines

  predicate Blank(line: string) { Strip(line) == "" }

  lemma {:induction false} ScanAppend(lines: seq<string>, more: seq<string>, stop: Stop)
    ensures Scan(lines, stop) < |lines| ==> Scan(lines + more, stop) == Scan(lines, stop)
    ensures Scan(lines, stop) == |lines| ==> Scan(lines + more, stop) == |lines| + Scan(more, stop)
  {
    hide Stops;
    if lines == [] {
      assert lines + more == more;
    } else {
      assert (lines + more)[1..] == lines[1..] + more;
      ScanAppend(lines[1..], more, stop);
    }
  }

  lemma MathIsLocal(rest: seq<string>, more: seq<string>)
    ensures !MathStep(rest).open ==> MathStep(rest + more) == MathStep(rest)
  {
    ScanAppend(rest, more, AtDollars);
    hide Scan, Stops, Strip, Join;
    var n := Scan(rest, AtDollars);
    assert (rest + more)[..n] == rest[..n];
  }

  lemma CodeIsLocal(fence: string, rest: seq<string>, more: seq<string>)
    ensures !CodeStep(fence, rest).open ==> CodeStep(fence, rest + more) == CodeStep(fence, rest)
  {
    ScanAppend(rest, more, AtFence(fence));
    hide Scan, Stops, Strip, Join;
    var n := Scan(rest, AtFence(fence));
    assert (rest + more)[..n] == rest[..n];
  }

  lemma TableIsLocal(lines: seq<string>, more: seq<string>)
    requires more != [] && Blank(more[0])
    ensures TableStep(lines + more) == TableStep(lines)
  {
    ScanAppend(lines, more, AtNonTable);
    assert Stops(AtNonTable, more[0]);
    hide Stops, Rows, TableBlocks;
    var n := Scan(lines, AtNonTable);
    assert (lines + more)[..n] == lines[..n];
  }

  /** A step that meets its end mark does not see what comes after a blank line. */
  lemma NextIsLocal(d: Dialect, lines: seq<string>, more: seq<string>)
    requires lines != [] && more != [] && Blank(more[0])
    requires Next(d, lines).Emit? ==> !Next(d, lines).open
    ensures Next(d, lines + more) == Next(d, lines)
  {
    hide Strip, HeadingLevel, NumberEnd, Dollars, IsBullet, IsRule, MathStep, CodeStep, TableStep, AfterBlanks, Stops;
    var s := Strip(lines[0]);
    assert (lines + more)[0] == lines[0] && (lines + more)[1..] == lines[1..] + more;
    MathIsLocal(lines[1..], more);
    if |s| >= 3 { CodeIsLocal(s[..3], lines[1..], more); }
    TableIsLocal(lines, more);
  }

  lemma ParseUnfolds(d: Dialect, lines: seq<string>, para: seq<string>)
    requires lines != []
    ensures var step := Next(d, lines);
      Parse(d, lines, para)
      == if step.Prose? then Parse(d, lines[1..], para + [step.line])
         else Flush(d, para) + step.blocks + Parse(d, lines[step.used..], [])
    ensures var step := Next(d, lines);
      LeavesOpen(d, lines)
      <==> if step.Prose? then LeavesOpen(d, lines[1..])
           else step.open || LeavesOpen(d, lines[step.used..])
  {
    hide Next, Flush;
  }

  lemma NoParagraph(d: Dialect)
    ensures Flush(d, []) == []
  {
  }

  /** What follows a blank line starts afresh, unless the text before it leaves a block open. */
  lemma {:induction false} ParseAppend(d: Dialect, lines: seq<string>, more: seq<string>, para: seq<string>)
    requires more != [] && Blank(more[0]) && !LeavesOpen(d, lines)
    ensures Parse(d, lines + more, para) == Parse(d, lines, para) + Parse(d, more, [])
    decreases |lines|
  {
    hide *;
    if lines == [] {
      assert lines + more == more;
      BlankStep(d, more, para);
      BlankStep(d, more, []);
      NoParagraph(d);
      ParseNothing(d, para);
    } else {
      ParseUnfolds(d, lines, para);
      ParseUnfolds(d, lines + more, para);
      NextIsLocal(d, lines, more);
      var step := Next(d, lines);
      assert (lines + more)[1..] == lines[1..] + more;
      if step.Prose? {
        ParseAppend(d, lines[1..], more, para + [step.line]);
      } else {
        assert (lines + more)[step.used..] == lines[step.used..] + more;
        ParseAppend(d, lines[step.used..], more, []);
      }
    }
  }

  lemma BlankStep(d: Dialect, more: seq<string>, para: seq<string>)
    requires more != [] && Blank(more[0])
    ensures Parse(d, more, para) == Flush(d, para) + Parse(d, more[1..], [])
  {
    assert Next(d, more) == Emit([], 1, false);
    hide Next, Flush, Strip;
    assert Flush(d, para) + [] == Flush(d, para);
  }

  predicate EndsNothing(more: seq<string>) {
    forall line :: line in more ==>
      Strip(line) != "$$" && !Starts(Strip(line), "```") && !Starts(Strip(line), "~~~")
  }

  lemma {:induction false} ScanAll(more: seq<string>, stop: Stop)
    requires forall line :: line in more ==> !Stops(stop, line)
    ensures Scan(more, stop) == |more|
  {
    hide Stops;
    if more != [] {
      assert more[0] in more;
      ScanAll(more[1..], stop);
    }
  }

  lemma OpenMath(rest: seq<string>, more: seq<string>)
    requires EndsNothing(more)
    ensures MathStep(rest).open ==>
      MathStep(rest).used == |rest| + 1 && |MathStep(rest).blocks| == 1
      && MathStep(rest + more).used == |rest + more| + 1 && |MathStep(rest + more).blocks| == 1
  {
    ScanAppend(rest, more, AtDollars);
    ScanAll(more, AtDollars);
    hide Scan, Stops, Strip, Join;
  }

  lemma OpenCode(fence: string, rest: seq<string>, more: seq<string>)
    requires EndsNothing(more) && (fence == "```" || fence == "~~~")
    ensures CodeStep(fence, rest).open ==>
      CodeStep(fence, rest).used == |rest| + 1 && |CodeStep(fence, rest).blocks| == 1
      && CodeStep(fence, rest + more).used == |rest + more| + 1 && |CodeStep(fence, rest + more).blocks| == 1
  {
    ScanAppend(rest, more, AtFence(fence));
    ScanAll(more, AtFence(fence));
    hide Scan, Stops, Strip, Join;
  }

  lemma OpenStep(d: Dialect, lines: seq<string>, more: seq<string>)
    requires lines != [] && EndsNothing(more)
    requires Next(d, lines).Emit? && Next(d, lines).open
    ensures Next(d, lines).used == |lines| && |Next(d, lines).blocks| == 1
    ensures var step := Next(d, lines + more);
      step.Emit? && step.used == |lines + more| && |step.blocks| == 1
  {
    hide Strip, HeadingLevel, NumberEnd, Dollars, IsBullet, IsRule, MathStep, CodeStep, TableStep, AfterBlanks,
         EndsNothing;
    var s := Strip(lines[0]);
    assert (lines + more)[0] == lines[0] && (lines + more)[1..] == lines[1..] + more;
    OpenMath(lines[1..], more);
    if Starts(s, "```") || Starts(s, "~~~") {
      assert s[..3] == "```" || s[..3] == "~~~";
      OpenCode(s[..3], lines[1..], more);
    }
  }

  lemma LeavesOpenNonempty(d: Dialect, lines: seq<string>)
    requires LeavesOpen(d, lines)
    ensures lines != []
  {
  }

  /** A block left open swallows lines that do not end it. */
  lemma {:induction false} OpenSwallows(d: Dialect, lines: seq<string>, more: seq<string>, para: seq<string>)
    requires LeavesOpen(d, lines)
    requires more != [] && Blank(more[0]) && EndsNothing(more)
    ensures |Parse(d, lines + more, para)| == |Parse(d, lines, para)|
    decreases |lines|
  {
    hide *;
    LeavesOpenNonempty(d, lines);
    var step, all := Next(d, lines), lines + more;
    ParseUnfolds(d, lines, para);
    ParseUnfolds(d, all, para);
    if step.Emit? && step.open {
      OpenStep(d, lines, more);
      assert all[|all|..] == [] && lines[|lines|..] == [];
    } else {
      NextIsLocal(d, lines, more);
      if step.Prose? {
        assert all[1..] == lines[1..] + more;
        OpenSwallows(d, lines[1..], more, para + [step.line]);
      } else {
        assert all[step.used..] == lines[step.used..] + more;
        OpenSwallows(d, lines[step.used..], more, []);
      }
    }
  }

  lemma OneLetter(d: Dialect)
    ensures |Parse(d, ["x"], [])| == 1
  {
    var s := "x";
    assert TrimLeft(PythonSpace, s) == s && TrimRight(PythonSpace, s) == s;
    assert Leading(s, '#') == 0;
    assert Next(d, [s]) == Prose(s);
    assert [s][1..] == [];
    assert [] + [s] == [s];
    assert Join([s], " ") == s;
    hide Next, Strip;
  }

  lemma BlankThenX()
    ensures Blank([""][0]) && Blank(["", "x"][0]) && EndsNothing(["", "x"])
  {
    assert Strip("") == "";
    assert Strip("x") == "x" by {
      assert TrimLeft(PythonSpace, "x") == "x" && TrimRight(PythonSpace, "x") == "x";
    }
  }

  lemma ClosedSplits(d: Dialect, a: seq<string>, b: seq<string>)
    requires !LeavesOpen(d, a)
    ensures Parse(d, a + [""] + b, []) == Parse(d, a, []) + Parse(d, b, [])
  {
    hide *;
    BlankThenX();
    var more := [""] + b;
    assert more[1..] == b;
    ParseAppend(d, a, more, []);
    BlankStep(d, more, []);
    NoParagraph(d);
    assert a + [""] + b == a + more;
    assert [] + Parse(d, b, []) == Parse(d, b, []);
  }

  lemma OpenDoesNotSplit(d: Dialect, a: seq<string>)
    requires LeavesOpen(d, a)
    ensures Parse(d, a + [""] + ["x"], []) != Parse(d, a, []) + Parse(d, ["x"], [])
  {
    hide *;
    BlankThenX();
    OneLetter(d);
    OpenSwallows(d, a, ["", "x"], []);
    assert a + [""] + ["x"] == a + ["", "x"];
  }

  /** Reading is a homomorphism at a blank line iff the text before it leaves no fence and no `$$` open. */
  lemma HomomorphismIffClosed(d: Dialect, a: seq<string>)
    ensures !LeavesOpen(d, a)
      <==> forall b: seq<string> :: Parse(d, a + [""] + b, []) == Parse(d, a, []) + Parse(d, b, [])
  {
    hide *;
    if LeavesOpen(d, a) {
      OpenDoesNotSplit(d, a);
    } else {
      forall b: seq<string>
        ensures Parse(d, a + [""] + b, []) == Parse(d, a, []) + Parse(d, b, [])
      {
        ClosedSplits(d, a, b);
      }
    }
  }

  // ---- The same for texts

  lemma {:induction false} BreakAtFirst(a: string, rest: string)
    requires OneLine(a) && rest != "" && LineBreak(rest[0])
    ensures BreakAt(a + rest) == |a|
  {
    hide LineBreak;
    if a == "" {
      assert a + rest == rest;
    } else {
      assert (a + rest)[0] == a[0] && (a + rest)[1..] == a[1..] + rest;
      BreakAtFirst(a[1..], rest);
    }
  }

  lemma LineAndRest(line: string, rest: string)
    requires OneLine(line)
    ensures SplitLines(line + "\n" + rest) == [line] + SplitLines(rest)
  {
    var tail, text := ['\n'] + rest, line + "\n" + rest;
    assert text == line + tail;
    BreakAtFirst(line, tail);
    hide BreakAt;
    assert text[..|line|] == line && text[|line|] == '\n' && text[|line| + 1..] == rest;
  }

  lemma SplitOneLine(line: string)
    requires OneLine(line)
    ensures SplitLines(line) == if line == "" then [] else [line]
  {
    hide LineBreak;
    assert BreakAt(line) == |line|;
  }

  /** The first line of a text that holds a break, and the text after it. */
  lemma FirstLine(s: string)
    requires BreakAt(s) < |s|
    ensures SplitLines(s) == [s[..BreakAt(s)]] + SplitLines(AfterBreak(s))
  {
    hide LineBreak, BreakAt, AfterBreak, OneLine;
  }

  /** Two line feeds between two texts are one blank line or two. */
  lemma {:induction false} SplitAtGap(a: string, b: string) returns (gap: seq<string>)
    ensures gap == [""] || gap == ["", ""]
    ensures SplitLines(a + "\n\n" + b) == SplitLines(a) + gap + SplitLines(b)
    decreases |a|
  {
    hide BreakAt, LineBreak, SplitLines;
    var text := a + "\n\n" + b;
    SplitOneLine("");
    LineAndRest("", b);
    assert "" + "\n" + b == "\n" + b;
    if BreakAt(a) == |a| {
      assert a[..|a|] == a;
      LineAndRest(a, "\n" + b);
      assert text == a + "\n" + ("\n" + b);
      SplitOneLine(a);
      gap := if a == "" then ["", ""] else [""];
    } else {
      var n := BreakAt(a);
      gap := SplitAfterBreak(a, b);
    }
  }

  lemma {:induction false} SplitAfterBreak(a: string, b: string) returns (gap: seq<string>)
    requires BreakAt(a) < |a|
    ensures gap == [""] || gap == ["", ""]
    ensures SplitLines(a + "\n\n" + b) == SplitLines(a) + gap + SplitLines(b)
    decreases |a|, 0
  {
    hide BreakAt, SplitLines;
    var n, text := BreakAt(a), a + "\n\n" + b;
    var w := BreakWidth(a, n);
    var line, rest := a[..n], a[n + w..];
    BreakAtFirst(line, text[n..]);
    assert text == line + text[n..];
    FirstLine(a);
    FirstLine(text);
    assert text[..n] == line;
    if a[n] == '\r' && n + 1 == |a| {
      assert text[n + 1] == '\n' && BreakWidth(text, n) == 2;
      assert rest == "" && text[n + 2..] == "" + "\n" + b;
      LineAndRest("", b);
      SplitOneLine("");
      gap := [""];
      assert [line] + ([""] + SplitLines(b)) == [line] + [] + [""] + SplitLines(b);
    } else {
      assert BreakWidth(text, n) == w;
      assert text[n + w..] == rest + "\n\n" + b;
      gap := SplitAtGap(rest, b);
      assert [line] + (SplitLines(rest) + gap + SplitLines(b)) == [line] + SplitLines(rest) + gap + SplitLines(b);
    }
  }

  lemma GapIsBlank(gap: seq<string>, d: Dialect, b: seq<string>)
    requires gap == [""] || gap == ["", ""]
    ensures Blank((gap + b)[0]) && Parse(d, gap + b, []) == Parse(d, b, [])
    ensures EndsNothing(gap + ["x"])
  {
    BlankThenX();
    NoParagraph(d);
    hide Parse, Flush, Blank, EndsNothing;
    assert ([""] + b)[0] == "" && ([""] + b)[1..] == b;
    BlankStep(d, [""] + b, []);
    assert [] + Parse(d, b, []) == Parse(d, b, []);
    GapEndsNothing(gap);
    if gap == ["", ""] {
      var more := gap + b;
      assert more[0] == "" && more[1..] == [""] + b;
      BlankStep(d, more, []);
      assert [] + Parse(d, [""] + b, []) == Parse(d, [""] + b, []);
    }
  }

  lemma GapEndsNothing(gap: seq<string>)
    requires gap == [""] || gap == ["", ""]
    ensures EndsNothing(gap + ["x"])
  {
    BlankThenX();
    assert forall line :: line in gap + ["x"] ==> line in ["", "x"];
    hide Strip;
  }

  lemma TextsSplit(d: Dialect, a: string, b: string)
    requires !LeavesOpen(d, SplitLines(a))
    ensures ParseText(d, a + "\n\n" + b) == ParseText(d, a) + ParseText(d, b)
  {
    hide Parse, LeavesOpen, SplitLines, Blank, EndsNothing;
    var gap := SplitAtGap(a, b);
    var more := gap + SplitLines(b);
    GapIsBlank(gap, d, SplitLines(b));
    assert SplitLines(a) + gap + SplitLines(b) == SplitLines(a) + more;
    ParseAppend(d, SplitLines(a), more, []);
  }

  lemma XIsOneLine()
    ensures OneLine("x")
  {
  }

  lemma OpenTextDoesNotSplit(d: Dialect, a: string)
    requires LeavesOpen(d, SplitLines(a))
    ensures ParseText(d, a + "\n\n" + "x") != ParseText(d, a) + ParseText(d, "x")
  {
    hide Parse, LeavesOpen, SplitLines, Blank, EndsNothing, Next, Strip, OneLine;
    XIsOneLine();
    SplitOneLine("x");
    OneLetter(d);
    var gap := SplitAtGap(a, "x");
    GapIsBlank(gap, d, ["x"]);
    assert SplitLines(a) + gap + ["x"] == SplitLines(a) + (gap + ["x"]);
    OpenSwallows(d, SplitLines(a), gap + ["x"], []);
  }

  /** Texts joined by an empty line are read one after the other iff the first leaves no fence and no `$$` open. */
  lemma TextHomomorphismIffClosed(d: Dialect, a: string)
    ensures !LeavesOpen(d, SplitLines(a))
      <==> forall b: string :: ParseText(d, a + "\n\n" + b) == ParseText(d, a) + ParseText(d, b)
  {
    hide *;
    if LeavesOpen(d, SplitLines(a)) {
      OpenTextDoesNotSplit(d, a);
    } else {
      forall b: string
        ensures ParseText(d, a + "\n\n" + b) == ParseText(d, a) + ParseText(d, b)
      {
        TextsSplit(d, a, b);
      }
    }
  }

  /** Every line with a line feed after it. */
  function Terminated(lines: seq<string>): string {
    if lines == [] then "" else lines[0] + "\n" + Terminated(lines[1..])
  }

  lemma {:induction false} SplitTerminated(lines: seq<string>)
    requires forall i :: 0 <= i < |lines| ==> OneLine(lines[i])
    ensures SplitLines(Terminated(lines)) == lines
  {
    hide OneLine, SplitLines;
    if lines == [] {
      EmptyText();
    } else {
      SplitTerminated(lines[1..]);
      LineAndRest(lines[0], Terminated(lines[1..]));
      assert lines == [lines[0]] + lines[1..];
    }
  }

  lemma EmptyText()
    ensures SplitLines("") == []
  {
  }
}
