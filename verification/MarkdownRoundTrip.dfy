/**
 Printing a document and reading it back (skills/minimax-pdf/scripts/reformat_parse.py): whatever list of well-formed
 blocks is printed as a text with blank lines between them, `parse_markdown` returns exactly those blocks.
 */
module MarkdownRoundTrip {
  import opened Text
  import opened Markdown

  /** A block as its author writes it, with the mark or ruler that was chosen for it. */
  datatype Doc =
    | Title(level: nat, text: string)
    | Paragraph(lines: seq<string>)
    | Item(mark: char, text: string)
    | NumberedItem(number: string, text: string)
    | Quote(text: string)
    | Formula(expr: string)
    | Display(lines: seq<string>)
    | Listing(fence: string, info: string, code: seq<string>)
    | Grid(headers: seq<string>, ruler: string, rows: seq<seq<string>>)
    | LoneRow(cells: seq<string>)
    | Separator(ruler: string)

  /** A text of one line without blanks at its ends. */
  predicate Phrase(s: string) { s != "" && Trimmed(PythonSpace, s) && OneLine(s) }

  /** Lines of running text. */
  predicate Running(d: Dialect, lines: seq<string>) {
    forall i :: 0 <= i < |lines| ==> Phrase(lines[i]) && Next(d, [lines[i]]).Prose?
  }

  predicate WellFormedRow(row: seq<string>) {
    && (forall i :: 0 <= i < |row| ==> Trimmed(PythonSpace, row[i]) && '|' !in row[i] && OneLine(row[i]))
    && exists i, c :: 0 <= i < |row| && c in row[i] && c !in "-:| "
  }

  predicate NoneStops(stop: Stop, lines: seq<string>) {
    forall i :: 0 <= i < |lines| ==> OneLine(lines[i]) && !Stops(stop, lines[i])
  }

  predicate IsFence(fence: string) { fence == "```" || fence == "~~~" }

  predicate IsNumber(number: string) { number != "" && forall i :: 0 <= i < |number| ==> IsDigit(number[i]) }

  predicate WellFormed(d: Dialect, doc: Doc) {
    match doc
    case Title(level, text) => 1 <= level <= 3 && Phrase(text)
    case Paragraph(lines) => lines != [] && Running(d, lines)
    case Item(mark, text) => mark in "-*+" && Phrase(text)
    case NumberedItem(number, text) => IsNumber(number) && Phrase(text)
    case Quote(text) => Phrase(text)
    case Formula(expr) => Phrase(expr) && expr[|expr| - 1] != '$'
    case Display(lines) => NoneStops(AtDollars, lines) && Trimmed(PythonSpace, Join(lines, "\n"))
    case Listing(fence, info, code) =>
      IsFence(fence) && OneLine(info) && (info != "" ==> !Space(info[|info| - 1])) && NoneStops(AtFence(fence), code)
    case Grid(headers, ruler, rows) =>
      WellFormedRow(headers) && IsSeparator(ruler)
      && rows != [] && forall i :: 0 <= i < |rows| ==> WellFormedRow(rows[i])
    case LoneRow(cells) => WellFormedRow(cells)
    case Separator(ruler) => IsRule(ruler)
  }

  function Marks(level: nat): string { if level == 1 then "#" else if level == 2 then "##" else "###" }

  function Padded(row: seq<string>): seq<string> { seq(|row|, i requires 0 <= i < |row| => " " + row[i] + " ") }

  function PrintRow(row: seq<string>): string { "|" + Join(Padded(row), "|") + "|" }

  function PrintRows(rows: seq<seq<string>>): seq<string> {
    seq(|rows|, i requires 0 <= i < |rows| => PrintRow(rows[i]))
  }

  function Print(doc: Doc): seq<string> {
    match doc
    case Title(level, text) => [Marks(level) + " " + text]
    case Paragraph(lines) => lines
    case Item(mark, text) => [[mark] + " " + text]
    case NumberedItem(number, text) => [number + "." + " " + text]
    case Quote(text) => [">" + " " + text]
    case Formula(expr) => ["$$" + expr + "$$"]
    case Display(lines) => ["$$"] + lines + ["$$"]
    case Listing(fence, info, code) => [fence + info] + code + [fence]
    case Grid(headers, ruler, rows) => [PrintRow(headers), ruler] + PrintRows(rows)
    case LoneRow(cells) => [PrintRow(cells)]
    case Separator(ruler) => [ruler]
  }

  function Meaning(d: Dialect, doc: Doc): Block {
    match doc
    case Title(level, text) => Heading(level, d.inline(text))
    case Paragraph(lines) => Body(d.inline(Join(lines, " ")))
    case Item(_, text) => Bullet(d.inline(text))
    case NumberedItem(_, text) => Numbered(d.inline(text))
    case Quote(text) => Callout(d.inline(text))
    case Formula(expr) => Math(expr)
    case Display(lines) => Math(Join(lines, "\n"))
    case Listing(_, _, code) => Code(Join(code, "\n"))
    case Grid(headers, _, rows) => Table(headers, rows)
    case LoneRow(cells) => Body(Join(cells, " | "))
    case Separator(_) => Spacer(16)
  }

  // ---- Blocks of one line

  lemma Marked(mark: string, text: string)
    requires mark != "" && !Space(mark[0]) && Phrase(text)
    ensures Strip(mark + " " + text) == mark + " " + text
    ensures AfterBlanks((mark + " " + text)[|mark|..]) == text
  {
    var s := mark + " " + text;
    assert Trimmed(PythonSpace, s);
    TrimFixes(PythonSpace, s);
    assert s[|mark|..] == [' '] + text;
    TrimPaddedLeft(PythonSpace, ' ', text);
  }

  lemma {:induction false} LeadingMarks(mark: string, c: char, rest: string)
    requires forall i :: 0 <= i < |mark| ==> mark[i] == c
    requires rest != "" && rest[0] != c
    ensures Leading(mark + rest, c) == |mark|
  {
    if mark == "" {
      assert mark + rest == rest;
    } else {
      assert (mark + rest)[1..] == mark[1..] + rest;
      LeadingMarks(mark[1..], c, rest);
    }
  }

  lemma TitleStep(d: Dialect, level: nat, text: string)
    requires 1 <= level <= 3 && Phrase(text)
    ensures Next(d, [Marks(level) + " " + text]) == Emit([Heading(level, d.inline(text))], 1, false)
  {
    hide Strip, AfterBlanks, Leading, Phrase, Dollars, MathStep, CodeStep, TableStep, NumberEnd, IsRule;
    var mark := Marks(level);
    var s := mark + " " + text;
    Marked(mark, text);
    LeadingMarks(mark, '#', " " + text);
    assert s == mark + (" " + text);
    assert s[|mark|] == ' ';
    assert HeadingLevel(s) == level;
    hide HeadingLevel;
  }

  lemma ItemStep(d: Dialect, mark: char, text: string)
    requires mark in "-*+" && Phrase(text)
    ensures Next(d, [[mark] + " " + text]) == Emit([Bullet(d.inline(text))], 1, false)
  {
    hide Strip, AfterBlanks, NumberEnd, IsRule, Phrase, Dollars, MathStep, CodeStep, TableStep;
    Marked([mark], text);
    var s := [mark] + " " + text;
    assert s[0] == mark && s[1] == ' ';
    assert HeadingLevel(s) == 0;
    hide HeadingLevel;
  }

  lemma QuoteStep(d: Dialect, text: string)
    requires Phrase(text)
    ensures Next(d, [">" + " " + text]) == Emit([Callout(d.inline(text))], 1, false)
  {
    hide Strip, AfterBlanks, NumberEnd, IsRule, Phrase, Dollars, MathStep, CodeStep, TableStep;
    Marked(">", text);
    var s := ">" + " " + text;
    assert s[0] == '>' && s[1] == ' ';
    assert HeadingLevel(s) == 0;
    hide HeadingLevel;
  }

  lemma {:induction false} DigitsRun(d: Dialect, number: string, rest: string)
    requires forall i :: 0 <= i < |number| ==> d.digit(number[i])
    requires rest != "" && !d.digit(rest[0])
    ensures Digits(d, number + rest) == |number|
  {
    if number == "" {
      assert number + rest == rest;
    } else {
      assert (number + rest)[1..] == number[1..] + rest;
      DigitsRun(d, number[1..], rest);
    }
  }

  lemma NumberedStep(d: Dialect, number: string, text: string)
    requires Plain(d) && IsNumber(number) && Phrase(text)
    ensures Next(d, [number + "." + " " + text]) == Emit([Numbered(d.inline(text))], 1, false)
  {
    var mark := number + ".";
    var s := mark + " " + text;
    NumberFound(d, number, text);
    assert mark[0] == number[0] == s[0];
    DigitIsNoSpace(number[0]);
    hide Strip, AfterBlanks, IsRule, Phrase, Dollars, MathStep, CodeStep, TableStep, Space, NumberEnd, Plain;
    Marked(mark, text);
    assert HeadingLevel(s) == 0;
    hide HeadingLevel;
    assert !IsBullet(s);
  }

  lemma NumberFound(d: Dialect, number: string, text: string)
    requires Plain(d) && IsNumber(number)
    ensures NumberEnd(d, number + "." + " " + text) == |number| + 1
  {
    PlainMarks(d);
    hide Digits, Space;
    var s, rest := number + "." + " " + text, "." + " " + text;
    assert s == number + rest && rest[0] == '.';
    DigitsRun(d, number, rest);
    BlankIsSpace();
    assert s[|number|] == '.' && s[|number| + 1] == ' ';
  }

  lemma DigitIsNoSpace(c: char)
    requires IsDigit(c)
    ensures !Space(c)
  {
  }

  lemma BlankIsSpace()
    ensures Space(' ')
  {
  }

  lemma FormulaStep(d: Dialect, expr: string)
    requires Phrase(expr) && expr[|expr| - 1] != '$'
    ensures Next(d, ["$$" + expr + "$$"]) == Emit([Math(expr)], 1, false)
  {
    var s := "$$" + expr + "$$";
    TrimFixes(PythonSpace, s);
    TrimFixes(PythonSpace, expr);
    assert s[2..] == (expr + ['$']) + ['$'];
    assert ((expr + ['$']) + ['$'])[..|expr| + 1] == expr + ['$'];
    TrimPaddedRight(Only('$'), expr, '$');
    assert TrimRight(Only('$'), s[2..]) == expr;
    assert Dollars(s) == expr;
    hide Strip, Dollars, Phrase;
    assert HeadingLevel(s) == 0;
  }

  lemma SeparatorStep(d: Dialect, ruler: string)
    requires Plain(d) && IsRule(ruler)
    ensures Next(d, [ruler]) == Emit([Spacer(16)], 1, false)
  {
    RulerStripped(ruler);
    RulerFirst(d, ruler);
    hide IsRule, Strip, Plain, Digits, Dollars, MathStep, CodeStep, TableStep, AfterBlanks, Space;
    assert HeadingLevel(ruler) == 0;
    hide HeadingLevel;
  }

  lemma RulerStripped(ruler: string)
    requires IsRule(ruler)
    ensures Strip(ruler) == ruler
  {
    assert ruler[0] in ruler && ruler[|ruler| - 1] in ruler;
    hide Trim;
    TrimFixes(PythonSpace, ruler);
  }

  lemma RulerFirst(d: Dialect, ruler: string)
    requires Plain(d) && IsRule(ruler)
    ensures |ruler| >= 3 && ruler[0] in "-*_" && Digits(d, ruler) == 0 && !Space(ruler[1])
  {
    PlainMarks(d);
    assert ruler[0] in ruler && ruler[1] in ruler;
  }

  // ---- Paragraphs

  lemma ParagraphFlushed(d: Dialect, lines: seq<string>)
    requires lines != [] && forall i :: 0 <= i < |lines| ==> Phrase(lines[i])
    ensures Flush(d, lines) == [Body(d.inline(Join(lines, " ")))]
  {
    JoinOuter(lines, " ");
    TrimFixes(PythonSpace, Join(lines, " "));
    hide Strip, Join;
  }

  /** Whether a line is running text does not depend on what follows. */
  lemma ProseAlone(d: Dialect, lines: seq<string>)
    requires lines != []
    ensures Next(d, lines).Prose? <==> Next(d, [lines[0]]).Prose?
  {
    hide Strip, HeadingLevel, NumberEnd, Dollars, IsBullet, IsRule, MathStep, CodeStep, TableStep, AfterBlanks;
  }

  lemma {:induction false} RunningRead(d: Dialect, lines: seq<string>, para: seq<string>)
    requires Running(d, lines)
    ensures Parse(d, lines, para) == Flush(d, para + lines) && !LeavesOpen(d, lines)
    decreases lines
  {
    hide *;
    if lines == [] {
      assert para + lines == para;
      ParseNothing(d, para);
      NothingOpen(d);
    } else {
      RunningFirst(d, lines);
      ParseUnfolds(d, lines, para);
      RunningRead(d, lines[1..], para + [lines[0]]);
      assert para + [lines[0]] + lines[1..] == para + lines;
    }
  }

  lemma NothingOpen(d: Dialect)
    ensures !LeavesOpen(d, [])
  {
  }

  lemma RunningFirst(d: Dialect, lines: seq<string>)
    requires lines != [] && Running(d, lines)
    ensures Next(d, lines) == Prose(lines[0]) && Running(d, lines[1..])
  {
    ProseAlone(d, lines);
    TrimFixes(PythonSpace, lines[0]);
    hide Next, Trim;
  }

  // ---- Listings and tables

  lemma {:induction false} ScanStopsAt(lines: seq<string>, last: string, stop: Stop)
    requires forall i :: 0 <= i < |lines| ==> !Stops(stop, lines[i])
    requires Stops(stop, last)
    ensures Scan(lines + [last], stop) == |lines|
  {
    hide Stops;
    if lines != [] {
      assert (lines + [last])[1..] == lines[1..] + [last];
      ScanStopsAt(lines[1..], last, stop);
    }
  }

  lemma FenceStops(fence: string)
    requires IsFence(fence)
    ensures Stops(AtFence(fence), fence) && Stops(AtDollars, "$$")
  {
    TrimFixes(PythonSpace, fence);
    TrimFixes(PythonSpace, "$$");
  }

  lemma ListingScanned(fence: string, code: seq<string>)
    requires IsFence(fence) && NoneStops(AtFence(fence), code)
    ensures CodeStep(fence, code + [fence]) == Emit([Code(Join(code, "\n"))], |code| + 2, false)
  {
    hide Strip, Stops, Scan, Join;
    FenceStops(fence);
    ScanStopsAt(code, fence, AtFence(fence));
    assert (code + [fence])[..|code|] == code;
  }

  lemma FenceFirst(d: Dialect, fence: string, info: string, rest: seq<string>)
    requires IsFence(fence) && (info != "" ==> !Space(info[|info| - 1]))
    ensures Next(d, [fence + info] + rest) == CodeStep(fence, rest)
  {
    var s, lines := fence + info, [fence + info] + rest;
    TrimFixes(PythonSpace, s);
    assert lines[0] == s && lines[1..] == rest && s[..3] == fence && s[0] == fence[0];
    hide Strip, CodeStep, Scan;
    assert HeadingLevel(s) == 0;
  }

  lemma ListingStep(d: Dialect, fence: string, info: string, code: seq<string>)
    requires IsFence(fence) && (info != "" ==> !Space(info[|info| - 1])) && NoneStops(AtFence(fence), code)
    ensures Next(d, [fence + info] + code + [fence]) == Emit([Code(Join(code, "\n"))], |code| + 2, false)
  {
    hide *;
    ListingScanned(fence, code);
    FenceFirst(d, fence, info, code + [fence]);
    assert [fence + info] + code + [fence] == [fence + info] + (code + [fence]);
  }

  lemma DisplayScanned(lines: seq<string>)
    requires NoneStops(AtDollars, lines) && Trimmed(PythonSpace, Join(lines, "\n"))
    ensures MathStep(lines + ["$$"]) == Emit([Math(Join(lines, "\n"))], |lines| + 2, false)
  {
    hide Trim, Stops, Scan, Join, Trimmed;
    TrimFixes(PythonSpace, Join(lines, "\n"));
    FenceStops("```");
    ScanStopsAt(lines, "$$", AtDollars);
    assert (lines + ["$$"])[..|lines|] == lines;
  }

  lemma DollarsFirst(d: Dialect, rest: seq<string>)
    ensures Next(d, ["$$"] + rest) == MathStep(rest)
  {
    var s, lines := "$$", ["$$"] + rest;
    TrimFixes(PythonSpace, s);
    assert lines[0] == s && lines[1..] == rest;
    assert s[2..] == "" && Dollars(s) == "";
    hide Strip, MathStep, Dollars;
    assert HeadingLevel(s) == 0;
  }

  lemma DisplayStep(d: Dialect, lines: seq<string>)
    requires NoneStops(AtDollars, lines) && Trimmed(PythonSpace, Join(lines, "\n"))
    ensures Next(d, ["$$"] + lines + ["$$"]) == Emit([Math(Join(lines, "\n"))], |lines| + 2, false)
  {
    hide *;
    DisplayScanned(lines);
    DollarsFirst(d, lines + ["$$"]);
    assert ["$$"] + lines + ["$$"] == ["$$"] + (lines + ["$$"]);
  }

  lemma {:induction false} JoinHolds(parts: seq<string>, sep: string, i: nat, c: char)
    requires i < |parts| && c in parts[i]
    ensures c in Join(parts, sep)
  {
    if |parts| > 1 && i > 0 {
      JoinHolds(parts[1..], sep, i - 1, c);
    }
  }

  lemma {:induction false} JoinEnds(parts: seq<string>, sep: string)
    requires parts != []
    requires forall i :: 0 <= i < |parts| ==> parts[i] != "" && parts[i][0] == ' ' == parts[i][|parts[i]| - 1]
    ensures var s := Join(parts, sep); s != "" && s[0] == ' ' == s[|s| - 1]
  {
    if |parts| > 1 {
      JoinEnds(parts[1..], sep);
    }
  }

  lemma PrintedRowShape(row: seq<string>)
    requires WellFormedRow(row)
    ensures var s, inner := PrintRow(row), Join(Padded(row), "|");
      s == ['|'] + inner + ['|'] && Strip(s) == s && Trim(Only('|'), s) == inner && s[1..|s| - 1] == inner
  {
    var inner := Join(Padded(row), "|");
    var s := PrintRow(row);
    assert s == ['|'] + inner + ['|'];
    TrimFixes(PythonSpace, s);
    JoinEnds(Padded(row), "|");
    TrimPadded(Only('|'), '|', inner, '|');
    assert s[1..|s| - 1] == inner;
    hide Strip, Trim, Join;
  }

  lemma CellsReadBack(row: seq<string>)
    requires WellFormedRow(row)
    ensures Cells(PrintRow(row)) == row
  {
    PrintedRowShape(row);
    forall i | 0 <= i < |Padded(row)|
      ensures '|' !in Padded(row)[i] && Strip(Padded(row)[i]) == row[i]
    {
      TrimPadded(PythonSpace, ' ', row[i], ' ');
    }
    SplitJoin(Padded(row), '|');
    hide Strip, Trim, Split, Join, PrintRow;
  }

  /** A printed row is no separator row, and its cells are read back. */
  lemma RowReadsBack(row: seq<string>)
    requires WellFormedRow(row)
    ensures var s := PrintRow(row); s != "" && s[0] == '|' && Strip(s) == s
    ensures RowOf(PrintRow(row)) == [row]
  {
    PrintedRowShape(row);
    CellsReadBack(row);
    var i, c :| 0 <= i < |row| && c in row[i] && c !in "-:| ";
    assert c in Padded(row)[i];
    JoinHolds(Padded(row), "|", i, c);
    hide Strip, Trim, Cells, Join, PrintRow;
  }

  lemma {:induction false} RowsReadBack(rows: seq<seq<string>>)
    requires forall i :: 0 <= i < |rows| ==> WellFormedRow(rows[i])
    ensures Rows(PrintRows(rows)) == rows
  {
    hide WellFormedRow, PrintRow, RowOf, Strip;
    if rows != [] {
      var front, last := rows[..|rows| - 1], rows[|rows| - 1];
      RowsReadBack(front);
      RowReadsBack(last);
      assert PrintRows(rows)[..|rows| - 1] == PrintRows(front);
      assert rows == front + [last];
    }
  }

  lemma {:induction false} RowsAppend(a: seq<string>, b: seq<string>)
    ensures Rows(a + b) == Rows(a) + Rows(b)
  {
    hide RowOf, Strip;
    if b == [] {
      assert a + b == a;
    } else {
      RowsAppend(a, b[..|b| - 1]);
      assert (a + b)[..|a + b| - 1] == a + b[..|b| - 1];
    }
  }

  lemma RulerRow(ruler: string)
    requires IsSeparator(ruler)
    ensures Rows([ruler]) == [] && Strip(ruler) == ruler && ruler != "" && ruler[0] == '|'
  {
    TrimFixes(PythonSpace, ruler);
    assert [ruler][..0] == [];
    assert RowOf(ruler) == [];
    hide Strip, RowOf;
  }

  lemma GridRows(headers: seq<string>, ruler: string, rows: seq<seq<string>>)
    requires WellFormedRow(headers) && IsSeparator(ruler) && forall i :: 0 <= i < |rows| ==> WellFormedRow(rows[i])
    ensures Rows([PrintRow(headers), ruler] + PrintRows(rows)) == [headers] + rows
  {
    hide WellFormedRow, PrintRow, Rows, Strip, IsSeparator;
    var ruled := [ruler] + PrintRows(rows);
    RulerRow(ruler);
    RowsReadBack([headers]);
    RowsReadBack(rows);
    RowsAppend([ruler], PrintRows(rows));
    RowsAppend(PrintRows([headers]), ruled);
    assert PrintRows([headers]) == [PrintRow(headers)];
    assert [PrintRow(headers), ruler] + PrintRows(rows) == PrintRows([headers]) + ruled;
  }

  lemma RowGoesOn(line: string)
    requires Strip(line) == line && line != "" && line[0] == '|'
    ensures !Stops(AtNonTable, line)
  {
    hide Strip;
  }

  lemma GridScanned(headers: seq<string>, ruler: string, rows: seq<seq<string>>)
    requires WellFormedRow(headers) && IsSeparator(ruler) && forall i :: 0 <= i < |rows| ==> WellFormedRow(rows[i])
    ensures var lines := [PrintRow(headers), ruler] + PrintRows(rows); Scan(lines, AtNonTable) == |lines|
  {
    hide WellFormedRow, PrintRow, Strip, Stops, Scan, Rows, RowOf, IsSeparator;
    var lines := [PrintRow(headers), ruler] + PrintRows(rows);
    RowReadsBack(headers);
    RulerRow(ruler);
    forall i | 0 <= i < |lines|
      ensures !Stops(AtNonTable, lines[i])
    {
      if i >= 2 { RowReadsBack(rows[i - 2]); }
      RowGoesOn(lines[i]);
    }
  }

  lemma GridStep(d: Dialect, headers: seq<string>, ruler: string, rows: seq<seq<string>>)
    requires WellFormedRow(headers) && IsSeparator(ruler) && forall i :: 0 <= i < |rows| ==> WellFormedRow(rows[i])
    requires rows != [] && !d.digit('|')
    ensures Next(d, [PrintRow(headers), ruler] + PrintRows(rows)) == Emit([Table(headers, rows)], |rows| + 2, false)
  {
    hide WellFormedRow, PrintRow, Rows, Strip, Scan, Next, IsSeparator;
    var lines := [PrintRow(headers), ruler] + PrintRows(rows);
    GridRows(headers, ruler, rows);
    GridScanned(headers, ruler, rows);
    RowReadsBack(headers);
    GridFirst(d, lines);
    assert lines[..|lines|] == lines;
    assert ([headers] + rows)[1..] == rows;
  }

  /** A table of a single row is running text. */
  lemma LoneRowStep(d: Dialect, cells: seq<string>)
    requires WellFormedRow(cells) && !d.digit('|')
    ensures Next(d, [PrintRow(cells)]) == Emit([Body(Join(cells, " | "))], 1, false)
  {
    hide WellFormedRow, PrintRow, Rows, Strip, Scan, Next, Stops, RowOf, Join;
    var lines := [PrintRow(cells)];
    RowReadsBack(cells);
    RowsReadBack([cells]);
    assert PrintRows([cells]) == lines;
    RowGoesOn(lines[0]);
    ScanAll(lines, AtNonTable);
    GridFirst(d, lines);
    assert lines[..1] == lines;
  }

  lemma GridFirst(d: Dialect, lines: seq<string>)
    requires lines != [] && Strip(lines[0]) != "" && Strip(lines[0])[0] == '|' && !d.digit('|')
    ensures Next(d, lines) == TableStep(lines)
  {
    hide Strip, TableStep, Dollars, MathStep, CodeStep, AfterBlanks, IsRule;
    var s := Strip(lines[0]);
    assert HeadingLevel(s) == 0 && Digits(d, s) == 0;
    hide Digits, HeadingLevel;
  }

  // ---- Documents

  /** The dialect takes the ten digits, and none of the marks, for digits. */
  ghost predicate Plain(d: Dialect) {
    (forall c :: IsDigit(c) ==> d.digit(c)) && forall i :: 0 <= i < 5 ==> !d.digit(".-*_|"[i])
  }

  lemma PlainMarks(d: Dialect)
    requires Plain(d)
    ensures !d.digit('.') && !d.digit('-') && !d.digit('*') && !d.digit('_') && !d.digit('|')
  {
    var marks := ".-*_|";
    assert marks[0] == '.' && marks[1] == '-' && marks[2] == '*' && marks[3] == '_' && marks[4] == '|';
  }

  lemma PrintedStep(d: Dialect, doc: Doc)
    requires Plain(d) && WellFormed(d, doc) && !doc.Paragraph?
    ensures Next(d, Print(doc)) == Emit([Meaning(d, doc)], |Print(doc)|, false)
  {
    hide Next, WellFormedRow, PrintRow, Stops, Phrase, Plain, IsSeparator, IsRule, Join, NoneStops, IsFence, IsNumber;
    PlainMarks(d);
    match doc
    case Title(level, text) => TitleStep(d, level, text);
    case Item(mark, text) => ItemStep(d, mark, text);
    case NumberedItem(number, text) => NumberedStep(d, number, text);
    case Quote(text) => QuoteStep(d, text);
    case Formula(expr) => FormulaStep(d, expr);
    case Display(lines) => DisplayStep(d, lines);
    case Listing(fence, info, code) => ListingStep(d, fence, info, code);
    case Grid(headers, ruler, rows) => GridStep(d, headers, ruler, rows);
    case LoneRow(cells) => LoneRowStep(d, cells);
    case Separator(ruler) => SeparatorStep(d, ruler);
  }

  /** One printed block reads back as itself and leaves nothing open. */
  lemma BlockReadsBack(d: Dialect, doc: Doc)
    requires Plain(d) && WellFormed(d, doc)
    ensures Parse(d, Print(doc), []) == [Meaning(d, doc)]
    ensures !LeavesOpen(d, Print(doc))
  {
    var lines := Print(doc);
    if doc.Paragraph? {
      hide Plain;
      RunningRead(d, lines, []);
      ParagraphFlushed(d, lines);
      assert [] + lines == lines;
    } else {
      assert lines != [];
      ParseUnfolds(d, lines, []);
      NoParagraph(d);
      PrintedStep(d, doc);
      ParseNothing(d, []);
      hide Next, Print, Meaning, WellFormed, Flush, Parse, Plain;
      assert lines[|lines|..] == [];
    }
  }

  function PrintAll(docs: seq<Doc>): seq<string> {
    if docs == [] then [] else Print(docs[0]) + [""] + PrintAll(docs[1..])
  }

  /** The text of a document: a blank line after every block. */
  function PrintText(docs: seq<Doc>): string { Terminated(PrintAll(docs)) }

  function Meanings(d: Dialect, docs: seq<Doc>): seq<Block> {
    seq(|docs|, i requires 0 <= i < |docs| => Meaning(d, docs[i]))
  }

  lemma {:induction false} LinesReadBack(d: Dialect, docs: seq<Doc>)
    requires Plain(d) && forall i :: 0 <= i < |docs| ==> WellFormed(d, docs[i])
    ensures Parse(d, PrintAll(docs), []) == Meanings(d, docs)
  {
    hide Parse, Print, Meaning, WellFormed, Plain, LeavesOpen, Flush;
    if docs == [] {
      ParseNothing(d, []);
      NoParagraph(d);
    } else {
      BlockReadsBack(d, docs[0]);
      LinesReadBack(d, docs[1..]);
      ClosedSplits(d, Print(docs[0]), PrintAll(docs[1..]));
      assert Meanings(d, docs) == [Meaning(d, docs[0])] + Meanings(d, docs[1..]);
    }
  }

  // ---- Printed lines hold no line breaks

  predicate AllOneLine(lines: seq<string>) { forall i :: 0 <= i < |lines| ==> OneLine(lines[i]) }

  lemma OneLineAppend(a: string, b: string)
    requires OneLine(a) && OneLine(b)
    ensures OneLine(a + b)
  {
    hide LineBreak;
  }

  lemma {:induction false} JoinOneLine(parts: seq<string>, sep: string)
    requires AllOneLine(parts) && OneLine(sep)
    ensures OneLine(Join(parts, sep))
  {
    hide OneLine;
    if |parts| > 1 {
      JoinOneLine(parts[1..], sep);
      OneLineAppend(parts[0], sep);
      OneLineAppend(parts[0] + sep, Join(parts[1..], sep));
    } else if parts == [] {
      EmptyOneLine();
    }
  }

  lemma EmptyOneLine()
    ensures OneLine("") && OneLine("|") && OneLine(" ")
  {
  }

  lemma RowOneLine(row: seq<string>)
    requires WellFormedRow(row)
    ensures OneLine(PrintRow(row))
  {
    EmptyOneLine();
    assert AllOneLine(row);
    hide OneLine, Join, WellFormedRow;
    forall i | 0 <= i < |row|
      ensures OneLine(Padded(row)[i])
    {
      OneLineAppend(" ", row[i]);
      OneLineAppend(" " + row[i], " ");
    }
    JoinOneLine(Padded(row), "|");
    OneLineAppend("|", Join(Padded(row), "|"));
    OneLineAppend("|" + Join(Padded(row), "|"), "|");
  }

  lemma MarkedOneLine(mark: string, text: string, end: string)
    requires OneLine(mark) && OneLine(text) && OneLine(end)
    ensures OneLine(mark + text + end) && OneLine(mark + text)
  {
    hide OneLine;
    OneLineAppend(mark, text);
    OneLineAppend(mark + text, end);
  }

  lemma SignsOneLine(level: nat)
    ensures OneLine(Marks(level) + " ") && OneLine("> ") && OneLine("$$")
    ensures OneLine("```") && OneLine("~~~") && OneLine("") && OneLine(" ") && OneLine(".")
  {
  }

  lemma NumberOneLine(number: string)
    requires IsNumber(number)
    ensures OneLine(number)
  {
  }

  lemma ItemOneLine(mark: char, text: string)
    requires mark in "-*+" && OneLine(text)
    ensures OneLine([mark] + " " + text)
  {
  }

  lemma RulersOneLine(ruler: string)
    ensures IsRule(ruler) || IsSeparator(ruler) ==> OneLine(ruler)
  {
    hide LineBreak;
    forall i | 0 <= i < |ruler| && (IsRule(ruler) || IsSeparator(ruler))
      ensures !LineBreak(ruler[i])
    {
      assert ruler[i] in ruler;
      RulerMark(ruler[i]);
      if IsSeparator(ruler) && 0 < i < |ruler| - 1 {
        var inner := ruler[1..|ruler| - 1];
        assert ruler[i] == inner[i - 1] && inner[i - 1] in inner;
      }
    }
  }

  lemma RulerMark(c: char)
    ensures c in "-*_" || c in "-:| " || c == '|' ==> !LineBreak(c)
  {
  }

  lemma RowsOneLine(rows: seq<seq<string>>)
    requires forall i :: 0 <= i < |rows| ==> WellFormedRow(rows[i])
    ensures AllOneLine(PrintRows(rows))
  {
    hide OneLine, WellFormedRow, PrintRow;
    forall i | 0 <= i < |rows|
      ensures OneLine(PrintRow(rows[i]))
    {
      RowOneLine(rows[i]);
    }
  }

  lemma PrintOneLine(d: Dialect, doc: Doc)
    requires WellFormed(d, doc)
    ensures AllOneLine(Print(doc))
  {
    if doc.Display? || doc.Listing? || doc.Grid? || doc.LoneRow? || doc.Separator? {
      LongOneLine(d, doc);
    } else {
      ShortOneLine(d, doc);
    }
    hide *;
  }

  lemma ShortOneLine(d: Dialect, doc: Doc)
    requires WellFormed(d, doc)
    requires doc.Title? || doc.Paragraph? || doc.Item? || doc.NumberedItem? || doc.Quote? || doc.Formula?
    ensures AllOneLine(Print(doc))
  {
    SignsOneLine(if doc.Title? then doc.level else 1);
    hide OneLine, Marks, IsNumber, Next, Trimmed, Join;
    match doc
    case Title(level, text) => MarkedOneLine(Marks(level) + " ", text, "");
    case Paragraph(lines) =>
    case Item(mark, text) => ItemOneLine(mark, text);
    case NumberedItem(number, text) =>
      NumberOneLine(number);
      MarkedOneLine(number, ".", " ");
      MarkedOneLine(number + "." + " ", text, "");
    case Quote(text) => MarkedOneLine("> ", text, "");
    case Formula(expr) => MarkedOneLine("$$", expr, "$$");
  }

  lemma LongOneLine(d: Dialect, doc: Doc)
    requires WellFormed(d, doc)
    requires doc.Display? || doc.Listing? || doc.Grid? || doc.LoneRow? || doc.Separator?
    ensures AllOneLine(Print(doc))
  {
    SignsOneLine(1);
    hide OneLine, WellFormedRow, PrintRow, IsRule, IsSeparator, Stops, Trimmed, Join;
    match doc
    case Display(lines) =>
    case Listing(fence, info, code) => MarkedOneLine(fence, info, "");
    case Grid(headers, ruler, rows) =>
      RowOneLine(headers);
      RulersOneLine(ruler);
      RowsOneLine(rows);
    case LoneRow(cells) => RowOneLine(cells);
    case Separator(ruler) => RulersOneLine(ruler);
  }

  lemma {:induction false} PrintAllOneLine(d: Dialect, docs: seq<Doc>)
    requires forall i :: 0 <= i < |docs| ==> WellFormed(d, docs[i])
    ensures AllOneLine(PrintAll(docs))
  {
    hide OneLine, WellFormed, Print;
    if docs != [] {
      SignsOneLine(1);
      PrintOneLine(d, docs[0]);
      PrintAllOneLine(d, docs[1..]);
    }
  }

  /** Any list of well-formed blocks, printed with a blank line after each, reads back as that list. */
  lemma DocumentsReadBack(d: Dialect, docs: seq<Doc>)
    requires Plain(d) && forall i :: 0 <= i < |docs| ==> WellFormed(d, docs[i])
    ensures ParseText(d, PrintText(docs)) == Meanings(d, docs)
  {
    PrintAllOneLine(d, docs);
    hide Parse, PrintAll, Meanings, WellFormed, Plain, OneLine, SplitLines, Terminated;
    SplitTerminated(PrintAll(docs));
    LinesReadBack(d, docs);
  }
}
