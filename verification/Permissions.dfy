/**
 Permission settings (src/permission/settings.ts): entries written by hand are normalised, lists of them are cleaned,
 and every entry becomes a rule of a tool name and an optional pattern.
 */
module Permissions {
  import opened Options
  import opened Text

  /** The names other tools use, and ours. */
  function Alias(name: string): (r: Option<string>)
    ensures r.Some? ==> name != "" && 'A' <= name[0] <= 'Z'
    ensures r.Some? ==> StartsLower(r.value) && 'a' <= r.value[|r.value| - 1] <= 'z'
  {
    if name == "Read" then Some("read_file")
    else if name == "Write" then Some("write_file")
    else if name == "Edit" || name == "MultiEdit" then Some("edit_file")
    else if name == "NotebookEdit" then Some("edit_notebook")
    else if name == "Glob" then Some("glob")
    else if name == "Grep" then Some("grep")
    else if name == "Bash" then Some("bash")
    else if name == "Task" then Some("agent")
    else if name == "TodoWrite" then Some("todo_write")
    else if name == "WebFetch" then Some("web_fetch")
    else if name == "WebSearch" then Some("web_search")
    else None
  }

  predicate StartsLower(s: string) { s != "" && 'a' <= s[0] <= 'z' }

  function Strip(s: string): string { Trim(ScriptSpace, s) }

  /** What `.` does not match. */
  predicate LineEnd(c: char) { c == '\n' || c == '\r' || c == '\U{2028}' || c == '\U{2029}' }

  /** `^Bash\((.*)\)$`: the text between the parentheses. */
  function BashPattern(s: string): Option<string> {
    if |s| >= 6 && s[..5] == "Bash(" && s[|s| - 1] == ')' && forall c :: c in s[5..|s| - 1] ==> !LineEnd(c)
    then Some(s[5..|s| - 1]) else None
  }

  function NormalizeEntry(entry: string): string {
    var trimmed := Strip(entry);
    if trimmed == "" then ""
    else
      match BashPattern(trimmed)
      case Some(inner) => if Strip(inner) != "" then "bash:" + Strip(inner) else "bash"
      case None => Alias(trimmed).GetOr(trimmed)
  }

  /** Normal entries are trimmed, are no alias, and have no `Bash(...)` form. */
  predicate Normal(e: string) {
    Trimmed(ScriptSpace, e) && Alias(e) == None && BashPattern(e) == None
  }

  lemma LowerIsNormal(e: string)
    requires StartsLower(e) && !In(ScriptSpace, e[|e| - 1])
    ensures Normal(e)
  {
    hide Alias;
    assert |e| >= 5 ==> e[..5][0] == e[0];
  }

  lemma BashIsNormal(inner: string)
    ensures Strip(inner) != "" ==> Normal("bash:" + Strip(inner))
    ensures Normal("bash")
  {
    TrimIsTrimmed(ScriptSpace, inner);
    hide Trim, Normal;
    LowerIsNormal("bash");
    if Strip(inner) != "" {
      LowerIsNormal("bash:" + Strip(inner));
    }
  }

  lemma AliasesAreNormal(name: string)
    requires Alias(name).Some?
    ensures Normal(Alias(name).value)
  {
    hide Alias, Normal;
    var e := Alias(name).value;
    assert !In(ScriptSpace, e[|e| - 1]);
    LowerIsNormal(e);
  }

  /** Normalising gives a normal entry and leaves exactly the normal entries alone, so twice is as good as once. */
  lemma NormalizeFixesNormal(entry: string)
    ensures Normal(NormalizeEntry(entry))
    ensures NormalizeEntry(entry) == entry <==> Normal(entry)
    ensures NormalizeEntry(NormalizeEntry(entry)) == NormalizeEntry(entry)
  {
    NormalizeIsNormal(entry);
    NormalIsFixed(NormalizeEntry(entry));
    if Normal(entry) { NormalIsFixed(entry); }
    hide NormalizeEntry, Normal;
  }

  lemma NormalizeIsNormal(entry: string)
    ensures Normal(NormalizeEntry(entry))
  {
    hide Trim, BashPattern, Trimmed, Alias, Normal;
    var trimmed := Strip(entry);
    EmptyIsNormal();
    match BashPattern(trimmed)
    case Some(inner) => BashIsNormal(inner);
    case None =>
      if Alias(trimmed).Some? {
        AliasesAreNormal(trimmed);
      } else {
        PlainIsNormal(entry);
      }
  }

  lemma PlainIsNormal(entry: string)
    requires BashPattern(Strip(entry)) == None && Alias(Strip(entry)) == None
    ensures Normal(Strip(entry))
  {
    hide Trim, BashPattern, Trimmed, Alias;
    TrimIsTrimmed(ScriptSpace, entry);
  }

  lemma EmptyIsNormal()
    ensures Normal("")
  {
  }

  lemma NormalIsFixed(e: string)
    requires Normal(e)
    ensures NormalizeEntry(e) == e
  {
    hide Trim, Trimmed, Alias, BashPattern;
    TrimFixes(ScriptSpace, e);
  }

  // ---- Lists of entries

  /** The normal forms of the strings of a list; other values and empty entries are dropped. */
  function Entries(items: seq<Option<string>>): seq<string> {
    if items == [] then []
    else
      var last := items[|items| - 1];
      Entries(items[..|items| - 1])
      + (if last.Some? && NormalizeEntry(last.value) != "" then [NormalizeEntry(last.value)] else [])
  }

  /** `normalizeStringArray`; `None` stands for a value that is no array. */
  method NormalizeStringArray(value: Option<seq<Option<string>>>) returns (out: seq<string>)
    ensures out == if value.Some? then Unique(Entries(value.value)) else []
  {
    hide *;
    NoEntries();
    out := [];
    if value.None? {
      return;
    }
    var items := value.value;
    var seen: set<string> := {};
    for i := 0 to |items|
      invariant out == Unique(Entries(items[..i]))
      invariant forall x :: x in seen <==> x in out
    {
      var item := items[i];
      EntriesMore(items[..i], item);
      assert items[..i + 1] == items[..i] + [item];
      if item.None? {
        continue;
      }
      var normalized := NormalizeEntry(item.value);
      UniqueMore(Entries(items[..i]), normalized);
      if normalized == "" || normalized in seen {
        continue;
      }
      seen := seen + {normalized};
      out := out + [normalized];
    }
    assert items[..|items|] == items;
  }

  lemma NoEntries()
    ensures Unique(Entries([])) == []
  {
  }

  lemma EntriesMore(items: seq<Option<string>>, item: Option<string>)
    ensures Entries(items + [item])
         == if item.Some? && NormalizeEntry(item.value) != "" then Entries(items) + [NormalizeEntry(item.value)]
            else Entries(items)
  {
    assert (items + [item])[..|items|] == items;
    hide NormalizeEntry;
  }

  lemma UniqueMore(s: seq<string>, x: string)
    ensures Unique(s + [x]) == if x in Unique(s) then Unique(s) else Unique(s) + [x]
  {
    assert (s + [x])[..|s|] == s;
  }

  predicate Names(items: seq<Option<string>>, x: string) {
    x != "" && exists i :: 0 <= i < |items| && items[i].Some? && NormalizeEntry(items[i].value) == x
  }

  lemma {:induction false} EntriesMeaning(items: seq<Option<string>>, x: string)
    ensures x in Entries(items) <==> Names(items, x)
  {
    hide NormalizeEntry;
    if items != [] {
      var front := items[..|items| - 1];
      EntriesMeaning(front, x);
      if Names(front, x) {
        var i :| 0 <= i < |front| && front[i].Some? && NormalizeEntry(front[i].value) == x;
        assert items[i] == front[i];
      }
      if Names(items, x) {
        var i :| 0 <= i < |items| && items[i].Some? && NormalizeEntry(items[i].value) == x;
        assert i < |front| ==> front[i] == items[i];
      }
    }
  }

  /** The cleaned list holds the normal form of every entry once, and nothing empty. */
  lemma CleanedList(items: seq<Option<string>>)
    ensures forall i, j :: 0 <= i < j < |Unique(Entries(items))| ==>
      Unique(Entries(items))[i] != Unique(Entries(items))[j]
    ensures forall x :: x in Unique(Entries(items)) <==> Names(items, x)
    ensures forall x :: x in Unique(Entries(items)) ==> x != "" && Normal(x)
  {
    UniqueMeaning(Entries(items));
    hide NormalizeEntry, Normal, Entries, Unique;
    forall x
      ensures x in Entries(items) <==> Names(items, x)
      ensures x in Entries(items) ==> Normal(x)
    {
      EntriesMeaning(items, x);
      if Names(items, x) {
        var i :| 0 <= i < |items| && items[i].Some? && NormalizeEntry(items[i].value) == x;
        NormalizeIsNormal(items[i].value);
      }
    }
  }

  function AsItems(s: seq<string>): seq<Option<string>> { seq(|s|, i requires 0 <= i < |s| => Some(s[i])) }

  lemma AsItemsMore(front: seq<string>, last: string)
    ensures AsItems(front + [last]) == AsItems(front) + [Some(last)] && AsItems([]) == []
  {
  }

  lemma {:induction false} EntriesOfNormal(s: seq<string>)
    requires forall x :: x in s ==> x != "" && Normal(x)
    ensures Entries(AsItems(s)) == s
  {
    if s != [] {
      hide *;
      var front, last := s[..|s| - 1], s[|s| - 1];
      assert s == front + [last];
      assert last in s && forall x :: x in front ==> x in s;
      EntriesOfNormal(front);
      NormalIsFixed(last);
      AsItemsMore(front, last);
      EntriesMore(AsItems(front), Some(last));
    }
  }

  /** Cleaning a cleaned list changes nothing. */
  lemma CleaningIsIdempotent(items: seq<Option<string>>)
    ensures Unique(Entries(AsItems(Unique(Entries(items))))) == Unique(Entries(items))
  {
    hide *;
    CleanedList(items);
    EntriesOfNormal(Unique(Entries(items)));
    UniqueOfDistinct(Unique(Entries(items)));
  }

  /** Where `x` first stands in `s`. */
  function FirstAt(s: seq<string>, x: string): (n: nat)
    requires x in s
    ensures n < |s| && s[n] == x && x !in s[..n]
  {
    if s[0] == x then 0
    else
      var n := FirstAt(s[1..], x);
      assert s[..n + 1] == [s[0]] + s[1..][..n];
      n + 1
  }

  /** The order is that of first occurrence. */
  lemma {:induction false} OrderOfFirstOccurrence(s: seq<string>, i: nat, j: nat)
    requires i < j < |Unique(s)|
    ensures Unique(s)[i] in s && Unique(s)[j] in s
    ensures FirstAt(s, Unique(s)[i]) < FirstAt(s, Unique(s)[j])
  {
    UniqueMeaning(s);
    var front, last := s[..|s| - 1], s[|s| - 1];
    UniqueMeaning(front);
    assert s == front + [last];
    var x, y := Unique(s)[i], Unique(s)[j];
    FirstInFront(front, last, x);
    if j < |Unique(front)| {
      OrderOfFirstOccurrence(front, i, j);
      FirstInFront(front, last, y);
    } else {
      assert y == last && y !in front;
      assert FirstAt(s, y) == |front|;
    }
  }

  lemma {:induction false} FirstInFront(front: seq<string>, last: string, x: string)
    requires x in front
    ensures FirstAt(front + [last], x) == FirstAt(front, x)
  {
    if front[0] != x {
      assert (front + [last])[1..] == front[1..] + [last];
      FirstInFront(front[1..], last, x);
    }
  }

  // ---- Rules

  datatype Behavior = Allow | Deny

  datatype Rule = Rule(behavior: Behavior, toolName: string, pattern: Option<string>)

  /** `permissionEntryToRule` */
  function EntryToRule(entry: string, behavior: Behavior): Rule {
    Cut(NormalizeEntry(entry), behavior)
  }

  function Cut(normalized: string, behavior: Behavior): Rule {
    var parts := Split(normalized, ':');
    var pattern := Strip(Join(parts[1..], ":"));
    Rule(behavior, if parts[0] != "" then parts[0] else normalized, if pattern != "" then Some(pattern) else None)
  }

  /** The entry that a rule stands for. */
  function RuleToEntry(r: Rule): string {
    if r.pattern.Some? then r.toolName + ":" + r.pattern.value else r.toolName
  }

  /** A rule depends on the normal form of its entry only. */
  lemma RuleOfNormalForm(entry: string, behavior: Behavior)
    ensures EntryToRule(NormalizeEntry(entry), behavior) == EntryToRule(entry, behavior)
  {
    NormalizeFixesNormal(entry);
    hide NormalizeEntry, Split, Join, Trim;
  }

  /** The text is cut at its first colon, however many follow. */
  lemma CutAtColon(e: string)
    ensures var n, parts := IndexOf(e, ':'), Split(e, ':');
      parts[0] == e[..n] && Join(parts[1..], ":") == if n < |e| then e[n + 1..] else ""
  {
    var n := IndexOf(e, ':');
    if n < |e| {
      JoinSplit(e[n + 1..], ':');
      assert Split(e, ':')[1..] == Split(e[n + 1..], ':');
      assert [':'] == ":";
    } else {
      assert e[..n] == e;
      assert Split(e, ':')[1..] == [];
    }
  }

  /** The entry has no pattern, or one that trimming would not change after a tool name, or is a lone colon. */
  predicate WellCut(e: string) {
    var n := IndexOf(e, ':');
    n == |e| || e == ":" || (n > 0 && n + 1 < |e| && !In(ScriptSpace, e[n + 1]))
  }

  lemma CutParts(e: string, behavior: Behavior)
    ensures var n := IndexOf(e, ':');
      var rest := if n < |e| then Strip(e[n + 1..]) else "";
      Cut(e, behavior) == Rule(behavior, if n > 0 then e[..n] else e, if rest != "" then Some(rest) else None)
  {
    CutAtColon(e);
    assert Strip("") == "";
    hide Split, Join, Trim;
  }

  /** After a tool name and a colon, the pattern is kept as written iff it is not empty and not indented. */
  lemma PatternKeptIff(e: string, n: nat)
    requires n < |e| && Trimmed(ScriptSpace, e)
    ensures Strip(e[n + 1..]) == e[n + 1..] <==> n + 1 == |e| || !In(ScriptSpace, e[n + 1])
    ensures n + 1 < |e| ==> Strip(e[n + 1..]) != ""
  {
    var rest := e[n + 1..];
    TrimFixes(ScriptSpace, rest);
    if n + 1 < |e| {
      assert rest[|rest| - 1] == e[|e| - 1];
      SomethingLeft(ScriptSpace, rest);
    }
    hide Trim, In;
  }

  lemma {:induction false} SomethingLeft(cs: Chars, s: string)
    requires s != "" && !In(cs, s[|s| - 1])
    ensures Trim(cs, s) != ""
  {
    hide In;
    if In(cs, s[0]) {
      SomethingLeft(cs, s[1..]);
    }
  }

  lemma CutWithoutColon(e: string, behavior: Behavior)
    requires IndexOf(e, ':') == |e|
    ensures RuleToEntry(Cut(e, behavior)) == e
  {
    CutParts(e, behavior);
    hide Cut, Trim, IndexOf;
    assert e[..|e|] == e;
  }

  lemma CutBeforeColon(e: string, behavior: Behavior)
    requires Trimmed(ScriptSpace, e) && IndexOf(e, ':') == 0 < |e|
    ensures RuleToEntry(Cut(e, behavior)) == e <==> e == ":"
  {
    hide Cut, Trim, In, Trimmed, IndexOf;
    CutParts(e, behavior);
    if |e| > 1 {
      PatternKeptIff(e, 0);
      assert e != ":";
      LongerThan(e, Strip(e[1..]));
    } else {
      EmptyStripped();
      assert e[1..] == "";
      assert e == [e[0]];
    }
  }

  lemma LongerThan(e: string, pattern: string)
    ensures e + ":" + pattern != e
  {
    assert |e + ":" + pattern| > |e|;
  }

  lemma CutAfterTool(e: string, behavior: Behavior, n: nat)
    requires Trimmed(ScriptSpace, e) && 0 < n == IndexOf(e, ':') < |e|
    ensures RuleToEntry(Cut(e, behavior)) == e <==> n + 1 < |e| && !In(ScriptSpace, e[n + 1])
  {
    hide Cut, Trim, In, Trimmed, IndexOf;
    CutParts(e, behavior);
    PatternKeptIff(e, n);
    var tool, rest := e[..n], e[n + 1..];
    assert e == tool + ":" + rest;
    if n + 1 < |e| {
      SameTail(tool, Strip(rest), rest);
    } else {
      assert rest == "" && Strip("") == "" by { EmptyStripped(); }
      assert RuleToEntry(Cut(e, behavior)) == tool;
    }
  }

  lemma EmptyStripped()
    ensures Strip("") == ""
  {
  }

  lemma SameTail(tool: string, a: string, b: string)
    ensures tool + ":" + a == tool + ":" + b <==> a == b
  {
    var x, y := tool + ":" + a, tool + ":" + b;
    assert x[|tool| + 1..] == a && y[|tool| + 1..] == b;
  }

  lemma CutInvertsIff(e: string, behavior: Behavior)
    requires Trimmed(ScriptSpace, e)
    ensures RuleToEntry(Cut(e, behavior)) == e <==> WellCut(e)
  {
    hide RuleToEntry, Cut, Trim, In, Trimmed, IndexOf;
    var n := IndexOf(e, ':');
    if n == |e| {
      CutWithoutColon(e, behavior);
    } else if n == 0 {
      CutBeforeColon(e, behavior);
    } else {
      CutAfterTool(e, behavior, n);
      LoneColon();
    }
  }

  lemma LoneColon()
    ensures IndexOf(":", ':') == 0
  {
  }

  /** A rule can be turned back into its entry iff the normal form is well cut. */
  lemma RuleInvertsIff(entry: string, behavior: Behavior)
    ensures RuleToEntry(EntryToRule(entry, behavior)) == NormalizeEntry(entry) <==> WellCut(NormalizeEntry(entry))
  {
    hide NormalizeEntry, RuleToEntry, Cut, WellCut, Trimmed;
    NormalizeFixesNormal(entry);
    CutInvertsIff(NormalizeEntry(entry), behavior);
  }

  /** A blank after the colon is lost. */
  lemma IndentedPatternDoesNotInvert(behavior: Behavior)
    ensures NormalizeEntry("bash: ls") == "bash: ls"
    ensures RuleToEntry(EntryToRule("bash: ls", behavior)) != "bash: ls"
  {
    var e := "bash:" + " ls";
    assert e == "bash: ls" && e == "bash" + [':'] + " ls";
    assert StartsLower(e) && !In(ScriptSpace, e[|e| - 1]) && In(ScriptSpace, e[5]);
    hide NormalizeEntry, EntryToRule, RuleToEntry, In, Normal, StartsLower, IndexOf;
    LowerIsNormal(e);
    NormalIsFixed(e);
    IndexOfFirst("bash", ':', " ls");
    RuleInvertsIff(e, behavior);
  }

  /** Every `Bash(...)` entry, colons in the pattern included, inverts. */
  lemma BashRulesInvert(inner: string, behavior: Behavior)
    requires forall c :: c in inner ==> !LineEnd(c)
    ensures EntryToRule("Bash(" + inner + ")", behavior)
         == Rule(behavior, "bash", if Strip(inner) != "" then Some(Strip(inner)) else None)
    ensures RuleToEntry(EntryToRule("Bash(" + inner + ")", behavior)) == NormalizeEntry("Bash(" + inner + ")")
  {
    hide NormalizeEntry, Trim, In, LineEnd, Cut;
    BashNormalizes(inner);
    TrimIsTrimmed(ScriptSpace, inner);
    CutBash(Strip(inner), behavior);
  }

  lemma CutBash(pattern: string, behavior: Behavior)
    requires Trimmed(ScriptSpace, pattern)
    ensures Cut("bash", behavior) == Rule(behavior, "bash", None)
    ensures pattern != "" ==> Cut("bash:" + pattern, behavior) == Rule(behavior, "bash", Some(pattern))
  {
    TrimFixes(ScriptSpace, pattern);
    IndexOfNone("bash", ':');
    IndexOfFirst("bash", ':', pattern);
    hide Trim, In, Trimmed, Cut, IndexOf;
    CutParts("bash", behavior);
    assert "bash"[..4] == "bash";
    var e := "bash" + [':'] + pattern;
    assert e == "bash:" + pattern;
    assert e[..4] == "bash" && e[5..] == pattern;
    CutParts(e, behavior);
  }

  lemma BashNormalizes(inner: string)
    requires forall c :: c in inner ==> !LineEnd(c)
    ensures NormalizeEntry("Bash(" + inner + ")") == if Strip(inner) != "" then "bash:" + Strip(inner) else "bash"
  {
    var entry := "Bash(" + inner + ")";
    TrimFixes(ScriptSpace, entry);
    hide Trim, LineEnd;
    assert entry[..5] == "Bash(" && entry[5..|entry| - 1] == inner;
  }

  // ---- The names of other tools

  const OTHER_NAMES := ["Read", "Write", "Edit", "MultiEdit", "NotebookEdit", "Glob", "Grep", "Bash", "Task",
                        "TodoWrite", "WebFetch", "WebSearch"]
  const OUR_NAMES := ["read_file", "write_file", "edit_file", "edit_file", "edit_notebook", "glob", "grep", "bash",
                      "agent", "todo_write", "web_fetch", "web_search"]

  lemma AliasMeaning(name: string)
    ensures Alias(name).Some? <==> exists i :: 0 <= i < 12 && OTHER_NAMES[i] == name
    ensures forall i :: 0 <= i < 12 && OTHER_NAMES[i] == name ==> Alias(name) == Some(OUR_NAMES[i])
  {
    if Alias(name).Some? {
      var i := if name == "Read" then 0 else if name == "Write" then 1 else if name == "Edit" then 2
               else if name == "MultiEdit" then 3 else if name == "NotebookEdit" then 4 else if name == "Glob" then 5
               else if name == "Grep" then 6 else if name == "Bash" then 7 else if name == "Task" then 8
               else if name == "TodoWrite" then 9 else if name == "WebFetch" then 10 else 11;
      assert OTHER_NAMES[i] == name;
    }
  }
}
