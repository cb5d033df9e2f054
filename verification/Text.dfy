/** Strings: searching, trimming, splitting, joining, and decimal numbers. */
module Text {
  /** The position of the first `c` in `s`, or the length of `s` if there is none. */
  function IndexOf(s: string, c: char): (r: nat)
    ensures r <= |s| && (r < |s| ==> s[r] == c)
    ensures c !in s[..r]
  {
    if s == "" || s[0] == c then 0
    else
      var rest := IndexOf(s[1..], c);
      assert s[..rest + 1] == [s[0]] + s[1..][..rest];
      rest + 1
  }

  predicate Starts(s: string, prefix: string) { prefix <= s }

  function Join(parts: seq<string>, sep: string): string {
    if parts == [] then ""
    else if |parts| == 1 then parts[0]
    else parts[0] + sep + Join(parts[1..], sep)
  }

  /** `[...new Set(s)]`: every element once, in the order of first occurrence. */
  function Unique<T(==)>(s: seq<T>): seq<T> {
    if s == [] then []
    else
      var front, last := Unique(s[..|s| - 1]), s[|s| - 1];
      if last in front then front else front + [last]
  }

  lemma {:induction false} UniqueMeaning<T>(s: seq<T>)
    ensures forall x :: x in Unique(s) <==> x in s
    ensures forall i, j :: 0 <= i < j < |Unique(s)| ==> Unique(s)[i] != Unique(s)[j]
    ensures |Unique(s)| <= |s|
  {
    if s != [] {
      UniqueMeaning(s[..|s| - 1]);
      assert s == s[..|s| - 1] + [s[|s| - 1]];
    }
  }

  /** A sequence without repetitions is left alone. */
  lemma {:induction false} UniqueOfDistinct<T>(s: seq<T>)
    requires forall i, j :: 0 <= i < j < |s| ==> s[i] != s[j]
    ensures Unique(s) == s
  {
    if s != [] {
      UniqueOfDistinct(s[..|s| - 1]);
      assert s == s[..|s| - 1] + [s[|s| - 1]];
    }
  }

  // ---- Trimming

  /** What a call strips: the blanks of Python's `strip`, those of JavaScript's `trim`, or one character. */
  datatype Chars = PythonSpace | ScriptSpace | Only(c: char)

  predicate In(cs: Chars, c: char) {
    match cs
    case PythonSpace =>
      '\t' <= c <= '\r' || '\U{1c}' <= c <= ' ' || c == '\U{85}' || WideSpace(c)
    case ScriptSpace =>
      '\t' <= c <= '\r' || c == ' ' || WideSpace(c) || c == '\U{FEFF}'
    case Only(d) => c == d
  }

  predicate WideSpace(c: char) {
    c in {'\U{A0}', '\U{1680}', '\U{2028}', '\U{2029}', '\U{202F}', '\U{205F}', '\U{3000}'}
    || '\U{2000}' <= c <= '\U{200A}'
  }

  function TrimLeft(cs: Chars, s: string): string {
    if s != "" && In(cs, s[0]) then TrimLeft(cs, s[1..]) else s
  }

  function TrimRight(cs: Chars, s: string): string {
    if s != "" && In(cs, s[|s| - 1]) then TrimRight(cs, s[..|s| - 1]) else s
  }

  function Trim(cs: Chars, s: string): string { TrimRight(cs, TrimLeft(cs, s)) }

  /** Neither end would be stripped. */
  predicate Trimmed(cs: Chars, s: string) { s == "" || (!In(cs, s[0]) && !In(cs, s[|s| - 1])) }

  lemma {:induction false} TrimLeftFacts(cs: Chars, s: string)
    ensures var t := TrimLeft(cs, s); t == "" || (!In(cs, t[0]) && |t| <= |s| && s[|s| - 1] == t[|t| - 1])
  {
    if s != "" && In(cs, s[0]) {
      TrimLeftFacts(cs, s[1..]);
    }
  }

  lemma {:induction false} TrimRightFacts(cs: Chars, s: string)
    ensures var t := TrimRight(cs, s); t == "" || (!In(cs, t[|t| - 1]) && |t| <= |s| && s[0] == t[0])
  {
    if s != "" && In(cs, s[|s| - 1]) {
      TrimRightFacts(cs, s[..|s| - 1]);
    }
  }

  lemma TrimIsTrimmed(cs: Chars, s: string)
    ensures Trimmed(cs, Trim(cs, s))
  {
    TrimLeftFacts(cs, s);
    TrimRightFacts(cs, TrimLeft(cs, s));
    hide In;
  }

  /** Trimming leaves exactly the trimmed strings alone. */
  lemma TrimFixes(cs: Chars, s: string)
    ensures Trim(cs, s) == s <==> Trimmed(cs, s)
  {
    hide In;
    TrimIsTrimmed(cs, s);
  }

  lemma TrimPaddedLeft(cs: Chars, a: char, s: string)
    requires In(cs, a) && (s == "" || !In(cs, s[0]))
    ensures TrimLeft(cs, [a] + s) == s
  {
    hide In;
    assert ([a] + s)[1..] == s;
  }

  lemma TrimPaddedRight(cs: Chars, s: string, b: char)
    requires In(cs, b) && (s == "" || !In(cs, s[|s| - 1]))
    ensures TrimRight(cs, s + [b]) == s
  {
    hide In;
    assert (s + [b])[..|s|] == s;
  }

  /** Blanks put around a trimmed string are taken off again. */
  lemma TrimPadded(cs: Chars, a: char, s: string, b: char)
    requires Trimmed(cs, s) && In(cs, a) && In(cs, b)
    ensures Trim(cs, [a] + s + [b]) == s
  {
    hide In;
    var t := [a] + s + [b];
    assert t[1..] == s + [b];
    assert TrimLeft(cs, t) == TrimLeft(cs, s + [b]);
    if s == "" {
      assert s + [b] == [b] && [b][1..] == "";
      assert TrimLeft(cs, [b]) == "";
    } else {
      assert (s + [b])[0] == s[0];
      assert TrimLeft(cs, s + [b]) == s + [b];
      hide TrimLeft;
      TrimPaddedRight(cs, s, b);
    }
  }

  // ---- Splitting

  function Split(s: string, c: char): (r: seq<string>)
    ensures r != []
    decreases |s|
  {
    var n := IndexOf(s, c);
    if n == |s| then [s] else [s[..n]] + Split(s[n + 1..], c)
  }

  lemma {:induction false} IndexOfFirst(a: string, c: char, b: string)
    requires c !in a
    ensures IndexOf(a + [c] + b, c) == |a|
  {
    if a == "" {
      assert (a + [c] + b)[0] == c;
    } else {
      assert (a + [c] + b)[1..] == a[1..] + [c] + b;
      IndexOfFirst(a[1..], c, b);
    }
  }

  lemma IndexOfNone(s: string, c: char)
    requires c !in s
    ensures IndexOf(s, c) == |s|
  {
  }

  lemma JoinCons(first: string, rest: seq<string>, sep: string)
    requires rest != []
    ensures Join([first] + rest, sep) == first + sep + Join(rest, sep)
  {
    assert ([first] + rest)[1..] == rest;
  }

  /** Joining undoes splitting. */
  lemma {:induction false} JoinSplit(s: string, c: char)
    ensures Join(Split(s, c), [c]) == s
    decreases |s|
  {
    var n := IndexOf(s, c);
    if n < |s| {
      var first, rest := s[..n], s[n + 1..];
      var parts := Split(rest, c);
      JoinSplit(rest, c);
      assert s == first + [c] + rest;
      assert Split(s, c) == [first] + parts;
      hide Split, IndexOf;
      JoinCons(first, parts, [c]);
    }
  }

  lemma SplitFirst(a: string, c: char, rest: string)
    requires c !in a
    ensures Split(a + [c] + rest, c) == [a] + Split(rest, c)
  {
    IndexOfFirst(a, c, rest);
    var s := a + [c] + rest;
    assert s[..|a|] == a && s[|a| + 1..] == rest;
  }

  /** Splitting undoes joining. */
  lemma {:induction false} SplitJoin(parts: seq<string>, c: char)
    requires parts != [] && forall i :: 0 <= i < |parts| ==> c !in parts[i]
    ensures Split(Join(parts, [c]), c) == parts
  {
    if |parts| == 1 {
      IndexOfNone(parts[0], c);
    } else {
      var first, rest := parts[0], parts[1..];
      SplitJoin(rest, c);
      hide Split, Join, IndexOf;
      assert parts == [first] + rest;
      JoinCons(first, rest, [c]);
      SplitFirst(first, c, Join(rest, [c]));
    }
  }

  /** A joined text starts as its first part does and ends as its last one. */
  lemma {:induction false} JoinOuter(parts: seq<string>, sep: string)
    requires parts != [] && forall i :: 0 <= i < |parts| ==> parts[i] != ""
    ensures var s, last := Join(parts, sep), parts[|parts| - 1];
      s != "" && s[0] == parts[0][0] && s[|s| - 1] == last[|last| - 1]
  {
    if |parts| > 1 {
      JoinOuter(parts[1..], sep);
    }
  }

  // ---- Decimal numbers

  predicate IsDigit(c: char) { '0' <= c <= '9' }

  function Digit(n: nat): (c: char)
    requires n < 10
    ensures IsDigit(c)
  {
    "0123456789"[n]
  }

  function Value(c: char): (n: nat)
    requires IsDigit(c)
    ensures n < 10
  {
    c as int - '0' as int
  }

  function Decimal(n: nat): string { if n < 10 then [Digit(n)] else Decimal(n / 10) + [Digit(n % 10)] }

  function DigitsOf(s: string): (n: nat)
    ensures n <= |s| && forall i :: 0 <= i < n ==> IsDigit(s[i])
    ensures n < |s| ==> !IsDigit(s[n])
  {
    if s == "" || !IsDigit(s[0]) then 0 else 1 + DigitsOf(s[1..])
  }

  function ParseDecimal(s: string): nat
    requires forall i :: 0 <= i < |s| ==> IsDigit(s[i])
  {
    if s == "" then 0 else 10 * ParseDecimal(s[..|s| - 1]) + Value(s[|s| - 1])
  }

  lemma {:induction false} DecimalReadsBack(n: nat)
    ensures Decimal(n) != "" && forall i :: 0 <= i < |Decimal(n)| ==> IsDigit(Decimal(n)[i])
    ensures ParseDecimal(Decimal(n)) == n
  {
    if n >= 10 {
      DecimalReadsBack(n / 10);
      assert Decimal(n)[..|Decimal(n)| - 1] == Decimal(n / 10);
    } else {
      assert Decimal(n)[..0] == "";
    }
  }

  lemma {:induction false} DigitsEnd(a: string, rest: string)
    requires forall i :: 0 <= i < |a| ==> IsDigit(a[i])
    requires rest == "" || !IsDigit(rest[0])
    ensures DigitsOf(a + rest) == |a|
  {
    if a == "" {
      assert a + rest == rest;
    } else {
      assert (a + rest)[1..] == a[1..] + rest;
      DigitsEnd(a[1..], rest);
    }
  }
}
