/**
 How git prints a path on a line of its own: enclosed in double quotes and escaped as in C if it holds "unusual"
 characters (core.quotePath in git-config(1)). Control characters, double quotes and backslashes always are; bytes
 above 0x7f, of which every other character outside ASCII is made in UTF-8, are by default.
 */
module GitQuoting {
  import opened Text

  /** The bytes of a character in UTF-8. */
  function Utf8(c: char): (r: seq<nat>)
    ensures |r| >= 1 && forall i :: 0 <= i < |r| ==> r[i] < 256
  {
    var n := c as int;
    if n < 0x80 then [n]
    else if n < 0x800 then [0xC0 + n / 64, 0x80 + n % 64]
    else if n < 0x10000 then [0xE0 + n / 4096, 0x80 + n / 64 % 64, 0x80 + n % 64]
    else [0xF0 + n / 262144, 0x80 + n / 4096 % 64, 0x80 + n / 64 % 64, 0x80 + n % 64]
  }

  function Octal(b: nat): (r: string)
    requires b < 256
    ensures |r| == 4 && '\n' !in r
  {
    ['\\', Digit(b / 64), Digit(b / 8 % 8), Digit(b % 8)]
  }

  function Octals(bytes: seq<nat>): (r: string)
    requires forall i :: 0 <= i < |bytes| ==> bytes[i] < 256
    ensures |r| == 4 * |bytes| && '\n' !in r
  {
    if bytes == [] then "" else Octal(bytes[0]) + Octals(bytes[1..])
  }

  /** `full` is the value of core.quotePath, which is on by default. */
  predicate Unusual(full: bool, c: char) {
    c as int < 0x20 || c as int == 0x7F || c == '"' || c == '\\' || (full && c as int >= 0x80)
  }

  function Escape(full: bool, c: char): (r: string)
    ensures |r| >= 1 && '\n' !in r
    ensures r == [c] <==> !Unusual(full, c)
  {
    if !Unusual(full, c) then [c]
    else if c == '"' || c == '\\' then ['\\', c]
    else if 7 <= c as int <= 13 then ['\\', "abtnvfr"[c as int - 7]]
    else Octals(Utf8(c))
  }

  function Escapes(full: bool, path: string): (r: string)
    ensures |r| >= |path| && '\n' !in r
  {
    if path == "" then "" else Escape(full, path[0]) + Escapes(full, path[1..])
  }

  predicate NeedsQuoting(full: bool, path: string) { exists i :: 0 <= i < |path| && Unusual(full, path[i]) }

  function PrintPath(full: bool, path: string): string {
    if NeedsQuoting(full, path) then "\"" + Escapes(full, path) + "\"" else path
  }

  /** A printed path is a single line, and is the path itself iff that needs no quoting. */
  lemma PrintedPath(full: bool, path: string)
    ensures '\n' !in PrintPath(full, path) && |PrintPath(full, path)| >= |path|
    ensures PrintPath(full, path) == path <==> !NeedsQuoting(full, path)
  {
    assert Unusual(full, '\n');
  }

  /** Two names that git quotes: the second one only by default. */
  lemma QuotedNames()
    ensures PrintPath(true, "a\"b") == PrintPath(false, "a\"b") == "\"a\\\"b\""
    ensures PrintPath(true, "\U{E9}") == "\"\\303\\251\"" && PrintPath(false, "\U{E9}") == "\U{E9}"
  {
    QuotedQuote(true);
    QuotedQuote(false);
    QuotedLetter();
  }

  lemma QuotedQuote(full: bool)
    ensures NeedsQuoting(full, "a\"b") && PrintPath(full, "a\"b") == "\"a\\\"b\""
  {
    var path := "a\"b";
    assert Unusual(full, path[1]);
    var tail := path[1..];
    assert tail == ['"', 'b'] && tail[1..] == ['b'] && ['b'][1..] == [];
    assert Escapes(full, ['b']) == "b";
    assert Escapes(full, tail) == "\\\"" + "b";
  }

  lemma QuotedLetter()
    ensures NeedsQuoting(true, "\U{E9}") && PrintPath(true, "\U{E9}") == "\"\\303\\251\""
    ensures PrintPath(false, "\U{E9}") == "\U{E9}"
  {
    var path := "\U{E9}";
    assert Unusual(true, path[0]);
    assert Utf8(path[0]) == [0xC3, 0xA9];
    var bytes: seq<nat> := [0xC3, 0xA9];
    assert bytes[1..] == [0xA9] && bytes[1..][1..] == [];
    assert Octals(bytes[1..]) == "\\251";
    assert Octals(bytes) == "\\303" + "\\251";
    assert path[1..] == "";
    assert Escapes(true, path) == "\\303\\251";
  }
}
