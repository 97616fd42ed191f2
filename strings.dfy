/** The operations on Python `str` values that baka.py relies on,
    written out on `seq<char>`. */
module Strings {

  predicate StartsWith(s: string, prefix: string) {
    prefix <= s
  }

  /** Python's `part in s`. */
  predicate Contains(s: string, part: string)
    decreases |s|
  {
    part <= s || (s != [] && Contains(s[1..], part))
  }

  /** Python's `sep.join(xs)`. */
  function Join(sep: string, xs: seq<string>): string
    decreases |xs|
  {
    if xs == [] then ""
    else if |xs| == 1 then xs[0]
    else xs[0] + sep + Join(sep, xs[1..])
  }

  /** The characters `str.strip()` removes: those for which `str.isspace()` holds. */
  predicate IsSpace(c: char) {
    c in {'\t', '\n', '\U{0B}', '\U{0C}', '\r', '\U{1C}', '\U{1D}', '\U{1E}', '\U{1F}', ' ',
          '\U{85}', '\U{A0}', '\U{1680}', '\U{2028}', '\U{2029}', '\U{202F}', '\U{205F}', '\U{3000}'}
    || ('\U{2000}' <= c <= '\U{200A}')
  }

  function StripLeft(s: string): (r: string)
    ensures |r| <= |s| && r == s[|s| - |r|..]
    ensures forall i :: 0 <= i < |s| - |r| ==> IsSpace(s[i])
    ensures r == [] || !IsSpace(r[0])
    decreases |s|
  {
    if s != [] && IsSpace(s[0]) then StripLeft(s[1..]) else s
  }

  function StripRight(s: string): (r: string)
    ensures r <= s
    ensures forall i :: |r| <= i < |s| ==> IsSpace(s[i])
    ensures r == [] || !IsSpace(r[|r| - 1])
    decreases |s|
  {
    if s != [] && IsSpace(s[|s| - 1]) then StripRight(s[..|s| - 1]) else s
  }

  /** Python's `s.strip()`: a slice of `s` with the surrounding white space removed. */
  function Strip(s: string): (r: string)
    ensures r == [] || (!IsSpace(r[0]) && !IsSpace(r[|r| - 1]))
    ensures |r| <= |s|
  {
    StripRight(StripLeft(s))
  }

  function LowerChar(c: char): char {
    if 'A' <= c <= 'Z' then (c as int + 32) as char else c
  }

  /** Python's `s.lower()`, restricted to ASCII letters. */
  function Lower(s: string): (r: string)
    ensures |r| == |s| && forall i :: 0 <= i < |s| ==> r[i] == LowerChar(s[i])
  {
    seq(|s|, i requires 0 <= i < |s| => LowerChar(s[i]))
  }

  /** The line boundaries of `str.splitlines()`. */
  predicate IsLineBreak(c: char) {
    || c == '\n' || c == '\r' || c == '\U{0B}' || c == '\U{0C}' || c == '\U{1C}'
    || c == '\U{1D}' || c == '\U{1E}' || c == '\U{85}' || c == '\U{2028}' || c == '\U{2029}'
  }

  /** The index of the first line boundary of `s`, or `|s|` when there is none. */
  function FirstBreak(s: string): (k: nat)
    ensures k <= |s|
    ensures k < |s| ==> IsLineBreak(s[k])
    ensures forall i {:trigger IsLineBreak(s[i])} :: 0 <= i < k ==> !IsLineBreak(s[i])
    decreases |s|
  {
    if s == [] || IsLineBreak(s[0]) then 0 else 1 + FirstBreak(s[1..])
  }

  /** The length of the line boundary at `k`: "\r\n" counts as one boundary. */
  function BreakLength(s: string, k: nat): (n: nat)
    requires k < |s|
    ensures n == 1 || (n == 2 && s[k] == '\r')
    ensures k + n <= |s|
  {
    if s[k] == '\r' && k + 1 < |s| && s[k + 1] == '\n' then 2 else 1
  }

  /** Python's `s.splitlines()`: "\r\n" is one boundary, a final boundary
      does not start an empty last line. */
  function SplitLines(s: string): seq<string>
    decreases |s|
  {
    if s == [] then []
    else
      var k := FirstBreak(s);
      if k == |s| then [s]
      else
        [s[..k]] + SplitLines(s[k + BreakLength(s, k)..])
  }

  /** No line holds a line boundary. */
  lemma {:induction false} SplitLinesNoBreaks(s: string)
    ensures forall l :: l in SplitLines(s) ==> forall i :: 0 <= i < |l| ==> !IsLineBreak(l[i])
    decreases |s|
  {
    if s != [] && FirstBreak(s) < |s| {
      var k := FirstBreak(s);
      var next := k + BreakLength(s, k);
      SplitLinesNoBreaks(s[next..]);
      assert SplitLines(s) == [s[..k]] + SplitLines(s[next..]);
    }
  }

  /** For text whose only line boundary is "\n", joining the lines with "\n"
      gives the text back, except for one final "\n", which ends the last
      line instead of starting an empty one. */
  lemma {:induction false} SplitLinesJoin(s: string)
    requires forall i :: 0 <= i < |s| && IsLineBreak(s[i]) ==> s[i] == '\n'
    ensures Join("\n", SplitLines(s)) + FinalNewline(s) == s
    decreases |s|
  {
    if s != [] {
      var k := FirstBreak(s);
      if k == |s| {
        LastLineJoin(s);
      } else {
        assert s[k] == '\n';
        var rest := s[k + 1..];
        assert forall i :: 0 <= i < |rest| ==> rest[i] == s[k + 1 + i];
        SplitLinesJoin(rest);
        NewlineJoin(s, k);
      }
    }
  }

  /** The "\n" that ends `s`, if it ends in one. */
  function FinalNewline(s: string): string {
    if s != [] && s[|s| - 1] == '\n' then "\n" else ""
  }

  /** Text without a line boundary is one line. */
  lemma LastLineJoin(s: string)
    requires s != [] && FirstBreak(s) == |s|
    ensures Join("\n", SplitLines(s)) + FinalNewline(s) == s
  {
    assert SplitLines(s) == [s];
    assert !IsLineBreak(s[|s| - 1]);
  }

  /** The step of `SplitLinesJoin` at a first boundary "\n". */
  lemma NewlineJoin(s: string, k: nat)
    requires k == FirstBreak(s) && k < |s| && s[k] == '\n'
    requires Join("\n", SplitLines(s[k + 1..])) + FinalNewline(s[k + 1..]) == s[k + 1..]
    ensures Join("\n", SplitLines(s)) + FinalNewline(s) == s
  {
    SplitLinesAtNewline(s, k);
    SplitAround(s, k);
    if k + 1 == |s| {
      EndingNewlineJoin(s, k);
    } else {
      InnerNewlineJoin(s, k);
    }
  }

  lemma EndingNewlineJoin(s: string, k: nat)
    requires k + 1 == |s| && s[k] == '\n'
    requires SplitLines(s) == [s[..k]] + SplitLines(s[k + 1..])
    requires s == s[..k] + [s[k]] + s[k + 1..]
    ensures Join("\n", SplitLines(s)) + FinalNewline(s) == s
  {
    assert s[k + 1..] == [];
    assert SplitLines(s) == [s[..k]];
  }

  lemma InnerNewlineJoin(s: string, k: nat)
    requires k + 1 < |s| && s[k] == '\n'
    requires SplitLines(s) == [s[..k]] + SplitLines(s[k + 1..])
    requires s == s[..k] + [s[k]] + s[k + 1..]
    requires Join("\n", SplitLines(s[k + 1..])) + FinalNewline(s[k + 1..]) == s[k + 1..]
    ensures Join("\n", SplitLines(s)) + FinalNewline(s) == s
  {
    var rest := s[k + 1..];
    assert FinalNewline(s) == FinalNewline(rest);
    SplitLinesNonEmpty(rest);
    JoinCons("\n", s[..k], SplitLines(rest));
    ConcatAssoc(s[..k] + "\n", Join("\n", SplitLines(rest)), FinalNewline(s));
  }

  /** A "\n" ends the first line. */
  lemma SplitLinesAtNewline(s: string, k: nat)
    requires s != [] && k == FirstBreak(s) && k < |s| && s[k] == '\n'
    ensures SplitLines(s) == [s[..k]] + SplitLines(s[k + 1..])
  {
    SplitLinesStep(s, k);
    NewlineBreakLength(s, k);
    var rest := s[k + BreakLength(s, k)..];
    assert rest == s[k + 1..];
  }

  lemma NewlineBreakLength(s: string, k: nat)
    requires k < |s| && s[k] == '\n'
    ensures BreakLength(s, k) == 1
  {
  }

  /** One unfolding of `SplitLines` at its first boundary. */
  lemma SplitLinesStep(s: string, k: nat)
    requires s != [] && k == FirstBreak(s) && k < |s|
    ensures SplitLines(s) == [s[..k]] + SplitLines(s[k + BreakLength(s, k)..])
  {
  }

  lemma SplitLinesNonEmpty(s: string)
    requires s != []
    ensures SplitLines(s) != []
  {
  }

  lemma SplitAround(s: string, k: nat)
    requires k < |s|
    ensures s == s[..k] + [s[k]] + s[k + 1..]
  {
  }

  lemma ConcatAssoc(a: string, b: string, c: string)
    ensures (a + b) + c == a + (b + c)
  {
  }

  lemma JoinCons(sep: string, x: string, xs: seq<string>)
    requires xs != []
    ensures Join(sep, [x] + xs) == x + sep + Join(sep, xs)
  {
    assert ([x] + xs)[1..] == xs;
  }

  function DigitChar(d: nat): char
    requires d < 10
  {
    "0123456789"[d]
  }

  /** Python's `str(n)` (also `%s`) for a natural number. */
  function NatToString(n: nat): (r: string)
    ensures r != []
    decreases n
  {
    if n < 10 then [DigitChar(n)] else NatToString(n / 10) + [DigitChar(n % 10)]
  }

  function EscapeChar(c: char, quote: char): string {
    if c == '\\' then "\\\\"
    else if c == quote then ['\\', quote]
    else if c == '\n' then "\\n"
    else if c == '\r' then "\\r"
    else if c == '\t' then "\\t"
    else [c]
  }

  function Escape(s: string, quote: char): string
    decreases |s|
  {
    if s == [] then "" else EscapeChar(s[0], quote) + Escape(s[1..], quote)
  }

  /** Python's `repr(s)` for a string: single quotes unless the text holds a
      single quote and no double quote. */
  function Repr(s: string): string {
    var quote := if '\'' in s && '"' !in s then '"' else '\'';
    [quote] + Escape(s, quote) + [quote]
  }

  /** Python's `str(xs)` for a list of strings. */
  function ListToString(xs: seq<string>): string {
    "[" + Join(", ", seq(|xs|, i requires 0 <= i < |xs| => Repr(xs[i]))) + "]"
  }
}
