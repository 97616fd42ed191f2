/** Python's `shlex.quote` and `shlex.join`, which baka.py uses to show a
    command as one line of shell text. */
module Shlex {
  import Strings

  /** Characters `shlex.quote` leaves unquoted: ASCII word characters and `@%+=:,./-`. */
  predicate SafeChar(c: char) {
    ('a' <= c <= 'z') || ('A' <= c <= 'Z') || ('0' <= c <= '9') || c in {'_', '@', '%', '+', '=', ':', ',', '.', '/', '-'}
  }

  /** No character of `s` needs quoting. */
  predicate AllSafe(s: string)
    decreases |s|
  {
    s == [] || (SafeChar(s[0]) && AllSafe(s[1..]))
  }

  /** Each single quote becomes `'"'"'` (close, quoted quote, reopen). */
  function EscapeQuotes(s: string): string
    decreases |s|
  {
    if s == [] then ""
    else (if s[0] == '\'' then "'\"'\"'" else [s[0]]) + EscapeQuotes(s[1..])
  }

  function Quote(s: string): (r: string)
    ensures r != []
  {
    if s == [] then "''"
    else if AllSafe(s) then s
    else "'" + EscapeQuotes(s) + "'"
  }

  /** `shlex.join(cmd)`: the quoted words separated by single spaces. */
  function Join(cmd: seq<string>): string
    decreases |cmd|
  {
    if cmd == [] then ""
    else if |cmd| == 1 then Quote(cmd[0])
    else Quote(cmd[0]) + " " + Join(cmd[1..])
  }

  /** Every word of `cmd`, quoted. */
  function QuoteAll(cmd: seq<string>): (r: seq<string>)
    ensures |r| == |cmd| && forall i :: 0 <= i < |cmd| ==> r[i] == Quote(cmd[i])
  {
    seq(|cmd|, i requires 0 <= i < |cmd| => Quote(cmd[i]))
  }

  /** `shlex.join` is `" ".join` of the quoted words. */
  lemma {:induction false} JoinQuoted(cmd: seq<string>)
    ensures Join(cmd) == Strings.Join(" ", QuoteAll(cmd))
    decreases |cmd|
  {
    if |cmd| >= 2 {
      JoinQuoted(cmd[1..]);
      assert QuoteAll(cmd)[1..] == QuoteAll(cmd[1..]);
    }
  }

  lemma {:induction false} AllSafeChars(s: string)
    ensures AllSafe(s) <==> forall i :: 0 <= i < |s| ==> SafeChar(s[i])
    decreases |s|
  {
    if s != [] {
      AllSafeChars(s[1..]);
      assert forall i :: 1 <= i < |s| ==> s[i] == s[1..][i - 1];
    }
  }

  /** `shlex.quote` leaves a word as it is exactly when it is not empty and
      every character of it is safe; any other word comes back changed. */
  lemma QuoteIdentity(s: string)
    ensures Quote(s) == s <==> s != [] && forall i :: 0 <= i < |s| ==> SafeChar(s[i])
  {
    AllSafeChars(s);
    if s != [] && !AllSafe(s) {
      EscapeQuotesLength(s);
      assert |Quote(s)| == |EscapeQuotes(s)| + 2;
    }
  }

  lemma {:induction false} EscapeQuotesLength(s: string)
    ensures |EscapeQuotes(s)| >= |s|
    decreases |s|
  {
    if s != [] {
      EscapeQuotesLength(s[1..]);
    }
  }
}
