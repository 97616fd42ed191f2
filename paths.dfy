/** Python's `os.path` functions on POSIX paths that baka.py uses to place
    the mirror of every tracked path. */
module Paths {

  predicate AllSlashes(s: string) {
    forall i :: 0 <= i < |s| ==> s[i] == '/'
  }

  /** `p.rfind("/")`: the index of the last slash, or -1. */
  function LastSlash(p: string): (i: int)
    ensures -1 <= i < |p|
    ensures i >= 0 ==> p[i] == '/'
    ensures forall j :: i < j < |p| ==> p[j] != '/'
    decreases |p|
  {
    if p == [] then -1
    else if p[|p| - 1] == '/' then |p| - 1
    else LastSlash(p[..|p| - 1])
  }

  /** `s.rstrip("/")`. */
  function RStripSlashes(s: string): (r: string)
    ensures r <= s
    ensures forall j :: |r| <= j < |s| ==> s[j] == '/'
    ensures r == [] || r[|r| - 1] != '/'
    decreases |s|
  {
    if s != [] && s[|s| - 1] == '/' then RStripSlashes(s[..|s| - 1]) else s
  }

  /** `os.path.dirname(p)`: everything before the last slash, without its
      trailing slashes unless it consists of slashes only. */
  function Dirname(p: string): (d: string)
    ensures d <= p[..LastSlash(p) + 1]
    ensures AllSlashes(p[|d|..LastSlash(p) + 1])
    ensures AllSlashes(p[..LastSlash(p) + 1]) ==> d == p[..LastSlash(p) + 1]
    ensures !AllSlashes(p[..LastSlash(p) + 1]) ==> d != [] && d[|d| - 1] != '/'
  {
    var head := p[..LastSlash(p) + 1];
    if head != [] && !AllSlashes(head) then RStripSlashes(head) else head
  }

  /** `os.path.basename(p)`: everything after the last slash. */
  function Basename(p: string): string {
    p[LastSlash(p) + 1..]
  }

  /** `os.path.expanduser("~" + rest)` for the home directory `home`. */
  function ExpandUser(home: string, rest: string): string {
    var r := RStripSlashes(home) + rest;
    if r == [] then "/" else r
  }

  /** A path splits into its directory, a run of slashes and its base name. */
  lemma DirnameSplit(p: string)
    ensures |Dirname(p)| + |Basename(p)| <= |p|
    ensures p == Dirname(p) + p[|Dirname(p)|..|p| - |Basename(p)|] + Basename(p)
    ensures AllSlashes(p[|Dirname(p)|..|p| - |Basename(p)|])
  {
    var k := LastSlash(p);
    var d := Dirname(p);
    DirnameHead(p);
    assert |p| - |Basename(p)| == k + 1;
    SplitThree(p, |d|, k + 1);
  }

  /** The dirname is a prefix of the path that ends at or before the last slash. */
  lemma DirnameHead(p: string)
    ensures |Dirname(p)| <= LastSlash(p) + 1
    ensures Dirname(p) == p[..|Dirname(p)|]
    ensures AllSlashes(p[|Dirname(p)|..LastSlash(p) + 1])
  {
    var k := LastSlash(p);
    var d := Dirname(p);
    assert d <= p[..k + 1];
    assert p[..k + 1][..|d|] == p[..|d|];
  }

  lemma SplitThree(s: string, i: nat, j: nat)
    requires i <= j <= |s|
    ensures s == s[..i] + s[i..j] + s[j..]
  {
  }

  /** The base name holds no slash, and a slash comes right before it when
      the path has one: the run between directory and base name is not empty. */
  lemma BasenameAfterSlash(p: string)
    ensures forall i :: 0 <= i < |Basename(p)| ==> Basename(p)[i] != '/'
    ensures '/' in p ==> |Basename(p)| < |p| && p[|p| - |Basename(p)| - 1] == '/'
  {
    var k := LastSlash(p);
    assert |p| - |Basename(p)| == k + 1;
    if '/' in p {
      var j :| 0 <= j < |p| && p[j] == '/';
      assert k >= j;
    }
  }

  /** For a base without a trailing slash, `dirname(base + p)` of an absolute
      path `p` is a prefix of `base + p` that starts with `base`. */
  lemma DirnameBelowBase(base: string, p: string)
    requires base == [] || base[|base| - 1] != '/'
    requires p != [] && p[0] == '/'
    ensures base <= Dirname(base + p) <= base + p
  {
    var s := base + p;
    var k := LastSlash(s);
    assert s[|base|] == '/';
    assert k >= |base|;
    var head := s[..k + 1];
    assert base <= head;
    if head != [] && !AllSlashes(head) {
      var r := RStripSlashes(head);
      if base != [] {
        assert head[|base| - 1] == base[|base| - 1];
      }
    } else if base != [] {
      assert head[|base| - 1] == base[|base| - 1];
    }
  }

  /** The base name does not move when a base is put in front of a path with a slash. */
  lemma BasenameUnderBase(base: string, p: string)
    requires '/' in p
    ensures Basename(base + p) == Basename(p)
  {
    var j :| 0 <= j < |p| && p[j] == '/';
    var s := base + p;
    assert s[|base| + j] == '/';
    var k := LastSlash(s);
    var kp := LastSlash(p);
    assert kp >= j;
    assert s[|base| + kp] == '/';
    assert k >= |base| + kp;
    assert s[k] == p[k - |base|];
  }

  /** `expanduser` never leaves a trailing slash after the home directory part. */
  lemma ExpandUserNoTrailingSlash(home: string, rest: string)
    requires rest != [] && rest[|rest| - 1] != '/'
    ensures ExpandUser(home, rest)[|ExpandUser(home, rest)| - 1] != '/'
    ensures RStripSlashes(home) <= ExpandUser(home, rest)
  {
  }
}
