/** The line `main` appends to ~/.baka/history.log: the time, every option
    that was given with its value, and the error message if there was one. */
module History {
  import opened Wrappers
  import opened Strings
  import opened Pipeline

  /** The value of one attribute of the parsed arguments. */
  datatype ArgValue =
    | Flag(on: bool)                    // store_true options
    | Text(text: Option<string>)        // --commit msg, --job name
    | Words(words: Option<seq<string>>) // --install, --remove

  /** `vars(args)`, in the order the options are added to the parser. */
  function ArgItems(a: Args): (items: seq<(string, ArgValue)>)
    ensures |items| == 12 && items[11] == ("dry_run", Flag(a.dryRun))
  {
    [("init", Flag(a.init)), ("commit", Text(a.commit)), ("install", Words(a.install)),
     ("remove", Words(a.remove)), ("upgrade", Flag(a.upgrade)), ("job", Text(a.job)),
     ("status", Flag(a.status)), ("verify", Flag(a.verify)), ("diff", Flag(a.diff)),
     ("log", Flag(a.log)), ("show", Flag(a.show)), ("dry_run", Flag(a.dryRun))]
  }

  /** An attribute is logged when its value is truthy, and "remove" also when
      it is an empty list. */
  predicate Logged(key: string, v: ArgValue) {
    match v
    case Flag(on) => on
    case Text(t) => t.Some? && t.value != ""
    case Words(w) => w.Some? && (w.value != [] || key == "remove")
  }

  /** Python's `str` of an attribute's value. */
  function Str(v: ArgValue): string {
    match v
    case Flag(on) => if on then "True" else "False"
    case Text(t) => if t.Some? then t.value else "None"
    case Words(w) => if w.Some? then ListToString(w.value) else "None"
  }

  function Fragment(item: (string, ArgValue)): string {
    if Logged(item.0, item.1) then " " + item.0 + " " + Str(item.1) else ""
  }

  /** The fragments of the logged attributes, in order. */
  function Fragments(items: seq<(string, ArgValue)>): string
    decreases |items|
  {
    if items == [] then "" else Fragments(items[..|items| - 1]) + Fragment(items[|items| - 1])
  }

  /** Whether `main` writes a history line: not for a dry run and not for the
      three modes that only show something. */
  predicate WritesHistory(a: Args) {
    !(a.dryRun || a.diff || a.log || a.show)
  }

  /** The history line (without its newline), when one is written. */
  function LogEntry(timestamp: string, a: Args, errorMessage: string): (entry: Option<string>)
    ensures entry.Some? <==> WritesHistory(a)
    ensures entry.Some? ==> timestamp <= entry.value
  {
    if !WritesHistory(a) then None
    else Some(timestamp + Fragments(ArgItems(a)) + (if errorMessage != "" then " " + errorMessage else ""))
  }

  lemma FragmentsSnoc(items: seq<(string, ArgValue)>, k: nat)
    requires k < |items|
    ensures Fragments(items[..k + 1]) == Fragments(items[..k]) + Fragment(items[k])
  {
    assert items[..k + 1][..k] == items[..k];
  }

  /** The loop over `vars(args)` that builds the history line, from `line` on. */
  method AppendFragments(line: string, items: seq<(string, ArgValue)>) returns (r: string)
    ensures r == line + Fragments(items)
  {
    r := line;
    for k := 0 to |items|
      invariant r == line + Fragments(items[..k])
    {
      r := AppendFragment(r, items[k]);
      FragmentsSnoc(items, k);
      ConcatAssoc(line, Fragments(items[..k]), Fragment(items[k]));
    }
    assert items[..|items|] == items;
  }

  /** One pass of that loop: a logged attribute adds " key value". */
  method AppendFragment(line: string, item: (string, ArgValue)) returns (r: string)
    ensures r == line + Fragment(item)
  {
    var (key, value) := item;
    r := line;
    if Logged(key, value) {
      r := r + (" " + key + " " + Str(value));
    } else {
      assert Fragment(item) == "";
    }
  }

  /** The history line, built the way `main` builds it. */
  method BuildLogEntry(timestamp: string, a: Args, errorMessage: string) returns (entry: Option<string>)
    ensures entry == LogEntry(timestamp, a, errorMessage)
  {
    if a.dryRun || a.diff || a.log || a.show {
      return None;
    }
    var line := AppendFragments(timestamp, ArgItems(a));
    if errorMessage != "" {
      line := line + (" " + errorMessage);
    } else {
      assert line == line + "";
    }
    entry := Some(line);
  }

  /** The attribute of the option that selected the mode, for the modes
      that write a history line. */
  function Selected(a: Args): Option<(string, ArgValue)> {
    match SelectedMode(a)
    case Init => Some(("init", Flag(true)))
    case Commit(message) => Some(("commit", Text(Some(message))))
    case Install(packages) => Some(("install", Words(Some(packages))))
    case Remove(packages) => Some(("remove", Words(Some(packages))))
    case Upgrade => Some(("upgrade", Flag(true)))
    case Job(name) => Some(("job", Text(Some(name))))
    case Status => Some(("status", Flag(true)))
    case Verify => Some(("verify", Flag(true)))
    case _ => None
  }

  /** With at most one mode option (the parser's guarantee), a history line
      records exactly that option with its value, then the error message:
      "<time> commit msg", "<time> remove []", or just "<time>" when no
      option was given. */
  lemma {:induction false} EntryOfMode(timestamp: string, a: Args, errorMessage: string)
    requires AtMostOneMode(a) && WritesHistory(a)
    ensures LogEntry(timestamp, a, errorMessage) == Some(timestamp
      + (match Selected(a) case Some((key, v)) => " " + key + " " + Str(v) case None => "")
      + (if errorMessage != "" then " " + errorMessage else ""))
  {
    var items := ArgItems(a);
    var j := if a.init then 0 else if a.commit.Some? && a.commit.value != "" then 1
      else if a.install.Some? && a.install.value != [] then 2 else if a.remove.Some? then 3
      else if a.upgrade then 4 else if a.job.Some? && a.job.value != "" then 5
      else if a.status then 6 else if a.verify then 7 else 12;
    forall k | 0 <= k < 12 && k != j
      ensures !Logged(items[k].0, items[k].1)
    {
      assert k in {0, 1, 2, 3, 4, 5, 6, 7, 8, 9, 10, 11};
    }
    if j == 12 {
      FragmentsNone(items);
    } else {
      assert Selected(a) == Some(items[j]);
      FragmentsSingle(items, j);
    }
  }

  lemma {:induction false} FragmentsNone(items: seq<(string, ArgValue)>)
    requires forall k :: 0 <= k < |items| ==> !Logged(items[k].0, items[k].1)
    ensures Fragments(items) == ""
    decreases |items|
  {
    if items != [] {
      FragmentsNone(items[..|items| - 1]);
    }
  }

  lemma {:induction false} FragmentsSingle(items: seq<(string, ArgValue)>, j: nat)
    requires j < |items|
    requires forall k :: 0 <= k < |items| && k != j ==> !Logged(items[k].0, items[k].1)
    ensures Fragments(items) == Fragment(items[j])
    decreases |items|
  {
    var init := items[..|items| - 1];
    if j == |items| - 1 {
      FragmentsNone(init);
    } else {
      FragmentsSingle(init, j);
    }
  }

  /** `--remove` with no package is still logged, as " remove []". */
  lemma RemoveNothingLogged(timestamp: string, a: Args)
    requires AtMostOneMode(a) && WritesHistory(a) && a.remove == Some([])
    ensures LogEntry(timestamp, a, "") == Some(timestamp + " remove []")
  {
    EntryOfMode(timestamp, a, "");
    var none: seq<string> := [];
    assert seq(|none|, i requires 0 <= i < |none| => Repr(none[i])) == [];
    assert Str(Words(Some([]))) == "[]";
    assert Selected(a) == Some(("remove", Words(Some([]))));
    assert timestamp + (" " + "remove" + " " + "[]") + "" == timestamp + " remove []";
  }
}
