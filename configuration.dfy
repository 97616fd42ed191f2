/** baka's configuration (class `Config` of baka.py): built-in defaults that a
    loaded JSON object may override attribute by attribute. */
module Configuration {
  import opened Wrappers
  import opened Json
  import Paths

  /** The attributes a fresh `Config` sets, the ones the loading loop can
      override (`hasattr` is also true for the attributes every Python object
      has, such as `__class__` and `__dict__`; those are not modelled). */
  const AttributeNames: set<string> :=
    {"cmd_install", "cmd_remove", "cmd_upgrade", "email", "jobs",
     "status_checks", "system_integrity", "tracked_paths"}

  function Strs(xs: seq<string>): Json {
    JArr(seq(|xs|, i requires 0 <= i < |xs| => JStr(xs[i])))
  }

  function ExampleJob(): Json {
    JObj([
      ("commands", JArr([Strs(["echo", "hello world"]), Strs(["echo", "task completed"])])),
      ("email", JObj([("to", JStr("email@domain.com" + " or null")), ("subject", JStr("example subject"))])),
      ("interactive", JBool(false)),
      ("verbosity", JStr("one of: debug " + "(default if null), " + "info, error, silent")),
      ("write", JStr("./jobs/example job " + "%Y-%m-%d %H:%M.log " + "(supports strftime " + "format codes) or null"))
    ])
  }

  /** The default attributes, for the home directory `home`. */
  function Defaults(home: string): (d: map<string, Json>)
    ensures d.Keys == AttributeNames
  {
    map[
      "cmd_install" := Strs(["sudo", "apt", "install"]),
      "cmd_remove" := Strs(["sudo", "apt", "autoremove", "--purge"]),
      "cmd_upgrade" := Strs(["bash", "-c", "sudo apt update && " + "sudo apt upgrade"]),
      "email" := JObj([
        ("cc", JNull),
        ("from", JStr("myemail@domain.com")),
        ("smtp_server", JStr("smtp.domain.com")),
        ("smtp_port", JInt(587)),
        ("smtp_username", JStr("username")),
        ("smtp_password", JStr("password"))
      ]),
      "jobs" := JObj([("example_job_name", ExampleJob())]),
      "status_checks" := JObj([
        ("ip_rules_v4", JStr("sudo cat " + "/etc/iptables/rules.v4")),
        ("ip_rules_v6", JStr("sudo cat " + "/etc/iptables/rules.v6")),
        ("SMART-sda", JStr("sudo smartctl " + "-a /dev/sda")),
        ("SMART-sdb", JStr("sudo smartctl " + "-a /dev/sdb"))
      ]),
      "system_integrity" := JObj([("debsums", JStr("sudo debsums -ac"))]),
      "tracked_paths" := Strs(["/etc", Paths.ExpandUser(home, "/.config"), Paths.ExpandUser(home, "/.local/share")])
    ]
  }

  /** One pass of the loading loop: a non-null value for an existing attribute
      replaces it whole; anything else is ignored. */
  function Override(attrs: map<string, Json>, entry: (string, Json)): (r: map<string, Json>)
    ensures r.Keys == attrs.Keys
    ensures entry.1 != JNull && entry.0 in attrs ==> r == attrs[entry.0 := entry.1]
    ensures entry.1 == JNull || entry.0 !in attrs ==> r == attrs
  {
    if entry.1 != JNull && entry.0 in attrs then attrs[entry.0 := entry.1] else attrs
  }

  /** The attributes after the loop has gone over `loaded` in order. */
  function Apply(attrs: map<string, Json>, loaded: seq<(string, Json)>): map<string, Json>
    decreases |loaded|
  {
    if loaded == [] then attrs
    else Override(Apply(attrs, loaded[..|loaded| - 1]), loaded[|loaded| - 1])
  }

  /** The last non-null value `loaded` gives for `key`, if any. */
  function LastValue(loaded: seq<(string, Json)>, key: string): (r: Option<Json>)
    ensures r.Some? ==> r.value != JNull && (key, r.value) in loaded
    ensures r.None? ==> forall i :: 0 <= i < |loaded| && loaded[i].0 == key ==> loaded[i].1 == JNull
    decreases |loaded|
  {
    if loaded == [] then None
    else if loaded[|loaded| - 1].0 == key && loaded[|loaded| - 1].1 != JNull then Some(loaded[|loaded| - 1].1)
    else LastValue(loaded[..|loaded| - 1], key)
  }

  /** Loading never adds or removes an attribute. */
  lemma {:induction false} ApplyKeys(attrs: map<string, Json>, loaded: seq<(string, Json)>)
    ensures Apply(attrs, loaded).Keys == attrs.Keys
    decreases |loaded|
  {
    if loaded != [] {
      ApplyKeys(attrs, loaded[..|loaded| - 1]);
    }
  }

  /** Each attribute ends up with the last non-null value loaded for it,
      taken whole, or keeps its default. */
  lemma {:induction false} ApplyValue(attrs: map<string, Json>, loaded: seq<(string, Json)>, key: string)
    requires key in attrs
    ensures key in Apply(attrs, loaded)
    ensures Apply(attrs, loaded)[key] == match LastValue(loaded, key) case Some(v) => v case None => attrs[key]
    decreases |loaded|
  {
    if loaded != [] {
      ApplyKeys(attrs, loaded[..|loaded| - 1]);
      ApplyValue(attrs, loaded[..|loaded| - 1], key);
    }
  }

  /** Loading the same object a second time changes nothing. */
  lemma ApplyIdempotent(attrs: map<string, Json>, loaded: seq<(string, Json)>)
    ensures Apply(Apply(attrs, loaded), loaded) == Apply(attrs, loaded)
  {
    var once := Apply(attrs, loaded);
    ApplyKeys(attrs, loaded);
    ApplyKeys(once, loaded);
    forall key | key in attrs
      ensures Apply(once, loaded)[key] == once[key]
    {
      ApplyValue(attrs, loaded, key);
      ApplyValue(once, loaded, key);
    }
  }

  /** Entries that are null or name no attribute leave every attribute as it was. */
  lemma {:induction false} ApplyIgnored(attrs: map<string, Json>, loaded: seq<(string, Json)>)
    requires forall i :: 0 <= i < |loaded| ==> loaded[i].1 == JNull || loaded[i].0 !in attrs
    ensures Apply(attrs, loaded) == attrs
    decreases |loaded|
  {
    if loaded != [] {
      ApplyIgnored(attrs, loaded[..|loaded| - 1]);
    }
  }

  /** The configuration object. `attrs` stands for the instance's attribute
      dictionary, `vars(self)`. */
  class Config {
    var attrs: map<string, Json>

    /** `Config()` given the home directory and the members of the loaded
        configuration file (empty when there is none). */
    constructor (home: string, loaded: seq<(string, Json)>)
      ensures attrs == Apply(Defaults(home), loaded)
      ensures attrs.Keys == AttributeNames
    {
      attrs := Defaults(home);
      new;
      var i := 0;
      while i < |loaded|
        invariant 0 <= i <= |loaded|
        invariant attrs == Apply(Defaults(home), loaded[..i])
      {
        var (key, value) := loaded[i];
        if value != JNull && key in attrs {
          attrs := attrs[key := value];
        }
        assert loaded[..i + 1][..i] == loaded[..i];
        i := i + 1;
      }
      assert loaded[..i] == loaded;
      ApplyKeys(Defaults(home), loaded);
    }
  }

  /** The attributes with the shapes the rest of baka.py uses them in. */
  datatype Settings = Settings(
    cmdInstall: seq<string>,
    cmdRemove: seq<string>,
    cmdUpgrade: seq<string>,
    jobs: seq<(string, Json)>,
    statusChecks: seq<(string, string)>,
    systemIntegrity: seq<(string, string)>,
    trackedPaths: seq<string>)

  /** `attrs[key]` as a list of strings, when `key` is one of the attributes
      `used`; an attribute not used stands as empty and cannot fail. */
  function StringsAttr(attrs: map<string, Json>, used: set<string>, key: string): Option<seq<string>> {
    if key !in used then Some([])
    else if key in attrs then AsStrings(attrs[key])
    else None
  }

  /** `attrs[key]` as a dict of strings, when `key` is used. */
  function StringMapAttr(attrs: map<string, Json>, used: set<string>, key: string): Option<seq<(string, string)>> {
    if key !in used then Some([])
    else if key in attrs then AsStringMap(attrs[key])
    else None
  }

  /** `attrs[key]` as a dict, when `key` is used. */
  function ObjectAttr(attrs: map<string, Json>, used: set<string>, key: string): Option<seq<(string, Json)>> {
    if key !in used then Some([])
    else if key in attrs && attrs[key].JObj? then Some(attrs[key].members)
    else None
  }

  /** The seven attributes `Settings` holds (all but "email"). */
  predicate IsSetting(key: string) {
    key == "cmd_install" || key == "cmd_remove" || key == "cmd_upgrade" || key == "jobs"
    || key == "status_checks" || key == "system_integrity" || key == "tracked_paths"
  }

  /** The shape the program uses attribute `key` in: a dict for the jobs, a
      dict of strings for the two check dictionaries, and a list of strings
      for the package commands and the tracked paths. */
  predicate Shaped(key: string, v: Json) {
    if key == "jobs" then v.JObj?
    else if key == "status_checks" || key == "system_integrity" then
      v.JObj? && forall i :: 0 <= i < |v.members| ==> v.members[i].1.JStr?
    else v.JArr? && forall i :: 0 <= i < |v.items| ==> v.items[i].JStr?
  }

  /** Attribute `key` is used, and it is missing or of another shape. */
  predicate IllShaped(attrs: map<string, Json>, used: set<string>, key: string) {
    key in used && IsSetting(key) && (key !in attrs || !Shaped(key, attrs[key]))
  }

  /** A dict of strings as a loaded value. */
  function StrMap(ps: seq<(string, string)>): Json {
    JObj(seq(|ps|, i requires 0 <= i < |ps| => (ps[i].0, JStr(ps[i].1))))
  }

  lemma StringsAttrShape(attrs: map<string, Json>, used: set<string>, key: string)
    requires key == "cmd_install" || key == "cmd_remove" || key == "cmd_upgrade" || key == "tracked_paths"
    ensures StringsAttr(attrs, used, key).None? <==> IllShaped(attrs, used, key)
    ensures StringsAttr(attrs, used, key).Some? ==>
      if key in used then key in attrs && attrs[key] == Strs(StringsAttr(attrs, used, key).value)
      else StringsAttr(attrs, used, key).value == []
  {
    if key in used && key in attrs && AsStrings(attrs[key]).Some? {
      var items := attrs[key].items;
      assert items == Strs(AsStrings(attrs[key]).value).items;
    }
  }

  lemma StringMapAttrShape(attrs: map<string, Json>, used: set<string>, key: string)
    requires key == "status_checks" || key == "system_integrity"
    ensures StringMapAttr(attrs, used, key).None? <==> IllShaped(attrs, used, key)
    ensures StringMapAttr(attrs, used, key).Some? ==>
      if key in used then key in attrs && attrs[key] == StrMap(StringMapAttr(attrs, used, key).value)
      else StringMapAttr(attrs, used, key).value == []
  {
    if key in used && key in attrs && AsStringMap(attrs[key]).Some? {
      var members := attrs[key].members;
      assert members == StrMap(AsStringMap(attrs[key]).value).members;
    }
  }

  lemma ObjectAttrShape(attrs: map<string, Json>, used: set<string>)
    ensures ObjectAttr(attrs, used, "jobs").None? <==> IllShaped(attrs, used, "jobs")
    ensures ObjectAttr(attrs, used, "jobs").Some? ==>
      if "jobs" in used then "jobs" in attrs && attrs["jobs"] == JObj(ObjectAttr(attrs, used, "jobs").value)
      else ObjectAttr(attrs, used, "jobs").value == []
  {
  }

  /** The attributes named in `used` read as `Settings`; None when one of
      them is missing or has a shape other than the default's. The
      attributes not used stay empty. */
  function Decode(attrs: map<string, Json>, used: set<string>): (r: Option<Settings>)
    ensures r.Some? ==> if "cmd_install" in used then "cmd_install" in attrs && attrs["cmd_install"] == Strs(r.value.cmdInstall)
                        else r.value.cmdInstall == []
    ensures r.Some? ==> if "cmd_remove" in used then "cmd_remove" in attrs && attrs["cmd_remove"] == Strs(r.value.cmdRemove)
                        else r.value.cmdRemove == []
    ensures r.Some? ==> if "cmd_upgrade" in used then "cmd_upgrade" in attrs && attrs["cmd_upgrade"] == Strs(r.value.cmdUpgrade)
                        else r.value.cmdUpgrade == []
    ensures r.Some? ==> if "jobs" in used then "jobs" in attrs && attrs["jobs"] == JObj(r.value.jobs)
                        else r.value.jobs == []
    ensures r.Some? ==> if "status_checks" in used then "status_checks" in attrs && attrs["status_checks"] == StrMap(r.value.statusChecks)
                        else r.value.statusChecks == []
    ensures r.Some? ==> if "system_integrity" in used then "system_integrity" in attrs && attrs["system_integrity"] == StrMap(r.value.systemIntegrity)
                        else r.value.systemIntegrity == []
    ensures r.Some? ==> if "tracked_paths" in used then "tracked_paths" in attrs && attrs["tracked_paths"] == Strs(r.value.trackedPaths)
                        else r.value.trackedPaths == []
    ensures r.None? <==> exists key :: IllShaped(attrs, used, key)
  {
    StringsAttrShape(attrs, used, "cmd_install");
    StringsAttrShape(attrs, used, "cmd_remove");
    StringsAttrShape(attrs, used, "cmd_upgrade");
    ObjectAttrShape(attrs, used);
    StringMapAttrShape(attrs, used, "status_checks");
    StringMapAttrShape(attrs, used, "system_integrity");
    StringsAttrShape(attrs, used, "tracked_paths");
    match (StringsAttr(attrs, used, "cmd_install"), StringsAttr(attrs, used, "cmd_remove"),
           StringsAttr(attrs, used, "cmd_upgrade"), ObjectAttr(attrs, used, "jobs"),
           StringMapAttr(attrs, used, "status_checks"), StringMapAttr(attrs, used, "system_integrity"),
           StringsAttr(attrs, used, "tracked_paths"))
    case (Some(ci), Some(cr), Some(cu), Some(jobs), Some(sc), Some(si), Some(tp)) =>
      Some(Settings(ci, cr, cu, jobs, sc, si, tp))
    case _ => None
  }

  /** The two dictionaries hold the same values for the attributes in `used`. */
  predicate AgreeOn(a1: map<string, Json>, a2: map<string, Json>, used: set<string>) {
    forall key :: key in used ==> (key in a1 <==> key in a2) && (key in a1 ==> a1[key] == a2[key])
  }

  /** What is decoded depends on the attributes used and on nothing else. */
  lemma DecodeReadsOnly(a1: map<string, Json>, a2: map<string, Json>, used: set<string>)
    requires AgreeOn(a1, a2, used)
    ensures Decode(a1, used) == Decode(a2, used)
  {
    assert StringsAttr(a1, used, "cmd_install") == StringsAttr(a2, used, "cmd_install");
    assert StringsAttr(a1, used, "cmd_remove") == StringsAttr(a2, used, "cmd_remove");
    assert StringsAttr(a1, used, "cmd_upgrade") == StringsAttr(a2, used, "cmd_upgrade");
    assert ObjectAttr(a1, used, "jobs") == ObjectAttr(a2, used, "jobs");
    assert StringMapAttr(a1, used, "status_checks") == StringMapAttr(a2, used, "status_checks");
    assert StringMapAttr(a1, used, "system_integrity") == StringMapAttr(a2, used, "system_integrity");
    assert StringsAttr(a1, used, "tracked_paths") == StringsAttr(a2, used, "tracked_paths");
  }

  /** The defaults have the expected shapes. */
  lemma DefaultsDecode(home: string, used: set<string>)
    ensures Decode(Defaults(home), used).Some?
    ensures "tracked_paths" in used ==>
      Decode(Defaults(home), used).value.trackedPaths ==
        ["/etc", Paths.ExpandUser(home, "/.config"), Paths.ExpandUser(home, "/.local/share")]
  {
    var d := Defaults(home);
    assert Shaped("cmd_install", d["cmd_install"]);
    assert Shaped("cmd_remove", d["cmd_remove"]);
    assert Shaped("cmd_upgrade", d["cmd_upgrade"]);
    assert Shaped("jobs", d["jobs"]);
    assert Shaped("status_checks", d["status_checks"]);
    assert Shaped("system_integrity", d["system_integrity"]);
    assert Shaped("tracked_paths", d["tracked_paths"]);
    assert forall key :: !IllShaped(d, used, key);
    if "tracked_paths" in used {
      var tracked := Decode(d, used).value.trackedPaths;
      StrsRoundTrip(tracked);
      StrsRoundTrip(["/etc", Paths.ExpandUser(home, "/.config"), Paths.ExpandUser(home, "/.local/share")]);
    }
  }

  /** Reading back a list of strings gives the list. */
  lemma StrsRoundTrip(xs: seq<string>)
    ensures AsStrings(Strs(xs)) == Some(xs)
  {
    var items := Strs(xs).items;
    assert seq(|items|, i requires 0 <= i < |items| => items[i].s) == xs;
  }

  /** Reading back a dict of strings gives the dict. */
  lemma StrMapRoundTrip(ps: seq<(string, string)>)
    ensures AsStringMap(StrMap(ps)) == Some(ps)
  {
    var ms := StrMap(ps).members;
    assert seq(|ms|, i requires 0 <= i < |ms| => (ms[i].0, ms[i].1.s)) == ps;
  }
}
