/** The command selection of `main`: which list of commands each option
    of the command line stands for. */
module Pipeline {
  import opened Wrappers
  import opened Json
  import Strings
  import Paths
  import opened Sync
  import opened Configuration

  /** The parsed command line (`args`), one field per destination of the parser,
      in the parser's order. An option not given is false or None. */
  datatype Args = Args(
    init: bool,
    commit: Option<string>,
    install: Option<seq<string>>,
    remove: Option<seq<string>>,
    upgrade: bool,
    job: Option<string>,
    status: bool,
    verify: bool,
    diff: bool,
    log: bool,
    show: bool,
    dryRun: bool)

  function Count(b: bool): nat {
    if b then 1 else 0
  }

  /** The parser's mutually exclusive group: at most one mode option is given. */
  predicate AtMostOneMode(a: Args) {
    Count(a.init) + Count(a.commit.Some?) + Count(a.install.Some?) + Count(a.remove.Some?)
      + Count(a.upgrade) + Count(a.job.Some?) + Count(a.status) + Count(a.verify)
      + Count(a.diff) + Count(a.log) + Count(a.show) <= 1
  }

  datatype Mode =
    | Init
    | Commit(message: string)
    | Install(packages: seq<string>)
    | Remove(packages: seq<string>)
    | Upgrade
    | Job(name: string)
    | Status
    | Verify
    | Diff
    | Log
    | Show
    | NoMode

  /** The `if`/`elif` chain of `main`, with Python's truthiness tests. */
  function SelectedMode(a: Args): Mode {
    if a.init then Init
    else if a.commit.Some? && a.commit.value != "" then Commit(a.commit.value)
    else if a.install.Some? && a.install.value != [] then Install(a.install.value)
    else if a.remove.Some? then Remove(a.remove.value)
    else if a.upgrade then Upgrade
    else if a.job.Some? && a.job.value != "" then Job(a.job.value)
    else if a.status then Status
    else if a.verify then Verify
    else if a.diff then Diff
    else if a.log then Log
    else if a.show then Show
    else NoMode
  }

  /** What the selection leaves for the execution loop. */
  datatype Selection =
    | Pipeline(cmds: seq<Cmd>)
    | NoPipeline            // no mode: `cmds` stays unbound
    | Aborted(exc: string)  // an exception escapes `main` before any command runs
    | IllTyped              // a job's commands are not a list of lists of strings

  function GitCommit(message: string): Cmd {
    ["git", "commit", "-m", message]
  }

  /** The .gitignore `--init` writes, one pattern per line. */
  const GitIgnore: string :=
    "history.log\n" + "*~\n" + "*-old\n" + "*.cache\n" + "*.dpkg-bak\n" + "*.dpkg-dist\n" + "*.dpkg-new\n"
    + "*.dpkg-old\n" + "**/fish_history\n" + "**/xonsh-*.json\n"

  /** The `--format` option of `--log`, as short literals joined together, which keeps the verifier's work small. */
  const LogFormat: string :=
    "--format=format:" + "%C(bold blue)%h%C(reset)" + " - " + "%C(bold cyan)%aD%C(reset)" + " "
    + "%C(bold green)(%ar)%C(reset)" + "%C(bold yellow)%d%C(reset)" + "%n"
    + "%C(bold white)%s%C(reset)" + "%C(dim white) - %an" + "%C(reset)"

  /** Install, remove and upgrade: commit, change the packages, commit again. */
  function PackageChange(sync: seq<Cmd>, before: string, change: Cmd, after: string): seq<Cmd> {
    sync + [GitCommit(before), change] + sync + [GitCommit(after)]
  }

  function Keys(pairs: seq<(string, string)>): set<string> {
    set i | 0 <= i < |pairs| :: pairs[i].0
  }

  /** The assertions guarding the status and verify modes: no check is named
      "history" (the log file) or shares a name with a check of the other kind. */
  predicate KeysSafe(checks: seq<(string, string)>, others: seq<(string, string)>) {
    "history" !in Keys(checks) && Keys(checks) !! Keys(others)
  }

  /** The redirections of a status check (its output replaces status/<key>.log)
      and of an integrity check (its output is shown and copied to verify/<key>.log). */
  const StatusRedirect: string := " > status/"
  const VerifyRedirect: string := " | tee verify/"

  /** One `bash -c "<cmd><redirect><key>.log"` per check, in order. */
  function CheckCmds(checks: seq<(string, string)>, redirect: string): (r: seq<Cmd>)
    ensures |r| == |checks|
    ensures forall i :: 0 <= i < |checks| ==>
      r[i] == ["bash", "-c", checks[i].1 + redirect + checks[i].0 + ".log"]
    decreases |checks|
  {
    if checks == [] then []
    else [["bash", "-c", checks[0].1 + redirect + checks[0].0 + ".log"]] + CheckCmds(checks[1..], redirect)
  }

  /** `config.jobs[name]` as a dict, or the exception the lookup raises. */
  function JobEntry(s: Settings, name: string): Result<seq<(string, Json)>, string> {
    match Get(s.jobs, name)
    case None => Err("KeyError")
    case Some(JObj(members)) => Ok(members)
    case Some(_) => Err("TypeError")
  }

  /** The first commands of `--init`: the repository, its identity and its
      .gitignore. */
  function InitSetup(home: string, node: string): seq<Cmd> {
    [
      ["git", "init"],
      ["git", "config", "user.name", "baka admin"],
      ["git", "config", "user.email", "baka@" + node],
      ["bash", "-c", "echo '" + GitIgnore + "' > .gitignore"],
      ["bash", "-c", "read -p " + "'Press enter to open " + ".gitignore with nano'"],
      ["nano", Paths.ExpandUser(home, "/.baka/.gitignore")],
      ["bash", "-c", "read -p " + "'Press enter to add " + "files to repository'"]
    ]
  }

  function InitCommands(sync: seq<Cmd>, home: string, node: string): seq<Cmd> {
    InitSetup(home, node) + sync + [GitCommit("baka initial commit")]
  }

  function JobCommands(s: Settings, name: string): Selection {
    match JobEntry(s, name)
    case Err(e) => Aborted(e)
    case Ok(members) =>
      match Get(members, "commands")
      case None => Aborted("KeyError")
      case Some(c) =>
        match AsCommands(c)
        case Some(cmds) => Pipeline(cmds)
        case None => IllTyped
  }

  /** A job's "commands" in the shape the loop runs: a list of lists of strings. */
  predicate CommandsShaped(v: Json) {
    v.JArr? && forall i :: 0 <= i < |v.items| ==>
      v.items[i].JArr? && forall j :: 0 <= j < |v.items[i].items| ==> v.items[i].items[j].JStr?
  }

  /** `jobs[name]` is a dict whose "commands" is present but not a list of
      lists of strings. */
  predicate IllShapedCommands(jobs: seq<(string, Json)>, name: string) {
    match Get(jobs, name)
    case Some(JObj(members)) => Get(members, "commands").Some? && !CommandsShaped(Get(members, "commands").value)
    case _ => false
  }

  /** A job's commands are ill-typed exactly when its "commands" has another shape. */
  lemma JobCommandsIllTyped(s: Settings, name: string)
    ensures JobCommands(s, name) == IllTyped <==> IllShapedCommands(s.jobs, name)
  {
    var entry := Get(s.jobs, name);
    if entry.Some? && entry.value.JObj? && Get(entry.value.members, "commands").Some? {
      var c := Get(entry.value.members, "commands").value;
      if c.JArr? {
        assert AsCommands(c).None? <==> exists i :: 0 <= i < |c.items| && AsStrings(c.items[i]).None?;
      }
    }
  }

  function StatusPipeline(sync: seq<Cmd>, checks: seq<(string, string)>): seq<Cmd> {
    sync + [GitCommit("baka pre-status"), ["mkdir", "-p", "status"]]
      + CheckCmds(checks, StatusRedirect) + [GitAddAll, GitCommit("baka status")]
  }

  function VerifyPipeline(sync: seq<Cmd>, checks: seq<(string, string)>): seq<Cmd> {
    sync + [GitCommit("baka pre-verify"), ["mkdir", "-p", "verify"]]
      + CheckCmds(checks, VerifyRedirect) + [GitAddAll, GitCommit("baka verify")]
  }

  predicate ChangesPackages(mode: Mode) {
    mode.Install? || mode.Remove? || mode.Upgrade?
  }

  /** The package manager command of install, remove and upgrade. */
  function PackageCommand(mode: Mode, s: Settings): Cmd
    requires ChangesPackages(mode)
  {
    match mode
    case Install(packages) => s.cmdInstall + packages
    case Remove(packages) => s.cmdRemove + packages
    case Upgrade => s.cmdUpgrade
  }

  function PreMessage(mode: Mode): string
    requires ChangesPackages(mode)
  {
    match mode
    case Install(_) => "baka pre-install"
    case Remove(_) => "baka pre-remove"
    case Upgrade => "baka pre-upgrade"
  }

  function PostMessage(mode: Mode): string
    requires ChangesPackages(mode)
  {
    match mode
    case Install(packages) => "baka install " + Strings.Join(" ", packages)
    case Remove(packages) => "baka remove " + Strings.Join(" ", packages)
    case Upgrade => "baka upgrade"
  }

  /** The commands of `mode`. `base` is the repository (`~/.baka`), `home` the
      home directory and `node` the host name. */
  function Commands(mode: Mode, s: Settings, base: string, home: string, node: string): Selection {
    var sync := SyncCommands(base, s.trackedPaths);
    match mode
    case Init => Pipeline(InitCommands(sync, home, node))
    case Commit(message) => Pipeline(sync + [GitCommit("baka commit " + message)])
    case Install(_) => Pipeline(PackageChange(sync, PreMessage(mode), PackageCommand(mode, s), PostMessage(mode)))
    case Remove(_) => Pipeline(PackageChange(sync, PreMessage(mode), PackageCommand(mode, s), PostMessage(mode)))
    case Upgrade => Pipeline(PackageChange(sync, PreMessage(mode), PackageCommand(mode, s), PostMessage(mode)))
    case Job(name) => JobCommands(s, name)
    case Status =>
      if KeysSafe(s.statusChecks, s.systemIntegrity) then Pipeline(StatusPipeline(sync, s.statusChecks))
      else Aborted("AssertionError")
    case Verify =>
      if KeysSafe(s.systemIntegrity, s.statusChecks) then Pipeline(VerifyPipeline(sync, s.systemIntegrity))
      else Aborted("AssertionError")
    case Diff =>
      Pipeline(sync + [["git", "status", "-s"], ["git", "diff", "--color-words", "--cached", "--minimal"]])
    case Log =>
      Pipeline([["git", "log", "--abbrev-commit", "--all", "--decorate", "--graph", "--stat", LogFormat]])
    case Show =>
      Pipeline([["git", "show", "--color-words"]])
    case NoMode =>
      NoPipeline
  }

  /** Only a job's ill-shaped "commands" makes a command list ill-typed. */
  lemma CommandsIllTyped(mode: Mode, s: Settings, base: string, home: string, node: string)
    ensures Commands(mode, s, base, home, node) == IllTyped <==> mode.Job? && IllShapedCommands(s.jobs, mode.name)
  {
    if mode.Job? {
      JobCommandsIllTyped(s, mode.name);
    }
  }

  /** The attributes of the configuration the selection of `mode` reads: the
      tracked paths wherever `rsync_and_git_add_all` runs, the package command
      of a package mode, both check dictionaries for status and verify (their
      assertions compare the two), and the jobs for `--job`. */
  function UsedAttributes(mode: Mode): set<string> {
    match mode
    case Init => {"tracked_paths"}
    case Commit(_) => {"tracked_paths"}
    case Install(_) => {"tracked_paths", "cmd_install"}
    case Remove(_) => {"tracked_paths", "cmd_remove"}
    case Upgrade => {"tracked_paths", "cmd_upgrade"}
    case Job(_) => {"jobs"}
    case Status => {"tracked_paths", "status_checks", "system_integrity"}
    case Verify => {"tracked_paths", "status_checks", "system_integrity"}
    case Diff => {"tracked_paths"}
    case Log => {}
    case Show => {}
    case NoMode => {}
  }

  /** The two settings agree on the attributes in `used`. */
  predicate SameUsed(s1: Settings, s2: Settings, used: set<string>) {
    && ("cmd_install" in used ==> s1.cmdInstall == s2.cmdInstall)
    && ("cmd_remove" in used ==> s1.cmdRemove == s2.cmdRemove)
    && ("cmd_upgrade" in used ==> s1.cmdUpgrade == s2.cmdUpgrade)
    && ("jobs" in used ==> s1.jobs == s2.jobs)
    && ("status_checks" in used ==> s1.statusChecks == s2.statusChecks)
    && ("system_integrity" in used ==> s1.systemIntegrity == s2.systemIntegrity)
    && ("tracked_paths" in used ==> s1.trackedPaths == s2.trackedPaths)
  }

  /** The commands of a mode depend on the attributes it uses and on
      nothing else. */
  lemma CommandsUseOnly(mode: Mode, s1: Settings, s2: Settings, base: string, home: string, node: string)
    requires SameUsed(s1, s2, UsedAttributes(mode))
    ensures Commands(mode, s1, base, home, node) == Commands(mode, s2, base, home, node)
  {
    match mode
    case Job(name) => assert JobEntry(s1, name) == JobEntry(s2, name);
    case Log =>
    case Show =>
    case NoMode =>
    case _ => assert SyncCommands(base, s1.trackedPaths) == SyncCommands(base, s2.trackedPaths);
  }

  /** The modes whose commands begin with the sync block. */
  predicate Syncs(mode: Mode) {
    mode.Commit? || mode.Install? || mode.Remove? || mode.Upgrade? || mode.Status? || mode.Verify? || mode.Diff?
  }

  /** Commit, install, remove, upgrade, status, verify and diff start with the
      sync block; log and show run no sync command at all. */
  lemma SyncBlockFirst(mode: Mode, s: Settings, base: string, home: string, node: string)
    requires Syncs(mode)
    requires !mode.Status? || KeysSafe(s.statusChecks, s.systemIntegrity)
    requires !mode.Verify? || KeysSafe(s.systemIntegrity, s.statusChecks)
    ensures Commands(mode, s, base, home, node).Pipeline?
    ensures SyncCommands(base, s.trackedPaths) <= Commands(mode, s, base, home, node).cmds
  {
  }

  lemma NoSyncForLogAndShow(mode: Mode, s: Settings, base: string, home: string, node: string)
    requires mode.Log? || mode.Show?
    ensures Commands(mode, s, base, home, node).Pipeline?
    ensures forall c :: c in Commands(mode, s, base, home, node).cmds ==> c != GitAddAll && c[0] != "rsync"
  {
  }

  /** Status and verify get their commands exactly when their assertions hold. */
  lemma StatusGuarded(s: Settings, base: string, home: string, node: string)
    ensures Commands(Status, s, base, home, node).Pipeline? <==> KeysSafe(s.statusChecks, s.systemIntegrity)
    ensures !KeysSafe(s.statusChecks, s.systemIntegrity) ==> Commands(Status, s, base, home, node) == Aborted("AssertionError")
    ensures Commands(Verify, s, base, home, node).Pipeline? <==> KeysSafe(s.systemIntegrity, s.statusChecks)
    ensures !KeysSafe(s.systemIntegrity, s.statusChecks) ==> Commands(Verify, s, base, home, node) == Aborted("AssertionError")
  {
  }

  /** Install, remove and upgrade: the sync block, the pre-change commit, the
      package command, the sync block again and a commit naming the packages. */
  lemma PackageChangeShape(mode: Mode, s: Settings, base: string, home: string, node: string)
    requires ChangesPackages(mode)
    ensures Commands(mode, s, base, home, node).Pipeline?
    ensures var sync := SyncCommands(base, s.trackedPaths);
      var cmds := Commands(mode, s, base, home, node).cmds;
      && |cmds| == 2 * |sync| + 3
      && cmds[..|sync|] == sync
      && cmds[|sync|] == ["git", "commit", "-m", PreMessage(mode)]
      && cmds[|sync| + 1] == PackageCommand(mode, s)
      && cmds[|sync| + 2..2 * |sync| + 2] == sync
      && cmds[2 * |sync| + 2] == ["git", "commit", "-m", PostMessage(mode)]
  {
    var sync := SyncCommands(base, s.trackedPaths);
    var cmds := PackageChange(sync, PreMessage(mode), PackageCommand(mode, s), PostMessage(mode));
    assert Commands(mode, s, base, home, node) == Pipeline(cmds);
    assert cmds[|sync| + 2..2 * |sync| + 2] == sync;
  }

  /** The final commit messages of the package modes. */
  lemma PackageMessages(packages: seq<string>)
    ensures PostMessage(Install(packages)) == "baka install " + Strings.Join(" ", packages)
    ensures PostMessage(Remove(packages)) == "baka remove " + Strings.Join(" ", packages)
    ensures PostMessage(Remove([])) == "baka remove "
  {
    assert Strings.Join(" ", []) == "";
  }

  predicate NoRsync(cmds: seq<Cmd>) {
    forall i :: 0 <= i < |cmds| ==> cmds[i] == [] || cmds[i][0] != "rsync"
  }

  lemma CheckCmdsNoRsync(checks: seq<(string, string)>, redirect: string)
    ensures NoRsync(CheckCmds(checks, redirect))
  {
  }

  /** An rsync command somewhere in `sync + rest` comes from `sync` when
      `rest` has none. */
  lemma RsyncInPrefix(sync: seq<Cmd>, rest: seq<Cmd>, c: Cmd)
    requires NoRsync(rest) && c in sync + rest && c != [] && c[0] == "rsync"
    ensures c in sync
  {
  }

  lemma InitRsync(sync: seq<Cmd>, home: string, node: string, c: Cmd)
    requires c in InitCommands(sync, home, node) && c != [] && c[0] == "rsync"
    ensures c in sync
  {
    var setup := InitSetup(home, node);
    assert InitCommands(sync, home, node) == setup + (sync + [GitCommit("baka initial commit")]);
    assert c !in setup;
    RsyncInPrefix(sync, [GitCommit("baka initial commit")], c);
  }

  lemma PackageRsync(sync: seq<Cmd>, before: string, change: Cmd, after: string, c: Cmd)
    requires c in PackageChange(sync, before, change, after) && c != change && c != [] && c[0] == "rsync"
    ensures c in sync
  {
  }

  lemma StatusRsync(sync: seq<Cmd>, checks: seq<(string, string)>, c: Cmd)
    requires c in StatusPipeline(sync, checks) && c != [] && c[0] == "rsync"
    ensures c in sync
  {
    var rest := [GitCommit("baka pre-status"), ["mkdir", "-p", "status"]] + CheckCmds(checks, StatusRedirect) + [GitAddAll, GitCommit("baka status")];
    CheckCmdsNoRsync(checks, StatusRedirect);
    assert StatusPipeline(sync, checks) == sync + rest;
    RsyncInPrefix(sync, rest, c);
  }

  lemma VerifyRsync(sync: seq<Cmd>, checks: seq<(string, string)>, c: Cmd)
    requires c in VerifyPipeline(sync, checks) && c != [] && c[0] == "rsync"
    ensures c in sync
  {
    var rest := [GitCommit("baka pre-verify"), ["mkdir", "-p", "verify"]] + CheckCmds(checks, VerifyRedirect) + [GitAddAll, GitCommit("baka verify")];
    CheckCmdsNoRsync(checks, VerifyRedirect);
    assert VerifyPipeline(sync, checks) == sync + rest;
    RsyncInPrefix(sync, rest, c);
  }

  /** Every rsync command of a mode other than a job is one of the sync
      block's, which copies a tracked path into its mirror directory, or the
      configured package command itself. */
  lemma RsyncOnlyFromSyncBlock(mode: Mode, s: Settings, base: string, home: string, node: string, c: Cmd)
    requires !mode.Job?
    requires Commands(mode, s, base, home, node).Pipeline?
    requires c in Commands(mode, s, base, home, node).cmds
    requires c != [] && c[0] == "rsync"
    ensures (exists p :: p in s.trackedPaths && c == RsyncCmd(base, p))
         || (ChangesPackages(mode) && c == PackageCommand(mode, s))
  {
    var sync := SyncCommands(base, s.trackedPaths);
    if !(ChangesPackages(mode) && c == PackageCommand(mode, s)) {
      match mode {
        case Init => InitRsync(sync, home, node, c);
        case Commit(m) => RsyncInPrefix(sync, [GitCommit("baka commit " + m)], c);
        case Install(_) => PackageRsync(sync, PreMessage(mode), PackageCommand(mode, s), PostMessage(mode), c);
        case Remove(_) => PackageRsync(sync, PreMessage(mode), PackageCommand(mode, s), PostMessage(mode), c);
        case Upgrade => PackageRsync(sync, PreMessage(mode), PackageCommand(mode, s), PostMessage(mode), c);
        case Status => StatusRsync(sync, s.statusChecks, c);
        case Verify => VerifyRsync(sync, s.systemIntegrity, c);
        case Diff => RsyncInPrefix(sync, [["git", "status", "-s"], ["git", "diff", "--color-words", "--cached", "--minimal"]], c);
        case Log =>
        case Show =>
      }
      SyncRsyncOnly(base, s.trackedPaths, c);
    }
  }

  /** The mode the chain picks when exactly the options of the parser's
      group are respected: install only for a non-empty package list, remove
      for any list, even an empty one. */
  lemma SelectedInstallRemove(a: Args)
    requires AtMostOneMode(a)
    ensures SelectedMode(a).Install? <==> a.install.Some? && a.install.value != []
    ensures SelectedMode(a).Remove? <==> a.remove.Some?
    ensures SelectedMode(a).Commit? <==> a.commit.Some? && a.commit.value != ""
    ensures a.install == Some([]) ==> SelectedMode(a) == NoMode
  {
  }

  /** `--remove` with no packages still runs the remove command and commits
      "baka remove " with nothing after it. */
  lemma RemoveWithoutPackages(s: Settings, base: string, home: string, node: string)
    ensures Commands(Remove([]), s, base, home, node).Pipeline?
    ensures var cmds := Commands(Remove([]), s, base, home, node).cmds;
      && cmds[|s.trackedPaths| + 2] == s.cmdRemove
      && cmds[|cmds| - 1] == ["git", "commit", "-m", "baka remove "]
  {
    PackageChangeShape(Remove([]), s, base, home, node);
    PackageMessages([]);
  }
}
