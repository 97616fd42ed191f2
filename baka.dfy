/** `main` of baka.py from the parsed arguments to the exit status: load the
    configuration, select the commands of the chosen mode, run them, append
    the history line and hand a job's output to its email and log file.

    The world outside the program becomes inputs: the home directory, the
    host name, the time stamp, the members of config.json before and after
    the `--init` edit, the directories that exist, what each command yields
    and the lines typed at the terminal. */
module Baka {
  import opened Wrappers
  import opened Json
  import opened Strings
  import Shlex
  import opened Paths
  import opened Configuration
  import opened Sync
  import opened Pipeline
  import opened Runner
  import opened RunnerProperties
  import opened History

  /** How `main` ends: it returns the return code, or an exception escapes it;
      `IllTypedConfig` stands for a configuration value of another shape than the
      default's, whose effect on the program is not modelled. */
  datatype Exit = Returned(code: nat) | Crashed(name: string) | IllTypedConfig

  /** Everything a run of `main` leaves behind. */
  datatype MainResult = MainResult(
    exit: Exit,
    terminal: seq<Event>,      // what the terminal showed, in order
    history: Option<string>,   // the line appended to history.log
    emailed: Option<string>,   // the body of the job's email, when one is sent
    written: Option<string>,   // the text of the job's log file, when one is written
    dirs: set<string>)         // the directories that exist afterwards

  const ConfigPrompt: string := "Press enter to open " + "your config file " + "with nano"

  function Repository(home: string): string {
    ExpandUser(home, "/.baka")
  }

  function NanoConfig(home: string): Cmd {
    ["nano", ExpandUser(home, "/.baka/config.json")]
  }

  /** The repository `~/.baka` has no trailing slash, so every rsync of an
      absolute tracked path copies into a directory the sync block created
      inside the repository. */
  lemma RepositoryDestinations(home: string, tracked: seq<string>, i: nat)
    requires i < |tracked|
    requires tracked[i] != [] && tracked[i][0] == '/'
    ensures SyncCommands(Repository(home), tracked)[i][4] in Destinations(Repository(home), tracked)
    ensures Repository(home) <= SyncCommands(Repository(home), tracked)[i][4] <= Repository(home) + tracked[i]
  {
    var rest := "/.baka";
    assert rest[|rest| - 1] == 'a';
    ExpandUserNoTrailingSlash(home, rest);
    var base := Repository(home);
    assert base == [] || base[|base| - 1] != '/';
    RsyncDestinations(base, tracked, i);
  }

  /** The modes whose commands are built with `rsync_and_git_add_all`, which
      creates the mirror directories as it builds them. */
  predicate CreatesDirs(mode: Mode) {
    mode.Init? || Syncs(mode)
  }

  /** The process exit status: `sys.exit` keeps the low byte of the return
      code, and an uncaught exception exits with 1. */
  function ExitStatus(e: Exit): (status: Option<nat>)
    ensures e.Returned? ==> status.Some? && status.value < 256
    ensures e.Returned? && e.code < 256 ==> status == Some(e.code)
    ensures e.Crashed? ==> status == Some(1)
  {
    match e
    case Returned(code) => Some(code % 256)
    case Crashed(_) => Some(1)
    case IllTypedConfig => None
  }

  /** The job's entry while the loop runs, when `--job` selected it. */
  function JobContext(mode: Mode, s: Settings): Option<seq<(string, Json)>> {
    if mode.Job? then
      match JobEntry(s, mode.name)
      case Ok(members) => Some(members)
      case Err(_) => None
    else None
  }

  /** `strftime` of a true "write" value that is not a string raises TypeError. */
  predicate StrftimeRaises(job: seq<(string, Json)>) {
    Writes(job) && !Get(job, "write").value.JStr?
  }

  /** What follows the loop: the history line, then the job's email and log
      file, both carrying the collected output joined by newlines. The email
      test can raise after the history line is written, and `strftime` of
      the "write" value after the email is sent. */
  function Finish(a: Args, timestamp: string, job: Option<seq<(string, Json)>>, terminal: seq<Event>, dirs: set<string>,
                  output: seq<string>, returnCode: nat, errorMessage: string, loopTerminal: seq<Event>): MainResult
  {
    var history := LogEntry(timestamp, a, errorMessage);
    var shown := terminal + loopTerminal;
    match job
    case None => MainResult(Returned(returnCode), shown, history, None, None, dirs)
    case Some(j) =>
      var body := Join("\n", output);
      match EmailTo(j)
      case Err(e) => MainResult(Crashed(e.name), shown, history, None, None, dirs)
      case Ok(send) =>
        var emailed := if send then Some(body) else None;
        if StrftimeRaises(j) then MainResult(Crashed("TypeError"), shown, history, emailed, None, dirs)
        else MainResult(Returned(returnCode), shown, history, emailed, if Writes(j) then Some(body) else None, dirs)
  }

  /** `main`, from the selection of the commands on. */
  function Execute(a: Args, mode: Mode, s: Settings, home: string, node: string, timestamp: string,
                   existing: set<string>, run: nat -> Outcome, responses: seq<string>, terminal: seq<Event>): MainResult
  {
    var base := Repository(home);
    match Commands(mode, s, base, home, node)
    case NoPipeline => MainResult(Crashed("UnboundLocalError"), terminal, None, None, None, existing)
    case Aborted(e) => MainResult(Crashed(e), terminal, None, None, None, existing)
    case IllTyped => MainResult(IllTypedConfig, terminal, None, None, None, existing)
    case Pipeline(cmds) =>
      var dirs := if CreatesDirs(mode) then existing + Destinations(base, s.trackedPaths) else existing;
      var job := JobContext(mode, s);
      var final := RunAll(Context(a.dryRun, job), cmds, run, responses);
      Finish(a, timestamp, job, terminal, dirs, final.output, final.returnCode, final.errorMessage, final.terminal)
  }

  /** `main`. `started` is the attribute dictionary of the configuration
      object made when the program starts, `reloaded` that of the object made
      again after the user edited config.json during `--init`. */
  function Main(a: Args, home: string, node: string, timestamp: string,
                started: map<string, Json>, reloaded: map<string, Json>,
                existing: set<string>, run: nat -> Outcome, responses: seq<string>): MainResult
  {
    var mode := SelectedMode(a);
    if mode.Init? && responses == [] then
      MainResult(Crashed("EOFError"), [Prompt(ConfigPrompt)], None, None, None, existing)
    else
      Configured(a, mode, if mode.Init? then reloaded else started, home, node, timestamp, existing, run,
                 if mode.Init? then responses[1..] else responses, InitTerminal(a, mode, home))
  }

  /** `main` once the configuration object is final. */
  function Configured(a: Args, mode: Mode, attrs: map<string, Json>, home: string, node: string, timestamp: string,
                      existing: set<string>, run: nat -> Outcome, responses: seq<string>, terminal: seq<Event>): MainResult
  {
    match Read(mode, attrs)
    case None => MainResult(IllTypedConfig, terminal, None, None, None, existing)
    case Some(s) => Execute(a, mode, s, home, node, timestamp, existing, run, responses, terminal)
  }

  /** What `--init` shows before the commands run: the prompt, and the nano
      command when it is a dry run. */
  function InitTerminal(a: Args, mode: Mode, home: string): seq<Event> {
    if !mode.Init? then []
    else [Prompt(ConfigPrompt)] + (if a.dryRun then [Echo(Shlex.Join(NanoConfig(home)))] else [])
  }

  /** The settings a mode works with: the attributes it uses, decoded. */
  function Read(mode: Mode, attrs: map<string, Json>): Option<Settings> {
    Decode(attrs, UsedAttributes(mode))
  }

  /** `main`, step by step: the configuration object, the prompt and reload of
      `--init`, then the rest. */
  method RunMain(a: Args, home: string, node: string, timestamp: string,
                 loaded: seq<(string, Json)>, edited: seq<(string, Json)>,
                 existing: set<string>, run: nat -> Outcome, responses: seq<string>)
    returns (m: MainResult)
    ensures m == Main(a, home, node, timestamp, Apply(Defaults(home), loaded), Apply(Defaults(home), edited),
                      existing, run, responses)
  {
    var config := new Config(home, loaded);
    var mode := SelectedMode(a);
    var terminal, pending, answered := InitPrompt(a, mode, home, responses);
    if !answered {
      return MainResult(Crashed("EOFError"), terminal, None, None, None, existing);
    }
    if mode.Init? {
      config := new Config(home, edited);
    }
    m := RunConfigured(a, mode, config.attrs, home, node, timestamp, existing, run, pending, terminal);
  }

  /** The prompt of `--init` before config.json is opened with nano; `answered`
      is false when the input ends there. */
  method InitPrompt(a: Args, mode: Mode, home: string, responses: seq<string>)
    returns (terminal: seq<Event>, pending: seq<string>, answered: bool)
    ensures answered <==> !(mode.Init? && responses == [])
    ensures answered ==> terminal == InitTerminal(a, mode, home)
    ensures answered ==> pending == if mode.Init? then responses[1..] else responses
    ensures !answered ==> terminal == [Prompt(ConfigPrompt)]
  {
    terminal, pending, answered := [], responses, true;
    if mode.Init? {
      terminal := terminal + [Prompt(ConfigPrompt)];
      if pending == [] {
        answered := false;
        return;
      }
      pending := pending[1..];
      if a.dryRun {
        terminal := terminal + [Echo(Shlex.Join(NanoConfig(home)))];
      }
    }
  }

  /** The attributes the mode uses, decoded, then the rest. */
  method RunConfigured(a: Args, mode: Mode, attrs: map<string, Json>, home: string, node: string, timestamp: string,
                       existing: set<string>, run: nat -> Outcome, responses: seq<string>, terminal: seq<Event>)
    returns (m: MainResult)
    ensures m == Configured(a, mode, attrs, home, node, timestamp, existing, run, responses, terminal)
  {
    var decoded := Decode(attrs, UsedAttributes(mode));
    if decoded.None? {
      return MainResult(IllTypedConfig, terminal, None, None, None, existing);
    }
    m := RunSelected(a, mode, decoded.value, home, node, timestamp, existing, run, responses, terminal);
  }

  /** The commands and their directories, the loop and what follows it. */
  method RunSelected(a: Args, mode: Mode, s: Settings, home: string, node: string, timestamp: string,
                     existing: set<string>, run: nat -> Outcome, responses: seq<string>, terminal: seq<Event>)
    returns (m: MainResult)
    ensures m == Execute(a, mode, s, home, node, timestamp, existing, run, responses, terminal)
  {
    var base := Repository(home);
    var selection := Commands(mode, s, base, home, node);
    if !selection.Pipeline? {
      var exit := match selection
        case NoPipeline => Crashed("UnboundLocalError")
        case Aborted(e) => Crashed(e)
        case _ => IllTypedConfig;
      return MainResult(exit, terminal, None, None, None, existing);
    }
    var dirs := existing;
    if CreatesDirs(mode) {
      var _, made := RsyncAndGitAddAll(base, s.trackedPaths, existing);
      dirs := made;
    }
    var job := JobContext(mode, s);
    var commandOutput, returnCode, errorMessage, shown := RunCommands(Context(a.dryRun, job), selection.cmds, run, responses);
    m := Deliver(a, timestamp, job, terminal, dirs, commandOutput, returnCode, errorMessage, shown);
  }

  /** The history line, then the job's email and log file. */
  method Deliver(a: Args, timestamp: string, job: Option<seq<(string, Json)>>, terminal: seq<Event>, dirs: set<string>,
                 output: seq<string>, returnCode: nat, errorMessage: string, loopTerminal: seq<Event>)
    returns (m: MainResult)
    ensures m == Finish(a, timestamp, job, terminal, dirs, output, returnCode, errorMessage, loopTerminal)
  {
    var history := BuildLogEntry(timestamp, a, errorMessage);
    var shown := terminal + loopTerminal;
    if job.None? {
      return MainResult(Returned(returnCode), shown, history, None, None, dirs);
    }
    var body := Join("\n", output);
    var email := EmailTo(job.value);
    if email.Err? {
      return MainResult(Crashed(email.error.name), shown, history, None, None, dirs);
    }
    var emailed := if email.value then Some(body) else None;
    if !Writes(job.value) {
      return MainResult(Returned(returnCode), shown, history, emailed, None, dirs);
    }
    var pattern := Get(job.value, "write").value;
    if !pattern.JStr? {
      return MainResult(Crashed("TypeError"), shown, history, emailed, None, dirs);
    }
    m := MainResult(Returned(returnCode), shown, history, emailed, Some(body), dirs);
  }

  // ---------------------------------------------------------------------
  // Properties of a whole run

  lemma ExecuteReturnCode(a: Args, mode: Mode, s: Settings, home: string, node: string, timestamp: string,
                          existing: set<string>, run: nat -> Outcome, responses: seq<string>, terminal: seq<Event>)
    ensures var m := Execute(a, mode, s, home, node, timestamp, existing, run, responses, terminal);
      m.exit.Returned? && m.exit.code != 0 ==> mode.Job? && !a.dryRun
  {
    match Commands(mode, s, Repository(home), home, node)
    case Pipeline(cmds) =>
      var job := JobContext(mode, s);
      RunAllProperties(Context(a.dryRun, job), cmds, run, responses);
    case _ =>
  }

  /** Only a job that is not a dry run can return a non-zero code: every
      other mode exits with status 0 unless an exception escapes. */
  lemma ReturnCodeOnlyForJobs(a: Args, home: string, node: string, timestamp: string,
                              started: map<string, Json>, reloaded: map<string, Json>,
                              existing: set<string>, run: nat -> Outcome, responses: seq<string>)
    ensures var m := Main(a, home, node, timestamp, started, reloaded, existing, run, responses);
      m.exit.Returned? && m.exit.code != 0 ==> SelectedMode(a).Job? && !a.dryRun
  {
    var mode := SelectedMode(a);
    if !(mode.Init? && responses == []) {
      var pending := if mode.Init? then responses[1..] else responses;
      var read := Read(mode, if mode.Init? then reloaded else started);
      if read.Some? {
        ExecuteReturnCode(a, mode, read.value, home, node, timestamp, existing, run, pending, InitTerminal(a, mode, home));
      }
    }
  }

  /** Outside a job that is not a dry run, the process exits with status 0,
      or 1 when an exception escapes `main`. */
  lemma ExitStatusOutsideJobs(a: Args, home: string, node: string, timestamp: string,
                              started: map<string, Json>, reloaded: map<string, Json>,
                              existing: set<string>, run: nat -> Outcome, responses: seq<string>)
    requires !SelectedMode(a).Job? || a.dryRun
    ensures var m := Main(a, home, node, timestamp, started, reloaded, existing, run, responses);
      m.exit != IllTypedConfig ==> ExitStatus(m.exit) == Some(0) || ExitStatus(m.exit) == Some(1)
  {
    ReturnCodeOnlyForJobs(a, home, node, timestamp, started, reloaded, existing, run, responses);
  }

  /** The default jobs hold only the example job, whose commands are lists
      of strings. */
  lemma DefaultJobsShaped(home: string, name: string)
    ensures !IllShapedCommands(Defaults(home)["jobs"].members, name)
  {
    var jobs := Defaults(home)["jobs"].members;
    if name == "example_job_name" {
      var commands := Get(ExampleJob().members, "commands").value;
      assert commands == JArr([Strs(["echo", "hello world"]), Strs(["echo", "task completed"])]);
      assert CommandsShaped(commands);
    } else {
      assert Get(jobs, name) == None;
    }
  }

  /** Without a config.json every attribute keeps its default, and no mode
      meets a value of another shape than it uses. */
  lemma DefaultsNeverIllTyped(a: Args, home: string, node: string, timestamp: string,
                              existing: set<string>, run: nat -> Outcome, responses: seq<string>)
    ensures Main(a, home, node, timestamp, Defaults(home), Defaults(home), existing, run, responses).exit != IllTypedConfig
  {
    var mode := SelectedMode(a);
    var d := Defaults(home);
    if !(mode.Init? && responses == []) {
      var pending := if mode.Init? then responses[1..] else responses;
      DefaultsDecode(home, UsedAttributes(mode));
      if mode.Job? {
        DefaultJobsShaped(home, mode.name);
      }
      IllTypedExactly(a, mode, d, home, node, timestamp, existing, run, pending, InitTerminal(a, mode, home));
    }
  }

  /** Without a mode option `cmds` is never bound: the loop raises
      UnboundLocalError, and so does its handler, which names `cmd`; nothing
      runs and no history line is written. */
  lemma NoModeCrashes(a: Args, home: string, node: string, timestamp: string,
                      started: map<string, Json>, reloaded: map<string, Json>,
                      existing: set<string>, run: nat -> Outcome, responses: seq<string>)
    requires SelectedMode(a) == NoMode
    ensures Main(a, home, node, timestamp, started, reloaded, existing, run, responses)
         == MainResult(Crashed("UnboundLocalError"), [], None, None, None, existing)
  {
  }

  lemma DryCommitExecute(a: Args, mode: Mode, s: Settings, home: string, node: string, timestamp: string,
                         existing: set<string>, run: nat -> Outcome, responses: seq<string>)
    requires a.dryRun && mode.Commit?
    ensures var base := Repository(home);
      var cmds := SyncCommands(base, s.trackedPaths) + [GitCommit("baka commit " + mode.message)];
      Execute(a, mode, s, home, node, timestamp, existing, run, responses, [])
        == MainResult(Returned(0), DryEchoes(cmds), None, None, None, existing + Destinations(base, s.trackedPaths))
  {
    var base := Repository(home);
    var cmds := SyncCommands(base, s.trackedPaths) + [GitCommit("baka commit " + mode.message)];
    assert Commands(mode, s, base, home, node) == Pipeline(cmds);
    DryRun(Context(true, None), cmds, run, responses);
    assert [] + DryEchoes(cmds) == DryEchoes(cmds);
  }

  /** A dry run of `--commit` shows the sync block and the commit command and
      runs nothing, writes no history line and returns 0, yet the mirror
      directories are created all the same. */
  lemma DryRunCommit(a: Args, home: string, node: string, timestamp: string,
                     started: map<string, Json>, reloaded: map<string, Json>,
                     existing: set<string>, run: nat -> Outcome, responses: seq<string>, s: Settings)
    requires a.dryRun && SelectedMode(a).Commit?
    requires Read(SelectedMode(a), started) == Some(s)
    ensures var base := Repository(home);
      var cmds := SyncCommands(base, s.trackedPaths) + [GitCommit("baka commit " + SelectedMode(a).message)];
      Main(a, home, node, timestamp, started, reloaded, existing, run, responses)
        == MainResult(Returned(0), DryEchoes(cmds), None, None, None, existing + Destinations(base, s.trackedPaths))
  {
    DryCommitExecute(a, SelectedMode(a), s, home, node, timestamp, existing, run, responses);
  }

  lemma FinishDelivers(a: Args, timestamp: string, job: Option<seq<(string, Json)>>, terminal: seq<Event>, dirs: set<string>,
                       output: seq<string>, returnCode: nat, errorMessage: string, loopTerminal: seq<Event>)
    ensures var m := Finish(a, timestamp, job, terminal, dirs, output, returnCode, errorMessage, loopTerminal);
      && (m.emailed.Some? ==> job.Some? && EmailTo(job.value) == Ok(true) && m.emailed == Some(Join("\n", output)))
      && (m.written.Some? ==> job.Some? && Writes(job.value) && !StrftimeRaises(job.value) && m.written == Some(Join("\n", output)))
      && (job.Some? && EmailTo(job.value) == Ok(true) ==> m.emailed.Some?)
      && (job.Some? && EmailTo(job.value).Ok? && Writes(job.value) && !StrftimeRaises(job.value) ==> m.written.Some?)
      && (job.Some? && EmailTo(job.value).Ok? && StrftimeRaises(job.value) ==> m.exit == Crashed("TypeError"))
      && (m.exit.Returned? ==> m.exit.code == returnCode)
      && m.history == LogEntry(timestamp, a, errorMessage)
  {
  }

  lemma ExecuteDelivers(a: Args, mode: Mode, s: Settings, home: string, node: string, timestamp: string,
                        existing: set<string>, run: nat -> Outcome, responses: seq<string>, terminal: seq<Event>)
    ensures var m := Execute(a, mode, s, home, node, timestamp, existing, run, responses, terminal);
      && (m.emailed.Some? || m.written.Some? ==> mode.Job?)
      && (m.emailed.Some? && m.written.Some? ==> m.emailed == m.written)
  {
    match Commands(mode, s, Repository(home), home, node)
    case Pipeline(cmds) =>
      var job := JobContext(mode, s);
      var final := RunAll(Context(a.dryRun, job), cmds, run, responses);
      var dirs := if CreatesDirs(mode) then existing + Destinations(Repository(home), s.trackedPaths) else existing;
      FinishDelivers(a, timestamp, job, terminal, dirs, final.output, final.returnCode, final.errorMessage, final.terminal);
    case _ =>
  }

  /** Only a job sends or writes anything, and its email and log file carry
      the same text (by `FinishDelivers`, the output the loop collected,
      joined by newlines). */
  lemma DeliveredOutput(a: Args, home: string, node: string, timestamp: string,
                        started: map<string, Json>, reloaded: map<string, Json>,
                        existing: set<string>, run: nat -> Outcome, responses: seq<string>)
    ensures var m := Main(a, home, node, timestamp, started, reloaded, existing, run, responses);
      && (m.emailed.Some? || m.written.Some? ==> SelectedMode(a).Job?)
      && (m.emailed.Some? && m.written.Some? ==> m.emailed == m.written)
  {
    var mode := SelectedMode(a);
    if !(mode.Init? && responses == []) {
      var pending := if mode.Init? then responses[1..] else responses;
      var read := Read(mode, if mode.Init? then reloaded else started);
      if read.Some? {
        ExecuteDelivers(a, mode, read.value, home, node, timestamp, existing, run, pending, InitTerminal(a, mode, home));
      }
    }
  }

  /** A run depends on the settings a mode uses and on nothing else, so the
      empty stand-ins for the attributes it does not use never show. */
  lemma ExecuteUsesOnly(a: Args, mode: Mode, s1: Settings, s2: Settings, home: string, node: string, timestamp: string,
                        existing: set<string>, run: nat -> Outcome, responses: seq<string>, terminal: seq<Event>)
    requires SameUsed(s1, s2, UsedAttributes(mode))
    ensures Execute(a, mode, s1, home, node, timestamp, existing, run, responses, terminal)
         == Execute(a, mode, s2, home, node, timestamp, existing, run, responses, terminal)
  {
    CommandsUseOnly(mode, s1, s2, Repository(home), home, node);
    assert JobContext(mode, s1) == JobContext(mode, s2);
    assert CreatesDirs(mode) ==> s1.trackedPaths == s2.trackedPaths;
  }

  /** config.json matters to a run only through the attributes its mode
      uses: an ill-shaped `cmd_install` does not affect `--commit`, for
      instance. */
  lemma MainUsesOnly(a: Args, home: string, node: string, timestamp: string,
                     started1: map<string, Json>, reloaded1: map<string, Json>,
                     started2: map<string, Json>, reloaded2: map<string, Json>,
                     existing: set<string>, run: nat -> Outcome, responses: seq<string>)
    requires AgreeOn(started1, started2, UsedAttributes(SelectedMode(a)))
    requires AgreeOn(reloaded1, reloaded2, UsedAttributes(SelectedMode(a)))
    ensures Main(a, home, node, timestamp, started1, reloaded1, existing, run, responses)
         == Main(a, home, node, timestamp, started2, reloaded2, existing, run, responses)
  {
    var used := UsedAttributes(SelectedMode(a));
    DecodeReadsOnly(started1, started2, used);
    DecodeReadsOnly(reloaded1, reloaded2, used);
  }

  /** A run ends as ill-typed exactly when an attribute its mode uses is
      missing or of another shape, or when the selected job's "commands" is
      not a list of lists of strings. */
  lemma IllTypedExactly(a: Args, mode: Mode, attrs: map<string, Json>, home: string, node: string, timestamp: string,
                        existing: set<string>, run: nat -> Outcome, responses: seq<string>, terminal: seq<Event>)
    ensures Configured(a, mode, attrs, home, node, timestamp, existing, run, responses, terminal).exit == IllTypedConfig
      <==> (exists key :: IllShaped(attrs, UsedAttributes(mode), key))
           || (mode.Job? && "jobs" in attrs && attrs["jobs"].JObj? && IllShapedCommands(attrs["jobs"].members, mode.name))
  {
    var r := Read(mode, attrs);
    if r.Some? {
      ExecuteIllTyped(a, mode, r.value, home, node, timestamp, existing, run, responses, terminal);
      if mode.Job? {
        assert "jobs" in UsedAttributes(mode);
      }
    }
  }

  /** From the selected mode on, only a job's ill-shaped "commands" makes
      the run ill-typed. */
  lemma ExecuteIllTyped(a: Args, mode: Mode, s: Settings, home: string, node: string, timestamp: string,
                        existing: set<string>, run: nat -> Outcome, responses: seq<string>, terminal: seq<Event>)
    ensures Execute(a, mode, s, home, node, timestamp, existing, run, responses, terminal).exit == IllTypedConfig
      <==> mode.Job? && IllShapedCommands(s.jobs, mode.name)
  {
    var base := Repository(home);
    CommandsIllTyped(mode, s, base, home, node);
    var sel := Commands(mode, s, base, home, node);
    if sel.Pipeline? {
      var job := JobContext(mode, s);
      var final := RunAll(Context(a.dryRun, job), sel.cmds, run, responses);
      var dirs := if CreatesDirs(mode) then existing + Destinations(base, s.trackedPaths) else existing;
      FinishReturnsOrRaises(a, timestamp, job, terminal, dirs, final.output, final.returnCode, final.errorMessage, final.terminal);
    }
  }

  /** What follows the loop returns or raises; it never meets an ill-typed value. */
  lemma FinishReturnsOrRaises(a: Args, timestamp: string, job: Option<seq<(string, Json)>>, terminal: seq<Event>, dirs: set<string>,
                              output: seq<string>, returnCode: nat, errorMessage: string, loopTerminal: seq<Event>)
    ensures Finish(a, timestamp, job, terminal, dirs, output, returnCode, errorMessage, loopTerminal).exit != IllTypedConfig
  {
  }

  /** `--commit` never reads `cmd_install`: whatever config.json gives for it,
      even a value of another shape, the run is the same. */
  lemma CommitIgnoresInstallCommand(a: Args, home: string, node: string, timestamp: string,
                                    started: map<string, Json>, reloaded: map<string, Json>, v: Json,
                                    existing: set<string>, run: nat -> Outcome, responses: seq<string>)
    requires SelectedMode(a).Commit?
    ensures Main(a, home, node, timestamp, started["cmd_install" := v], reloaded, existing, run, responses)
         == Main(a, home, node, timestamp, started, reloaded, existing, run, responses)
  {
    MainUsesOnly(a, home, node, timestamp, started["cmd_install" := v], reloaded, started, reloaded, existing, run, responses);
  }
}
