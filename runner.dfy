/** The execution loop of `main`: run, echo or skip each selected command,
    collect the job's output and count failed commands. Processes, the
    terminal and the keyboard become inputs and outputs. */
module Runner {
  import opened Wrappers
  import opened Json
  import opened Strings
  import Shlex
  import opened Sync

  /** What `subprocess.run` yields for a command: its exit code and output, or
      the exception it raises (for instance for a missing program). */
  datatype Outcome = Completed(code: int, stdout: string, stderr: string) | Raised(exc: Exception)

  /** What reaches the terminal, in order. */
  datatype Event =
    | Echo(line: string)     // print(line)
    | Prompt(text: string)   // the prompt written by input()
    | ProcOut(text: string)  // a command's standard output
    | ProcErr(text: string)  // a command's standard error
    | ErrLine(line: string)  // print(line, file=sys.stderr)

  /** `--dry-run`, and the entry of the selected job when `--job` is given. */
  datatype Context = Context(dryRun: bool, job: Option<seq<(string, Json)>>)

  /** The loop's variables (`command_output`, `return_code`, `error_message`),
      what the terminal has shown, the answers not yet read, the indices of
      the commands that ran to completion, and whether the loop has ended. */
  datatype State = State(
    output: seq<string>,
    returnCode: nat,
    errorMessage: string,
    terminal: seq<Event>,
    responses: seq<string>,
    ran: seq<nat>,
    stopped: bool)

  const Levels: seq<string> := ["debug", "info", "error", "silent"]

  const ContinuePrompt: string := "\U{1B}[92m" + "Continue (yes/no/skip)?" + "\U{1B}[0m "
  const InvalidResponse: string := "\U{1B}[91m" + "Invalid response, " + "exiting" + "\U{1B}[0m"
  /** What `input()` raises at the end of input on a terminal. */
  const EndOfInput: Exception := Exception("EOFError", "()")
  const EmptyCommand: Exception := Exception("IndexError", "('list index out of range',)")

  function Blue(text: string): string {
    "\U{1B}[94m" + text + "\U{1B}[0m"
  }

  // ---------------------------------------------------------------------
  // What the job's entry decides

  /** `"write" in job and job["write"]`. */
  predicate Writes(job: seq<(string, Json)>) {
    Get(job, "write").Some? && Truthy(Get(job, "write").value)
  }

  /** `"interactive" in job and job["interactive"]`. */
  predicate Interactive(job: seq<(string, Json)>) {
    Get(job, "interactive").Some? && Truthy(Get(job, "interactive").value)
  }

  /** The TypeError of `e["to"]` for a value that is not a dict. */
  function NotSubscriptable(e: Json): Exception {
    var message :=
      match e
      case JStr(_) => "string indices must " + "be integers, not 'str'"
      case JArr(_) => "list indices must be " + "integers or slices, " + "not str"
      case _ => "'" + TypeName(e) + "' object is not subscriptable";
    Exception("TypeError", "(" + Repr(message) + ",)")
  }

  /** `"email" in job and job["email"] and job["email"]["to"]`, which raises
      for an email entry without "to" or one that is not a dict. */
  function EmailTo(job: seq<(string, Json)>): (r: Result<bool, Exception>)
    ensures r == Ok(true) <==>
      exists to :: Get(job, "email").Some? && Get(job, "email").value.JObj?
                   && Get(Get(job, "email").value.members, "to") == Some(to) && Truthy(to)
    ensures r.Err? <==>
      Get(job, "email").Some? && Truthy(Get(job, "email").value)
      && (!Get(job, "email").value.JObj? || !HasKey(Get(job, "email").value.members, "to"))
  {
    match Get(job, "email")
    case None => Ok(false)
    case Some(e) =>
      if !Truthy(e) then Ok(false)
      else
        match e
        case JObj(ms) =>
          (match Get(ms, "to")
           case None => Err(Exception("KeyError", "('to',)"))
           case Some(to) => Ok(Truthy(to)))
        case _ => Err(NotSubscriptable(e))
  }

  /** `capture_output`: output is captured when the job writes a log file or
      sends an email; "write" is checked first and a true "write" skips the
      email test. */
  function CaptureOutput(job: seq<(string, Json)>): (r: Result<bool, Exception>)
    ensures r == Ok(true) <==> Writes(job) || EmailTo(job) == Ok(true)
    ensures r == Ok(false) <==> !Writes(job) && EmailTo(job) == Ok(false)
    ensures r.Err? ==> !Writes(job) && r == EmailTo(job)
  {
    if Writes(job) then Ok(true) else EmailTo(job)
  }

  /** The normalised verbosity: the lower-cased "verbosity" when it is one of
      the four levels, "debug" otherwise; a true value that is not a string
      has no `lower`. */
  function Verbosity(job: seq<(string, Json)>): (r: Result<string, Exception>)
    ensures r.Ok? ==> r.value in Levels
    ensures r.Err? <==>
      Get(job, "verbosity").Some? && Truthy(Get(job, "verbosity").value) && !Get(job, "verbosity").value.JStr?
    ensures r.Ok? && r.value != "debug" ==>
      Get(job, "verbosity").Some? && Get(job, "verbosity").value.JStr?
      && Lower(Get(job, "verbosity").value.s) == r.value
    ensures (Get(job, "verbosity").Some? && Get(job, "verbosity").value.JStr?
             && Lower(Get(job, "verbosity").value.s) in Levels)
            ==> r == Ok(Lower(Get(job, "verbosity").value.s))
  {
    match Get(job, "verbosity")
    case None => Ok("debug")
    case Some(v) =>
      if !Truthy(v) then Ok("debug")
      else
        match v
        case JStr(s) => Ok(if Lower(s) in Levels then Lower(s) else "debug")
        case _ => Err(Exception("AttributeError", "(" + Repr("'" + TypeName(v) + "' object has no " + "attribute 'lower'") + ",)"))
  }

  predicate ShowsStdout(verbosity: string) {
    verbosity == "debug" || verbosity == "info"
  }

  predicate ShowsStderr(verbosity: string) {
    verbosity == "debug" || verbosity == "info" || verbosity == "error"
  }

  /** What reaches the terminal for a command that completed: written by the
      process itself when output is not captured, written back afterwards
      when it is. */
  function Routed(capture: bool, verbosity: string, out: string, err: string): seq<Event> {
    var shownOut := if ShowsStdout(verbosity) then [ProcOut(out)] else [];
    if capture then
      shownOut + (if ShowsStderr(verbosity) then [ProcErr(err), Echo("\n")] else [])
    else
      shownOut + (if ShowsStderr(verbosity) then [ProcErr(err), Echo("")] else [])
  }

  /** The routing table: stdout reaches the terminal exactly for debug and
      info, stderr exactly for debug, info and error, nothing for silent,
      whether or not the output is captured. */
  lemma RoutingTable(capture: bool, verbosity: string, out: string, err: string)
    ensures ProcOut(out) in Routed(capture, verbosity, out, err) <==> ShowsStdout(verbosity)
    ensures ProcErr(err) in Routed(capture, verbosity, out, err) <==> ShowsStderr(verbosity)
    ensures forall e :: e in Routed(capture, verbosity, out, err) ==>
      (e.ProcOut? ==> e == ProcOut(out)) && (e.ProcErr? ==> e == ProcErr(err)) && !e.Prompt? && !e.ErrLine?
    ensures verbosity == "silent" ==> Routed(capture, verbosity, out, err) == []
  {
  }

  // ---------------------------------------------------------------------
  // The interactive answer

  datatype Answer = Yes | No | Skip | Invalid

  /** The answer to the prompt, decided by the first character of the
      stripped, lower-cased response. */
  function Decide(response: string): (a: Answer)
    ensures a == Yes <==> Strip(response) != [] && LowerChar(Strip(response)[0]) == 'y'
    ensures a == No <==> Strip(response) != [] && LowerChar(Strip(response)[0]) == 'n'
    ensures a == Skip <==> Strip(response) != [] && LowerChar(Strip(response)[0]) == 's'
    ensures Strip(response) == [] ==> a == Invalid
  {
    var r := Lower(Strip(response));
    if StartsWith(r, "y") then Yes
    else if StartsWith(r, "n") then No
    else if StartsWith(r, "s") then Skip
    else Invalid
  }

  // ---------------------------------------------------------------------
  // The rsync error filter

  const PermissionDenied: string := "Permission denied (13)"
  const PartialTransfer: string := "(see previous errors) " + "(code 23)"

  /** A line of rsync's error output is shown unless it is empty or reports a
      permission error or the summary of such errors. */
  predicate ShownRsyncLine(line: string) {
    line != "" && !Contains(line, PermissionDenied) && !Contains(line, PartialTransfer)
  }

  function FilterRsyncStderr(lines: seq<string>): (r: seq<string>)
    ensures forall l :: l in r ==> ShownRsyncLine(l) && l in lines
    decreases |lines|
  {
    if lines == [] then []
    else (if ShownRsyncLine(lines[0]) then [lines[0]] else []) + FilterRsyncStderr(lines[1..])
  }

  predicate IsSubsequence<T(==)>(a: seq<T>, b: seq<T>)
    decreases |b|
  {
    a == [] || (b != [] && ((a[0] == b[0] && IsSubsequence(a[1..], b[1..])) || IsSubsequence(a, b[1..])))
  }

  /** The filter keeps the shown lines in their original order ... */
  lemma {:induction false} FilterRsyncOrdered(lines: seq<string>)
    ensures IsSubsequence(FilterRsyncStderr(lines), lines)
    decreases |lines|
  {
    if lines != [] {
      FilterRsyncOrdered(lines[1..]);
      var rest := FilterRsyncStderr(lines[1..]);
      if ShownRsyncLine(lines[0]) {
        assert ([lines[0]] + rest)[0] == lines[0];
        assert ([lines[0]] + rest)[1..] == rest;
      } else {
        assert FilterRsyncStderr(lines) == rest;
        SubsequenceSkip(rest, lines);
      }
    }
  }

  lemma SubsequenceSkip<T>(a: seq<T>, b: seq<T>)
    requires b != [] && IsSubsequence(a, b[1..])
    ensures IsSubsequence(a, b)
  {
  }

  /** ... and each of them as often as it occurs. */
  lemma {:induction false} FilterRsyncCounts(lines: seq<string>)
    ensures forall l :: multiset(FilterRsyncStderr(lines))[l] == if ShownRsyncLine(l) then multiset(lines)[l] else 0
    decreases |lines|
  {
    if lines != [] {
      FilterRsyncCounts(lines[1..]);
      var head := if ShownRsyncLine(lines[0]) then [lines[0]] else [];
      assert lines == [lines[0]] + lines[1..];
      assert multiset(lines) == multiset([lines[0]]) + multiset(lines[1..]);
      assert multiset(FilterRsyncStderr(lines)) == multiset(head) + multiset(FilterRsyncStderr(lines[1..]));
    }
  }

  /** Filtering a second time changes nothing. */
  lemma {:induction false} FilterRsyncIdempotent(lines: seq<string>)
    ensures FilterRsyncStderr(FilterRsyncStderr(lines)) == FilterRsyncStderr(lines)
    decreases |lines|
  {
    if lines != [] {
      FilterRsyncIdempotent(lines[1..]);
      var rest := FilterRsyncStderr(lines[1..]);
      if ShownRsyncLine(lines[0]) {
        var r := [lines[0]] + rest;
        assert FilterRsyncStderr(lines) == r;
        assert r[0] == lines[0] && r[1..] == rest;
        assert FilterRsyncStderr(r) == [lines[0]] + FilterRsyncStderr(rest);
      } else {
        assert FilterRsyncStderr(lines) == rest;
      }
    }
  }

  lemma {:induction false} FilterRsyncAppend(a: seq<string>, b: seq<string>)
    ensures FilterRsyncStderr(a + b) == FilterRsyncStderr(a) + FilterRsyncStderr(b)
    decreases |a|
  {
    if a != [] {
      FilterRsyncAppend(a[1..], b);
      var head := if ShownRsyncLine(a[0]) then [a[0]] else [];
      assert (a + b)[0] == a[0];
      assert (a + b)[1..] == a[1..] + b;
      assert FilterRsyncStderr(a + b) == head + FilterRsyncStderr(a[1..] + b);
      assert FilterRsyncStderr(a) == head + FilterRsyncStderr(a[1..]);
      assert head + (FilterRsyncStderr(a[1..]) + FilterRsyncStderr(b)) == (head + FilterRsyncStderr(a[1..])) + FilterRsyncStderr(b);
    } else {
      assert a + b == b;
    }
  }

  function EchoAll(lines: seq<string>): (r: seq<Event>)
    ensures |r| == |lines| && forall i :: 0 <= i < |lines| ==> r[i] == Echo(lines[i])
  {
    seq(|lines|, i requires 0 <= i < |lines| => Echo(lines[i]))
  }

  /** The loop printing rsync's error lines. */
  method PrintRsyncStderr(lines: seq<string>) returns (events: seq<Event>)
    ensures events == EchoAll(FilterRsyncStderr(lines))
  {
    events := [];
    for i := 0 to |lines|
      invariant events == EchoAll(FilterRsyncStderr(lines[..i]))
    {
      var line := lines[i];
      if line != "" && !Contains(line, PermissionDenied) && !Contains(line, PartialTransfer) {
        events := events + [Echo(line)];
      }
      assert lines[..i + 1] == lines[..i] + [line];
      FilterRsyncAppend(lines[..i], [line]);
    }
    assert lines[..|lines|] == lines;
  }

  // ---------------------------------------------------------------------
  // One command, and the loop

  /** The message the exception handler records. */
  function ErrorMessage(line: nat, cmd: Cmd, e: Exception): (m: string)
    ensures m != ""
  {
    "Error baka line: " + NatToString(line) + " For: " + Shlex.Join(cmd) + " " + e.name + " " + e.args
  }

  /** The exception handler: record the message, show it, end the loop. */
  function Raise(st: State, cmd: Cmd, line: nat, e: Exception): State {
    var m := ErrorMessage(line, cmd, e);
    st.(output := st.output + [m], errorMessage := m, terminal := st.terminal + [ErrLine(m)], stopped := true)
  }

  /** A job's command after the prompt: run it, count a failure, route and
      collect its output. */
  function RunJobCommand(cmd: Cmd, capture: bool, verbosity: string, outcome: Outcome, i: nat, st: State): State {
    match outcome
    case Raised(e) => Raise(st, cmd, 296, e)
    case Completed(code, out, err) =>
      st.(terminal := st.terminal + Routed(capture, verbosity, out, err),
          returnCode := if code != 0 then st.returnCode + 1 else st.returnCode,
          output := st.output + (if capture then [">>> " + Shlex.Join(cmd), Strip(out), Strip(err), "\n"] else []),
          ran := st.ran + [i])
  }

  function JobStep(job: seq<(string, Json)>, cmd: Cmd, outcome: Outcome, i: nat, st: State): State {
    match CaptureOutput(job)
    case Err(e) => Raise(st, cmd, 269, e)
    case Ok(capture) =>
      match Verbosity(job)
      case Err(e) => Raise(st, cmd, 273, e)
      case Ok(v) =>
        var st1 := if v == "debug" then st.(terminal := st.terminal + [Echo(Blue(Shlex.Join(cmd)))]) else st;
        if !Interactive(job) then RunJobCommand(cmd, capture, v, outcome, i, st1)
        else AskThenRun(cmd, capture, v, outcome, i, st1)
  }

  /** The prompt of an interactive job and what the answer does: run the
      command, skip it, or end the loop. */
  function AskThenRun(cmd: Cmd, capture: bool, verbosity: string, outcome: Outcome, i: nat, st: State): State {
    var st2 := st.(terminal := st.terminal + [Prompt(ContinuePrompt)]);
    if st2.responses == [] then Raise(st2, cmd, 279, EndOfInput)
    else
      var st3 := st2.(responses := st2.responses[1..]);
      match Decide(st2.responses[0])
      case Yes => RunJobCommand(cmd, capture, verbosity, outcome, i, st3)
      case Skip => st3
      case No => st3.(stopped := true)
      case Invalid => st3.(terminal := st3.terminal + [Echo(InvalidResponse)], stopped := true)
  }

  /** A command outside a job: rsync with its error lines filtered, anything
      else with its output going straight to the terminal. */
  function PlainStep(cmd: Cmd, outcome: Outcome, i: nat, st: State): State {
    if cmd == [] then Raise(st, cmd, 311, EmptyCommand)
    else if cmd[0] == "rsync" then
      match outcome
      case Raised(e) => Raise(st, cmd, 313, e)
      case Completed(_, out, err) =>
        st.(terminal := st.terminal + [ProcOut(out)] + EchoAll(FilterRsyncStderr(SplitLines(err))), ran := st.ran + [i])
    else
      match outcome
      case Raised(e) => Raise(st, cmd, 319, e)
      case Completed(_, out, err) => st.(terminal := st.terminal + [ProcOut(out), ProcErr(err)], ran := st.ran + [i])
  }

  /** One pass of the loop, for the command at index `i`. */
  function Step(ctx: Context, cmds: seq<Cmd>, run: nat -> Outcome, i: nat, st: State): State
    requires i < |cmds|
  {
    var cmd := cmds[i];
    if ctx.dryRun then
      st.(terminal := st.terminal + [Echo(Shlex.Join(cmd))], output := st.output + ["dry-run", ">>> " + Shlex.Join(cmd)])
    else
      match ctx.job
      case Some(job) => JobStep(job, cmd, run(i), i, st)
      case None => PlainStep(cmd, run(i), i, st)
  }

  /** The loop from index `i` on. `run(i)` is what running the command at
      index `i` yields. */
  function RunFrom(ctx: Context, cmds: seq<Cmd>, run: nat -> Outcome, i: nat, st: State): State
    requires i <= |cmds|
    decreases |cmds| - i
  {
    if i == |cmds| || st.stopped then st else RunFrom(ctx, cmds, run, i + 1, Step(ctx, cmds, run, i, st))
  }

  function Start(responses: seq<string>): State {
    State([], 0, "", [], responses, [], false)
  }

  function RunAll(ctx: Context, cmds: seq<Cmd>, run: nat -> Outcome, responses: seq<string>): State {
    RunFrom(ctx, cmds, run, 0, Start(responses))
  }

  /** One pass of the loop for a command of a job. `raised` is the exception
      that ends the loop and the line it is raised at; `stop` is a `break` on
      the user's answer. */
  method JobPass(job: seq<(string, Json)>, cmd: Cmd, outcome: Outcome, i: nat,
                 output: seq<string>, returnCode: nat, terminal: seq<Event>, pending: seq<string>, ghost ran: seq<nat>)
    returns (output': seq<string>, returnCode': nat, terminal': seq<Event>, pending': seq<string>, ghost ran': seq<nat>,
             raised: Option<(nat, Exception)>, stop: bool)
    ensures var after := JobStep(job, cmd, outcome, i, State(output, returnCode, "", terminal, pending, ran, false));
      match raised
      case Some((line, e)) => after == Raise(State(output', returnCode', "", terminal', pending', ran', false), cmd, line, e)
      case None => after == State(output', returnCode', "", terminal', pending', ran', stop)
  {
    output', returnCode', terminal', pending', ran', raised, stop := output, returnCode, terminal, pending, ran, None, false;
    var captured := CaptureOutput(job);
    if captured.Err? {
      raised := Some((269, captured.error));
      return;
    }
    var capture := captured.value;
    var level := Verbosity(job);
    if level.Err? {
      raised := Some((273, level.error));
      return;
    }
    var verbosity := level.value;
    if verbosity == "debug" {
      terminal' := terminal' + [Echo(Blue(Shlex.Join(cmd)))];
    }
    if Interactive(job) {
      output', returnCode', terminal', pending', ran', raised, stop :=
        Ask(cmd, capture, verbosity, outcome, i, output', returnCode', terminal', pending', ran');
    } else {
      output', returnCode', terminal', ran', raised :=
        CommandPass(cmd, capture, verbosity, outcome, i, output', returnCode', terminal', pending', ran');
    }
  }

  /** The prompt of an interactive job, then the command if the answer is yes. */
  method Ask(cmd: Cmd, capture: bool, verbosity: string, outcome: Outcome, i: nat,
             output: seq<string>, returnCode: nat, terminal: seq<Event>, pending: seq<string>, ghost ran: seq<nat>)
    returns (output': seq<string>, returnCode': nat, terminal': seq<Event>, pending': seq<string>, ghost ran': seq<nat>,
             raised: Option<(nat, Exception)>, stop: bool)
    ensures var after := AskThenRun(cmd, capture, verbosity, outcome, i, State(output, returnCode, "", terminal, pending, ran, false));
      match raised
      case Some((line, e)) => after == Raise(State(output', returnCode', "", terminal', pending', ran', false), cmd, line, e)
      case None => after == State(output', returnCode', "", terminal', pending', ran', stop)
  {
    output', returnCode', terminal', pending', ran', raised, stop := output, returnCode, terminal, pending, ran, None, false;
    terminal' := terminal' + [Prompt(ContinuePrompt)];
    if pending' == [] {
      raised := Some((279, EndOfInput));
      return;
    }
    var response := pending'[0];
    pending' := pending'[1..];
    var answer := Decide(response);
    if answer == No {
      stop := true;
    } else if answer == Skip {
    } else if answer == Invalid {
      terminal' := terminal' + [Echo(InvalidResponse)];
      stop := true;
    } else {
      output', returnCode', terminal', ran', raised :=
        CommandPass(cmd, capture, verbosity, outcome, i, output', returnCode', terminal', pending', ran');
    }
  }

  /** The rest of a pass for a command of a job: run it, count a failure,
      route and collect its output. */
  method CommandPass(cmd: Cmd, capture: bool, verbosity: string, outcome: Outcome, i: nat,
                     output: seq<string>, returnCode: nat, terminal: seq<Event>, pending: seq<string>, ghost ran: seq<nat>)
    returns (output': seq<string>, returnCode': nat, terminal': seq<Event>, ghost ran': seq<nat>, raised: Option<(nat, Exception)>)
    ensures var after := RunJobCommand(cmd, capture, verbosity, outcome, i, State(output, returnCode, "", terminal, pending, ran, false));
      match raised
      case Some((line, e)) => after == Raise(State(output', returnCode', "", terminal', pending, ran', false), cmd, line, e)
      case None => after == State(output', returnCode', "", terminal', pending, ran', false)
  {
    output', returnCode', terminal', ran', raised := output, returnCode, terminal, ran, None;
    if outcome.Raised? {
      raised := Some((296, outcome.exc));
      return;
    }
    output', returnCode', terminal', ran' :=
      CompletedPass(cmd, capture, verbosity, outcome.code, outcome.stdout, outcome.stderr, i, output, returnCode, terminal, ran);
  }

  /** A command that ran: its streams, the failure count, the replay and
      the collected output. */
  method CompletedPass(cmd: Cmd, capture: bool, verbosity: string, code: int, out: string, err: string, i: nat,
                   output: seq<string>, returnCode: nat, terminal: seq<Event>, ghost ran: seq<nat>)
    returns (output': seq<string>, returnCode': nat, terminal': seq<Event>, ghost ran': seq<nat>)
    ensures output' == output + (if capture then [">>> " + Shlex.Join(cmd), Strip(out), Strip(err), "\n"] else [])
    ensures returnCode' == if code != 0 then returnCode + 1 else returnCode
    ensures terminal' == terminal + Routed(capture, verbosity, out, err)
    ensures ran' == ran + [i]
  {
    var live := LiveStreams(capture, verbosity, out, err);
    terminal' := terminal + live;
    returnCode' := returnCode;
    if code != 0 {
      returnCode' := returnCode' + 1;
    }
    ran' := ran + [i];
    var replayed := ReplayCaptured(capture, verbosity, out, err);
    terminal' := terminal' + replayed;
    output' := output;
    if capture {
      output' := output' + [">>> " + Shlex.Join(cmd), Strip(out), Strip(err), "\n"];
    }
    LiveThenReplay(capture, verbosity, out, err);
    assert terminal + live + replayed == terminal + (live + replayed);
  }

  /** The streams handed to the process: stdout and stderr go to the
      terminal as the verbosity allows, unless output is captured. */
  function Live(capture: bool, verbosity: string, out: string, err: string): seq<Event> {
    if capture then []
    else (if ShowsStdout(verbosity) then [ProcOut(out)] else []) + (if ShowsStderr(verbosity) then [ProcErr(err)] else [])
  }

  /** After the process: captured output written back as the verbosity
      allows, or the empty line printed after a process that wrote its error
      output itself. */
  function Replay(capture: bool, verbosity: string, out: string, err: string): seq<Event> {
    if capture then
      (if ShowsStdout(verbosity) then [ProcOut(out)] else []) + (if ShowsStderr(verbosity) then [ProcErr(err), Echo("\n")] else [])
    else if ShowsStderr(verbosity) then [Echo("")] else []
  }

  /** The live streams followed by the replay are the routing table's events. */
  lemma LiveThenReplay(capture: bool, verbosity: string, out: string, err: string)
    ensures Live(capture, verbosity, out, err) + Replay(capture, verbosity, out, err) == Routed(capture, verbosity, out, err)
  {
    var shownOut: seq<Event> := if ShowsStdout(verbosity) then [ProcOut(out)] else [];
    if capture {
      assert Live(capture, verbosity, out, err) == [];
    } else if ShowsStderr(verbosity) {
      assert shownOut + [ProcErr(err)] + [Echo("")] == shownOut + [ProcErr(err), Echo("")];
    } else {
      assert !ShowsStdout(verbosity);
    }
  }

  method LiveStreams(capture: bool, verbosity: string, out: string, err: string) returns (events: seq<Event>)
    ensures events == Live(capture, verbosity, out, err)
  {
    events := [];
    if !capture {
      if ShowsStdout(verbosity) {
        events := events + [ProcOut(out)];
      }
      if ShowsStderr(verbosity) {
        events := events + [ProcErr(err)];
      }
    }
  }

  method ReplayCaptured(capture: bool, verbosity: string, out: string, err: string) returns (events: seq<Event>)
    ensures events == Replay(capture, verbosity, out, err)
  {
    events := [];
    if capture {
      if ShowsStdout(verbosity) {
        events := events + [ProcOut(out)];
      }
      if ShowsStderr(verbosity) {
        events := events + [ProcErr(err), Echo("\n")];
      }
    } else if ShowsStderr(verbosity) {
      events := events + [Echo("")];
    }
  }

  /** One pass of the loop for a command outside a job. */
  method PlainPass(cmd: Cmd, outcome: Outcome, i: nat, terminal: seq<Event>, ghost ran: seq<nat>)
    returns (terminal': seq<Event>, ghost ran': seq<nat>, raised: Option<(nat, Exception)>)
    ensures forall output, returnCode, pending ::
      var after := PlainStep(cmd, outcome, i, State(output, returnCode, "", terminal, pending, ran, false));
      match raised
      case Some((line, e)) => after == Raise(State(output, returnCode, "", terminal', pending, ran', false), cmd, line, e)
      case None => after == State(output, returnCode, "", terminal', pending, ran', false)
  {
    terminal', ran', raised := terminal, ran, None;
    if cmd == [] {
      raised := Some((311, EmptyCommand));
    } else if cmd[0] == "rsync" {
      if outcome.Raised? {
        raised := Some((313, outcome.exc));
        return;
      }
      terminal' := terminal' + [ProcOut(outcome.stdout)];
      var shown := PrintRsyncStderr(SplitLines(outcome.stderr));
      terminal' := terminal' + shown;
      ran' := ran' + [i];
    } else {
      if outcome.Raised? {
        raised := Some((319, outcome.exc));
        return;
      }
      terminal' := terminal' + [ProcOut(outcome.stdout), ProcErr(outcome.stderr)];
      ran' := ran' + [i];
    }
  }

  /** The execution loop and its exception handler. */
  method RunCommands(ctx: Context, cmds: seq<Cmd>, run: nat -> Outcome, responses: seq<string>)
    returns (commandOutput: seq<string>, returnCode: nat, errorMessage: string, terminal: seq<Event>)
    ensures commandOutput == RunAll(ctx, cmds, run, responses).output
    ensures returnCode == RunAll(ctx, cmds, run, responses).returnCode
    ensures errorMessage == RunAll(ctx, cmds, run, responses).errorMessage
    ensures terminal == RunAll(ctx, cmds, run, responses).terminal
  {
    ghost var final := RunAll(ctx, cmds, run, responses);
    commandOutput, returnCode, errorMessage, terminal := [], 0, "", [];
    var pending := responses;
    ghost var ran: seq<nat> := [];
    var raised: Option<(nat, Cmd, Exception)> := None;
    for i := 0 to |cmds|
      invariant final == RunFrom(ctx, cmds, run, i, State(commandOutput, returnCode, "", terminal, pending, ran, false))
      invariant raised.None? && errorMessage == ""
    {
      ghost var before := State(commandOutput, returnCode, "", terminal, pending, ran, false);
      assert final == RunFrom(ctx, cmds, run, i + 1, Step(ctx, cmds, run, i, before));
      var cmd := cmds[i];
      if ctx.dryRun {
        terminal := terminal + [Echo(Shlex.Join(cmd))];
        commandOutput := commandOutput + ["dry-run", ">>> " + Shlex.Join(cmd)];
      } else {
        var failure: Option<(nat, Exception)>;
        var stop := false;
        if ctx.job.Some? {
          commandOutput, returnCode, terminal, pending, ran, failure, stop :=
            JobPass(ctx.job.value, cmd, run(i), i, commandOutput, returnCode, terminal, pending, ran);
        } else {
          terminal, ran, failure := PlainPass(cmd, run(i), i, terminal, ran);
        }
        if failure.Some? {
          raised := Some((failure.value.0, cmd, failure.value.1));
          break;
        }
        if stop {
          break;
        }
      }
    }
    if raised.Some? {
      var (line, cmd, e) := raised.value;
      errorMessage := ErrorMessage(line, cmd, e);
      commandOutput := commandOutput + [errorMessage];
      terminal := terminal + [ErrLine(errorMessage)];
    }
  }
}
