/** What the execution loop guarantees over all its passes: the return code
    counts the failed commands of a job, an exception ends the loop with its
    message last, and each mode leaves its own shape of collected output. */
module RunnerProperties {
  import opened Wrappers
  import opened Json
  import opened Strings
  import Shlex
  import opened Sync
  import opened Runner

  /** The number of commands among `ran` that exited with a non-zero code. */
  function Failures(run: nat -> Outcome, ran: seq<nat>): (n: nat)
    ensures n <= |ran|
    decreases |ran|
  {
    if ran == [] then 0
    else
      var k := ran[|ran| - 1];
      Failures(run, ran[..|ran| - 1]) + (if run(k).Completed? && run(k).code != 0 then 1 else 0)
  }

  lemma FailuresAppend(run: nat -> Outcome, ran: seq<nat>, k: nat)
    ensures Failures(run, ran + [k]) == Failures(run, ran) + (if run(k).Completed? && run(k).code != 0 then 1 else 0)
  {
    assert (ran + [k])[..|ran|] == ran;
  }

  predicate Increasing(ran: seq<nat>) {
    forall a, b :: 0 <= a < b < |ran| ==> ran[a] < ran[b]
  }

  /** The commands that ran are among the first `i`, each at most once and in
      order, each completed, and the return code counts the failed ones in a
      job (and is 0 otherwise). */
  predicate Accounted(ctx: Context, run: nat -> Outcome, i: nat, st: State) {
    Increasing(st.ran)
    && (forall k :: 0 <= k < |st.ran| ==> st.ran[k] < i && run(st.ran[k]).Completed?)
    && st.returnCode == (if ctx.job.Some? && !ctx.dryRun then Failures(run, st.ran) else 0)
    && (ctx.dryRun ==> st.ran == [])
  }

  /** What one pass collects for a command that ran: four lines in a job that
      captures output, nothing otherwise. */
  function Collected(ctx: Context, cmd: Cmd, out: string, err: string): seq<string> {
    match ctx.job
    case Some(job) => if CaptureOutput(job) == Ok(true) then [">>> " + Shlex.Join(cmd), Strip(out), Strip(err), "\n"] else []
    case None => []
  }

  function DryLines(ctx: Context, cmd: Cmd): seq<string> {
    if ctx.dryRun then ["dry-run", ">>> " + Shlex.Join(cmd)] else []
  }

  /** The pass ended in the exception handler. */
  predicate RaisedFrom(st: State, next: State) {
    next.stopped && next.errorMessage != "" && next.output == st.output + [next.errorMessage]
    && next.terminal != [] && next.terminal[|next.terminal| - 1] == ErrLine(next.errorMessage)
    && next.ran == st.ran && next.returnCode == st.returnCode
  }

  /** The pass ran command `i` to completion. */
  predicate RanFrom(ctx: Context, cmd: Cmd, run: nat -> Outcome, i: nat, st: State, next: State) {
    !ctx.dryRun && run(i).Completed? && !next.stopped && next.errorMessage == st.errorMessage
    && next.ran == st.ran + [i]
    && next.returnCode == st.returnCode + (if ctx.job.Some? && run(i).code != 0 then 1 else 0)
    && next.output == st.output + Collected(ctx, cmd, run(i).stdout, run(i).stderr)
  }

  /** The pass ran nothing: a dry run, or a command skipped or refused at the
      prompt. */
  predicate HeldFrom(ctx: Context, cmd: Cmd, st: State, next: State) {
    next.errorMessage == st.errorMessage && next.ran == st.ran && next.returnCode == st.returnCode
    && next.output == st.output + DryLines(ctx, cmd)
    && (ctx.dryRun ==> !next.stopped)
  }

  predicate PassFrom(ctx: Context, cmd: Cmd, run: nat -> Outcome, i: nat, st: State, next: State) {
    RaisedFrom(st, next) || RanFrom(ctx, cmd, run, i, st, next) || HeldFrom(ctx, cmd, st, next)
  }

  lemma RaiseIsRaised(st: State, mid: State, cmd: Cmd, line: nat, e: Exception)
    requires mid.output == st.output && mid.ran == st.ran && mid.returnCode == st.returnCode
    ensures RaisedFrom(st, Raise(mid, cmd, line, e))
  {
  }

  lemma {:induction false} JobCommandPass(ctx: Context, cmd: Cmd, run: nat -> Outcome, i: nat, v: string, st: State, mid: State)
    requires ctx.job.Some? && !ctx.dryRun && CaptureOutput(ctx.job.value).Ok?
    requires mid.output == st.output && mid.ran == st.ran && mid.returnCode == st.returnCode && mid.errorMessage == st.errorMessage
    requires !mid.stopped
    ensures PassFrom(ctx, cmd, run, i, st, RunJobCommand(cmd, CaptureOutput(ctx.job.value).value, v, run(i), i, mid))
  {
    match run(i)
    case Raised(e) => RaiseIsRaised(st, mid, cmd, 296, e);
    case Completed(code, out, err) =>
      var capture := CaptureOutput(ctx.job.value).value;
      assert Collected(ctx, cmd, out, err) == if capture then [">>> " + Shlex.Join(cmd), Strip(out), Strip(err), "\n"] else [];
  }

  lemma {:induction false} AskPass(ctx: Context, cmd: Cmd, run: nat -> Outcome, i: nat, v: string, st: State, st1: State)
    requires ctx.job.Some? && !ctx.dryRun && CaptureOutput(ctx.job.value).Ok?
    requires st1.output == st.output && st1.ran == st.ran && st1.returnCode == st.returnCode && st1.errorMessage == st.errorMessage
    requires !st1.stopped
    ensures PassFrom(ctx, cmd, run, i, st, AskThenRun(cmd, CaptureOutput(ctx.job.value).value, v, run(i), i, st1))
  {
    var st2 := st1.(terminal := st1.terminal + [Prompt(ContinuePrompt)]);
    if st2.responses == [] {
      RaiseIsRaised(st, st2, cmd, 279, EndOfInput);
    } else {
      var st3 := st2.(responses := st2.responses[1..]);
      assert DryLines(ctx, cmd) == [];
      if Decide(st2.responses[0]) == Yes {
        JobCommandPass(ctx, cmd, run, i, v, st, st3);
      }
    }
  }

  lemma {:induction false} JobStepPass(ctx: Context, cmd: Cmd, run: nat -> Outcome, i: nat, st: State)
    requires ctx.job.Some? && !ctx.dryRun && !st.stopped
    ensures PassFrom(ctx, cmd, run, i, st, JobStep(ctx.job.value, cmd, run(i), i, st))
  {
    var job := ctx.job.value;
    match CaptureOutput(job)
    case Err(e) => RaiseIsRaised(st, st, cmd, 269, e);
    case Ok(capture) =>
      match Verbosity(job)
      case Err(e) => RaiseIsRaised(st, st, cmd, 273, e);
      case Ok(v) =>
        var st1 := if v == "debug" then st.(terminal := st.terminal + [Echo(Blue(Shlex.Join(cmd)))]) else st;
        if !Interactive(job) {
          JobCommandPass(ctx, cmd, run, i, v, st, st1);
        } else {
          AskPass(ctx, cmd, run, i, v, st, st1);
        }
  }

  lemma {:induction false} PlainStepPass(ctx: Context, cmd: Cmd, run: nat -> Outcome, i: nat, st: State)
    requires ctx.job.None? && !ctx.dryRun && !st.stopped
    ensures PassFrom(ctx, cmd, run, i, st, PlainStep(cmd, run(i), i, st))
  {
    if cmd == [] {
      RaiseIsRaised(st, st, cmd, 311, EmptyCommand);
    } else {
      match run(i)
      case Raised(e) => RaiseIsRaised(st, st, cmd, if cmd[0] == "rsync" then 313 else 319, e);
      case Completed(_, out, err) =>
        var next := PlainStep(cmd, run(i), i, st);
        assert next.output == st.output && next.ran == st.ran + [i] && next.returnCode == st.returnCode;
        assert Collected(ctx, cmd, out, err) == [] && st.output + [] == st.output;
        assert RanFrom(ctx, cmd, run, i, st, next);
    }
  }

  /** Every pass of the loop raises, runs its command, or runs nothing. */
  lemma {:induction false} StepPass(ctx: Context, cmds: seq<Cmd>, run: nat -> Outcome, i: nat, st: State)
    requires i < |cmds| && !st.stopped
    ensures PassFrom(ctx, cmds[i], run, i, st, Step(ctx, cmds, run, i, st))
  {
    if ctx.dryRun {
    } else if ctx.job.Some? {
      JobStepPass(ctx, cmds[i], run, i, st);
    } else {
      PlainStepPass(ctx, cmds[i], run, i, st);
    }
  }

  lemma {:induction false} PassAccounted(ctx: Context, cmd: Cmd, run: nat -> Outcome, i: nat, st: State, next: State)
    requires Accounted(ctx, run, i, st) && PassFrom(ctx, cmd, run, i, st, next)
    ensures Accounted(ctx, run, i + 1, next)
  {
    if RanFrom(ctx, cmd, run, i, st, next) {
      FailuresAppend(run, st.ran, i);
    }
  }

  /** The error message is empty until an exception is handled; then the
      loop has ended and the message is the last collected line and the last
      thing shown. */
  predicate ErrorRecorded(st: State) {
    st.errorMessage == ""
    || (st.stopped && st.output != [] && st.output[|st.output| - 1] == st.errorMessage
        && st.terminal != [] && st.terminal[|st.terminal| - 1] == ErrLine(st.errorMessage))
  }

  /** The collected output of each mode: nothing but the error outside a
      job, four lines per command that ran in a job that captures output and
      none in one that does not, and the error message last if there is one. */
  predicate OutputShape(ctx: Context, st: State) {
    var err := if st.errorMessage == "" then 0 else 1;
    !ctx.dryRun ==>
      match ctx.job
      case None => st.output == (if st.errorMessage == "" then [] else [st.errorMessage])
      case Some(job) =>
        CaptureOutput(job).Ok? ==>
          |st.output| == (if CaptureOutput(job).value then 4 else 0) * |st.ran| + err
  }

  predicate Invariant(ctx: Context, run: nat -> Outcome, i: nat, st: State) {
    Accounted(ctx, run, i, st) && ErrorRecorded(st) && OutputShape(ctx, st)
    && (!st.stopped ==> st.errorMessage == "")
  }

  lemma {:induction false} PassInvariant(ctx: Context, cmd: Cmd, run: nat -> Outcome, i: nat, st: State, next: State)
    requires Invariant(ctx, run, i, st) && !st.stopped && PassFrom(ctx, cmd, run, i, st, next)
    ensures Invariant(ctx, run, i + 1, next)
  {
    PassAccounted(ctx, cmd, run, i, st, next);
    if ctx.job.Some? && !ctx.dryRun && CaptureOutput(ctx.job.value).Ok? && RanFrom(ctx, cmd, run, i, st, next) {
      assert |Collected(ctx, cmd, run(i).stdout, run(i).stderr)| == if CaptureOutput(ctx.job.value).value then 4 else 0;
    }
  }

  lemma {:induction false} RunFromInvariant(ctx: Context, cmds: seq<Cmd>, run: nat -> Outcome, i: nat, st: State)
    requires i <= |cmds| && Invariant(ctx, run, i, st)
    ensures Invariant(ctx, run, |cmds|, RunFrom(ctx, cmds, run, i, st))
    decreases |cmds| - i
  {
    if i < |cmds| && !st.stopped {
      var next := Step(ctx, cmds, run, i, st);
      StepPass(ctx, cmds, run, i, st);
      PassInvariant(ctx, cmds[i], run, i, st, next);
      RunFromInvariant(ctx, cmds, run, i + 1, next);
    } else if i < |cmds| {
      assert Invariant(ctx, run, |cmds|, st) by {
        forall k | 0 <= k < |st.ran| ensures st.ran[k] < |cmds| {}
      }
    }
  }

  /** The loop as a whole: the return code is the number of failed commands
      of a job (0 outside a job and in a dry run), each command runs at most
      once and in order, an error message is the last line of the collected
      output and the last thing shown, and the collected output has its
      mode's shape. */
  lemma RunAllProperties(ctx: Context, cmds: seq<Cmd>, run: nat -> Outcome, responses: seq<string>)
    ensures var r := RunAll(ctx, cmds, run, responses);
      && r.returnCode == (if ctx.job.Some? && !ctx.dryRun then Failures(run, r.ran) else 0)
      && Increasing(r.ran)
      && (forall k :: 0 <= k < |r.ran| ==> r.ran[k] < |cmds| && run(r.ran[k]).Completed?)
      && (r.errorMessage != "" ==> r.output != [] && r.output[|r.output| - 1] == r.errorMessage
                                   && r.terminal != [] && r.terminal[|r.terminal| - 1] == ErrLine(r.errorMessage))
      && OutputShape(ctx, r)
  {
    RunFromInvariant(ctx, cmds, run, 0, Start(responses));
  }

  // ---------------------------------------------------------------------
  // Dry runs

  /** What a dry run collects: "dry-run" and the quoted command, per command. */
  function DryOutput(cmds: seq<Cmd>): (r: seq<string>)
    ensures |r| == 2 * |cmds|
    decreases |cmds|
  {
    if cmds == [] then [] else ["dry-run", ">>> " + Shlex.Join(cmds[0])] + DryOutput(cmds[1..])
  }

  /** The two lines a dry run collects for the command at index `k`. */
  lemma {:induction false} DryOutputAt(cmds: seq<Cmd>, k: nat)
    requires k < |cmds|
    ensures DryOutput(cmds)[2 * k] == "dry-run"
    ensures DryOutput(cmds)[2 * k + 1] == ">>> " + Shlex.Join(cmds[k])
    decreases k
  {
    var head, rest := ["dry-run", ">>> " + Shlex.Join(cmds[0])], DryOutput(cmds[1..]);
    assert DryOutput(cmds) == head + rest;
    if k > 0 {
      var j := 2 * (k - 1);
      DryOutputAt(cmds[1..], k - 1);
      assert cmds[1..][k - 1] == cmds[k];
      assert (head + rest)[j + 2] == rest[j] && (head + rest)[j + 3] == rest[j + 1];
    }
  }

  function DryEchoes(cmds: seq<Cmd>): (r: seq<Event>)
    ensures |r| == |cmds| && forall k :: 0 <= k < |cmds| ==> r[k] == Echo(Shlex.Join(cmds[k]))
  {
    seq(|cmds|, k requires 0 <= k < |cmds| => Echo(Shlex.Join(cmds[k])))
  }

  /** The state after a dry run of the commands from index `i` on. */
  function DryFrom(cmds: seq<Cmd>, i: nat, st: State): State
    requires i <= |cmds|
  {
    st.(output := st.output + DryOutput(cmds[i..]), terminal := st.terminal + DryEchoes(cmds[i..]))
  }

  lemma RunFromUnfold(ctx: Context, cmds: seq<Cmd>, run: nat -> Outcome, i: nat, st: State)
    requires i < |cmds| && !st.stopped
    ensures RunFrom(ctx, cmds, run, i, st) == RunFrom(ctx, cmds, run, i + 1, Step(ctx, cmds, run, i, st))
  {
  }

  lemma DryStep(ctx: Context, cmds: seq<Cmd>, run: nat -> Outcome, i: nat, st: State)
    requires ctx.dryRun && i < |cmds|
    ensures Step(ctx, cmds, run, i, st)
         == st.(output := st.output + ["dry-run", ">>> " + Shlex.Join(cmds[i])], terminal := st.terminal + [Echo(Shlex.Join(cmds[i]))])
  {
  }

  /** One dry pass, then the dry run of the rest, is the dry run from `i`. */
  lemma DrySplit(cmds: seq<Cmd>, i: nat, st: State)
    requires i < |cmds|
    ensures DryFrom(cmds, i + 1, st.(output := st.output + ["dry-run", ">>> " + Shlex.Join(cmds[i])],
                                     terminal := st.terminal + [Echo(Shlex.Join(cmds[i]))]))
         == DryFrom(cmds, i, st)
  {
    var lines, echo := ["dry-run", ">>> " + Shlex.Join(cmds[i])], [Echo(Shlex.Join(cmds[i]))];
    DryOutputFrom(cmds, i);
    DryEchoesFrom(cmds, i);
    assert st.output + lines + DryOutput(cmds[i + 1..]) == st.output + (lines + DryOutput(cmds[i + 1..]));
    assert st.terminal + echo + DryEchoes(cmds[i + 1..]) == st.terminal + (echo + DryEchoes(cmds[i + 1..]));
  }

  lemma DryOutputFrom(cmds: seq<Cmd>, i: nat)
    requires i < |cmds|
    ensures DryOutput(cmds[i..]) == ["dry-run", ">>> " + Shlex.Join(cmds[i])] + DryOutput(cmds[i + 1..])
  {
    assert cmds[i..][1..] == cmds[i + 1..];
  }

  lemma DryEchoesFrom(cmds: seq<Cmd>, i: nat)
    requires i < |cmds|
    ensures DryEchoes(cmds[i..]) == [Echo(Shlex.Join(cmds[i]))] + DryEchoes(cmds[i + 1..])
  {
    var left, right := DryEchoes(cmds[i..]), [Echo(Shlex.Join(cmds[i]))] + DryEchoes(cmds[i + 1..]);
    assert |left| == |right|;
    forall k | 0 <= k < |left|
      ensures left[k] == right[k]
    {
      if k > 0 {
        assert cmds[i..][k] == cmds[i + 1..][k - 1];
      }
    }
  }

  lemma {:induction false} DryRunFrom(ctx: Context, cmds: seq<Cmd>, run: nat -> Outcome, i: nat, st: State)
    requires ctx.dryRun && i <= |cmds| && !st.stopped
    ensures RunFrom(ctx, cmds, run, i, st) == DryFrom(cmds, i, st)
    decreases |cmds| - i
  {
    if i == |cmds| {
      assert cmds[i..] == [];
    } else {
      var next := st.(output := st.output + ["dry-run", ">>> " + Shlex.Join(cmds[i])],
                      terminal := st.terminal + [Echo(Shlex.Join(cmds[i]))]);
      RunFromUnfold(ctx, cmds, run, i, st);
      DryStep(ctx, cmds, run, i, st);
      DryRunFrom(ctx, cmds, run, i + 1, next);
      DrySplit(cmds, i, st);
    }
  }

  /** A dry run runs nothing, prompts for nothing and raises nothing: it
      shows every command and collects "dry-run" and the command for each. */
  lemma DryRun(ctx: Context, cmds: seq<Cmd>, run: nat -> Outcome, responses: seq<string>)
    requires ctx.dryRun
    ensures RunAll(ctx, cmds, run, responses)
         == State(DryOutput(cmds), 0, "", DryEchoes(cmds), responses, [], false)
  {
    DryRunFrom(ctx, cmds, run, 0, Start(responses));
    assert cmds[0..] == cmds;
    assert DryFrom(cmds, 0, Start(responses)) == State(DryOutput(cmds), 0, "", DryEchoes(cmds), responses, [], false);
  }

  // ---------------------------------------------------------------------
  // The prompt of an interactive job

  /** The prompt reads one answer: "yes" runs the command, "skip" goes on
      with the next one, "no" and anything else end the loop without running
      it, and no answer at all raises. */
  lemma AskAnswers(cmd: Cmd, capture: bool, v: string, outcome: Outcome, i: nat, st: State)
    requires !st.stopped
    ensures var next := AskThenRun(cmd, capture, v, outcome, i, st);
      && (st.responses == [] ==>
            next.stopped && next.errorMessage == ErrorMessage(279, cmd, EndOfInput) && next.ran == st.ran)
      && (st.responses != [] ==>
            && next.responses == st.responses[1..]
            && (Decide(st.responses[0]) == Skip ==>
                  !next.stopped && next.ran == st.ran && next.output == st.output && next.returnCode == st.returnCode)
            && (Decide(st.responses[0]) in {No, Invalid} ==>
                  next.stopped && next.errorMessage == st.errorMessage && next.ran == st.ran && next.output == st.output)
            && (Decide(st.responses[0]) == Invalid ==> next.terminal[|next.terminal| - 1] == Echo(InvalidResponse))
            && (Decide(st.responses[0]) == Yes && outcome.Completed? ==> next.ran == st.ran + [i]))
      && (st.responses != [] ==>
            var asked := st.(terminal := st.terminal + [Prompt(ContinuePrompt)], responses := st.responses[1..]);
            && (Decide(st.responses[0]) == Yes ==> next == RunJobCommand(cmd, capture, v, outcome, i, asked))
            && (Decide(st.responses[0]) == Skip ==> next == asked)
            && (Decide(st.responses[0]) == No ==> next == asked.(stopped := true))
            && (Decide(st.responses[0]) == Invalid ==>
                  next == asked.(terminal := asked.terminal + [Echo(InvalidResponse)], stopped := true)))
  {
  }

  /** One pass of an interactive job reads one answer, as the prompt
      decides; a job that is not interactive reads nothing. */
  lemma Answers(job: seq<(string, Json)>, cmd: Cmd, outcome: Outcome, i: nat, st: State)
    requires CaptureOutput(job).Ok? && Verbosity(job).Ok? && !st.stopped
    ensures var next := JobStep(job, cmd, outcome, i, st);
      && (!Interactive(job) ==> next.responses == st.responses)
      && (Interactive(job) && st.responses == [] ==>
            next.stopped && next.errorMessage == ErrorMessage(279, cmd, EndOfInput) && next.ran == st.ran)
      && (Interactive(job) && st.responses != [] ==>
            && next.responses == st.responses[1..]
            && (Decide(st.responses[0]) == Skip ==>
                  !next.stopped && next.ran == st.ran && next.output == st.output && next.returnCode == st.returnCode)
            && (Decide(st.responses[0]) in {No, Invalid} ==>
                  next.stopped && next.errorMessage == st.errorMessage && next.ran == st.ran && next.output == st.output)
            && (Decide(st.responses[0]) == Invalid ==> next.terminal[|next.terminal| - 1] == Echo(InvalidResponse))
            && (Decide(st.responses[0]) == Yes && outcome.Completed? ==> next.ran == st.ran + [i]))
  {
    var v := Verbosity(job).value;
    var capture := CaptureOutput(job).value;
    var st1 := if v == "debug" then st.(terminal := st.terminal + [Echo(Blue(Shlex.Join(cmd)))]) else st;
    if Interactive(job) {
      assert JobStep(job, cmd, outcome, i, st) == AskThenRun(cmd, capture, v, outcome, i, st1);
      AskAnswers(cmd, capture, v, outcome, i, st1);
    } else {
      assert JobStep(job, cmd, outcome, i, st) == RunJobCommand(cmd, capture, v, outcome, i, st1);
    }
  }

  /** Answering "skip" at every prompt runs nothing: the loop ends with no
      collected output, no error and return code 0. */
  lemma {:induction false} SkipAllFrom(ctx: Context, cmds: seq<Cmd>, run: nat -> Outcome, i: nat, st: State)
    requires ctx.job.Some? && !ctx.dryRun
    requires Interactive(ctx.job.value) && CaptureOutput(ctx.job.value).Ok? && Verbosity(ctx.job.value).Ok?
    requires i <= |cmds| && |st.responses| >= |cmds| - i
    requires forall k :: 0 <= k < |st.responses| ==> Decide(st.responses[k]) == Skip
    requires !st.stopped && st.ran == [] && st.output == [] && st.errorMessage == "" && st.returnCode == 0
    ensures var r := RunFrom(ctx, cmds, run, i, st);
      r.ran == [] && r.output == [] && r.errorMessage == "" && r.returnCode == 0
    decreases |cmds| - i
  {
    if i < |cmds| {
      var next := Step(ctx, cmds, run, i, st);
      Answers(ctx.job.value, cmds[i], run(i), i, st);
      assert forall k :: 0 <= k < |next.responses| ==> next.responses[k] == st.responses[k + 1];
      SkipAllFrom(ctx, cmds, run, i + 1, next);
    }
  }

  lemma SkipAll(ctx: Context, cmds: seq<Cmd>, run: nat -> Outcome, responses: seq<string>)
    requires ctx.job.Some? && !ctx.dryRun
    requires Interactive(ctx.job.value) && CaptureOutput(ctx.job.value).Ok? && Verbosity(ctx.job.value).Ok?
    requires |responses| >= |cmds| && forall k :: 0 <= k < |responses| ==> Decide(responses[k]) == Skip
    ensures var r := RunAll(ctx, cmds, run, responses);
      r.ran == [] && r.output == [] && r.errorMessage == "" && r.returnCode == 0
  {
    SkipAllFrom(ctx, cmds, run, 0, Start(responses));
  }
}
