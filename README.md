# baka: a verified model of its command pipeline

baka ("Baka Admin's Kludge Assistant") keeps a git repository under
`~/.baka` that mirrors a list of tracked system paths. Each run picks one
mode from the command line:

- `--commit`, `--install`, `--remove`, `--upgrade`, `--status`, `--verify` and
  `--diff` first sync the tracked paths into the repository with `rsync` and
  then run their git and package-manager commands.
- `--init` sets the repository up.
- `--log` and `--show` display history.
- `--job` runs a list of commands from the configuration. The job's entry can
  make the run interactive, set its verbosity, and send the collected output
  by email or write it to a file.

A run that gets past the selection of its commands appends a line to
`history.log` after the loop, unless it is a dry run, `--diff`, `--log` or
`--show`. A run that ends before the loop writes none. This happens when:

- no mode option is given;
- an assertion of `--status` or `--verify` fails;
- the job is not in the configuration (KeyError);
- the job's entry is not a dict (TypeError);
- the job's entry has no "commands" (KeyError);
- the input ends at the `--init` prompt;
- the model ends the run as ill-typed (`IllTypedConfig`, see "## Left out").

This project models the logic of `baka.py` that builds and runs those command
lists. All side effects become inputs or outputs:

- The loaded configuration is a JSON object given as its members.
- The home directory, host name and time stamp are strings.
- The existing directories are a set.
- What each command yields is a function from its index to an outcome.
- The lines typed at the terminal are a sequence.
- Everything shown on the terminal is a sequence of events.

Mirroring and deletion are left to `rsync -rlpt --delete` (baka.py:127).

Modules, in dependency order:

- `Wrappers`: `Option`, `Result`, and a Python exception as its name and
  `args` text.
- `Strings`: the `str` operations used: `strip`, `lower`, `splitlines`,
  `join`, `in`, `str()` of a number and `repr`/`str()` of a list of strings.
- `Shlex`: `shlex.quote` and `shlex.join`, written out after Python's
  documented behaviour.
- `Json`: loaded JSON values, Python truthiness and dict lookup. An object
  keeps document order, which is the dict's iteration order.
- `Paths`: `os.path.dirname`, `basename` and `expanduser` on POSIX paths.
- `Configuration`: `Config.__init__`. The defaults are a map, and the
  override loop is a constructor of a `Config` class whose `attrs` field is
  the instance's attribute dictionary.
- `Sync`: `rsync_and_git_add_all`. The `makedirs` loop is a method over the
  set of existing directories.
- `Pipeline`: the parsed arguments, the `if`/`elif` chain that picks the
  mode, and the commands of every mode.
- `Runner`: the execution loop of `main` and its exception handler. It is
  specified by a tail-recursive function over a state (`RunAll`) and
  implemented by a method with a `for` loop, `break` and early returns
  (`RunCommands`).
- `RunnerProperties`: invariants of the loop over all its passes, dry runs
  and the interactive prompt.
- `History`: the history line, built by a loop over `vars(args)`.
- `Baka`: `main` as a whole, as a function (`Main`) and as a method
  (`RunMain`) proved equal to it.

## Model

| member | source | states |
|---|---|---|
| Strings.Strip | baka.py:280 | The result has no white space at either end and is no longer than its input; with `StripLeft`/`StripRight` it is `s` without its leading and trailing white space. |
| Strings.Lower | baka.py:273 | Same length as the input, and every character is mapped by the ASCII lower-case table. |
| Strings.SplitLines | baka.py:314 | `str.splitlines()`: the text cut at each line boundary, `\r\n` counting as one, with no empty last line for a final boundary; `SplitLinesNoBreaks` and `SplitLinesJoin` state its properties. |
| Strings.SplitLinesNoBreaks | baka.py:314 | No line of `splitlines()` contains a line boundary. |
| Strings.SplitLinesJoin | baka.py:314 | For a text whose only line boundaries are newlines, joining its lines with newlines and adding back a final newline, if it had one, gives the text again. |
| Shlex.Quote | baka.py:261 | The quoted word is never empty, so `shlex.join` keeps an empty argument visible. |
| Shlex.Join | baka.py:261 | `shlex.join`: the quoted words separated by single spaces; `JoinQuoted` ties it to `" ".join`. |
| Shlex.JoinQuoted | baka.py:261 | `shlex.join(cmd)` is `" ".join` of `quote` applied to every word of `cmd`, as Python defines it. |
| Shlex.AllSafeChars | baka.py:261 | The safe-word test holds exactly when every character of the word is a letter, a digit or one of `_@%+=:,./-`. |
| Shlex.QuoteIdentity | baka.py:261 | `quote(s)` is `s` itself exactly when `s` is non-empty and all its characters are safe; every other word is changed. |
| Json.Get | baka.py:268 | A lookup finds a value exactly when the key is present, and the value found is that of a member with the key. |
| Paths.Dirname | baka.py:127 | `dirname(p)` is the part of `p` up to and including its last slash, kept whole when it is all slashes and otherwise without its trailing slashes, so it then ends in a character other than a slash. |
| Paths.Basename | baka.py:127 | `os.path.basename`: everything after the last slash; `DirnameSplit`, `BasenameAfterSlash` and `BasenameUnderBase` state its properties. |
| Paths.ExpandUser | baka.py:155 | `os.path.expanduser("~" + rest)`: the home directory without its trailing slashes, then `rest` (and "/" when both are empty); `ExpandUserNoTrailingSlash` states its properties. |
| Paths.DirnameSplit | baka.py:127 | Every path is its dirname, then a run of slashes only, then its basename. |
| Paths.BasenameAfterSlash | baka.py:127 | The basename holds no slash, and when the path holds one a slash comes right before the basename. |
| Paths.DirnameBelowBase | baka.py:127 | For a base without a trailing slash and an absolute path `p`, `dirname(base + p)` extends `base` and is a prefix of `base + p`. |
| Paths.BasenameUnderBase | baka.py:127 | Under the same conditions `base + p` and `p` have the same basename, so rsync puts the copy at `base + p`. |
| Paths.ExpandUserNoTrailingSlash | baka.py:155 | For a `rest` that does not end in a slash, `expanduser("~" + rest)` does not end in a slash either, and it starts with the home directory without its trailing slashes. |
| Configuration.Defaults | baka.py:67-108 | The defaults have exactly the eight attribute names. |
| Configuration.Override | baka.py:109-111 | A non-null value for an existing attribute replaces it whole; a null value or an unknown key changes nothing; the attribute names never change. |
| Configuration.Apply | baka.py:109-111 | The loading loop as a fold of `Override` over the loaded members, in order; `ApplyKeys`, `ApplyValue`, `ApplyIdempotent` and `ApplyIgnored` state its properties. |
| Configuration.LastValue | baka.py:109-111 | The value found is non-null and loaded for the key; none is found only when every loaded value for the key is null. |
| Configuration.ApplyKeys | baka.py:109-111 | After loading, the attribute names are the default names. |
| Configuration.ApplyValue | baka.py:109-111 | Each attribute ends with the last non-null value loaded for it, or keeps its default. |
| Configuration.ApplyIdempotent | baka.py:109-111 | Loading the same object a second time changes nothing. |
| Configuration.ApplyIgnored | baka.py:109-111 | Entries that are all null or unknown leave every attribute unchanged. |
| Configuration.Config.constructor | baka.py:60-111 | The loop over the loaded members leaves exactly the merged attributes, with the default names. |
| Configuration.Decode | baka.py:188-253 | Each of the seven settings is the value of its attribute when the mode uses it, and empty otherwise. Decoding fails exactly when a used attribute is missing or not of the shape the program uses it in (a list of strings, a dict, or a dict of strings). |
| Configuration.DecodeReadsOnly | baka.py:188-253 | Two attribute dictionaries that agree on the used attributes decode alike. |
| Configuration.DefaultsDecode | baka.py:103-107 | The defaults have the shapes the program uses for any set of used attributes, and the tracked paths are `/etc`, `~/.config` and `~/.local/share`. |
| Sync.SyncCommands | baka.py:127-129 | Exactly one `rsync -rlpt --delete p dirname(base + p)` per tracked path, in order, then one `git add --ignore-errors --all`. |
| Sync.MakeDestinations | baka.py:124-126 | Afterwards the directories are the existing ones plus the mirror directory of every tracked path, so `dirname(base + p)` exists for each `p`. |
| Sync.RsyncAndGitAddAll | baka.py:123-129 | Returns the sync commands and the directories that exist after the `makedirs` loop. |
| Sync.RsyncDestinations | baka.py:124-127 | For an absolute tracked path, the destination of its rsync command was created by the loop, starts with the repository path and is a prefix of `base + p`. |
| Sync.SyncRsyncOnly | baka.py:127-129 | Every command of the sync block is the final `git add` or the rsync command of a tracked path. |
| Pipeline.SelectedMode | baka.py:157-253 | The `if`/`elif` chain of `main` with Python's truth tests: the first option in the chain's order wins, an empty message, package list or job name falls through, and `--remove` counts whenever given; `SelectedInstallRemove` states the cases. |
| Pipeline.Commands | baka.py:157-253 | The command list of each mode, or the exception that ends `main` before the loop; `SyncBlockFirst`, `StatusGuarded`, `PackageChangeShape`, `RsyncOnlyFromSyncBlock`, `CommandsUseOnly` and `CommandsIllTyped` state its properties. |
| Pipeline.JobEntry | baka.py:218 | `config.jobs[args.job]`: KeyError for an unknown job and TypeError for an entry that is not a dict; `JobCommands` builds on it. |
| Pipeline.JobCommands | baka.py:218 | The job's "commands": KeyError when missing, ill-typed when not a list of lists of strings; `JobCommandsIllTyped` states when. |
| Pipeline.JobCommandsIllTyped | baka.py:218 | A job's commands are ill-typed exactly when the job is a dict whose "commands" is present but not a list of lists of strings. |
| Pipeline.CommandsIllTyped | baka.py:157-253 | Only `--job` can give an ill-typed command list, and exactly when the job's "commands" has another shape. |
| Pipeline.CheckCmds | baka.py:226-237 | One `bash -c` command per check, in order: the check's command, then the redirect (`> status/` for status, `\| tee verify/` for verify), the key and `.log`. |
| Pipeline.SyncBlockFirst | baka.py:188-247 | Commit, install, remove, upgrade, status (when its assertions hold), verify and diff produce a command list that begins with the sync block. |
| Pipeline.NoSyncForLogAndShow | baka.py:248-253 | Log and show run neither rsync nor `git add`. |
| Pipeline.StatusGuarded | baka.py:219-233 | Status produces commands exactly when "history" is not a status check and no status check is an integrity check, and verify exactly when the converse holds; otherwise each ends in an AssertionError. |
| Pipeline.CommandsUseOnly | baka.py:188-253 | Every mode's command list depends only on the attributes it uses: two configurations that agree on them give the same outcome. |
| Pipeline.PackageChangeShape | baka.py:193-215 | Install, remove and upgrade give the sync block, the pre-change commit, the package command, the sync block again and the final commit, `2n + 3` commands in all. |
| Pipeline.CheckCmdsNoRsync | baka.py:226-237 | The per-check commands of status and verify are never rsync commands. |
| Pipeline.RsyncOnlyFromSyncBlock | baka.py:157-253 | Outside a job, every rsync command of a mode is the rsync command of a tracked path, or the configured package command itself. |
| Pipeline.SelectedInstallRemove | baka.py:157-217 | With at most one mode option, install is chosen exactly for a non-empty package list, remove for any list including an empty one, and commit for a non-empty message. `--install` with nothing after it selects no mode. |
| Pipeline.RemoveWithoutPackages | baka.py:201-207 | `--remove` with no packages runs the bare remove command and commits "baka remove ". |
| Runner.EmailTo | baka.py:269 | True exactly when the job has an "email" dict whose "to" is truthy; it raises exactly for a truthy "email" that is not a dict or has no "to". |
| Runner.CaptureOutput | baka.py:267-270 | Output is captured exactly when "write" is truthy or the email has a truthy "to"; a truthy "write" skips the email test, which alone can raise. |
| Runner.Verbosity | baka.py:271-275 | The level is always debug, info, error or silent. A truthy value that is not a string raises. A string whose lower-cased form is a level yields that level; anything else yields debug. |
| Runner.RoutingTable | baka.py:289-310 | stdout reaches the terminal exactly for debug and info, stderr exactly for debug, info and error, and nothing for silent, whether or not the output is captured. |
| Runner.Decide | baka.py:279-288 | The answer is yes, no or skip exactly when the stripped response starts with y, n or s in either case; an empty response is invalid. |
| Runner.FilterRsyncStderr | baka.py:314-316 | Only shown lines remain: non-empty, without "Permission denied (13)" and without "(see previous errors) (code 23)". |
| Runner.FilterRsyncOrdered | baka.py:314-316 | The filtered lines are a subsequence of the input. |
| Runner.FilterRsyncCounts | baka.py:314-316 | Every shown line keeps its number of occurrences and every other line disappears. |
| Runner.FilterRsyncIdempotent | baka.py:314-316 | Filtering again changes nothing. |
| Runner.FilterRsyncAppend | baka.py:314-316 | Filtering distributes over concatenation, line by line. |
| Runner.PrintRsyncStderr | baka.py:314-316 | The loop prints exactly the filtered lines, in order. |
| Runner.ErrorMessage | baka.py:321 | The recorded message is never empty. |
| Runner.Raise | baka.py:320-323 | The exception handler: the error message is collected, recorded, shown on stderr, and the loop stops; `StepPass` and `RunAllProperties` state its effect. |
| Runner.RunJobCommand | baka.py:296-310 | A job's command after the prompt: an exception raised at line 296, or the run recorded, a failure counted, the routed events shown and, when captured, four lines collected; `CompletedPass` and `AskAnswers` state it. |
| Runner.Routed | baka.py:289-310 | The events a completed job command shows, by verbosity and capture; `RoutingTable` and `LiveThenReplay` state what reaches the terminal. |
| Runner.AskThenRun | baka.py:278-288 | The prompt of an interactive job and what its answer does; `AskAnswers` and `Answers` state each case. |
| Runner.JobStep | baka.py:265-310 | One pass for a job's command: the capture and verbosity tests, the debug echo, the prompt, then the command; `Answers`, `StepPass` and `RunFromInvariant` state its properties. |
| Runner.PlainStep | baka.py:311-319 | One pass for a command outside a job; `PlainPass` and `StepPass` state its properties. |
| Runner.Step | baka.py:259-319 | One pass of the loop: the echo of a dry run, or the job or plain pass; `StepPass` states its shapes. |
| Runner.RunFrom | baka.py:258-323 | The loop from a given command on, stopping at the first `break` or exception; `RunFromInvariant` states what every pass keeps. |
| Runner.RunAll | baka.py:255-323 | The whole loop from its initial state; `RunAllProperties`, `DryRun` and `SkipAll` state its properties, and `RunCommands` is proved equal to it. |
| Runner.JobPass | baka.py:265-310 | One pass for a job's command gives the state of the loop's specification, or the exception and the line it is raised at. |
| Runner.Ask | baka.py:278-288 | The prompt, then the command only after a yes; skip goes on, no and an invalid answer stop, an exhausted input raises at line 279; as described by `AskThenRun`. |
| Runner.CommandPass | baka.py:289-310 | A command that raises leaves the state unchanged and reports line 296; otherwise the pass of `CompletedPass`. |
| Runner.CompletedPass | baka.py:289-310 | A completed command is recorded as run, adds one to the return code exactly when its exit code is non-zero, shows the events of the routing table and, when captured, collects the quoted command, both stripped streams and a newline. |
| Runner.LiveThenReplay | baka.py:289-310 | What the process writes live, followed by what is written back after it, is exactly the routing table's event list for every verbosity and capture setting. |
| Runner.LiveStreams | baka.py:289-296 | Without capture the process writes stdout and stderr to the terminal as the verbosity allows. |
| Runner.ReplayCaptured | baka.py:299-310 | Captured output is written back as the verbosity allows; otherwise an empty line follows when stderr is shown. |
| Runner.PlainPass | baka.py:311-319 | An empty command raises IndexError, rsync shows stdout and the filtered stderr, and any other command shows both streams. |
| Runner.RunCommands | baka.py:255-323 | The loop with its exception handler yields the collected output, return code, error message and terminal of the specification `RunAll`. |
| RunnerProperties.StepPass | baka.py:259-323 | Every pass either ends in the handler with its message appended, or runs the command once and records its outcome, or runs nothing. |
| RunnerProperties.RunFromInvariant | baka.py:255-323 | Every pass preserves the loop invariant: failures counted, commands run once and in order, the error recorded last, and each mode's output shape. |
| RunnerProperties.RunAllProperties | baka.py:255-323 | The return code is the number of a job's commands that ran and exited non-zero, and 0 outside jobs and in dry runs. Each command runs at most once and in order. A non-empty error message is the last collected line and the last thing shown. Outside a job nothing but the error is collected, in a capturing job four lines per command that ran. |
| RunnerProperties.DryOutput | baka.py:260-263 | A dry run collects two lines per command. |
| RunnerProperties.DryOutputAt | baka.py:262-263 | For the k-th command, line 2k is "dry-run" and line 2k+1 is ">>> " with the quoted command. |
| RunnerProperties.DryRun | baka.py:260-263 | A dry run runs nothing, reads no answer, raises nothing, returns 0, shows each quoted command and collects its two lines. |
| RunnerProperties.AskAnswers | baka.py:278-288 | After the prompt: no input raises EOFError; yes runs the command on the state with the answer consumed; skip consumes the answer and changes nothing else; no stops; an invalid answer prints the notice and stops. Each answer's next state is given whole. |
| RunnerProperties.AskPass | baka.py:278-310 | Each outcome of the prompt is one of the loop's pass shapes: raised, ran once, or ran nothing. |
| RunnerProperties.Answers | baka.py:278-288 | At a prompt, skip runs nothing and goes on, no and invalid answers stop the loop without running the command, an invalid answer prints the notice, yes runs it, and no answer at all raises EOFError at line 279; a job that is not interactive reads nothing. |
| RunnerProperties.SkipAll | baka.py:284-285 | Skipping at every prompt runs nothing and ends with no output, no error and return code 0. |
| History.ArgItems | baka.py:28-54 | `vars(args)` has twelve attributes and ends with `dry_run`. |
| History.LogEntry | baka.py:325-331 | A history line is written exactly when the run is not a dry run, a diff, a log or a show, and it starts with the time stamp; `EntryOfMode` states its content. |
| History.AppendFragment | baka.py:328-329 | One attribute adds " key value" exactly when the loop's test keeps it, and nothing otherwise. |
| History.AppendFragments | baka.py:328-329 | The loop appends, in order, " key value" for every attribute of `vars(args)` that is truthy, and for `remove` whenever it was given. |
| History.BuildLogEntry | baka.py:325-331 | The loop over `vars(args)` builds exactly the history line of its specification. |
| History.EntryOfMode | baka.py:325-331 | With at most one mode option the line is the time stamp, then the given option with its value if any, then the error message if there is one. |
| History.RemoveNothingLogged | baka.py:328 | `--remove` with no package is logged as " remove []". |
| Baka.ExitStatus | baka.py:348 | The exit status is below 256, equals a return code below 256, and is 1 after an uncaught exception. |
| Baka.Main | baka.py:148-344 | `main` as a whole: the `--init` prompt, the final configuration, then `Configured`; `MainUsesOnly`, `ReturnCodeOnlyForJobs`, `NoModeCrashes`, `DryRunCommit` and `DeliveredOutput` state its properties. |
| Baka.Configured | baka.py:157-344 | `main` once the configuration object is final: the used attributes decoded, then `Execute`; `IllTypedExactly` states when it ends as ill-typed. |
| Baka.Execute | baka.py:188-344 | From the selected commands on: the loop, the directories created, the history line and the delivery; `ExecuteReturnCode`, `ExecuteDelivers`, `ExecuteUsesOnly` and `ExecuteIllTyped` state its properties. |
| Baka.StrftimeRaises | baka.py:340 | `strftime` of a truthy "write" value that is not a string raises TypeError; `FinishDelivers` states its effect. |
| Baka.Finish | baka.py:324-344 | What follows the loop: the history line, the email, the log file; `FinishDelivers` states each condition. |
| Baka.ExecuteReturnCode | baka.py:255-344 | From the selected mode on, a non-zero return code comes only from a job that is not a dry run. |
| Baka.ExecuteIllTyped | baka.py:188-344 | From the selected mode on, the run is ill-typed exactly when `--job`'s "commands" has another shape. |
| Baka.IllTypedExactly | baka.py:157-344 | A run ends as ill-typed exactly when an attribute its mode uses is missing or ill-shaped, or the selected job's "commands" is not a list of lists of strings. |
| Baka.RepositoryDestinations | baka.py:124-127 | With the repository `~/.baka` as the base, every rsync of an absolute tracked path copies into a directory the sync block created, inside the repository. |
| Baka.RunMain | baka.py:148-344 | `main` step by step yields exactly the run described by `Main`, whose attribute dictionaries are the defaults overridden by config.json as first read and as read after editing. |
| Baka.InitPrompt | baka.py:157-163 | Only `--init` prompts; it consumes one answer and shows the nano command in a dry run; an exhausted input ends the run after the prompt. |
| Baka.RunConfigured | baka.py:164-254 | The method yields `Configured`: the mode runs with the attributes it uses decoded, and, by `IllTypedExactly`, ends as ill-typed exactly when one of those is missing or of another shape, or the job's "commands" is. |
| Baka.RunSelected | baka.py:157-344 | From the selected mode on, the method yields the run described by `Execute`. |
| Baka.Deliver | baka.py:324-343 | The history line, then the job's email and log file, as described by `Finish`: a truthy "write" that is not a string raises TypeError after the email is sent. |
| Baka.ReturnCodeOnlyForJobs | baka.py:255-344 | A run can return a non-zero code only for a job that is not a dry run. |
| Baka.ExitStatusOutsideJobs | baka.py:255-348 | Outside a job that is not a dry run, and when the attributes the mode uses are well-shaped, the process exits with status 0, or 1 when an exception escapes `main`. |
| Baka.DefaultJobsShaped | baka.py:79-92 | The default jobs hold only the example job, whose "commands" is a list of lists of strings. |
| Baka.DefaultsNeverIllTyped | baka.py:67-111 | Without a config.json no mode meets an attribute of another shape than it uses: the run never ends as ill-typed. |
| Baka.NoModeCrashes | baka.py:157-259 | Without a mode option the run ends in UnboundLocalError, shows nothing, runs nothing and writes no history line. |
| Baka.DryCommitExecute | baka.py:188-191 | From the selected mode on, a dry `--commit` shows the sync block and the commit, returns 0, sends and writes nothing, and still creates the mirror directories. |
| Baka.DryRunCommit | baka.py:124-126 | A dry `--commit` shows the sync block and the commit, writes no history line and returns 0, but the mirror directories are created anyway. |
| Baka.FinishDelivers | baka.py:335-343 | Only a job emails or writes. It emails exactly when "to" is truthy, and writes exactly when the email test does not raise and "write" is a truthy string, both times the output joined by newlines. A truthy "write" that is not a string ends in TypeError after the email. A run that returns returns the loop's code. The history line is written first, whatever follows. |
| Baka.ExecuteDelivers | baka.py:324-343 | From the selected mode on, only a job sends or writes, and the mail body equals the file text. |
| Baka.ExecuteUsesOnly | baka.py:188-344 | From the selected mode on, a run depends only on the attributes its mode uses. |
| Baka.MainUsesOnly | baka.py:148-344 | config.json matters to `main` only through the attributes the selected mode uses. |
| Baka.CommitIgnoresInstallCommand | baka.py:188-191 | `--commit` runs alike whatever value, even an ill-shaped one, `cmd_install` has. |
| Baka.DeliveredOutput | baka.py:335-343 | Only `--job` sends or writes anything, and the email and the log file of a run carry the same text. |

## Left out

- Argument parsing (baka.py:28-56) is not modelled. The parsed arguments are
  a datatype. The mutually exclusive group becomes the predicate
  `AtMostOneMode`, which the lemmas that rely on it require. `Main` and the
  job branches of the loop and of the delivery assume it as well: they test
  whether `--job` is the selected mode, where the source tests whether
  `args.job` is truthy (baka.py:265, 335). The two differ only for option
  combinations that argparse rejects.
- Reading config.json is not modelled; its members are an input. Writing
  config.json when it is missing (baka.py:112-120), creating `~/.baka` and
  `os.chdir` are not modelled either.
- During `--init` the model shows the prompt and, for a dry run, the nano
  command line, then uses the edited file's members as an input. The nano
  session itself is not modelled.
- The processes are an input: given its index, a command either completes
  with an exit code and two texts or raises an exception. Terminal output
  is a sequence of events. Undecodable process output and the byte-level
  writes of `sys.stdout.buffer` are not modelled.
- `send_email` (baka.py:132-145) is not modelled: the model records the body
  that would be sent. The exceptions it can raise are not modelled: SMTP
  failures, and also a job email without "subject", an "email" attribute
  without one of its keys, or a port that is not a number. Each would end
  the run with status 1 after the history line, with no log file written.
  The subject and addresses of the message are not modelled either.
- A failing `os.makedirs` in `rsync_and_git_add_all` (baka.py:124-126) is
  not modelled. It runs before the `try` of the loop, so in the source it
  ends the run with a traceback and no history line; in the model the
  directories are always created.
- The file name of a job's log file is not modelled (`strftime`, `abspath`
  and the `makedirs` of line 341). The model records the text that would be
  written.
- `time.ctime()` is not modelled; the time stamp is an input.
- IllTypedConfig: configuration values of another shape than the defaults'
  (a string where a list is expected, a number in a command) have effects
  that depend on Python's duck typing. The model handles them jointly: the
  run ends in `IllTypedConfig` when an attribute the selected mode uses is
  missing or ill-shaped. The attributes a mode does not use are not read.
  The data of a job entry is read as the code reads it, with its own errors.
- Configuration.Override: `hasattr` is also true for the attributes every
  Python object has, such as `__class__`, `__dict__`, `__doc__` and
  `__module__`. A config.json key with one of these names would raise a
  TypeError, replace the whole attribute dictionary or add an attribute.
  The model treats such keys as unknown and ignores them.
- Json: JSON floats are not part of the value type. Duplicate keys are not
  modelled either; Python keeps the last one and `Get` returns the first.
- Sync.MakeDestinations: only the mirror directory itself is added to the
  set of directories. The ancestors that `makedirs` also creates are not
  modelled.
- Strings.Lower: only ASCII letters are mapped. Python's Unicode case
  mapping is not modelled. The answers y/n/s and the four verbosity names do
  not depend on it.
- Strings.Repr: only backslash, the quote character, newline, carriage
  return and tab are escaped. Python's escaping of other non-printable
  characters is not modelled.
- Runner.ErrorMessage: the contract states only that the message is not
  empty. Its text is given by its definition, using the line numbers a
  Python 3.11 traceback reports. For exceptions raised while reading a
  job's entry, the model uses the Python 3.11 messages.
- Baka.RunMain: `Main` is the specification of the method, so the row
  describes the composition. The file config.json is represented by its
  members as read at the start and, for `--init`, after editing. What the run promises is stated by the lemmas
  `ReturnCodeOnlyForJobs`, `NoModeCrashes`, `DryRunCommit` and
  `DeliveredOutput`.
- Long string constants (the git log format, the prompt texts) are written
  as concatenations of short literals, which keeps the verifier's work
  small. Their values are those of the source.
- Concurrency, signals, and the `-O` flag of Python (which would remove the
  assertions of status and verify) are not modelled.
