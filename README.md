# adan-bot: the profiling harness and the command bot, modelled in Dafny

adan-bot is a Telegram bot written in Go. `main` runs the bot's `Main` inside
`Profile`, a small harness that does three things:

- it can record an execution trace and a CPU profile while the bot runs;
- it dumps the runtime's named profiles when the bot returns;
- every output file name comes from the environment, and a guard
  (`isSafeFilename`) refuses a name that would leave the current directory.

`Main` does three things:

- it reads the API token and strips its quotes, refusing an empty one;
- it connects;
- it answers every command message with a fixed text.

The model has these modules:

- `GoErrors` models Go error values: the package's sentinels, wrapped and joined errors, and `errors.Is`.
- `FilePaths` models `filepath.Clean` for `/`-separated names (Plan 9's lexical rules), `filepath.Join(".", f)` and `isSafeFilename`.
- `Config` models environment lookups and the output names derived from them (`TRACE_FILE`, `PROFILE_CPU_FILE`, `PROFILE_<NAME>_FILE` and their defaults).
- `Effects` models what the harness does to the process, as a log of events: files created and closed, recorders started and stopped, profiles written, the workload called. It also defines the state that log produces.
- `Profiling` models the harness as functions on values: `Session`, `Dump`, `Dumps` and `ProfileRun`. It also models it as class `Process`. The methods of `Process` follow the Go code step by step on a mutable state. Each method is proved to end exactly where the function says.
- `ProfilingFacts` holds what the harness guarantees, proved about those functions. The guarantees cover when `Profile` fails and with which error, the fact that the workload runs with no recorder left on, and the fact that nothing is left open.
- `Bot` models the token check, the update filter, the command-to-reply switch and the update loop.

The outcome of each call into the operating system, the runtime or the network is a parameter: create, start, write, close, connect, and the workload's own result.

## Model

| member | source | states |
|---|---|---|
| GoErrors.Is | cmd/adan-bot/profiling.go:79-91 | the library's `errors.Is(e, k)` over the `%w` chains the harness builds (lines 50, 79, 85, 90-91 and 147): `k` is found through every `%w` operand of a wrapper and every member of a join, and not through an `errors.New` text or an OS error (definition; used in the contracts below) |
| GoErrors.Join | cmd/adan-bot/profiling.go:88-93 | `errors.Join` is nil exactly when both arguments are nil |
| GoErrors.JoinKeepsBoth | cmd/adan-bot/profiling.go:89-92 | a joined close error keeps every sentinel of the error already being returned and of the close error, and adds none |
| FilePaths.Split | cmd/adan-bot/profiling.go:172 | splitting at `/` gives at least one part, no part holds a separator, and joining the parts with `/` gives back the input |
| FilePaths.Clean | cmd/adan-bot/profiling.go:172 | the cleaned name is never empty and is rooted exactly when the input is |
| FilePaths.SeparatorsCollapse | cmd/adan-bot/profiling.go:172 | a doubled separator, wherever it stands in the name, cleans exactly like a single one |
| FilePaths.JoinDot | cmd/adan-bot/profiling.go:83 | `filepath.Join(".", f)`: `.` for an empty name, otherwise the cleaned `./f` (definition; see JoinDotIsClean) |
| FilePaths.IsSafeFilename | cmd/adan-bot/profiling.go:171-174 | the guard: the cleaned name holds no separator, does not start with `..`, is not rooted, is not empty and is not `.` (definition; see SafeIffSingleEntry) |
| FilePaths.SafeIffSingleEntry | cmd/adan-bot/profiling.go:171-174 | a name passes the guard exactly when it is relative and cleans to one entry of the current directory not starting with `..`; that entry is then its cleaned form |
| FilePaths.CleanElement | cmd/adan-bot/profiling.go:171-174 | a non-empty name without `/`, other than `.` and `..`, is already clean, and passes the guard unless it starts with `..` |
| FilePaths.JoinDotIsClean | cmd/adan-bot/profiling.go:83 | for a safe name, `filepath.Join(".", fname)` is the cleaned name, so the trace goes to the file the guard checked |
| FilePaths.DefaultNamesAreSafe | cmd/adan-bot/profiling.go:75 | the default names `trace.out`, `cpu.pprof` and `heap.pprof` pass the guard |
| FilePaths.DotElementDropped | cmd/adan-bot/profiling.go:172-173 | `./x` cleans to `x` and is as safe as `x` |
| FilePaths.ParentElementCancels | cmd/adan-bot/profiling.go:172-173 | `a/../x` cleans to `x` and is as safe as `x` |
| FilePaths.ParentDirectoryKept | cmd/adan-bot/profiling.go:172-173 | `../x` is already clean and is refused |
| FilePaths.NestedNameKept | cmd/adan-bot/profiling.go:172-173 | `a/x` is already clean and is refused because it holds a separator |
| FilePaths.ParentOfElementIsCurrent | cmd/adan-bot/profiling.go:172-173 | `x/..` cleans to `.` and is refused |
| FilePaths.EmptyIsCurrent | cmd/adan-bot/profiling.go:172-173 | the empty name cleans to `.` and is refused |
| FilePaths.LeadingDotAccepted | cmd/adan-bot/profiling.go:171-174 | `./trace.out` passes the guard |
| FilePaths.CancelledParentAccepted | cmd/adan-bot/profiling.go:171-174 | `a/../x.pprof` passes the guard |
| FilePaths.ParentDirectoryRefused | cmd/adan-bot/profiling.go:173 | `../evil.pprof` is refused |
| FilePaths.NestedNameRefused | cmd/adan-bot/profiling.go:173 | `a/b` is refused |
| FilePaths.DotDotPrefixRefused | cmd/adan-bot/profiling.go:173 | `..x` is refused, although it names an entry of the current directory |
| FilePaths.AbsoluteRefused | cmd/adan-bot/profiling.go:173 | `/tmp/x` is refused |
| FilePaths.CurrentDirectoryRefused | cmd/adan-bot/profiling.go:173 | `x/..` and the empty name are refused |
| Config.Getenv | cmd/adan-bot/env.go:10-19 | `os.Getenv`, as at profiling.go:15, 22, 37, 43, 72 and 108: a set variable's value, and `""` for an unset one, which is also what `Getenv(key, "")` returns (definition; see FileSetting) |
| Config.Enabled | cmd/adan-bot/profiling.go:37 | the `== "1"` test of a flag, as at lines 15, 22 and 37: on only for exactly `"1"` (definition; see TracingOnlyIfEnabled, DumpsFailIffAnyEnabled) |
| Config.FileSetting | cmd/adan-bot/profiling.go:72-76 | an output name is the variable's value when that is set and non-empty, and the default otherwise |
| Config.ToUpper | cmd/adan-bot/profiling.go:35 | upper-casing keeps the length, maps each lower-case ASCII letter to its upper-case letter, and keeps every other character |
| Config.ProfileVar | cmd/adan-bot/profiling.go:35 | a profile's variable is `PROFILE_` followed by its upper-cased name |
| Config.HeapProfileVar | cmd/adan-bot/profiling.go:35-43 | the heap profile is switched on by `PROFILE_HEAP` and its file is set by `PROFILE_HEAP_FILE` |
| Config.TraceFile | cmd/adan-bot/profiling.go:72-76 | the trace goes to a non-empty name, `trace.out` when `TRACE_FILE` is unset |
| Config.CPUFile | cmd/adan-bot/profiling.go:108-112 | the CPU profile goes to a non-empty name, `cpu.pprof` when `PROFILE_CPU_FILE` is unset |
| Config.ProfileFile | cmd/adan-bot/profiling.go:41-47 | a profile goes to a non-empty name, `<name>.pprof` when `PROFILE_<NAME>_FILE` is unset |
| Config.OutputNamesNonEmpty | cmd/adan-bot/profiling.go:43-47 | the trace, CPU and profile output names are never empty |
| Config.DefaultOutputNames | cmd/adan-bot/profiling.go:43-47 | with nothing configured, the names are `trace.out`, `cpu.pprof` and `<name>.pprof` |
| Config.ToUpperIdempotent | cmd/adan-bot/profiling.go:35 | upper-casing twice changes nothing more |
| Config.ProfileVarIgnoresCase | cmd/adan-bot/profiling.go:35 | a profile's `PROFILE_<NAME>` variable does not depend on the case of its name |
| Profiling.Session | cmd/adan-bot/profiling.go:69-138 | a recording session: an unsafe name is refused before anything is done, otherwise it records into the created file (definition; see SessionOutcome) |
| Profiling.Recorded | cmd/adan-bot/profiling.go:83-102 | a session from os.Create on: create, start, the deferred stop only if the start succeeded, the deferred close with its error joined on (definition; see Process.Record) |
| Profiling.SessionLogOf | cmd/adan-bot/profiling.go:69-138 | a recording session logs nothing unless the name is safe and the file was created; it then logs create, start and stop when the recorder started, and close |
| Profiling.SessionLogEffect | cmd/adan-bot/profiling.go:88-102 | a session that created its file leaves that file closed and its recorder as it found it |
| Profiling.SessionEffect | cmd/adan-bot/profiling.go:69-138 | after a session both recorders are as before; only the session's own file changes, and it is left closed |
| Profiling.WriteProfile | cmd/adan-bot/profiling.go:140-151 | an unregistered name gives errInvalidProfile; a registered one succeeds exactly when the write does, and a failed write is errCannotWriteProfile and not errInvalidProfile |
| Profiling.Dump | cmd/adan-bot/profiling.go:153-169 | one dump: refuse an unsafe name, create, write, close; a failed write closes the file and drops the close error (definition; see DumpOutcome) |
| Profiling.Dumps | cmd/adan-bot/profiling.go:33-52 | the dump loop: skip disabled profiles, stop at the first failed dump with errCannotWriteProfile tagged with the name (definition; see DumpsFailIffAnyEnabled) |
| Profiling.Gated | cmd/adan-bot/profiling.go:15-27 | the pattern `if os.Getenv(X) == "1" { err = start…() }`: the session when the flag is on, and nothing otherwise (definition; see GatedAvoids, GatedKeepsQuiescent) |
| Profiling.AfterSetup | cmd/adan-bot/profiling.go:29-54 | the workload's error returned unchanged after its call; otherwise the dump loop's result, its events after the call (definition; see WorkloadErrorReturned, ProfileSucceedsIff) |
| Profiling.TraceRun | cmd/adan-bot/profiling.go:15-20 | the trace session runs only when TRACE is "1" (definition; see TracingOnlyIfEnabled) |
| Profiling.CPURun | cmd/adan-bot/profiling.go:22-27 | the CPU session runs only when PROFILE_CPU is "1" (definition; see CPUProfilingOnlyIfEnabled) |
| Profiling.ProfileRun | cmd/adan-bot/profiling.go:14-55 | `Profile`: the two sessions, the first setup error returned, the workload's error returned unchanged, then the dump loop (definition; see ProfileSucceedsIff) |
| Profiling.DumpLogEffect | cmd/adan-bot/profiling.go:158-168 | a dump that created its file leaves it closed and changes nothing else |
| Profiling.Process.constructor | cmd/adan-bot/main.go:71-72 | the process state when `main` calls `Profile`: no files, no recorder on and nothing logged |
| Profiling.Process.Create | cmd/adan-bot/profiling.go:83 | os.Create logs the file and leaves it open |
| Profiling.Process.Close | cmd/adan-bot/profiling.go:89 | f.Close logs the close and releases the handle, whether or not it reports an error; its result says whether it reported none |
| Profiling.Process.TraceStart | cmd/adan-bot/profiling.go:95 | trace.Start succeeds only when it may and tracing is not already on, and then turns tracing on |
| Profiling.Process.TraceStop | cmd/adan-bot/profiling.go:100 | trace.Stop turns tracing off |
| Profiling.Process.CPUStart | cmd/adan-bot/profiling.go:130 | StartCPUProfile succeeds only when it may and CPU profiling is not already on, and then turns it on |
| Profiling.Process.CPUStop | cmd/adan-bot/profiling.go:135 | StopCPUProfile turns CPU profiling off |
| Profiling.Process.WriteTo | cmd/adan-bot/profiling.go:146 | a successful write logs the written profile and changes no state |
| Profiling.Process.CallWorkload | cmd/adan-bot/profiling.go:29 | calling `fn` logs the call, changes no state and returns what `fn` returns |
| Profiling.Process.Record | cmd/adan-bot/profiling.go:83-102 | create, start, the deferred stop and the deferred close, with the close error joined on, end exactly as `Recorded` says: same error, same log, same state |
| Profiling.Process.StartTraceProfiling | cmd/adan-bot/profiling.go:69-103 | `startTraceProfiling` returns the error of `Session(Trace, …)` and does exactly what it logs |
| Profiling.Process.StartCPUProfiling | cmd/adan-bot/profiling.go:105-138 | `startCPUProfiling` returns the error of `Session(CPU, …)` and does exactly what it logs |
| Profiling.Process.WriteProfileToFile | cmd/adan-bot/profiling.go:153-169 | `writeProfileToFile` ends as `Dump` says, and never returns nil |
| Profiling.Process.DumpProfiles | cmd/adan-bot/profiling.go:33-52 | the dump loop ends as `Dumps` over the registry says |
| Profiling.Process.Profile | cmd/adan-bot/profiling.go:14-55 | `Profile` returns the error of `ProfileRun`; its events are `ProfileRun`'s log, and its final state is what that log produces |
| Profiling.Process.StartRecorders | cmd/adan-bot/profiling.go:15-27 | the two gated sessions end as `TraceRun` then `CPURun` say; a failed trace session skips the CPU one |
| Profiling.Process.RunAndDump | cmd/adan-bot/profiling.go:29-54 | the workload call, then the dump loop only if the workload succeeded, end as `AfterSetup` says |
| ProfilingFacts.SessionOutcome | cmd/adan-bot/profiling.go:69-138 | an unsafe name is refused with errUnsafeFilename before anything is created; a failed create is the recorder's create sentinel and a failed start its start sentinel; nothing is logged exactly when the name is unsafe or the create fails; a session succeeds exactly when the name is safe, every call succeeds and the recorder was off |
| ProfilingFacts.SessionBracketsRecording | cmd/adan-bot/profiling.go:83-102 | a session opens with its file's creation and ends with its close; the recorder runs only if it started, and is stopped right after, before the close |
| ProfilingFacts.CloseErrorJoined | cmd/adan-bot/profiling.go:88-98 | a failed close is reported as errCannotCloseFile, and the start error is kept in the same result exactly when the start failed |
| ProfilingFacts.DefaultProfileFileSafe | cmd/adan-bot/profiling.go:46 | `<name>.pprof` passes the guard for every name without a separator that is not `.` and does not start with `..` |
| ProfilingFacts.DumpOutcome | cmd/adan-bot/profiling.go:153-169 | a dump never succeeds; an unsafe name creates nothing; an unknown profile gives errInvalidProfile after the file was created and closed; the profile is written exactly when the name is safe, the create succeeds, the profile is registered and the write succeeds, and then the result is errCannotCloseFile |
| ProfilingFacts.DumpFailureKinds | cmd/adan-bot/profiling.go:158-166 | on a safe name, a failed create is errCannotCreateFile with nothing logged, and a failed write is errCannotWriteProfile, not errCannotCloseFile, with the file created and closed |
| ProfilingFacts.DumpsFailIffAnyEnabled | cmd/adan-bot/profiling.go:33-52 | the dump loop fails exactly when some profile is enabled, and then with errCannotWriteProfile tagged with an enabled profile's name |
| ProfilingFacts.FirstEnabledEndsDumps | cmd/adan-bot/profiling.go:33-52 | the dump loop stops at the first enabled profile: it does that one dump and reports errCannotWriteProfile with that profile's name |
| ProfilingFacts.DumpsTouchOnlyFiles | cmd/adan-bot/profiling.go:33-52 | the dump loop only creates, writes and closes files |
| ProfilingFacts.DumpClosesItsFile | cmd/adan-bot/profiling.go:153-169 | a dump from a quiescent state leaves it quiescent |
| ProfilingFacts.DumpsCloseTheirFiles | cmd/adan-bot/profiling.go:33-52 | the dump loop from a quiescent state leaves it quiescent |
| ProfilingFacts.SetupFailureSkipsWorkload | cmd/adan-bot/profiling.go:15-27 | a failed trace or CPU setup is returned, the trace error first, and the workload is not called |
| ProfilingFacts.SessionShape | cmd/adan-bot/profiling.go:69-138 | a session logs only events of its file and of its own recorder |
| ProfilingFacts.SessionWritesNothing | cmd/adan-bot/profiling.go:69-138 | a recording session writes no profile |
| ProfilingFacts.GatedWritesNothing | cmd/adan-bot/profiling.go:15-27 | neither recording session writes a profile |
| ProfilingFacts.WorkloadErrorReturned | cmd/adan-bot/profiling.go:29-31 | an error from the workload is returned unchanged, the workload's call is the last event, and no profile is written |
| ProfilingFacts.NothingEnabledOnlyRuns | cmd/adan-bot/profiling.go:14-55 | with no flag set, no profile enabled and a workload that succeeds, `Profile` only calls the workload and returns nil |
| ProfilingFacts.NothingEnabledNothingDumped | cmd/adan-bot/profiling.go:37-39 | a dump loop over profiles that are all disabled does nothing and succeeds |
| ProfilingFacts.ProfileSucceedsIff | cmd/adan-bot/profiling.go:14-55 | `Profile` returns nil exactly when setup and workload succeed and no profile is enabled; with an enabled profile it fails with errCannotWriteProfile tagged with that profile, and `errors.Is` finds no other sentinel |
| ProfilingFacts.SetupHasNoRan | cmd/adan-bot/profiling.go:15-27 | the recording sessions do not call the workload |
| ProfilingFacts.WorkloadRunsUnrecorded | cmd/adan-bot/profiling.go:15-31 | when the workload is called, both recorders are as they were when `Profile` was called; the deferred stops have already run |
| ProfilingFacts.SetupKeepsRecorders | cmd/adan-bot/profiling.go:15-27 | after both sessions the recorders are as they were |
| ProfilingFacts.GatedKeepsQuiescent | cmd/adan-bot/profiling.go:15-27 | a session run from a quiescent state leaves it quiescent |
| ProfilingFacts.SetupKeepsQuiescent | cmd/adan-bot/profiling.go:15-27 | both sessions, run from a quiescent state, leave it quiescent |
| ProfilingFacts.GatedAvoids | cmd/adan-bot/profiling.go:15-27 | a session, run or skipped, logs no event but its file's and its own recorder's |
| ProfilingFacts.ProfileAvoids | cmd/adan-bot/profiling.go:14-55 | an event that neither session logs, and that is not a file event or the workload's call, never occurs in `Profile`'s log |
| ProfilingFacts.TracingOnlyIfEnabled | cmd/adan-bot/profiling.go:15-20 | tracing is started only when TRACE is "1" |
| ProfilingFacts.CPUProfilingOnlyIfEnabled | cmd/adan-bot/profiling.go:22-27 | CPU profiling is started only when PROFILE_CPU is "1" |
| ProfilingFacts.ProfileLeavesNothingOpen | cmd/adan-bot/profiling.go:14-55 | `Profile` run from a quiescent state, on every path, leaves every file it opened closed and no recorder on |
| Bot.Trim | cmd/adan-bot/main.go:18 | `strings.Trim` with the double quote as cutset: quotes removed from both ends (definition; see TrimIsInfix, TrimEnds) |
| Bot.TrimLeading | cmd/adan-bot/main.go:18 | trimming at the front removes a prefix made only of quotes, and what is left does not start with a quote |
| Bot.TrimTrailing | cmd/adan-bot/main.go:18 | trimming at the back removes a suffix made only of quotes, and what is left does not end with a quote |
| Bot.Token | cmd/adan-bot/main.go:18-21 | the only error of the token check is ErrMissingToken |
| Bot.TrimIsInfix | cmd/adan-bot/main.go:18 | the trimmed token is a slice of the value with only quotes on either side |
| Bot.TrimEmptyIffAllQuotes | cmd/adan-bot/main.go:18-19 | nothing is left after trimming exactly when the value is made only of quotes |
| Bot.TrimIdempotent | cmd/adan-bot/main.go:18 | trimming twice trims nothing more |
| Bot.TrimEnds | cmd/adan-bot/main.go:18 | a non-empty trimmed value neither starts nor ends with a quote |
| Bot.TokenMissingIffOnlyQuotes | cmd/adan-bot/main.go:18-21 | the token check fails exactly when `TELEGRAM_API_TOKEN` is unset, empty or only quotes |
| Bot.TokenUnquoted | cmd/adan-bot/main.go:18-21 | a token that passes the check is non-empty and has no quote at either end |
| Bot.Serve | cmd/adan-bot/main.go:17-66 | `Main` up to its update loop: the token check, the connection, then the loop's replies (definition; see ServeOutcome) |
| Bot.ServeOutcome | cmd/adan-bot/main.go:17-66 | `Main` gets as far as its update loop exactly when the token check passes and the connection succeeds; a failed connection is reported with its cause, and otherwise the replies are those of the loop |
| Bot.MissingTokenBeforeConnecting | cmd/adan-bot/main.go:17-26 | a missing token is reported as ErrMissingToken whatever the connection would do |
| Bot.ReplyText | cmd/adan-bot/main.go:49-61 | the command switch: three fixed texts and a fallback (definition; see ReplyTextCases) |
| Bot.ReplyTextCases | cmd/adan-bot/main.go:49-61 | the fallback text is sent exactly for commands other than help, hola and status, and those three get three different texts |
| Bot.ReplyTo | cmd/adan-bot/main.go:46-47 | a reply goes to the chat the command came from |
| Bot.AnsweredOnes | cmd/adan-bot/main.go:37-44 | the updates kept all carry a command message, and there are no more of them than updates |
| Bot.AnsweredOnesMembers | cmd/adan-bot/main.go:37-44 | an update is kept exactly when it is one of the updates and carries a command message |
| Bot.AnsweredOnesAppend | cmd/adan-bot/main.go:37-44 | the kept updates of two runs are those of the first, then those of the second: their order is the updates' order |
| Bot.Replies | cmd/adan-bot/main.go:37-66 | one reply per command message, in order (definition; see OneReplyPerCommand, RepliesAppend) |
| Bot.Loop | cmd/adan-bot/main.go:37-66 | the update loop sends exactly `Replies(updates)`: one reply per command message, in order |
| Bot.RepliesAppend | cmd/adan-bot/main.go:37-66 | the replies to two runs of updates are the replies to the first, then the replies to the second |
| Bot.OneReplyPerCommand | cmd/adan-bot/main.go:37-61 | exactly one reply per answered update, in update order, each addressed to its chat with that command's text |
| Bot.UnansweredIgnored | cmd/adan-bot/main.go:38-44 | an update without a message, or with a non-command message, gets no reply |

## Left out

- Profile contents are not modelled. Neither is what the Go runtime records: a trace or a profile is only an event in the log.
- The outcome of every operating-system, runtime and network call is a parameter of the model. This covers os.Create, trace.Start, StartCPUProfile, WriteTo, f.Close, the connection and `fn`. The runtime's registry of profiles (`pprof.Profiles`, `pprof.Lookup`) is a sequence of names.
- Error messages are not modelled. An error keeps only the tree of sentinels and causes that `errors.Is` searches.
- Config.ToUpper: maps ASCII letters only. Go's `strings.ToUpper` also maps other Unicode letters; the runtime's own profile names are ASCII.
- FilePaths.Clean: models `/` as the only separator, as on Unix; Windows volume names and `\` are not modelled.
- In env.go, `init` (which loads a `.env` file into the environment) and the log line for a missing variable are not modelled. Its `Getenv(key, "")` is Config.Getenv, a map lookup that gives `""` for a missing key.
- `main` and `log.Fatalln` are not modelled.
- In `Main`, the Telegram client is not modelled. This covers `NewBotAPI` (its outcome is the `connected` parameter), `bot.Debug`, the update timeout, the log lines, and `Send`, whose failure is only logged. The library's `IsCommand` and `Command` are given as the message's optional command name.
- The update channel is modelled as a finite sequence of updates. In the program it never closes, so `Main` never reaches `return nil`.
- An unsafe `PROFILE_<NAME>_FILE` is refused by `writeProfileToFile` with errUnsafeFilename. `Profile` then replaces that error, as it does every dump error, with errCannotWriteProfile tagged with the profile's name. The model follows the code here, not a reading in which the caller would see errUnsafeFilename (ProfilingFacts.ProfileSucceedsIff).
- Profiling.Process.Record, Profiling.Process.StartRecorders, Profiling.Process.RunAndDump and Profiling.Process.DumpProfiles are methods the Go code does not have. Record holds the steps `startTraceProfiling` and `startCPUProfiling` share from os.Create on. StartRecorders holds the two gated sessions at the start of `Profile`, RunAndDump the rest of it, and DumpProfiles its loop. Each does what the Go code does at that point.
