# spacelog: level-gated dispatch and setup, in Dafny

This project models two parts of the spacelog logging package (Go).

**Dispatch** (`dispatch.dfy`, from `convenience.go`). Every logging entry
point of a named `Logger` compares the logger's effective level with the
level of the call. The installed handler's `Log(name, level, msg, skip)` is
called only if `getLevel() <= level`. The entry points are the level
methods (`Debug` … `Crit`, each with an `f` variant), `Log`/`Logf`, and the
two `io.Writer` adapters `writer` and `writerNoCaller`. A `Runtime` object
holds the level each logger name resolves to and a formatter
(`fmt.Sprint`/`fmt.Sprintf`, opaque). It also records every handler call and
every formatting invocation. Each method is proved to change that record by
exactly `Step`. `Run` composes the steps of a sequence of calls. The lemmas
about `Run` show that the handler sees exactly the calls that pass their
gate, in order, and that nothing is formatted for a call that does not pass.

**Setup** (`legacy_setup.dfy` from `setup/setup.go`, and `log_setup.dfy`
from `setup.go`). These are two versions of the same step machine. Each
runs a sequence of steps on process-wide state (`LogState.Globals`):
- the list of `SetLevel` rules;
- the default handler slot;
- the output capture started, if any;
- the standard library `log` flags and output;
- the `funcmap` of template functions.

Each step may fail and return early. The library calls are fallible oracles
in `LogState.Env`. For each variant, `Run` is a function that gives the
returned error and final state. `SetupWithFacility` is the imperative
method, proved to end in exactly that outcome. The lemmas state the order
of effects relative to failures, the template choice, the filter rule's
level and when the output is buffered.

Shared pieces:
- `levels.dfy`: levels and the gate;
- `text.dfy`: ASCII `strings.ToLower` and `%d` with its inverse;
- `wrappers.dfy`: `Option`/`Result`.

Two behaviours of the code are kept as written:
- The legacy setup installs the default rule only when the parsed level
  differs from `DefaultLevel`. The newer setup installs it for any
  non-empty level flag.
- The newer setup installs the syslog handler before it starts capture.
  If capture then fails, the handler stays installed.

## Model

| member | source | states |
|---|---|---|
| Levels.EnabledMonotone | convenience.go:102-104 | the gate `getLevel() <= level` lets every more severe level through once it lets one through |
| Dispatch.Step | convenience.go:10-20 | one entry point records a handler call iff the level is enabled; that call carries the logger's name, the call's level, the rendered message and the entry point's skip; it formats iff enabled and the message is not raw bytes |
| Dispatch.BytesToStringRoundTrip | convenience.go:127-130 | `string(data)` loses nothing: the writers' message gives back the written bytes |
| Dispatch.EnabledAgreesWithLog | convenience.go:90-104 | `LevelEnabled(level)` is true iff `Log(level, …)` and `Logf(level, …)` reach the handler |
| Dispatch.NoCallerGatesLikeWriter | convenience.go:111-132 | `writerNoCaller` gates like `writer`, with the same message and the skip replaced by the sentinel -1, and formats nothing |
| Dispatch.RunIsGatedDispatch | convenience.go:10-100 | over any sequence of calls, the handler receives exactly the calls that pass their gate, in order, each with its name, level, message and skip; the formatter runs exactly for the passing calls that format |
| Dispatch.RunRecordsOnlyEnabled | convenience.go:11-12 | every recorded call passed its gate and has skip 1 or the sentinel -1 |
| Dispatch.RunSilentWhenDisabled | convenience.go:16-19 | when no call passes, nothing is recorded and nothing is formatted |
| Dispatch.RunAppend | convenience.go:90-100 | the record of two batches of calls is the record of the first followed by the second |
| Dispatch.Runtime.Format | convenience.go:18 | formatting returns the rendered message and is recorded |
| Dispatch.Runtime.Handle | convenience.go:12 | the handler appends the call to the trace and changes nothing else |
| Dispatch.Logger.LevelEnabled | convenience.go:102-104 | true iff `Log(level, args)` records a call, for every `args` |
| Dispatch.Logger.DebugEnabled | convenience.go:22-24 | agrees with `LevelEnabled(Debug)` |
| Dispatch.Logger.InfoEnabled | convenience.go:38-40 | agrees with `LevelEnabled(Info)` |
| Dispatch.Logger.WarnEnabled | convenience.go:54-56 | agrees with `LevelEnabled(Warning)` |
| Dispatch.Logger.ErrorEnabled | convenience.go:70-72 | agrees with `LevelEnabled(Error)` |
| Dispatch.Logger.CritEnabled | convenience.go:86-88 | agrees with `LevelEnabled(Critical)` |
| Dispatch.Logger.Debug | convenience.go:10-14 | the trace grows by `Step` of a `Sprint` call at `Debug`, and the levels are unchanged |
| Dispatch.Logger.Debugf | convenience.go:16-20 | the same for a `Sprintf` call at `Debug` |
| Dispatch.Logger.Info | convenience.go:26-30 | the trace grows by `Step` of a `Sprint` call at `Info` |
| Dispatch.Logger.Infof | convenience.go:32-36 | the same for a `Sprintf` call at `Info` |
| Dispatch.Logger.Warn | convenience.go:42-46 | the trace grows by `Step` of a `Sprint` call at `Warning` |
| Dispatch.Logger.Warnf | convenience.go:48-52 | the same for a `Sprintf` call at `Warning` |
| Dispatch.Logger.Error | convenience.go:58-62 | the trace grows by `Step` of a `Sprint` call at `Error` |
| Dispatch.Logger.Errorf | convenience.go:64-68 | the same for a `Sprintf` call at `Error` |
| Dispatch.Logger.Crit | convenience.go:74-78 | the trace grows by `Step` of a `Sprint` call at `Critical` |
| Dispatch.Logger.Critf | convenience.go:80-84 | the same for a `Sprintf` call at `Critical` |
| Dispatch.Logger.Log | convenience.go:90-94 | the trace grows by `Step` of a `Sprint` call at the given level |
| Dispatch.Logger.Logf | convenience.go:96-100 | the same for a `Sprintf` call at the given level |
| Dispatch.Logger.Writer | convenience.go:118-120 | returns a new `writer` bound to this logger and level |
| Dispatch.Logger.WriterWithoutCaller | convenience.go:134-136 | returns a new `writerNoCaller` bound to this logger and level |
| Dispatch.CallerWriter.Write | convenience.go:111-116 | always returns the full byte count and no error; records the data unchanged at skip 1 iff enabled |
| Dispatch.NoCallerWriter.Write | convenience.go:127-132 | always returns the full byte count and no error; records the data unchanged at skip -1 iff enabled |
| Text.Lower | setup/setup.go:95 | lower-casing keeps the length and lowers each character in place |
| Text.LowerEqualsIffEqualFold | setup.go:62 | comparing the lower-cased selector with a lower-case literal is case-insensitive comparison |
| Text.FormatIntRoundTrip | setup/setup.go:66-67 | the decimal text `%d` writes reads back as the same integer |
| LogState.SelectorOf | setup/setup.go:95-125 | the output is syslog, stdout or stderr iff the flag equals that word ignoring case, and a file path otherwise |
| Text.LowerOfNoUpper | setup.go:62 | a string without upper-case ASCII letters lowers to itself |
| LogState.SelectorWordsAreLower | setup.go:62-83 | the case labels "syslog", "stdout" and "stderr" are their own lower case |
| LogState.StderrSelectsStderr | setup.go:16 | the default output word "stderr" selects standard error |
| LogState.Globals.constructor | setup/setup.go:36-37 | the funcmap starts with `ColorizeLevel` only; no rules, no capture, stdlib log to stderr |
| LogState.Globals.SetLevel | setup/setup.go:77 | appends one rule and changes nothing else |
| LogState.Globals.SetHandler | setup/setup.go:129 | fills the default handler slot and changes nothing else |
| LogState.Globals.SetStdlibFlags | setup/setup.go:130 | sets the stdlib log flags and changes nothing else |
| LogState.Globals.SetStdlibOutput | setup/setup.go:135 | sets the stdlib log output and changes nothing else |
| LogState.Globals.CaptureOutputToProcess | setup/setup.go:65-71 | returns the capture's error; capture is recorded as started only on success |
| LogState.Globals.PutFormatMethod | setup/setup.go:42 | sets one funcmap key and leaves the other entries unchanged |
| LegacySetup.PriorityArgRoundTrip | setup/setup.go:66-67 | the `--priority` argument reads back as the facility and `LOG_CRIT` |
| LegacySetup.BuildHandler | setup/setup.go:86-128 | a bad user format is returned first; otherwise a syslog or file output that fails to open is returned as exactly that error, and the result is an error only then; the template is the user's if given, else the selector's default; the output is exactly the selected one (syslog with facility and tag, stdout, stderr or the named file), wrapped in a buffer of the given size iff `buffer > 0` |
| LegacySetup.SetFormatMethod | setup/setup.go:41-43 | inserts or overwrites exactly one funcmap key |
| LegacySetup.SetupWithFacility | setup/setup.go:63-137 | returns the error and leaves the state that the step machine `Run` gives |
| LegacySetup.Setup | setup/setup.go:55-57 | is `SetupWithFacility` with facility `LOG_USER` |
| LegacySetup.Must | setup/setup.go:45-49 | panics iff there is an error, with that error |
| LegacySetup.MustSetup | setup/setup.go:51-53 | panics iff `Setup` would return an error, and leaves the same state |
| LegacySetup.MustSetupWithFacility | setup/setup.go:59-61 | panics iff `SetupWithFacility` would return an error, and leaves the same state |
| LegacySetup.CaptureComesFirst | setup/setup.go:64-71 | capture is attempted first, only with a subprocess named; its failure is returned with the state entirely unchanged |
| LegacySetup.CaptureArgsShape | setup/setup.go:65-67 | capture runs `setsid` with the subprocess, `--tag procname` and `--priority facility.LOG_CRIT`, which is "8.2" under `Setup` |
| LegacySetup.RulesInstalled | setup/setup.go:72-85 | a bad level is returned with rules and handler untouched; a valid level becomes the default rule iff it differs from `DefaultLevel`; a bad filter is returned, a good one becomes a rule at `MinInt32` |
| LegacySetup.HandlerInstalledAfterOutputOpens | setup/setup.go:86-130 | template or output errors are returned with the handler slot unchanged; otherwise the slot holds the built handler |
| LegacySetup.StdlibBridgeComesLast | setup/setup.go:129-136 | a bad stdlib level is returned after the handler is installed; success returns no error and routes stdlib log to the "stdlog" no-caller writer at that level |
| LegacySetup.SucceedsIffEveryStepSucceeds | setup/setup.go:63-137 | no error is returned iff every step succeeds |
| LegacySetup.StdlibUntouchedOnEarlierFailure | setup/setup.go:63-128 | a failure at any step before the stdlib bridge (capture, level, filter, template, opening the output) is returned with the stdlib flags and output as they were |
| LegacySetup.PlainStderrSetup | setup/setup.go:63-137 | with no capture, filter, format or buffer and the output on stderr, setup adds a level rule only for a non-default level, installs the colour template on stderr and then bridges the standard library at the stdlib level |
| LegacySetup.MakeHandler | setup/setup.go:86-128 | the template and output choice, run statement by statement, returns exactly the handler or error `BuildHandler` describes |
| LegacySetup.FuncmapUnchanged | setup/setup.go:63-137 | setup leaves the funcmap as it was |
| LegacySetup.DefaultsLogToStderr | setup/setup.go:19-34 | with the default flags, setup starts no capture and adds no filter, adds a level rule only when the named level is not the default, installs the colour template on standard error and bridges the standard library at the level of "warn" |
| LogSetup.InstallOutput | setup.go:62-98 | changes only the handler slot and the capture; a syslog or file output that fails to open is returned with nothing changed; otherwise the handler is exactly the user template (or the selector's default) on the selected output; stdout and stderr never fail and a file fails only when it cannot be opened; only the syslog branch captures, with `(procname, binary)` when a binary is named, returning the capture's own error |
| LogSetup.InstallOutputStep | setup.go:62-98 | the switch, run statement by statement on the global state, returns the error and leaves the state that `InstallOutput` describes |
| LogSetup.SetFormatMethod | setup.go:30-33 | inserts or overwrites exactly one funcmap key |
| LogSetup.SetupWithFacility | setup.go:39-106 | returns the error and leaves the state that the step machine `Run` gives |
| LogSetup.Setup | setup.go:35-37 | is `SetupWithFacility` with facility `LOG_USER` |
| LogSetup.RulesInstalled | setup.go:40-53 | an empty level adds no default rule; a bad level is returned with nothing changed; a valid one is installed unconditionally; a filter becomes a rule at `Debug` or its compile error is returned |
| LogSetup.TemplateChoice | setup.go:54-98 | a bad user format is returned before any handler or capture change; a new handler uses the user template, else the selector's default |
| LogSetup.OutputChoice | setup.go:62-98 | with the format accepted, an output that fails to open is returned with the handler unchanged, and otherwise the handler is exactly the user template (else the selector's default) on the selected output |
| LogSetup.SyslogHandlerBeforeCapture | setup.go:63-77 | the syslog handler is installed before capture; capture runs only with a binary named, with `(procname, binary)`; its failure is returned with the handler still installed |
| LogSetup.OtherOutputsNeverCapture | setup.go:78-98 | the stdout, stderr and file branches never start capture |
| LogSetup.StdlibBridgeComesLast | setup.go:99-105 | once the handler step succeeds, the handler is exactly the chosen template on the selected output; a bad stdlib level is returned after that; success returns no error and routes stdlib log to the "stdlog" no-caller writer |
| LogSetup.DefaultsLogToStderr | setup.go:15-25 | with every flag at its default, setup adds no rule, starts no capture, installs the colour template on standard error and bridges the standard library at the level of "info" |
| LogSetup.SucceedsIffEveryStepSucceeds | setup.go:39-106 | no error is returned iff the level, the filter, the template, opening the output, the syslog capture (when a binary is named) and the stdlib level all succeed |
| LogSetup.StdlibUntouchedOnEarlierFailure | setup.go:39-98 | a failure at any step before the stdlib bridge is returned with the stdlib flags and output as they were |
| LogSetup.PlainStderrSetup | setup.go:39-106 | with no level, filter or format and the output on stderr, setup adds no rule, starts no capture, installs the colour template on stderr and then bridges the standard library at the stdlib level |
| LogSetup.FuncmapUnchanged | setup.go:39-106 | setup leaves the funcmap as it was |

## Left out

- The bodies of `getLevel`, `getHandler`, `SetLevel`, `SetHandler`, `NewBufferedOutput` and `CaptureOutputToProcess` are not part of this model: the calls are modelled by their effect on the global state, not by what happens inside them. The effective level is an abstract function of the logger name, and the handler is one recording trace. `rules` records the `SetLevel` calls in order; how they resolve to a level is not modelled.
- The handler call does not record which handler `getHandler` returned for the name.
- The numeric values of the level constants and of `DefaultLevel` are declared in a file that is not part of this model. The constants are given increasing values, and `DefaultLevel` is an input (`Env.defaultLevel`).
- `fmt.Sprint`/`fmt.Sprintf`, regular expressions, `text/template`, syslog connections and `os.OpenFile` are foreign library calls. They are opaque functions or fallible oracles. The file's open mode and permission bits are not recorded.
- Flag parsing is left out: flag values are plain inputs (`Flags`), with the defaults given as `DefaultFlags`.
- The buffered output's queue and its concurrency, the registries' concurrency, and the descriptor redirection done by capture are not modelled. A started capture is recorded by its argument list only.
- `log.SetFlags` and `log.SetOutput` are recorded by the values passed. The standard library logger's behaviour is not modelled.
- Text.Lower: lowers ASCII letters only. The Unicode case mapping of `strings.ToLower` is not modelled.
- A Go `panic` in `must` is modelled as a returned `Completion` value, not as unwinding.
- The two packages each keep their own `funcmap` variable (setup.go:26 and setup/setup.go:37). The model has one `Globals.funcmap` for both. If one `Globals` is passed to both setups, a `SetFormatMethod` of one variant is seen by the other, which cannot happen in Go. Each setup on its own reads and writes its funcmap as its source does.
