/** The process-wide state that the setup routines configure, and the
    fallible library calls they make, as oracles. */
module LogState {

  import opened Wrappers
  import Levels
  import Text

  /** A Go `error` value, as the failing library call produced it. */
  datatype Error = Error(message: string)

  /** A compiled logger-name pattern (`*regexp.Regexp`), by its source. */
  datatype Regexp = Regexp(source: string)

  /** A function registered in a `funcmap` for use by templates. */
  datatype FuncRef = ColorizeLevel | FormatMethod(id: nat)

  /** The message templates: the three the log package provides and one
      parsed from a user format together with the funcmap it was given. */
  datatype Template =
    | SyslogTemplate
    | ColorTemplate
    | StandardTemplate
    | UserTemplate(source: string, funcs: map<string, FuncRef>)

  datatype Stream = Stdout | Stderr | File(path: string)

  /** A `TextOutput`: a syslog connection, a writer on a stream, or a
      buffered output wrapping another output. */
  datatype Output =
    | SyslogOutput(facility: int, tag: string)
    | WriterOutput(stream: Stream)
    | BufferedOutput(inner: Output, size: int)

  /** The handler in the default slot: whatever was installed before setup,
      or a text handler made of a template and an output. */
  datatype Handler = InitialHandler | TextHandler(template: Template, output: Output)

  /** One `SetLevel(pattern, level)` call; `None` is the nil pattern, the
      default rule. */
  datatype Rule = Rule(pattern: Option<Regexp>, level: Levels.LogLevel)

  /** Where the standard library's `log` package writes: standard error, or
      the no-caller writer of the logger named "stdlog" at some level. */
  datatype StdlibOutput = StandardError | StdlogWriter(level: Levels.LogLevel)

  /** The values of `log.LstdFlags` and `log.Lshortfile`. */
  const LstdFlags: int := 3
  const Lshortfile: int := 16

  /** `syslog.LOG_USER` and `syslog.LOG_CRIT`. */
  const LOG_USER: int := 8
  const LOG_CRIT: int := 2

  /** Everything a setup routine reads or changes. `rules` lists the
      `SetLevel` calls made, oldest first; `capture` is the argument list of
      the output capture once one has been started. */
  datatype State = State(
    rules: seq<Rule>,
    handler: Handler,
    capture: Option<seq<string>>,
    stdlibFlags: int,
    stdlibOutput: StdlibOutput,
    funcmap: map<string, FuncRef>)

  /** A setup routine's returned error and the state it leaves behind. */
  datatype Outcome = Outcome(err: Option<Error>, state: State)

  /** The library calls a setup routine makes, as fallible oracles:
      `LevelFromString`, `regexp.Compile`, parsing a template with a funcmap,
      `NewSyslogOutput`, `os.OpenFile` and `CaptureOutputToProcess`.
      `defaultLevel` is `DefaultLevel`. */
  datatype Env = Env(
    defaultLevel: Levels.LogLevel,
    parseLevel: string -> Result<Levels.LogLevel, Error>,
    compile: string -> Option<Error>,
    parseTemplate: (map<string, FuncRef>, string) -> Option<Error>,
    openSyslog: (int, string) -> Option<Error>,
    openFile: string -> Option<Error>,
    capture: seq<string> -> Option<Error>)

  /** What the lower-cased `-log.output` selects. */
  datatype Selector = SyslogSel | StdoutSel | StderrSel | FileSel

  function SelectorOf(output: string): (sel: Selector)
    ensures sel == SyslogSel <==> Text.EqualFold(output, "syslog")
    ensures sel == StdoutSel <==> Text.EqualFold(output, "stdout")
    ensures sel == StderrSel <==> Text.EqualFold(output, "stderr")
  {
    SelectorWordsAreLower();
    Text.LowerEqualsIffEqualFold(output, "syslog");
    Text.LowerEqualsIffEqualFold(output, "stdout");
    Text.LowerEqualsIffEqualFold(output, "stderr");
    var lowered := Text.Lower(output);
    if lowered == "syslog" then SyslogSel
    else if lowered == "stdout" then StdoutSel
    else if lowered == "stderr" then StderrSel
    else FileSel
  }

  /** The three selector words are already lower case. */
  lemma SelectorWordsAreLower()
    ensures Text.Lower("syslog") == "syslog"
    ensures Text.Lower("stdout") == "stdout"
    ensures Text.Lower("stderr") == "stderr"
  {
    SyslogIsLower();
    StdoutIsLower();
    StderrIsLower();
  }

  lemma SyslogIsLower()
    ensures Text.Lower("syslog") == "syslog"
  {
    Text.LowerOfNoUpper("syslog");
  }

  lemma StdoutIsLower()
    ensures Text.Lower("stdout") == "stdout"
  {
    Text.LowerOfNoUpper("stdout");
  }

  lemma StderrIsLower()
    ensures Text.Lower("stderr") == "stderr"
  {
    Text.LowerOfNoUpper("stderr");
  }

  /** The default output word selects standard error. */
  lemma StderrSelectsStderr()
    ensures SelectorOf("stderr") == StderrSel
  {
    assert Text.Lower("stderr") == "stderr";
  }

  /** The template used when no user format is given. */
  function DefaultTemplate(sel: Selector): Template {
    match sel
    case SyslogSel => SyslogTemplate
    case StdoutSel => ColorTemplate
    case StderrSel => ColorTemplate
    case FileSel => StandardTemplate
  }

  /** The output the selector names, before any buffering. */
  function OutputFor(sel: Selector, output: string, facility: int, procname: string): Output {
    match sel
    case SyslogSel => SyslogOutput(facility, procname)
    case StdoutSel => WriterOutput(Stdout)
    case StderrSel => WriterOutput(Stderr)
    case FileSel => WriterOutput(File(output))
  }

  /** The error opening the selected output, if any: only syslog and files
      can fail to open. */
  function OpenError(env: Env, sel: Selector, output: string, facility: int, procname: string): Option<Error> {
    match sel
    case SyslogSel => env.openSyslog(facility, procname)
    case FileSel => env.openFile(output)
    case _ => None
  }

  /** The state of a process before any setup runs. */
  const Initial: State := State([], InitialHandler, None, LstdFlags, StandardError,
                                map["ColorizeLevel" := ColorizeLevel])

  /** The global state of the log package, changed in place by the library
      calls below (whose own bodies are not part of this model). */
  class Globals {
    var rules: seq<Rule>
    var handler: Handler
    var capture: Option<seq<string>>
    var stdlibFlags: int
    var stdlibOutput: StdlibOutput
    var funcmap: map<string, FuncRef>

    function Snapshot(): State
      reads this
    {
      State(rules, handler, capture, stdlibFlags, stdlibOutput, funcmap)
    }

    constructor ()
      ensures Snapshot() == Initial
    {
      rules := [];
      handler := InitialHandler;
      capture := None;
      stdlibFlags := LstdFlags;
      stdlibOutput := StandardError;
      funcmap := map["ColorizeLevel" := ColorizeLevel];
    }

    /** `SetLevel(pattern, level)`. */
    method SetLevel(pattern: Option<Regexp>, level: Levels.LogLevel)
      modifies this
      ensures Snapshot() == old(Snapshot()).(rules := old(rules) + [Rule(pattern, level)])
    {
      rules := rules + [Rule(pattern, level)];
    }

    /** `SetHandler(nil, h)`: fills the default handler slot. */
    method SetHandler(h: Handler)
      modifies this
      ensures Snapshot() == old(Snapshot()).(handler := h)
    {
      handler := h;
    }

    /** `log.SetFlags(flags)`. */
    method SetStdlibFlags(flags: int)
      modifies this
      ensures Snapshot() == old(Snapshot()).(stdlibFlags := flags)
    {
      stdlibFlags := flags;
    }

    /** `log.SetOutput(w)`. */
    method SetStdlibOutput(w: StdlibOutput)
      modifies this
      ensures Snapshot() == old(Snapshot()).(stdlibOutput := w)
    {
      stdlibOutput := w;
    }

    /** `CaptureOutputToProcess(args...)`: fails as the oracle says, and
        otherwise leaves capture started with these arguments. */
    method CaptureOutputToProcess(env: Env, args: seq<string>) returns (err: Option<Error>)
      modifies this
      ensures err == env.capture(args)
      ensures Snapshot() == if err.None? then old(Snapshot()).(capture := Some(args)) else old(Snapshot())
    {
      err := env.capture(args);
      if err.None? {
        capture := Some(args);
      }
    }

    /** `funcmap[name] = fn`. */
    method PutFormatMethod(name: string, fn: FuncRef)
      modifies this
      ensures Snapshot() == old(Snapshot()).(funcmap := old(funcmap)[name := fn])
    {
      funcmap := funcmap[name := fn];
    }
  }
}
