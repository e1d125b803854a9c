/** The configuration step machine of the `setup` package (setup/setup.go):
    optional output capture, the base level, the filter rule, the handler
    built from a template and an output, and the standard library bridge. */
module LegacySetup {

  import opened Wrappers
  import opened LogState
  import Levels
  import Text

  /** The values of the package's command-line flags. */
  datatype Flags = Flags(
    output: string,
    level: string,
    filter: string,
    format: string,
    stdlevel: string,
    subproc: string,
    buffer: int)

  /** The flag defaults; `defaultLevelName` is `DefaultLevel.Name()`. */
  function DefaultFlags(defaultLevelName: string): Flags {
    Flags("stderr", defaultLevelName, "", "", "warn", "", 0)
  }

  /** The `--priority` argument: `"%d.%d"` of the facility and `LOG_CRIT`. */
  function PriorityArg(facility: int): string {
    Text.FormatInt(facility) + "." + Text.FormatInt(LOG_CRIT)
  }

  /** How the capturing process reads a priority argument back: the text up
      to the first dot and the text after it, both decimal integers. */
  function ParsePriority(s: string): Option<(int, int)> {
    var k := Text.IndexOf(s, '.');
    if k == |s| then None
    else match (Text.ParseInt(s[..k]), Text.ParseInt(s[k + 1..]))
      case (Some(f), Some(p)) => Some((f, p))
      case _ => None
  }

  /** The priority argument carries the facility and `LOG_CRIT` unambiguously. */
  lemma PriorityArgRoundTrip(facility: int)
    ensures ParsePriority(PriorityArg(facility)) == Some((facility, LOG_CRIT))
  {
    var f := Text.FormatInt(facility);
    var p := Text.FormatInt(LOG_CRIT);
    var s := PriorityArg(facility);
    assert s == f + "." + p;
    assert s[|f|] == '.';
    assert forall i :: 0 <= i < |f| ==> s[i] == f[i];
    assert Text.IndexOf(s, '.') == |f|;
    assert s[..|f|] == f;
    assert s[|f| + 1..] == p;
    Text.FormatIntRoundTrip(facility);
    Text.FormatIntRoundTrip(LOG_CRIT);
  }

  /** The command line handed to `CaptureOutputToProcess`. */
  function CaptureArgs(subproc: string, procname: string, facility: int): seq<string> {
    ["/usr/bin/setsid", subproc, "--tag", procname, "--priority", PriorityArg(facility)]
  }

  /** The template, the output and the optional buffer of the handler that
      setup installs (setup/setup.go lines 86-128). */
  function BuildHandler(f: Flags, procname: string, facility: int, env: Env, funcmap: map<string, FuncRef>)
    : (r: Result<Handler, Error>)
    ensures f.format != "" && env.parseTemplate(funcmap, f.format).Some? ==>
              r == Err(env.parseTemplate(funcmap, f.format).value)
    ensures r.Ok? <==> (f.format == "" || env.parseTemplate(funcmap, f.format).None?)
                       && OpenError(env, SelectorOf(f.output), f.output, facility, procname).None?
    ensures r.Ok? ==> r.value.TextHandler?
    ensures r.Ok? && f.format != "" ==> r.value.template == UserTemplate(f.format, funcmap)
    ensures r.Ok? && f.format == "" ==> r.value.template == DefaultTemplate(SelectorOf(f.output))
    ensures r.Ok? ==> (r.value.output.BufferedOutput? <==> f.buffer > 0)
    ensures r.Ok? && f.buffer > 0 ==>
              r.value.output == BufferedOutput(OutputFor(SelectorOf(f.output), f.output, facility, procname), f.buffer)
    ensures r.Ok? && f.buffer <= 0 ==>
              r.value.output == OutputFor(SelectorOf(f.output), f.output, facility, procname)
    ensures (f.format == "" || env.parseTemplate(funcmap, f.format).None?) &&
            OpenError(env, SelectorOf(f.output), f.output, facility, procname).Some? ==>
              r == Err(OpenError(env, SelectorOf(f.output), f.output, facility, procname).value)
  {
    if f.format != "" && env.parseTemplate(funcmap, f.format).Some? then
      Err(env.parseTemplate(funcmap, f.format).value)
    else
      var sel := SelectorOf(f.output);
      var user := if f.format != "" then Some(UserTemplate(f.format, funcmap)) else None;
      match OpenError(env, sel, f.output, facility, procname)
      case Some(e) => Err(e)
      case None =>
        var out := OutputFor(sel, f.output, facility, procname);
        Ok(TextHandler(user.GetOr(DefaultTemplate(sel)), if f.buffer > 0 then BufferedOutput(out, f.buffer) else out))
  }

  /** What `SetupWithFacility` returns and leaves behind, step by step. */
  function Run(f: Flags, procname: string, facility: int, env: Env, s: State): Outcome {
    var args := CaptureArgs(f.subproc, procname, facility);
    if f.subproc != "" && env.capture(args).Some? then Outcome(env.capture(args), s)
    else
      var s1 := if f.subproc != "" then s.(capture := Some(args)) else s;
      match env.parseLevel(f.level)
      case Err(e) => Outcome(Some(e), s1)
      case Ok(lv) =>
        var s2 := if lv != env.defaultLevel then s1.(rules := s1.rules + [Rule(None, lv)]) else s1;
        if f.filter != "" && env.compile(f.filter).Some? then Outcome(env.compile(f.filter), s2)
        else
          var s3 := if f.filter != "" then s2.(rules := s2.rules + [Rule(Some(Regexp(f.filter)), Levels.MinInt32)]) else s2;
          match BuildHandler(f, procname, facility, env, s3.funcmap)
          case Err(e) => Outcome(Some(e), s3)
          case Ok(h) =>
            var s4 := s3.(handler := h, stdlibFlags := Lshortfile);
            match env.parseLevel(f.stdlevel)
            case Err(e) => Outcome(Some(e), s4)
            case Ok(sl) => Outcome(None, s4.(stdlibOutput := StdlogWriter(sl)))
  }

  /** `SetFormatMethod(name, fn)`: registers one template function. */
  method SetFormatMethod(g: Globals, name: string, fn: FuncRef)
    modifies g
    ensures g.Snapshot() == old(g.Snapshot()).(funcmap := old(g.funcmap)[name := fn])
  {
    g.PutFormatMethod(name, fn);
  }

  /** The template and output choice of setup/setup.go lines 86-128, step
      by step: the handler `BuildHandler` describes, or the first error. */
  method MakeHandler(f: Flags, procname: string, facility: int, env: Env, funcmap: map<string, FuncRef>)
    returns (r: Result<Handler, Error>)
    ensures r == BuildHandler(f, procname, facility, env, funcmap)
  {
    var t: Option<Template> := None;
    if f.format != "" {
      var parseErr := env.parseTemplate(funcmap, f.format);
      if parseErr.Some? {
        return Err(parseErr.value);
      }
      t := Some(UserTemplate(f.format, funcmap));
    }
    var textout: Output;
    var lowered := Text.Lower(f.output);
    if lowered == "syslog" {
      var openErr := env.openSyslog(facility, procname);
      if openErr.Some? {
        return Err(openErr.value);
      }
      if t.None? {
        t := Some(SyslogTemplate);
      }
      textout := SyslogOutput(facility, procname);
    } else if lowered == "stdout" {
      if t.None? {
        t := Some(ColorTemplate);
      }
      textout := WriterOutput(Stdout);
    } else if lowered == "stderr" {
      if t.None? {
        t := Some(ColorTemplate);
      }
      textout := WriterOutput(Stderr);
    } else {
      if t.None? {
        t := Some(StandardTemplate);
      }
      var openErr := env.openFile(f.output);
      if openErr.Some? {
        return Err(openErr.value);
      }
      textout := WriterOutput(File(f.output));
    }
    if f.buffer > 0 {
      textout := BufferedOutput(textout, f.buffer);
    }
    return Ok(TextHandler(t.value, textout));
  }

  method SetupWithFacility(g: Globals, f: Flags, procname: string, facility: int, env: Env)
    returns (err: Option<Error>)
    modifies g
    ensures Outcome(err, g.Snapshot()) == Run(f, procname, facility, env, old(g.Snapshot()))
  {
    if f.subproc != "" {
      err := g.CaptureOutputToProcess(env, CaptureArgs(f.subproc, procname, facility));
      if err.Some? {
        return;
      }
    }
    var levelVal := env.parseLevel(f.level);
    if levelVal.Err? {
      return Some(levelVal.error);
    }
    if levelVal.value != env.defaultLevel {
      g.SetLevel(None, levelVal.value);
    }
    if f.filter != "" {
      var compileErr := env.compile(f.filter);
      if compileErr.Some? {
        return compileErr;
      }
      g.SetLevel(Some(Regexp(f.filter)), Levels.MinInt32);
    }
    var h := MakeHandler(f, procname, facility, env, g.funcmap);
    if h.Err? {
      return Some(h.error);
    }
    g.SetHandler(h.value);
    g.SetStdlibFlags(Lshortfile);
    var stdlogLevel := env.parseLevel(f.stdlevel);
    if stdlogLevel.Err? {
      return Some(stdlogLevel.error);
    }
    g.SetStdlibOutput(StdlogWriter(stdlogLevel.value));
    return None;
  }

  /** `Setup(procname)`: setup with the user facility. */
  method Setup(g: Globals, f: Flags, procname: string, env: Env) returns (err: Option<Error>)
    modifies g
    ensures Outcome(err, g.Snapshot()) == Run(f, procname, LOG_USER, env, old(g.Snapshot()))
  {
    err := SetupWithFacility(g, f, procname, LOG_USER, env);
  }

  /** How a `Must*` call ends: it returns, or it panics with the error. */
  datatype Completion = Returned | Panicked(error: Error)

  /** `must(err)`: panics exactly when there is an error, with that error. */
  function Must(err: Option<Error>): (c: Completion)
    ensures c.Panicked? <==> err.Some?
    ensures c.Panicked? ==> c.error == err.value
  {
    match err
    case Some(e) => Panicked(e)
    case None => Returned
  }

  method MustSetup(g: Globals, f: Flags, procname: string, env: Env) returns (c: Completion)
    modifies g
    ensures c == Must(Run(f, procname, LOG_USER, env, old(g.Snapshot())).err)
    ensures g.Snapshot() == Run(f, procname, LOG_USER, env, old(g.Snapshot())).state
  {
    var err := Setup(g, f, procname, env);
    c := Must(err);
  }

  method MustSetupWithFacility(g: Globals, f: Flags, procname: string, facility: int, env: Env)
    returns (c: Completion)
    modifies g
    ensures c == Must(Run(f, procname, facility, env, old(g.Snapshot())).err)
    ensures g.Snapshot() == Run(f, procname, facility, env, old(g.Snapshot())).state
  {
    var err := SetupWithFacility(g, f, procname, facility, env);
    c := Must(err);
  }
  // Properties of the step machine.

  /** The capture step, when attempted, succeeds. */
  predicate CaptureOk(f: Flags, procname: string, facility: int, env: Env) {
    f.subproc == "" || env.capture(CaptureArgs(f.subproc, procname, facility)).None?
  }

  /** Capture is attempted first, and only with a subprocess named. A failed
      capture is returned before any level rule, handler or other state
      changes; a successful one is recorded with its command line. */
  lemma CaptureComesFirst(f: Flags, procname: string, facility: int, env: Env, s: State)
    ensures var args := CaptureArgs(f.subproc, procname, facility);
            f.subproc != "" && env.capture(args).Some? ==>
              Run(f, procname, facility, env, s) == Outcome(env.capture(args), s)
    ensures Run(f, procname, facility, env, s).state.capture
         == if f.subproc != "" && CaptureOk(f, procname, facility, env)
            then Some(CaptureArgs(f.subproc, procname, facility)) else s.capture
  {
  }

  /** The arguments of the capture: `setsid`, the subprocess, its tag and
      its priority; under `Setup` the priority is "8.2" (user facility,
      critical severity). */
  lemma CaptureArgsShape(subproc: string, procname: string, facility: int)
    ensures var args := CaptureArgs(subproc, procname, facility);
            |args| == 6 && args[0] == "/usr/bin/setsid" && args[1] == subproc &&
            args[2] == "--tag" && args[3] == procname && args[4] == "--priority" &&
            ParsePriority(args[5]) == Some((facility, LOG_CRIT))
    ensures PriorityArg(LOG_USER) == "8.2"
  {
    PriorityArgRoundTrip(facility);
    assert Text.Digits(8) == "8";
    assert Text.Digits(2) == "2";
  }

  /** An unparsable level is returned with the rules and handler untouched.
      A valid level is installed as the default rule only when it differs
      from the default level; a filter that fails to compile is returned;
      otherwise the filter becomes a rule at `MinInt32`. */
  lemma RulesInstalled(f: Flags, procname: string, facility: int, env: Env, s: State)
    requires CaptureOk(f, procname, facility, env)
    ensures var o := Run(f, procname, facility, env, s);
            env.parseLevel(f.level).Err? ==>
              o.err == Some(env.parseLevel(f.level).error) && o.state.rules == s.rules && o.state.handler == s.handler
    ensures var o := Run(f, procname, facility, env, s);
            env.parseLevel(f.level).Ok? ==>
              var lv := env.parseLevel(f.level).value;
              var levelRules := if lv != env.defaultLevel then [Rule(None, lv)] else [];
              if f.filter != "" && env.compile(f.filter).Some? then
                o == Outcome(env.compile(f.filter), o.state) &&
                o.state.rules == s.rules + levelRules && o.state.handler == s.handler
              else
                o.state.rules == s.rules + levelRules +
                  (if f.filter != "" then [Rule(Some(Regexp(f.filter)), Levels.MinInt32)] else [])
  {
  }

  /** The capture, the level and the filter steps all succeed. */
  predicate RulesOk(f: Flags, procname: string, facility: int, env: Env) {
    CaptureOk(f, procname, facility, env) && env.parseLevel(f.level).Ok? &&
    (f.filter == "" || env.compile(f.filter).None?)
  }

  /** The default handler is replaced only once the template has parsed and
      the output has opened; a failure there is returned with the slot
      unchanged. Otherwise the slot holds exactly the handler built, whose
      template, output and buffering `BuildHandler` describes. */
  lemma HandlerInstalledAfterOutputOpens(f: Flags, procname: string, facility: int, env: Env, s: State)
    requires RulesOk(f, procname, facility, env)
    ensures var o := Run(f, procname, facility, env, s);
            var h := BuildHandler(f, procname, facility, env, s.funcmap);
            (h.Err? ==> o.err == Some(h.error) && o.state.handler == s.handler && o.state.stdlibFlags == s.stdlibFlags) &&
            (h.Ok? ==> o.state.handler == h.value && o.state.stdlibFlags == Lshortfile)
  {
  }

  /** An unparsable stdlib level is returned after the handler is already
      installed; otherwise setup returns no error and routes the standard
      library's log through the "stdlog" logger's no-caller writer. */
  lemma StdlibBridgeComesLast(f: Flags, procname: string, facility: int, env: Env, s: State)
    requires RulesOk(f, procname, facility, env)
    requires BuildHandler(f, procname, facility, env, s.funcmap).Ok?
    ensures var o := Run(f, procname, facility, env, s);
            var h := BuildHandler(f, procname, facility, env, s.funcmap).value;
            o.state.handler == h &&
            (env.parseLevel(f.stdlevel).Err? ==>
               o.err == Some(env.parseLevel(f.stdlevel).error) && o.state.stdlibOutput == s.stdlibOutput) &&
            (env.parseLevel(f.stdlevel).Ok? ==>
               o.err == None && o.state.stdlibOutput == StdlogWriter(env.parseLevel(f.stdlevel).value))
  {
  }

  /** Setup returns no error exactly when every step succeeds. */
  lemma SucceedsIffEveryStepSucceeds(f: Flags, procname: string, facility: int, env: Env, s: State)
    ensures Run(f, procname, facility, env, s).err.None?
        <==> RulesOk(f, procname, facility, env) &&
             BuildHandler(f, procname, facility, env, s.funcmap).Ok? &&
             env.parseLevel(f.stdlevel).Ok?
  {
  }

  /** A failure at any step before the stdlib bridge leaves the stdlib
      flags and output as they were. */
  lemma StdlibUntouchedOnEarlierFailure(f: Flags, procname: string, facility: int, env: Env, s: State)
    ensures var o := Run(f, procname, facility, env, s);
            !(RulesOk(f, procname, facility, env) && BuildHandler(f, procname, facility, env, s.funcmap).Ok?) ==>
              o.err.Some? && o.state.stdlibFlags == s.stdlibFlags && o.state.stdlibOutput == s.stdlibOutput
  {
  }

  /** With the default flags, setup starts no capture, adds no filter,
      adds a level rule only for a non-default level, logs to standard
      error with the colour template and bridges the standard library at
      the level "warn" parses to. */
  lemma DefaultsLogToStderr(defaultLevelName: string, procname: string, facility: int, env: Env, s: State)
    ensures var o := Run(DefaultFlags(defaultLevelName), procname, facility, env, s);
            o.state.capture == s.capture &&
            (env.parseLevel(defaultLevelName).Err? ==> o == Outcome(Some(env.parseLevel(defaultLevelName).error), s))
    ensures var o := Run(DefaultFlags(defaultLevelName), procname, facility, env, s);
            var lv := env.parseLevel(defaultLevelName);
            lv.Ok? ==>
              o.state.rules == s.rules + (if lv.value != env.defaultLevel then [Rule(None, lv.value)] else []) &&
              o.state.handler == TextHandler(ColorTemplate, WriterOutput(Stderr)) &&
              o.state.stdlibFlags == Lshortfile &&
              o.err == (if env.parseLevel("warn").Err? then Some(env.parseLevel("warn").error) else None) &&
              o.state.stdlibOutput == (if env.parseLevel("warn").Err? then s.stdlibOutput
                                       else StdlogWriter(env.parseLevel("warn").value))
  {
    StderrSelectsStderr();
    PlainStderrSetup(DefaultFlags(defaultLevelName), procname, facility, env, s);
  }

  /** Setup with no capture, filter, format or buffer and the output on
      standard error: the level rule, the colour handler on stderr, then
      the stdlib bridge. */
  lemma PlainStderrSetup(f: Flags, procname: string, facility: int, env: Env, s: State)
    requires f.subproc == "" && f.filter == "" && f.format == "" && f.buffer == 0
    requires SelectorOf(f.output) == StderrSel
    ensures var o := Run(f, procname, facility, env, s);
            o.state.capture == s.capture &&
            (env.parseLevel(f.level).Err? ==> o == Outcome(Some(env.parseLevel(f.level).error), s))
    ensures var o := Run(f, procname, facility, env, s);
            var lv := env.parseLevel(f.level);
            lv.Ok? ==>
              o.state.rules == s.rules + (if lv.value != env.defaultLevel then [Rule(None, lv.value)] else []) &&
              o.state.handler == TextHandler(ColorTemplate, WriterOutput(Stderr)) &&
              o.state.stdlibFlags == Lshortfile &&
              o.err == (if env.parseLevel(f.stdlevel).Err? then Some(env.parseLevel(f.stdlevel).error) else None) &&
              o.state.stdlibOutput == (if env.parseLevel(f.stdlevel).Err? then s.stdlibOutput
                                       else StdlogWriter(env.parseLevel(f.stdlevel).value))
  {
    assert BuildHandler(f, procname, facility, env, s.funcmap) == Ok(TextHandler(ColorTemplate, WriterOutput(Stderr)));
  }

  /** Setup never touches the funcmap. */
  lemma FuncmapUnchanged(f: Flags, procname: string, facility: int, env: Env, s: State)
    ensures Run(f, procname, facility, env, s).state.funcmap == s.funcmap
  {
  }
}
