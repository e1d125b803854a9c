/** The configuration step machine of the log package itself (setup.go):
    the base level, the filter rule, the template, then per output selector
    the handler (and, for syslog, output capture), and the standard library
    bridge. */
module LogSetup {

  import opened Wrappers
  import opened LogState
  import Levels
  import Text

  /** The values of the package's command-line flags. */
  datatype Flags = Flags(
    output: string,
    level: string,
    filter: string,
    format: string,
    stdlevel: string,
    syslogBinary: string)

  const DefaultFlags: Flags := Flags("stderr", "", "", "", "info", "/usr/bin/logger")

  /** The user template, if a format was given and parses (setup.go lines 54-61). */
  function UserTemplateFor(f: Flags, env: Env, funcmap: map<string, FuncRef>): Result<Option<Template>, Error> {
    if f.format == "" then Ok(None)
    else match env.parseTemplate(funcmap, f.format)
      case Some(e) => Err(e)
      case None => Ok(Some(UserTemplate(f.format, funcmap)))
  }

  /** The switch on the lower-cased output selector (setup.go lines 62-98). */
  function InstallOutput(f: Flags, procname: string, facility: int, env: Env, user: Option<Template>, s: State)
    : (o: Outcome)
    ensures o.state == s.(handler := o.state.handler, capture := o.state.capture)
    ensures SelectorOf(f.output) != SyslogSel ==> o.state.capture == s.capture
    ensures SelectorOf(f.output) != SyslogSel ==>
              o.err == OpenError(env, SelectorOf(f.output), f.output, facility, procname)
    ensures OpenError(env, SelectorOf(f.output), f.output, facility, procname).Some? ==>
              o == Outcome(OpenError(env, SelectorOf(f.output), f.output, facility, procname), s)
    ensures OpenError(env, SelectorOf(f.output), f.output, facility, procname).None? ==>
              o.state.handler == TextHandler(user.GetOr(DefaultTemplate(SelectorOf(f.output))),
                                             OutputFor(SelectorOf(f.output), f.output, facility, procname))
    ensures o.err.None? ==>
              o.state.handler == TextHandler(user.GetOr(DefaultTemplate(SelectorOf(f.output))),
                                             OutputFor(SelectorOf(f.output), f.output, facility, procname))
    ensures SelectorOf(f.output) == SyslogSel && env.openSyslog(facility, procname).None? ==>
              var args := [procname, f.syslogBinary];
              o.err == (if f.syslogBinary != "" then env.capture(args) else None) &&
              o.state.capture == (if f.syslogBinary != "" && env.capture(args).None? then Some(args) else s.capture)
  {
    match SelectorOf(f.output)
    case SyslogSel =>
      if env.openSyslog(facility, procname).Some? then Outcome(env.openSyslog(facility, procname), s)
      else
        var s1 := s.(handler := TextHandler(user.GetOr(SyslogTemplate), SyslogOutput(facility, procname)));
        var args := [procname, f.syslogBinary];
        if f.syslogBinary == "" then Outcome(None, s1)
        else if env.capture(args).Some? then Outcome(env.capture(args), s1)
        else Outcome(None, s1.(capture := Some(args)))
    case StdoutSel => Outcome(None, s.(handler := TextHandler(user.GetOr(ColorTemplate), WriterOutput(Stdout))))
    case StderrSel => Outcome(None, s.(handler := TextHandler(user.GetOr(ColorTemplate), WriterOutput(Stderr))))
    case FileSel =>
      if env.openFile(f.output).Some? then Outcome(env.openFile(f.output), s)
      else Outcome(None, s.(handler := TextHandler(user.GetOr(StandardTemplate), WriterOutput(File(f.output)))))
  }

  /** The level and filter steps both succeed. */
  predicate RulesOk(f: Flags, env: Env) {
    (f.level == "" || env.parseLevel(f.level).Ok?) && (f.filter == "" || env.compile(f.filter).None?)
  }

  /** The rules added by the level and filter steps (setup.go lines 40-53). */
  function AddedRules(f: Flags, env: Env): seq<Rule>
    requires RulesOk(f, env)
  {
    (if f.level != "" then [Rule(None, env.parseLevel(f.level).value)] else []) +
    (if f.filter != "" then [Rule(Some(Regexp(f.filter)), Levels.Debug)] else [])
  }

  /** What `SetupWithFacility` returns and leaves behind, step by step. */
  function Run(f: Flags, procname: string, facility: int, env: Env, s: State): Outcome {
    if f.level != "" && env.parseLevel(f.level).Err? then Outcome(Some(env.parseLevel(f.level).error), s)
    else
      var s1 := if f.level != "" then s.(rules := s.rules + [Rule(None, env.parseLevel(f.level).value)]) else s;
      if f.filter != "" && env.compile(f.filter).Some? then Outcome(env.compile(f.filter), s1)
      else
        var s2 := s.(rules := s.rules + AddedRules(f, env));
        match UserTemplateFor(f, env, s2.funcmap)
        case Err(e) => Outcome(Some(e), s2)
        case Ok(user) =>
          var o := InstallOutput(f, procname, facility, env, user, s2);
          if o.err.Some? then o
          else
            var s3 := o.state.(stdlibFlags := Lshortfile);
            match env.parseLevel(f.stdlevel)
            case Err(e) => Outcome(Some(e), s3)
            case Ok(sl) => Outcome(None, s3.(stdlibOutput := StdlogWriter(sl)))
  }

  /** `SetFormatMethod(name, fn)`: registers one template function. */
  method SetFormatMethod(g: Globals, name: string, fn: FuncRef)
    modifies g
    ensures g.Snapshot() == old(g.Snapshot()).(funcmap := old(g.funcmap)[name := fn])
  {
    g.PutFormatMethod(name, fn);
  }

  /** The switch on the lower-cased output selector of setup.go lines
      62-98, step by step: it does what `InstallOutput` describes. */
  method InstallOutputStep(g: Globals, f: Flags, procname: string, facility: int, env: Env, user: Option<Template>)
    returns (err: Option<Error>)
    modifies g
    ensures Outcome(err, g.Snapshot()) == InstallOutput(f, procname, facility, env, user, old(g.Snapshot()))
  {
    var t := user;
    var lowered := Text.Lower(f.output);
    if lowered == "syslog" {
      var openErr := env.openSyslog(facility, procname);
      if openErr.Some? {
        return openErr;
      }
      if t.None? {
        t := Some(SyslogTemplate);
      }
      g.SetHandler(TextHandler(t.value, SyslogOutput(facility, procname)));
      if f.syslogBinary != "" {
        err := g.CaptureOutputToProcess(env, [procname, f.syslogBinary]);
        if err.Some? {
          return;
        }
      }
    } else if lowered == "stdout" {
      if t.None? {
        t := Some(ColorTemplate);
      }
      g.SetHandler(TextHandler(t.value, WriterOutput(Stdout)));
    } else if lowered == "stderr" {
      if t.None? {
        t := Some(ColorTemplate);
      }
      g.SetHandler(TextHandler(t.value, WriterOutput(Stderr)));
    } else {
      if t.None? {
        t := Some(StandardTemplate);
      }
      var openErr := env.openFile(f.output);
      if openErr.Some? {
        return openErr;
      }
      g.SetHandler(TextHandler(t.value, WriterOutput(File(f.output))));
    }
    err := None;
  }

  method SetupWithFacility(g: Globals, f: Flags, procname: string, facility: int, env: Env)
    returns (err: Option<Error>)
    modifies g
    ensures Outcome(err, g.Snapshot()) == Run(f, procname, facility, env, old(g.Snapshot()))
  {
    ghost var s0 := g.Snapshot();
    if f.level != "" {
      var levelVal := env.parseLevel(f.level);
      if levelVal.Err? {
        return Some(levelVal.error);
      }
      g.SetLevel(None, levelVal.value);
    }
    if f.filter != "" {
      var compileErr := env.compile(f.filter);
      if compileErr.Some? {
        return compileErr;
      }
      g.SetLevel(Some(Regexp(f.filter)), Levels.Debug);
    }
    var t: Option<Template> := None;
    if f.format != "" {
      var parseErr := env.parseTemplate(g.funcmap, f.format);
      if parseErr.Some? {
        return parseErr;
      }
      t := Some(UserTemplate(f.format, g.funcmap));
    }
    ghost var s2 := g.Snapshot();
    assert (if f.level != "" then [Rule(None, env.parseLevel(f.level).value)] else []) +
           (if f.filter != "" then [Rule(Some(Regexp(f.filter)), Levels.Debug)] else []) == AddedRules(f, env);
    assert s2 == s0.(rules := s0.rules + AddedRules(f, env));
    assert UserTemplateFor(f, env, s2.funcmap) == Ok(t);
    err := InstallOutputStep(g, f, procname, facility, env, t);
    if err.Some? {
      return;
    }
    g.SetStdlibFlags(Lshortfile);
    var stdlogLevel := env.parseLevel(f.stdlevel);
    if stdlogLevel.Err? {
      return Some(stdlogLevel.error);
    }
    g.SetStdlibOutput(StdlogWriter(stdlogLevel.value));
    return None;
  }

  /** `Setup(procname)`: setup with the user facility. */
  method Setup(g: Globals, f: Flags, procname: string, env: Env) returns (err: Option<Error>)
    modifies g
    ensures Outcome(err, g.Snapshot()) == Run(f, procname, LOG_USER, env, old(g.Snapshot()))
  {
    err := SetupWithFacility(g, f, procname, LOG_USER, env);
  }

  // Properties of the step machine.

  /** An empty level flag adds no default rule. A non-empty one is parsed:
      an invalid level is returned with nothing changed, a valid one is
      installed as the default rule whatever its value. A filter becomes a
      rule at `Debug`, or its compile error is returned. */
  lemma RulesInstalled(f: Flags, procname: string, facility: int, env: Env, s: State)
    ensures var o := Run(f, procname, facility, env, s);
            f.level != "" && env.parseLevel(f.level).Err? ==>
              o == Outcome(Some(env.parseLevel(f.level).error), s)
    ensures var o := Run(f, procname, facility, env, s);
            f.level == "" || env.parseLevel(f.level).Ok? ==>
              var levelRules := if f.level != "" then [Rule(None, env.parseLevel(f.level).value)] else [];
              if f.filter != "" && env.compile(f.filter).Some? then
                o.err == env.compile(f.filter) && o.state == s.(rules := s.rules + levelRules)
              else
                o.state.rules == s.rules + levelRules +
                  (if f.filter != "" then [Rule(Some(Regexp(f.filter)), Levels.Debug)] else [])
  {
  }

  /** A user format that fails to parse is returned before any output is
      opened or handler installed; one that parses is the template of the
      installed handler, whatever the output. */
  lemma TemplateChoice(f: Flags, procname: string, facility: int, env: Env, s: State)
    requires RulesOk(f, env)
    ensures var o := Run(f, procname, facility, env, s);
            f.format != "" && env.parseTemplate(s.funcmap, f.format).Some? ==>
              o.err == env.parseTemplate(s.funcmap, f.format) && o.state.handler == s.handler && o.state.capture == s.capture
    ensures var o := Run(f, procname, facility, env, s);
            o.state.handler != s.handler ==>
              o.state.handler.TextHandler? &&
              o.state.handler.template == if f.format != "" then UserTemplate(f.format, s.funcmap)
                                          else DefaultTemplate(SelectorOf(f.output))
  {
  }

  /** With the format accepted, an output that fails to open is returned
      with the handler unchanged; otherwise the handler is exactly the user
      template (or the selector's default) on the selected output. */
  lemma OutputChoice(f: Flags, procname: string, facility: int, env: Env, s: State)
    requires RulesOk(f, env)
    ensures var o := Run(f, procname, facility, env, s);
            var sel := SelectorOf(f.output);
            UserTemplateFor(f, env, s.funcmap).Ok? && OpenError(env, sel, f.output, facility, procname).Some? ==>
              o.err == OpenError(env, sel, f.output, facility, procname) && o.state.handler == s.handler
    ensures var o := Run(f, procname, facility, env, s);
            var sel := SelectorOf(f.output);
            UserTemplateFor(f, env, s.funcmap).Ok? && OpenError(env, sel, f.output, facility, procname).None? ==>
              o.state.handler == TextHandler(UserTemplateFor(f, env, s.funcmap).value.GetOr(DefaultTemplate(sel)),
                                             OutputFor(sel, f.output, facility, procname))
  {
  }

  /** The syslog branch installs the handler before it starts capture, and
      starts capture only with a binary named, with the arguments
      `(procname, binary)`. A failed capture is returned with the handler
      left installed. */
  lemma SyslogHandlerBeforeCapture(f: Flags, procname: string, facility: int, env: Env, s: State)
    requires RulesOk(f, env) && UserTemplateFor(f, env, s.funcmap).Ok?
    requires SelectorOf(f.output) == SyslogSel && env.openSyslog(facility, procname).None?
    ensures var o := Run(f, procname, facility, env, s);
            var user := UserTemplateFor(f, env, s.funcmap).value;
            o.state.handler == TextHandler(user.GetOr(SyslogTemplate), SyslogOutput(facility, procname)) &&
            o.state.capture == (if f.syslogBinary != "" && env.capture([procname, f.syslogBinary]).None?
                                then Some([procname, f.syslogBinary]) else s.capture) &&
            (f.syslogBinary != "" && env.capture([procname, f.syslogBinary]).Some? ==>
               o.err == env.capture([procname, f.syslogBinary]))
  {
  }

  /** Only the syslog branch starts capture. */
  lemma OtherOutputsNeverCapture(f: Flags, procname: string, facility: int, env: Env, s: State)
    requires SelectorOf(f.output) != SyslogSel
    ensures Run(f, procname, facility, env, s).state.capture == s.capture
  {
  }

  /** Every step up to and including the handler and capture succeeds. */
  predicate HandlerOk(f: Flags, procname: string, facility: int, env: Env, s: State) {
    RulesOk(f, env) && UserTemplateFor(f, env, s.funcmap).Ok? &&
    InstallOutput(f, procname, facility, env, UserTemplateFor(f, env, s.funcmap).value,
                  s.(rules := s.rules + AddedRules(f, env))).err.None?
  }

  /** An unparsable stdlib level is returned after the handler is installed;
      otherwise setup returns no error and routes the standard library's log
      through the "stdlog" logger's no-caller writer. */
  lemma StdlibBridgeComesLast(f: Flags, procname: string, facility: int, env: Env, s: State)
    requires HandlerOk(f, procname, facility, env, s)
    ensures var o := Run(f, procname, facility, env, s);
            var sel := SelectorOf(f.output);
            o.state.handler == TextHandler(UserTemplateFor(f, env, s.funcmap).value.GetOr(DefaultTemplate(sel)),
                                           OutputFor(sel, f.output, facility, procname)) &&
            o.state.stdlibFlags == Lshortfile &&
            (env.parseLevel(f.stdlevel).Err? ==>
               o.err == Some(env.parseLevel(f.stdlevel).error) && o.state.stdlibOutput == s.stdlibOutput) &&
            (env.parseLevel(f.stdlevel).Ok? ==>
               o.err == None && o.state.stdlibOutput == StdlogWriter(env.parseLevel(f.stdlevel).value))
  {
  }

  /** With every flag at its default, setup adds no rule, logs to standard
      error with the colour template, starts no capture and bridges the
      standard library at the level "info" parses to. */
  lemma DefaultsLogToStderr(procname: string, facility: int, env: Env, s: State)
    ensures var o := Run(DefaultFlags, procname, facility, env, s);
            o.state.rules == s.rules && o.state.capture == s.capture &&
            o.state.handler == TextHandler(ColorTemplate, WriterOutput(Stderr)) &&
            o.state.stdlibFlags == Lshortfile &&
            o.err == (if env.parseLevel("info").Err? then Some(env.parseLevel("info").error) else None) &&
            o.state.stdlibOutput == (if env.parseLevel("info").Err? then s.stdlibOutput
                                     else StdlogWriter(env.parseLevel("info").value))
  {
    StderrSelectsStderr();
    PlainStderrSetup(DefaultFlags, procname, facility, env, s);
  }

  /** Setup with no level, filter or format and the output on standard
      error: the colour handler on stderr, then the stdlib bridge. */
  lemma PlainStderrSetup(f: Flags, procname: string, facility: int, env: Env, s: State)
    requires f.level == "" && f.filter == "" && f.format == "" && SelectorOf(f.output) == StderrSel
    ensures var o := Run(f, procname, facility, env, s);
            o.state.rules == s.rules && o.state.capture == s.capture &&
            o.state.handler == TextHandler(ColorTemplate, WriterOutput(Stderr)) &&
            o.state.stdlibFlags == Lshortfile &&
            o.err == (if env.parseLevel(f.stdlevel).Err? then Some(env.parseLevel(f.stdlevel).error) else None) &&
            o.state.stdlibOutput == (if env.parseLevel(f.stdlevel).Err? then s.stdlibOutput
                                     else StdlogWriter(env.parseLevel(f.stdlevel).value))
  {
    var s2 := s.(rules := s.rules + AddedRules(f, env));
    assert AddedRules(f, env) == [];
    assert UserTemplateFor(f, env, s2.funcmap) == Ok(None);
    assert InstallOutput(f, procname, facility, env, None, s2)
        == Outcome(None, s2.(handler := TextHandler(ColorTemplate, WriterOutput(Stderr))));
  }

  /** Setup returns no error exactly when every step succeeds: the level,
      the filter, the template, opening the output, the syslog capture when
      a binary is named, and the stdlib level. */
  lemma SucceedsIffEveryStepSucceeds(f: Flags, procname: string, facility: int, env: Env, s: State)
    ensures Run(f, procname, facility, env, s).err.None?
        <==> RulesOk(f, env) && UserTemplateFor(f, env, s.funcmap).Ok? &&
             OpenError(env, SelectorOf(f.output), f.output, facility, procname).None? &&
             (SelectorOf(f.output) == SyslogSel && f.syslogBinary != "" ==>
                env.capture([procname, f.syslogBinary]).None?) &&
             env.parseLevel(f.stdlevel).Ok?
  {
  }

  /** A failure at any step before the stdlib bridge leaves the stdlib
      flags and output as they were. */
  lemma StdlibUntouchedOnEarlierFailure(f: Flags, procname: string, facility: int, env: Env, s: State)
    ensures var o := Run(f, procname, facility, env, s);
            !HandlerOk(f, procname, facility, env, s) ==>
              o.err.Some? && o.state.stdlibFlags == s.stdlibFlags && o.state.stdlibOutput == s.stdlibOutput
  {
  }

  /** Setup never touches the funcmap. */
  lemma FuncmapUnchanged(f: Flags, procname: string, facility: int, env: Env, s: State)
    ensures Run(f, procname, facility, env, s).state.funcmap == s.funcmap
  {
  }
}
