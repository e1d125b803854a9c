/** Level-gated dispatch from a named logger to the installed handler
    (convenience.go). Every entry point compares the logger's effective level
    with the level of the call and, only when the call passes, renders the
    message and hands `(name, level, message, skip)` to the handler. */
module Dispatch {

  import opened Wrappers
  import Levels

  type byte = b: int | 0 <= b < 256

  /** An operand of a variadic logging call. */
  datatype Value = IntValue(i: int) | StringValue(s: string) | BytesValue(b: seq<byte>)

  /** The message an entry point would hand over: the operands of a
      `Sprint`-style call, a format with operands for a `Sprintf`-style call,
      or the raw bytes given to an `io.Writer` adapter. */
  datatype Message =
    | Print(args: seq<Value>)
    | Printf(format: string, args: seq<Value>)
    | Raw(data: seq<byte>)

  /** `fmt.Sprint` and `fmt.Sprintf`: opaque renderings. */
  datatype Formatter = Formatter(sprint: seq<Value> -> string, sprintf: (string, seq<Value>) -> string)

  /** One call of the handler's `Log`. */
  datatype Call = Call(name: string, level: Levels.LogLevel, msg: string, skip: int)

  /** The caller-skip passed by the level methods and by `writer`. */
  const CallerSkip: int := 1
  /** The sentinel skip passed by `writerNoCaller`: no caller annotation. */
  const NoCaller: int := -1

  /** Go's `string(data)`: the bytes, unchanged, one character per byte. */
  function BytesToString(data: seq<byte>): (s: string)
    ensures |s| == |data|
  {
    seq(|data|, i requires 0 <= i < |data| => data[i] as char)
  }

  function StringToBytes(s: string): seq<byte>
    requires forall i :: 0 <= i < |s| ==> s[i] as int < 256
  {
    seq(|s|, i requires 0 <= i < |s| => s[i] as int as byte)
  }

  /** The conversion loses nothing: the bytes can be read back from the message. */
  lemma BytesToStringRoundTrip(data: seq<byte>)
    ensures forall i :: 0 <= i < |data| ==> BytesToString(data)[i] as int < 256
    ensures StringToBytes(BytesToString(data)) == data
  {
  }

  /** What `fmt.Sprint`, `fmt.Sprintf` or `string(data)` makes of a message. */
  function Render(f: Formatter, m: Message): string {
    match m
    case Print(args) => f.sprint(args)
    case Printf(format, args) => f.sprintf(format, args)
    case Raw(data) => BytesToString(data)
  }

  /** Whether producing the message invokes the formatter. */
  predicate Formats(m: Message) {
    !m.Raw?
  }

  /** The entry points of convenience.go, by what they pass on:
      `Debug`/`Info`/`Warn`/`Error`/`Crit`/`Log` are `Leveled`,
      their `f` variants and `Logf` are `Leveledf`, and the two adapters
      are `WriterWrite` and `NoCallerWrite`. */
  datatype Op =
    | Leveled(level: Levels.LogLevel, args: seq<Value>)
    | Leveledf(level: Levels.LogLevel, format: string, args: seq<Value>)
    | WriterWrite(level: Levels.LogLevel, data: seq<byte>)
    | NoCallerWrite(level: Levels.LogLevel, data: seq<byte>)
  {
    function MessageOf(): Message {
      match this
      case Leveled(_, args) => Print(args)
      case Leveledf(_, format, args) => Printf(format, args)
      case WriterWrite(_, data) => Raw(data)
      case NoCallerWrite(_, data) => Raw(data)
    }

    function Skip(): int {
      if NoCallerWrite? then NoCaller else CallerSkip
    }
  }

  /** What a sequence of entry-point calls leaves behind: the handler calls,
      in order, and the formatting invocations, in order. */
  datatype Effect = Effect(calls: seq<Call>, formats: seq<Message>)

  function Join(a: Effect, b: Effect): Effect {
    Effect(a.calls + b.calls, a.formats + b.formats)
  }

  /** One entry point called on the logger `name` whose effective level is
      `effective`. */
  function Step(effective: Levels.LogLevel, name: string, op: Op, f: Formatter): (e: Effect)
    ensures e.calls != [] <==> Levels.Enabled(effective, op.level)
    ensures e.calls != [] ==> e.calls == [Call(name, op.level, Render(f, op.MessageOf()), op.Skip())]
    ensures e.formats != [] <==> Levels.Enabled(effective, op.level) && Formats(op.MessageOf())
    ensures e.formats != [] ==> e.formats == [op.MessageOf()]
  {
    if effective <= op.level then
      var m := op.MessageOf();
      Effect([Call(name, op.level, Render(f, m), op.Skip())], if Formats(m) then [m] else [])
    else
      Effect([], [])
  }

  /** `LevelEnabled(level)` answers exactly whether `Log(level, …)` and
      `Logf(level, …)` reach the handler. */
  lemma EnabledAgreesWithLog(effective: Levels.LogLevel, name: string, level: Levels.LogLevel,
                             format: string, args: seq<Value>, f: Formatter)
    ensures Levels.Enabled(effective, level) <==> Step(effective, name, Leveled(level, args), f).calls != []
    ensures Levels.Enabled(effective, level) <==> Step(effective, name, Leveledf(level, format, args), f).calls != []
  {
  }

  /** The adapters report the same gate: `writerNoCaller` lets through exactly
      what `writer` lets through, with the same message and only the skip
      replaced by the sentinel. */
  lemma NoCallerGatesLikeWriter(effective: Levels.LogLevel, name: string, level: Levels.LogLevel,
                                data: seq<byte>, f: Formatter)
    ensures |Step(effective, name, NoCallerWrite(level, data), f).calls|
         == |Step(effective, name, WriterWrite(level, data), f).calls|
    ensures Step(effective, name, NoCallerWrite(level, data), f).calls != [] ==>
              (Step(effective, name, NoCallerWrite(level, data), f).calls
               == [Step(effective, name, WriterWrite(level, data), f).calls[0].(skip := NoCaller)])
    ensures Step(effective, name, NoCallerWrite(level, data), f).formats == []
  {
  }

  /** A call of one entry point on one logger. */
  datatype Invocation = Invocation(logger: string, op: Op)

  /** What a recording handler and an instrumented formatter observe when the
      invocations run one after another, with `levelOf` resolving each
      logger's effective level. */
  function Run(levelOf: string -> Levels.LogLevel, f: Formatter, invs: seq<Invocation>): Effect {
    if invs == [] then Effect([], [])
    else Join(Step(levelOf(invs[0].logger), invs[0].logger, invs[0].op, f), Run(levelOf, f, invs[1..]))
  }

  predicate Passes(levelOf: string -> Levels.LogLevel, inv: Invocation) {
    Levels.Enabled(levelOf(inv.logger), inv.op.level)
  }

  /** The invocations that pass their gate, in order. */
  function Passing(levelOf: string -> Levels.LogLevel, invs: seq<Invocation>): seq<Invocation> {
    if invs == [] then []
    else (if Passes(levelOf, invs[0]) then [invs[0]] else []) + Passing(levelOf, invs[1..])
  }

  /** The handler call an invocation makes when it passes. */
  function CallOf(f: Formatter, inv: Invocation): Call {
    Call(inv.logger, inv.op.level, Render(f, inv.op.MessageOf()), inv.op.Skip())
  }

  function CallsOf(f: Formatter, invs: seq<Invocation>): (calls: seq<Call>)
    ensures |calls| == |invs|
    ensures forall i :: 0 <= i < |invs| ==> calls[i] == CallOf(f, invs[i])
  {
    if invs == [] then [] else [CallOf(f, invs[0])] + CallsOf(f, invs[1..])
  }

  /** The messages formatted by the invocations that need formatting. */
  function FormattedBy(invs: seq<Invocation>): seq<Message> {
    if invs == [] then []
    else (if Formats(invs[0].op.MessageOf()) then [invs[0].op.MessageOf()] else []) + FormattedBy(invs[1..])
  }

  /** The handler sees exactly the passing invocations, in order, each with
      its own logger name, level, rendered message and skip; the formatter is
      invoked exactly for the passing invocations that format. */
  lemma {:induction false} RunIsGatedDispatch(levelOf: string -> Levels.LogLevel, f: Formatter, invs: seq<Invocation>)
    ensures Run(levelOf, f, invs).calls == CallsOf(f, Passing(levelOf, invs))
    ensures Run(levelOf, f, invs).formats == FormattedBy(Passing(levelOf, invs))
  {
    if invs != [] {
      RunIsGatedDispatch(levelOf, f, invs[1..]);
      var p := Passing(levelOf, invs[1..]);
      if Passes(levelOf, invs[0]) {
        assert Passing(levelOf, invs) == [invs[0]] + p;
        assert ([invs[0]] + p)[1..] == p;
      } else {
        assert Passing(levelOf, invs) == p;
      }
    }
  }

  /** Every recorded call passed its gate and carries the logger's own name
      and the skip of its entry point: the sentinel only for the no-caller
      adapter, 1 otherwise. */
  lemma {:induction false} RunRecordsOnlyEnabled(levelOf: string -> Levels.LogLevel, f: Formatter, invs: seq<Invocation>)
    ensures forall c :: c in Run(levelOf, f, invs).calls ==>
              Levels.Enabled(levelOf(c.name), c.level) && (c.skip == CallerSkip || c.skip == NoCaller)
  {
    if invs != [] {
      RunRecordsOnlyEnabled(levelOf, f, invs[1..]);
    }
  }

  /** When no invocation passes its gate, nothing is recorded and nothing is
      formatted. */
  lemma {:induction false} RunSilentWhenDisabled(levelOf: string -> Levels.LogLevel, f: Formatter, invs: seq<Invocation>)
    requires forall i :: 0 <= i < |invs| ==> !Passes(levelOf, invs[i])
    ensures Run(levelOf, f, invs) == Effect([], [])
  {
    if invs != [] {
      assert !Passes(levelOf, invs[0]);
      RunSilentWhenDisabled(levelOf, f, invs[1..]);
    }
  }

  /** Running two batches one after the other records what each records, in
      order: the trace of a program is the concatenation of its calls' steps. */
  lemma {:induction false} RunAppend(levelOf: string -> Levels.LogLevel, f: Formatter, a: seq<Invocation>, b: seq<Invocation>)
    ensures Run(levelOf, f, a + b) == Join(Run(levelOf, f, a), Run(levelOf, f, b))
  {
    if a == [] {
      assert a + b == b;
    } else {
      var first := Step(levelOf(a[0].logger), a[0].logger, a[0].op, f);
      assert (a + b)[0] == a[0];
      assert (a + b)[1..] == a[1..] + b;
      assert Run(levelOf, f, a + b) == Join(first, Run(levelOf, f, a[1..] + b));
      RunAppend(levelOf, f, a[1..], b);
      var x, y := Run(levelOf, f, a[1..]), Run(levelOf, f, b);
      assert first.calls + (x.calls + y.calls) == (first.calls + x.calls) + y.calls;
      assert first.formats + (x.formats + y.formats) == (first.formats + x.formats) + y.formats;
    }
  }

  /** The process-wide state the entry points read and write: the level each
      logger name resolves to (`getLevel`), the formatter, the calls the
      installed handler has received and the formatting invocations made. */
  class Runtime {
    var levelOf: string -> Levels.LogLevel
    const fmt: Formatter
    var calls: seq<Call>
    var formats: seq<Message>

    constructor (levelOf: string -> Levels.LogLevel, fmt: Formatter)
      ensures this.levelOf == levelOf && this.fmt == fmt
      ensures calls == [] && formats == []
    {
      this.levelOf := levelOf;
      this.fmt := fmt;
      calls := [];
      formats := [];
    }

    /** The recorded state grew by exactly `e`, and the levels did not change. */
    twostate predicate Applied(e: Effect)
      reads this
    {
      calls == old(calls) + e.calls && formats == old(formats) + e.formats && levelOf == old(levelOf)
    }

    /** `fmt.Sprint` / `fmt.Sprintf`, whose invocation is observed. */
    method Format(m: Message) returns (s: string)
      requires Formats(m)
      modifies this
      ensures s == Render(fmt, m)
      ensures Applied(Effect([], [m]))
    {
      s := Render(fmt, m);
      formats := formats + [m];
    }

    /** The installed handler's `Log(name, level, msg, skip)`. */
    method Handle(c: Call)
      modifies this
      ensures Applied(Effect([c], []))
    {
      calls := calls + [c];
    }
  }

  class Logger {
    const name: string
    const rt: Runtime

    constructor (name: string, rt: Runtime)
      ensures this.name == name && this.rt == rt
    {
      this.name := name;
      this.rt := rt;
    }

    /** The effect the entry point `op` has on this logger in the current state. */
    function StepOf(op: Op): Effect
      reads rt
    {
      Step(rt.levelOf(name), name, op, rt.fmt)
    }

    function LevelEnabled(level: Levels.LogLevel): (r: bool)
      reads rt
      ensures forall args :: r <==> StepOf(Leveled(level, args)).calls != []
    {
      rt.levelOf(name) <= level
    }

    function DebugEnabled(): (r: bool)
      reads rt
      ensures r == LevelEnabled(Levels.Debug)
    {
      rt.levelOf(name) <= Levels.Debug
    }

    function InfoEnabled(): (r: bool)
      reads rt
      ensures r == LevelEnabled(Levels.Info)
    {
      rt.levelOf(name) <= Levels.Info
    }

    function WarnEnabled(): (r: bool)
      reads rt
      ensures r == LevelEnabled(Levels.Warning)
    {
      rt.levelOf(name) <= Levels.Warning
    }

    function ErrorEnabled(): (r: bool)
      reads rt
      ensures r == LevelEnabled(Levels.Error)
    {
      rt.levelOf(name) <= Levels.Error
    }

    function CritEnabled(): (r: bool)
      reads rt
      ensures r == LevelEnabled(Levels.Critical)
    {
      rt.levelOf(name) <= Levels.Critical
    }

    method Debug(v: seq<Value>)
      modifies rt
      ensures rt.Applied(old(StepOf(Leveled(Levels.Debug, v))))
    {
      if rt.levelOf(name) <= Levels.Debug {
        var msg := rt.Format(Print(v));
        rt.Handle(Call(name, Levels.Debug, msg, CallerSkip));
      }
    }

    method Debugf(format: string, v: seq<Value>)
      modifies rt
      ensures rt.Applied(old(StepOf(Leveledf(Levels.Debug, format, v))))
    {
      if rt.levelOf(name) <= Levels.Debug {
        var msg := rt.Format(Printf(format, v));
        rt.Handle(Call(name, Levels.Debug, msg, CallerSkip));
      }
    }

    method Info(v: seq<Value>)
      modifies rt
      ensures rt.Applied(old(StepOf(Leveled(Levels.Info, v))))
    {
      if rt.levelOf(name) <= Levels.Info {
        var msg := rt.Format(Print(v));
        rt.Handle(Call(name, Levels.Info, msg, CallerSkip));
      }
    }

    method Infof(format: string, v: seq<Value>)
      modifies rt
      ensures rt.Applied(old(StepOf(Leveledf(Levels.Info, format, v))))
    {
      if rt.levelOf(name) <= Levels.Info {
        var msg := rt.Format(Printf(format, v));
        rt.Handle(Call(name, Levels.Info, msg, CallerSkip));
      }
    }

    method Warn(v: seq<Value>)
      modifies rt
      ensures rt.Applied(old(StepOf(Leveled(Levels.Warning, v))))
    {
      if rt.levelOf(name) <= Levels.Warning {
        var msg := rt.Format(Print(v));
        rt.Handle(Call(name, Levels.Warning, msg, CallerSkip));
      }
    }

    method Warnf(format: string, v: seq<Value>)
      modifies rt
      ensures rt.Applied(old(StepOf(Leveledf(Levels.Warning, format, v))))
    {
      if rt.levelOf(name) <= Levels.Warning {
        var msg := rt.Format(Printf(format, v));
        rt.Handle(Call(name, Levels.Warning, msg, CallerSkip));
      }
    }

    method Error(v: seq<Value>)
      modifies rt
      ensures rt.Applied(old(StepOf(Leveled(Levels.Error, v))))
    {
      if rt.levelOf(name) <= Levels.Error {
        var msg := rt.Format(Print(v));
        rt.Handle(Call(name, Levels.Error, msg, CallerSkip));
      }
    }

    method Errorf(format: string, v: seq<Value>)
      modifies rt
      ensures rt.Applied(old(StepOf(Leveledf(Levels.Error, format, v))))
    {
      if rt.levelOf(name) <= Levels.Error {
        var msg := rt.Format(Printf(format, v));
        rt.Handle(Call(name, Levels.Error, msg, CallerSkip));
      }
    }

    method Crit(v: seq<Value>)
      modifies rt
      ensures rt.Applied(old(StepOf(Leveled(Levels.Critical, v))))
    {
      if rt.levelOf(name) <= Levels.Critical {
        var msg := rt.Format(Print(v));
        rt.Handle(Call(name, Levels.Critical, msg, CallerSkip));
      }
    }

    method Critf(format: string, v: seq<Value>)
      modifies rt
      ensures rt.Applied(old(StepOf(Leveledf(Levels.Critical, format, v))))
    {
      if rt.levelOf(name) <= Levels.Critical {
        var msg := rt.Format(Printf(format, v));
        rt.Handle(Call(name, Levels.Critical, msg, CallerSkip));
      }
    }

    method Log(level: Levels.LogLevel, v: seq<Value>)
      modifies rt
      ensures rt.Applied(old(StepOf(Leveled(level, v))))
    {
      if rt.levelOf(name) <= level {
        var msg := rt.Format(Print(v));
        rt.Handle(Call(name, level, msg, CallerSkip));
      }
    }

    method Logf(level: Levels.LogLevel, format: string, v: seq<Value>)
      modifies rt
      ensures rt.Applied(old(StepOf(Leveledf(level, format, v))))
    {
      if rt.levelOf(name) <= level {
        var msg := rt.Format(Printf(format, v));
        rt.Handle(Call(name, level, msg, CallerSkip));
      }
    }

    /** `l.Writer(level)`: an `io.Writer` logging each write at `level`. */
    method Writer(level: Levels.LogLevel) returns (w: CallerWriter)
      ensures fresh(w) && w.l == this && w.level == level
    {
      w := new CallerWriter(this, level);
    }

    /** `l.WriterWithoutCaller(level)`: the same, without caller annotation. */
    method WriterWithoutCaller(level: Levels.LogLevel) returns (w: NoCallerWriter)
      ensures fresh(w) && w.l == this && w.level == level
    {
      w := new NoCallerWriter(this, level);
    }
  }

  /** Write failures of an `io.Writer`; the adapters never report one. */
  datatype WriteError = WriteError(message: string)

  /** The `writer` adapter. */
  class CallerWriter {
    const l: Logger
    const level: Levels.LogLevel

    constructor (l: Logger, level: Levels.LogLevel)
      ensures this.l == l && this.level == level
    {
      this.l := l;
      this.level := level;
    }

    method Write(data: seq<byte>) returns (n: int, err: Option<WriteError>)
      modifies l.rt
      ensures n == |data| && err == None
      ensures l.rt.Applied(old(l.StepOf(WriterWrite(level, data))))
    {
      if l.rt.levelOf(l.name) <= level {
        l.rt.Handle(Call(l.name, level, BytesToString(data), CallerSkip));
      }
      return |data|, None;
    }
  }

  /** The `writerNoCaller` adapter. */
  class NoCallerWriter {
    const l: Logger
    const level: Levels.LogLevel

    constructor (l: Logger, level: Levels.LogLevel)
      ensures this.l == l && this.level == level
    {
      this.l := l;
      this.level := level;
    }

    method Write(data: seq<byte>) returns (n: int, err: Option<WriteError>)
      modifies l.rt
      ensures n == |data| && err == None
      ensures l.rt.Applied(old(l.StepOf(NoCallerWrite(level, data))))
    {
      if l.rt.levelOf(l.name) <= level {
        l.rt.Handle(Call(l.name, level, BytesToString(data), NoCaller));
      }
      return |data|, None;
    }
  }
}
