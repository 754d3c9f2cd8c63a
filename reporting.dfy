/**
 * The reporters and dispatchers of src/result.c: `log_default`,
 * `err_default`, `lurk_log`, `lurk_err` and `lurk_set_result_config`.
 *
 * Each operation has a specification function giving its `Effect` (its
 * outcome, the chunks it appends to each stream, the handler calls it
 * makes) as a function of the effective configuration and the environment's
 * answers (the clock reading and whether each write succeeds). The class
 * `ResultState` holds the process state and implements the operations as
 * methods proved against those functions; the lemmas state what the
 * library promises about them.
 */
module Reporting {
  import opened Options
  import opened Results
  import opened Format
  import opened Config

  /** How a call ends: it returns a result, or `abort()` ends the process. */
  datatype Outcome = Returned(code: Int32) | Aborted

  /**
   * The environment's answer for the three writes of one report line:
   * whether each `fprintf`/`vfprintf` returns a non-negative count.
   */
  datatype Io = Io(headerOk: bool, messageOk: bool, newlineOk: bool) {
    predicate AllOk() { headerOk && messageOk && newlineOk }
  }

  datatype Stream = Stdout | Stderr

  /** One call of a reporting handler made by `lurk_log` or `lurk_err`. */
  datatype Invocation =
    | LogCall(logFn: LogHandler, result: Int32, message: string)
    | ErrCall(errFn: ErrHandler, result: Int32, caller: Option<string>, loc: Option<string>, message: string)

  /** What one call does: how it ends, what it appends to each stream, which handlers it calls. */
  datatype Effect = Effect(out: Outcome, stdout: seq<string>, stderr: seq<string>, calls: seq<Invocation>)

  /** A call that returns `code` and does nothing else. */
  function Silent(code: Int32): Effect {
    Effect(Returned(code), [], [], [])
  }

  /**
   * The chunks that reach the stream when a header, a message and `"\n"`
   * are written in turn and the first failing write aborts.
   */
  function LineWrites(header: string, message: string, io: Io): (w: seq<string>)
    ensures |w| <= 3 && w == [header, message, "\n"][..|w|]
    ensures |w| == 3 <==> io.AllOk()
  {
    if !io.headerOk then []
    else if !io.messageOk then [header]
    else if !io.newlineOk then [header, message]
    else [header, message, "\n"]
  }

  /** The caller `err_default` prints: `"(unknown)"` for `NULL`. */
  function CallerText(caller: Option<string>): (t: string)
    ensures caller.None? ==> t == "(unknown)"
    ensures caller.Some? ==> t == caller.value
  {
    caller.GetOr("(unknown)")
  }

  /** The location `err_default` prints: `"???"` for `NULL`. */
  function LocText(loc: Option<string>): (t: string)
    ensures loc.None? ==> t == "???"
    ensures loc.Some? ==> t == loc.value
  {
    loc.GetOr("???")
  }

  /** `log_default` under the effective configuration `cfg`. The text of `fmt` stands for its expansion. */
  function LogDefaultEffect(cfg: Effective, result: Int32, fmt: Option<string>,
                            reading: Option<Clock>, io: Io): Effect
  {
    if fmt.None? then Silent(BadParam.Code())
    else if !cfg.doLog then Silent(result)
    else
      var header := LogHeader(ClockOf(reading), result, cfg.projname);
      Effect(if io.AllOk() then Returned(result) else Aborted, LineWrites(header, fmt.value, io), [], [])
  }

  /** `err_default` under the effective configuration `cfg`. */
  function ErrDefaultEffect(cfg: Effective, result: Int32, caller: Option<string>,
                            loc: Option<string>, fmt: Option<string>, reading: Option<Clock>, io: Io): Effect
  {
    if fmt.None? then Silent(BadParam.Code())
    else if !cfg.doErr then Silent(result)
    else
      var header := ErrHeader(ClockOf(reading), result, cfg.projname, CallerText(caller), LocText(loc));
      Effect(if io.AllOk() then Returned(result) else Aborted, [], LineWrites(header, fmt.value, io), [])
  }

  /**
   * `lurk_log`. The handler's return value is assigned to `result` and then
   * dropped: the call returns `RESULT_SUCCESS`.
   */
  function LurkLogEffect(cfg: Effective, result: Int32, fmt: Option<string>,
                         reading: Option<Clock>, io: Io): Effect
  {
    if fmt.None? then Silent(BadParam.Code())
    else if !cfg.doLog then Silent(Success.Code())
    else
      var call := LogCall(cfg.logFn, result, fmt.value);
      match cfg.logFn
      case LogDefault =>
        var e := LogDefaultEffect(cfg, result, fmt, reading, io);
        Effect(if e.out.Aborted? then Aborted else Returned(Success.Code()), e.stdout, e.stderr, [call])
      case CustomLog(_) =>
        Effect(Returned(Success.Code()), [], [], [call])
  }

  /**
   * `lurk_err`. It returns what the handler returns; a custom handler's
   * value is not visible to the model and is the parameter `customResult`.
   */
  function LurkErrEffect(cfg: Effective, result: Int32, caller: Option<string>,
                         loc: Option<string>, fmt: Option<string>, reading: Option<Clock>, io: Io,
                         customResult: Int32): Effect
  {
    if fmt.None? then Silent(BadParam.Code())
    else if !cfg.doErr then Silent(Success.Code())
    else
      var call := ErrCall(cfg.errFn, result, caller, loc, fmt.value);
      match cfg.errFn
      case ErrDefault =>
        var e := ErrDefaultEffect(cfg, result, caller, loc, fmt, reading, io);
        e.(calls := [call])
      case CustomErr(_) =>
        Effect(Returned(customResult), [], [], [call])
  }

  /**
   * `log_default` with its channel on and every write succeeding appends one
   * line to `stdout`: a header that reads back as the clock, the result and
   * `[projname]`, then the message, then `"\n"`; it returns `result`.
   */
  lemma LogDefaultWritesOneLine(cfg: Effective, result: Int32, message: string,
                                reading: Option<Clock>, io: Io)
    requires cfg.doLog && io.AllOk()
    ensures var e := LogDefaultEffect(cfg, result, Some(message), reading, io);
      && e.out == Returned(result)
      && e.stderr == [] && e.calls == []
      && |e.stdout| == 3 && e.stdout[1] == message && e.stdout[2] == "\n"
      && ParseHeader(e.stdout[0]) == Some(HeaderFields(ClockOf(reading), result, cfg.projname))
  {
    LogHeaderRoundTrip(ClockOf(reading), result, cfg.projname);
  }

  /**
   * `err_default` with its channel on and every write succeeding appends one
   * line to `stderr` whose header reads back with the tag
   * `projname:caller.loc`, `NULL`s replaced by `(unknown)` and `???`.
   */
  lemma ErrDefaultWritesOneLine(cfg: Effective, result: Int32, caller: Option<string>,
                                loc: Option<string>, message: string, reading: Option<Clock>, io: Io)
    requires cfg.doErr && io.AllOk()
    ensures var e := ErrDefaultEffect(cfg, result, caller, loc, Some(message), reading, io);
      && e.out == Returned(result)
      && e.stdout == [] && e.calls == []
      && |e.stderr| == 3 && e.stderr[1] == message && e.stderr[2] == "\n"
      && ParseHeader(e.stderr[0])
         == Some(HeaderFields(ClockOf(reading), result,
                              cfg.projname + ":" + CallerText(caller) + "." + LocText(loc)))
  {
    ErrHeaderRoundTrip(ClockOf(reading), result, cfg.projname, CallerText(caller), LocText(loc));
  }

  /** A reporter whose channel is off writes nothing and returns `result`. */
  lemma DisabledReportersAreSilent(cfg: Effective, result: Int32, caller: Option<string>,
                                   loc: Option<string>, message: string, reading: Option<Clock>, io: Io)
    ensures !cfg.doLog ==> LogDefaultEffect(cfg, result, Some(message), reading, io) == Silent(result)
    ensures !cfg.doErr ==> ErrDefaultEffect(cfg, result, caller, loc, Some(message), reading, io) == Silent(result)
  {
  }

  /**
   * A failed write never lets a reporter return: it aborts, and the stream
   * holds only the chunks written before the failure.
   */
  lemma FailedWriteAborts(cfg: Effective, result: Int32, caller: Option<string>,
                          loc: Option<string>, message: string, reading: Option<Clock>, io: Io)
    requires !io.AllOk()
    ensures var e := LogDefaultEffect(cfg, result, Some(message), reading, io);
      cfg.doLog ==> e.out == Aborted && |e.stdout| < 3
    ensures var e := ErrDefaultEffect(cfg, result, caller, loc, Some(message), reading, io);
      cfg.doErr ==> e.out == Aborted && |e.stderr| < 3
  {
  }

  /** A missing format string: both reporters return `RESULT_BAD_PARAM` and write nothing. */
  lemma ReportersRejectMissingFormat(cfg: Effective, result: Int32, caller: Option<string>,
                                     loc: Option<string>, reading: Option<Clock>, io: Io)
    ensures LogDefaultEffect(cfg, result, None, reading, io) == Silent(BadParam.Code())
    ensures ErrDefaultEffect(cfg, result, caller, loc, None, reading, io) == Silent(BadParam.Code())
  {
  }

  /**
   * What `lurk_log` does: `RESULT_BAD_PARAM` exactly when `fmt` is `NULL`;
   * `RESULT_SUCCESS` and no output when the log channel is off; otherwise
   * one call of the resolved log handler. With `log_default` the chunks of
   * its line reach `stdout` and it aborts exactly when a write fails; with a
   * custom handler it returns `RESULT_SUCCESS`. The library itself never
   * writes to `stderr` here.
   */
  lemma LurkLogOutcomes(cfg: Effective, result: Int32, fmt: Option<string>,
                        reading: Option<Clock>, io: Io)
    ensures var e := LurkLogEffect(cfg, result, fmt, reading, io);
      && (e.out == Returned(BadParam.Code()) <==> fmt.None?)
      && (fmt.None? ==> e == Silent(BadParam.Code()))
      && (fmt.Some? && !cfg.doLog ==> e == Silent(Success.Code()))
      && e.stderr == []
      && (fmt.Some? && cfg.doLog ==>
            && e.calls == [LogCall(cfg.logFn, result, fmt.value)]
            && (e.out == Aborted <==> cfg.logFn == LogDefault && !io.AllOk())
            && (e.out != Aborted ==> e.out == Returned(Success.Code()))
            && (cfg.logFn == LogDefault ==>
                  e.stdout == LineWrites(LogHeader(ClockOf(reading), result, cfg.projname), fmt.value, io))
            && (cfg.logFn.CustomLog? ==> e.out == Returned(Success.Code()) && e.stdout == []))
  {
  }

  /**
   * `lurk_log` does not hand its `result` back, although its documentation
   * says it always does: logging `RESULT_FAILURE` returns `RESULT_SUCCESS`.
   */
  lemma LurkLogDropsResult(reading: Option<Clock>)
    ensures LurkLogEffect(Resolve(None), Failure.Code(), Some("queue empty"), reading, Io(true, true, true)).out
         == Returned(Success.Code())
  {
  }

  /**
   * With the default configuration `lurk_log` writes the header with the
   * tag `lurk`, the message and a newline to `stdout`: for
   * `RESULT_FAILURE` and "queue empty", `HH:MM:SS  00000001  [lurk]  queue empty`
   * (`Hex8One`).
   */
  lemma LurkLogDefaultLine(result: Int32, message: string, reading: Option<Clock>)
    ensures var e := LurkLogEffect(Resolve(None), result, Some(message), reading, Io(true, true, true));
      && e.out == Returned(Success.Code())
      && e.stdout == [LogHeader(ClockOf(reading), result, "lurk"), message, "\n"]
  {
    var cfg := Resolve(None);
    assert cfg == Effective("lurk", true, true, LogDefault, ErrDefault);
    var header := LogHeader(ClockOf(reading), result, "lurk");
    assert LogDefaultEffect(cfg, result, Some(message), reading, Io(true, true, true))
        == Effect(Returned(result), [header, message, "\n"], [], []);
  }

  /**
   * `lurk_err`: `RESULT_BAD_PARAM` when `fmt` is `NULL`; `RESULT_SUCCESS` and
   * no output when the error channel is off; otherwise one call of the
   * resolved handler, whose return it passes on. With `err_default` the
   * chunks of its line reach `stderr`, `NULL` caller and location printed as
   * their placeholders, and it aborts exactly when a write fails, returning
   * `result` itself otherwise.
   */
  lemma LurkErrOutcomes(cfg: Effective, result: Int32, caller: Option<string>, loc: Option<string>,
                        fmt: Option<string>, reading: Option<Clock>, io: Io, customResult: Int32)
    ensures var e := LurkErrEffect(cfg, result, caller, loc, fmt, reading, io, customResult);
      && (fmt.None? ==> e == Silent(BadParam.Code()))
      && (fmt.Some? && !cfg.doErr ==> e == Silent(Success.Code()))
      && (fmt.Some? && cfg.doErr ==>
            && e.calls == [ErrCall(cfg.errFn, result, caller, loc, fmt.value)]
            && e.stdout == []
            && (cfg.errFn == ErrDefault ==>
                  && e.stderr == LineWrites(ErrHeader(ClockOf(reading), result, cfg.projname,
                                                      CallerText(caller), LocText(loc)), fmt.value, io)
                  && (e.out == Aborted <==> !io.AllOk()))
            && (cfg.errFn == ErrDefault && io.AllOk() ==> e.out == Returned(result) && |e.stderr| == 3)
            && (cfg.errFn.CustomErr? ==> e.out == Returned(customResult) && e.stderr == []))
  {
  }

  /**
   * With the default configuration `lurk_err(result, NULL, NULL, message)`
   * writes the error header with the tag `lurk:(unknown).???`, the message
   * and a newline to `stderr`, and returns `result`: for `RESULT_BAD_PARAM`
   * and "bad arg", `HH:MM:SS  ffffffff  [lurk:(unknown).???]  bad arg`
   * (`Hex8MinusOne`).
   */
  lemma LurkErrDefaultLine(result: Int32, message: string, reading: Option<Clock>, customResult: Int32)
    ensures var e := LurkErrEffect(Resolve(None), result, None, None, Some(message), reading,
                                   Io(true, true, true), customResult);
      && e.out == Returned(result)
      && e.stderr == [ErrHeader(ClockOf(reading), result, "lurk", "(unknown)", "???"), message, "\n"]
  {
    var cfg := Resolve(None);
    assert cfg == Effective("lurk", true, true, LogDefault, ErrDefault);
    var header := ErrHeader(ClockOf(reading), result, "lurk", "(unknown)", "???");
    assert ErrDefaultEffect(cfg, result, None, None, Some(message), reading, Io(true, true, true))
        == Effect(Returned(result), [], [header, message, "\n"], []);
  }

  /** The process state the library touches. */
  class ResultState {
    /** `result_config`: the installed override, `None` for `NULL`. */
    var installed: Option<Config>
    /** The chunks written to `stdout` so far, one per successful write. */
    var stdout: seq<string>
    /** The chunks written to `stderr` so far. */
    var stderr: seq<string>
    /** Every handler call `lurk_log` and `lurk_err` have made. */
    var invocations: seq<Invocation>

    /** Process start: no override installed, nothing written. */
    constructor ()
      ensures installed == None && stdout == [] && stderr == [] && invocations == []
    {
      installed := None;
      stdout := [];
      stderr := [];
      invocations := [];
    }

    /** The state changed by exactly `e`, and the call ended with `out`. */
    twostate predicate Performed(e: Effect, out: Outcome)
      reads this
    {
      && out == e.out
      && installed == old(installed)
      && stdout == old(stdout) + e.stdout
      && stderr == old(stderr) + e.stderr
      && invocations == old(invocations) + e.calls
    }

    /** `lurk_set_result_config`: last writer wins; always `RESULT_SUCCESS`. */
    method SetResultConfig(config: Option<Config>) returns (r: Int32)
      modifies this
      ensures installed == config && r == Success.Code()
      ensures stdout == old(stdout) && stderr == old(stderr) && invocations == old(invocations)
    {
      installed := config;
      return Success.Code();
    }

    /** One `fprintf`/`vfprintf` of `text`: a negative count when the write fails, which appends nothing. */
    method Fprintf(stream: Stream, text: string, ok: bool) returns (n: int)
      modifies this
      ensures n < 0 <==> !ok
      ensures installed == old(installed) && invocations == old(invocations)
      ensures stdout == old(stdout) + (if ok && stream == Stdout then [text] else [])
      ensures stderr == old(stderr) + (if ok && stream == Stderr then [text] else [])
    {
      if !ok {
        return -1;
      }
      match stream {
        case Stdout => stdout := stdout + [text];
        case Stderr => stderr := stderr + [text];
      }
      return |text|;
    }

    /** `log_default`. */
    method LogDefault(result: Int32, fmt: Option<string>, reading: Option<Clock>, io: Io) returns (out: Outcome)
      modifies this
      ensures Performed(LogDefaultEffect(Resolve(old(installed)), result, fmt, reading, io), out)
    {
      if fmt.None? {
        return Returned(BadParam.Code());
      }
      if !DoLog(installed) {
        return Returned(result);
      }
      var projname := ProjName(installed);
      var t := ClockOf(reading);
      var header := LogHeader(t, result, projname);
      var n := Fprintf(Stdout, header, io.headerOk);
      if n < 0 {
        return Aborted;
      }
      n := Fprintf(Stdout, fmt.value, io.messageOk);
      if n < 0 {
        assert stdout == old(stdout) + [header];
        return Aborted;
      }
      n := Fprintf(Stdout, "\n", io.newlineOk);
      if n < 0 {
        assert stdout == old(stdout) + [header, fmt.value];
        return Aborted;
      }
      assert stdout == old(stdout) + [header, fmt.value, "\n"];
      return Returned(result);
    }

    /** `err_default`. */
    method ErrDefault(result: Int32, caller: Option<string>, loc: Option<string>, fmt: Option<string>,
                      reading: Option<Clock>, io: Io) returns (out: Outcome)
      modifies this
      ensures Performed(ErrDefaultEffect(Resolve(old(installed)), result, caller, loc, fmt, reading, io), out)
    {
      if fmt.None? {
        return Returned(BadParam.Code());
      }
      if !DoErr(installed) {
        return Returned(result);
      }
      var callerText := CallerText(caller);
      var locText := LocText(loc);
      var t := ClockOf(reading);
      var projname := ProjName(installed);
      var header := ErrHeader(t, result, projname, callerText, locText);
      var n := Fprintf(Stderr, header, io.headerOk);
      if n < 0 {
        return Aborted;
      }
      n := Fprintf(Stderr, fmt.value, io.messageOk);
      if n < 0 {
        assert stderr == old(stderr) + [header];
        return Aborted;
      }
      n := Fprintf(Stderr, "\n", io.newlineOk);
      if n < 0 {
        assert stderr == old(stderr) + [header, fmt.value];
        return Aborted;
      }
      assert stderr == old(stderr) + [header, fmt.value, "\n"];
      return Returned(result);
    }

    /** `lurk_log`. */
    method LurkLog(result: Int32, fmt: Option<string>, reading: Option<Clock>, io: Io) returns (out: Outcome)
      modifies this
      ensures Performed(LurkLogEffect(Resolve(old(installed)), result, fmt, reading, io), out)
    {
      if fmt.None? {
        return Returned(BadParam.Code());
      }
      if !DoLog(installed) {
        return Returned(Success.Code());
      }
      var logFn := LogFn(installed);
      invocations := invocations + [LogCall(logFn, result, fmt.value)];
      match logFn {
        case LogDefault =>
          // The handler's return value is assigned to `result` and not used again.
          var handled := LogDefault(result, fmt, reading, io);
          if handled.Aborted? {
            return Aborted;
          }
        case CustomLog(_) =>
      }
      return Returned(Success.Code());
    }

    /** `lurk_err`; `customResult` is what a custom handler returns. */
    method LurkErr(result: Int32, caller: Option<string>, loc: Option<string>, fmt: Option<string>,
                   reading: Option<Clock>, io: Io, customResult: Int32) returns (out: Outcome)
      modifies this
      ensures Performed(LurkErrEffect(Resolve(old(installed)), result, caller, loc, fmt, reading, io, customResult), out)
    {
      if fmt.None? {
        return Returned(BadParam.Code());
      }
      if !DoErr(installed) {
        return Returned(Success.Code());
      }
      var errFn := ErrFn(installed);
      invocations := invocations + [ErrCall(errFn, result, caller, loc, fmt.value)];
      match errFn
      case ErrDefault =>
        out := ErrDefault(result, caller, loc, fmt, reading, io);
      case CustomErr(_) =>
        out := Returned(customResult);
    }
  }

  /**
   * Installing `NULL` after an override restores the default behaviour:
   * the next `lurk_log` writes and returns exactly what it does in a
   * process where no override was ever installed.
   */
  method ResetMatchesFreshProcess(c: Config, result: Int32, fmt: Option<string>,
                                  reading: Option<Clock>, io: Io)
    returns (afterReset: Outcome, afterResetOut: seq<string>, afterResetErr: seq<string>,
             afterResetCalls: seq<Invocation>,
             neverSet: Outcome, neverSetOut: seq<string>, neverSetErr: seq<string>,
             neverSetCalls: seq<Invocation>)
    ensures afterReset == neverSet
    ensures afterResetOut == neverSetOut && afterResetErr == neverSetErr
    ensures afterResetCalls == neverSetCalls
  {
    var used := new ResultState();
    var _ := used.SetResultConfig(Some(c));
    var _ := used.SetResultConfig(None);
    afterReset := used.LurkLog(result, fmt, reading, io);
    afterResetOut, afterResetErr, afterResetCalls := used.stdout, used.stderr, used.invocations;

    var untouched := new ResultState();
    neverSet := untouched.LurkLog(result, fmt, reading, io);
    neverSetOut, neverSetErr, neverSetCalls := untouched.stdout, untouched.stderr, untouched.invocations;
  }

  /**
   * Last writer wins: after installing `first` and then `second`, `lurk_err`
   * behaves as if only `second` had ever been installed.
   */
  method LastWriterWins(first: Config, second: Config, result: Int32, caller: Option<string>,
                        loc: Option<string>, fmt: Option<string>, reading: Option<Clock>, io: Io,
                        customResult: Int32)
    returns (twice: Outcome, twiceOut: seq<string>, twiceErr: seq<string>, twiceCalls: seq<Invocation>,
             once: Outcome, onceOut: seq<string>, onceErr: seq<string>, onceCalls: seq<Invocation>)
    ensures twice == once
    ensures twiceOut == onceOut && twiceErr == onceErr
    ensures twiceCalls == onceCalls
  {
    var both := new ResultState();
    var _ := both.SetResultConfig(Some(first));
    var _ := both.SetResultConfig(Some(second));
    twice := both.LurkErr(result, caller, loc, fmt, reading, io, customResult);
    twiceOut, twiceErr, twiceCalls := both.stdout, both.stderr, both.invocations;

    var single := new ResultState();
    var _ := single.SetResultConfig(Some(second));
    once := single.LurkErr(result, caller, loc, fmt, reading, io, customResult);
    onceOut, onceErr, onceCalls := single.stdout, single.stderr, single.invocations;
  }
}
