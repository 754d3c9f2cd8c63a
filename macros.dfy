/**
 * The call-site macros of include/result.h. Every `RETURN_*` macro is one
 * expression `LURK_ERROR_CALL(result, __func__, LURK_LINE_STRING, message)`:
 * a call of `lurk_err` or, when `LURK_NO_CALL_RETURN_ERROR` is defined, the
 * `result` argument alone. Call sites write `return RETURN_BAD_PARAM(p);`.
 */
module Macros {
  import opened Options
  import opened Results
  import opened Format
  import opened Config
  import opened Reporting

  /**
   * One use of a macro, with its arguments as the call site spells them
   * (stringized parameter names are their text). The `err` of
   * `RETURN_ERROR` and `RETURN_ERROR_FMT` is a pointer the caller supplies
   * and may be `NULL`; for `RETURN_ERROR_FMT` it stands for the expanded
   * format.
   */
  datatype ReturnMacro =
    | ReturnPassError(result: Int32)
    | ReturnBadParam(param: string)
    | ReturnBadParamNull(param: string)
    | ReturnInvalidObject(obj: string)
    | ReturnInvalidObjectMember(obj: string, member: string)
    | ReturnInternalError
    | ReturnError(result: Int32, err: Option<string>)
    | ReturnErrorFmt(result: Int32, err: Option<string>)

  /** The four arguments a macro hands to `LURK_ERROR_CALL`. */
  datatype ErrorCall = ErrorCall(result: Int32, caller: string, loc: string, message: Option<string>)

  /**
   * The expansion of a macro used in function `func` on line `line`: the
   * caller is `__func__` and the location the line number as a string.
   */
  function Expand(m: ReturnMacro, func: string, line: nat): (c: ErrorCall)
    ensures c.caller == func && AllDec(c.loc) && DecimalValue(c.loc) == line
    ensures m.ReturnBadParam? || m.ReturnBadParamNull? ==> c.result == BadParam.Code()
    ensures m.ReturnInvalidObject? || m.ReturnInvalidObjectMember? ==> c.result == InvalidObject.Code()
    ensures m.ReturnInternalError? ==> c.result == InternalError.Code()
    ensures m.ReturnPassError? || m.ReturnError? || m.ReturnErrorFmt? ==> c.result == m.result
    ensures m.ReturnError? || m.ReturnErrorFmt? ==> c.message == m.err
    ensures !(m.ReturnError? || m.ReturnErrorFmt?) ==> c.message.Some?
  {
    var loc := Decimal(line);
    match m
    case ReturnPassError(r) => ErrorCall(r, func, loc, Some("Callback trace."))
    case ReturnBadParam(p) => ErrorCall(BadParam.Code(), func, loc, Some("Bad parameter [" + p + "]."))
    case ReturnBadParamNull(p) =>
      ErrorCall(BadParam.Code(), func, loc, Some("Bad parameter [" + p + "]. Must not be [NULL]"))
    case ReturnInvalidObject(o) => ErrorCall(InvalidObject.Code(), func, loc, Some("Invalid object [" + o + "]."))
    case ReturnInvalidObjectMember(o, mem) =>
      ErrorCall(InvalidObject.Code(), func, loc, Some("Invalid object member [" + o + "." + mem + "]."))
    case ReturnInternalError => ErrorCall(InternalError.Code(), func, loc, Some("Internal error."))
    case ReturnError(r, err) => ErrorCall(r, func, loc, err)
    case ReturnErrorFmt(r, err) => ErrorCall(r, func, loc, err)
  }

  /** The macros that fix their own result: all of them give a named error. */
  lemma FixedMacrosGiveNamedErrors(m: ReturnMacro, func: string, line: nat)
    requires !(m.ReturnPassError? || m.ReturnError? || m.ReturnErrorFmt?)
    ensures IsLurkErr(Expand(m, func, line).result)
  {
  }

  /**
   * What evaluating a macro does: with `LURK_NO_CALL_RETURN_ERROR`
   * (`noCall`) it is its result argument; otherwise it is a `lurk_err` call.
   */
  function MacroEffect(cfg: Effective, m: ReturnMacro, func: string, line: nat, noCall: bool,
                       reading: Option<Clock>, io: Io, customResult: Int32): Effect
  {
    var c := Expand(m, func, line);
    if noCall then Silent(c.result)
    else LurkErrEffect(cfg, c.result, Some(c.caller), Some(c.loc), c.message, reading, io, customResult)
  }

  /** With `LURK_NO_CALL_RETURN_ERROR` a macro is its result and does nothing else. */
  lemma NoCallIsPlainResult(cfg: Effective, m: ReturnMacro, func: string, line: nat,
                            reading: Option<Clock>, io: Io, customResult: Int32)
    ensures MacroEffect(cfg, m, func, line, true, reading, io, customResult)
         == Silent(Expand(m, func, line).result)
  {
  }

  /**
   * Log and propagate: with the error channel on, the default error handler
   * and working writes, a macro writes one line to `stderr` whose header
   * reads back with the tag `projname:func.line`, then its message and
   * `"\n"`, and evaluates to the macro's result, so
   * `return RETURN_BAD_PARAM(p);` returns `RESULT_BAD_PARAM`. The exception
   * is a `NULL` `err` passed to `RETURN_ERROR` or `RETURN_ERROR_FMT`: that
   * `lurk_err` call rejects its format, and the macro evaluates to
   * `RESULT_BAD_PARAM` with no output.
   */
  lemma MacroLogsAndPropagates(cfg: Effective, m: ReturnMacro, func: string, line: nat,
                               reading: Option<Clock>, io: Io, customResult: Int32)
    requires cfg.doErr && cfg.errFn == ErrDefault && io.AllOk()
    ensures var c := Expand(m, func, line);
      var e := MacroEffect(cfg, m, func, line, false, reading, io, customResult);
      && (c.message.None? ==> e == Silent(BadParam.Code()))
      && (c.message.Some? ==>
            && e.out == Returned(c.result)
            && e.stdout == []
            && |e.stderr| == 3 && e.stderr[1] == c.message.value && e.stderr[2] == "\n"
            && ParseHeader(e.stderr[0])
               == Some(HeaderFields(ClockOf(reading), c.result, cfg.projname + ":" + func + "." + Decimal(line))))
  {
    var c := Expand(m, func, line);
    if c.message.Some? {
      ErrDefaultWritesOneLine(cfg, c.result, Some(c.caller), Some(c.loc), c.message.value, reading, io);
    }
  }

  /**
   * With the error channel off, `lurk_err` returns `RESULT_SUCCESS`, so a
   * macro that is not bypassed evaluates to `RESULT_SUCCESS` whatever its
   * result: `return RETURN_BAD_PARAM(p);` then reports success. Only a
   * `NULL` `err` still gives `RESULT_BAD_PARAM`, since `lurk_err` checks its
   * format before the channel.
   */
  lemma DisabledErrorsTurnMacrosIntoSuccess(cfg: Effective, m: ReturnMacro, func: string, line: nat,
                                            reading: Option<Clock>, io: Io, customResult: Int32)
    requires !cfg.doErr
    ensures var e := MacroEffect(cfg, m, func, line, false, reading, io, customResult);
      if Expand(m, func, line).message.Some? then e == Silent(Success.Code())
      else e == Silent(BadParam.Code())
  {
  }

  /** A macro evaluated at a call site, against the process state `sys`. */
  method Evaluate(sys: ResultState, m: ReturnMacro, func: string, line: nat, noCall: bool,
                  reading: Option<Clock>, io: Io, customResult: Int32) returns (out: Outcome)
    modifies sys
    ensures sys.Performed(MacroEffect(Resolve(old(sys.installed)), m, func, line, noCall, reading, io, customResult), out)
  {
    var c := Expand(m, func, line);
    if noCall {
      return Returned(c.result);
    }
    out := sys.LurkErr(c.result, Some(c.caller), Some(c.loc), c.message, reading, io, customResult);
  }
}
