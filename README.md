# lurk result codes and reporting, modelled in Dafny

This project models the core of the lurk C library: the `enum result` code
taxonomy, the predicates that classify results, the process-wide reporting
configuration with its per-field fallback to a compiled-in default, the
default reporters `log_default` and `err_default` that print one timestamped
line, the dispatchers `lurk_log` and `lurk_err`, and the `RETURN_*` call-site
macros of `include/result.h`.

Modules, one per concern:

- `Results` (results.dfy): `result_t` as a 32-bit integer, the named
  constants, `is_err`, `is_lurk_err` and the documented predicates
  `is_success`, `is_valid_object`, `is_true` and `is_false`.
- `Format` (format.dfy): the `%d`, `%02d` and `%08x` conversions as pure
  string functions, the UTC clock reading, and the two line headers. A header
  parser is proved to read every header back (clock, result, tag).
- `Config` (config.dfy): `struct result_config`, the default record, the
  `get_config_*` getters as functions of the installed override, the merged
  effective configuration `Resolve`, and `lurk_get_defaults`.
- `Reporting` (reporting.dfy): the class `ResultState`, which holds the
  installed override (`result_config`), the chunks written to `stdout` and
  `stderr`, and a record of handler calls. Its methods model
  `lurk_set_result_config`, `log_default`, `err_default`, `lurk_log` and
  `lurk_err` step by step. Each method is proved equal to a specification
  function giving its effect, and the lemmas state the library's promises
  about those functions.
- `Macros` (macros.dfy): the `RETURN_*` macros and the
  `LURK_NO_CALL_RETURN_ERROR` bypass.
- `Options` (options.dfy): `Option`, where `None` is a C `NULL`.

Environment inputs are parameters. The clock reading is `Option<Clock>`,
with `None` when `gmtime` fails. `Io` says whether each of the three writes
of a line succeeds. `customResult` is what a custom error handler returns.
`abort()` is the outcome `Aborted`.

Where the code and its own documentation disagree, the model follows the code:

- `lurk_log` returns `RESULT_SUCCESS` after logging and when its channel is
  off (src/result.c:91, 103). Its documentation promises it returns `result`
  (include/result.h:320-322). See `Reporting.LurkLogOutcomes` for every
  configuration and `Reporting.LurkLogDropsResult` for a concrete case.
- `lurk_err` returns `RESULT_SUCCESS` when `do_err` is false
  (src/result.c:109), so a `RETURN_*` macro then evaluates to success. The
  exception is a `RETURN_ERROR` given a `NULL` message, which still gives
  `RESULT_BAD_PARAM` because the format is checked first (src/result.c:107).
  See `Macros.DisabledErrorsTurnMacrosIntoSuccess`.
- The handler typedefs return `void` (include/result.h:165-168). The code
  still uses their return value (src/result.c:99, 117). The model treats a
  custom handler's return value as an unconstrained input.
- `is_error` is declared (include/result.h:283) but the definition is named
  `is_err` (src/result.c:67). The model uses `Results.IsErr`.
- `prefix` and `postfix` are never read. The reporters always end a line with
  `"\n"` (src/result.c:145, 170). The default record leaves both `NULL`.
  See `Config.PrefixPostfixUnread`.
- The flags `do_log` and `do_err` do not fall back to the default. An override
  that sets only `projname` therefore turns both channels off. See
  `Config.OnlyProjNameOverride`.

## Model

| member | source | states |
|---|---|---|
| Results.Named.Code | include/result.h:107-120 | the enum values; every error constant is negative, `RESULT_SUCCESS`/`RESULT_VALID_OBJECT` are zero, the statuses are positive, the boolean results are 0 or 1 |
| Results.IsErr | src/result.c:67-69 | `is_err` on a named constant holds exactly for the three errors |
| Results.IsSuccess | include/result.h:211-227 | `is_success` accepts the code of `RESULT_SUCCESS` and of its aliases `RESULT_VALID_OBJECT` and `RESULT_FALSE`, no other named constant |
| Results.IsValidObject | include/result.h:228-239 | `is_valid_object` accepts the same named constants as `is_success` |
| Results.IsTrue | include/result.h:261-270 | `is_true` accepts the code of `RESULT_TRUE` and of `RESULT_FAILURE`, no other named constant |
| Results.IsFalse | include/result.h:271-280 | `is_false` accepts the named constants equal to `RESULT_SUCCESS` |
| Results.IsLurkErr | src/result.c:71-81 | `is_lurk_err` holds exactly when the value is the code of one of the three named errors |
| Results.LurkErrValues | src/result.c:71-81 | `is_lurk_err(r)` iff r is -1, -2 or -3 |
| Results.LurkErrIsErr | src/result.c:67-81 | every value `is_lurk_err` accepts is accepted by `is_err` (r < 0) |
| Results.ErrIsNotLurkErr | include/result.h:251-260 | -4 is an error for `is_err` but not a named error, so the converse fails |
| Results.CodeCollisions | include/result.h:88-120 | two constants share a value iff both are in {SUCCESS, VALID_OBJECT, FALSE} or both in {FAILURE, TRUE}, or they are the same constant |
| Results.ErrorCodesDistinct | include/result.h:108-110 | each named error's value belongs to no other constant |
| Results.SuccessIsValidObject | include/result.h:211-239 | `is_success` and `is_valid_object` have the same truth table: r == 0 |
| Results.TrueFalseExclusive | include/result.h:261-280 | `is_true` holds only for 1, `is_false` only for 0, never both |
| Results.BooleanAxisCollides | include/result.h:91-99 | `is_false` coincides with `is_success`, and `is_true` with r == `RESULT_FAILURE`; a boolean result always reads as success or as true |
| Format.Decimal | include/lurk.h:17-19 | the stringized line number: decimal digits without a leading zero that read back as the number |
| Format.Pad2 | src/result.c:135-136 | `%02d`: digits that read back as the value, exactly two of them for values below 100 |
| Format.HexDigits | src/result.c:135-136 | k lowercase hex digits whose value is v mod 16^k |
| Format.Unsigned32 | src/result.c:135-136 | how `%08x` reads an `int`: a non-negative value unchanged, a negative one plus 2^32 |
| Format.Hex8 | src/result.c:135-136 | `%08x` gives exactly eight lowercase hex digits |
| Format.Hex8RoundTrip | src/result.c:135-136 | those digits denote the 32-bit two's complement of the result and give the signed result back |
| Format.Hex8MinusOne | src/result.c:135-136 | -1 prints as `ffffffff` |
| Format.Hex8One | src/result.c:135-136 | 1 prints as `00000001` |
| Format.ClockOf | src/result.c:22-28 | `get_time` gives the `gmtime` reading, or all zeros when `gmtime` fails |
| Format.TimeField | src/result.c:135-136 | `%02d:%02d:%02d` is eight characters with colons at positions 2 and 5 |
| Format.TimeFieldDigits | src/result.c:135-136 | each two-digit field reads back as the hour, minute and second |
| Format.LogHeader | src/result.c:135-136 | the log header is 24 characters longer than its tag |
| Format.ErrHeader | src/result.c:163-164 | the error header's length is fixed by its three strings |
| Format.ErrHeaderIsLogHeader | src/result.c:163-164 | the error header is the log header with the tag `projname:caller.loc` |
| Format.LogHeaderRoundTrip | src/result.c:135-136 | parsing a log header gives back the clock, the result and the project tag |
| Format.ErrHeaderRoundTrip | src/result.c:163-164 | parsing an error header gives back the clock, the result and `projname:caller.loc` |
| Config.ProjName | src/result.c:30-37 | `get_config_projname` gives the project name of the effective configuration |
| Config.DoLog | src/result.c:39-42 | `get_config_do_log` gives the effective `do_log` |
| Config.DoErr | src/result.c:44-47 | `get_config_do_err` gives the effective `do_err` |
| Config.LogFn | src/result.c:49-56 | `get_config_log_fn` gives the effective log handler |
| Config.ErrFn | src/result.c:58-65 | `get_config_err_fn` gives the effective error handler |
| Config.NoOverrideGivesDefaults | src/result.c:11-19 | the compiled-in `result_config_default` (the constant `Config.Default`) as seen with no override: `"lurk"`, both flags true, the two default handlers |
| Config.DefaultOverrideIsNoOverride | src/result.c:11-19 | installing the default record resolves exactly like installing none |
| Config.ProjNameFallback | src/result.c:30-37 | `projname` falls back only when `NULL`; a set value, `""` included, is used |
| Config.HandlerFallback | src/result.c:49-65 | the handlers fall back exactly when the override's pointer is `NULL` |
| Config.FlagsFromOverride | src/result.c:39-47 | the flags of an installed override are used as they are, with no fallback |
| Config.OnlyProjNameOverride | src/result.c:30-65 | a zero-initialised override with only `projname` set keeps the default handlers and turns both channels off |
| Config.PrefixPostfixUnread | include/result.h:196-204 | changing `prefix` or `postfix` changes nothing the getters give |
| Config.GetDefaults | include/result.h:298-307 | `RESULT_BAD_PARAM` for a `NULL` destination; otherwise the destination holds the defaults and the result is `RESULT_SUCCESS` |
| Reporting.LineWrites | src/result.c:135-146 | the chunks that reach the stream are a prefix of header, message, `"\n"`; all three exactly when every write succeeds |
| Reporting.ResultState.constructor | src/result.c:19 | at process start no override is installed and nothing is written |
| Reporting.ResultState.SetResultConfig | src/result.c:83-86 | the installed override becomes the argument, the streams are unchanged, the result is `RESULT_SUCCESS` |
| Reporting.ResultState.Fprintf | src/result.c:135-146 | a write appends its text to its own stream and reports a negative count when it fails, appending nothing |
| Reporting.ResultState.LogDefault | src/result.c:124-149 | `log_default` changes the state exactly as `LogDefaultEffect` says |
| Reporting.ResultState.ErrDefault | src/result.c:151-174 | `err_default` changes the state exactly as `ErrDefaultEffect` says |
| Reporting.ResultState.LurkLog | src/result.c:88-104 | `lurk_log` changes the state exactly as `LurkLogEffect` says |
| Reporting.ResultState.LurkErr | src/result.c:106-122 | `lurk_err` changes the state exactly as `LurkErrEffect` says |
| Reporting.LogDefaultWritesOneLine | src/result.c:124-149 | channel on and writes succeeding: one line on stdout, a header reading back as clock, result and `[projname]`, then the message and `"\n"`; returns `result` |
| Reporting.CallerText | src/result.c:156 | a `NULL` caller prints as `(unknown)`, any other caller as itself |
| Reporting.LocText | src/result.c:157 | a `NULL` location prints as `???`, any other location as itself |
| Reporting.ErrDefaultWritesOneLine | src/result.c:151-174 | the same on stderr with the tag `projname:caller.loc`, NULLs printed as `(unknown)` and `???`; returns `result` |
| Reporting.DisabledReportersAreSilent | src/result.c:124-174 | a reporter whose channel is off writes nothing and returns `result` |
| Reporting.FailedWriteAborts | src/result.c:135-171 | a failed write ends in abort, never a return, with fewer than three chunks written |
| Reporting.ReportersRejectMissingFormat | src/result.c:124-152 | a `NULL` format makes either reporter return `RESULT_BAD_PARAM` with no output |
| Reporting.LurkLogOutcomes | src/result.c:88-104 | `RESULT_BAD_PARAM` iff fmt is `NULL`; `RESULT_SUCCESS` with no output when the channel is off; otherwise exactly one call of the resolved handler: with `log_default` the line's chunks reach stdout and it aborts exactly when a write fails, else `RESULT_SUCCESS`; with a custom handler `RESULT_SUCCESS` and no library output; the library itself never writes stderr |
| Reporting.LurkLogDropsResult | src/result.c:99-103 | logging `RESULT_FAILURE` returns `RESULT_SUCCESS`, not the result passed in |
| Reporting.LurkLogDefaultLine | src/result.c:88-149 | with the defaults, `lurk_log` writes the `[lurk]` header, the message and a newline |
| Reporting.LurkErrOutcomes | src/result.c:106-122 | `RESULT_BAD_PARAM` for a `NULL` fmt; `RESULT_SUCCESS` and no output when disabled; otherwise one handler call whose return is passed on. With `err_default` the chunks of its line, header with `NULL` caller and location shown as placeholders, reach stderr, and it aborts exactly when a write fails, returning `result` otherwise. A custom handler's value is passed on with no library output |
| Reporting.LurkErrDefaultLine | src/result.c:151-174 | with the defaults and `NULL` caller and loc, the tag is `lurk:(unknown).???` and `result` is returned |
| Reporting.ResetMatchesFreshProcess | src/result.c:83-86 | after installing an override and then `NULL`, `lurk_log` returns, writes to stdout and stderr, and calls handlers exactly as in a process that never installed one |
| Reporting.LastWriterWins | src/result.c:83-86 | after installing two overrides, `lurk_err` returns, writes to stdout and stderr, and calls handlers exactly as if only the second had been installed |
| Macros.Expand | include/result.h:35-60 | each macro's result: `RESULT_BAD_PARAM`, `RESULT_INVALID_OBJECT`, `RESULT_INTERNAL_ERROR`, or the caller's own; caller `__func__`, location the line number's digits; `RETURN_ERROR`/`RETURN_ERROR_FMT` pass their message, possibly `NULL`, unchanged, and every other macro passes a non-`NULL` message |
| Macros.FixedMacrosGiveNamedErrors | include/result.h:38-54 | the macros that fix their result always pass a named error |
| Macros.NoCallIsPlainResult | include/result.h:29-33 | with `LURK_NO_CALL_RETURN_ERROR` a macro is its result argument and does nothing else |
| Macros.MacroLogsAndPropagates | include/result.h:29-60 | otherwise, under the default handler with writes succeeding, a macro writes one stderr line (a header tagged `projname:func.line`, then the message, then `"\n"`) and evaluates to its result; a `NULL` message evaluates to `RESULT_BAD_PARAM` with no output |
| Macros.DisabledErrorsTurnMacrosIntoSuccess | src/result.c:106-109 | with `do_err` off a macro that calls `lurk_err` evaluates to `RESULT_SUCCESS` with no output, unless its message is `NULL`, which gives `RESULT_BAD_PARAM` |
| Macros.Evaluate | include/result.h:29-60 | evaluating a macro against the process state has exactly the effect `MacroEffect` gives |

## Left out

- Expanding `fmt` with `va_list` (`vfprintf`): a format string stands for its expanded text, and `RETURN_ERROR_FMT` carries the expanded message.
- Real stream I/O: each stream is the sequence of chunks written successfully, one per `fprintf`/`vfprintf` call. A failed write appends nothing, though a real `fprintf` may write part of its output before it fails.
- Wall-clock time: `time` and `gmtime` are replaced by a clock reading given as input. Its fields have the ranges of `struct tm` (hour 0-23, minute 0-59, second 0-60).
- Custom handlers: they are known only by identity. Their output is not visible; the model records each call and takes a custom error handler's return value as an input.
- Aliasing of the override: `result_config` points at a struct the caller owns and may keep changing. The model stores the struct's value at the time it is installed.
- Thread safety of the unsynchronised global `result_config`: not modelled.
- `is_success`, `is_valid_object`, `is_true`, `is_false` and `lurk_get_defaults` are declared in include/result.h, and src/result.c defines none of them. They are modelled from their doc comments.
- `struct lurk_cfg` in include/lurk.h is never used and is not modelled.
