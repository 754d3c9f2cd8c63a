/**
 * The reporting configuration of src/result.c: `struct result_config`, the
 * compiled-in default, and the `get_config_*` getters that read the
 * installed override (`result_config`) with per-field fallback.
 */
module Config {
  import opened Options
  import opened Results

  /** The `result_log_fn` a configuration points at; other functions are known by identity only. */
  datatype LogHandler = LogDefault | CustomLog(id: nat)

  /** The `result_err_fn` a configuration points at. */
  datatype ErrHandler = ErrDefault | CustomErr(id: nat)

  /** `struct result_config`; a `None` field is a `NULL` pointer. */
  datatype Config = Config(
    projname: Option<string>,
    prefix: Option<string>,
    postfix: Option<string>,
    doLog: bool,
    doErr: bool,
    logFn: Option<LogHandler>,
    errFn: Option<ErrHandler>)

  /**
   * `result_config_default`. Its initializer leaves `prefix` and `postfix`
   * out, so both are `NULL`.
   */
  const Default: Config := Config(Some("lurk"), None, None, true, true, Some(LogDefault), Some(ErrDefault))

  /** A zero-initialised `result_config_t`: every pointer `NULL`, both flags false. */
  const Zero: Config := Config(None, None, None, false, false, None, None)

  /**
   * The configuration the library acts on, as one record: the fields the
   * code reads, with no field left `NULL`.
   */
  datatype Effective = Effective(
    projname: string, doLog: bool, doErr: bool, logFn: LogHandler, errFn: ErrHandler)

  /**
   * The per-field merge of an override (`None`: none installed) with the
   * default. A `NULL` pointer field falls back to the default's; the two
   * flags are taken from the override as they are.
   */
  function Resolve(installed: Option<Config>): Effective {
    var c := installed.GetOr(Default);
    Effective(c.projname.GetOr(Default.projname.value), c.doLog, c.doErr,
              c.logFn.GetOr(Default.logFn.value), c.errFn.GetOr(Default.errFn.value))
  }

  /** `get_config_projname`. */
  function ProjName(installed: Option<Config>): (p: string)
    ensures p == Resolve(installed).projname
  {
    if installed.None? then Default.projname.value
    else if installed.value.projname.None? then Default.projname.value
    else installed.value.projname.value
  }

  /** `get_config_do_log`: no fallback once an override is installed. */
  function DoLog(installed: Option<Config>): (b: bool)
    ensures b == Resolve(installed).doLog
  {
    if installed.None? then Default.doLog else installed.value.doLog
  }

  /** `get_config_do_err`: no fallback once an override is installed. */
  function DoErr(installed: Option<Config>): (b: bool)
    ensures b == Resolve(installed).doErr
  {
    if installed.None? then Default.doErr else installed.value.doErr
  }

  /** `get_config_log_fn`. */
  function LogFn(installed: Option<Config>): (h: LogHandler)
    ensures h == Resolve(installed).logFn
  {
    if installed.None? then Default.logFn.value
    else if installed.value.logFn.None? then Default.logFn.value
    else installed.value.logFn.value
  }

  /** `get_config_err_fn`. */
  function ErrFn(installed: Option<Config>): (h: ErrHandler)
    ensures h == Resolve(installed).errFn
  {
    if installed.None? then Default.errFn.value
    else if installed.value.errFn.None? then Default.errFn.value
    else installed.value.errFn.value
  }

  /** With no override every getter gives the compiled-in default. */
  lemma NoOverrideGivesDefaults()
    ensures ProjName(None) == "lurk" && DoLog(None) && DoErr(None)
    ensures LogFn(None) == LogDefault && ErrFn(None) == ErrDefault
  {
  }

  /** Installing the default record itself is the same as installing none. */
  lemma DefaultOverrideIsNoOverride()
    ensures Resolve(Some(Default)) == Resolve(None)
  {
  }

  /**
   * `projname` falls back only when the override's field is `NULL`; any set
   * value is used, the empty tag `""` included.
   */
  lemma ProjNameFallback(c: Config)
    ensures c.projname.None? ==> ProjName(Some(c)) == ProjName(None)
    ensures c.projname.Some? ==> ProjName(Some(c)) == c.projname.value
    ensures c.projname == Some("") ==> ProjName(Some(c)) == ""
  {
  }

  /** The handlers fall back exactly when the override's pointer is `NULL`. */
  lemma HandlerFallback(c: Config)
    ensures c.logFn.None? ==> LogFn(Some(c)) == LogDefault
    ensures c.logFn.Some? ==> LogFn(Some(c)) == c.logFn.value
    ensures c.errFn.None? ==> ErrFn(Some(c)) == ErrDefault
    ensures c.errFn.Some? ==> ErrFn(Some(c)) == c.errFn.value
  {
  }

  /** The flags never fall back: an installed override's flags are used as they are. */
  lemma FlagsFromOverride(c: Config)
    ensures DoLog(Some(c)) == c.doLog && DoErr(Some(c)) == c.doErr
  {
  }

  /**
   * Fallback is per field: an override that sets only the project name
   * (the rest zero, as C initialises it) keeps the default handlers but
   * switches both channels off, because the flags do not fall back.
   */
  lemma OnlyProjNameOverride(name: string)
    ensures var c := Zero.(projname := Some(name));
      Resolve(Some(c)) == Effective(name, false, false, LogDefault, ErrDefault)
  {
  }

  /** The fields `prefix` and `postfix` have no influence on what the getters give. */
  lemma PrefixPostfixUnread(c: Config, prefix: Option<string>, postfix: Option<string>)
    ensures Resolve(Some(c.(prefix := prefix, postfix := postfix))) == Resolve(Some(c))
  {
  }

  /** The caller-owned `result_config_t` that `lurk_get_defaults` fills. */
  class ConfigCell {
    var value: Config

    constructor (initial: Config)
      ensures value == initial
    {
      value := initial;
    }
  }

  /**
   * `lurk_get_defaults`, declared in include/result.h; src/result.c does
   * not define it, so it is modelled from its doc comment.
   */
  method GetDefaults(dest: ConfigCell?) returns (r: Int32)
    modifies dest
    ensures dest == null ==> r == BadParam.Code()
    ensures dest != null ==> r == Success.Code() && dest.value == Default
  {
    if dest == null {
      return BadParam.Code();
    }
    dest.value := Default;
    return Success.Code();
  }
}
