/**
 * The logger: a level filter, then console output and (when remote logging is
 * on) a breadcrumb plus a capture for warnings and errors. Console and error
 * tracking calls are returned as a sequence of effects instead of performed.
 */
module Logging {
  import opened Wrappers
  import Text

  datatype LogLevel = Debug | Info | Warn | Error

  /** `LOG_LEVELS`. */
  function Rank(level: LogLevel): (r: nat)
    ensures r <= 3
    ensures r == 0 <==> level == Debug
    ensures r == 3 <==> level == Error
  {
    match level
    case Debug => 0
    case Info => 1
    case Warn => 2
    case Error => 3
  }

  /** The ranks are strictly increasing: debug < info < warn < error, hence distinct. */
  lemma RanksOrdered()
    ensures Rank(Debug) < Rank(Info) < Rank(Warn) < Rank(Error)
    ensures forall a, b :: Rank(a) == Rank(b) ==> a == b
  {
  }

  /** `Record<string, unknown>`, with values reduced to text. */
  type Context = map<string, string>

  /** An `Error` instance. */
  datatype ErrorValue = ErrorValue(name: string, message: string)

  datatype LogEntry = LogEntry(
    level: LogLevel,
    message: string,
    timestamp: string,
    context: Option<Context>,
    error: Option<ErrorValue>)

  datatype LoggerConfig = LoggerConfig(minLevel: LogLevel, enableConsole: bool, enableRemote: bool)

  /** `Partial<LoggerConfig>`: None for a field that is not given. */
  datatype PartialConfig = PartialConfig(minLevel: Option<LogLevel>, enableConsole: Option<bool>, enableRemote: Option<bool>)

  /** `defaultConfig` for the build mode: debug level in development, remote logging in production. */
  function DefaultConfig(dev: bool, prod: bool): (c: LoggerConfig)
    ensures c.minLevel == (if dev then Debug else Info)
    ensures c.enableConsole && c.enableRemote == prod
  {
    LoggerConfig(if dev then Debug else Info, true, prod)
  }

  /** `{ ...defaultConfig, ...config }`: each given field replaces the default, field by field. */
  function MergeConfig(defaults: LoggerConfig, given: PartialConfig): (c: LoggerConfig)
    ensures c.minLevel == given.minLevel.GetOr(defaults.minLevel)
    ensures c.enableConsole == given.enableConsole.GetOr(defaults.enableConsole)
    ensures c.enableRemote == given.enableRemote.GetOr(defaults.enableRemote)
    ensures given == PartialConfig(None, None, None) ==> c == defaults
  {
    LoggerConfig(
      given.minLevel.GetOr(defaults.minLevel),
      given.enableConsole.GetOr(defaults.enableConsole),
      given.enableRemote.GetOr(defaults.enableRemote))
  }

  /** `shouldLog(level)`. */
  predicate ShouldLog(config: LoggerConfig, level: LogLevel) {
    Rank(level) >= Rank(config.minLevel)
  }

  /** The filter is monotone in the level, and errors pass every filter. */
  lemma ShouldLogMonotone(config: LoggerConfig, a: LogLevel, b: LogLevel)
    requires ShouldLog(config, a) && Rank(a) <= Rank(b)
    ensures ShouldLog(config, b)
    ensures ShouldLog(config, Error)
  {
  }

  /** `level.toUpperCase()`. */
  function LevelLabel(level: LogLevel): string {
    match level
    case Debug => "DEBUG"
    case Info => "INFO"
    case Warn => "WARN"
    case Error => "ERROR"
  }

  /** `formatMessage(entry)`: `[timestamp] [LEVEL] message`, then the serialized context when there is one. */
  function FormatMessage(e: LogEntry, stringify: Context -> string): (s: string)
    ensures Text.StartsWith(s, "[" + e.timestamp + "] [" + LevelLabel(e.level) + "] " + e.message)
    ensures e.context.None? ==> s == "[" + e.timestamp + "] [" + LevelLabel(e.level) + "] " + e.message
    ensures e.context.Some? ==>
      s == "[" + e.timestamp + "] [" + LevelLabel(e.level) + "] " + e.message + " " + stringify(e.context.value)
  {
    var head := "[" + e.timestamp + "] [" + LevelLabel(e.level) + "] " + e.message;
    var s := head + (if e.context.Some? then " " + stringify(e.context.value) else "");
    assert s[..|head|] == head;
    s
  }

  /** The second console argument: `entry.context || ''`, and for errors `entry.error || entry.context || ''`. */
  datatype ConsoleArg = ArgError(error: ErrorValue) | ArgContext(context: Context) | ArgEmpty

  /** Error-tracking severity levels used here. */
  datatype SentryLevel = SentryDebug | SentryInfo | SentryWarning | SentryError

  datatype Effect =
    | Console(consoleMethod: LogLevel, formatted: string, arg: ConsoleArg)
    | Breadcrumb(category: string, message: string, level: SentryLevel, data: Option<Context>)
    | CaptureException(error: ErrorValue, context: Option<Context>)
    | CaptureMessage(message: string, level: SentryLevel, context: Option<Context>)

  function ConsoleArgOf(e: LogEntry): (a: ConsoleArg)
    ensures a.ArgError? <==> e.level == Error && e.error.Some?
    ensures a.ArgError? ==> a.error == e.error.value
    ensures a.ArgContext? ==> e.context == Some(a.context)
    ensures a.ArgEmpty? ==> e.context.None?
  {
    if e.level == Error && e.error.Some? then ArgError(e.error.value)
    else match e.context
      case Some(c) => ArgContext(c)
      case None => ArgEmpty
  }

  /** The breadcrumb level: the entry's own level, with 'warn' spelled 'warning'. */
  function BreadcrumbLevel(level: LogLevel): (s: SentryLevel)
    ensures level == Warn <==> s == SentryWarning
    ensures level == Error <==> s == SentryError
    ensures level == Debug <==> s == SentryDebug
  {
    match level
    case Debug => SentryDebug
    case Info => SentryInfo
    case Warn => SentryWarning
    case Error => SentryError
  }

  /** What reaches error tracking besides the breadcrumb. */
  function Captures(e: LogEntry): (r: seq<Effect>)
    ensures |r| <= 1
    ensures r == [] <==> (e.level == Debug || e.level == Info)
    ensures e.level == Error && e.error.Some? ==> r == [CaptureException(e.error.value, e.context)]
    ensures e.level == Error && e.error.None? ==> r == [CaptureMessage(e.message, SentryError, e.context)]
    ensures e.level == Warn ==> r == [CaptureMessage(e.message, SentryWarning, e.context)]
  {
    if e.level == Error && e.error.Some? then [CaptureException(e.error.value, e.context)]
    else if e.level == Error || e.level == Warn then
      [CaptureMessage(e.message, if e.level == Warn then SentryWarning else SentryError, e.context)]
    else
      assert e.level.Debug? || e.level.Info?;
      []
  }

  /** `error(message, error, context)`: an `Error` argument is kept apart from the context. */
  datatype ErrorArg = IsError(error: ErrorValue) | NotError(fields: Option<Context>)

  function ErrorOf(arg: ErrorArg): (r: Option<ErrorValue>)
    ensures r.Some? <==> arg.IsError?
  {
    match arg
    case IsError(e) => Some(e)
    case NotError(_) => None
  }

  /**
   * The context of an `error` call: the given context for an `Error` argument;
   * otherwise the argument's fields spread first and the given context over
   * them, which always yields an object.
   */
  function ErrorContext(arg: ErrorArg, context: Option<Context>): (r: Option<Context>)
    ensures arg.IsError? ==> r == context
    ensures arg.NotError? ==> r.Some?
    ensures arg.NotError? && context.Some? ==> forall k :: k in context.value ==> k in r.value && r.value[k] == context.value[k]
    ensures arg.NotError? && arg.fields.Some? ==>
              (forall k :: k in arg.fields.value && (context.None? || k !in context.value)
                 ==> k in r.value && r.value[k] == arg.fields.value[k])
    ensures arg.NotError? ==> r.value.Keys == arg.fields.GetOr(map[]).Keys + context.GetOr(map[]).Keys
  {
    match arg
    case IsError(_) => context
    case NotError(fields) => Some(fields.GetOr(map[]) + context.GetOr(map[]))
  }

  /** `{ ...this.context, ...context }`: the child's context under the call's, the call winning. */
  function MergeContext(fixed: Context, call: Option<Context>): (r: Context)
    ensures r.Keys == fixed.Keys + call.GetOr(map[]).Keys
    ensures call.Some? ==> forall k :: k in call.value ==> r[k] == call.value[k]
    ensures forall k :: k in fixed && (call.None? || k !in call.value) ==> r[k] == fixed[k]
  {
    fixed + call.GetOr(map[])
  }

  class Logger {
    const config: LoggerConfig
    /** `JSON.stringify` as used by `formatMessage`. */
    const stringify: Context -> string

    /** `new Logger(config)` over the build's default configuration. */
    constructor (defaults: LoggerConfig, given: PartialConfig, stringify: Context -> string)
      ensures config == MergeConfig(defaults, given)
    {
      this.config := MergeConfig(defaults, given);
      this.stringify := stringify;
    }

    /** The effects of logging one entry. */
    function Emitted(e: LogEntry): (r: seq<Effect>)
      // Filtered entries have no effect at all.
      ensures !ShouldLog(config, e.level) ==> r == []
      ensures ShouldLog(config, e.level) ==>
        |r| == (if config.enableConsole then 1 else 0) + (if config.enableRemote then 1 + |Captures(e)| else 0)
      // The console call comes first, with the entry's level as the console method.
      ensures ShouldLog(config, e.level) && config.enableConsole ==>
        r[0] == Console(e.level, FormatMessage(e, stringify), ConsoleArgOf(e))
      // Remote logging adds a breadcrumb, then the capture for warnings and errors.
      ensures ShouldLog(config, e.level) && config.enableRemote ==>
        var c := if config.enableConsole then 1 else 0;
        && r[c] == Breadcrumb("log", e.message, BreadcrumbLevel(e.level), e.context)
        && r[c + 1..] == Captures(e)
      ensures !config.enableRemote ==> forall i :: 0 <= i < |r| ==> r[i].Console?
    {
      if !ShouldLog(config, e.level) then []
      else
        (if config.enableConsole then [Console(e.level, FormatMessage(e, stringify), ConsoleArgOf(e))] else [])
        + (if config.enableRemote then [Breadcrumb("log", e.message, BreadcrumbLevel(e.level), e.context)] + Captures(e) else [])
    }

    /** `log(entry)`: the filter, then the console switch, then the remote calls. */
    method Log(e: LogEntry) returns (effects: seq<Effect>)
      ensures effects == Emitted(e)
    {
      effects := [];
      if !ShouldLog(config, e.level) {
        return;
      }
      if config.enableConsole {
        var formatted := FormatMessage(e, stringify);
        match e.level {
          case Debug => effects := effects + [Console(LogLevel.Debug, formatted, ConsoleArgOf(e))];
          case Info => effects := effects + [Console(LogLevel.Info, formatted, ConsoleArgOf(e))];
          case Warn => effects := effects + [Console(LogLevel.Warn, formatted, ConsoleArgOf(e))];
          case Error => effects := effects + [Console(LogLevel.Error, formatted, ConsoleArgOf(e))];
        }
      }
      if config.enableRemote {
        effects := effects + [Breadcrumb("log", e.message, BreadcrumbLevel(e.level), e.context)];
        if e.level == LogLevel.Error && e.error.Some? {
          effects := effects + [CaptureException(e.error.value, e.context)];
        } else if e.level == LogLevel.Error || e.level == LogLevel.Warn {
          effects := effects + [CaptureMessage(e.message, if e.level == LogLevel.Warn then SentryWarning else SentryError, e.context)];
        }
      }
    }

    method Debug(message: string, context: Option<Context>, timestamp: string) returns (effects: seq<Effect>)
      ensures effects == Emitted(LogEntry(LogLevel.Debug, message, timestamp, context, None))
    {
      effects := Log(LogEntry(LogLevel.Debug, message, timestamp, context, None));
    }

    method Info(message: string, context: Option<Context>, timestamp: string) returns (effects: seq<Effect>)
      ensures effects == Emitted(LogEntry(LogLevel.Info, message, timestamp, context, None))
    {
      effects := Log(LogEntry(LogLevel.Info, message, timestamp, context, None));
    }

    method Warn(message: string, context: Option<Context>, timestamp: string) returns (effects: seq<Effect>)
      ensures effects == Emitted(LogEntry(LogLevel.Warn, message, timestamp, context, None))
    {
      effects := Log(LogEntry(LogLevel.Warn, message, timestamp, context, None));
    }

    /** `error(message, error, context)`: the argument normalised by `ErrorOf` and `ErrorContext`. */
    method Error(message: string, arg: ErrorArg, context: Option<Context>, timestamp: string) returns (effects: seq<Effect>)
      ensures effects == Emitted(LogEntry(LogLevel.Error, message, timestamp, ErrorContext(arg, context), ErrorOf(arg)))
    {
      var err := ErrorOf(arg);
      var ctx := ErrorContext(arg, context);
      effects := Log(LogEntry(LogLevel.Error, message, timestamp, ctx, err));
    }

    /** `child(context)`. */
    method Child(context: Context) returns (c: ChildLogger)
      ensures fresh(c) && c.parent == this && c.context == context
    {
      c := new ChildLogger(this, context);
    }
  }

  /** A logger that adds a fixed context to every call and delegates to its parent at the same level. */
  class ChildLogger {
    const parent: Logger
    const context: Context

    constructor (parent: Logger, context: Context)
      ensures this.parent == parent && this.context == context
    {
      this.parent := parent;
      this.context := context;
    }

    method Debug(message: string, call: Option<Context>, timestamp: string) returns (effects: seq<Effect>)
      ensures effects == parent.Emitted(LogEntry(LogLevel.Debug, message, timestamp, Some(MergeContext(context, call)), None))
    {
      effects := parent.Debug(message, Some(MergeContext(context, call)), timestamp);
    }

    method Info(message: string, call: Option<Context>, timestamp: string) returns (effects: seq<Effect>)
      ensures effects == parent.Emitted(LogEntry(LogLevel.Info, message, timestamp, Some(MergeContext(context, call)), None))
    {
      effects := parent.Info(message, Some(MergeContext(context, call)), timestamp);
    }

    method Warn(message: string, call: Option<Context>, timestamp: string) returns (effects: seq<Effect>)
      ensures effects == parent.Emitted(LogEntry(LogLevel.Warn, message, timestamp, Some(MergeContext(context, call)), None))
    {
      effects := parent.Warn(message, Some(MergeContext(context, call)), timestamp);
    }

    /** The merged context always exists, so a non-`Error` argument is spread under it. */
    method Error(message: string, arg: ErrorArg, call: Option<Context>, timestamp: string) returns (effects: seq<Effect>)
      ensures effects == parent.Emitted(LogEntry(LogLevel.Error, message, timestamp,
                                                 ErrorContext(arg, Some(MergeContext(context, call))), ErrorOf(arg)))
    {
      effects := parent.Error(message, arg, Some(MergeContext(context, call)), timestamp);
    }
  }
}
