/** The debug logger object: filtering, formatting and routing of one call,
    the level shorthands, and the lazily created shared instance. */
module Logger {
  import opened Levels
  import opened Filter
  import opened Format

  /** The host's output streams, one per console method the logger calls. */
  datatype Stream = ConsoleLog | ConsoleWarn | ConsoleError

  /** One line written to one stream. */
  datatype Entry = Entry(stream: Stream, line: string)

  /** The host console: everything written to it, in order. */
  class Console {
    var writes: seq<Entry>

    constructor ()
      ensures writes == []
    {
      writes := [];
    }

    method Log(line: string)
      modifies this
      ensures writes == old(writes) + [Entry(ConsoleLog, line)]
    {
      writes := writes + [Entry(ConsoleLog, line)];
    }

    method Warn(line: string)
      modifies this
      ensures writes == old(writes) + [Entry(ConsoleWarn, line)]
    {
      writes := writes + [Entry(ConsoleWarn, line)];
    }

    method Error(line: string)
      modifies this
      ensures writes == old(writes) + [Entry(ConsoleError, line)]
    {
      writes := writes + [Entry(ConsoleError, line)];
    }
  }

  /** The stream a line at the given level goes to. */
  function StreamFor(level: LogLevel): (s: Stream)
    ensures s == ConsoleError <==> level == Error
    ensures s == ConsoleWarn <==> level == Warn
    ensures s == ConsoleLog <==> level == Debug || level == Info
  {
    match level
    case Error => ConsoleError
    case Warn => ConsoleWarn
    case Debug | Info => ConsoleLog
  }

  /** What one `log` call writes: nothing when filtered, else the formatted
      line on the level's stream. */
  function Emitted(cfg: DebugConfig, resourceName: string, timestamp: string, category: DebugModule,
                   level: LogLevel, message: string, args: seq<Value>, r: Renderer): seq<Entry>
  {
    if ShouldLog(cfg, category, level)
    then [Entry(StreamFor(level), FormatMessage(timestamp, resourceName, category, level, message, args, r))]
    else []
  }

  /** A call writes at most one line, and writes one exactly when logging is
      on, the category is on and the level reaches the configured level (any
      level reaches a configured string that names no level). */
  lemma EmittedExactlyWhenEnabled(cfg: DebugConfig, resourceName: string, timestamp: string, category: DebugModule,
                                  level: LogLevel, message: string, args: seq<Value>, r: Renderer)
    ensures |Emitted(cfg, resourceName, timestamp, category, level, message, args, r)| <= 1
    ensures |Emitted(cfg, resourceName, timestamp, category, level, message, args, r)| == 1 <==>
      cfg.enabled && ModuleEnabled(cfg, category) &&
      match ParseLevel(cfg.logLevel)
      case None => true
      case Some(min) => AtLeast(level, min)
  {
    ShouldLogExactly(cfg, category, level);
  }

  /** With logging switched off globally, or the category off or missing, a
      call writes nothing, whatever the level. */
  lemma SwitchedOffWritesNothing(cfg: DebugConfig, resourceName: string, timestamp: string, category: DebugModule,
                                 level: LogLevel, message: string, args: seq<Value>, r: Renderer)
    requires !cfg.enabled || !ModuleEnabled(cfg, category)
    ensures Emitted(cfg, resourceName, timestamp, category, level, message, args, r) == []
  {
  }

  /** A written line goes to the error stream for `error`, to the warning
      stream for `warn` and to the standard stream for `debug` and `info`,
      and it is the formatted line of the call. */
  lemma EmittedRouting(cfg: DebugConfig, resourceName: string, timestamp: string, category: DebugModule,
                       level: LogLevel, message: string, args: seq<Value>, r: Renderer, e: Entry)
    requires e in Emitted(cfg, resourceName, timestamp, category, level, message, args, r)
    ensures e.stream == ConsoleError <==> level == Error
    ensures e.stream == ConsoleWarn <==> level == Warn
    ensures e.stream == ConsoleLog <==> level == Debug || level == Info
    ensures e.line == FormatMessage(timestamp, resourceName, category, level, message, args, r)
  {
  }

  /** A logger; the resource name is fixed when it is made. */
  class DebugLogger {
    const resourceName: string

    /** `resourceName` is what the host reported when the logger was made. */
    constructor (resourceName: string)
      ensures this.resourceName == resourceName
    {
      this.resourceName := resourceName;
    }

    /** Filters, formats and routes one call; the configuration and the
        timestamp are those current at the call. */
    method Log(console: Console, cfg: DebugConfig, timestamp: string, category: DebugModule,
               level: LogLevel, message: string, args: seq<Value>, r: Renderer)
      modifies console
      ensures console.writes == old(console.writes) + Emitted(cfg, resourceName, timestamp, category, level, message, args, r)
    {
      if !ShouldLog(cfg, category, level) {
        return;
      }
      var formattedMessage := FormatMessage(timestamp, resourceName, category, level, message, args, r);
      match level
      case Error =>
        console.Error(formattedMessage);
      case Warn =>
        console.Warn(formattedMessage);
      case Debug | Info =>
        console.Log(formattedMessage);
    }

    method Info(console: Console, cfg: DebugConfig, timestamp: string, category: DebugModule,
                message: string, args: seq<Value>, r: Renderer)
      modifies console
      ensures console.writes == old(console.writes) + Emitted(cfg, resourceName, timestamp, category, LogLevel.Info, message, args, r)
    {
      Log(console, cfg, timestamp, category, LogLevel.Info, message, args, r);
    }

    method Warn(console: Console, cfg: DebugConfig, timestamp: string, category: DebugModule,
                message: string, args: seq<Value>, r: Renderer)
      modifies console
      ensures console.writes == old(console.writes) + Emitted(cfg, resourceName, timestamp, category, LogLevel.Warn, message, args, r)
    {
      Log(console, cfg, timestamp, category, LogLevel.Warn, message, args, r);
    }

    method Error(console: Console, cfg: DebugConfig, timestamp: string, category: DebugModule,
                 message: string, args: seq<Value>, r: Renderer)
      modifies console
      ensures console.writes == old(console.writes) + Emitted(cfg, resourceName, timestamp, category, LogLevel.Error, message, args, r)
    {
      Log(console, cfg, timestamp, category, LogLevel.Error, message, args, r);
    }

    method Debug(console: Console, cfg: DebugConfig, timestamp: string, category: DebugModule,
                 message: string, args: seq<Value>, r: Renderer)
      modifies console
      ensures console.writes == old(console.writes) + Emitted(cfg, resourceName, timestamp, category, LogLevel.Debug, message, args, r)
    {
      Log(console, cfg, timestamp, category, LogLevel.Debug, message, args, r);
    }
  }

  /** The static side of the logger class: the shared instance, absent until
      first asked for, and the resource name the host reports. */
  class LoggerStatics {
    const currentResourceName: string
    var instance: DebugLogger?

    /** Any instance there is carries the host's resource name. */
    ghost predicate Valid()
      reads this
    {
      instance != null ==> instance.resourceName == currentResourceName
    }

    constructor (currentResourceName: string)
      ensures this.currentResourceName == currentResourceName
      ensures instance == null && Valid()
    {
      this.currentResourceName := currentResourceName;
      instance := null;
    }

    /** Makes the instance on the first call only; every call returns it. */
    method GetInstance() returns (logger: DebugLogger)
      requires Valid()
      modifies this
      ensures Valid()
      ensures instance == logger
      ensures logger.resourceName == currentResourceName
      ensures old(instance) != null ==> logger == old(instance)
      ensures old(instance) == null ==> fresh(logger)
    {
      if instance == null {
        instance := new DebugLogger(currentResourceName);
      }
      logger := instance;
    }
  }

  /** Loading the logger's source file: the exported shared logger is the
      same object every later `GetInstance` returns. */
  method LoadDebugModule(statics: LoggerStatics) returns (debug: DebugLogger)
    requires statics.Valid()
    modifies statics
    ensures statics.Valid() && statics.instance == debug
    ensures debug.resourceName == statics.currentResourceName
  {
    debug := statics.GetInstance();
  }

  /** Two `GetInstance` calls in a row return one and the same object,
      whether or not the instance existed before. */
  method GetInstanceTwice(statics: LoggerStatics) returns (first: DebugLogger, second: DebugLogger)
    requires statics.Valid()
    modifies statics
    ensures first == second && statics.instance == first
    ensures old(statics.instance) != null ==> first == old(statics.instance)
  {
    first := statics.GetInstance();
    second := statics.GetInstance();
  }
}
