/**
 * The `Log` class: a constructor that fills in defaults, and six level
 * methods that gate on the configured level, merge the logger's context into
 * the call's metadata, format the entry and hand it to a sink.
 */
module Logger {
  import opened Wrappers
  import opened Metadata
  import opened Levels
  import Json
  import Formatters

  /** An entry formatter: a built-in one, or the caller's function of (logLevel, metadata, msg). */
  datatype Formatter =
    | TextFormatter
    | JsonFormatter
    | CustomFormatter(format: (string, Entries, string) -> string)

  /** The function a sink calls: the console defaults, or a caller's function. */
  datatype Sink = ConsoleError | ConsoleLog | CustomSink(name: string)

  /** The option fields of a configuration object other than `context`; `None` is `undefined`. */
  datatype Settings = Settings(
    logLevel: Option<string>,
    entryFormatter: Option<Formatter>,
    format: Option<string>,
    stderr: Option<Sink>,
    stdout: Option<Sink>)

  /**
   * The defaults the constructor fills in: level `info`; the json formatter
   * when `format` is `"json"` and the text formatter otherwise; the console
   * sinks. A field that is present is kept.
   */
  function Normalize(s: Settings): (r: Settings)
    ensures r.logLevel.Some? && r.entryFormatter.Some? && r.stderr.Some? && r.stdout.Some?
    ensures r.format == s.format
    ensures s.logLevel.Some? ==> r.logLevel == s.logLevel
    ensures s.logLevel.None? ==> r.logLevel == Some("info")
    ensures s.entryFormatter.Some? ==> r.entryFormatter == s.entryFormatter
    ensures s.entryFormatter.None? ==>
      r.entryFormatter == Some(if s.format == Some("json") then JsonFormatter else TextFormatter)
    ensures r.stderr == Some(s.stderr.GetOr(ConsoleError))
    ensures r.stdout == Some(s.stdout.GetOr(ConsoleLog))
  {
    var logLevel := if s.logLevel.None? then Some("info") else s.logLevel;
    var entryFormatter :=
      if s.entryFormatter.None? && s.format == Some("json") then Some(JsonFormatter)
      else if s.entryFormatter.None? then Some(TextFormatter)
      else s.entryFormatter;
    var stderr := if s.stderr.None? then Some(ConsoleError) else s.stderr;
    var stdout := if s.stdout.None? then Some(ConsoleLog) else s.stdout;
    Settings(logLevel, entryFormatter, s.format, stderr, stdout)
  }

  /**
   * Filling in defaults twice changes nothing more. The constructor writes
   * the defaults into a given configuration object, so a second logger built
   * from the same object gets the same settings as the first.
   */
  lemma NormalizeIdempotent(s: Settings)
    ensures Normalize(Normalize(s)) == Normalize(s)
  {
  }

  /** A `LogConf` object; the constructor fills in its missing fields in place. */
  class LogConf {
    var context: MetadataObject?
    var entryFormatter: Option<Formatter>
    var format: Option<string>
    var logLevel: Option<string>
    var stderr: Option<Sink>
    var stdout: Option<Sink>

    constructor (context: MetadataObject?, entryFormatter: Option<Formatter>, format: Option<string>,
                 logLevel: Option<string>, stderr: Option<Sink>, stdout: Option<Sink>)
      ensures this.context == context && this.entryFormatter == entryFormatter
      ensures this.format == format && this.logLevel == logLevel
      ensures this.stderr == stderr && this.stdout == stdout
    {
      this.context := context;
      this.entryFormatter := entryFormatter;
      this.format := format;
      this.logLevel := logLevel;
      this.stderr := stderr;
      this.stdout := stdout;
    }

    ghost function Fields(): Settings
      reads this
    {
      Settings(logLevel, entryFormatter, format, stderr, stdout)
    }

    /** The constructor's field-by-field defaulting of its configuration object. */
    method FillDefaults()
      modifies this
      ensures Fields() == Normalize(old(Fields()))
      ensures context == old(context)
    {
      if logLevel.None? {
        logLevel := Some("info");
      }

      if entryFormatter.None? && format == Some("json") {
        entryFormatter := Some(JsonFormatter);
      } else if entryFormatter.None? {
        entryFormatter := Some(TextFormatter);
      }

      if stderr.None? {
        stderr := Some(ConsoleError);
      }

      if stdout.None? {
        stdout := Some(ConsoleLog);
      }
    }
  }

  /** The constructor's argument: nothing, a bare level string, or a configuration object. */
  datatype ConfArg = Undefined | LevelName(name: string) | Options(conf: LogConf)

  /** The settings an argument gives; a bare string `s` is read as `{ logLevel: s }`. */
  ghost function Given(arg: ConfArg): Settings
    reads if arg.Options? then {arg.conf} else {}
  {
    match arg
    case Undefined => Settings(None, None, None, None, None)
    case LevelName(s) => Settings(Some(s), None, None, None, None)
    case Options(c) => c.Fields()
  }

  /** `Object.assign(metadata || {}, context)`: the merged metadata of one log call. */
  function Merge(metadata: Option<Entries>, context: Entries): (r: Entries)
    ensures metadata.Some? && UniqueKeys(metadata.value) ==> UniqueKeys(r)
  {
    var target := metadata.GetOr([]);
    assert UniqueKeys(target) ==> UniqueKeys(Assign(target, context)) by {
      if UniqueKeys(target) {
        AssignUnique(target, context);
      }
    }
    Assign(target, context)
  }

  /** Merged key order: the caller's keys in their order, then the context keys the caller did not use. */
  lemma MergeOrder(metadata: Option<Entries>, context: Entries)
    requires UniqueKeys(context)
    ensures Keys(Merge(metadata, context)) ==
            Keys(metadata.GetOr([])) + Absent(Keys(context), Keys(metadata.GetOr([])))
  {
    AssignKeys(metadata.GetOr([]), context);
  }

  /** On a key both define, the context value wins; other keys keep their own value. */
  lemma MergeLookup(metadata: Option<Entries>, context: Entries, k: string)
    requires UniqueKeys(context)
    ensures Lookup(Merge(metadata, context), k) ==
            if k in Keys(context) then Lookup(context, k) else Lookup(metadata.GetOr([]), k)
  {
    AssignLookup(metadata.GetOr([]), context, k);
  }

  /** A call without metadata logs exactly the context. */
  lemma MergeWithoutMetadata(context: Entries)
    requires UniqueKeys(context)
    ensures Merge(None, context) == context
  {
    AssignIntoEmpty(context);
  }

  /** The string the configured formatter returns for a call with merged metadata `merged`. */
  function Entry(formatter: Formatter, level: Level, merged: Entries, msg: string, now: string): (r: string)
    ensures formatter.TextFormatter? ==>
      r == Formatters.Head(Formatters.Tag(Name(level)).value, msg, now) +
           if merged == [] then "" else " " + Json.Stringify(merged)
  {
    match formatter
    case TextFormatter => Formatters.FormatText(Name(level), Some(merged), msg, now).value
    case JsonFormatter => Json.Stringify(Formatters.JsonPayload(merged, Name(level), msg, now))
    case CustomFormatter(f) => f(Name(level), merged, msg)
  }

  /** The metadata object after formatting: the json formatter overlays its fields onto it. */
  function Formatted(formatter: Formatter, level: Level, merged: Entries, msg: string, now: string): Entries {
    if formatter.JsonFormatter? then Formatters.JsonPayload(merged, Name(level), msg, now) else merged
  }

  class Log {
    var context: MetadataObject
    const logLevel: string
    const entryFormatter: Formatter
    const stderr: Sink
    const stdout: Sink
    /** The entries handed to the stderr sink and to the stdout sink, oldest first. */
    var stderrLines: seq<string>
    var stdoutLines: seq<string>

    ghost predicate Valid()
      reads this, context
    {
      UniqueKeys(context.entries)
    }

    /**
     * Fills in the configuration's missing fields (in the caller's object
     * when one is given) and takes the settings from it. The context object
     * is shared with the configuration, not copied.
     */
    constructor (arg: ConfArg)
      requires arg.Options? && arg.conf.context != null ==> UniqueKeys(arg.conf.context.entries)
      modifies if arg.Options? then {arg.conf} else {}
      ensures Valid()
      ensures Some(logLevel) == Normalize(old(Given(arg))).logLevel
      ensures Some(entryFormatter) == Normalize(old(Given(arg))).entryFormatter
      ensures Some(stderr) == Normalize(old(Given(arg))).stderr
      ensures Some(stdout) == Normalize(old(Given(arg))).stdout
      ensures arg.Options? ==>
        arg.conf.Fields() == Normalize(old(Given(arg))) && arg.conf.context == old(arg.conf.context)
      ensures if arg.Options? && arg.conf.context != null then context == arg.conf.context
              else fresh(context) && context.entries == []
      ensures stderrLines == [] && stdoutLines == []
    {
      var conf: LogConf;
      if arg.Undefined? {
        conf := new LogConf(null, None, None, None, None, None);
      } else if arg.LevelName? {
        conf := new LogConf(null, None, None, Some(arg.name), None, None);
      } else {
        conf := arg.conf;
      }

      conf.FillDefaults();

      logLevel := conf.logLevel.value;
      entryFormatter := conf.entryFormatter.value;
      stderr := conf.stderr.value;
      stdout := conf.stdout.value;
      if conf.context != null {
        context := conf.context;
      } else {
        context := new MetadataObject([]);
      }
      stderrLines, stdoutLines := [], [];
    }

    /**
     * What one call at `level` does: nothing when the configured level
     * suppresses it; otherwise exactly one entry, built from the merged
     * metadata, appended to the stderr sink for `error`/`warn` and to the
     * stdout sink for the others, with the caller's metadata object left
     * holding what was formatted. The context is not changed unless the
     * caller passed the context object itself as metadata.
     */
    twostate predicate Logged(level: Level, msg: string, metadata: MetadataObject?, now: string)
      reads this, context, metadata
    {
      && old(Valid())
      && Valid()
      && (metadata != context ==> context.entries == old(context.entries))
      && if Suppressed(logLevel, level) then
           && stderrLines == old(stderrLines)
           && stdoutLines == old(stdoutLines)
           && (metadata != null ==> metadata.entries == old(metadata.entries))
         else
           var merged := Merge(if metadata == null then None else Some(old(metadata.entries)), old(context.entries));
           var line := Entry(entryFormatter, level, merged, msg, now);
           && (ToStderr(level) ==> stderrLines == old(stderrLines) + [line] && stdoutLines == old(stdoutLines))
           && (!ToStderr(level) ==> stdoutLines == old(stdoutLines) + [line] && stderrLines == old(stderrLines))
           && (metadata != null ==> metadata.entries == Formatted(entryFormatter, level, merged, msg, now))
    }

    /** Runs the configured formatter on the merged metadata object. */
    method Format(level: Level, target: MetadataObject, msg: string, now: string) returns (line: string)
      requires UniqueKeys(target.entries)
      modifies target
      ensures line == Entry(entryFormatter, level, old(target.entries), msg, now)
      ensures target.entries == Formatted(entryFormatter, level, old(target.entries), msg, now)
      ensures UniqueKeys(target.entries)
    {
      match entryFormatter
      case TextFormatter =>
        var r := Formatters.FormatText(Name(level), Some(target.entries), msg, now);
        line := r.value;
      case JsonFormatter =>
        var r := Formatters.FormatJson(Name(level), target, msg, now);
        line := r.value;
      case CustomFormatter(f) =>
        line := f(Name(level), target.entries, msg);
    }

    /** The body shared by the six level methods. */
    method Write(level: Level, msg: string, metadata: MetadataObject?, now: string)
      requires Valid()
      requires metadata != null ==> UniqueKeys(metadata.entries)
      modifies this`stderrLines, this`stdoutLines, metadata
      ensures Logged(level, msg, metadata, now)
    {
      if Suppressed(logLevel, level) {
        return;
      }
      var target: MetadataObject;
      if metadata == null {
        target := new MetadataObject([]);
      } else {
        target := metadata;
      }
      ghost var merged := Merge(if metadata == null then None else Some(target.entries), context.entries);
      target.AssignFrom(context.entries);
      assert target.entries == merged && UniqueKeys(merged);
      var line := Format(level, target, msg, now);
      if ToStderr(level) {
        stderrLines := stderrLines + [line];
      } else {
        stdoutLines := stdoutLines + [line];
      }
    }

    method Error(msg: string, metadata: MetadataObject?, now: string)
      requires Valid()
      requires metadata != null ==> UniqueKeys(metadata.entries)
      modifies this`stderrLines, this`stdoutLines, metadata
      ensures Logged(Level.Error, msg, metadata, now)
    {
      Write(Level.Error, msg, metadata, now);
    }

    method Warn(msg: string, metadata: MetadataObject?, now: string)
      requires Valid()
      requires metadata != null ==> UniqueKeys(metadata.entries)
      modifies this`stderrLines, this`stdoutLines, metadata
      ensures Logged(Level.Warn, msg, metadata, now)
    {
      Write(Level.Warn, msg, metadata, now);
    }

    method Info(msg: string, metadata: MetadataObject?, now: string)
      requires Valid()
      requires metadata != null ==> UniqueKeys(metadata.entries)
      modifies this`stderrLines, this`stdoutLines, metadata
      ensures Logged(Level.Info, msg, metadata, now)
    {
      Write(Level.Info, msg, metadata, now);
    }

    method Verbose(msg: string, metadata: MetadataObject?, now: string)
      requires Valid()
      requires metadata != null ==> UniqueKeys(metadata.entries)
      modifies this`stderrLines, this`stdoutLines, metadata
      ensures Logged(Level.Verbose, msg, metadata, now)
    {
      Write(Level.Verbose, msg, metadata, now);
    }

    method Debug(msg: string, metadata: MetadataObject?, now: string)
      requires Valid()
      requires metadata != null ==> UniqueKeys(metadata.entries)
      modifies this`stderrLines, this`stdoutLines, metadata
      ensures Logged(Level.Debug, msg, metadata, now)
    {
      Write(Level.Debug, msg, metadata, now);
    }

    method Silly(msg: string, metadata: MetadataObject?, now: string)
      requires Valid()
      requires metadata != null ==> UniqueKeys(metadata.entries)
      modifies this`stderrLines, this`stdoutLines, metadata
      ensures Logged(Level.Silly, msg, metadata, now)
    {
      Write(Level.Silly, msg, metadata, now);
    }
  }
}
