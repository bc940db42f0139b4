/**
 * Client code: the behaviour the repository's tests describe, derived from the
 * contracts of `Log` alone.
 */
module Scenarios {
  import opened Wrappers
  import opened Metadata
  import opened Levels
  import Json
  import Formatters
  import opened Logger

  /** The default level is `info`: `debug` writes nothing, `info` writes one line to stdout. */
  method DefaultLevelScenario(now: string) {
    var log := new Log(Undefined);
    assert log.logLevel == "info";
    log.Debug("nai", null, now);
    assert log.stdoutLines == [] && log.stderrLines == [];
    log.Info("flurp", null, now);
    assert |log.stdoutLines| == 1 && log.stderrLines == [];
    assert log.stdoutLines[0] == Formatters.Head(Formatters.Tag("info").value, "flurp", now);
  }

  /** `"none"` silences even `error`. */
  method NoneScenario(now: string) {
    var log := new Log(LevelName("none"));
    log.Error("kattbajs", null, now);
    assert log.stderrLines == [] && log.stdoutLines == [];
  }

  /** Under `"error"` only `error` is written, and to stderr. */
  method ErrorOnlyScenario(now: string) {
    var log := new Log(LevelName("error"));
    assert log.logLevel == "error" && log.stderrLines == [] && log.stdoutLines == [];
    log.Silly("kattbajs", null, now);
    assert log.stderrLines == [] && log.stdoutLines == [];
    log.Debug("kattbajs", null, now);
    assert log.stderrLines == [] && log.stdoutLines == [];
    log.Verbose("kattbajs", null, now);
    assert log.stderrLines == [] && log.stdoutLines == [];
    log.Warn("kattbajs", null, now);
    assert log.stderrLines == [] && log.stdoutLines == [];
    log.Error("kattbajs", null, now);
    assert |log.stderrLines| == 1 && log.stdoutLines == [];
  }

  /** Disjoint keys: the merge is the call's metadata followed by the context. */
  lemma ContextExample()
    ensures Merge(Some([("foo", "bar")]), [("bosse", "bäng"), ("hasse", "luring")]) ==
            [("foo", "bar"), ("bosse", "bäng"), ("hasse", "luring")]
  {
    var ctx := [("bosse", "bäng"), ("hasse", "luring")];
    assert ctx[1..][1..] == [];
    assert Keys(ctx[1..]) == ["hasse"];
    assert Keys(ctx) == ["bosse", "hasse"];
    assert UniqueKeys(ctx[1..]);
    assert Keys([("foo", "bar")]) == ["foo"];
    AssignDisjoint([("foo", "bar")], ctx);
  }

  /** An object of three properties serialises as its three members between braces. */
  lemma StringifyThree(a: (string, string), b: (string, string), c: (string, string))
    ensures Json.Stringify([a, b, c]) ==
            "{" + Json.Member(a) + "," + Json.Member(b) + "," + Json.Member(c) + "}"
  {
    var m := [a, b, c];
    assert Json.Members(m[1..][1..]) == Json.Member(c) by {
      assert m[1..][1..] == [c];
    }
    assert Json.Members(m[1..]) == Json.Member(b) + "," + Json.Member(c) by {
      assert m[1..] == [b, c];
    }
  }

  /** The info line of a call whose merged metadata is not empty: the head, a space, the JSON. */
  lemma ContextLine(m: Entries, now: string)
    requires m != []
    ensures Entry(TextFormatter, Level.Info, m, "kattbajs", now) ==
            Formatters.Head(Formatters.Tag("info").value, "kattbajs", now) + " " + Json.Stringify(m)
  {
  }

  /** A logger whose only setting is a context object. */
  method ContextLog(ctx: MetadataObject) returns (log: Log)
    requires UniqueKeys(ctx.entries)
    ensures fresh(log) && log.Valid() && log.context == ctx && ctx.entries == old(ctx.entries)
    ensures log.logLevel == "info" && log.entryFormatter == TextFormatter
    ensures log.stdoutLines == [] && log.stderrLines == []
  {
    var conf := new LogConf(ctx, None, None, None, None, None);
    log := new Log(Options(conf));
  }

  /** The line carries the call's keys first and the context keys after them. */
  method ContextScenario(now: string) {
    var ctx := new MetadataObject([("bosse", "bäng"), ("hasse", "luring")]);
    var log := ContextLog(ctx);
    assert !Suppressed(log.logLevel, Level.Info) && !ToStderr(Level.Info);
    var md := new MetadataObject([("foo", "bar")]);
    ghost var expected := [("foo", "bar"), ("bosse", "bäng"), ("hasse", "luring")];
    assert Merge(Some(md.entries), ctx.entries) == expected by {
      ContextExample();
    }
    log.Info("kattbajs", md, now);
    assert log.stdoutLines == [Entry(TextFormatter, Level.Info, expected, "kattbajs", now)];
    ContextLine(expected, now);
    assert log.stdoutLines[0] ==
           Formatters.Head(Formatters.Tag("info").value, "kattbajs", now) + " " + Json.Stringify(expected);
    StringifyThree(("foo", "bar"), ("bosse", "bäng"), ("hasse", "luring"));
    assert Json.Stringify(expected) ==
           "{" + Json.Member(("foo", "bar")) + "," + Json.Member(("bosse", "bäng")) + "," + Json.Member(("hasse", "luring")) + "}";
  }

  /**
   * `Object.assign` writes into the caller's own metadata object, which
   * afterwards holds the merge; the context object is untouched.
   */
  method MetadataMutationScenario(metadata: Entries, context: Entries, now: string)
    requires UniqueKeys(metadata) && UniqueKeys(context)
  {
    var ctx := new MetadataObject(context);
    var log := ContextLog(ctx);
    assert !Suppressed(log.logLevel, Level.Info);
    var md := new MetadataObject(metadata);
    log.Info("kattbajs", md, now);
    assert md.entries == Merge(Some(metadata), context);
    assert ctx.entries == context;
  }

  /** A configuration object reused for a second logger: the defaults written by the first give the same settings. */
  method ReusedConfScenario(conf: LogConf)
    requires conf.context != null ==> UniqueKeys(conf.context.entries)
    modifies conf
  {
    ghost var given := conf.Fields();
    var first := new Log(Options(conf));
    var second := new Log(Options(conf));
    NormalizeIdempotent(given);
    assert second.logLevel == first.logLevel && second.entryFormatter == first.entryFormatter;
    assert second.stderr == first.stderr && second.stdout == first.stdout;
  }

  /**
   * The context passed as the call's own metadata: `Object.assign(context, context)`
   * leaves it as it is, and the json formatter then adds its fields to the context.
   */
  method AliasedContextScenario(now: string) {
    var ctx := new MetadataObject([("bosse", "bäng")]);
    var conf := new LogConf(ctx, None, Some("json"), None, None, None);
    var log := new Log(Options(conf));
    assert log.logLevel == "info" && log.entryFormatter == JsonFormatter && log.context == ctx;
    assert !Suppressed(log.logLevel, Level.Info);
    ghost var c0 := ctx.entries;
    assert Merge(Some(c0), c0) == c0 by {
      AssignSelf(c0);
    }
    log.Info("m", ctx, now);
    assert ctx.entries == Formatters.JsonPayload(c0, "info", "m", now);
  }
}
