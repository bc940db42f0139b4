# larvit/log — a Dafny model of the logger core

larvit/log is a small TypeScript logger. A `Log` object is built from an
optional configuration: a level name, `"none"`, or an options object holding
`logLevel`, `context`, `format`, `entryFormatter`, `stderr` and `stdout`.
Missing options get defaults: level `info`, the text formatter (the json
formatter when `format` is `"json"`), and `console.error`/`console.log` as
sinks. The logger has six level methods: `error`, `warn`, `info`, `verbose`,
`debug` and `silly`. Each one does the following:

- returns at once when the configured level is less verbose than the call;
- merges the logger's `context` into the caller's metadata object with
  `Object.assign(metadata || {}, context)`;
- formats the entry;
- hands the line to the stderr sink (`error`, `warn`) or the stdout sink
  (the other four).

The text formatter writes a line of the form
`YYYY-MM-DDTHH:MM:SSZ [<coloured tag>] <msg> <json>`. The json formatter
overlays `logLevel`, `msg` and `time` onto the metadata object and serialises
it.

The project has these modules:

- `Wrappers` (wrappers.dfy): `Option` and `Result`.
- `Metadata` (metadata.dfy): a metadata object as an ordered list of string
  properties. `Put` is a property write and `Assign` is `Object.assign`. The
  class `MetadataObject` is the object that a log call changes in place.
- `Json` (json.dfy): `JSON.stringify` on such an object.
- `Levels` (levels.dfy): the six levels and the early-return gate of each
  level method.
- `Formatters` (formatters.dfy): `msgTextFormatter` and `msgJsonFormatter`.
- `Logger` (logger.dfy): the option defaults, the merge, and the class `Log`
  with its constructor and level methods. The lines handed to the sinks are
  recorded in the fields `stderrLines` and `stdoutLines`.
- `Scenarios` (scenarios.dfy): client methods that replay the repository's
  tests against the contracts of `Log`. Several of them carry no contract of
  their own: `DefaultLevelScenario`, `NoneScenario`, `ErrorOnlyScenario`,
  `ContextScenario`, `MetadataMutationScenario`, `ReusedConfScenario` and
  `AliasedContextScenario`.

The clock reading `new Date().toISOString()` is a parameter `now` of every
formatting operation and level method.

## Model

| member | source | states |
|---|---|---|
| Levels.Parse | index.ts:7-18 | a string names a level exactly when it is the name of one of the six level methods, and the level returned has that name |
| Levels.Suppressed | index.ts:112-139 | the six exclusion lists amount to a threshold: `"none"` drops every call, a level name drops exactly the calls more verbose than it on error < warn < info < verbose < debug < silly, and any other string drops nothing |
| Levels.Exclusions | index.ts:113-138 | the literal list each level method checks is `"none"` followed by the names of the levels more severe than the call, most severe first |
| Levels.ToStderr | index.ts:112-140 | a level goes to the stderr sink exactly when it is `error` or `warn`, the two most severe levels; the other four go to stdout |
| Formatters.Tag | index.ts:46-62 | a tag exists exactly for the six level names |
| Formatters.FormatTextAsWritten | index.ts:45-71 | an unknown level fails with `Invalid conf.logLevel: "<level>"`, and fails only then; otherwise the line is the timestamp to the second, `Z [<tag>] <msg>`, then ` <json>` unless the metadata serialises to `{}`; omitted metadata appends ` undefined` |
| Formatters.FormatText | index.ts:45-71 | the same, with omitted metadata treated as `{}`; agrees with the as-written formatter whenever metadata is passed |
| Formatters.OmittedMetadataPrintsUndefined | index.ts:64-68 | as written, a call without metadata prints the head followed by ` undefined`, which differs from a call with `{}` |
| Formatters.OmittedMetadataIsEmpty | index.ts:64-68 | corrected, a call without metadata prints exactly like a call with `{}`, i.e. the head alone |
| Formatters.HeadAfterTimestamp | index.ts:64 | with a full ISO timestamp, everything after its first 19 characters is `Z [<tag>] <msg>` and whatever follows |
| Formatters.TextAfterTimestamp | test.ts:119-189 | after the first 19 characters, a text line is `Z [<tag>] <msg>`, followed by ` <json>` when there is metadata |
| Formatters.Overlay | index.ts:36-40 | definition: the object literal `{ logLevel, msg, time }` that `msgJsonFormatter` assigns onto the metadata, fields in written order |
| Formatters.JsonPayload | index.ts:36-40 | the json payload is `Object.assign(metadata, overlay)`; its keys are exactly the metadata's keys together with `logLevel`, `msg` and `time` |
| Formatters.OverlayKeys | index.ts:36-40 | the json formatter adds the keys `logLevel`, `msg`, `time`, in that order and each once |
| Formatters.JsonPayloadFields | index.ts:36-40 | in the payload, `logLevel`, `msg` and `time` read the call's values even when the metadata had those keys; every other key reads as in the metadata |
| Formatters.JsonPayloadOrder | index.ts:36-40 | the payload's keys are the metadata's keys in their order, then those of `logLevel`, `msg`, `time` the metadata lacked; no key is duplicated |
| Formatters.FormatJson | index.ts:35-43 | without a metadata object the call fails with the `Object.assign` TypeError; otherwise the caller's object becomes the payload in place and the result is its serialisation |
| Json.Stringify | index.ts:65-66 | the serialisation is braced, and is `{}` exactly when the object has no property |
| Metadata.Lookup | index.ts:1-3 | a property read finds a value exactly when the key is present, and the value is the one stored with it |
| Metadata.Put | index.ts:114 | a property write keeps an existing key in place or appends a new key, and never creates a duplicate |
| Metadata.Assign | index.ts:36 | `Object.assign(target, source)`: each source property, in order, written into the target; the result's keys are exactly those of the target and of the source |
| Metadata.PutLookup | index.ts:114 | after a write, the written key reads the new value and every other key reads as before |
| Metadata.AssignLookup | index.ts:114 | after `Object.assign(target, source)`, a source key reads the source value and any other key reads the target value |
| Metadata.AssignKeys | index.ts:114 | after `Object.assign`, the keys are the target's keys in order, then the new source keys in source order |
| Metadata.AssignUnique | index.ts:114 | `Object.assign` never creates a duplicate property |
| Metadata.AssignIntoEmpty | index.ts:114 | `Object.assign({}, source)` is a copy of source, order included |
| Metadata.AssignDisjoint | index.ts:114 | with no key in common, `Object.assign` appends the source after the target |
| Metadata.AssignSelf | index.ts:114 | `Object.assign(o, o)` leaves `o` as it is, which is the merge when a call passes the context object itself as metadata |
| Metadata.MetadataObject.AssignFrom | index.ts:114 | `Object.assign(this, source)` changes the object in place to the merge, preserving distinct keys |
| Logger.Normalize | index.ts:87-103 | a missing level becomes `info`; a missing formatter becomes the json formatter exactly when `format` is `"json"` and the text formatter otherwise; missing sinks become the console; present fields and `format` are kept |
| Logger.NormalizeIdempotent | index.ts:87-103 | filling in defaults a second time changes nothing; because the constructor writes the defaults into a given options object, a second logger built from that object gets the same settings |
| Logger.LogConf.FillDefaults | index.ts:87-103 | the configuration object's own fields are defaulted in place, one by one, and its context is untouched |
| Logger.Merge | index.ts:114 | `Object.assign(metadata \|\| {}, context)` keeps distinct keys when the metadata has them |
| Logger.MergeOrder | index.ts:114 | merged key order: the caller's keys in order, then the context keys the caller did not use |
| Logger.MergeLookup | index.ts:114 | on a key both define the context value wins; other keys keep their own value |
| Logger.MergeWithoutMetadata | index.ts:114 | a call without metadata logs exactly the context |
| Logger.Entry | index.ts:114 | the string the configured formatter returns for a call; under the text formatter it is the head, then ` <json>` exactly when the merged metadata is not empty |
| Logger.Formatted | index.ts:36-40 | definition: what the caller's metadata object holds after formatting, which is the json payload under the json formatter and the merge otherwise |
| Logger.Log.Logged | index.ts:112-140 | definition of one level call: a suppressed call changes nothing; otherwise exactly one line, the entry for the merge of the caller's metadata and the context, goes to the sink `ToStderr` picks, the other sink is unchanged, the metadata object holds what was formatted, and the context is unchanged unless it was itself passed as metadata |
| Logger.Log.constructor | index.ts:80-110 | no argument, a bare level string, or an options object gives the settings `Normalize` computes; a given options object is itself defaulted in place; the context is the given object (shared, not copied) or a fresh `{}`; nothing has been written |
| Logger.Log.Format | index.ts:114 | the line is the configured formatter's output on the merged object, and the object afterwards holds what was serialised |
| Logger.Log.Write | index.ts:112-140 | a suppressed call changes nothing; otherwise exactly one line, the formatter's output on `Object.assign(metadata \|\| {}, context)`, is appended to stderr for error/warn and to stdout otherwise, the other sink is untouched, and the caller's object holds what was formatted: the merge, plus the three json fields under the json formatter; the context changes only when it was itself passed as metadata |
| Logger.Log.Error | index.ts:112-115 | `Logged` at level error: written to stderr unless the level is `"none"` |
| Logger.Log.Warn | index.ts:117-120 | `Logged` at level warn: written to stderr unless the level is `"none"` or `"error"` |
| Logger.Log.Info | index.ts:122-125 | `Logged` at level info: written to stdout unless the level is `"none"`, `"error"` or `"warn"` |
| Logger.Log.Verbose | index.ts:127-130 | `Logged` at level verbose, to stdout |
| Logger.Log.Debug | index.ts:132-135 | `Logged` at level debug, to stdout |
| Logger.Log.Silly | index.ts:137-140 | `Logged` at level silly, to stdout |
| Scenarios.ContextExample | test.ts:264-276 | merging context `{bosse, hasse}` into metadata `{foo}` gives foo, bosse, hasse in that order |
| Scenarios.StringifyThree | test.ts:273-274 | a three-property object serialises as its three members, comma-separated, between braces |
| Scenarios.ContextLine | test.ts:270-275 | an info line with non-empty merged metadata is the head, a space and the JSON |
| Scenarios.ContextLog | test.ts:267 | a logger built from `{ context }` alone logs at info with the text formatter and shares the given context |

## Left out

- `clone`, `end` and the OpenTelemetry (OTLP) export are not in index.ts and are not part of this model.
- I/O: the sinks are recorded as the lists of lines handed to them (`stderrLines`, `stdoutLines`). The console's trailing newline, and what a custom sink does with a line, are not modelled. `Sink` records only which function was configured.
- The clock is the parameter `now`. The model does not require it to be an ISO timestamp; `Seconds` takes its first 19 characters as `substring(0, 19)` does.
- Json.Stringify: does not escape quotes, backslashes or control characters in keys and values.
- Metadata.Put: does not model JavaScript's ordering of integer-like keys (such as `"1"`) before other keys. Properties keep insertion order.
- Metadata.Put: metadata and context objects are ordinary extensible objects with string data properties, and every property write succeeds. Three kinds of object are not modelled:
  - Frozen, sealed or non-extensible objects. `Object.assign` throws a TypeError on them, so a level call with such a metadata object throws instead of writing a line. This happens whenever the context is not empty, and always under the json formatter.
  - Accessor properties.
  - A `"__proto__"` key. Writing it into a plain object calls the prototype setter and does not add the key.
- Logger.Formatter: a custom entry formatter is a pure function of (level name, merged metadata, message). Its exceptions and its changes to the metadata object are not modelled.
- The level methods require that the metadata and context objects hold distinct keys (`UniqueKeys`). A JavaScript object always does, so this restates an invariant of the language and not a demand of the source.
- Logger.Log.constructor: in the code, a level string is not validated at construction. An unknown string (possible at run time despite the declared type) suppresses nothing and logs at every level; `Levels.Suppressed` states this. The model follows the code.
- In a call whose metadata is the logger's own context object, `Object.assign` writes the context into itself, and the json formatter then adds its three fields to the context. `Logged` covers this case through its clause on the metadata object, which is then the context: its new value is what was formatted. `Metadata.AssignSelf` shows that the merge leaves the context as it was, so the text formatter leaves it unchanged and the json formatter turns it into the json payload. `Scenarios.AliasedContextScenario` derives the json case from the contracts.

## Findings

| source | as written | input that shows it | evidently intended | confidence | as-written member | corrected member |
|---|---|---|---|---|---|---|
| index.ts:64-68 | `msgTextFormatter` compares `JSON.stringify(conf.metadata)` with `"{}"`; for omitted metadata that is `undefined`, so the line gets the suffix ` undefined` | `msgTextFormatter({ logLevel: "info", msg: "x" })` | omitted metadata prints like `{}`: no suffix | medium, not executed | Formatters.OmittedMetadataPrintsUndefined | Formatters.OmittedMetadataIsEmpty |

The level methods always pass a metadata object, so the discrepancy only
shows when the formatter is called directly. The `Log` model uses the
corrected `Formatters.FormatText`.
