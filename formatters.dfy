/**
 * The two built-in entry formatters, `msgTextFormatter` and `msgJsonFormatter`.
 * The clock reading `new Date().toISOString()` is the parameter `now`.
 */
module Formatters {
  import opened Wrappers
  import opened Metadata
  import opened Levels
  import Json

  /** The ANSI-coloured tag the text formatter prints for a level name; any other string has none. */
  function Tag(level: string): (r: Option<string>)
    ensures r.Some? <==> Parse(level).Some?
  {
    if level == "silly" then Some("\U{1B}[1;37msil\U{1B}[0m")
    else if level == "debug" then Some("\U{1B}[1;35mdeb\U{1B}[0m")
    else if level == "verbose" then Some("\U{1B}[1;34mver\U{1B}[0m")
    else if level == "info" then Some("\U{1B}[1;32minf\U{1B}[0m")
    else if level == "warn" then Some("\U{1B}[1;33mwar\U{1B}[0m")
    else if level == "error" then Some("\U{1B}[1;31merr\U{1B}[0m")
    else None
  }

  /** `s.substring(0, 19)`: the date and time to the second of an ISO timestamp. */
  function Seconds(now: string): string {
    if |now| <= 19 then now else now[..19]
  }

  function InvalidLevel(level: string): string {
    "Invalid conf.logLevel: \"" + level + "\""
  }

  /** `<timestamp>Z [<tag>] <msg>`, the line before any metadata. */
  function Head(tag: string, msg: string, now: string): string {
    Seconds(now) + "Z [" + tag + "] " + msg
  }

  /** What a template literal prints for `JSON.stringify(v)`; `None` is `undefined`. */
  function Printed(json: Option<string>): string {
    json.GetOr("undefined")
  }

  /** `JSON.stringify(metadata)`, which is `undefined` when the metadata is. */
  function StringifyOptional(metadata: Option<Entries>): Option<string> {
    match metadata
    case None => None
    case Some(m) => Some(Json.Stringify(m))
  }

  /**
   * `msgTextFormatter` as written. An unknown level throws. The metadata
   * suffix is appended when `JSON.stringify(metadata)` is not `"{}"`, which
   * for omitted metadata (`undefined`) appends " undefined".
   */
  function FormatTextAsWritten(level: string, metadata: Option<Entries>, msg: string, now: string)
    : (r: Result<string, string>)
    ensures r.Failure? <==> Parse(level).None?
    ensures r.Failure? ==> r.error == InvalidLevel(level)
    ensures r.Success? ==>
      r.value == Head(Tag(level).value, msg, now) +
                 match metadata
                 case None => " undefined"
                 case Some(m) => if m == [] then "" else " " + Json.Stringify(m)
  {
    match Tag(level)
    case None => Failure(InvalidLevel(level))
    case Some(tag) =>
      var str := Head(tag, msg, now);
      var metadataStr := StringifyOptional(metadata);
      Success(if metadataStr != Some("{}") then str + " " + Printed(metadataStr) else str)
  }

  /**
   * `msgTextFormatter` with omitted metadata read as `{}`; the logger only
   * ever passes metadata, so this agrees with the source on every log call.
   */
  function FormatText(level: string, metadata: Option<Entries>, msg: string, now: string)
    : (r: Result<string, string>)
    ensures r.Failure? <==> Parse(level).None?
    ensures r.Failure? ==> r.error == InvalidLevel(level)
    ensures r.Success? ==>
      r.value == Head(Tag(level).value, msg, now) +
                 if metadata.GetOr([]) == [] then "" else " " + Json.Stringify(metadata.value)
    ensures metadata.Some? ==> r == FormatTextAsWritten(level, metadata, msg, now)
  {
    match Tag(level)
    case None => Failure(InvalidLevel(level))
    case Some(tag) =>
      var str := Head(tag, msg, now);
      var metadataStr := Json.Stringify(metadata.GetOr([]));
      Success(if metadataStr != "{}" then str + " " + metadataStr else str)
  }

  /** As written, omitting the metadata prints the word `undefined` after the message. */
  lemma OmittedMetadataPrintsUndefined(l: Level, msg: string, now: string)
    ensures FormatTextAsWritten(Name(l), None, msg, now) ==
            Success(Head(Tag(Name(l)).value, msg, now) + " undefined")
    ensures FormatTextAsWritten(Name(l), None, msg, now) != FormatTextAsWritten(Name(l), Some([]), msg, now)
  {
    var h := Head(Tag(Name(l)).value, msg, now);
    assert |h + " undefined"| != |h|;
  }

  /** Corrected: omitted metadata prints exactly like `{}`, with no suffix. */
  lemma OmittedMetadataIsEmpty(level: string, msg: string, now: string)
    ensures FormatText(level, None, msg, now) == FormatText(level, Some([]), msg, now)
    ensures Parse(level).Some? ==> FormatText(level, None, msg, now) == Success(Head(Tag(level).value, msg, now))
  {
  }

  lemma HeadAfterTimestamp(tag: string, msg: string, now: string, suffix: string)
    requires |now| >= 19
    ensures |Head(tag, msg, now) + suffix| >= 19
    ensures (Head(tag, msg, now) + suffix)[19..] == "Z [" + tag + "] " + msg + suffix
  {
    var stamp := now[..19];
    var rest := "Z [" + tag + "] " + msg + suffix;
    assert Head(tag, msg, now) + suffix == stamp + rest;
    assert (stamp + rest)[19..] == rest;
  }

  /**
   * With a full ISO timestamp, everything after its first 19 characters is
   * `Z [<tag>] <msg>`, followed by ` <json>` when there is metadata.
   */
  lemma TextAfterTimestamp(l: Level, m: Entries, msg: string, now: string)
    requires |now| >= 19
    ensures |FormatText(Name(l), Some(m), msg, now).value| >= 19
    ensures FormatText(Name(l), Some(m), msg, now).value[19..] ==
            "Z [" + Tag(Name(l)).value + "] " + msg + (if m == [] then "" else " " + Json.Stringify(m))
  {
    HeadAfterTimestamp(Tag(Name(l)).value, msg, now, if m == [] then "" else " " + Json.Stringify(m));
  }

  const TypeErrorMessage: string := "Cannot convert undefined or null to object"

  /** The object `msgJsonFormatter` serialises: the metadata overlaid with `logLevel`, `msg` and `time`. */
  function JsonPayload(metadata: Entries, level: string, msg: string, time: string): (r: Entries)
    ensures forall k :: k in Keys(r) <==> k in Keys(metadata) || k in ["logLevel", "msg", "time"]
  {
    OverlayKeys(level, msg, time);
    Assign(metadata, Overlay(level, msg, time))
  }

  /** The three fields the json formatter adds, in the order it writes them. */
  function Overlay(level: string, msg: string, time: string): Entries {
    [("logLevel", level), ("msg", msg), ("time", time)]
  }

  lemma OverlayKeys(level: string, msg: string, time: string)
    ensures Keys(Overlay(level, msg, time)) == ["logLevel", "msg", "time"]
    ensures UniqueKeys(Overlay(level, msg, time))
  {
    var fields := Overlay(level, msg, time);
    assert fields[1..][1..][1..] == [];
    assert Keys(fields[1..][1..]) == ["time"];
    assert Keys(fields[1..]) == ["msg", "time"];
    assert UniqueKeys(fields[1..][1..]);
    assert UniqueKeys(fields[1..]);
  }

  /**
   * In the payload `logLevel`, `msg` and `time` read the call's values, even
   * when the metadata had those keys; every other key reads as in the metadata.
   */
  lemma JsonPayloadFields(metadata: Entries, level: string, msg: string, time: string, k: string)
    ensures var p := JsonPayload(metadata, level, msg, time);
      Lookup(p, k) == if k == "logLevel" then Some(level)
                      else if k == "msg" then Some(msg)
                      else if k == "time" then Some(time)
                      else Lookup(metadata, k)
  {
    var fields := Overlay(level, msg, time);
    OverlayKeys(level, msg, time);
    AssignLookup(metadata, fields, k);
  }

  /**
   * The metadata's keys keep their places at the front of the payload, the
   * added fields follow, and no key appears twice.
   */
  lemma JsonPayloadOrder(metadata: Entries, level: string, msg: string, time: string)
    ensures Keys(JsonPayload(metadata, level, msg, time)) ==
            Keys(metadata) + Absent(["logLevel", "msg", "time"], Keys(metadata))
    ensures UniqueKeys(metadata) ==> UniqueKeys(JsonPayload(metadata, level, msg, time))
  {
    var fields := Overlay(level, msg, time);
    OverlayKeys(level, msg, time);
    AssignKeys(metadata, fields);
    if UniqueKeys(metadata) {
      AssignUnique(metadata, fields);
    }
  }

  /**
   * `msgJsonFormatter`: overlays the fields onto the caller's metadata object
   * in place and serialises it. Without a metadata object `Object.assign`
   * throws a TypeError.
   */
  method FormatJson(level: string, metadata: MetadataObject?, msg: string, now: string)
    returns (r: Result<string, string>)
    modifies metadata
    ensures metadata == null ==> r == Failure(TypeErrorMessage)
    ensures metadata != null ==> metadata.entries == JsonPayload(old(metadata.entries), level, msg, now)
    ensures metadata != null ==> r == Success(Json.Stringify(metadata.entries))
    ensures metadata != null && old(UniqueKeys(metadata.entries)) ==> UniqueKeys(metadata.entries)
  {
    if metadata == null {
      return Failure(TypeErrorMessage);
    }
    metadata.AssignFrom(Overlay(level, msg, now));
    r := Success(Json.Stringify(metadata.entries));
  }
}
