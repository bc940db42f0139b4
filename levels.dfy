/**
 * The six severities of a log call, the names the configuration uses for
 * them, and the gate each level method applies before writing anything.
 */
module Levels {
  import opened Wrappers

  datatype Level = Error | Warn | Info | Verbose | Debug | Silly

  /** The property name of the level method (`log.error`, `log.warn`, ...). */
  function Name(l: Level): string {
    match l
    case Error => "error"
    case Warn => "warn"
    case Info => "info"
    case Verbose => "verbose"
    case Debug => "debug"
    case Silly => "silly"
  }

  /** The level a configuration string names, if it names one. */
  function Parse(s: string): (r: Option<Level>)
    ensures r.Some? ==> Name(r.value) == s
    ensures r.None? ==> forall l: Level :: Name(l) != s
  {
    if s == "error" then Some(Error)
    else if s == "warn" then Some(Warn)
    else if s == "info" then Some(Info)
    else if s == "verbose" then Some(Verbose)
    else if s == "debug" then Some(Debug)
    else if s == "silly" then Some(Silly)
    else None
  }

  /** The scale from most to least severe. */
  const Scale: seq<Level> := [Error, Warn, Info, Verbose, Debug, Silly]

  /** Position on the scale; a more verbose level has a larger index. */
  function Index(l: Level): (i: nat)
    ensures i < |Scale| && Scale[i] == l
  {
    match l
    case Error => 0
    case Warn => 1
    case Info => 2
    case Verbose => 3
    case Debug => 4
    case Silly => 5
  }

  /**
   * The configured levels for which a call at `call` returns early, as listed
   * in each level method: `"none"`, then the names of the levels more severe
   * than `call`, most severe first.
   */
  function Exclusions(call: Level): (r: seq<string>)
    ensures |r| == Index(call) + 1 && r[0] == "none"
    ensures forall i :: 0 < i < |r| ==> r[i] == Name(Scale[i - 1])
  {
    match call
    case Error => ["none"]
    case Warn => ["none", "error"]
    case Info => ["none", "error", "warn"]
    case Verbose => ["none", "error", "warn", "info"]
    case Debug => ["none", "error", "warn", "info", "verbose"]
    case Silly => ["none", "error", "warn", "info", "verbose", "debug"]
  }

  /**
   * Whether a call at `call` is dropped under the configured level. The
   * exclusion lists amount to a threshold on the scale: `"none"` drops
   * everything, a level name drops exactly the more verbose calls, and any
   * other string (possible at run time, though not in the declared type)
   * drops nothing.
   */
  function Suppressed(configured: string, call: Level): (r: bool)
    ensures r <==> configured == "none" ||
                   (Parse(configured).Some? && Index(call) > Index(Parse(configured).value))
  {
    configured in Exclusions(call)
  }

  /** `error` and `warn` are written to the stderr sink, the rest to stdout. */
  predicate ToStderr(l: Level): (r: bool)
    ensures r <==> Index(l) <= Index(Warn)
  {
    l == Error || l == Warn
  }
}
