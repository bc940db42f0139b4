/**
 * `JSON.stringify` on a metadata object: `{"k1":"v1","k2":"v2"}`, properties
 * in insertion order, no whitespace. String escaping is not modelled: keys and
 * values are written between quotes as they are.
 */
module Json {
  import opened Metadata

  function Quote(s: string): string {
    "\"" + s + "\""
  }

  function Member(kv: (string, string)): string {
    Quote(kv.0) + ":" + Quote(kv.1)
  }

  /** The comma-separated members; a non-empty list starts with a quote. */
  function Members(m: Entries): (r: string)
    ensures m != [] ==> |r| > 0 && r[0] == '"'
  {
    if m == [] then ""
    else if |m| == 1 then Member(m[0])
    else Member(m[0]) + "," + Members(m[1..])
  }

  /** The serialised object is `{}` exactly when the object has no property. */
  function Stringify(m: Entries): (r: string)
    ensures |r| >= 2 && r[0] == '{' && r[|r| - 1] == '}'
    ensures r == "{}" <==> m == []
  {
    var body := Members(m);
    assert m != [] ==> ("{" + body + "}")[1] == body[0];
    "{" + body + "}"
  }
}
