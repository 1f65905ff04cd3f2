/**
 * The `serde_json::Value` tree that tool arguments, tool results and an
 * agent's key-value memory hold, and the one piece of JSON output the
 * core writes itself: a string array, as `json!(results).to_string()`
 * renders it for the parallel agent.
 */
module Json {
  import opened Text

  /** A JSON value; numbers are integers in this model. */
  datatype Value =
    | Null
    | Bool(b: bool)
    | Number(n: int)
    | Str(s: string)
    | Array(items: seq<Value>)
    | Object(fields: map<string, Value>)

  /** The characters serde_json writes with an escape inside a string literal. */
  predicate NeedsEscape(c: char)
  {
    c == '"' || c == '\\' || c as int < 0x20
  }

  function HexDigit(d: nat): char
    requires d < 16
  {
    "0123456789abcdef"[d]
  }

  /** serde_json's escape for one character: the short forms, else `\u00XX`. */
  function EscapeChar(c: char): (r: string)
    ensures !NeedsEscape(c) ==> r == [c]
    ensures NeedsEscape(c) ==> |r| >= 2 && r[0] == '\\'
  {
    if c == '"' then "\\\""
    else if c == '\\' then "\\\\"
    else if c == '\n' then "\\n"
    else if c == '\r' then "\\r"
    else if c == '\t' then "\\t"
    else if c as int == 8 then "\\b"
    else if c as int == 12 then "\\f"
    else if c as int < 0x20 then "\\u00" + [HexDigit(c as int / 16), HexDigit(c as int % 16)]
    else [c]
  }

  function EscapeBody(s: string): string
    decreases |s|
  {
    if s == [] then "" else EscapeChar(s[0]) + EscapeBody(s[1..])
  }

  /** A JSON string literal for `s`. */
  function Quote(s: string): string
  {
    "\"" + EscapeBody(s) + "\""
  }

  /** A string with nothing to escape is written between quotes unchanged. */
  lemma {:induction false} QuotePlain(s: string)
    requires forall i :: 0 <= i < |s| ==> !NeedsEscape(s[i])
    ensures Quote(s) == "\"" + s + "\""
  {
    EscapeBodyPlain(s);
  }

  lemma {:induction false} EscapeBodyPlain(s: string)
    requires forall i :: 0 <= i < |s| ==> !NeedsEscape(s[i])
    ensures EscapeBody(s) == s
    decreases |s|
  {
    if s != [] {
      EscapeBodyPlain(s[1..]);
      assert s == [s[0]] + s[1..];
    }
  }

  function QuoteAll(xs: seq<string>): (r: seq<string>)
    ensures |r| == |xs|
    ensures forall i :: 0 <= i < |xs| ==> r[i] == Quote(xs[i])
    decreases |xs|
  {
    if xs == [] then [] else [Quote(xs[0])] + QuoteAll(xs[1..])
  }

  /** The compact JSON text of an array of strings. */
  function EncodeStringArray(xs: seq<string>): string
  {
    "[" + Join(QuoteAll(xs), ",") + "]"
  }
}
