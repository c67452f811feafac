/**
 * The JSON values parameters carry (`serde_json::Value`). Floating-point
 * numbers are kept as their integer part (rounded toward zero) and their
 * printed text; no floating-point arithmetic is modelled.
 */
module Json {
  import opened Wrappers
  import opened Strings

  const I64Min: int := -0x8000_0000_0000_0000
  const I64Max: int := 0x7fff_ffff_ffff_ffff
  const U64Max: int := 0xffff_ffff_ffff_ffff

  predicate InI64(i: int) {
    I64Min <= i <= I64Max
  }

  /** A JSON number: an integer (an `i64` or a `u64`) or a float. */
  datatype Number =
    | IntNumber(value: int)
    | FloatNumber(truncated: int, text: string)

  datatype JsonValue =
    | JNull
    | JBool(b: bool)
    | JNumber(n: Number)
    | JString(s: string)
    | JArray(items: seq<JsonValue>)
    | JObject(fields: map<string, JsonValue>)

  /** `Number::as_i64`: integers that fit in an `i64`. */
  function AsI64(n: Number): (r: Option<int>)
    ensures r.Some? <==> n.IntNumber? && InI64(n.value)
    ensures r.Some? ==> r.value == n.value
  {
    match n
    case IntNumber(v) => if InI64(v) then Some(v) else None
    case FloatNumber(_, _) => None
  }

  /** `format!("{}", number)`. */
  function NumberText(n: Number): string {
    match n
    case IntNumber(v) => IntToString(v)
    case FloatNumber(_, text) => text
  }

  /** `format!("{}", boolean)`. */
  function BoolText(b: bool): (s: string)
    ensures s == "true" || s == "false"
    ensures b <==> s == "true"
  {
    if b then "true" else "false"
  }

  /** Lower-case hexadecimal digit, as the JSON serializer writes `\u00XX`. */
  function HexDigit(d: nat): (c: char)
    requires d < 16
  {
    if d < 10 then ('0' as int + d) as char else ('a' as int + d - 10) as char
  }

  function HexValue(c: char): Option<nat> {
    if '0' <= c <= '9' then Some(c as int - '0' as int)
    else if 'a' <= c <= 'f' then Some(c as int - 'a' as int + 10)
    else if 'A' <= c <= 'F' then Some(c as int - 'A' as int + 10)
    else None
  }

  /** One character inside a JSON string literal, escaped as the serializer does. */
  function EscapeJsonChar(c: char): (r: string)
    ensures |r| >= 1
  {
    if c == '"' then "\\\""
    else if c == '\\' then "\\\\"
    else if c as int == 0x08 then "\\b"
    else if c as int == 0x0C then "\\f"
    else if c == '\n' then "\\n"
    else if c == '\r' then "\\r"
    else if c == '\t' then "\\t"
    else if (c as int) < 0x20 then "\\u00" + [HexDigit(c as int / 16), HexDigit(c as int % 16)]
    else [c]
  }

  function EscapeJson(s: string): string
    decreases |s|
  {
    if |s| == 0 then "" else EscapeJsonChar(s[0]) + EscapeJson(s[1..])
  }

  /** `serde_json::to_string` of a string: the escaped text in double quotes. */
  function JsonStringLiteral(s: string): (r: string)
    ensures |r| >= 2 && r[0] == '"' && r[|r| - 1] == '"'
  {
    "\"" + EscapeJson(s) + "\""
  }

  /** The character a two-character escape `\c` stands for. */
  function ShortEscape(c: char): Option<char> {
    if c == '"' then Some('"')
    else if c == '\\' then Some('\\')
    else if c == '/' then Some('/')
    else if c == 'b' then Some(0x08 as char)
    else if c == 'f' then Some(0x0C as char)
    else if c == 'n' then Some('\n')
    else if c == 'r' then Some('\r')
    else if c == 't' then Some('\t')
    else None
  }

  /** The code of a `\uXXXX` escape's four hex digits. */
  function Hex4(s: string): Option<nat>
    requires |s| == 4
  {
    match (HexValue(s[0]), HexValue(s[1]), HexValue(s[2]), HexValue(s[3]))
    case (Some(a), Some(b), Some(c), Some(d)) => Some(((a * 16 + b) * 16 + c) * 16 + d)
    case _ => None
  }

  /**
   * The text of a JSON string body; `None` on a bare quote, a control
   * character, or an escape outside the basic plane's non-surrogates.
   */
  function UnescapeJson(s: string): Option<string>
    decreases |s|
  {
    if |s| == 0 then Some("")
    else if s[0] == '"' || (s[0] as int) < 0x20 then None
    else if s[0] != '\\' then
      match UnescapeJson(s[1..])
      case None => None
      case Some(rest) => Some([s[0]] + rest)
    else if |s| >= 2 && ShortEscape(s[1]).Some? then
      match UnescapeJson(s[2..])
      case None => None
      case Some(rest) => Some([ShortEscape(s[1]).value] + rest)
    else if |s| >= 6 && s[1] == 'u' && Hex4(s[2..6]).Some? && (Hex4(s[2..6]).value < 0xD800 || 0xDFFF < Hex4(s[2..6]).value) then
      match UnescapeJson(s[6..])
      case None => None
      case Some(rest) => Some([Hex4(s[2..6]).value as char] + rest)
    else None
  }

  /** The JSON text of a string literal read back. */
  function ParseJsonStringLiteral(t: string): Option<string> {
    if |t| >= 2 && t[0] == '"' && t[|t| - 1] == '"' then UnescapeJson(t[1..|t| - 1]) else None
  }

  lemma EscapeCharUnescapes(c: char, rest: string, tail: string)
    requires UnescapeJson(rest) == Some(tail)
    ensures UnescapeJson(EscapeJsonChar(c) + rest) == Some([c] + tail)
  {
    var e := EscapeJsonChar(c) + rest;
    if (c as int) < 0x20 && c as int != 0x08 && c as int != 0x0C && c != '\n' && c != '\r' && c != '\t' {
      var code := c as int;
      assert e[2..6] == ['0', '0', HexDigit(code / 16), HexDigit(code % 16)];
      assert Hex4(e[2..6]) == Some(code);
      assert e[6..] == rest;
    } else if |EscapeJsonChar(c)| == 2 {
      assert e[2..] == rest;
    } else {
      assert e[1..] == rest;
    }
  }

  lemma {:induction false} UnescapeEscapeJson(s: string)
    ensures UnescapeJson(EscapeJson(s)) == Some(s)
    decreases |s|
  {
    if |s| > 0 {
      UnescapeEscapeJson(s[1..]);
      EscapeCharUnescapes(s[0], EscapeJson(s[1..]), s[1..]);
      assert s == [s[0]] + s[1..];
    }
  }

  /** A serialized string reads back as the original text. */
  lemma JsonStringRoundTrip(s: string)
    ensures ParseJsonStringLiteral(JsonStringLiteral(s)) == Some(s)
  {
    var t := JsonStringLiteral(s);
    assert t[1..|t| - 1] == EscapeJson(s);
    UnescapeEscapeJson(s);
  }
}
