/**
 * JSON values and `JSON.stringify(value, null, space)` as the renderer uses
 * it. String escaping follows QuoteJSONString, which produces the string
 * grammar of section 7 of RFC 8259. Numbers are kept as the text the parser
 * produced for them (`JNumber(repr)`): number formatting is not modelled.
 */
module Json {

  /** A JSON value; a `JObject` keeps its members in the order they are listed and serialized. */
  datatype Json =
    | JNull
    | JBool(b: bool)
    | JNumber(repr: string)
    | JString(s: string)
    | JArray(items: seq<Json>)
    | JObject(members: seq<(string, Json)>)

  const HexDigits: string := "0123456789abcdef"

  /** Characters that may appear in the text of a number. */
  predicate IsNumberChar(c: char) {
    ('0' <= c <= '9') || c == '-' || c == '+' || c == '.' || c == 'e' || c == 'E'
  }

  /** The number texts the serializer can write back unchanged: a sign or digit first, then number characters. */
  predicate IsNumberText(repr: string) {
    |repr| > 0 && (repr[0] == '-' || '0' <= repr[0] <= '9') &&
    forall i :: 0 <= i < |repr| ==> IsNumberChar(repr[i])
  }

  /** Every number in `j` has a number text. */
  predicate WellFormed(j: Json)
    decreases j
  {
    match j
    case JNumber(repr) => IsNumberText(repr)
    case JArray(items) => forall i :: 0 <= i < |items| ==> WellFormed(items[i])
    case JObject(members) =>
      forall i :: 0 <= i < |members| ==> (assert members[i].1 < members[i]; WellFormed(members[i].1))
    case _ => true
  }

  /** QuoteJSONString's escape for one character. */
  function EscapeJsonChar(c: char): (r: string)
    ensures |r| > 0
  {
    if c == '"' then "\\\""
    else if c == '\\' then "\\\\"
    else if c as int == 0x08 then "\\b"
    else if c as int == 0x09 then "\\t"
    else if c as int == 0x0A then "\\n"
    else if c as int == 0x0C then "\\f"
    else if c as int == 0x0D then "\\r"
    else if c as int < 0x20 then "\\u00" + [HexDigits[c as int / 16], HexDigits[c as int % 16]]
    else [c]
  }

  /** The body of a quoted JSON string, without the surrounding quotes. */
  function QuoteBody(s: string): string {
    if s == [] then [] else EscapeJsonChar(s[0]) + QuoteBody(s[1..])
  }

  /** Quoting works character by character. */
  lemma {:induction false} QuoteBodyAppend(a: string, b: string)
    ensures QuoteBody(a + b) == QuoteBody(a) + QuoteBody(b)
  {
    if a == [] {
      assert a + b == b;
    } else {
      assert (a + b)[1..] == a[1..] + b;
      QuoteBodyAppend(a[1..], b);
    }
  }

  /** A character QuoteJSONString copies unchanged. */
  predicate IsPlainChar(c: char) {
    c as int >= 0x20 && c != '"' && c != '\\'
  }

  /** A string of plain characters is its own quoted body. */
  lemma {:induction false} QuoteBodyPlain(s: string)
    requires forall i :: 0 <= i < |s| ==> IsPlainChar(s[i])
    ensures QuoteBody(s) == s
  {
    if s != [] {
      QuoteBodyPlain(s[1..]);
      assert [s[0]] + s[1..] == s;
    }
  }

  /** QuoteJSONString escapes a double quote as backslash-quote, like the script escaper. */
  lemma {:induction false} QuoteBodyQuoted(s: string)
    requires forall i :: 0 <= i < |s| ==> IsPlainChar(s[i])
    ensures QuoteBody("\"" + s + "\"") == "\\\"" + s + "\\\""
  {
    var q := "\"";
    assert QuoteBody(q) == "\\\"";
    QuoteBodyAppend(q + s, q);
    QuoteBodyAppend(q, s);
    QuoteBodyPlain(s);
  }

  /** QuoteJSONString. */
  function Quote(s: string): string {
    "\"" + QuoteBody(s) + "\""
  }

  /** The gap JSON.stringify derives from a numeric `space`: min(10, space) spaces, or none below 1. */
  function Gap(space: int): (g: string)
    ensures |g| <= 10
    ensures space >= 1 ==> |g| == if space < 10 then space else 10
    ensures forall i :: 0 <= i < |g| ==> g[i] == ' '
  {
    if space < 1 then "" else Spaces(if space < 10 then space else 10)
  }

  function Spaces(n: nat): (r: string)
    ensures |r| == n
    ensures forall i :: 0 <= i < n ==> r[i] == ' '
  {
    if n == 0 then "" else " " + Spaces(n - 1)
  }

  /** What opens a non-empty array or object: the bracket, then a newline and the inner indent when pretty. */
  function Open(bracket: char, gap: string, inner: string): string {
    if gap == "" then [bracket] else [bracket] + "\n" + inner
  }

  /** What closes a non-empty array or object. */
  function Close(bracket: char, gap: string, indent: string): string {
    if gap == "" then [bracket] else "\n" + indent + [bracket]
  }

  /** What separates two elements or members. */
  function Separator(gap: string, inner: string): string {
    if gap == "" then "," else ",\n" + inner
  }

  /**
   * SerializeJSONProperty for the values the renderer produces (no replacer,
   * no toJSON, no undefined): `indent` is the current indentation, `gap` the
   * step added per level.
   */
  function Serialize(j: Json, gap: string, indent: string): string
    decreases j
  {
    match j
    case JNull => "null"
    case JBool(b) => if b then "true" else "false"
    case JNumber(repr) => repr
    case JString(s) => Quote(s)
    case JArray(items) =>
      if items == [] then "[]"
      else Open('[', gap, indent + gap) + SerializeItems(items, gap, indent + gap) + Close(']', gap, indent)
    case JObject(members) =>
      if members == [] then "{}"
      else Open('{', gap, indent + gap) + SerializeMembers(members, gap, indent + gap) + Close('}', gap, indent)
  }

  function SerializeItems(items: seq<Json>, gap: string, inner: string): string
    requires items != []
    decreases items
  {
    Serialize(items[0], gap, inner) +
    if |items| == 1 then "" else Separator(gap, inner) + SerializeItems(items[1..], gap, inner)
  }

  /** What separates a member's key from its value: a colon, and a space when pretty. */
  function Colon(gap: string): string {
    if gap == "" then ":" else ": "
  }

  function SerializeMembers(members: seq<(string, Json)>, gap: string, inner: string): string
    requires members != []
    decreases members
  {
    assert members[0].1 < members[0];
    Quote(members[0].0) + Colon(gap) + Serialize(members[0].1, gap, inner) +
    if |members| == 1 then "" else Separator(gap, inner) + SerializeMembers(members[1..], gap, inner)
  }

  /** JSON.stringify(value, null, space). */
  function Stringify(j: Json, space: int): string {
    Serialize(j, Gap(space), "")
  }
}
