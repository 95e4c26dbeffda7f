/**
 * A reader for the JSON text grammar (RFC 8259, sections 2 to 7), used as the
 * independent partner of the serializer: reading back what JSON.stringify
 * wrote gives the value that was written, minified or pretty-printed.
 * Number texts are taken as the maximal run of number characters; checking
 * them against the number grammar belongs to number formatting, which is not
 * modelled.
 */
module JsonRead {
  import opened Wrappers
  import opened Json

  /** The four whitespace characters of RFC 8259, section 2. */
  predicate IsWs(c: char) {
    c == ' ' || c == '\t' || c == '\n' || c == '\r'
  }

  predicate AllSpaces(s: string) {
    forall i :: 0 <= i < |s| ==> s[i] == ' '
  }

  function SkipWs(t: string): (r: string)
    ensures |r| <= |t|
  {
    if t != [] && IsWs(t[0]) then SkipWs(t[1..]) else t
  }

  function HexValue(c: char): Option<nat> {
    if '0' <= c <= '9' then Some(c as int - '0' as int)
    else if 'a' <= c <= 'f' then Some(c as int - 'a' as int + 10)
    else if 'A' <= c <= 'F' then Some(c as int - 'A' as int + 10)
    else None
  }

  /** The value of four hexadecimal digits. */
  function ReadHex4(t: string): (r: Option<nat>)
    requires |t| >= 4
    ensures r.Some? ==> r.value < 0x1_0000
  {
    match (HexValue(t[0]), HexValue(t[1]), HexValue(t[2]), HexValue(t[3]))
    case (Some(a), Some(b), Some(c), Some(d)) =>
      if a < 16 && b < 16 && c < 16 && d < 16 then Some(((a * 16 + b) * 16 + c) * 16 + d) else None
    case _ => None
  }

  /** One escape sequence, `t` starting just after its backslash; gives the character and what follows. */
  function DecodeEscape(t: string): (r: Option<(char, string)>)
    ensures r.Some? ==> |r.value.1| < |t|
  {
    if t == [] then None
    else if t[0] == '"' || t[0] == '\\' || t[0] == '/' then Some((t[0], t[1..]))
    else if t[0] == 'b' then Some((8 as char, t[1..]))
    else if t[0] == 't' then Some((9 as char, t[1..]))
    else if t[0] == 'n' then Some((10 as char, t[1..]))
    else if t[0] == 'f' then Some((12 as char, t[1..]))
    else if t[0] == 'r' then Some((13 as char, t[1..]))
    else if t[0] == 'u' && |t| >= 5 then
      match ReadHex4(t[1..5])
      case Some(v) =>
        if v < 0xD800 || 0xE000 <= v then Some((v as char, t[5..])) else None
      case None => None
    else None
  }

  /** The body of a string after its opening quote; gives the decoded string and what follows the closing quote. */
  function ReadStringBody(t: string): (r: Option<(string, string)>)
    ensures r.Some? ==> |r.value.1| < |t|
    decreases |t|
  {
    if t == [] then None
    else if t[0] == '"' then Some(([], t[1..]))
    else if t[0] as int < 0x20 then None
    else if t[0] == '\\' then
      match DecodeEscape(t[1..])
      case None => None
      case Some((c, after)) =>
        match ReadStringBody(after)
        case None => None
        case Some((body, rest)) => Some(([c] + body, rest))
    else
      match ReadStringBody(t[1..])
      case None => None
      case Some((body, rest)) => Some(([t[0]] + body, rest))
  }

  /** The length of the longest prefix of `t` made of number characters. */
  function NumberRun(t: string): (n: nat)
    ensures n <= |t|
  {
    if t != [] && IsNumberChar(t[0]) then 1 + NumberRun(t[1..]) else 0
  }

  /** One value, after optional whitespace; gives the value and the text after it. */
  function ReadValue(t: string): (r: Option<(Json, string)>)
    ensures r.Some? ==> |r.value.1| < |t|
    decreases |t|, 1
  {
    var u := SkipWs(t);
    if u == [] then None
    else if u[0] == '"' then
      match ReadStringBody(u[1..])
      case None => None
      case Some((s, rest)) => Some((JString(s), rest))
    else if u[0] == '[' then ReadArray(u[1..])
    else if u[0] == '{' then ReadObject(u[1..])
    else if |u| >= 4 && u[..4] == "null" then Some((JNull, u[4..]))
    else if |u| >= 4 && u[..4] == "true" then Some((JBool(true), u[4..]))
    else if |u| >= 5 && u[..5] == "false" then Some((JBool(false), u[5..]))
    else if u[0] == '-' || '0' <= u[0] <= '9' then
      var n := NumberRun(u);
      Some((JNumber(u[..n]), u[n..]))
    else None
  }

  /** An array after its `[`. */
  function ReadArray(t: string): (r: Option<(Json, string)>)
    ensures r.Some? ==> |r.value.1| < |t|
    decreases |t|, 3
  {
    var u := SkipWs(t);
    if u != [] && u[0] == ']' then Some((JArray([]), u[1..]))
    else
      match ReadItems(u)
      case None => None
      case Some((items, rest)) => Some((JArray(items), rest))
  }

  /** The elements of a non-empty array and its closing `]`. */
  function ReadItems(t: string): (r: Option<(seq<Json>, string)>)
    ensures r.Some? ==> |r.value.1| < |t|
    decreases |t|, 2
  {
    match ReadValue(t)
    case None => None
    case Some((v, after)) => ReadItemsTail(v, after)
  }

  /** What follows element `v`: the closing `]`, or a comma and more elements. */
  function ReadItemsTail(v: Json, after: string): (r: Option<(seq<Json>, string)>)
    ensures r.Some? ==> |r.value.1| < |after|
    decreases |after|, 0
  {
    var w := SkipWs(after);
    if w == [] then None
    else if w[0] == ']' then Some(([v], w[1..]))
    else if w[0] == ',' then
      match ReadItems(w[1..])
      case None => None
      case Some((vs, rest)) => Some(([v] + vs, rest))
    else None
  }

  /** An object after its `{`. */
  function ReadObject(t: string): (r: Option<(Json, string)>)
    ensures r.Some? ==> |r.value.1| < |t|
    decreases |t|, 3
  {
    var u := SkipWs(t);
    if u != [] && u[0] == '}' then Some((JObject([]), u[1..]))
    else
      match ReadMembers(u)
      case None => None
      case Some((members, rest)) => Some((JObject(members), rest))
  }

  /** The members of a non-empty object and its closing `}`. */
  function ReadMembers(t: string): (r: Option<(seq<(string, Json)>, string)>)
    ensures r.Some? ==> |r.value.1| < |t|
    decreases |t|, 2
  {
    var u := SkipWs(t);
    if u == [] || u[0] != '"' then None
    else
      match ReadStringBody(u[1..])
      case None => None
      case Some((key, afterKey)) => ReadMemberValue(key, afterKey)
  }

  /** A member after its key: the colon, the value, and what follows. */
  function ReadMemberValue(key: string, t: string): (r: Option<(seq<(string, Json)>, string)>)
    ensures r.Some? ==> |r.value.1| < |t|
    decreases |t|, 1
  {
    var c := SkipWs(t);
    if c == [] || c[0] != ':' then None
    else
      match ReadValue(c[1..])
      case None => None
      case Some((v, after)) => ReadMembersTail(key, v, after)
  }

  /** What follows member `key: v`: the closing `}`, or a comma and more members. */
  function ReadMembersTail(key: string, v: Json, after: string): (r: Option<(seq<(string, Json)>, string)>)
    ensures r.Some? ==> |r.value.1| < |after|
    decreases |after|, 0
  {
    var w := SkipWs(after);
    if w == [] then None
    else if w[0] == '}' then Some(([(key, v)], w[1..]))
    else if w[0] == ',' then
      match ReadMembers(w[1..])
      case None => None
      case Some((ms, rest)) => Some(([(key, v)] + ms, rest))
    else None
  }

  /** A whole JSON text: one value with only whitespace around it. */
  function ReadJson(t: string): Option<Json> {
    match ReadValue(t)
    case Some((j, rest)) => if SkipWs(rest) == [] then Some(j) else None
    case None => None
  }
}
