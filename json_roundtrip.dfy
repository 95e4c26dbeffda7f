/**
 * Reading back what the serializer writes gives the value that was written:
 * the JSON renderer's output is a JSON text, and it round-trips, minified or
 * indented with any number of spaces.
 */
module JsonRoundTrip {
  import opened Wrappers
  import opened Json
  import opened JsonRead

  predicate AllWs(s: string) {
    forall i :: 0 <= i < |s| ==> IsWs(s[i])
  }

  lemma {:induction false} SkipWsPrefix(ws: string, x: string)
    requires AllWs(ws)
    ensures SkipWs(ws + x) == SkipWs(x)
  {
    if ws != [] {
      assert (ws + x)[1..] == ws[1..] + x;
      SkipWsPrefix(ws[1..], x);
    } else {
      assert ws + x == x;
    }
  }

  lemma {:induction false} SkipWsStop(x: string)
    requires x == [] || !IsWs(x[0])
    ensures SkipWs(x) == x
  {
  }

  lemma {:induction false} ReadValueWs(ws: string, x: string)
    requires AllWs(ws)
    ensures ReadValue(ws + x) == ReadValue(x)
  {
    SkipWsPrefix(ws, x);
  }

  lemma {:induction false} ReadItemsWs(ws: string, x: string)
    requires AllWs(ws)
    ensures ReadItems(ws + x) == ReadItems(x)
  {
    ReadValueWs(ws, x);
  }

  lemma {:induction false} ReadMembersWs(ws: string, x: string)
    requires AllWs(ws)
    ensures ReadMembers(ws + x) == ReadMembers(x)
  {
    SkipWsPrefix(ws, x);
  }

  lemma {:induction false} HexDigitValue(k: nat)
    requires k < 16
    ensures HexValue(HexDigits[k]) == Some(k)
  {
    if k < 10 {
      assert HexDigits[k] as int == '0' as int + k;
    } else {
      assert HexDigits[k] as int == 'a' as int + (k - 10);
    }
  }

  /** A backslash followed by an escape that decodes to `c` reads as `c`, then the rest of the body. */
  lemma {:induction false} ReadBackslash(x: string, c: char, tail: string)
    requires DecodeEscape(x) == Some((c, tail))
    requires ReadStringBody(tail).Some?
    ensures ReadStringBody(['\\'] + x) ==
      Some(([c] + ReadStringBody(tail).value.0, ReadStringBody(tail).value.1))
  {
    assert (['\\'] + x)[1..] == x;
  }

  /** A character written as itself reads as itself. */
  lemma {:induction false} ReadPlain(c: char, tail: string)
    requires c != '"' && c != '\\' && c as int >= 0x20
    requires ReadStringBody(tail).Some?
    ensures ReadStringBody([c] + tail) ==
      Some(([c] + ReadStringBody(tail).value.0, ReadStringBody(tail).value.1))
  {
    assert ([c] + tail)[1..] == tail;
  }

  /** The `\u00XX` form of a control character decodes to it. */
  lemma {:induction false} DecodeControl(c: char, tail: string)
    requires c as int < 0x20
    ensures DecodeEscape("u00" + [HexDigits[c as int / 16], HexDigits[c as int % 16]] + tail) == Some((c, tail))
  {
    var n := c as int;
    var h := [HexDigits[n / 16], HexDigits[n % 16]];
    var x := "u00" + h + tail;
    assert x[1..5] == "00" + h;
    HexDigitValue(0);
    HexDigitValue(n / 16);
    HexDigitValue(n % 16);
    assert ReadHex4(x[1..5]) == Some(n);
    assert x[5..] == tail;
  }

  /** Each character's escape reads back as that character. */
  lemma {:induction false} ReadEscapedChar(c: char, tail: string)
    requires ReadStringBody(tail).Some?
    ensures ReadStringBody(EscapeJsonChar(c) + tail) ==
      Some(([c] + ReadStringBody(tail).value.0, ReadStringBody(tail).value.1))
  {
    var n := c as int;
    var e := EscapeJsonChar(c);
    if c == '"' || c == '\\' || n == 0x08 || n == 0x09 || n == 0x0A || n == 0x0C || n == 0x0D {
      assert e + tail == ['\\'] + ([e[1]] + tail);
      assert DecodeEscape([e[1]] + tail) == Some((c, tail));
      ReadBackslash([e[1]] + tail, c, tail);
    } else if n < 0x20 {
      var x := "u00" + [HexDigits[n / 16], HexDigits[n % 16]] + tail;
      assert e + tail == ['\\'] + x;
      DecodeControl(c, tail);
      ReadBackslash(x, c, tail);
    } else {
      ReadPlain(c, tail);
    }
  }

  /** A quoted string reads back as the string, and reading stops at its closing quote. */
  lemma {:induction false} ReadQuoteBody(s: string, rest: string)
    ensures ReadStringBody(QuoteBody(s) + "\"" + rest) == Some((s, rest))
  {
    if s == [] {
      assert QuoteBody(s) + "\"" + rest == "\"" + rest;
    } else {
      var tail := QuoteBody(s[1..]) + "\"" + rest;
      ReadQuoteBody(s[1..], rest);
      assert QuoteBody(s) + "\"" + rest == EscapeJsonChar(s[0]) + tail by {
        assert QuoteBody(s) == EscapeJsonChar(s[0]) + QuoteBody(s[1..]);
      }
      ReadEscapedChar(s[0], tail);
      assert [s[0]] + s[1..] == s;
    }
  }

  lemma {:induction false} NumberRunText(repr: string, rest: string)
    requires forall i :: 0 <= i < |repr| ==> IsNumberChar(repr[i])
    requires rest == [] || !IsNumberChar(rest[0])
    ensures NumberRun(repr + rest) == |repr|
  {
    if repr != [] {
      assert (repr + rest)[1..] == repr[1..] + rest;
      NumberRunText(repr[1..], rest);
    } else {
      assert repr + rest == rest;
    }
  }

  /** A serialized value starts with a character that is neither whitespace nor a closing bracket. */
  lemma {:induction false} SerializeFirst(j: Json, gap: string, indent: string)
    requires WellFormed(j)
    ensures var s := Serialize(j, gap, indent);
            |s| > 0 && !IsWs(s[0]) && s[0] != ']' && s[0] != '}' &&
            (j.JString? ==> s[0] == '"')
  {
  }

  lemma {:induction false} AllSpacesWs(s: string)
    requires AllSpaces(s)
    ensures AllWs(s)
  {
  }

  /** Serializing and reading back gives the value, and the reader stops exactly where the value ends. */
  lemma {:induction false} RoundTripValue(j: Json, gap: string, indent: string, rest: string)
    requires WellFormed(j) && AllSpaces(gap) && AllSpaces(indent)
    requires rest == [] || !IsNumberChar(rest[0])
    ensures ReadValue(Serialize(j, gap, indent) + rest) == Some((j, rest))
    decreases j, 2
  {
    match j
    case JArray(items) => RoundTripArray(items, gap, indent, rest);
    case JObject(members) => RoundTripObject(members, gap, indent, rest);
    case JNull => RoundTripWord("null", JNull, rest);
    case JBool(b) => RoundTripWord(if b then "true" else "false", j, rest);
    case JNumber(repr) => RoundTripNumber(repr, rest);
    case JString(s) => RoundTripString(s, rest);
  }

  lemma {:induction false} RoundTripWord(word: string, j: Json, rest: string)
    requires (word == "null" && j == JNull) || (word == "true" && j == JBool(true)) || (word == "false" && j == JBool(false))
    ensures ReadValue(word + rest) == Some((j, rest))
  {
    var text := word + rest;
    SkipWsStop(text);
    assert text[..|word|] == word && text[|word|..] == rest;
  }

  lemma {:induction false} RoundTripNumber(repr: string, rest: string)
    requires IsNumberText(repr)
    requires rest == [] || !IsNumberChar(rest[0])
    ensures ReadValue(repr + rest) == Some((JNumber(repr), rest))
  {
    var text := repr + rest;
    SkipWsStop(text);
    NumberRunText(repr, rest);
    assert text[0] == repr[0];
    assert !(|text| >= 4 && (text[..4] == "null" || text[..4] == "true")) by {
      if |text| >= 4 { assert text[..4][0] == text[0]; }
    }
    assert !(|text| >= 5 && text[..5] == "false") by {
      if |text| >= 5 { assert text[..5][0] == text[0]; }
    }
    assert text[..|repr|] == repr && text[|repr|..] == rest;
  }

  lemma {:induction false} RoundTripString(s: string, rest: string)
    ensures ReadValue(Quote(s) + rest) == Some((JString(s), rest))
  {
    var text := Quote(s) + rest;
    SkipWsStop(text);
    assert text[1..] == QuoteBody(s) + "\"" + rest;
    ReadQuoteBody(s, rest);
  }

  /** What follows an opening bracket: whitespace when pretty, then the first element or member. */
  lemma {:induction false} SkipOpen(bracket: char, gap: string, inner: string, body: string)
    requires AllSpaces(inner)
    requires body != [] && !IsWs(body[0])
    ensures (Open(bracket, gap, inner) + body)[0] == bracket
    ensures SkipWs((Open(bracket, gap, inner) + body)[1..]) == body
  {
    var ws := if gap == "" then "" else "\n" + inner;
    assert Open(bracket, gap, inner) + body == [bracket] + (ws + body);
    assert AllWs(ws);
    SkipWsPrefix(ws, body);
  }

  lemma {:induction false} RoundTripArray(items: seq<Json>, gap: string, indent: string, rest: string)
    requires forall i :: 0 <= i < |items| ==> WellFormed(items[i])
    requires AllSpaces(gap) && AllSpaces(indent)
    ensures ReadValue(Serialize(JArray(items), gap, indent) + rest) == Some((JArray(items), rest))
    decreases items, 2
  {
    if items == [] {
      EmptyRoundTrip('[', ']', JArray(items), rest);
    } else {
      var inner := indent + gap;
      var es := SerializeItems(items, gap, inner);
      var close := Close(']', gap, indent);
      var body := es + close + rest;
      Regroup2(es, close, rest);
      assert Serialize(JArray(items), gap, indent) == Open('[', gap, inner) + es + close;
      Regroup3(Open('[', gap, inner), es, close, rest);
      ItemsFirst(items, gap, inner);
      SkipOpen('[', gap, inner, body);
      var text := Open('[', gap, inner) + body;
      SkipWsStop(text);
      assert ReadValue(text) == ReadArray(text[1..]);
      RoundTripItems(items, gap, indent, rest);
      assert ReadItems(body) == Some((items, rest));
    }
  }

  lemma {:induction false} RoundTripObject(members: seq<(string, Json)>, gap: string, indent: string, rest: string)
    requires forall i :: 0 <= i < |members| ==> WellFormed(members[i].1)
    requires AllSpaces(gap) && AllSpaces(indent)
    ensures ReadValue(Serialize(JObject(members), gap, indent) + rest) == Some((JObject(members), rest))
    decreases members, 2
  {
    if members == [] {
      EmptyRoundTrip('{', '}', JObject(members), rest);
    } else {
      var inner := indent + gap;
      var ms := SerializeMembers(members, gap, inner);
      var close := Close('}', gap, indent);
      var body := ms + close + rest;
      Regroup2(ms, close, rest);
      assert Serialize(JObject(members), gap, indent) == Open('{', gap, inner) + ms + close;
      Regroup3(Open('{', gap, inner), ms, close, rest);
      MembersFirst(members, gap, inner);
      SkipOpen('{', gap, inner, body);
      var text := Open('{', gap, inner) + body;
      SkipWsStop(text);
      assert ReadValue(text) == ReadObject(text[1..]);
      RoundTripMembers(members, gap, indent, rest);
      assert ReadMembers(body) == Some((members, rest));
    }
  }

  /** `[]` and `{}` read back as the empty array and object. */
  lemma {:induction false} EmptyRoundTrip(open: char, close: char, j: Json, rest: string)
    requires (open == '[' && close == ']' && j == JArray([])) || (open == '{' && close == '}' && j == JObject([]))
    ensures ReadValue([open, close] + rest) == Some((j, rest))
  {
    var text := [open, close] + rest;
    SkipWsStop(text);
    assert text[1..] == [close] + rest;
    SkipWsStop(text[1..]);
    assert text[1..][1..] == rest;
  }

  lemma {:induction false} ItemsFirst(items: seq<Json>, gap: string, inner: string)
    requires items != [] && WellFormed(items[0])
    ensures var s := SerializeItems(items, gap, inner); |s| > 0 && !IsWs(s[0]) && s[0] != ']'
  {
    SerializeFirst(items[0], gap, inner);
  }

  lemma {:induction false} MembersFirst(members: seq<(string, Json)>, gap: string, inner: string)
    requires members != []
    ensures var s := SerializeMembers(members, gap, inner); |s| > 0 && s[0] == '"'
  {
  }

  /** After the last element or member, whitespace and then the closing bracket. */
  lemma {:induction false} SkipToClose(bracket: char, gap: string, indent: string, rest: string)
    requires AllSpaces(indent) && !IsWs(bracket)
    ensures SkipWs(Close(bracket, gap, indent) + rest) == [bracket] + rest
  {
    if gap != "" {
      assert Close(bracket, gap, indent) + rest == ("\n" + indent) + ([bracket] + rest);
      assert AllWs("\n" + indent);
      SkipWsPrefix("\n" + indent, [bracket] + rest);
    }
  }

  /** A separator: a comma, then whitespace when pretty. */
  lemma {:induction false} SkipSeparator(gap: string, inner: string, later: string)
    requires AllSpaces(inner)
    ensures var t := Separator(gap, inner) + later;
            SkipWs(t) == t && t[0] == ',' &&
            exists ws :: AllWs(ws) && t[1..] == ws + later
  {
    var ws := if gap == "" then "" else "\n" + inner;
    assert Separator(gap, inner) + later == [','] + (ws + later);
    assert AllWs(ws);
  }

  lemma {:induction false} ItemsTailClose(v: Json, gap: string, indent: string, rest: string)
    requires AllSpaces(indent)
    ensures ReadItemsTail(v, Close(']', gap, indent) + rest) == Some(([v], rest))
  {
    SkipToClose(']', gap, indent, rest);
    assert ([']'] + rest)[1..] == rest;
  }

  lemma {:induction false} ItemsTailMore(v: Json, gap: string, inner: string, later: string)
    requires AllSpaces(inner)
    ensures ReadItemsTail(v, Separator(gap, inner) + later) ==
      match ReadItems(later)
      case None => None
      case Some((vs, rest)) => Some(([v] + vs, rest))
  {
    SkipSeparator(gap, inner, later);
    var t := Separator(gap, inner) + later;
    var ws :| AllWs(ws) && t[1..] == ws + later;
    ReadItemsWs(ws, later);
  }

  lemma {:induction false} RoundTripItems(items: seq<Json>, gap: string, indent: string, rest: string)
    requires items != []
    requires forall i :: 0 <= i < |items| ==> WellFormed(items[i])
    requires AllSpaces(gap) && AllSpaces(indent)
    ensures ReadItems(SerializeItems(items, gap, indent + gap) + Close(']', gap, indent) + rest) == Some((items, rest))
    decreases items, 1
  {
    if |items| == 1 {
      var inner := indent + gap;
      var close := Close(']', gap, indent);
      var head := Serialize(items[0], gap, inner);
      assert SerializeItems(items, gap, inner) == head;
      Regroup2(head, close, rest);
      RoundTripValue(items[0], gap, inner, close + rest);
      ItemsTailClose(items[0], gap, indent, rest);
      assert [items[0]] == items;
    } else {
      RoundTripItemsCons(items, gap, indent, rest);
    }
  }

  lemma {:induction false} RoundTripItemsCons(items: seq<Json>, gap: string, indent: string, rest: string)
    requires |items| > 1
    requires forall i :: 0 <= i < |items| ==> WellFormed(items[i])
    requires AllSpaces(gap) && AllSpaces(indent)
    ensures ReadItems(SerializeItems(items, gap, indent + gap) + Close(']', gap, indent) + rest) == Some((items, rest))
    decreases items, 0
  {
    var inner := indent + gap;
    var close := Close(']', gap, indent);
    var head := Serialize(items[0], gap, inner);
    var others := SerializeItems(items[1..], gap, inner);
    var later := others + close + rest;
    var tail := Separator(gap, inner) + later;
    assert SerializeItems(items, gap, inner) + close + rest == head + tail by {
      assert SerializeItems(items, gap, inner) == head + (Separator(gap, inner) + others);
      Regroup(head, Separator(gap, inner), others, close, rest);
    }
    assert ReadItems(head + tail) == ReadItemsTail(items[0], tail) by {
      assert tail[0] == ',';
      assert AllSpaces(inner);
      assert WellFormed(items[0]);
      RoundTripValue(items[0], gap, inner, tail);
    }
    assert ReadItemsTail(items[0], tail) == Some(([items[0]] + items[1..], rest)) by {
      RoundTripItems(items[1..], gap, indent, rest);
      ItemsTailMore(items[0], gap, inner, later);
    }
    assert [items[0]] + items[1..] == items;
  }

  lemma {:induction false} MembersTailClose(key: string, v: Json, gap: string, indent: string, rest: string)
    requires AllSpaces(indent)
    ensures ReadMembersTail(key, v, Close('}', gap, indent) + rest) == Some(([(key, v)], rest))
  {
    SkipToClose('}', gap, indent, rest);
    assert (['}'] + rest)[1..] == rest;
  }

  lemma {:induction false} MembersTailMore(key: string, v: Json, gap: string, inner: string, later: string)
    requires AllSpaces(inner)
    ensures ReadMembersTail(key, v, Separator(gap, inner) + later) ==
      match ReadMembers(later)
      case None => None
      case Some((ms, rest)) => Some(([(key, v)] + ms, rest))
  {
    SkipSeparator(gap, inner, later);
    var t := Separator(gap, inner) + later;
    var ws :| AllWs(ws) && t[1..] == ws + later;
    ReadMembersWs(ws, later);
  }

  // Proof steps only: the regroupings of concatenations the reader's lemmas
  // need, kept out of line so that the lemmas using them stay cheap.

  lemma {:induction false} Regroup2(a: string, b: string, c: string)
    ensures a + b + c == a + (b + c)
  {
  }

  lemma {:induction false} Regroup3(a: string, b: string, c: string, d: string)
    ensures a + b + c + d == a + (b + (c + d))
  {
  }

  lemma {:induction false} Regroup(h: string, s: string, m: string, c: string, r: string)
    ensures (h + (s + m)) + c + r == h + (s + (m + c + r))
  {
  }

  /** A list of several members is the first member, a separator, and the others. */
  lemma {:induction false} MembersUnfold(members: seq<(string, Json)>, gap: string, inner: string)
    requires |members| > 1
    ensures SerializeMembers(members, gap, inner) ==
      (Quote(members[0].0) + Colon(gap) + Serialize(members[0].1, gap, inner)) +
      (Separator(gap, inner) + SerializeMembers(members[1..], gap, inner))
  {
  }

  /** A member starts with its quoted key. */
  lemma {:induction false} ReadMemberKey(key: string, x: string)
    ensures ReadMembers(Quote(key) + x) == ReadMemberValue(key, x)
  {
    var text := Quote(key) + x;
    assert text == "\"" + (QuoteBody(key) + "\"" + x);
    SkipWsStop(text);
    ReadQuoteBody(key, x);
  }

  /** After the key, the colon (and a space when pretty), then the value. */
  lemma {:induction false} ReadMemberColon(key: string, gap: string, y: string)
    ensures ReadMemberValue(key, Colon(gap) + y) ==
      match ReadValue(y)
      case None => None
      case Some((v, after)) => ReadMembersTail(key, v, after)
  {
    var sp := if gap == "" then "" else " ";
    SkipWsStop(Colon(gap) + y);
    assert (Colon(gap) + y)[1..] == sp + y;
    assert AllWs(sp);
    ReadValueWs(sp, y);
  }

  /** Reading one member: the quoted key, the colon, then the value and what follows it. */
  lemma {:induction false} ReadMemberHead(key: string, v: Json, gap: string, inner: string, tail: string)
    requires AllSpaces(gap) && AllSpaces(inner) && WellFormed(v)
    requires tail == [] || !IsNumberChar(tail[0])
    ensures ReadMembers(Quote(key) + Colon(gap) + Serialize(v, gap, inner) + tail) == ReadMembersTail(key, v, tail)
    decreases v, 3
  {
    var y := Serialize(v, gap, inner) + tail;
    Regroup3(Quote(key), Colon(gap), Serialize(v, gap, inner), tail);
    ReadMemberKey(key, Colon(gap) + y);
    RoundTripValue(v, gap, inner, tail);
    ReadMemberColon(key, gap, y);
  }

  lemma {:induction false} RoundTripMembers(members: seq<(string, Json)>, gap: string, indent: string, rest: string)
    requires members != []
    requires forall i :: 0 <= i < |members| ==> WellFormed(members[i].1)
    requires AllSpaces(gap) && AllSpaces(indent)
    ensures ReadMembers(SerializeMembers(members, gap, indent + gap) + Close('}', gap, indent) + rest) == Some((members, rest))
    decreases members, 1
  {
    if |members| == 1 {
      var inner := indent + gap;
      var close := Close('}', gap, indent);
      var key := members[0].0;
      var v := members[0].1;
      assert v < members[0];
      var head := Quote(key) + Colon(gap) + Serialize(v, gap, inner);
      assert SerializeMembers(members, gap, inner) == head;
      Regroup2(head, close, rest);
      ReadMemberHead(key, v, gap, inner, close + rest);
      MembersTailClose(key, v, gap, indent, rest);
      assert [(key, v)] == members;
    } else {
      RoundTripMembersCons(members, gap, indent, rest);
    }
  }

  lemma {:induction false} RoundTripMembersCons(members: seq<(string, Json)>, gap: string, indent: string, rest: string)
    requires |members| > 1
    requires forall i :: 0 <= i < |members| ==> WellFormed(members[i].1)
    requires AllSpaces(gap) && AllSpaces(indent)
    ensures ReadMembers(SerializeMembers(members, gap, indent + gap) + Close('}', gap, indent) + rest) == Some((members, rest))
    decreases members, 0
  {
    var inner := indent + gap;
    var close := Close('}', gap, indent);
    var key := members[0].0;
    var v := members[0].1;
    assert v < members[0];
    var head := Quote(key) + Colon(gap) + Serialize(v, gap, inner);
    var others := SerializeMembers(members[1..], gap, inner);
    var later := others + close + rest;
    var tail := Separator(gap, inner) + later;
    assert SerializeMembers(members, gap, inner) + close + rest == head + tail by {
      MembersUnfold(members, gap, inner);
      Regroup(head, Separator(gap, inner), others, close, rest);
    }
    assert ReadMembers(head + tail) == ReadMembersTail(key, v, tail) by {
      ReadMemberHead(key, v, gap, inner, tail);
    }
    assert ReadMembersTail(key, v, tail) == Some(([(key, v)] + members[1..], rest)) by {
      RoundTripMembers(members[1..], gap, indent, rest);
      MembersTailMore(key, v, gap, inner, later);
    }
    assert [(key, v)] + members[1..] == members;
  }

  /** JSON.stringify's output, for any `space`, is a JSON text that reads back as the value stringified. */
  lemma {:induction false} StringifyReadsBack(j: Json, space: int)
    requires WellFormed(j)
    ensures ReadJson(Stringify(j, space)) == Some(j)
  {
    RoundTripValue(j, Gap(space), "", "");
    assert Stringify(j, space) + "" == Stringify(j, space);
  }
}
