/**
 * Expected outputs from the repository's test suite (test/main.js:64-133),
 * derived from the model. The fixture `replace.properties` holds the keys
 * `"key"` and `"new.key"` with the values `"value"` and `"new.key.value"`,
 * double quotes included. Expected texts are written as concatenations of
 * the pieces the renderers put together.
 */
module Fixtures {
  import opened Wrappers
  import opened Json
  import opened Escaping
  import opened Splitting
  import opened ScriptOutput
  import opened JsonOutput
  import opened PropertyTree

  /** `s` between double quotes. */
  function Quoted(s: string): string {
    "\"" + s + "\""
  }

  /** `s` between backslash-escaped double quotes. */
  function EscQuoted(s: string): string {
    "\\\"" + s + "\\\""
  }

  /** Nothing in `s` is escaped by either escaper. */
  predicate Plain(s: string) {
    forall i :: 0 <= i < |s| ==> IsPlainChar(s[i])
  }

  /** The parsed contents of replace.properties. */
  const Replace: seq<(string, string)> :=
    [(Quoted("key"), Quoted("value")), (Quoted("new.key"), Quoted("new.key.value"))]

  lemma {:induction false} EscapeQuoted(s: string)
    requires Plain(s)
    ensures Escape(Quoted(s)) == EscQuoted(s)
  {
    EscapeQuotedPlain(s);
  }

  /** Without complexTypes, a quoted value is written as StringText describes. */
  lemma {:induction false} QuotedValueText(v: string, parse: string -> Option<Json>)
    requires Plain(v)
    ensures StoredValue(parse, false, Quoted(v)) == JString(StringText(v))
    ensures TemplateText(StoredValue(parse, false, Quoted(v))) == StringText(v)
  {
    EscapeQuoted(v);
  }

  lemma {:induction false} QuoteQuoted(s: string)
    requires Plain(s)
    ensures Quote(Quoted(s)) == "\"" + EscQuoted(s) + "\""
  {
    QuoteBodyQuoted(s);
  }

  /** A flat, minified statement for a quoted key and a quoted value that are not parsed. */
  lemma {:induction false} FlatStatement(k: string, v: string, parse: string -> Option<Json>)
    requires Plain(k) && Plain(v)
    ensures SimpleStatement("props", true, false, parse, (Quoted(k), Quoted(v)))
      == "props[\"" + EscQuoted(k) + "\"]=\"" + EscQuoted(v) + "\";"
  {
    EscapeQuoted(k);
    EscapeQuoted(v);
  }

  /** The minified flat statement FlatStatement describes. */
  function FlatText(k: string, v: string): string {
    "props[\"" + EscQuoted(k) + "\"]=\"" + EscQuoted(v) + "\";"
  }

  /** Minified flat script output of two quoted properties. */
  lemma {:induction false} FlatScriptPair(k1: string, v1: string, k2: string, v2: string, parse: string -> Option<Json>)
    requires Plain(k1) && Plain(v1) && Plain(k2) && Plain(v2)
    ensures JsText([(Quoted(k1), Quoted(v1)), (Quoted(k2), Quoted(v2))], "", true, false, false, ".", parse)
      == Ok("var props=props||{};" + FlatText(k1, v1) + FlatText(k2, v2))
  {
    var props := [(Quoted(k1), Quoted(v1)), (Quoted(k2), Quoted(v2))];
    var s1, s2 := FlatText(k1, v1), FlatText(k2, v2);
    FlatStatement(k1, v1, parse);
    FlatStatement(k2, v2, parse);
    var h := Header("props", true);
    assert h == "var props=props||{};";
    assert SimpleLines(props, "props", true, false, parse) == [s1, s2];
    assert [h] + [s1, s2] == [h, s1, s2];
    JoinNone3(h, s1, s2);
    assert JsText(props, "", true, false, false, ".", parse) == Ok(Joined([h] + [s1, s2], true));
  }

  /** Joining three lines with nothing in between concatenates them. */
  lemma {:induction false} JoinNone3(a: string, b: string, c: string)
    ensures Join([a, b, c], "") == a + b + c
  {
    assert [a, b, c][1..] == [b, c] && [b, c][1..] == [c];
    assert Join([c], "") == c;
    assert Join([b, c], "") == b + "" + c;
    assert b + "" + c == b + c;
    assert Join([a, b, c], "") == a + "" + (b + c);
    assert a + "" + (b + c) == a + b + c;
  }

  /** The four strings of replace.properties, unquoted, have nothing to escape. */
  lemma {:induction false} ReplacePlain()
    ensures Plain("key") && Plain("value") && Plain("new.key") && Plain("new.key.value")
  {
  }

  /** test/main.js:64: minified flat script output of replace.properties. */
  lemma {:induction false} ReplaceFlatScript(parse: string -> Option<Json>)
    ensures JsText(Replace, "", true, false, false, ".", parse)
      == Ok("var props=props||{};" + FlatText("key", "value") + FlatText("new.key", "new.key.value"))
  {
    ReplacePlain();
    FlatScriptPair("key", "value", "new.key", "new.key.value", parse);
  }

  /** A minified JSON member with a quoted key and a quoted string value. */
  function MemberText(k: string, v: string): string {
    "\"" + EscQuoted(k) + "\":\"" + EscQuoted(v) + "\""
  }

  lemma {:induction false} MemberQuoted(k: string, v: string)
    requires Plain(k) && Plain(v)
    ensures Quote(Quoted(k)) + Colon("") + Serialize(JString(Quoted(v)), "", "") == MemberText(k, v)
  {
    QuoteQuoted(k);
    QuoteQuoted(v);
  }

  /** Minified flat JSON output of two quoted properties. */
  lemma {:induction false} FlatJsonPair(k1: string, v1: string, k2: string, v2: string, parse: string -> Option<Json>)
    requires Plain(k1) && Plain(v1) && Plain(k2) && Plain(v2)
    ensures JsonText([(Quoted(k1), Quoted(v1)), (Quoted(k2), Quoted(v2))], false, false, ".", "", 0, parse)
      == Ok("{" + MemberText(k1, v1) + "," + MemberText(k2, v2) + "}")
  {
    var props := [(Quoted(k1), Quoted(v1)), (Quoted(k2), Quoted(v2))];
    var m := [(Quoted(k1), JString(Quoted(v1))), (Quoted(k2), JString(Quoted(v2)))];
    assert JsonText(props, false, false, ".", "", 0, parse) == Ok(Serialize(JObject(m), "", "")) by {
      assert FlatMembers(props, false, parse) == m;
      assert Gap(0) == "";
    }
    TwoFlatMembers(k1, v1, k2, v2);
    ObjectText(m, MemberText(k1, v1), MemberText(k2, v2));
  }

  /** Two quoted members, serialized minified: each member's text, a comma between. */
  lemma {:induction false} TwoFlatMembers(k1: string, v1: string, k2: string, v2: string)
    requires Plain(k1) && Plain(v1) && Plain(k2) && Plain(v2)
    ensures var m := [(Quoted(k1), JString(Quoted(v1))), (Quoted(k2), JString(Quoted(v2)))];
      SerializeMembers(m, "", "") == MemberText(k1, v1) + "," + MemberText(k2, v2)
  {
    var m := [(Quoted(k1), JString(Quoted(v1))), (Quoted(k2), JString(Quoted(v2)))];
    var t2 := MemberText(k2, v2);
    MemberQuoted(k1, v1);
    MemberQuoted(k2, v2);
    assert m[1..] == [m[1]];
    assert SerializeMembers(m[1..], "", "") == t2 + "";
    assert t2 + "" == t2;
  }

  /** A minified object whose members serialize to `t1,t2`. */
  lemma {:induction false} ObjectText(m: seq<(string, Json)>, t1: string, t2: string)
    requires m != [] && SerializeMembers(m, "", "") == t1 + "," + t2
    ensures Serialize(JObject(m), "", "") == "{" + t1 + "," + t2 + "}"
  {
    var e: string := "";
    assert e + e == e;
    assert Serialize(JObject(m), "", "") == "{" + SerializeMembers(m, "", "") + "}";
  }

  /** test/main.js:103: minified flat JSON output of replace.properties. */
  lemma {:induction false} ReplaceFlatJson(parse: string -> Option<Json>)
    ensures JsonText(Replace, false, false, ".", "", 0, parse)
      == Ok("{" + MemberText("key", "value") + "," + MemberText("new.key", "new.key.value") + "}")
  {
    ReplacePlain();
    FlatJsonPair("key", "value", "new.key", "new.key.value", parse);
  }

  /** A quoted dotted key `"a.b"` splits at its dot into `"a` and `b"`. */
  lemma {:induction false} SplitQuotedDotted(a: string, b: string)
    requires NoDot(a) && NoDot(b)
    ensures Split(Quoted(a + "." + b), ".") == ["\"" + a, b + "\""]
  {
    var x, y := "\"" + a, b + "\"";
    assert Quoted(a + "." + b) == x + ['.'] + y;
    assert NoDot(x) && NoDot(y);
    SplitFirst(x, '.', y);
    SplitLast(y, '.');
  }

  /** A quoted key without a dot is a single segment. */
  lemma {:induction false} SplitQuoted(k: string)
    requires NoDot(k)
    ensures Split(Quoted(k), ".") == [Quoted(k)]
    ensures Segments(Quoted(k), ".") == [Quoted(k)]
  {
    assert NoDot(Quoted(k));
    SplitLast(Quoted(k), '.');
  }

  /** addProperty of a two-segment path whose first segment is new: a branch holding the leaf is appended. */
  lemma {:induction false} PutNewBranch(key: string, first: Json, a: string, b: string, v: Json)
    requires a != key && !IsArrayIndex(a)
    ensures Put([(key, first)], [a, b], v) == Ok([(key, first), (a, JObject([(b, v)]))])
  {
    var t := [(key, first)];
    assert Lookup(t, a) == None;
    assert [a, b][1..] == [b];
    assert Put([], [b], v) == Ok([(b, v)]);
    AssignAppends(t, a, JObject([(b, v)]));
    assert t + [(a, JObject([(b, v)]))] == [(key, first), (a, JObject([(b, v)]))];
  }

  /** The tree getNestedObject builds from a plain quoted key and a quoted dotted key. */
  lemma {:induction false} NestedTreePair(k1: string, v1: string, a: string, b: string, v2: string, parse: string -> Option<Json>)
    requires NoDot(k1) && NoDot(a) && NoDot(b) && "\"" + a != Quoted(k1)
    ensures BuildTree([(Quoted(k1), Quoted(v1)), (Quoted(a + "." + b), Quoted(v2))], ".", false, parse)
      == Ok([(Quoted(k1), JString(Quoted(v1))), ("\"" + a, JObject([(b + "\"", JString(Quoted(v2)))]))])
  {
    var p1, p2 := (Quoted(k1), Quoted(v1)), (Quoted(a + "." + b), Quoted(v2));
    var t := [(Quoted(k1), JString(Quoted(v1)))];
    var segs := ["\"" + a, b + "\""];
    var v := JString(Quoted(v2));
    var leaf := [(b + "\"", v)];
    assert BuildTree([p1], ".", false, parse) == Ok(t) by {
      SplitQuoted(k1);
      assert [p1][..0] == [];
    }
    assert Segments(p2.0, ".") == segs by {
      SplitQuotedDotted(a, b);
    }
    NotArrayIndex("\"" + a);
    PutNewBranch(Quoted(k1), JString(Quoted(v1)), "\"" + a, b + "\"", v);
    assert [p1, p2][..1] == [p1];
    assert BuildTree([p1, p2], ".", false, parse) == Put(t, Segments(p2.0, "."), Coerce(parse, false, p2.1));
    assert t + [("\"" + a, JObject(leaf))] == [(Quoted(k1), JString(Quoted(v1))), ("\"" + a, JObject(leaf))];
  }

  /** `"a` quoted by QuoteJSONString. */
  lemma {:induction false} QuoteOpening(a: string)
    requires Plain(a)
    ensures Quote("\"" + a) == "\"\\\"" + a + "\""
  {
    var q := "\"";
    assert QuoteBody(q) == "\\\"";
    QuoteBodyAppend(q, a);
    QuoteBodyPlain(a);
  }

  /** `b"` quoted by QuoteJSONString. */
  lemma {:induction false} QuoteClosing(b: string)
    requires Plain(b)
    ensures Quote(b + "\"") == "\"" + b + "\\\"\""
  {
    var q := "\"";
    assert QuoteBody(q) == "\\\"";
    QuoteBodyAppend(b, q);
    QuoteBodyPlain(b);
  }

  /** The minified JSON member `"a: {b": "v"}` of a quoted dotted key. */
  function NestedMemberText(a: string, b: string, v: string): string {
    "\"\\\"" + a + "\"" + ":" + "{" + LeafMemberText(b, v) + "}"
  }

  /** The minified JSON member `b": "v"` inside it. */
  function LeafMemberText(b: string, v: string): string {
    "\"" + b + "\\\"\"" + ":" + "\"" + EscQuoted(v) + "\""
  }

  lemma {:induction false} LeafObject(b: string, v: string)
    requires Plain(b) && Plain(v)
    ensures Serialize(JObject([(b + "\"", JString(Quoted(v)))]), "", "") == "{" + LeafMemberText(b, v) + "}"
  {
    QuoteClosing(b);
    QuoteQuoted(v);
    var e: string := "";
    assert e + e == e;
    var leaf := [(b + "\"", JString(Quoted(v)))];
    var inner := LeafMemberText(b, v);
    assert SerializeMembers(leaf, "", "") == inner + "";
    assert inner + "" == inner;
  }

  lemma {:induction false} NestedMember(a: string, b: string, v: string)
    requires Plain(a) && Plain(b) && Plain(v)
    ensures Quote("\"" + a) + Colon("") + Serialize(JObject([(b + "\"", JString(Quoted(v)))]), "", "")
      == NestedMemberText(a, b, v)
  {
    LeafObject(b, v);
    QuoteOpening(a);
  }

  lemma {:induction false} TwoMembers(k1: string, v1: string, a: string, b: string, v2: string)
    requires Plain(k1) && Plain(v1) && Plain(a) && Plain(b) && Plain(v2)
    ensures var m := [(Quoted(k1), JString(Quoted(v1))), ("\"" + a, JObject([(b + "\"", JString(Quoted(v2)))]))];
      SerializeMembers(m, "", "") == MemberText(k1, v1) + "," + NestedMemberText(a, b, v2)
  {
    var m := [(Quoted(k1), JString(Quoted(v1))), ("\"" + a, JObject([(b + "\"", JString(Quoted(v2)))]))];
    var t2 := NestedMemberText(a, b, v2);
    MemberQuoted(k1, v1);
    NestedMember(a, b, v2);
    assert m[1..] == [m[1]];
    assert SerializeMembers(m[1..], "", "") == t2 + "";
    assert t2 + "" == t2;
  }

  /** The members of the tree NestedTreePair describes, serialized minified. */
  lemma {:induction false} NestedMembers(k1: string, v1: string, a: string, b: string, v2: string)
    requires Plain(k1) && Plain(v1) && Plain(a) && Plain(b) && Plain(v2)
    ensures var m := [(Quoted(k1), JString(Quoted(v1))), ("\"" + a, JObject([(b + "\"", JString(Quoted(v2)))]))];
      Serialize(JObject(m), "", "") == "{" + MemberText(k1, v1) + "," + NestedMemberText(a, b, v2) + "}"
  {
    var m := [(Quoted(k1), JString(Quoted(v1))), ("\"" + a, JObject([(b + "\"", JString(Quoted(v2)))]))];
    TwoMembers(k1, v1, a, b, v2);
    ObjectText(m, MemberText(k1, v1), NestedMemberText(a, b, v2));
  }

  /** Minified nested JSON output of a plain quoted key and a quoted dotted key. */
  lemma {:induction false} NestedJsonPair(k1: string, v1: string, a: string, b: string, v2: string, parse: string -> Option<Json>)
    requires NoDot(k1) && NoDot(a) && NoDot(b) && "\"" + a != Quoted(k1)
    requires Plain(k1) && Plain(v1) && Plain(a) && Plain(b) && Plain(v2)
    ensures JsonText([(Quoted(k1), Quoted(v1)), (Quoted(a + "." + b), Quoted(v2))], true, false, ".", "", 0, parse)
      == Ok("{" + MemberText(k1, v1) + "," + NestedMemberText(a, b, v2) + "}")
  {
    NestedTreePair(k1, v1, a, b, v2, parse);
    NestedMembers(k1, v1, a, b, v2);
    assert Gap(0) == "";
  }

  /** test/main.js:116: minified nested JSON output of replace.properties. */
  lemma {:induction false} ReplaceNestedJson(parse: string -> Option<Json>)
    ensures JsonText(Replace, true, false, ".", "", 0, parse)
      == Ok("{" + MemberText("key", "value") + "," + NestedMemberText("new", "key", "new.key.value") + "}")
  {
    ReplacePlain();
    assert Plain("new") && NoDot("new") && NoDot("key");
    assert "new" + "." + "key" == "new.key";
    assert "\"" + "new" != Quoted("key");
    NestedJsonPair("key", "value", "new", "key", "new.key.value", parse);
  }

  /** The minified nested leaf statement of a quoted single-segment key. */
  function LeafText(k: string, v: string): string {
    "props" + Bracket(EscQuoted(k)) + "=" + "props" + Bracket(EscQuoted(k)) + "||" + StringText(v) + ";"
  }

  /** A quoted value as the script writes it: between quotes, its own quotes escaped. */
  function StringText(v: string): string {
    "\"" + EscQuoted(v) + "\""
  }

  /** The minified object guard for the first segment `"a` of a quoted dotted key. */
  function GuardText(a: string): string {
    "props" + Bracket("\\\"" + a) + "=" + "props" + Bracket("\\\"" + a) + "||" + "{};"
  }

  /** The property accesses `["\"a"]["b\""]` of the quoted dotted key `"a.b"`. */
  function DottedPath(a: string, b: string): string {
    Bracket("\\\"" + a) + Bracket(b + "\\\"")
  }

  /** The minified nested leaf statement of the quoted dotted key `"a.b"`. */
  function DottedLeafText(a: string, b: string, v: string): string {
    "props" + DottedPath(a, b) + "=" + "props" + DottedPath(a, b) + "||" + StringText(v) + ";"
  }

  /** `"a` escaped by getEscapedString. */
  lemma {:induction false} EscapeOpening(a: string)
    requires Plain(a)
    ensures Escape("\"" + a) == "\\\"" + a
  {
    var q := "\"";
    assert Escape(q) == "\\\"";
    EscapeAppend(q, a);
    EscapePlain(a);
  }

  /** `b"` escaped by getEscapedString. */
  lemma {:induction false} EscapeClosing(b: string)
    requires Plain(b)
    ensures Escape(b + "\"") == b + "\\\""
  {
    var q := "\"";
    assert Escape(q) == "\\\"";
    EscapeAppend(b, q);
    EscapePlain(b);
  }

  /** Different strings escape differently (the contrapositive of EscapeInjective). */
  lemma {:induction false} EscapeDistinct(x: string, y: string)
    ensures x != y ==> Escape(x) != Escape(y)
  {
    if Escape(x) == Escape(y) {
      EscapeInjective(x, y);
    }
  }

  /** A guard ends in `{};`, a leaf statement with a string value in `";`, so the two never coincide. */
  lemma {:induction false} GuardNotLeaf(a: string, k: string, v: string)
    ensures GuardText(a) != LeafText(k, v) && GuardText(a) != DottedLeafText(k, a, v)
  {
    var g, l, d := GuardText(a), LeafText(k, v), DottedLeafText(k, a, v);
    assert g[|g| - 2] == '}';
    assert l[|l| - 2] == '"';
    assert d[|d| - 2] == '"';
  }

  /** The first key of the nested script renderer: a quoted key without a dot gives its leaf statement alone. */
  lemma {:induction false} FirstLeafStep(k: string, v: string, parse: string -> Option<Json>)
    requires Plain(k) && Plain(v) && NoDot(k)
    ensures KeyStep(State([], map[], []), "props", true, false, ".", parse, (Quoted(k), Quoted(v)))
      == Ok(State([LeafText(k, v)], map[[EscQuoted(k)] := Leaf], []))
  {
    SplitQuoted(k);
    EscapeQuoted(k);
    EscapeQuoted(v);
    var parts := [Quoted(k)];
    var nil: seq<string> := [];
    assert parts[..0] == nil && nil + [EscQuoted(k)] == [EscQuoted(k)];
    var w := Walked(map[], nil, "");
    assert WalkPath(map[], nil, "", parts[..0]) == Ok(w);
    var empty: string := "";
    assert empty + Bracket(EscQuoted(k)) == Bracket(EscQuoted(k));
    var val := JString(StringText(v));
    assert StoredValue(parse, false, Quoted(v)) == val;
    assert Emit([], "props", true, "", EscQuoted(k), StringText(v)) == [LeafText(k, v)];
    assert Store(map[], [EscQuoted(k)], val) == map[[EscQuoted(k)] := Leaf];
  }

  /** The walk of the second key: its first segment `"a` is not yet in the shadow object, so it is created. */
  lemma {:induction false} DottedWalk(k: string, a: string)
    requires Plain(k) && Plain(a) && "\"" + a != Quoted(k)
    ensures var shadow := map[[EscQuoted(k)] := Leaf];
      WalkPath(shadow, [], "", ["\"" + a])
        == Ok(Walked(shadow[["\\\"" + a] := Branch], ["\\\"" + a], Bracket("\\\"" + a)))
  {
    var shadow := map[[EscQuoted(k)] := Leaf];
    var e := "\\\"" + a;
    EscapeOpening(a);
    EscapeQuoted(k);
    EscapeDistinct("\"" + a, Quoted(k));
    assert [e] !in shadow;
    var nil: seq<string> := [];
    var empty: string := "";
    assert nil + [e] == [e] && empty + Bracket(e) == Bracket(e);
    assert ["\"" + a][1..] == [];
  }

  /** The second key: a quoted dotted key whose first segment is new gets its guard, then its leaf statement. */
  lemma {:induction false} DottedStep(k: string, v1: string, a: string, b: string, v2: string, parse: string -> Option<Json>)
    requires Plain(k) && Plain(a) && Plain(b) && Plain(v2) && NoDot(a) && NoDot(b)
    requires "\"" + a != Quoted(k) && DottedLeafText(a, b, v2) != LeafText(k, v1)
    ensures var r := KeyStep(State([LeafText(k, v1)], map[[EscQuoted(k)] := Leaf], []), "props", true, false, ".",
                             parse, (Quoted(a + "." + b), Quoted(v2)));
      r.Ok? && r.value.output == [LeafText(k, v1), GuardText(a), DottedLeafText(a, b, v2)]
  {
    var shadow := map[[EscQuoted(k)] := Leaf];
    var st := State([LeafText(k, v1)], shadow, []);
    var prop := (Quoted(a + "." + b), Quoted(v2));
    var e := "\\\"" + a;
    var w := Walked(shadow[[e] := Branch], [e], Bracket(e));
    assert Split(prop.0, ".") == ["\"" + a, b + "\""] && ["\"" + a, b + "\""][..1] == ["\"" + a] by {
      SplitQuotedDotted(a, b);
    }
    assert WalkPath(st.shadow, st.cursor, "", ["\"" + a]) == Ok(w) by { DottedWalk(k, a); }
    KeyStepOk(st, "props", true, false, ".", parse, prop, w);
    assert Escape(b + "\"") == b + "\\\"" by { EscapeClosing(b); }
    QuotedValueText(v2, parse);
    DottedEmit(k, v1, a, b, v2);
  }

  /** The two lines the second key adds: a new guard, then a new leaf statement. */
  lemma {:induction false} DottedEmit(k: string, v1: string, a: string, b: string, v2: string)
    requires DottedLeafText(a, b, v2) != LeafText(k, v1)
    ensures Emit([LeafText(k, v1)], "props", true, Bracket("\\\"" + a), b + "\\\"", StringText(v2))
      == [LeafText(k, v1), GuardText(a), DottedLeafText(a, b, v2)]
  {
    GuardNotLeaf(a, k, v1);
    GuardNotLeaf(b, a, v2);
  }

  /** Minified nested script lines of a plain quoted key followed by a quoted dotted key. */
  lemma {:induction false} NestedLinesPair(k: string, v1: string, a: string, b: string, v2: string, parse: string -> Option<Json>)
    requires Plain(k) && Plain(v1) && Plain(a) && Plain(b) && Plain(v2) && NoDot(k) && NoDot(a) && NoDot(b)
    requires "\"" + a != Quoted(k) && DottedLeafText(a, b, v2) != LeafText(k, v1)
    ensures NestedLines([(Quoted(k), Quoted(v1)), (Quoted(a + "." + b), Quoted(v2))], "props", true, false, ".", parse)
      == Ok([LeafText(k, v1), GuardText(a), DottedLeafText(a, b, v2)])
  {
    var p1, p2 := (Quoted(k), Quoted(v1)), (Quoted(a + "." + b), Quoted(v2));
    FirstLeafStep(k, v1, parse);
    DottedStep(k, v1, a, b, v2, parse);
    assert [p1][..0] == [] && [p1, p2][..1] == [p1];
    assert NestedRun([p1], "props", true, false, ".", parse)
      == KeyStep(State([], map[], []), "props", true, false, ".", parse, p1);
  }

  /** Joining four lines with nothing in between concatenates them. */
  lemma {:induction false} JoinNone4(a: string, b: string, c: string, d: string)
    ensures Join([a, b, c, d], "") == a + b + c + d
  {
    JoinNone3(b, c, d);
    assert [a, b, c, d][1..] == [b, c, d];
    assert a + "" + (b + c + d) == a + b + c + d;
  }

  /** Minified nested script output of a plain quoted key followed by a quoted dotted key. */
  lemma {:induction false} NestedScriptPair(k: string, v1: string, a: string, b: string, v2: string, parse: string -> Option<Json>)
    requires Plain(k) && Plain(v1) && Plain(a) && Plain(b) && Plain(v2) && NoDot(k) && NoDot(a) && NoDot(b)
    requires "\"" + a != Quoted(k) && DottedLeafText(a, b, v2) != LeafText(k, v1)
    ensures JsText([(Quoted(k), Quoted(v1)), (Quoted(a + "." + b), Quoted(v2))], "", true, true, false, ".", parse)
      == Ok("var props=props||{};" + LeafText(k, v1) + GuardText(a) + DottedLeafText(a, b, v2))
  {
    NestedLinesPair(k, v1, a, b, v2, parse);
    MinifiedNestedText([(Quoted(k), Quoted(v1)), (Quoted(a + "." + b), Quoted(v2))],
                       LeafText(k, v1), GuardText(a), DottedLeafText(a, b, v2), parse);
  }

  /** Minified nested script output under the default namespace: the header, then the three lines. */
  lemma {:induction false} MinifiedNestedText(props: seq<(string, string)>, l1: string, l2: string, l3: string,
                                              parse: string -> Option<Json>)
    requires NestedLines(props, "props", true, false, ".", parse) == Ok([l1, l2, l3])
    ensures JsText(props, "", true, true, false, ".", parse) == Ok("var props=props||{};" + l1 + l2 + l3)
  {
    NestedJoin(props, [l1, l2, l3], parse);
    JoinHeader3(l1, l2, l3);
  }

  /** The nested script text under the default namespace joins the header and the lines. */
  lemma {:induction false} NestedJoin(props: seq<(string, string)>, lines: seq<string>, parse: string -> Option<Json>)
    requires NestedLines(props, "props", true, false, ".", parse) == Ok(lines)
    ensures JsText(props, "", true, true, false, ".", parse) == Ok(Join([Header("props", true)] + lines, ""))
  {
    assert ScriptNamespace("") == "props";
  }

  /** The minified default header followed by three lines, joined with nothing in between. */
  lemma {:induction false} JoinHeader3(l1: string, l2: string, l3: string)
    ensures Join([Header("props", true)] + [l1, l2, l3], "") == "var props=props||{};" + l1 + l2 + l3
  {
    var h := Header("props", true);
    assert h == "var props=props||{};" by { HeaderText("props", true); }
    assert [h] + [l1, l2, l3] == [h, l1, l2, l3];
    JoinNone4(h, l1, l2, l3);
  }

  /**
   * test/main.js:77: minified nested script output of replace.properties.
   * Only the intermediate segment `"new` gets a guard, and it comes before
   * the leaf statement.
   */
  lemma {:induction false} ReplaceNestedScript(parse: string -> Option<Json>)
    ensures JsText(Replace, "", true, true, false, ".", parse)
      == Ok("var props=props||{};" + LeafText("key", "value") + GuardText("new")
            + DottedLeafText("new", "key", "new.key.value"))
  {
    ReplacePlain();
    assert Plain("new") && NoDot("new") && NoDot("key");
    assert "new" + "." + "key" == "new.key";
    assert "\"" + "new" != Quoted("key");
    assert |DottedLeafText("new", "key", "new.key.value")| != |LeafText("key", "value")|;
    NestedScriptPair("key", "value", "new", "key", "new.key.value", parse);
  }
}
