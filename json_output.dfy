/**
 * The JSON renderer: `addNamespaceAndPrettify` and `getJsonOutput`
 * (index.js:46-56, 78-92).
 */
module JsonOutput {
  import opened Wrappers
  import opened Json
  import opened JsonRead
  import opened JsonRoundTrip
  import opened PropertyTree
  import opened Settings

  /** The `space` option after addNamespaceAndPrettify: pretty output that asked for no indentation gets 2. */
  function PrettySpace(minify: bool, space: int): (r: int)
    ensures minify || r != 0
    ensures space != 0 || minify ==> r == space
  {
    if !minify && space == 0 then 2 else space
  }

  /** The value addNamespaceAndPrettify returns: the object, wrapped as `{namespace: object}` when there is a namespace. */
  function WithNamespace(namespace: string, m: Members): Json {
    if namespace != "" then JObject([(namespace, JObject(m))]) else JObject(m)
  }

  /** The path of the object inside the value WithNamespace makes. */
  function NamespacePath(namespace: string): seq<string> {
    if namespace != "" then [namespace] else []
  }

  /** Every node of the object is reached in the wrapped value below the namespace key. */
  lemma {:induction false} WithNamespacePath(namespace: string, m: Members, path: seq<string>)
    ensures GetPath(WithNamespace(namespace, m), NamespacePath(namespace) + path) == GetPath(JObject(m), path)
  {
    if namespace != "" {
      var q := [namespace] + path;
      assert q[0] == namespace && q[1..] == path;
      assert Lookup([(namespace, JObject(m))], namespace) == Some(JObject(m));
    } else {
      assert [] + path == path;
    }
  }

  /** addNamespaceAndPrettify; it writes `options.space`, so the choice persists for later files. */
  method AddNamespaceAndPrettify(obj: Members, options: Options) returns (r: Json)
    modifies options`space
    ensures r == WithNamespace(options.namespace, obj)
    ensures options.space == PrettySpace(options.minify, old(options.space))
  {
    r := JObject(obj);
    if options.namespace != "" {
      r := JObject([(options.namespace, r)]);
    }
    if !options.minify && options.space == 0 {
      options.space := 2;
    }
  }

  /** The flat map after the for-in loop: each raw value coerced in place when complexTypes is set. */
  function FlatMembers(props: seq<(string, string)>, complexTypes: bool, parse: string -> Option<Json>): Members {
    seq(|props|, i requires 0 <= i < |props| => (props[i].0, Coerce(parse, complexTypes, props[i].1)))
  }

  /** The object getJsonOutput serializes: the nested tree, or the flat map. */
  function JsonObject(props: seq<(string, string)>, nestedProps: bool, complexTypes: bool, delimiter: string,
                      parse: string -> Option<Json>): Result<Members> {
    if nestedProps then BuildTree(props, delimiter, complexTypes, parse)
    else Ok(FlatMembers(props, complexTypes, parse))
  }

  /** The text getJsonOutput returns, given the `space` in force when it serializes. */
  function JsonText(props: seq<(string, string)>, nestedProps: bool, complexTypes: bool, delimiter: string,
                    namespace: string, space: int, parse: string -> Option<Json>): Result<string> {
    match JsonObject(props, nestedProps, complexTypes, delimiter, parse)
    case Err(e) => Err(e)
    case Ok(m) => Ok(Stringify(WithNamespace(namespace, m), space))
  }

  /**
   * getJsonOutput: serializes the nested tree or the flat map (whose values
   * are coerced in place first) under the namespace. A key that walks through
   * a leaf throws before `space` is touched.
   */
  method GetJsonOutput(options: Options, props: seq<(string, string)>, parse: string -> Option<Json>)
    returns (r: Result<string>)
    modifies options`space
    ensures r == JsonText(props, options.nestedProps, options.complexTypes, options.nestingDelimiter,
                          options.namespace, options.space, parse)
    ensures options.space == if r.Err? then old(options.space) else PrettySpace(options.minify, old(options.space))
  {
    var obj: Members;
    if options.nestedProps {
      var tree := GetNestedObject(props, options.nestingDelimiter, options.complexTypes, parse);
      if tree.Err? {
        return Err(tree.msg);
      }
      obj := tree.value;
    } else {
      obj := seq(|props|, i requires 0 <= i < |props| => (props[i].0, JString(props[i].1)));
      if options.complexTypes {
        for i := 0 to |obj|
          invariant |obj| == |props|
          invariant forall j :: 0 <= j < i ==> obj[j] == (props[j].0, GetParsedJson(parse, props[j].1))
          invariant forall j :: i <= j < |obj| ==> obj[j] == (props[j].0, JString(props[j].1))
        {
          obj := obj[i := (obj[i].0, GetParsedJson(parse, obj[i].1.s))];
        }
      }
      assert obj == FlatMembers(props, options.complexTypes, parse);
    }
    var value := AddNamespaceAndPrettify(obj, options);
    r := Ok(Stringify(value, options.space));
  }

  /** Every flat value is well formed when the parser yields well-formed values. */
  lemma {:induction false} FlatWellFormed(props: seq<(string, string)>, complexTypes: bool, parse: string -> Option<Json>)
    requires ParsesWellFormed(parse)
    ensures MembersWellFormed(FlatMembers(props, complexTypes, parse))
  {
    var m := FlatMembers(props, complexTypes, parse);
    forall i | 0 <= i < |m| ensures WellFormed(m[i].1) {
      var s := props[i].1;
      if complexTypes && parse(s).Some? {
        assert WellFormed(parse(s).value);
      }
    }
  }

  lemma {:induction false} ObjectWellFormed(m: Members)
    requires MembersWellFormed(m)
    ensures WellFormed(JObject(m))
  {
  }

  /**
   * The JSON text reads back, by the JSON grammar, as exactly the object the
   * renderer built, wrapped under the namespace.
   */
  lemma {:induction false} JsonTextReadsBack(props: seq<(string, string)>, nestedProps: bool, complexTypes: bool, delimiter: string,
                          namespace: string, space: int, parse: string -> Option<Json>)
    requires ParsesWellFormed(parse)
    requires JsonText(props, nestedProps, complexTypes, delimiter, namespace, space, parse).Ok?
    ensures ReadJson(JsonText(props, nestedProps, complexTypes, delimiter, namespace, space, parse).value)
      == Some(WithNamespace(namespace, JsonObject(props, nestedProps, complexTypes, delimiter, parse).value))
  {
    var m := JsonObject(props, nestedProps, complexTypes, delimiter, parse).value;
    if nestedProps {
      BuildTreeWellFormed(props, delimiter, complexTypes, parse);
    } else {
      FlatWellFormed(props, complexTypes, parse);
    }
    ObjectWellFormed(m);
    var w := WithNamespace(namespace, m);
    if namespace != "" {
      assert MembersWellFormed([(namespace, JObject(m))]);
    }
    ObjectWellFormed(if namespace != "" then [(namespace, JObject(m))] else m);
    StringifyReadsBack(w, space);
  }

  /** The property names are pairwise distinct, as the keys of an object are. */
  predicate DistinctKeys(props: seq<(string, string)>) {
    forall i, j :: 0 <= i < j < |props| ==> props[i].0 != props[j].0
  }

  /**
   * Flat JSON output: reading the text back finds, below the namespace, each
   * property's coerced value under its full, unsplit key.
   */
  lemma {:induction false} FlatJsonFinds(props: seq<(string, string)>, complexTypes: bool, delimiter: string,
                      namespace: string, space: int, parse: string -> Option<Json>, i: nat)
    requires ParsesWellFormed(parse) && DistinctKeys(props) && i < |props|
    ensures JsonText(props, false, complexTypes, delimiter, namespace, space, parse).Ok?
    ensures var v := ReadJson(JsonText(props, false, complexTypes, delimiter, namespace, space, parse).value);
      v.Some? && GetPath(v.value, NamespacePath(namespace) + [props[i].0]) == Some(Coerce(parse, complexTypes, props[i].1))
  {
    var m := FlatMembers(props, complexTypes, parse);
    JsonTextReadsBack(props, false, complexTypes, delimiter, namespace, space, parse);
    WithNamespacePath(namespace, m, [props[i].0]);
    LookupFinds(m, props[i].0, i);
    assert [props[i].0][1..] == [];
  }

  /**
   * Nested JSON output on prefix-free keys: it never fails, and reading the
   * text back finds, below the namespace, each value at its key's path.
   */
  lemma {:induction false} NestedJsonFinds(props: seq<(string, string)>, complexTypes: bool, delimiter: string,
                        namespace: string, space: int, parse: string -> Option<Json>, i: nat)
    requires ParsesWellFormed(parse) && PrefixFree(props, delimiter) && i < |props|
    ensures JsonText(props, true, complexTypes, delimiter, namespace, space, parse).Ok?
    ensures var v := ReadJson(JsonText(props, true, complexTypes, delimiter, namespace, space, parse).value);
      v.Some? && GetPath(v.value, NamespacePath(namespace) + Segments(props[i].0, delimiter))
        == Some(Coerce(parse, complexTypes, props[i].1))
  {
    BuildTreeFinds(props, delimiter, complexTypes, parse);
    var m := BuildTree(props, delimiter, complexTypes, parse).value;
    JsonTextReadsBack(props, true, complexTypes, delimiter, namespace, space, parse);
    WithNamespacePath(namespace, m, Segments(props[i].0, delimiter));
  }

  /**
   * Nested JSON output lists the names of every object as JavaScript does:
   * array indices first, in ascending numeric order, then the other names in
   * the order the properties created them.
   */
  lemma {:induction false} NestedJsonOrdered(props: seq<(string, string)>, complexTypes: bool, delimiter: string,
                                             namespace: string, space: int, parse: string -> Option<Json>)
    requires ParsesWellFormed(parse) && ParsesOrdered(parse)
    requires JsonText(props, true, complexTypes, delimiter, namespace, space, parse).Ok?
    ensures var v := ReadJson(JsonText(props, true, complexTypes, delimiter, namespace, space, parse).value);
      v.Some? && DeepOrdered(v.value)
  {
    var m := BuildTree(props, delimiter, complexTypes, parse).value;
    JsonTextReadsBack(props, true, complexTypes, delimiter, namespace, space, parse);
    BuildTreeOrdered(props, delimiter, complexTypes, parse);
    if namespace != "" {
      assert Keys([(namespace, JObject(m))]) == [namespace];
    }
  }

  /** An empty properties file renders `{}`, or `{"ns":{}}` under a namespace. */
  lemma {:induction false} EmptyJson(nestedProps: bool, complexTypes: bool, delimiter: string, parse: string -> Option<Json>)
    ensures JsonText([], nestedProps, complexTypes, delimiter, "", 0, parse) == Ok("{}")
    ensures JsonText([], nestedProps, complexTypes, delimiter, "ns", 0, parse) == Ok("{\"ns\":{}}")
  {
    assert FlatMembers([], complexTypes, parse) == [];
    QuoteBodyPlain("ns");
    assert Quote("ns") == "\"ns\"";
    var w := JObject([("ns", JObject([]))]);
    assert WithNamespace("ns", []) == w;
    assert SerializeMembers([("ns", JObject([]))], "", "") == "\"ns\":{}";
    assert Stringify(w, 0) == "{" + SerializeMembers([("ns", JObject([]))], "", "") + "}";
    assert JsonObject([], nestedProps, complexTypes, delimiter, parse) == Ok([]);
    assert "{" + "\"ns\":{}" + "}" == "{\"ns\":{}}";
  }
}
