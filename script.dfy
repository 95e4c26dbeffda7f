/**
 * The script renderer (index.js:12-17, 94-194): the statement templates,
 * flat mode (`getJsSimplePropsOutput`), nested mode
 * (`getJsNestedPropsOutput`) and the header and joining (`getJsOutput`).
 */
module ScriptOutput {
  import opened Wrappers
  import opened Json
  import opened Escaping
  import opened Splitting
  import opened Settings
  import PropertyTree

  /**
   * lodash's `<%= value %>`: the text of a value interpolated into a
   * template. null interpolates as nothing, an array as its elements joined
   * by commas (null elements as nothing), an object as "[object Object]".
   */
  function TemplateText(j: Json): string
    decreases j, 1
  {
    match j
    case JNull => ""
    case JBool(b) => if b then "true" else "false"
    case JNumber(repr) => repr
    case JString(s) => s
    case JArray(items) => JoinedItems(items)
    case JObject(_) => "[object Object]"
  }

  /** Array.prototype.join(",") over the items' texts. */
  function JoinedItems(items: seq<Json>): string
    decreases items, 0
  {
    if items == [] then ""
    else TemplateText(items[0]) + if |items| == 1 then "" else "," + JoinedItems(items[1..])
  }

  /**
   * The value a statement assigns: the escaped raw value parsed as JSON when
   * complexTypes is set and it parses, otherwise the escaped value in quotes.
   */
  function StoredValue(parse: string -> Option<Json>, complexTypes: bool, value: string): Json {
    var escaped := Escape(value);
    if complexTypes && parse(escaped).Some? then parse(escaped).value
    else JString("\"" + escaped + "\"")
  }

  /** The text of that value inside a statement. */
  function ValueText(parse: string -> Option<Json>, complexTypes: bool, value: string): string {
    TemplateText(StoredValue(parse, complexTypes, value))
  }

  /** The assignment operator of the templates: bare when minified. */
  function Assign(minify: bool): string {
    if minify then "=" else " = "
  }

  /** The `||` of the nested templates: bare when minified. */
  function OrElse(minify: bool): string {
    if minify then "||" else " || "
  }

  /** A property access `["name"]`. */
  function Bracket(name: string): string {
    "[\"" + name + "\"]"
  }

  /** entryTemplate / minifiedTemplate: `NS["key"] = V;`. */
  function EntryStatement(ns: string, minify: bool, key: string, valueText: string): string {
    ns + Bracket(key) + Assign(minify) + valueText + ";"
  }

  /** nestedObjectTemplate / nestedMinifiedObjectTemplate: `NS P = NS P || {};`. */
  function ObjectGuard(ns: string, minify: bool, propPart: string): string {
    ns + propPart + Assign(minify) + ns + propPart + OrElse(minify) + "{};"
  }

  /** nestedPropTemplate / nestedMinifiedPropTemplate: `NS P = NS P || V;`. */
  function PropStatement(ns: string, minify: bool, propPart: string, valueText: string): string {
    ns + propPart + Assign(minify) + ns + propPart + OrElse(minify) + valueText + ";"
  }

  /** The statement getJsSimplePropsOutput writes for one property. */
  function SimpleStatement(ns: string, minify: bool, complexTypes: bool, parse: string -> Option<Json>,
                           prop: (string, string)): string {
    EntryStatement(ns, minify, Escape(prop.0), ValueText(parse, complexTypes, prop.1))
  }

  /** getJsSimplePropsOutput: one statement per property, in order. */
  method GetJsSimplePropsOutput(options: Options, props: seq<(string, string)>, parse: string -> Option<Json>)
    returns (output: seq<string>)
    ensures |output| == |props|
    ensures forall i :: 0 <= i < |props| ==>
      output[i] == SimpleStatement(options.namespace, options.minify, options.complexTypes, parse, props[i])
  {
    output := [];
    for i := 0 to |props|
      invariant |output| == i
      invariant forall j :: 0 <= j < i ==>
        output[j] == SimpleStatement(options.namespace, options.minify, options.complexTypes, parse, props[j])
    {
      var escapedValue := Escape(props[i].1);
      var val: string;
      if options.complexTypes && parse(escapedValue).Some? {
        val := TemplateText(parse(escapedValue).value);
      } else {
        val := "\"" + escapedValue + "\"";
      }
      output := output + [EntryStatement(options.namespace, options.minify, Escape(props[i].0), val)];
    }
  }

  /** The rest of `s` after the prefix `p`, if `s` starts with it. */
  function StripPrefix(p: string, s: string): Option<string> {
    if |s| < |p| || s[..|p|] != p then None else Some(s[|p|..])
  }

  lemma {:induction false} StripPrefixAppend(p: string, s: string)
    ensures StripPrefix(p, p + s) == Some(s)
  {
    assert (p + s)[..|p|] == p && (p + s)[|p|..] == s;
  }

  /**
   * Reads a flat statement whose value is a string literal,
   * `NS["key"]="value";`, back into the key and the value, undoing the
   * escaping (a backslash makes the next character literal).
   */
  function ReadEntry(ns: string, minify: bool, stmt: string): Option<(string, string)> {
    match StripPrefix(ns + "[\"", stmt)
    case None => None
    case Some(afterOpen) =>
      match ReadQuoted(afterOpen)
      case None => None
      case Some((key, rest)) =>
        match StripPrefix("]" + Assign(minify) + "\"", rest)
        case None => None
        case Some(afterMid) =>
          match ReadQuoted(afterMid)
          case None => None
          case Some((value, tail)) => if tail == ";" then Some((key, value)) else None
  }

  /** The pieces of a flat statement, regrouped around the two literals. */
  lemma {:induction false} EntryShape(ns: string, minify: bool, ek: string, ev: string)
    ensures EntryStatement(ns, minify, ek, "\"" + ev + "\"")
      == (ns + "[\"") + (ek + "\"" + (("]" + Assign(minify) + "\"") + (ev + "\"" + ";")))
  {
  }

  /** A statement written with escaped key and value reads back as the raw key and value. */
  lemma {:induction false} ReadEntryOf(ns: string, minify: bool, key: string, value: string)
    ensures ReadEntry(ns, minify, EntryStatement(ns, minify, Escape(key), "\"" + Escape(value) + "\"")) == Some((key, value))
  {
    var mid := "]" + Assign(minify) + "\"";
    var tail := mid + (Escape(value) + "\"" + ";");
    EntryShape(ns, minify, Escape(key), Escape(value));
    StripPrefixAppend(ns + "[\"", Escape(key) + "\"" + tail);
    ReadQuotedEscape(key, tail);
    StripPrefixAppend(mid, Escape(value) + "\"" + ";");
    ReadQuotedEscape(value, ";");
  }

  /**
   * A flat statement whose value is not parsed assigns exactly the raw key
   * and the raw value: reading the statement back gives both unchanged.
   */
  lemma {:induction false} SimpleStatementReadsBack(ns: string, minify: bool, complexTypes: bool, parse: string -> Option<Json>,
                                 prop: (string, string))
    requires !complexTypes || parse(Escape(prop.1)).None?
    ensures ReadEntry(ns, minify, SimpleStatement(ns, minify, complexTypes, parse, prop)) == Some(prop)
  {
    ReadEntryOf(ns, minify, prop.0, prop.1);
  }

  /** What getEscapedString(undefined) throws: the empty key split on an empty delimiter has no last segment. */
  const UndefinedError: string := "Cannot read properties of undefined (reading 'replace')"

  /** A node of the shadow object: an object (or array) the walk may enter, or a primitive. */
  datatype Kind = Branch | Leaf

  /** The shadow object `obj` as the kind of the node at each absolute (escaped) path; the root is not stored. */
  type Shadow = map<seq<string>, Kind>

  /** The renderer's state between keys: the lines so far, the shadow object and where its cursor points. */
  datatype State = State(output: seq<string>, shadow: Shadow, cursor: seq<string>)

  /** Where a walk through the intermediate segments ends, and the `propPart` it built. */
  datatype Walked = Walked(shadow: Shadow, cursor: seq<string>, propPart: string)

  function KindOf(j: Json): Kind {
    if j.JObject? || j.JArray? then Branch else Leaf
  }

  /** The decimal name of an array index. */
  function IndexName(n: nat): string
    decreases n
  {
    if n < 10 then ["0123456789"[n]] else IndexName(n / 10) + ["0123456789"[n % 10]]
  }

  /** The own properties below `path` of a stored value: object members, or array indices and `length`. */
  function Descendants(path: seq<string>, j: Json): Shadow
    decreases j, 1
  {
    match j
    case JObject(members) => MemberNodes(path, members)
    case JArray(items) => ItemNodes(path, items, 0)[path + ["length"] := Leaf]
    case _ => map[]
  }

  function MemberNodes(path: seq<string>, members: seq<(string, Json)>): Shadow
    decreases members, 0
  {
    if members == [] then map[]
    else
      assert members[0].1 < members[0];
      var (k, c) := members[0];
      (map[path + [k] := KindOf(c)] + Descendants(path + [k], c)) + MemberNodes(path, members[1..])
  }

  function ItemNodes(path: seq<string>, items: seq<Json>, start: nat): Shadow
    decreases items, 0
  {
    if items == [] then map[]
    else
      var p := path + [IndexName(start)];
      (map[p := KindOf(items[0])] + Descendants(p, items[0])) + ItemNodes(path, items[1..], start + 1)
  }

  predicate IsPrefixOf(p: seq<string>, q: seq<string>) {
    |p| <= |q| && q[..|p|] == p
  }

  /** `obj[lastProp] = val`: the node at `path` and everything below it now come from `v`. */
  function Store(shadow: Shadow, path: seq<string>, v: Json): Shadow {
    (map q | q in shadow && !IsPrefixOf(path, q) :: shadow[q])[path := KindOf(v)] + Descendants(path, v)
  }

  /**
   * The while loop of getJsNestedPropsOutput over the intermediate segments:
   * a segment the cursor already owns is entered without extending
   * `propPart`; a missing one is created as an object and appended to
   * `propPart`. Entering a primitive ends in a TypeError (strict mode), since
   * every later assignment through it throws.
   */
  function WalkPath(shadow: Shadow, cursor: seq<string>, propPart: string, segs: seq<string>): Result<Walked>
    decreases |segs|
  {
    if segs == [] then Ok(Walked(shadow, cursor, propPart))
    else
      var e := Escape(segs[0]);
      var child := cursor + [e];
      if child in shadow then
        if shadow[child] == Leaf then Err(PropertyTree.PrimitiveError)
        else WalkPath(shadow, child, propPart, segs[1..])
      else WalkPath(shadow[child := Branch], child, propPart + Bracket(e), segs[1..])
  }

  /** One step of the walk over all segments but the last, after which the first segment is shifted off. */
  lemma {:induction false} WalkPathShift(shadow: Shadow, cursor: seq<string>, propPart: string, keys: seq<string>)
    requires |keys| > 1
    ensures var e := Escape(keys[0]);
      var child := cursor + [e];
      var rest := keys[1..][..|keys| - 2];
      WalkPath(shadow, cursor, propPart, keys[..|keys| - 1])
        == if child !in shadow then WalkPath(shadow[child := Branch], child, propPart + Bracket(e), rest)
           else if shadow[child] == Leaf then Err(PropertyTree.PrimitiveError)
           else WalkPath(shadow, child, propPart, rest)
  {
    assert keys[1..][..|keys| - 2] == keys[..|keys| - 1][1..];
  }

  /** `output.push(s)` unless `output.indexOf(s) !== -1`. */
  function PushNew(output: seq<string>, s: string): seq<string> {
    if s in output then output else output + [s]
  }

  /** The reference definition of one key of getJsNestedPropsOutput. */
  function KeyStep(st: State, ns: string, minify: bool, complexTypes: bool, delimiter: string,
                   parse: string -> Option<Json>, prop: (string, string)): Result<State> {
    var parts := Split(prop.0, delimiter);
    if parts == [] then Err(UndefinedError)
    else match WalkPath(st.shadow, st.cursor, "", parts[..|parts| - 1])
      case Err(e) => Err(e)
      case Ok(w) =>
        var v := StoredValue(parse, complexTypes, prop.1);
        var lastProp := Escape(parts[|parts| - 1]);
        Ok(State(Emit(st.output, ns, minify, w.propPart, lastProp, TemplateText(v)),
                 Store(w.shadow, w.cursor + [lastProp], v), w.cursor))
  }

  /** A key whose walk succeeds pushes what Emit pushes and stores its value below the cursor the walk ends at. */
  lemma {:induction false} KeyStepOk(st: State, ns: string, minify: bool, complexTypes: bool, delimiter: string,
                                     parse: string -> Option<Json>, prop: (string, string), w: Walked)
    requires Split(prop.0, delimiter) != []
    requires WalkPath(st.shadow, st.cursor, "", Split(prop.0, delimiter)[..|Split(prop.0, delimiter)| - 1]) == Ok(w)
    ensures var parts := Split(prop.0, delimiter);
      var lastProp := Escape(parts[|parts| - 1]);
      var v := StoredValue(parse, complexTypes, prop.1);
      KeyStep(st, ns, minify, complexTypes, delimiter, parse, prop)
        == Ok(State(Emit(st.output, ns, minify, w.propPart, lastProp, TemplateText(v)),
                    Store(w.shadow, w.cursor + [lastProp], v), w.cursor))
  {
  }

  /** The two pushes of one key: its object guard when `propPart` is not empty, then its leaf statement. */
  function Emit(output: seq<string>, ns: string, minify: bool, propPart: string, lastProp: string,
                valueText: string): seq<string> {
    var guarded := if propPart != "" then PushNew(output, ObjectGuard(ns, minify, propPart)) else output;
    PushNew(guarded, PropStatement(ns, minify, propPart + Bracket(lastProp), valueText))
  }

  /** The reference definition of getJsNestedPropsOutput: every key in order, from an empty shadow object. */
  function NestedRun(props: seq<(string, string)>, ns: string, minify: bool, complexTypes: bool, delimiter: string,
                     parse: string -> Option<Json>): Result<State>
    decreases |props|
  {
    if props == [] then Ok(State([], map[], []))
    else match NestedRun(props[..|props| - 1], ns, minify, complexTypes, delimiter, parse)
      case Err(e) => Err(e)
      case Ok(st) => KeyStep(st, ns, minify, complexTypes, delimiter, parse, props[|props| - 1])
  }

  /** One more key: the run so far, then that key's step. */
  lemma {:induction false} NestedRunSnoc(props: seq<(string, string)>, i: nat, ns: string, minify: bool,
                                         complexTypes: bool, delimiter: string, parse: string -> Option<Json>)
    requires i < |props|
    ensures NestedRun(props[..i + 1], ns, minify, complexTypes, delimiter, parse)
      == match NestedRun(props[..i], ns, minify, complexTypes, delimiter, parse)
         case Err(e) => Err(e)
         case Ok(st) => KeyStep(st, ns, minify, complexTypes, delimiter, parse, props[i])
  {
    assert props[..i + 1][..i] == props[..i];
  }

  /** Once a key throws, the whole rendering throws with that error. */
  lemma {:induction false} NestedRunErr(props: seq<(string, string)>, i: nat, ns: string, minify: bool,
                                        complexTypes: bool, delimiter: string, parse: string -> Option<Json>)
    requires i <= |props| && NestedRun(props[..i], ns, minify, complexTypes, delimiter, parse).Err?
    ensures NestedRun(props, ns, minify, complexTypes, delimiter, parse)
      == NestedRun(props[..i], ns, minify, complexTypes, delimiter, parse)
    decreases |props| - i
  {
    if i < |props| {
      var init := props[..|props| - 1];
      assert init[..i] == props[..i];
      NestedRunErr(init, i, ns, minify, complexTypes, delimiter, parse);
      var e := NestedRun(init, ns, minify, complexTypes, delimiter, parse).msg;
      assert NestedRun(props, ns, minify, complexTypes, delimiter, parse) == Err(e);
    } else {
      assert props[..i] == props;
    }
  }

  /** The lines getJsNestedPropsOutput returns. */
  function NestedLines(props: seq<(string, string)>, ns: string, minify: bool, complexTypes: bool, delimiter: string,
                       parse: string -> Option<Json>): Result<seq<string>> {
    match NestedRun(props, ns, minify, complexTypes, delimiter, parse)
    case Err(e) => Err(e)
    case Ok(st) => Ok(st.output)
  }

  /**
   * The while loop of the forEach callback: shifts off every segment but the
   * last, entering the ones the cursor already owns and creating the others.
   */
  method WalkSegments(shadow: Shadow, cursor: seq<string>, keys: seq<string>) returns (r: Result<Walked>)
    requires keys != []
    ensures r == WalkPath(shadow, cursor, "", keys[..|keys| - 1])
  {
    var obj, at, rest := shadow, cursor, keys;
    var propPart := "";
    while |rest| > 1
      invariant rest != []
      invariant WalkPath(shadow, cursor, "", keys[..|keys| - 1]) == WalkPath(obj, at, propPart, rest[..|rest| - 1])
    {
      var prop := rest[0];
      WalkPathShift(obj, at, propPart, rest);
      rest := rest[1..];
      var escapedProp := Escape(prop);
      var child := at + [escapedProp];
      if child !in obj {
        propPart := propPart + Bracket(escapedProp);
        obj := obj[child := Branch];
      } else if obj[child] == Leaf {
        return Err(PropertyTree.PrimitiveError);
      }
      at := child;
    }
    assert rest[..|rest| - 1] == [];
    r := Ok(Walked(obj, at, propPart));
  }

  /** The forEach callback of getJsNestedPropsOutput, for one key. */
  method RenderKey(st: State, ns: string, minify: bool, complexTypes: bool, delimiter: string,
                   parse: string -> Option<Json>, key: string, value: string)
    returns (r: Result<State>)
    ensures r == KeyStep(st, ns, minify, complexTypes, delimiter, parse, (key, value))
  {
    var keys := Split(key, delimiter);
    if keys == [] {
      return Err(UndefinedError);
    }
    var walk := WalkSegments(st.shadow, st.cursor, keys);
    if walk.Err? {
      return Err(walk.msg);
    }
    KeyStepOk(st, ns, minify, complexTypes, delimiter, parse, (key, value), walk.value);
    var output, shadow, cursor, propPart := st.output, walk.value.shadow, walk.value.cursor, walk.value.propPart;
    var objectValue := ObjectGuard(ns, minify, propPart);
    if objectValue !in output && propPart != "" {
      output := output + [objectValue];
    }
    var escapedValue := Escape(value);
    var val: Json;
    if complexTypes && parse(escapedValue).Some? {
      val := parse(escapedValue).value;
    } else {
      val := JString("\"" + escapedValue + "\"");
    }
    var lastProp := Escape(keys[|keys| - 1]);
    propPart := propPart + Bracket(lastProp);
    var propValue := PropStatement(ns, minify, propPart, TemplateText(val));
    if propValue !in output {
      output := output + [propValue];
    }
    shadow := Store(shadow, cursor + [lastProp], val);
    assert val == StoredValue(parse, complexTypes, value);
    assert output == Emit(st.output, ns, minify, walk.value.propPart, lastProp, TemplateText(val));
    r := Ok(State(output, shadow, cursor));
  }

  /**
   * getJsNestedPropsOutput: the shadow object and its cursor persist from
   * one key to the next; each key pushes its object guard and its leaf
   * statement unless that exact text is already in the output.
   */
  method GetJsNestedPropsOutput(options: Options, props: seq<(string, string)>, parse: string -> Option<Json>)
    returns (r: Result<seq<string>>)
    ensures r == NestedLines(props, options.namespace, options.minify, options.complexTypes,
                             options.nestingDelimiter, parse)
  {
    var ns, minify, complexTypes, delimiter := options.namespace, options.minify, options.complexTypes, options.nestingDelimiter;
    var st := State([], map[], []);
    for i := 0 to |props|
      invariant NestedRun(props[..i], ns, minify, complexTypes, delimiter, parse) == Ok(st)
    {
      NestedRunSnoc(props, i, ns, minify, complexTypes, delimiter, parse);
      var next := RenderKey(st, ns, minify, complexTypes, delimiter, parse, props[i].0, props[i].1);
      if next.Err? {
        NestedRunErr(props, i + 1, ns, minify, complexTypes, delimiter, parse);
        return Err(next.msg);
      }
      st := next.value;
    }
    assert props[..|props|] == props;
    r := Ok(st.output);
  }

  /** The namespace getJsOutput uses, and stores back into the options: "props" when none is set. */
  function ScriptNamespace(ns: string): (r: string)
    ensures r != ""
    ensures ns != "" ==> r == ns
  {
    if ns == "" then "props" else ns
  }

  /** The first line: `var NS=NS||{};`, or `var NS = NS || {};` when not minified. */
  function Header(ns: string, minify: bool): string {
    "var " + ns + Assign(minify) + ns + OrElse(minify) + "{};"
  }

  lemma {:induction false} HeaderText(ns: string, minify: bool)
    ensures minify ==> Header(ns, minify) == "var " + ns + "=" + ns + "||{};"
    ensures !minify ==> Header(ns, minify) == "var " + ns + " = " + ns + " || {};"
  {
    var o := OrElse(minify);
    var x := "var " + ns + Assign(minify) + ns;
    assert Header(ns, minify) == x + o + "{};";
    assert x + o + "{};" == x + (o + "{};");
  }

  /** `output.join('')` when minified, otherwise `output.join('\n') + '\n'`. */
  function Joined(lines: seq<string>, minify: bool): string {
    if minify then Join(lines, "") else Join(lines, "\n") + "\n"
  }

  /** The lines getJsSimplePropsOutput returns. */
  function SimpleLines(props: seq<(string, string)>, ns: string, minify: bool, complexTypes: bool,
                       parse: string -> Option<Json>): seq<string> {
    seq(|props|, i requires 0 <= i < |props| => SimpleStatement(ns, minify, complexTypes, parse, props[i]))
  }

  /** The text getJsOutput returns, given the namespace set before it runs. */
  function JsText(props: seq<(string, string)>, ns: string, minify: bool, nestedProps: bool, complexTypes: bool,
                  delimiter: string, parse: string -> Option<Json>): Result<string> {
    var namespace := ScriptNamespace(ns);
    var body := if nestedProps then NestedLines(props, namespace, minify, complexTypes, delimiter, parse)
                else Ok(SimpleLines(props, namespace, minify, complexTypes, parse));
    match body
    case Err(e) => Err(e)
    case Ok(lines) => Ok(Joined([Header(namespace, minify)] + lines, minify))
  }

  /**
   * getJsOutput: defaults the namespace to "props" (for good: the options
   * keep it), then joins the header and the statements.
   */
  method GetJsOutput(options: Options, props: seq<(string, string)>, parse: string -> Option<Json>)
    returns (r: Result<string>)
    modifies options`namespace
    ensures options.namespace == ScriptNamespace(old(options.namespace))
    ensures r == JsText(props, old(options.namespace), options.minify, options.nestedProps, options.complexTypes,
                        options.nestingDelimiter, parse)
  {
    if options.namespace == "" {
      options.namespace := "props";
    }
    var output: seq<string>;
    if options.minify {
      output := ["var " + options.namespace + "=" + options.namespace + "||{};"];
      HeaderText(options.namespace, true);
    } else {
      output := ["var " + options.namespace + " = " + options.namespace + " || {};"];
      HeaderText(options.namespace, false);
    }
    assert output == [Header(options.namespace, options.minify)];
    if options.nestedProps {
      var nested := GetJsNestedPropsOutput(options, props, parse);
      if nested.Err? {
        return Err(nested.msg);
      }
      output := output + nested.value;
    } else {
      var simple := GetJsSimplePropsOutput(options, props, parse);
      assert simple == SimpleLines(props, options.namespace, options.minify, options.complexTypes, parse);
      output := output + simple;
    }
    if options.minify {
      r := Ok(Join(output, ""));
    } else {
      r := Ok(Join(output, "\n") + "\n");
    }
  }

  /** Every line followed by a line feed. */
  function Terminated(lines: seq<string>): string {
    if lines == [] then "" else lines[0] + "\n" + Terminated(lines[1..])
  }

  /** Unminified output puts every line, the last one included, on a line of its own. */
  lemma {:induction false} JoinedTerminated(lines: seq<string>)
    requires lines != []
    ensures Joined(lines, false) == Terminated(lines)
  {
    if |lines| > 1 {
      JoinedTerminated(lines[1..]);
    }
  }

  /**
   * When no line contains a line feed, splitting unminified output at line
   * feeds gives back the lines, followed by the empty text after the final
   * line feed.
   */
  lemma {:induction false} TerminatedSplits(lines: seq<string>)
    requires forall i :: 0 <= i < |lines| ==> '\n' !in lines[i]
    ensures Split(Terminated(lines), "\n") == lines + [""]
  {
    if lines == [] {
      SplitLast("", '\n');
    } else {
      assert forall k :: 0 <= k < |lines[0]| ==> lines[0][k] != '\n';
      TerminatedSplits(lines[1..]);
      SplitFirst(lines[0], '\n', Terminated(lines[1..]));
      assert lines[0] + "\n" + Terminated(lines[1..]) == lines[0] + ['\n'] + Terminated(lines[1..]);
      assert [lines[0]] + (lines[1..] + [""]) == lines + [""];
    }
  }

  /** An empty properties file renders the header alone. */
  lemma {:induction false} EmptyScript(ns: string, minify: bool, nestedProps: bool, complexTypes: bool, delimiter: string,
                    parse: string -> Option<Json>)
    ensures JsText([], ns, minify, nestedProps, complexTypes, delimiter, parse)
      == Ok(Header(ScriptNamespace(ns), minify) + if minify then "" else "\n")
  {
    var h := Header(ScriptNamespace(ns), minify);
    assert SimpleLines([], ScriptNamespace(ns), minify, complexTypes, parse) == [];
    assert NestedLines([], ScriptNamespace(ns), minify, complexTypes, delimiter, parse) == Ok([]);
    assert [h] + [] == [h];
    assert Join([h], "") == h && Join([h], "\n") == h;
    assert h + "" == h;
    assert Joined([h], minify) == h + if minify then "" else "\n";
  }

  /** With the default namespace and minification, an empty file gives `var props=props||{};`. */
  lemma {:induction false} EmptyScriptDefault(nestedProps: bool, complexTypes: bool, delimiter: string, parse: string -> Option<Json>)
    ensures JsText([], "", true, nestedProps, complexTypes, delimiter, parse) == Ok("var props=props||{};")
  {
    EmptyScript("", true, nestedProps, complexTypes, delimiter, parse);
    assert Header("props", true) == "var props=props||{};";
  }

  /** No line occurs twice. */
  predicate NoDuplicates(lines: seq<string>) {
    forall i, j :: 0 <= i < j < |lines| ==> lines[i] != lines[j]
  }

  lemma {:induction false} PushNewKeeps(output: seq<string>, s: string)
    ensures var out := PushNew(output, s);
      s in out && |out| <= |output| + 1 && out[..|output|] == output &&
      (|out| == |output| + 1 ==> out[|output|] == s) &&
      (NoDuplicates(output) ==> NoDuplicates(out))
  {
  }

  /**
   * One key adds at most two lines at the end of the output: its object
   * guard (only when its `propPart` is not empty) and then its leaf
   * statement, each only when that exact text is new. Afterwards both are
   * in the output, and the output still has no duplicate line.
   */
  lemma {:induction false} EmitLines(output: seq<string>, ns: string, minify: bool, propPart: string, lastProp: string,
                  valueText: string)
    ensures var guard := ObjectGuard(ns, minify, propPart);
      var leaf := PropStatement(ns, minify, propPart + Bracket(lastProp), valueText);
      var out := Emit(output, ns, minify, propPart, lastProp, valueText);
      && out[..|output|] == output
      && |out| <= |output| + 2
      && leaf in out
      && (propPart != "" ==> guard in out)
      && (forall k :: |output| <= k < |out| ==> out[k] == leaf || (propPart != "" && out[k] == guard))
      && (|out| == |output| + 2 ==> out[|output|] == guard && out[|output| + 1] == leaf)
      && (NoDuplicates(output) ==> NoDuplicates(out))
  {
    var guard := ObjectGuard(ns, minify, propPart);
    var guarded := if propPart != "" then PushNew(output, guard) else output;
    var leaf := PropStatement(ns, minify, propPart + Bracket(lastProp), valueText);
    PushNewKeeps(output, guard);
    PushNewKeeps(guarded, leaf);
    var out := PushNew(guarded, leaf);
    assert out[..|output|] == guarded[..|output|];
  }

  /** A key without a delimiter emits no object guard: its one statement assigns the whole escaped key. */
  lemma {:induction false} SingleSegmentStep(st: State, ns: string, minify: bool, complexTypes: bool, delimiter: string,
                          parse: string -> Option<Json>, prop: (string, string))
    requires |Split(prop.0, delimiter)| == 1
    ensures KeyStep(st, ns, minify, complexTypes, delimiter, parse, prop).Ok?
    ensures KeyStep(st, ns, minify, complexTypes, delimiter, parse, prop).value.output
      == PushNew(st.output, PropStatement(ns, minify, Bracket(Escape(Split(prop.0, delimiter)[0])),
                                          ValueText(parse, complexTypes, prop.1)))
  {
    var parts := Split(prop.0, delimiter);
    assert parts[..0] == [];
    assert "" + Bracket(Escape(parts[0])) == Bracket(Escape(parts[0]));
  }

  /** Every segment escaped. */
  function EscapeAll(segs: seq<string>): (r: seq<string>)
    ensures |r| == |segs| && forall i :: 0 <= i < |segs| ==> r[i] == Escape(segs[i])
  {
    if segs == [] then [] else [Escape(segs[0])] + EscapeAll(segs[1..])
  }

  /** The property accesses of a path, `["a"]["b"]...`. */
  function Brackets(names: seq<string>): string {
    if names == [] then "" else Bracket(names[0]) + Brackets(names[1..])
  }

  /** None of the nodes along `segs` below the cursor exists yet. */
  predicate FreshBelow(shadow: Shadow, cursor: seq<string>, segs: seq<string>) {
    forall j :: 1 <= j <= |segs| ==> cursor + EscapeAll(segs[..j]) !in shadow
  }

  lemma {:induction false} EscapeAllCons(segs: seq<string>, j: nat)
    requires 1 <= j <= |segs|
    ensures EscapeAll(segs[..j]) == [Escape(segs[0])] + EscapeAll(segs[1..][..j - 1])
  {
    assert segs[..j][1..] == segs[1..][..j - 1];
  }

  /** Freshness below the cursor carries over to the next segment once its node is created. */
  lemma {:induction false} FreshTail(shadow: Shadow, cursor: seq<string>, segs: seq<string>)
    requires segs != [] && FreshBelow(shadow, cursor, segs)
    ensures var child := cursor + [Escape(segs[0])];
      FreshBelow(shadow[child := Branch], child, segs[1..])
  {
    var child := cursor + [Escape(segs[0])];
    forall j | 1 <= j <= |segs[1..]|
      ensures child + EscapeAll(segs[1..][..j]) !in shadow[child := Branch]
    {
      EscapeAllCons(segs, j + 1);
      assert child + EscapeAll(segs[1..][..j]) == cursor + EscapeAll(segs[..j + 1]);
    }
  }

  /** One step of a walk into a segment the cursor does not own yet. */
  lemma {:induction false} WalkCreates(shadow: Shadow, cursor: seq<string>, propPart: string, segs: seq<string>)
    requires segs != [] && cursor + [Escape(segs[0])] !in shadow
    ensures var child := cursor + [Escape(segs[0])];
      WalkPath(shadow, cursor, propPart, segs)
        == WalkPath(shadow[child := Branch], child, propPart + Bracket(Escape(segs[0])), segs[1..])
  {
  }

  /** A walk along a path that is new below the cursor creates every segment, so `propPart` spells out the whole path. */
  lemma {:induction false} FreshWalk(shadow: Shadow, cursor: seq<string>, propPart: string, segs: seq<string>)
    requires FreshBelow(shadow, cursor, segs)
    ensures WalkPath(shadow, cursor, propPart, segs).Ok?
    ensures WalkPath(shadow, cursor, propPart, segs).value.cursor == cursor + EscapeAll(segs)
    ensures WalkPath(shadow, cursor, propPart, segs).value.propPart == propPart + Brackets(EscapeAll(segs))
    decreases |segs|
  {
    if segs == [] {
      assert cursor + [] == cursor && propPart + "" == propPart;
    } else {
      var e := Escape(segs[0]);
      var child := cursor + [e];
      EscapeAllCons(segs, 1);
      assert segs[1..][..0] == [];
      assert child == cursor + EscapeAll(segs[..1]);
      WalkCreates(shadow, cursor, propPart, segs);
      FreshTail(shadow, cursor, segs);
      FreshWalk(shadow[child := Branch], child, propPart + Bracket(e), segs[1..]);
      assert EscapeAll(segs) == [e] + EscapeAll(segs[1..]);
      SeqAssoc(cursor, [e], EscapeAll(segs[1..]));
      SeqAssoc(propPart, Bracket(e), Brackets(EscapeAll(segs[1..])));
    }
  }

  // Proof step only: regrouping a concatenation, kept out of line so that FreshWalk stays cheap.
  lemma {:induction false} SeqAssoc<T>(a: seq<T>, b: seq<T>, c: seq<T>)
    ensures a + b + c == a + (b + c)
  {
  }

  /** getJsNestedPropsOutput never returns the same line twice. */
  lemma {:induction false} NestedRunNoDuplicates(props: seq<(string, string)>, ns: string, minify: bool,
                                                 complexTypes: bool, delimiter: string, parse: string -> Option<Json>)
    requires NestedRun(props, ns, minify, complexTypes, delimiter, parse).Ok?
    ensures NoDuplicates(NestedRun(props, ns, minify, complexTypes, delimiter, parse).value.output)
    decreases |props|
  {
    if props != [] {
      var init := props[..|props| - 1];
      var prop := props[|props| - 1];
      NestedRunNoDuplicates(init, ns, minify, complexTypes, delimiter, parse);
      var st := NestedRun(init, ns, minify, complexTypes, delimiter, parse).value;
      var parts := Split(prop.0, delimiter);
      var w := WalkPath(st.shadow, st.cursor, "", parts[..|parts| - 1]).value;
      EmitLines(st.output, ns, minify, w.propPart, Escape(parts[|parts| - 1]),
                ValueText(parse, complexTypes, prop.1));
    }
  }

  lemma {:induction false} BracketsAppend(names: seq<string>, last: string)
    ensures Brackets(names + [last]) == Brackets(names) + Bracket(last)
  {
    if names != [] {
      BracketsAppend(names[1..], last);
      assert (names + [last])[1..] == names[1..] + [last];
    }
  }

  /** The property accesses of a path: those of its intermediate segments, then that of its last. */
  lemma {:induction false} PathBrackets(parts: seq<string>)
    requires parts != []
    ensures Brackets(EscapeAll(parts[..|parts| - 1])) + Bracket(Escape(parts[|parts| - 1])) == Brackets(EscapeAll(parts))
  {
    var segs, last := parts[..|parts| - 1], parts[|parts| - 1];
    assert parts == segs + [last];
    EscapeAllAppend(segs, last);
    BracketsAppend(EscapeAll(segs), Escape(last));
  }

  lemma {:induction false} EscapeAllAppend(segs: seq<string>, last: string)
    ensures EscapeAll(segs + [last]) == EscapeAll(segs) + [Escape(last)]
  {
    var l, r := EscapeAll(segs + [last]), EscapeAll(segs) + [Escape(last)];
    assert |l| == |r|;
    assert forall i :: 0 <= i < |l| ==> l[i] == r[i];
  }

  /**
   * The first key starts from an empty shadow object, so its guard names
   * the whole intermediate path and its leaf statement the whole path
   * (PathBrackets); no shorter prefix gets a guard.
   */
  lemma {:induction false} FirstKey(prop: (string, string), ns: string, minify: bool, complexTypes: bool, delimiter: string,
                 parse: string -> Option<Json>)
    requires Split(prop.0, delimiter) != []
    ensures var parts := Split(prop.0, delimiter);
      NestedLines([prop], ns, minify, complexTypes, delimiter, parse)
        == Ok(Emit([], ns, minify, Brackets(EscapeAll(parts[..|parts| - 1])), Escape(parts[|parts| - 1]),
                   ValueText(parse, complexTypes, prop.1)))
  {
    var parts := Split(prop.0, delimiter);
    var segs := parts[..|parts| - 1];
    FreshWalk(map[], [], "", segs);
    assert [prop][..0] == [];
    assert NestedRun([prop], ns, minify, complexTypes, delimiter, parse)
      == KeyStep(State([], map[], []), ns, minify, complexTypes, delimiter, parse, prop);
    assert "" + Brackets(EscapeAll(segs)) == Brackets(EscapeAll(segs));
  }
}
