/**
 * Two consequences of the nested script renderer's design (index.js:94-148):
 * the object guard covers only the whole intermediate path, and the cursor
 * `obj` is never reset between keys. The nested JSON renderer walks from the
 * root for every key, so it accepts input the script renderer rejects.
 */
module NestedWitnesses {
  import opened Wrappers
  import opened Json
  import opened Escaping
  import opened Splitting
  import opened ScriptOutput
  import PropertyTree

  lemma {:induction false} SplitTwo(x: string, y: string)
    requires NoDot(x) && NoDot(y)
    ensures Split(x + "." + y, ".") == [x, y]
  {
    assert x + "." + y == x + ['.'] + y;
    SplitFirst(x, '.', y);
    SplitLast(y, '.');
  }

  lemma {:induction false} SplitThree(x: string, y: string, z: string)
    requires NoDot(x) && NoDot(y) && NoDot(z)
    ensures Split(x + "." + y + "." + z, ".") == [x, y, z]
  {
    assert x + "." + y + "." + z == x + ['.'] + (y + "." + z);
    SplitFirst(x, '.', y + "." + z);
    SplitTwo(y, z);
  }

  /** A guard never coincides with a shorter guard, nor with a leaf statement whose value is a quoted string. */
  lemma {:induction false} GuardsDiffer(ns: string, minify: bool, shorter: string, path: string, last: string, value: string)
    requires |shorter| < |path|
    ensures ObjectGuard(ns, minify, shorter) != ObjectGuard(ns, minify, path)
    ensures ObjectGuard(ns, minify, path) != PropStatement(ns, minify, last, "\"" + value + "\"")
    ensures ObjectGuard(ns, minify, shorter) != PropStatement(ns, minify, last, "\"" + value + "\"")
  {
    var short, guard := ObjectGuard(ns, minify, shorter), ObjectGuard(ns, minify, path);
    var leaf := PropStatement(ns, minify, last, "\"" + value + "\"");
    assert |short| < |guard|;
    assert guard[|guard| - 2] == '}' && short[|short| - 2] == '}' && leaf[|leaf| - 2] == '"';
  }

  /** The lines of a first key that splits into `x`, `y`, `z`: the guard of its intermediate path, then its leaf. */
  lemma {:induction false} ThreeSegmentKey(key: string, x: string, y: string, z: string, v: string, ns: string, minify: bool,
                        parse: string -> Option<Json>)
    requires Split(key, ".") == [x, y, z]
    ensures NestedLines([(key, v)], ns, minify, false, ".", parse)
      == Ok(Emit([], ns, minify, Brackets(EscapeAll([x, y])), Escape(z), ValueText(parse, false, v)))
  {
    FirstKey((key, v), ns, minify, false, ".", parse);
    assert [x, y, z][..2] == [x, y];
  }

  /** The property accesses of a two-segment path. */
  lemma {:induction false} TwoBrackets(x: string, y: string)
    ensures Brackets(EscapeAll([x, y])) == Bracket(Escape(x)) + Bracket(Escape(y))
  {
    var b2 := Bracket(Escape(y));
    var nil: seq<string> := [];
    assert EscapeAll([x, y]) == [Escape(x), Escape(y)];
    assert [Escape(x), Escape(y)][1..] == [Escape(y)] && [Escape(y)][1..] == nil;
    assert Brackets([Escape(y)]) == b2 + "";
    assert b2 + "" == b2;
  }

  /** From an empty output, a non-empty path emits its guard, then its leaf. */
  lemma {:induction false} EmitFresh(ns: string, minify: bool, path: string, last: string, value: string)
    requires path != ""
    ensures Emit([], ns, minify, path, last, "\"" + value + "\"")
      == [ObjectGuard(ns, minify, path), PropStatement(ns, minify, path + Bracket(last), "\"" + value + "\"")]
  {
    GuardsDiffer(ns, minify, "", path, path + Bracket(last), value);
  }

  /** A first key `x.y.z` emits the guard for `[x][y]`, then its leaf statement. */
  lemma {:induction false} ThreeSegmentLines(x: string, y: string, z: string, v: string, ns: string, minify: bool,
                          parse: string -> Option<Json>)
    requires NoDot(x) && NoDot(y) && NoDot(z)
    ensures var path := Bracket(Escape(x)) + Bracket(Escape(y));
      NestedLines([(x + "." + y + "." + z, v)], ns, minify, false, ".", parse)
        == Ok([ObjectGuard(ns, minify, path),
               PropStatement(ns, minify, path + Bracket(Escape(z)), "\"" + Escape(v) + "\"")])
  {
    SplitThree(x, y, z);
    ThreeSegmentKey(x + "." + y + "." + z, x, y, z, v, ns, minify, parse);
    TwoBrackets(x, y);
    assert ValueText(parse, false, v) == "\"" + Escape(v) + "\"";
    EmitFresh(ns, minify, Bracket(Escape(x)) + Bracket(Escape(y)), Escape(z), Escape(v));
  }

  /**
   * A first key `x.y.z` emits no guard for `[x]` alone: the script assigns
   * through `NS[x]` without creating it.
   */
  lemma {:induction false} MissingPrefixGuard(x: string, y: string, z: string, v: string, ns: string, minify: bool,
                           parse: string -> Option<Json>)
    requires NoDot(x) && NoDot(y) && NoDot(z)
    ensures NestedLines([(x + "." + y + "." + z, v)], ns, minify, false, ".", parse).Ok?
    ensures ObjectGuard(ns, minify, Bracket(Escape(x)))
      !in NestedLines([(x + "." + y + "." + z, v)], ns, minify, false, ".", parse).value
  {
    ThreeSegmentLines(x, y, z, v, ns, minify, parse);
    var path := Bracket(Escape(x)) + Bracket(Escape(y));
    GuardsDiffer(ns, minify, Bracket(Escape(x)), path, path + Bracket(Escape(z)), Escape(v));
  }

  /** From an empty shadow object, walking one segment creates it and moves the cursor there. */
  lemma {:induction false} OneSegmentWalk(x: string)
    ensures WalkPath(map[], [], "", [x]) == Ok(Walked(map[[Escape(x)] := Branch], [Escape(x)], Bracket(Escape(x))))
  {
    var ex := Escape(x);
    var nil: seq<string> := [];
    assert nil + [ex] == [ex];
    assert [x][1..] == [];
    assert "" + Bracket(ex) == Bracket(ex);
  }

  /** Storing a string makes its path a primitive. */
  lemma {:induction false} StoreString(shadow: Shadow, path: seq<string>, v: string)
    ensures path in Store(shadow, path, JString(v)) && Store(shadow, path, JString(v))[path] == Leaf
  {
    assert Descendants(path, JString(v)) == map[];
  }

  /** One key whose walk succeeds: the cursor stays where the walk ended and the last segment is stored below it. */
  lemma {:induction false} KeyStepWalked(st: State, ns: string, minify: bool, parse: string -> Option<Json>,
                                         prop: (string, string), parts: seq<string>, w: Walked)
    requires Split(prop.0, ".") == parts && parts != []
    requires WalkPath(st.shadow, st.cursor, "", parts[..|parts| - 1]) == Ok(w)
    ensures KeyStep(st, ns, minify, false, ".", parse, prop).Ok?
    ensures KeyStep(st, ns, minify, false, ".", parse, prop).value.cursor == w.cursor
    ensures KeyStep(st, ns, minify, false, ".", parse, prop).value.shadow
      == Store(w.shadow, w.cursor + [Escape(parts[|parts| - 1])], JString(prop.1))
  {
  }

  /** The first key starts from an empty shadow object. */
  lemma {:induction false} NestedRunOne(prop: (string, string), ns: string, minify: bool,
                                        parse: string -> Option<Json>)
    ensures NestedRun([prop], ns, minify, false, ".", parse)
      == KeyStep(State([], map[], []), ns, minify, false, ".", parse, prop)
  {
    assert [prop][..0] == [];
  }

  /** After a first key `x.y` the cursor stays at `x`, and `[x][y]` is a primitive. */
  lemma {:induction false} CollisionFirstKey(x: string, y: string, v1: string, ns: string, minify: bool,
                                             parse: string -> Option<Json>)
    requires NoDot(x) && NoDot(y)
    ensures var st := NestedRun([(x + "." + y, v1)], ns, minify, false, ".", parse);
      st.Ok? && st.value.cursor == [Escape(x)] && [Escape(x), Escape(y)] in st.value.shadow
      && st.value.shadow[[Escape(x), Escape(y)]] == Leaf
  {
    var p1: (string, string) := (x + "." + y, v1);
    var ex, ey := Escape(x), Escape(y);
    var w := Walked(map[[ex] := Branch], [ex], Bracket(ex));
    SplitTwo(x, y);
    NestedRunOne(p1, ns, minify, parse);
    assert [x, y][..1] == [x];
    OneSegmentWalk(x);
    KeyStepWalked(State([], map[], []), ns, minify, parse, p1, [x, y], w);
    assert [ex] + [ey] == [ex, ey];
    StoreString(w.shadow, [ex, ey], v1);
  }

  /**
   * `x.y` then `y.z`: after the first key the cursor stays at `x`, which owns
   * the leaf `y`, so the second key walks into that leaf and the script
   * renderer throws.
   */
  lemma {:induction false} CollisionScript(x: string, y: string, z: string, v1: string, v2: string, ns: string,
                                           minify: bool, parse: string -> Option<Json>)
    requires NoDot(x) && NoDot(y) && NoDot(z)
    ensures NestedLines([(x + "." + y, v1), (y + "." + z, v2)], ns, minify, false, ".", parse)
      == Err(PropertyTree.PrimitiveError)
  {
    var p1: (string, string), p2: (string, string) := (x + "." + y, v1), (y + "." + z, v2);
    CollisionFirstKey(x, y, v1, ns, minify, parse);
    var st := NestedRun([p1], ns, minify, false, ".", parse).value;
    assert KeyStep(st, ns, minify, false, ".", parse, p2) == Err(PropertyTree.PrimitiveError) by {
      var ex, ey := Escape(x), Escape(y);
      SplitTwo(y, z);
      assert [y, z][..1] == [y];
      assert [ex] + [ey] == [ex, ey];
      assert WalkPath(st.shadow, [ex], "", [y]) == Err(PropertyTree.PrimitiveError);
    }
    assert NestedRun([p1, p2], ns, minify, false, ".", parse) == KeyStep(st, ns, minify, false, ".", parse, p2) by {
      assert [p1, p2][..1] == [p1];
    }
  }

  /** The same two keys build a tree: each walk starts from the root, so `y` goes beside `x`. */
  lemma {:induction false} CollisionTree(x: string, y: string, z: string, v1: string, v2: string, parse: string -> Option<Json>)
    requires NoDot(x) && NoDot(y) && NoDot(z) && x != y
    ensures var built := PropertyTree.BuildTree([(x + "." + y, v1), (y + "." + z, v2)], ".", false, parse);
      && built.Ok?
      && PropertyTree.GetPath(JObject(built.value), [x, y]) == Some(JString(v1))
      && PropertyTree.GetPath(JObject(built.value), [y, z]) == Some(JString(v2))
  {
    var props := [(x + "." + y, v1), (y + "." + z, v2)];
    SplitTwo(x, y);
    SplitTwo(y, z);
    assert PropertyTree.Segments(props[0].0, ".") == [x, y];
    assert PropertyTree.Segments(props[1].0, ".") == [y, z];
    assert [x, y][0] != [y, z][0];
    assert PropertyTree.Diverge([x, y], [y, z]);
    PropertyTree.BuildTreeFinds(props, ".", false, parse);
    assert PropertyTree.Paths(props, ".")[0] == [x, y] && PropertyTree.Paths(props, ".")[1] == [y, z];
  }
}
