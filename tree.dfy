/**
 * The nested tree builder: `addProperty` and `getNestedObject` (index.js).
 * The tree is a JSON object value; a branch is a `JObject`, anything else a
 * leaf. Walking a key's path through an existing leaf throws in the source
 * (the module is in strict mode, and assigning a property on a primitive
 * value is a TypeError there), which the model reports as `Err`.
 */
module PropertyTree {
  import opened Wrappers
  import opened Json
  import opened Splitting

  /** The own properties of an object, in the order JavaScript lists them (AssignKeys). */
  type Members = seq<(string, Json)>

  /** The message of the TypeError thrown when a property is set on a primitive value. */
  const PrimitiveError: string := "Cannot create property on primitive value"

  predicate HasKey(m: Members, k: string) {
    exists i :: 0 <= i < |m| && m[i].0 == k
  }

  /** `obj[k]` for an own property `k`. */
  function Lookup(m: Members, k: string): (r: Option<Json>)
    ensures r.Some? <==> HasKey(m, k)
  {
    if m == [] then None
    else if m[0].0 == k then Some(m[0].1)
    else
      HasKeyTail(m, k);
      Lookup(m[1..], k)
  }

  /** Past a first property named otherwise, `k` is an own property exactly when the rest has it. */
  lemma {:induction false} HasKeyTail(m: Members, k: string)
    requires m != [] && m[0].0 != k
    ensures HasKey(m, k) <==> HasKey(m[1..], k)
  {
    if HasKey(m, k) {
      var i :| 0 <= i < |m| && m[i].0 == k;
      assert m[1..][i - 1] == m[i];
    }
    if HasKey(m[1..], k) {
      var i :| 0 <= i < |m[1..]| && m[1..][i].0 == k;
      assert m[i + 1].0 == k;
    }
  }

  /** The property names of an object, in order. */
  function Keys(m: Members): (ks: seq<string>)
    ensures |ks| == |m| && forall i :: 0 <= i < |m| ==> ks[i] == m[i].0
  {
    if m == [] then [] else [m[0].0] + Keys(m[1..])
  }

  /** The decimal digit for `d`. */
  function DigitChar(d: nat): (c: char)
    requires d < 10
    ensures '0' <= c <= '9'
  {
    (48 + d) as char
  }

  /** The canonical decimal numeral of `n`, as `ToString` writes a non-negative integer. */
  function DecimalText(n: nat): (s: string)
    ensures s != [] && forall i :: 0 <= i < |s| ==> '0' <= s[i] <= '9'
  {
    if n < 10 then [DigitChar(n)] else DecimalText(n / 10) + [DigitChar(n % 10)]
  }

  /** The number a string of decimal digits denotes (anything else is not compared by its value). */
  function DigitsValue(s: string): nat
    decreases |s|
  {
    if s == [] then 0
    else
      var c := s[|s| - 1];
      DigitsValue(s[..|s| - 1]) * 10 + (if '0' <= c <= '9' then c as int - '0' as int else 0)
  }

  /**
   * An array index: a property name `P` for which `ToString(ToUint32(P))` is
   * `P` and whose value is not 2^32 - 1, that is, the canonical numeral of an
   * integer below 2^32 - 1.
   */
  predicate IsArrayIndex(k: string) {
    DecimalText(DigitsValue(k)) == k && DigitsValue(k) < 0xFFFF_FFFF
  }

  /** Distinct array indices have distinct values. */
  lemma {:induction false} ArrayIndexValue(a: string, b: string)
    requires IsArrayIndex(a) && IsArrayIndex(b) && a != b
    ensures DigitsValue(a) != DigitsValue(b)
  {
  }

  /** A name that starts with anything but a digit is not an array index. */
  lemma {:induction false} NotArrayIndex(k: string)
    requires k != [] && !('0' <= k[0] <= '9')
    ensures !IsArrayIndex(k)
  {
  }

  /**
   * Among new properties, `k` is listed before `k2`: JavaScript lists the
   * array indices of an object first, in ascending numeric order, and every
   * other name after them in creation order.
   */
  predicate ListedBefore(k: string, k2: string) {
    IsArrayIndex(k) && (!IsArrayIndex(k2) || DigitsValue(k) < DigitsValue(k2))
  }

  /** Where a new property `k` goes among the names `ks`: before the first one it is listed before, or last. */
  function Slot(ks: seq<string>, k: string): (i: nat)
    ensures i <= |ks|
    ensures forall j :: 0 <= j < i ==> !ListedBefore(k, ks[j])
    ensures i < |ks| ==> ListedBefore(k, ks[i])
  {
    if ks == [] || ListedBefore(k, ks[0]) then 0
    else
      var i := 1 + Slot(ks[1..], k);
      assert forall j :: 1 <= j < i ==> ks[j] == ks[1..][j - 1];
      i
  }

  /**
   * The order of own properties an object keeps (the OrdinaryOwnPropertyKeys
   * order of ECMA-262): an array index is preceded only by smaller array
   * indices, so the indices come first, ascending.
   */
  predicate OrderedKeys(ks: seq<string>) {
    forall i, j :: 0 <= i < j < |ks| && IsArrayIndex(ks[j]) ==>
      IsArrayIndex(ks[i]) && DigitsValue(ks[i]) < DigitsValue(ks[j])
  }

  /**
   * `obj[k] = v`: `k` now holds `v` and every other property is unchanged.
   * An existing property keeps its place; a new one goes where JavaScript
   * lists it (AssignKeys).
   */
  function Assign(m: Members, k: string, v: Json): (r: Members)
    ensures Lookup(r, k) == Some(v)
    ensures forall k' :: k' != k ==> Lookup(r, k') == Lookup(m, k')
  {
    if m == [] then [(k, v)]
    else if m[0].0 == k then [(k, v)] + m[1..]
    else if Lookup(m, k).None? && ListedBefore(k, m[0].0) then
      var r := [(k, v)] + m;
      assert r[1..] == m;
      r
    else
      var r := [m[0]] + Assign(m[1..], k, v);
      assert r[1..] == Assign(m[1..], k, v);
      r
  }

  /** Assigning keeps the names of the properties and their order; a new name is inserted at its Slot. */
  lemma {:induction false} AssignKeys(m: Members, k: string, v: Json)
    ensures HasKey(m, k) ==> Keys(Assign(m, k, v)) == Keys(m)
    ensures !HasKey(m, k) ==>
      var s := Slot(Keys(m), k);
      Keys(Assign(m, k, v)) == Keys(m)[..s] + [k] + Keys(m)[s..]
  {
    if m == [] {
    } else if m[0].0 == k {
      AssignKeysHere(m, k, v);
    } else if !HasKey(m, k) && ListedBefore(k, m[0].0) {
      AssignKeysFront(m, k, v);
    } else {
      HasKeyTail(m, k);
      KeysCons(m[0], m[1..]);
      assert [m[0]] + m[1..] == m;
      AssignKeys(m[1..], k, v);
      AssignKeysStep(m, k, v);
    }
  }

  /** AssignKeys when the first property has the name: it is replaced where it stands. */
  lemma {:induction false} AssignKeysHere(m: Members, k: string, v: Json)
    requires m != [] && m[0].0 == k
    ensures HasKey(m, k) && Keys(Assign(m, k, v)) == Keys(m)
  {
    KeysCons((k, v), m[1..]);
    KeysCons(m[0], m[1..]);
    assert [m[0]] + m[1..] == m;
  }

  /** AssignKeys when a new name is listed before the first property: it goes in front. */
  lemma {:induction false} AssignKeysFront(m: Members, k: string, v: Json)
    requires m != [] && m[0].0 != k && !HasKey(m, k) && ListedBefore(k, m[0].0)
    ensures var s := Slot(Keys(m), k);
      Keys(Assign(m, k, v)) == Keys(m)[..s] + [k] + Keys(m)[s..]
  {
    var ks := Keys(m);
    assert Assign(m, k, v) == [(k, v)] + m;
    KeysCons((k, v), m);
    assert Slot(ks, k) == 0 by {
      assert ks[0] == m[0].0;
    }
    FrontInsert(ks, k);
  }

  /** Inserting at position 0 puts the element in front. */
  lemma {:induction false} FrontInsert<T>(xs: seq<T>, k: T)
    ensures xs[..0] + [k] + xs[0..] == [k] + xs
  {
    assert xs[..0] == [] && xs[0..] == xs;
  }

  /** The inductive step of AssignKeys: past a first property the new one is not listed before. */
  lemma {:induction false} AssignKeysStep(m: Members, k: string, v: Json)
    requires m != [] && m[0].0 != k && Keys(m) == [m[0].0] + Keys(m[1..])
    requires HasKey(m, k) <==> HasKey(m[1..], k)
    requires HasKey(m, k) || !ListedBefore(k, m[0].0)
    requires HasKey(m[1..], k) ==> Keys(Assign(m[1..], k, v)) == Keys(m[1..])
    requires !HasKey(m[1..], k) ==>
      var s := Slot(Keys(m[1..]), k);
      Keys(Assign(m[1..], k, v)) == Keys(m[1..])[..s] + [k] + Keys(m[1..])[s..]
    ensures HasKey(m, k) ==> Keys(Assign(m, k, v)) == Keys(m)
    ensures !HasKey(m, k) ==>
      var s := Slot(Keys(m), k);
      Keys(Assign(m, k, v)) == Keys(m)[..s] + [k] + Keys(m)[s..]
  {
    var rest := Keys(m[1..]);
    KeysCons(m[0], Assign(m[1..], k, v));
    assert Keys(m)[1..] == rest;
    if !HasKey(m, k) {
      var s := Slot(rest, k);
      SlotCons(m[0].0, rest, k);
      ConsInsert(m[0].0, rest, s, k);
    }
  }

  /** Past a first name the new one is not listed before, its Slot is one further on. */
  lemma {:induction false} SlotCons(x: string, rest: seq<string>, k: string)
    requires !ListedBefore(k, x)
    ensures Slot([x] + rest, k) == Slot(rest, k) + 1
  {
    assert ([x] + rest)[1..] == rest;
  }

  /** Inserting into a sequence after its first element. */
  lemma {:induction false} ConsInsert<T>(x: T, rest: seq<T>, s: nat, k: T)
    requires s <= |rest|
    ensures [x] + (rest[..s] + [k] + rest[s..]) == ([x] + rest)[..s + 1] + [k] + ([x] + rest)[s + 1..]
  {
    var xs := [x] + rest;
    assert xs[..s + 1] == [x] + rest[..s];
    assert xs[s + 1..] == rest[s..];
  }

  /** A new name inserted at its Slot keeps the names in JavaScript's order. */
  lemma {:induction false} InsertOrdered(ks: seq<string>, k: string)
    requires OrderedKeys(ks) && k !in ks
    ensures var s := Slot(ks, k); OrderedKeys(ks[..s] + [k] + ks[s..])
  {
    var s := Slot(ks, k);
    var r := ks[..s] + [k] + ks[s..];
    forall i, j | 0 <= i < j < |r| && IsArrayIndex(r[j])
      ensures IsArrayIndex(r[i]) && DigitsValue(r[i]) < DigitsValue(r[j])
    {
      InsertPair(ks, k, i, j);
    }
  }

  /** One pair of positions of InsertOrdered. */
  lemma {:induction false} InsertPair(ks: seq<string>, k: string, i: nat, j: nat)
    requires OrderedKeys(ks) && k !in ks
    requires var s := Slot(ks, k); i < j < |ks| + 1 && IsArrayIndex((ks[..s] + [k] + ks[s..])[j])
    ensures var r := ks[..Slot(ks, k)] + [k] + ks[Slot(ks, k)..];
      IsArrayIndex(r[i]) && DigitsValue(r[i]) < DigitsValue(r[j])
  {
    var s := Slot(ks, k);
    InsertAt(ks, s, k, i);
    InsertAt(ks, s, k, j);
    if j == s {
      IndexBeforeNew(k, ks[i]);
    } else if i == s {
      NewBeforeIndex(ks, k, s, j - 1);
    } else if j < s {
      assert IsArrayIndex(ks[j]);
    } else if i < s {
      assert IsArrayIndex(ks[j - 1]);
    } else {
      assert IsArrayIndex(ks[j - 1]) && i - 1 < j - 1;
    }
  }

  /** The element at position `i` after inserting `k` at `s`. */
  lemma {:induction false} InsertAt<T>(xs: seq<T>, s: nat, k: T, i: nat)
    requires s <= |xs| && i <= |xs|
    ensures (xs[..s] + [k] + xs[s..])[i] == if i < s then xs[i] else if i == s then k else xs[i - 1]
  {
  }

  /** A name the new one is not listed before is a smaller array index, when the new one is an array index. */
  lemma {:induction false} IndexBeforeNew(k: string, a: string)
    requires IsArrayIndex(k) && !ListedBefore(k, a) && a != k
    ensures IsArrayIndex(a) && DigitsValue(a) < DigitsValue(k)
  {
    ArrayIndexValue(k, a);
  }

  /** The names after the new one's slot: an array index among them is larger than the new name. */
  lemma {:induction false} NewBeforeIndex(ks: seq<string>, k: string, s: nat, j: nat)
    requires OrderedKeys(ks) && s <= j < |ks| && ListedBefore(k, ks[s]) && IsArrayIndex(ks[j])
    ensures IsArrayIndex(k) && DigitsValue(k) < DigitsValue(ks[j])
  {
    if s < j {
      assert IsArrayIndex(ks[s]) && DigitsValue(ks[s]) < DigitsValue(ks[j]);
    }
  }

  /** Assigning keeps the names of an object in JavaScript's order. */
  lemma {:induction false} AssignOrdered(m: Members, k: string, v: Json)
    requires OrderedKeys(Keys(m))
    ensures OrderedKeys(Keys(Assign(m, k, v)))
  {
    AssignKeys(m, k, v);
    if !HasKey(m, k) {
      assert k !in Keys(m);
      InsertOrdered(Keys(m), k);
    }
  }

  /** Every property after an assignment is the assigned one or was there before. */
  lemma {:induction false} AssignMembers(m: Members, k: string, v: Json)
    ensures forall i :: 0 <= i < |Assign(m, k, v)| ==> Assign(m, k, v)[i] == (k, v) || Assign(m, k, v)[i] in m
  {
    if m != [] && m[0].0 != k && !(Lookup(m, k).None? && ListedBefore(k, m[0].0)) {
      AssignMembers(m[1..], k, v);
      var r := Assign(m, k, v);
      forall i | 1 <= i < |r| ensures r[i] == (k, v) || r[i] in m {
        assert r[i] == Assign(m[1..], k, v)[i - 1];
      }
    } else if m != [] && m[0].0 == k {
      assert forall i :: 1 <= i < |m| ==> m[i] in m;
    }
  }

  /** A name the object does not have, and that is not an array index, is appended. */
  lemma {:induction false} AssignAppends(m: Members, k: string, v: Json)
    requires !HasKey(m, k) && !IsArrayIndex(k)
    ensures Assign(m, k, v) == m + [(k, v)]
  {
    if m != [] {
      HasKeyTail(m, k);
      AssignAppends(m[1..], k, v);
      assert [m[0]] + (m[1..] + [(k, v)]) == m + [(k, v)];
    }
  }

  lemma {:induction false} KeysCons(first: (string, Json), rest: Members)
    ensures Keys([first] + rest) == [first.0] + Keys(rest)
  {
    assert ([first] + rest)[1..] == rest;
  }

  /** getParsedJSON: the parsed value, or the string itself when it does not parse. */
  function GetParsedJson(parse: string -> Option<Json>, s: string): Json {
    match parse(s)
    case Some(j) => j
    case None => JString(s)
  }

  /** The leaf value stored for a raw property value. */
  function Coerce(parse: string -> Option<Json>, complexTypes: bool, s: string): Json {
    if complexTypes then GetParsedJson(parse, s) else JString(s)
  }

  /**
   * The segments `addProperty` walks: `key.split(delimiter)`; when that is
   * empty (an empty key split on an empty delimiter) `keys.shift()` yields
   * `undefined`, whose property name is "undefined".
   */
  function Segments(key: string, delimiter: string): (segs: seq<string>)
    ensures |segs| >= 1
  {
    var parts := Split(key, delimiter);
    if parts == [] then ["undefined"] else parts
  }

  /** The node reached from `n` along `path`, if every step exists. */
  function GetPath(n: Json, path: seq<string>): Option<Json>
    decreases |path|
  {
    if path == [] then Some(n)
    else match n
      case JObject(m) =>
        (match Lookup(m, path[0])
         case Some(child) => GetPath(child, path[1..])
         case None => None)
      case _ => None
  }

  /** The reference definition of addProperty: insert leaf `v` at path `segs` below the object `m`. */
  function Put(m: Members, segs: seq<string>, v: Json): Result<Members>
    requires |segs| >= 1
    decreases |segs|
  {
    if |segs| == 1 then Ok(Assign(m, segs[0], v))
    else
      var next := Lookup(m, segs[0]);
      if next.Some? && !next.value.JObject? then Err(PrimitiveError)
      else
        var child := if next.Some? then next.value.members else [];
        match Put(child, segs[1..], v)
        case Err(e) => Err(e)
        case Ok(c) => Ok(Assign(m, segs[0], JObject(c)))
  }

  /**
   * The ancestors of the node the walk has reached, outermost first, each
   * with the property name the walk took out of it; `Plug` puts an updated
   * node back into them (what in-place mutation through `obj` achieves).
   */
  function Plug(ctx: seq<(Members, string)>, r: Result<Members>): Result<Members>
    decreases |ctx|
  {
    if ctx == [] || r.Err? then r
    else
      var (parent, k) := ctx[|ctx| - 1];
      Plug(ctx[..|ctx| - 1], Ok(Assign(parent, k, JObject(r.value))))
  }

  /**
   * addProperty: walks `key`'s segments from the root, creating missing
   * branches, then assigns the (optionally parsed) value at the last segment.
   */
  method AddProperty(obj: Members, key: string, value: string, delimiter: string,
                     complexTypes: bool, parse: string -> Option<Json>)
    returns (r: Result<Members>)
    ensures r == Put(obj, Segments(key, delimiter), Coerce(parse, complexTypes, value))
  {
    ghost var v := Coerce(parse, complexTypes, value);
    ghost var goal := Put(obj, Segments(key, delimiter), v);
    var keys := Split(key, delimiter);
    var cur := obj;
    var ctx: seq<(Members, string)> := [];
    while |keys| > 1
      invariant keys == [] ==> ctx == [] && cur == obj && Segments(key, delimiter) == ["undefined"]
      invariant keys != [] ==> Plug(ctx, Put(cur, keys, v)) == goal
    {
      var prop := keys[0];
      keys := keys[1..];
      var next := Lookup(cur, prop);
      if next.Some? && !next.value.JObject? {
        PlugErr(ctx, PrimitiveError);
        return Err(PrimitiveError);
      }
      PlugDown(ctx, cur, [prop] + keys, v);
      assert ([prop] + keys)[1..] == keys;
      ctx := ctx + [(cur, prop)];
      cur := if next.Some? then next.value.members else [];
    }
    var val := if complexTypes then GetParsedJson(parse, value) else JString(value);
    var last := if keys == [] then "undefined" else keys[0];
    cur := Assign(cur, last, val);
    while ctx != []
      invariant Plug(ctx, Ok(cur)) == goal
    {
      var (parent, k) := ctx[|ctx| - 1];
      cur := Assign(parent, k, JObject(cur));
      ctx := ctx[..|ctx| - 1];
    }
    r := Ok(cur);
  }

  /** One step down the walk: the updated child, plugged in one level deeper, gives the same tree. */
  lemma {:induction false} PlugDown(ctx: seq<(Members, string)>, cur: Members, keys: seq<string>, v: Json)
    requires |keys| > 1
    requires var next := Lookup(cur, keys[0]); !(next.Some? && !next.value.JObject?)
    ensures var next := Lookup(cur, keys[0]);
      var child := if next.Some? then next.value.members else [];
      Plug(ctx + [(cur, keys[0])], Put(child, keys[1..], v)) == Plug(ctx, Put(cur, keys, v))
  {
    var next := Lookup(cur, keys[0]);
    var child := if next.Some? then next.value.members else [];
    var deeper := ctx + [(cur, keys[0])];
    assert deeper[..|deeper| - 1] == ctx;
    match Put(child, keys[1..], v)
    case Err(e) =>
      PlugErr(deeper, e);
      PlugErr(ctx, e);
    case Ok(c) =>
  }

  lemma {:induction false} PlugErr(ctx: seq<(Members, string)>, e: string)
    ensures Plug(ctx, Err(e)) == Err(e)
  {
  }

  /** A node that exists and is not an object: walking through it throws. */
  predicate IsLeafAt(n: Json, path: seq<string>) {
    GetPath(n, path).Some? && !GetPath(n, path).value.JObject?
  }

  predicate IsPrefix(p: seq<string>, q: seq<string>) {
    |p| <= |q| && q[..|p|] == p
  }

  /** Two paths that part ways: neither is a prefix of the other. */
  predicate Diverge(p: seq<string>, q: seq<string>) {
    exists i :: 0 <= i < |p| && i < |q| && p[i] != q[i]
  }

  /** addProperty would throw: some proper prefix of the path already holds a leaf. */
  predicate Blocked(m: Members, segs: seq<string>) {
    exists j :: 1 <= j < |segs| && IsLeafAt(JObject(m), segs[..j])
  }

  /** After a successful insertion the value sits at the key's path. */
  lemma {:induction false} PutFinds(m: Members, segs: seq<string>, v: Json)
    requires |segs| >= 1 && Put(m, segs, v).Ok?
    ensures GetPath(JObject(Put(m, segs, v).value), segs) == Some(v)
    decreases |segs|
  {
    var t := Put(m, segs, v).value;
    if |segs| == 1 {
      assert segs[1..] == [];
    } else {
      var next := Lookup(m, segs[0]);
      var child := if next.Some? then next.value.members else [];
      PutFinds(child, segs[1..], v);
    }
  }

  /** Every node at a path that parts ways with the key's path is left as it was. */
  lemma {:induction false} PutKeeps(m: Members, segs: seq<string>, v: Json, q: seq<string>)
    requires |segs| >= 1 && Put(m, segs, v).Ok? && Diverge(q, segs)
    ensures GetPath(JObject(Put(m, segs, v).value), q) == GetPath(JObject(m), q)
    decreases |segs|
  {
    var i :| 0 <= i < |q| && i < |segs| && q[i] != segs[i];
    if q[0] != segs[0] {
      PutKeepsOther(m, segs, v, q);
    } else {
      var next := Lookup(m, segs[0]);
      var child := if next.Some? then next.value.members else [];
      assert q[1..][i - 1] != segs[1..][i - 1];
      PutKeeps(child, segs[1..], v, q[1..]);
      PutKeepsSame(m, segs, v, q);
    }
  }

  /** A path that leaves the root by another property than the key's is not touched. */
  lemma {:induction false} PutKeepsOther(m: Members, segs: seq<string>, v: Json, q: seq<string>)
    requires |segs| >= 1 && Put(m, segs, v).Ok? && q != [] && q[0] != segs[0]
    ensures GetPath(JObject(Put(m, segs, v).value), q) == GetPath(JObject(m), q)
  {
    var t := Put(m, segs, v).value;
    assert Lookup(t, q[0]) == Lookup(m, q[0]);
  }

  /** A path that leaves the root by the key's first property continues in the updated child. */
  lemma {:induction false} PutKeepsSame(m: Members, segs: seq<string>, v: Json, q: seq<string>)
    requires |segs| >= 2 && Put(m, segs, v).Ok? && |q| >= 2 && q[0] == segs[0]
    ensures var next := Lookup(m, segs[0]);
      var child := if next.Some? then next.value.members else [];
      && GetPath(JObject(Put(m, segs, v).value), q) == GetPath(JObject(Put(child, segs[1..], v).value), q[1..])
      && GetPath(JObject(m), q) == GetPath(JObject(child), q[1..])
  {
    var next := Lookup(m, segs[0]);
    if next.None? {
      assert GetPath(JObject([]), q[1..]) == None;
    }
  }

  /** Every proper prefix of the key's path is an object afterwards. */
  lemma {:induction false} PutBranches(m: Members, segs: seq<string>, v: Json, j: nat)
    requires |segs| >= 1 && Put(m, segs, v).Ok? && j < |segs|
    ensures GetPath(JObject(Put(m, segs, v).value), segs[..j]).Some?
    ensures GetPath(JObject(Put(m, segs, v).value), segs[..j]).value.JObject?
    decreases |segs|
  {
    if j > 0 {
      var next := Lookup(m, segs[0]);
      var child := if next.Some? then next.value.members else [];
      PutBranches(child, segs[1..], v, j - 1);
      assert segs[..j][1..] == segs[1..][..j - 1];
    }
  }

  /** Below a fresh, empty object an insertion always succeeds. */
  lemma {:induction false} PutFresh(segs: seq<string>, v: Json)
    requires |segs| >= 1
    ensures Put([], segs, v).Ok?
    decreases |segs|
  {
    if |segs| > 1 {
      PutFresh(segs[1..], v);
    }
  }

  /** addProperty throws exactly when a proper prefix of the key's path holds a leaf. */
  lemma {:induction false} PutErrIff(m: Members, segs: seq<string>, v: Json)
    requires |segs| >= 1
    ensures Put(m, segs, v).Err? <==> Blocked(m, segs)
    decreases |segs|
  {
    if |segs| > 1 {
      var next := Lookup(m, segs[0]);
      assert segs[..1] == [segs[0]] && segs[..1][1..] == [];
      assert GetPath(JObject(m), segs[..1]) == next;
      if next.Some? && !next.value.JObject? {
        assert IsLeafAt(JObject(m), segs[..1]);
      } else if next.None? {
        PutFresh(segs[1..], v);
        forall j | 1 <= j < |segs|
          ensures !IsLeafAt(JObject(m), segs[..j])
        {
          assert segs[..j][0] == segs[0];
        }
      } else {
        var c := next.value.members;
        PutErrIff(c, segs[1..], v);
        forall j | 2 <= j < |segs|
          ensures GetPath(JObject(m), segs[..j]) == GetPath(JObject(c), segs[1..][..j - 1])
        {
          assert segs[..j][0] == segs[0];
          assert segs[..j][1..] == segs[1..][..j - 1];
        }
        if Blocked(m, segs) {
          var j :| 1 <= j < |segs| && IsLeafAt(JObject(m), segs[..j]);
          assert IsLeafAt(JObject(c), segs[1..][..j - 1]);
        }
        if Blocked(c, segs[1..]) {
          var j :| 1 <= j < |segs[1..]| && IsLeafAt(JObject(c), segs[1..][..j]);
          assert IsLeafAt(JObject(m), segs[..j + 1]);
        }
      }
    }
  }

  /** The reference definition of getNestedObject: the properties added in order to an empty object. */
  function BuildTree(props: seq<(string, string)>, delimiter: string, complexTypes: bool,
                     parse: string -> Option<Json>): Result<Members>
    decreases |props|
  {
    if props == [] then Ok([])
    else
      var (key, value) := props[|props| - 1];
      match BuildTree(props[..|props| - 1], delimiter, complexTypes, parse)
      case Err(e) => Err(e)
      case Ok(t) => Put(t, Segments(key, delimiter), Coerce(parse, complexTypes, value))
  }

  /** Once a property throws, the whole build throws with that error. */
  lemma {:induction false} BuildTreeErr(props: seq<(string, string)>, i: nat, delimiter: string,
                                        complexTypes: bool, parse: string -> Option<Json>)
    requires i <= |props| && BuildTree(props[..i], delimiter, complexTypes, parse).Err?
    ensures BuildTree(props, delimiter, complexTypes, parse) == BuildTree(props[..i], delimiter, complexTypes, parse)
    decreases |props| - i
  {
    if i < |props| {
      var init := props[..|props| - 1];
      assert init[..i] == props[..i];
      BuildTreeErr(init, i, delimiter, complexTypes, parse);
      var e := BuildTree(init, delimiter, complexTypes, parse).msg;
      assert BuildTree(props, delimiter, complexTypes, parse) == Err(e);
    } else {
      assert props[..i] == props;
    }
  }

  /** getNestedObject: adds every property, in order, to a fresh object. */
  method GetNestedObject(props: seq<(string, string)>, delimiter: string, complexTypes: bool,
                         parse: string -> Option<Json>)
    returns (r: Result<Members>)
    ensures r == BuildTree(props, delimiter, complexTypes, parse)
  {
    var obj: Members := [];
    for i := 0 to |props|
      invariant BuildTree(props[..i], delimiter, complexTypes, parse) == Ok(obj)
    {
      var res := AddProperty(obj, props[i].0, props[i].1, delimiter, complexTypes, parse);
      assert props[..i + 1][..i] == props[..i];
      if res.Err? {
        BuildTreeErr(props, i + 1, delimiter, complexTypes, parse);
        return res;
      }
      obj := res.value;
    }
    assert props[..|props|] == props;
    r := Ok(obj);
  }

  /** No key's path is a prefix of (or equal to) another's. */
  predicate PrefixFree(props: seq<(string, string)>, delimiter: string) {
    forall i, j :: 0 <= i < j < |props| ==>
      Diverge(Segments(props[i].0, delimiter), Segments(props[j].0, delimiter))
  }

  /** Paths that do not part ways: one is a prefix of the other. */
  lemma {:induction false} Comparable(p: seq<string>, q: seq<string>)
    requires !Diverge(p, q)
    ensures |p| <= |q| ==> IsPrefix(p, q)
    ensures |q| <= |p| ==> IsPrefix(q, p)
  {
    if |p| <= |q| {
      assert forall k :: 0 <= k < |p| ==> q[..|p|][k] == p[k];
    } else {
      assert forall k :: 0 <= k < |q| ==> p[..|q|][k] == q[k];
    }
  }

  /** The paths of the keys, in order. */
  function Paths(props: seq<(string, string)>, delimiter: string): (ps: seq<seq<string>>)
    ensures |ps| == |props|
    ensures forall i :: 0 <= i < |props| ==> ps[i] == Segments(props[i].0, delimiter)
    decreases |props|
  {
    if props == [] then []
    else
      var init := props[..|props| - 1];
      assert forall i :: 0 <= i < |init| ==> init[i] == props[i];
      Paths(init, delimiter) + [Segments(props[|props| - 1].0, delimiter)]
  }

  /** The leaf values of the properties, in order. */
  function Values(props: seq<(string, string)>, complexTypes: bool, parse: string -> Option<Json>): (vs: seq<Json>)
    ensures |vs| == |props|
    ensures forall i :: 0 <= i < |props| ==> vs[i] == Coerce(parse, complexTypes, props[i].1)
    decreases |props|
  {
    if props == [] then []
    else
      var init := props[..|props| - 1];
      assert forall i :: 0 <= i < |init| ==> init[i] == props[i];
      Values(init, complexTypes, parse) + [Coerce(parse, complexTypes, props[|props| - 1].1)]
  }

  /** Every leaf of `t` lies at or below one of the paths `ps`. */
  ghost predicate LeavesCovered(t: Members, ps: seq<seq<string>>) {
    forall q :: IsLeafAt(JObject(t), q) ==> exists i :: 0 <= i < |ps| && IsPrefix(ps[i], q)
  }

  /** Inserting at `p` keeps every earlier value and adds `v` at `p`. */
  lemma {:induction false} PutStepFinds(t: Members, ps: seq<seq<string>>, vs: seq<Json>, p: seq<string>, v: Json)
    requires |p| >= 1 && |ps| == |vs| && Put(t, p, v).Ok?
    requires forall i :: 0 <= i < |ps| ==> Diverge(ps[i], p)
    requires forall i :: 0 <= i < |ps| ==> GetPath(JObject(t), ps[i]) == Some(vs[i])
    ensures forall i :: 0 <= i < |ps| + 1 ==> GetPath(JObject(Put(t, p, v).value), (ps + [p])[i]) == Some((vs + [v])[i])
  {
    forall i | 0 <= i < |ps| + 1
      ensures GetPath(JObject(Put(t, p, v).value), (ps + [p])[i]) == Some((vs + [v])[i])
    {
      if i < |ps| {
        PutKeeps(t, p, v, ps[i]);
      } else {
        PutFinds(t, p, v);
      }
    }
  }

  /** A leaf after an insertion was a leaf before it, or lies at or below the inserted path. */
  lemma {:induction false} PutLeafOrigin(t: Members, p: seq<string>, v: Json, q: seq<string>)
    requires |p| >= 1 && Put(t, p, v).Ok? && IsLeafAt(JObject(Put(t, p, v).value), q)
    ensures IsLeafAt(JObject(t), q) || IsPrefix(p, q)
  {
    if Diverge(q, p) {
      PutKeeps(t, p, v, q);
    } else {
      Comparable(q, p);
      if |q| < |p| {
        PutBranches(t, p, v, |q|);
        assert false;
      }
    }
  }

  /** The only new leaves an insertion makes lie at or below its own path. */
  lemma {:induction false} PutStepCovers(t: Members, ps: seq<seq<string>>, p: seq<string>, v: Json)
    requires |p| >= 1 && Put(t, p, v).Ok? && LeavesCovered(t, ps)
    ensures LeavesCovered(Put(t, p, v).value, ps + [p])
  {
    var t' := Put(t, p, v).value;
    forall q | IsLeafAt(JObject(t'), q)
      ensures exists i :: 0 <= i < |ps| + 1 && IsPrefix((ps + [p])[i], q)
    {
      PutLeafOrigin(t, p, v, q);
      if IsLeafAt(JObject(t), q) {
        var i :| 0 <= i < |ps| && IsPrefix(ps[i], q);
        assert (ps + [p])[i] == ps[i];
      } else {
        assert (ps + [p])[|ps|] == p;
      }
    }
  }

  /** One step of getNestedObject on a key whose path parts ways with every earlier one: it does not throw and keeps every leaf covered. */
  lemma {:induction false} PutStep(t: Members, ps: seq<seq<string>>, p: seq<string>, v: Json)
    requires |p| >= 1 && LeavesCovered(t, ps)
    requires forall i :: 0 <= i < |ps| ==> Diverge(ps[i], p)
    ensures Put(t, p, v).Ok?
    ensures LeavesCovered(Put(t, p, v).value, ps + [p])
  {
    assert !Blocked(t, p);
    PutErrIff(t, p, v);
    PutStepCovers(t, ps, p, v);
  }

  /** The last key is put into the tree the earlier keys built; its path and value come last. */
  lemma {:induction false} BuildTreeLast(props: seq<(string, string)>, delimiter: string,
                                         complexTypes: bool, parse: string -> Option<Json>)
    requires props != []
    requires BuildTree(props[..|props| - 1], delimiter, complexTypes, parse).Ok?
    ensures var init, last := props[..|props| - 1], props[|props| - 1];
      && BuildTree(props, delimiter, complexTypes, parse)
         == Put(BuildTree(init, delimiter, complexTypes, parse).value, Segments(last.0, delimiter),
                Coerce(parse, complexTypes, last.1))
      && Paths(props, delimiter) == Paths(init, delimiter) + [Segments(last.0, delimiter)]
      && Values(props, complexTypes, parse) == Values(init, complexTypes, parse) + [Coerce(parse, complexTypes, last.1)]
  {
  }

  /** Without its last key, a prefix-free list stays prefix-free, and that key parts ways with every earlier one. */
  lemma {:induction false} PrefixFreeInit(props: seq<(string, string)>, delimiter: string)
    requires props != [] && PrefixFree(props, delimiter)
    ensures var init := props[..|props| - 1];
      && PrefixFree(init, delimiter)
      && forall i :: 0 <= i < |init| ==>
           Diverge(Paths(init, delimiter)[i], Segments(props[|props| - 1].0, delimiter))
  {
    var init := props[..|props| - 1];
    assert forall i :: 0 <= i < |init| ==> init[i] == props[i];
  }

  /** getNestedObject on keys whose paths are prefix-free never throws, and every leaf of the tree lies at or below some key's path. */
  lemma {:induction false} BuildTreeCovers(props: seq<(string, string)>, delimiter: string,
                                           complexTypes: bool, parse: string -> Option<Json>)
    requires PrefixFree(props, delimiter)
    ensures BuildTree(props, delimiter, complexTypes, parse).Ok?
    ensures LeavesCovered(BuildTree(props, delimiter, complexTypes, parse).value, Paths(props, delimiter))
    decreases |props|
  {
    if props != [] {
      var init := props[..|props| - 1];
      PrefixFreeInit(props, delimiter);
      BuildTreeCovers(init, delimiter, complexTypes, parse);
      BuildTreeLast(props, delimiter, complexTypes, parse);
      var last := props[|props| - 1];
      PutStep(BuildTree(init, delimiter, complexTypes, parse).value, Paths(init, delimiter),
              Segments(last.0, delimiter), Coerce(parse, complexTypes, last.1));
    }
  }

  /**
   * getNestedObject on keys whose paths are prefix-free never throws, every
   * value sits at its key's path, and every leaf of the tree lies at or
   * below some key's path.
   */
  lemma {:induction false} BuildTreeFinds(props: seq<(string, string)>, delimiter: string,
                                          complexTypes: bool, parse: string -> Option<Json>)
    requires PrefixFree(props, delimiter)
    ensures BuildTree(props, delimiter, complexTypes, parse).Ok?
    ensures forall i :: 0 <= i < |props| ==>
      GetPath(JObject(BuildTree(props, delimiter, complexTypes, parse).value), Paths(props, delimiter)[i])
        == Some(Values(props, complexTypes, parse)[i])
    ensures LeavesCovered(BuildTree(props, delimiter, complexTypes, parse).value, Paths(props, delimiter))
    decreases |props|
  {
    BuildTreeCovers(props, delimiter, complexTypes, parse);
    if props != [] {
      var n := |props|;
      var init := props[..n - 1];
      var p := Segments(props[n - 1].0, delimiter);
      var v := Coerce(parse, complexTypes, props[n - 1].1);
      var ps, vs := Paths(init, delimiter), Values(init, complexTypes, parse);
      PrefixFreeInit(props, delimiter);
      BuildTreeFinds(init, delimiter, complexTypes, parse);
      var t := BuildTree(init, delimiter, complexTypes, parse).value;
      BuildTreeLast(props, delimiter, complexTypes, parse);
      PutStepFinds(t, ps, vs, p, v);
    }
  }

  /** Every value among the members is well formed. */
  predicate MembersWellFormed(m: Members) {
    forall i :: 0 <= i < |m| ==> WellFormed(m[i].1)
  }

  /** The parser yields only well-formed values. */
  ghost predicate ParsesWellFormed(parse: string -> Option<Json>) {
    forall s :: parse(s).Some? ==> WellFormed(parse(s).value)
  }

  lemma {:induction false} AssignWellFormed(m: Members, k: string, v: Json)
    requires MembersWellFormed(m) && WellFormed(v)
    ensures MembersWellFormed(Assign(m, k, v))
  {
    AssignMembers(m, k, v);
  }

  /** Inserting a well-formed leaf keeps the tree well formed. */
  lemma {:induction false} PutWellFormed(m: Members, segs: seq<string>, v: Json)
    requires |segs| >= 1 && MembersWellFormed(m) && WellFormed(v) && Put(m, segs, v).Ok?
    ensures MembersWellFormed(Put(m, segs, v).value)
    decreases |segs|
  {
    if |segs| == 1 {
      AssignWellFormed(m, segs[0], v);
    } else {
      var next := Lookup(m, segs[0]);
      var child := if next.Some? then next.value.members else [];
      if next.Some? {
        var i :| 0 <= i < |m| && m[i].0 == segs[0];
        LookupFinds(m, segs[0], i);
        assert WellFormed(m[i].1);
      }
      PutWellFormed(child, segs[1..], v);
      AssignWellFormed(m, segs[0], JObject(Put(child, segs[1..], v).value));
    }
  }

  lemma {:induction false} LookupFinds(m: Members, k: string, i: nat)
    requires i < |m| && m[i].0 == k
    ensures exists j :: 0 <= j <= i && m[j].0 == k && Lookup(m, k) == Some(m[j].1)
  {
    if m[0].0 != k {
      LookupFinds(m[1..], k, i - 1);
      var j :| 0 <= j <= i - 1 && m[1..][j].0 == k && Lookup(m[1..], k) == Some(m[1..][j].1);
      assert m[j + 1] == m[1..][j];
    }
  }

  /** Every object in `j` lists its names in JavaScript's order. */
  predicate DeepOrdered(j: Json)
    decreases j
  {
    match j
    case JArray(items) => forall i :: 0 <= i < |items| ==> DeepOrdered(items[i])
    case JObject(members) =>
      && OrderedKeys(Keys(members))
      && forall i :: 0 <= i < |members| ==> (assert members[i].1 < members[i]; DeepOrdered(members[i].1))
    case _ => true
  }

  /** The parser yields JavaScript values, whose objects list their names in that order. */
  ghost predicate ParsesOrdered(parse: string -> Option<Json>) {
    forall s :: parse(s).Some? ==> DeepOrdered(parse(s).value)
  }

  lemma {:induction false} AssignDeepOrdered(m: Members, k: string, v: Json)
    requires DeepOrdered(JObject(m)) && DeepOrdered(v)
    ensures DeepOrdered(JObject(Assign(m, k, v)))
  {
    AssignOrdered(m, k, v);
    AssignMembers(m, k, v);
    var r := Assign(m, k, v);
    forall i | 0 <= i < |r| ensures DeepOrdered(r[i].1) {
      if r[i] != (k, v) {
        var j :| 0 <= j < |m| && m[j] == r[i];
      }
    }
  }

  /** Inserting an ordered leaf keeps every object of the tree in JavaScript's order. */
  lemma {:induction false} PutDeepOrdered(m: Members, segs: seq<string>, v: Json)
    requires |segs| >= 1 && DeepOrdered(JObject(m)) && DeepOrdered(v) && Put(m, segs, v).Ok?
    ensures DeepOrdered(JObject(Put(m, segs, v).value))
    decreases |segs|
  {
    if |segs| == 1 {
      AssignDeepOrdered(m, segs[0], v);
    } else {
      var next := Lookup(m, segs[0]);
      var child := if next.Some? then next.value.members else [];
      if next.Some? {
        var i :| 0 <= i < |m| && m[i].0 == segs[0];
        LookupFinds(m, segs[0], i);
      }
      PutDeepOrdered(child, segs[1..], v);
      AssignDeepOrdered(m, segs[0], JObject(Put(child, segs[1..], v).value));
    }
  }

  /**
   * getNestedObject lists the names of every object it builds as JavaScript
   * does: array indices first, ascending, then the other names in the order
   * the properties created them.
   */
  lemma {:induction false} BuildTreeOrdered(props: seq<(string, string)>, delimiter: string,
                                            complexTypes: bool, parse: string -> Option<Json>)
    requires ParsesOrdered(parse) && BuildTree(props, delimiter, complexTypes, parse).Ok?
    ensures DeepOrdered(JObject(BuildTree(props, delimiter, complexTypes, parse).value))
    decreases |props|
  {
    if props != [] {
      var init := props[..|props| - 1];
      var (key, value) := props[|props| - 1];
      BuildTreeOrdered(init, delimiter, complexTypes, parse);
      var t := BuildTree(init, delimiter, complexTypes, parse).value;
      PutDeepOrdered(t, Segments(key, delimiter), Coerce(parse, complexTypes, value));
    }
  }

  /** A one-digit name is the array index of its digit. */
  lemma {:induction false} DigitExample(c: char, d: nat)
    requires d < 10 && c as int == 48 + d
    ensures DigitsValue([c]) == d && IsArrayIndex([c])
  {
    assert [c][..0] == "";
    assert DecimalText(d) == [DigitChar(d)] == [c];
  }

  /** The first property of IndexOrderExample builds `{"a": {"2": "x"}}`. */
  lemma {:induction false} IndexOrderFirst(parse: string -> Option<Json>)
    ensures BuildTree([("a.2", "x")], ".", false, parse) == Ok([("a", JObject([("2", JString("x"))]))])
  {
    var p1, x, s1 := ("a.2", "x"), JString("x"), ["a", "2"];
    assert Segments(p1.0, ".") == s1 by {
      assert p1.0 == "a" + ['.'] + "2";
      SplitPair("a", '.', "2");
    }
    var inner := [("2", x)];
    assert Put([], s1, x) == Ok([("a", JObject(inner))]) by {
      assert s1[1..] == ["2"];
      assert Put([], ["2"], x) == Ok(inner);
    }
    assert [p1][..0] == [];
    assert BuildTree([p1], ".", false, parse) == Put([], Segments(p1.0, "."), Coerce(parse, false, p1.1));
  }

  /** The second property of IndexOrderExample puts `1` before `2`. */
  lemma {:induction false} IndexOrderSecond()
    ensures var inner := [("2", JString("x"))];
      Put([("a", JObject(inner))], ["a", "1"], JString("y"))
        == Ok([("a", JObject([("1", JString("y")), ("2", JString("x"))]))])
  {
    var x, y, s2 := JString("x"), JString("y"), ["a", "1"];
    var inner := [("2", x)];
    var t := [("a", JObject(inner))];
    var both := [("1", y)] + inner;
    assert Assign(inner, "1", y) == both by {
      assert ListedBefore("1", "2") by {
        DigitExample('1', 1);
        DigitExample('2', 2);
      }
      assert inner[0].0 != "1" && Lookup(inner, "1") == None;
    }
    assert s2[1..] == ["1"];
    assert Lookup(t, "a") == Some(JObject(inner));
    assert Put(inner, s2[1..], y) == Ok(both);
    assert Assign(t, "a", JObject(both)) == [("a", JObject(both))] by {
      assert t[0].0 == "a" && t[1..] == [];
    }
    assert both == [("1", y), ("2", x)];
  }

  /** `a.2=x` then `a.1=y`: the index `1` is listed before `2` although it was added later. */
  lemma {:induction false} IndexOrderExample(parse: string -> Option<Json>)
    ensures BuildTree([("a.2", "x"), ("a.1", "y")], ".", false, parse)
      == Ok([("a", JObject([("1", JString("y")), ("2", JString("x"))]))])
  {
    var p1, p2 := ("a.2", "x"), ("a.1", "y");
    assert Segments(p2.0, ".") == ["a", "1"] by {
      assert p2.0 == "a" + ['.'] + "1";
      SplitPair("a", '.', "1");
    }
    IndexOrderFirst(parse);
    assert [p1, p2][..1] == [p1];
    BuildTreeLast([p1, p2], ".", false, parse);
    assert Coerce(parse, false, p2.1) == JString("y");
    IndexOrderSecond();
  }

  /** getNestedObject builds a well-formed tree when the parser yields well-formed values. */
  lemma {:induction false} BuildTreeWellFormed(props: seq<(string, string)>, delimiter: string,
                                               complexTypes: bool, parse: string -> Option<Json>)
    requires ParsesWellFormed(parse) && BuildTree(props, delimiter, complexTypes, parse).Ok?
    ensures MembersWellFormed(BuildTree(props, delimiter, complexTypes, parse).value)
    decreases |props|
  {
    if props != [] {
      var init := props[..|props| - 1];
      var (key, value) := props[|props| - 1];
      BuildTreeWellFormed(init, delimiter, complexTypes, parse);
      var t := BuildTree(init, delimiter, complexTypes, parse).value;
      PutWellFormed(t, Segments(key, delimiter), Coerce(parse, complexTypes, value));
    }
  }
}
