/**
 * `String.prototype.split` with a string separator, as `key.split(options.nestingDelimiter)`
 * uses it: occurrences are found left to right without overlap; an empty
 * separator splits into single characters (and the empty string into nothing).
 */
module Splitting {
  import opened Wrappers

  /** `d` occurs in `s` at position `k`. */
  predicate OccursAt(s: string, d: string, k: nat) {
    k + |d| <= |s| && s[k..k + |d|] == d
  }

  predicate Contains(s: string, d: string) {
    exists k: nat :: k <= |s| && OccursAt(s, d, k)
  }

  /** The first position at which `d` occurs in `s`. */
  function IndexOf(s: string, d: string): (r: Option<nat>)
    requires d != []
    ensures r.Some? ==> OccursAt(s, d, r.value) && forall k: nat :: k < r.value ==> !OccursAt(s, d, k)
    ensures r.None? ==> !Contains(s, d)
    decreases |s|
  {
    if |s| < |d| then
      assert forall k: nat :: !OccursAt(s, d, k);
      None
    else if s[..|d|] == d then Some(0)
    else
      match IndexOf(s[1..], d)
      case None =>
        assert forall k: nat :: 1 <= k ==> (OccursAt(s, d, k) ==> OccursAt(s[1..], d, k - 1)) by {
          forall k: nat | 1 <= k && OccursAt(s, d, k) ensures OccursAt(s[1..], d, k - 1) {
            assert s[1..][k - 1..k - 1 + |d|] == s[k..k + |d|];
          }
        }
        None
      case Some(i) =>
        assert s[1..][i..i + |d|] == s[i + 1..i + 1 + |d|];
        assert forall k: nat :: 1 <= k <= i ==> (OccursAt(s, d, k) ==> OccursAt(s[1..], d, k - 1)) by {
          forall k: nat | 1 <= k <= i && OccursAt(s, d, k) ensures OccursAt(s[1..], d, k - 1) {
            assert s[1..][k - 1..k - 1 + |d|] == s[k..k + |d|];
          }
        }
        Some(i + 1)
  }

  /** `s.split(d)`. */
  function Split(s: string, d: string): (parts: seq<string>)
    ensures d == [] ==> |parts| == |s| && forall i :: 0 <= i < |s| ==> parts[i] == [s[i]]
    ensures d != [] ==> |parts| >= 1 && forall i :: 0 <= i < |parts| ==> !Contains(parts[i], d)
    decreases |s|
  {
    if d == [] then seq(|s|, i requires 0 <= i < |s| => [s[i]])
    else
      match IndexOf(s, d)
      case None => [s]
      case Some(i) =>
        NoEarlierOccurrence(s, d, i);
        [s[..i]] + Split(s[i + |d|..], d)
  }

  lemma {:induction false} NoEarlierOccurrence(s: string, d: string, i: nat)
    requires d != [] && i + |d| <= |s|
    requires forall k: nat :: k < i ==> !OccursAt(s, d, k)
    ensures !Contains(s[..i], d)
  {
    forall k: nat | k <= i && OccursAt(s[..i], d, k) ensures false {
      assert k < i;
      assert s[..i][k..k + |d|] == s[k..k + |d|];
      assert OccursAt(s, d, k);
    }
  }

  /** The parts joined with the separator, the inverse `Array.prototype.join(d)`. */
  function Join(parts: seq<string>, d: string): string {
    if parts == [] then ""
    else if |parts| == 1 then parts[0]
    else parts[0] + d + Join(parts[1..], d)
  }

  /** Splitting on a non-empty separator loses nothing: joining the parts gives the key back. */
  lemma {:induction false} JoinSplit(s: string, d: string)
    requires d != []
    ensures Join(Split(s, d), d) == s
    decreases |s|
  {
    match IndexOf(s, d)
    case None =>
    case Some(i) =>
      var later := Split(s[i + |d|..], d);
      assert Split(s, d) == [s[..i]] + later;
      JoinSplit(s[i + |d|..], d);
      JoinStep(s, d, i, later);
  }

  /** The text before an occurrence of the separator, the separator, and the joined parts after it. */
  lemma {:induction false} JoinStep(s: string, d: string, i: nat, later: seq<string>)
    requires OccursAt(s, d, i) && later != [] && Join(later, d) == s[i + |d|..]
    ensures Join([s[..i]] + later, d) == s
  {
    assert ([s[..i]] + later)[1..] == later;
    assert s == s[..i] + s[i..i + |d|] + s[i + |d|..];
  }

  /**
   * The parts are cut at leftmost occurrences: in the text that starts with
   * any part but the last, the separator first occurs right after that part.
   */
  lemma {:induction false} SplitLeftmost(s: string, d: string)
    requires d != []
    ensures var parts := Split(s, d);
      forall j :: 0 <= j < |parts| - 1 ==> IndexOf(Join(parts[j..], d), d) == Some(|parts[j]|)
    decreases |s|
  {
    match IndexOf(s, d)
    case None =>
    case Some(i) =>
      var rest := s[i + |d|..];
      SplitLeftmost(rest, d);
      JoinSplit(s, d);
      LeftmostCons(s, d, i, Split(rest, d));
  }

  /** SplitLeftmost for a first part `s[..i]` cut at the first occurrence `i`, given it for the later parts. */
  lemma {:induction false} LeftmostCons(s: string, d: string, i: nat, later: seq<string>)
    requires d != [] && IndexOf(s, d) == Some(i) && later == Split(s[i + |d|..], d)
    requires Join([s[..i]] + later, d) == s
    requires forall j :: 0 <= j < |later| - 1 ==> IndexOf(Join(later[j..], d), d) == Some(|later[j]|)
    ensures var parts := [s[..i]] + later;
      forall j :: 0 <= j < |parts| - 1 ==> IndexOf(Join(parts[j..], d), d) == Some(|parts[j]|)
  {
    var parts := [s[..i]] + later;
    forall j | 0 <= j < |parts| - 1
      ensures IndexOf(Join(parts[j..], d), d) == Some(|parts[j]|)
    {
      if j == 0 {
        assert parts[0..] == parts;
      } else {
        assert parts[j..] == later[j - 1..];
      }
    }
  }

  /**
   * Split's parts are the only ones that join back to the key, are cut at
   * leftmost occurrences (SplitLeftmost) and end in a part without the
   * separator.
   */
  lemma {:induction false} SplitUnique(s: string, d: string, parts: seq<string>)
    requires d != [] && |parts| >= 1 && Join(parts, d) == s
    requires forall j :: 0 <= j < |parts| - 1 ==> IndexOf(Join(parts[j..], d), d) == Some(|parts[j]|)
    requires !Contains(parts[|parts| - 1], d)
    ensures Split(s, d) == parts
    decreases |parts|
  {
    if |parts| == 1 {
      assert IndexOf(s, d).None?;
    } else {
      var first, later := parts[0], parts[1..];
      assert parts[0..] == parts;
      assert IndexOf(s, d) == Some(|first|);
      assert s == first + d + Join(later, d);
      assert s[..|first|] == first;
      assert s[|first| + |d|..] == Join(later, d);
      forall j | 0 <= j < |later| - 1
        ensures IndexOf(Join(later[j..], d), d) == Some(|later[j]|)
      {
        assert later[j..] == parts[j + 1..];
      }
      SplitUnique(Join(later, d), d, later);
      assert parts == [first] + later;
    }
  }

  /** `s` has no `.` in it. */
  predicate NoDot(s: string) {
    forall i :: 0 <= i < |s| ==> s[i] != '.'
  }

  /** A key without the separator is a single segment. */
  lemma {:induction false} SplitNoSeparator(s: string, d: string)
    requires d != [] && !Contains(s, d)
    ensures Split(s, d) == [s]
  {
  }

  /** A one-character separator that `a` lacks: `a` is a whole segment. */
  lemma {:induction false} IndexOfChar(a: string, c: char, b: string)
    requires forall k :: 0 <= k < |a| ==> a[k] != c
    ensures IndexOf(a + [c] + b, [c]) == Some(|a|)
    decreases |a|
  {
    var s := a + [c] + b;
    if a == [] {
      assert s[..1] == [c];
    } else {
      assert s[0] == a[0] && s[..1][0] == s[0];
      assert s[1..] == a[1..] + [c] + b;
      IndexOfChar(a[1..], c, b);
    }
  }

  lemma {:induction false} IndexOfNoChar(a: string, c: char)
    requires forall k :: 0 <= k < |a| ==> a[k] != c
    ensures IndexOf(a, [c]) == None
    decreases |a|
  {
    if a != [] {
      assert a[..1][0] == a[0];
      IndexOfNoChar(a[1..], c);
    }
  }

  /** With a one-character separator, the text before its first occurrence is the first segment. */
  lemma {:induction false} SplitFirst(a: string, c: char, b: string)
    requires forall k :: 0 <= k < |a| ==> a[k] != c
    ensures Split(a + [c] + b, [c]) == [a] + Split(b, [c])
  {
    IndexOfChar(a, c, b);
    var s := a + [c] + b;
    assert s[..|a|] == a;
    assert s[|a| + 1..] == b;
  }

  /** With a one-character separator, a key without it is a single segment. */
  lemma {:induction false} SplitLast(a: string, c: char)
    requires forall k :: 0 <= k < |a| ==> a[k] != c
    ensures Split(a, [c]) == [a]
  {
    IndexOfNoChar(a, c);
  }

  /** A key with one occurrence of a one-character separator splits into the two sides. */
  lemma {:induction false} SplitPair(a: string, c: char, b: string)
    requires forall k :: 0 <= k < |a| ==> a[k] != c
    requires forall k :: 0 <= k < |b| ==> b[k] != c
    ensures Split(a + [c] + b, [c]) == [a, b]
  {
    SplitFirst(a, c, b);
    SplitLast(b, c);
  }

  /** `'person.age'.split('.')` is `['person', 'age']`. */
  lemma {:induction false} SplitExample()
    ensures Split("person.age", ".") == ["person", "age"]
  {
    var first, second := "person", "age";
    assert "person.age" == first + ['.'] + second;
    SplitPair(first, '.', second);
  }
}
