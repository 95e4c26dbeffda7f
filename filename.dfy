/**
 * The output file name (`outputFilename`, index.js:207-209). With `appendExt`
 * the new extension is appended to the whole path; otherwise the extension of
 * the last path component is replaced, as `gutil.replaceExtension` does with
 * node's `path.extname`, `path.basename` and `path.dirname`. Paths use `/` as
 * the separator.
 */
module FileName {
  import opened Wrappers

  /** Where the last path component starts: just after the last `/`, or 0 when there is none. */
  function BaseStart(p: string): (i: nat)
    ensures i <= |p|
    ensures forall k :: i <= k < |p| ==> p[k] != '/'
    ensures i > 0 ==> p[i - 1] == '/'
  {
    if p == [] then 0
    else if p[|p| - 1] == '/' then |p|
    else BaseStart(p[..|p| - 1])
  }

  /** The directory part, including its final `/`. */
  function Dir(p: string): string {
    p[..BaseStart(p)]
  }

  /** The last path component. */
  function Base(p: string): string {
    p[BaseStart(p)..]
  }

  /** The position of the last `.` in `s`, if any. */
  function LastDot(s: string): (r: Option<nat>)
    ensures r.Some? ==> r.value < |s| && s[r.value] == '.' && forall k :: r.value < k < |s| ==> s[k] != '.'
    ensures r.None? ==> forall k :: 0 <= k < |s| ==> s[k] != '.'
  {
    if s == [] then None
    else if s[|s| - 1] == '.' then Some(|s| - 1)
    else LastDot(s[..|s| - 1])
  }

  /**
   * Where `path.extname` starts the extension of a path component: at its
   * last dot, unless there is none, the dot is the first character (`.bashrc`)
   * or the component is `..`; in those cases the extension is empty.
   */
  function ExtStart(base: string): (i: nat)
    ensures i <= |base|
  {
    match LastDot(base)
    case Some(d) => if d > 0 && base != ".." then d else |base|
    case None => |base|
  }

  /** `path.extname` of a path component. */
  function Extname(base: string): string {
    base[ExtStart(base)..]
  }

  /** `path.basename(p, path.extname(p))`: the component without its extension. */
  function Stem(base: string): string {
    base[..ExtStart(base)]
  }

  /** `gutil.replaceExtension(p, ext)`: an empty path is returned as it is. */
  function ReplaceExtension(p: string, ext: string): string {
    if p == "" then p else Dir(p) + Stem(Base(p)) + ext
  }

  /** outputFilename. */
  function OutputFilename(p: string, outputType: string, appendExt: bool): string {
    if appendExt then p + "." + outputType else ReplaceExtension(p, "." + outputType)
  }

  /** An extension word the renderer can name: non-empty, with no dot and no separator. */
  predicate IsExtWord(t: string) {
    t != "" && forall k :: 0 <= k < |t| ==> t[k] != '.' && t[k] != '/'
  }

  /** The properties in BaseStart's contract fix the position. */
  lemma {:induction false} BaseStartUnique(p: string, i: nat)
    requires i <= |p|
    requires forall k :: i <= k < |p| ==> p[k] != '/'
    requires i > 0 ==> p[i - 1] == '/'
    ensures BaseStart(p) == i
  {
  }

  /** A directory followed by a component without separators splits back into the two. */
  lemma {:induction false} SplitPath(d: string, b: string)
    requires d == "" || d[|d| - 1] == '/'
    requires forall k :: 0 <= k < |b| ==> b[k] != '/'
    ensures Dir(d + b) == d && Base(d + b) == b
  {
    var p := d + b;
    assert forall k :: |d| <= k < |p| ==> p[k] == b[k - |d|];
    BaseStartUnique(p, |d|);
    assert p[..|d|] == d && p[|d|..] == b;
  }

  /** A non-empty name, a dot and an extension word: the stem is the name and the extension is the word. */
  lemma {:induction false} NameDotWord(s: string, t: string)
    requires s != "" && IsExtWord(t)
    ensures Stem(s + "." + t) == s && Extname(s + "." + t) == "." + t
  {
    var b := s + "." + t;
    assert b[|s|] == '.';
    assert forall k :: |s| < k < |b| ==> b[k] == t[k - |s| - 1];
    assert |b| >= 3;
    assert ExtStart(b) == |s|;
    assert b[..|s|] == s && b[|s|..] == "." + t;
  }

  /** A component is empty exactly when its stem is. */
  lemma {:induction false} StemEmpty(base: string)
    ensures Stem(base) == "" <==> base == ""
  {
  }

  /** Every path is its directory followed by its last component. */
  lemma {:induction false} DirBase(p: string)
    ensures p == Dir(p) + Base(p)
    ensures Dir(p) == "" || Dir(p)[|Dir(p)| - 1] == '/'
    ensures forall k :: 0 <= k < |Base(p)| ==> Base(p)[k] != '/'
  {
  }

  /** A name without separators, a dot and an extension word make a name without separators. */
  lemma {:induction false} NoSlashName(s: string, t: string)
    requires forall k :: 0 <= k < |s| ==> s[k] != '/'
    requires IsExtWord(t)
    ensures forall k :: 0 <= k < |s + "." + t| ==> (s + "." + t)[k] != '/'
  {
    var n := s + "." + t;
    assert forall k :: |s| < k < |n| ==> n[k] == t[k - |s| - 1];
  }

  /**
   * Replacing the extension keeps the directory and the stem and gives the
   * component the new extension, whenever the path names a component (it
   * does not end in `/`).
   */
  lemma {:induction false} ReplaceExtensionParts(p: string, t: string)
    requires Base(p) != "" && IsExtWord(t)
    ensures var r := ReplaceExtension(p, "." + t);
      Dir(r) == Dir(p) && Stem(Base(r)) == Stem(Base(p)) && Extname(Base(r)) == "." + t
  {
    var d, b := Dir(p), Base(p);
    var s := Stem(b);
    var n := s + "." + t;
    assert ReplaceExtension(p, "." + t) == d + n by {
      assert p != "" by { DirBase(p); }
    }
    assert s != "" by { StemEmpty(b); }
    assert d == "" || d[|d| - 1] == '/' by { DirBase(p); }
    assert forall k :: 0 <= k < |n| ==> n[k] != '/' by {
      DirBase(p);
      StemNoSlash(b);
      NoSlashName(s, t);
    }
    SplitPath(d, n);
    NameDotWord(s, t);
  }

  /** The stem of a component without separators has none either. */
  lemma {:induction false} StemNoSlash(b: string)
    requires forall k :: 0 <= k < |b| ==> b[k] != '/'
    ensures forall k :: 0 <= k < |Stem(b)| ==> Stem(b)[k] != '/'
  {
    assert forall k :: 0 <= k < |Stem(b)| ==> Stem(b)[k] == b[k];
  }

  /** Replacing the extension twice is the same as replacing it once. */
  lemma {:induction false} ReplaceExtensionIdempotent(p: string, t: string)
    requires Base(p) != "" && IsExtWord(t)
    ensures ReplaceExtension(ReplaceExtension(p, "." + t), "." + t) == ReplaceExtension(p, "." + t)
  {
    var r := ReplaceExtension(p, "." + t);
    ReplaceExtensionParts(p, t);
    assert r == Dir(p) + Stem(Base(p)) + ("." + t);
    assert r != "";
    assert ReplaceExtension(r, "." + t) == Dir(r) + Stem(Base(r)) + ("." + t);
  }

  /**
   * With `appendExt` the whole old component, its extension included, becomes
   * the stem, and the new extension follows it.
   */
  lemma {:induction false} AppendKeepsName(p: string, t: string)
    requires Base(p) != "" && IsExtWord(t)
    ensures var r := OutputFilename(p, t, true);
      Dir(r) == Dir(p) && Stem(Base(r)) == Base(p) && Extname(Base(r)) == "." + t
  {
    var n := Base(p) + "." + t;
    DirBase(p);
    NoSlashName(Base(p), t);
    SplitPath(Dir(p), n);
    assert OutputFilename(p, t, true) == Dir(p) + n;
    NameDotWord(Base(p), t);
  }

  /**
   * `noExt.1` with `appendExt` becomes `noExt.1.json`; without it, the `.1`
   * counts as an extension and is replaced.
   */
  lemma {:induction false} NoExtExample(d: string)
    requires d == "" || d[|d| - 1] == '/'
    ensures OutputFilename(d + "noExt.1", "json", true) == d + "noExt.1.json"
    ensures OutputFilename(d + "noExt.1", "json", false) == d + "noExt.json"
  {
    var stem, base, ext := "noExt", "noExt.1", ".json";
    assert d + base + "." + "json" == d + "noExt.1.json";
    assert Dir(d + base) == d && Stem(Base(d + base)) == stem by {
      assert base == stem + "." + "1";
      NameDotWord(stem, "1");
      SplitPath(d, base);
    }
    assert ReplaceExtension(d + base, ext) == d + stem + ext;
  }
}
