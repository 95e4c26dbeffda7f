/**
 * The namespace sanitizer `getValidIdentifier` (index.js): every character
 * outside `[A-Za-z0-9_$]` becomes `_`, and a leading digit gets a `_` prefix.
 */
module Identifier {

  predicate IsDigit(c: char) {
    '0' <= c <= '9'
  }

  /** The characters kept by the case-insensitive class `[a-z0-9_$]`. */
  predicate IsIdentChar(c: char) {
    ('a' <= c <= 'z') || ('A' <= c <= 'Z') || IsDigit(c) || c == '_' || c == '$'
  }

  /** A string the sanitizer leaves alone: only identifier characters, no leading digit. */
  predicate IsValidIdentifier(s: string) {
    (forall i :: 0 <= i < |s| ==> IsIdentChar(s[i])) && !(|s| > 0 && IsDigit(s[0]))
  }

  /** The global replacement `str.replace(/[^a-z0-9_$]/ig, '_')`. */
  function ReplaceInvalid(s: string): (r: string)
    ensures |r| == |s|
    ensures forall i :: 0 <= i < |s| ==> IsIdentChar(r[i])
    ensures forall i :: 0 <= i < |s| && IsIdentChar(s[i]) ==> r[i] == s[i]
    ensures forall i :: 0 <= i < |s| && !IsIdentChar(s[i]) ==> r[i] == '_'
  {
    if s == [] then []
    else [if IsIdentChar(s[0]) then s[0] else '_'] + ReplaceInvalid(s[1..])
  }

  /**
   * getValidIdentifier. The result is always a valid identifier, and it equals
   * the input exactly when the input already was one. The warning the source
   * logs when the two differ is an informational side effect and is not modelled.
   */
  function GetValidIdentifier(s: string): (r: string)
    ensures IsValidIdentifier(r)
    ensures r == s <==> IsValidIdentifier(s)
    ensures |r| == |s| || |r| == |s| + 1
  {
    var replaced := ReplaceInvalid(s);
    if |replaced| > 0 && IsDigit(replaced[0]) then "_" + replaced else replaced
  }

  /** Sanitizing twice is the same as sanitizing once. */
  lemma {:induction false} GetValidIdentifierIdempotent(s: string)
    ensures GetValidIdentifier(GetValidIdentifier(s)) == GetValidIdentifier(s)
  {
  }

  /** Only characters outside the identifier class are rewritten, each to `_`, and the rest keep their place. */
  lemma {:induction false} GetValidIdentifierKeeps(s: string, i: nat)
    requires i < |s|
    ensures var r := GetValidIdentifier(s);
            var off := |r| - |s|;
            r[i + off] == (if IsIdentChar(s[i]) then s[i] else '_')
  {
  }

  /** `'123'` becomes `'_123'`: the digits are kept and an underscore is put in front. */
  lemma {:induction false} LeadingDigitExample()
    ensures GetValidIdentifier("123") == "_123"
  {
    var s := "123";
    assert forall i :: 0 <= i < |s| ==> IsIdentChar(s[i]);
    assert ReplaceInvalid(s) == s;
  }

  /** `'a-b'` becomes `'a_b'`; `'props'` is already valid and stays. */
  lemma {:induction false} InvalidCharExample()
    ensures GetValidIdentifier("a-b") == "a_b"
    ensures GetValidIdentifier("props") == "props"
  {
    assert ReplaceInvalid("a-b") == "a_b";
    assert IsValidIdentifier("props");
  }
}
