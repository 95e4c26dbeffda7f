/**
 * The escaper `getEscapedString` (index.js): `str.replace(/([\\"])/g, '\\$1')`
 * puts one backslash before every backslash and every double quote.
 */
module Escaping {
  import opened Wrappers

  /** The two characters matched by the escape pattern. */
  predicate NeedsEscape(c: char) {
    c == '\\' || c == '"'
  }

  /** How many characters of `s` the escaper prefixes. */
  function CountEscaped(s: string): nat {
    if s == [] then 0 else (if NeedsEscape(s[0]) then 1 else 0) + CountEscaped(s[1..])
  }

  function EscapeChar(c: char): string {
    if NeedsEscape(c) then ['\\', c] else [c]
  }

  /** getEscapedString: the output is the input with one backslash added per special character. */
  function Escape(s: string): (r: string)
    ensures |r| == |s| + CountEscaped(s)
  {
    if s == [] then [] else EscapeChar(s[0]) + Escape(s[1..])
  }

  /** Escaping works character by character, so it distributes over concatenation. */
  lemma {:induction false} EscapeAppend(a: string, b: string)
    ensures Escape(a + b) == Escape(a) + Escape(b)
  {
    if a == [] {
      assert a + b == b;
    } else {
      assert (a + b)[1..] == a[1..] + b;
      EscapeAppend(a[1..], b);
    }
  }

  /** An escaped string with nothing special in it is the string itself. */
  lemma {:induction false} EscapePlain(s: string)
    requires forall i :: 0 <= i < |s| ==> !NeedsEscape(s[i])
    ensures Escape(s) == s
  {
    if s != [] {
      EscapePlain(s[1..]);
    }
  }

  /**
   * Reads the body of a double-quoted literal up to its closing quote: a
   * backslash makes the next character literal, an unescaped `"` ends the
   * literal. Returns the decoded body and what follows the closing quote.
   */
  function ReadQuoted(t: string): (r: Option<(string, string)>)
    ensures r.Some? ==> |r.value.1| < |t|
  {
    if t == [] then None
    else if t[0] == '"' then Some(([], t[1..]))
    else if t[0] == '\\' then
      if |t| < 2 then None
      else match ReadQuoted(t[2..])
        case None => None
        case Some((body, rest)) => Some(([t[1]] + body, rest))
    else match ReadQuoted(t[1..])
      case None => None
      case Some((body, rest)) => Some(([t[0]] + body, rest))
  }

  /**
   * The escaped text, placed between double quotes, reads back as exactly the
   * original string, and the literal ends at the closing quote the renderer
   * writes, whatever follows it.
   */
  lemma {:induction false} ReadQuotedEscape(s: string, rest: string)
    ensures ReadQuoted(Escape(s) + "\"" + rest) == Some((s, rest))
  {
    if s == [] {
      assert Escape(s) + "\"" + rest == ['"'] + rest;
    } else {
      var tail := Escape(s[1..]) + "\"" + rest;
      assert ReadQuoted(tail) == Some((s[1..], rest)) by {
        ReadQuotedEscape(s[1..], rest);
      }
      if NeedsEscape(s[0]) {
        assert Escape(s) + "\"" + rest == ['\\', s[0]] + tail;
        ReadQuotedBackslash(s[0], tail);
      } else {
        assert Escape(s) + "\"" + rest == [s[0]] + tail;
        ReadQuotedOther(s[0], tail);
      }
      assert [s[0]] + s[1..] == s;
    }
  }

  /** A backslash makes the character after it part of the body. */
  lemma {:induction false} ReadQuotedBackslash(c: char, tail: string)
    ensures ReadQuoted(['\\', c] + tail) ==
      match ReadQuoted(tail)
      case None => None
      case Some((body, rest)) => Some(([c] + body, rest))
  {
    assert (['\\', c] + tail)[2..] == tail;
  }

  /** A character other than a quote or a backslash is part of the body. */
  lemma {:induction false} ReadQuotedOther(c: char, tail: string)
    requires !NeedsEscape(c)
    ensures ReadQuoted([c] + tail) ==
      match ReadQuoted(tail)
      case None => None
      case Some((body, rest)) => Some(([c] + body, rest))
  {
    assert ([c] + tail)[1..] == tail;
  }

  /** Different strings escape to different strings: the escaper loses nothing. */
  lemma {:induction false} EscapeInjective(a: string, b: string)
    requires Escape(a) == Escape(b)
    ensures a == b
  {
    ReadQuotedEscape(a, "");
    ReadQuotedEscape(b, "");
  }

  /** A string with nothing special in it, between double quotes, escapes to the same string between escaped quotes. */
  lemma {:induction false} EscapeQuotedPlain(s: string)
    requires forall i :: 0 <= i < |s| ==> !NeedsEscape(s[i])
    ensures Escape("\"" + s + "\"") == "\\\"" + s + "\\\""
  {
    var q := "\"";
    assert Escape(q) == "\\\"";
    EscapeAppend(q + s, q);
    EscapeAppend(q, s);
    EscapePlain(s);
  }

  /** The quote and backslash of the fixtures: `"key"` escapes to `\"key\"`. */
  lemma {:induction false} EscapeExample()
    ensures Escape("\"key\"") == "\\\"key\\\""
    ensures Escape("a\\b") == "a\\\\b"
  {
  }
}
