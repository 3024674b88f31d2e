/**
 * The two pieces of JavaScript string behaviour the form relies on:
 * `String.prototype.trim` (used on the relationship name) and substring
 * containment (used to state what a notification message mentions).
 */
module JsString {

  /** The characters `trim` removes: ECMAScript WhiteSpace and LineTerminator. */
  predicate IsWhitespace(c: char) {
    || c == '\t' || c == '\n' || c == '\U{000B}' || c == '\U{000C}' || c == '\r'
    || c == ' ' || c == '\U{00A0}' || c == '\U{1680}'
    || ('\U{2000}' <= c <= '\U{200A}')
    || c == '\U{2028}' || c == '\U{2029}' || c == '\U{202F}' || c == '\U{205F}'
    || c == '\U{3000}' || c == '\U{FEFF}'
  }

  /** A string made of whitespace only (the empty string included). */
  predicate Blank(s: string) {
    forall i :: 0 <= i < |s| ==> IsWhitespace(s[i])
  }

  /** `sub` sits in `s` starting at index `k`. */
  predicate OccursAt(s: string, sub: string, k: int) {
    0 <= k <= |s| - |sub| && s[k..k + |sub|] == sub
  }

  predicate Contains(s: string, sub: string) {
    exists k :: 0 <= k <= |s| - |sub| && OccursAt(s, sub, k)
  }

  /** Drops leading whitespace: what remains is a suffix of `s` that does not start with whitespace. */
  function TrimStart(s: string): (r: string)
    ensures |r| <= |s| && r == s[|s| - |r|..]
    ensures forall i :: 0 <= i < |s| - |r| ==> IsWhitespace(s[i])
    ensures r == [] || !IsWhitespace(r[0])
  {
    if s != [] && IsWhitespace(s[0]) then TrimStart(s[1..]) else s
  }

  /** Drops trailing whitespace: what remains is a prefix of `s` that does not end with whitespace. */
  function TrimEnd(s: string): (r: string)
    ensures |r| <= |s| && r == s[..|r|]
    ensures forall i :: |r| <= i < |s| ==> IsWhitespace(s[i])
    ensures r == [] || !IsWhitespace(r[|r| - 1])
  {
    if s != [] && IsWhitespace(s[|s| - 1]) then TrimEnd(s[..|s| - 1]) else s
  }

  /**
   * `s.trim()`: an infix of `s` with no whitespace at either end, and empty
   * exactly when `s` is blank.
   */
  function Trim(s: string): (r: string)
    ensures Contains(s, r)
    ensures r == [] || (!IsWhitespace(r[0]) && !IsWhitespace(r[|r| - 1]))
    ensures r == [] <==> Blank(s)
  {
    TrimIsInfix(s);
    TrimEnd(TrimStart(s))
  }

  lemma TrimIsInfix(s: string)
    ensures Contains(s, TrimEnd(TrimStart(s)))
    ensures TrimEnd(TrimStart(s)) == [] <==> Blank(s)
  {
    var t := TrimStart(s);
    var r := TrimEnd(t);
    var k := |s| - |t|;
    assert s[k..k + |r|] == r by {
      assert t == s[k..];
      assert r == t[..|r|];
    }
    assert OccursAt(s, r, k);
    if r == [] {
      forall i | 0 <= i < |s| ensures IsWhitespace(s[i]) {
        if i >= k {
          assert s[i] == t[i - k];
        }
      }
    } else {
      assert s[k] == r[0];
    }
  }

  /** The middle of a concatenation occurs in it. */
  lemma ContainsMiddle(a: string, b: string, c: string)
    ensures Contains(a + b + c, b)
  {
    assert (a + b + c)[|a|..|a| + |b|] == b;
    assert OccursAt(a + b + c, b, |a|);
  }

  /** Whatever occurs in the tail of a concatenation occurs in the whole. */
  lemma ContainsInTail(a: string, c: string, w: string)
    requires Contains(c, w)
    ensures Contains(a + c, w)
  {
    var k :| 0 <= k <= |c| - |w| && OccursAt(c, w, k);
    assert (a + c)[|a| + k..|a| + k + |w|] == c[k..k + |w|];
    assert OccursAt(a + c, w, |a| + k);
  }
}
