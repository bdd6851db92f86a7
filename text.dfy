/**
 * The string operations the components rely on: `toLowerCase`,
 * `includes` and the emptiness test on `trim()`. Characters are ASCII
 * here; JavaScript's Unicode case mapping and white-space classes are wider.
 */
module Text {

  /** `c.toLowerCase()` for one ASCII character. */
  function LowerChar(c: char): char
  {
    if 'A' <= c <= 'Z' then (c as int + 32) as char else c
  }

  /** `s.toLowerCase()`. */
  function Lower(s: string): string
  {
    seq(|s|, i requires 0 <= i < |s| => LowerChar(s[i]))
  }

  predicate IsPrefix(p: string, s: string)
  {
    |p| <= |s| && s[..|p|] == p
  }

  /** `s.includes(p)`: `p` occurs in `s` at some position. */
  predicate Includes(s: string, p: string)
  {
    exists i | 0 <= i <= |s| :: IsPrefix(p, s[i..])
  }

  /** The white space that `String.prototype.trim` strips (ASCII part). */
  predicate IsWhitespace(c: char)
  {
    c == ' ' || c == '\t' || c == '\n' || c == '\r' || c == '\U{B}' || c == '\U{C}'
  }

  /** `!s.trim()`: nothing but white space is left, so trimming yields "". */
  predicate IsBlank(s: string)
  {
    forall i :: 0 <= i < |s| ==> IsWhitespace(s[i])
  }

  /** Every string includes the empty string (`"abc".includes("") === true`). */
  lemma IncludesEmpty(s: string)
    ensures Includes(s, "")
  {
    assert IsPrefix("", s[0..]);
  }

  /** Substring containment is transitive. */
  lemma IncludesTransitive(a: string, b: string, c: string)
    requires Includes(a, b) && Includes(b, c)
    ensures Includes(a, c)
  {
    var i :| 0 <= i <= |a| && IsPrefix(b, a[i..]);
    var j :| 0 <= j <= |b| && IsPrefix(c, b[j..]);
    assert a[i..][..|b|] == b;
    assert a[i + j..][..|c|] == b[j..][..|c|];
    assert IsPrefix(c, a[i + j..]);
  }
}
