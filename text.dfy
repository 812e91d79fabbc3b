/**
 * The string primitives the dispatcher relies on: JavaScript's
 * `String.prototype.includes` and the character class `\s` of
 * ECMAScript regular expressions.
 */
module Text {

  /** `sub` occurs in `s` starting at index `i`. */
  ghost predicate OccursAt(s: string, sub: string, i: int) {
    0 <= i && i + |sub| <= |s| && s[i..i + |sub|] == sub
  }

  /** `s.includes(sub)`: case-sensitive substring test, scanning left to right. */
  function Includes(s: string, sub: string): bool
    decreases |s|
  {
    if |s| < |sub| then false
    else s[..|sub|] == sub || Includes(s[1..], sub)
  }

  /** The scanner agrees with the declarative definition of an occurrence. */
  lemma {:induction false} IncludesIff(s: string, sub: string)
    ensures Includes(s, sub) <==> exists i :: OccursAt(s, sub, i)
  {
    if |s| < |sub| {
    } else if s[..|sub|] == sub {
      assert OccursAt(s, sub, 0);
    } else {
      IncludesIff(s[1..], sub);
      if Includes(s[1..], sub) {
        var i :| OccursAt(s[1..], sub, i);
        assert s[1..][i..i + |sub|] == s[i + 1..i + 1 + |sub|];
        assert OccursAt(s, sub, i + 1);
      } else {
        forall i | OccursAt(s, sub, i) ensures false {
          if i > 0 {
            assert s[1..][i - 1..i - 1 + |sub|] == s[i..i + |sub|];
            assert OccursAt(s[1..], sub, i - 1);
          }
        }
      }
    }
  }

  /** Whatever is concatenated around `mid`, the result includes `mid`. */
  lemma IncludesInfix(pre: string, mid: string, post: string)
    ensures Includes(pre + mid + post, mid)
  {
    var s := pre + mid + post;
    assert s[|pre|..|pre| + |mid|] == mid;
    assert OccursAt(s, mid, |pre|);
    IncludesIff(s, mid);
  }

  /**
   * The regular-expression class `\s`: the ECMAScript WhiteSpace and
   * LineTerminator code points.
   */
  predicate IsRegExpSpace(c: char) {
    c == '\t' || c == '\n' || c == '\U{000B}' || c == '\U{000C}' || c == '\r' || c == ' '
    || c == '\U{00A0}' || c == '\U{1680}' || ('\U{2000}' <= c <= '\U{200A}')
    || c == '\U{2028}' || c == '\U{2029}' || c == '\U{202F}' || c == '\U{205F}'
    || c == '\U{3000}' || c == '\U{FEFF}'
  }
}
