/**
 * The inline-argument scanner of the chat mutation: the first match of the
 * regular expression /message:\s*"([^"]*)"/ over the raw query text, and
 * its first capture group.
 */
module MessagePattern {
  import opened Wrappers
  import opened Text

  /** The literal the pattern starts with. */
  const Keyword: string := "message:"

  /** A match of the pattern: where it starts and what group 1 captured. */
  datatype Match = Match(index: nat, capture: string)

  /**
   * The pattern matches at `i` with `w` characters of `\s` after the keyword,
   * and group 1 captures `lit`: `message:`, the spaces, `"`, then `lit`,
   * which holds no `"`, then the closing `"`.
   */
  ghost predicate MatchShape(s: string, i: nat, w: nat, lit: string) {
    var open := i + |Keyword| + w;
    var close := open + 1 + |lit|;
    close < |s|
    && s[i..i + |Keyword|] == Keyword
    && (forall t :: i + |Keyword| <= t < open ==> IsRegExpSpace(s[t]))
    && s[open] == '"'
    && (forall t :: 0 <= t < |lit| ==> lit[t] != '"')
    && s[open + 1..close] == lit
    && s[close] == '"'
  }

  /** Some amount of space lets the pattern match at `i` capturing `lit`. */
  ghost predicate MatchesAt(s: string, i: nat, lit: string) {
    exists w: nat :: MatchShape(s, i, w, lit)
  }

  /** The greedy `\s*`: the length of the maximal run of spaces from `j`. */
  function SpaceRun(s: string, j: nat): (n: nat)
    requires j <= |s|
    ensures j + n <= |s|
    ensures forall t :: j <= t < j + n ==> IsRegExpSpace(s[t])
    ensures j + n == |s| || !IsRegExpSpace(s[j + n])
    decreases |s| - j
  {
    if j < |s| && IsRegExpSpace(s[j]) then 1 + SpaceRun(s, j + 1) else 0
  }

  /** A run of exactly `w` spaces followed by a non-space is what `SpaceRun` measures. */
  lemma {:induction false} SpaceRunExact(s: string, j: nat, w: nat)
    requires j + w < |s|
    requires forall t :: j <= t < j + w ==> IsRegExpSpace(s[t])
    requires !IsRegExpSpace(s[j + w])
    ensures SpaceRun(s, j) == w
    decreases w
  {
    if w > 0 {
      SpaceRunExact(s, j + 1, w - 1);
    }
  }

  /** The greedy `[^"]*"`: the index of the first `"` at or after `j`, if any. */
  function NextQuote(s: string, j: nat): (r: Option<nat>)
    requires j <= |s|
    ensures r.Some? ==> j <= r.value < |s| && s[r.value] == '"'
    ensures forall t :: j <= t < (if r.Some? then r.value else |s|) ==> s[t] != '"'
    decreases |s| - j
  {
    if j == |s| then None
    else if s[j] == '"' then Some(j)
    else NextQuote(s, j + 1)
  }

  /** The pattern anchored at `i`: the capture, if the pattern matches there. */
  function MatchAt(s: string, i: nat): Option<string>
    requires i <= |s|
  {
    if i + |Keyword| <= |s| && s[i..i + |Keyword|] == Keyword then
      var open := i + |Keyword| + SpaceRun(s, i + |Keyword|);
      if open < |s| && s[open] == '"' then
        match NextQuote(s, open + 1)
        case Some(close) => Some(s[open + 1..close])
        case None => None
      else None
    else None
  }

  /** What the anchored matcher captures is a match of the pattern. */
  lemma MatchAtSound(s: string, i: nat)
    requires i <= |s|
    ensures MatchAt(s, i).Some? ==> MatchesAt(s, i, MatchAt(s, i).value)
  {
    if MatchAt(s, i).Some? {
      var w := SpaceRun(s, i + |Keyword|);
      var open := i + |Keyword| + w;
      var close := NextQuote(s, open + 1).value;
      var lit := s[open + 1..close];
      forall t | 0 <= t < |lit| ensures lit[t] != '"' {
        assert lit[t] == s[open + 1 + t];
      }
      assert MatchShape(s, i, w, lit);
    }
  }

  /** Every match of the pattern at `i` is the one the anchored matcher finds. */
  lemma MatchAtComplete(s: string, i: nat, w: nat, lit: string)
    requires MatchShape(s, i, w, lit)
    ensures MatchAt(s, i) == Some(lit)
  {
    var j := i + |Keyword|;
    var open := j + w;
    var close := open + 1 + |lit|;
    assert !IsRegExpSpace('"');
    SpaceRunExact(s, j, w);
    forall t | open + 1 <= t < close ensures s[t] != '"' {
      assert s[t] == lit[t - open - 1];
    }
    var q := NextQuote(s, open + 1);
    assert q == Some(close);
  }

  /** Leftmost search from `i`: the regular expression engine's order of attempts. */
  function FindFrom(s: string, i: nat): Option<Match>
    requires i <= |s|
    decreases |s| - i
  {
    match MatchAt(s, i)
    case Some(lit) => Some(Match(i, lit))
    case None => if i == |s| then None else FindFrom(s, i + 1)
  }

  /** `query.match(/message:\s*"([^"]*)"/)`: the first match in the whole text. */
  function FirstMatch(s: string): Option<Match> {
    FindFrom(s, 0)
  }

  /** No match of the pattern starts in `[lo, hi)`. */
  ghost predicate NoMatchIn(s: string, lo: nat, hi: nat) {
    forall q: nat, w: nat, lit: string :: lo <= q < hi ==> !MatchShape(s, q, w, lit)
  }

  /** `m` is the leftmost match of the pattern at or after `lo`. */
  ghost predicate LeftmostFrom(s: string, lo: nat, m: Match) {
    lo <= m.index && MatchesAt(s, m.index, m.capture) && NoMatchIn(s, lo, m.index)
  }

  /** The leftmost match is unique: its index and its capture are determined. */
  lemma LeftmostUnique(s: string, m1: Match, m2: Match)
    requires LeftmostFrom(s, 0, m1) && LeftmostFrom(s, 0, m2)
    ensures m1 == m2
  {
    var w1: nat :| MatchShape(s, m1.index, w1, m1.capture);
    var w2: nat :| MatchShape(s, m2.index, w2, m2.capture);
    assert !(m1.index < m2.index) by {
      assert NoMatchIn(s, 0, m2.index);
    }
    assert !(m2.index < m1.index) by {
      assert NoMatchIn(s, 0, m1.index);
    }
    MatchAtComplete(s, m1.index, w1, m1.capture);
    MatchAtComplete(s, m2.index, w2, m2.capture);
  }

  /**
   * The search from `i` finds the leftmost match at or after `i`, and finds
   * none exactly when there is none.
   */
  lemma {:induction false} FindFromCorrect(s: string, i: nat)
    requires i <= |s|
    ensures FindFrom(s, i).Some? ==> LeftmostFrom(s, i, FindFrom(s, i).value)
    ensures FindFrom(s, i).None? ==> NoMatchIn(s, i, |s| + 1)
    decreases |s| - i
  {
    MatchAtSound(s, i);
    forall w: nat, lit: string | MatchShape(s, i, w, lit) ensures MatchAt(s, i) == Some(lit) {
      MatchAtComplete(s, i, w, lit);
    }
    if MatchAt(s, i).None? {
      if i < |s| {
        FindFromCorrect(s, i + 1);
      } else {
        forall q: nat, w: nat, lit: string | i <= q < |s| + 1 ensures !MatchShape(s, q, w, lit) {
          assert q == i;
        }
      }
    }
  }

  /**
   * The first match of the pattern in the whole text: its capture holds no
   * `"`, the text has `message:`, spaces, `"`, the capture and `"` at its
   * index, and no match starts earlier. There is no match at all exactly
   * when the search finds none.
   */
  lemma FirstMatchCorrect(s: string)
    ensures FirstMatch(s).Some? ==> LeftmostFrom(s, 0, FirstMatch(s).value)
    ensures FirstMatch(s).None? <==> (forall q: nat, lit: string :: !MatchesAt(s, q, lit))
  {
    FindFromCorrect(s, 0);
    if FirstMatch(s).None? {
      forall q: nat, lit: string ensures !MatchesAt(s, q, lit) {
        forall w: nat ensures !MatchShape(s, q, w, lit) {
          if q <= |s| {
            assert !MatchShape(s, q, w, lit);
          }
        }
      }
    }
  }

  /**
   * An inline literal is recovered: when no `:` precedes the first
   * `message:`, the first match is the one there, capturing the literal.
   */
  lemma InlineLiteralRecovered(pre: string, ws: string, lit: string, post: string)
    requires ':' !in pre
    requires forall t :: 0 <= t < |ws| ==> IsRegExpSpace(ws[t])
    requires '"' !in lit
    ensures FirstMatch(pre + Keyword + ws + "\"" + lit + "\"" + post) == Some(Match(|pre|, lit))
  {
    var s := pre + Keyword + ws + "\"" + lit + "\"" + post;
    var open := |pre| + |Keyword| + |ws|;
    assert s[|pre|..|pre| + |Keyword|] == Keyword;
    assert s[open + 1..open + 1 + |lit|] == lit;
    forall t | |pre| + |Keyword| <= t < open ensures IsRegExpSpace(s[t]) {
      assert s[t] == ws[t - |pre| - |Keyword|];
    }
    forall t | 0 <= t < |lit| ensures lit[t] != '"' {
      assert lit[t] in lit;
    }
    assert MatchShape(s, |pre|, |ws|, lit);
    forall t | 7 <= t < |pre| + 7 ensures s[t] != ':' {
      if t < |pre| {
        assert s[t] == pre[t];
        assert pre[t] in pre;
      } else {
        assert s[t] == Keyword[t - |pre|];
      }
    }
    forall q: nat, w: nat, l: string | q < |pre| ensures !MatchShape(s, q, w, l) {
      assert s[q + 7] != ':';
      assert Keyword[7] == ':';
    }
    assert MatchesAt(s, |pre|, lit);
    FirstMatchCorrect(s);
    var m := FirstMatch(s).value;
    assert m.index == |pre|;
    var w: nat :| MatchShape(s, m.index, w, m.capture);
    MatchAtComplete(s, |pre|, w, m.capture);
    MatchAtComplete(s, |pre|, |ws|, lit);
  }
}
