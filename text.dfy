/** The string operations the screens use on what the user types:
    `String.prototype.trim`, `toLowerCase` and `includes`. */
module Text {

  /** The code points JavaScript's `trim` removes: the WhiteSpace and
      LineTerminator characters of section 12.2 and 12.3 of ECMA-262. */
  predicate IsJsWhitespace(c: char) {
    c in {'\t', '\n', '\U{000B}', '\U{000C}', '\r', ' ', '\U{00A0}', '\U{1680}',
          '\U{2000}', '\U{2001}', '\U{2002}', '\U{2003}', '\U{2004}', '\U{2005}',
          '\U{2006}', '\U{2007}', '\U{2008}', '\U{2009}', '\U{200A}', '\U{2028}',
          '\U{2029}', '\U{202F}', '\U{205F}', '\U{3000}', '\U{FEFF}'}
  }

  /** `s` without its leading whitespace. */
  function TrimStart(s: string): (r: string)
    ensures |r| <= |s| && r == s[|s| - |r|..]
    ensures r != [] ==> !IsJsWhitespace(r[0])
    ensures forall i :: 0 <= i < |s| - |r| ==> IsJsWhitespace(s[i])
  {
    if s != [] && IsJsWhitespace(s[0]) then TrimStart(s[1..]) else s
  }

  /** `s` without its trailing whitespace. */
  function TrimEnd(s: string): (r: string)
    ensures |r| <= |s| && r == s[..|r|]
    ensures r != [] ==> !IsJsWhitespace(r[|r| - 1])
    ensures forall i :: |r| <= i < |s| ==> IsJsWhitespace(s[i])
  {
    if s != [] && IsJsWhitespace(s[|s| - 1]) then TrimEnd(s[..|s| - 1]) else s
  }

  /** `r` is the slice of `s` at index `k`, and everything of `s` around it is whitespace. */
  predicate TrimmedAt(s: string, r: string, k: int) {
    && OccursAt(s, r, k)
    && (forall i :: 0 <= i < k ==> IsJsWhitespace(s[i]))
    && (forall i :: k + |r| <= i < |s| ==> IsJsWhitespace(s[i]))
  }

  /** `s.trim()`: the slice of `s` left between a whitespace prefix and a
      whitespace suffix, with no whitespace at either of its own ends. */
  function Trim(s: string): (r: string)
    ensures exists k :: TrimmedAt(s, r, k)
    ensures r != [] ==> !IsJsWhitespace(r[0]) && !IsJsWhitespace(r[|r| - 1])
  {
    var t := TrimStart(s);
    var r := TrimEnd(t);
    SliceBetweenWhitespace(s, t, r, |s| - |t|);
    r
  }

  /** A prefix `r` of the suffix `t == s[k..]`, with whitespace before `k` in `s`
      and after `r` in `t`, is the slice of `s` at `k` with whitespace around it. */
  lemma SliceBetweenWhitespace(s: string, t: string, r: string, k: int)
    requires 0 <= k <= |s| && t == s[k..]
    requires |r| <= |t| && r == t[..|r|]
    requires forall i :: 0 <= i < k ==> IsJsWhitespace(s[i])
    requires forall i :: |r| <= i < |t| ==> IsJsWhitespace(t[i])
    ensures TrimmedAt(s, r, k)
  {
    assert s[k..k + |r|] == r;
    forall i | k + |r| <= i < |s|
      ensures IsJsWhitespace(s[i])
    {
      assert s[i] == t[i - k];
    }
  }

  /** `!s.trim()`: every character of `s` is whitespace (`BlankIffTrimEmpty`). */
  predicate IsBlank(s: string) {
    forall i :: 0 <= i < |s| ==> IsJsWhitespace(s[i])
  }

  /** A text is blank exactly when nothing is left of it once it is trimmed. */
  lemma BlankIffTrimEmpty(s: string)
    ensures IsBlank(s) <==> Trim(s) == ""
  {
    var r := Trim(s);
    var k :| TrimmedAt(s, r, k);
    if r != "" {
      assert s[k] == r[0];
    }
  }

  /** `c.toLowerCase()` for the ASCII letters; every other character is kept. */
  function LowerChar(c: char): (r: char)
    ensures 'A' <= c <= 'Z' ==> 'a' <= r <= 'z' && r as int == c as int + 32
    ensures !('A' <= c <= 'Z') ==> r == c
  {
    if 'A' <= c <= 'Z' then (c as int - 'A' as int + 'a' as int) as char else c
  }

  /** `s.toLowerCase()`, character by character over ASCII. */
  function Lower(s: string): (r: string)
    ensures |r| == |s|
    ensures forall i :: 0 <= i < |s| && 'A' <= s[i] <= 'Z' ==> r[i] as int == s[i] as int + 32
    ensures forall i :: 0 <= i < |s| && !('A' <= s[i] <= 'Z') ==> r[i] == s[i]
    ensures forall i :: 0 <= i < |r| ==> !('A' <= r[i] <= 'Z')
  {
    seq(|s|, i requires 0 <= i < |s| => LowerChar(s[i]))
  }

  predicate StartsWith(s: string, prefix: string) {
    |prefix| <= |s| && s[..|prefix|] == prefix
  }

  /** `s.includes(sub)`: `sub` starts at the front of `s` or somewhere after it. */
  predicate Includes(s: string, sub: string)
    ensures StartsWith(s, sub) ==> Includes(s, sub)
    ensures Includes(s, sub) ==> |sub| <= |s|
    decreases |s|
  {
    StartsWith(s, sub) || (s != [] && Includes(s[1..], sub))
  }

  /** `sub` is the slice of `s` that starts at index `i`. */
  predicate OccursAt(s: string, sub: string, i: int) {
    0 <= i && i + |sub| <= |s| && s[i..i + |sub|] == sub
  }

  /** `Includes` is the search for a position at which `sub` occurs. */
  lemma {:induction false} IncludesIffOccurs(s: string, sub: string)
    ensures Includes(s, sub) <==> exists i :: OccursAt(s, sub, i)
    decreases |s|
  {
    if StartsWith(s, sub) {
      assert OccursAt(s, sub, 0);
    } else if s == [] {
      assert forall i :: !OccursAt(s, sub, i);
    } else {
      IncludesIffOccurs(s[1..], sub);
      if i :| OccursAt(s[1..], sub, i) {
        assert s[1..][i..i + |sub|] == s[i + 1..i + 1 + |sub|];
        assert OccursAt(s, sub, i + 1);
      }
      if i :| OccursAt(s, sub, i) {
        assert i != 0;
        assert s[1..][i - 1..i - 1 + |sub|] == s[i..i + |sub|];
        assert OccursAt(s[1..], sub, i - 1);
      }
    }
  }

  /** Every text includes the empty text. */
  lemma IncludesEmpty(s: string)
    ensures Includes(s, "")
  {
    assert StartsWith(s, "");
  }

  /** `s.toLowerCase().includes(term.toLowerCase())`, the search of every list screen. */
  predicate ContainsIgnoringCase(s: string, term: string)
    ensures Includes(s, term) ==> ContainsIgnoringCase(s, term)
    ensures ContainsIgnoringCase(s, term) ==> |term| <= |s|
  {
    CaseFoldKeepsMatches(s, term);
    Includes(Lower(s), Lower(term))
  }

  /** An exact occurrence is still an occurrence once both sides are lower-cased. */
  lemma CaseFoldKeepsMatches(s: string, term: string)
    ensures Includes(s, term) ==> Includes(Lower(s), Lower(term))
  {
    if Includes(s, term) {
      IncludesIffOccurs(s, term);
      var i :| OccursAt(s, term, i);
      FoldKeepsOccurrence(s, term, i);
      IncludesIffOccurs(Lower(s), Lower(term));
    }
  }

  /** Folding both texts keeps an occurrence at the same position. */
  lemma FoldKeepsOccurrence(s: string, term: string, i: int)
    requires OccursAt(s, term, i)
    ensures OccursAt(Lower(s), Lower(term), i)
  {
    var ls, lt := Lower(s), Lower(term);
    forall j | 0 <= j < |term|
      ensures ls[i + j] == lt[j]
    {
      assert s[i + j] == term[j];
      LowerAt(s, i + j);
      LowerAt(term, j);
    }
    assert ls[i..i + |lt|] == lt;
  }

  /** Each character of `Lower(s)` is its counterpart of `s` folded on its own. */
  lemma LowerAt(s: string, k: int)
    requires 0 <= k < |s|
    ensures Lower(s)[k] == LowerChar(s[k])
  {
  }

  /** The empty search term matches every text. */
  lemma EmptyTermMatches(s: string)
    ensures ContainsIgnoringCase(s, "")
  {
    assert Lower("") == "";
    IncludesEmpty(Lower(s));
  }
}
