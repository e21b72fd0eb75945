/** The two JavaScript string operations the views rely on:
    `String.prototype.trim` (used to reject blank titles and descriptions)
    and `s.split(sep)[0]` (used to cut a timestamp down to its date). */
module Js {

  /** ECMAScript WhiteSpace and LineTerminator code points: the characters
      that `trim` removes from both ends of a string (the Zs category is
      taken as of Unicode 15). */
  predicate IsWhitespace(c: char): (b: bool)
    ensures b ==> c == ' ' || 0x09 <= c as int <= 0x0D || c as int >= 0xA0
  {
    var n := c as int;
    n == 0x09 || n == 0x0A || n == 0x0B || n == 0x0C || n == 0x0D || n == 0x20 ||
    n == 0xA0 || n == 0x1680 || (0x2000 <= n <= 0x200A) ||
    n == 0x2028 || n == 0x2029 || n == 0x202F || n == 0x205F ||
    n == 0x3000 || n == 0xFEFF
  }

  predicate AllWhitespace(s: string) {
    forall i :: 0 <= i < |s| ==> IsWhitespace(s[i])
  }

  /** Leading whitespace removed: a suffix of `s`, everything cut off is
      whitespace, and what is left does not start with whitespace. */
  function TrimStart(s: string): (r: string)
    ensures |r| <= |s| && r == s[|s| - |r|..]
    ensures forall i :: 0 <= i < |s| - |r| ==> IsWhitespace(s[i])
    ensures r == [] || !IsWhitespace(r[0])
  {
    if s != [] && IsWhitespace(s[0]) then TrimStart(s[1..]) else s
  }

  /** Trailing whitespace removed: a prefix of `s`, everything cut off is
      whitespace, and what is left does not end with whitespace. */
  function TrimEnd(s: string): (r: string)
    ensures |r| <= |s| && r == s[..|r|]
    ensures forall i :: |r| <= i < |s| ==> IsWhitespace(s[i])
    ensures r == [] || !IsWhitespace(r[|r| - 1])
  {
    if s != [] && IsWhitespace(s[|s| - 1]) then TrimEnd(s[..|s| - 1]) else s
  }

  /** `s.trim()`: the middle of `s` left once its whitespace prefix and
      suffix are cut off; it is empty or starts and ends with a
      non-whitespace character. */
  function Trim(s: string): (r: string)
    ensures var k := |s| - |TrimStart(s)|;
      && k + |r| <= |s| && r == s[k..k + |r|]
      && AllWhitespace(s[..k]) && AllWhitespace(s[k + |r|..])
    ensures r == [] || (!IsWhitespace(r[0]) && !IsWhitespace(r[|r| - 1]))
  {
    MiddleOf(s, TrimStart(s), TrimEnd(TrimStart(s)));
    TrimEnd(TrimStart(s))
  }

  /** A whitespace-free-ended prefix `r` of a suffix `t` of `s` is a slice
      of `s` with whitespace on both sides. */
  lemma MiddleOf(s: string, t: string, r: string)
    requires |t| <= |s| && t == s[|s| - |t|..]
    requires forall i :: 0 <= i < |s| - |t| ==> IsWhitespace(s[i])
    requires |r| <= |t| && r == t[..|r|]
    requires forall i :: |r| <= i < |t| ==> IsWhitespace(t[i])
    ensures var k := |s| - |t|;
      && r == s[k..k + |r|]
      && AllWhitespace(s[..k]) && AllWhitespace(s[k + |r|..])
  {
    var k := |s| - |t|;
    assert AllWhitespace(s[..k]) by {
      forall i | 0 <= i < k ensures IsWhitespace(s[..k][i]) {
        assert s[..k][i] == s[i];
      }
    }
    var tail := s[k + |r|..];
    assert AllWhitespace(tail) by {
      forall i | 0 <= i < |tail| ensures IsWhitespace(tail[i]) {
        assert tail[i] == t[|r| + i];
      }
    }
  }

  /** `s.trim() === ""`: holds exactly when every character of `s` is
      whitespace. */
  predicate IsBlank(s: string): (b: bool)
    ensures b <==> AllWhitespace(s)
  {
    Trim(s) == ""
  }

  /** `s.split([c])[0]`: the text before the first `c`, or all of `s` when
      there is none. */
  function BeforeFirst(s: string, c: char): (r: string)
    ensures |r| <= |s| && r == s[..|r|]
    ensures c !in r
    ensures |r| < |s| ==> s[|r|] == c
    ensures c !in s ==> r == s
  {
    if s == [] || s[0] == c then [] else [s[0]] + BeforeFirst(s[1..], c)
  }

  /** The prefix up to the first separator is recovered whatever follows it. */
  lemma {:induction false} BeforeFirstSplit(p: string, c: char, rest: string)
    requires c !in p
    ensures BeforeFirst(p + [c] + rest, c) == p
  {
    if p != [] {
      assert (p + [c] + rest)[1..] == p[1..] + [c] + rest;
      BeforeFirstSplit(p[1..], c, rest);
    } else {
      assert (p + [c] + rest)[0] == c;
    }
  }
}
