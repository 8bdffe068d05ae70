/** The str methods the core uses: `split(c)[0]`, `split(c)[-1]` and ASCII `upper()`. */
module Strings {

  /** `s.split(c)[0]`: the text before the first `c` (all of `s` when there is none). */
  function BeforeFirst(s: string, c: char): (t: string)
    ensures |t| <= |s| && t == s[..|t|]
    ensures c !in t
    ensures |t| < |s| ==> s[|t|] == c
  {
    if s == [] || s[0] == c then ""
    else [s[0]] + BeforeFirst(s[1..], c)
  }

  /** `s.split(c)[-1]`: the text after the last `c` (all of `s` when there is none). */
  function AfterLast(s: string, c: char): (t: string)
    ensures |t| <= |s| && t == s[|s| - |t|..]
    ensures c !in t
    ensures |t| < |s| ==> s[|s| - |t| - 1] == c
  {
    if s == [] || s[|s| - 1] == c then ""
    else AfterLast(s[..|s| - 1], c) + [s[|s| - 1]]
  }

  function UpperChar(ch: char): char {
    if 'a' <= ch <= 'z' then (ch as int - 32) as char else ch
  }

  /** `s.upper()` restricted to ASCII letters. */
  function Upper(s: string): (u: string)
    ensures |u| == |s|
    ensures forall i :: 0 <= i < |s| ==> u[i] == UpperChar(s[i])
  {
    seq(|s|, i requires 0 <= i < |s| => UpperChar(s[i]))
  }

  /** Neither part holds `c`, so their concatenation does not. */
  lemma NotInConcat(a: string, b: string, c: char)
    requires c !in a && c !in b
    ensures c !in a + b
  {
    var s := a + b;
    forall i | 0 <= i < |s| ensures s[i] != c {
      if i < |a| { assert s[i] == a[i]; } else { assert s[i] == b[i - |a|]; }
    }
  }

  /** A text that holds no `c` is its own first and last `split(c)` segment. */
  lemma SegmentsWithoutSeparator(s: string, c: char)
    requires c !in s
    ensures BeforeFirst(s, c) == s && AfterLast(s, c) == s
  {
  }

  /** The first segment of `w + [c] + rest` is `w` when `w` holds no `c`. */
  lemma {:induction false} BeforeFirstOfJoin(w: string, c: char, rest: string)
    requires c !in w
    ensures BeforeFirst(w + [c] + rest, c) == w
    decreases |w|
  {
    var s := w + [c] + rest;
    if w == [] {
      assert s[0] == c;
    } else {
      assert s[0] == w[0] && s[0] != c;
      assert s[1..] == w[1..] + [c] + rest;
      BeforeFirstOfJoin(w[1..], c, rest);
    }
  }

  /** The last segment of `prefix + [c] + w` is `w` when `w` holds no `c`. */
  lemma {:induction false} AfterLastOfJoin(prefix: string, c: char, w: string)
    requires c !in w
    ensures AfterLast(prefix + [c] + w, c) == w
    decreases |w|
  {
    var s := prefix + [c] + w;
    if w == [] {
      assert s[|s| - 1] == c;
    } else {
      assert s[|s| - 1] == w[|w| - 1] && s[|s| - 1] != c;
      assert s[..|s| - 1] == prefix + [c] + w[..|w| - 1];
      AfterLastOfJoin(prefix, c, w[..|w| - 1]);
    }
  }
}
