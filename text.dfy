/** The string operations the asset-sync script relies on: `str.strip`, `str.lower` and `in`. */
module Text {

  /** The characters Python's `str.isspace` accepts, which `str.strip()` removes. */
  predicate IsSpace(c: char) {
    var n := c as int;
    9 <= n <= 13 || 28 <= n <= 32 || n == 0x85 || n == 0xA0 || n == 0x1680
    || 0x2000 <= n <= 0x200A || n == 0x2028 || n == 0x2029 || n == 0x202F
    || n == 0x205F || n == 0x3000
  }

  predicate AllSpace(s: string) {
    forall i :: 0 <= i < |s| ==> IsSpace(s[i])
  }

  /** The regular-expression class `[A-Za-z0-9_]`. */
  predicate IsWordChar(c: char) {
    'A' <= c <= 'Z' || 'a' <= c <= 'z' || '0' <= c <= '9' || c == '_'
  }

  predicate AllWord(s: string) {
    forall i :: 0 <= i < |s| ==> IsWordChar(s[i])
  }

  function StripLeft(s: string): (r: string)
    ensures |r| <= |s| && r == s[|s| - |r|..]
    ensures AllSpace(s[..|s| - |r|])
    ensures r == [] || !IsSpace(r[0])
  {
    if s != [] && IsSpace(s[0]) then
      var r := StripLeft(s[1..]);
      StripLeftStep(s, r);
      r
    else s
  }

  lemma {:induction false} StripLeftStep(s: string, r: string)
    requires s != [] && IsSpace(s[0])
    requires |r| <= |s| - 1 && r == s[1..][|s| - 1 - |r|..] && AllSpace(s[1..][..|s| - 1 - |r|])
    ensures r == s[|s| - |r|..] && AllSpace(s[..|s| - |r|])
  {
    var k := |s| - |r|;
    assert s[..k] == [s[0]] + s[1..][..k - 1];
  }

  function StripRight(s: string): (r: string)
    ensures |r| <= |s| && r == s[..|r|]
    ensures AllSpace(s[|r|..])
    ensures r == [] || !IsSpace(r[|r| - 1])
  {
    if s != [] && IsSpace(s[|s| - 1]) then
      var r := StripRight(s[..|s| - 1]);
      StripRightStep(s, r);
      r
    else s
  }

  lemma {:induction false} StripRightStep(s: string, r: string)
    requires s != [] && IsSpace(s[|s| - 1])
    requires |r| <= |s| - 1 && r == s[..|s| - 1][..|r|] && AllSpace(s[..|s| - 1][|r|..])
    ensures r == s[..|r|] && AllSpace(s[|r|..])
  {
    assert s[|r|..] == s[..|s| - 1][|r|..] + [s[|s| - 1]];
  }

  /**
   * `s.strip()`: the slice of `s` left once the whitespace at both ends is gone.
   */
  function Strip(s: string): (r: string)
    ensures r == [] || (!IsSpace(r[0]) && !IsSpace(r[|r| - 1]))
    ensures exists i :: SurroundedBySpace(s, r, i)
    ensures r == [] <==> AllSpace(s)
  {
    var left := StripLeft(s);
    var r := StripRight(left);
    StripIsSlice(s, left, r);
    r
  }

  /** `r` sits in `s` at offset `i` with only whitespace before and after it. */
  predicate SurroundedBySpace(s: string, r: string, i: int) {
    0 <= i <= |s| - |r| && r == s[i..i + |r|] && AllSpace(s[..i]) && AllSpace(s[i + |r|..])
  }

  lemma {:induction false} StripIsSlice(s: string, left: string, r: string)
    requires |left| <= |s| && left == s[|s| - |left|..] && AllSpace(s[..|s| - |left|])
    requires left == [] || !IsSpace(left[0])
    requires |r| <= |left| && r == left[..|r|] && AllSpace(left[|r|..])
    ensures SurroundedBySpace(s, r, |s| - |left|)
    ensures r == [] <==> AllSpace(s)
  {
    SliceOfSuffix(s, left, r);
    if r == [] {
      SpaceAround(s, left);
    }
  }

  /** A prefix `r` of a suffix `left` of `s` is a slice of `s`, and what follows it in `s` follows it in `left`. */
  lemma {:induction false} SliceOfSuffix(s: string, left: string, r: string)
    requires |left| <= |s| && left == s[|s| - |left|..]
    requires |r| <= |left| && r == left[..|r|]
    ensures r == s[|s| - |left|..|s| - |left| + |r|]
    ensures s[|s| - |left| + |r|..] == left[|r|..]
  {
  }

  lemma {:induction false} SpaceAround(s: string, left: string)
    requires |left| <= |s| && left == s[|s| - |left|..]
    requires AllSpace(s[..|s| - |left|]) && AllSpace(left)
    ensures AllSpace(s)
  {
    var i := |s| - |left|;
    forall j | 0 <= j < |s| ensures IsSpace(s[j]) {
      if j < i { assert s[j] == s[..i][j]; } else { assert s[j] == left[j - i]; }
    }
  }

  /** Surrounding whitespace, however much, does not change what `strip` keeps. */
  lemma {:induction false} StripSurrounded(pre: string, s: string, post: string)
    requires AllSpace(pre) && AllSpace(post)
    ensures Strip(pre + s + post) == Strip(s)
  {
    var x := pre + s + post;
    assert x == pre + (s + post);
    StripLeftPrefix(pre, s + post);
    StripBothSuffix(s, post);
    calc {
      Strip(x);
      StripRight(StripLeft(x));
      StripRight(StripLeft(s + post));
      StripRight(StripLeft(s));
      Strip(s);
    }
  }

  lemma {:induction false} StripBothSuffix(s: string, post: string)
    requires AllSpace(post)
    ensures StripRight(StripLeft(s + post)) == StripRight(StripLeft(s))
  {
    if AllSpace(s) {
      StripLeftAllSpaceAppend(s, post);
    } else {
      StripLeftAppend(s, post);
      StripRightSuffix(StripLeft(s), post);
    }
  }

  lemma {:induction false} StripLeftAllSpaceAppend(s: string, post: string)
    requires AllSpace(s) && AllSpace(post)
    ensures StripLeft(s + post) == [] && StripLeft(s) == []
  {
    assert AllSpace(s + post) by {
      forall i | 0 <= i < |s + post| ensures IsSpace((s + post)[i]) {
        if i < |s| { assert (s + post)[i] == s[i]; } else { assert (s + post)[i] == post[i - |s|]; }
      }
    }
    StripLeftAllSpace(s + post);
    StripLeftAllSpace(s);
  }

  /** Text with no surrounding whitespace is its own `strip`. */
  lemma {:induction false} StripTrimmed(s: string)
    requires s == [] || (!IsSpace(s[0]) && !IsSpace(s[|s| - 1]))
    ensures Strip(s) == s
  {
  }

  lemma {:induction false} StripLeftPrefix(pre: string, s: string)
    requires AllSpace(pre)
    ensures StripLeft(pre + s) == StripLeft(s)
  {
    if pre != [] {
      assert (pre + s)[1..] == pre[1..] + s;
      StripLeftPrefix(pre[1..], s);
    } else {
      assert pre + s == s;
    }
  }

  lemma {:induction false} StripLeftAllSpace(s: string)
    requires AllSpace(s)
    ensures StripLeft(s) == []
  {
  }

  lemma {:induction false} StripLeftAppend(s: string, post: string)
    requires !AllSpace(s)
    ensures StripLeft(s + post) == StripLeft(s) + post
  {
    if IsSpace(s[0]) {
      assert (s + post)[1..] == s[1..] + post;
      StripLeftAppend(s[1..], post);
    }
  }

  lemma {:induction false} StripRightSuffix(s: string, post: string)
    requires AllSpace(post)
    requires s == [] || !IsSpace(s[0])
    ensures StripRight(s + post) == StripRight(s)
  {
    if post != [] {
      var p := post[..|post| - 1];
      assert (s + post)[..|s + post| - 1] == s + p;
      StripRightSuffix(s, p);
    } else {
      assert s + post == s;
    }
  }

  function ToLower(c: char): char {
    if 'A' <= c <= 'Z' then (c as int + 32) as char else c
  }

  /** `s.lower()`, for ASCII letters. */
  function Lower(s: string): string {
    seq(|s|, i requires 0 <= i < |s| => ToLower(s[i]))
  }

  /** `k in s` for two strings: `k` occurs in `s` as a contiguous slice. */
  predicate Contains(s: string, k: string) {
    exists i | 0 <= i <= |s| - |k| :: OccursAt(s, k, i)
  }

  predicate OccursAt(s: string, k: string, i: int) {
    0 <= i <= |s| - |k| && s[i..i + |k|] == k
  }
}
