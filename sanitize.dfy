/**
 * `safe_name` (scripts/fetch_assets.py): strip the name, then replace every
 * maximal run of characters outside `[A-Za-z0-9_]` with a single `_`.
 */
module Sanitize {
  import opened Text
  import opened SeqFacts

  /** What is left of `s` once its leading run of disallowed characters is dropped. */
  function DropRun(s: string): (r: string)
    ensures |r| <= |s| && r == s[|s| - |r|..]
    ensures r == [] || IsWordChar(r[0])
    ensures forall i :: 0 <= i < |s| - |r| ==> !IsWordChar(s[i])
  {
    if s != [] && !IsWordChar(s[0]) then
      var r := DropRun(s[1..]);
      DropRunStep(s, r);
      r
    else s
  }

  lemma {:induction false} DropRunStep(s: string, r: string)
    requires s != [] && !IsWordChar(s[0])
    requires |r| <= |s| - 1 && r == s[1..][|s| - 1 - |r|..]
    requires forall i :: 0 <= i < |s| - 1 - |r| ==> !IsWordChar(s[1..][i])
    ensures r == s[|s| - |r|..]
    ensures forall i :: 0 <= i < |s| - |r| ==> !IsWordChar(s[i])
  {
    forall i | 0 <= i < |s| - |r| ensures !IsWordChar(s[i]) {
      if i > 0 { assert s[i] == s[1..][i - 1]; }
    }
  }

  /** `re.sub(r"[^A-Za-z0-9_]+", "_", s)`, scanning left to right. */
  function Collapse(s: string): (r: string)
    ensures AllWord(r)
    ensures |r| <= |s|
    decreases |s|
  {
    if s == [] then []
    else if IsWordChar(s[0]) then [s[0]] + Collapse(s[1..])
    else
      var rest := DropRun(s);
      assert |rest| < |s| by { assert !IsWordChar(s[0]); }
      "_" + Collapse(rest)
  }

  /** `safe_name(name)` */
  function SafeName(name: string): (r: string)
    ensures AllWord(r)
    ensures |r| <= |name|
    ensures r == [] <==> AllSpace(name)
  {
    var stripped := Strip(name);
    CollapseEmpty(stripped);
    Collapse(stripped)
  }

  lemma {:induction false} CollapseEmpty(s: string)
    ensures Collapse(s) == [] <==> s == []
  {
  }

  /** Allowed characters pass through unchanged and in order. */
  lemma {:induction false} CollapseWord(w: string)
    requires AllWord(w)
    ensures Collapse(w) == w
  {
    if w != [] {
      CollapseWord(w[1..]);
    }
  }

  /** A maximal run of disallowed characters becomes exactly one `_`. */
  lemma {:induction false} CollapseRun(run: string)
    requires run != []
    requires forall i :: 0 <= i < |run| ==> !IsWordChar(run[i])
    ensures Collapse(run) == "_"
  {
  }

  /**
   * Collapsing works piece by piece across a boundary that an allowed
   * character touches, so the three lemmas together fix Collapse on every
   * string: it is the concatenation of its allowed runs, kept, and its
   * disallowed runs, each turned into one `_`.
   */
  lemma {:induction false} CollapseConcat(a: string, b: string)
    requires a == [] || b == [] || IsWordChar(a[|a| - 1]) || IsWordChar(b[0])
    ensures Collapse(a + b) == Collapse(a) + Collapse(b)
    decreases |a|
  {
    if a == [] {
      assert a + b == b;
    } else if b == [] {
      assert a + b == a;
    } else if IsWordChar(a[0]) {
      CollapseConcat(a[1..], b);
      WordHeadConcat(a, b);
    } else {
      DropRunConcat(a, b);
      var rest := DropRun(a);
      SuffixLast(a, rest);
      CollapseConcat(rest, b);
      RunHeadConcat(a, b);
    }
  }

  lemma {:induction false} WordHeadConcat(a: string, b: string)
    requires a != [] && IsWordChar(a[0])
    requires Collapse(a[1..] + b) == Collapse(a[1..]) + Collapse(b)
    ensures Collapse(a + b) == Collapse(a) + Collapse(b)
  {
    var tail := a[1..];
    CollapseWordHead(a, b);
    calc {
      Collapse(a + b);
      [a[0]] + Collapse(tail + b);
      [a[0]] + (Collapse(tail) + Collapse(b));
      { SeqAssoc([a[0]], Collapse(tail), Collapse(b)); }
      ([a[0]] + Collapse(tail)) + Collapse(b);
      Collapse(a) + Collapse(b);
    }
  }

  lemma {:induction false} RunHeadConcat(a: string, b: string)
    requires a != [] && !IsWordChar(a[0])
    requires DropRun(a + b) == DropRun(a) + b
    requires Collapse(DropRun(a) + b) == Collapse(DropRun(a)) + Collapse(b)
    ensures Collapse(a + b) == Collapse(a) + Collapse(b)
  {
    var rest := DropRun(a);
    CollapseRunHead(a, b);
    calc {
      Collapse(a + b);
      "_" + Collapse(rest + b);
      "_" + (Collapse(rest) + Collapse(b));
      { SeqAssoc("_", Collapse(rest), Collapse(b)); }
      ("_" + Collapse(rest)) + Collapse(b);
      Collapse(a) + Collapse(b);
    }
  }

  lemma {:induction false} CollapseWordHead(a: string, b: string)
    requires a != [] && IsWordChar(a[0])
    ensures Collapse(a + b) == [a[0]] + Collapse(a[1..] + b)
    ensures Collapse(a) == [a[0]] + Collapse(a[1..])
  {
    assert (a + b)[0] == a[0];
    assert (a + b)[1..] == a[1..] + b;
  }

  lemma {:induction false} CollapseRunHead(a: string, b: string)
    requires a != [] && !IsWordChar(a[0])
    requires DropRun(a + b) == DropRun(a) + b
    ensures Collapse(a + b) == "_" + Collapse(DropRun(a) + b)
    ensures Collapse(a) == "_" + Collapse(DropRun(a))
  {
    assert (a + b)[0] == a[0];
  }

  lemma {:induction false} SuffixLast(a: string, rest: string)
    requires a != [] && |rest| <= |a| && rest == a[|a| - |rest|..]
    ensures rest == [] || rest[|rest| - 1] == a[|a| - 1]
  {
  }

  lemma {:induction false} DropRunConcat(a: string, b: string)
    requires a != [] && b != []
    requires IsWordChar(a[|a| - 1]) || IsWordChar(b[0])
    ensures DropRun(a + b) == DropRun(a) + b
  {
    if !IsWordChar(a[0]) {
      if |a| == 1 {
        assert (a + b)[1..] == b;
        assert DropRun(a[1..]) == [];
      } else {
        assert (a + b)[1..] == a[1..] + b;
        DropRunConcat(a[1..], b);
      }
    }
  }

  /** A clean name, one made only of allowed characters, is returned unchanged. */
  lemma {:induction false} SafeNameClean(name: string)
    requires AllWord(name)
    ensures SafeName(name) == name
  {
    if name != [] {
      assert !IsSpace(name[0]) && !IsSpace(name[|name| - 1]);
    }
    StripTrimmed(name);
    CollapseWord(name);
  }

  /** Sanitising twice gives what sanitising once does. */
  lemma {:induction false} SafeNameIdempotent(name: string)
    ensures SafeName(SafeName(name)) == SafeName(name)
  {
    SafeNameClean(SafeName(name));
  }

  /** Whitespace around a name never reaches the class name. */
  lemma {:induction false} SafeNameIgnoresSurroundingSpace(pre: string, name: string, post: string)
    requires AllSpace(pre) && AllSpace(post)
    ensures SafeName(pre + name + post) == SafeName(name)
  {
    StripSurrounded(pre, name, post);
  }
}
