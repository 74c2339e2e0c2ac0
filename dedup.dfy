/**
 * The order-preserving de-duplication of the class list (scripts/fetch_assets.py):
 * a `seen` set and an output list, filled while walking the classes once.
 */
module Dedup {

  predicate NoDuplicates(s: seq<string>) {
    forall i, j :: 0 <= i < j < |s| ==> s[i] != s[j]
  }

  /** Where `x` first occurs in `s`. */
  function FirstIndex(s: seq<string>, x: string): (k: nat)
    requires x in s
    ensures k < |s| && s[k] == x && x !in s[..k]
  {
    if s[0] == x then 0
    else
      var k := FirstIndex(s[1..], x) + 1;
      assert s[..k] == [s[0]] + s[1..][..k - 1];
      k
  }

  /** The set of the elements of `s`. */
  function Elements(s: seq<string>): (r: set<string>)
    ensures forall x :: x in r <==> x in s
  {
    if s == [] then {} else Elements(s[..|s| - 1]) + {s[|s| - 1]}
  }

  /** A list without repeats has as many elements as its set. */
  lemma {:induction false} DistinctCount(s: seq<string>)
    requires NoDuplicates(s)
    ensures |Elements(s)| == |s|
  {
    if s != [] {
      var init := s[..|s| - 1];
      assert NoDuplicates(init);
      DistinctCount(init);
      assert s[|s| - 1] !in init;
      assert s[|s| - 1] !in Elements(init);
    }
  }

  /**
   * Lines 104-107: `classes_uni` holds every class once, in the order of
   * first occurrence, and its length is the number of distinct classes.
   */
  method DedupPreservingOrder(classes: seq<string>) returns (uni: seq<string>)
    ensures NoDuplicates(uni)
    ensures forall x :: x in uni <==> x in classes
    ensures forall i, j :: 0 <= i < j < |uni| ==> FirstIndex(classes, uni[i]) < FirstIndex(classes, uni[j])
    ensures |uni| == |Elements(classes)| <= |classes|
  {
    var seen: set<string> := {};
    uni := [];
    var k := 0;
    while k < |classes|
      invariant 0 <= k <= |classes|
      invariant forall x :: x in seen <==> x in classes[..k]
      invariant forall x :: x in uni <==> x in classes[..k]
      invariant NoDuplicates(uni)
      invariant forall i :: 0 <= i < |uni| ==> uni[i] in classes && FirstIndex(classes, uni[i]) < k
      invariant forall i, j :: 0 <= i < j < |uni| ==> FirstIndex(classes, uni[i]) < FirstIndex(classes, uni[j])
    {
      var c := classes[k];
      assert classes[..k + 1] == classes[..k] + [c];
      if c !in seen {
        assert FirstIndex(classes, c) == k;
        seen := seen + {c};
        uni := uni + [c];
      }
      k := k + 1;
    }
    assert classes[..k] == classes;
    DistinctCount(uni);
    assert Elements(uni) == Elements(classes);
    ElementsBound(classes);
  }

  /** A list has at least as many entries as distinct elements. */
  lemma {:induction false} ElementsBound(s: seq<string>)
    ensures |Elements(s)| <= |s|
  {
    if s != [] {
      ElementsBound(s[..|s| - 1]);
    }
  }
}
