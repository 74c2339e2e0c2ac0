/** Facts about sequence concatenation that the proofs of several modules share. */
module SeqFacts {

  lemma {:induction false} SeqAssoc<T>(x: seq<T>, y: seq<T>, z: seq<T>)
    ensures x + (y + z) == (x + y) + z
  {
  }

  /** `s + [x]` as a display, for the two shortest `s`. */
  lemma {:induction false} Snoc<T>(s: seq<T>, x: T)
    ensures |s| == 0 ==> s + [x] == [x]
    ensures |s| == 1 ==> s + [x] == [s[0], x]
  {
  }
}
