/** Facts about sequences that the verifier knows but does not always find
    on its own in a long proof. */
module SeqFacts {
  /** Concatenation is associative. The lemma needs no proof; calling it
      hands the solver the one instance a proof step needs. */
  lemma AppendAssoc<T>(a: seq<T>, b: seq<T>, c: seq<T>)
    ensures a + b + c == a + (b + c)
  {
  }
}
