/** Small facts about splitting sequences, stated once so that the proofs that need them stay cheap. */
module Seqs {
  /** A sequence is the part before `idx`, the element at `idx` and the part after. */
  lemma SplitAround<T>(xs: seq<T>, idx: nat)
    requires idx < |xs|
    ensures xs == xs[..idx] + ([xs[idx]] + xs[idx + 1..])
  {
  }

  /** A non-empty sequence is its front followed by its last element. */
  lemma FrontLast<T>(xs: seq<T>)
    requires xs != []
    ensures xs[..|xs| - 1] + [xs[|xs| - 1]] == xs
    ensures forall i :: 0 <= i < |xs| - 1 ==> xs[..|xs| - 1][i] == xs[i]
  {
  }

  /** The front and last element of `a + b`, for a non-empty `b`. */
  lemma AppendFrontLast<T>(a: seq<T>, b: seq<T>)
    requires b != []
    ensures (a + b)[..|a + b| - 1] == a + b[..|b| - 1]
    ensures (a + b)[|a + b| - 1] == b[|b| - 1]
  {
  }
}
