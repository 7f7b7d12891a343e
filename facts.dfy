/** General facts about sequences and integers that the string proofs use. */
module Facts {

  /** Concatenation is associative. */
  lemma Associative<T>(a: seq<T>, b: seq<T>, c: seq<T>)
    ensures a + (b + c) == (a + b) + c
  {
  }

  /** One more factor of `k`: kept apart so that proofs need no nonlinear reasoning. */
  lemma MultiplyStep(n: int, k: int)
    ensures n * k == (n - 1) * k + k
  {
  }
}
