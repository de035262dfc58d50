/** Products of integers, named so that proofs about them stay linear. */
module Products {
  function Mul(a: int, b: int): int { a * b }

  lemma MulAssoc(a: int, b: int, c: int)
    ensures Mul(Mul(a, b), c) == Mul(a, Mul(b, c))
  {
  }

  lemma MulAdd(a: int, b: int, c: int)
    ensures Mul(a + b, c) == Mul(a, c) + Mul(b, c)
  {
  }

  lemma MulCommute(a: int, b: int)
    ensures Mul(a, b) == Mul(b, a)
  {
  }
}
