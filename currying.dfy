/** Currying: turning a function of two (or three) arguments into a chain
    of functions that take one argument each. */
module Currying {

  /** curry(f) returns a function of `a` that returns a function of `b`;
      f itself is only called once `b` is supplied. */
  function Curry<A, B, C>(f: (A, B) -> C): A -> B -> C
  {
    a => b => f(a, b)
  }

  /** The reverse transform, taking both arguments at once. */
  function Uncurry<A, B, C>(g: A -> B -> C): (A, B) -> C
  {
    (a, b) => g(a)(b)
  }

  /** Calling the curried form one argument at a time is calling f. */
  lemma CurryApplies<A, B, C>(f: (A, B) -> C, a: A, b: B)
    ensures Curry(f)(a)(b) == f(a, b)
  {
  }

  /** Uncurrying a curried function gives back the original on every pair. */
  lemma UncurryCurry<A, B, C>(f: (A, B) -> C, a: A, b: B)
    ensures Uncurry(Curry(f))(a, b) == f(a, b)
  {
  }

  function Sum(a: int, b: int): int
  {
    a + b
  }

  /** curriedSum(1)(2) is 3. */
  lemma CurriedSumExample()
    ensures Curry(Sum)(1)(2) == 3
  {
    CurryApplies(Sum, 1, 2);
  }

  /** The non-curried three-argument sum. */
  function Add(a: int, b: int, c: int): int
  {
    a + b + c
  }

  /** The hand-curried three-argument sum. */
  function AddCurry(a: int): int -> int -> int
  {
    b => c => a + b + c
  }

  /** The curried and non-curried sums agree on every input; add(2, 3, 5) is 10. */
  lemma AddCurryAgrees(a: int, b: int, c: int)
    ensures AddCurry(a)(b)(c) == Add(a, b, c)
    ensures Add(2, 3, 5) == 10
  {
  }
}
