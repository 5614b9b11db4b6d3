/** A functor (a value with `map`) and the Identity monad (`map`, `chain`
    and the type lift `of`), with the three monad laws. */
module FunctorsAndMonads {
  import Decimal

  /** A wrapped value whose `map` wraps the function's result again. */
  datatype Functor<T> = Functor(value: T)
  {
    function Map<U>(f: T -> U): Functor<U>
    {
      Functor(f(value))
    }
  }

  /** Mapping the identity changes nothing. */
  lemma FunctorIdentity<T>(v: T)
    ensures Functor(v).Map(x => x) == Functor(v)
  {
  }

  /** Mapping twice is mapping the composition once. */
  lemma FunctorComposition<T, U, V>(v: T, f: T -> U, g: U -> V)
    ensures Functor(v).Map(f).Map(g) == Functor(v).Map(x => g(f(x)))
  {
  }

  /** Squaring 2 and then turning it into a string gives "4". */
  lemma FunctorExample()
    ensures Functor(2).Map(x => x * x).Map(Decimal.IntToString).value == "4"
  {
    assert Functor(2).Map(x => x * x).value == 4;
  }

  /** The Identity monad. */
  datatype Id<T> = Id(value: T)
  {
    /** Lifts the mapped value back into the monad. */
    function Map<U>(f: T -> U): Id<U>
    {
      Of(f(value))
    }

    /** Hands the value to `f` without wrapping its result again. */
    function Chain<U>(f: T -> Id<U>): Id<U>
    {
      f(value)
    }
  }

  /** The type lift: `Id.of` is the factory itself. */
  function Of<T>(x: T): Id<T>
  {
    Id(x)
  }

  /** The `toString` of an Id holding a whole number: "Id(" value ")". */
  function IdString(m: Id<int>): string
  {
    "Id(" + Decimal.IntToString(m.value) + ")"
  }

  /** Left identity: of(x).chain(f) is f(x). */
  lemma LeftIdentity<T, U>(x: T, f: T -> Id<U>)
    ensures Of(x).Chain(f) == f(x)
  {
  }

  /** Right identity: m.chain(of) is m. */
  lemma RightIdentity<T>(m: Id<T>)
    ensures m.Chain(Of) == m
  {
  }

  /** Associativity: chaining g then f is chaining the composite step. */
  lemma Associativity<T, U, V>(m: Id<T>, g: T -> Id<U>, f: U -> Id<V>)
    ensures m.Chain(g).Chain(f) == m.Chain(x => g(x).Chain(f))
  {
  }

  /** `map` is `chain` after lifting the function's result. */
  lemma MapIsChainOfLift<T, U>(m: Id<T>, f: T -> U)
    ensures m.Map(f) == m.Chain(x => Of(f(x)))
  {
  }

  /** The checks with x = 20, g = n + 1 and f = n * 2: both sides of each
      law render the same, Id(40), Id(20) and Id(42). */
  lemma LawChecks()
    ensures var x, g, f := 20, (n: int) => Id(n + 1), (n: int) => Id(n * 2);
      IdString(Id(x).Chain(f)) == IdString(f(x)) == "Id(40)" &&
      IdString(Id(x).Chain(Of)) == IdString(Id(x)) == "Id(20)" &&
      IdString(Id(x).Chain(g).Chain(f)) == IdString(Id(x).Chain(y => g(y).Chain(f))) == "Id(42)"
  {
    assert Decimal.IntToString(40) == "40";
    assert Decimal.IntToString(20) == "20";
    assert Decimal.IntToString(42) == "42";
  }
}
