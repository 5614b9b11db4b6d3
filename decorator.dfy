/** The Decorator pattern: an animal wrapped by decorators that add lines
    before and after the wrapped animal's own movement. Each `move` is
    modelled by the lines it writes, in order. */
module DecoratorPattern {

  /** A decorator keeps the animal it wraps and never replaces it. */
  datatype Animal = Dog | SuperAnimal(comp: Animal) | SwimmingAnimal(comp: Animal)

  const DogLine := "Moving the dog..."
  const FlyLine := "Starts flying..."
  const LandLine := "Landing..."
  const SwimLine := "Jumps into the water..."

  /** The lines `move` writes. */
  function Move(a: Animal): seq<string>
  {
    match a
    case Dog => [DogLine]
    case SuperAnimal(c) => [FlyLine] + Move(c) + [LandLine]
    case SwimmingAnimal(c) => [SwimLine] + Move(c)
  }

  /** Number of flying and swimming decorators around the dog. */
  function Flying(a: Animal): nat
  {
    match a
    case Dog => 0
    case SuperAnimal(c) => 1 + Flying(c)
    case SwimmingAnimal(c) => Flying(c)
  }

  function Swimming(a: Animal): nat
  {
    match a
    case Dog => 0
    case SuperAnimal(c) => Swimming(c)
    case SwimmingAnimal(c) => 1 + Swimming(c)
  }

  function Count(lines: seq<string>, line: string): nat
  {
    if lines == [] then 0 else (if lines[0] == line then 1 else 0) + Count(lines[1..], line)
  }

  lemma {:induction false} CountAppend(xs: seq<string>, ys: seq<string>, line: string)
    ensures Count(xs + ys, line) == Count(xs, line) + Count(ys, line)
  {
    if xs != [] {
      assert (xs + ys)[0] == xs[0] && (xs + ys)[1..] == xs[1..] + ys;
      CountAppend(xs[1..], ys, line);
    } else {
      assert xs + ys == ys;
    }
  }

  /** However the decorators nest, the dog moves exactly once, every flying
      decorator adds one take-off and one landing, and every swimming one
      adds one jump into the water. */
  lemma {:induction false} MoveCounts(a: Animal)
    ensures Count(Move(a), DogLine) == 1
    ensures Count(Move(a), FlyLine) == Flying(a)
    ensures Count(Move(a), LandLine) == Flying(a)
    ensures Count(Move(a), SwimLine) == Swimming(a)
    ensures |Move(a)| == 1 + 2 * Flying(a) + Swimming(a)
  {
    match a
    case Dog =>
    case SuperAnimal(c) =>
      MoveCounts(c);
      CountAppend([FlyLine] + Move(c), [LandLine], DogLine);
      CountAppend([FlyLine], Move(c), DogLine);
      CountAppend([FlyLine] + Move(c), [LandLine], FlyLine);
      CountAppend([FlyLine], Move(c), FlyLine);
      CountAppend([FlyLine] + Move(c), [LandLine], LandLine);
      CountAppend([FlyLine], Move(c), LandLine);
      CountAppend([FlyLine] + Move(c), [LandLine], SwimLine);
      CountAppend([FlyLine], Move(c), SwimLine);
    case SwimmingAnimal(c) =>
      MoveCounts(c);
      CountAppend([SwimLine], Move(c), DogLine);
      CountAppend([SwimLine], Move(c), FlyLine);
      CountAppend([SwimLine], Move(c), LandLine);
      CountAppend([SwimLine], Move(c), SwimLine);
  }

  /** A decorator's trace holds the wrapped animal's trace unchanged, with
      its own lines only around it: a flyer takes off first and lands
      last, a swimmer jumps in first. */
  lemma WrappedTraceInside(a: Animal)
    requires !a.Dog?
    ensures a.SuperAnimal? ==> Move(a)[0] == FlyLine && Move(a)[|Move(a)| - 1] == LandLine
    ensures a.SuperAnimal? ==> Move(a)[1..|Move(a)| - 1] == Move(a.comp)
    ensures a.SwimmingAnimal? ==> Move(a)[0] == SwimLine
    ensures a.SwimmingAnimal? ==> Move(a)[1..] == Move(a.comp)
  {
  }

  /** The four moves of the script: the dog, the flying dog, the swimming
      dog, and the swimming decorator around the flying dog. */
  lemma ScriptMoves()
    ensures Move(Dog) == ["Moving the dog..."]
    ensures Move(SuperAnimal(Dog)) == ["Starts flying...", "Moving the dog...", "Landing..."]
    ensures Move(SwimmingAnimal(Dog)) == ["Jumps into the water...", "Moving the dog..."]
    ensures Move(SwimmingAnimal(SuperAnimal(Dog))) ==
      ["Jumps into the water...", "Starts flying...", "Moving the dog...", "Landing..."]
  {
  }
}
