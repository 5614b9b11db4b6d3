/** The examples of the functional-programming tutorial: first-class and
    pure functions, an impure counter, `map` over a list of names, and
    composing a name splitter with an upper-casing function. */
module FunctionalProgramming {

  function Sum(a: int, b: int): int
  {
    a + b
  }

  /** Applies whatever two-argument function it is given. */
  function SumAgain(a: int, b: int, sum: (int, int) -> int): int
  {
    sum(a, b)
  }

  /** sum(1, 2) is 3, and handing Sum to SumAgain computes the same sum. */
  lemma SumExamples(a: int, b: int)
    ensures Sum(1, 2) == 3
    ensures SumAgain(a, b, Sum) == a + b
  {
  }

  /** The greeting template: "Hello " followed by the name. */
  function MyName(name: string): (r: string)
    ensures |r| == |name| + 6 && r[..6] == "Hello " && r[6..] == name
  {
    "Hello " + name
  }

  /** The pure function always gives "Hello Pedro" for "Pedro". */
  lemma MyNameExample()
    ensures MyName("Pedro") == "Hello Pedro"
  {
  }

  /** The module-level state that the impure function changes. */
  class Counter {
    var count: int

    constructor ()
      ensures count == 0
    {
      count := 0;
    }

    /** `count += value`, whose value is the new count. */
    method IncreaseCount(value: int) returns (r: int)
      modifies this
      ensures count == old(count) + value
      ensures r == count
    {
      count := count + value;
      r := count;
    }
  }

  /** Two increases add up, so the result depends on earlier calls: the
      function is not pure. */
  method IncreaseTwice(a: int, b: int) returns (first: int, second: int)
    ensures first == a && second == a + b
  {
    var counter := new Counter();
    first := counter.IncreaseCount(a);
    second := counter.IncreaseCount(b);
  }

  const Names: seq<string> := ["Pedro", "Luis", "Hernesto", "José", "Maria", "Juan"]

  /** `names.map(name => "Hello " + name)`. */
  function SayHiToNames(names: seq<string>): (r: seq<string>)
    ensures |r| == |names|
    ensures forall i :: 0 <= i < |names| ==> r[i] == MyName(names[i])
  {
    if names == [] then [] else [MyName(names[0])] + SayHiToNames(names[1..])
  }

  lemma SayHiExample()
    ensures SayHiToNames(Names)[0] == "Hello Pedro"
    ensures SayHiToNames(Names)[5] == "Hello Juan"
  {
  }

  /** `s.split(sep)`: the pieces between separators; "" splits to [""] and
      two adjacent separators give an empty piece. */
  function Split(s: string, sep: char): (parts: seq<string>)
    ensures |parts| >= 1
    ensures forall i :: 0 <= i < |parts| ==> sep !in parts[i]
  {
    if s == [] then [""]
    else
      var rest := Split(s[1..], sep);
      if s[0] == sep then [""] + rest else [[s[0]] + rest[0]] + rest[1..]
  }

  /** `parts.join(d)`: the pieces with d between each neighbouring pair. */
  function Join(parts: seq<string>, d: string): string
  {
    if parts == [] then ""
    else if |parts| == 1 then parts[0]
    else parts[0] + d + Join(parts[1..], d)
  }

  /** Every `from` in s replaced by `to`, every other character kept in
      place: the reference that split-then-join is compared with. */
  function ReplaceAll(s: string, from: char, to: char): (r: string)
    ensures |r| == |s|
    ensures from != to ==> from !in r
  {
    seq(|s|, i requires 0 <= i < |s| => if s[i] == from then to else s[i])
  }

  /** Splitting on a character and joining with another replaces one
      character by the other everywhere. */
  lemma {:induction false} JoinSplit(s: string, sep: char, to: char)
    ensures Join(Split(s, sep), [to]) == ReplaceAll(s, sep, to)
  {
    if s != [] {
      var rest := Split(s[1..], sep);
      JoinSplit(s[1..], sep, to);
      assert ReplaceAll(s, sep, to) == [if s[0] == sep then to else s[0]] + ReplaceAll(s[1..], sep, to);
      if s[0] != sep {
        if |rest| > 1 {
          assert ([[s[0]] + rest[0]] + rest[1..])[1..] == rest[1..];
          assert Join(rest, [to]) == rest[0] + [to] + Join(rest[1..], [to]);
        }
      } else {
        assert ([""] + rest)[1..] == rest;
      }
    }
  }

  /** Joining with the separator itself undoes the split. */
  lemma SplitJoinRoundTrip(s: string, sep: char)
    ensures Join(Split(s, sep), [sep]) == s
  {
    JoinSplit(s, sep, sep);
    assert ReplaceAll(s, sep, sep) == s;
  }

  /** `splitName`: every underscore becomes a space, nothing else moves. */
  function SplitName(name: string): (r: string)
    ensures r == ReplaceAll(name, '_', ' ')
    ensures |r| == |name| && '_' !in r
  {
    JoinSplit(name, '_', ' ');
    Join(Split(name, '_'), " ")
  }

  /** ASCII upper-casing of one character. */
  function UpperChar(c: char): (u: char)
    ensures 'a' <= c <= 'z' ==> 'A' <= u <= 'Z' && u as int - 'A' as int == c as int - 'a' as int
    ensures !('a' <= c <= 'z') ==> u == c
    ensures !('a' <= u <= 'z')
  {
    if 'a' <= c <= 'z' then (c as int - 32) as char else c
  }

  /** `toUpperCase`, for ASCII letters: no lower-case letter is left. */
  function ReturnNameCapitalized(name: string): (r: string)
    ensures |r| == |name|
    ensures forall i :: 0 <= i < |r| ==> !('a' <= r[i] <= 'z')
    ensures forall i :: 0 <= i < |name| ==> r[i] == UpperChar(name[i])
  {
    seq(|name|, i requires 0 <= i < |name| => UpperChar(name[i]))
  }

  /** Upper-casing twice is upper-casing once. */
  lemma CapitalizedIdempotent(name: string)
    ensures ReturnNameCapitalized(ReturnNameCapitalized(name)) == ReturnNameCapitalized(name)
  {
  }

  /** Upper-casing works character by character, so it distributes over
      concatenation. */
  lemma CapitalizedAppend(a: string, b: string)
    ensures ReturnNameCapitalized(a + b) == ReturnNameCapitalized(a) + ReturnNameCapitalized(b)
  {
  }

  /** `SplitName`'s own contract, restated with the expected string as a
      parameter, so that a literal example is checked against the short
      `ReplaceAll` comprehension rather than by unfolding `Split` and
      `Join` on the literal, which costs the solver far more. */
  lemma SplitNameIs(name: string, expected: string)
    requires expected == ReplaceAll(name, '_', ' ')
    ensures SplitName(name) == expected
  {
  }

  lemma SplitNameExample()
    ensures SplitName("pedro_moriel") == "pedro moriel"
  {
    assert ReplaceAll("pedro_moriel", '_', ' ') == "pedro moriel";
    SplitNameIs("pedro_moriel", "pedro moriel");
  }

  lemma CapitalizedExample()
    ensures ReturnNameCapitalized("pedro moriel") == "PEDRO MORIEL"
  {
  }

  /** The composition in the script prints "PEDRO MORIEL". */
  lemma CompositionExample()
    ensures ReturnNameCapitalized(SplitName("pedro_moriel")) == "PEDRO MORIEL"
  {
    SplitNameExample();
    CapitalizedExample();
  }
}
