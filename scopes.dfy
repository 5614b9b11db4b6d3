/** The two examples from the scope tutorial that compute a value. */
module Scopes {

  /** The distance between two numbers, read off the sign of x - y. */
  function Distance(x: real, y: real): real
  {
    if x - y >= 0.0 then x - y else y - x
  }

  /** `diff`: puts the smaller number in x by swapping through a
      function-scoped temporary, then returns y - x. */
  method Diff(x0: real, y0: real) returns (r: real)
    ensures r == Distance(x0, y0)
    ensures r >= 0.0
    ensures x0 <= y0 ==> r == y0 - x0
  {
    var x, y := x0, y0;
    if x > y {
      var tmp := x;
      x := y;
      y := tmp;
    }
    r := y - x;
  }

  /** The distance does not depend on the order of the arguments, and is
      zero exactly when they are equal. */
  lemma DistanceSymmetric(x: real, y: real)
    ensures Distance(x, y) == Distance(y, x)
    ensures Distance(x, y) == 0.0 <==> x == y
  {
  }

  /** `foo2` returns its local count, which is always 0. */
  function Foo2(): (r: int)
    ensures r == 0
  {
    var count := 0;
    count
  }
}
