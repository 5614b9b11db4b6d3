/** The calculator service: four stateless operations on two numbers. */
module Calculator {

  /** `add`: the number that is num1 once num2 is taken away again. */
  function Add(num1: real, num2: real): (r: real)
    ensures r - num2 == num1
  {
    num1 + num2
  }

  /** `sustraction`: the number that gives num1 back once num2 is added. */
  function Sustraction(num1: real, num2: real): (r: real)
    ensures r + num2 == num1
  {
    num1 - num2
  }

  /** `multiply`: num2 times num1, so dividing by a non-zero num2 gives num1. */
  function Multiply(num1: real, num2: real): (r: real)
    ensures num2 != 0.0 ==> r / num2 == num1
    ensures num1 == 0.0 || num2 == 0.0 ==> r == 0.0
  {
    num1 * num2
  }

  /** `division`: the number that gives num1 back once multiplied by num2. */
  function Division(num1: real, num2: real): (r: real)
    requires num2 != 0.0
    ensures r * num2 == num1
  {
    num1 / num2
  }

  /** Subtracting undoes adding, and dividing undoes multiplying. */
  lemma Inverses(a: real, b: real)
    ensures Sustraction(Add(a, b), b) == a
    ensures Add(Sustraction(a, b), b) == a
    ensures b != 0.0 ==> Division(Multiply(a, b), b) == a
    ensures b != 0.0 ==> Multiply(Division(a, b), b) == a
  {
  }

  /** The four expectations of the service's unit tests. */
  lemma ServiceExamples()
    ensures Add(20.0, 10.0) == 30.0
    ensures Sustraction(20.0, 5.0) == 15.0
    ensures Multiply(30.0, 5.0) == 150.0
    ensures Division(15.0, 5.0) == 3.0
  {
  }
}
