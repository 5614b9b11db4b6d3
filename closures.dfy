/** A closure over a local table of students: `lookupStudent(id)` returns a
    greeting function that looks the id up each time it is called. */
module Closures {

  datatype Student = Student(id: int, name: string)

  import opened Wrappers

  /** Reading `.name` of the `undefined` that `find` gives for an unknown id. */
  datatype Error = TypeError(message: string)

  datatype Result<T> = Ok(value: T) | Err(error: Error)

  /** The table captured by the closure. */
  const Students: seq<Student> :=
    [Student(14, "Kyle"), Student(73, "Suzy"), Student(112, "Frank"), Student(6, "Sarah")]

  /** `Array.prototype.find`: the first student with that id, if any. */
  function Find(students: seq<Student>, studentId: int): (r: Option<Student>)
    ensures r.None? <==> forall i :: 0 <= i < |students| ==> students[i].id != studentId
    ensures r.Some? ==> r.value.id == studentId && exists k :: (0 <= k < |students| && students[k] == r.value &&
      forall j :: 0 <= j < k ==> students[j].id != studentId)
  {
    if students == [] then None
    else if students[0].id == studentId then Some(students[0])
    else
      var r := Find(students[1..], studentId);
      if r.Some? then
        var k :| 0 <= k < |students[1..]| && students[1..][k] == r.value &&
          forall j :: 0 <= j < k ==> students[1..][j].id != studentId;
        assert students[k + 1] == r.value;
        r
      else r
  }

  /** The greeting `greeting + "," + name + "!"`, with no space after the
      comma; an id missing from the table fails as reading a property of
      `undefined` does. */
  function GreetStudent(studentId: int, greeting: string): (r: Result<string>)
    ensures r.Ok? <==> exists i :: 0 <= i < |Students| && Students[i].id == studentId
    ensures forall i :: 0 <= i < |Students| && Students[i].id == studentId ==>
      r == Ok(greeting + "," + Students[i].name + "!")
  {
    DistinctIds();
    match Find(Students, studentId)
    case None => Err(TypeError("Cannot read properties of undefined (reading 'name')"))
    case Some(student) => Ok(greeting + "," + student.name + "!")
  }

  /** `lookupStudent`: the closure remembers the id and the table. */
  function LookupStudent(studentId: int): string -> Result<string>
  {
    greeting => GreetStudent(studentId, greeting)
  }

  /** No two students in the table share an id, so at most one matches. */
  lemma DistinctIds()
    ensures forall i, j :: 0 <= i < j < |Students| ==> Students[i].id != Students[j].id
  {
  }

  /** The closure for an id in the table greets that student. */
  lemma GreetsEntry(i: nat, greeting: string)
    requires i < |Students|
    ensures LookupStudent(Students[i].id)(greeting) == Ok(greeting + "," + Students[i].name + "!")
  {
    assert LookupStudent(Students[i].id)(greeting) == GreetStudent(Students[i].id, greeting);
  }

  /** The two greetings the script prints, spelled out. */
  lemma GreetingTexts()
    ensures "Hello" + "," + "Sarah" + "!" == "Hello,Sarah!"
    ensures "Howdy" + "," + "Frank" + "!" == "Howdy,Frank!"
  {
  }

  /** The first closure of the script greets Sarah. */
  lemma GreetsSarah()
    ensures LookupStudent(6)("Hello") == Ok("Hello,Sarah!")
  {
    GreetingTexts();
    GreetsEntry(3, "Hello");
  }

  /** The second closure of the script greets Frank. */
  lemma GreetsFrank()
    ensures LookupStudent(112)("Howdy") == Ok("Howdy,Frank!")
  {
    GreetingTexts();
    GreetsEntry(2, "Howdy");
  }

  /** An id that is not in the table makes the greeting fail. */
  lemma UnknownStudent(studentId: int, greeting: string)
    requires studentId !in {14, 73, 112, 6}
    ensures LookupStudent(studentId)(greeting).Err?
  {
    assert LookupStudent(studentId)(greeting) == GreetStudent(studentId, greeting);
  }
}
