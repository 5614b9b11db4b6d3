# Design patterns and JavaScript fundamentals, modelled in Dafny

This project models a study repository of small TypeScript and JavaScript
programs and proves properties of them. Its centre is the Composite pricing tree:

- A `Box` holds, in insertion order, immutable `Product`s and other boxes.
- Nested boxes are held by reference.
- `getPrice` sums the children's prices recursively.
- `getName` reports how many direct children the box has.

Around it sit the other examples of the repository:

- the Singleton database connection;
- the Observer input element;
- the Decorator animals;
- a Functor and the Identity monad with the monad laws;
- currying;
- two scope examples (`diff` and `foo2`);
- the functional-programming tutorial (pure functions, an impure counter, `map`, and the `splitName`/`toUpperCase` composition);
- the student-lookup closure;
- the SOLID vehicle range and rectangle examples;
- a four-operation calculator service.

Modules:

- `Decimal` renders whole numbers the way JavaScript prints an integral Number below 10^21 in magnitude in a string, and reads them back.
- `CompositePattern`, `SingletonPattern`, `ObserverPattern` and `DecoratorPattern` model `designPatterns.ts`.
- `FunctorsAndMonads`, `Currying` and `FunctionalProgramming` model the functional-programming files.
- `Scopes` and `Closures` model the JavaScript fundamentals.
- `SolidPrinciples` and `Calculator` model the remaining two files.

How the model represents the source:

- **Numbers.** JavaScript numbers are `real` where the examples use fractions or divide: prices, vehicles, the calculator and `diff`. They are `int` where the examples are integral: currying, the sum examples, the counter and the student ids. All sample values are exactly representable, so the stated results hold in IEEE-754 as well.
- **Box.** `Box` is a class with a `products: seq<Item>` field that `Add` reassigns. A ghost `Repr` together with the recursive `Valid()` keeps the containment acyclic. A ghost `Tree()` gives the value the box denotes at one moment. `Price` is the left-to-right `reduce` of the source, proved equal to the right-fold reference `Tree.Price`.
- **Singleton.** The static `instance` field is a `Registry` object. The value `Math.random()` would give is a parameter of `GetInstance`.
- **Observer.** The only concrete observer (`ConsoleLogger`) just logs. Notification is therefore modelled as the returned sequence of `update` calls, each with the observer it went to and the state it carried.
- **Decorator.** A decorator never replaces the animal it wraps, so an animal is a value datatype. `move` is modelled as the sequence of lines it writes.

Where the comments and the code differ, the model follows the code:

- The comments in `Javascript/Closures.js:40-41` show "Hello, Sarah!". The template literal on line 29 puts no space after the comma, so the model gives "Hello,Sarah!".

## Model

| member | source | states |
|---|---|---|
| Decimal.DigitChar | SOLID-PrinciplesAndPatterns/designPatterns.ts:348 | the character written for a digit is a decimal digit whose value is that digit |
| Decimal.NatToString | SOLID-PrinciplesAndPatterns/designPatterns.ts:348 | a count is written as a non-empty string of decimal digits with no leading zero (only 0 starts with '0') |
| Decimal.IntToString | Functional-programming/functorsAndMonads.js:22 | an integer's string starts with '-' exactly when the number is negative, and the rest is the decimal digits of its magnitude |
| Decimal.ParseNat | SOLID-PrinciplesAndPatterns/designPatterns.ts:348 | reading digits back succeeds only on a non-empty string |
| Decimal.ParseNatToString | SOLID-PrinciplesAndPatterns/designPatterns.ts:348 | reading back the decimal string of n gives n: the number in a name can be recovered |
| Decimal.NatToStringInjective | SOLID-PrinciplesAndPatterns/designPatterns.ts:348 | two counts are written the same exactly when they are equal |
| CompositePattern.SumPricesAppend | SOLID-PrinciplesAndPatterns/designPatterns.ts:357 | appending one child adds exactly that child's price to the sum |
| CompositePattern.SumPricesRemove | SOLID-PrinciplesAndPatterns/designPatterns.ts:357 | the sum is the price of any one child plus the sum of the others |
| CompositePattern.SumPricesPermutation | SOLID-PrinciplesAndPatterns/designPatterns.ts:356-358 | insertion order determines display order only: children in any order (same multiset) have the same total price |
| CompositePattern.NonNegativePrice | SOLID-PrinciplesAndPatterns/designPatterns.ts:356-358 | a tree whose products all have non-negative prices has a non-negative total |
| CompositePattern.NonNegativeSum | SOLID-PrinciplesAndPatterns/designPatterns.ts:356-358 | a list of such trees has a non-negative sum |
| CompositePattern.Box.TreePrefix | SOLID-PrinciplesAndPatterns/designPatterns.ts:341 | the value trees of the first k children, one per child |
| CompositePattern.Box.Tree | SOLID-PrinciplesAndPatterns/designPatterns.ts:339-341 | a box denotes a container with exactly one subtree per direct child |
| CompositePattern.Box.constructor | SOLID-PrinciplesAndPatterns/designPatterns.ts:341 | a new box is valid, owns only itself, and has no products (the field initializer) |
| CompositePattern.Box.Contructor | SOLID-PrinciplesAndPatterns/designPatterns.ts:343-345 | the misspelt ordinary method, callable on any box, empties the product list; the box then owns only itself and denotes the empty container |
| CompositePattern.Box.PrefixPrice | SOLID-PrinciplesAndPatterns/designPatterns.ts:357 | the `reduce` from 0 over the first k children, left to right, equals the reference sum of their prices |
| CompositePattern.Box.Price | SOLID-PrinciplesAndPatterns/designPatterns.ts:356-358 | the price is the reference price of the tree the box denotes (recursing into nested boxes); an empty box is priced 0 |
| CompositePattern.Box.Add | SOLID-PrinciplesAndPatterns/designPatterns.ts:351-354 | appends p after the existing children, keeping their order; the tree gains exactly p's subtree, the price rises by exactly p's price as it was when added, and the box stays acyclic |
| CompositePattern.Box.AppendedLast | SOLID-PrinciplesAndPatterns/designPatterns.ts:351-357 | once p is pushed and nothing else changed, the tree gains p's subtree at the end and the price rises by exactly p's price |
| CompositePattern.Box.PrefixUnchanged | SOLID-PrinciplesAndPatterns/designPatterns.ts:353 | pushing onto this box leaves the trees of the children it already had unchanged |
| CompositePattern.NameEncodesCount | SOLID-PrinciplesAndPatterns/designPatterns.ts:347-349 | a box's name is "A box with ", then the decimal number of direct children, then " products" |
| CompositePattern.NameCountsDirectChildren | SOLID-PrinciplesAndPatterns/designPatterns.ts:347-349 | two boxes have the same name exactly when they have the same number of direct children; a nested box counts as one |
| CompositePattern.BoxOfTwo | SOLID-PrinciplesAndPatterns/designPatterns.ts:362-368 | a new box with two products added in order holds them in that order and is priced at their sum |
| CompositePattern.DeliveryExample | SOLID-PrinciplesAndPatterns/designPatterns.ts:362-390 | the script's delivery totals 2105.5 and box1 is named "A box with 3 products" |
| CompositePattern.NestedNameExample | SOLID-PrinciplesAndPatterns/designPatterns.ts:370 | box2 is described as "A box with 2 products" when it is added |
| CompositePattern.SharedChildExample | SOLID-PrinciplesAndPatterns/designPatterns.ts:356-370 | a nested box is held by reference: adding to it later raises the outer box's price by the same amount |
| CompositePattern.ItemPrice | SOLID-PrinciplesAndPatterns/designPatterns.ts:329-331 | getPrice of a child is its reference tree price; for a product it is exactly the constructor's price |
| CompositePattern.ItemName | SOLID-PrinciplesAndPatterns/designPatterns.ts:333-335 | getName of a product is exactly the constructor's name; of a box, "A box with ", the box's direct-child count in decimal (read back exactly), then " products" |
| SingletonPattern.MyDBConn.constructor | SOLID-PrinciplesAndPatterns/designPatterns.ts:29-32 | a connection keeps the id drawn when it was built |
| SingletonPattern.Registry.constructor | SOLID-PrinciplesAndPatterns/designPatterns.ts:26 | no instance exists at first |
| SingletonPattern.Registry.GetInstance | SOLID-PrinciplesAndPatterns/designPatterns.ts:38-43 | a connection is created only when none exists; otherwise the stored one is returned; the stored one is always what is returned |
| SingletonPattern.FiveConnections | SOLID-PrinciplesAndPatterns/designPatterns.ts:46-56 | all five requests return the same object, whose id is the first draw |
| ObserverPattern.InputElement.constructor | SOLID-PrinciplesAndPatterns/designPatterns.ts:182-183 | no observers, and the event is "" |
| ObserverPattern.InputElement.AddObserver | SOLID-PrinciplesAndPatterns/designPatterns.ts:185-187 | the observer is appended after the existing ones; the state is unchanged |
| ObserverPattern.InputElement.Notify | SOLID-PrinciplesAndPatterns/designPatterns.ts:189-191 | each registered observer is updated exactly once, in registration order, with the current state |
| ObserverPattern.InputElement.Click | SOLID-PrinciplesAndPatterns/designPatterns.ts:204-207 | the state becomes event "click" before every observer is notified with it; the observer list is unchanged |
| ObserverPattern.ClickExample | SOLID-PrinciplesAndPatterns/designPatterns.ts:211-214 | the one registered logger receives exactly one update, with event "click" |
| DecoratorPattern.CountAppend | SOLID-PrinciplesAndPatterns/designPatterns.ts:258-262 | counting a line in two consecutive stretches of output adds the two counts |
| DecoratorPattern.MoveCounts | SOLID-PrinciplesAndPatterns/designPatterns.ts:249-271 | however decorators nest, the dog moves exactly once; each flying decorator adds one take-off and one landing; each swimming decorator adds one jump into the water; nothing else is written |
| DecoratorPattern.WrappedTraceInside | SOLID-PrinciplesAndPatterns/designPatterns.ts:256-271 | a flying decorator's output starts with the take-off and ends with the landing, with the wrapped animal's output unchanged between them; a swimming decorator's output starts with the jump, followed by the wrapped animal's output unchanged |
| DecoratorPattern.ScriptMoves | SOLID-PrinciplesAndPatterns/designPatterns.ts:274-300 | the four moves of the script write exactly the expected lines, the nested one being jump, take-off, dog, landing |
| FunctorsAndMonads.FunctorIdentity | Functional-programming/functorsAndMonads.js:17-20 | mapping the identity leaves the functor unchanged |
| FunctorsAndMonads.FunctorComposition | Functional-programming/functorsAndMonads.js:17-20 | mapping f then g is mapping their composition once |
| FunctorsAndMonads.FunctorExample | Functional-programming/functorsAndMonads.js:22-23 | squaring 2 and converting it to a string holds "4" |
| FunctorsAndMonads.LeftIdentity | Functional-programming/functorsAndMonads.js:93-96 | of(x).chain(f) equals f(x) for every x and f |
| FunctorsAndMonads.RightIdentity | Functional-programming/functorsAndMonads.js:100-103 | m.chain(of) equals m for every m |
| FunctorsAndMonads.Associativity | Functional-programming/functorsAndMonads.js:107-110 | m.chain(g).chain(f) equals m.chain(x => g(x).chain(f)) for every m, g and f |
| FunctorsAndMonads.MapIsChainOfLift | Functional-programming/functorsAndMonads.js:82-85 | map is chain after lifting f's result |
| FunctorsAndMonads.LawChecks | Functional-programming/functorsAndMonads.js:87-110 | with x = 20 and the script's g and f, both sides of each law render the same: Id(40), Id(20) and Id(42) |
| Currying.CurryApplies | Functional-programming/currying.js:9-15 | supplying the curried function's two arguments one at a time calls f with both |
| Currying.UncurryCurry | Functional-programming/currying.js:9-15 | uncurrying the curried function gives back f on every pair |
| Currying.CurriedSumExample | Functional-programming/currying.js:17-23 | curriedSum(1)(2) is 3 |
| Currying.AddCurryAgrees | Functional-programming/currying.js:35-47 | the hand-curried and the plain three-argument sums agree on every input; add(2, 3, 5) is 10 |
| Scopes.Diff | Javascript/Scopes.js:116-123 | the result is the distance between the two numbers: never negative, and y - x when x <= y |
| Scopes.DistanceSymmetric | Javascript/Scopes.js:116-123 | the result does not depend on argument order and is 0 exactly when the numbers are equal |
| Scopes.Foo2 | Javascript/Scopes.js:33-37 | foo2 returns its local count, 0 |
| FunctionalProgramming.SumExamples | Functional-programming/functionalPrograming.js:17-21 | sum(1, 2) is 3, and sumAgain with sum adds its arguments |
| FunctionalProgramming.MyName | Functional-programming/functionalPrograming.js:45 | the result is "Hello " followed by the name, and nothing else |
| FunctionalProgramming.MyNameExample | Functional-programming/functionalPrograming.js:47 | myName("Pedro") is "Hello Pedro" |
| FunctionalProgramming.Counter.constructor | Functional-programming/functionalPrograming.js:57 | the count starts at 0 |
| FunctionalProgramming.Counter.IncreaseCount | Functional-programming/functionalPrograming.js:59 | the count grows by value, and the call returns the new count |
| FunctionalProgramming.IncreaseTwice | Functional-programming/functionalPrograming.js:57-59 | the second call's result depends on the first: increaseCount(a) then increaseCount(b) give a and a + b |
| FunctionalProgramming.SayHiToNames | Functional-programming/functionalPrograming.js:77 | map keeps the length, and each entry is the greeting of the name at the same position |
| FunctionalProgramming.SayHiExample | Functional-programming/functionalPrograming.js:75-77 | the first and last greetings are "Hello Pedro" and "Hello Juan" |
| FunctionalProgramming.Split | Functional-programming/functionalPrograming.js:92 | split always gives at least one piece, and no piece contains the separator |
| FunctionalProgramming.ReplaceAll | Functional-programming/functionalPrograming.js:92 | the reference for split-then-join: same length, and no `from` is left when it is replaced by a different character |
| FunctionalProgramming.JoinSplit | Functional-programming/functionalPrograming.js:92 | splitting on one character and joining with another replaces the first by the second everywhere |
| FunctionalProgramming.SplitJoinRoundTrip | Functional-programming/functionalPrograming.js:92 | joining with the separator itself undoes a split |
| FunctionalProgramming.SplitName | Functional-programming/functionalPrograming.js:92 | split on '_' then join with ' ' is the character-wise replacement of every underscore by a space: same length, no underscore left |
| FunctionalProgramming.UpperChar | Functional-programming/functionalPrograming.js:94 | a lower-case ASCII letter becomes the capital at the same place in the alphabet; every other character is unchanged; no result is a lower-case letter |
| FunctionalProgramming.ReturnNameCapitalized | Functional-programming/functionalPrograming.js:94 | same length, each character is the upper-case form of the character at the same place, and no lower-case ASCII letter is left |
| FunctionalProgramming.CapitalizedIdempotent | Functional-programming/functionalPrograming.js:94 | upper-casing an already upper-cased name changes nothing |
| FunctionalProgramming.CapitalizedAppend | Functional-programming/functionalPrograming.js:94 | upper-casing works character by character: it distributes over concatenation |
| FunctionalProgramming.SplitNameExample | Functional-programming/functionalPrograming.js:92 | splitName("pedro_moriel") is "pedro moriel" |
| FunctionalProgramming.CapitalizedExample | Functional-programming/functionalPrograming.js:94 | upper-casing "pedro moriel" gives "PEDRO MORIEL" |
| FunctionalProgramming.CompositionExample | Functional-programming/functionalPrograming.js:96 | the composition prints "PEDRO MORIEL" |
| Closures.Find | Javascript/Closures.js:28 | find gives nothing exactly when no student has the id, and otherwise the first student with that id |
| Closures.GreetStudent | Javascript/Closures.js:26-31 | the greeting succeeds exactly when a student in the table has the id, and is then greeting + "," + that student's name + "!" |
| Closures.DistinctIds | Javascript/Closures.js:20-25 | no two students in the captured table share an id |
| Closures.GreetsEntry | Javascript/Closures.js:18-33 | the closure for any id in the table greets the student with that id |
| Closures.GreetsSarah | Javascript/Closures.js:35-40 | lookupStudent(6)("Hello") is "Hello,Sarah!" |
| Closures.GreetsFrank | Javascript/Closures.js:35-41 | lookupStudent(112)("Howdy") is "Howdy,Frank!" |
| Closures.UnknownStudent | Javascript/Closures.js:28-29 | for an id missing from the table the greeting fails, as reading `.name` of `undefined` does |
| SolidPrinciples.SameRange | SOLID-PrinciplesAndPatterns/solidPrinciples.js:102-151 | the `instanceof` version and the override version give the same range for every vehicle |
| SolidPrinciples.HybridExtendsStandard | SOLID-PrinciplesAndPatterns/solidPrinciples.js:138-151 | a vehicle reaches capacity times efficiency; a hybrid reaches that plus its electric range |
| SolidPrinciples.RangeExamples | SOLID-PrinciplesAndPatterns/solidPrinciples.js:154-158 | (10, 15) reaches 150 and (10, 15, 50) reaches 200, under both versions |
| SolidPrinciples.Rectangle.constructor | SOLID-PrinciplesAndPatterns/solidPrinciples.js:175-178 | a rectangle keeps the height and width it is built with |
| SolidPrinciples.Rectangle.SetHeight | SOLID-PrinciplesAndPatterns/solidPrinciples.js:180-182 | setHeight sets the height and leaves the width unchanged |
| SolidPrinciples.SetHeightBreaksSquare | SOLID-PrinciplesAndPatterns/solidPrinciples.js:180-194 | a square stays a square after setHeight exactly when the new height equals its side |
| SolidPrinciples.SquareExample | SOLID-PrinciplesAndPatterns/solidPrinciples.js:187-194 | the rectangle is 4 by 5; after setHeight(5) the square is 5 high and 4 wide, no longer square |
| Calculator.Add | unit-test-jasmine/calculator/src/app/services/calculator.service.ts:11-13 | subtracting num2 from the result gives num1 back |
| Calculator.Sustraction | unit-test-jasmine/calculator/src/app/services/calculator.service.ts:15-17 | adding num2 to the result gives num1 back |
| Calculator.Multiply | unit-test-jasmine/calculator/src/app/services/calculator.service.ts:19-21 | dividing the result by a non-zero num2 gives num1 back; a zero factor gives 0 |
| Calculator.Division | unit-test-jasmine/calculator/src/app/services/calculator.service.ts:23-25 | multiplying the result by num2 gives num1 back |
| Calculator.Inverses | unit-test-jasmine/calculator/src/app/services/calculator.service.ts:11-25 | subtraction undoes addition and vice versa; division by a non-zero number undoes multiplication and vice versa |
| Calculator.ServiceExamples | unit-test-jasmine/calculator/src/app/services/calculator.service.spec.ts:28-50 | add(20, 10) is 30, sustraction(20, 5) is 15, multiply(30, 5) is 150, division(15, 5) is 3 |

## Left out

- Console output is not modelled, except the Decorator's `move`, whose output is the trace the model returns. This covers the "Adding a … to the box" message in `Box.add`, the logged ids, the observer's log line and the examples' `console.log` calls.
- `Math.random()` in the `MyDBConn` constructor is not modelled: the drawn value is a parameter of `GetInstance`.
- The Factory Method handlers in `designPatterns.ts` only pick a fixed class and print, so they are not modelled.
- IEEE-754 semantics are not modelled: numbers are `real` or `int`.
- Decimal.IntToString, Decimal.NatToString: integral Numbers of magnitude 10^21 or more, which JavaScript writes in exponent form ("1e+21"), are written in plain digits. The model only renders box counts and small law-check values.
- Calculator.Division: division by zero, which gives `Infinity` or `NaN` in JavaScript, is excluded by a precondition.
- Calculator.Add: `add` accepts `any`, and on strings it concatenates. Only numeric addition is modelled.
- CompositePattern.Box.Add: adding a box that contains, directly or transitively, the box it is added to makes `getPrice` recurse until the stack is exhausted and JavaScript throws a `RangeError`. The model requires acyclicity instead, so that error is not modelled.
- CompositePattern.Box.Add: adding a box to a box that is already nested in another leaves an enclosing box invalid in the model unless that enclosing box already reaches the added box through its `Repr`. The enclosing boxes' `Repr` does not grow, so an invalidated box can no longer be priced or extended. Adding a product to a nested box always keeps the enclosing boxes valid; `SharedChildExample` shows that case.
- CompositePattern.Box.Add: `Repr` over-approximates what a box reaches. After `Contructor` empties a nested box, the enclosing boxes still list its former children. `Add` can then refuse an addition that is acyclic in the source.
- SingletonPattern.MyDBConn.GetID: a definition without a contract of its own. That every instance hands out the first drawn id is stated by `FiveConnections`.
- FunctorsAndMonads.Functor.Map: a definition without a contract of its own. Its laws are stated by `FunctorIdentity` and `FunctorComposition`.
- FunctorsAndMonads.Id.Map, FunctorsAndMonads.Id.Chain, FunctorsAndMonads.Of: definitions without contracts of their own. Their laws are stated by `LeftIdentity`, `RightIdentity`, `Associativity` and `MapIsChainOfLift`.
- FunctorsAndMonads.IdString: a definition without a contract of its own. The strings it renders are stated by `LawChecks`.
- FunctionalProgramming.Sum, FunctionalProgramming.SumAgain: definitions without contracts of their own. Their values are stated by `SumExamples`.
- FunctionalProgramming.Join: a definition without a contract of its own. It is stated with `Split` by `JoinSplit` and `SplitJoinRoundTrip`.
- DecoratorPattern.Move: a definition without a contract of its own. Its trace is stated by `MoveCounts`, `WrappedTraceInside` and `ScriptMoves`.
- Currying.Curry, Currying.Sum, Currying.Add, Currying.AddCurry: definitions without contracts of their own. They are stated by `CurryApplies`, `UncurryCurry`, `CurriedSumExample` and `AddCurryAgrees`.
- Closures.LookupStudent: a definition without a contract of its own. Its greetings and its error are stated by `GreetsEntry`, `GreetsSarah`, `GreetsFrank` and `UnknownStudent`.
- SolidPrinciples.Vehicle.GetRange, SolidPrinciples.Vehicle.GetRangeInstanceOf: definitions without contracts of their own. They are stated by `SameRange`, `HybridExtendsStandard` and `RangeExamples`.
- CompositePattern.Box.Name: the function carries no contract of its own. Its format and its count are stated by `NameEncodesCount` and `NameCountsDirectChildren`.
- Square subclass: Dafny classes cannot inherit without traits. A `Square` is modelled as a `Rectangle` built with equal sides, which is all the empty subclass adds.
- The network and module code in `solidPrinciples.js` is not modelled: the HTTP calls of the car service, the `doGet` import with its promise, and the `Object.assign` prototype mixing for birds.
- Code that would not run as written is not modelled:
  - the duplicate `Vehicle`/`HybridVehicle` declarations and the undefined `standardVehicle`/`hybridVehicle` references, whose intended values are stated instead;
  - the `ReferenceError` example in `Scopes.js`;
  - the undefined `x` and `trace` in the monad-law checks, which are stated as lemmas for every x, with x = 20 for the concrete check.
- Functions that only log are not modelled: `person` in `Closures.js`, and `foo`, `outerFunc` and `func` in `Scopes.js`.
- FunctionalProgramming.UpperChar: upper-casing covers ASCII letters only. Other characters are left unchanged rather than mapped as Unicode `toUpperCase` would.
- FunctionalProgramming.Counter: the module-level `count` is a field of a `Counter` object.
- The Angular wiring is not modelled: `@Injectable`, `TestBed` and the `MessageService` dependency carry no behaviour of the calculator.
- Observers are modelled by identity. Which observers `update` reaches, in what order and with what state is modelled; what `update` does is not, since the logger only prints.
- The Decorator: `comp` is never reassigned after construction, so decorated animals are values and aliasing between decorators is not modelled.
- The toString of the Identity monad is modelled only for whole numbers, the only values the law checks print.
