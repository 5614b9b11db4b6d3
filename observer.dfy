/** The Observer pattern: an input element keeps a list of observers and,
    when clicked, records the event in its state and hands that state to
    every observer in the order they registered. */
module ObserverPattern {

  /** The state observers watch. */
  datatype InternalState = InternalState(event: string)

  /** An observer; the only concrete one, ConsoleLogger, just logs what it
      receives, so an observer is modelled by its identity alone. */
  class Observer {
    constructor () {}
  }

  /** One call of `update` on an observer, with the state it was given. */
  datatype Update = Update(observer: Observer, state: InternalState)

  /** `calls` updates each of `observers` exactly once, in list order, each
      time with `state`. */
  ghost predicate Broadcast(calls: seq<Update>, observers: seq<Observer>, state: InternalState)
  {
    |calls| == |observers| &&
    forall i :: 0 <= i < |calls| ==> calls[i] == Update(observers[i], state)
  }

  /** Observable, as specialised by InputElement. */
  class InputElement {
    var observers: seq<Observer>
    var state: InternalState

    /** No observers, and the event is the empty string. */
    constructor ()
      ensures observers == [] && state == InternalState("")
    {
      observers := [];
      state := InternalState("");
    }

    /** Registers `o` after the existing observers. */
    method AddObserver(o: Observer)
      modifies this
      ensures observers == old(observers) + [o]
      ensures state == old(state)
    {
      observers := observers + [o];
    }

    /** Calls `update` on every observer with the current state. */
    method Notify() returns (calls: seq<Update>)
      ensures Broadcast(calls, observers, state)
    {
      calls := [];
      var i := 0;
      while i < |observers|
        invariant 0 <= i <= |observers|
        invariant Broadcast(calls, observers[..i], state)
      {
        calls := calls + [Update(observers[i], state)];
        i := i + 1;
      }
    }

    /** Sets the event to "click", then notifies. */
    method Click() returns (calls: seq<Update>)
      modifies this
      ensures state == InternalState("click")
      ensures observers == old(observers)
      ensures Broadcast(calls, observers, state)
    {
      state := InternalState("click");
      calls := Notify();
    }
  }

  /** The script: one console logger registered, then a click; the logger
      is updated once, with the "click" event. */
  method ClickExample() returns (calls: seq<Update>, logger: Observer)
    ensures calls == [Update(logger, InternalState("click"))]
  {
    var input := new InputElement();
    logger := new Observer();
    input.AddObserver(logger);
    calls := input.Click();
  }
}
