/** The Singleton pattern: a database connection that is created lazily on
    the first request and handed out unchanged on every later one. */
module SingletonPattern {

  /** A connection; its id is drawn once, when the connection is built. */
  class MyDBConn {
    const id: real

    constructor (randomId: real)
      ensures id == randomId
    {
      id := randomId;
    }

    function GetID(): real
    {
      id
    }
  }

  /** The class-level (static) state of MyDBConn: the one instance, if any. */
  class Registry {
    var instance: MyDBConn?

    /** At program start no instance exists. */
    constructor ()
      ensures instance == null
    {
      instance := null;
    }

    /** Builds a connection only when none exists (using `randomId` as the
        value the random draw would give), and returns the stored one. */
    method GetInstance(randomId: real) returns (c: MyDBConn)
      modifies this
      ensures old(instance) == null ==> fresh(c) && c.id == randomId
      ensures old(instance) != null ==> c == old(instance)
      ensures instance == c
    {
      if instance == null {
        instance := new MyDBConn(randomId);
      }
      c := instance;
    }
  }

  /** The script asks for the instance five times (each call would draw a
      fresh random number); all five answers are the first connection. */
  method FiveConnections(draws: seq<real>) returns (connections: seq<MyDBConn>)
    requires |draws| == 5
    ensures |connections| == 5
    ensures forall i :: 0 <= i < 5 ==> connections[i] == connections[0]
    ensures forall i :: 0 <= i < 5 ==> connections[i].GetID() == draws[0]
  {
    var registry := new Registry();
    var c0 := registry.GetInstance(draws[0]);
    var c1 := registry.GetInstance(draws[1]);
    var c2 := registry.GetInstance(draws[2]);
    var c3 := registry.GetInstance(draws[3]);
    var c4 := registry.GetInstance(draws[4]);
    connections := [c0, c1, c2, c3, c4];
  }
}
