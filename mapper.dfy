/**
 * The converter abstraction: a user-supplied unit declared for one ordered
 * class pair (A, B), with a required forward transform, an optional backward
 * transform, and a settable back-reference to the resolver that owns it.
 */
module Mappers {
  import opened Runtime

  /** The exception the default backward transform throws. */
  const NotImplemented := Exception(UnsupportedOperation, "method not implemented.")

  /** A converter from `source` to `destination`. The pair is declared
      explicitly here; the transforms are opaque. A converter that does not
      override the backward transform has `backward == None`. */
  class Mapper {
    const source: TypeId
    const destination: TypeId
    const forward: Value -> Result<Value>
    const backward: Option<Value -> Result<Value>>

    /** The resolver this converter may call back into (`null` until bound). */
    var mapper: object?

    constructor (source: TypeId, destination: TypeId,
                 forward: Value -> Result<Value>, backward: Option<Value -> Result<Value>>)
      ensures this.source == source && this.destination == destination
      ensures this.forward == forward && this.backward == backward
      ensures mapper == null
    {
      this.source, this.destination := source, destination;
      this.forward, this.backward := forward, backward;
      mapper := null;
    }

    /** The forward transform A -> B, which every converter has. */
    function MapAToB(a: Value): (r: Result<Value>) {
      forward(a)
    }

    /** The backward transform B -> A: the converter's own when it overrides
        it, otherwise always the "method not implemented." failure. */
    function MapBToA(b: Value): (r: Result<Value>)
      ensures backward.None? ==> r == Err(NotImplemented)
      ensures backward.Some? ==> r == backward.value(b)
    {
      match backward
      case None => Err(NotImplemented)
      case Some(f) => f(b)
    }

    /** Binds the back-reference. It assigns unconditionally: a second call
        replaces the first binding. Nothing but `mapper` changes. */
    method SetMapper(m: object?)
      modifies this`mapper
      ensures mapper == m
    {
      mapper := m;
    }
  }
}
