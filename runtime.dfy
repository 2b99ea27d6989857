/**
 * The pieces of the Java runtime that the mapping engine relies on:
 * class identities, tagged object values, and exceptions as values.
 */
module Runtime {

  /** A Java class identity: the fully qualified name returned by `getName()`
      (nested classes use '$') and the short name returned by `getSimpleName()`. */
  datatype TypeId = TypeId(name: string, simpleName: string)

  /** A Java reference: `null`, or an object whose runtime class is `cls`.
      What the object holds is opaque to the engine; `state` stands for it. */
  datatype Value = Null | Obj(cls: TypeId, state: int)

  /** The exception classes the engine throws or lets through. */
  datatype ExceptionKind = NullPointer | UnsupportedOperation | IllegalState

  datatype Exception = Exception(kind: ExceptionKind, message: string)

  /** A call that either returns a value or throws. */
  datatype Result<T> = Ok(value: T) | Err(error: Exception)

  /** A call that returns nothing of interest, or throws. */
  datatype Outcome = Pass | Fail(error: Exception)

  datatype Option<T> = None | Some(value: T)
}
