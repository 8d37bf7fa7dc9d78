/** Values shared by the reader's modules: optional values, the errors the
    reader returns through `Result`, and the outcome of an operation that may
    also panic. */
module Common {

  datatype Option<T> = None | Some(value: T)

  /** The errors that reach a caller of the reader. `InvalidArgument` is the
      argument error the object-store registration raises itself; every error
      of the query engine is an `EngineError`, whose contents this model does
      not look into. */
  datatype Error =
    | InvalidArgument(message: string)
    | EngineError(message: string)

  /** The outcome of an operation of the reader: a value, an error returned
      through `Result`, or a panic (an `unwrap` of a missing value, an index
      past the end of a vector), which aborts instead of returning. */
  datatype Outcome<T> =
    | Ok(value: T)
    | Err(error: Error)
    | Panic(reason: string)
  {
    /** The same outcome with its value dropped, as a Rust function returns
        `Ok(())` after the `?` on a call has let a value through. */
    function Unit(): (u: Outcome<()>)
      ensures u.Ok? <==> Ok?
      ensures Err? ==> u == Err(error)
      ensures Panic? ==> u == Panic(reason)
    {
      match this
      case Ok(_) => Ok(())
      case Err(e) => Err(e)
      case Panic(m) => Panic(m)
    }
  }

  /** Panic message of `Option::unwrap` and `Result::unwrap` on a missing value. */
  const UnwrapFailed := "called unwrap on a missing value"

  /** Panic message of indexing past the end of a vector. */
  const IndexOutOfBounds := "index out of bounds"

  function Lookup<K, V>(m: map<K, V>, k: K): (r: Option<V>)
    ensures r.Some? <==> k in m
    ensures r.Some? ==> r.value == m[k]
  {
    if k in m then Some(m[k]) else None
  }
}
