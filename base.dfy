/** Small value types shared by the adapters and the counter slice. */
module Base {

  /** An optional value. */
  datatype Option<+T> = None | Some(value: T)

  /** Success or failure of a step that can throw; `Failure` carries the thrown message. */
  datatype Result<+R, +E> = Success(value: R) | Failure(error: E)

  /** The two-sided outcome of running an effect with `Effect.either`:
      `Left` holds the typed failure, `Right` the success value. */
  datatype Either<+L, +R> = Left(left: L) | Right(right: R)

  /** A JavaScript value as far as the adapters look at it: they distinguish
      `undefined`, `null` and booleans, and pass every other value on untouched
      (an opaque handle stands for it). */
  datatype JsValue = Undefined | Null | Bool(b: bool) | Opaque(handle: nat)

  /** JavaScript truthiness restricted to the values above: an opaque handle
      stands for an object, and objects are truthy. */
  predicate Truthy(v: JsValue)
  {
    match v
    case Undefined => false
    case Null => false
    case Bool(b) => b
    case Opaque(_) => true
  }
}
