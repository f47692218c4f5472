/** Shared building blocks: identifiers, optional values and the outcome of a
    service call (a value, or the NestJS exception the service throws). */
module Common {

  /** Entity identifiers are uuid strings. */
  type Id = string

  /** An optional field (`field?: T` in the source) or a nullable result. */
  datatype Option<+T> = None | Some(value: T)

  /** The two exceptions the services throw, with their messages, and the
      database refusing a write that would repeat a value of a unique column. */
  datatype Error = NotFound(message: string) | Forbidden(message: string) | UniqueViolation(column: string)

  /** A service call either returns a value or throws one of the errors. */
  datatype Result<+T> = Ok(value: T) | Err(error: Error)

  /** `Object.assign` semantics for one optional field: a present value
      overwrites, an absent one keeps the current value. */
  function Overwrite<T>(given: Option<T>, current: T): (r: T)
    ensures given.None? ==> r == current
    ensures given.Some? ==> r == given.value
  {
    match given
    case None => current
    case Some(v) => v
  }

  /** The same for a field that is itself optional on the entity. */
  function OverwriteOptional<T>(given: Option<T>, current: Option<T>): (r: Option<T>)
    ensures given.None? ==> r == current
    ensures given.Some? ==> r == given
  {
    if given.Some? then given else current
  }

  /** A subset is no larger than its superset. */
  lemma SubsetSize<T>(a: set<T>, b: set<T>)
    requires a <= b
    ensures |a| <= |b|
  {
    assert b == a + (b - a);
  }
}
