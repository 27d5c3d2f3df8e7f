/** Option and Result values shared by the modules, and the relation used to
    tie a method's Result to a specification function's Option. */
module Wrappers {

  datatype Option<T> = None | Some(value: T)

  /** The outcome of an operation that the source ends with a thrown
      exception or an error return code. */
  datatype Result<T> = Success(value: T) | Failure(error: string)

  /** r succeeds exactly when o is present, and then carries o's value. */
  predicate Agrees<T(==)>(r: Result<T>, o: Option<T>)
  {
    (r.Success? <==> o.Some?) && (r.Success? ==> r.value == o.value)
  }
}
