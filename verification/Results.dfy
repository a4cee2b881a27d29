/** What a call returns, or the exception it raises. */
module Results {

  datatype Result<T> = Success(value: T) | Raised {
    predicate IsFailure() {
      Raised?
    }
    function PropagateFailure<U>(): Result<U>
      requires Raised?
    {
      Raised
    }
    function Extract(): T
      requires Success?
    {
      value
    }
  }
}
