/** The option and result types shared by the model. */
module Options {
  datatype Option<+T> = None | Some(value: T)

  /** A value, or the exception the source raises instead. */
  datatype Result<+T, +E> = Ok(value: T) | Err(error: E) {
    predicate IsFailure() { Err? }

    function PropagateFailure<U>(): Result<U, E>
      requires Err?
    {
      Err(error)
    }

    function Extract(): T
      requires Ok?
    {
      value
    }
  }
}
