/** The error and result types that the EXPLAIN operator returns.

    Only the error KIND is modelled: the messages the operator builds from the
    node's Debug rendering carry no behaviour a caller can rely on.
 */
module Results {

  /** The variants of the engine's error type that this operator can raise.
      `Internal` is raised by the operator itself; `ArrowError` is what a
      failure inside the columnar library becomes when it is propagated. */
  datatype DataFusionError = Internal | ArrowError

  /** A fallible value; usable with `:-` */
  datatype Result<+T> = Ok(value: T) | Err(error: DataFusionError) {

    predicate IsFailure() {
      Err?
    }

    function PropagateFailure<U>(): Result<U>
      requires Err?
    {
      Err(error)
    }

    function Extract(): T
      requires Ok?
    {
      value
    }
  }
}
