/** Status codes and the success-or-failure wrapper (`Expected<T>` in the
    library) returned by every fallible query of the metadata model. */
module Outcomes {

  /** The failure kinds the core produces itself, plus any other status that
      an external per-layer function may report and the core propagates. */
  datatype Status =
    | NotFound
    | InternalFailure
    | Other(code: nat)

  /** Either a value or the status of the failure that prevented it. */
  datatype Result<+T> = Ok(value: T) | Err(status: Status) {

    predicate IsFailure() {
      Err?
    }

    function PropagateFailure<U>(): Result<U>
      requires Err?
    {
      Err(status)
    }

    function Extract(): T
      requires Ok?
    {
      value
    }
  }
}
