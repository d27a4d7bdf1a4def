/** Failure-compatible result and option types shared by the whole model.
    The source signals every failure by raising a Python exception; each
    exception the model keeps becomes one `Error` constructor. The numpy and
    pandas shape errors are preconditions instead. */
module Results {

  /** The exceptions the reshaping code raises. */
  datatype Error =
    /** `TypeError` from the single-request guard, carrying the number of requests. */
    | NotSingleRequest(count: nat)
    /** `KeyError` on a dictionary key the response does not carry. */
    | MissingKey(key: string)
    /** `IndexError` from `[0]` on an empty list, naming the list. */
    | IndexOutOfRange(field: string)
    /** `AttributeError` from calling `extend` on the `data` dictionary. */
    | NoExtendOnDict

  /** A dictionary entry that may be absent. */
  datatype Option<+T> = None | Some(value: T) {
    /** `d.get(key, fallback)`: the entry when present, else the fallback. */
    function GetOr(fallback: T): T {
      if Some? then value else fallback
    }
  }

  datatype Result<+T> = Success(value: T) | Failure(error: Error) {
    predicate IsFailure() {
      Failure?
    }

    function PropagateFailure<U>(): Result<U>
      requires Failure?
    {
      Failure(error)
    }

    function Extract(): T
      requires Success?
    {
      value
    }
  }
}
