/** Error kinds reported by the stores, and the result types the store
    operations return. */
module Results {

  /** Why an operation was refused. Every refusal leaves the store unchanged. */
  datatype Error =
    | Duplicate   // a unique column or unique pair is already taken
    | NotFound    // the id names no row
    | BadRef      // a foreign key names no row
    | Invalid     // a field is blank where it may not be, or breaks its declared bounds or choices

  /** The outcome of an operation that produces a value (a new row's id). */
  datatype Result<+T> = Ok(value: T) | Err(error: Error)

  /** The outcome of an operation that produces no value (an update or a delete). */
  datatype Outcome = Done | Failed(error: Error)

  datatype Option<+T> = None | Some(value: T)
}
