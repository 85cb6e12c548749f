/** Option and Result for the nullable fields and the thrown errors of the application. */
module Wrappers {

  datatype Option<+T> = None | Some(value: T) {
    function GetOr(default: T): T {
      match this
      case Some(v) => v
      case None => default
    }
  }

  /** A computation that either yields a value or throws an error with a message. */
  datatype Result<+T> = Ok(value: T) | Err(message: string)

  /**
   * The outcome of an awaited call: a value, or a thrown value whose message is
   * present when it is an `Error`.
   */
  datatype Outcome<+T> = Done(value: T) | Failed(error: Option<string>) {
    /** `err instanceof Error ? err.message : fallback`. */
    function MessageOr(fallback: string): string
      requires Failed?
    {
      error.GetOr(fallback)
    }
  }

  /**
   * A property of an object the code receives, where the code tells the three
   * cases apart: left out (`undefined`), `null`, or given.
   */
  datatype Field<+T> = Undefined | Null | Given(value: T) {
    /** The column a store writes: left out and `null` both leave it null. */
    function Stored(): (r: Option<T>)
      ensures r.Some? <==> Given?
      ensures Given? ==> r.value == value
    {
      if Given? then Some(value) else None
    }
  }
}
