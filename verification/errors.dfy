/**
 The failure kinds of the in-memory priority queue engine, and the small
 Option/Result wrappers its operations return. The engine reports each
 failure as a formatted message; here each message is one constructor.
 */
module Errors {

  /** One constructor per error message the engine can produce. */
  datatype Error =
    | InvalidPriority   // priority outside 0..9
    | QueueNotFound     // no queue registered under the name
    | AlreadyExists     // AddQueue on a registered name
    | EmptyQueue        // Dequeue with all ten levels empty
    | NotFound          // GetPosition of a value no level holds

  datatype Option<+T> = None | Some(value: T)

  /** The `(value, error)` pair of a call: exactly one of the two is meaningful. */
  datatype Result<+T> = Ok(value: T) | Err(error: Error)
}
