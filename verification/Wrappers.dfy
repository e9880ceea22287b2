/** Result types shared by the models. */
module Wrappers {

  datatype Option<+T> = None | Some(value: T)

  datatype Result<+T, +E> = Ok(value: T) | Err(error: E)

  /** How a database commit can end for the code that awaits it. */
  datatype CommitOutcome =
    | Committed   // applied, and the caller knows it
    | Refused     // not applied, and the caller sees an exception
    | ReplyLost   // applied, but the caller sees an exception
  {
    predicate Applied() {
      Committed? || ReplyLost?
    }
  }
}
