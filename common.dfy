/** Failure-carrying values shared by the modules of the navigation tracker. */
module Common {

  datatype Option<T> = None | Some(value: T)

  /** The exceptions the tracker throws at its callers. */
  datatype Error =
    | UnknownEvent(id: string)   // journey.emit with an event id outside set/push/pop
    | DepthIsReadOnly            // assigning journey.depth
    | InvalidPattern             // createMatcher given neither a string nor a RegExp

  datatype Result<T> = Ok(value: T) | Err(error: Error)

  datatype Outcome = Pass | Fail(error: Error)
}
