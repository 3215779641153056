/** Option, Result and Outcome: the exceptions raised by the integration and its
    collaborators become explicit error values. */
module Wrappers {

  datatype Option<+T> = None | Some(value: T)

  /** Why an operation did not complete. */
  datatype Error =
    | EventNotFound        // the timetable has no current or no next occurrence of the events asked for
    | DateNotFound         // the timetable has no Islamic date for the Gregorian date asked for
    | TimetableUnavailable // neither the fresh fetch nor the cached copy produced a timetable
    | HandleNotCallable    // a cancel handle was called while it held None

  datatype Result<+T> = Ok(value: T) | Err(error: Error)

  /** The result of an operation that returns nothing but may raise. */
  datatype Outcome = Pass | Fail(error: Error)
}
