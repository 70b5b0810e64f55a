module Wrappers {

  datatype Option<+T> = None | Some(value: T)

  /** How a database transaction ends: committed, rolled back by an error, or
      rolled back because the process stopped at an assertion, `panic!` or
      `expect`. */
  datatype Outcome<+E> = Done | Failed(error: E) | Panicked
}
