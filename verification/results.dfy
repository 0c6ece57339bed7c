/** How the Go code's nil pointers and `error` results are represented:
    a pointer that may be nil is an `Option`, a call that returns only an
    `error` yields an `Outcome` (`Pass` standing for a nil error), and a call
    returning a value and an `error` yields a `Result`.
 */
module Results {

  datatype Option<+T> = None | Some(value: T)

  datatype Outcome<+E> = Pass | Fail(error: E)

  datatype Result<+T, +E> = Success(value: T) | Failure(error: E)

}
