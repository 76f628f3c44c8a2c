/** Option, errors and results shared by the services and the client slices. */
module Results {

  /** `undefined` / `null` in the source is `None`. */
  datatype Option<T> = None | Some(value: T)

  /** The exceptions the services throw (api/src/helpers/errors.helper.ts is not part of this
      model; only the kind of error and its message are kept). */
  datatype Error =
    | ValidationError(message: string)
    | NotFoundError(message: string)
      /** Model-only: the finite stream of random draws given to createTrip ran out before an
          unused reference id came up (the source would keep drawing). */
    | DrawsExhausted

  /** A service call either returns a value or throws an `Error`. */
  datatype Result<T> = Success(value: T) | Failure(error: Error)
}
