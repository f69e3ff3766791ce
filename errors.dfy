/** The error taxonomy the three backend channels share (the `AppError` enum of the
    gateway) and the result type the exchange functions return. The enum's own
    definition file, src/errors.rs, is not part of this model: only the four cases
    the handlers distinguish are kept, each with the detail text that is logged. */
module Errors {

  datatype AppError =
    | IoError(detail: string)         // socket write/read failure or the exchange timeout
    | ParseError(detail: string)      // a codec could not decode the backend's bytes
    | SerializeError(detail: string)  // a codec could not encode a message
    | OtherError(detail: string)      // every other `AppError` case (the handlers' `_` arm)

  /** `Result<T, AppError>` of the source. */
  datatype Result<T> = Ok(value: T) | Err(error: AppError)
}
