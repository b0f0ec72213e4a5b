/** The application's own error: a message and nothing else (src/rotate_error.rs). */
module Errors {

  datatype RotateError = RotateError(message: string)
}
