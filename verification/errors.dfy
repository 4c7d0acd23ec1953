/** The error classes the core raises or lets through, and the result type
    that stands for "returns a value or throws". */
module Errors {

  /** A value that may be absent (a nullable column, a missing argument). */
  datatype Option<+T> = None | Some(value: T)

  /** The errors thrown by the modelled code. Each constructor stands for one
      error class; its fields are the ones the code fills in. */
  datatype AppError =
    | InternalServerError(cause: string)
    | NotFoundError(message: string, action: string)
    | UnauthorizedError(message: string, action: string)
    | ForbiddenError(message: string, action: string)
      /** JavaScript's own error for reading a property of `undefined` or
          `null`, or for calling `.map` on something that is not an array. */
    | TypeError
      /** Any other error a collaborator may throw (a database failure, a
          validation error); the modelled code only passes it on. */
    | OtherError(name: string, message: string)

  /** "Returns `value`" or "throws `error`". */
  datatype Result<+T> = Ok(value: T) | Err(error: AppError)
}
