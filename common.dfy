/** Shared vocabulary of the handlers: identifiers, optional values, parsed
    request bodies, error responses and success replies. */
module Common {

  /** A document id as it arrives in a request (a string that may or may not
      be a well-formed ObjectId). */
  type Id = string

  datatype Option<T> = None | Some(value: T)

  /** The outcome of a schema's safeParse (zod) or of a validation pipe. */
  datatype Parsed<T> = Valid(data: T) | Invalid(message: string)

  /** What a handler throws.
      HttpError: an ApiError or a framework exception with an HTTP status.
      MessageOnly: `new ApiError("text")`, an ApiError built with the message
      text in the position of the status argument and no message. */
  datatype HttpError =
    | HttpError(status: int, message: string)
    | MessageOnly(text: string)

  /** A success reply: the status the handler sets and the ApiSuccess body. */
  datatype Reply<T> = Reply(status: int, message: string, data: T)

  datatype Result<T> = Ok(value: T) | Err(error: HttpError)

  /** The status and message NestJS sends for an exception that is not an
      HttpException (a TypeError, for example). */
  const INTERNAL_ERROR := HttpError(500, "Internal server error")
}
