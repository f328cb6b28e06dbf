/**
 * The exceptions the SDK raises or lets through, and the outcome of an
 * operation that either returns a value or throws one of them.
 */
module Exceptions {

  import opened Wrappers

  /** A JSON token taken from a response body, kept abstract as its text. */
  datatype JsonToken = JsonToken(text: string)

  datatype Exception =
    /** `AtlasException`: the HTTP status as an integer, a message and the body's `errors` token. */
    | Atlas(httpStatusCode: int, message: string, errors: Option<JsonToken>)
    /** `ArgumentNullException` naming the null argument. */
    | ArgumentNull(paramName: string)
    /** The JSON reader's exception for a body that is not a JSON object. */
    | JsonReader
    | NotImplemented
    /** Dereferencing a null result. */
    | NullReference
    /** Whatever the HTTP library itself throws. */
    | Transport(reason: string)

  /** An operation's result: a value, or the exception it throws. */
  datatype Outcome<+T> = Success(value: T) | Failure(error: Exception)
}
