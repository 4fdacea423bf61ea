/** The exceptions the core raises: the binding's own exception classes, and the
    Python built-in exceptions that escape from it uncaught. */
module Errors {
  import opened Values

  datatype Error =
    // the binding's exception classes
    | NoSession(message: string)
    | GetHTTPError(url: string, status: int, reason: string)
    | GenericAPIError(response: map<string, Json>)
    | AtTaskReturnError(payload: Json)
    | AuthenticationError(message: string)
    | MethodNotImplemented(verb: string)
    // Python built-ins
    | NotImplementedError(message: string)
    | KeyError(key: string)
    | TypeError
    | ValueError

  /** Either the value an operation returns or the exception it raises. */
  datatype Result<+T> = Success(value: T) | Failure(error: Error)
}
