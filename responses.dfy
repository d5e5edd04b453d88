/** How a request handler ends: a response, an `ApiError` it throws, or an exception nothing turns into an `ApiError`. */
module Responses {

  /** `new ApiError(statusCode, message)`. */
  datatype ApiError = ApiError(status: int, message: string)

  /**
   * `Ok` is `res.status(s).json(new ApiResponse(s, data, message))`; `Err`
   * is a thrown `ApiError`; `Crash` is any other exception escaping the
   * handler (a `TypeError`, a rejected bcrypt call, a failed schema
   * validation, a duplicate-key error), named by `cause`.
   */
  datatype Outcome<T> = Ok(status: int, data: T, message: string) | Err(error: ApiError) | Crash(cause: string)

  /** `throw new ApiError(401, error?.message || fallback)` in a catch block. */
  function Rethrow401(message: string, fallback: string): (e: ApiError)
    ensures e.status == 401
    ensures message != "" ==> e.message == message
    ensures message == "" ==> e.message == fallback
  {
    ApiError(401, if message != "" then message else fallback)
  }
}
