/**
 * `RemoteOperationResult`: the outcome every remote operation hands back, a
 * result code, the HTTP status and headers when the result came from a
 * response, and an optional payload.
 */
module RemoteResults {
  import opened Wrappers
  import opened Headers
  import opened Http

  datatype ResultCode =
    | Ok
    | OkSsl
    | OkNoSsl
    | OkRedirectToNonSecureConnection
    | InvalidCharacterInName
    | InvalidCopyIntoDescendant
    | InvalidOverwrite
    | InstanceNotConfigured
    | NoNetworkConnection
    | BadOcVersion
    | WrongServerResponse
    | ShareWrongParameter
    | ShareNotFound
    | ShareForbidden
    | HttpFailure                              // a failed request; see `httpStatus`
    | ExceptionThrown(exception: Exception)

  datatype RemoteResult<T> = RemoteResult(
    code: ResultCode,
    httpStatus: int,
    headers: HeaderList,
    data: Option<T>)
  {
    predicate IsSuccess() {
      code.Ok? || code.OkSsl? || code.OkNoSsl? || code.OkRedirectToNonSecureConnection?
    }

    /** `getRedirectedLocation()`: the `Location` header of the response the result came from. */
    function RedirectedLocation(): Option<string> {
      Get(headers, LocationHeader)
    }

    predicate IsSslRecoverableException(): (recoverable: bool)
      ensures recoverable ==> !IsSuccess() && code.ExceptionThrown?
    {
      code.ExceptionThrown? && code.exception.SslRecoverableException?
    }

    function WithData(d: T): RemoteResult<T> {
      this.(data := Some(d))
    }
  }

  /** `RemoteOperationResult(ResultCode)`. */
  function OfCode<T>(code: ResultCode): RemoteResult<T> {
    RemoteResult(code, -1, [], None)
  }

  /** `RemoteOperationResult(HttpBaseMethod)` for a request that did not succeed. */
  function OfResponse<T>(r: Response): RemoteResult<T> {
    RemoteResult(HttpFailure, r.status, r.headers, None)
  }

  /** `RemoteOperationResult(boolean success, HttpMethod)`. */
  function OfFlaggedResponse<T>(success: bool, r: Response): RemoteResult<T> {
    RemoteResult(if success then Ok else HttpFailure, r.status, r.headers, None)
  }

  /** `RemoteOperationResult(Exception)`. */
  function OfException<T>(e: Exception): RemoteResult<T> {
    RemoteResult(ExceptionThrown(e), -1, [], None)
  }
}
