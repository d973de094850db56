/** The SDK's typed error and its closed code enumeration (src/errors.ts). */
module Errors {

  import opened Wrappers

  /** One constructor per string of the `ErrorCode` union. */
  datatype ErrorCode =
    | Unauthorized    // 'unauthorized'
    | InvalidRequest  // 'invalid_request'
    | ServerError     // 'server_error'
    | Timeout         // 'timeout'
    | InvalidFile     // 'invalid_file'
    | FileTooLarge    // 'file_too_large'
    | UploadFailed    // 'upload_failed'
    | NotFound        // 'not_found'
    | UnknownError    // 'unknown_error'

  /** The wire spelling of a code. */
  function CodeName(c: ErrorCode): string {
    match c
    case Unauthorized => "unauthorized"
    case InvalidRequest => "invalid_request"
    case ServerError => "server_error"
    case Timeout => "timeout"
    case InvalidFile => "invalid_file"
    case FileTooLarge => "file_too_large"
    case UploadFailed => "upload_failed"
    case NotFound => "not_found"
    case UnknownError => "unknown_error"
  }

  /** Reads a wire spelling back; anything outside the union is rejected. */
  function ParseCode(s: string): Option<ErrorCode> {
    if s == "unauthorized" then Some(Unauthorized)
    else if s == "invalid_request" then Some(InvalidRequest)
    else if s == "server_error" then Some(ServerError)
    else if s == "timeout" then Some(Timeout)
    else if s == "invalid_file" then Some(InvalidFile)
    else if s == "file_too_large" then Some(FileTooLarge)
    else if s == "upload_failed" then Some(UploadFailed)
    else if s == "not_found" then Some(NotFound)
    else if s == "unknown_error" then Some(UnknownError)
    else None
  }

  /** The enumeration is closed and its spellings are distinct: reading a
      spelling back gives the code it came from. */
  lemma CodeNameRoundTrip(c: ErrorCode)
    ensures ParseCode(CodeName(c)) == Some(c)
  {
  }

  /** A `RealityDefenderError`: a human-readable message and a code. */
  datatype RDError = RDError(message: string, code: ErrorCode)

  /** Whatever a JavaScript `catch` can observe: an SDK error (for which
      `instanceof RealityDefenderError` holds) or any other error, of which
      only its message is used. */
  datatype Thrown = Typed(err: RDError) | Untyped(message: string)

  function Message(t: Thrown): string {
    match t
    case Typed(e) => e.message
    case Untyped(m) => m
  }

  /** The catch blocks' common pattern: rethrow an SDK error unchanged, wrap
      any other error once into `code` with `prefix` before its message. */
  function WrapOnce(t: Thrown, prefix: string, code: ErrorCode): (r: RDError)
    ensures t.Typed? ==> r == t.err
    ensures t.Untyped? ==> r.code == code && r.message == prefix + t.message
  {
    match t
    case Typed(e) => e
    case Untyped(m) => RDError(prefix + m, code)
  }

  /** Wrapping is done once: a second catch of the same kind leaves the error
      as the first one made it. */
  lemma WrapOnceIdempotent(t: Thrown, prefix: string, code: ErrorCode, prefix': string, code': ErrorCode)
    ensures WrapOnce(Typed(WrapOnce(t, prefix, code)), prefix', code') == WrapOnce(t, prefix, code)
  {
  }
}
