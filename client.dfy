/** The transport adapter's pure parts (src/client/index.ts): base-URL
    defaulting and the classification of a failed request into an SDK error. */
module Client {

  import opened Wrappers
  import opened Errors
  import opened Text
  import Constants

  /** The base URL the client sends to: the configured one unless it is
      missing or empty (`config.baseUrl || DEFAULT_BASE_URL`). */
  function BaseUrl(configured: Option<string>): (url: string)
    ensures configured.Some? && configured.value != "" ==> url == configured.value
    ensures configured.None? || configured.value == "" ==> url == Constants.DEFAULT_BASE_URL
    ensures url != ""
  {
    match configured
    case Some(u) => if u != "" then u else Constants.DEFAULT_BASE_URL
    case None => Constants.DEFAULT_BASE_URL
  }

  /** The `code` field of an error body: absent, a string, or some other
      value that has no `includes` method (a number, a boolean, an object). */
  datatype CodeField = NoCode | TextCode(text: string) | OtherCode

  /** An error response's parsed body (`BasicResponse`): an object with its
      `code` and `message` fields, JSON `null`, or no body (`undefined`). */
  datatype ResponseData =
    | Body(code: CodeField, message: Option<string>)
    | NullBody
    | UndefinedBody

  /** What a failed request can throw.
      HttpError: an axios error carrying a response (`rendered` is the body
      as `${...}` prints it, `url` the request's `config.url`);
      NoResponse: an axios error without a response;
      OtherError: anything that is not an axios error. */
  datatype RequestFailure =
    | HttpError(status: int, data: ResponseData, rendered: string, url: Option<string>)
    | NoResponse(message: string)
    | OtherError(message: string)

  const FREE_TIER_CODE: string := "free-tier-not-allowed"

  /** A 400 whose body code cannot be searched: reading `code` of a null or
      missing body, or calling `includes` on a code that is not a string,
      throws a TypeError inside handleAxiosError itself. */
  predicate CodeUnreadable(status: int, data: ResponseData) {
    status == 400 && (!data.Body? || data.code.OtherCode?)
  }

  /** The TypeError message for an unreadable code. */
  function CodeTypeError(data: ResponseData): string {
    match data
    case NullBody => "Cannot read properties of null (reading 'code')"
    case UndefinedBody => "Cannot read properties of undefined (reading 'code')"
    case Body(_, _) => "responseData.code?.includes is not a function"
  }

  predicate IsFreeTierRejection(status: int, data: ResponseData) {
    status == 400 && data.Body? && data.code.TextCode? && Includes(data.code.text, FREE_TIER_CODE)
  }

  /** `a || b` on strings: the empty string counts as absent. */
  function OrElse(s: Option<string>, fallback: string): (r: string)
    ensures s.Some? && s.value != "" ==> r == s.value
    ensures s.None? || s.value == "" ==> r == fallback
  {
    if s.Some? && s.value != "" then s.value else fallback
  }

  /** handleAxiosError, as what `throw handleAxiosError(error)` throws:
      the SDK error it builds, first match winning, or the TypeError it
      raises itself on a 400 whose body code cannot be searched. */
  function HandleAxiosError(f: RequestFailure): (r: Thrown)
    // when it throws instead of returning
    ensures r.Untyped? <==> f.HttpError? && CodeUnreadable(f.status, f.data)
    ensures r.Untyped? ==> r.message == CodeTypeError(f.data)
    // which code comes out, as an if-and-only-if per code
    ensures r.Typed? && r.err.code == Unauthorized <==>
      f.HttpError? && (IsFreeTierRejection(f.status, f.data) || f.status == 401)
    ensures r.Typed? && r.err.code == NotFound <==> f.HttpError? && f.status == 404
    ensures r.Typed? && r.err.code == InvalidFile <==> f.HttpError? && f.status == 415
    ensures r.Typed? && r.err.code == ServerError <==> f.HttpError? && f.status >= 500
    ensures r.Typed? && r.err.code == UnknownError <==>
      !f.HttpError? ||
      (!CodeUnreadable(f.status, f.data) && !IsFreeTierRejection(f.status, f.data)
       && f.status !in {401, 404, 415} && f.status < 500)
    // the codes the transport never produces
    ensures r.Typed? ==> r.err.code !in {InvalidRequest, Timeout, FileTooLarge, UploadFailed}
    // the message of every branch
    ensures f.HttpError? && IsFreeTierRejection(f.status, f.data) ==>
      r.err.message == OrElse(f.data.message, "Free tier not allowed")
    ensures f.HttpError? && f.status == 401 ==> r.err.message == "Unauthorized: Invalid API key"
    ensures f.HttpError? && f.status == 404 ==> r.err.message == "Resource not found: " + OrElse(f.url, "")
    ensures f.HttpError? && f.status == 415 ==> r.err.message == "Unsupported file type"
    ensures f.HttpError? && f.status >= 500 ==> r.err.message == "Server error"
    ensures r.Typed? && r.err.code == UnknownError && f.HttpError? ==> r.err.message == "API error: " + f.rendered
    ensures f.NoResponse? ==> r.err.message == "API error: " + f.message
    ensures f.OtherError? ==> r.err.message == "Request failed: " + f.message
  {
    match f
    case HttpError(status, data, rendered, url) =>
      if CodeUnreadable(status, data) then
        Untyped(CodeTypeError(data))
      else if IsFreeTierRejection(status, data) then
        Typed(RDError(OrElse(data.message, "Free tier not allowed"), Unauthorized))
      else if status == 401 then
        Typed(RDError("Unauthorized: Invalid API key", Unauthorized))
      else if status == 404 then
        Typed(RDError("Resource not found: " + OrElse(url, ""), NotFound))
      else if status == 415 then
        Typed(RDError("Unsupported file type", InvalidFile))
      else if status >= 500 then
        Typed(RDError("Server error", ServerError))
      else
        Typed(RDError("API error: " + rendered, UnknownError))
    case NoResponse(message) =>
      Typed(RDError("API error: " + message, UnknownError))
    case OtherError(message) =>
      Typed(RDError("Request failed: " + message, UnknownError))
  }

  /** The client's `get`/`post`: a request either answers with its body or
      fails, and the failure is rethrown after classification. */
  function ClientCall<T>(outcome: Result<T, RequestFailure>): (r: Result<T, Thrown>)
    ensures outcome.Success? ==> r == Success(outcome.value)
    ensures outcome.Failure? ==> r == Failure(HandleAxiosError(outcome.error))
  {
    match outcome
    case Success(body) => Success(body)
    case Failure(f) => Failure(HandleAxiosError(f))
  }

  /** An error the client classified is already an SDK error, so a caller's
      wrap-once catch leaves it untouched. */
  lemma ClientErrorsAreNotRewrapped<T>(outcome: Result<T, RequestFailure>, prefix: string, code: ErrorCode)
    requires outcome.Failure?
    requires !(outcome.error.HttpError? && CodeUnreadable(outcome.error.status, outcome.error.data))
    ensures ClientCall(outcome).Failure? && ClientCall(outcome).error.Typed?
    ensures WrapOnce(ClientCall(outcome).error, prefix, code) == ClientCall(outcome).error.err
  {
  }

  /** The TypeError a 400 with an unreadable code raises is not an SDK
      error: the caller's catch wraps it into its own code and prefix. */
  lemma UnreadableCodeIsWrapped<T>(status: int, data: ResponseData, rendered: string, url: Option<string>,
                                   prefix: string, code: ErrorCode)
    requires CodeUnreadable(status, data)
    ensures var r := ClientCall<T>(Failure(HttpError(status, data, rendered, url)));
      r.Failure? && WrapOnce(r.error, prefix, code) == RDError(prefix + CodeTypeError(data), code)
  {
  }

  /** A free-tier rejection is recognised wherever the marker sits inside the
      response code. */
  lemma {:induction false} FreeTierMarkerAnywhere(before: string, after: string, message: Option<string>, rendered: string)
    ensures HandleAxiosError(HttpError(400, Body(TextCode(before + FREE_TIER_CODE + after), message), rendered, None))
            == Typed(RDError(OrElse(message, "Free tier not allowed"), Unauthorized))
  {
    var code := before + FREE_TIER_CODE + after;
    assert FREE_TIER_CODE <= code[|before|..];
  }
}
