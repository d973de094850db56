# Reality Defender SDK: result retrieval, modelled in Dafny

This project models the result-retrieval engine of the Reality Defender TypeScript SDK, a client for a
deepfake-detection service. It covers four parts:

- **Result normalisation** (`src/detection/results.ts`):
  - `formatResult` drops the models that did not apply, reports the service's `FAKE` verdict as
    `MANIPULATED`, and rescales the 0-100 final score to 0-1.
  - `formatResults` wraps these results in a page envelope.
  - `getMediaResult` and `getMediaResults` build the lookup requests and wrap untyped errors once.
- **The two bounded loops** in the same file:
  - `getDetectionResult` polls until the verdict is no longer `ANALYZING`.
  - `getDetectionResults` retries a page lookup on errors.
- **The SDK object** (`src/index.ts`):
  - The API-key check in the constructor.
  - `upload`, `getResult` and `detect`.
  - The background poller `pollForResults` / `_pollForResults`. Its notifications are an append-only
    event log on the object.
- **The transport's error classification** (`handleAxiosError` in `src/client/index.ts`) and base-URL
  defaulting.

Modules:

| module | file | models |
|---|---|---|
| `Wrappers` | wrappers.dfy | `Option` (null/undefined, `??`) and `Result` (a value or a thrown error) |
| `Errors` | errors.dfy | the closed `ErrorCode` union, `RealityDefenderError`, and the catch blocks' wrap-once rule |
| `Constants` | constants.dfy | the default base URL, polling interval, timeout and API paths |
| `Text` | text.dfy | integers rendered the way template literals render them, and the matching parser |
| `Client` | client.dfy | base-URL defaulting, `handleAxiosError`, and the client's `get` as seen by its callers |
| `Results` | results.dfy | the whole of `src/detection/results.ts` |
| `Sdk` | sdk.dfy | the `RealityDefender` class of `src/index.ts` |

The HTTP client is an oracle. `MediaTransport` and `PageTransport` give the answer to the n-th call for
a given request: either a body, or a thrown error.

A thrown error is `Thrown`, one of two kinds:

- `Typed(RDError)` is an error for which `instanceof RealityDefenderError` holds.
- `Untyped(message)` is any other error. Only its message is observable.

The loops of the source become methods:

- `GetDetectionResult`
- `GetDetectionResults`
- `FormatResults`
- `RealityDefender.PollForResultsLoop`

Each method is proved equal to a specification function:

- the two bounded loops to `ResultPoll` and `ListPoll`, which start the recursive `ResultPollFrom` and
  `ListPollFrom` at attempt 0;
- `FormatResults` to `FormatResultsOutcome`, the envelope `FormattedList` builds or the `TypeError` of
  the first item without a summary;
- `PollForResultsLoop` to `BackgroundPoll`, which runs the recursive `PollLoop`.

Lemmas then characterise those functions without reference to the loop: how many fetches, which
sleeps, which exit, which error.

A run records:

- what the operation returns or throws;
- how many fetches it made;
- the durations it slept, in order.

Where the repository's own tests or its comments differ from the code, the model follows the code:

- The code reports `FAKE` as `MANIPULATED` (`src/detection/results.ts:86`, `:102`).
  `tests/detection/results.test.ts:112-126` expects `ARTIFICIAL`, and so does the doc comment on
  `DetectionResult.status` (`src/types/sdk.ts:57`).
- The normalised result carries `requestId` (`src/detection/results.ts:96`), which those tests omit.
- The constant table includes `SOCIAL_MEDIA` (`src/core/constants.ts:31`).
  `tests/core/constants.test.ts:25-29` does not list it.
- A results summary is present, `null`, or missing altogether (`SummaryField`), and the loop test
  `resultsSummary !== null && resultsSummary?.status !== 'ANALYZING'` (`src/detection/results.ts:154-157`)
  tells them apart:
  - a `null` summary is not a final answer, and `getDetectionResult` keeps polling;
  - a missing summary passes the strict `!== null` test, so the loop stops at once.
- `formatResult` on a summary that is not present reads a field of `null` or `undefined` and throws a
  JavaScript `TypeError` (`src/detection/results.ts:85`). That is what a missing summary gets at once,
  and what a null summary gets when the budget runs out (`:163`). The model throws
  `Untyped(NULL_SUMMARY_MESSAGE)` or `Untyped(MISSING_SUMMARY_MESSAGE)`.
- `formatResults` throws the same `TypeError` at the first item without a summary. `getDetectionResults`
  formats the page inside its `try`, so there it counts as a failed attempt.
- `handleAxiosError` itself throws a `TypeError` on a 400 response whose body is `null` or
  `undefined`, or whose `code` is present but not a string (`src/client/index.ts:102`). That error is
  not an SDK error, so the caller's catch wraps it.
- Once its budget is spent, `getDetectionResults` re-wraps even an SDK error as `unknown_error`
  (`src/detection/results.ts:203-207`).
- The background poller's inner call `this.getResult(requestId)` passes no options
  (`src/index.ts:144`). So each call uses the unbounded default budget
  (`src/detection/results.ts:146`), not the single attempt the comment at `src/index.ts:143` describes.

## Model

| member | source | states |
|---|---|---|
| `Errors.CodeNameRoundTrip` | src/errors.ts:8-26 | the nine error codes have distinct wire spellings, and each reads back as the code it came from |
| `Errors.WrapOnce` | src/detection/results.ts:25-33 | a `RealityDefenderError` is rethrown unchanged; any other error becomes the given code, with the prefix before its message |
| `Errors.WrapOnceIdempotent` | src/detection/results.ts:26-28 | an error that has been wrapped once passes a second wrap-once catch unchanged, so nested wrap-once catches add one prefix at most (the budget-spent throw of `getDetectionResults` is not such a catch; see `Results.ListPollDoublePrefix`) |
| `Client.BaseUrl` | src/client/index.ts:17 | the configured base URL when it is present and non-empty, otherwise the default URL; never empty |
| `Client.OrElse` | src/client/index.ts:104 | the short-circuit "or" on an optional string: the value when it is present and non-empty, otherwise the fallback |
| `Client.HandleAxiosError` | src/client/index.ts:94-130 | it throws a `TypeError` (reading `code` of null or undefined, or `includes` is not a function) exactly for a 400 response whose body is null or undefined or whose code is not a string; otherwise a total first-match classification, stated as an if-and-only-if for each code: unauthorized for 400 with the free-tier marker or for 401; not_found for 404; invalid_file for 415; server_error for 500 and above; unknown_error otherwise and for errors with no response or of another kind; four codes are never produced; and the message of every branch: the server's message or `Free tier not allowed`, `Unauthorized: Invalid API key`, `Resource not found: ` and the URL, `Unsupported file type`, `Server error`, `API error: ` and the rendered body or the error's message, `Request failed: ` and the message |
| `Client.ClientCall` | src/client/index.ts:45-52 | `get` returns the response body, or throws what `handleAxiosError` returns or throws |
| `Client.ClientErrorsAreNotRewrapped` | src/client/index.ts:49-51 | an error from the client whose code could be read is already an SDK error, so a caller's wrap-once catch keeps its classification |
| `Client.UnreadableCodeIsWrapped` | src/client/index.ts:102 | the `TypeError` of an unreadable 400 code is not an SDK error, so a caller's wrap-once catch wraps it with its own prefix and code |
| `Client.FreeTierMarkerAnywhere` | src/client/index.ts:102-106 | status 400 with `free-tier-not-allowed` anywhere in the response's string code gives unauthorized, with the server's message or `Free tier not allowed` |
| `Results.PublicStatus` | src/detection/results.ts:84-87 | FAKE becomes MANIPULATED and every other status passes through unchanged; the result is never FAKE |
| `Results.ActiveModels` | src/detection/results.ts:79-81 | the filter keeps only applicable models and never lengthens the list |
| `Results.ActiveModelsAtPositions` | src/detection/results.ts:79-81 | the k-th kept model is the input model at the k-th applicable position |
| `Results.ActivePositionsExact` | src/detection/results.ts:79-81 | the kept positions increase strictly, and a position is kept exactly when its model is applicable (its status is not NOT_APPLICABLE and its code is not not_applicable) |
| `Results.ActiveModelsAppend` | src/detection/results.ts:79-81 | the filter distributes over concatenation, so it is stable |
| `Results.FormatResult` | src/detection/results.ts:77-107 | requestId is copied; the summary status is remapped from FAKE; the score times 100 equals finalScore, and the score is null exactly when finalScore is null; there are no more models than in the input |
| `Results.FormatResultModels` | src/detection/results.ts:99-105 | the reported models are, in order, exactly the applicable input models, each with its name, its remapped status and its prediction number unchanged; no reported status is FAKE or NOT_APPLICABLE |
| `Results.OptionalStatus` | src/detection/results.ts:156 | `resultsSummary?.status` has a value exactly when the summary is present |
| `Results.FormattedListShape` | src/detection/results.ts:115-129 | when every item has a summary: the four counts default to 0; `items[i]` is the formatted `mediaList[i]` for every i; there are no items when the list is absent |
| `Results.FirstUnformattable` | src/detection/results.ts:123-127 | the position of the first listed item without a summary, which the push loop reaches first; none exactly when every item has a summary |
| `Results.FormatResults` | src/detection/results.ts:114-130 | the push loop returns exactly the envelope `FormattedList` describes when every item has a summary, and otherwise throws the `TypeError` of the first item without one |
| `Results.MediaResultRequestShape` | src/detection/results.ts:23-24 | the lookup path is the media-result prefix, a slash and exactly the request identifier, with no query; distinct identifiers give distinct requests |
| `Results.ResolvePageArguments` | src/detection/results.ts:36-42 | an omitted page number is 0 and an omitted size is 10; an omitted name or date is no filter; given arguments are kept |
| `Results.ExplicitArguments` | src/detection/results.ts:192-199 | `getDetectionResults` passes its own arguments on, and they resolve to the same filter |
| `Results.PageRequestShape` | src/detection/results.ts:45 | the page path is the listing prefix, a slash and the page number, and the number reads back as the one requested |
| `Results.PageQueryParams` | src/detection/results.ts:46-59 | `size` is always sent; `name` only when it is non-empty; each date only when it is given, as its `Y-M-D` text; no other parameter |
| `Results.DefaultPageRequest` | src/detection/results.ts:36-48 | with no arguments the lookup asks for page 0 with only `size=10` |
| `Results.DateParamRoundTrip` | src/detection/results.ts:52-59 | the date parameter `year-(month0+1)-day` reads back as the date it was written from |
| `Results.DateParamExamples` | src/detection/results.ts:52-59 | January 5th, 2024 goes on the wire as `2024-1-5` and December 31st, 2024 as `2024-12-31` |
| `Results.DateParamUnpadded` | src/detection/results.ts:54 | month and day are written without zero padding |
| `Results.GetMediaResult` | src/detection/results.ts:18-34 | the answer to the media-result request: its body, a typed error unchanged, or any other error as unknown_error with the prefix `Failed to get result: ` |
| `Results.GetMediaResults` | src/detection/results.ts:36-70 | the same as `GetMediaResult`, for the page request built from the defaulted arguments, with the prefix `Failed to get paginated results: ` |
| `Results.ResultPollFromStopsAtFirstSettled` | src/detection/results.ts:150-168 | from any attempt on: it stops at the first settled fetch or when the budget is spent; it returns that fetch's snapshot or throws its error; it sleeps one interval after every earlier fetch |
| `Results.ResultPollStopsAtFirstSettled` | src/detection/results.ts:139-173 | with budget N >= 1: k <= N fetches, all but the last still analyzing; the last either settled or spent the budget; its snapshot is formatted and returned, or its fetch error or `formatResult`'s `TypeError` is thrown; k - 1 sleeps. With N <= 0: one fallback fetch and no sleep |
| `Results.ResultPollExhaustsBudget` | src/detection/results.ts:161-164 | a backend that never leaves ANALYZING gets exactly N fetches and N - 1 sleeps, and the N-th snapshot is returned, not a timeout |
| `Results.ResultPollSettledAtOnce` | src/detection/results.ts:154-159 | a first fetch that is settled is returned after one fetch and no sleep |
| `Results.ResultPollPropagatesFetchError` | src/detection/results.ts:151 | a fetch error at attempt k ends the loop after k + 1 fetches, and the error is thrown unchanged |
| `Results.ResultPollMissingSummaryThrows` | src/detection/results.ts:154-158 | a first fetch without any summary field ends the loop after one fetch and no sleep, with the `TypeError` of reading `status` of undefined |
| `Results.ResultPollScenario` | src/detection/results.ts:150-168 | ANALYZING and then FAKE with final score 90, budget 2 and interval 100, gives two fetches, one sleep of 100, and MANIPULATED with score 0.9 |
| `Results.GetDetectionResult` | src/detection/results.ts:139-173 | the while loop computes exactly `ResultPoll`: the same outcome, fetch count and sleeps |
| `Results.ListPollFromRetriesOnErrors` | src/detection/results.ts:190-212 | from any attempt on: every try before the last threw; the last either succeeded and its page is returned, or spent the budget and unknown_error carries its message; one sleep after each failed try |
| `Results.ListPollRetriesOnErrors` | src/detection/results.ts:175-218 | with budget N >= 1: k <= N tries, and the last try decides; with N <= 0: timeout after zero fetches; anything thrown is an SDK error coded unknown_error or timeout |
| `Results.ListPollDoublePrefix` | src/detection/results.ts:61-68 | when every try fails and the last lookup threw a plain error with message m, `getMediaResults` prefixes it and the budget-spent throw (`src/detection/results.ts:203-207`) prefixes it again: the thrown message is `Failed to get paginated results: Failed to get paginated results: ` and m |
| `Results.GetDetectionResults` | src/detection/results.ts:175-218 | the retry loop, after the parameter defaults, computes exactly `ListPoll` on the resolved filter |
| `Sdk.PollLoopShape` | src/index.ts:141-167 | each ANALYZING or not_found answer adds one interval to the elapsed time and sleeps once; every call is made before the timeout; the loop ends on a settled answer, which is the one notification, or on the timeout, which is reported once |
| `Sdk.BackgroundPollEmitsOnce` | src/index.ts:127-173 | at most one notification, and exactly one when the poll ends; a timeout of 0 or less gives the timeout error after zero calls; a result goes to the result channel and any other error to the error channel; there is never a double emit |
| `Sdk.BackgroundPollCallBound` | src/index.ts:141-160 | with a positive interval, at most ceil(timeout / interval) calls are made |
| `Sdk.PollLoopEndsWithEnoughFuel` | src/index.ts:141-167 | with a positive interval the loop always ends once the iteration bound covers the remaining time |
| `Sdk.BackgroundPollEnds` | src/index.ts:135-172 | with a positive interval, a background poll ends and emits exactly one notification |
| `Sdk.BackgroundPollScenario` | src/index.ts:141-167 | not_found, then ANALYZING, then a settled result, every 100 ms for 1000 ms, gives three calls, two sleeps, 200 ms elapsed and the result as the one notification |
| `Sdk.RealityDefender.constructor` | src/index.ts:39-51 | it keeps the API key and the defaulted base URL, and the event log starts empty |
| `Sdk.RealityDefender.Create` | src/index.ts:42-44 | a missing API key is refused with unauthorized and `API key is required`; otherwise a fresh, valid object |
| `Sdk.RealityDefender.Upload` | src/index.ts:59-70 | the upload's outcome: an SDK error unchanged, any other error as upload_failed with the prefix `Upload failed: ` |
| `Sdk.RealityDefender.GetResult` | src/index.ts:79-84 | the bounded poll with the caller's options |
| `Sdk.RealityDefender.Detect` | src/index.ts:93-102 | a failed upload is thrown with zero fetches; otherwise it runs the bounded poll for the upload's request identifier, with the caller's options |
| `Sdk.RealityDefender.PollForResults` | src/index.ts:111-121 | the interval defaults to 5000 and the timeout to 300000, and both are forwarded unchanged; the event log grows by exactly what the poll emits; the object stays valid |
| `Sdk.RealityDefender.PollForResultsLoop` | src/index.ts:127-173 | the while loop over `isCompleted` and `elapsed` computes exactly `BackgroundPoll`, and it appends exactly its notifications to the event log; the object stays valid |

## Left out

- HTTP transport (axios `get`/`post`/`put`, headers, the API key header): network I/O. Each request is
  an oracle answer instead.
- `src/detection/upload.ts`, `src/utils/files.ts`, `src/detection/social.ts` and `src/utils/url.ts` are
  not part of this model. They cover the signed-URL upload, file reads, social-link submission and URL
  parsing. `upload` and `detect` take the upload's outcome as a parameter.
- The supported file-type table (`src/core/constants.ts:34-42`): nothing modelled here reads it.
- `src/core/events.ts` and the listener registry: subscribers are not modelled. The emitted
  notifications are kept as an event log on the object.
- `sleep` and wall-clock time: a sleep is recorded as its duration, and `elapsed` is the simulated sum
  of the intervals.
- Floating point: scores are `real`. `finalScore / 100` is exact, with no rounding, and NaN is not
  modelled.
- JavaScript `Date` and time zones: a date is the triple that `getFullYear`, `getMonth` and `getDate`
  return.
- `null` versus `undefined`: they are told apart in the results summary and the error response body.
  They are not told apart in the summary's `finalScore`, though the code's test `finalScore !== null`
  (`src/detection/results.ts:91`) is strict there too; see the `Results.FormatResult` line below. Elsewhere both are `None`: in optional fields read with `??`, `||` or a
  truthiness test, and in the page arguments, where `undefined` takes the default. A missing API key
  and an empty API key are both the empty string.
- Client.HandleAxiosError: a response code that is an array (`includes` then searches its elements)
  is not modelled; a code is a string, absent, or some other value that throws. A server message that
  is not a string is not modelled either.
- Results.FormatResult: a summary whose metadata has no `finalScore` is read as a null score, and the
  model reports `None`. In the source `undefined !== null` holds, so the score is `undefined / 100`,
  which is NaN.
- Numbers are integers: `maxAttempts`, `pollingInterval`, `timeout`, `pageNumber` and `size` are
  JavaScript numbers, modelled as `int`. A fractional value is not modelled. For example, a
  `maxAttempts` of 2.5 allows three fetches, and a page number of 1.5 gives the path segment `1.5`.
- Sdk.RealityDefender.PollForResultsLoop: `_pollForResults` never ends when the interval is 0 or
  negative and the answers keep polling.
  - The model runs at most `fuel` iterations. A run that uses up its fuel has `ended == false` and
    emits nothing, which stands for a poll that is still running.
  - `BackgroundPollEnds` proves that enough fuel always ends the poll when the interval is positive.
- Sdk.RealityDefender.PollForResultsLoop: each inner `getResult` call is an oracle answer. It is not
  unfolded into the unbounded bounded-poll run it stands for.
- Sdk.RealityDefender.Create: the constructor throws on a missing API key. The model's `constructor`
  requires a key, and `Create` returns the error in place of a throw.
- Sdk.BackgroundPollEmitsOnce: listeners are assumed not to throw. A `result` listener that throws
  lands in the loop's catch and leads to a second emit, on `error`. An `error` emit with no listener
  throws out of the poller. Neither is modelled.
- Sdk.BackgroundPollEmitsOnce: the interval and timeout are assumed to be finite numbers. With a NaN
  interval or timeout the JavaScript comparisons are all false and no notification is emitted; this is
  not modelled.
- Concurrency and cancellation: every operation runs to completion without interleaving.
