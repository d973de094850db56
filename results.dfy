/** Result retrieval (src/detection/results.ts): normalising the service's
    raw verdicts, building the lookup requests, and the two bounded loops
    that fetch a single result or a page of results. */
module Results {

  import opened Wrappers
  import opened Errors
  import opened Text
  import Constants

  // ---------------------------------------------------------------------
  // Raw payloads as the service sends them (only the fields the SDK reads)
  // ---------------------------------------------------------------------

  /** One model's verdict. `code` is absent for most models. */
  datatype ModelResult = ModelResult(
    name: string,
    code: Option<string>,
    status: string,
    predictionNumber: Option<real>)

  /** `finalScore` is on a 0-100 scale, or null. */
  datatype ResultsSummary = ResultsSummary(status: string, finalScore: Option<real>)

  /** `resultsSummary` as it arrives: an object, JSON `null`, or no field at
      all (JavaScript `undefined`). It is declared non-null, but the polling
      loop tells null and missing apart. */
  datatype SummaryField = Present(summary: ResultsSummary) | NullSummary | MissingSummary

  datatype MediaResponse = MediaResponse(
    requestId: string,
    resultsSummary: SummaryField,
    models: seq<ModelResult>)

  /** A page of results; every field may be missing. */
  datatype AllMediaResponse = AllMediaResponse(
    totalItems: Option<int>,
    currentPageItemsCount: Option<int>,
    totalPages: Option<int>,
    currentPage: Option<int>,
    mediaList: Option<seq<MediaResponse>>)

  // ---------------------------------------------------------------------
  // Normalised results handed to the caller
  // ---------------------------------------------------------------------

  datatype ModelScore = ModelScore(name: string, status: string, score: Option<real>)

  datatype DetectionResult = DetectionResult(
    requestId: string,
    status: string,
    score: Option<real>,
    models: seq<ModelScore>)

  datatype DetectionResultList = DetectionResultList(
    totalItems: int,
    currentPageItemsCount: int,
    totalPages: int,
    currentPage: int,
    items: seq<DetectionResult>)

  const FAKE: string := "FAKE"
  const MANIPULATED: string := "MANIPULATED"
  const ANALYZING: string := "ANALYZING"
  const NOT_APPLICABLE_STATUS: string := "NOT_APPLICABLE"
  const NOT_APPLICABLE_CODE: string := "not_applicable"

  /** The messages of the TypeError JavaScript raises when formatResult reads
      `status` of a null or a missing summary. */
  const NULL_SUMMARY_MESSAGE: string := "Cannot read properties of null (reading 'status')"
  const MISSING_SUMMARY_MESSAGE: string := "Cannot read properties of undefined (reading 'status')"

  function SummaryTypeError(s: SummaryField): string
    requires !s.Present?
  {
    if s.NullSummary? then NULL_SUMMARY_MESSAGE else MISSING_SUMMARY_MESSAGE
  }

  /** `resultsSummary?.status`. */
  function OptionalStatus(s: SummaryField): (r: Option<string>)
    ensures r.Some? <==> s.Present?
  {
    match s
    case Present(summary) => Some(summary.status)
    case _ => None
  }

  // ---------------------------------------------------------------------
  // formatResult
  // ---------------------------------------------------------------------

  /** A model that ran on this media: neither its status nor its code says
      "not applicable". */
  predicate IsActive(m: ModelResult) {
    m.status != NOT_APPLICABLE_STATUS && m.code != Some(NOT_APPLICABLE_CODE)
  }

  /** The public status vocabulary: the service's FAKE is reported as
      MANIPULATED, every other status as it is. */
  function PublicStatus(s: string): (r: string)
    ensures r != FAKE
    ensures s != FAKE ==> r == s
    ensures r == MANIPULATED <==> s == FAKE || s == MANIPULATED
  {
    if s == FAKE then MANIPULATED else s
  }

  /** `models.filter(IsActive)`. */
  function ActiveModels(models: seq<ModelResult>): (r: seq<ModelResult>)
    ensures |r| <= |models|
    ensures forall m :: m in r ==> m in models && IsActive(m)
  {
    if models == [] then []
    else (if IsActive(models[0]) then [models[0]] else []) + ActiveModels(models[1..])
  }

  /** Every position moved one place to the right. */
  function Shift(ps: seq<int>): (r: seq<int>)
    ensures |r| == |ps| && forall k :: 0 <= k < |ps| ==> r[k] == ps[k] + 1
  {
    seq(|ps|, k requires 0 <= k < |ps| => ps[k] + 1)
  }

  /** The positions of the active models, in increasing order. */
  ghost function ActivePositions(models: seq<ModelResult>): seq<int> {
    if models == [] then []
    else (if IsActive(models[0]) then [0] else []) + Shift(ActivePositions(models[1..]))
  }

  lemma {:induction false} ActivePositionsLength(models: seq<ModelResult>)
    ensures |ActivePositions(models)| == |ActiveModels(models)|
  {
    if models != [] {
      ActivePositionsLength(models[1..]);
    }
  }

  /** One kept model and the position it came from. */
  lemma {:induction false} ActiveModelAt(models: seq<ModelResult>, k: nat)
    requires k < |ActivePositions(models)|
    ensures 0 <= ActivePositions(models)[k] < |models|
    ensures k < |ActiveModels(models)| && ActiveModels(models)[k] == models[ActivePositions(models)[k]]
  {
    ActivePositionsLength(models);
    var tail := models[1..];
    var rest := ActivePositions(tail);
    var head := if IsActive(models[0]) then [0] else [];
    var kept := if IsActive(models[0]) then [models[0]] else [];
    assert ActivePositions(models) == head + Shift(rest);
    assert ActiveModels(models) == kept + ActiveModels(tail);
    if k >= |head| {
      var k' := k - |head|;
      ActiveModelAt(tail, k');
      assert ActivePositions(models)[k] == rest[k'] + 1;
      assert ActiveModels(models)[k] == ActiveModels(tail)[k'];
    }
  }

  /** The k-th kept model is the one at the k-th active position. */
  lemma ActiveModelsAtPositions(models: seq<ModelResult>)
    ensures |ActivePositions(models)| == |ActiveModels(models)|
    ensures forall k :: 0 <= k < |ActivePositions(models)| ==> 0 <= ActivePositions(models)[k] < |models|
    ensures forall k :: 0 <= k < |ActivePositions(models)| ==>
      ActiveModels(models)[k] == models[ActivePositions(models)[k]]
  {
    ActivePositionsLength(models);
    forall k | 0 <= k < |ActivePositions(models)|
      ensures 0 <= ActivePositions(models)[k] < |models|
      ensures ActiveModels(models)[k] == models[ActivePositions(models)[k]]
    {
      ActiveModelAt(models, k);
    }
  }

  lemma ShiftMembers(ps: seq<int>, x: int)
    ensures x in Shift(ps) <==> x - 1 in ps
  {
    if x in Shift(ps) {
      var k :| 0 <= k < |ps| && Shift(ps)[k] == x;
      assert ps[k] == x - 1;
    }
    if x - 1 in ps {
      var k :| 0 <= k < |ps| && ps[k] == x - 1;
      assert Shift(ps)[k] == x;
    }
  }

  lemma {:induction false} ActivePositionsNonNegative(models: seq<ModelResult>)
    ensures forall k :: 0 <= k < |ActivePositions(models)| ==> ActivePositions(models)[k] >= 0
  {
    if models != [] {
      ActivePositionsNonNegative(models[1..]);
    }
  }

  lemma {:induction false} ActivePositionsIncrease(models: seq<ModelResult>)
    ensures forall k, l :: 0 <= k < l < |ActivePositions(models)| ==>
      ActivePositions(models)[k] < ActivePositions(models)[l]
  {
    if models != [] {
      var tail := models[1..];
      ActivePositionsIncrease(tail);
      ActivePositionsNonNegative(tail);
      var rest := ActivePositions(tail);
      var ps := ActivePositions(models);
      var head := if IsActive(models[0]) then [0] else [];
      var shifted := Shift(rest);
      assert ps == head + shifted;
      assert |ps| == |head| + |rest|;
      forall k, l | 0 <= k < l < |ps| ensures ps[k] < ps[l] {
        var l' := l - |head|;
        assert ps[l] == shifted[l'] == rest[l'] + 1;
        if k >= |head| {
          var k' := k - |head|;
          assert ps[k] == shifted[k'] == rest[k'] + 1;
        }
      }
    }
  }

  lemma {:induction false} ActivePositionsMembers(models: seq<ModelResult>)
    ensures forall i :: 0 <= i < |models| ==> (IsActive(models[i]) <==> i in ActivePositions(models))
  {
    if models != [] {
      var tail := models[1..];
      ActivePositionsMembers(tail);
      ActivePositionsNonNegative(tail);
      var rest := ActivePositions(tail);
      var head := if IsActive(models[0]) then [0] else [];
      assert ActivePositions(models) == head + Shift(rest);
      forall i | 0 <= i < |models|
        ensures IsActive(models[i]) <==> i in ActivePositions(models)
      {
        ShiftMembers(rest, i);
        if i > 0 {
          assert models[i] == tail[i - 1];
        }
      }
    }
  }

  /** The active positions increase, and they are exactly the positions of
      active models. */
  lemma ActivePositionsExact(models: seq<ModelResult>)
    ensures forall k, l :: 0 <= k < l < |ActivePositions(models)| ==>
      ActivePositions(models)[k] < ActivePositions(models)[l]
    ensures forall i :: 0 <= i < |models| ==> (IsActive(models[i]) <==> i in ActivePositions(models))
    ensures forall k :: 0 <= k < |ActivePositions(models)| ==> ActivePositions(models)[k] >= 0
  {
    ActivePositionsIncrease(models);
    ActivePositionsMembers(models);
    ActivePositionsNonNegative(models);
  }

  /** Filtering distributes over concatenation (the filter is stable). */
  lemma {:induction false} ActiveModelsAppend(a: seq<ModelResult>, b: seq<ModelResult>)
    ensures ActiveModels(a + b) == ActiveModels(a) + ActiveModels(b)
  {
    if a != [] {
      assert (a + b)[1..] == a[1..] + b;
      ActiveModelsAppend(a[1..], b);
    } else {
      assert a + b == b;
    }
  }

  function FormatModel(m: ModelResult): ModelScore {
    ModelScore(m.name, PublicStatus(m.status), m.predictionNumber)
  }

  /** formatResult: keeps the active models, remaps FAKE on the summary and on
      each kept model, rescales the 0-100 summary score to 0-1 keeping null,
      passes each model's prediction number through unchanged. */
  function FormatResult(response: MediaResponse): (r: DetectionResult)
    requires response.resultsSummary.Present?
    ensures r.requestId == response.requestId
    ensures r.status != FAKE
    ensures response.resultsSummary.summary.status != FAKE ==> r.status == response.resultsSummary.summary.status
    ensures response.resultsSummary.summary.status == FAKE ==> r.status == MANIPULATED
    ensures r.score.None? <==> response.resultsSummary.summary.finalScore.None?
    ensures r.score.Some? ==> r.score.value * 100.0 == response.resultsSummary.summary.finalScore.value
    ensures |r.models| <= |response.models|
  {
    var summary := response.resultsSummary.summary;
    var active := ActiveModels(response.models);
    DetectionResult(
      response.requestId,
      PublicStatus(summary.status),
      if summary.finalScore.Some? then Some(summary.finalScore.value / 100.0) else None,
      seq(|active|, k requires 0 <= k < |active| => FormatModel(active[k])))
  }

  /** The k-th reported model is built from the model at the k-th active
      position: same name, remapped status, unscaled prediction number. With
      ActivePositionsExact this says the report covers every active model,
      in order, and nothing else; no reported status is FAKE or
      NOT_APPLICABLE. */
  lemma FormatResultModels(response: MediaResponse)
    requires response.resultsSummary.Present?
    ensures |FormatResult(response).models| == |ActivePositions(response.models)|
    ensures forall k :: 0 <= k < |ActivePositions(response.models)| ==>
      0 <= ActivePositions(response.models)[k] < |response.models|
    ensures forall k :: 0 <= k < |ActivePositions(response.models)| ==>
      var m := response.models[ActivePositions(response.models)[k]];
      FormatResult(response).models[k] == ModelScore(m.name, PublicStatus(m.status), m.predictionNumber)
    ensures forall k :: 0 <= k < |FormatResult(response).models| ==>
      FormatResult(response).models[k].status !in {FAKE, NOT_APPLICABLE_STATUS}
  {
    ActiveModelsAtPositions(response.models);
    var active := ActiveModels(response.models);
    forall k | 0 <= k < |active| ensures IsActive(active[k]) {
      assert active[k] in active;
    }
  }

  // ---------------------------------------------------------------------
  // formatResults
  // ---------------------------------------------------------------------

  /** formatResult needs a summary on every listed item. */
  predicate SummariesPresent(response: AllMediaResponse) {
    response.mediaList.Some? ==>
      forall i :: 0 <= i < |response.mediaList.value| ==> response.mediaList.value[i].resultsSummary.Present?
  }

  /** The envelope formatResults builds. */
  function FormattedList(response: AllMediaResponse): DetectionResultList
    requires SummariesPresent(response)
  {
    var items := match response.mediaList
      case None => []
      case Some(list) => seq(|list|, i requires 0 <= i < |list| => FormatResult(list[i]));
    DetectionResultList(
      response.totalItems.GetOr(0),
      response.currentPageItemsCount.GetOr(0),
      response.totalPages.GetOr(0),
      response.currentPage.GetOr(0),
      items)
  }

  /** The envelope's contents: counts default to 0, and `items[i]` is the
      i-th listed item formatted; no list gives no items. */
  lemma FormattedListShape(response: AllMediaResponse)
    requires SummariesPresent(response)
    ensures var result := FormattedList(response);
      && result.totalItems == response.totalItems.GetOr(0)
      && result.currentPageItemsCount == response.currentPageItemsCount.GetOr(0)
      && result.totalPages == response.totalPages.GetOr(0)
      && result.currentPage == response.currentPage.GetOr(0)
      && (response.mediaList.None? ==> result.items == [])
      && (response.mediaList.Some? ==>
            |result.items| == |response.mediaList.value| &&
            forall i :: 0 <= i < |result.items| ==> result.items[i] == FormatResult(response.mediaList.value[i]))
  {
  }

  /** The position of the first listed item formatResult cannot format. */
  function FirstUnformattable(list: seq<MediaResponse>): (r: Option<nat>)
    ensures r.None? <==> forall i :: 0 <= i < |list| ==> list[i].resultsSummary.Present?
    ensures r.Some? ==>
      && r.value < |list| && !list[r.value].resultsSummary.Present?
      && forall i :: 0 <= i < r.value ==> list[i].resultsSummary.Present?
  {
    if list == [] then None
    else if !list[0].resultsSummary.Present? then Some(0)
    else match FirstUnformattable(list[1..])
      case None => None
      case Some(k) => Some(k + 1)
  }

  /** What formatResults returns or throws: the envelope, or the TypeError
      of the first item whose summary is null or missing. */
  function FormatResultsOutcome(response: AllMediaResponse): Result<DetectionResultList, Thrown> {
    if SummariesPresent(response) then Success(FormattedList(response))
    else
      var list := response.mediaList.value;
      var k := FirstUnformattable(list).value;
      Failure(Untyped(SummaryTypeError(list[k].resultsSummary)))
  }

  /** formatResults: each listed item is pushed formatted, in order, onto an
      envelope whose counts default to 0; an item formatResult cannot format
      throws, and what was pushed so far is dropped. */
  method FormatResults(response: AllMediaResponse) returns (result: Result<DetectionResultList, Thrown>)
    ensures result == FormatResultsOutcome(response)
  {
    var envelope := DetectionResultList(
      response.totalItems.GetOr(0),
      response.currentPageItemsCount.GetOr(0),
      response.totalPages.GetOr(0),
      response.currentPage.GetOr(0),
      []);
    if response.mediaList.Some? {
      var list := response.mediaList.value;
      for n := 0 to |list|
        invariant envelope.totalItems == response.totalItems.GetOr(0)
        invariant envelope.currentPageItemsCount == response.currentPageItemsCount.GetOr(0)
        invariant envelope.totalPages == response.totalPages.GetOr(0)
        invariant envelope.currentPage == response.currentPage.GetOr(0)
        invariant |envelope.items| == n
        invariant forall i :: 0 <= i < n ==>
          list[i].resultsSummary.Present? && envelope.items[i] == FormatResult(list[i])
      {
        if !list[n].resultsSummary.Present? {
          assert FirstUnformattable(list) == Some(n);
          return Failure(Untyped(SummaryTypeError(list[n].resultsSummary)));
        }
        envelope := envelope.(items := envelope.items + [FormatResult(list[n])]);
      }
      FormattedListShape(response);
      assert envelope.items == FormattedList(response).items;
    }
    result := Success(envelope);
  }

  // ---------------------------------------------------------------------
  // Requests
  // ---------------------------------------------------------------------

  datatype QueryValue = NumberParam(number: int) | TextParam(text: string)

  /** A GET request: a path and its query parameters, in insertion order. */
  datatype Request = Request(path: string, query: seq<(string, QueryValue)>)

  /** The value of the first parameter named `key`. */
  function Lookup(query: seq<(string, QueryValue)>, key: string): Option<QueryValue> {
    if query == [] then None
    else if query[0].0 == key then Some(query[0].1)
    else Lookup(query[1..], key)
  }

  /** getMediaResult's request: `MEDIA_RESULT/<requestId>` and no query. */
  function MediaResultRequest(requestId: string): Request {
    Request(Constants.MEDIA_RESULT_PATH + "/" + requestId, [])
  }

  /** The path starts with the fixed lookup prefix and a slash, and what
      follows is exactly the request identifier; so distinct identifiers are
      looked up at distinct paths. */
  lemma MediaResultRequestShape(requestId: string, other: string)
    ensures var path := MediaResultRequest(requestId).path;
      var n := |Constants.MEDIA_RESULT_PATH|;
      |path| == n + 1 + |requestId| &&
      path[..n] == Constants.MEDIA_RESULT_PATH && path[n] == '/' && path[n + 1..] == requestId
    ensures MediaResultRequest(other) == MediaResultRequest(requestId) ==> other == requestId
    ensures MediaResultRequest(requestId).query == []
  {
    var n := |Constants.MEDIA_RESULT_PATH|;
    var path := MediaResultRequest(requestId).path;
    assert path[n + 1..] == requestId;
    if MediaResultRequest(other) == MediaResultRequest(requestId) {
      assert MediaResultRequest(other).path[n + 1..] == other;
    }
  }

  /** A calendar date as `getFullYear()`, `getMonth()` (0-based) and
      `getDate()` report it. */
  datatype Date = Date(year: int, month0: nat, day: nat)

  /** `${year}-${month0 + 1}-${day}`: no zero padding. */
  function DateParam(d: Date): string {
    IntToString(d.year) + "-" + NatToString(d.month0 + 1) + "-" + NatToString(d.day)
  }

  /** Reads a `Y-M-D` parameter back. */
  function ParseDateParam(s: string): Option<Date> {
    match SplitLast(s, '-')
    case None => None
    case Some((rest, dayText)) =>
      match SplitLast(rest, '-')
      case None => None
      case Some((yearText, monthText)) =>
        if |monthText| >= 1 && AllDigits(monthText) && ParseNat(monthText) >= 1
           && |dayText| >= 1 && AllDigits(dayText) then
          match ParseInt(yearText)
          case None => None
          case Some(year) => Some(Date(year, ParseNat(monthText) - 1, ParseNat(dayText)))
        else None
  }

  lemma DigitsHaveNoDash(s: string)
    requires AllDigits(s)
    ensures '-' !in s
  {
    forall i | 0 <= i < |s| ensures s[i] != '-' {
      assert IsDigit(s[i]);
    }
  }

  /** The date parameter is unambiguous: it reads back as the date it was
      written from, the month shifted back to 0-based. */
  lemma DateParamRoundTrip(d: Date)
    ensures ParseDateParam(DateParam(d)) == Some(d)
  {
    var y, m, dd := IntToString(d.year), NatToString(d.month0 + 1), NatToString(d.day);
    DigitsHaveNoDash(m);
    DigitsHaveNoDash(dd);
    assert DateParam(d) == (y + "-" + m) + ['-'] + dd;
    SplitLastOf(y + "-" + m, '-', dd);
    assert y + "-" + m == y + ['-'] + m;
    SplitLastOf(y, '-', m);
    NatToStringRoundTrip(d.month0 + 1);
    NatToStringRoundTrip(d.day);
    IntToStringRoundTrip(d.year);
  }

  /** Month and day are written without zero padding. */
  lemma DateParamUnpadded(d: Date)
    ensures NatToString(d.month0 + 1)[0] != '0'
    ensures d.day > 0 ==> NatToString(d.day)[0] != '0'
  {
    NatToStringUnpadded(d.month0 + 1);
    NatToStringUnpadded(d.day);
  }

  /** Two dates as they go on the wire: January 5th and December 31st of
      2024, with the 0-based month shifted and nothing padded. */
  lemma DateParamExamples()
    ensures DateParam(Date(2024, 0, 5)) == "2024-1-5"
    ensures DateParam(Date(2024, 11, 31)) == "2024-12-31"
  {
    assert NatToString(2024) == "2024" by {
      assert NatToString(20) == "20";
      assert NatToString(202) == "202";
    }
    assert NatToString(12) == "12";
    assert NatToString(31) == "31";
  }

  /** The filters of a page lookup. */
  datatype PageFilter = PageFilter(
    pageNumber: int,
    size: int,
    name: Option<string>,
    startDate: Option<Date>,
    endDate: Option<Date>)

  const DEFAULT_PAGE_NUMBER: int := 0
  const DEFAULT_PAGE_SIZE: int := 10

  /** The page arguments as a caller passes them; an omitted one is None. */
  datatype PageArguments = PageArguments(
    pageNumber: Option<int>,
    size: Option<int>,
    name: Option<string>,
    startDate: Option<Date>,
    endDate: Option<Date>)

  /** The parameter defaults: page 0, size 10, and no name or date filter
      (the null defaults, which is what an omitted filter is already). */
  function ResolvePageArguments(args: PageArguments): (f: PageFilter)
    ensures args.pageNumber.None? ==> f.pageNumber == DEFAULT_PAGE_NUMBER
    ensures args.size.None? ==> f.size == DEFAULT_PAGE_SIZE
    ensures args.pageNumber.Some? ==> f.pageNumber == args.pageNumber.value
    ensures args.size.Some? ==> f.size == args.size.value
    ensures f.name == args.name && f.startDate == args.startDate && f.endDate == args.endDate
  {
    PageFilter(args.pageNumber.GetOr(DEFAULT_PAGE_NUMBER), args.size.GetOr(DEFAULT_PAGE_SIZE),
               args.name, args.startDate, args.endDate)
  }

  /** Every argument passed explicitly, as getDetectionResults passes its own
      (already defaulted) values on to getMediaResults. */
  function ExplicitArguments(f: PageFilter): (args: PageArguments)
    ensures ResolvePageArguments(args) == f
  {
    PageArguments(Some(f.pageNumber), Some(f.size), f.name, f.startDate, f.endDate)
  }

  /** getMediaResults' query: `size` always, `name` only when non-empty,
      each date only when given. */
  function PageQuery(f: PageFilter): seq<(string, QueryValue)> {
    [("size", NumberParam(f.size))]
    + (if f.name.Some? && f.name.value != "" then [("name", TextParam(f.name.value))] else [])
    + (if f.startDate.Some? then [("startDate", TextParam(DateParam(f.startDate.value)))] else [])
    + (if f.endDate.Some? then [("endDate", TextParam(DateParam(f.endDate.value)))] else [])
  }

  function PageRequest(f: PageFilter): Request {
    Request(Constants.ALL_MEDIA_RESULTS_PATH + "/" + IntToString(f.pageNumber), PageQuery(f))
  }

  /** The page path is the fixed listing prefix, a slash and the page
      number, which reads back as the number requested. */
  lemma PageRequestShape(f: PageFilter)
    ensures var path := PageRequest(f).path;
      var n := |Constants.ALL_MEDIA_RESULTS_PATH|;
      && |path| > n + 1
      && path[..n] == Constants.ALL_MEDIA_RESULTS_PATH && path[n] == '/'
      && ParseInt(path[n + 1..]) == Some(f.pageNumber)
  {
    var n := |Constants.ALL_MEDIA_RESULTS_PATH|;
    assert PageRequest(f).path[n + 1..] == IntToString(f.pageNumber);
    IntToStringRoundTrip(f.pageNumber);
  }

  lemma {:induction false} LookupAppend(a: seq<(string, QueryValue)>, b: seq<(string, QueryValue)>, key: string)
    ensures Lookup(a + b, key) == if Lookup(a, key).Some? then Lookup(a, key) else Lookup(b, key)
  {
    if a != [] {
      assert (a + b)[1..] == a[1..] + b;
      LookupAppend(a[1..], b, key);
    } else {
      assert a + b == b;
    }
  }

  /** What each query parameter carries, looked up by name, and that no
      other parameter is sent. */
  lemma PageQueryParams(f: PageFilter)
    ensures Lookup(PageQuery(f), "size") == Some(NumberParam(f.size))
    ensures Lookup(PageQuery(f), "name") ==
      if f.name.Some? && f.name.value != "" then Some(TextParam(f.name.value)) else None
    ensures Lookup(PageQuery(f), "startDate") ==
      if f.startDate.Some? then Some(TextParam(DateParam(f.startDate.value))) else None
    ensures Lookup(PageQuery(f), "endDate") ==
      if f.endDate.Some? then Some(TextParam(DateParam(f.endDate.value))) else None
    ensures forall i :: 0 <= i < |PageQuery(f)| ==> PageQuery(f)[i].0 in {"size", "name", "startDate", "endDate"}
  {
    var z: seq<(string, QueryValue)> := [("size", NumberParam(f.size))];
    var n: seq<(string, QueryValue)> := if f.name.Some? && f.name.value != "" then [("name", TextParam(f.name.value))] else [];
    var s: seq<(string, QueryValue)> := if f.startDate.Some? then [("startDate", TextParam(DateParam(f.startDate.value)))] else [];
    var e: seq<(string, QueryValue)> := if f.endDate.Some? then [("endDate", TextParam(DateParam(f.endDate.value)))] else [];
    assert PageQuery(f) == ((z + n) + s) + e;
    LookupAppend(z + n + s, e, "size");
    LookupAppend(z + n, s, "size");
    LookupAppend(z, n, "size");
    LookupAppend(z + n + s, e, "name");
    LookupAppend(z + n, s, "name");
    LookupAppend(z, n, "name");
    LookupAppend(z + n + s, e, "startDate");
    LookupAppend(z + n, s, "startDate");
    LookupAppend(z, n, "startDate");
    LookupAppend(z + n + s, e, "endDate");
    LookupAppend(z + n, s, "endDate");
    LookupAppend(z, n, "endDate");
  }

  /** getMediaResults with no arguments asks for page 0 with size 10 and no
      other parameter. */
  lemma DefaultPageRequest()
    ensures var request := PageRequest(ResolvePageArguments(PageArguments(None, None, None, None, None)));
      && request.path == Constants.ALL_MEDIA_RESULTS_PATH + "/0"
      && request.query == [("size", NumberParam(10))]
  {
    assert IntToString(0) == "0";
  }

  // ---------------------------------------------------------------------
  // getMediaResult and getMediaResults
  // ---------------------------------------------------------------------

  /** The HTTP client seen as an oracle: the answer to the n-th call
      (counting from 0) when it is the given request. */
  type MediaTransport = (nat, Request) -> Result<MediaResponse, Thrown>
  type PageTransport = (nat, Request) -> Result<AllMediaResponse, Thrown>

  /** getMediaResult as the n-th call: SDK errors pass through, any other
      error becomes `unknown_error` prefixed once. */
  function GetMediaResult(transport: MediaTransport, n: nat, requestId: string): (r: Result<MediaResponse, RDError>)
    ensures var answer := transport(n, MediaResultRequest(requestId));
      && (r.Success? <==> answer.Success?)
      && (answer.Success? ==> r.value == answer.value)
      && (answer.Failure? && answer.error.Typed? ==> r.error == answer.error.err)
      && (answer.Failure? && answer.error.Untyped? ==>
            r.error == RDError("Failed to get result: " + answer.error.message, UnknownError))
  {
    match transport(n, MediaResultRequest(requestId))
    case Success(media) => Success(media)
    case Failure(t) => Failure(WrapOnce(t, "Failed to get result: ", UnknownError))
  }

  const PAGE_ERROR_PREFIX: string := "Failed to get paginated results: "

  /** getMediaResults as the n-th call, after its parameter defaults, with
      the same wrap-once rule. */
  function GetMediaResults(transport: PageTransport, n: nat, args: PageArguments): (r: Result<AllMediaResponse, RDError>)
    ensures var answer := transport(n, PageRequest(ResolvePageArguments(args)));
      && (r.Success? <==> answer.Success?)
      && (answer.Success? ==> r.value == answer.value)
      && (answer.Failure? && answer.error.Typed? ==> r.error == answer.error.err)
      && (answer.Failure? && answer.error.Untyped? ==>
            r.error == RDError(PAGE_ERROR_PREFIX + answer.error.message, UnknownError))
  {
    match transport(n, PageRequest(ResolvePageArguments(args)))
    case Success(page) => Success(page)
    case Failure(t) => Failure(WrapOnce(t, PAGE_ERROR_PREFIX, UnknownError))
  }

  // ---------------------------------------------------------------------
  // getDetectionResult: poll until the status settles
  // ---------------------------------------------------------------------

  /** What a loop returns or throws, how many fetches it made and the
      durations it slept, in order. */
  datatype Run<T> = Run(result: Result<T, Thrown>, fetches: nat, sleeps: seq<int>)

  /** The caller's options; absent fields take the defaults. */
  datatype PollOptions = PollOptions(maxAttempts: Option<int>, pollingInterval: Option<int>)

  function MaxAttempts(options: PollOptions): int {
    options.maxAttempts.GetOr(Constants.MAX_SAFE_INTEGER)
  }

  function PollingInterval(options: PollOptions): int {
    options.pollingInterval.GetOr(Constants.DEFAULT_POLLING_INTERVAL)
  }

  function Repeat(x: int, n: nat): (s: seq<int>)
    ensures |s| == n && forall i :: 0 <= i < n ==> s[i] == x
  {
    if n == 0 then [] else Repeat(x, n - 1) + [x]
  }

  /** A fetch after which the loop goes on: it succeeded, and its summary is
      null or its status is ANALYZING. A missing summary is neither: the
      strict `!== null` test lets it through and it is formatted. */
  predicate StillAnalyzing(fetched: Result<MediaResponse, RDError>) {
    fetched.Success? &&
    (fetched.value.resultsSummary.NullSummary? || OptionalStatus(fetched.value.resultsSummary) == Some(ANALYZING))
  }

  /** formatResult, including the TypeError it throws on a null or missing
      summary. */
  function FormatOrThrow(media: MediaResponse): Result<DetectionResult, Thrown> {
    if media.resultsSummary.Present? then Success(FormatResult(media))
    else Failure(Untyped(SummaryTypeError(media.resultsSummary)))
  }

  /** What the loop hands back after its last fetch: the fetch error, or the
      formatted snapshot. */
  function Settle(fetched: Result<MediaResponse, RDError>): Result<DetectionResult, Thrown> {
    match fetched
    case Failure(e) => Failure(Typed(e))
    case Success(media) => FormatOrThrow(media)
  }

  /** The loop from the fetch numbered `attempts` on. */
  function ResultPollFrom(transport: MediaTransport, requestId: string, maxAttempts: int, interval: int, attempts: nat)
    : Run<DetectionResult>
    requires attempts < maxAttempts
    decreases maxAttempts - attempts
  {
    var fetched := GetMediaResult(transport, attempts, requestId);
    if !StillAnalyzing(fetched) || attempts + 1 >= maxAttempts then
      Run(Settle(fetched), attempts + 1, Repeat(interval, attempts))
    else
      ResultPollFrom(transport, requestId, maxAttempts, interval, attempts + 1)
  }

  /** getDetectionResult; with no positive budget, the single fallback fetch. */
  function ResultPoll(transport: MediaTransport, requestId: string, options: PollOptions): Run<DetectionResult> {
    if MaxAttempts(options) <= 0 then
      Run(Settle(GetMediaResult(transport, 0, requestId)), 1, [])
    else
      ResultPollFrom(transport, requestId, MaxAttempts(options), PollingInterval(options), 0)
  }

  lemma {:induction false} ResultPollFromStopsAtFirstSettled(
    transport: MediaTransport, requestId: string, maxAttempts: int, interval: int, attempts: nat)
    requires attempts < maxAttempts
    requires forall j :: 0 <= j < attempts ==> StillAnalyzing(GetMediaResult(transport, j, requestId))
    ensures var run := ResultPollFrom(transport, requestId, maxAttempts, interval, attempts);
      && attempts < run.fetches <= maxAttempts
      && (forall j :: 0 <= j < run.fetches - 1 ==> StillAnalyzing(GetMediaResult(transport, j, requestId)))
      && (run.fetches < maxAttempts ==> !StillAnalyzing(GetMediaResult(transport, run.fetches - 1, requestId)))
      && run.result == Settle(GetMediaResult(transport, run.fetches - 1, requestId))
      && run.sleeps == Repeat(interval, run.fetches - 1)
    decreases maxAttempts - attempts
  {
    var fetched := GetMediaResult(transport, attempts, requestId);
    if StillAnalyzing(fetched) && attempts + 1 < maxAttempts {
      ResultPollFromStopsAtFirstSettled(transport, requestId, maxAttempts, interval, attempts + 1);
    }
  }

  /** getDetectionResult, declaratively. With a budget of N >= 1 it makes
      k <= N fetches, where every fetch before the k-th was still analyzing,
      and the k-th either settled (a non-null, non-ANALYZING summary, or an
      error) or used up the budget; it returns that fetch's formatted
      snapshot or throws its error, and slept k - 1 times for the interval.
      With N <= 0 it makes one fetch and does not sleep. */
  lemma ResultPollStopsAtFirstSettled(transport: MediaTransport, requestId: string, options: PollOptions)
    ensures var run := ResultPoll(transport, requestId, options);
      var n := MaxAttempts(options);
      && (n <= 0 ==>
            run.fetches == 1 && run.sleeps == [] &&
            run.result == Settle(GetMediaResult(transport, 0, requestId)))
      && (n >= 1 ==>
            && 1 <= run.fetches <= n
            && (forall j :: 0 <= j < run.fetches - 1 ==> StillAnalyzing(GetMediaResult(transport, j, requestId)))
            && (run.fetches < n ==> !StillAnalyzing(GetMediaResult(transport, run.fetches - 1, requestId)))
            && run.result == Settle(GetMediaResult(transport, run.fetches - 1, requestId))
            && run.sleeps == Repeat(PollingInterval(options), run.fetches - 1))
  {
    if MaxAttempts(options) >= 1 {
      ResultPollFromStopsAtFirstSettled(transport, requestId, MaxAttempts(options), PollingInterval(options), 0);
    }
  }

  /** A backend that never leaves ANALYZING within the budget N: exactly N
      fetches and N - 1 sleeps, and the N-th snapshot is returned, not an
      error (unless its summary is null). */
  lemma ResultPollExhaustsBudget(transport: MediaTransport, requestId: string, options: PollOptions)
    requires MaxAttempts(options) >= 1
    requires forall j :: 0 <= j < MaxAttempts(options) ==> StillAnalyzing(GetMediaResult(transport, j, requestId))
    ensures var run := ResultPoll(transport, requestId, options);
      var last := GetMediaResult(transport, MaxAttempts(options) - 1, requestId);
      && run.fetches == MaxAttempts(options)
      && |run.sleeps| == MaxAttempts(options) - 1
      && run.result == Settle(last)
  {
    ResultPollStopsAtFirstSettled(transport, requestId, options);
  }

  /** A settled first fetch: one fetch, no sleep, its formatted result. */
  lemma ResultPollSettledAtOnce(transport: MediaTransport, requestId: string, options: PollOptions)
    requires !StillAnalyzing(GetMediaResult(transport, 0, requestId))
    ensures var run := ResultPoll(transport, requestId, options);
      run.fetches == 1 && run.sleeps == [] &&
      run.result == Settle(GetMediaResult(transport, 0, requestId))
  {
    ResultPollStopsAtFirstSettled(transport, requestId, options);
  }

  /** A fetch error ends the loop at once and is thrown as it is. */
  lemma ResultPollPropagatesFetchError(transport: MediaTransport, requestId: string, options: PollOptions, k: nat)
    requires k < MaxAttempts(options)
    requires forall j :: 0 <= j < k ==> StillAnalyzing(GetMediaResult(transport, j, requestId))
    requires GetMediaResult(transport, k, requestId).Failure?
    ensures var run := ResultPoll(transport, requestId, options);
      run.fetches == k + 1 &&
      run.result == Failure(Typed(GetMediaResult(transport, k, requestId).error))
  {
    ResultPollStopsAtFirstSettled(transport, requestId, options);
    assert !StillAnalyzing(GetMediaResult(transport, k, requestId));
  }

  /** A response without any summary field is not null, so the loop stops at
      once and formatResult throws its TypeError, rather than polling on as
      for a null summary. */
  lemma ResultPollMissingSummaryThrows(transport: MediaTransport, requestId: string, options: PollOptions)
    requires GetMediaResult(transport, 0, requestId).Success?
    requires GetMediaResult(transport, 0, requestId).value.resultsSummary.MissingSummary?
    ensures var run := ResultPoll(transport, requestId, options);
      run.fetches == 1 && run.sleeps == [] &&
      run.result == Failure(Untyped(MISSING_SUMMARY_MESSAGE))
  {
    ResultPollSettledAtOnce(transport, requestId, options);
  }

  /** A job that is ANALYZING on the first fetch and FAKE with a final score
      of 90 on the second, polled with a budget of 2 and an interval of 100:
      two fetches, one sleep of 100, and a MANIPULATED result scored 0.9. */
  lemma ResultPollScenario(requestId: string)
    ensures var transport: MediaTransport := (n: nat, req: Request) =>
        if n == 0 then Success(MediaResponse(requestId, Present(ResultsSummary(ANALYZING, None)), []))
        else Success(MediaResponse(requestId, Present(ResultsSummary(FAKE, Some(90.0))), []));
      var run := ResultPoll(transport, requestId, PollOptions(Some(2), Some(100)));
      && run.fetches == 2 && run.sleeps == [100]
      && run.result == Success(DetectionResult(requestId, MANIPULATED, Some(0.9), []))
  {
    var transport: MediaTransport := (n: nat, req: Request) =>
      if n == 0 then Success(MediaResponse(requestId, Present(ResultsSummary(ANALYZING, None)), []))
      else Success(MediaResponse(requestId, Present(ResultsSummary(FAKE, Some(90.0))), []));
    assert StillAnalyzing(GetMediaResult(transport, 0, requestId));
    assert !StillAnalyzing(GetMediaResult(transport, 1, requestId));
  }

  /** getDetectionResult. */
  method GetDetectionResult(transport: MediaTransport, requestId: string, options: PollOptions)
    returns (run: Run<DetectionResult>)
    ensures run == ResultPoll(transport, requestId, options)
  {
    var attempts: nat := 0;
    var maxAttempts := MaxAttempts(options);
    var interval := PollingInterval(options);
    var sleeps: seq<int> := [];
    while attempts < maxAttempts
      invariant attempts == 0 || attempts < maxAttempts
      invariant sleeps == Repeat(interval, attempts)
      invariant attempts < maxAttempts ==>
        ResultPoll(transport, requestId, options) == ResultPollFrom(transport, requestId, maxAttempts, interval, attempts)
      decreases maxAttempts - attempts
    {
      var fetched := GetMediaResult(transport, attempts, requestId);
      if fetched.Failure? {
        // the awaited fetch throws
        return Run(Failure(Typed(fetched.error)), attempts + 1, sleeps);
      }
      var mediaResult := fetched.value;
      if !mediaResult.resultsSummary.NullSummary? && OptionalStatus(mediaResult.resultsSummary) != Some(ANALYZING) {
        return Run(FormatOrThrow(mediaResult), attempts + 1, sleeps);
      }
      attempts := attempts + 1;
      if attempts >= maxAttempts {
        return Run(FormatOrThrow(mediaResult), attempts, sleeps);
      }
      sleeps := sleeps + [interval];
    }
    var mediaResult := GetMediaResult(transport, attempts, requestId);
    run := Run(Settle(mediaResult), attempts + 1, sleeps);
  }

  // ---------------------------------------------------------------------
  // getDetectionResults: retry a page lookup on errors
  // ---------------------------------------------------------------------

  /** One try of the loop body: fetch the page and format it; formatting a
      page with a null summary throws a TypeError inside the same try. */
  function PageAttempt(transport: PageTransport, n: nat, f: PageFilter): Result<DetectionResultList, Thrown> {
    match GetMediaResults(transport, n, ExplicitArguments(f))
    case Failure(e) => Failure(Typed(e))
    case Success(page) => FormatResultsOutcome(page)
  }

  function ExhaustedError(last: Thrown): RDError {
    RDError(PAGE_ERROR_PREFIX + Message(last), UnknownError)
  }

  function NoAttemptsError(attempts: nat): RDError {
    RDError("Failed to get detection result list after " + NatToString(attempts) + " attempts", Timeout)
  }

  function ListPollFrom(transport: PageTransport, f: PageFilter, maxAttempts: int, interval: int, attempts: nat)
    : Run<DetectionResultList>
    requires attempts < maxAttempts
    decreases maxAttempts - attempts
  {
    match PageAttempt(transport, attempts, f)
    case Success(list) => Run(Success(list), attempts + 1, Repeat(interval, attempts))
    case Failure(t) =>
      if attempts + 1 >= maxAttempts then
        Run(Failure(Typed(ExhaustedError(t))), attempts + 1, Repeat(interval, attempts))
      else
        ListPollFrom(transport, f, maxAttempts, interval, attempts + 1)
  }

  /** getDetectionResults; with no positive budget, `timeout` at once. */
  function ListPoll(transport: PageTransport, f: PageFilter, options: PollOptions): Run<DetectionResultList> {
    if MaxAttempts(options) <= 0 then Run(Failure(Typed(NoAttemptsError(0))), 0, [])
    else ListPollFrom(transport, f, MaxAttempts(options), PollingInterval(options), 0)
  }

  /** The last try decides: its page is returned if it succeeded; if it
      threw, the budget is spent and `unknown_error` carries its message. */
  predicate LastAttemptDecides(transport: PageTransport, f: PageFilter, maxAttempts: int, run: Run<DetectionResultList>)
    requires run.fetches >= 1
  {
    var last := PageAttempt(transport, run.fetches - 1, f);
    && (last.Success? ==> run.result == Success(last.value))
    && (last.Failure? ==> run.fetches == maxAttempts && run.result == Failure(Typed(ExhaustedError(last.error))))
  }

  lemma {:induction false} ListPollFromRetriesOnErrors(
    transport: PageTransport, f: PageFilter, maxAttempts: int, interval: int, attempts: nat)
    requires attempts < maxAttempts
    requires forall j :: 0 <= j < attempts ==> PageAttempt(transport, j, f).Failure?
    ensures var run := ListPollFrom(transport, f, maxAttempts, interval, attempts);
      && attempts < run.fetches <= maxAttempts
      && (forall j :: 0 <= j < run.fetches - 1 ==> PageAttempt(transport, j, f).Failure?)
      && LastAttemptDecides(transport, f, maxAttempts, run)
      && run.sleeps == Repeat(interval, run.fetches - 1)
    decreases maxAttempts - attempts
  {
    if PageAttempt(transport, attempts, f).Failure? && attempts + 1 < maxAttempts {
      ListPollFromRetriesOnErrors(transport, f, maxAttempts, interval, attempts + 1);
    }
  }

  /** getDetectionResults, declaratively. With a budget N >= 1 it makes
      k <= N tries, every try before the k-th threw; if the k-th succeeded its
      formatted page is returned, otherwise k == N and `unknown_error` is
      thrown carrying the last error's message (even an SDK error is
      re-wrapped); it slept k - 1 times. With N <= 0 it throws `timeout`
      after zero fetches. Whatever it throws is an SDK error. */
  lemma ListPollRetriesOnErrors(transport: PageTransport, f: PageFilter, options: PollOptions)
    ensures var run := ListPoll(transport, f, options);
      var n := MaxAttempts(options);
      && (n <= 0 ==> run.fetches == 0 && run.sleeps == [] && run.result == Failure(Typed(NoAttemptsError(0))))
      && (n >= 1 ==>
            && 1 <= run.fetches <= n
            && (forall j :: 0 <= j < run.fetches - 1 ==> PageAttempt(transport, j, f).Failure?)
            && LastAttemptDecides(transport, f, n, run)
            && run.sleeps == Repeat(PollingInterval(options), run.fetches - 1))
      && (run.result.Failure? ==>
            run.result.error.Typed? && run.result.error.err.code in {UnknownError, Timeout})
  {
    if MaxAttempts(options) >= 1 {
      ListPollFromRetriesOnErrors(transport, f, MaxAttempts(options), PollingInterval(options), 0);
    }
  }

  /** A plain error on the last page lookup is prefixed twice: once by
      getMediaResults and once more when the budget is spent. */
  lemma ListPollDoublePrefix(transport: PageTransport, f: PageFilter, options: PollOptions, m: string)
    requires MaxAttempts(options) >= 1
    requires forall j :: 0 <= j < MaxAttempts(options) ==> transport(j, PageRequest(f)).Failure?
    requires transport(MaxAttempts(options) - 1, PageRequest(f)) == Failure(Untyped(m))
    ensures ListPoll(transport, f, options).result ==
      Failure(Typed(RDError(PAGE_ERROR_PREFIX + PAGE_ERROR_PREFIX + m, UnknownError)))
  {
    var n := MaxAttempts(options);
    forall j | 0 <= j < n
      ensures PageAttempt(transport, j, f).Failure?
    {
      assert GetMediaResults(transport, j, ExplicitArguments(f)).Failure?;
    }
    ListPollFromRetriesOnErrors(transport, f, n, PollingInterval(options), 0);
    var run := ListPoll(transport, f, options);
    assert PageAttempt(transport, run.fetches - 1, f).Failure?;
    assert run.fetches == n;
    assert GetMediaResults(transport, n - 1, ExplicitArguments(f)) ==
      Failure(RDError(PAGE_ERROR_PREFIX + m, UnknownError));
    assert PAGE_ERROR_PREFIX + (PAGE_ERROR_PREFIX + m) == PAGE_ERROR_PREFIX + PAGE_ERROR_PREFIX + m;
  }

  /** One turn of the retry loop. */
  lemma ListPollFromStep(transport: PageTransport, f: PageFilter, maxAttempts: int, interval: int, attempts: nat)
    requires attempts < maxAttempts
    ensures var attempt := PageAttempt(transport, attempts, f);
      var run := ListPollFrom(transport, f, maxAttempts, interval, attempts);
      && (attempt.Success? ==> run == Run(Success(attempt.value), attempts + 1, Repeat(interval, attempts)))
      && (attempt.Failure? && attempts + 1 >= maxAttempts ==>
            run == Run(Failure(Typed(ExhaustedError(attempt.error))), attempts + 1, Repeat(interval, attempts)))
      && (attempt.Failure? && attempts + 1 < maxAttempts ==>
            run == ListPollFrom(transport, f, maxAttempts, interval, attempts + 1))
  {
  }

  /** getDetectionResults, after its parameter defaults. */
  method GetDetectionResults(transport: PageTransport, args: PageArguments, options: PollOptions)
    returns (run: Run<DetectionResultList>)
    ensures run == ListPoll(transport, ResolvePageArguments(args), options)
  {
    var f := ResolvePageArguments(args);
    var attempts: nat := 0;
    var maxAttempts := MaxAttempts(options);
    var interval := PollingInterval(options);
    var sleeps: seq<int> := [];
    while attempts < maxAttempts
      invariant attempts == 0 || attempts < maxAttempts
      invariant sleeps == Repeat(interval, attempts)
      invariant attempts < maxAttempts ==>
        ListPoll(transport, f, options) == ListPollFrom(transport, f, maxAttempts, interval, attempts)
      decreases maxAttempts - attempts
    {
      ListPollFromStep(transport, f, maxAttempts, interval, attempts);
      var fetched := GetMediaResults(transport, attempts, ExplicitArguments(f));
      var error: Thrown;
      if fetched.Success? {
        var formatted := FormatResults(fetched.value);
        if formatted.Success? {
          return Run(Success(formatted.value), attempts + 1, sleeps);
        }
        error := formatted.error;
      } else {
        error := Typed(fetched.error);
      }
      attempts := attempts + 1;
      if attempts >= maxAttempts {
        return Run(Failure(Typed(RDError(PAGE_ERROR_PREFIX + Message(error), UnknownError))), attempts, sleeps);
      }
      sleeps := sleeps + [interval];
    }
    run := Run(Failure(Typed(NoAttemptsError(attempts))), 0, sleeps);
  }
}
