/** The SDK entry point (src/index.ts): the `RealityDefender` object, its
    upload/result chaining and its background poller, whose notifications
    are kept as an append-only event log on the object. */
module Sdk {

  import opened Wrappers
  import opened Errors
  import opened Results
  import Client
  import Constants

  /** The constructor's configuration; a missing API key is the empty string. */
  datatype Config = Config(apiKey: string, baseUrl: Option<string>)

  datatype UploadResult = UploadResult(requestId: string, mediaId: string)

  /** A notification: on the `result` channel or on the `error` channel. */
  datatype Event = ResultEvent(result: DetectionResult) | ErrorEvent(error: Thrown)

  const TIMEOUT_ERROR: RDError := RDError("Polling timeout exceeded", Timeout)

  /** The answer of the n-th inner `getResult(requestId)` call. */
  type ResultOracle = nat -> Result<DetectionResult, Thrown>

  /** The background poller's options; absent fields take the defaults. */
  datatype PollingOptions = PollingOptions(pollingInterval: Option<int>, timeout: Option<int>)

  /** What a background poll did: the notifications it emitted, the number of
      getResult calls, the durations it slept, the simulated elapsed time at
      the end, and whether it came to an end within the iteration bound. */
  datatype PollerRun = PollerRun(emitted: seq<Event>, fetches: nat, sleeps: seq<int>, elapsed: int, ended: bool)

  /** An answer after which polling goes on: a result still ANALYZING, or a
      `not_found` error (the job is not visible yet). */
  predicate KeepsPolling(answer: Result<DetectionResult, Thrown>) {
    || (answer.Success? && answer.value.status == ANALYZING)
    || (answer.Failure? && answer.error.Typed? && answer.error.err.code == NotFound)
  }

  /** The polling loop from its n-th call on, with `fuel` iterations left. */
  function PollLoop(getResult: ResultOracle, interval: int, timeout: int,
                    n: nat, elapsed: int, sleeps: seq<int>, fuel: nat): PollerRun
    decreases fuel
  {
    if elapsed >= timeout then
      PollerRun([ErrorEvent(Typed(TIMEOUT_ERROR))], n, sleeps, elapsed, true)
    else if fuel == 0 then
      PollerRun([], n, sleeps, elapsed, false)
    else
      var answer := getResult(n);
      if KeepsPolling(answer) then
        PollLoop(getResult, interval, timeout, n + 1, elapsed + interval, sleeps + [interval], fuel - 1)
      else if answer.Success? then
        PollerRun([ResultEvent(answer.value)], n + 1, sleeps, elapsed, true)
      else
        PollerRun([ErrorEvent(answer.error)], n + 1, sleeps, elapsed, true)
  }

  /** _pollForResults: a non-positive timeout is reported at once. */
  function BackgroundPoll(getResult: ResultOracle, interval: int, timeout: int, fuel: nat): PollerRun {
    if timeout <= 0 then PollerRun([ErrorEvent(Typed(TIMEOUT_ERROR))], 0, [], 0, true)
    else PollLoop(getResult, interval, timeout, 0, 0, [], fuel)
  }

  /** The notification a settled answer produces. */
  function Notification(answer: Result<DetectionResult, Thrown>): Event {
    match answer
    case Success(result) => ResultEvent(result)
    case Failure(error) => ErrorEvent(error)
  }

  /** The poll ended on the time budget: every call kept polling and the
      only notification is the `timeout` error. */
  predicate TimedOut(run: PollerRun) {
    run.emitted == [ErrorEvent(Typed(TIMEOUT_ERROR))] && |run.sleeps| == run.fetches && run.ended
  }

  /** The iteration bound ran out first (the source would still be polling). */
  predicate OutOfIterations(run: PollerRun) {
    run.emitted == [] && |run.sleeps| == run.fetches && !run.ended
  }

  /** The last call settled the poll, and its answer is the only notification. */
  predicate SettledBy(getResult: ResultOracle, run: PollerRun) {
    && run.fetches >= 1
    && |run.sleeps| == run.fetches - 1
    && !KeepsPolling(getResult(run.fetches - 1))
    && run.emitted == [Notification(getResult(run.fetches - 1))]
    && run.ended
  }

  /** One loop step on a keep-polling answer adds the interval to the
      elapsed time and sleeps once; a settled answer is emitted, alone. */
  lemma {:induction false} PollLoopShape(getResult: ResultOracle, interval: int, timeout: int,
                                         n: nat, elapsed: int, sleeps: seq<int>, fuel: nat)
    requires forall j :: 0 <= j < n ==> KeepsPolling(getResult(j))
    requires |sleeps| == n && elapsed == n * interval
    requires forall i :: 0 <= i < n ==> sleeps[i] == interval
    requires forall j :: 0 <= j < n ==> j * interval < timeout
    ensures var run := PollLoop(getResult, interval, timeout, n, elapsed, sleeps, fuel);
      && n <= run.fetches
      && |run.emitted| <= 1
      && (run.ended <==> |run.emitted| == 1)
      && (forall j :: 0 <= j < |run.sleeps| ==> KeepsPolling(getResult(j)))
      && (forall i :: 0 <= i < |run.sleeps| ==> run.sleeps[i] == interval)
      && run.elapsed == |run.sleeps| * interval
      // every call was made before the time budget ran out
      && (forall j :: 0 <= j < run.fetches ==> j * interval < timeout)
      // the two ways to end
      && (|| (TimedOut(run) && run.elapsed >= timeout)
          || (OutOfIterations(run) && run.elapsed < timeout)
          || SettledBy(getResult, run))
    decreases fuel
  {
    if elapsed < timeout && fuel > 0 && KeepsPolling(getResult(n)) {
      assert (n + 1) * interval == n * interval + interval;
      PollLoopShape(getResult, interval, timeout, n + 1, elapsed + interval, sleeps + [interval], fuel - 1);
    }
  }

  /** The background poll, declaratively: it emits at most one notification,
      exactly one when it ends; every call but the last kept polling; either
      the last answer settled and is the one notification (a result on the
      `result` channel, any other error on the `error` channel), or the time
      ran out and the notification is the `timeout` error, never both. A
      non-positive timeout gives the `timeout` error after zero calls. */
  lemma BackgroundPollEmitsOnce(getResult: ResultOracle, interval: int, timeout: int, fuel: nat)
    ensures var run := BackgroundPoll(getResult, interval, timeout, fuel);
      && |run.emitted| <= 1
      && (run.ended <==> |run.emitted| == 1)
      && (timeout <= 0 ==> run.emitted == [ErrorEvent(Typed(TIMEOUT_ERROR))] && run.fetches == 0)
      && (forall j :: 0 <= j < |run.sleeps| ==> KeepsPolling(getResult(j)))
      && (forall i :: 0 <= i < |run.sleeps| ==> run.sleeps[i] == interval)
      && (timeout > 0 ==> run.elapsed == |run.sleeps| * interval)
      && (forall j :: 0 <= j < run.fetches ==> j * interval < timeout)
      && (TimedOut(run) || OutOfIterations(run) || SettledBy(getResult, run))
  {
    if timeout > 0 {
      PollLoopShape(getResult, interval, timeout, 0, 0, [], fuel);
    }
  }

  /** With a positive interval the elapsed time grows on every call that does
      not end the poll, so at most ceil(timeout / interval) calls are made. */
  lemma BackgroundPollCallBound(getResult: ResultOracle, interval: int, timeout: int, fuel: nat)
    requires interval > 0 && timeout > 0
    ensures BackgroundPoll(getResult, interval, timeout, fuel).fetches <= (timeout + interval - 1) / interval
  {
    BackgroundPollEmitsOnce(getResult, interval, timeout, fuel);
    var f := BackgroundPoll(getResult, interval, timeout, fuel).fetches;
    if f > 0 {
      assert (f - 1) * interval < timeout;
      assert f * interval <= timeout + interval - 1;
      DivisionBound(f, interval, timeout + interval - 1);
    }
  }

  lemma DivisionBound(f: nat, d: int, x: int)
    requires d > 0 && f * d <= x
    ensures f <= x / d
  {
    var q := x / d;
    assert x < (q + 1) * d;
    assert (f - q - 1) * d == f * d - (q + 1) * d;
    NegativeFactor(f - q - 1, d);
  }

  lemma NegativeFactor(a: int, d: int)
    requires d > 0 && a * d < 0
    ensures a < 0
  {
  }

  /** With a positive interval the loop always ends once the iteration
      bound covers the time budget: the bound stands in for nothing. */
  lemma {:induction false} PollLoopEndsWithEnoughFuel(getResult: ResultOracle, interval: int, timeout: int,
                                                      n: nat, elapsed: int, sleeps: seq<int>, fuel: nat)
    requires interval > 0
    requires elapsed + fuel * interval >= timeout
    ensures PollLoop(getResult, interval, timeout, n, elapsed, sleeps, fuel).ended
    decreases fuel
  {
    if elapsed < timeout && fuel > 0 && KeepsPolling(getResult(n)) {
      assert elapsed + interval + (fuel - 1) * interval == elapsed + fuel * interval;
      PollLoopEndsWithEnoughFuel(getResult, interval, timeout, n + 1, elapsed + interval, sleeps + [interval], fuel - 1);
    }
  }

  lemma BackgroundPollEnds(getResult: ResultOracle, interval: int, timeout: int, fuel: nat)
    requires interval > 0 && fuel * interval >= timeout
    ensures BackgroundPoll(getResult, interval, timeout, fuel).ended
    ensures |BackgroundPoll(getResult, interval, timeout, fuel).emitted| == 1
  {
    if timeout > 0 {
      PollLoopEndsWithEnoughFuel(getResult, interval, timeout, 0, 0, [], fuel);
    }
    BackgroundPollEmitsOnce(getResult, interval, timeout, fuel);
  }

  /** A job that is not visible on the first call, ANALYZING on the second
      and settled on the third, polled every 100 ms for up to 1000 ms: three
      calls, two sleeps, 200 ms elapsed and the settled result as the one
      notification. */
  lemma BackgroundPollScenario(settled: DetectionResult)
    requires settled.status != ANALYZING
    ensures var getResult: ResultOracle := (n: nat) =>
        if n == 0 then Failure(Typed(RDError("Resource not found: ", NotFound)))
        else if n == 1 then Success(settled.(status := ANALYZING))
        else Success(settled);
      BackgroundPoll(getResult, 100, 1000, 10) == PollerRun([ResultEvent(settled)], 3, [100, 100], 200, true)
  {
    var getResult: ResultOracle := (n: nat) =>
      if n == 0 then Failure(Typed(RDError("Resource not found: ", NotFound)))
      else if n == 1 then Success(settled.(status := ANALYZING))
      else Success(settled);
    assert KeepsPolling(getResult(0)) && KeepsPolling(getResult(1)) && !KeepsPolling(getResult(2));
    assert PollLoop(getResult, 100, 1000, 2, 200, [100, 100], 8) == PollerRun([ResultEvent(settled)], 3, [100, 100], 200, true);
    assert [] + [100] + [100] == [100, 100];
  }

  class RealityDefender {
    const apiKey: string
    /** The client's base URL. */
    const baseUrl: string
    /** Every notification emitted so far, in order. */
    var events: seq<Event>

    ghost predicate Valid()
      reads this
    {
      apiKey != "" && baseUrl != ""
    }

    constructor (config: Config)
      requires config.apiKey != ""
      ensures Valid()
      ensures apiKey == config.apiKey && baseUrl == Client.BaseUrl(config.baseUrl) && events == []
    {
      apiKey := config.apiKey;
      baseUrl := Client.BaseUrl(config.baseUrl);
      events := [];
    }

    /** `new RealityDefender(config)`: refuses a missing API key. */
    static method Create(config: Config) returns (sdk: RealityDefender?, error: Option<RDError>)
      ensures config.apiKey == "" ==>
        sdk == null && error == Some(RDError("API key is required", Unauthorized))
      ensures config.apiKey != "" ==>
        sdk != null && fresh(sdk) && error == None && sdk.Valid() &&
        sdk.apiKey == config.apiKey && sdk.baseUrl == Client.BaseUrl(config.baseUrl) && sdk.events == []
    {
      if config.apiKey == "" {
        return null, Some(RDError("API key is required", Unauthorized));
      }
      sdk := new RealityDefender(config);
      error := None;
    }

    /** upload: the file upload's outcome with SDK errors passed through and
        any other error wrapped once as `upload_failed`. */
    function Upload(uploaded: Result<UploadResult, Thrown>): (r: Result<UploadResult, RDError>)
      ensures uploaded.Success? ==> r == Success(uploaded.value)
      ensures uploaded.Failure? && uploaded.error.Typed? ==> r == Failure(uploaded.error.err)
      ensures uploaded.Failure? && uploaded.error.Untyped? ==>
        r == Failure(RDError("Upload failed: " + uploaded.error.message, UploadFailed))
    {
      match uploaded
      case Success(u) => Success(u)
      case Failure(t) => Failure(WrapOnce(t, "Upload failed: ", UploadFailed))
    }

    /** getResult: the bounded poller with the caller's options. */
    method GetResult(transport: MediaTransport, requestId: string, options: PollOptions)
      returns (run: Run<DetectionResult>)
      ensures run == ResultPoll(transport, requestId, options)
    {
      run := GetDetectionResult(transport, requestId, options);
    }

    /** detect: upload, then fetch the result for the upload's request
        identifier; a failed upload is thrown and nothing is fetched. */
    method Detect(uploaded: Result<UploadResult, Thrown>, transport: MediaTransport, options: PollOptions)
      returns (run: Run<DetectionResult>)
      ensures Upload(uploaded).Failure? ==> run == Run(Failure(Typed(Upload(uploaded).error)), 0, [])
      ensures Upload(uploaded).Success? ==>
        run == ResultPoll(transport, Upload(uploaded).value.requestId, options)
    {
      var upload := Upload(uploaded);
      if upload.Failure? {
        return Run(Failure(Typed(upload.error)), 0, []);
      }
      run := GetResult(transport, upload.value.requestId, options);
    }

    /** pollForResults: fills in the default interval and timeout. */
    method PollForResults(requestId: string, options: PollingOptions, getResult: ResultOracle, fuel: nat)
      returns (run: PollerRun)
      modifies this
      requires Valid()
      ensures Valid()
      ensures run == BackgroundPoll(getResult,
                                    options.pollingInterval.GetOr(Constants.DEFAULT_POLLING_INTERVAL),
                                    options.timeout.GetOr(Constants.DEFAULT_TIMEOUT), fuel)
      ensures events == old(events) + run.emitted
    {
      var interval := options.pollingInterval.GetOr(Constants.DEFAULT_POLLING_INTERVAL);
      var timeout := options.timeout.GetOr(Constants.DEFAULT_TIMEOUT);
      run := PollForResultsLoop(requestId, interval, timeout, getResult, fuel);
    }

    /** _pollForResults, running at most `fuel` iterations; each call of
        `getResult` stands for `this.getResult(requestId)`. */
    method PollForResultsLoop(requestId: string, interval: int, timeout: int, getResult: ResultOracle, fuel: nat)
      returns (run: PollerRun)
      modifies this
      requires Valid()
      ensures Valid()
      ensures run == BackgroundPoll(getResult, interval, timeout, fuel)
      ensures events == old(events) + run.emitted
    {
      var elapsed := 0;
      var isCompleted := false;
      if timeout <= 0 {
        events := events + [ErrorEvent(Typed(TIMEOUT_ERROR))];
        return PollerRun([ErrorEvent(Typed(TIMEOUT_ERROR))], 0, [], 0, true);
      }
      var calls: nat := 0;
      var sleeps: seq<int> := [];
      var left := fuel;
      var emitted: seq<Event> := [];
      while !isCompleted && elapsed < timeout && left > 0
        invariant events == old(events) + emitted
        invariant !isCompleted ==>
          (emitted == [] &&
           BackgroundPoll(getResult, interval, timeout, fuel) == PollLoop(getResult, interval, timeout, calls, elapsed, sleeps, left))
        invariant isCompleted ==> BackgroundPoll(getResult, interval, timeout, fuel) == PollerRun(emitted, calls, sleeps, elapsed, true)
        decreases left
      {
        var answer := getResult(calls);
        calls := calls + 1;
        if answer.Success? {
          if answer.value.status == ANALYZING {
            elapsed := elapsed + interval;
            sleeps := sleeps + [interval];
          } else {
            isCompleted := true;
            emitted := [ResultEvent(answer.value)];
            events := events + emitted;
          }
        } else if answer.error.Typed? && answer.error.err.code == NotFound {
          elapsed := elapsed + interval;
          sleeps := sleeps + [interval];
        } else {
          isCompleted := true;
          emitted := [ErrorEvent(answer.error)];
          events := events + emitted;
        }
        left := left - 1;
      }
      if !isCompleted && elapsed >= timeout {
        emitted := [ErrorEvent(Typed(TIMEOUT_ERROR))];
        events := events + emitted;
        isCompleted := true;
      }
      run := PollerRun(emitted, calls, sleeps, elapsed, isCompleted);
    }
  }
}
