/**
 * The dashboard's test registry: `TestManager` keeps one `TestState` per
 * test id, starts tests from a validated configuration, walks each test
 * through its phases, collects statistics into a bounded history, cancels
 * tests and forgets finished ones.
 *
 * Times are whole seconds supplied by the caller (`datetime.now()` is a
 * parameter); remote calls to the cyperf service become their replies,
 * passed in; the background threads are represented by the sets of test ids
 * that have one.
 */
module TestManagement {
  import opened Wrappers
  import opened Values
  import opened DataProcessor

  /** `TestStatus`. */
  datatype TestStatus =
    | Idle | Initializing | StartingServer | StartingClient | Running | Stopping
    | Completed | Error | Cancelled

  /** The `.value` string of each status. */
  function StatusValue(s: TestStatus): string {
    match s
    case Idle => "idle"
    case Initializing => "initializing"
    case StartingServer => "starting_server"
    case StartingClient => "starting_client"
    case Running => "running"
    case Stopping => "stopping"
    case Completed => "completed"
    case Error => "error"
    case Cancelled => "cancelled"
  }

  /** COMPLETED, ERROR and CANCELLED: the statuses a test never leaves by itself. */
  predicate Finished(s: TestStatus) {
    s == Completed || s == Error || s == Cancelled
  }

  /** A request the workflow sends to the cyperf service. */
  datatype ServiceCall = StartServerCall | StartClientCall | StopServerCall

  /** Why a workflow stopped with ERROR; `str(e)` of the exception it raised. */
  datatype WorkflowError =
    | ConversionFailed(failure: Failure)                 // `convert_web_config_to_api` raised
    | RequestFailed(call: ServiceCall, message: string)  // the request raised a RequestException with this text
    | ServerStartFailed(error: Scalar)                   // the server reply carried 'error'
    | NoApiTestId                                        // the server reply had no truthy 'test_id'
    | ClientStartFailed(error: Scalar)                   // the client reply carried 'error'

  /** A reply of the cyperf service: a dict of scalar values. */
  type ServiceReply = map<string, Scalar>

  /**
   * What a request to the cyperf service gives: its reply, or the text of the
   * RequestException raised on a timeout, a connection failure or an HTTP
   * error status.
   */
  type ServiceAnswer = Result<ServiceReply, string>

  /**
   * `TestState`; the progress percentage (a float) is left out, and
   * `currentStats` is `None` while it is still the empty dict.
   */
  datatype TestState = TestState(
    testId: string,
    status: TestStatus,
    config: Config,
    startTime: Option<int>,
    endTime: Option<int>,
    duration: int,
    elapsedTime: int,
    currentStats: Option<StatsView>,
    statsHistory: seq<Json>,
    errorMessage: Option<WorkflowError>,
    serverStarted: bool,
    clientStarted: bool)

  /** The state `start_test` records for a new test. */
  function InitialState(testId: string, config: Config, duration: int): TestState {
    TestState(testId, Initializing, config, None, None, duration, 0, None, [], None, false, false)
  }

  /** `int(config.get('duration', 60))`. */
  function StartDuration(config: Config): Result<int, Failure> {
    IntField(config, "duration", 60)
  }

  /** A configuration that passes validation always yields its duration, so starting never raises. */
  lemma ValidConfigHasDuration(config: Config)
    requires ValidationOf(config).Ok? && ValidationOf(config).value.valid
    ensures "duration" in config && PyInt(config["duration"]).Some?
    ensures StartDuration(config) == Ok(PyInt(config["duration"]).value)
  {
    ValidationVerdict(config);
    assert RequiredFields[1] == "duration";
    assert NumericRanges[0].field == "duration";
  }

  // ---------------------------------------------------------------------------
  // Statistics history

  const HistoryLimit := 1000
  const HistoryKept := 500
  const RecentCount := 50

  /** `r` is what remains of `s` after dropping some of its oldest entries. */
  predicate SuffixOf(r: seq<Json>, s: seq<Json>) {
    |r| <= |s| && r == s[|s| - |r|..]
  }

  /** Appending one snapshot; past 1000 entries only the newest 500 are kept, in order. */
  function AppendHistory(history: seq<Json>, stats: Json): (r: seq<Json>)
    ensures |history| <= HistoryLimit ==> |r| <= HistoryLimit
    ensures |r| > 0 && r[|r| - 1] == stats
    ensures SuffixOf(r, history + [stats])
    ensures |history| + 1 > HistoryLimit ==> |r| == HistoryKept
    ensures |history| + 1 <= HistoryLimit ==> r == history + [stats]
  {
    var grown := history + [stats];
    if |grown| > HistoryLimit then grown[|grown| - HistoryKept..] else grown
  }

  /** Appending several snapshots in turn. */
  function AppendAll(history: seq<Json>, snapshots: seq<Json>): seq<Json>
    decreases |snapshots|
  {
    if snapshots == [] then history
    else AppendAll(AppendHistory(history, snapshots[0]), snapshots[1..])
  }

  /** However many snapshots arrive, a history that starts within the limit stays within it. */
  lemma {:induction false} HistoryStaysBounded(history: seq<Json>, snapshots: seq<Json>)
    requires |history| <= HistoryLimit
    ensures |AppendAll(history, snapshots)| <= HistoryLimit
    decreases |snapshots|
  {
    if snapshots != [] {
      HistoryStaysBounded(AppendHistory(history, snapshots[0]), snapshots[1..]);
    }
  }

  /** `history[-50:]`. */
  function Recent(history: seq<Json>): (r: seq<Json>)
    ensures |r| == if |history| < RecentCount then |history| else RecentCount
    ensures SuffixOf(r, history)
  {
    if |history| <= RecentCount then history else history[|history| - RecentCount..]
  }

  // ---------------------------------------------------------------------------
  // Replies

  /** What `start_test` returns when it does not raise. */
  datatype StartReply =
    | Rejected(errors: seq<string>, warnings: seq<string>)   // 'Configuration validation failed'
    | Started(testId: string, warnings: seq<string>)          // 'Test started successfully'

  /** What `start_test` returns, or the exception it raises. */
  function StartOutcome(config: Config, newId: string): Result<StartReply, Failure> {
    var validation :- ValidationOf(config);
    if !validation.valid then Ok(Rejected(validation.errors, validation.warnings))
    else
      var duration :- StartDuration(config);
      Ok(Started(newId, validation.warnings))
  }

  /** The state registered for a started test. */
  function NewTest(config: Config, newId: string): TestState {
    InitialState(newId, config, if StartDuration(config).Ok? then StartDuration(config).value else 0)
  }

  /**
   * An invalid configuration is rejected with exactly the validation's errors
   * and warnings; a valid one always starts, with the validation's warnings,
   * and its test records the configured duration.
   */
  lemma StartOutcomeMeaning(config: Config, newId: string)
    requires ValidationOf(config).Ok?
    ensures var v := ValidationOf(config).value;
      && (!v.valid ==> StartOutcome(config, newId) == Ok(Rejected(v.errors, v.warnings)))
      && (v.valid ==> StartOutcome(config, newId) == Ok(Started(newId, v.warnings)))
      && (v.valid ==> "duration" in config && Some(NewTest(config, newId).duration) == PyInt(config["duration"]))
      && NewTest(config, newId).status == Initializing && NewTest(config, newId).statsHistory == []
  {
    if ValidationOf(config).value.valid {
      ValidConfigHasDuration(config);
    }
  }

  /** A `{'status': ..., 'message': ...}` reply. */
  datatype Reply = Success(message: string) | Failed(message: string)

  function NotFoundMessage(testId: string): string { "Test " + testId + " not found" }

  function FinishedMessage(testId: string): string { "Test " + testId + " is already finished" }

  function CancelledMessage(testId: string): string { "Test " + testId + " cancelled successfully" }

  /** The reply of `get_test_status`. */
  datatype StatusInfo = StatusInfo(
    testId: string, testStatus: string, testType: Scalar, elapsedTime: int, duration: int,
    startTime: Option<int>, endTime: Option<int>, errorMessage: Option<WorkflowError>,
    currentStats: Option<StatsView>)

  /** The success reply of `get_test_stats`. */
  datatype StatsInfo = StatsInfo(
    testId: string, testType: Scalar, currentStats: Option<StatsView>, statsHistory: seq<Json>,
    chartData: ChartData)

  /** `get_test_status` on the registry `tests`. */
  function StatusOf(tests: map<string, TestState>, testId: string): (r: Result<StatusInfo, string>)
    ensures r.Err? <==> testId !in tests
    ensures r.Err? ==> r.error == NotFoundMessage(testId)
    ensures r.Ok? ==>
      && r.value.testId == testId
      && r.value.testStatus == StatusValue(tests[testId].status)
      && r.value.duration == tests[testId].duration
      && r.value.testType == Get(tests[testId].config, "test_type", Str("throughput"))
  {
    if testId !in tests then Err(NotFoundMessage(testId))
    else
      var t := tests[testId];
      Ok(StatusInfo(testId, StatusValue(t.status), Get(t.config, "test_type", Str("throughput")),
        t.elapsedTime, t.duration, t.startTime, t.endTime, t.errorMessage, t.currentStats))
  }

  // ---------------------------------------------------------------------------
  // Cancellation and clean-up, on the registry as a value

  /** The reply of `cancel_test`. */
  function CancelReply(tests: map<string, TestState>, testId: string): Reply {
    if testId !in tests then Failed(NotFoundMessage(testId))
    else if Finished(tests[testId].status) then Failed(FinishedMessage(testId))
    else Success(CancelledMessage(testId))
  }

  /** The registry after `cancel_test` at time `now`. */
  function AfterCancel(tests: map<string, TestState>, testId: string, now: int): map<string, TestState> {
    if CancelReply(tests, testId).Success? then
      tests[testId := tests[testId].(status := Cancelled, endTime := Some(now))]
    else tests
  }

  /**
   * Cancelling succeeds exactly for a known test that has not finished; it then
   * marks that test CANCELLED at `now`, and every other test, and every
   * refused cancellation, leaves the registry as it was.
   */
  lemma CancelOutcome(tests: map<string, TestState>, testId: string, now: int)
    ensures CancelReply(tests, testId).Success? <==> testId in tests && !Finished(tests[testId].status)
    ensures var after := AfterCancel(tests, testId, now);
      && after.Keys == tests.Keys
      && (forall id :: id in tests && id != testId ==> after[id] == tests[id])
      && (CancelReply(tests, testId).Failed? ==> after == tests)
      && (CancelReply(tests, testId).Success? ==>
        after[testId].status == Cancelled && after[testId].endTime == Some(now)
        && after[testId].statsHistory == tests[testId].statsHistory)
  {
  }

  /** A second cancellation of the same test is refused as already finished. */
  lemma CancelTwice(tests: map<string, TestState>, testId: string, now: int)
    requires testId in tests
    ensures CancelReply(AfterCancel(tests, testId, now), testId) == Failed(FinishedMessage(testId))
  {
  }

  /** A finished test whose end lies before the cutoff. */
  predicate Expired(t: TestState, cutoff: int) {
    Finished(t.status) && t.endTime.Some? && t.endTime.value < cutoff
  }

  /** The ids `cleanup_completed_tests` removes. */
  function ExpiredIds(tests: map<string, TestState>, cutoff: int): set<string> {
    set id | id in tests && Expired(tests[id], cutoff)
  }

  /** The registry after `cleanup_completed_tests`. */
  function Survivors(tests: map<string, TestState>, cutoff: int): map<string, TestState> {
    map id | id in tests && !Expired(tests[id], cutoff) :: tests[id]
  }

  /**
   * Clean-up keeps every running or unfinished test and every recent one
   * untouched, removes exactly the expired ones, and a second clean-up with
   * the same cutoff changes nothing.
   */
  lemma CleanupOutcome(tests: map<string, TestState>, cutoff: int)
    ensures Survivors(tests, cutoff).Keys == tests.Keys - ExpiredIds(tests, cutoff)
    ensures forall id :: id in tests && !Finished(tests[id].status) ==>
      id in Survivors(tests, cutoff) && Survivors(tests, cutoff)[id] == tests[id]
    ensures Survivors(Survivors(tests, cutoff), cutoff) == Survivors(tests, cutoff)
  {
    var once := Survivors(tests, cutoff);
    assert Survivors(once, cutoff) == once;
  }

  /** A registry holding exactly the unexpired tests, unchanged, is what clean-up leaves. */
  lemma SurvivorsByMembership(tests: map<string, TestState>, cutoff: int, after: map<string, TestState>)
    requires forall id :: id in after <==> id in tests && id !in ExpiredIds(tests, cutoff)
    requires forall id :: id in after ==> after[id] == tests[id]
    ensures after == Survivors(tests, cutoff)
  {
    assert after.Keys == Survivors(tests, cutoff).Keys;
  }

  lemma RemovedByMembership(flags: map<string, bool>, gone: set<string>, after: map<string, bool>)
    requires forall id :: id in after <==> id in flags && id !in gone
    requires forall id :: id in after ==> after[id] == flags[id]
    ensures after == flags - gone
  {
    assert after.Keys == (flags - gone).Keys;
  }

  /** A test cancelled at `now` is removed by any clean-up whose cutoff is later. */
  lemma CancelledThenCleanedUp(tests: map<string, TestState>, testId: string, now: int, cutoff: int)
    requires testId in tests && !Finished(tests[testId].status)
    requires now < cutoff
    ensures testId !in Survivors(AfterCancel(tests, testId, now), cutoff)
  {
  }

  // ---------------------------------------------------------------------------
  // The workflow's phases

  /** The statuses a workflow run assigns, in order, when nothing fails. */
  const HappyPath: seq<TestStatus> := [StartingServer, StartingClient, Running, Stopping, Completed]

  /** The exception, if any, that ends the start-up phases of the workflow. */
  function LaunchError(config: Config, server: ServiceAnswer, client: ServiceAnswer): Option<WorkflowError> {
    match ConvertWebConfigToApi(config)
    case Err(f) => Some(ConversionFailed(f))
    case Ok(_) => ServiceError(server, client)
  }

  /**
   * The exception, if any, raised while starting the server and then the
   * client; the client request is sent only once the server has started.
   */
  function ServiceError(server: ServiceAnswer, client: ServiceAnswer): Option<WorkflowError> {
    match server
    case Err(text) => Some(RequestFailed(StartServerCall, text))
    case Ok(reply) =>
      if "error" in reply then Some(ServerStartFailed(reply["error"]))
      else if !PyTruthy(Get(reply, "test_id", Null)) then Some(NoApiTestId)
      else match client
        case Err(text) => Some(RequestFailed(StartClientCall, text))
        case Ok(clientReply) =>
          if "error" in clientReply then Some(ClientStartFailed(clientReply["error"])) else None
  }

  /**
   * The exception, if any, that ends the stop phases: the stop request is sent
   * only when the configuration has a truthy `server_ip`.
   */
  function StopError(config: Config, stop: ServiceAnswer): Option<WorkflowError> {
    if PyTruthy(Get(config, "server_ip", Null)) && stop.Err? then Some(RequestFailed(StopServerCall, stop.error))
    else None
  }

  /** How many of the happy-path statuses a run that fails with `e` has assigned. */
  function PhasesBefore(e: WorkflowError): nat {
    match e
    case ConversionFailed(_) => 0
    case RequestFailed(StartServerCall, _) => 1
    case ServerStartFailed(_) => 1
    case NoApiTestId => 1
    case RequestFailed(StartClientCall, _) => 2
    case ClientStartFailed(_) => 2
    case RequestFailed(StopServerCall, _) => 4
  }

  /** The statuses a whole run assigns when it ends with `e`. */
  function TraceOf(e: Option<WorkflowError>): seq<TestStatus> {
    match e
    case None => [StartingServer, StartingClient, Running, Stopping, Completed]
    case Some(ConversionFailed(_)) => [Error]
    case Some(RequestFailed(StartServerCall, _)) => [StartingServer, Error]
    case Some(ServerStartFailed(_)) => [StartingServer, Error]
    case Some(NoApiTestId) => [StartingServer, Error]
    case Some(RequestFailed(StartClientCall, _)) => [StartingServer, StartingClient, Error]
    case Some(ClientStartFailed(_)) => [StartingServer, StartingClient, Error]
    case Some(RequestFailed(StopServerCall, _)) => [StartingServer, StartingClient, Running, Stopping, Error]
  }

  /** A failure of the stop phases, as opposed to one of the start-up phases. */
  predicate StopFailure(e: WorkflowError) {
    e.RequestFailed? && e.call == StopServerCall
  }

  /** The statuses the start-up phases assign when the run ends with `e`. */
  function LaunchTrace(e: Option<WorkflowError>): seq<TestStatus> {
    var t := TraceOf(e);
    if e.None? || StopFailure(e.value) then t[..3] else t
  }

  /**
   * A run walks the happy path in order: a failing one stops at ERROR after as
   * many of its statuses as it reached, a successful one ends COMPLETED; a
   * failure of the start-up phases never gets past RUNNING, and a run whose
   * start-up succeeds is RUNNING when they end and then STOPPING.
   */
  lemma TraceOrder(e: Option<WorkflowError>)
    ensures var t := TraceOf(e);
      && |t| > 0
      && (e.None? <==> t[|t| - 1] == Completed)
      && (e.Some? <==> t[|t| - 1] == Error)
      && (e.Some? ==> |t| == PhasesBefore(e.value) + 1)
      && t[..|t| - 1] == HappyPath[..|t| - 1]
      && Error !in t[..|t| - 1]
      && (e.None? ==> t == HappyPath)
      && (e.Some? && !StopFailure(e.value) ==> |t| <= 3 && LaunchTrace(e) == t)
      && (e.None? || StopFailure(e.value) ==>
        LaunchTrace(e) == HappyPath[..3] && t[3] == Stopping && LaunchTrace(None) + t[3..] == t)
  {
    var t := TraceOf(e);
    match e
    case None =>
      assert t == HappyPath;
    case Some(f) =>
      assert t[..|t| - 1] == HappyPath[..PhasesBefore(f)];
  }

  /**
   * What the start-up phases do to a test's state: `trace` lists the statuses
   * assigned, in order, and the last is the test's status; a failure records
   * its reason and the end time, a success the start time and both started
   * flags. The history and the duration are untouched.
   */
  predicate Launched(state: TestState, server: ServiceAnswer, client: ServiceAnswer, now: int,
    trace: seq<TestStatus>, next: TestState)
  {
    LaunchedWith(LaunchError(state.config, server, client), state, now, trace, next)
  }

  /** `Launched`, for start-up phases that end with `e`. */
  predicate LaunchedWith(e: Option<WorkflowError>, state: TestState, now: int, trace: seq<TestStatus>, next: TestState) {
    && trace == LaunchTrace(e)
    && next.status == trace[|trace| - 1]
    && next.testId == state.testId && next.duration == state.duration
    && next.statsHistory == state.statsHistory
    && (e.Some? ==> next.status == Error && next.errorMessage == e && next.endTime == Some(now))
    && (e.None? ==>
      && next.status == Running && next.errorMessage == state.errorMessage
      && next.startTime == Some(now) && next.serverStarted && next.clientStarted)
  }

  /**
   * `_execute_test_workflow` up to the wait for the test's duration: convert
   * the configuration, start the server, then the client, mark the test
   * RUNNING and read its snapshot interval. An exception on the way, a raising
   * request among them, marks the test ERROR with its reason and end time.
   */
  method RunLaunch(state: TestState, server: ServiceAnswer, client: ServiceAnswer, now: int)
    returns (next: TestState, ghost trace: seq<TestStatus>)
    ensures Launched(state, server, client, now, trace, next)
  {
    var converted := ConvertWebConfigToApi(state.config);
    if converted.Err? {
      next := state.(status := Error, errorMessage := Some(ConversionFailed(converted.error)), endTime := Some(now));
      trace := [Error];
    } else {
      next, trace := StartServices(state, server, client, now);
    }
  }

  /**
   * The phases of the workflow after the conversion: start the server, then
   * the client, and mark the test RUNNING; the snapshot interval that
   * `_start_stats_collection` reads with `int()` always parses here, since the
   * conversion already parsed the same value.
   */
  method StartServices(state: TestState, server: ServiceAnswer, client: ServiceAnswer, now: int)
    returns (next: TestState, ghost trace: seq<TestStatus>)
    ensures LaunchedWith(ServiceError(server, client), state, now, trace, next)
  {
    next := state.(status := StartingServer);
    trace := [StartingServer];
    var failure: Option<WorkflowError> := None;
    if server.Err? {
      failure := Some(RequestFailed(StartServerCall, server.error));
    } else if "error" in server.value {
      failure := Some(ServerStartFailed(server.value["error"]));
    } else {
      var apiTestId := Get(server.value, "test_id", Null);
      if !PyTruthy(apiTestId) {
        failure := Some(NoApiTestId);
      } else {
        next := next.(config := next.config["api_test_id" := apiTestId], serverStarted := true);
        next := next.(status := StartingClient);
        trace := trace + [StartingClient];
        if client.Err? {
          failure := Some(RequestFailed(StartClientCall, client.error));
        } else if "error" in client.value {
          failure := Some(ClientStartFailed(client.value["error"]));
        } else {
          next := next.(clientStarted := true, status := Running, startTime := Some(now));
          trace := trace + [Running];
        }
      }
    }
    if failure.Some? {
      next := next.(status := Error, errorMessage := failure, endTime := Some(now));
      trace := trace + [Error];
    }
  }

  /** `_stop_stats_collection.get(test_id, False)`. */
  predicate StopRequested(flags: map<string, bool>, testId: string) {
    testId in flags && flags[testId]
  }

  // ---------------------------------------------------------------------------
  // The registry

  class TestManager {
    /** `active_tests`. */
    var activeTests: map<string, TestState>
    /** The ids with an entry in `stats_collection_threads`. */
    var statsThreads: set<string>
    /** `_stop_stats_collection`. */
    var stopFlags: map<string, bool>

    constructor ()
      ensures activeTests == map[] && statsThreads == {} && stopFlags == map[]
    {
      activeTests := map[];
      statsThreads := {};
      stopFlags := map[];
    }

    /**
     * `start_test`; `newId` is the fresh `uuid4` it draws. Only a started
     * test is registered, as INITIALIZING (see `StartOutcomeMeaning`).
     */
    method StartTest(config: Config, newId: string) returns (r: Result<StartReply, Failure>)
      modifies this`activeTests
      ensures r == StartOutcome(config, newId)
      ensures activeTests == if r.Ok? && r.value.Started? then old(activeTests)[newId := NewTest(config, newId)]
        else old(activeTests)
    {
      var validated := ValidateTestConfig(config);
      if validated.Err? {
        return Err(validated.error);
      }
      var validation := validated.value;
      if !validation.valid {
        return Ok(Rejected(validation.errors, validation.warnings));
      }
      var duration := StartDuration(config);
      if duration.Err? {
        return Err(duration.error);
      }
      activeTests := activeTests[newId := InitialState(newId, config, duration.value)];
      r := Ok(Started(newId, validation.warnings));
    }

    /**
     * `_execute_test_workflow` up to the wait for the test's duration (see
     * `RunLaunch`); the statistics collection starts with its stop flag down
     * when the start-up succeeds, and an exception raises the stop flag.
     */
    method LaunchWorkflow(testId: string, server: ServiceAnswer, client: ServiceAnswer, now: int)
      returns (ghost trace: seq<TestStatus>, ghost next: TestState)
      requires testId in activeTests
      modifies this
      ensures Launched(old(activeTests[testId]), server, client, now, trace, next)
      ensures activeTests == old(activeTests)[testId := next]
      ensures LaunchError(old(activeTests[testId].config), server, client).Some? ==>
        stopFlags == old(stopFlags)[testId := true] && statsThreads == old(statsThreads)
      ensures LaunchError(old(activeTests[testId].config), server, client).None? ==>
        stopFlags == old(stopFlags)[testId := false] && statsThreads == old(statsThreads) + {testId}
    {
      var state;
      state, trace := RunLaunch(activeTests[testId], server, client, now);
      next := state;
      if state.status == Error {
        // `_cleanup_test`; stopping the remote server is a call into the service
        stopFlags := stopFlags[testId := true];
      } else {
        stopFlags := stopFlags[testId := false];
        statsThreads := statsThreads + {testId};
      }
      activeTests := activeTests[testId := state];
    }

    /**
     * The end of `_execute_test_workflow`, once the wait is over: the test
     * becomes STOPPING and its statistics collection is told to stop; when the
     * configuration names a server, the stop request `stop` is sent. The test
     * then becomes COMPLETED at `now`, or ERROR with the request's text if
     * that request raised. The status it had is overwritten, so a test
     * cancelled during the wait also ends COMPLETED.
     */
    method FinishWorkflow(testId: string, stop: ServiceAnswer, now: int) returns (ghost trace: seq<TestStatus>)
      requires testId in activeTests
      modifies this`activeTests, this`stopFlags
      ensures var before := old(activeTests[testId]);
        var e := StopError(before.config, stop);
        && trace == TraceOf(e)[3..]
        && activeTests == old(activeTests)[testId :=
          if e.None? then before.(status := Completed, endTime := Some(now))
          else before.(status := Error, errorMessage := e, endTime := Some(now))]
      ensures stopFlags == old(stopFlags)[testId := true]
    {
      var state := activeTests[testId];
      state := state.(status := Stopping);
      trace := [Stopping];
      stopFlags := stopFlags[testId := true];
      var serverIp := Get(state.config, "server_ip", Null);
      if PyTruthy(serverIp) && stop.Err? {
        state := state.(status := Error, errorMessage := Some(RequestFailed(StopServerCall, stop.error)), endTime := Some(now));
        trace := trace + [Error];
        // `_cleanup_test`: the stop flag is already raised, and its own stop request is caught
        stopFlags := stopFlags[testId := true];
      } else {
        state := state.(status := Completed, endTime := Some(now));
        trace := trace + [Completed];
      }
      activeTests := activeTests[testId := state];
    }

    /**
     * One pass of `collect_stats` for a test whose stop flag is down: the
     * snapshot is formatted, becomes the current statistics and joins the
     * bounded history. A formatting exception is caught and changes nothing;
     * so does a raised stop flag, which ends the collection.
     */
    method CollectStats(testId: string, stats: map<string, Json>, now: string)
      modifies this`activeTests
      ensures activeTests.Keys == old(activeTests.Keys)
      ensures forall id :: id in activeTests && id != testId ==> activeTests[id] == old(activeTests[id])
      ensures testId in activeTests ==>
        var before := old(activeTests[testId]);
        var processed := FormatStatsForDisplay(Some(stats), now);
        if StopRequested(old(stopFlags), testId) || processed.Err? then activeTests[testId] == before
        else activeTests[testId] == before.(currentStats := Some(processed.value),
          statsHistory := AppendHistory(before.statsHistory, Obj(stats)))
    {
      if testId !in activeTests || StopRequested(stopFlags, testId) {
        return;
      }
      var processed := FormatStatsForDisplay(Some(stats), now);
      if processed.Err? {
        return;
      }
      var state := activeTests[testId];
      state := state.(currentStats := Some(processed.value));
      var history := state.statsHistory + [Obj(stats)];
      if |history| > HistoryLimit {
        history := history[|history| - HistoryKept..];
      }
      activeTests := activeTests[testId := state.(statsHistory := history)];
    }

    /** `cancel_test` at time `now`. */
    method CancelTest(testId: string, now: int) returns (r: Reply)
      modifies this`activeTests, this`stopFlags
      ensures r == CancelReply(old(activeTests), testId)
      ensures activeTests == AfterCancel(old(activeTests), testId, now)
      ensures stopFlags == if r.Success? then old(stopFlags)[testId := true] else old(stopFlags)
    {
      if testId !in activeTests {
        return Failed(NotFoundMessage(testId));
      }
      var state := activeTests[testId];
      if state.status == Completed || state.status == Error || state.status == Cancelled {
        return Failed(FinishedMessage(testId));
      }
      activeTests := activeTests[testId := state.(status := Cancelled, endTime := Some(now))];
      // `_cleanup_test`
      stopFlags := stopFlags[testId := true];
      r := Success(CancelledMessage(testId));
    }

    /** `get_test_status`. */
    method GetTestStatus(testId: string) returns (r: Result<StatusInfo, string>)
      ensures r == StatusOf(activeTests, testId)
    {
      if testId !in activeTests {
        return Err(NotFoundMessage(testId));
      }
      var t := activeTests[testId];
      r := Ok(StatusInfo(testId, StatusValue(t.status), Get(t.config, "test_type", Str("throughput")),
        t.elapsedTime, t.duration, t.startTime, t.endTime, t.errorMessage, t.currentStats));
    }

    /**
     * `get_test_stats`: at most the 50 newest history entries, in order, and
     * the chart data built from them; `clock` stands for the local-time
     * `strftime` of a timestamp. The reply dict is `Ok` (the not-found error
     * reply is the inner `Err`); the outer `Err` is the exception
     * `format_chart_data` raises out of the call on an unreadable entry.
     */
    method GetTestStats(testId: string, clock: int -> Option<string>) returns (r: Result<Result<StatsInfo, string>, Failure>)
      ensures r.Err? <==> testId in activeTests && ChartDataOf(Recent(activeTests[testId].statsHistory), clock).Err?
      ensures r.Err? ==> Some(r.error) == FirstFailure(Recent(activeTests[testId].statsHistory), clock)
      ensures r.Ok? && r.value.Err? <==> testId !in activeTests
      ensures r.Ok? && r.value.Err? ==> r.value.error == NotFoundMessage(testId)
      ensures r.Ok? && r.value.Ok? ==>
        var history := activeTests[testId].statsHistory;
        var info := r.value.value;
        && info.testId == testId
        && |info.statsHistory| <= RecentCount
        && info.statsHistory == Recent(history)
        && (|history| <= RecentCount ==> info.statsHistory == history)
        && (forall i :: 0 <= i < |info.statsHistory| ==> ChartEntryOk(info.statsHistory[i], clock))
        && Ok(info.chartData) == ChartDataOf(info.statsHistory, clock)
    {
      if testId !in activeTests {
        return Ok(Err(NotFoundMessage(testId)));
      }
      var t := activeTests[testId];
      var recent := Recent(t.statsHistory);
      var chart := FormatChartData(recent, clock);
      if chart.Err? {
        return Err(chart.error);
      }
      r := Ok(Ok(StatsInfo(testId, Get(t.config, "test_type", Str("throughput")), t.currentStats, recent, chart.value)));
    }

    /**
     * The first loop of `cleanup_completed_tests`: the ids of the tests that
     * have finished before `cutoff`.
     */
    method ExpiredTests(cutoff: int) returns (toRemove: seq<string>)
      ensures forall id :: id in toRemove <==> id in ExpiredIds(activeTests, cutoff)
    {
      var pending := activeTests.Keys;
      toRemove := [];
      while pending != {}
        invariant pending <= activeTests.Keys
        invariant forall id :: id in toRemove <==> id in ExpiredIds(activeTests, cutoff) && id !in pending
        decreases |pending|
      {
        var id :| id in pending;
        if Expired(activeTests[id], cutoff) {
          toRemove := toRemove + [id];
        }
        pending := pending - {id};
      }
    }

    /**
     * `cleanup_completed_tests`, with the cutoff `now - max_age_hours`: the
     * expired tests are removed from the registry, the thread table and the
     * stop flags; nothing else is.
     */
    method CleanupCompletedTests(now: int, maxAgeHours: int)
      modifies this
      ensures activeTests == Survivors(old(activeTests), now - maxAgeHours * 3600)
      ensures statsThreads == old(statsThreads) - ExpiredIds(old(activeTests), now - maxAgeHours * 3600)
      ensures stopFlags == old(stopFlags) - ExpiredIds(old(activeTests), now - maxAgeHours * 3600)
    {
      var cutoff := now - maxAgeHours * 3600;
      var toRemove := ExpiredTests(cutoff);
      ghost var expired := ExpiredIds(activeTests, cutoff);
      ghost var tests0 := activeTests;
      ghost var threads0 := statsThreads;
      ghost var flags0 := stopFlags;
      for i := 0 to |toRemove|
        invariant forall id :: id in activeTests <==> id in tests0 && id !in toRemove[..i]
        invariant forall id :: id in activeTests ==> activeTests[id] == tests0[id]
        invariant forall id :: id in statsThreads <==> id in threads0 && id !in toRemove[..i]
        invariant forall id :: id in stopFlags <==> id in flags0 && id !in toRemove[..i]
        invariant forall id :: id in stopFlags ==> stopFlags[id] == flags0[id]
      {
        var id := toRemove[i];
        activeTests := activeTests - {id};
        if id in statsThreads {
          statsThreads := statsThreads - {id};
        }
        if id in stopFlags {
          stopFlags := stopFlags - {id};
        }
        assert toRemove[..i + 1] == toRemove[..i] + [id];
      }
      assert toRemove[..|toRemove|] == toRemove;
      SurvivorsByMembership(tests0, cutoff, activeTests);
      RemovedByMembership(flags0, expired, stopFlags);
    }
  }
}
