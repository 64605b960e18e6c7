/**
 * The dashboard's Flask application: the in-memory log buffer (a deque of
 * at most 1000 entries) with the routes that read and clear it, the URL
 * derivations of the `parameters` and `health` routes, and the mapping of
 * the test manager's replies to HTTP status codes. Templates, the API
 * client and the console echo of `add_log` are left out; the clock reading
 * of a log entry is a parameter.
 */
module FlaskApp {
  import opened Wrappers
  import opened Text
  import opened Values
  import opened Logs
  import DataProcessor
  import TestManagement

  /** `deque(maxlen=1000)`. */
  const MaxLogs := 1000

  /** The last `n` elements of `s`, or all of them when there are fewer. */
  function LastN(s: seq<LogEntry>, n: nat): (r: seq<LogEntry>)
    ensures |r| == if |s| < n then |s| else n
  {
    if |s| < n then s else s[|s| - n..]
  }

  /** Appending one entry to a buffer that already keeps the newest ones keeps the newest ones. */
  lemma LastNSnoc(s: seq<LogEntry>, x: LogEntry, n: nat)
    requires n > 0
    ensures LastN(LastN(s, n) + [x], n) == LastN(s + [x], n)
  {
    if |s| >= n {
      var kept := s[|s| - n..];
      assert LastN(s, n) == kept;
      assert (kept + [x])[1..] == s[|s| - n + 1..] + [x];
      assert (s + [x])[|s| + 1 - n..] == s[|s| - n + 1..] + [x];
    }
  }

  /** Entries appended one by one to the buffer, each with `deque.append`. */
  function AppendAll(entries: seq<LogEntry>, added: seq<LogEntry>): seq<LogEntry>
    decreases |added|
  {
    if |added| == 0 then entries
    else LastN(AppendAll(entries, added[..|added| - 1]) + [added[|added| - 1]], MaxLogs)
  }

  /** However many entries are added, the buffer holds exactly the newest 1000 of everything ever added. */
  lemma {:induction false} AppendAllKeepsNewest(entries: seq<LogEntry>, added: seq<LogEntry>)
    requires |entries| <= MaxLogs
    ensures AppendAll(entries, added) == LastN(entries + added, MaxLogs)
    ensures |AppendAll(entries, added)| <= MaxLogs
    decreases |added|
  {
    if |added| > 0 {
      var init := added[..|added| - 1];
      var x := added[|added| - 1];
      assert added == init + [x];
      AppendAllKeepsNewest(entries, init);
      LastNSnoc(entries + init, x, MaxLogs);
      assert (entries + init) + [x] == entries + added;
    }
  }

  /** The JSON object `add_log` stores; an absent test id is `None`. */
  function EntryJson(e: LogEntry): (v: Json)
    ensures ReadEntry(v) == Some(e)
  {
    Obj(map[
      "timestamp" := Str(e.timestamp),
      "level" := Str(e.level),
      "source" := Str(e.source),
      "message" := Str(e.message),
      "test_id" := match e.testId case Some(id) => Str(id) case None => Null])
  }

  /** Reads a stored log object back: four string fields and a string or null test id. */
  function ReadEntry(v: Json): Option<LogEntry> {
    if !(v.Obj? && "timestamp" in v.fields && "level" in v.fields && "source" in v.fields
      && "message" in v.fields && "test_id" in v.fields) then None
    else
      var f := v.fields;
      if !(f["timestamp"].Str? && f["level"].Str? && f["source"].Str? && f["message"].Str?) then None
      else if f["test_id"].Null? then Some(LogEntry(f["timestamp"].s, f["level"].s, f["source"].s, f["message"].s, None))
      else if f["test_id"].Str? then Some(LogEntry(f["timestamp"].s, f["level"].s, f["source"].s, f["message"].s, Some(f["test_id"].s)))
      else None
  }

  /** The entry `clear_logs` leaves behind. */
  function ClearedEntry(now: string): LogEntry {
    LogEntry(now, "INFO", "SYSTEM", "Logs cleared by user", None)
  }

  /** The module-level `app_logs` deque. */
  class LogBuffer {
    var entries: seq<LogEntry>

    ghost predicate Valid()
      reads this
    {
      |entries| <= MaxLogs
    }

    constructor ()
      ensures Valid() && entries == []
    {
      entries := [];
    }

    /**
     * `add_log`: one entry with the given fields is appended; when the
     * buffer is full the oldest entry is dropped. `now` is the ISO timestamp.
     */
    method AddLog(level: string, source: string, message: string, testId: Option<string>, now: string)
      requires Valid()
      modifies this
      ensures Valid()
      ensures entries == LastN(old(entries) + [LogEntry(now, level, source, message, testId)], MaxLogs)
      ensures entries[|entries| - 1] == LogEntry(now, level, source, message, testId)
      ensures |old(entries)| < MaxLogs ==> entries == old(entries) + [LogEntry(now, level, source, message, testId)]
      ensures |old(entries)| == MaxLogs ==> entries == old(entries)[1..] + [LogEntry(now, level, source, message, testId)]
    {
      var e := LogEntry(now, level, source, message, testId);
      if |entries| == MaxLogs {
        entries := entries[1..] + [e];
      } else {
        entries := entries + [e];
      }
    }

    /** `clear_logs`: the buffer is emptied and then holds only the note that it was cleared. */
    method ClearLogs(now: string) returns (reply: Json)
      requires Valid()
      modifies this
      ensures Valid()
      ensures entries == [ClearedEntry(now)]
      ensures reply == Obj(map["status" := Str("success"), "message" := Str("Logs cleared")])
    {
      entries := [];
      AddLog("INFO", "SYSTEM", "Logs cleared by user", None, now);
      reply := Obj(map["status" := Str("success"), "message" := Str("Logs cleared")]);
    }

    /** `get_logs`: every stored entry, oldest first, and a count that matches the list. */
    method GetLogs() returns (reply: Json)
      ensures reply.Obj? && "logs" in reply.fields && "count" in reply.fields
      ensures reply.fields["logs"].Arr?
      ensures reply.fields["count"] == Int(|reply.fields["logs"].items|)
      ensures |reply.fields["logs"].items| == |entries|
      ensures forall i :: 0 <= i < |entries| ==> ReadEntry(reply.fields["logs"].items[i]) == Some(entries[i])
    {
      var stored := entries;
      var items := seq(|stored|, i requires 0 <= i < |stored| => EntryJson(stored[i]));
      reply := Obj(map["logs" := Arr(items), "count" := Int(|entries|)]);
    }
  }

  // ---------------------------------------------------------------------------
  // URL derivations

  /** The default of `CYPERF_API_BASE_URL` in the `parameters` route. */
  const DefaultApiBaseUrl := "http://localhost:8000/api"

  /** The first three '/'-separated segments of the URL, rejoined: scheme, the empty segment and host:port. */
  function BaseUrl(apiBaseUrl: string): string {
    var parts := Split(apiBaseUrl, "/");
    Join(parts[..if |parts| < 3 then |parts| else 3], "/")
  }

  /** The `parameters` route's `base_url`, from the configured API URL if there is one. */
  function ParametersBaseUrl(configured: Option<string>): string {
    BaseUrl(match configured case Some(u) => u case None => DefaultApiBaseUrl)
  }

  /**
   * The base URL is a prefix of the API URL, and its segments are exactly
   * the API URL's first three (or all of them, when there are fewer).
   */
  lemma BaseUrlMeaning(apiBaseUrl: string)
    ensures StartsWith(apiBaseUrl, BaseUrl(apiBaseUrl))
    ensures var parts := Split(apiBaseUrl, "/");
      Split(BaseUrl(apiBaseUrl), "/") == parts[..if |parts| < 3 then |parts| else 3]
  {
    var parts := Split(apiBaseUrl, "/");
    var k := if |parts| < 3 then |parts| else 3;
    JoinSplit(apiBaseUrl, '/');
    JoinPrefix(parts, k, "/");
    SplitPiecesFree(apiBaseUrl, '/');
    SplitJoin(parts[..k], '/');
  }

  /** For "scheme://host/path" the base URL is "scheme://host", whatever the path. */
  lemma BaseUrlOfHost(scheme: string, host: string, path: string)
    requires '/' !in scheme && '/' !in host
    ensures BaseUrl(scheme + "//" + host + "/" + path) == scheme + "//" + host
  {
    var parts := Split(scheme + "//" + host + "/" + path, "/");
    HostUrlParts(scheme, host, path);
    assert parts[..3] == [scheme, "", host];
    JoinHostParts(scheme, host);
  }

  lemma HostUrlParts(scheme: string, host: string, path: string)
    requires '/' !in scheme && '/' !in host
    ensures Split(scheme + "//" + host + "/" + path, "/") == [scheme, "", host] + Split(path, "/")
  {
    var afterHost := host + ['/'] + path;
    var afterScheme := "" + ['/'] + afterHost;
    assert scheme + "//" + host + "/" + path == scheme + ['/'] + afterScheme;
    SplitAfterPiece(host, '/', path);
    SplitAfterPiece("", '/', afterHost);
    SplitAfterPiece(scheme, '/', afterScheme);
  }

  lemma JoinHostParts(scheme: string, host: string)
    ensures Join([scheme, "", host], "/") == scheme + "//" + host
  {
    assert [scheme, "", host][1..] == ["", host];
    assert ["", host][1..] == [host];
    assert Join(["", host], "/") == "/" + host;
  }

  /** The `health` route's docs URL: trailing '/' stripped, then `DocsOf`. */
  function DocsUrl(apiBaseUrl: string): string {
    DocsOf(RStripChar(apiBaseUrl, '/'))
  }

  /** `parts[-1] == 'api'`. */
  predicate LastIsApi(parts: seq<string>)
    requires |parts| >= 1
  {
    parts[|parts| - 1] == "api"
  }

  /** A final "api" segment is replaced by "docs"; otherwise "/docs" is appended. */
  function DocsOf(stripped: string): string {
    var parts := Split(stripped, "/");
    if LastIsApi(parts) then Join(parts[..|parts| - 1], "/") + "/docs"
    else stripped + "/docs"
  }

  /**
   * After trailing slashes are stripped, a URL ending in "/api" loses those
   * four characters, the bare "api" becomes "", and any other URL is kept;
   * "/docs" is appended in every case.
   */
  lemma DocsUrlMeaning(apiBaseUrl: string)
    ensures var t := RStripChar(apiBaseUrl, '/');
      && (EndsWith(t, "/api") ==> DocsUrl(apiBaseUrl) == t[..|t| - 4] + "/docs")
      && (t == "api" ==> DocsUrl(apiBaseUrl) == "/docs")
      && (!EndsWith(t, "/api") && t != "api" ==> DocsUrl(apiBaseUrl) == t + "/docs")
  {
    var t := RStripChar(apiBaseUrl, '/');
    if EndsWith(t, "/api") {
      ApiSegmentDropped(t);
    } else if t == "api" {
      SplitNoSeparator("api", '/');
    } else {
      OtherUrlKept(t);
    }
  }

  lemma ApiSegmentDropped(t: string)
    requires EndsWith(t, "/api")
    ensures DocsOf(t) == t[..|t| - 4] + "/docs"
  {
    var p := t[..|t| - 4];
    assert t == p + ['/'] + "api";
    SplitBeforePiece(p, '/', "api");
    var parts := Split(t, "/");
    assert parts[..|parts| - 1] == Split(p, "/");
    JoinSplit(p, '/');
  }

  lemma OtherUrlKept(t: string)
    requires !EndsWith(t, "/api") && t != "api"
    ensures DocsOf(t) == t + "/docs"
  {
    LastSegmentNotApi(t);
  }

  lemma LastSegmentNotApi(t: string)
    requires !EndsWith(t, "/api") && t != "api"
    ensures !LastIsApi(Split(t, "/"))
  {
    var parts := Split(t, "/");
    JoinSplit(t, '/');
    assert "/" + "api" == "/api";
    if |parts| >= 2 {
      var init := parts[..|parts| - 1];
      assert parts == init + [parts[|parts| - 1]];
      JoinEndsWithLast(init, parts[|parts| - 1], '/');
    }
  }

  /** The `health` route's reply: 200 with the docs URL when the back end answered, 503 with the error otherwise. */
  function HealthReply(backend: Result<map<string, Json>, string>, configured: Option<string>, now: string, environment: string): (r: (int, Json))
    ensures r.0 == 200 <==> backend.Ok?
    ensures r.0 != 200 ==> r.0 == 503 && r.1 == Obj(map["status" := Str("unhealthy"), "error" := Str(backend.error), "timestamp" := Str(now)])
    ensures r.0 == 200 ==> (
      && r.1.Obj? && "flask_config" in r.1.fields
      && r.1.fields["flask_config"] == Obj(map[
        "api_base_url" := Str(DocsUrl(match configured case Some(u) => u case None => "")),
        "environment" := Str(environment)]))
  {
    match backend
    case Err(e) =>
      (503, Obj(map["status" := Str("unhealthy"), "error" := Str(e), "timestamp" := Str(now)]))
    case Ok(status) =>
      var docs := DocsUrl(match configured case Some(u) => u case None => "");
      (200, Obj(map[
        "status" := Str("healthy"),
        "timestamp" := Str(now),
        "backend_status" := GetOr(status, "status", Str("unknown")),
        "flask_config" := Obj(map["api_base_url" := Str(docs), "environment" := Str(environment)])]))
  }

  // ---------------------------------------------------------------------------
  // Status codes of the test routes

  /** The `status` field of a manager reply: "success" or "error". */
  function ReplyStatus<T>(r: Result<T, string>): string {
    if r.Ok? then "success" else "error"
  }

  /** The look-up routes (`test_status`, `current_stats`, test logs): 200 on success, 404 otherwise. */
  function LookupCode(resultStatus: string): (code: int)
    ensures code == 200 || code == 404
    ensures code == 200 <==> resultStatus == "success"
  {
    if resultStatus == "success" then 200 else 404
  }

  /** `test_status` answers 200 exactly for a registered test and 404 otherwise. */
  method TestStatusRoute(manager: TestManagement.TestManager, testId: string) returns (code: int)
    ensures code == 200 <==> testId in manager.activeTests
    ensures code != 200 ==> code == 404
  {
    var result := manager.GetTestStatus(testId);
    code := LookupCode(ReplyStatus(result));
  }

  /**
   * The status code of `current_stats` for the registry `tests`: 404 for an
   * unknown test; 500 when `format_chart_data` raises on one of the test's
   * 50 newest snapshots and the route's `except` answers; 200 otherwise.
   */
  function CurrentStatsCode(tests: map<string, TestManagement.TestState>, testId: string, clock: int -> Option<string>): (code: int)
    ensures code == 404 <==> testId !in tests
    ensures code == 500 <==>
      testId in tests && DataProcessor.ChartDataOf(TestManagement.Recent(tests[testId].statsHistory), clock).Err?
    ensures code == 200 <==>
      testId in tests && DataProcessor.ChartDataOf(TestManagement.Recent(tests[testId].statsHistory), clock).Ok?
  {
    if testId !in tests then 404
    else if DataProcessor.ChartDataOf(TestManagement.Recent(tests[testId].statsHistory), clock).Err? then 500
    else 200
  }

  /** `current_stats`: the success reply gives 200, the error reply 404, and a raised exception 500. */
  method CurrentStatsRoute(manager: TestManagement.TestManager, testId: string, clock: int -> Option<string>) returns (code: int)
    ensures code == CurrentStatsCode(manager.activeTests, testId, clock)
  {
    var result := manager.GetTestStats(testId, clock);
    if result.Err? {
      return 500;
    }
    code := LookupCode(ReplyStatus(result.value));
  }

  /**
   * A registered test one of whose 50 newest snapshots holds a list of rows
   * for the server, as the combined-stats call stores them, gets 500 from
   * `current_stats`: a list has no `.get`.
   */
  lemma RowSnapshotAnswers500(tests: map<string, TestManagement.TestState>, testId: string, clock: int -> Option<string>, i: nat)
    requires testId in tests
    requires i < |TestManagement.Recent(tests[testId].statsHistory)|
    requires var entry := TestManagement.Recent(tests[testId].statsHistory)[i];
      entry.Obj? && "server" in entry.fields && DataProcessor.RowList(entry.fields["server"])
    ensures CurrentStatsCode(tests, testId, clock) == 500
  {
  }

  /** `not config` for a request body: no JSON, or an empty object. */
  predicate NoConfig(body: Option<DataProcessor.Config>) {
    body.None? || body.value == map[]
  }

  /** `run_test`'s status code for a body and the outcome `start_test` gives on it. */
  function RunTestCode(body: Option<DataProcessor.Config>, newId: string): (code: int)
    ensures code in {200, 400, 500}
    ensures code == 200 <==> (
      && !NoConfig(body)
      && TestManagement.StartOutcome(body.value, newId).Ok?
      && TestManagement.StartOutcome(body.value, newId).value.Started?)
    ensures code == 500 <==> !NoConfig(body) && TestManagement.StartOutcome(body.value, newId).Err?
  {
    if NoConfig(body) then 400
    else match TestManagement.StartOutcome(body.value, newId)
      case Err(_) => 500
      case Ok(reply) => if reply.Started? then 200 else 400
  }

  /**
   * `run_test`: an empty body is refused with 400 before the manager is
   * asked; otherwise a test is registered exactly when the answer is 200.
   */
  method RunTestRoute(manager: TestManagement.TestManager, body: Option<DataProcessor.Config>, newId: string) returns (code: int)
    modifies manager`activeTests
    ensures code == RunTestCode(body, newId)
    ensures code == 200 ==> manager.activeTests == old(manager.activeTests)[newId := TestManagement.NewTest(body.value, newId)]
    ensures code != 200 ==> manager.activeTests == old(manager.activeTests)
  {
    if NoConfig(body) {
      return 400;
    }
    var result := manager.StartTest(body.value, newId);
    code := if result.Err? then 500 else if result.value.Started? then 200 else 400;
  }
}
