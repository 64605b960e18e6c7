/**
 * The test-parameters page script: client-side validation of the form,
 * the statistics table built from the server and client CSV rows, and the
 * polling of a running test's status.
 */
module Parameters {
  import opened Wrappers
  import opened Text
  import opened Values
  import DataProcessor

  // ---------------------------------------------------------------------------
  // validateConfigClient

  /** The form's entries; every value of a FormData is a string. */
  type Form = map<string, string>

  /** `config[key]`, `None` standing for `undefined`. */
  function FormField(form: Form, key: string): Option<string> {
    if key in form then Some(form[key]) else None
  }

  predicate DigitGroup(p: string) { 1 <= |p| <= 3 && AllDigits(p) }

  /**
   * The test of `^(?:[0-9]{1,3}\.){3}[0-9]{1,3}$`: four '.'-separated groups
   * of one to three ASCII digits. `undefined` becomes the text
   * "undefined", which does not match.
   */
  predicate IpShape(v: Option<string>) {
    && v.Some?
    && var parts := Split(v.value, ".");
    && |parts| == 4
    && DigitGroup(parts[0]) && DigitGroup(parts[1]) && DigitGroup(parts[2]) && DigitGroup(parts[3])
  }

  /** `n < lo || n > hi` for a parsed number; NaN fails both comparisons. */
  predicate OutOfRange(n: Option<int>, lo: int, hi: int) {
    n.Some? && (n.value < lo || n.value > hi)
  }

  function Parsed(form: Form, key: string): Option<int> { JsParseIntOpt(FormField(form, key)) }

  const ServerIpError := "Invalid server IP address format"
  const ClientIpError := "Invalid client IP address format"
  const DurationError := "Duration must be between 1 and 3600 seconds"
  const IntervalError := "Snapshot interval must be between 1 and 60 seconds"
  const BandwidthWarning := "Bandwidth outside typical range (1-10000 Mbps)"
  const PacketSizeWarning := "Packet size outside typical range (64-9000 bytes)"
  const CpsWarning := "CPS outside typical range (1-100000)"
  const ConcurrentWarning := "Concurrent connections outside typical range (1-1000000)"

  datatype ClientValidation = ClientValidation(valid: bool, errors: seq<string>, warnings: seq<string>)

  function Flag(raised: bool, message: string): seq<string> { if raised then [message] else [] }

  /** The address errors, server first. */
  function AddressShapeErrors(config: Form): seq<string> {
    Flag(!IpShape(FormField(config, "server_ip")), ServerIpError)
      + Flag(!IpShape(FormField(config, "client_ip")), ClientIpError)
  }

  /** The duration and snapshot-interval errors, in that order. */
  function TimingErrors(config: Form): seq<string> {
    Flag(OutOfRange(Parsed(config, "duration"), 1, 3600), DurationError)
      + Flag(OutOfRange(Parsed(config, "snapshot_interval"), 1, 60), IntervalError)
  }

  /** The errors the form gets, in the order they are reported. */
  function ClientErrors(config: Form): seq<string> {
    AddressShapeErrors(config) + TimingErrors(config)
  }

  /** The warnings the form gets; only the ranges of the chosen test type are looked at. */
  function ClientWarnings(config: Form): seq<string> {
    var testType := FormField(config, "test_type");
    if testType == Some("throughput") then
      Flag(OutOfRange(Parsed(config, "bandwidth_mbps"), 1, 10000), BandwidthWarning)
        + Flag(OutOfRange(Parsed(config, "packet_size"), 64, 9000), PacketSizeWarning)
    else if testType == Some("cps") then
      Flag(OutOfRange(Parsed(config, "connections_per_second"), 1, 100000), CpsWarning)
        + Flag(OutOfRange(Parsed(config, "concurrent_connections"), 1, 1000000), ConcurrentWarning)
    else []
  }

  method CheckAddressShapes(config: Form) returns (errors: seq<string>)
    ensures errors == AddressShapeErrors(config)
  {
    errors := [];
    if !IpShape(FormField(config, "server_ip")) {
      errors := errors + [ServerIpError];
    }
    if !IpShape(FormField(config, "client_ip")) {
      errors := errors + [ClientIpError];
    }
  }

  method CheckTimings(config: Form) returns (errors: seq<string>)
    ensures errors == TimingErrors(config)
  {
    errors := [];
    if OutOfRange(Parsed(config, "duration"), 1, 3600) {
      errors := errors + [DurationError];
    }
    if OutOfRange(Parsed(config, "snapshot_interval"), 1, 60) {
      errors := errors + [IntervalError];
    }
  }

  /**
   * `validateConfigClient`. Addresses, duration and snapshot interval give
   * errors; the type-specific ranges only give warnings.
   */
  method ValidateConfigClient(config: Form) returns (r: ClientValidation)
    ensures r.errors == ClientErrors(config) && r.warnings == ClientWarnings(config)
    ensures r.valid <==> r.errors == []
  {
    var addressErrors := CheckAddressShapes(config);
    var timingErrors := CheckTimings(config);
    var errors := addressErrors + timingErrors;
    var warnings: seq<string> := [];
    var testType := FormField(config, "test_type");
    if testType == Some("throughput") {
      if OutOfRange(Parsed(config, "bandwidth_mbps"), 1, 10000) {
        warnings := warnings + [BandwidthWarning];
      }
      if OutOfRange(Parsed(config, "packet_size"), 64, 9000) {
        warnings := warnings + [PacketSizeWarning];
      }
    } else if testType == Some("cps") {
      if OutOfRange(Parsed(config, "connections_per_second"), 1, 100000) {
        warnings := warnings + [CpsWarning];
      }
      if OutOfRange(Parsed(config, "concurrent_connections"), 1, 1000000) {
        warnings := warnings + [ConcurrentWarning];
      }
    }
    r := ClientValidation(|errors| == 0, errors, warnings);
  }

  lemma ErrorMessagesDistinct()
    ensures ServerIpError != ClientIpError && ServerIpError != DurationError && ServerIpError != IntervalError
    ensures ClientIpError != DurationError && ClientIpError != IntervalError && DurationError != IntervalError
  {
    assert ServerIpError[8] != ClientIpError[8];
    assert |ServerIpError| == |ClientIpError| == 32;
    assert |DurationError| == 43 && |IntervalError| == 50;
  }

  lemma WarningMessagesDistinct()
    ensures BandwidthWarning != PacketSizeWarning && BandwidthWarning != CpsWarning && BandwidthWarning != ConcurrentWarning
    ensures PacketSizeWarning != CpsWarning && PacketSizeWarning != ConcurrentWarning && CpsWarning != ConcurrentWarning
  {
    assert |BandwidthWarning| == 46 && |PacketSizeWarning| == 49;
    assert |CpsWarning| == 36 && |ConcurrentWarning| == 56;
  }

  /**
   * Each error is reported exactly when its check fails, and the form is
   * valid exactly when both addresses have the dotted shape and neither the
   * duration nor the snapshot interval parses to a number out of its range.
   */
  lemma ClientErrorsMeaning(config: Form)
    ensures ServerIpError in ClientErrors(config) <==> !IpShape(FormField(config, "server_ip"))
    ensures ClientIpError in ClientErrors(config) <==> !IpShape(FormField(config, "client_ip"))
    ensures DurationError in ClientErrors(config) <==> OutOfRange(Parsed(config, "duration"), 1, 3600)
    ensures IntervalError in ClientErrors(config) <==> OutOfRange(Parsed(config, "snapshot_interval"), 1, 60)
    ensures ClientErrors(config) == [] <==>
      && IpShape(FormField(config, "server_ip")) && IpShape(FormField(config, "client_ip"))
      && !OutOfRange(Parsed(config, "duration"), 1, 3600)
      && !OutOfRange(Parsed(config, "snapshot_interval"), 1, 60)
  {
    assert ServerIpError[8] != ClientIpError[8];
    ErrorMessagesDistinct();
  }

  /**
   * Range warnings never make the form invalid; each appears exactly when its
   * test type is chosen and its field parses to a number out of range.
   */
  lemma ClientWarningsMeaning(config: Form)
    ensures |ClientWarnings(config)| <= 2
    ensures BandwidthWarning in ClientWarnings(config) <==>
      FormField(config, "test_type") == Some("throughput") && OutOfRange(Parsed(config, "bandwidth_mbps"), 1, 10000)
    ensures PacketSizeWarning in ClientWarnings(config) <==>
      FormField(config, "test_type") == Some("throughput") && OutOfRange(Parsed(config, "packet_size"), 64, 9000)
    ensures CpsWarning in ClientWarnings(config) <==>
      FormField(config, "test_type") == Some("cps") && OutOfRange(Parsed(config, "connections_per_second"), 1, 100000)
    ensures ConcurrentWarning in ClientWarnings(config) <==>
      FormField(config, "test_type") == Some("cps") && OutOfRange(Parsed(config, "concurrent_connections"), 1, 1000000)
  {
    WarningMessagesDistinct();
  }

  /** A canonical dotted quad has the accepted shape exactly when every number has at most three digits. */
  lemma DottedQuadShape(a: nat, b: nat, c: nat, d: nat)
    ensures IpShape(Some(DataProcessor.DottedQuad(a, b, c, d))) <==> a < 1000 && b < 1000 && c < 1000 && d < 1000
  {
    DataProcessor.DottedQuadParts(a, b, c, d);
    NatToStringLength(a);
    NatToStringLength(b);
    NatToStringLength(c);
    NatToStringLength(d);
    NatToStringAtLeastFour(a);
    NatToStringAtLeastFour(b);
    NatToStringAtLeastFour(c);
    NatToStringAtLeastFour(d);
  }

  lemma {:induction false} NatToStringAtLeastFour(n: nat)
    ensures n >= 1000 ==> |NatToString(n)| >= 4
    decreases n
  {
    if n >= 1000 {
      NatToStringLength(n / 10);
      if n / 10 >= 1000 {
        NatToStringAtLeastFour(n / 10);
      }
    }
  }

  /**
   * The browser and the server disagree on addresses: "999.0.0.1" passes the
   * browser's shape test but fails the server's octet range check.
   */
  lemma BrowserAcceptsWhatServerRejects()
    ensures IpShape(Some(DataProcessor.DottedQuad(999, 0, 0, 1)))
    ensures !DataProcessor.IsValidIp(Str(DataProcessor.DottedQuad(999, 0, 0, 1)))
  {
    DottedQuadShape(999, 0, 0, 1);
    DataProcessor.DottedQuadAccepted(999, 0, 0, 1);
  }

  // ---------------------------------------------------------------------------
  // generateStatsTable

  const ThroughputServerFields: seq<string> := [
    "Timestamp", "Throughput", "ThroughputTX", "ThroughputRX",
    "TCPDataThroughput", "TCPDataThroughputRX", "BytesSent", "BytesReceived",
    "PacketsSent", "PacketsReceived", "TXPacketsPerSecond", "RXPacketsPerSecond",
    "TXError", "RXError", "PSHRetransmitted", "PSHRetransmissionAborted"]

  const ThroughputClientFields: seq<string> := [
    "Timestamp", "Throughput", "ThroughputTX", "ThroughputRX",
    "TCPDataThroughput", "TCPDataThroughputTX", "ParallelClientSessions",
    "ActiveConnections", "ConnectionsSucceeded", "AverageConnectionLatency",
    "BytesSent", "BytesReceived", "PacketsSent", "PacketsReceived",
    "TXPacketsPerSecond", "RXPacketsPerSecond"]

  const CpsServerFields: seq<string> := [
    "Timestamp", "Throughput", "TCPDataThroughput", "ConnectionsAccepted",
    "ConnectionRate", "AverageConnectionLatency", "SYNReceived", "SYN_ACKSent",
    "FIN_ACKSent", "FINReceived", "BytesSent", "BytesReceived",
    "PacketsSent", "PacketsReceived", "TXPacketsPerSecond", "RXPacketsPerSecond",
    "TXError", "RXError", "TXDroppedPackets", "RXDroppedPackets",
    "SYNRetransmitted", "PSHRetransmitted"]

  const CpsClientFields: seq<string> := [
    "Timestamp", "Throughput", "ParallelClientSessions", "ConnectionsSucceeded",
    "ConnectionsFailed", "ConnectionsAccepted", "ConnectionRate",
    "AverageConnectionLatency", "SYNSent", "SYN_ACKReceived",
    "FINSent", "FIN_ACKReceived", "BytesSent", "BytesReceived",
    "PacketsSent", "PacketsReceived", "TXPacketsPerSecond", "RXPacketsPerSecond",
    "TXError", "RXError"]

  /** The allow-list for a test kind and a role ("Server" or "Client", compared case-insensitively). */
  function FieldsFor(isCps: bool, role: string): seq<string> {
    if isCps then (if Lower(role) == "server" then CpsServerFields else CpsClientFields)
    else (if Lower(role) == "server" then ThroughputServerFields else ThroughputClientFields)
  }

  /** `hasOwnProperty` of one of the connection counters; values that are not objects have none. */
  predicate MarksCps(row: Json) {
    row.Obj? && ("ConnectionRate" in row.fields || "ConnectionsSucceeded" in row.fields || "ConnectionsAccepted" in row.fields)
  }

  /** `statsArray.some(...)`: stops at the first marked row; reaching a null row raises. */
  function ScanCps(rows: seq<Json>): Option<bool>
    decreases |rows|
  {
    if rows == [] then Some(false)
    else if rows[0].Null? then None
    else if MarksCps(rows[0]) then Some(true)
    else ScanCps(rows[1..])
  }

  /** A detected CPS run has a row with a connection counter; a throughput run has none. */
  lemma {:induction false} ScanCpsFinds(rows: seq<Json>)
    requires ScanCps(rows).Some?
    ensures ScanCps(rows).value <==> exists i :: 0 <= i < |rows| && MarksCps(rows[i])
    decreases |rows|
  {
    if rows != [] && !MarksCps(rows[0]) {
      ScanCpsFinds(rows[1..]);
      assert forall i :: 0 < i < |rows| ==> rows[i] == rows[1..][i - 1];
    }
  }

  /** `Object.keys(row)` as far as field names go; values that are not objects have no named keys. */
  function KeysOf(row: Json): set<string> {
    if row.Obj? then row.fields.Keys else {}
  }

  /** `fields.filter(key => keys.includes(key))`. */
  function Columns(fields: seq<string>, keys: set<string>): (r: seq<string>)
    ensures |r| <= |fields|
    decreases |fields|
  {
    if fields == [] then []
    else (if fields[0] in keys then [fields[0]] else []) + Columns(fields[1..], keys)
  }

  /** `xs` occurs in `ys` in order, possibly with gaps. */
  predicate Subsequence(xs: seq<string>, ys: seq<string>)
    decreases |ys|
  {
    if xs == [] then true
    else if ys == [] then false
    else if xs[0] == ys[0] then Subsequence(xs[1..], ys[1..])
    else Subsequence(xs, ys[1..])
  }

  /** The columns are the allow-listed fields that the first row has, kept in allow-list order. */
  lemma {:induction false} ColumnsAreFilter(fields: seq<string>, keys: set<string>)
    ensures forall k :: k in Columns(fields, keys) <==> k in fields && k in keys
    ensures Subsequence(Columns(fields, keys), fields)
    decreases |fields|
  {
    if fields != [] {
      ColumnsAreFilter(fields[1..], keys);
      var rest := Columns(fields[1..], keys);
      if fields[0] in keys {
        assert Columns(fields, keys) == [fields[0]] + rest;
        assert ([fields[0]] + rest)[1..] == rest;
      } else {
        assert Columns(fields, keys) == rest;
        assert rest != [] ==> rest[0] in keys;
      }
      assert forall k :: k in fields <==> k == fields[0] || k in fields[1..];
    }
  }

  /** `key.replace(/([A-Z])/g, ' $1')`: a space before every capital letter. */
  function SpaceCapitals(key: string): (r: string)
    ensures |r| >= |key|
    decreases |key|
  {
    if key == [] then []
    else (if 'A' <= key[0] <= 'Z' then [' ', key[0]] else [key[0]]) + SpaceCapitals(key[1..])
  }

  /** The column header: capitals spaced apart, then trimmed. */
  function DisplayName(key: string): string { TrimEnd(TrimStart(SpaceCapitals(key))) }

  function RemoveSpaces(s: string): string
    decreases |s|
  {
    if s == [] then [] else (if s[0] == ' ' then [] else [s[0]]) + RemoveSpaces(s[1..])
  }

  lemma {:induction false} RemoveSpacesAppend(a: string, b: string)
    ensures RemoveSpaces(a + b) == RemoveSpaces(a) + RemoveSpaces(b)
    decreases |a|
  {
    if a != [] {
      RemoveSpacesAppend(a[1..], b);
      var head := if a[0] == ' ' then [] else [a[0]];
      assert (a + b)[0] == a[0];
      assert (a + b)[1..] == a[1..] + b;
      assert RemoveSpaces(a + b) == head + RemoveSpaces(a[1..] + b);
      assert RemoveSpaces(a) == head + RemoveSpaces(a[1..]);
    } else {
      assert a + b == b;
    }
  }

  lemma {:induction false} SpaceCapitalsRoundTrip(key: string)
    requires ' ' !in key
    ensures RemoveSpaces(SpaceCapitals(key)) == key
    decreases |key|
  {
    if key != [] {
      var head := if 'A' <= key[0] <= 'Z' then [' ', key[0]] else [key[0]];
      SpaceCapitalsRoundTrip(key[1..]);
      RemoveSpacesAppend(head, SpaceCapitals(key[1..]));
      assert RemoveSpaces(head) == [key[0]];
      assert key == [key[0]] + key[1..];
    }
  }

  /** The only whitespace in a spaced-out key is the spaces that were inserted. */
  predicate OnlyPlainSpaces(s: string) {
    forall i :: 0 <= i < |s| ==> !IsSpace(s[i]) || s[i] == ' '
  }

  lemma {:induction false} SpaceCapitalsSpaces(key: string)
    requires forall i :: 0 <= i < |key| ==> !IsSpace(key[i])
    ensures OnlyPlainSpaces(SpaceCapitals(key))
    decreases |key|
  {
    if key != [] {
      SpaceCapitalsSpaces(key[1..]);
    }
  }

  lemma {:induction false} TrimStartKeepsLetters(s: string)
    requires OnlyPlainSpaces(s)
    ensures RemoveSpaces(TrimStart(s)) == RemoveSpaces(s)
    ensures OnlyPlainSpaces(TrimStart(s))
    decreases |s|
  {
    if |s| > 0 && IsSpace(s[0]) {
      assert s[0] == ' ';
      TrimStartKeepsLetters(s[1..]);
    }
  }

  lemma {:induction false} TrimEndKeepsLetters(s: string)
    requires OnlyPlainSpaces(s)
    ensures RemoveSpaces(TrimEnd(s)) == RemoveSpaces(s)
    decreases |s|
  {
    if |s| > 0 && IsSpace(s[|s| - 1]) {
      var init := s[..|s| - 1];
      TrimEndKeepsLetters(init);
      RemoveSpacesAppend(init, [s[|s| - 1]]);
      assert s == init + [s[|s| - 1]];
    }
  }

  /** A header reads back as its field name once its spaces are taken out. */
  lemma DisplayNameRoundTrip(key: string)
    requires forall i :: 0 <= i < |key| ==> !IsSpace(key[i])
    ensures RemoveSpaces(DisplayName(key)) == key
  {
    assert ' ' !in key by {
      forall i | 0 <= i < |key| ensures key[i] != ' ' { assert !IsSpace(key[i]); }
    }
    SpaceCapitalsRoundTrip(key);
    SpaceCapitalsSpaces(key);
    TrimStartKeepsLetters(SpaceCapitals(key));
    TrimEndKeepsLetters(TrimStart(SpaceCapitals(key)));
  }

  /** How a cell's value is displayed, before float and locale rendering. */
  datatype Display =
    | Megabits(n: int)        // `(n / 1000000).toFixed(2) + " Mbps"`
    | Kilobytes(n: int)       // `(n / 1000).toFixed(1) + " KB"`
    | Milliseconds(n: int)    // `(n / 1000).toFixed(1) + " ms"`
    | ClockTime(seconds: Option<int>)  // `new Date(n * 1000).toLocaleTimeString()`
    | ConnPerSec(value: Json) // `${value} conn/s`
    | PerSecond(value: Json)  // `${value} pps`
    | Plain(value: Json)

  /** The colour given to a cell. */
  datatype Tone = ErrorCount | NoErrors | ThroughputTone | LatencyTone | ConnectionTone | VolumeTone | NoTone

  /**
   * A data cell: its column and the value shown in it. How it is displayed
   * and coloured depends on these two only (`DisplayOf`, `ToneOf`).
   */
  datatype Cell = Cell(key: string, value: Json)
  datatype Row = Row(number: nat, shade: string, cells: seq<Cell>)
  datatype StatsTable = NoData | Table(headers: seq<string>, rows: seq<Row>)

  /** `stats[key] || '0'`. */
  function CellValue(row: Json, key: string): Json {
    if row.Obj? && key in row.fields && JsTruthy(row.fields[key]) then row.fields[key] else Str("0")
  }

  function DisplayOf(key: string, value: Json): Display {
    var n := JsParseIntOf(value);
    var big := n.Some? && n.value > 1000;
    if Contains(key, "Throughput") && big then Megabits(n.value)
    else if Contains(key, "Bytes") && big then Kilobytes(n.value)
    else if Contains(key, "Latency") && big then Milliseconds(n.value)
    else if key == "Timestamp" then ClockTime(n)
    else if key == "ConnectionRate" then ConnPerSec(value)
    else if Contains(key, "PacketsPerSecond") then PerSecond(value)
    else Plain(value)
  }

  function ToneOf(key: string, value: Json): Tone {
    if Contains(key, "Error") || Contains(key, "Failed") || Contains(key, "Dropped") then
      var n := JsParseIntOf(value);
      if n.Some? && n.value > 0 then ErrorCount else NoErrors
    else if Contains(key, "Throughput") then ThroughputTone
    else if Contains(key, "Latency") then LatencyTone
    else if Contains(key, "Connections") || Contains(key, "Rate") then ConnectionTone
    else if Contains(key, "Bytes") || Contains(key, "Packets") then VolumeTone
    else NoTone
  }

  const CellBaseClass := "px-3 py-2 border-b border-gray-700"

  /** The classes a tone adds to every cell's base classes. */
  function ToneSuffix(t: Tone): string {
    match t
    case ErrorCount => " text-red-400 font-bold"
    case NoErrors => " text-green-400"
    case ThroughputTone => " text-green-400 font-semibold"
    case LatencyTone => " text-yellow-400"
    case ConnectionTone => " text-blue-400"
    case VolumeTone => " text-purple-400"
    case NoTone => ""
  }

  /** The CSS class list of a cell. */
  function ToneClass(t: Tone): string {
    CellBaseClass + ToneSuffix(t)
  }

  /** Each tone has its own class list, so the class list tells the tone. */
  lemma ToneClassDistinct(t: Tone, u: Tone)
    ensures ToneClass(t) == ToneClass(u) <==> t == u
  {
    if ToneClass(t) == ToneClass(u) {
      assert ToneClass(t)[|CellBaseClass|..] == ToneSuffix(t);
      assert ToneClass(u)[|CellBaseClass|..] == ToneSuffix(u);
    }
  }

  /**
   * The colour precedence of a cell: error-like keys first (red for a
   * positive count, green otherwise), then Throughput, Latency,
   * Connections or Rate, Bytes or Packets, and no colour for the rest.
   */
  lemma CellClassPrecedence(key: string, value: Json)
    ensures var c := ToneClass(ToneOf(key, value));
      var flagged := Contains(key, "Error") || Contains(key, "Failed") || Contains(key, "Dropped");
      var positive := JsParseIntOf(value).Some? && JsParseIntOf(value).value > 0;
      && (c == CellBaseClass + " text-red-400 font-bold" <==> flagged && positive)
      && (c == CellBaseClass + " text-green-400" <==> flagged && !positive)
      && (c == CellBaseClass + " text-green-400 font-semibold" <==> !flagged && Contains(key, "Throughput"))
      && (c == CellBaseClass + " text-yellow-400"
          <==> !flagged && !Contains(key, "Throughput") && Contains(key, "Latency"))
      && (c == CellBaseClass + " text-blue-400"
          <==> !flagged && !Contains(key, "Throughput") && !Contains(key, "Latency")
               && (Contains(key, "Connections") || Contains(key, "Rate")))
      && (c == CellBaseClass + " text-purple-400"
          <==> !flagged && !Contains(key, "Throughput") && !Contains(key, "Latency")
               && !Contains(key, "Connections") && !Contains(key, "Rate")
               && (Contains(key, "Bytes") || Contains(key, "Packets")))
  {
    var t := ToneOf(key, value);
    ToneClassDistinct(t, ErrorCount);
    ToneClassDistinct(t, NoErrors);
    ToneClassDistinct(t, ThroughputTone);
    ToneClassDistinct(t, LatencyTone);
    ToneClassDistinct(t, ConnectionTone);
    ToneClassDistinct(t, VolumeTone);
  }

  function CellOf(row: Json, key: string): Cell {
    Cell(key, CellValue(row, key))
  }

  function Shade(index: nat): string { if index % 2 == 0 then "bg-gray-800" else "bg-gray-750" }

  /** One cell per column, in column order. */
  function Cells(row: Json, columns: seq<string>): seq<Cell>
    decreases |columns|
  {
    if columns == [] then []
    else Cells(row, columns[..|columns| - 1]) + [CellOf(row, columns[|columns| - 1])]
  }

  function RowOf(index: nat, row: Json, columns: seq<string>): Row {
    Row(index + 1, Shade(index), Cells(row, columns))
  }

  /** A row that makes the table raise: `null` has neither properties nor keys. */
  predicate HasNullRow(rows: seq<Json>) { exists i :: 0 <= i < |rows| && rows[i].Null? }

  /** The columns of a non-empty row set, or `None` when choosing them raises. */
  function ColumnsOf(rows: seq<Json>, role: string): Option<seq<string>>
    requires rows != []
  {
    if rows[0].Null? then None
    else match ScanCps(rows)
      case None => None
      case Some(isCps) => Some(Columns(FieldsFor(isCps, role), KeysOf(rows[0])))
  }

  /** One header per column, in column order. */
  function Headers(columns: seq<string>): seq<string>
    decreases |columns|
  {
    if columns == [] then []
    else Headers(columns[..|columns| - 1]) + [DisplayName(columns[|columns| - 1])]
  }

  /** One row per stats row, in input order. */
  function Rows(rows: seq<Json>, columns: seq<string>): seq<Row>
    decreases |rows|
  {
    if rows == [] then []
    else Rows(rows[..|rows| - 1], columns) + [RowOf(|rows| - 1, rows[|rows| - 1], columns)]
  }

  /** The rendered rows; with at least one column, a null row raises. */
  function RenderedRows(rows: seq<Json>, columns: seq<string>): Option<seq<Row>> {
    if columns != [] && HasNullRow(rows) then None else Some(Rows(rows, columns))
  }

  /** What `generateStatsTable` renders, or `None` when it raises on a null row. */
  function TableOf(stats: Json, role: string): Option<StatsTable> {
    if !stats.Arr? || stats.items == [] then Some(NoData)
    else
      match ColumnsOf(stats.items, role)
      case None => None
      case Some(columns) =>
        match RenderedRows(stats.items, columns)
        case None => None
        case Some(body) => Some(Table(Headers(columns), body))
  }

  lemma HeadersSnoc(columns: seq<string>, k: nat)
    requires k < |columns|
    ensures Headers(columns[..k + 1]) == Headers(columns[..k]) + [DisplayName(columns[k])]
  {
    assert columns[..k + 1][..k] == columns[..k];
  }

  method HeaderCells(columns: seq<string>) returns (headers: seq<string>)
    ensures headers == Headers(columns)
  {
    headers := [];
    var k := 0;
    while k < |columns|
      invariant 0 <= k <= |columns|
      invariant headers == Headers(columns[..k])
    {
      HeadersSnoc(columns, k);
      headers := headers + [DisplayName(columns[k])];
      k := k + 1;
    }
    assert columns[..k] == columns;
  }

  method RowCells(index: nat, row: Json, columns: seq<string>) returns (r: Row)
    ensures r == RowOf(index, row, columns)
  {
    var cells: seq<Cell> := [];
    var k := 0;
    while k < |columns|
      invariant 0 <= k <= |columns|
      invariant cells == Cells(row, columns[..k])
    {
      assert columns[..k + 1][..k] == columns[..k];
      cells := cells + [CellOf(row, columns[k])];
      k := k + 1;
    }
    assert columns[..k] == columns;
    r := Row(index + 1, Shade(index), cells);
  }

  method RenderRows(rows: seq<Json>, columns: seq<string>) returns (r: Option<seq<Row>>)
    ensures r == RenderedRows(rows, columns)
  {
    var table: seq<Row> := [];
    var i := 0;
    while i < |rows|
      invariant 0 <= i <= |rows|
      invariant columns != [] ==> forall j :: 0 <= j < i ==> !rows[j].Null?
      invariant table == Rows(rows[..i], columns)
    {
      if rows[i].Null? && columns != [] {
        return None;
      }
      var row := RowCells(i, rows[i], columns);
      assert rows[..i + 1][..i] == rows[..i];
      table := table + [row];
      i := i + 1;
    }
    assert rows[..i] == rows;
    r := Some(table);
  }

  /** `generateStatsTable`: headers, then one row per stats row, one cell per column. */
  method GenerateStatsTable(stats: Json, role: string) returns (r: Option<StatsTable>)
    ensures r == TableOf(stats, role)
  {
    if !stats.Arr? || |stats.items| == 0 {
      return Some(NoData);
    }
    var maybeColumns := ColumnsOf(stats.items, role);
    if maybeColumns.None? {
      return None;
    }
    var columns := maybeColumns.value;
    var headers := HeaderCells(columns);
    var body := RenderRows(stats.items, columns);
    if body.None? {
      return None;
    }
    r := Some(Table(headers, body.value));
  }

  lemma {:induction false} HeadersLength(columns: seq<string>)
    ensures |Headers(columns)| == |columns|
    decreases |columns|
  {
    if columns != [] {
      HeadersLength(columns[..|columns| - 1]);
    }
  }

  lemma {:induction false} CellsLength(row: Json, columns: seq<string>)
    ensures |Cells(row, columns)| == |columns|
    decreases |columns|
  {
    if columns != [] {
      CellsLength(row, columns[..|columns| - 1]);
    }
  }

  lemma {:induction false} RowsShape(rows: seq<Json>, columns: seq<string>)
    ensures |Rows(rows, columns)| == |rows|
    ensures forall i :: 0 <= i < |rows| ==> Rows(rows, columns)[i] == RowOf(i, rows[i], columns)
    ensures forall i :: 0 <= i < |rows| ==> |Rows(rows, columns)[i].cells| == |columns|
    decreases |rows|
  {
    if rows != [] {
      CellsLength(rows[|rows| - 1], columns);
      var init := rows[..|rows| - 1];
      RowsShape(init, columns);
      assert forall i :: 0 <= i < |init| ==> init[i] == rows[i];
    }
  }

  /**
   * No data for anything but a non-empty array; otherwise one row per stats
   * row in input order, numbered from 1, shaded alternately, with one cell
   * per column.
   */
  lemma TableShape(stats: Json, role: string)
    requires TableOf(stats, role).Some?
    ensures !stats.Arr? || stats.items == [] <==> TableOf(stats, role).value == NoData
    ensures TableOf(stats, role).value.Table? ==>
      var t := TableOf(stats, role).value;
      && |t.rows| == |stats.items|
      && forall i :: 0 <= i < |t.rows| ==>
        && t.rows[i].number == i + 1
        && t.rows[i].shade == (if i % 2 == 0 then "bg-gray-800" else "bg-gray-750")
        && |t.rows[i].cells| == |t.headers|
  {
    if stats.Arr? && stats.items != [] {
      var columns := ColumnsOf(stats.items, role).value;
      assert TableOf(stats, role).value == Table(Headers(columns), Rows(stats.items, columns));
      RowsShape(stats.items, columns);
      HeadersLength(columns);
    }
  }

  /**
   * The columns are chosen from the CPS allow-list exactly when some row has
   * ConnectionRate, ConnectionsSucceeded or ConnectionsAccepted, and are the
   * fields of that list the first row has, in list order.
   */
  lemma ColumnsChosen(rows: seq<Json>, role: string)
    requires rows != [] && ColumnsOf(rows, role).Some?
    ensures var isCps := exists i :: 0 <= i < |rows| && MarksCps(rows[i]);
      var fields := FieldsFor(isCps, role);
      var columns := ColumnsOf(rows, role).value;
      && (forall k :: k in columns <==> k in fields && k in KeysOf(rows[0]))
      && Subsequence(columns, fields)
  {
    ScanCpsFinds(rows);
    ColumnsAreFilter(FieldsFor(ScanCps(rows).value, role), KeysOf(rows[0]));
  }

  /** A missing or falsy value shows as '0', coloured as a zero. */
  lemma MissingValueShowsZero(row: Json, key: string)
    requires !row.Obj? || key !in row.fields || !JsTruthy(row.fields[key])
    ensures CellValue(row, key) == Str("0")
    ensures JsParseIntOf(CellValue(row, key)) == Some(0)
    ensures ToneOf(key, CellValue(row, key)) != ErrorCount
  {
    ZeroParses();
  }

  lemma ZeroParses()
    ensures JsParseIntOf(Str("0")) == Some(0)
  {
    JsParseIntOfNat(0);
    assert NatToString(0) == "0";
  }

  // ---------------------------------------------------------------------------
  // startTestMonitoring

  /** One answer to the status poll: a response body, or a failed request. */
  datatype StatusReply =
    | Reply(status: string, testStatus: string, elapsed: Option<int>, errorMessage: Option<string>)
    | RequestFailed

  datatype AlertKind = Success | Warning | Danger
  datatype Alert = Alert(message: string, kind: AlertKind)

  /** `Math.max(0, duration - (elapsed || 0))`. */
  function Remaining(duration: int, elapsed: Option<int>): (r: nat)
    ensures elapsed.None? ==> r == (if duration > 0 then duration else 0)
    ensures elapsed.Some? && elapsed.value <= duration ==> r + elapsed.value == duration
    ensures elapsed.Some? && elapsed.value >= duration ==> r == 0
  {
    var e := if elapsed.Some? then elapsed.value else 0;
    if duration - e > 0 then duration - e else 0
  }

  /** The status line for a test status, for the statuses that set one. */
  function StatusText(testStatus: string): Option<string> {
    if testStatus == "initializing" then Some("Initializing test...")
    else if testStatus == "starting_server" then Some("Starting server...")
    else if testStatus == "starting_client" then Some("Starting client...")
    else if testStatus == "running" then Some("Running test...")
    else if testStatus == "stopping" then Some("Collecting final statistics...")
    else if testStatus == "completed" then Some("Test completed successfully!")
    else None
  }

  predicate Terminal(testStatus: string) {
    testStatus == "completed" || testStatus == "error" || testStatus == "cancelled"
  }

  /** A reply after which the poll is cleared. */
  predicate EndsMonitoring(reply: StatusReply) {
    reply.RequestFailed? || (reply.status == "success" && Terminal(reply.testStatus))
  }

  /** Whether the poll is still installed after a sequence of replies. */
  function PollingAfter(replies: seq<StatusReply>): bool
    decreases |replies|
  {
    if replies == [] then true
    else PollingAfter(replies[..|replies| - 1]) && !EndsMonitoring(replies[|replies| - 1])
  }

  /** The poll runs until the first failed request or terminal status, and never restarts. */
  lemma {:induction false} PollingUntilTerminal(replies: seq<StatusReply>)
    ensures PollingAfter(replies) <==> forall i :: 0 <= i < |replies| ==> !EndsMonitoring(replies[i])
    decreases |replies|
  {
    if replies != [] {
      var init := replies[..|replies| - 1];
      PollingUntilTerminal(init);
      assert forall i :: 0 <= i < |init| ==> init[i] == replies[i];
    }
  }

  /** The alert a reply raises, if any. */
  function ReplyAlert(reply: StatusReply): Option<Alert> {
    if reply.RequestFailed? then Some(Alert("Lost connection to test monitoring.", Danger))
    else if reply.status != "success" then None
    else if reply.testStatus == "error" then
      Some(Alert("Test failed: " + (if reply.errorMessage.Some? && reply.errorMessage.value != "" then reply.errorMessage.value else "Unknown error occurred"), Danger))
    else if reply.testStatus == "cancelled" then Some(Alert("Test was cancelled.", Warning))
    else None
  }

  /** A successful reply that reports the test completed. */
  predicate Completes(reply: StatusReply) {
    reply.Reply? && reply.status == "success" && reply.testStatus == "completed"
  }

  /** The progress dialog of a started test and the status poll behind it. */
  class ProgressMonitor {
    const duration: int
    var polling: bool
    var statusText: string
    var remaining: nat
    var dialogOpen: bool
    var alert: Option<Alert>
    /** The one-second timers a completed reply starts, not yet fired. */
    var pendingCloses: nat

    constructor (duration: int)
      ensures this.duration == duration && polling && dialogOpen
      ensures statusText == "" && remaining == 0 && alert == None && pendingCloses == 0
    {
      this.duration := duration;
      polling := true;
      statusText := "";
      remaining := 0;
      dialogOpen := true;
      alert := None;
      pendingCloses := 0;
    }

    /**
     * One reply to the poll. A reply can still arrive after the poll was
     * cleared, since requests already sent are answered. A completed test
     * keeps the dialog open and starts a timer that closes it (`OnCloseTimer`).
     */
    method OnReply(reply: StatusReply)
      modifies this
      ensures polling == (old(polling) && !EndsMonitoring(reply))
      ensures reply.Reply? && reply.status == "success" ==>
        && remaining == Remaining(duration, reply.elapsed)
        && statusText == (if StatusText(reply.testStatus).Some? then StatusText(reply.testStatus).value else old(statusText))
      ensures reply.RequestFailed? || reply.status != "success" ==>
        remaining == old(remaining) && statusText == old(statusText)
      ensures reply.Reply? && reply.status != "success" ==>
        polling == old(polling) && dialogOpen == old(dialogOpen) && alert == old(alert)
      ensures dialogOpen == (old(dialogOpen) && !(EndsMonitoring(reply) && !Completes(reply)))
      ensures alert == (if ReplyAlert(reply).Some? then ReplyAlert(reply) else old(alert))
      ensures reply.RequestFailed? ==> alert == Some(Alert("Lost connection to test monitoring.", Danger))
      ensures reply.Reply? && reply.status == "success" && reply.testStatus == "error" ==>
        alert == Some(Alert("Test failed: " + (if reply.errorMessage.Some? && reply.errorMessage.value != "" then reply.errorMessage.value else "Unknown error occurred"), Danger))
      ensures reply.Reply? && reply.status == "success" && reply.testStatus == "cancelled" ==>
        alert == Some(Alert("Test was cancelled.", Warning))
      ensures reply.Reply? && !(reply.status == "success" && (reply.testStatus == "error" || reply.testStatus == "cancelled")) ==>
        alert == old(alert)
      ensures pendingCloses == old(pendingCloses) + (if Completes(reply) then 1 else 0)
    {
      if reply.RequestFailed? {
        polling := false;
        dialogOpen := false;
        alert := Some(Alert("Lost connection to test monitoring.", Danger));
        return;
      }
      if reply.status != "success" {
        return;
      }
      remaining := Remaining(duration, reply.elapsed);
      var text := StatusText(reply.testStatus);
      if text.Some? {
        statusText := text.value;
      }
      if reply.testStatus == "completed" {
        polling := false;
        pendingCloses := pendingCloses + 1;
      } else if reply.testStatus == "error" {
        polling := false;
        dialogOpen := false;
        var message := if reply.errorMessage.Some? && reply.errorMessage.value != "" then reply.errorMessage.value else "Unknown error occurred";
        alert := Some(Alert("Test failed: " + message, Danger));
      } else if reply.testStatus == "cancelled" {
        polling := false;
        dialogOpen := false;
        alert := Some(Alert("Test was cancelled.", Warning));
      }
    }

    /**
     * A timer started by a completed reply fires: the dialog closes and the
     * success alert is shown; the redirect a second later is navigation.
     */
    method OnCloseTimer()
      requires pendingCloses > 0
      modifies this`dialogOpen, this`alert, this`pendingCloses
      ensures !dialogOpen
      ensures alert == Some(Alert("Test completed! Check the Statistics section for results.", Success))
      ensures pendingCloses == old(pendingCloses) - 1
    {
      dialogOpen := false;
      alert := Some(Alert("Test completed! Check the Statistics section for results.", Success));
      pendingCloses := pendingCloses - 1;
    }
  }
}
