/**
 * The web dashboard's `DataProcessor` helpers: validation of a test
 * configuration submitted from the form, its translation into the server
 * and client requests of the cyperf service, and the formatters that shape
 * statistics, chart series and log lines for display.
 */
module DataProcessor {
  import opened Wrappers
  import opened Text
  import opened Values

  /** A configuration submitted by the web form: a dict of scalar values. */
  type Config = map<string, Scalar>

  /** An exception escaping from a `DataProcessor` helper. */
  datatype Failure =
    | NotInteger(value: Json)   // `int(value)` raised ValueError or TypeError
    | NoLower(value: Json)      // `value.lower()` raised AttributeError
    | NoGet(value: Json)        // `value.get(...)` raised AttributeError
    | NotIterable(value: Json)  // iterating over `value` is not supported
    | NotNumber(value: Json)    // a numeric format or comparison raised TypeError or ValueError
    | NotSubscriptable(value: Json)  // `value[key]` on a text or a list raised TypeError
    | BadTimestamp(value: Json)      // `datetime.fromtimestamp(value)` raised
    | Missing(key: string)      // `config[key]` raised KeyError
    | Invalid(message: string)  // ValueError raised with this message

  /** `config.get(key, default)`. */
  function Get(config: Config, key: string, default: Scalar): Scalar {
    if key in config then config[key] else default
  }

  // ---------------------------------------------------------------------------
  // _is_valid_ip

  predicate IsOctet(part: string) {
    var n := PyParseInt(part);
    n.Some? && 0 <= n.value <= 255
  }

  /**
   * `_is_valid_ip`: the value is a string of exactly four '.'-separated parts
   * that each parse as an integer in 0..255. A value without `split`, or a part
   * that does not parse, gives false rather than an exception.
   */
  predicate IsValidIp(v: Json) {
    && v.Str?
    && var parts := Split(v.s, ".");
    && |parts| == 4
    && IsOctet(parts[0]) && IsOctet(parts[1]) && IsOctet(parts[2]) && IsOctet(parts[3])
  }

  /** The dotted-quad text of four numbers. */
  function DottedQuad(a: nat, b: nat, c: nat, d: nat): string {
    Join([NatToString(a), NatToString(b), NatToString(c), NatToString(d)], ".")
  }

  lemma DigitsHaveNoDot(s: string)
    requires AllDigits(s)
    ensures '.' !in s
  {
    forall i | 0 <= i < |s|
      ensures s[i] != '.'
    {
      assert IsDigit(s[i]);
    }
  }

  /** The parts of a canonical dotted quad are its four numbers' digits. */
  lemma DottedQuadParts(a: nat, b: nat, c: nat, d: nat)
    ensures Split(DottedQuad(a, b, c, d), ".") == [NatToString(a), NatToString(b), NatToString(c), NatToString(d)]
  {
    var parts := [NatToString(a), NatToString(b), NatToString(c), NatToString(d)];
    forall i | 0 <= i < 4
      ensures '.' !in parts[i]
    {
      DigitsHaveNoDot(parts[i]);
    }
    SplitJoin(parts, '.');
  }

  /** A canonical dotted quad is accepted exactly when every number is at most 255. */
  lemma DottedQuadAccepted(a: nat, b: nat, c: nat, d: nat)
    ensures IsValidIp(Str(DottedQuad(a, b, c, d))) <==> a <= 255 && b <= 255 && c <= 255 && d <= 255
  {
    DottedQuadParts(a, b, c, d);
    OctetOfNat(a);
    OctetOfNat(b);
    OctetOfNat(c);
    OctetOfNat(d);
  }

  lemma OctetOfNat(n: nat)
    ensures IsOctet(NatToString(n)) <==> n <= 255
  {
    PyParseIntOfNat(n);
  }

  /** A string with other than four parts is rejected, whatever the parts hold. */
  lemma IpNeedsFourParts(s: string)
    requires |Split(s, ".")| != 4
    ensures !IsValidIp(Str(s))
  {
  }

  /** "999.0.0.1" has the shape of an address but is rejected: 999 is not an octet. */
  lemma OutOfRangeOctetRejected()
    ensures !IsValidIp(Str("999.0.0.1"))
  {
    DottedQuadAccepted(999, 0, 0, 1);
    OutOfRangeQuadText();
  }

  lemma OutOfRangeQuadText()
    ensures DottedQuad(999, 0, 0, 1) == "999.0.0.1"
  {
    assert NatToString(999) == "999" && NatToString(0) == "0" && NatToString(1) == "1";
  }

  // ---------------------------------------------------------------------------
  // validate_test_config

  /** The outcome of `validate_test_config`. */
  datatype Validation = Validation(valid: bool, errors: seq<string>, warnings: seq<string>)

  /** Errors and warnings gathered by one part of the validation. */
  datatype Findings = Findings(errors: seq<string>, warnings: seq<string>)

  /** A numeric field with its recommended inclusive range. */
  datatype Range = Range(field: string, lo: int, hi: int)

  const RequiredFields: seq<string> := ["test_type", "duration", "server_ip", "client_ip"]
  const IpFields: seq<string> := ["server_ip", "client_ip"]
  const NumericRanges: seq<Range> := [
    Range("duration", 1, 3600),
    Range("snapshot_interval", 1, 60),
    Range("packet_size", 64, 9000),
    Range("connections_per_second", 1, 100000)
  ]

  const BandwidthMissing := "Missing required field: bandwidth_mbps for throughput test"
  const BandwidthNotPositive := "Bandwidth must be greater than 0"
  const BandwidthTooHigh := "Bandwidth exceeds recommended maximum (10000 Mbps)"
  const BandwidthInvalid := "Invalid bandwidth value: must be a positive integer"

  /** The field is present and truthy. */
  predicate Present(config: Config, field: string) {
    field in config && PyTruthy(config[field])
  }

  function MissingMessage(field: string): string { "Missing required field: " + field }

  function IpMessage(field: string): string { "Invalid IP address format: " + field }

  function InvalidNumberMessage(field: string): string { "Invalid numeric value for " + field }

  function RangeWarning(rule: Range, value: int): string {
    rule.field + " value " + IntToString(value) + " is outside recommended range ("
      + IntToString(rule.lo) + "-" + IntToString(rule.hi) + ")"
  }

  /** One "Missing required field" error per absent or falsy field, in order. */
  function MissingErrors(config: Config, fields: seq<string>): seq<string>
    decreases |fields|
  {
    if fields == [] then []
    else
      var f := fields[|fields| - 1];
      MissingErrors(config, fields[..|fields| - 1]) + (if Present(config, f) then [] else [MissingMessage(f)])
  }

  /** One "Invalid IP address format" error per present field that is not a dotted quad. */
  function IpErrors(config: Config, fields: seq<string>): seq<string>
    decreases |fields|
  {
    if fields == [] then []
    else
      var f := fields[|fields| - 1];
      IpErrors(config, fields[..|fields| - 1])
        + (if f in config && !IsValidIp(config[f]) then [IpMessage(f)] else [])
  }

  /** `config.get('test_type', '').lower()`. */
  function TestTypeOf(config: Config): Result<string, Failure> {
    var v := Get(config, "test_type", Str(""));
    if v.Str? then Ok(Lower(v.s)) else Err(NoLower(v))
  }

  /** The bandwidth rule of a throughput test. */
  function BandwidthFindings(config: Config): Findings {
    if "bandwidth_mbps" !in config then Findings([BandwidthMissing], [])
    else match PyInt(config["bandwidth_mbps"])
      case None => Findings([BandwidthInvalid], [])
      case Some(b) =>
        if b <= 0 then Findings([BandwidthNotPositive], [])
        else if b > 10000 then Findings([], [BandwidthTooHigh])
        else Findings([], [])
  }

  /** One range rule applied to the configuration, after the findings `prev`. */
  function RangeStep(config: Config, rule: Range, prev: Findings): Findings {
    if rule.field !in config then prev
    else match PyInt(config[rule.field])
      case None => Findings(prev.errors + [InvalidNumberMessage(rule.field)], prev.warnings)
      case Some(v) =>
        if v < rule.lo || v > rule.hi then Findings(prev.errors, prev.warnings + [RangeWarning(rule, v)])
        else prev
  }

  /** The range rules applied in order. */
  function RangeFindings(config: Config, rules: seq<Range>): Findings
    decreases |rules|
  {
    if rules == [] then Findings([], [])
    else RangeStep(config, rules[|rules| - 1], RangeFindings(config, rules[..|rules| - 1]))
  }

  /** What `validate_test_config` returns, or the exception it raises. */
  function ValidationOf(config: Config): Result<Validation, Failure> {
    match TestTypeOf(config)
    case Err(e) => Err(e)
    case Ok(testType) =>
      var bandwidth := if testType == "throughput" then BandwidthFindings(config) else Findings([], []);
      var ranges := RangeFindings(config, NumericRanges);
      var errors := MissingErrors(config, RequiredFields) + IpErrors(config, IpFields)
        + bandwidth.errors + ranges.errors;
      Ok(Validation(errors == [], errors, bandwidth.warnings + ranges.warnings))
  }

  /** The required-field loop of `validate_test_config`. */
  method CheckRequired(config: Config, fields: seq<string>) returns (errors: seq<string>)
    ensures errors == MissingErrors(config, fields)
  {
    errors := [];
    var i := 0;
    while i < |fields|
      invariant 0 <= i <= |fields|
      invariant errors == MissingErrors(config, fields[..i])
    {
      var field := fields[i];
      if field !in config || !PyTruthy(config[field]) {
        errors := errors + [MissingMessage(field)];
      }
      assert fields[..i + 1][..i] == fields[..i];
      i := i + 1;
    }
    assert fields[..i] == fields;
  }

  /** The address loop of `validate_test_config`. */
  method CheckAddresses(config: Config, fields: seq<string>) returns (errors: seq<string>)
    ensures errors == IpErrors(config, fields)
  {
    errors := [];
    var i := 0;
    while i < |fields|
      invariant 0 <= i <= |fields|
      invariant errors == IpErrors(config, fields[..i])
    {
      var field := fields[i];
      if field in config && !IsValidIp(config[field]) {
        errors := errors + [IpMessage(field)];
      }
      assert fields[..i + 1][..i] == fields[..i];
      i := i + 1;
    }
    assert fields[..i] == fields;
  }

  /** The numeric-range loop of `validate_test_config`. */
  method CheckRanges(config: Config, rules: seq<Range>) returns (found: Findings)
    ensures found == RangeFindings(config, rules)
  {
    var errors: seq<string> := [];
    var warnings: seq<string> := [];
    var i := 0;
    while i < |rules|
      invariant 0 <= i <= |rules|
      invariant Findings(errors, warnings) == RangeFindings(config, rules[..i])
    {
      var rule := rules[i];
      if rule.field in config {
        var value := PyInt(config[rule.field]);
        if value.None? {
          errors := errors + [InvalidNumberMessage(rule.field)];
        } else if value.value < rule.lo || value.value > rule.hi {
          warnings := warnings + [RangeWarning(rule, value.value)];
        }
      }
      assert rules[..i + 1][..i] == rules[..i];
      i := i + 1;
    }
    assert rules[..i] == rules;
    found := Findings(errors, warnings);
  }

  /** `validate_test_config`, accumulating errors and warnings rule by rule. */
  method ValidateTestConfig(config: Config) returns (r: Result<Validation, Failure>)
    ensures r == ValidationOf(config)
    ensures r.Ok? ==> (r.value.valid <==> r.value.errors == [])
  {
    var errors := CheckRequired(config, RequiredFields);
    var ipErrors := CheckAddresses(config, IpFields);
    errors := errors + ipErrors;
    var warnings: seq<string> := [];
    var testType :- TestTypeOf(config);
    if testType == "throughput" {
      if "bandwidth_mbps" !in config {
        errors := errors + [BandwidthMissing];
      } else {
        var bandwidth := PyInt(config["bandwidth_mbps"]);
        if bandwidth.None? {
          errors := errors + [BandwidthInvalid];
        } else if bandwidth.value <= 0 {
          errors := errors + [BandwidthNotPositive];
        } else if bandwidth.value > 10000 {
          warnings := warnings + [BandwidthTooHigh];
        }
      }
    }
    ghost var bandwidth := if testType == "throughput" then BandwidthFindings(config) else Findings([], []);
    assert errors == MissingErrors(config, RequiredFields) + ipErrors + bandwidth.errors;
    assert warnings == bandwidth.warnings;
    var ranges := CheckRanges(config, NumericRanges);
    errors := errors + ranges.errors;
    warnings := warnings + ranges.warnings;
    r := Ok(Validation(|errors| == 0, errors, warnings));
  }

  lemma {:induction false} MissingErrorsEmpty(config: Config, fields: seq<string>)
    ensures MissingErrors(config, fields) == [] <==> forall i :: 0 <= i < |fields| ==> Present(config, fields[i])
    decreases |fields|
  {
    if fields != [] {
      var init := fields[..|fields| - 1];
      MissingErrorsEmpty(config, init);
      assert forall i :: 0 <= i < |init| ==> init[i] == fields[i];
    }
  }

  lemma {:induction false} IpErrorsEmpty(config: Config, fields: seq<string>)
    ensures IpErrors(config, fields) == [] <==>
      forall i :: 0 <= i < |fields| && fields[i] in config ==> IsValidIp(config[fields[i]])
    decreases |fields|
  {
    if fields != [] {
      var init := fields[..|fields| - 1];
      IpErrorsEmpty(config, init);
      assert forall i :: 0 <= i < |init| ==> init[i] == fields[i];
    }
  }

  /** Every field of the rules that is present parses as an integer. */
  predicate NumbersParse(config: Config, rules: seq<Range>) {
    forall i :: 0 <= i < |rules| && rules[i].field in config ==> PyInt(config[rules[i].field]).Some?
  }

  /** A range rule only ever produces an error for a value that does not parse; an out-of-range value is a warning. */
  lemma {:induction false} RangeErrorsOnlyForNonIntegers(config: Config, rules: seq<Range>)
    ensures RangeFindings(config, rules).errors == [] <==> NumbersParse(config, rules)
    decreases |rules|
  {
    if rules != [] {
      var init := rules[..|rules| - 1];
      RangeErrorsOnlyForNonIntegers(config, init);
      assert forall i :: 0 <= i < |init| ==> init[i] == rules[i];
    }
  }

  /** The bandwidth of a throughput test is present, an integer, and positive. */
  predicate BandwidthAccepted(config: Config) {
    "bandwidth_mbps" in config && PyInt(config["bandwidth_mbps"]).Some? && PyInt(config["bandwidth_mbps"]).value > 0
  }

  /** The four required fields are present and truthy. */
  predicate RequiredPresent(config: Config) {
    && Present(config, "test_type") && Present(config, "duration")
    && Present(config, "server_ip") && Present(config, "client_ip")
  }

  /** The address fields that are present are dotted quads. */
  predicate AddressesWellFormed(config: Config) {
    && ("server_ip" in config ==> IsValidIp(config["server_ip"]))
    && ("client_ip" in config ==> IsValidIp(config["client_ip"]))
  }

  lemma RequiredErrorsEmpty(config: Config)
    ensures MissingErrors(config, RequiredFields) == [] <==> RequiredPresent(config)
  {
    MissingErrorsEmpty(config, RequiredFields);
    if RequiredPresent(config) {
      forall i | 0 <= i < |RequiredFields| ensures Present(config, RequiredFields[i]) {
        assert i == 0 || i == 1 || i == 2 || i == 3;
      }
    }
    if MissingErrors(config, RequiredFields) == [] {
      assert Present(config, RequiredFields[0]) && Present(config, RequiredFields[1]);
      assert Present(config, RequiredFields[2]) && Present(config, RequiredFields[3]);
    }
  }

  lemma AddressErrorsEmpty(config: Config)
    ensures IpErrors(config, IpFields) == [] <==> AddressesWellFormed(config)
  {
    IpErrorsEmpty(config, IpFields);
    assert IpFields[0] == "server_ip" && IpFields[1] == "client_ip";
  }

  lemma BandwidthErrorsEmpty(config: Config)
    ensures BandwidthFindings(config).errors == [] <==> BandwidthAccepted(config)
  {
  }

  /**
   * A configuration is valid exactly when the four required fields are present
   * and truthy, the addresses that are present are dotted quads, a throughput
   * test has a positive integer bandwidth, and every numeric field present
   * parses. Range violations, and a bandwidth above 10000, never invalidate it.
   */
  lemma ValidationVerdict(config: Config)
    requires ValidationOf(config).Ok?
    ensures ValidationOf(config).value.valid <==>
      && RequiredPresent(config)
      && AddressesWellFormed(config)
      && (TestTypeOf(config).value == "throughput" ==> BandwidthAccepted(config))
      && NumbersParse(config, NumericRanges)
  {
    var t := TestTypeOf(config).value;
    var bandwidth := if t == "throughput" then BandwidthFindings(config) else Findings([], []);
    var missing := MissingErrors(config, RequiredFields);
    var ips := IpErrors(config, IpFields);
    var ranges := RangeFindings(config, NumericRanges).errors;
    assert ValidationOf(config).value.errors == missing + ips + bandwidth.errors + ranges;
    assert missing + ips + bandwidth.errors + ranges == [] <==>
      missing == [] && ips == [] && bandwidth.errors == [] && ranges == [];
    RequiredErrorsEmpty(config);
    AddressErrorsEmpty(config);
    BandwidthErrorsEmpty(config);
    RangeErrorsOnlyForNonIntegers(config, NumericRanges);
  }

  /** A required field that is missing is reported exactly once, and a present one never. */
  lemma {:induction false} MissingReportedOnce(config: Config, fields: seq<string>, f: string)
    requires forall i, j :: 0 <= i < j < |fields| ==> fields[i] != fields[j]
    ensures multiset(MissingErrors(config, fields))[MissingMessage(f)] ==
      if f in fields && !Present(config, f) then 1 else 0
    decreases |fields|
  {
    if fields != [] {
      var init := fields[..|fields| - 1];
      var g := fields[|fields| - 1];
      MissingReportedOnce(config, init, f);
      assert fields == init + [g];
      if MissingMessage(g) == MissingMessage(f) {
        assert g == MissingMessage(g)[24..] == MissingMessage(f)[24..] == f;
        assert f !in init;
      }
    }
  }

  /** Each of the four required fields that is absent or falsy adds exactly one error. */
  lemma RequiredFieldErrors(config: Config, f: string)
    requires ValidationOf(config).Ok?
    requires f in RequiredFields
    ensures !Present(config, f) ==> MissingMessage(f) in ValidationOf(config).value.errors
    ensures multiset(MissingErrors(config, RequiredFields))[MissingMessage(f)] == if Present(config, f) then 0 else 1
  {
    RequiredFieldsDistinct();
    MissingReportedOnce(config, RequiredFields, f);
    if !Present(config, f) {
      MissingFieldReported(config, f);
    }
  }

  lemma MissingFieldReported(config: Config, f: string)
    requires ValidationOf(config).Ok?
    requires MissingMessage(f) in multiset(MissingErrors(config, RequiredFields))
    ensures MissingMessage(f) in ValidationOf(config).value.errors
  {
    var missing := MissingErrors(config, RequiredFields);
    var k :| 0 <= k < |missing| && missing[k] == MissingMessage(f);
    MissingErrorsComeFirst(config);
    assert ValidationOf(config).value.errors[k] == missing[k];
  }

  lemma RequiredFieldsDistinct()
    ensures forall i, j :: 0 <= i < j < |RequiredFields| ==> RequiredFields[i] != RequiredFields[j]
  {
    assert "test_type"[0] != "server_ip"[0] && "test_type"[0] != "client_ip"[0] && "server_ip"[0] != "client_ip"[0];
  }

  /** The missing-field errors open the error list. */
  lemma MissingErrorsComeFirst(config: Config)
    requires ValidationOf(config).Ok?
    ensures var missing := MissingErrors(config, RequiredFields);
      |missing| <= |ValidationOf(config).value.errors|
      && ValidationOf(config).value.errors[..|missing|] == missing
  {
  }

  /** A throughput bandwidth above 10000 only warns: with everything else in order the configuration stays valid. */
  lemma HighBandwidthOnlyWarns(config: Config)
    requires ValidationOf(config).Ok? && TestTypeOf(config).value == "throughput"
    requires "bandwidth_mbps" in config && PyInt(config["bandwidth_mbps"]) == Some(20000)
    ensures BandwidthTooHigh in ValidationOf(config).value.warnings
    ensures BandwidthFindings(config).errors == []
  {
  }

  // ---------------------------------------------------------------------------
  // convert_web_config_to_api

  /** `server_params` of the server request. */
  datatype ServerParams = ServerParams(cps: bool, port: int, length: string, csvStats: bool, bidi: bool, reverse: bool)

  /** `client_params` of the client request; `bitrate` and `cpsRateLimit` are set only for some tests. */
  datatype ClientParams = ClientParams(
    cps: bool, port: int, length: string, time: int, csvStats: bool, parallel: int,
    reverse: bool, bidi: bool, interval: int, bitrate: Option<string>, cpsRateLimit: Option<string>)

  datatype ServerRequest = ServerRequest(serverIp: Scalar, params: ServerParams)
  datatype ClientRequest = ClientRequest(serverIp: Scalar, clientIp: Scalar, params: ClientParams)
  datatype ApiRequests = ApiRequests(server: ServerRequest, client: ClientRequest)

  /** `int(config.get(key, default))`. */
  function IntField(config: Config, key: string, default: int): (r: Result<int, Failure>)
    ensures r.Ok? <==> PyInt(Get(config, key, Int(default))).Some?
    ensures r.Ok? ==> r.value == PyInt(Get(config, key, Int(default))).value
  {
    var v := Get(config, key, Int(default));
    match PyInt(v)
    case Some(n) => Ok(n)
    case None => Err(NotInteger(v))
  }

  /** `config.get('test_type', 'throughput').lower()`. */
  function ApiTestType(config: Config): Result<string, Failure> {
    var v := Get(config, "test_type", Str("throughput"));
    if v.Str? then Ok(Lower(v.s)) else Err(NoLower(v))
  }

  function RateMessage(what: string, v: Scalar): string {
    "Invalid " + what + " value: " + PyStr(v) + ". Must be a positive integer."
  }

  /** `f"{int(config[key])}{suffix}"` for a positive value, otherwise the ValueError naming `what`. */
  function PositiveRate(config: Config, key: string, suffix: string, what: string): (r: Result<string, Failure>)
    requires key in config
    ensures r.Ok? <==> PyInt(config[key]).Some? && PyInt(config[key]).value > 0
    ensures r.Ok? ==> r.value == NatToString(PyInt(config[key]).value) + suffix
  {
    match PyInt(config[key])
    case Some(n) => if n <= 0 then Err(Invalid(RateMessage(what, config[key]))) else Ok(IntToString(n) + suffix)
    case None => Err(Invalid(RateMessage(what, config[key])))
  }

  /** The fields read before the optional rate parameters all convert. */
  predicate BasicFieldsConvert(config: Config) {
    && ApiTestType(config).Ok?
    && IntField(config, "port", 5202).Ok?
    && IntField(config, "duration", 60).Ok?
    && IntField(config, "parallel_sessions", 1).Ok?
    && IntField(config, "snapshot_interval", 5).Ok?
  }

  /**
   * `convert_web_config_to_api`: the server and client requests for the
   * service, or the exception raised on the way.
   */
  function ConvertWebConfigToApi(config: Config): (r: Result<ApiRequests, Failure>)
    ensures r.Ok? ==> BasicFieldsConvert(config)
    ensures r.Ok? ==>
      var s := r.value.server.params;
      var c := r.value.client.params;
      && BasicFieldsConvert(config)
      && s.cps == c.cps && s.port == c.port && s.length == c.length && s.bidi == c.bidi && s.reverse == c.reverse
      && s.csvStats && c.csvStats
      && s.cps == (ApiTestType(config).value == "cps")
      && "server_ip" in config && "client_ip" in config
      && r.value.server.serverIp == r.value.client.serverIp == config["server_ip"]
      && r.value.client.clientIp == config["client_ip"]
    ensures r.Ok? ==>
      (r.value.client.params.bitrate.Some? <==> ApiTestType(config).value == "throughput" && "bandwidth_mbps" in config)
    ensures r.Ok? ==>
      (r.value.client.params.cpsRateLimit.Some? <==> ApiTestType(config).value == "cps" && "connections_per_second" in config)
    ensures BasicFieldsConvert(config) && ApiTestType(config).value == "throughput" && "bandwidth_mbps" in config
      && !BandwidthAccepted(config)
      ==> r == Err(Invalid(RateMessage("bandwidth", config["bandwidth_mbps"])))
  {
    var testType :- ApiTestType(config);
    var port :- IntField(config, "port", 5202);
    var duration :- IntField(config, "duration", 60);
    var length := PyStr(Get(config, "packet_size", Int(1500)));
    var bidi := Get(config, "direction", Null) == Str("bidirectional");
    var reverse := Get(config, "traffic_direction", Null) == Str("server_to_client");
    var server := ServerParams(testType == "cps", port, length, true, bidi, reverse);
    var parallel :- IntField(config, "parallel_sessions", 1);
    var interval :- IntField(config, "snapshot_interval", 5);
    var bitrate :-
      if testType == "throughput" && "bandwidth_mbps" in config then
        var b :- PositiveRate(config, "bandwidth_mbps", "M/s", "bandwidth"); Ok(Some(b))
      else Ok(None);
    var cpsRate :-
      if testType == "cps" && "connections_per_second" in config then
        var c :- PositiveRate(config, "connections_per_second", "/s", "CPS rate"); Ok(Some(c))
      else Ok(None);
    var client := ClientParams(testType == "cps", port, length, duration, true, parallel, reverse, bidi, interval,
      bitrate, cpsRate);
    if "server_ip" !in config then Err(Missing("server_ip"))
    else if "client_ip" !in config then Err(Missing("client_ip"))
    else Ok(ApiRequests(ServerRequest(config["server_ip"], server),
      ClientRequest(config["server_ip"], config["client_ip"], client)))
  }

  /** The number in a "<n>M/s" bitrate parses back to the submitted bandwidth, which is positive. */
  lemma BitrateRoundTrip(config: Config)
    requires ConvertWebConfigToApi(config).Ok?
    requires ConvertWebConfigToApi(config).value.client.params.bitrate.Some?
    ensures var b := ConvertWebConfigToApi(config).value.client.params.bitrate.value;
      && |b| > 3 && EndsWith(b, "M/s")
      && BandwidthAccepted(config)
      && PyParseInt(b[..|b| - 3]) == PyInt(config["bandwidth_mbps"])
  {
    var n := PyInt(config["bandwidth_mbps"]).value;
    var b := ConvertWebConfigToApi(config).value.client.params.bitrate.value;
    assert b == PositiveRate(config, "bandwidth_mbps", "M/s", "bandwidth").value;
    assert b == NatToString(n) + "M/s";
    assert b[..|b| - 3] == NatToString(n);
    PyParseIntOfNat(n);
  }

  /** The number in a "<n>/s" CPS rate limit parses back to the submitted rate, which is positive. */
  lemma CpsRateRoundTrip(config: Config)
    requires ConvertWebConfigToApi(config).Ok?
    requires ConvertWebConfigToApi(config).value.client.params.cpsRateLimit.Some?
    ensures var c := ConvertWebConfigToApi(config).value.client.params.cpsRateLimit.value;
      && "connections_per_second" in config
      && |c| > 2 && EndsWith(c, "/s")
      && PyInt(config["connections_per_second"]).Some? && PyInt(config["connections_per_second"]).value > 0
      && PyParseInt(c[..|c| - 2]) == PyInt(config["connections_per_second"])
  {
    var n := PyInt(config["connections_per_second"]).value;
    var c := ConvertWebConfigToApi(config).value.client.params.cpsRateLimit.value;
    assert c == PositiveRate(config, "connections_per_second", "/s", "CPS rate").value;
    assert c == NatToString(n) + "/s";
    assert c[..|c| - 2] == NatToString(n);
    PyParseIntOfNat(n);
  }

  /** The target CPS rate of a CPS test is an integer and positive. */
  predicate CpsRateAccepted(config: Config) {
    "connections_per_second" in config
      && PyInt(config["connections_per_second"]).Some? && PyInt(config["connections_per_second"]).value > 0
  }

  /**
   * Conversion succeeds exactly when the fields it reads convert, both
   * addresses are present, and each rate it has to set is a positive integer.
   */
  lemma ConversionSucceeds(config: Config)
    ensures ConvertWebConfigToApi(config).Ok? <==>
      && BasicFieldsConvert(config)
      && "server_ip" in config && "client_ip" in config
      && (ApiTestType(config).value == "throughput" && "bandwidth_mbps" in config ==> BandwidthAccepted(config))
      && (ApiTestType(config).value == "cps" && "connections_per_second" in config ==> CpsRateAccepted(config))
  {
    if ConvertWebConfigToApi(config).Ok? {
      var c := ConvertWebConfigToApi(config).value.client.params;
      if c.bitrate.Some? {
        BitrateRoundTrip(config);
      }
      if c.cpsRateLimit.Some? {
        CpsRateRoundTrip(config);
      }
    }
  }

  /**
   * The checks validation makes leave every field `convert_web_config_to_api`
   * reads in convertible form, except port and session count.
   */
  lemma ValidFieldsConvert(config: Config)
    requires TestTypeOf(config).Ok? && RequiredPresent(config) && NumbersParse(config, NumericRanges)
    requires IntField(config, "port", 5202).Ok? && IntField(config, "parallel_sessions", 1).Ok?
    ensures BasicFieldsConvert(config)
    ensures ApiTestType(config) == TestTypeOf(config)
    ensures "server_ip" in config && "client_ip" in config
  {
    assert NumericRanges[0].field == "duration" && NumericRanges[1].field == "snapshot_interval";
    assert PyInt(config["duration"]).Some?;
    if "snapshot_interval" in config {
      assert PyInt(config["snapshot_interval"]).Some?;
    }
  }

  /**
   * A throughput configuration that validates, and whose port and parallel
   * session count parse, converts; its bitrate is the bandwidth in "<n>M/s" form.
   */
  lemma ValidThroughputConfigConverts(config: Config)
    requires ValidationOf(config).Ok? && ValidationOf(config).value.valid
    requires TestTypeOf(config).value == "throughput"
    requires IntField(config, "port", 5202).Ok? && IntField(config, "parallel_sessions", 1).Ok?
    ensures ConvertWebConfigToApi(config).Ok?
    ensures ConvertWebConfigToApi(config).value.client.params.bitrate
      == Some(IntToString(PyInt(config["bandwidth_mbps"]).value) + "M/s")
  {
    ValidationVerdict(config);
    ValidFieldsConvert(config);
    ConversionSucceeds(config);
    ThroughputBitrate(config);
  }

  lemma ThroughputBitrate(config: Config)
    requires ConvertWebConfigToApi(config).Ok? && ApiTestType(config).value == "throughput"
    requires "bandwidth_mbps" in config
    ensures ConvertWebConfigToApi(config).value.client.params.bitrate
      == Some(IntToString(PyInt(config["bandwidth_mbps"]).value) + "M/s")
  {
  }

  /** A CPS configuration whose target rate is 0: everything else is in order. */
  function ZeroRateConfig(server: string, client: string): Config {
    map[
      "test_type" := Str("cps"), "duration" := Int(60),
      "server_ip" := Str(server), "client_ip" := Str(client),
      "connections_per_second" := Int(0)]
  }

  lemma LowerCps()
    ensures Lower("cps") == "cps"
  {
    var l := Lower("cps");
    assert l[0] == 'c' && l[1] == 'p' && l[2] == 's';
  }

  lemma ZeroRateNumbers(server: string, client: string)
    ensures NumbersParse(ZeroRateConfig(server, client), NumericRanges)
  {
    var config := ZeroRateConfig(server, client);
    forall i | 0 <= i < |NumericRanges| && NumericRanges[i].field in config
      ensures PyInt(config[NumericRanges[i].field]).Some?
    {
      assert i == 0 || i == 1 || i == 2 || i == 3;
    }
  }

  lemma ZeroRateTestType(server: string, client: string)
    ensures TestTypeOf(ZeroRateConfig(server, client)) == Ok("cps")
    ensures ApiTestType(ZeroRateConfig(server, client)) == Ok("cps")
  {
    var config := ZeroRateConfig(server, client);
    LowerCps();
    assert "test_type" in config && config["test_type"] == Str("cps");
  }

  lemma ZeroRateConfigValidates(server: string, client: string)
    requires IsValidIp(Str(server)) && IsValidIp(Str(client))
    ensures ValidationOf(ZeroRateConfig(server, client)).Ok?
    ensures ValidationOf(ZeroRateConfig(server, client)).value.valid
  {
    ZeroRateTestType(server, client);
    EmptyIsNotIp();
    ZeroRateRequired(server, client);
    ZeroRateAddresses(server, client);
    ZeroRateNumbers(server, client);
    ValidationVerdict(ZeroRateConfig(server, client));
  }

  lemma ZeroRateLookups(server: string, client: string)
    ensures var config := ZeroRateConfig(server, client);
      && "test_type" in config && config["test_type"] == Str("cps")
      && "duration" in config && config["duration"] == Int(60)
      && "server_ip" in config && config["server_ip"] == Str(server)
      && "client_ip" in config && config["client_ip"] == Str(client)
      && "connections_per_second" in config && config["connections_per_second"] == Int(0)
  {
  }

  lemma ZeroRateRequired(server: string, client: string)
    requires server != "" && client != ""
    ensures RequiredPresent(ZeroRateConfig(server, client))
  {
    ZeroRateLookups(server, client);
  }

  lemma EmptyIsNotIp()
    ensures !IsValidIp(Str(""))
  {
    assert Split("", ".") == [""];
  }

  lemma ZeroRateAddresses(server: string, client: string)
    requires IsValidIp(Str(server)) && IsValidIp(Str(client))
    ensures AddressesWellFormed(ZeroRateConfig(server, client))
  {
    ZeroRateLookups(server, client);
  }

  /**
   * A CPS test whose target rate is 0, between any two well-formed
   * addresses, validates (the range rule only warns) but is refused by the
   * conversion.
   */
  lemma ZeroCpsRateValidatesButFailsConversion(server: string, client: string)
    requires IsValidIp(Str(server)) && IsValidIp(Str(client))
    ensures ValidationOf(ZeroRateConfig(server, client)).Ok?
    ensures ValidationOf(ZeroRateConfig(server, client)).value.valid
    ensures ConvertWebConfigToApi(ZeroRateConfig(server, client)).Err?
  {
    ZeroRateConfigValidates(server, client);
    ZeroRateRefused(server, client);
  }

  lemma ZeroRateRefused(server: string, client: string)
    ensures ConvertWebConfigToApi(ZeroRateConfig(server, client)).Err?
  {
    ZeroRateTestType(server, client);
    ZeroRateLookups(server, client);
    var config := ZeroRateConfig(server, client);
    assert !CpsRateAccepted(config);
    ConversionSucceeds(config);
  }

  // ---------------------------------------------------------------------------
  // _format_bytes

  const Units: seq<string> := ["B", "KB", "MB", "GB", "TB"]

  function Pow1024(k: nat): (p: nat)
    ensures p >= 1
  {
    if k == 0 then 1 else 1024 * Pow1024(k - 1)
  }

  /** The unit index reached by dividing by 1024 while the size is at least 1024, starting at index `k`. */
  function UnitFrom(bytes: int, k: nat): (u: nat)
    requires k <= 4
    ensures k <= u <= 4
    decreases 4 - k
  {
    if k < 4 && bytes >= Pow1024(k + 1) then UnitFrom(bytes, k + 1) else k
  }

  function UnitIndex(bytes: int): nat { UnitFrom(bytes, 0) }

  /** What `_format_bytes` prints, before its two-decimal rendering. */
  datatype ByteSize = ZeroBytes | Scaled(size: real, unit: string)

  /** The value `_format_bytes` computes for `bytes`. */
  function ByteSizeOf(bytes: int): ByteSize {
    if bytes == 0 then ZeroBytes
    else Scaled(bytes as real / Pow1024(UnitIndex(bytes)) as real, Units[UnitIndex(bytes) as nat])
  }

  lemma {:induction false} UnitFromBounds(bytes: int, k: nat)
    requires k <= 4 && (k == 0 || bytes >= Pow1024(k))
    ensures var u := UnitFrom(bytes, k);
      && (u == 0 || bytes >= Pow1024(u))
      && (u < 4 ==> bytes < Pow1024(u + 1))
    decreases 4 - k
  {
    if k < 4 && bytes >= Pow1024(k + 1) {
      UnitFromBounds(bytes, k + 1);
    }
  }

  lemma {:induction false} Pow1024Grows(i: nat, j: nat)
    requires i <= j
    ensures Pow1024(i) <= Pow1024(j)
    decreases j
  {
    if i < j {
      Pow1024Grows(i, j - 1);
    }
  }

  /**
   * The unit is the largest index k <= 4 with bytes >= 1024^k: B below 1024
   * (and for negative values), TB from 1024^4 upwards, whatever the size.
   */
  lemma UnitIndexIsLargest(bytes: int)
    ensures var k := UnitIndex(bytes);
      && k <= 4
      && (k == 0 || bytes >= Pow1024(k))
      && (forall j :: k < j <= 4 ==> bytes < Pow1024(j))
  {
    var k := UnitIndex(bytes);
    UnitFromBounds(bytes, 0);
    forall j | k < j <= 4
      ensures bytes < Pow1024(j)
    {
      Pow1024Grows(k + 1, j);
    }
  }

  lemma ScaledAtLeast(bytes: int, p: nat)
    requires p >= 1
    ensures bytes as real / p as real >= 1024.0 <==> bytes >= 1024 * p
  {
    var size := bytes as real / p as real;
    assert size * p as real == bytes as real;
  }

  /** `_format_bytes`: 0 is "0 B"; otherwise divide by 1024 until below 1024 or at TB. */
  method FormatBytes(bytes: int) returns (r: ByteSize)
    ensures r == ByteSizeOf(bytes)
  {
    if bytes == 0 {
      return ZeroBytes;
    }
    var size: real := bytes as real;
    var k := 0;
    while size >= 1024.0 && k < |Units| - 1
      invariant 0 <= k <= 4
      invariant size == bytes as real / Pow1024(k) as real
      invariant UnitFrom(bytes, k) == UnitIndex(bytes)
      decreases 4 - k
    {
      ScaledAtLeast(bytes, Pow1024(k));
      size := size / 1024.0;
      k := k + 1;
    }
    ScaledAtLeast(bytes, Pow1024(k));
    r := Scaled(size, Units[k]);
  }

  // ---------------------------------------------------------------------------
  // _extract_log_level

  /** `_extract_log_level`: the first keyword found in the upper-cased message. */
  function ExtractLogLevel(message: string): string {
    var u := Upper(message);
    if Contains(u, "ERROR") || Contains(u, "ERR") then "ERROR"
    else if Contains(u, "WARN") then "WARNING"
    else if Contains(u, "INFO") then "INFO"
    else if Contains(u, "DEBUG") then "DEBUG"
    else "INFO"
  }

  /**
   * The level is ERROR exactly when the upper-cased message contains "ERR"
   * (the "ERROR" test adds nothing), else WARNING when it contains "WARN",
   * else DEBUG when it contains "DEBUG" but not "INFO", and INFO otherwise.
   */
  lemma LogLevelPrecedence(message: string)
    ensures var u := Upper(message);
      var level := ExtractLogLevel(message);
      && (level == "ERROR" <==> Contains(u, "ERR"))
      && (level == "WARNING" <==> !Contains(u, "ERR") && Contains(u, "WARN"))
      && (level == "DEBUG" <==> !Contains(u, "ERR") && !Contains(u, "WARN") && !Contains(u, "INFO") && Contains(u, "DEBUG"))
      && (level == "INFO" <==> !Contains(u, "ERR") && !Contains(u, "WARN") && (Contains(u, "INFO") || !Contains(u, "DEBUG")))
  {
    var u := Upper(message);
    if Contains(u, "ERROR") {
      ContainsPrefixOfNeedle(u, "ERROR", "ERR");
    }
  }

  // ---------------------------------------------------------------------------
  // format_chart_data

  /** One Chart.js dataset; the curve tension is left out. */
  datatype Dataset = Dataset(legend: string, data: seq<Json>, borderColor: string, backgroundColor: string)

  datatype ChartData = ChartData(labels: seq<string>, datasets: seq<Dataset>)

  /** `entry.get(role, {})`, when that value supports `.get` in turn. */
  function RoleStats(entry: Json, role: string): Option<map<string, Json>>
    requires entry.Obj?
  {
    if role !in entry.fields then Some(map[])
    else if entry.fields[role].Obj? then Some(entry.fields[role].fields)
    else None
  }

  /**
   * The label of a timestamp: '' when it is falsy, else the `strftime` of
   * `datetime.fromtimestamp(ts)`. `clock` stands for that local-time
   * rendering of a number of seconds, and is `None` where `fromtimestamp`
   * finds the number out of range; a value that is not a number raises
   * TypeError, so it has no label either.
   */
  function TimestampLabel(ts: Json, clock: int -> Option<string>): Option<string> {
    if !PyTruthy(ts) then Some("")
    else match NumberOf(ts)
      case None => None
      case Some(n) => clock(n)
  }

  /** The exception reading one history entry raises, if any, in the order the loop meets them. */
  function EntryFailure(entry: Json, clock: int -> Option<string>): Option<Failure> {
    if !entry.Obj? then Some(NoGet(entry))
    else
      var ts := GetOr(entry.fields, "timestamp", Null);
      if TimestampLabel(ts, clock).None? then Some(BadTimestamp(ts))
      else if RoleStats(entry, "server").None? then Some(NoGet(entry.fields["server"]))
      else if RoleStats(entry, "client").None? then Some(NoGet(entry.fields["client"]))
      else None
  }

  /** An entry `format_chart_data` can read without raising. */
  predicate ChartEntryOk(entry: Json, clock: int -> Option<string>) {
    EntryFailure(entry, clock).None?
  }

  /** `stats.get('throughput_mbps', 0)`. */
  function Throughput(stats: map<string, Json>): Json { GetOr(stats, "throughput_mbps", Int(0)) }

  /** The label of a readable entry. */
  function EntryLabel(entry: Json, clock: int -> Option<string>): string
    requires ChartEntryOk(entry, clock)
  {
    TimestampLabel(GetOr(entry.fields, "timestamp", Null), clock).value
  }

  /** The throughput of one side of a readable entry. */
  function EntryThroughput(entry: Json, role: string, clock: int -> Option<string>): Json
    requires ChartEntryOk(entry, clock) && (role == "server" || role == "client")
  {
    Throughput(RoleStats(entry, role).value)
  }

  /** The exception of the first entry that raises, if any. */
  function FirstFailure(history: seq<Json>, clock: int -> Option<string>): (r: Option<Failure>)
    ensures r.None? <==> forall i :: 0 <= i < |history| ==> ChartEntryOk(history[i], clock)
    decreases |history|
  {
    if history == [] then None
    else if !ChartEntryOk(history[0], clock) then EntryFailure(history[0], clock)
    else
      var rest := FirstFailure(history[1..], clock);
      assert forall i :: 1 <= i < |history| ==> history[i] == history[1..][i - 1];
      rest
  }

  /**
   * What `format_chart_data` returns for `history`, or the exception of its
   * first unreadable entry: one label and one point of each throughput
   * series per entry.
   */
  function ChartDataOf(history: seq<Json>, clock: int -> Option<string>): (r: Result<ChartData, Failure>)
    ensures r.Ok? <==> forall i :: 0 <= i < |history| ==> ChartEntryOk(history[i], clock)
    ensures r.Err? ==> Some(r.error) == FirstFailure(history, clock)
  {
    if history == [] then Ok(ChartData([], []))
    else match FirstFailure(history, clock)
      case Some(f) => Err(f)
      case None =>
        Ok(ChartData(
          seq(|history|, i requires 0 <= i < |history| => EntryLabel(history[i], clock)),
          [ Dataset("Server Throughput (Mbps)",
              seq(|history|, i requires 0 <= i < |history| => EntryThroughput(history[i], "server", clock)),
              "#DC3545", "rgba(220, 53, 69, 0.1)"),
            Dataset("Client Throughput (Mbps)",
              seq(|history|, i requires 0 <= i < |history| => EntryThroughput(history[i], "client", clock)),
              "#FFC107", "rgba(255, 193, 7, 0.1)") ]))
  }

  /** When every entry before `i` is readable and entry `i` is not, the first failure is entry `i`'s exception. */
  lemma {:induction false} FirstFailureAt(history: seq<Json>, i: nat, clock: int -> Option<string>)
    requires i < |history|
    requires forall j :: 0 <= j < i ==> ChartEntryOk(history[j], clock)
    requires EntryFailure(history[i], clock).Some?
    ensures FirstFailure(history, clock) == EntryFailure(history[i], clock)
    decreases i
  {
    if i > 0 {
      assert ChartEntryOk(history[0], clock);
      assert forall j :: 0 <= j < i - 1 ==> history[1..][j] == history[j + 1];
      FirstFailureAt(history[1..], i - 1, clock);
    }
  }

  /** Labels and series built entry by entry are the chart data of a readable history. */
  lemma ChartDataOfReadable(history: seq<Json>, clock: int -> Option<string>,
    labels: seq<string>, serverSeries: seq<Json>, clientSeries: seq<Json>)
    requires history != []
    requires forall j :: 0 <= j < |history| ==> ChartEntryOk(history[j], clock)
    requires |labels| == |history| && |serverSeries| == |history| && |clientSeries| == |history|
    requires forall j :: 0 <= j < |history| ==>
      && labels[j] == EntryLabel(history[j], clock)
      && serverSeries[j] == EntryThroughput(history[j], "server", clock)
      && clientSeries[j] == EntryThroughput(history[j], "client", clock)
    ensures ChartDataOf(history, clock) == Ok(ChartData(labels, [
      Dataset("Server Throughput (Mbps)", serverSeries, "#DC3545", "rgba(220, 53, 69, 0.1)"),
      Dataset("Client Throughput (Mbps)", clientSeries, "#FFC107", "rgba(255, 193, 7, 0.1)")]))
  {
    assert labels == seq(|history|, j requires 0 <= j < |history| => EntryLabel(history[j], clock));
    assert serverSeries == seq(|history|, j requires 0 <= j < |history| => EntryThroughput(history[j], "server", clock));
    assert clientSeries == seq(|history|, j requires 0 <= j < |history| => EntryThroughput(history[j], "client", clock));
  }

  /**
   * `format_chart_data`: labels and the server and client throughput series,
   * one point per history entry; the first entry that is not a dict, whose
   * truthy timestamp is not a number in range, or whose server or client
   * stats are not a dict, raises.
   */
  method FormatChartData(history: seq<Json>, clock: int -> Option<string>) returns (r: Result<ChartData, Failure>)
    ensures r == ChartDataOf(history, clock)
    ensures history == [] ==> r == Ok(ChartData([], []))
    ensures r.Ok? <==> forall i :: 0 <= i < |history| ==> ChartEntryOk(history[i], clock)
    ensures r.Ok? && history != [] ==>
      && |r.value.labels| == |history|
      && |r.value.datasets| == 2
      && r.value.datasets[0].legend == "Server Throughput (Mbps)"
      && r.value.datasets[1].legend == "Client Throughput (Mbps)"
      && |r.value.datasets[0].data| == |history| && |r.value.datasets[1].data| == |history|
      && forall i :: 0 <= i < |history| ==>
        && r.value.labels[i] == TimestampLabel(GetOr(history[i].fields, "timestamp", Null), clock).value
        && r.value.datasets[0].data[i] == Throughput(RoleStats(history[i], "server").value)
        && r.value.datasets[1].data[i] == Throughput(RoleStats(history[i], "client").value)
  {
    if history == [] {
      return Ok(ChartData([], []));
    }
    var labels: seq<string> := [];
    var serverSeries: seq<Json> := [];
    var clientSeries: seq<Json> := [];
    var i := 0;
    while i < |history|
      invariant 0 <= i <= |history|
      invariant forall j :: 0 <= j < i ==> ChartEntryOk(history[j], clock)
      invariant |labels| == i && |serverSeries| == i && |clientSeries| == i
      invariant forall j :: 0 <= j < i ==>
        && labels[j] == EntryLabel(history[j], clock)
        && serverSeries[j] == EntryThroughput(history[j], "server", clock)
        && clientSeries[j] == EntryThroughput(history[j], "client", clock)
    {
      var entry := history[i];
      if !entry.Obj? {
        FirstFailureAt(history, i, clock);
        return Err(NoGet(entry));
      }
      var ts := GetOr(entry.fields, "timestamp", Null);
      var shown := TimestampLabel(ts, clock);
      if shown.None? {
        FirstFailureAt(history, i, clock);
        return Err(BadTimestamp(ts));
      }
      labels := labels + [shown.value];
      var server := RoleStats(entry, "server");
      if server.None? {
        FirstFailureAt(history, i, clock);
        return Err(NoGet(entry.fields["server"]));
      }
      serverSeries := serverSeries + [Throughput(server.value)];
      var client := RoleStats(entry, "client");
      if client.None? {
        FirstFailureAt(history, i, clock);
        return Err(NoGet(entry.fields["client"]));
      }
      clientSeries := clientSeries + [Throughput(client.value)];
      i := i + 1;
    }
    ChartDataOfReadable(history, clock, labels, serverSeries, clientSeries);
    r := Ok(ChartData(labels, [
      Dataset("Server Throughput (Mbps)", serverSeries, "#DC3545", "rgba(220, 53, 69, 0.1)"),
      Dataset("Client Throughput (Mbps)", clientSeries, "#FFC107", "rgba(255, 193, 7, 0.1)")
    ]));
  }

  // ---------------------------------------------------------------------------
  // format_logs_for_display

  /** One formatted log line. */
  datatype LogLine = LogLine(timestamp: Json, level: Json, message: Json)

  /** The display form of a log response. */
  datatype LogsView = LogsError(message: Json) | LogsShown(logs: seq<LogLine>, count: nat)

  /** A raw text line: stamped with the current time, its level extracted, its text stripped. */
  function TextLine(line: string, now: string): LogLine {
    LogLine(Str(now), Str(ExtractLogLevel(line)), Str(Strip(line)))
  }

  /**
   * One entry of the log list: a string line gets the current time and its
   * extracted level; a dict keeps its own fields with defaults; anything else
   * is skipped. `render` stands for `str()` of a dict.
   */
  function FormatLogEntry(entry: Json, now: string, render: map<string, Json> -> string): Option<LogLine> {
    match entry
    case Str(s) => Some(TextLine(s, now))
    case Obj(d) =>
      Some(LogLine(GetOr(d, "timestamp", Str(now)), GetOr(d, "level", Str("INFO")), GetOr(d, "message", Str(render(d)))))
    case _ => None
  }

  function FormatLogEntries(entries: seq<Json>, now: string, render: map<string, Json> -> string): seq<LogLine>
    decreases |entries|
  {
    if entries == [] then []
    else
      var line := FormatLogEntry(entries[|entries| - 1], now, render);
      FormatLogEntries(entries[..|entries| - 1], now, render) + (if line.Some? then [line.value] else [])
  }

  /** Python strings as JSON values. */
  function Texts(lines: seq<string>): (r: seq<Json>)
    ensures |r| == |lines|
    decreases |lines|
  {
    if lines == [] then [] else Texts(lines[..|lines| - 1]) + [Str(lines[|lines| - 1])]
  }

  /**
   * The entries `format_logs_for_display` iterates over: a list as is, a text
   * split into lines, and a dict's keys, in the order `keyOrder` gives them
   * (Python iterates a dict in key insertion order); any other value cannot
   * be iterated.
   */
  function LogEntriesOf(logs: Json, keyOrder: map<string, Json> -> seq<string>): Option<seq<Json>> {
    match logs
    case Arr(items) => Some(items)
    case Str(s) => Some(Texts(Split(s, "\n")))
    case Obj(d) => Some(Texts(keyOrder(d)))
    case _ => None
  }

  /**
   * `format_logs_for_display`; `None` stands for a Python `None` response,
   * `render` for `str()` of a dict and `keyOrder` for a dict's key order.
   */
  method FormatLogsForDisplay(logsData: Option<map<string, Json>>, now: string, render: map<string, Json> -> string,
    keyOrder: map<string, Json> -> seq<string>)
    returns (r: Result<LogsView, Failure>)
    ensures logsData.None? ==> r == Err(NoGet(Null))
    ensures logsData.Some? && (logsData.value == map[] || "error" in logsData.value) ==>
      r == Ok(LogsError(GetOr(logsData.value, "error", Str("No logs available"))))
    ensures logsData.Some? && logsData.value != map[] && "error" !in logsData.value ==>
      var logs := GetOr(logsData.value, "logs", Arr([]));
      var entries := LogEntriesOf(logs, keyOrder);
      && (entries.None? <==> logs.Null? || logs.Bool? || logs.Int?)
      && (entries.None? ==> r == Err(NotIterable(logs)))
      && (entries.Some? ==> r == Ok(LogsShown(FormatLogEntries(entries.value, now, render), |FormatLogEntries(entries.value, now, render)|)))
  {
    if logsData.None? {
      return Err(NoGet(Null));
    }
    var data := logsData.value;
    if data == map[] || "error" in data {
      return Ok(LogsError(GetOr(data, "error", Str("No logs available"))));
    }
    var logs := GetOr(data, "logs", Arr([]));
    var entries := LogEntriesOf(logs, keyOrder);
    if entries.None? {
      return Err(NotIterable(logs));
    }
    var formatted: seq<LogLine> := [];
    var i := 0;
    while i < |entries.value|
      invariant 0 <= i <= |entries.value|
      invariant formatted == FormatLogEntries(entries.value[..i], now, render)
    {
      var line := FormatLogEntry(entries.value[i], now, render);
      if line.Some? {
        formatted := formatted + [line.value];
      }
      assert entries.value[..i + 1][..i] == entries.value[..i];
      i := i + 1;
    }
    assert entries.value[..i] == entries.value;
    r := Ok(LogsShown(formatted, |formatted|));
  }

  /**
   * A dict under "logs" gives one line per key, in key order, each stamped
   * with the current time and holding the stripped key; when `keyOrder`
   * lists exactly the dict's keys, every key has its line.
   */
  lemma DictLogLines(d: map<string, Json>, now: string, render: map<string, Json> -> string,
    keyOrder: map<string, Json> -> seq<string>)
    ensures var formatted := FormatLogEntries(LogEntriesOf(Obj(d), keyOrder).value, now, render);
      && |formatted| == |keyOrder(d)|
      && (forall i :: 0 <= i < |formatted| ==> formatted[i] == TextLine(keyOrder(d)[i], now))
      && ((forall k :: k in keyOrder(d) <==> k in d) ==>
        forall k :: k in d ==> TextLine(k, now) in formatted)
  {
    var keys := keyOrder(d);
    TextLogLines(keys, now, render);
    var formatted := FormatLogEntries(Texts(keys), now, render);
    if forall k :: k in keys <==> k in d {
      forall k | k in d
        ensures TextLine(k, now) in formatted
      {
        var i :| 0 <= i < |keys| && keys[i] == k;
        assert formatted[i] == TextLine(k, now);
      }
    }
  }

  /** Entries that are neither strings nor dicts. */
  function SkippedCount(entries: seq<Json>): nat
    decreases |entries|
  {
    if entries == [] then 0
    else SkippedCount(entries[..|entries| - 1]) + (if entries[|entries| - 1].Str? || entries[|entries| - 1].Obj? then 0 else 1)
  }

  /** Every string or dict entry gives exactly one line, in order; other entries give none. */
  lemma {:induction false} FormattedLogCount(entries: seq<Json>, now: string, render: map<string, Json> -> string)
    ensures |FormatLogEntries(entries, now, render)| + SkippedCount(entries) == |entries|
    decreases |entries|
  {
    if entries != [] {
      FormattedLogCount(entries[..|entries| - 1], now, render);
    }
  }

  lemma FormatTextEntry(line: string, now: string, render: map<string, Json> -> string)
    ensures FormatLogEntry(Str(line), now, render) == Some(TextLine(line, now))
  {
  }

  /** Raw log text gives one line per '\n'-separated piece, each with the level its text implies. */
  lemma {:induction false} TextLogLines(lines: seq<string>, now: string, render: map<string, Json> -> string)
    ensures var formatted := FormatLogEntries(Texts(lines), now, render);
      && |formatted| == |lines|
      && forall i :: 0 <= i < |lines| ==> formatted[i] == TextLine(lines[i], now)
    decreases |lines|
  {
    if lines != [] {
      var init := lines[..|lines| - 1];
      var last := lines[|lines| - 1];
      TextLogLines(init, now, render);
      FormatLogEntriesSnoc(Texts(init), Str(last), now, render);
      FormatTextEntry(last, now, render);
      var before := FormatLogEntries(Texts(init), now, render);
      var formatted := FormatLogEntries(Texts(lines), now, render);
      assert formatted == before + [TextLine(last, now)];
      forall i | 0 <= i < |lines|
        ensures formatted[i] == TextLine(lines[i], now)
      {
        if i < |init| {
          assert init[i] == lines[i];
          assert formatted[i] == before[i];
        } else {
          assert i == |init| && lines[i] == last;
        }
      }
    }
  }

  lemma FormatLogEntriesSnoc(entries: seq<Json>, e: Json, now: string, render: map<string, Json> -> string)
    ensures var line := FormatLogEntry(e, now, render);
      FormatLogEntries(entries + [e], now, render)
        == FormatLogEntries(entries, now, render) + (if line.Some? then [line.value] else [])
  {
    assert (entries + [e])[..|entries|] == entries;
  }


  // ---------------------------------------------------------------------------
  // format_stats_for_display

  /** The display text of a metric, before float and thousands-separator rendering. */
  datatype Shown =
    | SizeText(size: ByteSize)           // `_format_bytes(raw)`
    | Fixed2(number: int, suffix: string)   // f"{raw:.2f}{suffix}"
    | Grouped(number: int, suffix: string)  // f"{raw:,}{suffix}"

  datatype Metric = Metric(raw: Json, shown: Shown)

  /**
   * `_format_single_stats`: nothing for a falsy value, else the known metrics
   * it holds and the value itself as the raw data.
   */
  datatype SingleStats = NoStats | Stats(metrics: map<string, Metric>, rawData: Json)

  datatype StatsView = StatsError(message: Json) | StatsShown(timestamp: string, server: SingleStats, client: SingleStats)

  /** The numeric value of an int or bool; other values make the format raise. */
  function NumberOf(v: Json): Option<int> {
    match v
    case Int(i) => Some(i)
    case Bool(b) => Some(if b then 1 else 0)
    case _ => None
  }

  const MetricKeys: seq<string> := ["bytes_transferred", "throughput_mbps", "connections_per_second", "active_connections", "errors"]

  /** How each known metric is displayed. */
  function ShowMetric(key: string, n: int): Shown {
    if key == "bytes_transferred" then SizeText(ByteSizeOf(n))
    else if key == "throughput_mbps" then Fixed2(n, " Mbps")
    else if key == "connections_per_second" then Grouped(n, " CPS")
    else Grouped(n, "")
  }

  /** The known metrics of `stats`, formatted, or the first one that is not a number. */
  function FormatMetrics(stats: map<string, Json>, keys: seq<string>): Result<map<string, Metric>, Failure>
    decreases |keys|
  {
    if keys == [] then Ok(map[])
    else
      var k := keys[0];
      if k in stats && NumberOf(stats[k]).None? then Err(NotNumber(stats[k]))
      else
        var rest :- FormatMetrics(stats, keys[1..]);
        if k in stats then Ok(rest[k := Metric(stats[k], ShowMetric(k, NumberOf(stats[k]).value))])
        else Ok(rest)
  }

  /** Some known metric name is `in` the value: a key of a dict, an item of a list, a substring of a text. */
  predicate MentionsMetric(v: Json) {
    exists i :: 0 <= i < |MetricKeys| && PyIn(MetricKeys[i], v) == Ok(true)
  }

  /**
   * `_format_single_stats`. A falsy value gives nothing. A dict gives its
   * known metrics, formatted, and itself as the raw data. Any other value
   * goes through the same `in` tests: an int or a bool cannot be searched,
   * and a text or a list that holds a metric name raises when it is
   * subscripted by that name; otherwise it is kept, with no metrics, as the
   * raw data.
   */
  function FormatSingleStats(v: Json): (r: Result<SingleStats, Failure>)
    ensures !PyTruthy(v) ==> r == Ok(NoStats)
    ensures r.Ok? && PyTruthy(v) ==> r.value.Stats? && r.value.rawData == v
    ensures PyTruthy(v) && !v.Obj? ==> (r.Ok? <==> (v.Str? || v.Arr?) && !MentionsMetric(v))
    ensures r.Ok? && !v.Obj? ==> r.value.NoStats? || r.value.metrics == map[]
  {
    if !PyTruthy(v) then Ok(NoStats)
    else if v.Obj? then
      var metrics :- FormatMetrics(v.fields, MetricKeys);
      Ok(Stats(metrics, v))
    else if v.Int? || v.Bool? then Err(NotIterable(v))
    else if MentionsMetric(v) then Err(NotSubscriptable(v))
    else Ok(Stats(map[], v))
  }

  /** `format_stats_for_display`; `now` stands for the current time in ISO form. */
  function FormatStatsForDisplay(statsData: Option<map<string, Json>>, now: string): Result<StatsView, Failure> {
    match statsData
    case None => Err(NoGet(Null))
    case Some(d) =>
      if d == map[] || "error" in d then Ok(StatsError(GetOr(d, "error", Str("No data available"))))
      else
        var server :- FormatSingleStats(GetOr(d, "server", Obj(map[])));
        var client :- FormatSingleStats(GetOr(d, "client", Obj(map[])));
        Ok(StatsShown(now, server, client))
  }

  /**
   * The formatted metrics are exactly the known metric keys present in the
   * stats, each keeping its raw value.
   */
  lemma {:induction false} FormattedMetricsKeys(stats: map<string, Json>, keys: seq<string>)
    requires FormatMetrics(stats, keys).Ok?
    ensures var m := FormatMetrics(stats, keys).value;
      && (forall k :: k in m <==> k in keys && k in stats)
      && (forall k :: k in m ==> m[k].raw == stats[k] && NumberOf(stats[k]).Some?)
      && (forall k :: k in m ==> m[k].shown == ShowMetric(k, NumberOf(stats[k]).value))
    decreases |keys|
  {
    if keys != [] {
      FormattedMetricsKeys(stats, keys[1..]);
    }
  }

  /** A stats dict whose byte count is a number shows it in the unit `_format_bytes` picks. */
  lemma StatsBytesUnit(d: map<string, Json>, now: string)
    requires FormatStatsForDisplay(Some(d), now).Ok?
    requires FormatStatsForDisplay(Some(d), now).value.StatsShown?
    requires FormatStatsForDisplay(Some(d), now).value.server.Stats?
    requires "bytes_transferred" in FormatStatsForDisplay(Some(d), now).value.server.metrics
    ensures var m := FormatStatsForDisplay(Some(d), now).value.server.metrics["bytes_transferred"];
      m.raw.Int? ==> m.shown == SizeText(ByteSizeOf(m.raw.i))
  {
    var s := GetOr(d, "server", Obj(map[]));
    assert s.Obj? && FormatMetrics(s.fields, MetricKeys).Ok?;
    assert FormatStatsForDisplay(Some(d), now).value.server.metrics == FormatMetrics(s.fields, MetricKeys).value;
    FormattedMetricsKeys(s.fields, MetricKeys);
  }

  /** A list of rows, one dict each: what the stats endpoints of the service send for a side. */
  predicate RowList(v: Json) {
    v.Arr? && forall i :: 0 <= i < |v.items| ==> v.items[i].Obj?
  }

  /** A list of rows holds no metric name as an item, so it is shown as raw data without metrics. */
  lemma RowsKeptRaw(v: Json)
    requires RowList(v)
    ensures FormatSingleStats(v) == Ok(if v.items == [] then NoStats else Stats(map[], v))
  {
  }

  /**
   * A snapshot as the combined-stats call builds it, with rows for the server
   * and for the client, is displayed successfully; yet `format_chart_data`
   * raises on any history holding it, because a list has no `.get`.
   */
  lemma RowSnapshotShownButNotCharted(d: map<string, Json>, now: string, clock: int -> Option<string>)
    requires "error" !in d && "server" in d && "client" in d
    requires RowList(d["server"]) && RowList(d["client"]) && d["server"].items != []
    requires PyTruthy(GetOr(d, "timestamp", Null)) ==> TimestampLabel(GetOr(d, "timestamp", Null), clock).Some?
    ensures FormatStatsForDisplay(Some(d), now)
      == Ok(StatsShown(now, Stats(map[], d["server"]), if d["client"].items == [] then NoStats else Stats(map[], d["client"])))
    ensures ChartDataOf([Obj(d)], clock) == Err(NoGet(d["server"]))
  {
    RowsKeptRaw(d["server"]);
    RowsKeptRaw(d["client"]);
    assert EntryFailure(Obj(d), clock) == Some(NoGet(d["server"]));
  }
}
