/**
 * The JSON-RPC 2.0 dispatcher both MCP endpoints implement: a decoded
 * request body is routed on its "method" member to a result or to an error
 * object carrying one of the codes of section 5.1 of the JSON-RPC 2.0
 * Specification. The Python operations the dispatcher applies to the body
 * (`in`, `[...]`, `.get`) are modelled together with the text of the
 * exception each raises, because that text becomes the error message; `in`
 * and `[...]` live in `Values`, beside the other conversions.
 */
module JsonRpc {
  import opened Wrappers
  import opened Text
  import opened Values

  /** Invalid JSON was received (section 5.1 of the JSON-RPC 2.0 Specification). */
  const ParseError := -32700
  /** The method does not exist or is not available. */
  const MethodNotFound := -32601
  /** The first code of the range reserved for implementation-defined server errors. */
  const ServerError := -32000

  const ProtocolVersion := "2024-11-05"
  const ServerName := "cyperf-ce-controller"
  const ServerVersion := "1.0.0"

  // ---------------------------------------------------------------------------
  // Python operations on a decoded body

  /** `v.get(key, default)`: only a dict has `get`; any other value raises an `AttributeError`. */
  function Get(v: Json, key: string, default: Json): (r: Result<Json, string>)
    ensures r.Ok? <==> v.Obj?
    ensures v.Obj? && key in v.fields ==> r == Ok(v.fields[key])
    ensures v.Obj? && key !in v.fields ==> r == Ok(default)
  {
    if v.Obj? then Ok(GetOr(v.fields, key, default))
    else Err("'" + TypeName(v) + "' object has no attribute 'get'")
  }

  /**
   * `str(v)`. For a dict or a list Python prints its `repr`, which depends on
   * the insertion order of the dict's keys; `repr` supplies that text.
   */
  function PyText(v: Json, repr: Json -> string): string {
    if IsScalar(v) then PyStr(v) else repr(v)
  }

  // ---------------------------------------------------------------------------
  // Replies

  /** A response object: a result, or an error with its code and message. */
  datatype Reply =
    | Success(id: Json, result: Json)
    | Failure(id: Json, code: int, message: string)

  /** The member that carries the outcome. */
  function OutcomeKey(r: Reply): string {
    if r.Success? then "result" else "error"
  }

  /**
   * The response dict: "jsonrpc" is "2.0", "id" echoes the request, and
   * exactly one of "result" and "error" is present.
   */
  function ReplyJson(r: Reply): (v: Json)
    ensures v.Obj? && v.fields.Keys == {"jsonrpc", "id", OutcomeKey(r)}
    ensures v.fields["jsonrpc"] == Str("2.0") && v.fields["id"] == r.id
    ensures ("result" in v.fields) != ("error" in v.fields)
  {
    match r
    case Success(id, result) =>
      Obj(map["jsonrpc" := Str("2.0"), "id" := id, "result" := result])
    case Failure(id, code, message) =>
      Obj(map["jsonrpc" := Str("2.0"), "id" := id,
              "error" := Obj(map["code" := Int(code), "message" := Str(message)])])
  }

  /** Reads a response dict back; `None` for anything that is not exactly one. */
  function ReadReply(v: Json): Option<Reply> {
    if !v.Obj? || "jsonrpc" !in v.fields || v.fields["jsonrpc"] != Str("2.0") || "id" !in v.fields then None
    else if v.fields.Keys == {"jsonrpc", "id", "result"} then
      Some(Success(v.fields["id"], v.fields["result"]))
    else if v.fields.Keys == {"jsonrpc", "id", "error"} then
      var e := v.fields["error"];
      if e.Obj? && e.fields.Keys == {"code", "message"} && e.fields["code"].Int? && e.fields["message"].Str? then
        Some(Failure(v.fields["id"], e.fields["code"].i, e.fields["message"].s))
      else None
    else None
  }

  /** Every reply reads back as itself, and only a reply's own dict reads back as it. */
  lemma ReplyRoundTrip(r: Reply, v: Json)
    ensures ReadReply(ReplyJson(r)) == Some(r)
    ensures ReadReply(v) == Some(r) ==> v == ReplyJson(r)
  {
    var w := ReplyJson(r);
    assert "result" != "error";
    if r.Failure? {
      assert w.fields["error"].fields.Keys == {"code", "message"};
    }
    if ReadReply(v) == Some(r) {
      if r.Success? {
        assert v.fields.Keys == w.fields.Keys;
        assert v.fields == w.fields;
      } else {
        var e := v.fields["error"];
        assert e.fields.Keys == {"code", "message"};
        assert e == Obj(map["code" := Int(r.code), "message" := Str(r.message)]);
        assert v.fields.Keys == w.fields.Keys;
        assert v.fields == w.fields;
      }
    }
  }

  // ---------------------------------------------------------------------------
  // Dispatch

  /** What distinguishes the two endpoints: the advertised capabilities and the tool list. */
  datatype Endpoint = Endpoint(capabilities: map<string, Json>, tools: seq<Json>)

  /** The result of "initialize". */
  function InitializeResult(ep: Endpoint): Json {
    Obj(map[
      "protocolVersion" := Str(ProtocolVersion),
      "capabilities" := Obj(ep.capabilities),
      "serverInfo" := Obj(map["name" := Str(ServerName), "version" := Str(ServerVersion)])])
  }

  /** The methods the dispatcher knows. */
  predicate KnownMethod(rpcMethod: Json) {
    rpcMethod == Str("initialize") || rpcMethod == Str("tools/list") || rpcMethod == Str("tools/call")
  }

  /**
   * The reply to a request whose method, params and id have been read.
   * `call` runs a tool on its name and arguments and yields the content or
   * the text of the exception it raised. A params value without `get`
   * raises outside the tool call's own handler, which turns it into a
   * parse error without the id.
   */
  function Route(rpcMethod: Json, params: Json, id: Json, ep: Endpoint,
                 call: (Json, Json) -> Result<Json, string>, repr: Json -> string): (r: Reply)
    ensures r.Failure? && r.code == MethodNotFound <==> !KnownMethod(rpcMethod)
    ensures r.Failure? && r.code == ServerError <==>
      rpcMethod == Str("tools/call") && params.Obj? && call(GetOr(params.fields, "name", Null), GetOr(params.fields, "arguments", Obj(map[]))).Err?
    ensures r.Failure? && r.code == ParseError <==> rpcMethod == Str("tools/call") && !params.Obj?
    ensures r.Success? <==>
      && KnownMethod(rpcMethod)
      && !(rpcMethod == Str("tools/call") && (!params.Obj? || call(GetOr(params.fields, "name", Null), GetOr(params.fields, "arguments", Obj(map[]))).Err?))
    ensures r.Failure? && r.code == ParseError ==> r.id == Null
    ensures !(r.Failure? && r.code == ParseError) ==> r.id == id
    ensures !KnownMethod(rpcMethod) ==> r.message == "Method not found: " + PyText(rpcMethod, repr)
    ensures rpcMethod == Str("initialize") ==> r == Success(id, InitializeResult(ep))
    ensures rpcMethod == Str("tools/list") ==> r == Success(id, Obj(map["tools" := Arr(ep.tools)]))
  {
    if rpcMethod == Str("initialize") then
      Success(id, InitializeResult(ep))
    else if rpcMethod == Str("tools/list") then
      Success(id, Obj(map["tools" := Arr(ep.tools)]))
    else if rpcMethod == Str("tools/call") then
      match Get(params, "name", Null)
      case Err(e) => Failure(Null, ParseError, "Parse error: " + e)
      case Ok(name) =>
        var arguments := GetOr(params.fields, "arguments", Obj(map[]));
        match call(name, arguments)
        case Ok(content) => Success(id, Obj(map["content" := content]))
        case Err(e) => Failure(id, ServerError, e)
    else
      Failure(id, MethodNotFound, "Method not found: " + PyText(rpcMethod, repr))
  }

  /**
   * The whole POST handler: `body` is the decoded request, or the decoder's
   * error text. A body without a "method" member gets no response at all;
   * an exception while reading the body becomes a parse error with a null id.
   */
  function Handle(body: Result<Json, string>, ep: Endpoint,
                  call: (Json, Json) -> Result<Json, string>, repr: Json -> string): (r: Option<Reply>)
    ensures r.None? <==> body.Ok? && PyIn("method", body.value) == Ok(false)
    ensures body.Err? ==> r == Some(Failure(Null, ParseError, "Parse error: " + body.error))
    ensures r.Some? && r.value.Failure? && r.value.code == ParseError ==> r.value.id == Null
    ensures r.Some? && !(r.value.Failure? && r.value.code == ParseError) ==>
      && body.Ok? && body.value.Obj? && "method" in body.value.fields
      && r.value.id == GetOr(body.value.fields, "id", Null)
      && r.value == Route(body.value.fields["method"], GetOr(body.value.fields, "params", Obj(map[])),
                          GetOr(body.value.fields, "id", Null), ep, call, repr)
  {
    match body
    case Err(detail) => Some(Failure(Null, ParseError, "Parse error: " + detail))
    case Ok(b) =>
      match PyIn("method", b)
      case Err(e) => Some(Failure(Null, ParseError, "Parse error: " + e))
      case Ok(present) =>
        if !present then None
        else
          match Subscript(b, "method")
          case Err(e) => Some(Failure(Null, ParseError, "Parse error: " + e))
          case Ok(rpcMethod) =>
            Some(Route(rpcMethod, GetOr(b.fields, "params", Obj(map[])), GetOr(b.fields, "id", Null), ep, call, repr))
  }

  /** The response the endpoint sends: the reply's dict, or nothing. */
  function Respond(body: Result<Json, string>, ep: Endpoint,
                   call: (Json, Json) -> Result<Json, string>, repr: Json -> string): (r: Option<Json>)
    ensures r.None? <==> Handle(body, ep, call, repr).None?
    ensures r.Some? ==> ReadReply(r.value) == Handle(body, ep, call, repr)
  {
    match Handle(body, ep, call, repr)
    case None => None
    case Some(reply) =>
      ReplyRoundTrip(reply, ReplyJson(reply));
      Some(ReplyJson(reply))
  }

  /**
   * A request that is a dict with a "method" member is always answered, and
   * never with a parse error unless it is a tool call whose params are not a dict.
   */
  lemma ParseErrorOnlyFromShape(b: Json, ep: Endpoint,
                                call: (Json, Json) -> Result<Json, string>, repr: Json -> string)
    requires b.Obj? && "method" in b.fields
    ensures var r := Handle(Ok(b), ep, call, repr);
      && r.Some?
      && (r.value.Failure? && r.value.code == ParseError <==>
          b.fields["method"] == Str("tools/call") && !GetOr(b.fields, "params", Obj(map[])).Obj?)
  {
    assert PyIn("method", b) == Ok(true);
  }
}
