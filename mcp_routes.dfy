/**
 * The MCP endpoint of the FastAPI application (POST /api/mcp): the shared
 * JSON-RPC dispatcher advertising the tools capability only. The tool list
 * and the tool calls come from the MCP helper module, which is not part of
 * this model; both are parameters here.
 */
module McpRoutes {
  import opened Wrappers
  import opened Values
  import opened JsonRpc

  /** The capabilities "initialize" advertises: tools only. */
  const Capabilities: map<string, Json> := map["tools" := Obj(map[])]

  /**
   * `mcp_endpoint`: the response dict for a request body, or no response
   * when the body has no "method" member.
   */
  function McpEndpoint(body: Result<Json, string>, tools: seq<Json>,
                       call: (Json, Json) -> Result<Json, string>, repr: Json -> string): (r: Option<Json>)
    ensures r.Some? ==> r.value.Obj? && "jsonrpc" in r.value.fields && r.value.fields["jsonrpc"] == Str("2.0")
    ensures r.Some? ==> ("result" in r.value.fields) != ("error" in r.value.fields)
    ensures r.None? <==> body.Ok? && PyIn("method", body.value) == Ok(false)
    ensures r.Some? ==> ReadReply(r.value) == Handle(body, Endpoint(Capabilities, tools), call, repr)
  {
    Respond(body, Endpoint(Capabilities, tools), call, repr)
  }

  /** "initialize" answers with protocol version 2024-11-05 and the tools capability alone. */
  lemma InitializeAdvertisesTools(id: Json, tools: seq<Json>,
                                  call: (Json, Json) -> Result<Json, string>, repr: Json -> string)
    ensures var body := Obj(map["method" := Str("initialize"), "id" := id]);
      && Handle(Ok(body), Endpoint(Capabilities, tools), call, repr)
         == Some(Success(id, InitializeResult(Endpoint(Capabilities, tools))))
      && InitializeResult(Endpoint(Capabilities, tools)).fields["protocolVersion"] == Str("2024-11-05")
      && InitializeResult(Endpoint(Capabilities, tools)).fields["capabilities"].fields.Keys == {"tools"}
  {
    var body := Obj(map["method" := Str("initialize"), "id" := id]);
    assert PyIn("method", body) == Ok(true);
    assert "method" != "id";
    assert body.fields["method"] == Str("initialize");
  }
}
