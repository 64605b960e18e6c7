/**
 * The stand-alone MCP HTTP server: the shared JSON-RPC dispatcher
 * advertising tools and logging, its own tool list, the routing of a tool
 * call to the proxy for that tool, the payloads the start proxies build with
 * their defaults, the text the log tools return, and the tool names
 * GET /mcp lists. The HTTP round trip of each proxy is the parameter `proxy`.
 */
module McpSse {
  import opened Wrappers
  import opened Text
  import opened Values
  import opened JsonRpc

  /** The capabilities "initialize" advertises: tools and logging. */
  const Capabilities: map<string, Json> := map["tools" := Obj(map[]), "logging" := Obj(map[])]

  // ---------------------------------------------------------------------------
  // The tool list

  /** A tool of `_get_mcp_tools`: its name, its description and its required arguments. */
  datatype Tool = Tool(name: string, description: string, required: seq<string>)

  const Tools: seq<Tool> := [
    Tool("start_cyperf_server", "Start a Cyperf CE server with specified parameters", ["server_ip"]),
    Tool("start_cyperf_client", "Start a Cyperf CE client to connect to a running server", ["test_id", "server_ip", "client_ip"]),
    Tool("get_server_stats", "Get statistics from a running Cyperf server", ["test_id"]),
    Tool("get_client_stats", "Get statistics from a running Cyperf client", ["test_id"]),
    Tool("get_server_stats_image", "Get server statistics as a visual table image", ["test_id"]),
    Tool("get_client_stats_image", "Get client statistics as a visual table image", ["test_id"]),
    Tool("get_server_logs", "Get server log file contents for debugging", ["test_id"]),
    Tool("get_client_logs", "Get client log file contents for debugging", ["test_id"]),
    Tool("stop_server", "Stop all running Cyperf servers on a specific machine", ["server_ip"])
  ]

  /** The dict describing a tool (the schema's per-property entries are not modelled). */
  function ToolJson(t: Tool): (v: Json)
    ensures Subscript(v, "name") == Ok(Str(t.name))
  {
    Obj(map[
      "name" := Str(t.name),
      "description" := Str(t.description),
      "inputSchema" := Obj(map[
        "type" := Str("object"),
        "required" := Arr(seq(|t.required|, i requires 0 <= i < |t.required| => Str(t.required[i])))])])
  }

  /** The dicts of a list of tools, in order. */
  function ToolDicts(tools: seq<Tool>): (r: seq<Json>)
    ensures |r| == |tools| && forall i :: 0 <= i < |tools| ==> r[i] == ToolJson(tools[i])
  {
    seq(|tools|, i requires 0 <= i < |tools| => ToolJson(tools[i]))
  }

  /** This server's side of the dispatcher. */
  function SseEndpoint(): Endpoint {
    Endpoint(Capabilities, ToolDicts(Tools))
  }

  /** "initialize" answers with protocol version 2024-11-05 and both the tools and the logging capability. */
  lemma InitializeAdvertisesToolsAndLogging(id: Json, proxy: (Handler, Json) -> Result<Json, string>, repr: Json -> string)
    ensures var body := Obj(map["method" := Str("initialize"), "id" := id]);
      && Handle(Ok(body), SseEndpoint(), (name, arguments) => ToolCall(name, arguments, proxy, repr), repr)
         == Some(Success(id, InitializeResult(SseEndpoint())))
      && InitializeResult(SseEndpoint()).fields["protocolVersion"] == Str("2024-11-05")
      && InitializeResult(SseEndpoint()).fields["capabilities"].fields.Keys == {"tools", "logging"}
  {
    var body := Obj(map["method" := Str("initialize"), "id" := id]);
    assert PyIn("method", body) == Ok(true);
    assert "method" != "id";
    assert body.fields["method"] == Str("initialize");
  }

  // ---------------------------------------------------------------------------
  // GET /mcp

  /** `[tool['name'] for tool in tools]`; the first `KeyError` or `TypeError` aborts it. */
  function ListedNames(tools: seq<Json>): (r: Result<seq<Json>, string>)
    ensures r.Ok? <==> forall i :: 0 <= i < |tools| ==> Subscript(tools[i], "name").Ok?
    ensures r.Ok? ==> |r.value| == |tools| && forall i :: 0 <= i < |tools| ==> Subscript(tools[i], "name") == Ok(r.value[i])
  {
    if tools == [] then Ok([])
    else
      match Subscript(tools[0], "name")
      case Err(e) => Err(e)
      case Ok(first) =>
        match ListedNames(tools[1..])
        case Err(e) =>
          assert exists i :: 1 <= i < |tools| && Subscript(tools[i], "name").Err? by {
            var j :| 0 <= j < |tools[1..]| && Subscript(tools[1..][j], "name").Err?;
            assert tools[1..][j] == tools[j + 1];
          }
          Err(e)
        case Ok(rest) =>
          assert forall i :: 1 <= i < |tools| ==> tools[i] == tools[1..][i - 1];
          Ok([first] + rest)
  }

  /** `mcp_get_endpoint`: the server's identity and the names of its tools. */
  function GetInfo(tools: seq<Json>): (r: Result<Json, string>)
    ensures r.Ok? <==> ListedNames(tools).Ok?
    ensures r.Ok? ==> Subscript(r.value, "available_tools") == Ok(Arr(ListedNames(tools).value))
  {
    match ListedNames(tools)
    case Err(e) => Err(e)
    case Ok(names) =>
      Ok(Obj(map[
        "message" := Str("MCP HTTP Server Ready"),
        "server" := Str(ServerName),
        "version" := Str(ServerVersion),
        "protocol" := Str("mcp"),
        "transport" := Str("http"),
        "available_tools" := Arr(names),
        "endpoints" := Obj(map[
          "mcp_post" := Str("/mcp (POST) - MCP JSON-RPC requests"),
          "mcp_get" := Str("/mcp (GET) - This endpoint"),
          "health" := Str("/health - Health check")])]))
  }

  /** The GET listing names the tools "tools/list" returns, in the same order. */
  lemma {:induction false} GetListsToolNames(tools: seq<Tool>)
    ensures GetInfo(ToolDicts(tools)).Ok?
    ensures Subscript(GetInfo(ToolDicts(tools)).value, "available_tools")
      == Ok(Arr(seq(|tools|, i requires 0 <= i < |tools| => Str(tools[i].name))))
  {
    var dicts := ToolDicts(tools);
    assert forall i :: 0 <= i < |dicts| ==> Subscript(dicts[i], "name") == Ok(Str(tools[i].name));
    var names := ListedNames(dicts).value;
    assert names == seq(|tools|, i requires 0 <= i < |tools| => Str(tools[i].name));
  }

  // ---------------------------------------------------------------------------
  // Tool calls

  /** The proxy a tool name is routed to. */
  datatype Handler =
    | StartServer | StartClient | ServerStats | ClientStats | ServerStatsImage
    | ClientStatsImage | ServerLogs | ClientLogs | StopServer

  /** The `if`/`elif` chain of `_handle_mcp_tool_call` on a tool name. */
  function HandlerOf(name: string): Option<Handler> {
    if name == "start_cyperf_server" then Some(StartServer)
    else if name == "start_cyperf_client" then Some(StartClient)
    else if name == "get_server_stats" then Some(ServerStats)
    else if name == "get_client_stats" then Some(ClientStats)
    else if name == "get_server_stats_image" then Some(ServerStatsImage)
    else if name == "get_client_stats_image" then Some(ClientStatsImage)
    else if name == "get_server_logs" then Some(ServerLogs)
    else if name == "get_client_logs" then Some(ClientLogs)
    else if name == "stop_server" then Some(StopServer)
    else None
  }

  /** The handlers of the listed tools, in list order. */
  const ListedHandlers: seq<Handler> :=
    [StartServer, StartClient, ServerStats, ClientStats, ServerStatsImage, ClientStatsImage, ServerLogs, ClientLogs, StopServer]

  lemma StartHandlers()
    ensures HandlerOf(Tools[0].name) == Some(StartServer)
    ensures HandlerOf(Tools[1].name) == Some(StartClient)
  {
    assert Tools[1].name[13] != "start_cyperf_server"[13];
  }

  lemma StatsHandlers()
    ensures HandlerOf(Tools[2].name) == Some(ServerStats)
    ensures HandlerOf(Tools[3].name) == Some(ClientStats)
  {
    assert |Tools[2].name| != |"start_cyperf_server"| && |Tools[2].name| != |"start_cyperf_client"|;
    assert |Tools[3].name| != |"start_cyperf_server"| && |Tools[3].name| != |"start_cyperf_client"|;
    assert Tools[3].name[4] != "get_server_stats"[4];
  }

  lemma ImageHandlers()
    ensures HandlerOf(Tools[4].name) == Some(ServerStatsImage)
    ensures HandlerOf(Tools[5].name) == Some(ClientStatsImage)
  {
    assert |Tools[4].name| == 22 && |Tools[5].name| == 22;
    assert Tools[5].name[4] != "get_server_stats_image"[4];
  }

  lemma LogHandlers()
    ensures HandlerOf(Tools[6].name) == Some(ServerLogs)
    ensures HandlerOf(Tools[7].name) == Some(ClientLogs)
    ensures HandlerOf(Tools[8].name) == Some(StopServer)
  {
    assert |Tools[6].name| == 15 && |Tools[7].name| == 15 && |Tools[8].name| == 11;
    assert Tools[7].name[4] != "get_server_logs"[4];
  }

  /** Every listed tool is routed, each to its own proxy, in list order. */
  lemma ListedToolsRouted()
    ensures |Tools| == |ListedHandlers|
    ensures forall i :: 0 <= i < |Tools| ==> HandlerOf(Tools[i].name) == Some(ListedHandlers[i])
  {
    StartHandlers();
    StatsHandlers();
    ImageHandlers();
    LogHandlers();
  }

  /** Every tool name that is routed is one the list advertises. */
  lemma RoutedToolsListed(name: string)
    requires HandlerOf(name).Some?
    ensures exists i :: 0 <= i < |Tools| && Tools[i].name == name
  {
    ListedToolsRouted();
    var i := match HandlerOf(name).value
      case StartServer => 0 case StartClient => 1 case ServerStats => 2 case ClientStats => 3
      case ServerStatsImage => 4 case ClientStatsImage => 5 case ServerLogs => 6 case ClientLogs => 7
      case StopServer => 8;
    assert HandlerOf(Tools[i].name) == HandlerOf(name);
  }

  // ---------------------------------------------------------------------------
  // The start proxies' payloads

  /** `arguments.get(k, d)` for every key `k` of `defaults`. */
  function WithDefaults(given: map<string, Json>, defaults: map<string, Json>): (r: map<string, Json>)
    ensures r.Keys == defaults.Keys
    ensures forall k :: k in defaults && k in given ==> r[k] == given[k]
    ensures forall k :: k in defaults && k !in given ==> r[k] == defaults[k]
  {
    map k | k in defaults :: GetOr(given, k, defaults[k])
  }

  /** Filling in defaults twice is filling them in once. */
  lemma WithDefaultsIdempotent(given: map<string, Json>, defaults: map<string, Json>)
    ensures WithDefaults(WithDefaults(given, defaults), defaults) == WithDefaults(given, defaults)
  {
  }

  /** The defaults of `_proxy_start_server`. */
  const ServerDefaults: map<string, Json> :=
    map["cps" := Bool(false), "port" := Int(5202), "length" := Str("1k"), "csv_stats" := Bool(true)]

  /** The defaults of `_proxy_start_client`; `arguments.get(k)` defaults to `None`. */
  const ClientDefaults: map<string, Json> := map[
    "cps" := Null, "cps_rate_limit" := Null, "port" := Int(5202), "length" := Str("1k"),
    "time" := Int(60), "csv_stats" := Bool(true), "bitrate" := Null, "parallel" := Int(1),
    "reverse" := Bool(false), "bidi" := Bool(false), "interval" := Null]

  /**
   * The body `_proxy_start_server` posts: the server address, which must be
   * given, and the four server parameters, each taken from the arguments or
   * defaulted.
   */
  function StartServerPayload(arguments: Json): (r: Result<Json, string>)
    ensures r.Ok? <==> arguments.Obj? && "server_ip" in arguments.fields
    ensures r.Err? ==> r == Err(Subscript(arguments, "server_ip").error)
    ensures r.Ok? ==>
      && r.value.Obj? && r.value.fields.Keys == {"server_ip", "params"}
      && r.value.fields["server_ip"] == arguments.fields["server_ip"]
      && r.value.fields["params"] == Obj(WithDefaults(arguments.fields, ServerDefaults))
  {
    match Subscript(arguments, "server_ip")
    case Err(e) => Err(e)
    case Ok(ip) => Ok(Obj(map["server_ip" := ip, "params" := Obj(WithDefaults(arguments.fields, ServerDefaults))]))
  }

  /**
   * The body `_proxy_start_client` posts: test id, server and client
   * address, which must be given (the first missing one is reported), and
   * the client parameters, each taken from the arguments or defaulted.
   */
  function StartClientPayload(arguments: Json): (r: Result<Json, string>)
    ensures r.Ok? <==> arguments.Obj? && "test_id" in arguments.fields && "server_ip" in arguments.fields && "client_ip" in arguments.fields
    ensures arguments.Obj? && "test_id" !in arguments.fields ==> r == Err(KeyErrorText("test_id"))
    ensures arguments.Obj? && "test_id" in arguments.fields && "server_ip" !in arguments.fields ==> r == Err(KeyErrorText("server_ip"))
    ensures r.Ok? ==>
      && r.value.Obj? && r.value.fields.Keys == {"test_id", "server_ip", "client_ip", "params"}
      && r.value.fields["params"] == Obj(WithDefaults(arguments.fields, ClientDefaults))
  {
    var testId :- Subscript(arguments, "test_id");
    var serverIp :- Subscript(arguments, "server_ip");
    var clientIp :- Subscript(arguments, "client_ip");
    Ok(Obj(map[
      "test_id" := testId, "server_ip" := serverIp, "client_ip" := clientIp,
      "params" := Obj(WithDefaults(arguments.fields, ClientDefaults))]))
  }

  /** The defaults of the service's request model for the server parameters. */
  const ModelServerDefaults: map<string, Json> :=
    map["cps" := Bool(false), "port" := Int(5202), "length" := Str("1k"), "csv_stats" := Bool(true)]

  /** The defaults of the service's request model for the client parameters. */
  const ModelClientDefaults: map<string, Json> := map[
    "cps" := Bool(false), "cps_rate_limit" := Null, "port" := Int(5202), "length" := Str("1k"),
    "time" := Int(60), "csv_stats" := Bool(true), "bitrate" := Null, "parallel" := Int(1),
    "reverse" := Bool(false), "bidi" := Bool(false), "interval" := Null]

  /**
   * The server parameters the service ends up with are the same whether
   * the proxy fills in its defaults or the request model does.
   */
  lemma ServerDefaultsTransparent(given: map<string, Json>)
    ensures WithDefaults(WithDefaults(given, ServerDefaults), ModelServerDefaults) == WithDefaults(given, ModelServerDefaults)
  {
    assert ServerDefaults == ModelServerDefaults;
    WithDefaultsIdempotent(given, ModelServerDefaults);
  }

  /**
   * Proxy defaults that agree with the model's defaults except at one key,
   * where they agree in truth value, reach the service unchanged except at
   * that key, where the truth value is the same.
   */
  lemma DefaultsAgreeExcept(given: map<string, Json>, proxy: map<string, Json>, model: map<string, Json>, key: string)
    requires proxy.Keys == model.Keys && key in model
    requires forall k :: k in model && k != key ==> proxy[k] == model[k]
    requires PyTruthy(proxy[key]) == PyTruthy(model[key])
    ensures var viaProxy := WithDefaults(WithDefaults(given, proxy), model);
      var direct := WithDefaults(given, model);
      && viaProxy.Keys == direct.Keys
      && (forall k :: k in direct && k != key ==> viaProxy[k] == direct[k])
      && PyTruthy(viaProxy[key]) == PyTruthy(direct[key])
  {
  }

  /**
   * For the client the proxy defaults "cps" to None where the request model
   * defaults it to False: every other parameter arrives as the model would
   * fill it, and "cps" arrives with the same truth value.
   */
  lemma ClientDefaultsTransparent(given: map<string, Json>)
    ensures var viaProxy := WithDefaults(WithDefaults(given, ClientDefaults), ModelClientDefaults);
      var direct := WithDefaults(given, ModelClientDefaults);
      && viaProxy.Keys == direct.Keys
      && (forall k :: k in direct && k != "cps" ==> viaProxy[k] == direct[k])
      && PyTruthy(viaProxy["cps"]) == PyTruthy(direct["cps"])
  {
    assert ClientDefaults == ModelClientDefaults["cps" := Null];
    DefaultsAgreeExcept(given, ClientDefaults, ModelClientDefaults, "cps");
  }

  // ---------------------------------------------------------------------------
  // Routing a tool call

  /**
   * The content a log tool returns: one text item naming the test and
   * holding the log, from the proxy's reply dict.
   */
  function LogsContent(side: string, arguments: Json, reply: Json, repr: Json -> string): (r: Result<Json, string>)
    ensures r.Ok? <==> Subscript(arguments, "test_id").Ok? && Subscript(reply, "content").Ok?
    ensures r.Ok? ==>
      var text := side + " Logs for Test ID: " + PyText(arguments.fields["test_id"], repr);
      && r.value.Arr? && |r.value.items| == 1
      && r.value.items[0].Obj? && r.value.items[0].fields.Keys == {"type", "text"}
      && r.value.items[0].fields["type"] == Str("text")
      && r.value.items[0].fields["text"] == Str(text + "\n\n" + PyText(reply.fields["content"], repr))
  {
    var testId :- Subscript(arguments, "test_id");
    var content :- Subscript(reply, "content");
    var head := side + " Logs for Test ID: " + PyText(testId, repr) + "\n\n";
    var body := PyText(content, repr);
    Ok(Arr([Obj(map["type" := Str("text"), "text" := Str(head + body)])]))
  }

  /**
   * `_handle_mcp_tool_call`: a listed name goes to its proxy (the start
   * proxies with the payload they build, the log tools wrapped in their
   * text item); any other name, or a name that is not a string, raises
   * "Unknown tool: <name>".
   */
  function ToolCall(name: Json, arguments: Json, proxy: (Handler, Json) -> Result<Json, string>,
                    repr: Json -> string): (r: Result<Json, string>)
    ensures !(name.Str? && HandlerOf(name.s).Some?) ==> r == Err("Unknown tool: " + PyText(name, repr))
    ensures name.Str? && HandlerOf(name.s) == Some(StartServer) ==>
      r == (if StartServerPayload(arguments).Ok? then proxy(StartServer, StartServerPayload(arguments).value)
            else Err(StartServerPayload(arguments).error))
    ensures name.Str? && HandlerOf(name.s) == Some(StartClient) ==>
      r == (if StartClientPayload(arguments).Ok? then proxy(StartClient, StartClientPayload(arguments).value)
            else Err(StartClientPayload(arguments).error))
    ensures name.Str? && HandlerOf(name.s) == Some(ServerLogs) ==>
      r == (if proxy(ServerLogs, arguments).Ok? then LogsContent("Server", arguments, proxy(ServerLogs, arguments).value, repr)
            else proxy(ServerLogs, arguments))
    ensures name.Str? && HandlerOf(name.s) == Some(ClientLogs) ==>
      r == (if proxy(ClientLogs, arguments).Ok? then LogsContent("Client", arguments, proxy(ClientLogs, arguments).value, repr)
            else proxy(ClientLogs, arguments))
    ensures name.Str? && HandlerOf(name.s).Some? && HandlerOf(name.s).value !in {StartServer, StartClient, ServerLogs, ClientLogs} ==>
      r == proxy(HandlerOf(name.s).value, arguments)
  {
    match if name.Str? then HandlerOf(name.s) else None
    case None => Err("Unknown tool: " + PyText(name, repr))
    case Some(StartServer) =>
      var payload :- StartServerPayload(arguments);
      proxy(StartServer, payload)
    case Some(StartClient) =>
      var payload :- StartClientPayload(arguments);
      proxy(StartClient, payload)
    case Some(ServerLogs) =>
      var reply :- proxy(ServerLogs, arguments);
      LogsContent("Server", arguments, reply, repr)
    case Some(ClientLogs) =>
      var reply :- proxy(ClientLogs, arguments);
      LogsContent("Client", arguments, reply, repr)
    case Some(h) => proxy(h, arguments)
  }

  /** The POST handler of this server. */
  function McpEndpoint(body: Result<Json, string>, proxy: (Handler, Json) -> Result<Json, string>,
                       repr: Json -> string): (r: Option<Json>)
    ensures r.None? <==> body.Ok? && PyIn("method", body.value) == Ok(false)
    ensures r.Some? ==>
      ReadReply(r.value) == Handle(body, SseEndpoint(), (name, arguments) => ToolCall(name, arguments, proxy, repr), repr)
  {
    Respond(body, SseEndpoint(), (name, arguments) => ToolCall(name, arguments, proxy, repr), repr)
  }

  /**
   * A call of a tool this server does not list is answered with the
   * implementation-defined server error, not with "method not found".
   */
  lemma UnknownToolIsServerError(id: Json, name: string, arguments: Json,
                                 proxy: (Handler, Json) -> Result<Json, string>, repr: Json -> string)
    requires forall i :: 0 <= i < |Tools| ==> Tools[i].name != name
    ensures var params := Obj(map["name" := Str(name), "arguments" := arguments]);
      Route(Str("tools/call"), params, id, SseEndpoint(), (n, a) => ToolCall(n, a, proxy, repr), repr)
        == Failure(id, ServerError, "Unknown tool: " + name)
  {
    if HandlerOf(name).Some? {
      RoutedToolsListed(name);
    }
    var params := Obj(map["name" := Str(name), "arguments" := arguments]);
    assert "name" != "arguments";
    assert GetOr(params.fields, "name", Null) == Str(name);
    assert GetOr(params.fields, "arguments", Obj(map[])) == arguments;
  }
}
