/**
 * The WebSocket-side Model Context Protocol server: a method switch that
 * answers each request with a `result` or an `error` record, the
 * `initialize` handshake, and the per-socket bookkeeping of `handleMessage`.
 */
module McpServer {
  import opened Common
  import opened Js
  import Registry
  import Service
  import Database
  import ApiResource
  import SystemResource
  import DatabaseResource
  import ApiQueryTool
  import ApiDiscoveryTool
  import DatabaseSearchTool

  // JSON-RPC 2.0 error codes, section 5.1 of the JSON-RPC 2.0 specification.
  const InvalidRequest: int := -32600
  const MethodNotFound: int := -32601
  const InvalidParams: int := -32602
  const InternalError: int := -32603

  /** The protocol versions this server speaks; the last one is its default. */
  const SupportedVersions: seq<string> := ["2024-11-05", "2025-06-18"]
  const DefaultVersion: string := "2025-06-18"

  datatype Config = Config(name: string, version: string)

  /**
   * What the server consults: its configuration, the registry behind the API
   * service, and the effects of the outside world as functions (the URL check
   * and `fetch` of the API service, the runtime's reports, the database
   * driver and the database manager's pool names).
   */
  datatype Env = Env(config: Config, apis: Registry.Entries,
                     urlOk: string -> bool, fetch: Service.Request -> Service.FetchOutcome,
                     report: string -> Result<Value>,
                     pg: Database.Pg, manager: Option<seq<string>>)

  /** An `McpResponse`: a `result` record or an `error` record. */
  datatype Response = Success(result: Value) | Failure(code: int, message: string)

  /** `isValidMcpMessage`: an object with `jsonrpc` "2.0" and a string `method`; `id` may be absent. */
  predicate IsValidMcpMessage(message: Value)
  {
    message.Obj? && Get(message, "method").Str? && Get(message, "jsonrpc") == Str("2.0")
  }

  // ---------------------------------------------------------------- handlers

  /** `handleInitialize`: a supported requested version is echoed, any other yields the default. */
  function Initialize(config: Config, params: Value): Value
  {
    var requested := Get(if Truthy(params) then params else Obj([]), "protocolVersion");
    var version := if requested.Str? && requested.s in SupportedVersions then requested else Str(DefaultVersion);
    Obj([("protocolVersion", version),
         ("capabilities", Obj([("resources", Obj([])), ("tools", Obj([])), ("logging", Obj([]))])),
         ("serverInfo", Obj([("name", Str(config.name)), ("version", Str(config.version))]))])
  }

  const ListResources: Value :=
    Obj([("resources", Arr([ApiResource.ResourceInfo, SystemResource.ResourceInfo, DatabaseResource.ResourceInfo]))])

  const ListTools: Value :=
    Obj([("tools", Arr([ApiQueryTool.ToolInfo, ApiDiscoveryTool.ToolInfo, DatabaseSearchTool.ToolInfo]))])

  function Rethrown(r: Result<Value>): Response
  {
    match r
    case Ok(v) => Success(v)
    case Err(m) => Failure(InternalError, m)
  }

  /**
   * `handleReadResource`: the scheme test picks `api://` or `system://` and
   * rejects everything else before the `database://` test is reached.
   */
  function ReadResource(env: Env, params: Value): Response
  {
    if params.Undefined? || params.Null? then Failure(InternalError, DestructureError("uri", params))
    else
      var uri := Get(params, "uri");
      if !Truthy(uri) then Failure(InvalidParams, "Missing uri parameter")
      else if !uri.Str? then Failure(InternalError, NotAFunction("uri.startsWith"))
      else if ApiResource.Scheme <= uri.s then
        Rethrown(ApiResource.Read(env.apis, uri.s, env.urlOk, env.fetch))
      else if SystemResource.Scheme <= uri.s then
        Rethrown(SystemResource.Read(uri.s, env.report))
      else Failure(InvalidParams, "Unsupported URI scheme: " + uri.s)
  }

  /**
   * `handleCallTool`: the three tools never throw, so the catch that reports
   * "Tool execution failed" with code -32601 is reached only when `params`
   * itself cannot be destructured.
   */
  function CallTool(env: Env, params: Value): Response
  {
    if params.Undefined? || params.Null? then
      Failure(MethodNotFound, "Tool execution failed: " + DestructureError("name", params))
    else
      var name := Get(params, "name");
      var args := Get(params, "arguments");
      if !Truthy(name) then Failure(InvalidParams, "Missing tool name")
      else if name == Str("api_query") then Success(ApiQueryTool.Execute(env.apis, args, env.urlOk, env.fetch))
      else if name == Str("api_discovery") then Success(ApiDiscoveryTool.Execute(env.apis, args))
      else if name == Str("database_search") then Success(DatabaseSearchTool.Execute(env.pg, env.manager, args))
      else Failure(MethodNotFound, "Tool not supported: " + ToStr(name))
  }

  /**
   * `handleRequest(message)`. Its first statement reads `message.method`,
   * which throws for `null` and `undefined`.
   */
  function Respond(env: Env, message: Value): Response
  {
    if message.Undefined? || message.Null? then Failure(InternalError, ReadPropertyError("method", message))
    else if !IsValidMcpMessage(message) then Failure(InvalidRequest, "Invalid Request")
    else
      var name := Get(message, "method").s;
      var params := Get(message, "params");
      if name == "initialize" then Success(Initialize(env.config, params))
      else if name == "resources/list" then Success(ListResources)
      else if name == "resources/read" then ReadResource(env, params)
      else if name == "tools/list" then Success(ListTools)
      else if name == "tools/call" then CallTool(env, params)
      else if name == "ping" then Success(Str("pong"))
      else if name == "notifications/cancelled" then Success(Obj([("cancelled", Bool(true))]))
      else Failure(MethodNotFound, "Method not supported: " + name)
  }

  /** Whether handling the message sets the `initialized` flag. */
  predicate Initializes(message: Value)
  {
    IsValidMcpMessage(message) && Get(message, "method") == Str("initialize")
  }

  /** The response's members, as spread into a reply. */
  function Members(r: Response): seq<(string, Value)>
  {
    match r
    case Success(v) => [("result", v)]
    case Failure(c, m) => [("error", Obj([("code", Num(c)), ("message", Str(m))]))]
  }

  /** The record a reply serialises: `{jsonrpc: "2.0", id, ...response}`. */
  function Envelope(id: Value, r: Response): Value
  {
    Obj([("jsonrpc", Str("2.0")), ("id", id)] + Members(r))
  }

  /** What `handleMessage` sends back: a notification (no `id`) gets no reply. */
  function Reply(env: Env, message: Value): Option<Value>
  {
    if !IsValidMcpMessage(message) then Some(Envelope(Null, Failure(InvalidRequest, "Invalid Request")))
    else if Get(message, "id").Undefined? then None
    else Some(Envelope(Get(message, "id"), Respond(env, message)))
  }

  /**
   * `handleRequestForStdio`: a message without jsonrpc "2.0" or without an id
   * is refused before dispatch.
   */
  function RespondStdio(env: Env, message: Value): Response
  {
    if !Truthy(message) || Get(message, "jsonrpc") != Str("2.0") then Failure(InvalidRequest, "Invalid Request")
    else if Get(message, "id").Undefined? || Get(message, "id").Null? then Failure(InvalidRequest, "Missing id field")
    else Respond(env, message)
  }

  // ---------------------------------------------------------------- properties

  /** A message that is not a valid MCP message is refused with -32600; an unknown method with -32601. */
  lemma RespondRejects(env: Env, message: Value)
    ensures !message.Undefined? && !message.Null? && !IsValidMcpMessage(message) ==>
      Respond(env, message) == Failure(InvalidRequest, "Invalid Request")
    ensures (IsValidMcpMessage(message) &&
      Get(message, "method").s !in {"initialize", "resources/list", "resources/read", "tools/list",
                                   "tools/call", "ping", "notifications/cancelled"}) ==>
      Respond(env, message) == Failure(MethodNotFound, "Method not supported: " + Get(message, "method").s)
    ensures IsValidMcpMessage(message) ==> Respond(env, message).Failure? ==> Respond(env, message).code != InvalidRequest
  {
  }

  /** `ping` and `notifications/cancelled` answer the same on every server, initialised or not. */
  lemma PingAndCancel(env: Env, message: Value)
    requires IsValidMcpMessage(message)
    ensures Get(message, "method") == Str("ping") ==> Respond(env, message) == Success(Str("pong"))
    ensures Get(message, "method") == Str("notifications/cancelled") ==>
      Respond(env, message) == Success(Obj([("cancelled", Bool(true))]))
  {
  }

  /**
   * The negotiated version is the requested one when it is supported, and the
   * default otherwise; it is always supported. This follows the version
   * negotiation of the Model Context Protocol's lifecycle section.
   */
  lemma InitializeVersion(config: Config, params: Value)
    ensures var v := Get(Initialize(config, params), "protocolVersion");
      v.Str? && v.s in SupportedVersions &&
      (Truthy(params) && Get(params, "protocolVersion").Str? && Get(params, "protocolVersion").s in SupportedVersions ==>
        v == Get(params, "protocolVersion")) &&
      (!(Get(params, "protocolVersion").Str? && Get(params, "protocolVersion").s in SupportedVersions) ==>
        v == Str(DefaultVersion))
    ensures Get(Initialize(config, params), "serverInfo") == Obj([("name", Str(config.name)), ("version", Str(config.version))])
  {
    var fs := Initialize(config, params).fields;
    LookupAt(fs, 2, "serverInfo");
  }

  /**
   * `resources/read` refuses a missing uri and every scheme but `api://` and
   * `system://` with -32602: a `database://` uri never reaches the database
   * resource. Resource failures come back as -32603 with their message.
   */
  lemma ReadResourceSpec(env: Env, params: Value)
    requires params.Obj?
    ensures !Truthy(Get(params, "uri")) ==> ReadResource(env, params) == Failure(InvalidParams, "Missing uri parameter")
    ensures var uri := Get(params, "uri");
      uri.Str? && DatabaseResource.Scheme <= uri.s ==>
        ReadResource(env, params) == Failure(InvalidParams, "Unsupported URI scheme: " + uri.s)
    ensures var uri := Get(params, "uri");
      uri.Str? && ApiResource.Scheme <= uri.s ==>
        ReadResource(env, params) == Rethrown(ApiResource.Read(env.apis, uri.s, env.urlOk, env.fetch))
    ensures var uri := Get(params, "uri");
      uri.Str? && SystemResource.Scheme <= uri.s ==>
        ReadResource(env, params) == Rethrown(SystemResource.Read(uri.s, env.report))
  {
    var uri := Get(params, "uri");
    if uri.Str? && DatabaseResource.Scheme <= uri.s {
      assert uri.s[4] == DatabaseResource.Scheme[4];
      assert uri.s[0] == 'd';
    }
    if uri.Str? && SystemResource.Scheme <= uri.s {
      assert uri.s[0] == 's';
    }
  }

  /**
   * `tools/call` runs exactly the three named tools, whose records are always
   * results; a missing name is -32602, an unknown one -32601, and -32601 is
   * also what a `params` that cannot be destructured produces.
   */
  lemma CallToolSpec(env: Env, params: Value)
    ensures params.Undefined? || params.Null? ==>
      CallTool(env, params).Failure? && CallTool(env, params).code == MethodNotFound
    ensures !params.Undefined? && !params.Null? && !Truthy(Get(params, "name")) ==>
      CallTool(env, params) == Failure(InvalidParams, "Missing tool name")
    ensures !params.Undefined? && !params.Null? ==>
      (CallTool(env, params).Success? <==>
        Get(params, "name") in [Str("api_query"), Str("api_discovery"), Str("database_search")])
    ensures (!params.Undefined? && !params.Null? && Truthy(Get(params, "name")) &&
      Get(params, "name") !in [Str("api_query"), Str("api_discovery"), Str("database_search")]) ==>
      CallTool(env, params) == Failure(MethodNotFound, "Tool not supported: " + ToStr(Get(params, "name")))
  {
  }

  /**
   * A reply goes out unless the valid message has no `id`; it always carries
   * jsonrpc "2.0" and echoes the message's id, or `null` for an invalid message.
   */
  lemma ReplySpec(env: Env, message: Value)
    ensures Reply(env, message).None? <==> IsValidMcpMessage(message) && Get(message, "id").Undefined?
    ensures Reply(env, message).Some? ==>
      Get(Reply(env, message).value, "jsonrpc") == Str("2.0") &&
      Get(Reply(env, message).value, "id") == (if IsValidMcpMessage(message) then Get(message, "id") else Null)
    ensures !IsValidMcpMessage(message) ==>
      Get(Reply(env, message).value, "error") == Obj([("code", Num(InvalidRequest)), ("message", Str("Invalid Request"))])
  {
    if Reply(env, message).Some? {
      LookupAt(Reply(env, message).value.fields, 1, "id");
    }
    if !IsValidMcpMessage(message) {
      LookupAt(Reply(env, message).value.fields, 2, "error");
    }
  }

  /**
   * The stdio entry point refuses a missing jsonrpc "2.0" or a missing id with
   * -32600 and otherwise answers as `handleRequest`.
   */
  lemma RespondStdioSpec(env: Env, message: Value)
    ensures RespondStdio(env, message).Failure? && RespondStdio(env, message).code == InvalidRequest <==>
      (!message.Obj? || Get(message, "jsonrpc") != Str("2.0") || Get(message, "id").Undefined? ||
       Get(message, "id").Null? || !Get(message, "method").Str?)
    ensures (message.Obj? && Get(message, "jsonrpc") == Str("2.0") && !Get(message, "id").Undefined? &&
      !Get(message, "id").Null?) ==> RespondStdio(env, message) == Respond(env, message)
  {
  }

  // ---------------------------------------------------------------- the server

  /** The server's own state: the handshake flag, the sockets seen, and what was sent to them. */
  class Server {
    const env: Env
    var initialized: bool
    var connectedClients: set<nat>
    /** Every record serialised onto a socket, in order, with that socket. */
    var sent: seq<(nat, Value)>

    constructor (env: Env)
      ensures this.env == env
      ensures !initialized && connectedClients == {} && sent == []
    {
      this.env := env;
      initialized := false;
      connectedClients := {};
      sent := [];
    }

    /** `isInitialized`. */
    function IsInitialized(): bool
      reads this
    {
      initialized
    }

    /** `handleRequest`, with the flag `handleInitialize` sets. */
    method HandleRequest(message: Value) returns (r: Response)
      modifies this
      ensures r == Respond(env, message)
      ensures initialized == (old(initialized) || Initializes(message))
      ensures connectedClients == old(connectedClients) && sent == old(sent)
    {
      r := Respond(env, message);
      if Initializes(message) {
        initialized := true;
      }
    }

    /**
     * `handleMessage(message, ws)`: an invalid message gets an error with id
     * `null`; a valid one registers its socket (once) and is answered when it
     * has an id.
     */
    method HandleMessage(message: Value, ws: nat)
      modifies this
      ensures connectedClients == if IsValidMcpMessage(message) then old(connectedClients) + {ws} else old(connectedClients)
      ensures sent == old(sent) + (if Reply(env, message).Some? then [(ws, Reply(env, message).value)] else [])
      ensures initialized == (old(initialized) || Initializes(message))
    {
      if !IsValidMcpMessage(message) {
        sent := sent + [(ws, Envelope(Null, Failure(InvalidRequest, "Invalid Request")))];
        return;
      }
      if ws !in connectedClients {
        connectedClients := connectedClients + {ws};
      }
      var response := HandleRequest(message);
      if !Get(message, "id").Undefined? {
        sent := sent + [(ws, Envelope(Get(message, "id"), response))];
      }
    }

    /** `removeClient(ws)`. */
    method RemoveClient(ws: nat)
      modifies this
      ensures connectedClients == old(connectedClients) - {ws}
      ensures initialized == old(initialized) && sent == old(sent)
    {
      connectedClients := connectedClients - {ws};
    }
  }
}
