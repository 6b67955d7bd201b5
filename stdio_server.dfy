/**
 * The stand-alone stdio server: resource and tool handlers over the API
 * registry, registered with the protocol SDK (which is not modelled), and
 * the once-only shutdown guard.
 */
module StdioServer {
  import opened Common
  import opened Strs
  import opened Js
  import opened ApiTypes
  import Registry
  import Service
  import ApiResource
  import ApiDiscoveryTool
  import OM = OrderedMap
  import opened ToolContent

  const SystemScheme: string := "system://"
  const ReadFailurePrefix: string := "Failed to read resource: "
  const MimeType: string := "application/json"

  /**
   * What the handlers consult: the registry, the API service's URL check and
   * `fetch`, and the runtime's records (for "info", "health" and "system_info":
   * platform, memory, uptime and the clock are not modelled).
   */
  datatype Env = Env(apis: Registry.Entries, urlOk: string -> bool,
                     fetch: Service.Request -> Service.FetchOutcome, runtime: string -> Value)

  // ---------------------------------------------------------------- resources

  function EndpointResource(api: ApiConfig, e: EndpointConfig): Value
  {
    Obj([("uri", Str(ApiResource.Scheme + api.id + e.path)),
         ("name", Str(api.name + " - " + e.path)),
         ("description", Str(OrElse(e.description, "Endpoint " + e.path + " of " + api.name))),
         ("mimeType", Str(MimeType))])
  }

  function ApiResources(api: ApiConfig): (r: seq<Value>)
    ensures |r| == |api.endpoints|
  {
    seq(|api.endpoints|, j requires 0 <= j < |api.endpoints| => EndpointResource(api, api.endpoints[j]))
  }

  /** The `flatMap` over the APIs. */
  function EndpointResources(apis: seq<ApiConfig>): seq<Value>
    decreases |apis|
  {
    if |apis| == 0 then [] else EndpointResources(apis[..|apis| - 1]) + ApiResources(apis[|apis| - 1])
  }

  function SystemEntry(name: string, title: string, description: string): Value
  {
    Obj([("uri", Str(SystemScheme + name)), ("name", Str(title)), ("description", Str(description)),
         ("mimeType", Str(MimeType))])
  }

  /** The three system resources pushed after the endpoints. */
  const SystemResources: seq<Value> := [
    SystemEntry("info", "System Information", "Información general del sistema"),
    SystemEntry("apis", "Available APIs", "Lista de APIs registradas en el sistema"),
    SystemEntry("health", "Health Status", "Estado de salud del servidor MCP")]

  /** `listResources`. */
  function ListResources(es: Registry.Entries): Value
  {
    Obj([("resources", Arr(EndpointResources(OM.Values(es)) + SystemResources))])
  }

  /** The property `key` of each record, in order. */
  function Fields(vs: seq<Value>, key: string): (r: seq<Value>)
    ensures |r| == |vs|
  {
    seq(|vs|, i requires 0 <= i < |vs| => Get(vs[i], key))
  }

  function StrValues(ss: seq<string>): (r: seq<Value>)
    ensures |r| == |ss| && forall i :: 0 <= i < |ss| ==> r[i] == Str(ss[i])
  {
    seq(|ss|, i requires 0 <= i < |ss| => Str(ss[i]))
  }

  /** The endpoint resources carry the URIs of the resource listing, in the same order. */
  lemma {:induction false} EndpointResourceUris(apis: seq<ApiConfig>)
    ensures Fields(EndpointResources(apis), "uri") == StrValues(ApiResource.ListUris(apis))
    decreases |apis|
  {
    if |apis| > 0 {
      var p := apis[..|apis| - 1];
      var api := apis[|apis| - 1];
      EndpointResourceUris(p);
      var a := EndpointResources(p);
      var b := ApiResources(api);
      var u := ApiResource.ListUris(p);
      var w := ApiResource.EndpointUris(api);
      assert Fields(a + b, "uri") == Fields(a, "uri") + Fields(b, "uri");
      assert StrValues(u + w) == StrValues(u) + StrValues(w);
      assert Fields(b, "uri") == StrValues(w);
    }
  }

  /**
   * `listResources` names one `api://{id}{path}` per endpoint of every API, in
   * registry order, followed by the three system URIs.
   */
  lemma ListResourcesUris(es: Registry.Entries)
    ensures var rs := Get(ListResources(es), "resources");
      rs.Arr? &&
      Fields(rs.items, "uri") == StrValues(ApiResource.ListUris(OM.Values(es)) + ["system://info", "system://apis", "system://health"])
  {
    var a := EndpointResources(OM.Values(es));
    EndpointResourceUris(OM.Values(es));
    assert Fields(a + SystemResources, "uri") == Fields(a, "uri") + Fields(SystemResources, "uri");
    var u := ApiResource.ListUris(OM.Values(es));
    var sys := ["system://info", "system://apis", "system://health"];
    assert Get(SystemResources[0], "uri") == Str(sys[0]);
    assert Get(SystemResources[1], "uri") == Str(sys[1]);
    assert Get(SystemResources[2], "uri") == Str(sys[2]);
    assert Fields(SystemResources, "uri") == StrValues(sys);
    assert StrValues(u + sys) == StrValues(u) + StrValues(sys);
  }

  /** One endpoint in the "apis" system resource. */
  function EndpointSummary(e: EndpointConfig): Value
  {
    Obj([("path", Str(e.path)), ("method", Str(e.httpMethod)),
         ("description", if e.description.Some? then Str(e.description.value) else Undefined)])
  }

  function ApiSummary(api: ApiConfig): Value
  {
    Obj([("id", Str(api.id)), ("name", Str(api.name)), ("description", Str(api.description)),
         ("baseUrl", Str(api.baseUrl)),
         ("active", if api.active.Some? then Bool(api.active.value) else Undefined),
         ("endpoints", Arr(seq(|api.endpoints|, j requires 0 <= j < |api.endpoints| => EndpointSummary(api.endpoints[j]))))])
  }

  /** A read's single content entry. */
  function Contents(uri: string, data: Value): Value
  {
    Obj([("contents", Arr([Obj([("uri", Str(uri)), ("mimeType", Str(MimeType)), ("text", JsonText(Pretty(data)))])]))])
  }

  /** The try block of `readResource`, before its catch adds the prefix. */
  function ReadBody(env: Env, uri: string): Result<Value>
  {
    if ApiResource.Scheme <= uri then
      match ApiResource.ParseUri(uri)
      case None => Err("Invalid URI format: " + uri)
      case Some((apiId, rest)) =>
        var api := OM.Get(env.apis, apiId);
        if api.None? || !IsActive(api.value) then Err("API " + apiId + " no disponible")
        else
          match Service.QueryAPI(env.apis, apiId, "/" + rest, Obj([]), env.urlOk, env.fetch)
          case Err(m) => Err(m)
          case Ok(data) => Ok(Contents(uri, data))
    else if SystemScheme <= uri then
      var resource := ReplaceFirst(uri, SystemScheme, "");
      if resource == "info" then Ok(Contents(uri, env.runtime("info")))
      else if resource == "apis" then
        var apis := OM.Values(env.apis);
        Ok(Contents(uri, Arr(seq(|apis|, i requires 0 <= i < |apis| => ApiSummary(apis[i])))))
      else if resource == "health" then Ok(Contents(uri, env.runtime("health")))
      else Err("System resource not found: " + resource)
    else Err("Unsupported resource type: " + uri)
  }

  /** `readResource(uri)`: every failure is rethrown with the prefix. */
  function ReadResource(env: Env, uri: string): Result<Value>
  {
    match ReadBody(env, uri)
    case Ok(v) => Ok(v)
    case Err(m) => Err(ReadFailurePrefix + m)
  }

  /**
   * An `api://` read needs the shape `api://<id>/<rest>` and a registered,
   * active API, and then queries "/" + rest with no parameters; a `system://`
   * read knows info, apis and health only; all failures carry the prefix.
   */
  lemma ReadResourceSpec(env: Env, uri: string)
    ensures ReadResource(env, uri).Err? ==> ReadFailurePrefix <= ReadResource(env, uri).msg
    ensures ApiResource.Scheme <= uri ==>
      (ReadResource(env, uri).Ok? <==>
        ApiResource.ParseUri(uri).Some? &&
        OM.Get(env.apis, ApiResource.ParseUri(uri).value.0).Some? &&
        IsActive(OM.Get(env.apis, ApiResource.ParseUri(uri).value.0).value) &&
        Service.QueryAPI(env.apis, ApiResource.ParseUri(uri).value.0, "/" + ApiResource.ParseUri(uri).value.1,
                         Obj([]), env.urlOk, env.fetch).Ok?)
    ensures SystemScheme <= uri ==>
      (ReadResource(env, uri).Ok? <==> ReplaceFirst(uri, SystemScheme, "") in ["info", "apis", "health"])
    ensures !(ApiResource.Scheme <= uri) && !(SystemScheme <= uri) ==>
      ReadResource(env, uri) == Err(ReadFailurePrefix + "Unsupported resource type: " + uri)
  {
    if SystemScheme <= uri {
      assert uri[0] == 's';
    }
  }

  /** A system name written after the scheme is the resource read. */
  lemma SystemNameRead(env: Env, name: string)
    ensures ReadResource(env, SystemScheme + name).Ok? <==> name in ["info", "apis", "health"]
    ensures name !in ["info", "apis", "health"] ==>
      ReadResource(env, SystemScheme + name) == Err(ReadFailurePrefix + "System resource not found: " + name)
  {
    ReplaceFirstPrefix(SystemScheme + name, SystemScheme, name);
    assert (SystemScheme + name)[0] == 's';
    assert SystemScheme <= SystemScheme + name;
  }

  // ---------------------------------------------------------------- tools

  const EndpointToolSchema: Value := Obj([
    ("type", Str("object")),
    ("properties", Obj([
      ("endpoint", Obj([("type", Str("string")), ("description", Str("Endpoint a consultar (ej: /usuarios)"))])),
      ("params", Obj([("type", Str("object")), ("description", Str("Parámetros de consulta")),
                      ("additionalProperties", Bool(true))]))])),
    ("required", Arr([Str("endpoint")]))])

  function ApiTool(api: ApiConfig): Value
  {
    Obj([("name", Str(api.id)),
         ("description", Str(if api.description != "" then api.description else "Consultar la API " + api.name)),
         ("inputSchema", EndpointToolSchema)])
  }

  const SystemTools: seq<Value> := [
    Obj([("name", Str("api_discovery")),
         ("description", Str("Descubrir APIs disponibles basado en consultas")),
         ("inputSchema", Obj([
           ("type", Str("object")),
           ("properties", Obj([
             ("query", Obj([("type", Str("string")), ("description", Str("Consulta para buscar APIs (ej: 'usuarios', 'activos')"))])),
             ("type", Obj([("type", Str("string")), ("description", Str("Filtrar por tipo de API"))])),
             ("limit", Obj([("type", Str("number")), ("description", Str("Límite de resultados")),
                            ("default", Num(10)), ("minimum", Num(1)), ("maximum", Num(100))]))]))]))]),
    Obj([("name", Str("system_info")),
         ("description", Str("Obtener información del sistema")),
         ("inputSchema", Obj([("type", Str("object")), ("properties", Obj([]))]))])]

  function ApiTools(apis: seq<ApiConfig>): (r: seq<Value>)
    ensures |r| == |apis|
  {
    seq(|apis|, i requires 0 <= i < |apis| => ApiTool(apis[i]))
  }

  /** `listTools`: one tool per active API, named by its id, then the two system tools. */
  function ListTools(es: Registry.Entries): Value
  {
    Obj([("tools", Arr(ApiTools(Registry.ActiveOf(OM.Values(es))) + SystemTools))])
  }

  lemma ListToolsNames(es: Registry.Entries)
    ensures var ts := Get(ListTools(es), "tools");
      var active := Registry.ActiveOf(OM.Values(es));
      ts.Arr? && |ts.items| == |active| + 2 &&
      Fields(ts.items, "name") == seq(|active|, i requires 0 <= i < |active| => Str(active[i].id)) + [Str("api_discovery"), Str("system_info")]
  {
    var active := Registry.ActiveOf(OM.Values(es));
    assert Fields(ApiTools(active) + SystemTools, "name") == Fields(ApiTools(active), "name") + Fields(SystemTools, "name");
  }

  const ApiToolEndpointMissing: string := "El parámetro 'endpoint' es requerido"
  const ApiToolEndpointNotString: string := "El parámetro 'endpoint' debe ser una cadena de texto"
  const ApiToolParamsNotObject: string := "El parámetro 'params' debe ser un objeto"

  /** `handleApiTool(api, args)`, reduced to the text of its answer: the argument checks come before any query. */
  function HandleApiTool(env: Env, api: ApiConfig, args: Value): Result<Value>
  {
    if args.Undefined? || args.Null? then Err(DestructureError("endpoint", args))
    else
      var endpoint := Get(args, "endpoint");
      var params := Get(args, "params");
      if !Truthy(endpoint) then Err(ApiToolEndpointMissing)
      else if !endpoint.Str? then Err(ApiToolEndpointNotString)
      else if Truthy(params) && TypeOf(params) != "object" then Err(ApiToolParamsNotObject)
      else
        match Service.QueryAPI(env.apis, api.id, endpoint.s, if Truthy(params) then params else Obj([]),
                               env.urlOk, env.fetch)
        case Err(m) => Err(m)
        case Ok(data) => Ok(JsonText(Pretty(data)))
  }

  /** A missing or non-string endpoint and non-object params are refused; otherwise the query decides. */
  lemma HandleApiToolSpec(env: Env, api: ApiConfig, args: Value)
    requires args.Obj?
    ensures !Truthy(Get(args, "endpoint")) ==> HandleApiTool(env, api, args) == Err(ApiToolEndpointMissing)
    ensures Truthy(Get(args, "endpoint")) && !Get(args, "endpoint").Str? ==>
      HandleApiTool(env, api, args) == Err(ApiToolEndpointNotString)
    ensures (Get(args, "params").Bool? && Get(args, "params").b) || (Get(args, "params").Num? && Get(args, "params").n != 0) ==>
      HandleApiTool(env, api, args).Err?
    ensures HandleApiTool(env, api, args).Ok? <==>
      Truthy(Get(args, "endpoint")) && Get(args, "endpoint").Str? &&
      (!Truthy(Get(args, "params")) || TypeOf(Get(args, "params")) == "object") &&
      Service.QueryAPI(env.apis, api.id, Get(args, "endpoint").s,
                       if Truthy(Get(args, "params")) then Get(args, "params") else Obj([]), env.urlOk, env.fetch).Ok?
  {
  }

  /**
   * `Math.min(Math.max(args.limit || 10, 1), 100)`: a falsy limit is 10, any
   * other is converted as a number and clamped into [1, 100]; `None` is NaN.
   */
  function ClampLimit(limit: Value): (r: Option<int>)
    ensures r.Some? ==> 1 <= r.value <= 100
    ensures !Truthy(limit) ==> r == Some(10)
    ensures Truthy(limit) ==> (r.None? <==> ToInteger(limit).None?)
    ensures Truthy(limit) && ToInteger(limit).Some? ==>
      var k := ToInteger(limit).value;
      (1 <= k <= 100 ==> r == Some(k)) && (k < 1 ==> r == Some(1)) && (k > 100 ==> r == Some(100))
  {
    var n: Option<int> := if !Truthy(limit) then Some(10) else ToInteger(limit);
    match n
    case None => None
    case Some(k) => Some(if k < 1 then 1 else if k > 100 then 100 else k)
  }

  /** A limit written as text is read as its number: "5" and " 5 " both give 5. */
  lemma ClampLimitText(n: int)
    requires 1 <= n <= 100
    ensures ClampLimit(Str(IntStr(n))) == Some(n)
    ensures ClampLimit(Str(" " + IntStr(n) + " ")) == Some(n)
  {
    var s := IntStr(n);
    IntStrEdges(n);
    assert Truthy(Str(s)) && Truthy(Str(" " + s + " "));
    ToIntegerSpec(n);
  }

  /** The type filter: `toLowerCase` on a non-string type throws, but only when some API is left to test. */
  function TypeStage(apis: seq<ApiConfig>, t: Value): Result<seq<ApiConfig>>
  {
    if !Truthy(t) then Ok(apis)
    else if |apis| == 0 then Ok([])
    else if !t.Str? then Err(NotAFunction("args.type.toLowerCase"))
    else Ok(Filter(apis, a => ApiDiscoveryTool.TypeMatches(a, t.s)))
  }

  /** The query filter: the query is lower-cased once, before any API is tested. */
  function QueryStage(apis: seq<ApiConfig>, query: Value): Result<seq<ApiConfig>>
  {
    if !Truthy(query) then Ok(apis)
    else if !query.Str? then Err(NotAFunction("args.query.toLowerCase"))
    else Ok(Filter(apis, a => ApiDiscoveryTool.Mentions(a, Lower(query.s))))
  }

  /** `slice(0, limit)`; a NaN limit keeps nothing. */
  function Take(apis: seq<ApiConfig>, limit: Option<int>): (r: seq<ApiConfig>)
    ensures r <= apis
    ensures limit.None? ==> r == []
    ensures limit.Some? && limit.value >= 0 ==> |r| == Min(limit.value, |apis|)
  {
    if limit.None? || limit.value < 0 then [] else apis[..Min(limit.value, |apis|)]
  }

  /** The selection `handleApiDiscovery` reports: active APIs, type filter, query filter, and the clamped limit. */
  function Discovered(es: Registry.Entries, args: Value): Result<(seq<ApiConfig>, Option<int>)>
  {
    if args.Undefined? || args.Null? then Err(ReadPropertyError("type", args))
    else
      match TypeStage(Registry.ActiveOf(OM.Values(es)), Get(args, "type"))
      case Err(m) => Err(m)
      case Ok(byType) =>
        match QueryStage(byType, Get(args, "query"))
        case Err(m) => Err(m)
        case Ok(byQuery) =>
          var limit := ClampLimit(Get(args, "limit"));
          Ok((Take(byQuery, limit), limit))
  }

  /** The type filter keeps exactly the APIs whose type contains the requested one. */
  lemma TypeStageSpec(apis: seq<ApiConfig>, t: Value, api: ApiConfig)
    ensures TypeStage(apis, t).Err? <==> Truthy(t) && |apis| > 0 && !t.Str?
    ensures TypeStage(apis, t).Ok? ==>
      (api in TypeStage(apis, t).value <==> api in apis && (!Truthy(t) || ApiDiscoveryTool.TypeMatches(api, t.s)))
  {
    if Truthy(t) && |apis| > 0 && t.Str? {
      FilterSpec(apis, a => ApiDiscoveryTool.TypeMatches(a, t.s), api);
    }
  }

  /** The query filter keeps exactly the APIs that mention the lower-cased query. */
  lemma QueryStageSpec(apis: seq<ApiConfig>, query: Value, api: ApiConfig)
    ensures QueryStage(apis, query).Err? <==> Truthy(query) && !query.Str?
    ensures QueryStage(apis, query).Ok? ==>
      (api in QueryStage(apis, query).value <==>
        api in apis && (!Truthy(query) || ApiDiscoveryTool.Mentions(api, Lower(query.s))))
  {
    if Truthy(query) && query.Str? {
      FilterSpec(apis, a => ApiDiscoveryTool.Mentions(a, Lower(query.s)), api);
    }
  }

  /** An API as the stdio discovery describes it: like the tool's view, with its `active` flag. */
  function DiscoveredView(api: ApiConfig): Value
  {
    Obj([("id", Str(api.id)), ("name", Str(api.name)), ("description", Str(api.description)),
         ("type", Str(api.apiType)), ("baseUrl", Str(api.baseUrl)),
         ("active", if api.active.Some? then Bool(api.active.value) else Undefined),
         ("endpoints", Arr(seq(|api.endpoints|, j requires 0 <= j < |api.endpoints| =>
           ApiDiscoveryTool.EndpointView(api.endpoints[j]))))])
  }

  function DiscoveryRecord(es: Registry.Entries, args: Value, results: seq<ApiConfig>, limit: Option<int>): Value
  {
    Obj([("success", Bool(true)), ("count", Num(|results|)), ("total", Num(|es|)),
         ("apis", Arr(seq(|results|, i requires 0 <= i < |results| => DiscoveredView(results[i])))),
         ("metadata", Obj([("query", Get(args, "query")), ("type", Get(args, "type")),
                           ("limit", if limit.Some? then Num(limit.value) else Null)]))])
  }

  /** `handleApiDiscovery(args)`, reduced to the text of its answer: the record, pretty-printed. */
  function HandleApiDiscovery(es: Registry.Entries, args: Value): Result<Value>
  {
    match Discovered(es, args)
    case Err(m) => Err(m)
    case Ok((results, limit)) => Ok(JsonText(Pretty(DiscoveryRecord(es, args, results, limit))))
  }

  /**
   * Unlike the `api_discovery` tool of the WebSocket server, this one keeps
   * active APIs only and clamps the limit into [1, 100] (default 10, and 0
   * counts as missing): every API it returns is registered, active and passes
   * both filters, and there are no more of them than the limit.
   */
  lemma DiscoveredSpec(es: Registry.Entries, args: Value, api: ApiConfig)
    requires Discovered(es, args).Ok?
    ensures var byType := TypeStage(Registry.ActiveOf(OM.Values(es)), Get(args, "type"));
      byType.Ok? && QueryStage(byType.value, Get(args, "query")).Ok? &&
      Discovered(es, args).value ==
        (Take(QueryStage(byType.value, Get(args, "query")).value, ClampLimit(Get(args, "limit"))),
         ClampLimit(Get(args, "limit")))
    ensures var (results, limit) := Discovered(es, args).value;
      (limit.Some? ==> |results| <= limit.value && 1 <= limit.value <= 100) &&
      (limit.None? ==> results == []) &&
      ((Get(args, "limit").Undefined? || Get(args, "limit") == Num(0)) ==> limit == Some(10))
    ensures var (results, limit) := Discovered(es, args).value;
      api in results ==>
        IsActive(api) && api in OM.Values(es) &&
        (!Truthy(Get(args, "type")) || ApiDiscoveryTool.TypeMatches(api, Get(args, "type").s)) &&
        (!Truthy(Get(args, "query")) || ApiDiscoveryTool.Mentions(api, Lower(Get(args, "query").s)))
  {
    var all := OM.Values(es);
    var active := Registry.ActiveOf(all);
    Registry.ActiveOfSpec(all);
    var byType := TypeStage(active, Get(args, "type")).value;
    TypeStageSpec(active, Get(args, "type"), api);
    QueryStageSpec(byType, Get(args, "query"), api);
    var (results, limit) := Discovered(es, args).value;
    if api in results {
      assert api in QueryStage(byType, Get(args, "query")).value;
      assert api in active;
    }
  }

  /** The record counts what it returns, and its total is the whole registry, inactive APIs included. */
  lemma DiscoveryRecordCounts(es: Registry.Entries, args: Value, results: seq<ApiConfig>, limit: Option<int>)
    ensures Get(DiscoveryRecord(es, args, results, limit), "count") == Num(|results|)
    ensures Get(DiscoveryRecord(es, args, results, limit), "total") == Num(|es|)
  {
    var r := DiscoveryRecord(es, args, results, limit);
    LookupAt(r.fields, 1, "count");
    LookupAt(r.fields, 2, "total");
  }

  /** The text of the answer to a failed tool call. */
  function ToolError(name: string, m: string): Value
  {
    TextContent(Str(ToolErrorText(name, m)))
  }

  function ToolErrorText(name: string, m: string): string
  {
    ("\U{274C} Error ejecutando herramienta \"" + name + "\": " + m +
      "\n\nSugerencias:\n- Verifique que la API esté disponible\n- Confirme los parámetros requeridos\n- Revise los logs para más detalles")
  }

  /** The text of the `system_info` answer, from the runtime. */
  function SystemInfo(env: Env): Value
  {
    JsonText(Pretty(env.runtime("system_info")))
  }

  /** The try block of `callTool`, giving the answer text: an active API of that id takes precedence over the system tools. */
  function CallBody(env: Env, name: string, args: Value): Result<Value>
  {
    var api := OM.Get(env.apis, name);
    if api.Some? && IsActive(api.value) then HandleApiTool(env, api.value, args)
    else if name == "api_discovery" then HandleApiDiscovery(env.apis, args)
    else if name == "system_info" then Ok(SystemInfo(env))
    else Err("Herramienta desconocida: " + name)
  }

  /** `callTool(name, args)`: one text item, and a failure becomes a text answer, never an error. */
  function CallTool(env: Env, name: string, args: Value): Value
  {
    match CallBody(env, name, args)
    case Ok(text) => TextContent(text)
    case Err(m) => ToolError(name, m)
  }

  /** An active API of that name is called before the system tools, even when it is named like one. */
  lemma ApiToolFirst(env: Env, name: string, args: Value)
    requires OM.Get(env.apis, name).Some? && IsActive(OM.Get(env.apis, name).value)
    ensures CallBody(env, name, args) == HandleApiTool(env, OM.Get(env.apis, name).value, args)
  {
  }

  /** A name that is neither an active API nor a system tool is answered with a text, not an error. */
  lemma UnknownTool(env: Env, name: string, args: Value)
    requires !(OM.Get(env.apis, name).Some? && IsActive(OM.Get(env.apis, name).value))
    requires name != "api_discovery" && name != "system_info"
    ensures CallTool(env, name, args) == ToolError(name, "Herramienta desconocida: " + name)
  {
    UnknownToolBody(env, name, args);
    CallToolFailure(env, name, args, "Herramienta desconocida: " + name);
  }

  /** A failing body is answered with its message inside the tool's error text. */
  lemma CallToolFailure(env: Env, name: string, args: Value, m: string)
    requires CallBody(env, name, args) == Err(m)
    ensures CallTool(env, name, args) == ToolError(name, m)
  {
    match CallBody(env, name, args)
    case Err(e) =>
      assert e == m;
  }

  lemma UnknownToolBody(env: Env, name: string, args: Value)
    requires !(OM.Get(env.apis, name).Some? && IsActive(OM.Get(env.apis, name).value))
    requires name != "api_discovery" && name != "system_info"
    ensures CallBody(env, name, args) == Err("Herramienta desconocida: " + name)
  {
  }

  // ---------------------------------------------------------------- process

  /** The `isShuttingDown` guard of `gracefulShutdown`. */
  class Shutdown {
    var isShuttingDown: bool
    /** The signals whose handler ran the shutdown body. */
    var handled: seq<string>

    predicate Valid()
      reads this
    {
      |handled| <= 1 && (isShuttingDown <==> |handled| == 1)
    }

    constructor ()
      ensures Valid() && !isShuttingDown && handled == []
    {
      isShuttingDown := false;
      handled := [];
    }

    /** A signal runs the body only if no signal ran it before. */
    method GracefulShutdown(signal: string)
      requires Valid()
      modifies this
      ensures Valid() && isShuttingDown
      ensures handled == if old(isShuttingDown) then old(handled) else [signal]
    {
      if isShuttingDown {
        return;
      }
      isShuttingDown := true;
      handled := handled + [signal];
    }

    /** However many signals arrive, the body runs once, for the first of them. */
    method Signals(signals: seq<string>)
      requires Valid() && !isShuttingDown
      modifies this
      ensures Valid()
      ensures handled == if |signals| == 0 then [] else [signals[0]]
    {
      var i := 0;
      while i < |signals|
        invariant 0 <= i <= |signals|
        invariant Valid()
        invariant handled == if i == 0 then [] else [signals[0]]
        invariant isShuttingDown <==> i > 0
      {
        GracefulShutdown(signals[i]);
        i := i + 1;
      }
    }
  }
}
