/**
 * The minimal stdio server (`backend/src/mcp/mcpminimal.ts`): a constant API
 * list, a GET through an HTTP client whose failures are sorted into three
 * messages, and two tools whose failures are answered as `isError` texts.
 */
module MinimalServer {
  import opened Common
  import opened Js
  import opened ToolContent
  import Strs

  datatype MinEndpoint = MinEndpoint(path: string, httpMethod: string, description: string)
  datatype MinApi = MinApi(id: string, name: string, description: string, baseUrl: string, apiType: string,
                           endpoints: seq<MinEndpoint>)

  /** The constant `apis` list. */
  const Apis: seq<MinApi> := [
    MinApi("sabi", "Sabi API", "API del sistema Sabi", "https://sabi.bispace.site/api", "REST",
           [MinEndpoint("/usr", "GET", "Obtener usuarios"),
            MinEndpoint("/activo", "GET", "Obtener activos"),
            MinEndpoint("/geo/buscarEstado", "GET", "Buscar estado geográfico")])]

  /**
   * How the HTTP client's GET ends: with the response body, or with the
   * three kinds of error it raises (a response with an error status, a
   * request that got no response, a request that could not be set up).
   */
  datatype Outcome = Data(data: Value)
                   | HttpError(status: int, statusText: string)
                   | NoResponse(message: string)
                   | SetupError(message: string)

  /** The HTTP client, from the URL and the query parameters. */
  type Http = (string, Value) -> Outcome

  /** `getAPI(apiId)`: the first API of that id, or null. */
  function GetAPI(apis: seq<MinApi>, apiId: string): (r: Option<MinApi>)
    ensures r.Some? ==> r.value in apis && r.value.id == apiId
    ensures r.None? <==> forall i :: 0 <= i < |apis| ==> apis[i].id != apiId
    ensures r.Some? ==> exists i :: (0 <= i < |apis| && apis[i] == r.value &&
                                     forall k :: 0 <= k < i ==> apis[k].id != apiId)
  {
    if |apis| == 0 then None
    else if apis[0].id == apiId then Some(apis[0])
    else
      var r := GetAPI(apis[1..], apiId);
      assert forall i :: 1 <= i < |apis| ==> apis[i] == apis[1..][i - 1];
      if r.Some? then
        var i :| 0 <= i < |apis| - 1 && apis[1..][i] == r.value && forall k :: 0 <= k < i ==> apis[1..][k].id != apiId;
        assert apis[i + 1] == r.value;
        r
      else r
  }

  /** The message of each kind of failed request. */
  function FailureMessage(o: Outcome): string
    requires !o.Data?
  {
    match o
    case HttpError(status, text) => "Error HTTP " + Strs.IntStr(status) + ": " + text
    case NoResponse(m) => "No se recibió respuesta del servidor: " + m
    case SetupError(m) => "Error en la solicitud: " + m
  }

  /** `queryAPI(apiId, endpointPath, params)`; the id is compared with `===`, so only a string can match. */
  function QueryAPI(apis: seq<MinApi>, http: Http, apiId: Value, endpointPath: string, params: Value): (r: Result<Value>)
    ensures (!apiId.Str? || GetAPI(apis, apiId.s).None?) ==> r == Err("API no encontrada: " + ToStr(apiId))
    ensures apiId.Str? && GetAPI(apis, apiId.s).Some? ==>
      var o := http(GetAPI(apis, apiId.s).value.baseUrl + endpointPath, params);
      (r.Ok? <==> o.Data?) && (o.Data? ==> r.value == o.data) && (!o.Data? ==> r.msg == FailureMessage(o))
  {
    var api := if apiId.Str? then GetAPI(apis, apiId.s) else None;
    if api.None? then Err("API no encontrada: " + ToStr(apiId))
    else
      var o := http(api.value.baseUrl + endpointPath, params);
      if o.Data? then Ok(o.data) else Err(FailureMessage(o))
  }

  /** The three failure messages are told apart by their openings. */
  lemma FailureMessagesDistinct(o: Outcome)
    requires !o.Data?
    ensures o.HttpError? <==> "Error HTTP " <= FailureMessage(o)
    ensures o.NoResponse? <==> "No se recibió" <= FailureMessage(o)
    ensures o.SetupError? <==> "Error en la solicitud" <= FailureMessage(o)
  {
    match o
    case HttpError(status, text) => HttpErrorMessage(status, text);
    case NoResponse(m) => NoResponseMessage(m);
    case SetupError(m) => SetupErrorMessage(m);
  }

  lemma HttpErrorMessage(status: int, text: string)
    ensures var m := FailureMessage(HttpError(status, text));
      "Error HTTP " <= m && !("No se recibió" <= m) && !("Error en la solicitud" <= m)
  {
    var m := FailureMessage(HttpError(status, text));
    assert m[6] == 'H';
    assert !("No se recibió" <= m) by { assert m[0] != 'N'; }
    assert !("Error en la solicitud" <= m) by { assert "Error en la solicitud"[6] == 'e'; }
  }

  lemma NoResponseMessage(text: string)
    ensures var m := FailureMessage(NoResponse(text));
      !("Error HTTP " <= m) && "No se recibió" <= m && !("Error en la solicitud" <= m)
  {
    var m := FailureMessage(NoResponse(text));
    assert m[0] == 'N';
  }

  lemma SetupErrorMessage(text: string)
    ensures var m := FailureMessage(SetupError(text));
      !("Error HTTP " <= m) && !("No se recibió" <= m) && "Error en la solicitud" <= m
  {
    var m := FailureMessage(SetupError(text));
    assert m[6] == 'e';
    assert !("Error HTTP " <= m) by { assert "Error HTTP "[6] == 'H'; }
  }

  function EndpointValue(e: MinEndpoint): Value
  {
    Obj([("path", Str(e.path)), ("method", Str(e.httpMethod)), ("description", Str(e.description))])
  }

  function ApiValue(api: MinApi): Value
  {
    Obj([("id", Str(api.id)), ("name", Str(api.name)), ("description", Str(api.description)),
         ("baseUrl", Str(api.baseUrl)), ("type", Str(api.apiType)),
         ("endpoints", Arr(seq(|api.endpoints|, j requires 0 <= j < |api.endpoints| => EndpointValue(api.endpoints[j]))))])
  }

  /** `handleListAPIs`, giving the answer text: the whole list, pretty-printed. */
  function ListText(apis: seq<MinApi>): Value
  {
    JsonText(Pretty(Arr(seq(|apis|, i requires 0 <= i < |apis| => ApiValue(apis[i])))))
  }

  const Missing: string := "Los parámetros api_id y endpoint son requeridos"
  const NoLeadingSlash: string := "El endpoint debe comenzar con \"/\""

  /** `handleQueryEndpoint(args)`, giving the answer text. */
  function HandleQueryEndpoint(apis: seq<MinApi>, http: Http, args: Value): Result<Value>
  {
    if args.Undefined? || args.Null? then Err(DestructureError("api_id", args))
    else
      var apiId := Get(args, "api_id");
      var endpoint := Get(args, "endpoint");
      if !Truthy(apiId) || !Truthy(endpoint) then Err(Missing)
      else if !endpoint.Str? then Err(NotAFunction("endpoint.startsWith"))
      else if !("/" <= endpoint.s) then Err(NoLeadingSlash)
      else
        match QueryAPI(apis, http, apiId, endpoint.s, OrDefault(Get(args, "parameters"), Obj([])))
        case Err(m) => Err(m)
        case Ok(data) => Ok(JsonText(Pretty(data)))
  }

  /**
   * Both ids are required, and the endpoint must start with "/", before any
   * request; then the request goes to the API's base URL followed by the
   * endpoint, with `parameters` (default `{}`).
   */
  lemma HandleQueryEndpointSpec(apis: seq<MinApi>, http: Http, args: Value)
    requires args.Obj?
    ensures (!Truthy(Get(args, "api_id")) || !Truthy(Get(args, "endpoint"))) ==>
      HandleQueryEndpoint(apis, http, args) == Err(Missing)
    ensures (Truthy(Get(args, "api_id")) && Get(args, "endpoint").Str? && Get(args, "endpoint").s != "" &&
             Get(args, "endpoint").s[0] != '/') ==>
      HandleQueryEndpoint(apis, http, args) == Err(NoLeadingSlash)
    ensures HandleQueryEndpoint(apis, http, args).Ok? ==>
      Get(args, "endpoint").Str? && "/" <= Get(args, "endpoint").s &&
      QueryAPI(apis, http, Get(args, "api_id"), Get(args, "endpoint").s,
               OrDefault(Get(args, "parameters"), Obj([]))).Ok?
  {
  }

  /** The dispatch inside the try block. */
  function CallBody(apis: seq<MinApi>, http: Http, name: string, args: Value): Result<Value>
  {
    if name == "list_apis" then Ok(ListText(apis))
    else if name == "query_endpoint" then HandleQueryEndpoint(apis, http, args)
    else Err("Herramienta no encontrada: " + name)
  }

  /** The `tools/call` handler with `handleToolError`. */
  function CallTool(apis: seq<MinApi>, http: Http, name: string, args: Value): Value
  {
    match CallBody(apis, http, name, args)
    case Ok(text) => TextContent(text)
    case Err(m) => ErrorContent(m)
  }

  /** Unknown tools and failing handlers are answered with the `isError` flag, never rejected. */
  lemma CallToolSpec(apis: seq<MinApi>, http: Http, name: string, args: Value)
    ensures Get(CallTool(apis, http, name, args), "isError") == Bool(true) <==> CallBody(apis, http, name, args).Err?
    ensures CallBody(apis, http, name, args).Err? ==>
      AnswerText(CallTool(apis, http, name, args)) == Str(ErrorString(CallBody(apis, http, name, args).msg))
    ensures name != "list_apis" && name != "query_endpoint" ==>
      CallTool(apis, http, name, args) == ErrorContent("Herramienta no encontrada: " + name)
    ensures name == "list_apis" ==> CallTool(apis, http, name, args) == TextContent(ListText(apis))
  {
    match CallBody(apis, http, name, args)
    case Ok(text) => ContentFlags(text, "");
    case Err(m) => ContentFlags(Undefined, m);
  }

  const Tools: Value := Obj([("tools", Arr([
    Obj([("name", Str("list_apis")),
         ("description", Str("Listar todas las APIs disponibles en el sistema")),
         ("inputSchema", Obj([("type", Str("object")), ("properties", Obj([]))]))]),
    Obj([("name", Str("query_endpoint")),
         ("description", Str("Consultar un endpoint específico de una API")),
         ("inputSchema", Obj([
           ("type", Str("object")),
           ("properties", Obj([
             ("api_id", Obj([("type", Str("string")), ("description", Str("ID de la API (sabi)"))])),
             ("endpoint", Obj([("type", Str("string")),
                               ("description", Str("Endpoint a consultar (ej: /usr, /activo, /geo/buscarEstado)"))])),
             ("parameters", Obj([("type", Str("object")), ("description", Str("Parámetros de consulta (JSON)"))]))])),
           ("required", Arr([Str("api_id"), Str("endpoint")]))]))])]))])
}
