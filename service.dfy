/**
 * The API service: delegation to the registry, the classification of one
 * upstream query, and the per-API health check. The HTTP client is an oracle
 * from the request it would send to the outcome it reports.
 */
module Service {
  import opened Common
  import opened Strs
  import opened Js
  import opened ApiTypes
  import opened Registry
  import OM = OrderedMap

  /** The request the service would send: target, query parameters in append order, headers. */
  datatype Request = Request(url: string, query: seq<(string, string)>, headers: seq<(string, string)>)

  /**
   * What the HTTP client reports: a rejection (an error's `name`, `code` and
   * `message`), or a response with its status line, its `content-type` header
   * and the outcome of parsing the body as JSON.
   */
  datatype FetchOutcome =
    | Failed(name: string, code: string, message: string)
    | Response(ok: bool, status: int, statusText: string, contentType: Option<string>, body: Result<Value>)

  /** A health status; timestamps and the measured response time are not modelled. */
  datatype ApiStatus = ApiStatus(id: string, status: string, error: Option<string>)

  const DefaultHeaders: seq<(string, string)> := [("Accept", "application/json"), ("Content-Type", "application/json")]
  const CertificateCode: string := "UNABLE_TO_VERIFY_LEAF_SIGNATURE"
  /** What `new URL` throws for a string it cannot parse. */
  const InvalidUrlMessage: string := "Invalid URL"

  function NotFound(apiId: string): string
  {
    "API " + apiId + " no encontrada"
  }

  function TimeoutMessage(apiId: string): string
  {
    "Timeout consultando API " + apiId
  }

  function CertificateMessage(apiId: string): string
  {
    "Error de certificado SSL en la API " + apiId +
    ". Para desarrollo, puedes configurar NODE_TLS_REJECT_UNAUTHORIZED=0"
  }

  function NotJsonMessage(apiId: string): string
  {
    "La API " + apiId + " no devolvió JSON, recibió HTML u otro formato"
  }

  const QueryErrorPrefix: string := "Error consultando API: "

  /**
   * `Object.keys(params)` paired with `String(params[key])`, as appended to the
   * search parameters; a falsy or key-less value contributes nothing.
   */
  function QueryPairs(params: Value): (r: seq<(string, string)>)
    ensures params.Obj? ==> (|r| == |params.fields| &&
      forall i :: 0 <= i < |r| ==> r[i] == (params.fields[i].0, ToStr(params.fields[i].1)))
    ensures params.Arr? ==> |r| == |params.items|
    ensures params.Str? ==> |r| == |params.s|
    ensures !params.Obj? && !params.Arr? && !params.Str? ==> r == []
  {
    match params
    case Obj(fs) => seq(|fs|, i requires 0 <= i < |fs| => (fs[i].0, ToStr(fs[i].1)))
    case Arr(xs) => seq(|xs|, i requires 0 <= i < |xs| => (NatStr(i), ToStr(xs[i])))
    case Str(s) => seq(|s|, i requires 0 <= i < |s| => (NatStr(i), [s[i]]))
    case _ => []
  }

  /** The request `queryAPI` sends for a registered API. */
  function QueryRequest(api: ApiConfig, endpoint: string, params: Value): Request
  {
    Request(api.baseUrl + endpoint, QueryPairs(params), MergeHeaders(DefaultHeaders, api.headers))
  }

  /** The `catch` of `queryAPI`, applied to every error raised inside its `try`. */
  function Rethrow(apiId: string, name: string, code: string, message: string): string
  {
    if name == "AbortError" then TimeoutMessage(apiId)
    else if code == CertificateCode then CertificateMessage(apiId)
    else QueryErrorPrefix + message
  }

  /**
   * `queryAPI(apiId, endpoint, params)`. `urlOk` says whether `new URL` accepts
   * a string; `fetch` is the HTTP client. The service's own errors for a non-ok
   * status and a non-JSON body are raised inside the `try`, so they come out
   * under the "Error consultando API: " prefix.
   */
  function QueryAPI(es: Entries, apiId: string, endpoint: string, params: Value,
                    urlOk: string -> bool, fetch: Request -> FetchOutcome): Result<Value>
  {
    match OM.Get(es, apiId)
    case None => Err(NotFound(apiId))
    case Some(api) =>
      var req := QueryRequest(api, endpoint, params);
      if !urlOk(req.url) then Err(Rethrow(apiId, "TypeError", "ERR_INVALID_URL", InvalidUrlMessage))
      else match fetch(req)
        case Failed(name, code, message) => Err(Rethrow(apiId, name, code, message))
        case Response(ok, status, statusText, contentType, body) =>
          if !ok then Err(Rethrow(apiId, "Error", "", "Error en API: " + IntStr(status) + " " + statusText))
          else if !Contains(contentType.GetOr(""), "application/json") then
            Err(Rethrow(apiId, "Error", "", NotJsonMessage(apiId)))
          else match body
            case Ok(v) => Ok(v)
            case Err(m) => Err(Rethrow(apiId, "SyntaxError", "", m))
  }

  /** An unregistered id fails before any request: the outcome does not depend on the client. */
  lemma QueryUnknownApi(es: Entries, apiId: string, endpoint: string, params: Value,
                        urlOk: string -> bool, fetch: Request -> FetchOutcome,
                        urlOk': string -> bool, fetch': Request -> FetchOutcome)
    requires !OM.Has(es, apiId)
    ensures QueryAPI(es, apiId, endpoint, params, urlOk, fetch) == Err(NotFound(apiId))
    ensures QueryAPI(es, apiId, endpoint, params, urlOk, fetch) == QueryAPI(es, apiId, endpoint, params, urlOk', fetch')
  {
  }

  /**
   * A query succeeds exactly when the API is registered, its URL parses, the
   * response is ok, its content type mentions JSON and the body parses; the
   * result is then the parsed body.
   */
  lemma QuerySucceeds(es: Entries, apiId: string, endpoint: string, params: Value,
                      urlOk: string -> bool, fetch: Request -> FetchOutcome)
    ensures QueryAPI(es, apiId, endpoint, params, urlOk, fetch).Ok? <==>
      (OM.Has(es, apiId) &&
       var req := QueryRequest(OM.Get(es, apiId).value, endpoint, params);
       urlOk(req.url) && fetch(req).Response? && fetch(req).ok &&
       Contains(fetch(req).contentType.GetOr(""), "application/json") && fetch(req).body.Ok?)
    ensures QueryAPI(es, apiId, endpoint, params, urlOk, fetch).Ok? ==>
      QueryAPI(es, apiId, endpoint, params, urlOk, fetch).value ==
        fetch(QueryRequest(OM.Get(es, apiId).value, endpoint, params)).body.value
  {
  }

  /**
   * Every failure of a registered API is a timeout (exactly when the client
   * aborted), the certificate message, or a message under the common prefix.
   */
  lemma QueryFailureClasses(es: Entries, apiId: string, endpoint: string, params: Value,
                            urlOk: string -> bool, fetch: Request -> FetchOutcome)
    requires OM.Has(es, apiId)
    requires QueryAPI(es, apiId, endpoint, params, urlOk, fetch).Err?
    ensures var m := QueryAPI(es, apiId, endpoint, params, urlOk, fetch).msg;
      m == TimeoutMessage(apiId) || m == CertificateMessage(apiId) || QueryErrorPrefix <= m
    ensures var req := QueryRequest(OM.Get(es, apiId).value, endpoint, params);
      urlOk(req.url) && fetch(req).Failed? && fetch(req).name == "AbortError" ==>
        QueryAPI(es, apiId, endpoint, params, urlOk, fetch).msg == TimeoutMessage(apiId)
  {
  }

  /** The request carries the default headers unless the API's own headers set that name. */
  lemma QueryHeaders(api: ApiConfig, endpoint: string, params: Value, name: string)
    ensures var h := QueryRequest(api, endpoint, params).headers;
      (LastValue(api.headers, name).Some? ==> HeaderValue(h, name) == LastValue(api.headers, name)) &&
      (LastValue(api.headers, name).None? ==> HeaderValue(h, name) == HeaderValue(DefaultHeaders, name))
    ensures QueryRequest(api, endpoint, params).url == api.baseUrl + endpoint
  {
    MergeHeadersValue(DefaultHeaders, api.headers, name);
  }

  /** `checkAPIHealth(apiId)`: `Err` is the exception it throws for an unregistered id. */
  function CheckAPIHealth(es: Entries, apiId: string, fetch: Request -> FetchOutcome): (r: Result<ApiStatus>)
    ensures r.Ok? ==> r.value.id == apiId
  {
    match OM.Get(es, apiId)
    case None => Err(NotFound(apiId))
    case Some(api) =>
      var req := Request(api.baseUrl + OrElse(api.healthEndpoint, "/health"), [],
                         MergeHeaders([("Content-Type", "application/json")], api.headers));
      match fetch(req)
      case Failed(_, _, message) => Ok(ApiStatus(apiId, "unhealthy", Some(message)))
      case Response(ok, status, _, _, _) =>
        if !ok then Ok(ApiStatus(apiId, "unhealthy", Some("Health check falló: " + IntStr(status))))
        else Ok(ApiStatus(apiId, "healthy", None))
  }

  /** The loop body of `checkAllAPIsHealth`: a thrown check becomes an "unhealthy" status carrying the message. */
  function StatusOf(es: Entries, api: ApiConfig, fetch: Request -> FetchOutcome): (r: ApiStatus)
    ensures r.id == api.id
    ensures r.status == "healthy" || r.status == "unhealthy"
  {
    match CheckAPIHealth(es, api.id, fetch)
    case Ok(s) => s
    case Err(m) => ApiStatus(api.id, "unhealthy", Some(m))
  }

  /** The health statuses of a list of APIs, one per API in order. */
  function StatusesOf(es: Entries, apis: seq<ApiConfig>, fetch: Request -> FetchOutcome): (r: seq<ApiStatus>)
    ensures |r| == |apis|
    ensures forall i :: 0 <= i < |apis| ==> r[i] == StatusOf(es, apis[i], fetch)
  {
    seq(|apis|, i requires 0 <= i < |apis| => StatusOf(es, apis[i], fetch))
  }

  /** One more API adds its status at the end. */
  lemma StatusesStep(es: Entries, apis: seq<ApiConfig>, fetch: Request -> FetchOutcome, i: nat)
    requires i < |apis|
    ensures StatusesOf(es, apis[..i + 1], fetch) == StatusesOf(es, apis[..i], fetch) + [StatusOf(es, apis[i], fetch)]
  {
    var l := StatusesOf(es, apis[..i + 1], fetch);
    var r := StatusesOf(es, apis[..i], fetch) + [StatusOf(es, apis[i], fetch)];
    assert forall k :: 0 <= k < |l| ==> l[k] == r[k];
  }

  /** A registered API that answers ok is healthy; a rejection or non-ok status makes it unhealthy with a message. */
  lemma HealthClassification(es: Entries, apiId: string, fetch: Request -> FetchOutcome)
    requires OM.Has(es, apiId)
    ensures CheckAPIHealth(es, apiId, fetch).Ok?
    ensures CheckAPIHealth(es, apiId, fetch).value.status == "healthy" <==>
      var api := OM.Get(es, apiId).value;
      var f := fetch(Request(api.baseUrl + OrElse(api.healthEndpoint, "/health"), [],
                             MergeHeaders([("Content-Type", "application/json")], api.headers)));
      f.Response? && f.ok
    ensures CheckAPIHealth(es, apiId, fetch).value.status == "unhealthy" <==>
      CheckAPIHealth(es, apiId, fetch).value.error.Some?
  {
  }

  class ApiService {
    const registry: ApiRegistry

    /** `apiRegistry || new ApiRegistry()`. */
    constructor (apiRegistry: ApiRegistry?, configurations: seq<ApiConfig>)
      ensures apiRegistry != null ==> registry == apiRegistry
      ensures apiRegistry == null ==>
        (fresh(registry) && registry.Valid() && registry.entries == RegisterAll([], configurations))
    {
      if apiRegistry != null {
        registry := apiRegistry;
      } else {
        registry := new ApiRegistry(configurations);
      }
    }

    method RegisterAPI(cfg: ApiConfig) returns (ok: bool)
      requires registry.Valid()
      modifies registry
      ensures registry.Valid()
      ensures (registry.entries, ok) == Register(old(registry.entries), cfg)
    {
      ok := registry.RegisterAPI(cfg);
    }

    function GetAllAPIs(): seq<ApiConfig>
      reads this, registry
    {
      registry.GetAllAPIs()
    }

    function GetAPI(apiId: string): Option<ApiConfig>
      reads this, registry
    {
      registry.GetAPI(apiId)
    }

    /** `checkAllAPIsHealth`: one status per registered API, in registry order. */
    method CheckAllAPIsHealth(fetch: Request -> FetchOutcome) returns (statuses: seq<ApiStatus>)
      ensures statuses == StatusesOf(registry.entries, GetAllAPIs(), fetch)
    {
      var apis := GetAllAPIs();
      statuses := [];
      var i := 0;
      while i < |apis|
        invariant 0 <= i <= |apis|
        invariant statuses == StatusesOf(registry.entries, apis[..i], fetch)
      {
        var status := StatusOf(registry.entries, apis[i], fetch);
        StatusesStep(registry.entries, apis, fetch, i);
        statuses := statuses + [status];
        i := i + 1;
      }
      assert apis[..i] == apis;
    }
  }
}
