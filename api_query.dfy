/**
 * The query client of the API manager (`services/api/apiQuery.ts`): the
 * configuration guard, the query string built from the parameters, the
 * request headers, the classification of what the HTTP client reports, the
 * entity-to-endpoint table and the configuration copy written to the log.
 * The HTTP client and the form encoding of `URLSearchParams` are parameters.
 */
module ApiQuery {
  import opened Common
  import opened Strs
  import opened Js
  import opened ApiTypes

  /** An `APIError`: message, HTTP status and code. */
  datatype ApiError = ApiError(message: string, status: int, code: string)

  /** How `queryEndpoint` ends: the response body, or the error it throws. */
  datatype Answer = Data(data: Value) | Failed(error: ApiError)

  /** A response the HTTP client received. */
  datatype Reply = Reply(status: int, statusText: string, data: Value)

  /** What the HTTP client reports: a response, a request sent without a response, or a request that could not be made. */
  datatype Outcome = Answered(reply: Reply) | NoAnswer | NotSent(message: string)

  /** The HTTP GET, from the full URL and the headers. */
  type Fetch = (string, seq<(string, string)>) -> Outcome

  const InvalidConfig: ApiError := ApiError("Configuración de API no válida", 500, "INVALID_API_CONFIG")

  /** The pair one entry adds to the query: none for `undefined` and `null`, otherwise its text. */
  function Kept(e: (string, Value)): seq<(string, string)>
  {
    if e.1.Undefined? || e.1.Null? then [] else [(e.0, ToStr(e.1))]
  }

  /** The pairs appended to the query, in entry order. */
  function KeptPairs(es: seq<(string, Value)>): seq<(string, string)>
    decreases |es|
  {
    if |es| == 0 then [] else KeptPairs(es[..|es| - 1]) + Kept(es[|es| - 1])
  }

  /**
   * A pair is in the query exactly when some entry has that key, a value that
   * is neither `undefined` nor `null`, and that value's text; so the query is
   * empty exactly when every value is `undefined` or `null`.
   */
  lemma {:induction false} KeptPairsSpec(es: seq<(string, Value)>, k: string, s: string)
    ensures (k, s) in KeptPairs(es) <==>
      exists i :: 0 <= i < |es| && es[i].0 == k && !es[i].1.Undefined? && !es[i].1.Null? && ToStr(es[i].1) == s
    ensures |KeptPairs(es)| == 0 <==> forall i :: 0 <= i < |es| ==> es[i].1.Undefined? || es[i].1.Null?
    decreases |es|
  {
    if |es| > 0 {
      var p := es[..|es| - 1];
      KeptPairsSpec(p, k, s);
      assert forall i :: 0 <= i < |p| ==> p[i] == es[i];
      var last := es[|es| - 1];
      if (k, s) in KeptPairs(es) && (k, s) !in KeptPairs(p) {
        assert (k, s) in Kept(last);
      }
    }
  }

  /** The query-string loop: every entry whose value is present is appended. */
  method BuildQuery(es: seq<(string, Value)>) returns (pairs: seq<(string, string)>)
    ensures pairs == KeptPairs(es)
  {
    pairs := [];
    var i := 0;
    while i < |es|
      invariant 0 <= i <= |es|
      invariant pairs == KeptPairs(es[..i])
    {
      assert es[..i + 1][..i] == es[..i];
      if !es[i].1.Undefined? && !es[i].1.Null? {
        pairs := pairs + [(es[i].0, ToStr(es[i].1))];
      }
      i := i + 1;
    }
    assert es[..|es|] == es;
  }

  /** `URLSearchParams.toString()`, given the form encoding of one component. */
  function Render(pairs: seq<(string, string)>, encode: string -> string): string
  {
    Join(seq(|pairs|, i requires 0 <= i < |pairs| => encode(pairs[i].0) + "=" + encode(pairs[i].1)), "&")
  }

  /** The rendered query is empty exactly when there are no pairs. */
  lemma RenderEmpty(pairs: seq<(string, string)>, encode: string -> string)
    ensures Render(pairs, encode) == "" <==> |pairs| == 0
  {
    if |pairs| > 0 {
      var parts := seq(|pairs|, i requires 0 <= i < |pairs| => encode(pairs[i].0) + "=" + encode(pairs[i].1));
      assert |parts[0]| > 0;
      assert Join(parts, "&") == parts[0] || Join(parts, "&") == parts[0] + "&" + Join(parts[1..], "&");
    }
  }

  /** The URL requested: "?" and the query follow only when the query is not empty. */
  function FullUrl(url: string, pairs: seq<(string, string)>, encode: string -> string): (r: string)
    ensures |pairs| == 0 ==> r == url
    ensures |pairs| > 0 ==> r == url + "?" + Render(pairs, encode)
  {
    RenderEmpty(pairs, encode);
    if Render(pairs, encode) != "" then url + "?" + Render(pairs, encode) else url
  }

  const BaseHeaders: seq<(string, string)> := [("Accept", "application/json"), ("User-Agent", "API-Assistant/1.0")]

  /** The headers `getHeaders` builds for an authentication block. */
  function Headers(auth: Option<Auth>): seq<(string, string)>
  {
    if auth.Some? && auth.value.kind == "bearer" then
      SetHeader(BaseHeaders, "Authorization", "Bearer " + OptText(auth.value.token))
    else if auth.Some? && auth.value.kind == "apiKey" then
      SetHeader(BaseHeaders, OrElse(auth.value.key, "X-API-Key"), OrElse(auth.value.value, ""))
    else BaseHeaders
  }

  /** `getHeaders`, filling the record step by step. */
  method GetHeaders(config: ApiConfig) returns (headers: seq<(string, string)>)
    ensures headers == Headers(config.auth)
  {
    headers := [("Accept", "application/json")];
    headers := SetHeader(headers, "User-Agent", "API-Assistant/1.0");
    if config.auth.Some? {
      var auth := config.auth.value;
      if auth.kind == "bearer" {
        headers := SetHeader(headers, "Authorization", "Bearer " + OptText(auth.token));
      } else if auth.kind == "apiKey" {
        headers := SetHeader(headers, OrElse(auth.key, "X-API-Key"), OrElse(auth.value, ""));
      }
    }
  }

  /**
   * Accept and User-Agent are always set; bearer authentication adds
   * `Authorization: Bearer <token>`; apiKey authentication sets the header
   * named by its key (default "X-API-Key") to its value (default "") and
   * leaves every other header as it was; any other block adds nothing.
   */
  lemma HeadersSpec(auth: Option<Auth>)
    ensures HeaderValue(Headers(auth), "Accept").Some? && HeaderValue(Headers(auth), "User-Agent").Some?
    ensures (auth.None? || (auth.value.kind != "bearer" && auth.value.kind != "apiKey")) ==> Headers(auth) == BaseHeaders
    ensures auth.Some? && auth.value.kind == "bearer" ==>
      HeaderValue(Headers(auth), "Authorization") == Some("Bearer " + OptText(auth.value.token)) &&
      HeaderValue(Headers(auth), "Accept") == Some("application/json") &&
      HeaderValue(Headers(auth), "User-Agent") == Some("API-Assistant/1.0")
    ensures auth.Some? && auth.value.kind == "apiKey" ==>
      var name := OrElse(auth.value.key, "X-API-Key");
      HeaderValue(Headers(auth), name) == Some(OrElse(auth.value.value, "")) &&
      forall k :: k != name ==> HeaderValue(Headers(auth), k) == HeaderValue(BaseHeaders, k)
  {
    if auth.Some? && auth.value.kind == "bearer" {
      SetHeaderValue(BaseHeaders, "Authorization", "Bearer " + OptText(auth.value.token), "Accept");
      SetHeaderValue(BaseHeaders, "Authorization", "Bearer " + OptText(auth.value.token), "User-Agent");
    } else if auth.Some? && auth.value.kind == "apiKey" {
      var name := OrElse(auth.value.key, "X-API-Key");
      var v := OrElse(auth.value.value, "");
      forall k | k != name
        ensures HeaderValue(Headers(auth), k) == HeaderValue(BaseHeaders, k)
      {
        SetHeaderValue(BaseHeaders, name, v, k);
      }
      SetHeaderValue(BaseHeaders, name, v, "Accept");
      SetHeaderValue(BaseHeaders, name, v, "User-Agent");
    }
  }

  /**
   * What `queryEndpoint` makes of the HTTP client's report. Statuses below
   * 500 resolve the request: below 400 the body is the answer; from 400 the
   * error thrown inside the `try` block reaches its own `catch`, which (the
   * error carrying neither a response nor a request) rethrows its message
   * with status 500. From 500 the client rejects with the response.
   */
  function Classify(o: Outcome): Answer
  {
    match o
    case Answered(reply) =>
      if reply.status < 400 then Data(reply.data)
      else if reply.status < 500 then
        Failed(ApiError("API respondió con estado " + IntStr(reply.status) + ": " + reply.statusText, 500, "API_REQUEST_ERROR"))
      else
        var m := Get(reply.data, "message");
        Failed(ApiError("Error " + IntStr(reply.status) + " desde la API: " + (if Truthy(m) then ToStr(m) else reply.statusText),
                        reply.status, "API_RESPONSE_ERROR"))
    case NoAnswer => Failed(ApiError("No se recibió respuesta de la API", 503, "API_NO_RESPONSE"))
    case NotSent(m) => Failed(ApiError(if m != "" then m else "Error desconocido al consultar la API", 500, "API_REQUEST_ERROR"))
  }

  /**
   * Only a response with a status below 400 gives data; a status from 500 is
   * reported with that status, every other failure with 500 or 503.
   */
  lemma ClassifySpec(o: Outcome)
    ensures Classify(o).Data? <==> o.Answered? && o.reply.status < 400
    ensures Classify(o).Data? ==> Classify(o).data == o.reply.data
    ensures Classify(o).Failed? && o.Answered? && o.reply.status >= 500 ==>
      Classify(o).error.status == o.reply.status && Classify(o).error.code == "API_RESPONSE_ERROR"
    ensures Classify(o).Failed? && !(o.Answered? && o.reply.status >= 500) ==>
      Classify(o).error.status == (if o.NoAnswer? then 503 else 500)
  {
  }

  /**
   * What the request after the guard gives: the entries of the parameters
   * (`{}` when they are left out) turned into the query, and one request to
   * the base URL followed by the endpoint path and the query.
   */
  function Requested(api: ApiConfig, endpointPath: string, params: Value, encode: string -> string, fetch: Fetch): Answer
  {
    match Entries(OrDefault(params, Obj([])))
    case None => Failed(ApiError(NullEntries, 500, "API_REQUEST_ERROR"))
    case Some(es) => Classify(fetch(FullUrl(api.baseUrl + endpointPath, KeptPairs(es), encode), Headers(api.auth)))
  }

  /** `queryEndpoint(apiConfig, endpointPath, params = {})`: a missing configuration or base URL fails before any request. */
  method QueryEndpoint(config: Option<ApiConfig>, endpointPath: string, params: Value,
                       encode: string -> string, fetch: Fetch) returns (r: Answer)
    ensures config.None? || config.value.baseUrl == "" ==> r == Failed(InvalidConfig)
    ensures config.Some? && config.value.baseUrl != "" ==> r == Requested(config.value, endpointPath, params, encode, fetch)
  {
    if config.None? || config.value.baseUrl == "" {
      return Failed(InvalidConfig);
    }
    var api := config.value;
    var url := api.baseUrl + endpointPath;
    var entries := Entries(OrDefault(params, Obj([])));
    if entries.None? {
      return Failed(ApiError(NullEntries, 500, "API_REQUEST_ERROR"));
    }
    var pairs := BuildQuery(entries.value);
    var query := Render(pairs, encode);
    var fullUrl := if query != "" then url + "?" + query else url;
    var headers := GetHeaders(api);
    r := Classify(fetch(fullUrl, headers));
  }

  /**
   * A request is made with an object's present parameters only, and the URL
   * is the bare endpoint exactly when none is present.
   */
  lemma RequestedUrl(api: ApiConfig, endpointPath: string, fields: seq<(string, Value)>, encode: string -> string, fetch: Fetch)
    ensures (forall i :: 0 <= i < |fields| ==> fields[i].1.Undefined? || fields[i].1.Null?) ==>
      Requested(api, endpointPath, Obj(fields), encode, fetch) == Classify(fetch(api.baseUrl + endpointPath, Headers(api.auth)))
    ensures (exists i :: 0 <= i < |fields| && !fields[i].1.Undefined? && !fields[i].1.Null?) ==>
      Requested(api, endpointPath, Obj(fields), encode, fetch) ==
      Classify(fetch(api.baseUrl + endpointPath + "?" + Render(KeptPairs(fields), encode), Headers(api.auth)))
  {
    KeptPairsSpec(fields, "", "");
  }

  /** `entityMap`, in its declared order. */
  const EntityMap: seq<(string, string)> := [
    ("usuarios", "/usr"), ("users", "/usr"), ("activos", "/activo"), ("assets", "/activo"),
    ("altas", "/act_alta"), ("ambientes", "/ambiente"), ("backups", "/backup"), ("bajas", "/baja"),
    ("cantidades", "/cantidad"), ("condiciones", "/condicion"), ("depreciaciones", "/depreciacion"),
    ("devoluciones", "/devolucion"), ("edificios", "/edificio"), ("funcionarios", "/funcionario"),
    ("historiales", "/historial"), ("mantenimientos", "/mantenimiento"), ("programas", "/programa"),
    ("proveedores", "/proveedor"), ("proyectos", "/proyecto"), ("revalorizaciones", "/revalorizacion"),
    ("rubros", "/rubro"), ("tipos_activo", "/tipoactivo"), ("ubicaciones", "/ubicacion"), ("qr", "/generarQR")]

  function Find(table: seq<(string, string)>, key: string): (r: Option<string>)
    ensures r.None? <==> forall i :: 0 <= i < |table| ==> table[i].0 != key
    ensures r.Some? ==> exists i :: 0 <= i < |table| && table[i] == (key, r.value)
  {
    if |table| == 0 then None
    else if table[0].0 == key then Some(table[0].1)
    else
      var r := Find(table[1..], key);
      assert forall i :: 1 <= i < |table| ==> table[i] == table[1..][i - 1];
      if r.Some? then
        var i :| 0 <= i < |table| - 1 && table[1..][i] == (key, r.value);
        assert table[i + 1] == (key, r.value);
        r
      else r
  }

  /** `mapEntityToEndpoint`: the table's path for a known entity, "/" and the entity otherwise. */
  function MapEntityToEndpoint(entity: string): (r: string)
    ensures (exists i :: 0 <= i < |EntityMap| && EntityMap[i].0 == entity) ==>
      exists i :: 0 <= i < |EntityMap| && EntityMap[i] == (entity, r)
    ensures (forall i :: 0 <= i < |EntityMap| ==> EntityMap[i].0 != entity) ==> r == "/" + entity
  {
    var found := Find(EntityMap, entity);
    if found.Some? then
      found.value
    else "/" + entity
  }

  /** Both names of the users entity lead to the same path. */
  lemma MapEntityExamples()
    ensures MapEntityToEndpoint("usuarios") == "/usr" && MapEntityToEndpoint("users") == "/usr"
  {
    assert EntityMap[0].0 == "usuarios";
    assert EntityMap[1].0 == "users" && EntityMap[0].0 != "users";
  }

  /**
   * `getSafeConfig(config)`: a copy of the request configuration in which the
   * agents, when set, are replaced by placeholder strings. The only caller
   * passes an object literal.
   */
  function GetSafeConfig(config: Value): (r: Value)
    requires config.Obj?
    ensures r.Obj?
  {
    var copy := config.fields;
    var withHttps := if Truthy(Lookup(copy, "httpsAgent")) then SetField(copy, "httpsAgent", Str("[HTTPS Agent]")) else copy;
    var withHttp := if Truthy(Lookup(withHttps, "httpAgent")) then SetField(withHttps, "httpAgent", Str("[HTTP Agent]")) else withHttps;
    Obj(withHttp)
  }

  /**
   * A set agent reads as its placeholder, an unset one as before, and every
   * other property is the input's; the input itself is a value and is left as it was.
   */
  lemma GetSafeConfigSpec(config: Value, k: string)
    requires config.Obj?
    ensures Truthy(Get(config, "httpsAgent")) ==> Get(GetSafeConfig(config), "httpsAgent") == Str("[HTTPS Agent]")
    ensures !Truthy(Get(config, "httpsAgent")) ==> Get(GetSafeConfig(config), "httpsAgent") == Get(config, "httpsAgent")
    ensures Truthy(Get(config, "httpAgent")) ==> Get(GetSafeConfig(config), "httpAgent") == Str("[HTTP Agent]")
    ensures !Truthy(Get(config, "httpAgent")) ==> Get(GetSafeConfig(config), "httpAgent") == Get(config, "httpAgent")
    ensures k != "httpsAgent" && k != "httpAgent" ==> Get(GetSafeConfig(config), k) == Get(config, k)
  {
    var copy := config.fields;
    SetFieldLookup(copy, "httpsAgent", Str("[HTTPS Agent]"), k);
    SetFieldLookup(copy, "httpsAgent", Str("[HTTPS Agent]"), "httpAgent");
    var withHttps := if Truthy(Lookup(copy, "httpsAgent")) then SetField(copy, "httpsAgent", Str("[HTTPS Agent]")) else copy;
    SetFieldLookup(withHttps, "httpAgent", Str("[HTTP Agent]"), k);
    SetFieldLookup(withHttps, "httpAgent", Str("[HTTP Agent]"), "httpsAgent");
  }
}
