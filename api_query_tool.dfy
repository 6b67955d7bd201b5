/**
 * The `api_query` tool: one call of the service's query, wrapped in a success
 * or a failure record. `execute` never fails itself.
 */
module ApiQueryTool {
  import opened Common
  import opened Js
  import Registry
  import Service
  import OM = OrderedMap

  const Suggestion: string := "Verifique que la API esté disponible y los parámetros sean correctos"

  /**
   * The query `execute` runs: the service looks the id up in a map of string
   * keys, so an id that is not a string is never found, and the endpoint is
   * concatenated into the URL as text. `method` is not passed on.
   */
  function Query(es: Registry.Entries, apiId: Value, endpoint: Value, params: Value,
                 urlOk: string -> bool, fetch: Service.Request -> Service.FetchOutcome): Result<Value>
  {
    if !apiId.Str? then Err(Service.NotFound(ToStr(apiId)))
    else Service.QueryAPI(es, apiId.s, ToStr(endpoint), params, urlOk, fetch)
  }

  /** The record `execute` resolves to, or the message of the error it caught. */
  function Run(es: Registry.Entries, args: Value,
               urlOk: string -> bool, fetch: Service.Request -> Service.FetchOutcome): Result<Value>
  {
    if args.Undefined? || args.Null? then Err(DestructureError("apiId", args))
    else
      var apiId := Get(args, "apiId");
      var endpoint := Get(args, "endpoint");
      var params := OrDefault(Get(args, "params"), Obj([]));
      var verb := OrDefault(Get(args, "method"), Str("GET"));
      match Query(es, apiId, endpoint, params, urlOk, fetch)
      case Err(m) => Err(m)
      case Ok(data) =>
        Ok(Obj([("success", Bool(true)), ("data", data),
                ("metadata", Obj([("apiId", apiId), ("endpoint", endpoint), ("method", verb)]))]))
  }

  /** The failure record: the caught Error has no enumerable members, so it serialises as `{}`. */
  function FailureRecord(): Value
  {
    Obj([("success", Bool(false)), ("error", Obj([])), ("suggestion", Str(Suggestion))])
  }

  /** `execute(args)`: the result record or the failure record. */
  function Execute(es: Registry.Entries, args: Value,
                   urlOk: string -> bool, fetch: Service.Request -> Service.FetchOutcome): Value
  {
    match Run(es, args, urlOk, fetch)
    case Ok(v) => v
    case Err(_) => FailureRecord()
  }

  /**
   * With arguments given, the tool succeeds exactly when the service's query
   * of the string id, the endpoint and the defaulted params succeeds, and then
   * returns its data; `method` plays no part in the outcome.
   */
  lemma ExecuteSpec(es: Registry.Entries, args: Value, verb: Value,
                    urlOk: string -> bool, fetch: Service.Request -> Service.FetchOutcome)
    requires args.Obj?
    ensures var q := Query(es, Get(args, "apiId"), Get(args, "endpoint"),
                           OrDefault(Get(args, "params"), Obj([])), urlOk, fetch);
      (Run(es, args, urlOk, fetch).Ok? <==> q.Ok?) &&
      (q.Ok? ==> Get(Execute(es, args, urlOk, fetch), "data") == q.value &&
                 Get(Execute(es, args, urlOk, fetch), "success") == Bool(true)) &&
      (q.Err? ==> Execute(es, args, urlOk, fetch) == FailureRecord()) &&
      Run(es, args, urlOk, fetch).Ok? == Run(es, Obj(SetField(args.fields, "method", verb)), urlOk, fetch).Ok?
  {
    SetFieldLookup(args.fields, "method", verb, "apiId");
    SetFieldLookup(args.fields, "method", verb, "endpoint");
    SetFieldLookup(args.fields, "method", verb, "params");
    var q := Query(es, Get(args, "apiId"), Get(args, "endpoint"), OrDefault(Get(args, "params"), Obj([])), urlOk, fetch);
    if q.Ok? {
      var r := Execute(es, args, urlOk, fetch);
      assert Get(r, "data") == Lookup(r.fields[1..], "data");
    }
  }

  /** Missing arguments and an unregistered id are failures before any request. */
  lemma ExecuteFailures(es: Registry.Entries, args: Value,
                        urlOk: string -> bool, fetch: Service.Request -> Service.FetchOutcome)
    ensures args.Undefined? || args.Null? ==> Execute(es, args, urlOk, fetch) == FailureRecord()
    ensures args.Obj? && Get(args, "apiId").Str? && !OM.Has(es, Get(args, "apiId").s) ==>
      Run(es, args, urlOk, fetch) == Err(Service.NotFound(Get(args, "apiId").s))
    ensures args.Obj? && !Get(args, "apiId").Str? ==>
      Run(es, args, urlOk, fetch) == Err(Service.NotFound(ToStr(Get(args, "apiId"))))
  {
  }

  /** `getToolInfo`: the schema requires `apiId` and `endpoint`. */
  const ToolInfo: Value := Obj([
    ("name", Str("api_query")),
    ("description", Str("Consultar endpoints de APIs dinámicas registradas")),
    ("inputSchema", Obj([
      ("type", Str("object")),
      ("properties", Obj([
        ("apiId", Obj([("type", Str("string")), ("description", Str("ID de la API a consultar"))])),
        ("endpoint", Obj([("type", Str("string")), ("description", Str("Endpoint a consultar (ej: /usuarios)"))])),
        ("params", Obj([("type", Str("object")), ("description", Str("Parámetros de consulta")),
                        ("additionalProperties", Bool(true))])),
        ("method", Obj([("type", Str("string")),
                        ("enum", Arr([Str("GET"), Str("POST"), Str("PUT"), Str("DELETE")])),
                        ("default", Str("GET"))]))])),
      ("required", Arr([Str("apiId"), Str("endpoint")]))]))])
}
