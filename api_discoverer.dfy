/**
 * Endpoint discovery (`services/api/apiDiscoverer.ts`): the endpoints of a
 * Swagger/OpenAPI document, with their parameters and response schema, and
 * the fall-back to the statically configured endpoints. Loading the
 * document over the network is a parameter.
 */
module ApiDiscoverer {
  import opened Common
  import opened Strs
  import opened Js
  import opened ApiTypes

  /** The operation keys that become endpoints. */
  const Operations: seq<string> := ["get", "post", "put", "delete", "patch", "options", "head"]

  /** The endpoint methods they give. */
  const UpperOperations: seq<string> := ["GET", "POST", "PUT", "DELETE", "PATCH", "OPTIONS", "HEAD"]

  /** `extractParametersFromSwagger(parameters)`; a throw is an `Err`. */
  function ExtractParameters(parameters: Value): (r: Result<Value>)
    ensures !Truthy(parameters) ==> r == Ok(Arr([]))
    ensures Truthy(parameters) && !parameters.Arr? ==> r == Err(NotAFunction("parameters.map"))
    ensures r.Ok? ==> r.value.Arr? && (parameters.Arr? ==> |r.value.items| == |parameters.items|)
  {
    if !Truthy(parameters) then Ok(Arr([]))
    else if !parameters.Arr? then Err(NotAFunction("parameters.map"))
    else
      match MapParameters(parameters.items)
      case Err(m) => Err(m)
      case Ok(ps) => Ok(Arr(ps))
  }

  /** `parameters.map(...)`: reading the name of a missing parameter throws. */
  function MapParameters(ps: seq<Value>): (r: Result<seq<Value>>)
    ensures r.Ok? <==> forall i :: 0 <= i < |ps| ==> !ps[i].Undefined? && !ps[i].Null?
    ensures r.Ok? ==> |r.value| == |ps| && forall i :: 0 <= i < |ps| ==> r.value[i] == Parameter(ps[i])
  {
    if |ps| == 0 then Ok([])
    else if ps[0].Undefined? || ps[0].Null? then Err(ReadPropertyError("name", ps[0]))
    else
      match MapParameters(ps[1..])
      case Err(m) => Err(m)
      case Ok(rest) =>
        assert forall i :: 1 <= i < |ps| ==> ps[i] == ps[1..][i - 1];
        Ok([Parameter(ps[0])] + rest)
  }

  /** The record made of one declared parameter. */
  function Parameter(param: Value): Value
  {
    var schema := Get(param, "schema");
    Obj([("name", Get(param, "name")),
         ("type", Or(Get(schema, "type"), Str("string"))),
         ("required", Or(Get(param, "required"), Bool(false))),
         ("description", Or(Get(param, "description"), Str(""))),
         ("in", Or(Get(param, "in"), Str("query"))),
         ("default", Get(param, "default")),
         ("enum", Get(schema, "enum"))])
  }

  /** A parameter with nothing declared defaults to type "string", not required, no description, in the query. */
  lemma ParameterDefaults(param: Value)
    requires param.Obj?
    ensures var p := Parameter(param);
      Get(p, "name") == Get(param, "name") &&
      (Truthy(Get(Get(param, "schema"), "type")) ==> Get(p, "type") == Get(Get(param, "schema"), "type")) &&
      (!Truthy(Get(Get(param, "schema"), "type")) ==> Get(p, "type") == Str("string")) &&
      (!Truthy(Get(param, "required")) ==> Get(p, "required") == Bool(false)) &&
      (!Truthy(Get(param, "description")) ==> Get(p, "description") == Str("")) &&
      (!Truthy(Get(param, "in")) ==> Get(p, "in") == Str("query"))
  {
    var fs := Parameter(param).fields;
    LookupAt(fs, 1, "type");
    LookupAt(fs, 2, "required");
    LookupAt(fs, 3, "description");
    LookupAt(fs, 4, "in");
  }

  /** `Object.values(v)[0]`. */
  function FirstValue(v: Value): Value
  {
    var es := Entries(v);
    if es.Some? && |es.value| > 0 then es.value[0].1 else Undefined
  }

  /** The response whose schema is used: 200, else 201, else the first declared. */
  function SuccessResponse(responses: Value): Value
  {
    Or(Get(responses, "200"), Or(Get(responses, "201"), FirstValue(responses)))
  }

  /** `extractResponseSchema(responses)`: the JSON schema of the success response, or `{}`. */
  function ExtractResponseSchema(responses: Value): Value
  {
    if !Truthy(responses) then Obj([])
    else
      var success := SuccessResponse(responses);
      if Truthy(success) && Truthy(Get(success, "content")) then
        Or(Get(Get(Get(success, "content"), "application/json"), "schema"), Obj([]))
      else Obj([])
  }

  /**
   * A 200 response is preferred to a 201 one, which is preferred to the first
   * declared one; the schema is the `application/json` one, or `{}`.
   */
  lemma ResponseSchemaChoice(responses: Value)
    ensures Truthy(Get(responses, "200")) ==> SuccessResponse(responses) == Get(responses, "200")
    ensures !Truthy(Get(responses, "200")) && Truthy(Get(responses, "201")) ==> SuccessResponse(responses) == Get(responses, "201")
    ensures !Truthy(Get(responses, "200")) && !Truthy(Get(responses, "201")) ==> SuccessResponse(responses) == FirstValue(responses)
    ensures var schema := Get(Get(Get(SuccessResponse(responses), "content"), "application/json"), "schema");
      Truthy(responses) && Truthy(Get(SuccessResponse(responses), "content")) && Truthy(schema) ==>
        ExtractResponseSchema(responses) == schema
    ensures !Truthy(responses) || !Truthy(Get(SuccessResponse(responses), "content")) ==> ExtractResponseSchema(responses) == Obj([])
  {
  }

  /** The description of an operation: its summary, else its description, else "<method> <path>". */
  function Description(op: Value, verb: string, path: string): (r: Value)
    ensures Truthy(r)
  {
    Or(Get(op, "summary"), Or(Get(op, "description"), Str(verb + " " + path)))
  }

  /** The endpoint made of one operation; reading the summary of a missing operation throws. */
  function Endpoint(path: string, verb: string, op: Value): (r: Result<Value>)
    ensures (op.Undefined? || op.Null?) ==> r == Err(ReadPropertyError("summary", op))
  {
    if op.Undefined? || op.Null? then Err(ReadPropertyError("summary", op))
    else
      match ExtractParameters(Get(op, "parameters"))
      case Err(m) => Err(m)
      case Ok(params) =>
        Ok(Obj([("path", Str(path)), ("method", Str(Upper(verb))), ("description", Description(op, verb, path)),
                ("parameters", params), ("responseSchema", ExtractResponseSchema(Get(op, "responses"))),
                ("tags", Or(Get(op, "tags"), Arr([])))]))
  }

  /** The shape every extracted endpoint has. */
  predicate WellFormed(e: Value)
  {
    Get(e, "method").Str? && Get(e, "method").s in UpperOperations &&
    Truthy(Get(e, "description")) && Truthy(Get(e, "tags")) && Get(e, "parameters").Arr?
  }

  /**
   * An operation under one of the seven keys gives an endpoint of that method
   * upper-cased, with a description, tags (default `[]`) and its parameters.
   */
  lemma EndpointShape(path: string, verb: string, op: Value)
    requires verb in Operations && Endpoint(path, verb, op).Ok?
    ensures WellFormed(Endpoint(path, verb, op).value)
    ensures Get(Endpoint(path, verb, op).value, "path") == Str(path)
    ensures Get(Endpoint(path, verb, op).value, "description") == Description(op, verb, path)
  {
    var fs := Endpoint(path, verb, op).value.fields;
    LookupAt(fs, 1, "method");
    LookupAt(fs, 2, "description");
    LookupAt(fs, 3, "parameters");
    LookupAt(fs, 5, "tags");
    var i :| 0 <= i < |Operations| && Operations[i] == verb;
    UpperOperationsMatch();
    assert Upper(verb) == UpperOperations[i];
  }

  /** Each operation key upper-cases to the method at the same position. */
  lemma UpperOperationsMatch()
    ensures forall i :: 0 <= i < |Operations| ==> Upper(Operations[i]) == UpperOperations[i]
  {
    UpperIs("get", "GET");
    UpperIs("post", "POST");
    UpperIs("put", "PUT");
    UpperIs("delete", "DELETE");
    UpperIs("patch", "PATCH");
    UpperIs("options", "OPTIONS");
    UpperIs("head", "HEAD");
  }

  lemma UpperIs(s: string, u: string)
    requires |s| == |u| && forall i :: 0 <= i < |s| ==> UpperChar(s[i]) == u[i]
    ensures Upper(s) == u
  {
  }

  /** Endpoints found so far followed by those of the rest, unless the rest throws. */
  function Then(acc: seq<Value>, rest: Result<seq<Value>>): Result<seq<Value>>
  {
    if rest.Err? then rest else Ok(acc + rest.value)
  }

  lemma ThenNil(rest: Result<seq<Value>>)
    ensures Then([], rest) == rest
  {
    if rest.Ok? {
      assert [] + rest.value == rest.value;
    }
  }

  lemma ThenThen(a: seq<Value>, b: seq<Value>, rest: Result<seq<Value>>)
    ensures Then(a, Then(b, rest)) == Then(a + b, rest)
  {
    if rest.Ok? {
      assert a + (b + rest.value) == (a + b) + rest.value;
    }
  }

  /** The endpoints of one path's operations, in their order; other keys are skipped. */
  function MethodEndpoints(path: string, ms: seq<(string, Value)>): Result<seq<Value>>
    decreases |ms|
  {
    if |ms| == 0 then Ok([])
    else if ms[0].0 in Operations then
      match Endpoint(path, ms[0].0, ms[0].1)
      case Err(m) => Err(m)
      case Ok(e) => Then([e], MethodEndpoints(path, ms[1..]))
    else MethodEndpoints(path, ms[1..])
  }

  /** The endpoints of every path, path after path. */
  function PathEndpoints(ps: seq<(string, Value)>): Result<seq<Value>>
    decreases |ps|
  {
    if |ps| == 0 then Ok([])
    else
      match Entries(ps[0].1)
      case None => Err(NullEntries)
      case Some(ms) =>
        match MethodEndpoints(ps[0].0, ms)
        case Err(m) => Err(m)
        case Ok(es) => Then(es, PathEndpoints(ps[1..]))
  }

  /** What `extractEndpointsFromSwagger` returns for a document, or the error it throws. */
  function Extracted(swagger: Value): Result<seq<Value>>
  {
    if swagger.Undefined? || swagger.Null? then Err(ReadPropertyError("paths", swagger))
    else
      var paths := Get(swagger, "paths");
      if !Truthy(paths) then Ok([])
      else PathEndpoints(Entries(paths).value)
  }

  /** `extractEndpointsFromSwagger(swaggerData)`, with its two nested loops. */
  method ExtractEndpointsFromSwagger(swagger: Value) returns (r: Result<seq<Value>>)
    ensures r == Extracted(swagger)
  {
    if swagger.Undefined? || swagger.Null? {
      return Err(ReadPropertyError("paths", swagger));
    }
    var endpoints: seq<Value> := [];
    var paths := Get(swagger, "paths");
    if !Truthy(paths) {
      return Ok(endpoints);
    }
    var ps := Entries(paths).value;
    assert ps[0..] == ps;
    ThenNil(PathEndpoints(ps));
    var i := 0;
    while i < |ps|
      invariant 0 <= i <= |ps|
      invariant Extracted(swagger) == Then(endpoints, PathEndpoints(ps[i..]))
    {
      var path := ps[i].0;
      var methods := Entries(ps[i].1);
      assert ps[i..][0] == ps[i] && ps[i..][1..] == ps[i + 1..];
      if methods.None? {
        return Err(NullEntries);
      }
      var ms := methods.value;
      var found: seq<Value> := [];
      var j := 0;
      assert ms[0..] == ms;
      ThenNil(MethodEndpoints(path, ms));
      while j < |ms|
        invariant 0 <= j <= |ms|
        invariant MethodEndpoints(path, ms) == Then(found, MethodEndpoints(path, ms[j..]))
      {
        assert ms[j..][0] == ms[j] && ms[j..][1..] == ms[j + 1..];
        if ms[j].0 in Operations {
          var e := Endpoint(path, ms[j].0, ms[j].1);
          if e.Err? {
            assert MethodEndpoints(path, ms) == Err(e.msg);
            return Err(e.msg);
          }
          ThenThen(found, [e.value], MethodEndpoints(path, ms[j + 1..]));
          found := found + [e.value];
        }
        j := j + 1;
      }
      assert ms[|ms|..] == [] && found + [] == found;
      assert MethodEndpoints(path, ms) == Ok(found);
      ThenThen(endpoints, found, PathEndpoints(ps[i + 1..]));
      endpoints := endpoints + found;
      i := i + 1;
    }
    assert ps[|ps|..] == [] && endpoints + [] == endpoints;
    r := Ok(endpoints);
  }

  /** A document without `paths` has no endpoints. */
  lemma NoPathsNoEndpoints(swagger: Value)
    requires !swagger.Undefined? && !swagger.Null? && !Truthy(Get(swagger, "paths"))
    ensures Extracted(swagger) == Ok([])
  {
  }

  /** Every endpoint one path's operations give is well formed. */
  lemma {:induction false} MethodEndpointsWellFormed(path: string, ms: seq<(string, Value)>)
    requires MethodEndpoints(path, ms).Ok?
    ensures forall e :: e in MethodEndpoints(path, ms).value ==> WellFormed(e)
    decreases |ms|
  {
    if |ms| > 0 {
      MethodEndpointsWellFormed(path, ms[1..]);
      if ms[0].0 in Operations {
        EndpointShape(path, ms[0].0, ms[0].1);
      }
    }
  }

  /** Every extracted endpoint has one of the seven methods, upper-cased, a description and tags. */
  lemma {:induction false} ExtractedWellFormed(ps: seq<(string, Value)>)
    requires PathEndpoints(ps).Ok?
    ensures forall e :: e in PathEndpoints(ps).value ==> WellFormed(e)
    decreases |ps|
  {
    if |ps| > 0 {
      var ms := Entries(ps[0].1).value;
      MethodEndpointsWellFormed(ps[0].0, ms);
      ExtractedWellFormed(ps[1..]);
    }
  }

  /** What `discoverEndpoints` returns: the document's endpoints, or the configured ones. */
  datatype Discovered = FromSwagger(endpoints: seq<Value>) | Static(configured: seq<EndpointConfig>)

  /**
   * `discoverEndpoints(apiConfig)`, given what loading the documentation gives
   * (it is only asked for Swagger and mixed APIs): any failure to load or to
   * read the document falls back to the configured endpoints.
   */
  function DiscoverEndpoints(config: ApiConfig, loaded: Result<Value>): (r: Discovered)
    ensures (config.apiType != "swagger" && config.apiType != "mixed") ==> r == Static(config.endpoints)
    ensures loaded.Err? ==> r == Static(config.endpoints)
    ensures r.FromSwagger? <==>
      (config.apiType == "swagger" || config.apiType == "mixed") && loaded.Ok? && Extracted(loaded.value).Ok?
    ensures r.FromSwagger? ==> r.endpoints == Extracted(loaded.value).value
  {
    if (config.apiType == "swagger" || config.apiType == "mixed") && loaded.Ok? && Extracted(loaded.value).Ok? then
      FromSwagger(Extracted(loaded.value).value)
    else Static(config.endpoints)
  }
}
