/**
 * The `api://<apiId>/<endpoint>` resource: a read parses the URI and queries
 * that endpoint; the listing names one URI per declared endpoint.
 */
module ApiResource {
  import opened Common
  import opened Strs
  import opened Js
  import opened ApiTypes
  import Registry
  import Service

  const Scheme: string := "api://"
  const ReadFailurePrefix: string := "No se pudo leer el recurso: "

  /** The match of `^api:\/\/([^\/]+)\/(.+)$`: the API id and the endpoint without its leading "/". */
  function ParseUri(uri: string): (r: Option<(string, string)>)
    ensures r.Some? ==> Scheme + r.value.0 + "/" + r.value.1 == uri
    ensures r.Some? ==> |r.value.0| > 0 && '/' !in r.value.0 && |r.value.1| > 0 && NoLineTerminator(r.value.1)
  {
    if !(Scheme <= uri) then None
    else
      var rest := uri[|Scheme|..];
      match IndexOfChar(rest, '/')
      case None => None
      case Some(k) =>
        var id := rest[..k];
        var endpoint := rest[k + 1..];
        if k == 0 || |endpoint| == 0 || !NoLineTerminator(endpoint) then None
        else
          assert uri == Scheme + rest;
          assert rest == id + "/" + endpoint;
          Some((id, endpoint))
  }

  /** A URI of that shape parses back to its parts: the parse is the inverse of writing the URI out. */
  lemma ParseUriInverse(id: string, endpoint: string)
    requires |id| > 0 && '/' !in id && |endpoint| > 0 && NoLineTerminator(endpoint)
    ensures ParseUri(Scheme + id + "/" + endpoint) == Some((id, endpoint))
  {
    var uri := Scheme + id + "/" + endpoint;
    var rest := uri[|Scheme|..];
    assert rest == id + "/" + endpoint;
    assert rest[..|id|] == id && rest[|id|] == '/';
    var k := IndexOfChar(rest, '/').value;
    assert k == |id|;
    assert rest[..k] == id;
    assert rest[k + 1..] == endpoint;
  }

  /** `read(uri)`: the parsed endpoint queried with empty parameters, its JSON pretty-printed. */
  function Read(es: Registry.Entries, uri: string, urlOk: string -> bool,
                fetch: Service.Request -> Service.FetchOutcome): Result<Value>
  {
    match ParseUri(uri)
    case None => Err(ReadFailurePrefix + ErrorString("URI inválida: " + uri))
    case Some((apiId, endpoint)) =>
      match Service.QueryAPI(es, apiId, "/" + endpoint, Obj([]), urlOk, fetch)
      case Err(m) => Err(ReadFailurePrefix + ErrorString(m))
      case Ok(data) => Ok(Obj([("content", JsonText(Pretty(data))), ("mimeType", Str("application/json"))]))
  }

  /** A read succeeds exactly when the URI parses and the query of its endpoint succeeds; every failure carries the prefix. */
  lemma ReadSpec(es: Registry.Entries, uri: string, urlOk: string -> bool, fetch: Service.Request -> Service.FetchOutcome)
    ensures Read(es, uri, urlOk, fetch).Ok? <==>
      ParseUri(uri).Some? &&
      Service.QueryAPI(es, ParseUri(uri).value.0, "/" + ParseUri(uri).value.1, Obj([]), urlOk, fetch).Ok?
    ensures Read(es, uri, urlOk, fetch).Err? ==> ReadFailurePrefix <= Read(es, uri, urlOk, fetch).msg
  {
  }

  /** One URI per endpoint: the id and the path written side by side, with no separator added. */
  function EndpointUris(api: ApiConfig): (r: seq<string>)
    ensures |r| == |api.endpoints|
    ensures forall j :: 0 <= j < |r| ==> r[j] == Scheme + api.id + api.endpoints[j].path
  {
    seq(|api.endpoints|, j requires 0 <= j < |api.endpoints| => Scheme + api.id + api.endpoints[j].path)
  }

  /** The listing: each API's endpoint URIs, API after API in registry order. */
  function ListUris(apis: seq<ApiConfig>): seq<string>
    decreases |apis|
  {
    if |apis| == 0 then [] else ListUris(apis[..|apis| - 1]) + EndpointUris(apis[|apis| - 1])
  }

  /** A URI is listed exactly when it names an endpoint of a registered API. */
  lemma {:induction false} ListUrisSpec(apis: seq<ApiConfig>, u: string)
    ensures u in ListUris(apis) <==>
      exists i, j :: 0 <= i < |apis| && 0 <= j < |apis[i].endpoints| && u == Scheme + apis[i].id + apis[i].endpoints[j].path
    decreases |apis|
  {
    if |apis| > 0 {
      var p := apis[..|apis| - 1];
      ListUrisSpec(p, u);
      assert forall i :: 0 <= i < |p| ==> p[i] == apis[i];
      if u in EndpointUris(apis[|apis| - 1]) {
        var j :| 0 <= j < |apis[|apis| - 1].endpoints| && u == EndpointUris(apis[|apis| - 1])[j];
        assert u == Scheme + apis[|apis| - 1].id + apis[|apis| - 1].endpoints[j].path;
      }
    }
  }

  /**
   * A listed URI whose endpoint path is "/" followed by text on one line, and
   * whose id holds no "/", parses back to that id and path: the read of a listed
   * URI queries the endpoint it lists.
   */
  lemma ListedUriRoundTrip(id: string, path: string)
    requires |id| > 0 && '/' !in id
    requires |path| >= 2 && path[0] == '/' && NoLineTerminator(path)
    ensures ParseUri(Scheme + id + path) == Some((id, path[1..]))
    ensures "/" + path[1..] == path
  {
    assert path == "/" + path[1..];
    assert Scheme + id + path == Scheme + id + "/" + path[1..];
    ParseUriInverse(id, path[1..]);
  }

  /** The `list` loops: every endpoint of every API, pushed in order. */
  method List(apis: seq<ApiConfig>) returns (uris: seq<string>)
    ensures uris == ListUris(apis)
  {
    uris := [];
    var i := 0;
    while i < |apis|
      invariant 0 <= i <= |apis|
      invariant uris == ListUris(apis[..i])
    {
      assert apis[..i + 1][..i] == apis[..i];
      var api := apis[i];
      ghost var before := uris;
      var j := 0;
      while j < |api.endpoints|
        invariant 0 <= j <= |api.endpoints|
        invariant uris == before + EndpointUris(api)[..j]
      {
        assert EndpointUris(api)[..j + 1] == EndpointUris(api)[..j] + [Scheme + api.id + api.endpoints[j].path];
        uris := uris + [Scheme + api.id + api.endpoints[j].path];
        j := j + 1;
      }
      assert EndpointUris(api)[..j] == EndpointUris(api);
      i := i + 1;
    }
    assert apis[..i] == apis;
  }

  /** `getResourceInfo`. */
  const ResourceInfo: Value := Obj([
    ("uri", Str("api://{apiId}/{endpoint}")),
    ("name", Str("API Resource")),
    ("description", Str("Acceso a endpoints de APIs dinámicas registradas")),
    ("mimeType", Str("application/json"))])
}
