/**
 * `APIDocumenter` (`services/api/apiDocumenter.ts`): the OpenAPI document
 * and the Markdown page of one API, and the consolidated paths and security
 * schemes of several.
 */
module ApiDocumenter {
  import opened Common
  import opened Strs
  import opened Js
  import opened ApiTypes
  import opened OpenApiDoc

  predicate NonEmpty(s: string)
  {
    s != ""
  }

  /** `path.split('/').filter(part => part)`. */
  function Segments(path: string): seq<string>
  {
    Filter(SplitChar(path, '/'), NonEmpty)
  }

  /** `extractTagFromPath(path)`. */
  function ExtractTag(path: string): string
  {
    var parts := Segments(path);
    if |parts| > 0 then parts[0] else "general"
  }

  /** A tag is never empty and never holds a "/". */
  lemma ExtractTagSegment(path: string)
    ensures ExtractTag(path) != ""
    ensures '/' !in ExtractTag(path)
  {
    var parts := Segments(path);
    if |parts| > 0 {
      FilterSpec(SplitChar(path, '/'), NonEmpty, parts[0]);
      SplitJoin(path, '/');
    }
  }

  /** The tag of "/seg" and of "/seg/rest" is "seg". */
  lemma ExtractTagFirst(seg: string, rest: string)
    requires seg != "" && '/' !in seg
    ensures ExtractTag("/" + seg) == seg
    ensures ExtractTag("/" + seg + "/" + rest) == seg
  {
    LeadingSegments(seg, rest);
    assert Filter(["", seg], NonEmpty) == [seg] by {
      assert ["", seg][1..] == [seg];
      assert [seg][1..] == [];
    }
    var pieces := ["", seg] + SplitChar(rest, '/');
    assert pieces[1..] == [seg] + SplitChar(rest, '/');
    assert ([seg] + SplitChar(rest, '/'))[1..] == SplitChar(rest, '/');
    assert Filter(pieces, NonEmpty) == Filter(pieces[1..], NonEmpty);
    assert Filter(pieces[1..], NonEmpty) == [seg] + Filter(SplitChar(rest, '/'), NonEmpty);
  }

  /** Paths without a named segment fall back to "general". */
  lemma ExtractTagGeneral()
    ensures ExtractTag("/") == "general"
    ensures ExtractTag("") == "general"
  {
    assert SplitChar("/", '/') == ["", ""];
    assert ["", ""][1..] == [""];
    assert [""][1..] == [];
  }

  /** The `responses` member: one 200 answer whose JSON schema defaults to an object. */
  function Responses(schema: Value): Value
  {
    Obj([("200", JsonAnswer("Success", Or(schema, ObjectSchema)))])
  }

  /** The OpenAPI parameter written for a declared parameter. */
  function ParamOperation(p: ParamConfig): Value
  {
    Obj([("name", Str(p.name)), ("in", OptStr(p.location)), ("description", OptStr(p.description)),
         ("required", OptBool(p.required)), ("schema", Obj([("type", OptStr(p.paramType))]))])
  }

  /** `endpoint.parameters?.map(...)`. */
  function ParamOperations(ps: Option<seq<ParamConfig>>): Value
  {
    if ps.None? then Undefined
    else Arr(seq(|ps.value|, i requires 0 <= i < |ps.value| => ParamOperation(ps.value[i])))
  }

  /** The operation `addEndpointToDocument` writes. */
  function Operation(e: EndpointConfig): Value
  {
    Obj([("summary", OptStr(e.description)), ("tags", Arr([Str(ExtractTag(e.path))])),
         ("parameters", ParamOperations(e.parameters)), ("responses", Responses(e.responseSchema))])
  }

  /** The operation is tagged by its path, keeps its parameters in order, and answers 200 with the declared schema or an object. */
  lemma OperationSpec(e: EndpointConfig)
    ensures Get(Operation(e), "tags") == Arr([Str(ExtractTag(e.path))])
    ensures Get(Operation(e), "parameters").Undefined? <==> e.parameters.None?
    ensures e.parameters.Some? ==>
      Get(Operation(e), "parameters").Arr? &&
      |Get(Operation(e), "parameters").items| == |e.parameters.value| &&
      forall i :: 0 <= i < |e.parameters.value| ==>
        Get(Get(Operation(e), "parameters").items[i], "name") == Str(e.parameters.value[i].name)
    ensures Get(Get(Get(Get(Get(Operation(e), "responses"), "200"), "content"), "application/json"), "schema") ==
      (if Truthy(e.responseSchema) then e.responseSchema else ObjectSchema)
  {
    LookupAt(Operation(e).fields, 1, "tags");
    LookupAt(Operation(e).fields, 2, "parameters");
    LookupAt(Operation(e).fields, 3, "responses");
    LookupAt(JsonAnswer("Success", Or(e.responseSchema, ObjectSchema)).fields, 1, "content");
  }

  function DocKey(e: EndpointConfig): string
  {
    e.path
  }

  function DocVerb(e: EndpointConfig): string
  {
    Lower(e.httpMethod)
  }

  /** The document of `generateSwaggerDocument` around its `paths`. */
  function Document(config: ApiConfig, paths: seq<(string, Value)>): Value
  {
    Obj([("openapi", Str("3.0.0")),
         ("info", Obj([("title", Str(config.name)), ("version", Str("1.0.0")), ("description", Str(config.description))])),
         ("servers", Arr([Obj([("url", Str(config.baseUrl)), ("description", Str("Servidor " + config.name))])])),
         ("paths", Obj(paths)),
         ("components", Obj([("schemas", Obj([])), ("securitySchemes", SecuritySchemes(config.auth))]))])
  }

  /**
   * `generateSwaggerDocument(apiConfig, endpoints)`: each endpoint in turn
   * is written under its raw path and lower-cased method.
   */
  method GenerateSwaggerDocument(config: ApiConfig, endpoints: seq<EndpointConfig>) returns (doc: Value)
    ensures doc == Document(config, PutAll(endpoints, DocKey, DocVerb, Operation))
  {
    var paths: seq<(string, Value)> := [];
    var i := 0;
    while i < |endpoints|
      invariant 0 <= i <= |endpoints|
      invariant paths == PutAll(endpoints[..i], DocKey, DocVerb, Operation)
    {
      var e := endpoints[i];
      assert endpoints[..i + 1][..i] == endpoints[..i];
      paths := PutOperation(paths, e.path, Lower(e.httpMethod), Operation(e));
      i := i + 1;
    }
    assert endpoints[..|endpoints|] == endpoints;
    doc := Document(config, paths);
  }

  /**
   * The document has a path item for exactly the endpoints' paths; under a
   * path and lower-cased method sits the operation of the last endpoint with
   * both; the security schemes are those of the API's authentication.
   */
  lemma SwaggerDocumentSpec(config: ApiConfig, endpoints: seq<EndpointConfig>, k: string, w: string)
    ensures Get(Document(config, PutAll(endpoints, DocKey, DocVerb, Operation)), "paths") ==
      Obj(PutAll(endpoints, DocKey, DocVerb, Operation))
    ensures HasKey(PutAll(endpoints, DocKey, DocVerb, Operation), k) <==>
      exists j :: 0 <= j < |endpoints| && endpoints[j].path == k
    ensures Get(Lookup(PutAll(endpoints, DocKey, DocVerb, Operation), k), w) ==
      LastOperation(endpoints, DocKey, DocVerb, Operation, k, w)
    ensures Get(Get(Document(config, PutAll(endpoints, DocKey, DocVerb, Operation)), "components"), "securitySchemes") ==
      SecuritySchemes(config.auth)
    ensures Get(Get(Document(config, PutAll(endpoints, DocKey, DocVerb, Operation)), "info"), "title") == Str(config.name)
  {
    var doc := Document(config, PutAll(endpoints, DocKey, DocVerb, Operation));
    LookupAt(doc.fields, 1, "info");
    LookupAt(doc.fields, 3, "paths");
    LookupAt(doc.fields, 4, "components");
    LookupAt(doc.fields[4].1.fields, 1, "securitySchemes");
    PutAllSpec(endpoints, DocKey, DocVerb, Operation, k, w);
  }

  /** `generateMarkdownDocumentation(apiConfig, endpoints)`: the header, then the sections. */
  method GenerateMarkdownDocumentation(config: ApiConfig, endpoints: seq<EndpointConfig>) returns (markdown: string)
    ensures markdown == Header(config) + "## Endpoints\n\n" + Sections(endpoints)
  {
    markdown := AppendSections(Header(config) + "## Endpoints\n\n", endpoints);
  }

  /** Every endpoint's section occurs in the page. */
  lemma {:induction false} SectionsContain(es: seq<EndpointConfig>, k: nat)
    requires k < |es|
    ensures Contains(Sections(es), Section(es[k]))
    decreases |es|
  {
    var init := es[..|es| - 1];
    if k == |es| - 1 {
      ContainsSelf(Section(es[k]));
      ContainsAppendLeft(Sections(init), Section(es[k]), Section(es[k]));
    } else {
      assert init[k] == es[k];
      SectionsContain(init, k);
      ContainsAppendRight(Sections(init), Section(es[|es| - 1]), Section(es[k]));
    }
  }

  /** An endpoint of the consolidated list, with the id of the API it comes from. */
  datatype SourcedEndpoint = SourcedEndpoint(api: string, endpoint: EndpointConfig)

  /** The raw declared parameter, as `endpoint.parameters || []` passes it on. */
  function ParamValue(p: ParamConfig): Value
  {
    Obj([("name", Str(p.name)), ("type", OptStr(p.paramType)), ("required", OptBool(p.required)),
         ("description", OptStr(p.description)), ("in", OptStr(p.location))])
  }

  function ParamValues(ps: Option<seq<ParamConfig>>): Value
  {
    var list := if ps.Some? then ps.value else [];
    Arr(seq(|list|, i requires 0 <= i < |list| => ParamValue(list[i])))
  }

  /** `${endpoint.api}:${endpoint.path}`. */
  function PathKey(s: SourcedEndpoint): string
  {
    s.api + ":" + s.endpoint.path
  }

  function SourcedVerb(s: SourcedEndpoint): string
  {
    Lower(s.endpoint.httpMethod)
  }

  /** The operation `consolidatePaths` writes: tagged by its API. */
  function ConsolidatedOperation(s: SourcedEndpoint): Value
  {
    Obj([("summary", OptStr(s.endpoint.description)), ("tags", Arr([Str(s.api)])),
         ("parameters", ParamValues(s.endpoint.parameters)), ("responses", Responses(s.endpoint.responseSchema))])
  }

  /** `consolidatePaths(endpoints)`. */
  method ConsolidatePaths(endpoints: seq<SourcedEndpoint>) returns (paths: Value)
    ensures paths == Obj(PutAll(endpoints, PathKey, SourcedVerb, ConsolidatedOperation))
  {
    var fields: seq<(string, Value)> := [];
    var i := 0;
    while i < |endpoints|
      invariant 0 <= i <= |endpoints|
      invariant fields == PutAll(endpoints[..i], PathKey, SourcedVerb, ConsolidatedOperation)
    {
      var s := endpoints[i];
      assert endpoints[..i + 1][..i] == endpoints[..i];
      fields := PutOperation(fields, s.api + ":" + s.endpoint.path, Lower(s.endpoint.httpMethod), ConsolidatedOperation(s));
      i := i + 1;
    }
    assert endpoints[..|endpoints|] == endpoints;
    paths := Obj(fields);
  }

  /** For API ids without ":", the key determines both the API and the path. */
  lemma KeyInjective(a1: string, p1: string, a2: string, p2: string)
    requires ':' !in a1 && ':' !in a2
    requires a1 + ":" + p1 == a2 + ":" + p2
    ensures a1 == a2 && p1 == p2
  {
    var s := a1 + ":" + p1;
    assert s[|a1|] == ':' && s[|a2|] == ':';
    assert a1 == s[..|a1|] && a2 == s[..|a2|];
    assert p1 == s[|a1| + 1..] && p2 == s[|a2| + 1..];
  }

  /**
   * Equal paths of different APIs go to different entries: each entry holds
   * only the operations of one API's endpoints, the last for each method.
   */
  lemma ConsolidatedPathsSpec(endpoints: seq<SourcedEndpoint>, api: string, path: string, w: string)
    requires ':' !in api
    requires forall j :: 0 <= j < |endpoints| ==> ':' !in endpoints[j].api
    ensures var entry := Lookup(PutAll(endpoints, PathKey, SourcedVerb, ConsolidatedOperation), api + ":" + path);
      Get(entry, w) == LastOperation(endpoints, PathKey, SourcedVerb, ConsolidatedOperation, api + ":" + path, w)
    ensures HasKey(PutAll(endpoints, PathKey, SourcedVerb, ConsolidatedOperation), api + ":" + path) <==>
      exists j :: 0 <= j < |endpoints| && endpoints[j].api == api && endpoints[j].endpoint.path == path
  {
    PutAllSpec(endpoints, PathKey, SourcedVerb, ConsolidatedOperation, api + ":" + path, w);
    forall j | 0 <= j < |endpoints| && PathKey(endpoints[j]) == api + ":" + path
      ensures endpoints[j].api == api && endpoints[j].endpoint.path == path
    {
      KeyInjective(endpoints[j].api, endpoints[j].endpoint.path, api, path);
    }
  }

  /** An API id that holds ":" can share a key with another API's path. */
  lemma KeyCollision()
    ensures PathKey(SourcedEndpoint("a:b", EndpointConfig("/x", "GET", None, None, Undefined))) ==
            PathKey(SourcedEndpoint("a", EndpointConfig("b:/x", "GET", None, None, Undefined)))
  {
  }

  function Oauth2Scheme(auth: Auth): Value
  {
    Obj([("type", Str("oauth2")),
         ("flows", Obj([("implicit", Obj([("authorizationUrl", OptStr(auth.tokenUrl)),
                                          ("scopes", Or(auth.scopes, Obj([])))]))]))])
  }

  /** The scheme `consolidateSecuritySchemes` writes for an authentication kind, if it knows the kind. */
  function SchemeOf(auth: Auth): Option<Value>
  {
    if auth.kind == "bearer" then Some(BearerScheme)
    else if auth.kind == "apiKey" then Some(ApiKeyScheme(auth.key))
    else if auth.kind == "oauth2" then Some(Oauth2Scheme(auth))
    else None
  }

  predicate Secured(api: ApiConfig)
  {
    api.auth.Some? && api.auth.value.kind in {"bearer", "apiKey", "oauth2"}
  }

  /** The schemes after the APIs in order. */
  function Schemes(apis: seq<ApiConfig>): seq<(string, Value)>
    decreases |apis|
  {
    if |apis| == 0 then []
    else
      var api := apis[|apis| - 1];
      var prev := Schemes(apis[..|apis| - 1]);
      if api.auth.Some? && SchemeOf(api.auth.value).Some? then SetField(prev, api.id + "_auth", SchemeOf(api.auth.value).value)
      else prev
  }

  /** `consolidateSecuritySchemes(apis)`. */
  method ConsolidateSecuritySchemes(apis: seq<ApiConfig>) returns (schemes: Value)
    ensures schemes == Obj(Schemes(apis))
  {
    var fields: seq<(string, Value)> := [];
    var i := 0;
    while i < |apis|
      invariant 0 <= i <= |apis|
      invariant fields == Schemes(apis[..i])
    {
      var api := apis[i];
      assert apis[..i + 1][..i] == apis[..i];
      if api.auth.Some? {
        var name := api.id + "_auth";
        var auth := api.auth.value;
        if auth.kind == "bearer" {
          fields := SetField(fields, name, BearerScheme);
        } else if auth.kind == "apiKey" {
          fields := SetField(fields, name, ApiKeyScheme(auth.key));
        } else if auth.kind == "oauth2" {
          fields := SetField(fields, name, Oauth2Scheme(auth));
        }
      }
      i := i + 1;
    }
    assert apis[..|apis|] == apis;
    schemes := Obj(fields);
  }

  /** The API's authentication writes a scheme, under the name `k`. */
  predicate Writes(api: ApiConfig, k: string)
  {
    api.id + "_auth" == k && api.auth.Some? && SchemeOf(api.auth.value).Some?
  }

  /**
   * The position of the last API whose authentication writes the scheme named
   * `k`, or -1 when none does; no later API writes it.
   */
  function LastWriter(apis: seq<ApiConfig>, k: string): (r: int)
    ensures -1 <= r < |apis|
    ensures r >= 0 ==> Writes(apis[r], k)
    ensures forall m :: r < m < |apis| ==> !Writes(apis[m], k)
    decreases |apis|
  {
    if |apis| == 0 then -1
    else if Writes(apis[|apis| - 1], k) then |apis| - 1
    else
      var init := apis[..|apis| - 1];
      var r := LastWriter(init, k);
      assert forall m :: r < m < |init| ==> init[m] == apis[m];
      r
  }

  /**
   * A scheme named "<id>_auth" is there exactly for an API of that id with
   * bearer, apiKey or oauth2 authentication, and it is the scheme of the last
   * such API: later assignments overwrite earlier ones.
   */
  lemma SchemesSpec(apis: seq<ApiConfig>, k: string)
    ensures HasKey(Schemes(apis), k) <==> exists j :: 0 <= j < |apis| && apis[j].id + "_auth" == k && Secured(apis[j])
    ensures HasKey(Schemes(apis), k) ==> Lookup(Schemes(apis), k).Obj?
    ensures HasKey(Schemes(apis), k) ==>
      LastWriter(apis, k) >= 0 && Lookup(Schemes(apis), k) == SchemeOf(apis[LastWriter(apis, k)].auth.value).value
  {
    SchemesKeys(apis, k);
    if HasKey(Schemes(apis), k) {
      var j0 :| 0 <= j0 < |apis| && apis[j0].id + "_auth" == k && Secured(apis[j0]);
      WritesSecured(apis[j0], k);
      SchemesLast(apis, k);
    }
  }

  /** Only the three known kinds write a scheme. */
  lemma WritesSecured(api: ApiConfig, k: string)
    ensures Writes(api, k) <==> api.id + "_auth" == k && Secured(api)
  {
  }

  /** One more API sets its scheme when its authentication writes one. */
  lemma SchemesStep(apis: seq<ApiConfig>)
    requires |apis| > 0
    ensures var api := apis[|apis| - 1];
      Schemes(apis) ==
        if Writes(api, api.id + "_auth") then SetField(Schemes(apis[..|apis| - 1]), api.id + "_auth", SchemeOf(api.auth.value).value)
        else Schemes(apis[..|apis| - 1])
  {
  }

  /** The value stored under `k` is the scheme of the last API that writes it, if any does. */
  lemma {:induction false} SchemesLast(apis: seq<ApiConfig>, k: string)
    ensures var j := LastWriter(apis, k);
      Lookup(Schemes(apis), k) == if j < 0 then Undefined else SchemeOf(apis[j].auth.value).value
    decreases |apis|
  {
    if |apis| > 0 {
      var n := |apis| - 1;
      var api := apis[n];
      var init := apis[..n];
      SchemesStep(apis);
      SchemesLast(init, k);
      if Writes(api, api.id + "_auth") {
        SetFieldLookup(Schemes(init), api.id + "_auth", SchemeOf(api.auth.value).value, k);
      }
      var j := LastWriter(init, k);
      if j >= 0 {
        assert init[j] == apis[j];
      }
    }
  }

  /** Which scheme names the fold writes. */
  lemma {:induction false} SchemesKeys(apis: seq<ApiConfig>, k: string)
    ensures HasKey(Schemes(apis), k) <==> exists j :: 0 <= j < |apis| && apis[j].id + "_auth" == k && Secured(apis[j])
    ensures HasKey(Schemes(apis), k) ==> Lookup(Schemes(apis), k).Obj?
    decreases |apis|
  {
    if |apis| > 0 {
      var api := apis[|apis| - 1];
      var init := apis[..|apis| - 1];
      SchemesKeys(init, k);
      assert forall j :: 0 <= j < |init| ==> init[j] == apis[j];
      assert api.auth.Some? ==> (SchemeOf(api.auth.value).Some? <==> Secured(api));
      if api.auth.Some? && SchemeOf(api.auth.value).Some? {
        SetFieldKeys(Schemes(init), api.id + "_auth", SchemeOf(api.auth.value).value, k);
        SetFieldLookup(Schemes(init), api.id + "_auth", SchemeOf(api.auth.value).value, k);
      }
      if HasKey(Schemes(apis), k) && !HasKey(Schemes(init), k) {
        assert apis[|apis| - 1].id + "_auth" == k && Secured(apis[|apis| - 1]);
      }
      if !HasKey(Schemes(apis), k) {
        assert !(api.id + "_auth" == k && Secured(api));
      }
    }
  }
}
