/**
 * What the two documenters (`services/api/apiDocumenter.ts` and
 * `utils/swaggerGenerator.ts`) share: writing an operation into an OpenAPI
 * `paths` object, the security scheme of an authentication block, and the
 * Markdown section of one endpoint.
 */
module OpenApiDoc {
  import opened Common
  import opened Strs
  import opened Js
  import opened ApiTypes

  /** `if (!paths[key]) paths[key] = {}; paths[key][verb] = op;` on the path items written so far. */
  function PutOperation(paths: seq<(string, Value)>, key: string, verb: string, op: Value): seq<(string, Value)>
  {
    var item := Lookup(paths, key);
    var ops := if item.Obj? then item.fields else [];
    SetField(paths, key, Obj(SetField(ops, verb, op)))
  }

  /**
   * The operation is found under its path and method; the other methods of
   * that path and every other path read as before; the keys are the old ones
   * and the path.
   */
  lemma PutOperationSpec(paths: seq<(string, Value)>, key: string, verb: string, op: Value, k: string, w: string)
    ensures Lookup(PutOperation(paths, key, verb, op), key).Obj?
    ensures Get(Lookup(PutOperation(paths, key, verb, op), key), verb) == op
    ensures k != key ==> Lookup(PutOperation(paths, key, verb, op), k) == Lookup(paths, k)
    ensures w != verb && (Lookup(paths, key).Obj? || Lookup(paths, key).Undefined?) ==>
      Get(Lookup(PutOperation(paths, key, verb, op), key), w) == Get(Lookup(paths, key), w)
    ensures HasKey(PutOperation(paths, key, verb, op), k) <==> HasKey(paths, k) || k == key
  {
    var item := Lookup(paths, key);
    var ops := if item.Obj? then item.fields else [];
    SetFieldLookup(paths, key, Obj(SetField(ops, verb, op)), k);
    SetFieldLookup(ops, verb, op, w);
    SetFieldKeys(paths, key, Obj(SetField(ops, verb, op)), k);
  }

  /** The `paths` object after one `PutOperation` per element, in order. */
  function PutAll<T>(xs: seq<T>, key: T -> string, verb: T -> string, op: T -> Value): seq<(string, Value)>
    decreases |xs|
  {
    if |xs| == 0 then []
    else
      var x := xs[|xs| - 1];
      PutOperation(PutAll(xs[..|xs| - 1], key, verb, op), key(x), verb(x), op(x))
  }

  /** Reference definition: the operation of the last element with that path and method, if any. */
  function LastOperation<T>(xs: seq<T>, key: T -> string, verb: T -> string, op: T -> Value, k: string, w: string): Value
    decreases |xs|
  {
    if |xs| == 0 then Undefined
    else
      var x := xs[|xs| - 1];
      if key(x) == k && verb(x) == w then op(x) else LastOperation(xs[..|xs| - 1], key, verb, op, k, w)
  }

  /**
   * One path item per distinct path, all of them objects; under a path and
   * method sits the operation of the last element with both, so that a
   * later element overwrites an earlier one.
   */
  lemma {:induction false} PutAllSpec<T>(xs: seq<T>, key: T -> string, verb: T -> string, op: T -> Value, k: string, w: string)
    ensures Lookup(PutAll(xs, key, verb, op), k).Obj? || Lookup(PutAll(xs, key, verb, op), k).Undefined?
    ensures Get(Lookup(PutAll(xs, key, verb, op), k), w) == LastOperation(xs, key, verb, op, k, w)
    ensures HasKey(PutAll(xs, key, verb, op), k) <==> exists j :: 0 <= j < |xs| && key(xs[j]) == k
  {
    if |xs| > 0 {
      var x := xs[|xs| - 1];
      var init := xs[..|xs| - 1];
      PutAllSpec(init, key, verb, op, k, w);
      PutOperationSpec(PutAll(init, key, verb, op), key(x), verb(x), op(x), k, w);
      assert forall j :: 0 <= j < |init| ==> init[j] == xs[j];
      if HasKey(PutAll(xs, key, verb, op), k) && k != key(x) {
        var j :| 0 <= j < |init| && key(init[j]) == k;
        assert key(xs[j]) == k;
      }
    }
  }

  /** An optional string as the property it fills: missing is `undefined`. */
  function OptStr(s: Option<string>): Value
  {
    if s.Some? then Str(s.value) else Undefined
  }

  function OptBool(b: Option<bool>): Value
  {
    if b.Some? then Bool(b.value) else Undefined
  }

  const ObjectSchema: Value := Obj([("type", Str("object"))])

  /** A response object with a JSON body of the given schema. */
  function JsonAnswer(description: string, schema: Value): Value
  {
    Obj([("description", Str(description)), ("content", Obj([("application/json", Obj([("schema", schema)]))]))])
  }

  /** How a path that opens with "/seg" splits on "/": an empty piece, then "seg", then the rest. */
  lemma LeadingSegments(seg: string, rest: string)
    requires '/' !in seg
    ensures SplitChar("/" + rest, '/') == [""] + SplitChar(rest, '/')
    ensures SplitChar("/" + seg, '/') == ["", seg]
    ensures SplitChar("/" + seg + "/" + rest, '/') == ["", seg] + SplitChar(rest, '/')
  {
    SlashFirst(rest);
    SlashFirst(seg);
    SplitCharAbsent(seg, '/');
    SlashSegment(seg, rest);
  }

  lemma SlashSegment(seg: string, rest: string)
    requires '/' !in seg
    ensures SplitChar("/" + seg + "/" + rest, '/') == ["", seg] + SplitChar(rest, '/')
  {
    var tail := seg + "/" + rest;
    assert "/" + seg + "/" + rest == "/" + tail;
    SlashFirst(tail);
    SplitCharFirst(seg, rest, '/');
  }

  /** A leading "/" splits off an empty first piece. */
  lemma SlashFirst(rest: string)
    ensures SplitChar("/" + rest, '/') == [""] + SplitChar(rest, '/')
  {
    SplitCharFirst("", rest, '/');
    assert "/" + rest == "" + ['/'] + rest;
  }

  const BearerScheme: Value := Obj([("type", Str("http")), ("scheme", Str("bearer")), ("bearerFormat", Str("JWT"))])

  function ApiKeyScheme(key: Option<string>): Value
  {
    Obj([("type", Str("apiKey")), ("in", Str("header")), ("name", Str(OrElse(key, "X-API-Key")))])
  }

  /** `generateSecuritySchemes(apiConfig)`. */
  function SecuritySchemes(auth: Option<Auth>): Value
  {
    if auth.None? then Undefined
    else if auth.value.kind == "bearer" then Obj([("BearerAuth", BearerScheme)])
    else if auth.value.kind == "apiKey" then Obj([("ApiKeyAuth", ApiKeyScheme(auth.value.key))])
    else Undefined
  }

  /**
   * Bearer authentication gives a JWT bearer scheme named BearerAuth; apiKey
   * authentication a header scheme named ApiKeyAuth over the key's header
   * (default "X-API-Key"); anything else, no scheme at all.
   */
  lemma SecuritySchemesSpec(auth: Option<Auth>)
    ensures SecuritySchemes(auth).Undefined? <==> auth.None? || (auth.value.kind != "bearer" && auth.value.kind != "apiKey")
    ensures auth.Some? && auth.value.kind == "bearer" ==>
      Get(Get(SecuritySchemes(auth), "BearerAuth"), "scheme") == Str("bearer") &&
      Get(Get(SecuritySchemes(auth), "BearerAuth"), "bearerFormat") == Str("JWT")
    ensures auth.Some? && auth.value.kind == "apiKey" ==>
      Get(Get(SecuritySchemes(auth), "ApiKeyAuth"), "in") == Str("header") &&
      Get(Get(SecuritySchemes(auth), "ApiKeyAuth"), "name") == Str(OrElse(auth.value.key, "X-API-Key"))
  {
    LookupAt(BearerScheme.fields, 1, "scheme");
    LookupAt(BearerScheme.fields, 2, "bearerFormat");
    if auth.Some? {
      LookupAt(ApiKeyScheme(auth.value.key).fields, 1, "in");
      LookupAt(ApiKeyScheme(auth.value.key).fields, 2, "name");
    }
  }

  /** The opening of both Markdown documents. */
  function Header(config: ApiConfig): string
  {
    "# " + config.name + "\n\n" + "**Descripción:** " + config.description + "\n\n" +
    "**URL Base:** " + config.baseUrl + "\n\n"
  }

  const TableHead: string :=
    "**Parámetros:**\n\n| Nombre | Tipo | Requerido | Descripción |\n|--------|------|-----------|-------------|\n"

  /** One row of the parameter table. */
  function Row(p: ParamConfig): string
  {
    "| " + p.name + " | " + OptText(p.paramType) + " | " + (if p.required == Some(true) then "Sí" else "No") +
    " | " + OptText(p.description) + " |\n"
  }

  function Rows(ps: seq<ParamConfig>): string
    decreases |ps|
  {
    if |ps| == 0 then "" else Rows(ps[..|ps| - 1]) + Row(ps[|ps| - 1])
  }

  /** The parameter table, written only for a non-empty parameter list. */
  function Table(ps: Option<seq<ParamConfig>>): string
  {
    if ps.Some? && |ps.value| > 0 then TableHead + Rows(ps.value) + "\n" else ""
  }

  /** The heading of an endpoint's section and its description. */
  function Opening(e: EndpointConfig): string
  {
    "### " + e.httpMethod + " " + e.path + "\n\n" + OptText(e.description) + "\n\n"
  }

  /** The Markdown section of one endpoint. */
  function Section(e: EndpointConfig): string
  {
    Opening(e) + Table(e.parameters) + "---\n\n"
  }

  /** The sections of the endpoints, in order. */
  function Sections(es: seq<EndpointConfig>): string
    decreases |es|
  {
    if |es| == 0 then "" else Sections(es[..|es| - 1]) + Section(es[|es| - 1])
  }

  /** A section opens with its "### METHOD path" heading and ends with a rule. */
  lemma SectionShape(e: EndpointConfig)
    ensures "### " + e.httpMethod + " " + e.path + "\n\n" <= Section(e)
    ensures |Section(e)| >= 5 && Section(e)[|Section(e)| - 5..] == "---\n\n"
  {
    var head := "### " + e.httpMethod + " " + e.path + "\n\n";
    var body := Opening(e) + Table(e.parameters);
    assert Section(e) == body + "---\n\n";
    assert Section(e)[|body|..] == "---\n\n";
    assert Opening(e) == head + (OptText(e.description) + "\n\n");
    PrefixAppend(head, Opening(e), Table(e.parameters) + "---\n\n");
  }

  lemma PrefixAppend(a: string, b: string, c: string)
    requires a <= b
    ensures a <= b + c
  {
    assert (b + c)[..|a|] == b[..|a|];
  }

  /** A section holds a parameter table exactly when the endpoint declares parameters, headed by the column names. */
  lemma TableShape(ps: Option<seq<ParamConfig>>)
    ensures Table(ps) == "" <==> ps.None? || |ps.value| == 0
    ensures Table(ps) != "" ==> TableHead <= Table(ps)
  {
    if ps.Some? && |ps.value| > 0 {
      assert Table(ps) == TableHead + (Rows(ps.value) + "\n");
      assert Table(ps)[..|TableHead|] == TableHead;
    }
  }

  lemma RowsStep(ps: seq<ParamConfig>, i: nat)
    requires i < |ps|
    ensures Rows(ps[..i + 1]) == Rows(ps[..i]) + Row(ps[i])
  {
    assert ps[..i + 1][..i] == ps[..i];
  }

  /** The inner loop of the markdown writer: one row per parameter. */
  method AppendRows(markdown: string, ps: seq<ParamConfig>) returns (m: string)
    ensures m == markdown + Rows(ps)
  {
    m := markdown;
    var i := 0;
    while i < |ps|
      invariant 0 <= i <= |ps|
      invariant m == markdown + Rows(ps[..i])
    {
      RowsStep(ps, i);
      AppendAssoc(markdown, Rows(ps[..i]), Row(ps[i]));
      m := m + Row(ps[i]);
      i := i + 1;
    }
    assert ps[..|ps|] == ps;
  }

  /** The markdown loop's body for one endpoint. */
  method AppendSection(markdown: string, e: EndpointConfig) returns (m: string)
    ensures m == markdown + Section(e)
  {
    m := markdown + Opening(e);
    if e.parameters.Some? && |e.parameters.value| > 0 {
      m := m + TableHead;
      m := AppendRows(m, e.parameters.value);
      m := m + "\n";
      TableParts(markdown + Opening(e), e.parameters.value);
    }
    m := m + "---\n\n";
    AppendAssoc(markdown, Opening(e), Table(e.parameters));
    AppendAssoc(markdown, Opening(e) + Table(e.parameters), "---\n\n");
  }

  lemma TableParts(m: string, ps: seq<ParamConfig>)
    requires |ps| > 0
    ensures m + TableHead + Rows(ps) + "\n" == m + Table(Some(ps))
  {
    AppendAssoc(m, TableHead, Rows(ps));
    AppendAssoc(m, TableHead + Rows(ps), "\n");
  }

  /** The loop of both Markdown writers over a list of endpoints: one section per endpoint, in order. */
  method AppendSections(opening: string, endpoints: seq<EndpointConfig>) returns (markdown: string)
    ensures markdown == opening + Sections(endpoints)
  {
    markdown := opening;
    var i := 0;
    while i < |endpoints|
      invariant 0 <= i <= |endpoints|
      invariant markdown == opening + Sections(endpoints[..i])
    {
      SectionsStep(opening, endpoints, i);
      markdown := AppendSection(markdown, endpoints[i]);
      i := i + 1;
    }
    assert endpoints[..|endpoints|] == endpoints;
  }

  lemma SectionsStep(opening: string, es: seq<EndpointConfig>, i: nat)
    requires i < |es|
    ensures opening + Sections(es[..i + 1]) == (opening + Sections(es[..i])) + Section(es[i])
  {
    assert es[..i + 1][..i] == es[..i];
  }
}
