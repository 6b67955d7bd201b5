/**
 * `SwaggerGenerator` (`utils/swaggerGenerator.ts`): OpenAPI paths with
 * templated path parameters, operation ids, tags, default parameter
 * attributes and security requirements, and a Markdown page grouped by tag.
 */
module SwaggerGenerator {
  import opened Common
  import opened Strs
  import opened Js
  import opened ApiTypes
  import opened OpenApiDoc

  // ---------------------------------------------------------------- paths

  /** `path.replace(/:(\w+)/g, '{$1}')`: each ":name" becomes "{name}", scanning left to right. */
  function ReplaceParams(s: string): (r: string)
    ensures |s| > 0 ==> |r| > 0 && (r[0] == s[0] || (s[0] == ':' && r[0] == '{'))
    decreases |s|
  {
    if |s| == 0 then ""
    else if s[0] == ':' && RunEnd(s, 1, IsWordChar) > 1 then
      var n := RunEnd(s, 1, IsWordChar);
      "{" + s[1..n] + "}" + ReplaceParams(s[n..])
    else [s[0]] + ReplaceParams(s[1..])
  }

  /** No ":" is followed by a word character: nothing is left for the rewrite to match. */
  predicate ParamFree(s: string)
  {
    forall i :: 0 <= i < |s| - 1 ==> !(s[i] == ':' && IsWordChar(s[i + 1]))
  }

  lemma {:induction false} ReplaceParamsFree(s: string)
    ensures ParamFree(ReplaceParams(s))
    decreases |s|
  {
    if |s| > 0 {
      var r := ReplaceParams(s);
      if s[0] == ':' && RunEnd(s, 1, IsWordChar) > 1 {
        var n := RunEnd(s, 1, IsWordChar);
        var head := "{" + s[1..n] + "}";
        var tail := ReplaceParams(s[n..]);
        ReplaceParamsFree(s[n..]);
        assert r == head + tail;
        assert forall i :: 0 <= i < |head| ==> r[i] != ':' by {
          assert forall i :: 1 <= i < |head| - 1 ==> head[i] == s[i] && IsWordChar(s[i]);
        }
        assert forall i :: |head| <= i < |r| ==> r[i] == tail[i - |head|];
      } else {
        var tail := ReplaceParams(s[1..]);
        ReplaceParamsFree(s[1..]);
        assert r == [s[0]] + tail;
        assert forall i :: 1 <= i < |r| ==> r[i] == tail[i - 1];
        if s[0] == ':' && |s| > 1 {
          assert !IsWordChar(s[1]);
          assert tail[0] == s[1] || tail[0] == '{';
        }
      }
    }
  }

  /** A string with nothing to rewrite is left as it is. */
  lemma {:induction false} ReplaceParamsIdentity(s: string)
    requires ParamFree(s)
    ensures ReplaceParams(s) == s
    decreases |s|
  {
    if |s| > 0 {
      if s[0] == ':' && |s| > 1 {
        assert !IsWordChar(s[1]);
      }
      var t := s[1..];
      assert forall i :: 0 <= i < |t| ==> t[i] == s[i + 1];
      ReplaceParamsIdentity(t);
      assert s == [s[0]] + t;
    }
  }

  /** `normalizePath(path)`. */
  function NormalizePath(path: string): string
  {
    ReplaceParams(if "/" <= path then path else "/" + path)
  }

  /**
   * A normalized path starts with "/" and holds no ":name" parameter;
   * normalizing twice changes nothing, and a path that already starts with
   * "/" and has no ":name" parameter is kept as it is.
   */
  lemma NormalizePathSpec(path: string)
    ensures |NormalizePath(path)| > 0 && NormalizePath(path)[0] == '/'
    ensures ParamFree(NormalizePath(path))
    ensures NormalizePath(NormalizePath(path)) == NormalizePath(path)
    ensures "/" <= path && ParamFree(path) ==> NormalizePath(path) == path
  {
    var n := NormalizePath(path);
    ReplaceParamsFree(if "/" <= path then path else "/" + path);
    assert "/" <= n;
    ReplaceParamsIdentity(n);
    if "/" <= path && ParamFree(path) {
      ReplaceParamsIdentity(path);
    }
  }

  lemma NormalizePathExample()
    ensures NormalizePath(":id") == "/{id}"
  {
    var s := ":id";
    assert s[0] == ':';
    assert !("/" <= s);
    assert RunEnd(s, 3, IsWordChar) == 3;
    assert RunEnd(s, 1, IsWordChar) == 3;
    assert s[1..3] == "id" && s[3..] == "";
    assert ReplaceParams(s) == "{id}";
    assert ("/" + s)[1..] == s;
  }

  // -------------------------------------------------------- operation ids

  /** `.replace(/[^a-zA-Z0-9]/g, '_')`. */
  function Underscored(s: string): (r: string)
    ensures |r| == |s|
    ensures forall i :: 0 <= i < |r| ==> IsWordChar(r[i])
  {
    seq(|s|, i requires 0 <= i < |s| => if IsWordChar(s[i]) then s[i] else '_')
  }

  predicate NoDoubleUnderscore(s: string)
  {
    forall i :: 0 <= i < |s| - 1 ==> !(s[i] == '_' && s[i + 1] == '_')
  }

  /** `.replace(/_+/g, '_')`: every run of "_" becomes one. */
  function Collapse(s: string): (r: string)
    ensures |s| > 0 ==> |r| > 0 && r[0] == s[0]
    ensures forall i :: 0 <= i < |r| ==> r[i] in s
    ensures NoDoubleUnderscore(r)
    decreases |s|
  {
    if |s| <= 1 then s
    else if s[0] == '_' && s[1] == '_' then Collapse(s[1..])
    else
      var tail := Collapse(s[1..]);
      assert forall i :: 1 <= i < |tail| + 1 ==> ([s[0]] + tail)[i] == tail[i - 1];
      [s[0]] + tail
  }

  /** `.replace(/^_|_$/g, '')`: one leading and one trailing "_" go. */
  function TrimUnderscore(s: string): string
  {
    var a := if |s| > 0 && s[0] == '_' then s[1..] else s;
    if |a| > 0 && a[|a| - 1] == '_' then a[..|a| - 1] else a
  }

  function CleanPath(path: string): string
  {
    TrimUnderscore(Collapse(Underscored(path)))
  }

  /** `generateOperationId(path, method)`. */
  function OperationId(path: string, verb: string): string
  {
    Lower(verb + "_" + CleanPath(path))
  }

  /** Dropping one leading and one trailing "_" from a string of single separators leaves neither end at "_". */
  lemma TrimUnderscoreSpec(c: string)
    requires forall i :: 0 <= i < |c| ==> IsWordChar(c[i])
    requires NoDoubleUnderscore(c)
    ensures var r := TrimUnderscore(c);
      (forall i :: 0 <= i < |r| ==> IsWordChar(r[i])) && NoDoubleUnderscore(r) &&
      (r == "" || (r[0] != '_' && r[|r| - 1] != '_'))
  {
    var a := if |c| > 0 && c[0] == '_' then c[1..] else c;
    if |c| > 0 && c[0] == '_' {
      assert forall i :: 0 <= i < |a| ==> a[i] == c[i + 1];
      if |c| > 1 {
        assert a[0] == c[1] && c[1] != '_';
      }
    }
    assert NoDoubleUnderscore(a);
    var r := TrimUnderscore(c);
    if |a| > 0 && a[|a| - 1] == '_' {
      assert r == a[..|a| - 1];
      assert forall i :: 0 <= i < |r| ==> r[i] == a[i];
      if |a| > 1 {
        assert a[|a| - 2] != '_';
      }
    }
  }

  /**
   * The path part of an operation id holds only letters, digits and single
   * "_" separators, and neither starts nor ends with "_"; the id is the
   * lower-cased method, "_", and the lower-cased path part.
   */
  lemma OperationIdSpec(path: string, verb: string)
    ensures forall i :: 0 <= i < |CleanPath(path)| ==> IsWordChar(CleanPath(path)[i])
    ensures NoDoubleUnderscore(CleanPath(path))
    ensures CleanPath(path) == "" || (CleanPath(path)[0] != '_' && CleanPath(path)[|CleanPath(path)| - 1] != '_')
    ensures OperationId(path, verb) == Lower(verb) + "_" + Lower(CleanPath(path))
  {
    var c := Collapse(Underscored(path));
    assert forall i :: 0 <= i < |c| ==> IsWordChar(c[i]);
    TrimUnderscoreSpec(c);
    LowerAppend(verb + "_", CleanPath(path));
    LowerAppend(verb, "_");
  }

  lemma UnderscoredExample()
    ensures Underscored("/{id}") == "__id_"
  {
    var u := Underscored("/{id}");
    assert u[0] == '_' && u[1] == '_' && u[2] == 'i' && u[3] == 'd' && u[4] == '_';
  }

  lemma CollapseExample()
    ensures Collapse("__id_") == "_id_"
  {
  }

  lemma CleanPathExample()
    ensures CleanPath("/{id}") == "id"
  {
    UnderscoredExample();
    CollapseExample();
    assert TrimUnderscore("_id_") == "id";
  }

  // ----------------------------------------------------------------- tags

  /** A segment that names something: not empty and not a "{param}". */
  predicate Named(seg: string)
  {
    seg != "" && seg[0] != '{'
  }

  /** `extractTagFromPath(path)`. */
  function ExtractTag(path: string): string
  {
    var segments := Filter(SplitChar(path, '/'), Named);
    if |segments| > 0 then segments[0] else "general"
  }

  /** A tag is a named segment of the path, or "general". */
  lemma ExtractTagSegment(path: string)
    ensures ExtractTag(path) != "" && '/' !in ExtractTag(path) && ExtractTag(path)[0] != '{'
    ensures ExtractTag(path) == "general" || ExtractTag(path) in SplitChar(path, '/')
  {
    var segments := Filter(SplitChar(path, '/'), Named);
    if |segments| > 0 {
      FilterSpec(SplitChar(path, '/'), Named, segments[0]);
      SplitJoin(path, '/');
    }
  }

  /** The tag of "/seg/rest" is "seg" when "seg" is named; a "{param}" segment is skipped. */
  lemma ExtractTagFirst(seg: string, rest: string)
    requires '/' !in seg
    ensures Named(seg) ==> ExtractTag("/" + seg + "/" + rest) == seg
    ensures seg != "" && seg[0] == '{' ==> ExtractTag("/" + seg + "/" + rest) == ExtractTag("/" + rest)
  {
    LeadingSegments(seg, rest);
    var pieces := ["", seg] + SplitChar(rest, '/');
    assert pieces[1..] == [seg] + SplitChar(rest, '/');
    assert ([seg] + SplitChar(rest, '/'))[1..] == SplitChar(rest, '/');
    assert ([""] + SplitChar(rest, '/'))[1..] == SplitChar(rest, '/');
    assert Filter(pieces, Named) == Filter(pieces[1..], Named);
    assert Filter([""] + SplitChar(rest, '/'), Named) == Filter(SplitChar(rest, '/'), Named);
  }

  // ----------------------------------------------------------- operations

  /** `generateParameters` for one declared parameter. */
  function SwaggerParameter(p: ParamConfig): Value
  {
    Obj([("name", Str(p.name)), ("in", Str(OrElse(p.location, "query"))), ("description", OptStr(p.description)),
         ("required", Bool(p.required == Some(true))),
         ("schema", Obj([("type", Str(OrElse(p.paramType, "string"))), ("enum", Undefined), ("default", Undefined)])),
         ("example", Undefined)])
  }

  /** `generateParameters(parameters)`. */
  function GenerateParameters(ps: Option<seq<ParamConfig>>): Value
  {
    if ps.None? || |ps.value| == 0 then Arr([])
    else Arr(seq(|ps.value|, i requires 0 <= i < |ps.value| => SwaggerParameter(ps.value[i])))
  }

  /**
   * No parameters give an empty list; otherwise one parameter each, in
   * order, located in the query and optional unless it says otherwise,
   * typed "string" unless it declares a type.
   */
  lemma GenerateParametersSpec(ps: Option<seq<ParamConfig>>, i: nat)
    ensures GenerateParameters(ps).Arr?
    ensures ps.None? ==> GenerateParameters(ps).items == []
    ensures ps.Some? ==> |GenerateParameters(ps).items| == |ps.value|
    ensures ps.Some? && i < |ps.value| ==>
      var p := GenerateParameters(ps).items[i];
      Get(p, "name") == Str(ps.value[i].name) &&
      Get(p, "in") == Str(if ps.value[i].location.Some? && ps.value[i].location.value != "" then ps.value[i].location.value else "query") &&
      Get(p, "required") == Bool(ps.value[i].required == Some(true)) &&
      Get(Get(p, "schema"), "type") ==
        Str(if ps.value[i].paramType.Some? && ps.value[i].paramType.value != "" then ps.value[i].paramType.value else "string")
  {
    if ps.Some? && i < |ps.value| {
      var p := SwaggerParameter(ps.value[i]);
      LookupAt(p.fields, 1, "in");
      LookupAt(p.fields, 3, "required");
      LookupAt(p.fields, 4, "schema");
    }
  }

  const ErrorBody: Value :=
    Obj([("type", Str("object")),
         ("properties", Obj([("error", Obj([("type", Str("string"))])), ("message", Obj([("type", Str("string"))]))]))])

  /** `generateResponses(endpoint)`. */
  function SwaggerResponses(schema: Value): Value
  {
    Obj([("200", JsonAnswer("Successful operation", Or(schema, ObjectSchema))),
         ("400", JsonAnswer("Invalid input", ErrorBody)),
         ("500", JsonAnswer("Internal server error", ErrorBody))])
  }

  const SecuredPaths: seq<string> := ["/usr", "/activo", "/funcionario"]

  /** `generateSecurityRequirements(endpoint)`, on the path as configured. */
  function SecurityRequirements(e: EndpointConfig): Value
  {
    if e.path in SecuredPaths then Arr([Obj([("BearerAuth", Arr([]))])]) else Undefined
  }

  /**
   * Only the three listed paths require the bearer scheme. The list is
   * compared with the configured path, not the normalized one: "usr" is
   * written under "/usr" but without a security requirement.
   */
  lemma SecurityRequirementsSpec(e: EndpointConfig)
    ensures SecurityRequirements(e).Undefined? <==> e.path != "/usr" && e.path != "/activo" && e.path != "/funcionario"
    ensures SecurityRequirements(EndpointConfig("usr", e.httpMethod, e.description, e.parameters, e.responseSchema)).Undefined?
    ensures NormalizePath("usr") == "/usr"
  {
    assert "/usr"[0] == '/';
    assert !("/" <= "usr");
    assert ReplaceParams("/usr") == "/usr" by {
      assert ParamFree("/usr");
      ReplaceParamsIdentity("/usr");
    }
  }

  function PathKey(e: EndpointConfig): string
  {
    NormalizePath(e.path)
  }

  function Verb(e: EndpointConfig): string
  {
    Lower(e.httpMethod)
  }

  /** The operation `generatePaths` writes for an endpoint. */
  function SwaggerOperation(e: EndpointConfig): Value
  {
    var path := NormalizePath(e.path);
    var verb := Lower(e.httpMethod);
    Obj([("summary", OptStr(e.description)), ("operationId", Str(OperationId(path, verb))),
         ("tags", Arr([Str(ExtractTag(path))])), ("parameters", GenerateParameters(e.parameters)),
         ("responses", SwaggerResponses(e.responseSchema)), ("security", SecurityRequirements(e))])
  }

  /** `generatePaths(endpoints)`. */
  method GeneratePaths(endpoints: seq<EndpointConfig>) returns (paths: Value)
    ensures paths == Obj(PutAll(endpoints, PathKey, Verb, SwaggerOperation))
  {
    var fields: seq<(string, Value)> := [];
    var i := 0;
    while i < |endpoints|
      invariant 0 <= i <= |endpoints|
      invariant fields == PutAll(endpoints[..i], PathKey, Verb, SwaggerOperation)
    {
      var e := endpoints[i];
      assert endpoints[..i + 1][..i] == endpoints[..i];
      var normalized := NormalizePath(e.path);
      var verb := Lower(e.httpMethod);
      fields := PutOperation(fields, normalized, verb, SwaggerOperation(e));
      i := i + 1;
    }
    assert endpoints[..|endpoints|] == endpoints;
    paths := Obj(fields);
  }

  /**
   * The paths are exactly the normalized endpoint paths, each starting with
   * "/" and in "{name}" form; under a path and lower-cased method sits the
   * operation of the last endpoint with both.
   */
  lemma GeneratePathsSpec(endpoints: seq<EndpointConfig>, k: string, w: string)
    ensures HasKey(PutAll(endpoints, PathKey, Verb, SwaggerOperation), k) <==>
      exists j :: 0 <= j < |endpoints| && NormalizePath(endpoints[j].path) == k
    ensures HasKey(PutAll(endpoints, PathKey, Verb, SwaggerOperation), k) ==> "/" <= k && ParamFree(k)
    ensures Get(Lookup(PutAll(endpoints, PathKey, Verb, SwaggerOperation), k), w) ==
      LastOperation(endpoints, PathKey, Verb, SwaggerOperation, k, w)
  {
    PutAllSpec(endpoints, PathKey, Verb, SwaggerOperation, k, w);
    if HasKey(PutAll(endpoints, PathKey, Verb, SwaggerOperation), k) {
      var j :| 0 <= j < |endpoints| && NormalizePath(endpoints[j].path) == k;
      NormalizePathSpec(endpoints[j].path);
    }
  }

  // ------------------------------------------------------------ tag list

  function Tag(e: EndpointConfig): string
  {
    ExtractTag(e.path)
  }

  /** The distinct tags of the endpoints' configured paths, in first-seen order. */
  function TagNames(es: seq<EndpointConfig>): seq<string>
    decreases |es|
  {
    if |es| == 0 then []
    else
      var names := TagNames(es[..|es| - 1]);
      var t := Tag(es[|es| - 1]);
      if t in names then names else names + [t]
  }

  /** No tag is listed twice. */
  lemma {:induction false} TagNamesDistinct(es: seq<EndpointConfig>)
    ensures forall i, j :: 0 <= i < j < |TagNames(es)| ==> TagNames(es)[i] != TagNames(es)[j]
    decreases |es|
  {
    if |es| > 0 {
      var names := TagNames(es[..|es| - 1]);
      TagNamesDistinct(es[..|es| - 1]);
      var t := Tag(es[|es| - 1]);
      if t !in names {
        var all := names + [t];
        assert forall i :: 0 <= i < |names| ==> all[i] == names[i] && names[i] != t;
      }
    }
  }

  /** A listed tag is the tag of some endpoint. */
  lemma {:induction false} TagNamesSound(es: seq<EndpointConfig>, t: string)
    requires t in TagNames(es)
    ensures exists j :: 0 <= j < |es| && Tag(es[j]) == t
    decreases |es|
  {
    var init := es[..|es| - 1];
    if t in TagNames(init) {
      TagNamesSound(init, t);
      var j :| 0 <= j < |init| && Tag(init[j]) == t;
      assert init[j] == es[j];
    } else {
      assert Tag(es[|es| - 1]) == t;
    }
  }

  /** The tag of every endpoint is listed. */
  lemma {:induction false} TagNamesComplete(es: seq<EndpointConfig>, j: nat)
    requires j < |es|
    ensures Tag(es[j]) in TagNames(es)
    decreases |es|
  {
    var init := es[..|es| - 1];
    if j < |es| - 1 {
      TagNamesComplete(init, j);
      assert init[j] == es[j];
    }
  }

  /** A tag is listed exactly when some endpoint has it. */
  lemma TagNamesMember(es: seq<EndpointConfig>, t: string)
    ensures t in TagNames(es) <==> exists j :: 0 <= j < |es| && Tag(es[j]) == t
  {
    if t in TagNames(es) {
      TagNamesSound(es, t);
    }
    if exists j :: 0 <= j < |es| && Tag(es[j]) == t {
      var j :| 0 <= j < |es| && Tag(es[j]) == t;
      TagNamesComplete(es, j);
    }
  }

  /** Each tag once; a tag is listed exactly when some endpoint has it. */
  lemma TagNamesSpec(es: seq<EndpointConfig>, t: string)
    ensures forall i, j :: 0 <= i < j < |TagNames(es)| ==> TagNames(es)[i] != TagNames(es)[j]
    ensures t in TagNames(es) <==> exists j :: 0 <= j < |es| && Tag(es[j]) == t
  {
    TagNamesDistinct(es);
    TagNamesMember(es, t);
  }

  /** The tags of any prefix of the endpoints come first, in the same order: the list is in first-occurrence order. */
  lemma {:induction false} TagNamesPrefix(es: seq<EndpointConfig>, m: nat)
    requires m <= |es|
    ensures TagNames(es[..m]) <= TagNames(es)
    decreases |es|
  {
    if m < |es| {
      var init := es[..|es| - 1];
      assert init[..m] == es[..m];
      TagNamesPrefix(init, m);
    } else {
      assert es[..m] == es;
    }
  }

  function TagObject(t: string): Value
  {
    Obj([("name", Str(t)), ("description", Str(t + " operations"))])
  }

  /** The `tagsMap` entries of a list of tags. */
  function Described(names: seq<string>): seq<(string, string)>
  {
    seq(|names|, k requires 0 <= k < |names| => (names[k], names[k] + " operations"))
  }

  function MapKeys(m: seq<(string, string)>): seq<string>
  {
    seq(|m|, k requires 0 <= k < |m| => m[k].0)
  }

  /** `generateTags(endpoints)`: the Map keeps the first description of each tag, in insertion order. */
  method GenerateTags(endpoints: seq<EndpointConfig>) returns (tags: Value)
    ensures tags == Arr(seq(|TagNames(endpoints)|, k requires 0 <= k < |TagNames(endpoints)| => TagObject(TagNames(endpoints)[k])))
  {
    var tagsMap: seq<(string, string)> := [];
    var i := 0;
    while i < |endpoints|
      invariant 0 <= i <= |endpoints|
      invariant tagsMap == Described(TagNames(endpoints[..i]))
    {
      var tag := ExtractTag(endpoints[i].path);
      assert endpoints[..i + 1][..i] == endpoints[..i];
      assert MapKeys(tagsMap) == TagNames(endpoints[..i]);
      if tag !in MapKeys(tagsMap) {
        tagsMap := tagsMap + [(tag, tag + " operations")];
      }
      i := i + 1;
    }
    assert endpoints[..|endpoints|] == endpoints;
    tags := Arr(seq(|tagsMap|, k requires 0 <= k < |tagsMap| => Obj([("name", Str(tagsMap[k].0)), ("description", Str(tagsMap[k].1))])));
  }

  // ------------------------------------------------------ grouped markdown

  function HasTag(t: string): EndpointConfig -> bool
  {
    e => Tag(e) == t
  }

  /** `endpointsByTag`: per tag in first-seen order, its endpoints in their order. */
  function Groups(es: seq<EndpointConfig>): seq<(string, seq<EndpointConfig>)>
  {
    var names := TagNames(es);
    seq(|names|, k requires 0 <= k < |names| => (names[k], Filter(es, HasTag(names[k]))))
  }

  /** Every endpoint is in the group of its tag and in no other. */
  lemma GroupsSpec(es: seq<EndpointConfig>, k: nat, e: EndpointConfig)
    requires k < |Groups(es)|
    ensures Groups(es)[k].0 == TagNames(es)[k]
    ensures e in Groups(es)[k].1 <==> e in es && Tag(e) == Groups(es)[k].0
  {
    FilterSpec(es, HasTag(TagNames(es)[k]), e);
  }

  /** The position of a tag's group, when the tag has one. */
  function GroupIndex(groups: seq<(string, seq<EndpointConfig>)>, t: string): (r: Option<nat>)
    ensures r.None? <==> forall k :: 0 <= k < |groups| ==> groups[k].0 != t
    ensures r.Some? ==> r.value < |groups| && groups[r.value].0 == t
    decreases |groups|
  {
    if |groups| == 0 then None
    else if groups[|groups| - 1].0 == t then Some(|groups| - 1)
    else GroupIndex(groups[..|groups| - 1], t)
  }

  /** An endpoint whose tag already has a group is appended to that group. */
  lemma GroupsJoin(es: seq<EndpointConfig>, e: EndpointConfig, k: nat)
    requires k < |TagNames(es)| && TagNames(es)[k] == Tag(e)
    ensures Groups(es + [e]) == Groups(es)[k := (Tag(e), Groups(es)[k].1 + [e])]
  {
    var xs := es + [e];
    assert xs[..|xs| - 1] == es;
    var names := TagNames(es);
    assert TagNames(xs) == names;
    var joined := Groups(es)[k := (Tag(e), Groups(es)[k].1 + [e])];
    forall j | 0 <= j < |names|
      ensures Groups(xs)[j] == joined[j]
    {
      if j != k {
        TagNamesSpec(es, Tag(e));
        assert names[j] != Tag(e);
      }
      GroupAppend(es, e, j);
    }
    assert |Groups(xs)| == |joined|;
  }

  /** A group after one more endpoint: the endpoint is added exactly to the group of its tag. */
  lemma GroupAppend(es: seq<EndpointConfig>, e: EndpointConfig, j: nat)
    requires TagNames(es + [e]) == TagNames(es) && j < |TagNames(es)|
    ensures Tag(e) != TagNames(es)[j] ==> Groups(es + [e])[j] == Groups(es)[j]
    ensures Tag(e) == TagNames(es)[j] ==> Groups(es + [e])[j] == (Tag(e), Groups(es)[j].1 + [e])
  {
    var f := Filter(es, HasTag(TagNames(es)[j]));
    FilterAppend(es, e, HasTag(TagNames(es)[j]));
    assert f + [] == f;
  }

  /** A tag that no endpoint has selects no endpoint. */
  lemma UnusedTagEmpty(es: seq<EndpointConfig>, t: string)
    requires t !in TagNames(es)
    ensures Filter(es, HasTag(t)) == []
  {
    TagNamesSpec(es, t);
    forall i | 0 <= i < |es| ensures !HasTag(t)(es[i]) {
      assert Tag(es[i]) != t;
    }
    FilterNone(es, HasTag(t));
  }

  /** A new tag is added at the end of the tag list. */
  lemma TagNamesOpen(es: seq<EndpointConfig>, e: EndpointConfig)
    requires Tag(e) !in TagNames(es)
    ensures TagNames(es + [e]) == TagNames(es) + [Tag(e)]
  {
    assert (es + [e])[..|es|] == es;
  }

  /** An endpoint with a new tag leaves the existing groups as they were. */
  lemma GroupsOpenKeeps(es: seq<EndpointConfig>, e: EndpointConfig, j: nat)
    requires TagNames(es + [e]) == TagNames(es) + [Tag(e)] && Tag(e) !in TagNames(es)
    requires j < |TagNames(es)|
    ensures Groups(es + [e])[j] == Groups(es)[j]
  {
    var names := TagNames(es);
    var n := names[j];
    assert n != Tag(e);
    assert TagNames(es + [e])[j] == n;
    FilterAppend(es, e, HasTag(n));
    assert !HasTag(n)(e);
    assert Filter(es + [e], HasTag(n)) == Filter(es, HasTag(n)) + [] == Filter(es, HasTag(n));
    assert Groups(es + [e])[j] == (n, Filter(es + [e], HasTag(n)));
    assert Groups(es)[j] == (n, Filter(es, HasTag(n)));
  }

  /** An endpoint with a new tag forms a group of its own. */
  lemma GroupsOpenAdds(es: seq<EndpointConfig>, e: EndpointConfig)
    requires TagNames(es + [e]) == TagNames(es) + [Tag(e)] && Tag(e) !in TagNames(es)
    ensures Groups(es + [e])[|TagNames(es)|] == (Tag(e), [e])
  {
    var t := Tag(e);
    assert TagNames(es + [e])[|TagNames(es)|] == t;
    UnusedTagEmpty(es, t);
    FilterAppend(es, e, HasTag(t));
    assert HasTag(t)(e);
    assert Filter(es + [e], HasTag(t)) == [] + [e] == [e];
  }

  /** An endpoint with a new tag opens a group of its own at the end. */
  lemma GroupsOpen(es: seq<EndpointConfig>, e: EndpointConfig)
    requires Tag(e) !in TagNames(es)
    ensures Groups(es + [e]) == Groups(es) + [(Tag(e), [e])]
  {
    TagNamesOpen(es, e);
    var gx := Groups(es + [e]);
    var want := Groups(es) + [(Tag(e), [e])];
    forall j | 0 <= j < |TagNames(es)| ensures gx[j] == want[j] {
      GroupsOpenKeeps(es, e, j);
    }
    GroupsOpenAdds(es, e);
    assert |gx| == |want|;
  }

  /** One more endpoint: it joins its tag's group, or opens a new group at the end. */
  lemma GroupsStep(es: seq<EndpointConfig>, e: EndpointConfig)
    ensures var groups := Groups(es);
      Groups(es + [e]) ==
        match GroupIndex(groups, Tag(e))
        case Some(k) => groups[k := (Tag(e), groups[k].1 + [e])]
        case None => groups + [(Tag(e), [e])]
  {
    var groups := Groups(es);
    var names := TagNames(es);
    assert |groups| == |names| && forall j :: 0 <= j < |names| ==> groups[j].0 == names[j];
    match GroupIndex(groups, Tag(e))
    case Some(k) =>
      GroupsJoin(es, e, k);
    case None =>
      GroupsOpen(es, e);
  }

  /** The group loop: `has`, `set` and `get(...).push` on an insertion-ordered Map. */
  method GroupEndpoints(endpoints: seq<EndpointConfig>) returns (groups: seq<(string, seq<EndpointConfig>)>)
    ensures groups == Groups(endpoints)
  {
    groups := [];
    var i := 0;
    while i < |endpoints|
      invariant 0 <= i <= |endpoints|
      invariant groups == Groups(endpoints[..i])
    {
      var e := endpoints[i];
      var tag := ExtractTag(e.path);
      assert endpoints[..i + 1] == endpoints[..i] + [e];
      GroupsStep(endpoints[..i], e);
      var k := GroupIndex(groups, tag);
      if k.Some? {
        groups := groups[k.value := (tag, groups[k.value].1 + [e])];
      } else {
        groups := groups + [(tag, [e])];
      }
      i := i + 1;
    }
    assert endpoints[..|endpoints|] == endpoints;
  }

  function GroupHeading(t: string): string
  {
    "## " + Upper(t) + "\n\n"
  }

  /** The page body: per group its heading, then its endpoints' sections. */
  function GroupedSections(groups: seq<(string, seq<EndpointConfig>)>): string
    decreases |groups|
  {
    if |groups| == 0 then ""
    else
      var g := groups[|groups| - 1];
      GroupedSections(groups[..|groups| - 1]) + GroupHeading(g.0) + Sections(g.1)
  }

  lemma Regroup(o: string, a: string, h: string, s: string)
    ensures o + (a + h + s) == (o + a) + h + s
  {
  }

  lemma GroupedSectionsStep(opening: string, groups: seq<(string, seq<EndpointConfig>)>, k: nat)
    requires k < |groups|
    ensures opening + GroupedSections(groups[..k + 1]) ==
      (opening + GroupedSections(groups[..k])) + GroupHeading(groups[k].0) + Sections(groups[k].1)
  {
    var pre := groups[..k + 1];
    assert pre[..k] == groups[..k] && pre[k] == groups[k];
    var a := GroupedSections(groups[..k]);
    var h := GroupHeading(groups[k].0);
    var s := Sections(groups[k].1);
    assert GroupedSections(pre) == a + h + s;
    Regroup(opening, a, h, s);
  }

  /** `generateMarkdownDocumentation(apiConfig, endpoints)`: the header, then the endpoints grouped by tag. */
  method GenerateMarkdownDocumentation(config: ApiConfig, endpoints: seq<EndpointConfig>) returns (markdown: string)
    ensures markdown == Header(config) + GroupedSections(Groups(endpoints))
  {
    var groups := GroupEndpoints(endpoints);
    markdown := Header(config);
    ghost var opening := markdown;
    var k := 0;
    while k < |groups|
      invariant 0 <= k <= |groups|
      invariant markdown == opening + GroupedSections(groups[..k])
    {
      GroupedSectionsStep(opening, groups, k);
      markdown := markdown + GroupHeading(groups[k].0);
      markdown := AppendSections(markdown, groups[k].1);
      k := k + 1;
    }
    assert groups[..|groups|] == groups;
  }
}
