/**
 * The `api_discovery` tool: the registered APIs filtered by type and by a
 * free-text query, cut to a limit, and described in a result record.
 */
module ApiDiscoveryTool {
  import opened Common
  import opened Strs
  import opened Js
  import opened ApiTypes
  import Registry
  import OM = OrderedMap

  const DefaultLimit: int := 10

  /** The type filter keeps an API whose type contains the requested one, ignoring case. */
  predicate TypeMatches(api: ApiConfig, t: string)
  {
    Contains(Lower(api.apiType), Lower(t))
  }

  /**
   * The endpoint test of the query filter, in evaluation order: the path, then
   * the description, whose absence makes `toLowerCase` throw.
   */
  function EndpointsMatch(eps: seq<EndpointConfig>, q: string): Result<bool>
  {
    if |eps| == 0 then Ok(false)
    else if Contains(Lower(eps[0].path), q) then Ok(true)
    else if eps[0].description.None? then Err(ReadPropertyError("toLowerCase", Undefined))
    else if Contains(Lower(eps[0].description.value), q) then Ok(true)
    else EndpointsMatch(eps[1..], q)
  }

  predicate KeywordMatches(api: ApiConfig, q: string)
  {
    exists i :: 0 <= i < |api.keywords| && Contains(Lower(api.keywords[i]), q)
  }

  /** The query test of one API, short-circuiting as `||` does; `q` is already lower-cased. */
  function QueryMatches(api: ApiConfig, q: string): Result<bool>
  {
    if Contains(Lower(api.name), q) || Contains(Lower(api.description), q) || KeywordMatches(api, q) then Ok(true)
    else EndpointsMatch(api.endpoints, q)
  }

  /** The query filter: the APIs that pass, or the first error a test raised. */
  function ByQuery(apis: seq<ApiConfig>, q: string): Result<seq<ApiConfig>>
  {
    if |apis| == 0 then Ok([])
    else match QueryMatches(apis[0], q)
      case Err(m) => Err(m)
      case Ok(keep) =>
        match ByQuery(apis[1..], q)
        case Err(m) => Err(m)
        case Ok(rest) => Ok((if keep then [apis[0]] else []) + rest)
  }

  /** An endpoint mentions the query in its path or in its description. */
  predicate EndpointMentions(e: EndpointConfig, q: string)
  {
    Contains(Lower(e.path), q) || (e.description.Some? && Contains(Lower(e.description.value), q))
  }

  /** The reference reading of the query filter: some field of the API or of one of its endpoints contains the query. */
  predicate Mentions(api: ApiConfig, q: string)
  {
    Contains(Lower(api.name), q) || Contains(Lower(api.description), q) || KeywordMatches(api, q) ||
    exists j :: 0 <= j < |api.endpoints| && EndpointMentions(api.endpoints[j], q)
  }

  predicate Described(api: ApiConfig)
  {
    forall j :: 0 <= j < |api.endpoints| ==> api.endpoints[j].description.Some?
  }

  lemma {:induction false} EndpointsMatchSpec(eps: seq<EndpointConfig>, q: string)
    requires forall j :: 0 <= j < |eps| ==> eps[j].description.Some?
    ensures EndpointsMatch(eps, q) == Ok(exists j :: 0 <= j < |eps| && EndpointMentions(eps[j], q))
  {
    if |eps| > 0 {
      EndpointsMatchSpec(eps[1..], q);
      if !EndpointMentions(eps[0], q) {
        if exists j :: 0 <= j < |eps| && EndpointMentions(eps[j], q) {
          var j :| 0 <= j < |eps| && EndpointMentions(eps[j], q);
          assert eps[1..][j - 1] == eps[j];
        }
        if exists j :: 0 <= j < |eps[1..]| && EndpointMentions(eps[1..][j], q) {
          var j :| 0 <= j < |eps[1..]| && EndpointMentions(eps[1..][j], q);
          assert eps[j + 1] == eps[1..][j];
        }
      }
    }
  }

  /** When every endpoint has a description, the query filter raises nothing and keeps exactly the APIs that mention the query. */
  lemma {:induction false} ByQuerySpec(apis: seq<ApiConfig>, q: string)
    requires forall i :: 0 <= i < |apis| ==> Described(apis[i])
    ensures ByQuery(apis, q) == Ok(Filter(apis, a => Mentions(a, q)))
  {
    if |apis| > 0 {
      EndpointsMatchSpec(apis[0].endpoints, q);
      ByQuerySpec(apis[1..], q);
    }
  }

  /** An error of the query filter comes from an endpoint without a description. */
  lemma {:induction false} ByQueryError(apis: seq<ApiConfig>, q: string)
    requires ByQuery(apis, q).Err?
    ensures exists i :: 0 <= i < |apis| && !Described(apis[i])
  {
    if QueryMatches(apis[0], q).Err? {
      if Described(apis[0]) {
        EndpointsMatchSpec(apis[0].endpoints, q);
      }
    } else {
      ByQueryError(apis[1..], q);
      var i :| 0 <= i < |apis[1..]| && !Described(apis[1..][i]);
      assert apis[i + 1] == apis[1..][i];
    }
  }

  /**
   * The end index of `slice(0, limit)`: no limit is the whole length; otherwise
   * the limit converted to an integer, where NaN counts as 0, a negative one is
   * counted back from the end, and no more than the length is taken.
   */
  function SliceEnd(limit: Value, len: nat): (r: nat)
    ensures r <= len
    ensures limit.Undefined? ==> r == len
    ensures !limit.Undefined? && ToInteger(limit).None? ==> r == 0
    ensures ToInteger(limit).Some? && ToInteger(limit).value >= 0 ==> r == Min(ToInteger(limit).value, len)
    ensures ToInteger(limit).Some? && ToInteger(limit).value < 0 ==> r + Min(-ToInteger(limit).value, len) == len
  {
    if limit.Undefined? then len
    else
      var n := ToInteger(limit).GetOr(0);
      if n < 0 then (if len + n < 0 then 0 else len + n)
      else if n < len then n
      else len
  }

  /** Both filters of `execute`, in order, before the limit: the type, then the query. */
  function Filtered(all: seq<ApiConfig>, query: Value, t: Value): Result<seq<ApiConfig>>
  {
    var byType: Result<seq<ApiConfig>> :=
      if !Truthy(t) then Ok(all)
      else if |all| == 0 then Ok([])
      else if !t.Str? then Err(NotAFunction("type.toLowerCase"))
      else Ok(Filter(all, a => TypeMatches(a, t.s)));
    if byType.Err? then Err(byType.msg)
    else if !Truthy(query) then Ok(byType.value)
    else if !query.Str? then Err(NotAFunction("query.toLowerCase"))
    else ByQuery(byType.value, Lower(query.s))
  }

  /** The list the tool returns, before it describes it. */
  function Selected(all: seq<ApiConfig>, query: Value, t: Value, limit: Value): Result<seq<ApiConfig>>
  {
    match Filtered(all, query, t)
    case Err(m) => Err(m)
    case Ok(f) => Ok(f[..SliceEnd(limit, |f|)])
  }

  function EndpointView(e: EndpointConfig): Value
  {
    Obj([("path", Str(e.path)),
         ("description", if e.description.Some? then Str(e.description.value) else Undefined),
         ("method", Str(e.httpMethod))])
  }

  function ApiView(api: ApiConfig): Value
  {
    Obj([("id", Str(api.id)), ("name", Str(api.name)), ("description", Str(api.description)),
         ("type", Str(api.apiType)), ("baseUrl", Str(api.baseUrl)),
         ("endpoints", Arr(seq(|api.endpoints|, j requires 0 <= j < |api.endpoints| => EndpointView(api.endpoints[j]))))])
  }

  /** The success record of `execute`; the timestamp is not modelled. */
  function Answer(all: seq<ApiConfig>, results: seq<ApiConfig>, query: Value): Value
  {
    Obj([("success", Bool(true)), ("count", Num(|results|)), ("total", Num(|all|)),
         ("apis", Arr(seq(|results|, i requires 0 <= i < |results| => ApiView(results[i])))),
         ("metadata", Obj([("query", query)]))])
  }

  /** The record `execute` resolves to, or the message of the error it caught. */
  function Run(es: Registry.Entries, args: Value): Result<Value>
  {
    if args.Undefined? || args.Null? then Err(DestructureError("query", args))
    else
      var all := OM.Values(es);
      var query := Get(args, "query");
      match Selected(all, query, Get(args, "type"), OrDefault(Get(args, "limit"), Num(DefaultLimit)))
      case Err(m) => Err(m)
      case Ok(results) => Ok(Answer(all, results, query))
  }

  /** `execute(args)`: the caught Error serialises as `{}`. */
  function Execute(es: Registry.Entries, args: Value): Value
  {
    match Run(es, args)
    case Ok(v) => v
    case Err(_) => Obj([("success", Bool(false)), ("error", Obj([]))])
  }

  /**
   * Every selected API is registered and passes both filters that were asked
   * for; the selection is the filtered list cut at the end index of the limit,
   * so a non-negative limit `k` keeps the first `k` and the default limit at most 10.
   */
  lemma SelectedSpec(all: seq<ApiConfig>, query: Value, t: Value, limit: Value, api: ApiConfig)
    requires Selected(all, query, t, limit).Ok?
    ensures var r := Selected(all, query, t, limit).value;
      (api in r ==> api in all) &&
      (api in r && Truthy(t) ==> TypeMatches(api, t.s)) &&
      (api in r && Truthy(query) && Described(api) ==> Mentions(api, Lower(query.s))) &&
      (limit.Num? && limit.n >= 0 ==> |r| <= limit.n) &&
      (limit == Num(DefaultLimit) ==> |r| <= 10)
    ensures Filtered(all, query, t).Ok?
    ensures var f := Filtered(all, query, t).value;
      Selected(all, query, t, limit).value == f[..SliceEnd(limit, |f|)] &&
      (limit.Num? && limit.n >= 0 ==> |Selected(all, query, t, limit).value| == Min(limit.n, |f|))
  {
    var f := Filtered(all, query, t).value;
    FilteredSpec(all, query, t, api);
    var r := Selected(all, query, t, limit).value;
    assert r == f[..SliceEnd(limit, |f|)];
    if api in r {
      assert api in f;
    }
  }

  /**
   * What the filters keep is registered and passes each filter asked for; a
   * registered API whose endpoints all have descriptions is kept exactly when
   * it passes them.
   */
  lemma FilteredSpec(all: seq<ApiConfig>, query: Value, t: Value, api: ApiConfig)
    requires Filtered(all, query, t).Ok?
    ensures api in Filtered(all, query, t).value ==> api in all
    ensures api in Filtered(all, query, t).value && Truthy(t) ==> TypeMatches(api, t.s)
    ensures api in Filtered(all, query, t).value && Truthy(query) && Described(api) ==> Mentions(api, Lower(query.s))
    ensures api in all && Described(api) ==>
      (api in Filtered(all, query, t).value <==>
        (!Truthy(t) || TypeMatches(api, t.s)) && (!Truthy(query) || Mentions(api, Lower(query.s))))
  {
    var byType := if !Truthy(t) then all else if |all| == 0 then [] else Filter(all, a => TypeMatches(a, t.s));
    if Truthy(t) && |all| > 0 {
      FilterSpec(all, a => TypeMatches(a, t.s), api);
    }
    if Truthy(query) {
      if api in Filtered(all, query, t).value {
        ByQueryKeeps(byType, Lower(query.s), api);
      }
      if api in byType && Described(api) && Mentions(api, Lower(query.s)) {
        ByQueryKeepsMentioned(byType, Lower(query.s), api);
      }
    }
  }

  /** A described API that mentions the query is not dropped by a query filter that raises nothing. */
  lemma {:induction false} ByQueryKeepsMentioned(apis: seq<ApiConfig>, q: string, api: ApiConfig)
    requires ByQuery(apis, q).Ok? && api in apis && Described(api) && Mentions(api, q)
    ensures api in ByQuery(apis, q).value
  {
    if api == apis[0] {
      EndpointsMatchSpec(api.endpoints, q);
      assert QueryMatches(api, q) == Ok(true);
    } else {
      ByQueryKeepsMentioned(apis[1..], q, api);
    }
  }

  /** A limit given as the text of a number, or as that number alone in an array, selects as the number itself does. */
  lemma LimitConversions(all: seq<ApiConfig>, query: Value, t: Value, n: int)
    ensures Selected(all, query, t, Str(IntStr(n))) == Selected(all, query, t, Num(n))
    ensures Selected(all, query, t, Str(" " + IntStr(n) + " ")) == Selected(all, query, t, Num(n))
    ensures Selected(all, query, t, Arr([Num(n)])) == Selected(all, query, t, Num(n))
    ensures Selected(all, query, t, Null) == Selected(all, query, t, Num(0))
  {
    ToIntegerSpec(n);
    SameLimit(all, query, t, Str(IntStr(n)), Num(n));
    SameLimit(all, query, t, Str(" " + IntStr(n) + " "), Num(n));
    SameLimit(all, query, t, Arr([Num(n)]), Num(n));
    SameLimit(all, query, t, Null, Num(0));
  }

  /** Two limits that convert to the same integer select the same APIs. */
  lemma SameLimit(all: seq<ApiConfig>, query: Value, t: Value, a: Value, b: Value)
    requires !a.Undefined? && !b.Undefined? && ToInteger(a) == ToInteger(b)
    ensures Selected(all, query, t, a) == Selected(all, query, t, b)
  {
    forall len: nat
      ensures SliceEnd(a, len) == SliceEnd(b, len)
    {
    }
  }

  /** What the query filter keeps comes from its input and, when described, mentions the query. */
  lemma {:induction false} ByQueryKeeps(apis: seq<ApiConfig>, q: string, api: ApiConfig)
    requires ByQuery(apis, q).Ok? && api in ByQuery(apis, q).value
    ensures api in apis
    ensures Described(api) ==> Mentions(api, q)
  {
    var keep := QueryMatches(apis[0], q).value;
    if keep && api == apis[0] {
      if Described(api) {
        EndpointsMatchSpec(api.endpoints, q);
      }
    } else {
      ByQueryKeeps(apis[1..], q, api);
    }
  }

  /** Without a type or a query, the first `limit` registered APIs come back in order, active or not. */
  lemma NoFilterPrefix(all: seq<ApiConfig>, query: Value, t: Value, n: nat)
    requires !Truthy(query) && !Truthy(t)
    ensures Selected(all, query, t, Num(n)) == Ok(all[..Min(n, |all|)])
  {
  }

  /** A negative limit is not clamped: it drops that many APIs from the end. */
  lemma NegativeLimit(all: seq<ApiConfig>, query: Value, t: Value, n: int)
    requires !Truthy(query) && !Truthy(t) && -|all| <= n < 0
    ensures Selected(all, query, t, Num(n)) == Ok(all[..|all| + n])
  {
  }

  /** The record counts what it returns and reports the size of the whole registry. */
  lemma AnswerCounts(es: Registry.Entries, args: Value)
    requires Run(es, args).Ok?
    ensures Get(Run(es, args).value, "success") == Bool(true)
    ensures Get(Run(es, args).value, "total") == Num(|es|)
    ensures Get(Run(es, args).value, "count") ==
      Num(|Selected(OM.Values(es), Get(args, "query"), Get(args, "type"),
                    OrDefault(Get(args, "limit"), Num(DefaultLimit))).value|)
  {
    var all := OM.Values(es);
    var results := Selected(all, Get(args, "query"), Get(args, "type"), OrDefault(Get(args, "limit"), Num(DefaultLimit))).value;
    var r := Answer(all, results, Get(args, "query"));
    assert Run(es, args).value == r;
    assert Get(r, "count") == Lookup(r.fields[1..], "count");
    var fs := r.fields;
    assert fs[1..][1..][0] == ("total", Num(|all|));
    assert Lookup(fs[1..], "total") == Lookup(fs[1..][1..], "total");
  }

  /** `getToolInfo`. */
  const ToolInfo: Value := Obj([
    ("name", Str("api_discovery")),
    ("description", Str("Descubrir APIs disponibles basado en consultas")),
    ("inputSchema", Obj([
      ("type", Str("object")),
      ("properties", Obj([
        ("query", Obj([("type", Str("string")), ("description", Str("Consulta para buscar APIs (ej: \"usuarios\", \"activos\")"))])),
        ("type", Obj([("type", Str("string")), ("description", Str("Filtrar por tipo de API"))])),
        ("limit", Obj([("type", Str("number")), ("description", Str("Límite de resultados")), ("default", Num(10))]))]))]))])
}
