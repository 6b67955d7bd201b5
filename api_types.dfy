/** The descriptors of registered APIs and their endpoints, shared by the registry, the providers and the documenters. */
module ApiTypes {
  import opened Common
  import opened Js

  /** A declared endpoint parameter; `location` is the OpenAPI `in` field. */
  datatype ParamConfig = ParamConfig(
    name: string,
    paramType: Option<string>,
    required: Option<bool>,
    description: Option<string>,
    location: Option<string>)

  datatype EndpointConfig = EndpointConfig(
    path: string,
    httpMethod: string,
    description: Option<string>,
    parameters: Option<seq<ParamConfig>>,
    responseSchema: Value)

  /** The `authentication` block: its kind (bearer, apiKey, oauth2, ...) and its optional members. */
  datatype Auth = Auth(
    kind: string,
    token: Option<string>,
    key: Option<string>,
    value: Option<string>,
    tokenUrl: Option<string>,
    scopes: Value)

  datatype ApiConfig = ApiConfig(
    id: string,
    name: string,
    baseUrl: string,
    description: string,
    apiType: string,
    active: Option<bool>,
    endpoints: seq<EndpointConfig>,
    keywords: seq<string>,
    synonyms: seq<string>,
    headers: seq<(string, string)>,
    healthEndpoint: Option<string>,
    auth: Option<Auth>)

  /** `api.active` read as a condition: an unset flag is falsy. */
  predicate IsActive(api: ApiConfig)
  {
    api.active == Some(true)
  }

  /** A template literal of an optional string: a missing one prints "undefined". */
  function OptText(s: Option<string>): string
  {
    if s.Some? then s.value else "undefined"
  }

  /** `a || b` on an optional string: a missing or empty string gives way to the fallback. */
  function OrElse(s: Option<string>, fallback: string): string
  {
    if s.Some? && s.value != "" then s.value else fallback
  }

  /** Setting a header keeps the position of an existing name and appends a new one. */
  function SetHeader(h: seq<(string, string)>, k: string, v: string): (r: seq<(string, string)>)
    ensures |r| == |h| || |r| == |h| + 1
  {
    if |h| == 0 then [(k, v)]
    else if h[0].0 == k then [(k, v)] + h[1..]
    else [h[0]] + SetHeader(h[1..], k, v)
  }

  /** The value a header list gives a name: the last binding set for it. */
  function HeaderValue(h: seq<(string, string)>, k: string): Option<string>
  {
    if |h| == 0 then None
    else if h[0].0 == k then Some(h[0].1)
    else HeaderValue(h[1..], k)
  }

  lemma {:induction false} SetHeaderValue(h: seq<(string, string)>, k: string, v: string, other: string)
    ensures HeaderValue(SetHeader(h, k, v), k) == Some(v)
    ensures other != k ==> HeaderValue(SetHeader(h, k, v), other) == HeaderValue(h, other)
  {
    if |h| > 0 && h[0].0 != k {
      SetHeaderValue(h[1..], k, v, other);
    }
  }

  /** `{...base, ...extra}` on string records. */
  function MergeHeaders(base: seq<(string, string)>, extra: seq<(string, string)>): (r: seq<(string, string)>)
    decreases |extra|
  {
    if |extra| == 0 then base
    else MergeHeaders(SetHeader(base, extra[0].0, extra[0].1), extra[1..])
  }

  /** In a merge, the later record wins for every name it sets; other names keep the base value. */
  lemma {:induction false} MergeHeadersValue(base: seq<(string, string)>, extra: seq<(string, string)>, k: string)
    ensures LastValue(extra, k).Some? ==> HeaderValue(MergeHeaders(base, extra), k) == LastValue(extra, k)
    ensures LastValue(extra, k).None? ==> HeaderValue(MergeHeaders(base, extra), k) == HeaderValue(base, k)
    decreases |extra|
  {
    if |extra| > 0 {
      SetHeaderValue(base, extra[0].0, extra[0].1, k);
      MergeHeadersValue(SetHeader(base, extra[0].0, extra[0].1), extra[1..], k);
    }
  }

  /** The value of the last binding of `k`, used when a record lists a name twice. */
  function LastValue(h: seq<(string, string)>, k: string): Option<string>
  {
    if |h| == 0 then None
    else if LastValue(h[1..], k).Some? then LastValue(h[1..], k)
    else if h[0].0 == k then Some(h[0].1)
    else None
  }
}
