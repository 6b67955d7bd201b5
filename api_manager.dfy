/**
 * The API manager (`services/api/apiManager.ts`): the guards of `queryAPI`
 * in front of the query client, and the rule-based `analyzeQuestion`. The
 * configuration lookup (with its Swagger discovery) is a parameter.
 */
module ApiManager {
  import opened Common
  import opened Strs
  import opened Js
  import opened ApiTypes
  import opened ApiQuery

  /** `getAPI(apiId)`: the configuration of an id, or null. */
  type Configs = string -> Option<ApiConfig>

  /** `queryAPI(apiId, endpointPath, params = {})`; the manager's own failures are plain errors. */
  method QueryAPI(getAPI: Configs, apiId: string, endpointPath: string, params: Value,
                  encode: string -> string, fetch: Fetch) returns (r: Result<Answer>)
    ensures getAPI(apiId).None? ==> r == Err("API " + apiId + " no encontrada")
    ensures getAPI(apiId).Some? && getAPI(apiId).value.baseUrl == "" ==>
      r == Err("API " + apiId + " no tiene baseUrl configurada")
    ensures getAPI(apiId).Some? && getAPI(apiId).value.baseUrl != "" ==>
      r == Ok(Requested(getAPI(apiId).value, endpointPath, params, encode, fetch))
  {
    var api := getAPI(apiId);
    if api.None? {
      return Err("API " + apiId + " no encontrada");
    }
    if api.value.baseUrl == "" {
      return Err("API " + apiId + " no tiene baseUrl configurada");
    }
    var answer := QueryEndpoint(api, endpointPath, params, encode, fetch);
    return Ok(answer);
  }

  /** The question names the API: its id, or its lower-cased name, occurs in the lower-cased question. */
  predicate Mentioned(api: ApiConfig, lq: string)
  {
    Contains(lq, api.id) || Contains(lq, Lower(api.name))
  }

  /** The id of the first API the question names. */
  function Target(apis: seq<ApiConfig>, lq: string): (r: Option<string>)
    ensures r.None? <==> forall i :: 0 <= i < |apis| ==> !Mentioned(apis[i], lq)
    ensures r.Some? ==> exists i :: (0 <= i < |apis| && Mentioned(apis[i], lq) && apis[i].id == r.value &&
                                     forall k :: 0 <= k < i ==> !Mentioned(apis[k], lq))
  {
    if |apis| == 0 then None
    else if Mentioned(apis[0], lq) then Some(apis[0].id)
    else
      var r := Target(apis[1..], lq);
      assert forall i :: 1 <= i < |apis| ==> apis[i] == apis[1..][i - 1];
      if r.Some? then
        var i :| (0 <= i < |apis| - 1 && Mentioned(apis[1..][i], lq) && apis[1..][i].id == r.value &&
                  forall k :: 0 <= k < i ==> !Mentioned(apis[1..][k], lq));
        assert apis[i + 1] == apis[1..][i];
        r
      else r
  }

  /** One match of `(\w+):\s*([^\s]+)`: the key, the value, where it starts and where it ends. */
  datatype Match = Match(key: string, value: string, start: nat, end: nat)

  predicate NotSpace(c: char)
  {
    !IsSpace(c)
  }

  /** The match starting at `p`, if any; both runs are greedy, and no backtracking can give another. */
  function MatchAt(s: string, p: nat): (r: Option<Match>)
    requires p <= |s|
    ensures r.Some? ==> r.value.start == p && p < r.value.end <= |s|
  {
    if p < |s| && IsWordChar(s[p]) then
      var we := RunEnd(s, p, IsWordChar);
      if we < |s| && s[we] == ':' then
        var vs := RunEnd(s, we + 1, IsSpace);
        if vs < |s| then
          var ve := RunEnd(s, vs, NotSpace);
          Some(Match(s[p..we], s[vs..ve], p, ve))
        else None
      else None
    else None
  }

  /** A match is a key of word characters, a colon, optional spaces and a value with no space. */
  lemma MatchAtShape(s: string, p: nat)
    requires p <= |s| && MatchAt(s, p).Some?
    ensures var m := MatchAt(s, p).value;
      m.key != [] && (forall c :: c in m.key ==> IsWordChar(c)) &&
      m.value != [] && (forall c :: c in m.value ==> !IsSpace(c)) &&
      s[p..p + |m.key|] == m.key && s[p + |m.key|] == ':' && s[m.end - |m.value|..m.end] == m.value &&
      forall k :: p + |m.key| < k < m.end - |m.value| ==> IsSpace(s[k])
  {
  }

  /** `paramRegex.exec(question)` from `lastIndex`: the leftmost match at or after it. */
  function Exec(s: string, from: nat): (r: Option<Match>)
    requires from <= |s|
    ensures r.Some? ==> from <= r.value.start < r.value.end <= |s| && MatchAt(s, r.value.start) == r
    ensures r.Some? ==> forall j :: from <= j < r.value.start ==> MatchAt(s, j).None?
    ensures r.None? ==> forall j :: from <= j <= |s| ==> MatchAt(s, j).None?
    decreases |s| - from
  {
    if MatchAt(s, from).Some? then MatchAt(s, from)
    else if from == |s| then None
    else Exec(s, from + 1)
  }

  /** The successive matches of the global regular expression, from `from` on. */
  function Matches(s: string, from: nat): seq<(string, string)>
    requires from <= |s|
    decreases |s| - from
  {
    match Exec(s, from)
    case None => []
    case Some(m) => [(m.key, m.value)] + Matches(s, m.end)
  }

  /** The `parameters` record: each match written in turn. */
  function Parameters(question: string): seq<(string, string)>
  {
    MergeHeaders([], Matches(question, 0))
  }

  /**
   * A key reads the value of its last occurrence among the matches, so a
   * later `key: value` pair overwrites an earlier one; other keys are absent.
   */
  lemma ParametersLast(question: string, k: string)
    ensures HeaderValue(Parameters(question), k) == LastValue(Matches(question, 0), k)
  {
    MergeHeadersValue([], Matches(question, 0), k);
  }

  /** What `analyzeQuestion` returns; the confidence is counted in tenths. */
  datatype Analysis = Analysis(intent: string, targetAPI: Option<string>, endpoint: Option<string>,
                               parameters: seq<(string, string)>, confidence: nat)

  predicate AsksCount(lq: string)
  {
    Contains(lq, "cuántos") || Contains(lq, "cantidad")
  }

  predicate AsksDocs(lq: string)
  {
    Contains(lq, "documentación") || Contains(lq, "docs")
  }

  /**
   * `analyzeQuestion(question)` over the configured APIs: the first API the
   * question names is the target (+2 tenths), a count question (+1) and a
   * documentation question (+1, and it wins) set the intent, and the
   * parameters are the `key: value` pairs of the original question. The
   * endpoint is never set.
   */
  method AnalyzeQuestion(apis: seq<ApiConfig>, question: string) returns (a: Analysis)
    ensures a.targetAPI == Target(apis, Lower(question))
    ensures a.endpoint == None
    ensures a.intent == (if AsksDocs(Lower(question)) then "documentation"
                         else if AsksCount(Lower(question)) then "count" else "query")
    ensures a.confidence == 5 + (if a.targetAPI.Some? then 2 else 0) + (if AsksCount(Lower(question)) then 1 else 0) +
                            (if AsksDocs(Lower(question)) then 1 else 0)
    ensures 5 <= a.confidence <= 9
    ensures a.parameters == Parameters(question)
  {
    var lowerQuestion := Lower(question);
    var intent := "query";
    var confidence := 5;
    var targetAPI := FindTarget(apis, lowerQuestion);
    if targetAPI.Some? {
      confidence := confidence + 2;
    }
    if Contains(lowerQuestion, "cuántos") || Contains(lowerQuestion, "cantidad") {
      intent := "count";
      confidence := confidence + 1;
    }
    if Contains(lowerQuestion, "documentación") || Contains(lowerQuestion, "docs") {
      intent := "documentation";
      confidence := confidence + 1;
    }
    var parameters := ExtractParameters(question);
    a := Analysis(intent, targetAPI, None, parameters, confidence);
  }

  /** The loop over the APIs that stops at the first one the question names. */
  method FindTarget(apis: seq<ApiConfig>, lowerQuestion: string) returns (targetAPI: Option<string>)
    ensures targetAPI == Target(apis, lowerQuestion)
  {
    targetAPI := None;
    var i := 0;
    while i < |apis|
      invariant 0 <= i <= |apis|
      invariant forall k :: 0 <= k < i ==> !Mentioned(apis[k], lowerQuestion)
    {
      if Contains(lowerQuestion, apis[i].id) || Contains(lowerQuestion, Lower(apis[i].name)) {
        targetAPI := Some(apis[i].id);
        var t := Target(apis, lowerQuestion);
        var j :| (0 <= j < |apis| && Mentioned(apis[j], lowerQuestion) && apis[j].id == t.value &&
                  forall k :: 0 <= k < j ==> !Mentioned(apis[k], lowerQuestion));
        assert j == i;
        return;
      }
      i := i + 1;
    }
  }

  /** The `while ((match = paramRegex.exec(question)) !== null)` loop writing into `parameters`. */
  method ExtractParameters(question: string) returns (parameters: seq<(string, string)>)
    ensures parameters == Parameters(question)
  {
    parameters := [];
    var pos: nat := 0;
    var m := Exec(question, pos);
    while m.Some?
      invariant pos <= |question|
      invariant m == Exec(question, pos)
      invariant MergeHeaders(parameters, Matches(question, pos)) == Parameters(question)
      decreases |question| - pos
    {
      var x := m.value;
      MergeStep(parameters, x.key, x.value, Matches(question, x.end));
      parameters := SetHeader(parameters, x.key, x.value);
      pos := x.end;
      m := Exec(question, pos);
    }
  }

  /** Writing one pair and then the rest is writing them all. */
  lemma MergeStep(p: seq<(string, string)>, k: string, v: string, rest: seq<(string, string)>)
    ensures MergeHeaders(p, [(k, v)] + rest) == MergeHeaders(SetHeader(p, k, v), rest)
  {
    assert ([(k, v)] + rest)[1..] == rest;
  }
}
