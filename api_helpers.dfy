/**
 * Helpers over registered APIs: finding the API a free-text query is about,
 * checking that a configuration has its required fields, and reading a
 * health report.
 */
module ApiHelpers {
  import opened Common
  import opened Strs
  import opened Js
  import opened ApiTypes

  /** A keyword of the API, lower-cased, occurs in the lower-cased query. */
  predicate ByKeyword(api: ApiConfig, lowerQuery: string)
  {
    exists i :: 0 <= i < |api.keywords| && Contains(lowerQuery, Lower(api.keywords[i]))
  }

  /** A synonym of the API, lower-cased, occurs in the lower-cased query. */
  predicate BySynonym(api: ApiConfig, lowerQuery: string)
  {
    exists i :: 0 <= i < |api.synonyms| && Contains(lowerQuery, Lower(api.synonyms[i]))
  }

  /** The lower-cased query occurs in the API's lower-cased name or description. */
  predicate ByText(api: ApiConfig, lowerQuery: string)
  {
    Contains(Lower(api.name), lowerQuery) || Contains(Lower(api.description), lowerQuery)
  }

  predicate Matches(api: ApiConfig, lowerQuery: string)
  {
    ByKeyword(api, lowerQuery) || BySynonym(api, lowerQuery) || ByText(api, lowerQuery)
  }

  /** The search over the lower-cased query, API by API. */
  function FirstMatch(apis: seq<ApiConfig>, lowerQuery: string): (r: Option<ApiConfig>)
    ensures r.None? <==> forall j :: 0 <= j < |apis| ==> !Matches(apis[j], lowerQuery)
    ensures r.Some? ==>
      exists j :: 0 <= j < |apis| && apis[j] == r.value && Matches(r.value, lowerQuery) &&
        (forall k :: 0 <= k < j ==> !Matches(apis[k], lowerQuery))
  {
    if |apis| == 0 then None
    else if Matches(apis[0], lowerQuery) then Some(apis[0])
    else
      var r := FirstMatch(apis[1..], lowerQuery);
      if r.Some? then
        var j :| 0 <= j < |apis[1..]| && apis[1..][j] == r.value && Matches(r.value, lowerQuery) &&
          (forall k :: 0 <= k < j ==> !Matches(apis[1..][k], lowerQuery));
        assert apis[j + 1] == r.value;
        assert forall k :: 0 <= k < j + 1 ==> !Matches(apis[k], lowerQuery) by {
          forall k | 0 <= k < j + 1 ensures !Matches(apis[k], lowerQuery) {
            if k > 0 { assert apis[k] == apis[1..][k - 1]; }
          }
        }
        r
      else
        assert forall j :: 1 <= j < |apis| ==> apis[j] == apis[1..][j - 1];
        r
  }

  /** `findRelevantAPI(apis, query)`; `None` is the `null` it returns when nothing matches. */
  function FindRelevantAPI(apis: seq<ApiConfig>, query: string): Option<ApiConfig>
  {
    FirstMatch(apis, Lower(query))
  }

  /**
   * The order of the APIs decides, not the order of the tests: the first API
   * passing any test wins, whichever test it passes.
   */
  lemma FindRelevantFirst(apis: seq<ApiConfig>, query: string, j: nat)
    requires j < |apis| && Matches(apis[j], Lower(query))
    requires forall k :: 0 <= k < j ==> !Matches(apis[k], Lower(query))
    ensures FindRelevantAPI(apis, query) == Some(apis[j])
  {
    var r := FindRelevantAPI(apis, query);
    var i :| 0 <= i < |apis| && apis[i] == r.value && Matches(r.value, Lower(query)) &&
      (forall k :: 0 <= k < i ==> !Matches(apis[k], Lower(query)));
    assert !(i < j) && !(j < i);
  }

  /** An empty query occurs in every name, so the first API is found. */
  lemma EmptyQueryFindsFirst(apis: seq<ApiConfig>)
    requires |apis| > 0
    ensures FindRelevantAPI(apis, "") == Some(apis[0])
  {
    ContainsEmpty(Lower(apis[0].name));
    FindRelevantFirst(apis, "", 0);
  }

  /** The members `validateAPIConfig` requires. */
  const RequiredFields: seq<string> := ["id", "name", "baseUrl", "description"]

  /** `validateAPIConfig(config)`: every required member truthy; reading a member of `undefined` or `null` throws. */
  function ValidateAPIConfig(config: Value): Result<bool>
  {
    if config.Undefined? || config.Null? then Err(ReadPropertyError("id", config))
    else Ok(forall i :: 0 <= i < |RequiredFields| ==> Truthy(Get(config, RequiredFields[i])))
  }

  /** A configuration is valid exactly when its id, name, base URL and description are all truthy. */
  lemma ValidateAPIConfigSpec(config: Value)
    requires !config.Undefined? && !config.Null?
    ensures ValidateAPIConfig(config) == Ok(Truthy(Get(config, "id")) && Truthy(Get(config, "name")) &&
      Truthy(Get(config, "baseUrl")) && Truthy(Get(config, "description")))
  {
    var b := Truthy(Get(config, "id")) && Truthy(Get(config, "name")) &&
      Truthy(Get(config, "baseUrl")) && Truthy(Get(config, "description"));
    assert RequiredFields[0] == "id" && RequiredFields[1] == "name";
    assert RequiredFields[2] == "baseUrl" && RequiredFields[3] == "description";
    if b {
      assert forall i :: 0 <= i < |RequiredFields| ==> Truthy(Get(config, RequiredFields[i]));
    }
  }

  /** `isAPIHealthy(healthStatus)`: a falsy report is returned as it is, any other gives the comparison. */
  function IsAPIHealthy(healthStatus: Value): Value
  {
    if !Truthy(healthStatus) then healthStatus
    else Bool(Get(healthStatus, "status") == Str("healthy"))
  }

  /** The result is truthy exactly when the report is an object whose status is "healthy". */
  lemma IsAPIHealthySpec(healthStatus: Value)
    ensures Truthy(IsAPIHealthy(healthStatus)) <==> healthStatus.Obj? && Get(healthStatus, "status") == Str("healthy")
  {
  }
}
