/**
 * The keyword search of the language-model service: which endpoints of the
 * registered APIs a question is about, and the answer given when there are
 * none to analyse.
 */
module IaService {
  import opened Common
  import opened Strs
  import opened Js
  import opened ApiTypes

  /** An endpoint as the service collects it: tagged with its API's id, name and base URL. */
  datatype ListedEndpoint = ListedEndpoint(api: string, apiName: string, baseUrl: string, endpoint: EndpointConfig)

  /** The lower-cased text a question's words are looked up in. */
  function SearchText(e: ListedEndpoint): string
  {
    Lower("\n        " + e.endpoint.path + " " + OptText(e.endpoint.description) + " " + e.endpoint.httpMethod +
      " \n        " + e.api + " " + e.apiName + "\n      ")
  }

  /** A word matches when it is longer than three characters and occurs in the search text. */
  predicate Relevant(keywords: seq<string>, e: ListedEndpoint)
  {
    exists k :: 0 <= k < |keywords| && Contains(SearchText(e), keywords[k]) && |keywords[k]| > 3
  }

  /** `findEndpointsByKeywords(question, endpoints)`: the first five relevant endpoints, in their order. */
  function FindEndpointsByKeywords(question: string, endpoints: seq<ListedEndpoint>): seq<ListedEndpoint>
  {
    var keywords := SplitWs(Lower(question));
    Take(Filter(endpoints, e => Relevant(keywords, e)), 5)
  }

  /**
   * At most five endpoints come back, each given and relevant; they are the
   * first of the relevant endpoints in input order, and all of them when there
   * are no more than five.
   */
  lemma FindEndpointsSpec(question: string, endpoints: seq<ListedEndpoint>)
    ensures var keywords := SplitWs(Lower(question));
      var relevant := Filter(endpoints, e => Relevant(keywords, e));
      var r := FindEndpointsByKeywords(question, endpoints);
      |r| <= 5 && r <= relevant &&
      (|relevant| <= 5 ==> r == relevant) &&
      (forall e :: e in r ==> e in endpoints && Relevant(keywords, e))
  {
    var keywords := SplitWs(Lower(question));
    var keep := e => Relevant(keywords, e);
    var relevant := Filter(endpoints, keep);
    var r := FindEndpointsByKeywords(question, endpoints);
    forall e | e in r ensures e in endpoints && Relevant(keywords, e) {
      assert e in relevant;
      FilterSpec(endpoints, keep, e);
    }
  }

  /** A question whose every word has at most three characters finds nothing. */
  lemma ShortWordsFindNothing(question: string, endpoints: seq<ListedEndpoint>)
    requires forall k :: 0 <= k < |SplitWs(Lower(question))| ==> |SplitWs(Lower(question))[k]| <= 3
    ensures FindEndpointsByKeywords(question, endpoints) == []
  {
    var keywords := SplitWs(Lower(question));
    FilterNone(endpoints, e => Relevant(keywords, e));
  }

  /** A word of more than three characters that occurs in the endpoint's path keeps the endpoint among the relevant ones. */
  lemma PathWordRelevant(question: string, e: ListedEndpoint, k: nat)
    requires k < |SplitWs(Lower(question))|
    requires var w := SplitWs(Lower(question))[k]; |w| > 3 && Contains(Lower(e.endpoint.path), w)
    ensures Relevant(SplitWs(Lower(question)), e)
  {
    var w := SplitWs(Lower(question))[k];
    var head := "\n        ";
    var rest := " " + OptText(e.endpoint.description) + " " + e.endpoint.httpMethod +
      " \n        " + e.api + " " + e.apiName + "\n      ";
    assert "\n        " + e.endpoint.path + " " + OptText(e.endpoint.description) + " " + e.endpoint.httpMethod +
      " \n        " + e.api + " " + e.apiName + "\n      " == head + (e.endpoint.path + rest);
    LowerAppend(head, e.endpoint.path + rest);
    LowerAppend(e.endpoint.path, rest);
    ContainsAppendRight(Lower(e.endpoint.path), Lower(rest), w);
    ContainsAppendLeft(Lower(head), Lower(e.endpoint.path) + Lower(rest), w);
  }

  const NoEndpointsAnswer: string := "No se encontraron endpoints relevantes para tu pregunta."

  /**
   * `generateEndpointUsageAnalysis(endpoints, question)`; `modelAnswer` is the
   * text the language model returns for the analysis prompt.
   */
  function EndpointUsageAnalysis(endpoints: seq<ListedEndpoint>, modelAnswer: string): (r: string)
    ensures |endpoints| == 0 ==> r == NoEndpointsAnswer
    ensures |endpoints| > 0 ==> r == modelAnswer
  {
    if |endpoints| == 0 then NoEndpointsAnswer else modelAnswer
  }
}
