/**
 * The health service: a cache from API id to its latest health status,
 * refreshed for every registered API on each round of checks.
 */
module Health {
  import opened Common
  import opened ApiTypes
  import opened Service
  import Registry
  import OM = OrderedMap

  type Cache = seq<(string, ApiStatus)>

  /** The cache after recording each status under its API id, in order. */
  function Record(c: Cache, ss: seq<ApiStatus>): Cache
    decreases |ss|
  {
    if |ss| == 0 then c else Record(OM.Put(c, ss[0].id, ss[0]), ss[1..])
  }

  /** The status recorded last for `id`, if any. */
  function LastFor(ss: seq<ApiStatus>, id: string): (r: Option<ApiStatus>)
    ensures r.Some? ==> r.value.id == id && r.value in ss
  {
    if |ss| == 0 then None
    else if LastFor(ss[1..], id).Some? then LastFor(ss[1..], id)
    else if ss[0].id == id then Some(ss[0])
    else None
  }

  /**
   * After a round, every id checked reads back its latest status, every other
   * id reads as before, and nothing is removed: the old keys keep their order
   * and new ids follow them.
   */
  lemma {:induction false} RecordSpec(c: Cache, ss: seq<ApiStatus>, id: string)
    requires OM.DistinctKeys(c)
    ensures OM.DistinctKeys(Record(c, ss))
    ensures LastFor(ss, id).Some? ==> OM.Get(Record(c, ss), id) == LastFor(ss, id)
    ensures LastFor(ss, id).None? ==> OM.Get(Record(c, ss), id) == OM.Get(c, id)
    ensures OM.Keys(c) <= OM.Keys(Record(c, ss))
    decreases |ss|
  {
    if |ss| > 0 {
      var c1 := OM.Put(c, ss[0].id, ss[0]);
      OM.PutGet(c, ss[0].id, ss[0], id);
      OM.PutKeys(c, ss[0].id, ss[0]);
      RecordSpec(c1, ss[1..], id);
    }
  }

  /** Each status is the latest for its id when the ids are distinct, as they are for a registry. */
  lemma {:induction false} LastForDistinct(ss: seq<ApiStatus>, i: nat)
    requires i < |ss|
    requires forall a, b :: 0 <= a < b < |ss| ==> ss[a].id != ss[b].id
    ensures LastFor(ss, ss[i].id) == Some(ss[i])
  {
    if i == 0 {
      LastForAbsent(ss[1..], ss[0].id);
    } else {
      LastForDistinct(ss[1..], i - 1);
    }
  }

  lemma {:induction false} LastForAbsent(ss: seq<ApiStatus>, id: string)
    requires forall a :: 0 <= a < |ss| ==> ss[a].id != id
    ensures LastFor(ss, id).None?
  {
    if |ss| > 0 {
      LastForAbsent(ss[1..], id);
    }
  }

  lemma {:induction false} LastForSome(ss: seq<ApiStatus>, i: nat)
    requires i < |ss|
    ensures LastFor(ss, ss[i].id).Some? && LastFor(ss, ss[i].id).value.id == ss[i].id
  {
    if i > 0 {
      assert ss[1..][i - 1] == ss[i];
      LastForSome(ss[1..], i - 1);
    }
  }

  /** After a round, the cache holds a status for every registered API, which is that API's own status when ids are distinct. */
  lemma RoundCovers(c: Cache, es: Registry.Entries, apis: seq<ApiConfig>, fetch: Request -> FetchOutcome, i: nat)
    requires OM.DistinctKeys(c) && i < |apis|
    ensures OM.Has(Record(c, StatusesOf(es, apis, fetch)), apis[i].id)
    ensures (forall a, b :: 0 <= a < b < |apis| ==> apis[a].id != apis[b].id) ==>
      OM.Get(Record(c, StatusesOf(es, apis, fetch)), apis[i].id) == Some(StatusOf(es, apis[i], fetch))
  {
    var ss := StatusesOf(es, apis, fetch);
    LastForSome(ss, i);
    RecordSpec(c, ss, apis[i].id);
    if forall a, b :: 0 <= a < b < |apis| ==> apis[a].id != apis[b].id {
      LastForDistinct(ss, i);
    }
  }

  class HealthService {
    const apiService: ApiService
    /** The `healthStatuses` map. */
    var cache: Cache

    ghost predicate Valid()
      reads this
    {
      OM.DistinctKeys(cache)
    }

    /** Built with the first round of checks; the periodic rounds are further calls of `CheckAllAPIsHealth`. */
    constructor (apiService: ApiService, fetch: Request -> FetchOutcome)
      ensures Valid()
      ensures this.apiService == apiService
      ensures cache == Record([], StatusesOf(apiService.registry.entries, apiService.GetAllAPIs(), fetch))
    {
      this.apiService := apiService;
      cache := [];
      new;
      var _ := CheckAllAPIsHealth(fetch);
    }

    /** One round: one status per registered API in registry order, each recorded in the cache. */
    method CheckAllAPIsHealth(fetch: Request -> FetchOutcome) returns (statuses: seq<ApiStatus>)
      requires Valid()
      modifies this
      ensures Valid()
      ensures statuses == StatusesOf(apiService.registry.entries, apiService.GetAllAPIs(), fetch)
      ensures cache == Record(old(cache), statuses)
    {
      var apis := apiService.GetAllAPIs();
      var es := apiService.registry.entries;
      ghost var c0 := cache;
      statuses := [];
      var i := 0;
      while i < |apis|
        invariant 0 <= i <= |apis|
        invariant Valid()
        invariant statuses == StatusesOf(es, apis[..i], fetch)
        invariant cache == Record(c0, statuses)
      {
        var status := StatusOf(es, apis[i], fetch);
        StatusesStep(es, apis, fetch, i);
        RecordStep(c0, statuses, status);
        OM.PutKeys(cache, status.id, status);
        cache := OM.Put(cache, status.id, status);
        statuses := statuses + [status];
        i := i + 1;
      }
      assert apis[..i] == apis;
    }

    function GetAPIHealth(apiId: string): Option<ApiStatus>
      reads this
    {
      OM.Get(cache, apiId)
    }

    function GetAllHealthStatuses(): seq<ApiStatus>
      reads this
    {
      OM.Values(cache)
    }
  }

  lemma {:induction false} RecordStep(c: Cache, ss: seq<ApiStatus>, s: ApiStatus)
    ensures Record(c, ss + [s]) == OM.Put(Record(c, ss), s.id, s)
    decreases |ss|
  {
    if |ss| > 0 {
      assert (ss + [s])[1..] == ss[1..] + [s];
      RecordStep(OM.Put(c, ss[0].id, ss[0]), ss[1..], s);
    }
  }
}
