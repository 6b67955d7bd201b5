/**
 * The API registry: a `Map` from API id to its descriptor, filled from the
 * configured APIs when the registry is built. Registration never overwrites,
 * an update is a shallow merge kept at the same position, and delete removes
 * one key.
 */
module Registry {
  import opened Common
  import opened ApiTypes
  import OM = OrderedMap

  type Entries = seq<(string, ApiConfig)>

  /** `Partial<APIConfig>`: a member is `Some` when the update object carries it. */
  datatype ApiPatch = ApiPatch(
    id: Option<string>,
    name: Option<string>,
    baseUrl: Option<string>,
    description: Option<string>,
    apiType: Option<string>,
    active: Option<bool>,
    endpoints: Option<seq<EndpointConfig>>,
    keywords: Option<seq<string>>,
    synonyms: Option<seq<string>>,
    headers: Option<seq<(string, string)>>,
    healthEndpoint: Option<string>,
    auth: Option<Auth>)

  /** `{ ...api, ...updates }`: every member the update carries replaces the stored one. */
  function Merge(api: ApiConfig, p: ApiPatch): ApiConfig
  {
    ApiConfig(
      p.id.GetOr(api.id),
      p.name.GetOr(api.name),
      p.baseUrl.GetOr(api.baseUrl),
      p.description.GetOr(api.description),
      p.apiType.GetOr(api.apiType),
      if p.active.Some? then p.active else api.active,
      p.endpoints.GetOr(api.endpoints),
      p.keywords.GetOr(api.keywords),
      p.synonyms.GetOr(api.synonyms),
      p.headers.GetOr(api.headers),
      if p.healthEndpoint.Some? then p.healthEndpoint else api.healthEndpoint,
      if p.auth.Some? then p.auth else api.auth)
  }

  /** `{ ...apiConfig, active: apiConfig.active ?? true }`. */
  function WithDefaultActive(cfg: ApiConfig): ApiConfig
  {
    cfg.(active := Some(cfg.active.GetOr(true)))
  }

  /** `registerAPI`: the new entries and the returned flag. */
  function Register(es: Entries, cfg: ApiConfig): (Entries, bool)
  {
    if OM.Has(es, cfg.id) then (es, false)
    else (OM.Put(es, cfg.id, WithDefaultActive(cfg)), true)
  }

  /** `initializeAPIs`: every configuration registered in order. */
  function RegisterAll(es: Entries, cfgs: seq<ApiConfig>): Entries
    decreases |cfgs|
  {
    if |cfgs| == 0 then es else RegisterAll(Register(es, cfgs[0]).0, cfgs[1..])
  }

  /** `updateAPI`. */
  function Update(es: Entries, id: string, p: ApiPatch): (Entries, bool)
  {
    match OM.Get(es, id)
    case None => (es, false)
    case Some(api) => (OM.Put(es, id, Merge(api, p)), true)
  }

  /** `deleteAPI`. */
  function Delete(es: Entries, id: string): (Entries, bool)
  {
    if !OM.Has(es, id) then (es, false) else (OM.Remove(es, id), true)
  }

  /** `getActiveAPIs`: the stored descriptors whose `active` flag is set, in insertion order. */
  function ActiveOf(apis: seq<ApiConfig>): seq<ApiConfig>
  {
    Filter(apis, IsActive)
  }

  /**
   * Registration never overwrites: an existing id yields false and no change;
   * a new id yields true and is stored last with `active` defaulted to true only
   * when it was unset. Other ids read as before and keys stay distinct.
   */
  lemma RegisterSpec(es: Entries, cfg: ApiConfig, other: string)
    requires OM.DistinctKeys(es)
    ensures Register(es, cfg).1 <==> !OM.Has(es, cfg.id)
    ensures !Register(es, cfg).1 ==> Register(es, cfg).0 == es
    ensures Register(es, cfg).1 ==>
      OM.Get(Register(es, cfg).0, cfg.id) == Some(cfg.(active := if cfg.active.None? then Some(true) else cfg.active)) &&
      OM.Keys(Register(es, cfg).0) == OM.Keys(es) + [cfg.id]
    ensures other != cfg.id ==> OM.Get(Register(es, cfg).0, other) == OM.Get(es, other)
    ensures OM.DistinctKeys(Register(es, cfg).0)
  {
    if !OM.Has(es, cfg.id) {
      OM.PutGet(es, cfg.id, WithDefaultActive(cfg), other);
      OM.PutKeys(es, cfg.id, WithDefaultActive(cfg));
    }
  }

  /** Registering keeps every key already present. */
  lemma {:induction false} RegisterAllKeeps(es: Entries, cfgs: seq<ApiConfig>, k: string)
    requires OM.Has(es, k)
    ensures OM.Has(RegisterAll(es, cfgs), k)
    decreases |cfgs|
  {
    if |cfgs| > 0 {
      var es1 := Register(es, cfgs[0]).0;
      if !OM.Has(es, cfgs[0].id) {
        OM.PutGet(es, cfgs[0].id, WithDefaultActive(cfgs[0]), k);
      }
      RegisterAllKeeps(es1, cfgs[1..], k);
    }
  }

  /** After `initializeAPIs`, every configured id is registered. */
  lemma {:induction false} RegisterAllCovers(es: Entries, cfgs: seq<ApiConfig>, i: nat)
    requires i < |cfgs|
    ensures OM.Has(RegisterAll(es, cfgs), cfgs[i].id)
    decreases |cfgs|
  {
    var es1 := Register(es, cfgs[0]).0;
    if i == 0 {
      if !OM.Has(es, cfgs[0].id) {
        OM.PutGet(es, cfgs[0].id, WithDefaultActive(cfgs[0]), cfgs[0].id);
      }
      RegisterAllKeeps(es1, cfgs[1..], cfgs[0].id);
    } else {
      RegisterAllCovers(es1, cfgs[1..], i - 1);
    }
  }

  /** Registering configurations whose ids are all present changes nothing. */
  lemma {:induction false} RegisterAllPresent(es: Entries, cfgs: seq<ApiConfig>)
    requires forall i :: 0 <= i < |cfgs| ==> OM.Has(es, cfgs[i].id)
    ensures RegisterAll(es, cfgs) == es
    decreases |cfgs|
  {
    if |cfgs| > 0 {
      RegisterAllPresent(es, cfgs[1..]);
    }
  }

  /** `initializeAPIs` is idempotent: a second run after the constructor adds nothing. */
  lemma InitializeIdempotent(es: Entries, cfgs: seq<ApiConfig>)
    ensures RegisterAll(RegisterAll(es, cfgs), cfgs) == RegisterAll(es, cfgs)
  {
    forall i | 0 <= i < |cfgs| ensures OM.Has(RegisterAll(es, cfgs), cfgs[i].id) {
      RegisterAllCovers(es, cfgs, i);
    }
    RegisterAllPresent(RegisterAll(es, cfgs), cfgs);
  }

  /** `registerAPI` keeps the keys distinct, so the registry stays a valid map. */
  lemma {:induction false} RegisterAllDistinct(es: Entries, cfgs: seq<ApiConfig>)
    requires OM.DistinctKeys(es)
    ensures OM.DistinctKeys(RegisterAll(es, cfgs))
    decreases |cfgs|
  {
    if |cfgs| > 0 {
      OM.PutKeys(es, cfgs[0].id, WithDefaultActive(cfgs[0]));
      RegisterAllDistinct(Register(es, cfgs[0]).0, cfgs[1..]);
    }
  }

  /**
   * An update of an unknown id returns false with no change; a known id gets
   * the shallow merge at its old position and every other id reads as before.
   */
  lemma UpdateSpec(es: Entries, id: string, p: ApiPatch, other: string)
    requires OM.DistinctKeys(es)
    ensures Update(es, id, p).1 <==> OM.Has(es, id)
    ensures !Update(es, id, p).1 ==> Update(es, id, p).0 == es
    ensures Update(es, id, p).1 ==>
      OM.Get(Update(es, id, p).0, id) == Some(Merge(OM.Get(es, id).value, p)) &&
      OM.Keys(Update(es, id, p).0) == OM.Keys(es)
    ensures other != id ==> OM.Get(Update(es, id, p).0, other) == OM.Get(es, other)
    ensures OM.DistinctKeys(Update(es, id, p).0)
  {
    if OM.Has(es, id) {
      OM.PutGet(es, id, Merge(OM.Get(es, id).value, p), other);
      OM.PutKeys(es, id, Merge(OM.Get(es, id).value, p));
    }
  }

  /** Delete removes only the given key and reports false when it was absent. */
  lemma DeleteSpec(es: Entries, id: string, other: string)
    requires OM.DistinctKeys(es)
    ensures Delete(es, id).1 <==> OM.Has(es, id)
    ensures !Delete(es, id).1 ==> Delete(es, id).0 == es
    ensures !OM.Has(Delete(es, id).0, id)
    ensures other != id ==> OM.Get(Delete(es, id).0, other) == OM.Get(es, other)
    ensures OM.DistinctKeys(Delete(es, id).0)
  {
    OM.RemoveGet(es, id, other);
  }

  /** The active list holds exactly the stored descriptors whose flag is set. */
  lemma ActiveOfSpec(apis: seq<ApiConfig>)
    ensures |ActiveOf(apis)| <= |apis|
    ensures forall i :: 0 <= i < |ActiveOf(apis)| ==> IsActive(ActiveOf(apis)[i]) && ActiveOf(apis)[i] in apis
    ensures forall i :: 0 <= i < |apis| && IsActive(apis[i]) ==> apis[i] in ActiveOf(apis)
  {
    forall a | a in ActiveOf(apis) || a in apis
      ensures a in ActiveOf(apis) <==> a in apis && IsActive(a)
    {
      FilterSpec(apis, IsActive, a);
    }
  }

  /**
   * The active list keeps insertion order: the empty store has none, and one
   * more stored descriptor goes at the end of the list exactly when it is active.
   */
  lemma ActiveOfAppend(apis: seq<ApiConfig>, api: ApiConfig)
    ensures ActiveOf([]) == []
    ensures ActiveOf(apis + [api]) == ActiveOf(apis) + (if IsActive(api) then [api] else [])
  {
    FilterAppend(apis, api, IsActive);
  }

  class ApiRegistry {
    /** The `apis` map, as entries in insertion order. */
    var entries: Entries
    /** The configured APIs the registry is initialised from. */
    const configurations: seq<ApiConfig>

    ghost predicate Valid()
      reads this
    {
      OM.DistinctKeys(entries)
    }

    /** The constructor registers every configured API. */
    constructor (configurations: seq<ApiConfig>)
      ensures Valid()
      ensures this.configurations == configurations
      ensures entries == RegisterAll([], configurations)
    {
      entries := [];
      this.configurations := configurations;
      new;
      InitializeAPIs();
    }

    method InitializeAPIs()
      requires Valid()
      modifies this
      ensures Valid()
      ensures entries == RegisterAll(old(entries), configurations)
    {
      var i := 0;
      while i < |configurations|
        invariant 0 <= i <= |configurations|
        invariant Valid()
        invariant RegisterAll(old(entries), configurations) == RegisterAll(entries, configurations[i..])
      {
        assert configurations[i..][1..] == configurations[i + 1..];
        var _ := RegisterAPI(configurations[i]);
        i := i + 1;
      }
    }

    method RegisterAPI(cfg: ApiConfig) returns (ok: bool)
      requires Valid()
      modifies this
      ensures Valid()
      ensures (entries, ok) == Register(old(entries), cfg)
    {
      if OM.Has(entries, cfg.id) {
        return false;
      }
      OM.PutKeys(entries, cfg.id, WithDefaultActive(cfg));
      entries := OM.Put(entries, cfg.id, WithDefaultActive(cfg));
      return true;
    }

    function GetAPI(id: string): Option<ApiConfig>
      reads this
    {
      OM.Get(entries, id)
    }

    function GetAllAPIs(): seq<ApiConfig>
      reads this
    {
      OM.Values(entries)
    }

    function GetActiveAPIs(): seq<ApiConfig>
      reads this
    {
      ActiveOf(GetAllAPIs())
    }

    method UpdateAPI(id: string, p: ApiPatch) returns (ok: bool)
      requires Valid()
      modifies this
      ensures Valid()
      ensures (entries, ok) == Update(old(entries), id, p)
    {
      var api := GetAPI(id);
      if api.None? {
        return false;
      }
      OM.PutKeys(entries, id, Merge(api.value, p));
      entries := OM.Put(entries, id, Merge(api.value, p));
      return true;
    }

    method DeleteAPI(id: string) returns (ok: bool)
      requires Valid()
      modifies this
      ensures Valid()
      ensures (entries, ok) == Delete(old(entries), id)
    {
      if !OM.Has(entries, id) {
        return false;
      }
      OM.RemoveGet(entries, id, id);
      entries := OM.Remove(entries, id);
      return true;
    }
  }
}
