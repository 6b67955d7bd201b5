/**
 * The decision logic of the chat controller: which registered APIs a question
 * concerns, which counting endpoint of the asset system a counting question is
 * sent to, how the answers of the counting endpoints and of the listing
 * endpoints are rendered as text, and how long a model answer may be.
 */
module ChatController {
  import opened Common
  import opened Strs
  import opened Js
  import opened ApiTypes
  import opened StringHelpers

  // ---------------------------------------------------------------------
  // Relevant APIs
  // ---------------------------------------------------------------------

  /** The fixed keywords of the asset system "sabi" (the list repeats "activo"). */
  const SabiKeywords: seq<string> := [
    "usuario", "user", "activo", "asset", "sabi", "gestión", "empresa",
    "activo", "usr", "activo", "cantidad", "total", "marcas", "uso",
    "baja", "mantenimiento", "disponible", "depreciado", "revalorizado",
    "edificio", "req_mantenimiento", "estadística", "consulta", "contar",
    "cuántos", "cuántas", "número"]

  /** The fixed keywords of the electoral system "trendvoto". */
  const TrendvotoKeywords: seq<string> := [
    "trendvoto", "geo", "geoportal", "electoral", "elecciones", "votos", "resultados",
    "delegado", "recinto", "municipio", "circunscripción", "mesa", "acta", "estado",
    "provincia", "distrito", "sección", "colonia", "ciudad", "comunidad", "zona",
    "votación", "censo", "padrón", "elector", "sufragio", "urna", "escritinio",
    "estadística", "mapa", "geográfico", "territorio", "demarcación"]

  /** `getAPIKeywords(api)`: the fixed list of a known system, else the id and the lower-cased name. */
  function ApiKeywords(api: ApiConfig): seq<string>
  {
    if api.id == "sabi" then SabiKeywords
    else if api.id == "trendvoto" then TrendvotoKeywords
    else [api.id, Lower(api.name)]
  }

  /** Every API's own id is one of its keywords; an API without a fixed list has exactly its id and lower-cased name. */
  lemma ApiKeywordsSpec(api: ApiConfig)
    ensures api.id in ApiKeywords(api)
    ensures api.id != "sabi" && api.id != "trendvoto" ==> ApiKeywords(api) == [api.id, Lower(api.name)]
    ensures api.id == "sabi" ==> |ApiKeywords(api)| == 27
    ensures api.id == "trendvoto" ==> |ApiKeywords(api)| == 33
  {
    if api.id == "sabi" {
      assert SabiKeywords[4] == "sabi";
    } else if api.id == "trendvoto" {
      assert TrendvotoKeywords[0] == "trendvoto";
    }
  }

  /** Some keyword of the API occurs in the lower-cased question. */
  predicate Mentioned(lowerQuestion: string, api: ApiConfig)
  {
    exists keyword :: keyword in ApiKeywords(api) && Contains(lowerQuestion, keyword)
  }

  /** `allAPIs.find(api => api.id === id)`. */
  function FindById(apis: seq<ApiConfig>, id: string): (r: Option<ApiConfig>)
    ensures r.None? <==> forall j :: 0 <= j < |apis| ==> apis[j].id != id
    ensures r.Some? ==>
      exists j :: 0 <= j < |apis| && apis[j] == r.value && r.value.id == id &&
        (forall k :: 0 <= k < j ==> apis[k].id != id)
  {
    if |apis| == 0 then None
    else if apis[0].id == id then Some(apis[0])
    else
      var r := FindById(apis[1..], id);
      if r.Some? then
        var j :| 0 <= j < |apis[1..]| && apis[1..][j] == r.value && r.value.id == id &&
          forall k :: 0 <= k < j ==> apis[1..][k].id != id;
        assert apis[j + 1] == r.value;
        assert forall k :: 0 <= k < j + 1 ==> apis[k].id != id by {
          forall k | 0 <= k < j + 1 ensures apis[k].id != id {
            if k > 0 { assert apis[k] == apis[1..][k - 1]; }
          }
        }
        r
      else
        assert forall j :: 1 <= j < |apis| ==> apis[j] == apis[1..][j - 1];
        r
  }

  /** The APIs a keyword of which the lower-cased question contains, in their order. */
  function KeywordMatches(question: string, apis: seq<ApiConfig>): seq<ApiConfig>
  {
    Filter(apis, api => Mentioned(Lower(question), api))
  }

  /**
   * `determineRelevantAPIs(question, targetAPI, allAPIs)`: a non-empty target
   * that names a registered API selects that API alone; otherwise the APIs the
   * question mentions, or every API when it mentions none.
   */
  function DetermineRelevantAPIs(question: string, targetAPI: Option<string>, apis: seq<ApiConfig>): seq<ApiConfig>
  {
    var specific := if targetAPI.Some? && targetAPI.value != "" then FindById(apis, targetAPI.value) else None;
    if specific.Some? then [specific.value]
    else
      var relevant := KeywordMatches(question, apis);
      if |relevant| > 0 then relevant else apis
  }

  /** A target naming a registered API gives exactly the first API with that id. */
  lemma DetermineTarget(question: string, target: string, apis: seq<ApiConfig>, j: nat)
    requires target != ""
    requires j < |apis| && apis[j].id == target
    requires forall k :: 0 <= k < j ==> apis[k].id != target
    ensures DetermineRelevantAPIs(question, Some(target), apis) == [apis[j]]
  {
    var r := FindById(apis, target);
    var i :| 0 <= i < |apis| && apis[i] == r.value && r.value.id == target &&
      forall k :: 0 <= k < i ==> apis[k].id != target;
    assert !(i < j) && !(j < i);
  }

  /** No target, an empty one, or one naming no API: keyword detection decides, and falls back to every API. */
  lemma DetermineDetected(question: string, targetAPI: Option<string>, apis: seq<ApiConfig>)
    requires targetAPI.None? || targetAPI.value == "" ||
      forall j :: 0 <= j < |apis| ==> apis[j].id != targetAPI.value
    ensures (forall j :: 0 <= j < |apis| ==> !Mentioned(Lower(question), apis[j])) ==>
      DetermineRelevantAPIs(question, targetAPI, apis) == apis
    ensures (exists j :: 0 <= j < |apis| && Mentioned(Lower(question), apis[j])) ==>
      DetermineRelevantAPIs(question, targetAPI, apis) == KeywordMatches(question, apis)
    ensures forall a :: a in KeywordMatches(question, apis) <==> a in apis && Mentioned(Lower(question), a)
  {
    var keep := api => Mentioned(Lower(question), api);
    forall a ensures a in KeywordMatches(question, apis) <==> a in apis && Mentioned(Lower(question), a) {
      FilterSpec(apis, keep, a);
    }
    if forall j :: 0 <= j < |apis| ==> !Mentioned(Lower(question), apis[j]) {
      FilterNone(apis, keep);
    } else {
      var j :| 0 <= j < |apis| && Mentioned(Lower(question), apis[j]);
      FilterSpec(apis, keep, apis[j]);
    }
  }

  /** Without a target, an API whose id occurs in the lower-cased question is always among the relevant ones. */
  lemma DetectedById(question: string, apis: seq<ApiConfig>, j: nat)
    requires j < |apis| && Contains(Lower(question), apis[j].id)
    ensures apis[j] in DetermineRelevantAPIs(question, None, apis)
  {
    ApiKeywordsSpec(apis[j]);
    assert Mentioned(Lower(question), apis[j]);
    DetermineDetected(question, None, apis);
  }

  // ---------------------------------------------------------------------
  // The counting endpoint of a question
  // ---------------------------------------------------------------------

  /** The keywords that do not ask for maintenance requirements, in the order they are searched. */
  const CountEntries: seq<(string, string)> := [
    ("marca", "/cantidad/marcas"),
    ("marcas", "/cantidad/marcas"),
    ("uso", "/cantidad/uso"),
    ("baja", "/cantidad/baja"),
    ("mantenimiento", "/cantidad/mantenimiento"),
    ("disponible", "/cantidad/disponible"),
    ("depreciado", "/cantidad/depreciados"),
    ("revalorizado", "/cantidad/revalorizados"),
    ("edificio", "/cantidad/edificios"),
    ("edificios", "/cantidad/edificios")]

  const RequiredPath: string := "/cantidad/req_mantenimiento"

  /** The keywords that ask for maintenance requirements. */
  const RequiredEntries: seq<(string, string)> := [
    ("req_mantenimiento", RequiredPath),
    ("requiere mantenimiento", RequiredPath),
    ("mantenimiento requerido", RequiredPath)]

  /** The keyword table in the order the controller lists it. */
  const CantidadTable: seq<(string, string)> := CountEntries + RequiredEntries

  /** The endpoint of a question that names no keyword. */
  const DefaultCantidad: string := "/cantidad"

  /** The position of the first keyword of the table that the question contains. */
  function FirstKeyword(table: seq<(string, string)>, lowerQuestion: string): (r: Option<nat>)
    ensures r.None? <==> forall k :: 0 <= k < |table| ==> !Contains(lowerQuestion, table[k].0)
    ensures r.Some? ==>
      r.value < |table| && Contains(lowerQuestion, table[r.value].0) &&
        (forall k :: 0 <= k < r.value ==> !Contains(lowerQuestion, table[k].0))
  {
    if |table| == 0 then None
    else if Contains(lowerQuestion, table[0].0) then Some(0)
    else match FirstKeyword(table[1..], lowerQuestion)
      case None =>
        assert forall k :: 1 <= k < |table| ==> table[k] == table[1..][k - 1];
        None
      case Some(j) =>
        assert forall k :: 1 <= k < j + 1 ==> table[k] == table[1..][k - 1];
        Some(j + 1)
  }

  /** The endpoint path the search over a keyword table settles on. */
  function CantidadEndpoint(table: seq<(string, string)>, lowerQuestion: string): string
  {
    match FirstKeyword(table, lowerQuestion)
    case None => DefaultCantidad
    case Some(j) => table[j].1
  }

  /** Searching a table proved by the first keyword the question contains, or the default when there is none. */
  method SelectCantidadEndpoint(lowerQuestion: string, table: seq<(string, string)>) returns (endpointPath: string)
    ensures endpointPath == CantidadEndpoint(table, lowerQuestion)
  {
    endpointPath := DefaultCantidad;
    var i := 0;
    while i < |table|
      invariant 0 <= i <= |table|
      invariant endpointPath == DefaultCantidad
      invariant forall k :: 0 <= k < i ==> !Contains(lowerQuestion, table[k].0)
    {
      if Contains(lowerQuestion, table[i].0) {
        endpointPath := table[i].1;
        break;
      }
      i := i + 1;
    }
  }

  /** Every keyword that asks for maintenance requirements contains "mantenimiento". */
  lemma RequiredKeywordsContainMaintenance(k: nat)
    requires k < |RequiredEntries|
    ensures Contains(RequiredEntries[k].0, "mantenimiento")
  {
    var s := RequiredEntries[k].0;
    if k == 0 {
      assert s[4..] == "mantenimiento";
      ContainsSuffix(s, 4, "mantenimiento");
    } else if k == 1 {
      assert s[9..] == "mantenimiento";
      ContainsSuffix(s, 9, "mantenimiento");
    } else {
      assert "mantenimiento" <= s;
    }
  }

  /**
   * As written, the table can never select the maintenance-requirement
   * endpoint: each of its three keywords contains "mantenimiento", which the
   * search tries earlier.
   */
  lemma RequiredEndpointUnreachable(lowerQuestion: string)
    ensures CantidadEndpoint(CantidadTable, lowerQuestion) != RequiredPath
  {
    match FirstKeyword(CantidadTable, lowerQuestion)
    case None =>
    case Some(j) =>
      if j >= |CountEntries| {
        assert CantidadTable[j] == RequiredEntries[j - |CountEntries|];
        assert CantidadTable[4].0 == "mantenimiento";
        assert !Contains(lowerQuestion, "mantenimiento");
        RequiredKeywordsContainMaintenance(j - |CountEntries|);
        ContainsTransitive(lowerQuestion, CantidadTable[j].0, "mantenimiento");
        assert false;
      } else {
        assert CantidadTable[j] == CountEntries[j];
        assert forall k :: 0 <= k < |CountEntries| ==> CountEntries[k].1 != RequiredPath;
      }
  }

  /** The table with the maintenance-requirement keywords first, so that the most specific keyword wins. */
  const SpecificFirstTable: seq<(string, string)> := RequiredEntries + CountEntries

  /** Searching a table whose first part the question does not touch is searching the rest. */
  lemma EndpointSkip(a: seq<(string, string)>, b: seq<(string, string)>, lowerQuestion: string)
    requires forall k :: 0 <= k < |a| ==> !Contains(lowerQuestion, a[k].0)
    ensures CantidadEndpoint(a + b, lowerQuestion) == CantidadEndpoint(b, lowerQuestion)
  {
    var t := a + b;
    assert forall k :: 0 <= k < |a| ==> t[k] == a[k];
    assert forall k :: 0 <= k < |b| ==> t[|a| + k] == b[k];
    match FirstKeyword(b, lowerQuestion)
    case None =>
    case Some(j) =>
      var i := FirstKeyword(t, lowerQuestion).value;
      assert !(i < |a| + j) && !(|a| + j < i);
  }

  /** Searching a table whose last part the question does not touch is searching the first part. */
  lemma EndpointIgnore(a: seq<(string, string)>, b: seq<(string, string)>, lowerQuestion: string)
    requires forall k :: 0 <= k < |b| ==> !Contains(lowerQuestion, b[k].0)
    ensures CantidadEndpoint(a + b, lowerQuestion) == CantidadEndpoint(a, lowerQuestion)
  {
    var t := a + b;
    assert forall k :: 0 <= k < |a| ==> t[k] == a[k];
    assert forall k :: 0 <= k < |b| ==> t[|a| + k] == b[k];
    match FirstKeyword(a, lowerQuestion)
    case None =>
    case Some(j) =>
      var i := FirstKeyword(t, lowerQuestion).value;
      assert !(i < j) && !(j < i);
  }

  /** The corrected table holds the same entries as the table as written. */
  lemma SpecificFirstTableEntries()
    ensures multiset(SpecificFirstTable) == multiset(CantidadTable)
  {
  }

  /** With the corrected table, a question naming a maintenance-requirement keyword reaches that endpoint. */
  lemma SpecificFirstRequired(lowerQuestion: string, k: nat)
    requires k < |RequiredEntries| && Contains(lowerQuestion, RequiredEntries[k].0)
    ensures CantidadEndpoint(SpecificFirstTable, lowerQuestion) == RequiredPath
  {
    assert SpecificFirstTable[k] == RequiredEntries[k];
    var j := FirstKeyword(SpecificFirstTable, lowerQuestion).value;
    assert j <= k;
    assert SpecificFirstTable[j] == RequiredEntries[j];
  }

  /** Every question that names no maintenance-requirement keyword goes where the table as written sends it. */
  lemma SpecificFirstOthers(lowerQuestion: string)
    requires forall k :: 0 <= k < |RequiredEntries| ==> !Contains(lowerQuestion, RequiredEntries[k].0)
    ensures CantidadEndpoint(SpecificFirstTable, lowerQuestion) == CantidadEndpoint(CantidadTable, lowerQuestion)
  {
    EndpointSkip(RequiredEntries, CountEntries, lowerQuestion);
    EndpointIgnore(CountEntries, RequiredEntries, lowerQuestion);
  }

  // ---------------------------------------------------------------------
  // The length of a model answer
  // ---------------------------------------------------------------------

  /** The words that mark a question asking for a listing. */
  predicate AsksForListing(lowerQuestion: string)
  {
    Contains(lowerQuestion, "listame") || Contains(lowerQuestion, "muestrame") ||
    Contains(lowerQuestion, "enumera") || Contains(lowerQuestion, "dame")
  }

  /**
   * `processAIAnswer(answer, question)`. For a listing question `structured` is
   * the first Markdown table of the answer, or else its first list, as the
   * controller's regular expressions find them; `None` when neither is found.
   */
  function ProcessAIAnswer(answer: string, question: string, structured: Option<string>): string
  {
    if AsksForListing(Lower(question)) then
      if structured.Some? then structured.value
      else Take(answer, 5000) + (if |answer| > 5000 then "..." else "")
    else if |answer| > 1000 then answer[..1000] + "..."
    else answer
  }

  /** Any other question cuts the answer as `truncateString` does at 1000 characters; a listing without structure at 5000. */
  lemma ProcessAIAnswerSpec(answer: string, question: string, structured: Option<string>)
    ensures !AsksForListing(Lower(question)) ==>
      ProcessAIAnswer(answer, question, structured) == TruncateString(answer, 1000)
    ensures AsksForListing(Lower(question)) && structured.None? ==>
      ProcessAIAnswer(answer, question, structured) == TruncateString(answer, 5000)
    ensures AsksForListing(Lower(question)) && structured.Some? ==>
      ProcessAIAnswer(answer, question, structured) == structured.value
    ensures !AsksForListing(Lower(question)) ==> |ProcessAIAnswer(answer, question, structured)| <= 1003
  {
    TruncateStringSpec(answer, 1000);
  }

  // ---------------------------------------------------------------------
  // Rendering item by item
  // ---------------------------------------------------------------------

  /**
   * The text a `forEach` over `xs` appends, `line(index, item)` per item; the
   * first line that throws ends the whole rendering with its error.
   */
  function Lines<T>(xs: seq<T>, line: (nat, T) -> Result<string>): Result<string>
  {
    if |xs| == 0 then Ok("")
    else match Lines(xs[..|xs| - 1], line)
      case Err(m) => Err(m)
      case Ok(s) =>
        match line(|xs| - 1, xs[|xs| - 1])
        case Err(m) => Err(m)
        case Ok(t) => Ok(s + t)
  }

  /** Once a prefix of the items has thrown, so has the whole rendering, with the same error. */
  lemma {:induction false} LinesErr<T>(xs: seq<T>, line: (nat, T) -> Result<string>, j: nat, m: string)
    requires j <= |xs| && Lines(xs[..j], line) == Err(m)
    ensures Lines(xs, line) == Err(m)
    decreases |xs| - j
  {
    if j < |xs| {
      assert xs[..j + 1][..j] == xs[..j];
      LinesErr(xs, line, j + 1, m);
    } else {
      assert xs[..j] == xs;
    }
  }

  /** The rendering succeeds exactly when every item's line does. */
  lemma {:induction false} LinesOk<T>(xs: seq<T>, line: (nat, T) -> Result<string>)
    ensures Lines(xs, line).Ok? <==> forall i :: 0 <= i < |xs| ==> line(i, xs[i]).Ok?
  {
    if |xs| > 0 {
      var init := xs[..|xs| - 1];
      LinesOk(init, line);
      assert forall i :: 0 <= i < |init| ==> init[i] == xs[i];
    }
  }

  /** `prefix + s + suffix` around a rendering that may throw. */
  function Around(prefix: string, r: Result<string>, suffix: string): Result<string>
  {
    match r
    case Err(m) => Err(m)
    case Ok(s) => Ok(prefix + s + suffix)
  }

  /** Appending a suffix after a prefixed rendering is rendering between the two. */
  lemma AroundTwice(prefix: string, r: Result<string>, suffix: string)
    ensures Around("", Around(prefix, r, ""), suffix) == Around(prefix, r, suffix)
  {
    if r.Ok? {
      assert "" + (prefix + r.value + "") + suffix == prefix + r.value + suffix;
    }
  }

  /** The `forEach` loop: appends each item's line to `response`, stopping at the first that throws. */
  method AppendLines<T>(response: string, xs: seq<T>, line: (nat, T) -> Result<string>) returns (r: Result<string>)
    ensures r == Around(response, Lines(xs, line), "")
  {
    var text := response;
    var i := 0;
    while i < |xs|
      invariant 0 <= i <= |xs|
      invariant Lines(xs[..i], line).Ok? && text == response + Lines(xs[..i], line).value
    {
      var init := xs[..i + 1];
      assert init[..|init| - 1] == xs[..i] && init[|init| - 1] == xs[i];
      match line(i, xs[i])
      case Err(m) =>
        assert Lines(init, line) == Err(m);
        LinesErr(xs, line, i + 1, m);
        return Err(m);
      case Ok(t) =>
        assert Lines(init, line) == Ok(Lines(xs[..i], line).value + t);
        text := text + t;
        i := i + 1;
    }
    assert xs[..i] == xs;
    assert text + "" == text;
    r := Ok(text);
  }

  /** The position printed before an item: `index + 1`. */
  function Ordinal(i: nat): string
  {
    NatStr(i + 1)
  }

  /** `v.prop` on a value that may be `undefined` or `null`, which throws. */
  function Read(v: Value, prop: string): Result<Value>
  {
    if v.Undefined? || v.Null? then Err(ReadPropertyError(prop, v)) else Ok(Get(v, prop))
  }

  /** `item.nombre || item.descripcion || 'Activo'`. */
  function AssetName(item: Value): string
  {
    ToStr(Or(Or(Get(item, "nombre"), Get(item, "descripcion")), Str("Activo")))
  }

  /** `xs.join(sep)` on array elements: `undefined` and `null` print as "". */
  function JoinValues(xs: seq<Value>, sep: string): string
  {
    Join(seq(|xs|, i requires 0 <= i < |xs| => if xs[i].Undefined? || xs[i].Null? then "" else ToStr(xs[i])), sep)
  }

  // ---------------------------------------------------------------------
  // Answers of the counting endpoints
  // ---------------------------------------------------------------------

  /** The models of a brand: the first three, and how many more there are. */
  function ModelsText(modelos: Value): Result<string>
  {
    if !Truthy(modelos) then Ok("")
    else match modelos
      case Arr(xs) =>
        if |xs| == 0 then Ok("")
        else Ok("   - Modelos: " + JoinValues(Take(xs, 3), ", ") +
          (if |xs| > 3 then ", ... (+" + NatStr(|xs| - 3) + " más)" else "") + "\n")
      case Str(_) => Err(NotAFunction("marca.modelos.slice(...).join"))
      case Obj(_) =>
        var n := Get(modelos, "length");
        if n.Num? && n.n > 0 then Err(NotAFunction("marca.modelos.slice")) else Ok("")
      case _ => Ok("")
  }

  /** The block of one brand. */
  function BrandLines(i: nat, marca: Value): Result<string>
  {
    if marca.Undefined? || marca.Null? then Err(ReadPropertyError("marca", marca))
    else
      var head := Ordinal(i) + ". **" + ToStr(Get(marca, "marca")) + "**\n" +
        "   - Categoría: " + ToStr(Get(marca, "categoria")) + "\n" +
        "   - Subcategoría: " + ToStr(Get(marca, "subcategoria")) + "\n" +
        "   - Cantidad: " + ToStr(Get(marca, "cantidad")) + " activos\n";
      Around(head, ModelsText(Get(marca, "modelos")), "\n")
  }

  /** The block of one building. */
  function BuildingLines(i: nat, edificio: Value): Result<string>
  {
    if edificio.Undefined? || edificio.Null? then Err(ReadPropertyError("nombre", edificio))
    else Ok(Ordinal(i) + ". **" + ToStr(Or(Get(edificio, "nombre"), Get(edificio, "edificio"))) + "**\n" +
      "   - Cantidad: " + ToStr(Get(edificio, "cantidad")) + " activos\n" +
      "   - Ubicación: " + ToStr(Or(Get(edificio, "ubicacion"), Str("N/A"))) + "\n" + "\n")
  }

  /** The line of one depreciated or revalued asset; a missing quantity counts as 1. */
  function AssetLine(i: nat, item: Value): Result<string>
  {
    if item.Undefined? || item.Null? then Err(ReadPropertyError("nombre", item))
    else Ok(Ordinal(i) + ". " + AssetName(item) + " - Cantidad: " + ToStr(Or(Get(item, "cantidad"), Num(1))) + "\n")
  }

  /** The block of one asset that needs maintenance; location and priority only when present. */
  function MaintenanceLines(i: nat, activo: Value): Result<string>
  {
    if activo.Undefined? || activo.Null? then Err(ReadPropertyError("nombre", activo))
    else
      var ubicacion := Get(activo, "ubicacion");
      var prioridad := Get(activo, "prioridad");
      Ok(Ordinal(i) + ". " + AssetName(activo) + "\n" +
        (if Truthy(ubicacion) then "   - Ubicación: " + ToStr(ubicacion) + "\n" else "") +
        (if Truthy(prioridad) then "   - Prioridad: " + ToStr(prioridad) + "\n" else "") + "\n")
  }

  /** One member of the general counting answer: arrays by their length. */
  function EntryLine(i: nat, entry: (string, Value)): Result<string>
  {
    Ok(entry.0 + ": " + (if entry.1.Arr? then NatStr(|entry.1.items|) + " elementos" else ToStr(entry.1)) + "\n")
  }

  /** The severity classes of the number of assets that need maintenance. */
  datatype Severity = Optimal | Low | Medium | High | Critical

  function SeverityOf(n: int): Severity
  {
    if n == 0 then Optimal
    else if n <= 3 then Low
    else if n <= 7 then Medium
    else if n <= 10 then High
    else Critical
  }

  function SeverityRank(s: Severity): nat
  {
    match s
    case Optimal => 0
    case Low => 1
    case Medium => 2
    case High => 3
    case Critical => 4
  }

  /** The verdict line printed for a severity number. */
  function SeverityText(n: int): string
  {
    var count := IntStr(n);
    match SeverityOf(n)
    case Optimal => "✅ **Estado óptimo**: No hay activos que requieran mantenimiento urgente.\n"
    case Low => "⚠️ **Nivel bajo**: " + count + " activo(s) requieren mantenimiento. Situación manejable.\n"
    case Medium => "⚠️⚠️ **Nivel medio**: " + count + " activo(s) requieren mantenimiento. Se recomienda planificar intervenciones.\n"
    case High => "🚨 **Nivel alto**: " + count + " activo(s) requieren mantenimiento. Atención prioritaria necesaria.\n"
    case Critical => "🔥 **Nivel crítico**: " + count + " activo(s) requieren mantenimiento. Situación de emergencia.\n"
  }

  /**
   * Zero is optimal, up to 3 low, up to 7 medium, up to 10 high and more
   * critical; on counts the class never drops as the count grows. A negative
   * number falls into the low class.
   */
  lemma SeverityClasses(n: int, m: int)
    ensures SeverityOf(n) == Optimal <==> n == 0
    ensures SeverityOf(n) == Low <==> n < 0 || 1 <= n <= 3
    ensures SeverityOf(n) == Medium <==> 4 <= n <= 7
    ensures SeverityOf(n) == High <==> 8 <= n <= 10
    ensures SeverityOf(n) == Critical <==> n > 10
    ensures 0 <= n <= m ==> SeverityRank(SeverityOf(n)) <= SeverityRank(SeverityOf(m))
  {
  }

  /** `endpointPath.replace('/cantidad/', '')`. */
  function EndpointType(endpointPath: string): string
  {
    ReplaceFirst(endpointPath, "/cantidad/", "")
  }

  /** A path under "/cantidad/" names its type; the bare "/cantidad" is left as it is. */
  lemma EndpointTypeSpec(t: string)
    ensures EndpointType("/cantidad/" + t) == t
    ensures EndpointType(DefaultCantidad) == DefaultCantidad
  {
    ReplaceFirstPrefix("/cantidad/" + t, "/cantidad/", t);
    if Contains(DefaultCantidad, "/cantidad/") {
      ContainsLength(DefaultCantidad, "/cantidad/");
    }
    ReplaceFirstAbsent(DefaultCantidad, "/cantidad/", "");
  }

  function BrandsAnswer(data: Value): Result<string>
  {
    if data.Undefined? || data.Null? then Err(ReadPropertyError("marcas", data))
    else
      var marcas := Get(data, "marcas");
      if marcas.Arr? then
        Around("**Cantidad de activos por marca:**\n\n", Lines(marcas.items, BrandLines),
          "**Total de marcas diferentes:** " + NatStr(|marcas.items|) + "\n")
      else Ok("")
  }

  function BuildingsAnswer(data: Value): Result<string>
  {
    if data.Undefined? || data.Null? then Err(ReadPropertyError("edificios", data))
    else
      var edificios := Get(data, "edificios");
      if edificios.Arr? then Around("**Cantidad de activos por edificio:**\n\n", Lines(edificios.items, BuildingLines), "")
      else Ok("")
  }

  /** `typeof data === 'object' && data.cantidad !== undefined`: `null` throws on the read. */
  function CountMember(data: Value): Result<Option<Value>>
  {
    if data.Null? then Err(ReadPropertyError("cantidad", data))
    else if (data.Obj? || data.Arr?) && !Get(data, "cantidad").Undefined? then Ok(Some(Get(data, "cantidad")))
    else Ok(None)
  }

  /** The answer for "depreciados" and "revalorizados". */
  function AssetListAnswer(endpointType: string, data: Value): Result<string>
  {
    if data.Arr? then
      Around("**" + CapitalizeFirst(endpointType) + ":**\n\n", Lines(data.items, AssetLine),
        "\n**Total: " + NatStr(|data.items|) + " elementos**\n")
    else match CountMember(data)
      case Err(m) => Err(m)
      case Ok(None) => Ok("")
      case Ok(Some(c)) => Ok("Cantidad de " + endpointType + ": " + ToStr(c) + "\n")
  }

  /** The answer for "req_mantenimiento": a severity number, a count object or a list of assets. */
  function MaintenanceAnswer(data: Value): Result<string>
  {
    if data.Num? then
      Ok("**Nivel de requerimiento de mantenimiento:** " + IntStr(data.n) + "\n\n" + SeverityText(data.n))
    else match CountMember(data)
      case Err(m) => Err(m)
      case Ok(Some(c)) =>
        Ok("**Activos que requieren mantenimiento:** " + ToStr(c) + "\n\n" +
          (if c == Num(0) then "✅ **Estado óptimo**: No hay activos que requieran mantenimiento.\n"
           else "⚠️ **Atención necesaria**: " + ToStr(c) + " activo(s) requieren mantenimiento.\n"))
      case Ok(None) =>
        if data.Arr? then
          Around("**Activos que requieren mantenimiento:** " + NatStr(|data.items|) + "\n\n",
            Lines(Take(data.items, 5), MaintenanceLines),
            if |data.items| > 5 then "... y " + NatStr(|data.items| - 5) + " más\n" else "")
        else Ok("")
  }

  /** The answer for "uso", "baja", "mantenimiento" and "disponible": one number. */
  function SimpleCountAnswer(endpointType: string, data: Value): Result<string>
  {
    if data.Num? then Ok("Cantidad de activos " + endpointType + ": " + IntStr(data.n) + "\n")
    else match CountMember(data)
      case Err(m) => Err(m)
      case Ok(None) => Ok("")
      case Ok(Some(c)) => Ok("Cantidad de activos " + endpointType + ": " + ToStr(c) + "\n")
  }

  /** The answer for "/cantidad" and any other path: a total, every member of an object, or the value itself. */
  function GeneralAnswer(endpointPath: string, data: Value): Result<string>
  {
    if data.Num? then Ok("Cantidad total: " + IntStr(data.n) + "\n")
    else if data.Null? then Err(NullEntries)
    else if data.Obj? || data.Arr? then
      Around("Datos de " + endpointPath + ":\n", Lines(Entries(data).value, EntryLine), "")
    else Ok(ToStr(data) + "\n")
  }

  /**
   * `formatCantidadResponse(data, endpointPath)`, dispatching on the part of
   * the path after "/cantidad/"; `Err` when rendering throws.
   */
  function CantidadResponse(data: Value, endpointPath: string): Result<string>
  {
    var t := EndpointType(endpointPath);
    if t == "marcas" then BrandsAnswer(data)
    else if t == "edificios" then BuildingsAnswer(data)
    else if t == "depreciados" || t == "revalorizados" then AssetListAnswer(t, data)
    else if t == "req_mantenimiento" then MaintenanceAnswer(data)
    else if t == "uso" || t == "baja" || t == "mantenimiento" || t == "disponible" then SimpleCountAnswer(t, data)
    else GeneralAnswer(endpointPath, data)
  }

  /** What the controller appends for a counting question: the answer, or its fixed apology when fetching or rendering throws. */
  function CantidadText(r: Result<string>): string
  {
    match r
    case Ok(s) => s
    case Err(_) => "No se pudo obtener la cantidad solicitada.\n"
  }

  method FormatBrands(data: Value) returns (r: Result<string>)
    ensures r == BrandsAnswer(data)
  {
    if data.Undefined? || data.Null? {
      return Err(ReadPropertyError("marcas", data));
    }
    var marcas := Get(data, "marcas");
    r := Ok("");
    if marcas.Arr? {
      var body := AppendLines("**Cantidad de activos por marca:**\n\n", marcas.items, BrandLines);
      AroundTwice("**Cantidad de activos por marca:**\n\n", Lines(marcas.items, BrandLines),
        "**Total de marcas diferentes:** " + NatStr(|marcas.items|) + "\n");
      r := Around("", body, "**Total de marcas diferentes:** " + NatStr(|marcas.items|) + "\n");
    }
  }

  method FormatBuildings(data: Value) returns (r: Result<string>)
    ensures r == BuildingsAnswer(data)
  {
    if data.Undefined? || data.Null? {
      return Err(ReadPropertyError("edificios", data));
    }
    var edificios := Get(data, "edificios");
    r := Ok("");
    if edificios.Arr? {
      r := AppendLines("**Cantidad de activos por edificio:**\n\n", edificios.items, BuildingLines);
    }
  }

  method FormatAssetList(endpointType: string, data: Value) returns (r: Result<string>)
    ensures r == AssetListAnswer(endpointType, data)
  {
    if data.Arr? {
      var body := AppendLines("**" + CapitalizeFirst(endpointType) + ":**\n\n", data.items, AssetLine);
      AroundTwice("**" + CapitalizeFirst(endpointType) + ":**\n\n", Lines(data.items, AssetLine),
        "\n**Total: " + NatStr(|data.items|) + " elementos**\n");
      r := Around("", body, "\n**Total: " + NatStr(|data.items|) + " elementos**\n");
    } else {
      match CountMember(data)
      case Err(m) => r := Err(m);
      case Ok(None) => r := Ok("");
      case Ok(Some(c)) => r := Ok("Cantidad de " + endpointType + ": " + ToStr(c) + "\n");
    }
  }

  method FormatMaintenance(data: Value) returns (r: Result<string>)
    ensures r == MaintenanceAnswer(data)
  {
    if data.Arr? && CountMember(data) == Ok(None) {
      var header := "**Activos que requieren mantenimiento:** " + NatStr(|data.items|) + "\n\n";
      var body := AppendLines(header, Take(data.items, 5), MaintenanceLines);
      AroundTwice(header, Lines(Take(data.items, 5), MaintenanceLines),
        if |data.items| > 5 then "... y " + NatStr(|data.items| - 5) + " más\n" else "");
      r := Around("", body, if |data.items| > 5 then "... y " + NatStr(|data.items| - 5) + " más\n" else "");
    } else {
      r := MaintenanceAnswer(data);
    }
  }

  method FormatGeneral(endpointPath: string, data: Value) returns (r: Result<string>)
    ensures r == GeneralAnswer(endpointPath, data)
  {
    if data.Obj? || data.Arr? {
      r := AppendLines("Datos de " + endpointPath + ":\n", Entries(data).value, EntryLine);
    } else {
      r := GeneralAnswer(endpointPath, data);
    }
  }

  /** The imperative rendering, each `forEach` a call of `AppendLines`. */
  method FormatCantidadResponse(data: Value, endpointPath: string) returns (r: Result<string>)
    ensures r == CantidadResponse(data, endpointPath)
  {
    var t := ReplaceFirst(endpointPath, "/cantidad/", "");
    if t == "marcas" {
      r := FormatBrands(data);
    } else if t == "edificios" {
      r := FormatBuildings(data);
    } else if t == "depreciados" || t == "revalorizados" {
      r := FormatAssetList(t, data);
    } else if t == "req_mantenimiento" {
      r := FormatMaintenance(data);
    } else if t == "uso" || t == "baja" || t == "mantenimiento" || t == "disponible" {
      r := SimpleCountAnswer(t, data);
    } else {
      r := FormatGeneral(endpointPath, data);
    }
  }

  /** A severity number on the maintenance-requirement endpoint prints its verdict after the figure. */
  lemma MaintenanceSeverity(n: int)
    ensures CantidadResponse(Num(n), RequiredPath) ==
      Ok("**Nivel de requerimiento de mantenimiento:** " + IntStr(n) + "\n\n" + SeverityText(n))
  {
    RequiredType();
    MaintenanceDispatch(Num(n), RequiredPath);
  }

  lemma RequiredType()
    ensures EndpointType(RequiredPath) == "req_mantenimiento"
  {
    assert RequiredPath == "/cantidad/" + "req_mantenimiento";
    EndpointTypeSpec("req_mantenimiento");
  }

  /** The maintenance type is none of the types tested before it. */
  lemma MaintenanceDispatch(data: Value, endpointPath: string)
    requires EndpointType(endpointPath) == "req_mantenimiento"
    ensures CantidadResponse(data, endpointPath) == MaintenanceAnswer(data)
  {
    var t := EndpointType(endpointPath);
    assert t[0] != "marcas"[0] && t[0] != "edificios"[0] && t[0] != "depreciados"[0] && t[2] != "revalorizados"[2];
  }

  /** A type that opens with "/" is none of the named ones, so the general answer is given. */
  lemma GeneralDispatch(data: Value, endpointPath: string)
    requires |EndpointType(endpointPath)| > 0 && EndpointType(endpointPath)[0] == '/'
    ensures CantidadResponse(data, endpointPath) == GeneralAnswer(endpointPath, data)
  {
    var t := EndpointType(endpointPath);
    assert t[0] != "marcas"[0] && t[0] != "edificios"[0] && t[0] != "depreciados"[0] && t[0] != "revalorizados"[0];
    assert t[0] != "req_mantenimiento"[0] && t[0] != "uso"[0] && t[0] != "baja"[0];
    assert t[0] != "mantenimiento"[0] && t[0] != "disponible"[0];
  }

  /** A number always renders; `null` always throws, whatever the endpoint. */
  lemma CantidadNumbersAndNull(n: int, endpointPath: string)
    ensures CantidadResponse(Num(n), endpointPath).Ok?
    ensures CantidadResponse(Null, endpointPath).Err?
  {
  }

  /** On the default endpoint a number is the total. */
  lemma CantidadDefaultTotal(n: int)
    ensures CantidadResponse(Num(n), DefaultCantidad) == Ok("Cantidad total: " + IntStr(n) + "\n")
  {
    EndpointTypeSpec("");
    assert DefaultCantidad[0] == '/';
    GeneralDispatch(Num(n), DefaultCantidad);
  }

  /** A brand list renders exactly when no brand is `null` or `undefined` and none has a non-empty string of models. */
  lemma BrandsRender(data: Value)
    requires data.Obj? && Get(data, "marcas").Arr?
    ensures var ms := Get(data, "marcas").items;
      BrandsAnswer(data).Ok? <==> forall i :: 0 <= i < |ms| ==> BrandLines(i, ms[i]).Ok?
  {
    LinesOk(Get(data, "marcas").items, BrandLines);
  }

  // ---------------------------------------------------------------------
  // Answers of the listing endpoints
  // ---------------------------------------------------------------------

  /** `v[key]` on a value that is neither `undefined` nor `null`: the own members `Object.entries` lists. */
  function Member(v: Value, key: string): Value
  {
    match Entries(v)
    case None => Undefined
    case Some(es) => Lookup(es, key)
  }

  /** Where the rows are looked for: the value itself, then its `data`, its plural member and its singular member. */
  function ListArray(rawData: Value, entityType: string): Value
  {
    if rawData.Arr? then rawData
    else if Get(rawData, "data").Arr? then Get(rawData, "data")
    else if Get(rawData, entityType + "s").Arr? then Get(rawData, entityType + "s")
    else if Get(rawData, entityType).Arr? then Get(rawData, entityType)
    else rawData
  }

  /** `Object.keys(sampleItem).slice(0, 5)`; `Object.keys` throws on `undefined` and `null`. */
  function Columns(sampleItem: Value): (r: Result<seq<string>>)
  {
    match Entries(sampleItem)
    case None => Err(NullEntries)
    case Some(es) => Ok(Take(Keys(es), 5))
  }

  /** The columns are at most the first five keys of the first item, and only `undefined` and `null` have none to give. */
  lemma ColumnsSpec(sampleItem: Value)
    ensures Columns(sampleItem).Err? <==> sampleItem.Undefined? || sampleItem.Null?
    ensures Columns(sampleItem).Ok? ==>
      |Columns(sampleItem).value| <= 5 && Columns(sampleItem).value <= Keys(Entries(sampleItem).value)
    ensures sampleItem.Obj? && |sampleItem.fields| <= 5 ==> Columns(sampleItem) == Ok(Keys(sampleItem.fields))
  {
  }

  /** A cell: `null` and `undefined` as "N/A", anything else cut to 30 characters. */
  function Cell(value: Value): string
  {
    if value.Null? || value.Undefined? then "N/A" else Take(ToStr(value), 30)
  }

  /** A cell never exceeds 30 characters and starts the text of its value, which it keeps whole when short enough. */
  lemma CellSpec(value: Value)
    ensures |Cell(value)| <= 30
    ensures value.Null? || value.Undefined? ==> Cell(value) == "N/A"
    ensures !(value.Null? || value.Undefined?) ==>
      Cell(value) <= ToStr(value) && (|ToStr(value)| <= 30 <==> Cell(value) == ToStr(value))
  {
  }

  /** One table row; reading a column of `undefined` or `null` throws. */
  function RowLine(columns: seq<string>, item: Value): Result<string>
  {
    if |columns| > 0 && (item.Undefined? || item.Null?) then Err(ReadPropertyError(columns[0], item))
    else Ok("| " + Join(seq(|columns|, k requires 0 <= k < |columns| => Cell(Member(item, columns[k]))), " | ") + " |\n")
  }

  function RowOf(columns: seq<string>): (nat, Value) -> Result<string>
  {
    (i: nat, item: Value) => RowLine(columns, item)
  }

  function TableHeading(entityType: string, columns: seq<string>): string
  {
    "## Lista de " + entityType + "s\n\n" +
    "| " + Join(columns, " | ") + " |\n" +
    "| " + Join(seq(|columns|, k => "---"), " | ") + " |\n"
  }

  function ListFooter(count: nat, entityType: string): string
  {
    if count > 10 then "\n*Mostrando 10 de " + NatStr(count) + " " + entityType + "s. Use filtros para ver más.*" else ""
  }

  /** The footer is there exactly when more than ten items exist. */
  lemma ListFooterSpec(count: nat, entityType: string)
    ensures ListFooter(count, entityType) != "" <==> count > 10
  {
  }

  /** The text of the `catch`: the start of the pretty JSON of the raw data. */
  function ListFallback(rawData: Value, entityType: string): string
  {
    "Datos de " + entityType + "s: " + Take(Text(Pretty(rawData)), 500) + "..."
  }

  /** `formatListResponse(rawData, entityType)` of the chat controller. */
  function ListResponse(rawData: Value, entityType: string): string
  {
    if !Truthy(rawData) then "No se encontraron datos de " + entityType + "."
    else
      var dataArray := ListArray(rawData, entityType);
      if !dataArray.Arr? || |dataArray.items| == 0 then "No se encontraron " + entityType + "s."
      else ListTable(rawData, entityType, dataArray.items)
  }

  /** The table over the rows found, or the fallback text when reading them throws. */
  function ListTable(rawData: Value, entityType: string, items: seq<Value>): string
    requires |items| > 0
  {
    match Columns(items[0])
    case Err(_) => ListFallback(rawData, entityType)
    case Ok(columns) => TableOf(rawData, entityType, columns, items)
  }

  /** Heading, the rows of the first ten items and the footer. */
  function TableOf(rawData: Value, entityType: string, columns: seq<string>, items: seq<Value>): string
  {
    match Lines(Take(items, 10), RowOf(columns))
    case Err(_) => ListFallback(rawData, entityType)
    case Ok(rows) => TableHeading(entityType, columns) + rows + ListFooter(|items|, entityType)
  }

  /** The imperative rendering: the array search reassigns, the rows are appended in a `forEach`. */
  method FormatListResponse(rawData: Value, entityType: string) returns (text: string)
    ensures text == ListResponse(rawData, entityType)
  {
    if !Truthy(rawData) {
      return "No se encontraron datos de " + entityType + ".";
    }
    var dataArray := rawData;
    if rawData.Arr? {
      dataArray := rawData;
    } else if Get(rawData, "data").Arr? {
      dataArray := Get(rawData, "data");
    } else if Get(rawData, entityType + "s").Arr? {
      dataArray := Get(rawData, entityType + "s");
    } else if Get(rawData, entityType).Arr? {
      dataArray := Get(rawData, entityType);
    }
    if !dataArray.Arr? || |dataArray.items| == 0 {
      return "No se encontraron " + entityType + "s.";
    }
    assert dataArray == ListArray(rawData, entityType);
    text := RenderListTable(rawData, entityType, dataArray.items);
  }

  method RenderListTable(rawData: Value, entityType: string, items: seq<Value>) returns (text: string)
    requires |items| > 0
    ensures text == ListTable(rawData, entityType, items)
  {
    var columns := Columns(items[0]);
    if columns.Err? {
      return ListFallback(rawData, entityType);
    }
    text := RenderRows(rawData, entityType, columns.value, items);
  }

  method RenderRows(rawData: Value, entityType: string, columns: seq<string>, items: seq<Value>) returns (text: string)
    ensures text == TableOf(rawData, entityType, columns, items)
  {
    var rows := AppendLines(TableHeading(entityType, columns), Take(items, 10), RowOf(columns));
    if rows.Err? {
      return ListFallback(rawData, entityType);
    }
    text := rows.value;
    if |items| > 10 {
      text := text + ListFooter(|items|, entityType);
    } else {
      assert text + ListFooter(|items|, entityType) == text;
    }
  }

  /**
   * Falsy data, no array found or an empty one, and the table: a heading with
   * at most five columns, one row for each of the first ten items at most, and
   * the footer exactly when there are more than ten.
   */
  lemma ListResponseSpec(rawData: Value, entityType: string)
    ensures !Truthy(rawData) ==> ListResponse(rawData, entityType) == "No se encontraron datos de " + entityType + "."
    ensures Truthy(rawData) && (!ListArray(rawData, entityType).Arr? || ListArray(rawData, entityType).items == []) ==>
      ListResponse(rawData, entityType) == "No se encontraron " + entityType + "s."
    ensures (rawData.Arr? && |rawData.items| > 0 && Columns(rawData.items[0]).Ok? &&
              Lines(Take(rawData.items, 10), RowOf(Columns(rawData.items[0]).value)).Ok?) ==>
      var columns := Columns(rawData.items[0]).value;
      |columns| <= 5 && |Take(rawData.items, 10)| <= 10 &&
      ListResponse(rawData, entityType) ==
        TableHeading(entityType, columns) + Lines(Take(rawData.items, 10), RowOf(columns)).value +
        ListFooter(|rawData.items|, entityType) &&
      (ListFooter(|rawData.items|, entityType) != "" <==> |rawData.items| > 10)
  {
    if rawData.Arr? && |rawData.items| > 0 {
      ColumnsSpec(rawData.items[0]);
    }
  }
}
