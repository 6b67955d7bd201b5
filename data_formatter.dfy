/**
 * The generic renderers of API answers: a list, a count, or the JSON text of
 * the answer, chosen by the name of a formatter. `JSON.stringify` gives no
 * text for a function, so each result is optional.
 */
module DataFormatter {
  import opened Common
  import opened Strs
  import opened Js

  /** `formatListResponse(data, entityType)`. */
  function FormatListResponse(data: Value, entityType: string): Option<string>
  {
    if !Truthy(data) then Some("No se encontraron datos de " + entityType + ".")
    else if data.Arr? then
      if |data.items| == 0 then Some("No se encontraron " + entityType + "s.")
      else Some("Encontrados " + NatStr(|data.items|) + " " + entityType + "s:\n" + Text(Pretty(data)))
    else Pretty(data)
  }

  /**
   * Falsy data and an empty array give their fixed messages; a non-empty array
   * is counted before its pretty JSON; any other value is its pretty JSON, and
   * only a function has none.
   */
  lemma FormatListSpec(data: Value, entityType: string)
    ensures !Truthy(data) ==> FormatListResponse(data, entityType) == Some("No se encontraron datos de " + entityType + ".")
    ensures data == Arr([]) ==> FormatListResponse(data, entityType) == Some("No se encontraron " + entityType + "s.")
    ensures data.Arr? && |data.items| > 0 ==>
      Pretty(data).Some? &&
      FormatListResponse(data, entityType) ==
        Some("Encontrados " + NatStr(|data.items|) + " " + entityType + "s:\n" + Pretty(data).value)
    ensures Truthy(data) && !data.Arr? ==> FormatListResponse(data, entityType) == Pretty(data)
    ensures FormatListResponse(data, entityType).None? <==> data.Func?
  {
    SerDefined(data, "  ", "");
  }

  /** `formatCountResponse(data, entityType)`. */
  function FormatCountResponse(data: Value, entityType: string): string
  {
    if data.Num? then "Cantidad de " + entityType + ": " + IntStr(data.n)
    else if Truthy(data) && TypeOf(data) == "object" && !Get(data, "count").Undefined? then
      "Cantidad de " + entityType + ": " + ToStr(Get(data, "count"))
    else "Datos de cantidad para " + entityType + ": " + Text(Pretty(data))
  }

  /** The count line is produced exactly for a number or an object with a `count`; anything else gets the JSON fallback. */
  lemma FormatCountSpec(data: Value, entityType: string)
    ensures var counted := data.Num? || (data.Obj? && !Get(data, "count").Undefined?);
      var r := FormatCountResponse(data, entityType);
      (counted <==> "Cantidad de " <= r) &&
      (!counted ==> r == "Datos de cantidad para " + entityType + ": " + Text(Pretty(data)))
    ensures data.Num? ==> FormatCountResponse(data, entityType) == "Cantidad de " + entityType + ": " + IntStr(data.n)
  {
    var r := FormatCountResponse(data, entityType);
    if !(data.Num? || (data.Obj? && !Get(data, "count").Undefined?)) {
      assert r[0] == 'D';
    }
  }

  /** `formatAPIResponse(data, formatterType)`; `None` and "" are the absent formatter. */
  function FormatAPIResponse(data: Value, formatterType: Option<string>): Option<string>
  {
    if formatterType.None? || formatterType.value == "" then Compact(data)
    else if formatterType.value == "list" then FormatListResponse(data, "elementos")
    else if formatterType.value == "count" then Some(FormatCountResponse(data, "elementos"))
    else Pretty(data)
  }

  /** No formatter gives compact JSON, "list" and "count" the renderers above with "elementos", any other pretty JSON. */
  lemma FormatAPIResponseSpec(data: Value, name: string)
    ensures FormatAPIResponse(data, None) == Compact(data)
    ensures FormatAPIResponse(data, Some("list")) == FormatListResponse(data, "elementos")
    ensures FormatAPIResponse(data, Some("count")) == Some(FormatCountResponse(data, "elementos"))
    ensures name != "" && name != "list" && name != "count" ==> FormatAPIResponse(data, Some(name)) == Pretty(data)
    ensures FormatAPIResponse(data, None).None? <==> data.Undefined? || data.Func?
  {
    SerDefined(data, "", "");
  }
}
