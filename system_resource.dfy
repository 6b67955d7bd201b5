/**
 * The `system://<name>` resource: one of four runtime reports, sanitised and
 * pretty-printed. The reports themselves (process and host figures) come from
 * the runtime and are a parameter here.
 */
module SystemResource {
  import opened Common
  import opened Strs
  import opened Js
  import JsonRpcValidation

  const Scheme: string := "system://"
  const Names: seq<string> := ["info", "memory", "cpu", "uptime"]

  function NotFound(resource: string): string
  {
    "Recurso no encontrado: " + resource
  }

  /** The single content entry of a successful read. */
  function Contents(uri: string, clean: Value): Value
  {
    Obj([("contents", Arr([Obj([("uri", Str(uri)), ("mimeType", Str("application/json")),
                                ("text", JsonText(Pretty(clean)))])]))])
  }

  /**
   * `read(uri)`: the first "system://" is removed and the rest must name a
   * report; a failure is rethrown as it is. `report` is the runtime's answer for
   * a name, an `Err` when gathering it throws.
   */
  function Read(uri: string, report: string -> Result<Value>): Result<Value>
  {
    var resource := ReplaceFirst(uri, Scheme, "");
    if resource !in Names then Err(NotFound(resource))
    else match report(resource)
      case Err(m) => Err(m)
      case Ok(data) =>
        match JsonRpcValidation.SanitizeJsonOutput(data)
        case Err(m) => Err(m)
        case Ok(clean) => Ok(Contents(uri, clean))
  }

  /**
   * A read succeeds exactly for the four names whose report is gathered and is
   * not a function; its one entry echoes the uri and carries the report's JSON
   * text, which is always defined; an unknown name fails with that name.
   */
  lemma ReadSpec(uri: string, report: string -> Result<Value>)
    ensures var resource := ReplaceFirst(uri, Scheme, "");
      Read(uri, report).Ok? <==>
        resource in Names && report(resource).Ok? && !report(resource).value.Func?
    ensures var resource := ReplaceFirst(uri, Scheme, "");
      resource !in Names ==> Read(uri, report) == Err(NotFound(resource))
    ensures Read(uri, report).Ok? ==>
      var entries := Get(Read(uri, report).value, "contents");
      entries.Arr? && |entries.items| == 1 &&
      Get(entries.items[0], "uri") == Str(uri) &&
      Get(entries.items[0], "mimeType") == Str("application/json") &&
      Get(entries.items[0], "text").Str?
  {
    var resource := ReplaceFirst(uri, Scheme, "");
    if resource in Names && report(resource).Ok? && !report(resource).value.Func? {
      var clean := JsonRpcValidation.Clean(report(resource).value);
      JsonRpcValidation.CleanIsJson(report(resource).value);
      SerDefined(clean, "  ", "");
      var fields := [("uri", Str(uri)), ("mimeType", Str("application/json")), ("text", JsonText(Pretty(clean)))];
      assert Lookup(fields, "mimeType") == Lookup(fields[1..], "mimeType");
      assert Lookup(fields, "text") == Lookup(fields[1..][1..], "text");
    }
  }

  /** A uri written as the scheme followed by a name reads that very name. */
  lemma SchemeNameRead(name: string, report: string -> Result<Value>)
    ensures ReplaceFirst(Scheme + name, Scheme, "") == name
    ensures name in Names && report(name).Ok? && !report(name).value.Func? ==>
      Read(Scheme + name, report) ==
        Ok(Contents(Scheme + name, JsonRpcValidation.Clean(report(name).value)))
    ensures name !in Names ==> Read(Scheme + name, report) == Err(NotFound(name))
  {
    ReplaceFirstPrefix(Scheme + name, Scheme, name);
  }

  /** `getResourceInfo`. */
  const ResourceInfo: Value := Obj([
    ("uri", Str("system://info")),
    ("name", Str("System Information")),
    ("description", Str("Información general del sistema (versión, plataforma, Node, etc.)")),
    ("mimeType", Str("application/json"))])
}
