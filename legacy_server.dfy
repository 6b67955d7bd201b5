/**
 * The first stdio server (`backend/src/mcp/mcpServer.ts`): two tools over a
 * constant list of two API descriptions, and one advertised resource. Every
 * failure of a tool is answered as an `isError` text, never thrown.
 */
module LegacyServer {
  import opened Common
  import opened Js
  import ApiTypes
  import opened ToolContent

  /** One entry of the constant `apiConfigs` list. */
  datatype LegacyApi = LegacyApi(name: string, baseUrl: string, apiType: string, description: string)

  const DefaultSabiUrl: string := "https://sabi.bispace.site"

  /**
   * `apiConfigs`, given the environment's `SABI_BASE_URL` (`None` when unset):
   * an empty value counts as unset for the first entry, as `||` does, while the
   * second entry only asks whether it is truthy.
   */
  function Configs(sabiBase: Option<string>): (r: seq<LegacyApi>)
    ensures |r| == 2 && r[0].name == "sabi" && r[1].name == "rh"
  {
    var given := sabiBase.Some? && sabiBase.value != "";
    [LegacyApi("sabi", ApiTypes.OrElse(sabiBase, DefaultSabiUrl), "json", "Sistema de Administración de Bienes"),
     LegacyApi("rh", if given then sabiBase.value + "/api/usr/" else DefaultSabiUrl + "/api/usr/", "json",
               "API de Recursos Humanos")]
  }

  /** A configuration entry as `JSON.stringify` sees it. */
  function ConfigValue(api: LegacyApi): Value
  {
    Obj([("name", Str(api.name)), ("baseUrl", Str(api.baseUrl)), ("type", Str(api.apiType)),
         ("description", Str(api.description)), ("endpoints", Arr([]))])
  }

  /** The summary `get_api_info` gives of each API for "all". */
  function InfoValue(api: LegacyApi): Value
  {
    Obj([("name", Str(api.name)), ("baseUrl", Str(api.baseUrl)), ("description", Str(api.description))])
  }

  const Tools: Value := Obj([("tools", Arr([
    Obj([("name", Str("query_api")),
         ("description", Str("Consultar información sobre las APIs disponibles")),
         ("inputSchema", Obj([
           ("type", Str("object")),
           ("properties", Obj([("question", Obj([("type", Str("string")),
                                                 ("description", Str("Pregunta sobre las APIs disponibles"))]))])),
           ("required", Arr([Str("question")]))]))]),
    Obj([("name", Str("get_api_info")),
         ("description", Str("Obtener información de las APIs configuradas")),
         ("inputSchema", Obj([
           ("type", Str("object")),
           ("properties", Obj([("api_name", Obj([("type", Str("string")),
                                                 ("enum", Arr([Str("sabi"), Str("rh"), Str("all")])),
                                                 ("description", Str("Nombre de la API"))]))])),
           ("required", Arr([Str("api_name")]))]))])]))])

  const Resources: Value := Obj([("resources", Arr([
    Obj([("uri", Str("mcp://api-assistant/apis")), ("name", Str("APIs Disponibles")),
         ("description", Str("Lista de APIs configuradas en el sistema")), ("mimeType", Str("application/json"))])]))])

  /** The tool list advertises exactly `query_api` and `get_api_info`. */
  lemma ToolsListed()
    ensures var ts := Get(Tools, "tools");
      ts.Arr? && |ts.items| == 2 &&
      Get(ts.items[0], "name") == Str("query_api") && Get(ts.items[1], "name") == Str("get_api_info")
  {
  }

  /** The opening of the `query_api` answer, which echoes the question. */
  function Echo(question: Value): string
  {
    "Consulta recibida: \"" + ToStr(question) + "\""
  }

  /** The rest of the `query_api` answer: both base URLs and a fixed note. */
  function Listing(configs: seq<LegacyApi>): string
    requires |configs| == 2
  {
    ". \n\nAPIs disponibles:\n- Sabi API: " + configs[0].baseUrl +
    "\n- RH API: " + configs[1].baseUrl +
    "\n\nNota: La integración con Claude está temporalmente deshabilitada debido a verificación de cuenta."
  }

  /** The answer `query_api` builds: the question echoed, then both base URLs. */
  function QueryText(configs: seq<LegacyApi>, question: Value): string
    requires |configs| == 2
  {
    Echo(question) + Listing(configs)
  }

  /** `handleAPIQuery(args)`, giving the answer text; a failure is rethrown with the tool's prefix. */
  function HandleQuery(configs: seq<LegacyApi>, args: Value): Result<Value>
    requires |configs| == 2
  {
    if args.Undefined? || args.Null? then Err("Error en query_api: " + DestructureError("question", args))
    else if !Truthy(Get(args, "question")) then Err("Error en query_api: La pregunta es requerida")
    else Ok(Str(QueryText(configs, Get(args, "question"))))
  }

  /** `apiConfigs.find(api => api.name === name)`. */
  function FindByName(configs: seq<LegacyApi>, name: string): (r: Option<LegacyApi>)
    ensures r.Some? ==> r.value in configs && r.value.name == name
    ensures r.None? <==> forall i :: 0 <= i < |configs| ==> configs[i].name != name
    ensures r.Some? ==> exists i :: (0 <= i < |configs| && configs[i] == r.value &&
                                     forall k :: 0 <= k < i ==> configs[k].name != name)
  {
    if |configs| == 0 then None
    else if configs[0].name == name then Some(configs[0])
    else
      var r := FindByName(configs[1..], name);
      assert forall i :: 1 <= i < |configs| ==> configs[i] == configs[1..][i - 1];
      if r.Some? then
        var i :| 0 <= i < |configs| - 1 && configs[1..][i] == r.value && forall k :: 0 <= k < i ==> configs[1..][k].name != name;
        assert configs[i + 1] == r.value;
        r
      else r
  }

  /** `handleGetAPIInfo(args)`, giving the answer text. */
  function HandleInfo(configs: seq<LegacyApi>, args: Value): Result<Value>
  {
    if args.Undefined? || args.Null? then Err("Error en get_api_info: " + DestructureError("api_name", args))
    else
      var name := Get(args, "api_name");
      if !Truthy(name) then Err("Error en get_api_info: El nombre de la API es requerido")
      else if name == Str("all") then
        Ok(JsonText(Pretty(Arr(seq(|configs|, i requires 0 <= i < |configs| => InfoValue(configs[i]))))))
      else
        var found := if name.Str? then FindByName(configs, name.s) else None;
        if found.None? then Err("Error en get_api_info: API no encontrada: " + ToStr(name))
        else Ok(JsonText(Pretty(ConfigValue(found.value))))
  }

  /**
   * "all" lists name, base URL and description of every entry, in order;
   * another name gives the first entry of that name, and fails when none has it.
   */
  lemma HandleInfoSpec(configs: seq<LegacyApi>, args: Value)
    requires args.Obj?
    ensures !Truthy(Get(args, "api_name")) ==>
      HandleInfo(configs, args) == Err("Error en get_api_info: El nombre de la API es requerido")
    ensures Get(args, "api_name") == Str("all") ==>
      HandleInfo(configs, args) == Ok(JsonText(Pretty(Arr(seq(|configs|, i requires 0 <= i < |configs| => InfoValue(configs[i]))))))
    ensures var name := Get(args, "api_name");
      (name.Str? && name.s != "" && name.s != "all") ==>
        (HandleInfo(configs, args).Ok? <==> exists i :: 0 <= i < |configs| && configs[i].name == name.s)
    ensures var name := Get(args, "api_name");
      (Truthy(name) && !name.Str?) ==> HandleInfo(configs, args).Err?
  {
  }

  /** The list shown for "all" has one summary per configured API, in order. */
  lemma InfoAllOrder(configs: seq<LegacyApi>, i: int)
    requires 0 <= i < |configs|
    ensures var all := seq(|configs|, k requires 0 <= k < |configs| => InfoValue(configs[k]));
      Get(all[i], "name") == Str(configs[i].name) && Get(all[i], "baseUrl") == Str(configs[i].baseUrl) &&
      Get(all[i], "description") == Str(configs[i].description)
  {
    var v := InfoValue(configs[i]);
    LookupAt(v.fields, 1, "baseUrl");
    LookupAt(v.fields, 2, "description");
  }

  /** The tool dispatch inside the try block. */
  function CallBody(configs: seq<LegacyApi>, name: string, args: Value): Result<Value>
    requires |configs| == 2
  {
    if name == "query_api" then HandleQuery(configs, args)
    else if name == "get_api_info" then HandleInfo(configs, args)
    else Err("Herramienta no encontrada: " + name)
  }

  /** The `tools/call` handler: success as text content, every failure as an `isError` text. */
  function CallTool(configs: seq<LegacyApi>, name: string, args: Value): Value
    requires |configs| == 2
  {
    match CallBody(configs, name, args)
    case Ok(text) => TextContent(text)
    case Err(m) => ErrorContent(m)
  }

  /**
   * A tool call has the `isError` flag exactly when the handler failed, an
   * unknown name included, and then its text is "Error: " and the message.
   */
  lemma CallToolSpec(configs: seq<LegacyApi>, name: string, args: Value)
    requires |configs| == 2
    ensures Get(CallTool(configs, name, args), "isError") == Bool(true) <==> CallBody(configs, name, args).Err?
    ensures CallBody(configs, name, args).Err? ==>
      AnswerText(CallTool(configs, name, args)) == Str(ErrorString(CallBody(configs, name, args).msg))
    ensures name != "query_api" && name != "get_api_info" ==>
      CallBody(configs, name, args) == Err("Herramienta no encontrada: " + name)
  {
    match CallBody(configs, name, args)
    case Ok(text) => ContentFlags(text, "");
    case Err(m) => ContentFlags(Undefined, m);
  }

  /** `query_api` needs a question, and its text then starts by echoing it. */
  lemma QueryEchoes(sabiBase: Option<string>, args: Value)
    requires args.Obj?
    ensures HandleQuery(Configs(sabiBase), args).Ok? <==> Truthy(Get(args, "question"))
    ensures HandleQuery(Configs(sabiBase), args).Ok? ==>
      HandleQuery(Configs(sabiBase), args).value.Str? &&
      Echo(Get(args, "question")) <= HandleQuery(Configs(sabiBase), args).value.s
  {
    var configs := Configs(sabiBase);
    var q := Get(args, "question");
    if Truthy(q) {
      var e := Echo(q);
      assert (e + Listing(configs))[..|e|] == e;
    }
  }
}
