/**
 * The request checks placed in front of the API-registration and chat
 * routes. Each check either lets the request through to the next handler or
 * answers 400 with the message of the first check that fails.
 */
module ApiValidation {
  import opened Js

  /** What a check does with a request: pass it on, answer 400 with a message, or throw. */
  datatype Outcome = Next | Reject(status: nat, message: string) | Thrown

  const MissingFields: string := "Campos requeridos: id, name, baseUrl, description"
  const BadUrl: string := "URL base inválida"
  const BadId: string := "ID de API debe ser alfanumérico"

  predicate IdChar(c: char)
  {
    ('a' <= c <= 'z') || ('A' <= c <= 'Z') || ('0' <= c <= '9') || c == '_' || c == '-'
  }

  /** `/^[a-zA-Z0-9_-]+$/.test(s)`. */
  predicate IdPattern(s: string)
  {
    |s| > 0 && forall i :: 0 <= i < |s| ==> IdChar(s[i])
  }

  /**
   * `validateAPIRegistration(req, res, next)` on the request body;
   * `parsesAsUrl` says whether `new URL(text)` succeeds, which the URL parser
   * of the runtime decides.
   */
  function ValidateAPIRegistration(body: Value, parsesAsUrl: string -> bool): Outcome
  {
    if body.Undefined? || body.Null? then Thrown
    else
      var id := Get(body, "id");
      if !Truthy(id) || !Truthy(Get(body, "name")) || !Truthy(Get(body, "baseUrl")) || !Truthy(Get(body, "description")) then
        Reject(400, MissingFields)
      else if !parsesAsUrl(ToStr(Get(body, "baseUrl"))) then Reject(400, BadUrl)
      else if !IdPattern(ToStr(id)) then Reject(400, BadId)
      else Next
  }

  /**
   * The request goes on exactly when all four fields are truthy, the base URL
   * parses and the id is alphanumeric; otherwise the first failing check
   * answers 400 and no later one is consulted.
   */
  lemma RegistrationSpec(body: Value, parsesAsUrl: string -> bool)
    requires body.Obj?
    ensures var present := Truthy(Get(body, "id")) && Truthy(Get(body, "name")) &&
        Truthy(Get(body, "baseUrl")) && Truthy(Get(body, "description"));
      var urlOk := parsesAsUrl(ToStr(Get(body, "baseUrl")));
      var idOk := IdPattern(ToStr(Get(body, "id")));
      (ValidateAPIRegistration(body, parsesAsUrl) == Next <==> present && urlOk && idOk) &&
      (!present ==> ValidateAPIRegistration(body, parsesAsUrl) == Reject(400, MissingFields)) &&
      (present && !urlOk ==> ValidateAPIRegistration(body, parsesAsUrl) == Reject(400, BadUrl)) &&
      (present && urlOk && !idOk ==> ValidateAPIRegistration(body, parsesAsUrl) == Reject(400, BadId))
  {
  }

  /** An id with a character outside letters, digits, '_' and '-' is refused even when everything else holds. */
  lemma RegistrationRejectsSpacedId(body: Value, parsesAsUrl: string -> bool)
    requires body.Obj? && Get(body, "id") == Str("my api")
    requires Truthy(Get(body, "name")) && Truthy(Get(body, "baseUrl")) && Truthy(Get(body, "description"))
    requires parsesAsUrl(ToStr(Get(body, "baseUrl")))
    ensures ValidateAPIRegistration(body, parsesAsUrl) == Reject(400, BadId)
  {
    assert !IdChar("my api"[2]);
  }

  const MissingMessage: string := "Campo message requerido y debe ser texto"
  const LongMessage: string := "El mensaje no puede exceder 500 caracteres"
  const BadModel: string := "Model debe ser texto"
  const BadApiId: string := "apiId debe ser texto"

  /** `validateChatRequest(req, res, next)` on the request body. */
  function ValidateChatRequest(body: Value): Outcome
  {
    if body.Undefined? || body.Null? then Thrown
    else
      var message := Get(body, "message");
      var model := Get(body, "model");
      var apiId := Get(body, "apiId");
      if !Truthy(message) || !message.Str? then Reject(400, MissingMessage)
      else if |message.s| > 500 then Reject(400, LongMessage)
      else if Truthy(model) && !model.Str? then Reject(400, BadModel)
      else if Truthy(apiId) && !apiId.Str? then Reject(400, BadApiId)
      else Next
  }

  /**
   * A chat request goes on exactly when its message is a non-empty string of
   * at most 500 characters and each of model and apiId is a string or falsy;
   * a falsy model or apiId of any type is never checked.
   */
  lemma ChatRequestSpec(body: Value)
    requires body.Obj?
    ensures var message := Get(body, "message");
      var model := Get(body, "model");
      var apiId := Get(body, "apiId");
      (ValidateChatRequest(body) == Next <==>
        message.Str? && 0 < |message.s| <= 500 && (!Truthy(model) || model.Str?) && (!Truthy(apiId) || apiId.Str?)) &&
      (!message.Str? || message.s == "" ==> ValidateChatRequest(body) == Reject(400, MissingMessage)) &&
      (message.Str? && |message.s| > 500 ==> ValidateChatRequest(body) == Reject(400, LongMessage))
  {
  }
}
