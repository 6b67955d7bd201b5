/**
 * The answer record of a Model Context Protocol tool call: one text item,
 * and the `isError` flag the stdio servers set on a failed call.
 */
module ToolContent {
  import opened Js

  /** `{content: [{type: "text", text}]}`. */
  function TextContent(text: Value): Value
  {
    Obj([("content", Arr([Obj([("type", Str("text")), ("text", text)])]))])
  }

  /** `{content: [{type: "text", text: "Error: " + m}], isError: true}`. */
  function ErrorContent(m: string): Value
  {
    Obj([("content", Arr([Obj([("type", Str("text")), ("text", Str(ErrorString(m)))])])), ("isError", Bool(true))])
  }

  /** The single item's text of an answer. */
  function AnswerText(answer: Value): Value
  {
    var c := Get(answer, "content");
    if c.Arr? && |c.items| > 0 then Get(c.items[0], "text") else Undefined
  }

  /** Only a failure carries the flag, and its text is the message after "Error: ". */
  lemma ContentFlags(text: Value, m: string)
    ensures Get(TextContent(text), "isError") == Undefined && AnswerText(TextContent(text)) == text
    ensures Get(ErrorContent(m), "isError") == Bool(true) && AnswerText(ErrorContent(m)) == Str(ErrorString(m))
  {
    var t := TextContent(text);
    assert "content" != "isError" by { assert "content"[0] != "isError"[0]; }
    assert Lookup(t.fields[1..], "isError") == Undefined;
    var e := ErrorContent(m);
    LookupAt(e.fields, 1, "isError");
    LookupAt(Get(e, "content").items[0].fields, 1, "text");
    LookupAt(Get(t, "content").items[0].fields, 1, "text");
  }
}
