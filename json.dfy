/**
 * The JSON values that travel through the server: tool arguments, input
 * schemas and the content blocks a tool returns.
 */
module JsonValue {

  /**
   * A JSON value as Go's encoding/json decodes it into `interface{}`.
   * Numbers are kept as integers (Go's float64 is not modelled).
   */
  datatype Json =
    | JNull
    | JBool(b: bool)
    | JNumber(n: int)
    | JString(str: string)
    | JArray(elems: seq<Json>)
    | JObject(fields: map<string, Json>)

  /** One block of a tool's content: the `{"type": ..., "text": ...}` map of main.go. */
  datatype ContentBlock = ContentBlock(kind: string, text: string) {

    /** The block as the JSON object the server encodes. */
    function ToJson(): (j: Json)
      ensures j.JObject? && j.fields.Keys == {"type", "text"}
      ensures j.fields["type"] == JString(kind) && j.fields["text"] == JString(text)
    {
      JObject(map["type" := JString(kind), "text" := JString(text)])
    }
  }

  /** A block of kind "text", the only kind the get_help tool emits. */
  function TextBlock(text: string): ContentBlock {
    ContentBlock("text", text)
  }
}
