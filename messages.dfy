/** The values that flow through the agent: tool-call arguments, message
    content as the chat model returns it, and the four message kinds of the
    conversation history. */
module Messages {
  import opened Wrappers

  /** A JSON value as tool arguments carry it; numbers keep their literal text. */
  datatype Json =
    | JNull
    | JBool(b: bool)
    | JNumber(literal: string)
    | JStr(s: string)
    | JList(items: seq<Json>)
    | JObject(entries: seq<(string, Json)>)

  /** One entry of an assistant message's `tool_calls`: `name`, `args`, `id`. */
  datatype ToolCall = ToolCall(name: string, args: seq<(string, Json)>, id: string)

  /** A Python value where only "is it a `str`" matters; otherwise its type name. */
  datatype PyValue = PyStr(s: string) | PyNonStr(typeName: string)

  /** One element of list-shaped content: a string, a dict (with or without a
      `'text'` key), or some other object. */
  datatype Part =
    | StrPart(s: string)
    | DictPart(text: Option<PyValue>)
    | OtherPart(typeName: string)

  /** The `content` of an assistant message: a string, a list of parts, or any
      other object, kept as the text `str(content)` gives. */
  datatype Content = Text(s: string) | Parts(parts: seq<Part>) | OtherContent(rendered: string)

  datatype Message =
    | SystemMessage(content: string)
    | HumanMessage(content: string)
    | AIMessage(reply: Content, toolCalls: seq<ToolCall>)
    | ToolMessage(toolCallId: string, name: string, content: string)
}
