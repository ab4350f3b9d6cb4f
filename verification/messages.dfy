/** The chat messages that flow through the `messages` key of the engine state. */
module Messages {

  /** Who a message is from: SystemMessage, HumanMessage, AIMessage or ToolMessage. */
  datatype Role = System | Human | AI | Tool

  /** A message's content: a string, or a list of content blocks (anything but a str). */
  datatype Content = Text(text: string) | Blocks(parts: seq<string>)

  /** A tool invocation the model requests. */
  datatype ToolCall = ToolCall(id: string, name: string, args: string)

  datatype Message = Message(role: Role, content: Content, toolCalls: seq<ToolCall>)

  function SystemMessage(text: string): Message {
    Message(System, Text(text), [])
  }

  function AIMessage(text: string): Message {
    Message(AI, Text(text), [])
  }
}
