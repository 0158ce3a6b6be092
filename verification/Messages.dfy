/** The conversation records of pkg/provider/provider.go. */
module Messages {

  // A provider.Role; `Unset` is Go's zero value "".
  datatype Role = User | Model | Tool | Unset

  // The decoded argument object of a tool call; `NilArgs` is Go's nil map.
  datatype Args = NilArgs | Args(fields: map<string, string>)

  datatype ToolCall = ToolCall(id: string, name: string, args: Args)

  datatype Message = Message(role: Role, content: string, toolCallID: string, toolCalls: seq<ToolCall>)

  datatype Usage = Usage(input: int, output: int)

  datatype Response = Response(message: Message, usage: Usage)

  const ZERO_MESSAGE := Message(Unset, "", "", [])

  const ZERO_USAGE := Usage(0, 0)

  function UserMessage(text: string): Message {
    Message(User, text, "", [])
  }

  // What RunTurn and RunTurnStream append first: nothing for an empty input.
  function UserPart(input: string): seq<Message> {
    if input == "" then [] else [UserMessage(input)]
  }

  // The message with the reminder glued to its content.
  function WithReminder(m: Message, reminder: string): Message {
    m.(content := m.content + "\n\n" + reminder)
  }

  // The log with the reminder in message `tail`, if there is one.
  function Reminded(log: seq<Message>, tail: int, reminder: string): seq<Message> {
    if 0 <= tail < |log| then log[tail := WithReminder(log[tail], reminder)] else log
  }

  // The index of the last user message, or -1: what applyReminder looks for.
  function LastUser(log: seq<Message>): (i: int)
    ensures -1 <= i < |log|
    ensures i >= 0 ==> log[i].role == User
    ensures forall j :: i < j < |log| ==> log[j].role != User
  {
    if log == [] then -1
    else if log[|log| - 1].role == User then |log| - 1
    else LastUser(log[..|log| - 1])
  }
}
