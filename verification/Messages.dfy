/** Messages of a dialog and the events an agent run yields. */
module Messages {
  import opened Wrappers

  datatype Role = System | User | Assistant | Tool

  /** JSON stays opaque but for whether a value is an object. */
  datatype Json = Json(isObject: bool, value: string)

  datatype ToolCall = ToolCall(id: string, name: string, arguments: Json)

  datatype ToolResult = ToolResult(callId: string, name: string, isError: bool, output: Json)

  datatype Message =
    | Said(role: Role, content: Text)
    | Called(call: ToolCall)
    | Returned(callId: string, toolName: string, result: ToolResult)

  datatype StoredMessage = StoredMessage(id: nat, role: Role, content: Text)

  /** What the agent sees of a stored history. */
  function Plain(stored: seq<StoredMessage>): (r: seq<Message>)
    ensures |r| == |stored|
    ensures forall i :: 0 <= i < |r| ==> r[i] == Said(stored[i].role, stored[i].content)
  {
    seq(|stored|, i requires 0 <= i < |stored| => Said(stored[i].role, stored[i].content))
  }

  datatype AgentEvent = AgentDelta(content: Text) | AgentResponse(content: Text)

  /** The deltas of a run joined. */
  function Spoken(events: seq<AgentEvent>): Text {
    if events == [] then ""
    else
      var before, last := Spoken(events[..|events| - 1]), events[|events| - 1];
      if last.AgentDelta? then before + last.content else before
  }

  /** What an agent run may yield: deltas, and at the end at most one response, which is the deltas joined. */
  ghost predicate AgentStream(events: seq<AgentEvent>) {
    forall i ::
      0 <= i < |events| && events[i].AgentResponse? ==> i == |events| - 1 && events[i].content == Spoken(events[..i])
  }
}
