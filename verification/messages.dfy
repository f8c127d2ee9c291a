/** Chat messages and tool calls as the graphs see them, and the library
    condition `tools_condition` that every router consults first. */
module Messages {
  import opened Common

  /** One structured request of an assistant: `{"id", "name", "args"}`. The
      argument values the modelled code reads are all strings. */
  datatype ToolCall = ToolCall(id: string, name: string, args: map<string, string>)

  /** One item of a list-valued message content: a `{"type": "text", "text": …}`
      dictionary, any other dictionary, which has no `"text"` key, or a plain
      string, which is not a dictionary at all. */
  datatype Block = TextBlock(text: string) | OtherBlock(kind: string) | PlainItem(s: string)

  /** A message content is either a plain string or a list of items. */
  datatype Content = Text(s: string) | Blocks(items: seq<Block>)

  datatype Message =
    | Human(content: Content)
    | AI(content: Content, toolCalls: seq<ToolCall>)
    | Tool(content: Content, toolCallId: string)

  /** The message `tools_condition` raises on an empty history. */
  const NoMessagesFound: string := "No messages found in input state to tool_edge"

  /** The node name `tools_condition` answers when tools are requested. */
  const ToolsNode: string := "tools"

  /** `state["messages"][-1].tool_calls`: an empty history has no `[-1]`, and
      only assistant messages carry `tool_calls`. */
  function LastToolCalls(msgs: seq<Message>): Result<seq<ToolCall>> {
    if |msgs| == 0 then Err(IndexError)
    else if !msgs[|msgs| - 1].AI? then Err(AttributeError("tool_calls"))
    else Ok(msgs[|msgs| - 1].toolCalls)
  }

  /** The tool calls still waiting for an answer: those of the last message
      when it is an assistant message, none otherwise. */
  function PendingCalls(msgs: seq<Message>): seq<ToolCall> {
    if |msgs| > 0 && msgs[|msgs| - 1].AI? then msgs[|msgs| - 1].toolCalls else []
  }

  /** `state["messages"][-1].tool_calls[0]["id"]`. */
  function FirstCallId(msgs: seq<Message>): (r: Result<string>)
    ensures r.Ok? <==> |PendingCalls(msgs)| > 0
    ensures r.Ok? ==> r.value == PendingCalls(msgs)[0].id
  {
    var calls :- LastToolCalls(msgs);
    if |calls| == 0 then Err(IndexError) else Ok(calls[0].id)
  }

  /** The library's `tools_condition`, abstractly: it fails on an empty
      history, answers `END` exactly when the last message requests no tool,
      and the tools node otherwise. */
  function ToolsCondition(msgs: seq<Message>): (r: Result<Target>)
    ensures r.Err? <==> |msgs| == 0
    ensures r.Ok? ==> (r.value == End <==> |PendingCalls(msgs)| == 0)
    ensures r.Ok? && r.value != End ==> r.value == Node(ToolsNode)
  {
    if |msgs| == 0 then Err(ValueError(NoMessagesFound))
    else if |PendingCalls(msgs)| > 0 then Ok(Node(ToolsNode))
    else Ok(End)
  }

  /** Some call in `calls` is named `name`. */
  ghost predicate Mentions(calls: seq<ToolCall>, name: string) {
    exists i :: 0 <= i < |calls| && calls[i].name == name
  }

  /** `any(tc["name"] == name for tc in calls)`, scanning left to right. */
  function AnyNamed(calls: seq<ToolCall>, name: string): (b: bool)
    ensures b <==> Mentions(calls, name)
  {
    if |calls| == 0 then false
    else if calls[0].name == name then true
    else
      var b := AnyNamed(calls[1..], name);
      assert Mentions(calls[1..], name) ==> Mentions(calls, name) by {
        if Mentions(calls[1..], name) {
          var i :| 0 <= i < |calls[1..]| && calls[1..][i].name == name;
          assert calls[i + 1].name == name;
        }
      }
      b
  }

  /** `all(tc["name"] in names for tc in calls)`, scanning left to right;
      true of the empty list. */
  function AllNamedIn(calls: seq<ToolCall>, names: set<string>): (b: bool)
    ensures b <==> forall i :: 0 <= i < |calls| ==> calls[i].name in names
  {
    if |calls| == 0 then true
    else if calls[0].name !in names then false
    else
      var b := AllNamedIn(calls[1..], names);
      assert b ==> forall i :: 0 <= i < |calls| ==> calls[i].name in names by {
        if b {
          forall i | 0 <= i < |calls| ensures calls[i].name in names {
            if i > 0 { assert calls[i] == calls[1..][i - 1]; }
          }
        }
      }
      b
  }
}
