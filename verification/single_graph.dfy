/** The single-assistant graph: one events assistant whose tool requests go to
    a safe or a sensitive tool node; the graph halts before the sensitive
    one so that the user can approve or deny the request. */
module SingleGraph {
  import opened Common
  import opened Messages
  import opened Domain
  import opened Engine

  // Node names.
  const StartNode: string := "__start__"
  const Assistant: string := "assistant"
  const SafeTools: string := "safe_tools"
  const SensitiveTools: string := "sensitive_tools"

  const Nodes: set<string> := {Assistant, SafeTools, SensitiveTools}

  /** The tools bound to the sensitive tool node: none are configured. */
  const SensitiveToolNames: set<string> := {}

  /** `interrupt_before=["sensitive_tools"]`. */
  const Gates: set<string> := {SensitiveTools}

  /** `route_tools` for a given set of sensitive tool names: `END` without
      tool calls; otherwise only the first call decides. */
  function RouteTools(msgs: seq<Message>, sensitive: set<string>): (r: Result<Target>)
    ensures |msgs| == 0 <==> r.Err?
    ensures |msgs| > 0 && |PendingCalls(msgs)| == 0 <==> r == Ok(End)
    ensures r == Ok(Node(SensitiveTools)) <==>
              |PendingCalls(msgs)| > 0 && PendingCalls(msgs)[0].name in sensitive
    ensures r == Ok(Node(SafeTools)) <==>
              |PendingCalls(msgs)| > 0 && PendingCalls(msgs)[0].name !in sensitive
  {
    var next := ToolsCondition(msgs);
    if next.Err? then Err(next.error)
    else if next.value == End then Ok(End)
    else
      var first := PendingCalls(msgs)[0];
      if first.name in sensitive then Ok(Node(SensitiveTools)) else Ok(Node(SafeTools))
  }

  /** The router of this graph, with the configured (empty) sensitive set. */
  function Route(msgs: seq<Message>): Result<Target> {
    RouteTools(msgs, SensitiveToolNames)
  }

  /** With no sensitive tool configured, every tool request is safe. */
  lemma EveryRequestIsSafe(msgs: seq<Message>)
    requires |PendingCalls(msgs)| > 0
    ensures Route(msgs) == Ok(Node(SafeTools))
  {
  }

  /** The unconditional edges: START → assistant, both tool nodes → assistant. */
  function FixedEdge(node: string): Option<string> {
    if node == StartNode || node == SafeTools || node == SensitiveTools then Some(Assistant) else None
  }

  function Next(node: string, s: State): (r: Result<Target>)
    requires node == StartNode || node in Nodes
    ensures node == Assistant ==> r == Route(s.messages)
    ensures node != Assistant ==> r == Ok(Node(Assistant))
  {
    if node == Assistant then Route(s.messages) else Ok(Node(FixedEdge(node).value))
  }

  /** The gate sits exactly in front of the sensitive tool node, and with the
      configured tools it is never reached: the run never halts for approval. */
  lemma GateNeverFires(node: string, s: State)
    requires node == StartNode || node in Nodes
    ensures Gate(Node(SensitiveTools), Gates).Pause?
    ensures Next(node, s).Ok? ==> !Gate(Next(node, s).value, Gates).Pause?
  {
  }
}
