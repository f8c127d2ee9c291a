/** The multi-assistant graph: a primary assistant that delegates to an
    events (search) assistant and to a web supervisor through entry nodes, and
    takes control back through the `back_to_primary` exit node. */
module Supervisor {
  import opened Common
  import opened Messages
  import opened Domain
  import opened Engine

  // Capability names the assistants may request.
  const CompleteWebAction: string := "CompleteWebAction"
  const ToWebAction: string := "ToWebAction"
  const CompleteEventsAssistant: string := "CompleteEventsAssistant"
  const SearchEventsTool: string := "search_events"
  const ToWebSupervisor: string := "ToWebSupervisor"
  const ToEventsAssistant: string := "ToEventsAssistant"

  /** The names of the tools bound to the events assistant's tool node. */
  const EventsAssistantToolNames: set<string> := {SearchEventsTool}

  // Node names.
  const StartNode: string := "__start__"
  const FetchUserInfo: string := "fetch_user_info"
  const EnterWebSupervisor: string := "enter_web_supervisor"
  const WebSupervisor: string := "web_supervisor"
  const BackToPrimary: string := "back_to_primary"
  const WebAction: string := "web_action"
  const EventsAssistant: string := "events_assistant"
  const EventsAssistantTools: string := "events_assistant_tools"
  const EnterEventsAssistant: string := "enter_events_assistant"
  const PrimaryAssistant: string := "primary_assistant"
  const PrimaryAssistantTools: string := "primary_assistant_tools"

  const Nodes: set<string> := {
    FetchUserInfo, EnterWebSupervisor, WebSupervisor, BackToPrimary, WebAction,
    EventsAssistant, EventsAssistantTools, EnterEventsAssistant,
    PrimaryAssistant, PrimaryAssistantTools
  }

  /** The names an entry or exit node puts on the dialog stack. */
  const AssistantNames: set<string> := {PrimaryAssistant, EventsAssistant, WebSupervisor}

  /** Gates: none at compile time; the driver asks to halt before
      `pause_web_action`, which is not a node of this graph. */
  const CompiledGates: set<string> := {}
  const InvokeGates: set<string> := {"pause_web_action"}

  predicate LastIsAI(msgs: seq<Message>) {
    |msgs| > 0 && msgs[|msgs| - 1].AI?
  }

  // ---------------------------------------------------------------------
  // Routers

  /** `route_web_supervisor`: `END` without tool calls; a `CompleteWebAction`
      anywhere wins; only `ToWebAction` calls go to `web_action`; any other
      mix is an invalid route. */
  function RouteWebSupervisor(msgs: seq<Message>): (r: Result<Target>)
    ensures |msgs| == 0 <==> r == Err(ValueError(NoMessagesFound))
    ensures |msgs| > 0 && |PendingCalls(msgs)| == 0 <==> r == Ok(End)
    ensures r == Ok(Node(BackToPrimary)) <==>
              |PendingCalls(msgs)| > 0 && Mentions(PendingCalls(msgs), CompleteWebAction)
    ensures r == Ok(Node(WebAction)) <==>
              && |PendingCalls(msgs)| > 0
              && forall i :: 0 <= i < |PendingCalls(msgs)| ==> PendingCalls(msgs)[i].name == ToWebAction
    ensures r == Err(InvalidRoute) <==>
              && !Mentions(PendingCalls(msgs), CompleteWebAction)
              && exists i :: 0 <= i < |PendingCalls(msgs)| && PendingCalls(msgs)[i].name != ToWebAction
    ensures r.Ok? ==> r.value in {End, Node(WebAction), Node(BackToPrimary)}
  {
    var cond :- ToolsCondition(msgs);
    if cond == End then Ok(End)
    else
      var calls := PendingCalls(msgs);
      if AnyNamed(calls, CompleteWebAction) then Ok(Node(BackToPrimary))
      else if AllNamedIn(calls, {ToWebAction}) then Ok(Node(WebAction))
      else Err(InvalidRoute)
  }

  /** `route_events_assistant`: it skips `tools_condition`, so an empty call
      list counts as "all calls are search tools" and goes to the tool node. */
  function RouteEventsAssistant(msgs: seq<Message>): (r: Result<Target>)
    ensures !LastIsAI(msgs) <==> r.Err? && r.error != InvalidRoute
    ensures r != Ok(End)
    ensures r == Ok(Node(BackToPrimary)) <==>
              LastIsAI(msgs) && Mentions(PendingCalls(msgs), CompleteEventsAssistant)
    ensures r == Ok(Node(EventsAssistantTools)) <==>
              && LastIsAI(msgs)
              && !Mentions(PendingCalls(msgs), CompleteEventsAssistant)
              && forall i :: 0 <= i < |PendingCalls(msgs)| ==> PendingCalls(msgs)[i].name in EventsAssistantToolNames
    ensures r == Err(InvalidRoute) <==>
              && LastIsAI(msgs)
              && !Mentions(PendingCalls(msgs), CompleteEventsAssistant)
              && exists i :: 0 <= i < |PendingCalls(msgs)| && PendingCalls(msgs)[i].name !in EventsAssistantToolNames
  {
    var calls :- LastToolCalls(msgs);
    if AnyNamed(calls, CompleteEventsAssistant) then Ok(Node(BackToPrimary))
    else if AllNamedIn(calls, EventsAssistantToolNames) then Ok(Node(EventsAssistantTools))
    else Err(InvalidRoute)
  }

  /** `route_primary_assistant`: only the first call decides between the two
      entry nodes and the primary tool node; it never reports an invalid
      route, because `tools_condition` already excluded an empty call list. */
  function RoutePrimaryAssistant(msgs: seq<Message>): (r: Result<Target>)
    ensures |msgs| == 0 <==> r.Err?
    ensures r != Err(InvalidRoute)
    ensures |msgs| > 0 && |PendingCalls(msgs)| == 0 <==> r == Ok(End)
    ensures |PendingCalls(msgs)| > 0 ==>
              r == Ok(Node(
                if PendingCalls(msgs)[0].name == ToWebSupervisor then EnterWebSupervisor
                else if PendingCalls(msgs)[0].name == ToEventsAssistant then EnterEventsAssistant
                else PrimaryAssistantTools))
  {
    var cond :- ToolsCondition(msgs);
    if cond == End then Ok(End)
    else
      var calls := PendingCalls(msgs);
      if |calls| > 0 then
        if calls[0].name == ToWebSupervisor then Ok(Node(EnterWebSupervisor))
        else if calls[0].name == ToEventsAssistant then Ok(Node(EnterEventsAssistant))
        else Ok(Node(PrimaryAssistantTools))
      else Err(InvalidRoute)
  }

  /** Calls after the first one never change the primary assistant's route. */
  lemma PrimaryRouteIgnoresLaterCalls(m1: seq<Message>, m2: seq<Message>)
    requires |m1| > 0 && |m2| > 0
    requires |PendingCalls(m1)| > 0 && |PendingCalls(m2)| > 0
    requires PendingCalls(m1)[0].name == PendingCalls(m2)[0].name
    ensures RoutePrimaryAssistant(m1) == RoutePrimaryAssistant(m2)
  {
  }

  /** `route_to_workflow`: the top of the dialog stack, or the primary
      assistant when the stack is missing or empty. */
  function RouteToWorkflow(dialog: seq<string>): (r: Target)
    ensures r.Node?
    ensures |dialog| == 0 ==> r.name == PrimaryAssistant
    ensures |dialog| > 0 ==> r.name == dialog[|dialog| - 1]
  {
    if |dialog| == 0 then Node(PrimaryAssistant) else Node(dialog[|dialog| - 1])
  }

  // ---------------------------------------------------------------------
  // Entry and exit nodes

  const EntryOpening: string := "The assistant is now the "
  const EntryMiddle: string :=
    ". Reflect on the above conversation between the host assistant and the user."
    + " The user's intent is unsatisfied. Use the provided tools to assist the user. Remember, you are "
  const EntryClosing: string :=
    ","
    + " and the booking, update, other other action is not complete until after you have successfully invoked the appropriate tool."
    + " Do not mention who you are - just act as the proxy for the assistant."

  /** The hand-off text of an entry node, naming the assistant twice. */
  function EntryText(assistantName: string): string {
    EntryOpening + assistantName + EntryMiddle + assistantName + EntryClosing
  }

  const BackText: string :=
    "Transitioning back to the primary assistant to evaluate whether the initial task has been accomplished or not. "

  /** The update both adapters return: one tool message answering the first
      pending call, and the dialog-state value. */
  function Handoff(text: string, dialogState: string, msgs: seq<Message>): (r: Result<Update>)
    ensures r.Ok? <==> |PendingCalls(msgs)| > 0
    ensures r.Ok? ==>
              && |r.value.messages| == 1
              && r.value.messages[0] == Tool(Text(text), PendingCalls(msgs)[0].id)
              && r.value.dialogState == Some(dialogState)
              && r.value.userInfo == None && r.value.eventsStatus == None
  {
    var id :- FirstCallId(msgs);
    Ok(Update([Tool(Text(text), id)], Some(dialogState), None, None))
  }

  /** The node `create_entry_node(assistant_name, new_dialog_state)` builds. */
  function EntryNode(assistantName: string, newDialogState: string, msgs: seq<Message>): (r: Result<Update>)
    ensures r.Ok? <==> |PendingCalls(msgs)| > 0
    ensures r.Ok? ==>
              && |r.value.messages| == 1
              && r.value.messages[0] == Tool(Text(EntryText(assistantName)), PendingCalls(msgs)[0].id)
              && r.value.dialogState == Some(newDialogState)
              && r.value.userInfo == None && r.value.eventsStatus == None
  {
    Handoff(EntryText(assistantName), newDialogState, msgs)
  }

  /** The node `create_back_to_primary()` builds: the dialog state becomes
      the primary assistant's. */
  function BackToPrimaryNode(msgs: seq<Message>): (r: Result<Update>)
    ensures r.Ok? <==> |PendingCalls(msgs)| > 0
    ensures r.Ok? ==>
              && r.value.messages == [Tool(Text(BackText), PendingCalls(msgs)[0].id)]
              && r.value.dialogState == Some(PrimaryAssistant)
              && r.value.userInfo == None && r.value.eventsStatus == None
  {
    Handoff(BackText, PrimaryAssistant, msgs)
  }

  /** `enter_web_supervisor`: hands the first pending call over to the web
      supervisor and pushes its name. */
  function EnterWebSupervisorNode(msgs: seq<Message>): (r: Result<Update>)
    ensures r.Ok? <==> |PendingCalls(msgs)| > 0
    ensures r.Ok? ==>
              && r.value.messages == [Tool(Text(EntryText("Web Supervisor / Surfer (events registration)")),
                                           PendingCalls(msgs)[0].id)]
              && r.value.dialogState == Some(WebSupervisor)
              && r.value.userInfo == None && r.value.eventsStatus == None
  {
    EntryNode("Web Supervisor / Surfer (events registration)", WebSupervisor, msgs)
  }

  /** `enter_events_assistant`: hands the first pending call over to the
      events assistant and pushes its name. */
  function EnterEventsAssistantNode(msgs: seq<Message>): (r: Result<Update>)
    ensures r.Ok? <==> |PendingCalls(msgs)| > 0
    ensures r.Ok? ==>
              && r.value.messages == [Tool(Text(EntryText("Events Assistant (search)")), PendingCalls(msgs)[0].id)]
              && r.value.dialogState == Some(EventsAssistant)
              && r.value.userInfo == None && r.value.eventsStatus == None
  {
    EntryNode("Events Assistant (search)", EventsAssistant, msgs)
  }

  /** The `fetch_user_info` node: stores the profile and nothing else. */
  function FetchUserInfoNode(profile: UserInfo): (u: Update)
    ensures u.userInfo == Some(profile)
    ensures u.messages == [] && u.dialogState == None && u.eventsStatus == None
  {
    Update([], None, Some(profile), None)
  }

  /** After an entry node's update is applied, the workflow router sends the
      run to the assistant that was entered. */
  lemma EntryThenWorkflow(s: State, assistantName: string, newDialogState: string)
    requires newDialogState != Pop
    requires EntryNode(assistantName, newDialogState, s.messages).Ok?
    ensures RouteToWorkflow(Apply(s, EntryNode(assistantName, newDialogState, s.messages).value).dialogState)
            == Node(newDialogState)
  {
  }

  /** The exit node pushes the primary assistant's name rather than popping:
      the stack grows by one and its top becomes the primary assistant. */
  lemma BackToPrimaryPushes(s: State)
    requires BackToPrimaryNode(s.messages).Ok?
    ensures var t := Apply(s, BackToPrimaryNode(s.messages).value).dialogState;
            |t| == |s.dialogState| + 1 && t[..|s.dialogState|] == s.dialogState
            && RouteToWorkflow(t) == Node(PrimaryAssistant)
  {
  }

  /** As declared, a run that starts without a dialog stack keeps none,
      whatever the nodes return, so the workflow router always answers the
      primary assistant. */
  lemma AsWrittenWorkflowIsPrimary(s: State, us: seq<Update>)
    requires s.dialogState == []
    ensures RouteToWorkflow(ApplyAllAsWritten(s, us).dialogState) == Node(PrimaryAssistant)
  {
    AsWrittenStackNeverChanges(s, us);
  }

  /** Where the discrepancy shows. Within the invocation that enters the
      events assistant, the fixed edge leads there under either state.
      A later invocation of the same thread passes through `START` and
      `fetch_user_info` again, and `route_to_workflow` then decides. The
      updates in between (`later`: the events assistant's, its tools', the
      new input, `fetch_user_info`'s) push nothing. With the intended
      reducer the run returns to the events assistant; as declared it
      returns to the primary assistant. */
  lemma EntryLostAsWritten(s: State, u: Update, later: seq<Update>)
    requires s.dialogState == []
    requires EnterEventsAssistantNode(s.messages) == Ok(u)
    requires NoDialogUpdates(later)
    ensures Next(EnterEventsAssistant, Apply(s, u)) == Ok(Node(EventsAssistant))
    ensures Next(EnterEventsAssistant, ApplyAsWritten(s, u)) == Ok(Node(EventsAssistant))
    ensures Next(FetchUserInfo, ApplyAll(Apply(s, u), later)) == Ok(Node(EventsAssistant))
    ensures Next(FetchUserInfo, ApplyAllAsWritten(ApplyAsWritten(s, u), later)) == Ok(Node(PrimaryAssistant))
  {
    StackKeptWithoutDialogUpdates(Apply(s, u), later);
    AsWrittenStackNeverChanges(ApplyAsWritten(s, u), later);
  }

  // ---------------------------------------------------------------------
  // Wiring

  /** The unconditional edges of the graph. */
  function FixedEdge(node: string): Option<string> {
    if node == StartNode then Some(FetchUserInfo)
    else if node == EnterWebSupervisor then Some(WebSupervisor)
    else if node == BackToPrimary then Some(PrimaryAssistant)
    else if node == WebAction then Some(WebSupervisor)
    else if node == EnterEventsAssistant then Some(EventsAssistant)
    else if node == EventsAssistantTools then Some(EventsAssistant)
    else if node == PrimaryAssistantTools then Some(PrimaryAssistant)
    else None
  }

  /** The transition taken after `node` has run in state `s`. */
  function Next(node: string, s: State): (r: Result<Target>)
    requires node == StartNode || node in Nodes
    ensures FixedEdge(node).Some? ==> r == Ok(Node(FixedEdge(node).value))
    ensures node == FetchUserInfo ==> r == Ok(RouteToWorkflow(s.dialogState))
    ensures node == WebSupervisor ==> r == RouteWebSupervisor(s.messages)
    ensures node == EventsAssistant ==> r == RouteEventsAssistant(s.messages)
    ensures node == PrimaryAssistant ==> r == RoutePrimaryAssistant(s.messages)
  {
    if FixedEdge(node).Some? then Ok(Node(FixedEdge(node).value))
    else if node == FetchUserInfo then Ok(RouteToWorkflow(s.dialogState))
    else if node == WebSupervisor then RouteWebSupervisor(s.messages)
    else if node == EventsAssistant then RouteEventsAssistant(s.messages)
    else RoutePrimaryAssistant(s.messages)
  }

  /** The fixed edges, whatever the state. */
  lemma StaticEdges(s: State)
    ensures Next(StartNode, s) == Ok(Node(FetchUserInfo))
    ensures Next(EnterWebSupervisor, s) == Ok(Node(WebSupervisor))
    ensures Next(BackToPrimary, s) == Ok(Node(PrimaryAssistant))
    ensures Next(WebAction, s) == Ok(Node(WebSupervisor))
    ensures Next(EnterEventsAssistant, s) == Ok(Node(EventsAssistant))
    ensures Next(EventsAssistantTools, s) == Ok(Node(EventsAssistant))
    ensures Next(PrimaryAssistantTools, s) == Ok(Node(PrimaryAssistant))
  {
  }

  /** Every name on the dialog stack is one of the three assistants. */
  ghost predicate ValidStack(st: seq<string>) {
    forall i :: 0 <= i < |st| ==> st[i] in AssistantNames
  }

  /** The entry and exit nodes keep the dialog stack made of assistant names. */
  lemma AdaptersKeepStackValid(s: State, u: Update)
    requires ValidStack(s.dialogState)
    requires || EnterWebSupervisorNode(s.messages) == Ok(u)
             || EnterEventsAssistantNode(s.messages) == Ok(u)
             || BackToPrimaryNode(s.messages) == Ok(u)
    ensures ValidStack(Apply(s, u).dialogState)
  {
  }

  /** With a valid dialog stack every transition stays inside the graph, and
      no gate ever halts the run: the approval loop of the driver is never
      entered. */
  lemma TransitionsStayInGraph(node: string, s: State)
    requires node == StartNode || node in Nodes
    requires ValidStack(s.dialogState)
    ensures Next(node, s).Ok? && Next(node, s).value.Node? ==> Next(node, s).value.name in Nodes
    ensures Next(node, s).Ok? ==> !Gate(Next(node, s).value, CompiledGates + InvokeGates).Pause?
  {
  }
}
