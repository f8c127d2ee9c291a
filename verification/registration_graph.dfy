/** The single-supervisor graph: a supervisor assistant whose tool requests
    are sent, by a fixed priority, to one of five effect nodes, each of which
    returns to the supervisor. */
module RegistrationGraph {
  import opened Common
  import opened Messages
  import opened Domain
  import opened Engine

  // Tool names the supervisor may request.
  const SearchEvents: string := "search_events"
  const GetEventDetails: string := "get_event_details"
  const ToWebRegisterForEvent: string := "ToWebRegisterForEvent"
  const CreateCalendarEvent: string := "create_calendar_event"
  const GetCalendarEvents: string := "get_calendar_events"

  // Node names.
  const StartNode: string := "__start__"
  const UserInfoAction: string := "user_info_action"
  const Supervisor: string := "supervisor"
  const WebRegisterForEvent: string := "web_register_for_event"

  /** The routing table in priority order: a tool name and the node it leads to. */
  const Priority: seq<(string, string)> := [
    (SearchEvents, SearchEvents),
    (GetEventDetails, GetEventDetails),
    (ToWebRegisterForEvent, WebRegisterForEvent),
    (CreateCalendarEvent, CreateCalendarEvent),
    (GetCalendarEvents, GetCalendarEvents)
  ]

  const EffectNodes: set<string> :=
    {SearchEvents, GetEventDetails, WebRegisterForEvent, CreateCalendarEvent, GetCalendarEvents}

  const Nodes: set<string> := EffectNodes + {UserInfoAction, Supervisor}

  /** No gates at compile time; the driver's `pause_web_action` is no node here. */
  const Gates: set<string> := {"pause_web_action"}

  /** `route_supervisor`: `END` without tool calls; otherwise the first row of
      the priority table some call names; an invalid route when none does. */
  function RouteSupervisor(msgs: seq<Message>): (r: Result<Target>)
    ensures |msgs| == 0 <==> r == Err(ValueError(NoMessagesFound))
    ensures |msgs| > 0 && |PendingCalls(msgs)| == 0 <==> r == Ok(End)
    ensures r.Ok? && r.value.Node? ==> r.value.name in EffectNodes
  {
    var cond :- ToolsCondition(msgs);
    if cond == End then Ok(End)
    else
      var calls := PendingCalls(msgs);
      if |calls| > 0 then
        if AnyNamed(calls, SearchEvents) then Ok(Node(SearchEvents))
        else if AnyNamed(calls, GetEventDetails) then Ok(Node(GetEventDetails))
        else if AnyNamed(calls, ToWebRegisterForEvent) then Ok(Node(WebRegisterForEvent))
        else if AnyNamed(calls, CreateCalendarEvent) then Ok(Node(CreateCalendarEvent))
        else if AnyNamed(calls, GetCalendarEvents) then Ok(Node(GetCalendarEvents))
        else Err(InvalidRoute)
      else Err(InvalidRoute)
  }

  /** Row `k` of the table wins exactly when some call names its tool and no
      call names the tool of an earlier row. */
  lemma RouteSupervisorPriority(msgs: seq<Message>, k: int)
    requires 0 <= k < |Priority|
    ensures RouteSupervisor(msgs) == Ok(Node(Priority[k].1)) <==>
            && Mentions(PendingCalls(msgs), Priority[k].0)
            && forall j :: 0 <= j < k ==> !Mentions(PendingCalls(msgs), Priority[j].0)
  {
    var calls := PendingCalls(msgs);
    TableNamesMentioned(calls);
    assert |calls| > 0 ==> |msgs| > 0;
    assert Mentions(calls, Priority[k].0) ==> |calls| > 0;
  }

  /** Calls that name no tool of the table are an invalid route. */
  lemma UnknownCallsAreInvalid(msgs: seq<Message>)
    ensures RouteSupervisor(msgs) == Err(InvalidRoute) <==>
            && |PendingCalls(msgs)| > 0
            && forall j :: 0 <= j < |Priority| ==> !Mentions(PendingCalls(msgs), Priority[j].0)
  {
    var calls := PendingCalls(msgs);
    TableNamesMentioned(calls);
    assert |calls| > 0 ==> |msgs| > 0;
  }

  /** The table's rows, spelled out, with the scan each row's test performs. */
  lemma TableNamesMentioned(calls: seq<ToolCall>)
    ensures Priority[0] == (SearchEvents, SearchEvents)
    ensures Priority[1] == (GetEventDetails, GetEventDetails)
    ensures Priority[2] == (ToWebRegisterForEvent, WebRegisterForEvent)
    ensures Priority[3] == (CreateCalendarEvent, CreateCalendarEvent)
    ensures Priority[4] == (GetCalendarEvents, GetCalendarEvents)
    ensures forall j :: 0 <= j < |Priority| ==> (AnyNamed(calls, Priority[j].0) <==> Mentions(calls, Priority[j].0))
  {
  }

  /** `user_info_action`: stores the profile and resets the status map to `{}`. */
  function UserInfoActionNode(profile: UserInfo): (u: Update)
    ensures u.userInfo == Some(profile)
    ensures u.eventsStatus == Some(map[])
    ensures u.messages == [] && u.dialogState == None
  {
    Update([], None, Some(profile), Some(map[]))
  }

  /** The unconditional edges of the graph. */
  function FixedEdge(node: string): Option<string> {
    if node == StartNode then Some(UserInfoAction)
    else if node == UserInfoAction || node in EffectNodes then Some(Supervisor)
    else None
  }

  /** The transition taken after `node` has run in state `s`. */
  function Next(node: string, s: State): (r: Result<Target>)
    requires node == StartNode || node in Nodes
    ensures node != Supervisor ==> r == Ok(Node(FixedEdge(node).value))
    ensures node == Supervisor ==> r == RouteSupervisor(s.messages)
  {
    if node == Supervisor then RouteSupervisor(s.messages)
    else Ok(Node(FixedEdge(node).value))
  }

  /** The run starts START → user_info_action → supervisor, every effect node
      returns to the supervisor, every transition stays in the graph, and no
      gate ever halts the run. */
  lemma Wiring(node: string, s: State)
    requires node == StartNode || node in Nodes
    ensures Next(StartNode, s) == Ok(Node(UserInfoAction))
    ensures Next(UserInfoAction, s) == Ok(Node(Supervisor))
    ensures node in EffectNodes ==> Next(node, s) == Ok(Node(Supervisor))
    ensures Next(node, s).Ok? && Next(node, s).value.Node? ==> Next(node, s).value.name in Nodes
    ensures Next(node, s).Ok? ==> !Gate(Next(node, s).value, Gates).Pause?
  {
  }
}
