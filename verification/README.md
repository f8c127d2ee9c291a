# events-planner-agents: routing and bookkeeping, in Dafny

The events planner is a set of LangGraph graphs in which language-model
assistants search an event index, register the user on event pages through
browser agents, and put events on a Google calendar. Around those foreign
calls sits a small layer of deterministic logic, and this project models and
proves that layer:

- the **routers** that pick the next node from the tool calls of the last
  assistant message, and the fixed edges of the three graphs: the
  multi-assistant `supervisor_main`, the single-supervisor
  `events_registor_main` and the single-assistant `single`;
- the **dialog stack** reducer `update_dialog_stack`, the entry and exit
  nodes that push onto it, and `route_to_workflow`, which reads its top;
- the **per-event status map** `events_status` as the five effect tools
  update it: `search_events`, `get_event_details`, `get_calendar_events`,
  `create_calendar_event` and `web_register_for_event`;
- the calendar **url encoding**: the event url is put on the first line of a
  created event's description and read back from there when events are
  listed;
- the recovery helpers: `handle_tool_error`, the **retry loop** of
  `EventsAssistant`, and the drivers' **approve/deny** step.

One module per source file: `Supervisor`, `RegistrationGraph`,
`SingleGraph`, `EventsTools`, `CalendarTools`, `WebRegistration`,
`ToolErrors` and `EventsAssistant`. Six shared modules support them:

- `Domain` holds the state, the updates and the stack reducer.
- `Messages` holds messages, tool calls and `tools_condition`.
- `Text` holds the Python string operations used.
- `Approval` holds the driver step.
- `Engine` holds the `interrupt_before` gate.
- `Common` holds `Option`, `Result`, the Python exceptions and graph targets.

Python exceptions are values: `Result<T>` is `Ok(value)` or
`Err(ValueError(…) | IndexError | KeyError(…) | AttributeError(…) |
AssertionError(…))`. The library condition `tools_condition` is modelled
abstractly:
- it fails on an empty history;
- it answers `END` when the last message is not an assistant message or
  requests no tool;
- it answers the tool node otherwise.

A status record is a dictionary whose keys may be missing. Every field is
therefore optional, and `scheduled_to_calendar` may also hold JSON `null`.
The record `{}` is the one record Python treats as false. `search_events`
writes the key `registred` and the web tool writes the key `registered`.
They are different keys and are kept as two fields.

Foreign code enters as function parameters:
- `json.dumps` of a hit or calendar record (`dumps`);
- `str` of a profile or created record (`show`);
- the browser agents' run (`run`);
- the language model (`llm`).

Search hits, calendar listings and the created calendar event are plain
inputs.

The source's `State` declares `messages`, `user_info` and `events_status`,
but neither declares `dialog_state` nor attaches `update_dialog_stack` to it
(`events_agent/domain/state.py:43-46`). Both halves are modelled, and the
discrepancy is listed under Findings below. Within one invocation the fixed
edges out of the entry nodes hide it; it shows when a later invocation of
the same thread passes `fetch_user_info` again. `Domain.ApplyAsWritten` is the state as declared, where the
dialog stack is never written. `Domain.Apply` is the wiring the code
evidently intends: messages are appended, the dialog stack goes through
`update_dialog_stack`, and the other keys are replaced when present. The
rest of the model uses `Domain.Apply`.

## Model

| member | source | states |
|---|---|---|
| Domain.UpdateDialogStack | events_agent/domain/state.py:49-55 | `None` keeps the stack; `"pop"` drops exactly the top, and an empty stack stays empty; any other value is pushed on top with the rest untouched; the length changes by +1, −1 floored at 0, or 0 |
| Domain.PushThenPop | events_agent/domain/state.py:53-55 | pushing a name other than `"pop"` and then popping gives the original stack back |
| Domain.Apply | events_agent/domain/state.py:43-55 | the old history stays a prefix and the update's messages follow it; `user_info` and `events_status` are replaced when the update carries them and keep their values otherwise; the dialog stack goes through `update_dialog_stack` |
| Domain.StackKeptWithoutDialogUpdates | events_agent/domain/state.py:49-55 | a run of updates none of which carries a dialog-state value leaves the dialog stack as it was |
| Domain.ApplyAsWritten | events_agent/domain/state.py:43-46 | as declared, with no `dialog_state` channel, an update never changes the dialog stack, and every other key is applied as in `Domain.Apply` |
| Domain.AsWrittenStackNeverChanges | events_agent/domain/state.py:43-46 | as declared, no run of updates, however long, changes the dialog stack |
| Messages.FirstCallId | events_agent/graph/supervisor_main.py:34 | `messages[-1].tool_calls[0]["id"]` succeeds exactly when the last message is an assistant message with a call, and yields that call's id |
| Messages.ToolsCondition | events_agent/graph/events_registor_main.py:92-94 | the condition fails only on an empty history and answers `END` exactly when no tool call is pending |
| Messages.AnyNamed | events_agent/graph/supervisor_main.py:133 | `any(tc["name"] == n …)` holds exactly when some call has that name |
| Messages.AllNamedIn | events_agent/graph/supervisor_main.py:136 | `all(tc["name"] in names …)` holds exactly when every call's name is in the set, vacuously for none |
| Supervisor.RouteWebSupervisor | events_agent/graph/supervisor_main.py:126-140 | no calls → `END`; a `CompleteWebAction` anywhere → `back_to_primary`; only `ToWebAction` calls → `web_action`; any other mix → "Invalid route"; each outcome stated as an if-and-only-if |
| Supervisor.RouteEventsAssistant | events_agent/graph/supervisor_main.py:184-197 | never `END`; a `CompleteEventsAssistant` anywhere → `back_to_primary`; otherwise all names in `{search_events}`, including no calls at all → `events_assistant_tools`; otherwise "Invalid route"; a non-assistant last message fails before routing |
| Supervisor.RoutePrimaryAssistant | events_agent/graph/supervisor_main.py:214-227 | no calls → `END`; otherwise the first call alone picks `enter_web_supervisor`, `enter_events_assistant` or `primary_assistant_tools`; "Invalid route" is never raised |
| Supervisor.PrimaryRouteIgnoresLaterCalls | events_agent/graph/supervisor_main.py:220-226 | two histories whose first pending calls share a name route the same, whatever the other calls are |
| Supervisor.RouteToWorkflow | events_agent/graph/supervisor_main.py:241-252 | an empty dialog stack → `primary_assistant`; otherwise its top |
| Supervisor.EnterWebSupervisorNode | events_agent/graph/supervisor_main.py:77-81 | `enter_web_supervisor` succeeds exactly when a call is pending, answers the first one with the hand-off text naming the web supervisor, sets the dialog state to `web_supervisor` and leaves the other keys alone |
| Supervisor.EnterEventsAssistantNode | events_agent/graph/supervisor_main.py:178-182 | `enter_events_assistant` succeeds exactly when a call is pending, answers the first one with the hand-off text naming the events assistant, sets the dialog state to `events_assistant` and leaves the other keys alone |
| Supervisor.Handoff | events_agent/graph/supervisor_main.py:32-64 | an adapter emits exactly one tool message answering the first pending call's id and sets the dialog state; it fails when no call is pending |
| Supervisor.EntryNode | events_agent/graph/supervisor_main.py:32-48 | the entry node answers the first call with the hand-off text naming the assistant and sets the dialog state to the given name |
| Supervisor.BackToPrimaryNode | events_agent/graph/supervisor_main.py:51-64 | the exit node answers the first call with the back-to-primary text and sets the dialog state to `primary_assistant` |
| Supervisor.FetchUserInfoNode | events_agent/graph/supervisor_main.py:67-68 | `fetch_user_info` stores the profile and touches nothing else |
| Supervisor.EntryThenWorkflow | events_agent/graph/supervisor_main.py:241-252 | after an entry node's update is applied, the workflow router goes to the assistant just entered |
| Supervisor.BackToPrimaryPushes | events_agent/graph/supervisor_main.py:61 | the exit node pushes `primary_assistant` and does not pop: the stack grows by one, the old stack is its prefix, and the workflow router then answers `primary_assistant` |
| Supervisor.AsWrittenWorkflowIsPrimary | events_agent/graph/supervisor_main.py:249-252 | as declared, a run that starts without a dialog stack has `route_to_workflow` answer `primary_assistant` after any run of updates |
| Supervisor.EntryLostAsWritten | events_agent/graph/supervisor_main.py:178-252 | after `enter_events_assistant` on a run with no stack, its fixed edge leads to `events_assistant` under both reducers; a later invocation of the thread, through START and `fetch_user_info`, with updates that push nothing in between, has `route_to_workflow` answer `events_assistant` with the intended reducer and `primary_assistant` as declared |
| Supervisor.Next | events_agent/graph/supervisor_main.py:74-254 | each node's transition: its fixed edge, or its router, or `route_to_workflow` after `fetch_user_info` |
| Supervisor.StaticEdges | events_agent/graph/supervisor_main.py:75-239 | START→`fetch_user_info`, `enter_web_supervisor`→`web_supervisor`, `back_to_primary`→`primary_assistant`, `web_action`→`web_supervisor`, `enter_events_assistant`→`events_assistant`, `events_assistant_tools`→`events_assistant`, `primary_assistant_tools`→`primary_assistant`, in every state |
| Supervisor.AdaptersKeepStackValid | events_agent/graph/supervisor_main.py:32-64 | the entry and exit nodes keep the dialog stack made only of the three assistant names |
| Supervisor.TransitionsStayInGraph | events_agent/graph/supervisor_main.py:241-254 | with such a stack every transition names a node of the graph, and no gate, compiled or requested by the driver, ever halts the run |
| Engine.Gate | events_agent/graph/single.py:73-76 | the runtime halts exactly before a gated node, runs any other node and finishes on `END` |
| Approval.ReadReply | events_agent/graph/supervisor_main.py:286-289 | a failing `input()` counts as the reply `"y"` |
| Approval.DenialRoundTrip | events_agent/graph/supervisor_main.py:304 | the reply can be read back verbatim from the denial text, whatever it contains |
| Approval.Decide | events_agent/graph/supervisor_main.py:291-309 | `strip() == "y"` resumes with no input; any other reply injects one tool message answering the first pending call's id, quoting the unstripped reply; without a pending call it fails |
| Approval.ApprovesIff | events_agent/graph/supervisor_main.py:291 | a reply resumes exactly when it is one `y` framed by whitespace |
| Text.Strip | events_agent/graph/supervisor_main.py:291 | `str.strip()`: the result is a contiguous slice of the input, only whitespace is cut on either side, and the result neither starts nor ends with whitespace |
| Text.StripOfFramed | events_agent/graph/supervisor_main.py:291 | conversely, any text that neither starts nor ends with whitespace and sits in the input with only whitespace around it is exactly what `str.strip()` returns |
| ToolErrors.ErrorMessages | events_agent/utils/lang.py:22-28 | one tool message per call, in call order, the i-th answering the i-th call's id |
| ToolErrors.HandleToolError | events_agent/utils/lang.py:18-29 | succeeds exactly when the last message is an assistant message; then it emits as many messages as there are calls, the i-th answering the i-th id, each reading `Error: <repr>\n please fix your mistakes.`; the update has no other key |
| ToolErrors.AnsweredIdsOfErrors | events_agent/utils/lang.py:25-27 | the ids the error messages answer are exactly the calls' ids, in order |
| ToolErrors.ErrorsAnswerEveryCall | events_agent/graph/events_registor_main.py:27-38 | the registration graph's copy of the fallback answers every pending call once and in order, and applying it changes nothing but the history |
| RegistrationGraph.RouteSupervisor | events_agent/graph/events_registor_main.py:91-108 | no calls → `END`, an empty history fails, and every node the router names is one of the five effect nodes |
| RegistrationGraph.RouteSupervisorPriority | events_agent/graph/events_registor_main.py:97-107 | table row k wins exactly when some call names its tool and no call names an earlier row's tool (`search_events` > `get_event_details` > `ToWebRegisterForEvent` > `create_calendar_event` > `get_calendar_events`) |
| RegistrationGraph.UnknownCallsAreInvalid | events_agent/graph/events_registor_main.py:108 | "Invalid route" is raised exactly when calls are pending and none names a tool of the table |
| RegistrationGraph.UserInfoActionNode | events_agent/graph/events_registor_main.py:41-45 | stores the profile and resets the status map to `{}` |
| RegistrationGraph.Next | events_agent/graph/events_registor_main.py:110-145 | the supervisor's transition is its router; every other node follows its fixed edge |
| RegistrationGraph.Wiring | events_agent/graph/events_registor_main.py:124-145 | the run starts START→`user_info_action`→`supervisor`, every effect node returns to `supervisor`, transitions stay in the graph, and the requested `pause_web_action` gate never fires |
| SingleGraph.RouteTools | events_agent/graph/single.py:57-65 | no calls → `END`; otherwise only the first call is inspected: `sensitive_tools` exactly when its name is sensitive, `safe_tools` exactly when it is not |
| SingleGraph.EveryRequestIsSafe | events_agent/graph/single.py:46-47 | with the configured empty sensitive set every tool request goes to `safe_tools` |
| SingleGraph.Next | events_agent/graph/single.py:67-69 | the assistant's transition is its router; both tool nodes and START lead to the assistant |
| SingleGraph.GateNeverFires | events_agent/graph/single.py:67-76 | the gate stands before `sensitive_tools`, yet no transition of the graph ever pauses there |
| EventsTools.RecordResults | events_agent/tools/events.py:110-117 | the keys afterwards are the old keys plus the hits' urls, and urls not among the hits keep their records |
| EventsTools.SearchMarksFound | events_agent/tools/events.py:111-117 | every hit's url ends up `found`, not `registred`, with `scheduled_to_calendar` set to `null` |
| EventsTools.SearchKeepsRegistered | events_agent/tools/events.py:112-117 | searching never changes the separate `registered` key of any record |
| EventsTools.SearchDetailsAreLastHit | events_agent/tools/events.py:111-117 | a url's stored details are those of its last hit |
| EventsTools.SearchEvents | events_agent/tools/events.py:119-142 | one tool message answering the call: one JSON text item per hit in hit order, or `NOT_FOUND` without hits; the status map is returned in both cases |
| EventsTools.DetailsStatus | events_agent/tools/events.py:184-191 | afterwards the url's key exists; a hit sets `found` and the details, a miss sets `found=False` and keeps the details; other fields and other keys are untouched |
| EventsTools.GetEventDetails | events_agent/tools/events.py:193-207 | the tool message holds the first hit as JSON, or `NOT_FOUND` on a miss |
| Text.FirstLine | events_agent/tools/calendar.py:66 | `split("\n")[0]` is the longest line-feed-free prefix, ended by a line feed or the end of the text |
| CalendarTools.UrlOfDescription | events_agent/tools/calendar.py:65-67 | a url is extracted exactly when the description's first line starts with `http://` or `https://`; the url is then a line-feed-free prefix of the description followed by a line feed or the end |
| CalendarTools.ReadItem | events_agent/tools/calendar.py:64-79 | a listed event's record carries its description (a missing one reads as `""`), the url extracted from it, and its other fields as given |
| CalendarTools.MarkScheduled | events_agent/tools/calendar.py:81-88 | no key is created; a record is marked `scheduled_to_calendar=True` exactly when its key is a listed url and it is non-empty; all else is untouched |
| CalendarTools.ListingMarks | events_agent/tools/calendar.py:81-88 | a listing marks a present, non-empty record scheduled exactly when some listed description reads back its url; otherwise the record's calendar state is kept |
| CalendarTools.MarkScheduledIdempotent | events_agent/tools/calendar.py:81-88 | listing the same events twice marks nothing more than listing them once |
| CalendarTools.GetCalendarEvents | events_agent/tools/calendar.py:81-103 | the keys are unchanged; one JSON item per listed event in order; a non-empty record is scheduled afterwards exactly when it was before or a listed event carries its url |
| CalendarTools.ComposeDescription | events_agent/tools/calendar.py:135 | with a url the description starts with the url and a blank line, followed by the description (`None` rendered as such); without one it is the description alone |
| CalendarTools.EventBody | events_agent/tools/calendar.py:135-142 | the body sent carries the composed description and the given title, location and times |
| CalendarTools.ComposedUrlReadsBack | events_agent/tools/calendar.py:135 | round trip with lines 65-67: an http(s) url without line feeds is extracted back from the description built for it |
| CalendarTools.CreateStatus | events_agent/tools/calendar.py:156-159 | the url's record, created if absent and under the key `""` without a url, gets `scheduled_to_calendar=True`; its other fields and all other keys are kept |
| CalendarTools.CreateCalendarEvent | events_agent/tools/calendar.py:146-166 | one tool message answering the call with the created record, which carries the given url and the service's fields |
| CalendarTools.CreateSearchListRoundTrip | events_agent/tools/calendar.py:81-88 | creating an event marks the url scheduled, a search hit resets it to `null` (events.py:111-117), and a later listing marks it scheduled again exactly when a listed description reads back the url, which the description the event was created with does |
| WebRegistration.RequestRoundTrip | events_agent/tools/web_surfer.py:134-138 | a one-line request is read back from the registration brief (`task`), and an empty request leaves no request line |
| WebRegistration.TaskLayout | events_agent/tools/web_surfer.py:134-145 | the registration brief (`task`) opens with the header; a request line follows exactly when the request is non-empty; the url line, the profile line and the instructions always close it |
| WebRegistration.PrepareRegistration | events_agent/tools/web_surfer.py:126-145 | succeeds exactly when the first pending call is `ToWebRegisterForEvent` with `request` and `url` arguments and a profile is stored; a wrongly named call fails its assertion; the brief is built from those arguments |
| WebRegistration.ExtractContent | events_agent/tools/web_surfer.py:163-170 | a text message gives its text; a multi-modal message gives its last item, or the one before when the last is an image, failing when there is none |
| WebRegistration.OnlyLastMessageCounts | events_agent/tools/web_surfer.py:163 | the content depends only on the agents' last message: earlier messages never change it |
| WebRegistration.FinishRegistration | events_agent/tools/web_surfer.py:175-186 | only the url's `registered` field is written, to true exactly when the content is `"COMPLETED"`; the record is created if absent; other fields and keys are kept; one tool message answers the call |
| WebRegistration.WebRegisterForEvent | events_agent/tools/web_surfer.py:125-186 | the node succeeds exactly when the preparation succeeds and the agents' last message yields content, and then returns `FinishRegistration`'s update for that content; otherwise it fails with the first error, the preparation's before the extraction's |
| WebRegistration.RegistrationOutcome | events_agent/tools/web_surfer.py:175-186 | after a successful run the call is answered with the content, the url is registered exactly when the agents completed, and nothing else in the state changes |
| EventsAssistant.EmptyTest | events_agent/assistant/events.py:20 | the loop's test, read with Python's precedence and short-circuiting, raises `AttributeError` exactly when there is no tool call and the content is a list whose first item is a plain string; otherwise it holds exactly when the reply has no tool call, no non-empty text, and no list whose first item is a non-empty text |
| EventsAssistant.Invoke | events_agent/assistant/events.py:16-25 | the returned update holds only the first real reply, or the node raises the test's `AttributeError`; each earlier empty reply added exactly one retry prompt; the history the model saw is the original followed by those prompts, and the other state fields are unchanged; it agrees with `FirstRealReply` |
| EventsAssistant.RetriesOnlyAppendPrompts | events_agent/assistant/events.py:17-25 | the run ends on the model's answer to the original history plus k prompts, every earlier answer being empty; that answer is returned, or the test raised on it |

## Left out

- Domain.Apply: models the evidently intended `dialog_state` channel with `update_dialog_stack`, which `State` does not declare. As declared, the entry nodes' value never reaches `route_to_workflow` (`Domain.ApplyAsWritten`, `Supervisor.AsWrittenWorkflowIsPrimary`); the difference shows only on a later invocation of the same thread (`Supervisor.EntryLostAsWritten`). What the runtime does with an update key the schema does not declare is not modelled. The model takes it to be dropped.
- Language-model calls, prompt templates and tool binding are left out; the model appears only as the `llm` parameter of `EventsAssistant.Invoke`.
- EventsAssistant.Invoke: runs at most `fuel` attempts. The source loops without bound and only ends when the model answers with a real output or the test raises. Running out of fuel returns `Ok(None)`.
- OpenSearch query bodies, their floating-point `script_score` ranking and the client are left out. The hits are an input.
- Google Calendar authentication and API calls are left out, and so is the `utcnow` default of the listing window. The listed items and the created event are inputs.
- CalendarTools.CreateCalendarEvent: a `url` argument of `null` is not modelled. The status map is keyed by strings, and the source would use `None` as a key.
- The browser agents are left out: the autogen/playwright team, its turn limit and its termination words. Their run is the parameter `run`, a function of the registration brief. `events_agent/assistant/web_surfer.py` and `do_web_action` are not part of this model.
- WebRegistration.ContentOf: an image extracted as the content becomes a one-item non-text content. How the message library coerces such a value is not modelled.
- EventsTools.DetailsStatus: the first hit is treated as a non-empty document, so `if result:` and `if results:` agree. A hit whose document is `{}` is not representable.
- Hits without a `url` field (a `KeyError` in the source) are not representable: `EventDetails` always has a url.
- `json.dumps`, `repr` and `str` are left out as code. They enter as parameters (`dumps`, `show`) or, for `repr(error)`, as the given text.
- The LangGraph runtime is left out:
  - `add_messages` merging by message id (modelled as appending);
  - checkpointing;
  - `ToolNode` dispatch and `with_fallbacks`.
  
  Only the halt before an `interrupt_before` node is modelled (`Engine.Gate`).
- Console output (`print`, `print_message`), file logging and `asyncio` driving are left out. `input()` appears only as `Approval.ReadReply`.
- `fetch_user_info` returns a constant profile, which is taken as a parameter. `notebooks/test.py` and `events_agent/main/run_single.py` are not part of this model.

## Findings

| source | as written | input that shows it | evidently intended | confidence | as-written member | corrected member |
|---|---|---|---|---|---|---|
| events_agent/domain/state.py:43-46 | `State` has no `dialog_state` key and no `update_dialog_stack` reducer, so the entry nodes' `dialog_state` value is never stored and `route_to_workflow` always answers `primary_assistant` | an invocation whose primary assistant calls `ToEventsAssistant`, so that `enter_events_assistant` runs (its fixed edge then leads to `events_assistant` either way), followed by a second `ainvoke` with input on the same thread, such as the denial resume at `events_agent/graph/supervisor_main.py:296-309`: that call starts again at START, passes `fetch_user_info` and lets `route_to_workflow` choose. Under the driver as shipped the effect is latent, because no compiled or requested gate ever fires, so no second invocation happens | a `dialog_state: Annotated[list[str], update_dialog_stack]` key, so that `route_to_workflow` returns to the assistant last entered | medium, not executed | Supervisor.EntryLostAsWritten | Supervisor.EntryThenWorkflow |
