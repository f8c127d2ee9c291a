/** The shared task state of the graphs: the conversation, the user's
    profile, the per-event status map and the dialog stack, together with the
    partial updates nodes return and the dialog-stack reducer. */
module Domain {
  import opened Common
  import opened Messages

  /** The user's profile, as `fetch_user_info` returns it. */
  datatype UserInfo = UserInfo(name: string, email: string, twitter: string,
                               linkedin: string, company: string, role: string)

  /** One event document of the search index. Only its `url` is interpreted;
      the other attributes are carried as they come. */
  datatype EventDetails = EventDetails(url: string, attributes: map<string, string>)

  /** The status record kept per event url. Every field is a dictionary key
      that may be missing (`None`). `scheduled` may also be present and hold
      JSON `null` (`Some(None)`). The two keys `registred` and `registered`
      are written by different tools and are kept apart. */
  datatype EventStatus = EventStatus(
    found: Option<bool>,
    registred: Option<bool>,
    registered: Option<bool>,
    scheduled: Option<Option<bool>>,
    details: Option<EventDetails>)

  /** The empty record `{}`: the only status record Python treats as false. */
  const NoStatus: EventStatus := EventStatus(None, None, None, None, None)

  type StatusMap = map<string, EventStatus>

  /** `events_status.get(url, {})`. */
  function StatusOf(m: StatusMap, url: string): EventStatus {
    if url in m then m[url] else NoStatus
  }

  /** The graph state. A missing `events_status` or `dialog_state` reads the
      same as an empty one everywhere it is read, so both are plain values. */
  datatype State = State(
    messages: seq<Message>,
    userInfo: Option<UserInfo>,
    eventsStatus: StatusMap,
    dialogState: seq<string>)

  /** A node's partial update: the new messages, the value handed to the
      dialog-stack reducer, and the keys it replaces (`None` when absent). */
  datatype Update = Update(
    messages: seq<Message>,
    dialogState: Option<string>,
    userInfo: Option<UserInfo>,
    eventsStatus: Option<StatusMap>)

  /** An update that only adds messages. */
  function MessagesOnly(msgs: seq<Message>): Update {
    Update(msgs, None, None, None)
  }

  /** A tool's `Command(update={"events_status": …, "messages": [m]})`. */
  function ToolUpdate(status: StatusMap, m: Message): Update {
    Update([m], None, None, Some(status))
  }

  /** The marker that pops the dialog stack. */
  const Pop: string := "pop"

  /** `update_dialog_stack`: `None` keeps the stack, `"pop"` drops its top
      (an empty stack stays empty), anything else is pushed. */
  function UpdateDialogStack(left: seq<string>, right: Option<string>): (r: seq<string>)
    ensures right == None ==> r == left
    ensures right == Some(Pop) && |left| > 0 ==> r + [left[|left| - 1]] == left
    ensures right == Some(Pop) && |left| == 0 ==> r == []
    ensures right.Some? && right.value != Pop ==>
              |r| == |left| + 1 && r[..|left|] == left && r[|left|] == right.value
    ensures |r| == if right == None then |left|
                   else if right == Some(Pop) then (if |left| > 0 then |left| - 1 else 0)
                   else |left| + 1
  {
    if right == None then left
    else if right.value == Pop then (if |left| > 0 then left[..|left| - 1] else [])
    else left + [right.value]
  }

  /** Pushing a name and then popping gives the original stack back. */
  lemma PushThenPop(s: seq<string>, x: string)
    requires x != Pop
    ensures UpdateDialogStack(UpdateDialogStack(s, Some(x)), Some(Pop)) == s
  {
  }

  /** The state after a node's update, with the reducers the graph intends:
      messages are appended, the dialog stack goes through
      `UpdateDialogStack`, and present keys replace the old values. */
  function Apply(s: State, u: Update): (r: State)
    ensures |r.messages| == |s.messages| + |u.messages|
    ensures r.messages[..|s.messages|] == s.messages
    ensures r.messages[|s.messages|..] == u.messages
    ensures u.userInfo == None ==> r.userInfo == s.userInfo
    ensures u.eventsStatus == None ==> r.eventsStatus == s.eventsStatus
    ensures u.dialogState == None ==> r.dialogState == s.dialogState
    ensures u.userInfo.Some? ==> r.userInfo == u.userInfo
    ensures u.eventsStatus.Some? ==> r.eventsStatus == u.eventsStatus.value
    ensures r.dialogState == UpdateDialogStack(s.dialogState, u.dialogState)
  {
    State(
      s.messages + u.messages,
      if u.userInfo.Some? then u.userInfo else s.userInfo,
      if u.eventsStatus.Some? then u.eventsStatus.value else s.eventsStatus,
      UpdateDialogStack(s.dialogState, u.dialogState))
  }

  /** A run of updates applied in order, with the intended reducers. */
  function ApplyAll(s: State, us: seq<Update>): State
    decreases |us|
  {
    if |us| == 0 then s else ApplyAll(Apply(s, us[0]), us[1..])
  }

  /** No update of the run carries a dialog-state value. */
  predicate NoDialogUpdates(us: seq<Update>) {
    forall i :: 0 <= i < |us| ==> us[i].dialogState == None
  }

  /** Updates that carry no dialog-state value leave the dialog stack as it was. */
  lemma {:induction false} StackKeptWithoutDialogUpdates(s: State, us: seq<Update>)
    requires NoDialogUpdates(us)
    ensures ApplyAll(s, us).dialogState == s.dialogState
    decreases |us|
  {
    if |us| > 0 {
      StackKeptWithoutDialogUpdates(Apply(s, us[0]), us[1..]);
    }
  }

  /** The state after a node's update as `State` is declared: the schema has
      no `dialog_state` channel, so the stack is never written, whatever the
      update carries; every other key is applied as `Apply` applies it. */
  function ApplyAsWritten(s: State, u: Update): (r: State)
    ensures r.dialogState == s.dialogState
    ensures r.(dialogState := []) == Apply(s, u).(dialogState := [])
  {
    State(
      s.messages + u.messages,
      if u.userInfo.Some? then u.userInfo else s.userInfo,
      if u.eventsStatus.Some? then u.eventsStatus.value else s.eventsStatus,
      s.dialogState)
  }

  /** A run of updates applied in order to the state as declared. */
  function ApplyAllAsWritten(s: State, us: seq<Update>): State
    decreases |us|
  {
    if |us| == 0 then s else ApplyAllAsWritten(ApplyAsWritten(s, us[0]), us[1..])
  }

  /** As declared, no run of updates ever changes the dialog stack. */
  lemma {:induction false} AsWrittenStackNeverChanges(s: State, us: seq<Update>)
    ensures ApplyAllAsWritten(s, us).dialogState == s.dialogState
    decreases |us|
  {
    if |us| > 0 {
      AsWrittenStackNeverChanges(ApplyAsWritten(s, us[0]), us[1..]);
    }
  }
}
