/** The web registration node: it reads the registration request from the
    pending tool call, hands a task text to the browser agents, and records
    whether they reported the registration as completed. The agents' run is
    external and is the parameter `run`; `str(user_info)` is the parameter
    `show`. */
module WebRegistration {
  import opened Common
  import opened Messages
  import opened Text
  import opened Domain

  /** The tool name the node expects its call to carry. */
  const ToWebRegisterForEvent: string := "ToWebRegisterForEvent"
  const WrongTool: string := "Expected tool call to be 'ToWebRegisterForEvent'"

  /** The word the agents answer with when the registration went through. */
  const Completed: string := "COMPLETED"

  // The parts of the registration brief.
  const TaskHeader: string := "Register the user for the event at the specified URL:"
  const RequestLabel: string := "\nRequest: "
  const UrlLabel: string := "\nURL: "
  const UserLabel: string := "\nUser info: "
  const InstructionsLabel: string := "\n\nInstructions:"
  const AlreadyRegistered: string :=
    "\nThe user can already be registred for the event, if so complete the procedure by calling the 'complete' tool."
  const LoggedIn: string :=
    "\nAssume the user is logged in to the website, if the aren't exit out with error by calling the 'error' tool."
  const FillForm: string :=
    "\nIf you see a form to fill out along with the registration button, fill out the form with the user info and then click the button."
  const Checkboxes: string :=
    "\nIf you see mandatory checkboxes (with an asterisk), click on them to complete the registration form."

  /** The instruction lines that close every task. */
  function Instructions(): string {
    AlreadyRegistered + LoggedIn + FillForm + Checkboxes
  }

  /** The request line, left out when the request is empty. */
  function RequestLine(request: string): string {
    if request != "" then RequestLabel + request else ""
  }

  /** The url and profile lines and the instructions heading. */
  function TaskLines(url: string, user: string): string {
    UrlLabel + url + "." + UserLabel + user + InstructionsLabel
  }

  /** Everything after the request line. */
  function TaskTail(url: string, user: string): string {
    TaskLines(url, user) + Instructions()
  }

  /** The registration brief handed to the agents. */
  function TaskText(request: string, url: string, user: string): string {
    TaskHeader + RequestLine(request) + TaskTail(url, user)
  }

  /** Reads the request line back from a task text: the empty string when the
      header is not followed by a request line. */
  function RequestOf(task: string): string {
    if StartsWith(task, TaskHeader) then
      var rest := task[|TaskHeader|..];
      if StartsWith(rest, RequestLabel) then FirstLine(rest[|RequestLabel|..]) else ""
    else ""
  }

  /** The url label opens with a line feed and then differs from the request
      label. */
  lemma LabelsDiffer()
    ensures |UrlLabel| >= 2 && |RequestLabel| >= 2
    ensures UrlLabel[0] == '\n' && UrlLabel[1] != RequestLabel[1]
  {
  }

  /** What follows the header in a task of this shape. */
  lemma AfterHeader(request: string, tail: string)
    ensures var task := TaskHeader + RequestLine(request) + tail;
            StartsWith(task, TaskHeader) && task[|TaskHeader|..] == RequestLine(request) + tail
  {
  }

  /** A request line opens the text after the header exactly when the request
      is non-empty, and the request then runs up to the tail. */
  lemma {:induction false} RequestLineLayout(request: string, tail: string)
    requires StartsWith(tail, UrlLabel)
    ensures StartsWith(RequestLine(request) + tail, RequestLabel) <==> request != ""
    ensures request != "" ==>
              (RequestLine(request) + tail)[|RequestLabel|..] == request + "\n" + tail[1..]
  {
    LabelsDiffer();
    assert tail[0] == UrlLabel[0] && tail[1] == UrlLabel[1];
    var rest := RequestLine(request) + tail;
    if request != "" {
      assert rest == RequestLabel + (request + tail);
      SplitJoin(RequestLabel, request + tail);
      assert tail == "\n" + tail[1..];
    } else {
      assert rest == tail;
      assert rest[1] != RequestLabel[1];
    }
  }

  /** The request is read back from any text of the brief's shape whose tail
      opens with the url label. */
  lemma {:induction false} RequestOfShape(request: string, tail: string)
    requires forall k :: 0 <= k < |request| ==> request[k] != '\n'
    requires StartsWith(tail, UrlLabel)
    ensures RequestOf(TaskHeader + RequestLine(request) + tail) == request
  {
    AfterHeader(request, tail);
    RequestLineLayout(request, tail);
    if request != "" {
      FirstLineOfJoin(request, tail[1..]);
    }
  }

  /** A one-line request can be read back from the brief, and an empty request
      leaves no request line behind. */
  lemma RequestRoundTrip(request: string, url: string, user: string)
    requires forall k :: 0 <= k < |request| ==> request[k] != '\n'
    ensures RequestOf(TaskText(request, url, user)) == request
  {
    TailOpensWithUrl(url, user);
    RequestOfShape(request, TaskTail(url, user));
  }

  /** The tail opens with the url label, and with the url, profile and
      instructions-heading lines. */
  lemma TailOpensWithUrl(url: string, user: string)
    ensures StartsWith(TaskTail(url, user), UrlLabel)
    ensures StartsWith(TaskTail(url, user), TaskLines(url, user))
  {
    var lines := TaskLines(url, user);
    SplitJoin(lines, Instructions());
    assert lines == UrlLabel + (url + "." + UserLabel + user + InstructionsLabel);
    SplitJoin(UrlLabel, url + "." + UserLabel + user + InstructionsLabel);
    assert TaskTail(url, user)[..|UrlLabel|] == lines[..|UrlLabel|];
  }

  /** Whatever the request, the header opens the brief, a request line follows
      it exactly when the request is non-empty, and the url line, the profile
      line and the instructions close it. */
  lemma TaskLayout(request: string, url: string, user: string)
    ensures var task := TaskText(request, url, user);
            && StartsWith(task, TaskHeader)
            && (StartsWith(task[|TaskHeader|..], RequestLabel) <==> request != "")
            && |TaskTail(url, user)| <= |task|
            && task[|task| - |TaskTail(url, user)|..] == TaskTail(url, user)
            && StartsWith(TaskTail(url, user), TaskLines(url, user))
  {
    var tail := TaskTail(url, user);
    TailOpensWithUrl(url, user);
    AfterHeader(request, tail);
    RequestLineLayout(request, tail);
    var task := TaskText(request, url, user);
    assert task == (TaskHeader + RequestLine(request)) + tail;
    assert task[|task| - |tail|..] == tail;
  }

  /** What the node has gathered before the agents run. */
  datatype Registration = Registration(callId: string, url: string, task: string)

  /** The first half of `web_register_for_event`: the first call of the last
      message must be a registration request with `request` and `url`
      arguments, and a profile must be stored. */
  function PrepareRegistration(s: State, show: UserInfo -> string): (r: Result<Registration>)
    ensures |s.messages| == 0 ==> r == Err(IndexError)
    ensures |s.messages| > 0 && !s.messages[|s.messages| - 1].AI? ==> r == Err(AttributeError("tool_calls"))
    ensures r.Ok? <==>
              && |PendingCalls(s.messages)| > 0
              && PendingCalls(s.messages)[0].name == ToWebRegisterForEvent
              && "request" in PendingCalls(s.messages)[0].args
              && "url" in PendingCalls(s.messages)[0].args
              && s.userInfo.Some?
    ensures |PendingCalls(s.messages)| > 0 && PendingCalls(s.messages)[0].name != ToWebRegisterForEvent ==>
              r == Err(AssertionError(WrongTool))
    ensures r.Ok? ==>
              var call := PendingCalls(s.messages)[0];
              && r.value.callId == call.id
              && r.value.url == call.args["url"]
              && r.value.task == TaskText(call.args["request"], call.args["url"], show(s.userInfo.value))
  {
    var calls :- LastToolCalls(s.messages);
    if |calls| == 0 then Err(IndexError)
    else
      var call := calls[0];
      if call.name != ToWebRegisterForEvent then Err(AssertionError(WrongTool))
      else if "request" !in call.args then Err(KeyError("request"))
      else if "url" !in call.args then Err(KeyError("url"))
      else if s.userInfo.None? then Err(KeyError("user_info"))
      else
        var url := call.args["url"];
        Ok(Registration(call.id, url, TaskText(call.args["request"], url, show(s.userInfo.value))))
  }

  /** One item of a multi-modal agent message. */
  datatype SurferItem = SurferText(text: string) | SurferImage

  /** The agents' messages: plain text, or a list of text and image items. */
  datatype SurferMessage = TextMessage(content: string) | MultiModalMessage(items: seq<SurferItem>)

  /** The content of the agents' last message: its text, or the last item of a
      multi-modal message, skipping one trailing image. */
  function ExtractContent(response: seq<SurferMessage>): (r: Result<SurferItem>)
    ensures |response| == 0 ==> r == Err(IndexError)
    ensures |response| > 0 && response[|response| - 1].TextMessage? ==>
              r == Ok(SurferText(response[|response| - 1].content))
    ensures |response| > 0 && response[|response| - 1].MultiModalMessage? ==>
              var items := response[|response| - 1].items;
              && (r.Ok? <==> |items| >= 2 || (|items| == 1 && items[0].SurferText?))
              && (r.Err? ==> r.error == IndexError)
              && (r.Ok? && items[|items| - 1].SurferText? ==> r.value == items[|items| - 1])
              && (r.Ok? && items[|items| - 1].SurferImage? ==> r.value == items[|items| - 2])
  {
    if |response| == 0 then Err(IndexError)
    else
      match response[|response| - 1]
      case TextMessage(t) => Ok(SurferText(t))
      case MultiModalMessage(items) =>
        if |items| == 0 then Err(IndexError)
        else if items[|items| - 1].SurferImage? then
          if |items| >= 2 then Ok(items[|items| - 2]) else Err(IndexError)
        else Ok(items[|items| - 1])
  }

  /** Only the agents' last message is read: what came before never changes
      the content. */
  lemma OnlyLastMessageCounts(earlier: seq<SurferMessage>, final: SurferMessage)
    ensures ExtractContent(earlier + [final]) == ExtractContent([final])
  {
  }

  /** The tool message content for an extracted item: the text, or a one-item
      list holding the image. */
  function ContentOf(item: SurferItem): Content {
    match item
    case SurferText(t) => Text(t)
    case SurferImage => Blocks([OtherBlock("image")])
  }

  /** The second half: the url's record (created if absent) gets `registered`
      set to whether the agents answered exactly `COMPLETED`, and the content
      answers the call. */
  function FinishRegistration(reg: Registration, m: StatusMap, content: SurferItem): (u: Update)
    ensures u.dialogState == None && u.userInfo == None && u.eventsStatus.Some?
    ensures u.messages == [Tool(ContentOf(content), reg.callId)]
    ensures var r := u.eventsStatus.value;
            && r.Keys == m.Keys + {reg.url}
            && (forall k :: k in m && k != reg.url ==> r[k] == m[k])
            && (r[reg.url].registered == Some(true) <==> content == SurferText(Completed))
            && r[reg.url].registered.Some?
            && r[reg.url].(registered := None) == StatusOf(m, reg.url).(registered := None)
  {
    var registered := content == SurferText(Completed);
    var status := m[reg.url := StatusOf(m, reg.url).(registered := Some(registered))];
    ToolUpdate(status, Tool(ContentOf(content), reg.callId))
  }

  /** `web_register_for_event`: prepare, run the agents on the brief, record
      the outcome. */
  function WebRegisterForEvent(s: State, show: UserInfo -> string,
                               run: string -> seq<SurferMessage>): (r: Result<Update>)
    ensures PrepareRegistration(s, show).Err? ==> r == Err(PrepareRegistration(s, show).error)
    ensures var prep := PrepareRegistration(s, show);
            prep.Ok? ==>
              var content := ExtractContent(run(prep.value.task));
              && (r.Ok? <==> content.Ok?)
              && (content.Err? ==> r == Err(content.error))
              && (content.Ok? ==> r == Ok(FinishRegistration(prep.value, s.eventsStatus, content.value)))
  {
    var reg :- PrepareRegistration(s, show);
    var content :- ExtractContent(run(reg.task));
    Ok(FinishRegistration(reg, s.eventsStatus, content))
  }

  /** After a successful run, the requested url is marked registered exactly
      when the agents completed, the call is answered, and nothing but the
      history and that record changes. */
  lemma RegistrationOutcome(s: State, show: UserInfo -> string, run: string -> seq<SurferMessage>)
    requires WebRegisterForEvent(s, show, run).Ok?
    ensures var call := PendingCalls(s.messages)[0];
            var after := Apply(s, WebRegisterForEvent(s, show, run).value);
            var content := ExtractContent(run(TaskText(call.args["request"], call.args["url"], show(s.userInfo.value))));
            && content.Ok?
            && after.messages == s.messages + [Tool(ContentOf(content.value), call.id)]
            && (after.eventsStatus[call.args["url"]].registered == Some(true) <==> content.value == SurferText(Completed))
            && (forall k :: k in s.eventsStatus && k != call.args["url"] ==> after.eventsStatus[k] == s.eventsStatus[k])
            && after.userInfo == s.userInfo && after.dialogState == s.dialogState
  {
  }
}
