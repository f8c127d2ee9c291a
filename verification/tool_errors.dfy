/** The fallback a tool node runs when its tool raised: every pending call is
    answered by an error tool message, so the assistant can correct itself. */
module ToolErrors {
  import opened Common
  import opened Messages
  import opened Domain

  /** `repr(error)`: the exception's representation is computed by Python and
      taken as given; a missing `error` key reads as `None`. */
  function Repr(error: Option<string>): string {
    match error
    case None => "None"
    case Some(r) => r
  }

  const ErrorOpening: string := "Error: "
  const ErrorClosing: string := "\n please fix your mistakes."

  function ErrorText(error: Option<string>): string {
    ErrorOpening + Repr(error) + ErrorClosing
  }

  /** One tool message with content `text` per call, in call order. */
  function ErrorMessages(calls: seq<ToolCall>, text: string): (ms: seq<Message>)
    ensures |ms| == |calls|
    ensures forall i :: 0 <= i < |ms| ==> ms[i] == Tool(Text(text), calls[i].id)
  {
    if |calls| == 0 then []
    else [Tool(Text(text), calls[0].id)] + ErrorMessages(calls[1..], text)
  }

  /** `handle_tool_error`: a messages-only update answering each call of the
      last message, in order, with the same error text. */
  function HandleToolError(msgs: seq<Message>, error: Option<string>): (r: Result<Update>)
    ensures r.Ok? <==> |msgs| > 0 && msgs[|msgs| - 1].AI?
    ensures r.Ok? ==> r.value.dialogState == None && r.value.userInfo == None && r.value.eventsStatus == None
    ensures r.Ok? ==> |r.value.messages| == |PendingCalls(msgs)|
    ensures r.Ok? ==> forall i :: 0 <= i < |r.value.messages| ==>
              r.value.messages[i] == Tool(Text(ErrorOpening + Repr(error) + ErrorClosing), PendingCalls(msgs)[i].id)
  {
    var calls :- LastToolCalls(msgs);
    Ok(MessagesOnly(ErrorMessages(calls, ErrorText(error))))
  }

  /** The ids a sequence of tool calls carries. */
  function CallIds(calls: seq<ToolCall>): (ids: seq<string>)
    ensures |ids| == |calls|
    ensures forall i :: 0 <= i < |calls| ==> ids[i] == calls[i].id
  {
    if |calls| == 0 then [] else [calls[0].id] + CallIds(calls[1..])
  }

  /** The call ids a sequence of messages answers (non-tool messages answer none). */
  function AnsweredIds(ms: seq<Message>): seq<string> {
    if |ms| == 0 then []
    else (if ms[0].Tool? then [ms[0].toolCallId] else []) + AnsweredIds(ms[1..])
  }

  lemma {:induction false} AnsweredIdsOfErrors(calls: seq<ToolCall>, text: string)
    ensures AnsweredIds(ErrorMessages(calls, text)) == CallIds(calls)
    decreases |calls|
  {
    if |calls| > 0 {
      var ms := ErrorMessages(calls, text);
      assert ms[1..] == ErrorMessages(calls[1..], text);
      AnsweredIdsOfErrors(calls[1..], text);
    }
  }

  /** The fallback answers exactly the pending calls, each once and in order,
      and applying it changes nothing but the history. */
  lemma ErrorsAnswerEveryCall(s: State, error: Option<string>)
    requires HandleToolError(s.messages, error).Ok?
    ensures AnsweredIds(HandleToolError(s.messages, error).value.messages) == CallIds(PendingCalls(s.messages))
    ensures Apply(s, HandleToolError(s.messages, error).value)
            == s.(messages := s.messages + HandleToolError(s.messages, error).value.messages)
  {
    AnsweredIdsOfErrors(PendingCalls(s.messages), ErrorText(error));
  }
}
