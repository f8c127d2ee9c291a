/** The approve/deny step the drivers run while a graph is halted before a
    gated node: a reply of `y` resumes the run unchanged, any other reply is
    injected as a tool message that answers the pending call with a denial. */
module Approval {
  import opened Common
  import opened Messages
  import opened Text

  /** The reply read from the console; a failing `input()` counts as `"y"`. */
  function ReadReply(input: Option<string>): (reply: string)
    ensures input == None ==> reply == "y"
    ensures input.Some? ==> reply == input.value
  {
    match input
    case None => "y"
    case Some(s) => s
  }

  const DenialOpening: string := "API call denied by user. Reasoning: '"
  const DenialClosing: string := "'. Continue assisting, accounting for the user's input."

  /** The denial text, quoting the reply verbatim (not stripped). */
  function DenialText(reply: string): string {
    DenialOpening + reply + DenialClosing
  }

  /** Recovers the quoted reply from a denial text. */
  function ParseDenial(t: string): Option<string> {
    var o := |DenialOpening|;
    var c := |DenialClosing|;
    if o + c <= |t| && t[..o] == DenialOpening && t[|t| - c..] == DenialClosing
    then Some(t[o..|t| - c])
    else None
  }

  /** The reply can be read back from the denial message, whatever it is. */
  lemma DenialRoundTrip(reply: string)
    ensures ParseDenial(DenialText(reply)) == Some(reply)
  {
  }

  /** How the driver resumes: with no input, or with one injected message. */
  datatype Resume = Continue | Inject(message: Message)

  /** The driver's branch on the reply, given the history at the halt:
      `reply.strip() == "y"` resumes; otherwise the denial answers the first
      call of the last message, which fails when there is none. */
  function Decide(reply: string, paused: seq<Message>): (r: Result<Resume>)
    ensures Strip(reply) == "y" ==> r == Ok(Continue)
    ensures Strip(reply) != "y" ==> (r.Ok? <==> |PendingCalls(paused)| > 0)
    ensures Strip(reply) != "y" && r.Ok? ==>
              && r.value.Inject?
              && r.value.message.Tool?
              && r.value.message.toolCallId == PendingCalls(paused)[0].id
              && r.value.message.content.Text?
              && ParseDenial(r.value.message.content.s) == Some(reply)
  {
    if Strip(reply) == "y" then Ok(Continue)
    else
      var id :- FirstCallId(paused);
      DenialRoundTrip(reply);
      Ok(Inject(Tool(Text(DenialText(reply)), id)))
  }

  /** `reply` is a single `y` at index `i`, with only whitespace around it. */
  ghost predicate FramedY(reply: string, i: int) {
    && 0 <= i < |reply|
    && reply[i] == 'y'
    && (forall k :: 0 <= k < i ==> IsSpace(reply[k]))
    && (forall k :: i < k < |reply| ==> IsSpace(reply[k]))
  }

  lemma StripYIsFramed(reply: string)
    requires Strip(reply) == "y"
    ensures exists i :: FramedY(reply, i)
  {
    var i := SpaceRunEnd(reply, 0);
    assert reply[i] == reply[i..i + 1][0];
    assert FramedY(reply, i);
  }

  lemma FramedStripsToY(reply: string, i: int)
    requires FramedY(reply, i)
    ensures Strip(reply) == "y"
  {
  }

  /** A reply approves exactly when it is a single `y` framed by whitespace. */
  lemma ApprovesIff(reply: string, paused: seq<Message>)
    ensures Decide(reply, paused) == Ok(Continue) <==> exists i :: FramedY(reply, i)
  {
    if Strip(reply) == "y" {
      StripYIsFramed(reply);
    }
    if exists i :: FramedY(reply, i) {
      var i :| FramedY(reply, i);
      FramedStripsToY(reply, i);
    }
  }
}
