/** The events assistant node: it asks the language model for a reply and,
    while the reply is empty, appends a user prompt asking for a real output
    and asks again. The model is the parameter `llm`, a function of the
    history it is shown. The source loops without bound; the model runs at
    most `fuel` attempts. */
module EventsAssistant {
  import opened Common
  import opened Messages
  import opened Domain

  /** What the model answers: a content and its tool calls. */
  datatype Reply = Reply(content: Content, toolCalls: seq<ToolCall>)

  function AsMessage(r: Reply): Message {
    AI(r.content, r.toolCalls)
  }

  /** The prompt appended after each empty reply. */
  const RetryText: string := "Respond with a real output."
  const RetryPrompt: Message := Human(Text(RetryText))

  /** `n` retry prompts. */
  function Prompts(n: nat): (ps: seq<Message>)
    ensures |ps| == n && forall i :: 0 <= i < n ==> ps[i] == RetryPrompt
  {
    seq(n, _ => RetryPrompt)
  }

  /** A reply carries a real output: a tool call, a non-empty text, or a list
      whose first item is a non-empty text item. */
  predicate HasRealOutput(r: Reply) {
    || |r.toolCalls| > 0
    || (r.content.Text? && r.content.s != "")
    || (r.content.Blocks? && |r.content.items| > 0
        && r.content.items[0].TextBlock? && r.content.items[0].text != "")
  }

  /** The test cannot be evaluated: no tool calls, and a list whose first item
      is a plain string, on which `.get` is looked up. */
  predicate TestRaises(r: Reply) {
    && |r.toolCalls| == 0
    && r.content.Blocks? && |r.content.items| > 0
    && r.content.items[0].PlainItem?
  }

  /** Python's truth value of a content. */
  predicate Truthy(c: Content) {
    match c
    case Text(s) => s != ""
    case Blocks(items) => |items| > 0
  }

  /** The loop's test, with Python's precedence and short-circuiting: no tool
      calls, and either no content or a list whose first item has no text.
      `item.get("text")` is false for a dictionary without a text and raises
      on a plain string. */
  function EmptyTest(r: Reply): (t: Result<bool>)
    ensures t.Err? <==> TestRaises(r)
    ensures t.Err? ==> t.error == AttributeError("get")
    ensures t.Ok? ==> (t.value <==> !HasRealOutput(r))
  {
    if |r.toolCalls| > 0 || !Truthy(r.content) || r.content.Text? then
      Ok(|r.toolCalls| == 0 && !Truthy(r.content))
    else
      match r.content.items[0]
      case TextBlock(text) => Ok(text == "")
      case OtherBlock(_) => Ok(true)
      case PlainItem(_) => Err(AttributeError("get"))
  }

  /** How a run of at most `fuel` attempts that starts from history `msgs`
      ends: the first real reply (`Some`), every attempt empty (`None`), or
      the exception the test raised. */
  function FirstRealReply(msgs: seq<Message>, llm: seq<Message> -> Reply, fuel: nat): Result<Option<Reply>>
    decreases fuel
  {
    if fuel == 0 then Ok(None)
    else
      var empty :- EmptyTest(llm(msgs));
      if !empty then Ok(Some(llm(msgs)))
      else FirstRealReply(msgs + [RetryPrompt], llm, fuel - 1)
  }

  /** The node's outcome for a run's outcome: the update holding the reply. */
  function UpdateOf(run: Result<Option<Reply>>): Result<Option<Update>> {
    match run
    case Err(e) => Err(e)
    case Ok(None) => Ok(None)
    case Ok(Some(reply)) => Ok(Some(MessagesOnly([AsMessage(reply)])))
  }

  /** `EventsAssistant.__call__` with at most `fuel` attempts: returns the
      update holding the first real reply (or the exception the test raised),
      how many attempts it took, and the local state the last attempt saw. */
  method Invoke(s: State, llm: seq<Message> -> Reply, fuel: nat)
      returns (out: Result<Option<Update>>, tries: nat, last: State)
    ensures tries <= fuel
    ensures out == Ok(None) ==> tries == fuel
    ensures out != Ok(None) ==> tries >= 1
    ensures var empties := if out == Ok(None) then tries else tries - 1;
            && last == s.(messages := s.messages + Prompts(empties))
            && forall j :: 0 <= j < empties ==> EmptyTest(llm(s.messages + Prompts(j))) == Ok(true)
    ensures out.Err? ==> TestRaises(llm(last.messages)) && out.error == AttributeError("get")
    ensures out.Ok? && out.value.Some? ==> HasRealOutput(llm(last.messages))
                                           && out.value.value == MessagesOnly([AsMessage(llm(last.messages))])
    ensures out == UpdateOf(FirstRealReply(s.messages, llm, fuel))
  {
    var cur := s;
    var i: nat := 0;
    while i < fuel
      invariant i <= fuel
      invariant cur == s.(messages := s.messages + Prompts(i))
      invariant forall j :: 0 <= j < i ==> EmptyTest(llm(s.messages + Prompts(j))) == Ok(true)
      invariant FirstRealReply(s.messages, llm, fuel) == FirstRealReply(cur.messages, llm, fuel - i)
    {
      var result := llm(cur.messages);
      var test := EmptyTest(result);
      if test.Err? {
        return Err(test.error), i + 1, cur;
      }
      if !test.value {
        return Ok(Some(MessagesOnly([AsMessage(result)]))), i + 1, cur;
      }
      assert Prompts(i) + [RetryPrompt] == Prompts(i + 1);
      cur := cur.(messages := cur.messages + [RetryPrompt]);
      i := i + 1;
    }
    return Ok(None), fuel, cur;
  }

  /** The run ends on the model's answer to the original history followed by
      `k` retry prompts, each earlier answer having been empty: the history
      only ever grows by prompts, and the prompts themselves are never
      returned. That answer is returned, or it raised. */
  lemma {:induction false} RetriesOnlyAppendPrompts(msgs: seq<Message>, llm: seq<Message> -> Reply, fuel: nat)
      returns (k: nat)
    requires FirstRealReply(msgs, llm, fuel) != Ok(None)
    ensures k < fuel
    ensures var reply := llm(msgs + Prompts(k));
            FirstRealReply(msgs, llm, fuel)
            == if TestRaises(reply) then Err(AttributeError("get")) else Ok(Some(reply))
    ensures forall j :: 0 <= j < k ==> EmptyTest(llm(msgs + Prompts(j))) == Ok(true)
    decreases fuel
  {
    if EmptyTest(llm(msgs)) == Ok(true) {
      var k0 := RetriesOnlyAppendPrompts(msgs + [RetryPrompt], llm, fuel - 1);
      k := k0 + 1;
      forall j | 0 < j <= k ensures msgs + Prompts(j) == msgs + [RetryPrompt] + Prompts(j - 1) {
        assert [RetryPrompt] + Prompts(j - 1) == Prompts(j);
      }
      assert msgs + Prompts(0) == msgs;
      forall j | 0 <= j < k ensures EmptyTest(llm(msgs + Prompts(j))) == Ok(true) {
        if j > 0 {
          assert msgs + Prompts(j) == msgs + [RetryPrompt] + Prompts(j - 1);
        }
      }
    } else {
      k := 0;
      assert msgs + Prompts(0) == msgs;
    }
  }
}
