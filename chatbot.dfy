/**
 * The educational Nova Lite chatbot: the conversation dictionary the
 * application keeps, the request it sends with the whole history, the
 * reply text it reads back, one conversation turn and the console loop.
 * The Bedrock call, the clock and uuid are parameters: each console line
 * comes with the time stamps and the reply (or the exception) it met.
 */
module Chatbot {
  import opened Wrappers
  import opened Text

  const ModelId := "amazon.nova-lite-v1:0"
  const MaxTokens := 1000
  /** The inputs, lower-cased, that end the conversation. */
  const Farewells: seq<string> := ["quit", "exit", "bye", "goodbye"]

  /** One entry of `conversation['messages']`. */
  datatype Message = Message(role: string, content: string, timestamp: string)

  /** A `{"text": ...}` content block of the Nova Lite format. */
  datatype TextBlock = TextBlock(text: string)

  /** One message of the request, or `output.message` of a reply. */
  datatype ApiMessage = ApiMessage(role: string, content: seq<TextBlock>)

  /** The request body: the messages and `inferenceConfig.maxTokens`. */
  datatype Request = Request(messages: seq<ApiMessage>, maxTokens: int)

  /** What one console line met: the line, the stamp of the user message, the reply or the exception the call raised, and the stamp of the assistant message. */
  datatype Exchange = Exchange(input: string, sentAt: string, reply: Result<ApiMessage, string>, receivedAt: string)

  // ---------------------------------------------------------------------
  // Requests and replies
  // ---------------------------------------------------------------------

  /** A conversation message in the Nova Lite format: same role, content wrapped as one text block. */
  function ToApi(m: Message): ApiMessage {
    ApiMessage(m.role, [TextBlock(m.content)])
  }

  /** The request's message list: one API message per conversation message, in order. */
  function ApiMessages(msgs: seq<Message>): (r: seq<ApiMessage>)
    ensures |r| == |msgs|
    decreases |msgs|
  {
    if msgs == [] then [] else ApiMessages(msgs[..|msgs| - 1]) + [ToApi(msgs[|msgs| - 1])]
  }

  /** The translation keeps length and order, and carries each role and content over. */
  lemma {:induction false} ApiMessagesIndex(msgs: seq<Message>)
    ensures |ApiMessages(msgs)| == |msgs|
    ensures forall i :: 0 <= i < |msgs| ==>
      && ApiMessages(msgs)[i].role == msgs[i].role
      && ApiMessages(msgs)[i].content == [TextBlock(msgs[i].content)]
    decreases |msgs|
  {
    if msgs != [] {
      ApiMessagesIndex(msgs[..|msgs| - 1]);
    }
  }

  /** Every request after a turn begins with the previous request: the whole history is re-sent. */
  lemma {:induction false} ApiMessagesAppend(a: seq<Message>, b: seq<Message>)
    ensures ApiMessages(a + b) == ApiMessages(a) + ApiMessages(b)
    decreases |b|
  {
    if b == [] {
      assert a + b == a;
    } else {
      assert (a + b)[..|a + b| - 1] == a + b[..|b| - 1];
      ApiMessagesAppend(a, b[..|b| - 1]);
    }
  }

  /** `extract_response_content`: the text of the first content block, or the IndexError an empty list raises. */
  function ExtractResponseContent(reply: ApiMessage): (r: Result<string, string>)
    ensures r.Ok? <==> reply.content != []
    ensures r.Ok? ==> r.value == reply.content[0].text
  {
    if reply.content == [] then Err("IndexError") else Ok(reply.content[0].text)
  }

  /** A message sent in a request and echoed back as a reply reads back as its own content. */
  lemma {:induction false} ExtractInvertsWrapping(msgs: seq<Message>, i: nat)
    requires i < |msgs|
    ensures ExtractResponseContent(ApiMessages(msgs)[i]) == Ok(msgs[i].content)
  {
    ApiMessagesIndex(msgs);
  }

  // ---------------------------------------------------------------------
  // One conversation turn, as a function of the history
  // ---------------------------------------------------------------------

  /**
   * The messages after `process_conversation_turn`. The user message is
   * appended in place before the call, so when the call raises or the
   * reply cannot be read the history keeps it (Err); otherwise the reply
   * text follows as the assistant message (Ok).
   */
  function Turn(history: seq<Message>, userInput: string, e: Exchange): (r: Result<seq<Message>, seq<Message>>)
    ensures var after := (if r.Ok? then r.value else r.error);
      && |after| == |history| + (if r.Ok? then 2 else 1)
      && after[..|history|] == history
      && after[|history|] == Message("user", userInput, e.sentAt)
    ensures r.Ok? <==> e.reply.Ok? && e.reply.value.content != []
    ensures r.Ok? ==> r.value[|history| + 1] == Message("assistant", e.reply.value.content[0].text, e.receivedAt)
  {
    var user := Message("user", userInput, e.sentAt);
    if e.reply.Err? then Err(history + [user])
    else match ExtractResponseContent(e.reply.value)
      case Err(_) => Err(history + [user])
      case Ok(text) => Ok(history + [user, Message("assistant", text, e.receivedAt)])
  }

  /** The console line, stripped, is a farewell in any letter case. */
  predicate IsFarewell(line: string) {
    Lower(Strip(line)) in Farewells
  }

  /** How the console loop reads a line: a farewell, a blank line, or a message (the stripped line). */
  datatype LineKind = Farewell | Blank | Say(text: string)

  function Classify(line: string): (k: LineKind)
    ensures k.Say? ==> k.text == Strip(line) && k.text != []
  {
    if IsFarewell(line) then Farewell
    else if Strip(line) == [] then Blank
    else Say(Strip(line))
  }

  /** What one console line does to the loop: it stops it or goes on to the next line, with the history it leaves. */
  datatype Outcome = Stop(history: seq<Message>) | Go(history: seq<Message>)

  /**
   * One pass of the console loop of `main`: a farewell stops the loop, a
   * blank line is skipped, any other line is a turn, and a turn that
   * raises stops the loop.
   */
  function Next(history: seq<Message>, kind: LineKind, e: Exchange): (o: Outcome)
    ensures |history| <= |o.history| && o.history[..|history|] == history
  {
    match kind
    case Farewell => Stop(history)
    case Blank => Go(history)
    case Say(line) =>
      var r := Turn(history, line, e);
      if r.Ok? then Go(r.value) else Stop(r.error)
  }

  /** A line that is neither blank nor a farewell, and whose reply can be read, adds the user message and the reply and goes on. */
  lemma NextAnswered(history: seq<Message>, line: string, e: Exchange)
    requires Answers(e)
    ensures Next(history, Say(line), e) == Go(history + [Message("user", line, e.sentAt),
                                              Message("assistant", e.reply.value.content[0].text, e.receivedAt)])
  {
    var u := Message("user", line, e.sentAt);
    var a := Message("assistant", e.reply.value.content[0].text, e.receivedAt);
    assert Turn(history, line, e) == Ok(history + [u, a]);
  }

  /** The messages after the console loop; running out of lines ends it too. */
  function Conversed(history: seq<Message>, ex: seq<Exchange>): seq<Message>
    decreases |ex|
  {
    if ex == [] then history
    else match Next(history, Classify(ex[0].input), ex[0])
      case Stop(h) => h
      case Go(h) => Conversed(h, ex[1..])
  }

  /** One pass of the loop from line `i` on: the line's outcome, then the rest of the lines if it goes on. */
  lemma ConversedStep(history: seq<Message>, ex: seq<Exchange>, i: nat)
    requires i < |ex|
    ensures Conversed(history, ex[i..]) ==
      match Next(history, Classify(ex[i].input), ex[i])
      case Stop(h) => h
      case Go(h) => Conversed(h, ex[i + 1..])
  {
    assert ex[i..][0] == ex[i] && ex[i..][1..] == ex[i + 1..];
  }

  /** The loop only ever appends: the history it starts from stays a prefix. */
  lemma {:induction false} ConversedExtends(history: seq<Message>, ex: seq<Exchange>)
    ensures |history| <= |Conversed(history, ex)|
    ensures Conversed(history, ex)[..|history|] == history
    decreases |ex|
  {
    if ex != [] {
      var o := Next(history, Classify(ex[0].input), ex[0]);
      if o.Go? {
        ConversedExtends(o.history, ex[1..]);
        assert Conversed(history, ex)[..|o.history|][..|history|] == Conversed(history, ex)[..|history|];
      }
    }
  }

  /** Nothing after a farewell line matters: the loop has ended by then. */
  lemma {:induction false} FarewellEndsLoop(history: seq<Message>, ex: seq<Exchange>, k: nat)
    requires k < |ex| && Classify(ex[k].input) == Farewell
    ensures Conversed(history, ex) == Conversed(history, ex[..k])
    decreases k
  {
    if k != 0 {
      assert ex[..k][0] == ex[0];
      assert ex[..k][1..] == ex[1..][..k - 1];
      var o := Next(history, Classify(ex[0].input), ex[0]);
      if o.Go? {
        FarewellEndsLoop(o.history, ex[1..], k - 1);
      }
    }
  }

  /** Messages alternate user, assistant, user, ... from the first one. */
  predicate Alternates(msgs: seq<Message>) {
    forall i :: 0 <= i < |msgs| ==> msgs[i].role == (if i % 2 == 0 then "user" else "assistant")
  }

  /** The reply can be read: the call returned a message with at least one content block. */
  predicate Answers(e: Exchange) {
    e.reply.Ok? && e.reply.value.content != []
  }

  /** Appending one user and one assistant message to an alternating history of even length keeps it alternating. */
  lemma AlternatesPair(history: seq<Message>, u: Message, a: Message)
    requires |history| % 2 == 0 && Alternates(history)
    requires u.role == "user" && a.role == "assistant"
    ensures |history + [u, a]| % 2 == 0 && Alternates(history + [u, a])
  {
    var h := history + [u, a];
    forall i | 0 <= i < |h|
      ensures h[i].role == (if i % 2 == 0 then "user" else "assistant")
    {
      if i < |history| {
        assert h[i] == history[i];
      }
    }
  }

  /** When every reply can be read, the loop keeps user and assistant messages alternating. */
  lemma {:induction false} ConversedAlternates(history: seq<Message>, ex: seq<Exchange>)
    requires |history| % 2 == 0 && Alternates(history)
    requires forall k :: 0 <= k < |ex| ==> Answers(ex[k])
    ensures |Conversed(history, ex)| % 2 == 0 && Alternates(Conversed(history, ex))
    decreases |ex|
  {
    if ex != [] {
      var e := ex[0];
      assert Answers(e);
      var o := Next(history, Classify(e.input), e);
      if Classify(e.input).Say? {
        NextAnswered(history, Classify(e.input).text, e);
        AlternatesPair(history, Message("user", Classify(e.input).text, e.sentAt),
                       Message("assistant", e.reply.value.content[0].text, e.receivedAt));
      }
      if o.Go? {
        ConversedAlternates(o.history, ex[1..]);
      }
    }
  }

  // ---------------------------------------------------------------------
  // The conversation dictionary
  // ---------------------------------------------------------------------

  /** The conversation dictionary, updated in place by `add_message_to_conversation`. */
  class Conversation {
    const conversationId: string
    const createdAt: string
    const model: string
    var messages: seq<Message>
    var totalMessages: int

    /** `metadata.total_messages` counts the messages. */
    predicate Valid()
      reads this
    {
      totalMessages == |messages|
    }

    /** `create_new_conversation`: no messages yet, the Nova Lite model id; the uuid and the clock are parameters. */
    constructor (id: string, now: string)
      ensures Valid() && messages == [] && totalMessages == 0
      ensures model == ModelId && conversationId == id && createdAt == now
    {
      conversationId, createdAt, model := id, now, ModelId;
      messages, totalMessages := [], 0;
    }

    /** `add_message_to_conversation`: one message appended at the end, the count updated. */
    method AddMessage(role: string, content: string, timestamp: string)
      modifies this
      ensures messages == old(messages) + [Message(role, content, timestamp)]
      ensures totalMessages == |messages|
    {
      messages := messages + [Message(role, content, timestamp)];
      totalMessages := |messages|;
    }

    /** `prepare_bedrock_request`: the whole history in the Nova Lite format, in order, with maxTokens 1000; the conversation is not changed. */
    method PrepareRequest() returns (request: Request)
      ensures request.messages == ApiMessages(messages)
      ensures request.maxTokens == MaxTokens
    {
      var api: seq<ApiMessage> := [];
      for i := 0 to |messages|
        invariant api == ApiMessages(messages[..i])
      {
        assert messages[..i + 1][..i] == messages[..i];
        api := api + [ToApi(messages[i])];
      }
      assert messages[..|messages|] == messages;
      request := Request(api, MaxTokens);
    }

    /**
     * `process_conversation_turn`: add the user message, send the whole
     * history, read the reply and add it as the assistant message. `ok` is
     * false where the source raises, with the user message already added.
     */
    method ProcessTurn(userInput: string, e: Exchange) returns (sent: Request, ok: bool)
      requires Valid()
      modifies this
      ensures Valid()
      ensures sent.messages == ApiMessages(old(messages) + [Message("user", userInput, e.sentAt)])
      ensures var r := Turn(old(messages), userInput, e);
        ok == r.Ok? && messages == (if r.Ok? then r.value else r.error)
    {
      AddMessage("user", userInput, e.sentAt);
      sent := PrepareRequest();
      if e.reply.Err? {
        return sent, false;
      }
      var text := ExtractResponseContent(e.reply.value);
      if text.Err? {
        return sent, false;
      }
      AddMessage("assistant", text.value, e.receivedAt);
      ok := true;
    }
  }

  /**
   * The console loop of `main`: each line is stripped; a farewell ends the
   * loop, a blank line is skipped, any other line is a turn, and a turn
   * that raises ends the loop.
   */
  method Chat(conversation: Conversation, ex: seq<Exchange>)
    requires conversation.Valid()
    modifies conversation
    ensures conversation.Valid()
    ensures conversation.messages == Conversed(old(conversation.messages), ex)
  {
    var i := 0;
    while i < |ex|
      invariant 0 <= i <= |ex|
      invariant conversation.Valid()
      invariant Conversed(conversation.messages, ex[i..]) == Conversed(old(conversation.messages), ex)
      decreases |ex| - i
    {
      ConversedStep(conversation.messages, ex, i);
      if IsFarewell(ex[i].input) {
        return;
      }
      var userInput := Strip(ex[i].input);
      if userInput == [] {
        i := i + 1;
        continue;
      }
      var _, ok := conversation.ProcessTurn(userInput, ex[i]);
      if !ok {
        return;
      }
      i := i + 1;
    }
  }
}
