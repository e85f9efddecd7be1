/** A chat history on its way to a chat-completions provider: as response items, and
    regrouped into messages that carry their tool calls. */
module ChatHistory {
  import opened Wrappers

  // ---- Rich messages to response items ----

  datatype Call = Call(id: string, name: string, arguments: string)

  datatype Rich =
    | Assistant(text: string, calls: seq<Call>)
    | ToolResult(callId: string, text: string)
    | Other(isUser: bool, text: string)

  datatype Part = InputImage(url: string) | OtherPart(data: string)

  datatype Content = Text(text: string) | Parts(parts: seq<Part>)

  datatype Item = Message(role: string, content: Content) | FunctionCall(call: Call) | FunctionOutput(callId: string, output: string)

  function CallItems(calls: seq<Call>): (r: seq<Item>)
    ensures |r| == |calls| && forall i :: 0 <= i < |r| ==> r[i] == FunctionCall(calls[i])
  {
    seq(|calls|, i requires 0 <= i < |calls| => FunctionCall(calls[i]))
  }

  /** The items of one message: an assistant's text is left out when it is empty. */
  function ItemsOf(m: Rich): seq<Item> {
    match m
    case Assistant(text, calls) => (if text != "" then [Message("assistant", Text(text))] else []) + CallItems(calls)
    case ToolResult(id, text) => [FunctionOutput(id, text)]
    case Other(isUser, text) => [Message(if isUser then "user" else "assistant", Text(text))]
  }

  /** `rich_messages_to_openai_responses` */
  function Items(messages: seq<Rich>): seq<Item> {
    if messages == [] then [] else Items(messages[..|messages| - 1]) + ItemsOf(messages[|messages| - 1])
  }

  // ---- Response items to chat messages ----

  datatype ChatPart = ImageUrl(url: string) | SamePart(data: string)

  datatype ChatContent = ChatText(text: string) | ChatParts(parts: seq<ChatPart>)

  /** A chat message: only assistants carry tool calls, and only they may lack content. */
  datatype Chat = Chat(role: string, content: Option<ChatContent>, calls: seq<Call>) | Tool(callId: string, output: string)

  function ToChatParts(parts: seq<Part>): seq<ChatPart> {
    if parts == [] then []
    else [match parts[0] case InputImage(url) => ImageUrl(url) case OtherPart(data) => SamePart(data)] + ToChatParts(parts[1..])
  }

  function ToChat(c: Content): ChatContent {
    match c case Text(text) => ChatText(text) case Parts(parts) => ChatParts(ToChatParts(parts))
  }

  predicate IsAssistant(m: Chat) { m.Chat? && m.role == "assistant" }

  /** The loop body of `_request`. */
  function Add(chat: seq<Chat>, item: Item): seq<Chat> {
    match item
    case Message(role, content) => chat + [Chat(role, Some(ToChat(content)), [])]
    case FunctionOutput(id, output) => chat + [Tool(id, output)]
    case FunctionCall(call) =>
      var n := |chat| - 1;
      if chat != [] && IsAssistant(chat[n]) then chat[n := chat[n].(calls := chat[n].calls + [call])]
      else chat + [Chat("assistant", None, [call])]
  }

  function Regroup(items: seq<Item>): seq<Chat> {
    if items == [] then [] else Add(Regroup(items[..|items| - 1]), items[|items| - 1])
  }

  // ---- Back to items ----

  function FromChatParts(parts: seq<ChatPart>): seq<Part> {
    if parts == [] then []
    else [match parts[0] case ImageUrl(url) => InputImage(url) case SamePart(data) => OtherPart(data)] + FromChatParts(parts[1..])
  }

  function FromChat(c: ChatContent): Content {
    match c case ChatText(text) => Text(text) case ChatParts(parts) => Parts(FromChatParts(parts))
  }

  /** A message's own content, then its tool calls. */
  function Expand(m: Chat): seq<Item> {
    match m
    case Tool(id, output) => [FunctionOutput(id, output)]
    case Chat(role, content, calls) =>
      (match content case Some(c) => [Message(role, FromChat(c))] case None => []) + CallItems(calls)
  }

  function ExpandAll(chat: seq<Chat>): seq<Item> {
    if chat == [] then [] else ExpandAll(chat[..|chat| - 1]) + Expand(chat[|chat| - 1])
  }

  lemma {:induction false} PartsRoundTrip(parts: seq<Part>)
    ensures FromChatParts(ToChatParts(parts)) == parts
  {
    if parts != [] {
      PartsRoundTrip(parts[1..]);
      assert ToChatParts(parts)[1..] == ToChatParts(parts[1..]);
    }
  }

  lemma ContentRoundTrip(c: Content)
    ensures FromChat(ToChat(c)) == c
  {
    if c.Parts? {
      PartsRoundTrip(c.parts);
    }
  }

  lemma CallsGrow(calls: seq<Call>, call: Call)
    ensures CallItems(calls + [call]) == CallItems(calls) + [FunctionCall(call)]
  {
  }

  lemma ExpandAdded(chat: seq<Chat>, item: Item)
    ensures ExpandAll(Add(chat, item)) == ExpandAll(chat) + [item]
  {
    hide Expand, ToChat, FromChat, CallItems;
    var after := Add(chat, item);
    var n := |chat| - 1;
    if item.FunctionCall? && chat != [] && IsAssistant(chat[n]) {
      assert after[..n] == chat[..n];
      assert Expand(after[n]) == Expand(chat[n]) + [item] by { ExpandCall(chat[n], item.call); }
      assert ExpandAll(chat[..n]) + (Expand(chat[n]) + [item]) == (ExpandAll(chat[..n]) + Expand(chat[n])) + [item];
    } else {
      assert after[..|chat|] == chat;
      ExpandNew(item);
    }
  }

  lemma ExpandCall(m: Chat, call: Call)
    requires IsAssistant(m)
    ensures Expand(m.(calls := m.calls + [call])) == Expand(m) + [FunctionCall(call)]
  {
    CallsGrow(m.calls, call);
  }

  /** A new message expands to the item it was made from. */
  lemma ExpandNew(item: Item)
    ensures item.Message? ==> Expand(Chat(item.role, Some(ToChat(item.content)), [])) == [item]
    ensures item.FunctionOutput? ==> Expand(Tool(item.callId, item.output)) == [item]
    ensures item.FunctionCall? ==> Expand(Chat("assistant", None, [item.call])) == [item]
  {
    if item.Message? {
      ContentRoundTrip(item.content);
    }
  }

  /** Regrouping loses no text, no call, no output, and keeps their order. */
  lemma {:induction false} RegroupKeepsItems(items: seq<Item>)
    ensures ExpandAll(Regroup(items)) == items
  {
    hide Add, Expand;
    if items != [] {
      var n := |items| - 1;
      RegroupKeepsItems(items[..n]);
      ExpandAdded(Regroup(items[..n]), items[n]);
      assert items == items[..n] + [items[n]];
    }
  }

  /** No two neighbours could have been one message: a message that only carries calls
      never follows an assistant's. */
  predicate Grouped(chat: seq<Chat>) {
    forall i :: 0 < i < |chat| && chat[i].Chat? && chat[i].content.None? ==> !IsAssistant(chat[i - 1])
  }

  /** Tool calls are carried by assistants only. */
  predicate CallsAreAssistants(chat: seq<Chat>) {
    forall i :: 0 <= i < |chat| && chat[i].Chat? && (chat[i].calls != [] || chat[i].content.None?) ==> IsAssistant(chat[i])
  }

  lemma {:induction false} RegroupGroups(items: seq<Item>)
    ensures Grouped(Regroup(items)) && CallsAreAssistants(Regroup(items))
  {
    hide ToChat;
    if items != [] {
      RegroupGroups(items[..|items| - 1]);
    }
  }

  /** For every chat history. */
  lemma HistoryIsKept(messages: seq<Rich>)
    ensures ExpandAll(Regroup(Items(messages))) == Items(messages)
    ensures Grouped(Regroup(Items(messages))) && CallsAreAssistants(Regroup(Items(messages)))
  {
    hide Regroup, ExpandAll, Items, Grouped, CallsAreAssistants;
    RegroupKeepsItems(Items(messages));
    RegroupGroups(Items(messages));
  }

  // ---- What the items of a history are ----

  /** The items of a history are those of its messages, in their order. */
  lemma {:induction false} ItemsConcat(a: seq<Rich>, b: seq<Rich>)
    ensures Items(a + b) == Items(a) + Items(b)
    decreases |b|
  {
    hide ItemsOf;
    if b == [] {
      assert a + b == a;
    } else {
      assert (a + b)[..|a + b| - 1] == a + b[..|b| - 1];
      ItemsConcat(a, b[..|b| - 1]);
    }
  }

  /** The items of one message. An assistant's are its text, unless that is empty, and then its
      calls, in order; a tool's result is its output; and every other author's is a message,
      the user's as the user's and all others' as the assistant's. */
  lemma ItemsOfOne(text: string, calls: seq<Call>, id: string)
    ensures var items, n := Items([Assistant(text, calls)]), if text == "" then 0 else 1;
            && |items| == n + |calls|
            && (text != "" ==> items[0] == Message("assistant", Text(text)))
            && forall i :: 0 <= i < |calls| ==> items[n + i] == FunctionCall(calls[i])
    ensures Items([ToolResult(id, text)]) == [FunctionOutput(id, text)]
    ensures Items([Other(true, text)]) == [Message("user", Text(text))]
    ensures Items([Other(false, text)]) == [Message("assistant", Text(text))]
  {
    forall m: Rich ensures Items([m]) == ItemsOf(m) {
      assert [m][..0] == [] && Items([m]) == Items([]) + ItemsOf(m);
    }
  }

  /** The parts of a message stay in place: images become image urls, the rest is kept. */
  lemma {:induction false} PartsAreKept(parts: seq<Part>)
    ensures |ToChatParts(parts)| == |parts|
    ensures forall i :: 0 <= i < |parts| ==>
              && (parts[i].InputImage? ==> ToChatParts(parts)[i] == ImageUrl(parts[i].url))
              && (parts[i].OtherPart? ==> ToChatParts(parts)[i] == SamePart(parts[i].data))
  {
    if parts != [] {
      PartsAreKept(parts[1..]);
      assert ToChatParts(parts)[1..] == ToChatParts(parts[1..]);
      forall i | 1 <= i < |parts| ensures ToChatParts(parts)[i] == ToChatParts(parts[1..])[i - 1] && parts[i] == parts[1..][i - 1] {
      }
    }
  }

  // ---- The loops ----

  /** `rich_messages_to_openai_responses` */
  method RichMessagesToItems(messages: seq<Rich>) returns (converted: seq<Item>)
    ensures converted == Items(messages)
  {
    hide CallItems;
    converted := [];
    for i := 0 to |messages|
      invariant converted == Items(messages[..i])
    {
      ghost var before := converted;
      assert messages[..i + 1][..i] == messages[..i];
      match messages[i] {
        case Assistant(text, calls) =>
          if text != "" {
            converted := converted + [Message("assistant", Text(text))];
          }
          converted := AppendCalls(converted, calls);
          assert converted == before + ItemsOf(messages[i]);
        case ToolResult(id, text) =>
          converted := converted + [FunctionOutput(id, text)];
        case Other(isUser, text) =>
          converted := converted + [Message(if isUser then "user" else "assistant", Text(text))];
      }
    }
    assert messages[..|messages|] == messages;
  }

  /** The inner loop, over an assistant's tool calls. */
  method AppendCalls(items: seq<Item>, calls: seq<Call>) returns (converted: seq<Item>)
    ensures converted == items + CallItems(calls)
  {
    hide CallItems;
    converted := items;
    NoCalls(calls);
    for j := 0 to |calls|
      invariant converted == items + CallItems(calls[..j])
    {
      assert calls[..j + 1] == calls[..j] + [calls[j]];
      CallsGrow(calls[..j], calls[j]);
      converted := converted + [FunctionCall(calls[j])];
    }
    assert calls[..|calls|] == calls;
  }

  lemma NoCalls(calls: seq<Call>)
    ensures CallItems(calls[..0]) == []
  {
  }

  /** The loop of `_request` over the items. */
  method BuildChatMessages(items: seq<Item>) returns (chatMessages: seq<Chat>)
    ensures chatMessages == Regroup(items)
  {
    hide ToChat;
    chatMessages := [];
    for i := 0 to |items|
      invariant chatMessages == Regroup(items[..i])
    {
      assert items[..i + 1][..i] == items[..i];
      var n := |chatMessages| - 1;
      match items[i] {
        case FunctionCall(call) =>
          if chatMessages != [] && chatMessages[n].Chat? && chatMessages[n].role == "assistant" {
            chatMessages := chatMessages[n := chatMessages[n].(calls := chatMessages[n].calls + [call])];
          } else {
            chatMessages := chatMessages + [Chat("assistant", None, [call])];
          }
        case FunctionOutput(id, output) =>
          chatMessages := chatMessages + [Tool(id, output)];
        case Message(role, content) =>
          chatMessages := chatMessages + [Chat(role, Some(ToChat(content)), [])];
      }
    }
    assert items[..|items|] == items;
  }
}
