/** Translation between the OpenAI and Anthropic chat formats (infra/provider/anthropic_provider.go). */
module Anthropic {
  import opened Json
  import opened Lists
  import opened OpenAI
  import opened Text
  import opened Wrappers

  datatype Block = Block(
    kind: string, text: string, id: string, name: string, input: string, toolUseID: string, content: string)

  function TextBlock(text: string): Block {
    Block("text", text, "", "", "", "", "")
  }

  function ToolUseBlock(call: ToolCall): Block {
    Block("tool_use", "", call.id, call.name, call.arguments, "", "")
  }

  function ToolResultBlock(toolUseID: string, content: string): Block {
    Block("tool_result", "", "", "", "", toolUseID, content)
  }

  datatype Content = Plain(text: string) | Blocks(blocks: seq<Block>)

  datatype AMessage = AMessage(role: string, content: Content)

  datatype ATool = ATool(name: string, description: string, inputSchema: JValue)

  datatype ARequest = ARequest(
    model: string, messages: seq<AMessage>, system: string, maxTokens: int, tools: seq<ATool>)

  datatype AResponse = AResponse(
    id: string, content: seq<Block>, stopReason: string, inputTokens: int, outputTokens: int)

  const DEFAULT_MAX_TOKENS := 4096

  // ---- convertRequest -------------------------------------------------------------------------

  function CallBlocksUpTo(calls: seq<ToolCall>, n: nat): seq<Block>
    requires n <= |calls|
  {
    if n == 0 then [] else CallBlocksUpTo(calls, n - 1) + [ToolUseBlock(calls[n - 1])]
  }

  /** The blocks of an assistant message with tool calls: its text, if any, then its calls in order. */
  function AssistantBlocks(codec: Codec, msg: Message): seq<Block> {
    BlocksOf(TextOf(codec, msg.content), msg.toolCalls)
  }

  function BlocksOf(text: string, calls: seq<ToolCall>): seq<Block> {
    (if text != "" then [TextBlock(text)] else []) + CallBlocksUpTo(calls, |calls|)
  }

  /** What one message that is not a system message becomes. */
  function Converted(codec: Codec, msg: Message): AMessage {
    if msg.role == "assistant" && msg.toolCalls != [] then
      AMessage("assistant", Blocks(AssistantBlocks(codec, msg)))
    else if msg.role == "tool" then
      AMessage("user", Blocks([ToolResultBlock(msg.toolCallID, TextOf(codec, msg.content))]))
    else
      AMessage(msg.role, Plain(TextOf(codec, msg.content)))
  }

  function Form(codec: Codec): Message -> AMessage {
    msg => Converted(codec, msg)
  }

  lemma FormIsConverted(codec: Codec, msg: Message)
    ensures Form(codec)(msg) == Converted(codec, msg)
  {
  }

  function SystemUpTo(codec: Codec, msgs: seq<Message>, n: nat): string
    requires n <= |msgs|
  {
    if n == 0 then ""
    else if IsSystem(msgs[n - 1]) then TextOf(codec, msgs[n - 1].content)
    else SystemUpTo(codec, msgs, n - 1)
  }

  function ToolOf(t: Tool): ATool {
    ATool(t.name, t.description, t.parameters)
  }

  /** The blocks of a message with tool calls, appended in a loop. */
  method ConvertCalls(codec: Codec, msg: Message) returns (parts: seq<Block>)
    ensures parts == AssistantBlocks(codec, msg)
  {
    parts := [];
    var text := ContentToString(codec, msg.content);
    if text != "" {
      parts := parts + [TextBlock(text)];
    }
    ghost var head := parts;
    for n := 0 to |msg.toolCalls|
      invariant parts == head + CallBlocksUpTo(msg.toolCalls, n)
    {
      parts := parts + [ToolUseBlock(msg.toolCalls[n])];
    }
  }

  method ConvertMessage(codec: Codec, msg: Message) returns (am: AMessage)
    ensures am == Converted(codec, msg)
  {
    if msg.role == "assistant" && |msg.toolCalls| > 0 {
      var parts := ConvertCalls(codec, msg);
      return AMessage(msg.role, Blocks(parts));
    }
    var text := ContentToString(codec, msg.content);
    if msg.role == "tool" {
      return AMessage("user", Blocks([ToolResultBlock(msg.toolCallID, text)]));
    }
    am := AMessage(msg.role, Plain(text));
  }

  /**
   Messages are converted in order, system messages are lifted out with the last one
   winning, and the token limit that Anthropic requires is filled in.
   */
  method ConvertRequest(codec: Codec, req: ChatRequest) returns (ar: ARequest)
    ensures ar.model == req.model
    ensures ar.maxTokens == if req.maxTokens == 0 then 4096 else req.maxTokens
    ensures ar.system == SystemUpTo(codec, req.messages, |req.messages|)
    ensures ar.messages == LiftedUpTo(Form(codec), req.messages, |req.messages|)
    ensures |ar.tools| == |req.tools|
    ensures forall k | 0 <= k < |req.tools| ::
      && ar.tools[k].name == req.tools[k].name && ar.tools[k].description == req.tools[k].description
      && ar.tools[k].inputSchema == req.tools[k].parameters
  {
    var maxTokens := if req.maxTokens == 0 then DEFAULT_MAX_TOKENS else req.maxTokens;
    var system := "";
    var messages: seq<AMessage> := [];
    for n := 0 to |req.messages|
      invariant messages == LiftedUpTo(Form(codec), req.messages, n)
      invariant system == SystemUpTo(codec, req.messages, n)
    {
      if IsSystem(req.messages[n]) {
        system := ContentToString(codec, req.messages[n].content);
      } else {
        var am := ConvertMessage(codec, req.messages[n]);
        FormIsConverted(codec, req.messages[n]);
        messages := messages + [am];
      }
    }
    var tools: seq<ATool> := [];
    for n := 0 to |req.tools|
      invariant |tools| == n && forall k | 0 <= k < n :: tools[k] == ToolOf(req.tools[k])
    {
      tools := tools + [ToolOf(req.tools[n])];
    }
    ar := ARequest(req.model, messages, system, maxTokens, tools);
  }

  /**
   The k-th message that is not a system message becomes the k-th message of the request,
   and there are no others.
   */
  lemma MessagesMapInOrder(codec: Codec, msgs: seq<Message>, n: nat, i: nat)
    requires i < n <= |msgs| && msgs[i].role != "system"
    ensures |LiftedUpTo(Form(codec), msgs, n)| == RankUpTo(msgs, n)
    ensures RankUpTo(msgs, i) < RankUpTo(msgs, n)
    ensures LiftedUpTo(Form(codec), msgs, n)[RankUpTo(msgs, i)] == Converted(codec, msgs[i])
  {
    LiftedInOrder(Form(codec), msgs, n, i);
    FormIsConverted(codec, msgs[i]);
  }

  /**
   A tool's result goes out as a block of the user, which names the call it answers.  Any
   other message keeps its role, and goes out as its text unless it calls tools.
   */
  lemma ConvertedMeaning(codec: Codec, msg: Message)
    ensures msg.role == "tool" ==>
      && Converted(codec, msg).role == "user"
      && exists b: Block ::
           && Converted(codec, msg).content == Blocks([b])
           && b.kind == "tool_result" && b.toolUseID == msg.toolCallID && b.content == TextOf(codec, msg.content)
    ensures msg.role != "tool" ==> Converted(codec, msg).role == msg.role
    ensures msg.role != "tool" ==>
      (Converted(codec, msg).content == Plain(TextOf(codec, msg.content)) <==>
       msg.role != "assistant" || |msg.toolCalls| == 0)
    ensures msg.role == "assistant" && |msg.toolCalls| > 0 ==>
      Converted(codec, msg).content == Blocks(AssistantBlocks(codec, msg))
  {
    if msg.role == "tool" {
      var b := ToolResultBlock(msg.toolCallID, TextOf(codec, msg.content));
      assert Converted(codec, msg).content == Blocks([b]);
    }
  }

  /** The last system message wins, whatever the others say. */
  lemma {:induction false} LastSystemWins(codec: Codec, msgs: seq<Message>, n: nat, i: nat)
    requires i < n <= |msgs| && msgs[i].role == "system" && forall j | i < j < n :: msgs[j].role != "system"
    ensures SystemUpTo(codec, msgs, n) == TextOf(codec, msgs[i].content)
  {
    if i < n - 1 {
      LastSystemWins(codec, msgs, n - 1, i);
    }
  }

  lemma {:induction false} NoSystemNoText(codec: Codec, msgs: seq<Message>, n: nat)
    requires n <= |msgs| && forall j | 0 <= j < n :: msgs[j].role != "system"
    ensures SystemUpTo(codec, msgs, n) == ""
  {
    if n > 0 {
      NoSystemNoText(codec, msgs, n - 1);
    }
  }

  // ---- convertResponse ------------------------------------------------------------------------

  function CallOf(b: Block): ToolCall {
    ToolCall(b.id, "function", b.name, b.input)
  }

  function TextIn(b: Block): seq<string> {
    if b.kind == "text" then [b.text] else []
  }

  function CallIn(b: Block): seq<ToolCall> {
    if b.kind == "tool_use" then [CallOf(b)] else []
  }

  function Texts(blocks: seq<Block>): seq<string> {
    Collect(TextIn, blocks)
  }

  function Calls(blocks: seq<Block>): seq<ToolCall> {
    Collect(CallIn, blocks)
  }

  function AssistantMessage(blocks: seq<Block>): Message {
    Message("assistant", ContentOf(Texts(blocks)), "", Calls(blocks), "")
  }

  function FinishReason(stopReason: string): string {
    if stopReason == "end_turn" then "stop"
    else if stopReason == "max_tokens" then "length"
    else if stopReason == "tool_use" then "tool_calls"
    else "stop"
  }

  method ConvertResponse(ar: AResponse, publicModel: string) returns (resp: ChatResponse)
    ensures resp.id == ar.id && resp.model == publicModel
    ensures resp.choices == [Choice(0, AssistantMessage(ar.content), FinishReason(ar.stopReason))]
    ensures resp.choices[0].message.role == "assistant"
    ensures resp.choices[0].finishReason ==
      if ar.stopReason == "max_tokens" then "length" else if ar.stopReason == "tool_use" then "tool_calls" else "stop"
    ensures resp.usage == Some(Usage(ar.inputTokens, ar.outputTokens, ar.inputTokens + ar.outputTokens))
  {
    var usage := Usage(ar.inputTokens, ar.outputTokens, ar.inputTokens + ar.outputTokens);
    var textParts: seq<string> := [];
    var toolCalls: seq<ToolCall> := [];
    for n := 0 to |ar.content|
      invariant textParts == CollectUpTo(TextIn, ar.content, n)
      invariant toolCalls == CollectUpTo(CallIn, ar.content, n)
    {
      var c := ar.content[n];
      if c.kind == "text" {
        textParts := textParts + [c.text];
      } else if c.kind == "tool_use" {
        toolCalls := toolCalls + [CallOf(c)];
      }
    }
    var content := if |textParts| > 0 then JStr(Concat(textParts)) else JNull;
    var finishReason := "stop";
    if ar.stopReason == "end_turn" {
      finishReason := "stop";
    } else if ar.stopReason == "max_tokens" {
      finishReason := "length";
    } else if ar.stopReason == "tool_use" {
      finishReason := "tool_calls";
    }
    resp := ChatResponse(
      ar.id, publicModel, [Choice(0, Message("assistant", content, "", toolCalls, ""), finishReason)], Some(usage));
  }

  // ---- Tool calls survive the round trip ---------------------------------------------------------

  function Retyped(call: ToolCall): ToolCall {
    call.(kind := "function")
  }

  function RetypedUpTo(calls: seq<ToolCall>, n: nat): seq<ToolCall>
    requires n <= |calls|
  {
    if n == 0 then [] else RetypedUpTo(calls, n - 1) + [Retyped(calls[n - 1])]
  }

  lemma {:induction false} RetypedAre(calls: seq<ToolCall>, n: nat)
    requires n <= |calls|
    ensures |RetypedUpTo(calls, n)| == n
    ensures forall k | 0 <= k < n :: RetypedUpTo(calls, n)[k] == Retyped(calls[k])
  {
    if n > 0 {
      RetypedAre(calls, n - 1);
    }
  }

  lemma ReadOneMoreCall(blocks: seq<Block>, call: ToolCall)
    ensures Texts(blocks + [ToolUseBlock(call)]) == Texts(blocks)
    ensures Calls(blocks + [ToolUseBlock(call)]) == Calls(blocks) + [Retyped(call)]
  {
    CollectAppend(TextIn, blocks, ToolUseBlock(call));
    CollectAppend(CallIn, blocks, ToolUseBlock(call));
  }

  lemma {:induction false} CallsReadBack(head: seq<Block>, calls: seq<ToolCall>, n: nat)
    requires n <= |calls| && Calls(head) == []
    ensures Texts(head + CallBlocksUpTo(calls, n)) == Texts(head)
    ensures Calls(head + CallBlocksUpTo(calls, n)) == RetypedUpTo(calls, n)
  {
    if n == 0 {
      assert head + CallBlocksUpTo(calls, 0) == head;
    } else {
      CallsReadBack(head, calls, n - 1);
      ReadOneMoreCall(head + CallBlocksUpTo(calls, n - 1), calls[n - 1]);
      assert head + CallBlocksUpTo(calls, n) ==
             head + CallBlocksUpTo(calls, n - 1) + [ToolUseBlock(calls[n - 1])];
    }
  }

  /** The blocks of a reply are read one by one, in order, */
  lemma BlocksAreReadInOrder(a: seq<Block>, b: seq<Block>)
    ensures Texts(a + b) == Texts(a) + Texts(b) && Calls(a + b) == Calls(a) + Calls(b)
  {
    CollectBoth(TextIn, a, b);
    CollectBoth(CallIn, a, b);
  }

  /** of which a text block is a text, a tool use block is a function call, and any other is nothing. */
  lemma OneBlockIsRead(b: Block)
    ensures Texts([b]) == if b.kind == "text" then [b.text] else []
    ensures b.kind != "tool_use" ==> Calls([b]) == []
    ensures b.kind == "tool_use" ==>
      exists call :: Calls([b]) == [call] &&
        call.id == b.id && call.kind == "function" && call.name == b.name && call.arguments == b.input
  {
    CollectOne(TextIn, b);
    CollectOne(CallIn, b);
    if b.kind == "tool_use" {
      assert Calls([b]) == [CallOf(b)];
    }
  }

  lemma HeadReadsBack(text: string)
    ensures Texts([TextBlock(text)]) == [text] && Calls([TextBlock(text)]) == []
  {
    CollectOne(TextIn, TextBlock(text));
    CollectOne(CallIn, TextBlock(text));
  }

  lemma BlocksReadBack(text: string, calls: seq<ToolCall>)
    ensures Texts(BlocksOf(text, calls)) == if text == "" then [] else [text]
    ensures SameButKind(Calls(BlocksOf(text, calls)), calls)
  {
    HeadReadsBack(text);
    CallsReadBack(if text != "" then [TextBlock(text)] else [], calls, |calls|);
    RetypedAre(calls, |calls|);
  }

  /** Ids, names, arguments and order agree, and the kind has become "function". */
  predicate SameButKind(back: seq<ToolCall>, calls: seq<ToolCall>) {
    |back| == |calls| && forall k | 0 <= k < |calls| :: back[k] == Retyped(calls[k])
  }

  predicate AllFunctions(calls: seq<ToolCall>) {
    forall k | 0 <= k < |calls| :: calls[k].kind == "function"
  }

  lemma SameIffFunctions(back: seq<ToolCall>, calls: seq<ToolCall>)
    requires SameButKind(back, calls)
    ensures back == calls <==> AllFunctions(calls)
  {
    if back == calls {
      forall k | 0 <= k < |calls| ensures calls[k].kind == "function" {
        assert back[k] == Retyped(calls[k]);
      }
    }
  }

  /**
   An assistant message with tool calls, sent out and read back, keeps its text and its
   calls: ids, names, arguments and order.  It keeps the whole calls exactly when every
   one was a function call.
   */
  lemma ToolCallsRoundTrip(codec: Codec, msg: Message)
    ensures var back := AssistantMessage(AssistantBlocks(codec, msg));
      && TextOf(codec, back.content) == TextOf(codec, msg.content)
      && SameButKind(back.toolCalls, msg.toolCalls)
      && (back.toolCalls == msg.toolCalls <==> AllFunctions(msg.toolCalls))
  {
    var text := TextOf(codec, msg.content);
    BlocksReadBack(text, msg.toolCalls);
    ContentReadBack(codec, text);
    SameIffFunctions(AssistantMessage(AssistantBlocks(codec, msg)).toolCalls, msg.toolCalls);
  }
}
