/** Translation between the OpenAI and native Gemini chat formats (infra/provider/google_provider.go). */
module Gemini {
  import opened Json
  import opened Lists
  import opened OpenAI
  import opened Text
  import opened Wrappers

  datatype GCall = GCall(name: string, args: string)

  datatype GResponse = GResponse(name: string, response: string)

  datatype Part = Part(text: string, call: Option<GCall>, response: Option<GResponse>)

  function TextPart(text: string): Part {
    Part(text, None, None)
  }

  function CallPart(call: ToolCall): Part {
    Part("", Some(GCall(call.name, call.arguments)), None)
  }

  function ResponsePart(name: string, response: string): Part {
    Part("", None, Some(GResponse(name, response)))
  }

  datatype Content = Content(role: string, parts: seq<Part>)

  datatype GRequest = GRequest(
    contents: seq<Content>, system: Option<Content>, maxOutputTokens: int, declarations: seq<seq<Tool>>)

  datatype Candidate = Candidate(content: Content, finishReason: string)

  datatype GUsage = GUsage(prompt: int, candidates: int, total: int)

  datatype GReply = GReply(candidates: seq<Candidate>, usage: Option<GUsage>)

  // ---- convertToGemini --------------------------------------------------------------------------

  function CallPartsUpTo(calls: seq<ToolCall>, n: nat): seq<Part>
    requires n <= |calls|
  {
    if n == 0 then [] else CallPartsUpTo(calls, n - 1) + [CallPart(calls[n - 1])]
  }

  function PartsOf(text: string, calls: seq<ToolCall>): seq<Part> {
    (if text != "" then [TextPart(text)] else []) + CallPartsUpTo(calls, |calls|)
  }

  /** What one message that is not a system message becomes; a tool result replaces everything else. */
  function Converted(codec: Codec, msg: Message): Content {
    var text := TextOf(codec, msg.content);
    if msg.role == "tool" then Content("user", [ResponsePart(msg.name, text)])
    else Content(if msg.role == "assistant" then "model" else msg.role, PartsOf(text, msg.toolCalls))
  }

  function Form(codec: Codec): Message -> Content {
    msg => Converted(codec, msg)
  }

  lemma FormIsConverted(codec: Codec, msg: Message)
    ensures Form(codec)(msg) == Converted(codec, msg)
  {
  }

  function SystemUpTo(codec: Codec, msgs: seq<Message>, n: nat): Option<Content>
    requires n <= |msgs|
  {
    if n == 0 then None
    else if IsSystem(msgs[n - 1]) then Some(Content("", [TextPart(TextOf(codec, msgs[n - 1].content))]))
    else SystemUpTo(codec, msgs, n - 1)
  }

  method ConvertMessage(codec: Codec, msg: Message) returns (gc: Content)
    ensures gc == Converted(codec, msg)
  {
    var role := if msg.role == "assistant" then "model" else msg.role;
    var parts: seq<Part> := [];
    var text := ContentToString(codec, msg.content);
    if text != "" {
      parts := parts + [TextPart(text)];
    }
    ghost var head := parts;
    for n := 0 to |msg.toolCalls|
      invariant parts == head + CallPartsUpTo(msg.toolCalls, n)
    {
      parts := parts + [CallPart(msg.toolCalls[n])];
    }
    if msg.role == "tool" {
      role := "user";
      parts := [ResponsePart(msg.name, text)];
    }
    gc := Content(role, parts);
  }

  method ConvertMessages(codec: Codec, msgs: seq<Message>) returns (contents: seq<Content>, system: Option<Content>)
    ensures contents == LiftedUpTo(Form(codec), msgs, |msgs|)
    ensures system == SystemUpTo(codec, msgs, |msgs|)
  {
    contents, system := [], None;
    for n := 0 to |msgs|
      invariant contents == LiftedUpTo(Form(codec), msgs, n)
      invariant system == SystemUpTo(codec, msgs, n)
    {
      if IsSystem(msgs[n]) {
        var text := ContentToString(codec, msgs[n].content);
        system := Some(Content("", [TextPart(text)]));
      } else {
        var gc := ConvertMessage(codec, msgs[n]);
        FormIsConverted(codec, msgs[n]);
        contents := contents + [gc];
      }
    }
  }

  /** Messages in order, system messages lifted out with the last one winning, all tools in one declaration. */
  method ConvertToGemini(codec: Codec, req: ChatRequest) returns (gr: GRequest)
    ensures gr.contents == LiftedUpTo(Form(codec), req.messages, |req.messages|)
    ensures gr.system == SystemUpTo(codec, req.messages, |req.messages|)
    ensures gr.maxOutputTokens == req.maxTokens
    ensures gr.declarations == if req.tools == [] then [] else [req.tools]
  {
    var contents, system := ConvertMessages(codec, req.messages);
    gr := GRequest(contents, system, req.maxTokens, if |req.tools| > 0 then [req.tools] else []);
  }

  /**
   The k-th message that is not a system message becomes the k-th content, and there are
   no others.
   */
  lemma ContentsMapInOrder(codec: Codec, msgs: seq<Message>, n: nat, i: nat)
    requires i < n <= |msgs| && msgs[i].role != "system"
    ensures |LiftedUpTo(Form(codec), msgs, n)| == RankUpTo(msgs, n)
    ensures RankUpTo(msgs, i) < RankUpTo(msgs, n)
    ensures LiftedUpTo(Form(codec), msgs, n)[RankUpTo(msgs, i)] == Converted(codec, msgs[i])
  {
    LiftedInOrder(Form(codec), msgs, n, i);
    FormIsConverted(codec, msgs[i]);
  }

  /**
   A tool's result is a function response of the user, under the name of the tool.  Any
   other message keeps its role, but the assistant's is called the model's.
   */
  lemma ConvertedMeaning(codec: Codec, msg: Message)
    ensures msg.role == "tool" ==>
      && Converted(codec, msg).role == "user"
      && exists p: Part ::
           && Converted(codec, msg).parts == [p] && p.text == "" && p.call.None?
           && p.response == Some(GResponse(msg.name, TextOf(codec, msg.content)))
    ensures msg.role == "assistant" ==> Converted(codec, msg).role == "model"
    ensures msg.role != "tool" && msg.role != "assistant" ==> Converted(codec, msg).role == msg.role
    ensures msg.role != "tool" ==> Converted(codec, msg).parts == PartsOf(TextOf(codec, msg.content), msg.toolCalls)
  {
    if msg.role == "tool" {
      assert Converted(codec, msg).parts == [ResponsePart(msg.name, TextOf(codec, msg.content))];
    }
  }

  /**
   The system instruction is the text of the last system message, also when that text is
   empty, and there is one exactly when there is a system message.  It is sent as one part without a role.
   */
  lemma {:induction false} SystemIsTheLast(codec: Codec, msgs: seq<Message>, n: nat)
    requires n <= |msgs|
    ensures SystemUpTo(codec, msgs, n).None? <==> forall j | 0 <= j < n :: msgs[j].role != "system"
    ensures forall i | 0 <= i < n && msgs[i].role == "system" && NoSystemIn(msgs, i + 1, n) ::
      SystemUpTo(codec, msgs, n) == Some(Content("", [TextPart(TextOf(codec, msgs[i].content))]))
  {
    if n > 0 {
      SystemIsTheLast(codec, msgs, n - 1);
      forall i | 0 <= i < n && msgs[i].role == "system" && NoSystemIn(msgs, i + 1, n)
        ensures SystemUpTo(codec, msgs, n) == Some(Content("", [TextPart(TextOf(codec, msgs[i].content))]))
      {
        if i < n - 1 {
          assert !IsSystem(msgs[n - 1]) && NoSystemIn(msgs, i + 1, n - 1);
        }
      }
    }
  }

  ghost predicate NoSystemIn(msgs: seq<Message>, from: nat, to: nat)
    requires to <= |msgs|
  {
    forall j | from <= j < to :: msgs[j].role != "system"
  }

  // ---- Generated ids -------------------------------------------------------------------------------

  function Digit(d: nat): char
    requires d < 10
  {
    '0' + d as char
  }

  /** The decimal numeral of n. */
  function Decimal(n: nat): string {
    if n < 10 then [Digit(n)] else Decimal(n / 10) + [Digit(n % 10)]
  }

  /** Different numbers have different numerals. */
  lemma {:induction false} DecimalInjective(m: nat, n: nat)
    requires Decimal(m) == Decimal(n)
    ensures m == n
  {
    var s, t := Decimal(m), Decimal(n);
    assert s[|s| - 1] == Digit(m % 10) && t[|t| - 1] == Digit(n % 10);
    assert m % 10 == n % 10;
    LongDecimal(m);
    LongDecimal(n);
    if m >= 10 && n >= 10 {
      assert s[..|s| - 1] == Decimal(m / 10) && t[..|t| - 1] == Decimal(n / 10);
      DecimalInjective(m / 10, n / 10);
    }
  }

  lemma LongDecimal(n: nat)
    ensures |Decimal(n)| == 1 <==> n < 10
  {
    if n >= 10 {
      DecimalNotEmpty(n / 10);
    }
  }

  lemma DecimalNotEmpty(n: nat)
    ensures |Decimal(n)| >= 1
  {
  }

  /** The number that a numeral stands for. */
  function NumberIn(s: string): int {
    if s == "" then 0 else 10 * NumberIn(s[..|s| - 1]) + (s[|s| - 1] as int - '0' as int)
  }

  /** Numerals are made of digits, stand for their number, and have no leading zero. */
  lemma {:induction false} DecimalMeaning(n: nat)
    ensures NumberIn(Decimal(n)) == n
    ensures forall c | c in Decimal(n) :: '0' <= c <= '9'
    ensures |Decimal(n)| > 1 ==> Decimal(n)[0] != '0'
    ensures n > 0 ==> Decimal(n)[0] != '0'
  {
    if n >= 10 {
      DecimalMeaning(n / 10);
      var s := Decimal(n);
      assert s[..|s| - 1] == Decimal(n / 10);
      DecimalNotEmpty(n / 10);
    } else {
      assert NumberIn("") == 0 && Decimal(n)[..0] == "";
    }
  }

  function CallID(k: nat): string {
    "call_" + Decimal(k)
  }

  lemma CallIDInjective(j: nat, k: nat)
    requires CallID(j) == CallID(k)
    ensures j == k
  {
    assert CallID(j)[5..] == Decimal(j) && CallID(k)[5..] == Decimal(k);
    DecimalInjective(j, k);
  }

  // ---- convertFromGemini ------------------------------------------------------------------------------

  function TextIn(p: Part): seq<string> {
    if p.text == "" then [] else [p.text]
  }

  /** The calls so far; each one's id is the number of calls before it. */
  function CallsUpTo(parts: seq<Part>, n: nat): seq<ToolCall>
    requires n <= |parts|
  {
    if n == 0 then []
    else
      var calls := CallsUpTo(parts, n - 1);
      match parts[n - 1].call
      case Some(call) => calls + [ToolCall(CallID(|calls|), "function", call.name, call.args)]
      case None => calls
  }

  function Texts(parts: seq<Part>): seq<string> {
    Collect(TextIn, parts)
  }

  function Calls(parts: seq<Part>): seq<ToolCall> {
    CallsUpTo(parts, |parts|)
  }

  function FinishReason(reason: string): string {
    if reason == "MAX_TOKENS" then "length" else "stop"
  }

  function ChoiceOf(i: int, cand: Candidate): Choice {
    Choice(i, Message("assistant", ContentOf(Texts(cand.content.parts)), "", Calls(cand.content.parts), ""),
           FinishReason(cand.finishReason))
  }

  method ConvertCandidate(i: int, cand: Candidate) returns (choice: Choice)
    ensures choice == ChoiceOf(i, cand)
  {
    var parts := cand.content.parts;
    var textParts: seq<string> := [];
    var toolCalls: seq<ToolCall> := [];
    for n := 0 to |parts|
      invariant textParts == CollectUpTo(TextIn, parts, n)
      invariant toolCalls == CallsUpTo(parts, n)
    {
      if parts[n].text != "" {
        textParts := textParts + [parts[n].text];
      }
      match parts[n].call
      case Some(call) =>
        toolCalls := toolCalls + [ToolCall(CallID(|toolCalls|), "function", call.name, call.args)];
      case None =>
    }
    var content := if |textParts| > 0 then JStr(Concat(textParts)) else JNull;
    var fr := "stop";
    if cand.finishReason == "MAX_TOKENS" {
      fr := "length";
    } else if cand.finishReason == "STOP" {
      fr := "stop";
    }
    choice := Choice(i, Message("assistant", content, "", toolCalls, ""), fr);
  }

  method ConvertFromGemini(gr: GReply, model: string) returns (resp: ChatResponse)
    ensures resp.model == model && resp.id == ""
    ensures |resp.choices| == |gr.candidates|
    ensures forall i | 0 <= i < |gr.candidates| :: resp.choices[i] == ChoiceOf(i, gr.candidates[i])
    ensures resp.usage.Some? <==> gr.usage.Some?
    ensures gr.usage.Some? ==>
      resp.usage.value == Usage(gr.usage.value.prompt, gr.usage.value.candidates, gr.usage.value.total)
  {
    var usage: Option<Usage> := None;
    if gr.usage.Some? {
      usage := Some(Usage(gr.usage.value.prompt, gr.usage.value.candidates, gr.usage.value.total));
    }
    var choices: seq<Choice> := [];
    for i := 0 to |gr.candidates|
      invariant |choices| == i && forall j | 0 <= j < i :: choices[j] == ChoiceOf(j, gr.candidates[j])
    {
      var choice := ConvertCandidate(i, gr.candidates[i]);
      choices := choices + [choice];
    }
    resp := ChatResponse("", model, choices, usage);
  }

  // ---- Ids within and across candidates -------------------------------------------------------------------

  lemma {:induction false} CallIDsCount(parts: seq<Part>, n: nat, k: nat)
    requires n <= |parts| && k < |CallsUpTo(parts, n)|
    ensures CallsUpTo(parts, n)[k].id == CallID(k)
  {
    if n > 0 && k < |CallsUpTo(parts, n - 1)| {
      CallIDsCount(parts, n - 1, k);
    }
  }

  /** The k-th call of a candidate is call_k, so ids are different within a candidate, */
  lemma IDsDistinctWithin(parts: seq<Part>, j: nat, k: nat)
    requires j < |Calls(parts)| && k < |Calls(parts)|
    ensures Calls(parts)[j].id == Calls(parts)[k].id <==> j == k
  {
    CallIDsCount(parts, |parts|, j);
    CallIDsCount(parts, |parts|, k);
    if Calls(parts)[j].id == Calls(parts)[k].id {
      CallIDInjective(j, k);
    }
  }

  /** and the same from one candidate, or one reply, to the next. */
  lemma IDsRepeatAcross(parts: seq<Part>, others: seq<Part>, j: nat, k: nat)
    requires j < |Calls(parts)| && k < |Calls(others)|
    ensures Calls(parts)[j].id == Calls(others)[k].id <==> j == k
  {
    CallIDsCount(parts, |parts|, j);
    CallIDsCount(others, |others|, k);
    if Calls(parts)[j].id == Calls(others)[k].id {
      CallIDInjective(j, k);
    }
  }

  /** Whatever Gemini reports, and even for a reply that is a tool call, the reason is never "tool_calls". */
  lemma NeverFinishesForTools(i: int, cand: Candidate)
    ensures ChoiceOf(i, cand).finishReason != "tool_calls"
    ensures ChoiceOf(i, cand).finishReason == "length" <==> cand.finishReason == "MAX_TOKENS"
    ensures ChoiceOf(i, cand).finishReason == "stop" <==> cand.finishReason != "MAX_TOKENS"
    ensures ChoiceOf(i, cand).index == i && ChoiceOf(i, cand).message.role == "assistant"
  {
    assert |"tool_calls"| == 10 && |"length"| == 6 && |"stop"| == 4;
  }

  // ---- Tool calls survive the round trip ---------------------------------------------------------------------

  function Renumbered(call: ToolCall, k: nat): ToolCall {
    ToolCall(CallID(k), "function", call.name, call.arguments)
  }

  function RenumberedUpTo(calls: seq<ToolCall>, n: nat): (r: seq<ToolCall>)
    requires n <= |calls|
    ensures |r| == n
  {
    if n == 0 then [] else RenumberedUpTo(calls, n - 1) + [Renumbered(calls[n - 1], n - 1)]
  }

  lemma {:induction false} RenumberedAre(calls: seq<ToolCall>, n: nat, k: nat)
    requires k < n <= |calls|
    ensures RenumberedUpTo(calls, n)[k] == Renumbered(calls[k], k)
  {
    if k < n - 1 {
      RenumberedAre(calls, n - 1, k);
    }
  }

  lemma {:induction false} ReadPrefix(parts: seq<Part>, p: Part, n: nat)
    requires n <= |parts|
    ensures CallsUpTo(parts + [p], n) == CallsUpTo(parts, n)
  {
    if n > 0 {
      ReadPrefix(parts, p, n - 1);
    }
  }

  lemma ReadOneMoreCall(parts: seq<Part>, call: ToolCall)
    ensures Texts(parts + [CallPart(call)]) == Texts(parts)
    ensures Calls(parts + [CallPart(call)]) == Calls(parts) + [Renumbered(call, |Calls(parts)|)]
  {
    ReadPrefix(parts, CallPart(call), |parts|);
    CollectAppend(TextIn, parts, CallPart(call));
  }

  lemma {:induction false} CallsReadBack(head: seq<Part>, calls: seq<ToolCall>, n: nat)
    requires n <= |calls| && Calls(head) == []
    ensures Texts(head + CallPartsUpTo(calls, n)) == Texts(head)
    ensures Calls(head + CallPartsUpTo(calls, n)) == RenumberedUpTo(calls, n)
  {
    if n == 0 {
      assert head + CallPartsUpTo(calls, 0) == head;
    } else {
      CallsReadBack(head, calls, n - 1);
      ReadOneMoreCall(head + CallPartsUpTo(calls, n - 1), calls[n - 1]);
      assert head + CallPartsUpTo(calls, n) == head + CallPartsUpTo(calls, n - 1) + [CallPart(calls[n - 1])];
    }
  }

  /**
   Parts are read one by one, in order: one that has a text gives it, and one that has a
   call gives a function call with the next id.
   */
  lemma OneMorePartIsRead(parts: seq<Part>, p: Part)
    ensures Texts(parts + [p]) == Texts(parts) + (if p.text == "" then [] else [p.text])
    ensures p.call.None? ==> Calls(parts + [p]) == Calls(parts)
    ensures p.call.Some? ==>
      exists call :: Calls(parts + [p]) == Calls(parts) + [call] &&
        call.id == "call_" + Decimal(|Calls(parts)|) && call.kind == "function" &&
        call.name == p.call.value.name && call.arguments == p.call.value.args
  {
    ReadPrefix(parts, p, |parts|);
    CollectAppend(TextIn, parts, p);
    if p.call.Some? {
      var call := ToolCall(CallID(|Calls(parts)|), "function", p.call.value.name, p.call.value.args);
      assert Calls(parts + [p]) == Calls(parts) + [call];
    }
  }

  lemma NoPartsNothingRead()
    ensures Texts([]) == [] && Calls([]) == []
  {
  }

  lemma HeadReadsBack(text: string)
    requires text != ""
    ensures Texts([TextPart(text)]) == [text] && Calls([TextPart(text)]) == []
  {
    CollectOne(TextIn, TextPart(text));
    assert CallsUpTo([TextPart(text)], 0) == [];
  }

  lemma PartsReadBack(text: string, calls: seq<ToolCall>)
    ensures Texts(PartsOf(text, calls)) == if text == "" then [] else [text]
    ensures Calls(PartsOf(text, calls)) == RenumberedUpTo(calls, |calls|)
  {
    if text != "" {
      HeadReadsBack(text);
    }
    CallsReadBack(if text != "" then [TextPart(text)] else [], calls, |calls|);
  }

  /**
   An assistant message, sent out and read back, keeps its text and its calls' names,
   arguments and order.  The calls keep their ids exactly when they already had the ids
   that Gemini's reader makes up.
   */
  lemma ToolCallsRoundTrip(codec: Codec, msg: Message, reason: string)
    requires msg.role == "assistant"
    ensures var back := ChoiceOf(0, Candidate(Converted(codec, msg), reason)).message;
      && TextOf(codec, back.content) == TextOf(codec, msg.content)
      && back.toolCalls == RenumberedUpTo(msg.toolCalls, |msg.toolCalls|)
  {
    var text := TextOf(codec, msg.content);
    PartsReadBack(text, msg.toolCalls);
    ContentReadBack(codec, text);
  }

  lemma IDsKeptIffStandard(calls: seq<ToolCall>)
    ensures RenumberedUpTo(calls, |calls|) == calls <==>
      forall k | 0 <= k < |calls| :: calls[k].id == CallID(k) && calls[k].kind == "function"
  {
    forall k | 0 <= k < |calls| ensures RenumberedUpTo(calls, |calls|)[k] == Renumbered(calls[k], k) {
      RenumberedAre(calls, |calls|, k);
    }
  }
}
