/** The chat format of the gateway's own API (pkg/openai/types.go), and reading message content. */
module OpenAI {
  import opened Json
  import opened Lists
  import opened Text
  import opened Wrappers

  datatype ToolCall = ToolCall(id: string, kind: string, name: string, arguments: string)

  /** Content is any JSON value; JNull is Go's nil. */
  datatype Message = Message(
    role: string, content: JValue, name: string, toolCalls: seq<ToolCall>, toolCallID: string)

  datatype Tool = Tool(name: string, description: string, parameters: JValue)

  datatype ChatRequest = ChatRequest(model: string, messages: seq<Message>, maxTokens: int, tools: seq<Tool>)

  datatype Usage = Usage(promptTokens: int, completionTokens: int, totalTokens: int)

  datatype Choice = Choice(index: int, message: Message, finishReason: string)

  datatype ChatResponse = ChatResponse(id: string, model: string, choices: seq<Choice>, usage: Option<Usage>)

  // ---- contentToString (infra/provider/anthropic_provider.go) ------------------------------

  /** The text of one content part, if it has one. */
  function PartText(item: JValue): seq<string> {
    if item.JObj? && Field(item.fields, "text").JStr? then [item.fields["text"].text] else []
  }

  function TextsIn(items: seq<JValue>): seq<string> {
    Collect(PartText, items)
  }

  /** A string stands for itself, an array for its parts' texts, nothing for nothing, anything else for its JSON. */
  function TextOf(codec: Codec, content: JValue): string {
    match content
    case JStr(text) => text
    case JArr(items) => Concat(TextsIn(items))
    case JNull => ""
    case _ => codec.encode(content)
  }

  method ContentToString(codec: Codec, content: JValue) returns (text: string)
    ensures text == TextOf(codec, content)
  {
    match content
    case JStr(s) => text := s;
    case JArr(items) =>
      var parts: seq<string> := [];
      for n := 0 to |items|
        invariant parts == CollectUpTo(PartText, items, n)
      {
        if items[n].JObj? && Field(items[n].fields, "text").JStr? {
          parts := parts + [items[n].fields["text"].text];
        }
      }
      text := Concat(parts);
    case JNull => text := "";
    case _ => text := codec.encode(content);
  }

  lemma {:induction false} TextsOfParts(items: seq<JValue>, texts: seq<string>, n: nat)
    requires n <= |items| == |texts|
    requires forall i | 0 <= i < |items| :: PartText(items[i]) == [texts[i]]
    ensures CollectUpTo(PartText, items, n) == texts[..n]
  {
    if n > 0 {
      TextsOfParts(items, texts, n - 1);
      assert texts[..n] == texts[..n - 1] + [texts[n - 1]];
    }
  }

  predicate IsTextPart(item: JValue, text: string) {
    item.JObj? && "text" in item.fields && item.fields["text"] == JStr(text)
  }

  /** An array of text parts reads the same as its texts joined into one string. */
  lemma PartsReadAsOneString(codec: Codec, items: seq<JValue>, texts: seq<string>)
    requires |items| == |texts|
    requires forall i | 0 <= i < |items| :: IsTextPart(items[i], texts[i])
    ensures TextOf(codec, JArr(items)) == Concat(texts) == TextOf(codec, JStr(Concat(texts)))
  {
    TextsOfParts(items, texts, |items|);
    assert texts[..|items|] == texts;
  }

  lemma TextsAround(before: seq<JValue>, item: JValue, after: seq<JValue>)
    ensures TextsIn(before + [item] + after) == TextsIn(before) + PartText(item) + TextsIn(after)
  {
    CollectBoth(PartText, before + [item], after);
    CollectAppend(PartText, before, item);
  }

  /** The parts of an array are read in order, each text part as its text, */
  lemma TextPartIsRead(codec: Codec, before: seq<JValue>, item: JValue, text: string, after: seq<JValue>)
    requires IsTextPart(item, text)
    ensures TextOf(codec, JArr(before + [item] + after)) ==
            TextOf(codec, JArr(before)) + text + TextOf(codec, JArr(after))
  {
    TextsAround(before, item, after);
    ConcatOfTwo(TextsIn(before) + [text], TextsIn(after));
    ConcatOfTwo(TextsIn(before), [text]);
    ConcatOne(text);
  }

  /** and the others not at all. */
  lemma OtherPartIsPassedOver(codec: Codec, before: seq<JValue>, item: JValue, after: seq<JValue>)
    requires forall text :: !IsTextPart(item, text)
    ensures TextOf(codec, JArr(before + [item] + after)) == TextOf(codec, JArr(before + after))
  {
    if item.JObj? && Field(item.fields, "text").JStr? {
      assert IsTextPart(item, item.fields["text"].text);
    }
    TextsAround(before, item, after);
    CollectBoth(PartText, before, after);
    assert TextsIn(before) + PartText(item) == TextsIn(before);
  }

  /** No content is no text, and content that is neither text nor parts is sent as its JSON. */
  lemma OtherContentIsItsJson(codec: Codec, content: JValue)
    requires Lawful(codec) && !content.JStr? && !content.JArr?
    ensures content.JNull? ==> TextOf(codec, content) == ""
    ensures !content.JNull? ==> codec.decode(TextOf(codec, content)) == Some(content)
  {
    assert codec.decode(codec.encode(content)) == Some(content);
  }

  // ---- Lifting out system messages -----------------------------------------------------------

  predicate IsSystem(msg: Message) {
    msg.role == "system"
  }

  /** How many of the first n messages are not system messages. */
  function RankUpTo(msgs: seq<Message>, n: nat): nat
    requires n <= |msgs|
  {
    if n == 0 then 0 else RankUpTo(msgs, n - 1) + if IsSystem(msgs[n - 1]) then 0 else 1
  }

  /** The first n messages in a provider's form, in order, without the system messages. */
  function LiftedUpTo<T>(form: Message -> T, msgs: seq<Message>, n: nat): seq<T>
    requires n <= |msgs|
  {
    if n == 0 then []
    else LiftedUpTo(form, msgs, n - 1) + if IsSystem(msgs[n - 1]) then [] else [form(msgs[n - 1])]
  }

  lemma {:induction false} LiftedCount<T>(form: Message -> T, msgs: seq<Message>, n: nat)
    requires n <= |msgs|
    ensures |LiftedUpTo(form, msgs, n)| == RankUpTo(msgs, n)
  {
    if n > 0 {
      LiftedCount(form, msgs, n - 1);
    }
  }

  /** The k-th message that is not a system message is the k-th one lifted, and there are no others. */
  lemma {:induction false} LiftedInOrder<T>(form: Message -> T, msgs: seq<Message>, n: nat, i: nat)
    requires i < n <= |msgs| && msgs[i].role != "system"
    ensures |LiftedUpTo(form, msgs, n)| == RankUpTo(msgs, n)
    ensures RankUpTo(msgs, i) < RankUpTo(msgs, n)
    ensures LiftedUpTo(form, msgs, n)[RankUpTo(msgs, i)] == form(msgs[i])
  {
    LiftedCount(form, msgs, n);
    LiftedCount(form, msgs, n - 1);
    if i < n - 1 {
      LiftedInOrder(form, msgs, n - 1, i);
    }
  }

  /** The content made of a reply's texts; without any it stays nil. */
  function ContentOf(texts: seq<string>): JValue {
    if texts == [] then JNull else JStr(Concat(texts))
  }

  /** A reply's texts are read as one string, however many they are, and none is nil. */
  lemma TextsReadBack(codec: Codec, texts: seq<string>)
    ensures TextOf(codec, ContentOf(texts)) == Concat(texts)
    ensures ContentOf(texts).JNull? <==> texts == []
  {
  }

  lemma ContentReadBack(codec: Codec, text: string)
    ensures TextOf(codec, ContentOf(if text == "" then [] else [text])) == text
  {
    ConcatOne(text);
  }
}
