/** What the gateway's meter reads in a stream line (core/inference/helpers.go). */
module Chunks {
  import opened Json
  import opened Text
  import opened Wrappers

  // ---- extractContentLength ---------------------------------------------------------------

  /** The content of one choice's delta, if the choice decodes. */
  function DeltaContent(item: JValue): Option<string> {
    match item
    case JNull => Some("")
    case JObj(choice) =>
      (match Field(choice, "delta")
       case JNull => Some("")
       case JObj(delta) => StringField(Field(delta, "content"))
       case _ => None)
    case _ => None
  }

  predicate AllDecode(items: seq<JValue>) {
    forall i | 0 <= i < |items| :: DeltaContent(items[i]).Some?
  }

  /** The first choice's content; a chunk with any misshapen choice counts for nothing. */
  function FirstContent(choices: JValue): string {
    if choices.JArr? && choices.items != [] && AllDecode(choices.items) then DeltaContent(choices.items[0]).value
    else ""
  }

  function ContentIn(chunk: Option<JValue>): string {
    match chunk
    case Some(JObj(fields)) => FirstContent(Field(fields, "choices"))
    case _ => ""
  }

  function ContentOfLine(codec: Codec, line: string): string {
    ContentIn(codec.decode(TrimPrefix(line, "data: ")))
  }

  // ---- extractStreamUsage -------------------------------------------------------------------

  datatype Tokens = Tokens(prompt: int, completion: int, total: int)

  const NO_TOKENS := Tokens(0, 0, 0)

  /** A missing, null or misshapen usage object reads as zeros. */
  function UsageIn(chunk: Option<JValue>): Tokens {
    match chunk
    case Some(JObj(fields)) =>
      (match Field(fields, "usage")
       case JObj(usage) =>
         var prompt := IntField(Field(usage, "prompt_tokens"));
         var completion := IntField(Field(usage, "completion_tokens"));
         var total := IntField(Field(usage, "total_tokens"));
         if prompt.Some? && completion.Some? && total.Some? then Tokens(prompt.value, completion.value, total.value)
         else NO_TOKENS
       case _ => NO_TOKENS)
    case _ => NO_TOKENS
  }

  ghost predicate Has(fields: map<string, JValue>, name: string, value: JValue) {
    name in fields && fields[name] == value
  }

  /** A usage object in the API's own form is read back, whatever else the chunk and the object hold. */
  lemma UsageReadBack(chunk: map<string, JValue>, usage: map<string, JValue>, tokens: Tokens)
    requires IsInt64(tokens.prompt) && IsInt64(tokens.completion) && IsInt64(tokens.total)
    requires Has(chunk, "usage", JObj(usage)) && Has(usage, "prompt_tokens", JInt(tokens.prompt))
    requires Has(usage, "completion_tokens", JInt(tokens.completion))
    requires Has(usage, "total_tokens", JInt(tokens.total))
    ensures UsageIn(Some(JObj(chunk))) == tokens
  {
    IntReadBack(tokens.prompt);
    IntReadBack(tokens.completion);
    IntReadBack(tokens.total);
  }

  lemma IntReadBack(n: int)
    requires IsInt64(n)
    ensures IntField(JInt(n)) == Some(n)
  {
  }

  /** Without a usage object nothing is read. */
  lemma NoUsageRead(chunk: map<string, JValue>)
    requires "usage" in chunk ==> !chunk["usage"].JObj?
    ensures UsageIn(Some(JObj(chunk))) == NO_TOKENS
  {
  }

  /** The content read is that of the first choice's delta, if the other choices decode. */
  lemma ContentReadBack(chunk: map<string, JValue>, choice: map<string, JValue>, delta: map<string, JValue>,
                        more: seq<JValue>, text: string)
    requires Has(chunk, "choices", JArr([JObj(choice)] + more)) && AllDecode(more)
    requires Has(choice, "delta", JObj(delta)) && Has(delta, "content", JStr(text))
    ensures ContentIn(Some(JObj(chunk))) == text
  {
    assert DeltaContent(JObj(choice)) == Some(text);
    forall i | 0 <= i < |more| + 1 ensures DeltaContent(([JObj(choice)] + more)[i]).Some? {
      if i > 0 {
        assert DeltaContent(more[i - 1]).Some?;
      }
    }
  }

  /** Without a choice there is no content. */
  lemma NoChoiceNoContent(chunk: map<string, JValue>)
    requires "choices" in chunk ==> chunk["choices"] == JArr([]) || !chunk["choices"].JArr?
    ensures ContentIn(Some(JObj(chunk))) == ""
  {
  }

  function UsageOfLine(codec: Codec, line: string): Tokens {
    UsageIn(codec.decode(TrimPrefix(line, "data: ")))
  }
}
