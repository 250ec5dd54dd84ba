/** How the stream adapter translates Anthropic's lines into OpenAI chunks (infra/provider/anthropic_provider.go). */
module AnthropicEvents {
  import opened Json
  import opened Text
  import opened Wrappers

  // ---- One line --------------------------------------------------------------------------------

  /** A missing or wrongly typed field reads as "". */
  function StringIn(fields: map<string, JValue>, name: string): string {
    if Field(fields, name).JStr? then Field(fields, name).text else ""
  }

  /** A missing or wrongly typed field reads as the nil map, which has no fields. */
  function MapIn(fields: map<string, JValue>, name: string): map<string, JValue> {
    if Field(fields, name).JObj? then Field(fields, name).fields else map[]
  }

  /** Go's conversion to int truncates towards zero. */
  function Truncated(millionths: int): int {
    if millionths >= 0 then millionths / UNIT else -(-millionths / UNIT)
  }

  /** What an event means for the translation. */
  datatype Event =
    | TextDelta(text: string)
    | MessageDelta(stopReason: string, outputTokens: Option<int>)
    | MessageStop
    | OtherEvent

  function UsageIn(fields: map<string, JValue>): Option<int> {
    if !Field(fields, "usage").JObj? then None
    else
      var tokens := Field(Field(fields, "usage").fields, "output_tokens");
      Some(if tokens.JNum? then Truncated(tokens.millionths) else 0)
  }

  function ReadEvent(fields: map<string, JValue>): Event {
    var kind := StringIn(fields, "type");
    var delta := MapIn(fields, "delta");
    if kind == "content_block_delta" then
      if StringIn(delta, "type") == "text_delta" then TextDelta(StringIn(delta, "text")) else OtherEvent
    else if kind == "message_delta" then MessageDelta(StringIn(delta, "stop_reason"), UsageIn(fields))
    else if kind == "message_stop" then MessageStop
    else OtherEvent
  }

  /** What a line of the upstream body is. */
  datatype Line =
    | Blank
    | EventName             // an event: line
    | Data(event: Event)
    | Other(text: string)   // anything else, passed through

  function ReadData(codec: Codec, line: string): Line {
    match codec.decode(TrimPrefix(line, "data: "))
    case Some(JObj(fields)) => Data(ReadEvent(fields))
    case Some(JNull) => Data(OtherEvent)
    case _ => Other(line)
  }

  function ReadLine(codec: Codec, raw: string): Line {
    var line := TrimSpace(raw);
    if line == "" then Blank
    else if HasPrefix(line, "data: ") then ReadData(codec, line)
    else if HasPrefix(line, "event:") then EventName
    else Other(line)
  }

  /** The finish reason of a streamed message; everything but two reasons is a plain stop. */
  function StreamFinish(stopReason: string): string {
    if stopReason == "max_tokens" then "length"
    else if stopReason == "tool_use" then "tool_calls"
    else "stop"
  }

  function Delta(content: JValue): JValue {
    JObj(map["role" := JStr(""), "content" := content])
  }

  function ContentChunk(model: string, text: string): JValue {
    JObj(map[
      "id" := JStr(""), "object" := JStr("chat.completion.chunk"), "created" := JInt(0), "model" := JStr(model),
      "choices" := JArr([JObj(map["index" := JInt(0), "delta" := Delta(JStr(text))])])])
  }

  function FinishItem(finish: string): JValue {
    JObj(map["index" := JInt(0), "delta" := Delta(JNull), "finish_reason" := JStr(finish)])
  }

  function FinishChunk(model: string, finish: string, outputTokens: Option<int>): JValue {
    var fields := map[
      "id" := JStr(""), "object" := JStr("chat.completion.chunk"), "created" := JInt(0), "model" := JStr(model),
      "choices" := JArr([FinishItem(finish)])];
    JObj(if outputTokens.None? then fields
         else fields["usage" := JObj(map[
           "prompt_tokens" := JInt(0), "completion_tokens" := JInt(outputTokens.value), "total_tokens" := JInt(0)])])
  }

  /** One block of the outgoing event stream. */
  function DataBlock(payload: string): string {
    "data: " + payload + "\n\n"
  }

  function Emitted(codec: Codec, model: string, line: Line): string {
    match line
    case Blank => "\n"
    case EventName => ""
    case Other(text) => text + "\n"
    case Data(TextDelta(text)) => DataBlock(codec.encode(ContentChunk(model, text)))
    case Data(MessageDelta(stop, tokens)) => DataBlock(codec.encode(FinishChunk(model, StreamFinish(stop), tokens)))
    case Data(MessageStop) => DataBlock("[DONE]")
    case Data(OtherEvent) => ""
  }

  predicate Stops(line: Line) {
    line == Data(MessageStop)
  }

  /** A line of which the client gets nothing. */
  predicate Swallowed(line: Line) {
    line == EventName || line == Data(OtherEvent)
  }

  lemma OnlySwallowedIsEmpty(codec: Codec, model: string, line: Line)
    ensures Emitted(codec, model, line) == "" <==> Swallowed(line)
  {
  }

  /** What Read does with an event, branch by branch. */
  method TranslateEvent(codec: Codec, model: string, event: Event) returns (out: string, stops: bool)
    ensures out == Emitted(codec, model, Data(event)) && stops == Stops(Data(event))
  {
    match event
    case TextDelta(text) =>
      return DataBlock(codec.encode(ContentChunk(model, text))), false;
    case MessageDelta(stopReason, tokens) =>
      var fr := "stop";
      if stopReason == "max_tokens" {
        fr := "length";
      } else if stopReason == "tool_use" {
        fr := "tool_calls";
      }
      return DataBlock(codec.encode(FinishChunk(model, fr, tokens))), false;
    case MessageStop =>
      return DataBlock("[DONE]"), true;
    case OtherEvent =>
      return "", false;
  }

  // ---- The translation as a whole -------------------------------------------------------------

  /** How raw lines are translated, and which of them ends the stream. */
  datatype Translator = Translator(emit: string -> string, stops: string -> bool)

  function EmitLine(codec: Codec, model: string, raw: string): string {
    Emitted(codec, model, ReadLine(codec, raw))
  }

  predicate StopsAtLine(codec: Codec, raw: string) {
    Stops(ReadLine(codec, raw))
  }

  function AnthropicTranslator(codec: Codec, model: string): Translator {
    Translator(raw => EmitLine(codec, model, raw), raw => StopsAtLine(codec, raw))
  }

  /** Marks a line whose translation a proof looks into. */
  ghost predicate LooksInto(raw: string) {
    true
  }

  /**
   The translator is the adapter's, line by line.  A proof about the whole stream keeps
   it folded; one about a line unfolds it by LooksInto.
   */
  ghost predicate Translates(tr: Translator, codec: Codec, model: string) {
    forall raw {:trigger LooksInto(raw)} :: LooksInto(raw) ==>
      && tr.emit(raw) == EmitLine(codec, model, raw)
      && tr.stops(raw) == StopsAtLine(codec, raw)
  }

  lemma AnthropicTranslates(codec: Codec, model: string)
    ensures Translates(AnthropicTranslator(codec, model), codec, model)
  {
  }

  /** What Read does with a line. */
  method TranslateLine(codec: Codec, model: string, ghost tr: Translator, raw: string)
    returns (out: string, stops: bool)
    requires Translates(tr, codec, model)
    ensures out == tr.emit(raw) && stops == tr.stops(raw)
  {
    assert LooksInto(raw);
    var line := TrimSpace(raw);
    if line == "" {
      return "\n", false;
    }
    if HasPrefix(line, "data: ") {
      var event := codec.decode(TrimPrefix(line, "data: "));
      match event
      case Some(JObj(fields)) =>
        out, stops := TranslateEvent(codec, model, ReadEvent(fields));
        return;
      case Some(JNull) =>
        return "", false;
      case _ =>
        return line + "\n", false;
    }
    if HasPrefix(line, "event:") {
      return "", false;
    }
    return line + "\n", false;
  }

  lemma EventLineIsNamed(codec: Codec, raw: string)
    requires HasPrefix(TrimSpace(raw), "event:")
    ensures ReadLine(codec, raw) == EventName
  {
    var line := TrimSpace(raw);
    assert line[0] == 'e';
    assert !HasPrefix(line, "data: ");
  }

  /** An event: line is swallowed. */
  lemma EventLineIsSwallowed(tr: Translator, codec: Codec, model: string, raw: string)
    requires Translates(tr, codec, model) && HasPrefix(TrimSpace(raw), "event:")
    ensures tr.emit(raw) == ""
  {
    EventLineIsNamed(codec, raw);
    assert LooksInto(raw);
  }
}
