/**
 The streamed and the unstreamed translation of an Anthropic reply say the same
 (infra/provider/anthropic_provider.go).
 */
module AnthropicAgreement {
  import Anthropic
  import opened AnthropicEvents
  import opened Chunks
  import opened Json
  import OpenAI
  import opened StreamAdapters
  import opened Text
  import opened Wrappers

  // ---- Text -----------------------------------------------------------------------------------

  /** The text that a reader of the outgoing stream takes from one of its lines. */
  function LineText(codec: Codec, line: string): string {
    if HasPrefix(line, "data: ") && line != "data: [DONE]" then ContentOfLine(codec, line) else ""
  }

  function TextOfLines(codec: Codec, lines: seq<string>): string {
    if lines == [] then "" else LineText(codec, lines[0]) + TextOfLines(codec, lines[1..])
  }

  /** The text that a reader takes from the bytes of the stream, line by line. */
  function ClientText(codec: Codec, bytes: string): string {
    TextOfLines(codec, Split(bytes, '\n'))
  }

  lemma EndOfLine(codec: Codec, line: string, rest: string)
    requires '\n' !in line
    ensures ClientText(codec, line + ['\n'] + rest) == LineText(codec, line) + ClientText(codec, rest)
  {
    SplitOfTwo(line, '\n', rest);
    var lines := [line] + Split(rest, '\n');
    assert lines[1..] == Split(rest, '\n');
  }

  lemma NoBytesNoText(codec: Codec)
    ensures ClientText(codec, "") == ""
  {
    assert TextOfLines(codec, [""]) == LineText(codec, "") + TextOfLines(codec, []);
  }

  /** The text that Anthropic sent in a line. */
  function TextSent(line: Line): string {
    if line.Data? && line.event.TextDelta? then line.event.text else ""
  }

  lemma ContentChunkRead(model: string, text: string)
    ensures ContentIn(Some(ContentChunk(model, text))) == text
  {
    var fields := ContentChunk(model, text).fields;
    var item := JObj(map["index" := JInt(0), "delta" := Delta(JStr(text))]);
    assert fields["choices"] == JArr([item]);
    assert Delta(JStr(text)).fields["content"] == JStr(text);
    assert item.fields["delta"] == Delta(JStr(text));
    assert DeltaContent(item) == Some(text);
  }

  lemma FinishItemRead(finish: string)
    ensures DeltaContent(FinishItem(finish)) == Some("")
    ensures Field(FinishItem(finish).fields, "finish_reason") == JStr(finish)
  {
    assert Delta(JNull).fields["content"] == JNull;
    assert FinishItem(finish).fields["delta"] == Delta(JNull);
  }

  lemma FinishChunkRead(model: string, finish: string, tokens: Option<int>)
    ensures Field(FinishChunk(model, finish, tokens).fields, "choices") == JArr([FinishItem(finish)])
    ensures ContentIn(Some(FinishChunk(model, finish, tokens))) == ""
  {
    FinishItemRead(finish);
    var fields := FinishChunk(model, finish, tokens).fields;
    assert fields["choices"] == JArr([FinishItem(finish)]);
  }

  lemma BlockShows(codec: Codec, payload: string, rest: string)
    requires '\n' !in payload
    ensures ClientText(codec, DataBlock(payload) + rest) ==
            LineText(codec, "data: " + payload) + ClientText(codec, rest)
  {
    var line := "data: " + payload;
    assert DataBlock(payload) + rest == line + ['\n'] + ("" + ['\n'] + rest);
    EndOfLine(codec, line, "" + ['\n'] + rest);
    EndOfLine(codec, "", rest);
  }

  lemma ChunkShows(codec: Codec, chunk: JValue, rest: string)
    requires Lawful(codec) && FitsEventStream(codec)
    ensures ClientText(codec, DataBlock(codec.encode(chunk)) + rest) ==
            ContentIn(Some(chunk)) + ClientText(codec, rest)
  {
    var payload := codec.encode(chunk);
    assert codec.decode(payload) == Some(chunk);
    BlockShows(codec, payload, rest);
    var line := "data: " + payload;
    assert line[6..] == payload && "data: [DONE]"[6..] == "[DONE]";
  }

  lemma EventShows(codec: Codec, model: string, event: Event, rest: string)
    requires Lawful(codec) && FitsEventStream(codec)
    ensures ClientText(codec, Emitted(codec, model, Data(event)) + rest) ==
            TextSent(Data(event)) + ClientText(codec, rest)
  {
    match event
    case TextDelta(text) =>
      ContentChunkRead(model, text);
      ChunkShows(codec, ContentChunk(model, text), rest);
    case MessageDelta(stop, tokens) =>
      FinishChunkRead(model, StreamFinish(stop), tokens);
      ChunkShows(codec, FinishChunk(model, StreamFinish(stop), tokens), rest);
    case MessageStop =>
      BlockShows(codec, "[DONE]", rest);
      assert "data: " + "[DONE]" == "data: [DONE]";
    case OtherEvent =>
      assert "" + rest == rest;
  }

  lemma TrimmedOneLine(raw: string)
    requires '\n' !in raw
    ensures '\n' !in TrimSpace(raw)
  {
    var left := TrimLeft(raw);
    LeftAddsNothing(raw);
    assert forall c | c in TrimRight(left) :: c in left;
  }

  lemma OtherIsTrimmed(codec: Codec, raw: string)
    requires ReadLine(codec, raw).Other?
    ensures ReadLine(codec, raw).text == TrimSpace(raw)
    ensures LineText(codec, TrimSpace(raw)) == ""
  {
  }

  lemma PassedShows(codec: Codec, text: string, rest: string)
    requires '\n' !in text && LineText(codec, text) == ""
    ensures ClientText(codec, (text + "\n") + rest) == ClientText(codec, rest)
  {
    EndOfLine(codec, text, rest);
    assert text + ['\n'] + rest == (text + "\n") + rest;
  }

  lemma KindShows(codec: Codec, model: string, line: Line, rest: string)
    requires Lawful(codec) && FitsEventStream(codec)
    requires line.Other? ==> '\n' !in line.text && LineText(codec, line.text) == ""
    ensures ClientText(codec, Emitted(codec, model, line) + rest) == TextSent(line) + ClientText(codec, rest)
  {
    match line
    case Blank =>
      PassedShows(codec, "", rest);
      assert "" + "\n" == "\n";
    case EventName =>
      assert "" + rest == rest;
    case Data(event) =>
      EventShows(codec, model, event, rest);
    case Other(text) =>
      PassedShows(codec, text, rest);
  }

  lemma LineShows(codec: Codec, model: string, raw: string, rest: string)
    requires Lawful(codec) && FitsEventStream(codec) && '\n' !in raw
    ensures ClientText(codec, Emitted(codec, model, ReadLine(codec, raw)) + rest) ==
            TextSent(ReadLine(codec, raw)) + ClientText(codec, rest)
  {
    TrimmedOneLine(raw);
    if ReadLine(codec, raw).Other? {
      OtherIsTrimmed(codec, raw);
    }
    KindShows(codec, model, ReadLine(codec, raw), rest);
  }

  /** What Anthropic sends, line by line. */
  ghost predicate Sends(sent: string -> string, codec: Codec) {
    forall raw {:trigger LooksInto(raw)} :: LooksInto(raw) ==> sent(raw) == TextSent(ReadLine(codec, raw))
  }

  function SentBy(codec: Codec): string -> string {
    raw => TextSent(ReadLine(codec, raw))
  }

  /** The adapter's own functions are such. */
  lemma AdapterFunctions(codec: Codec, model: string)
    ensures Translates(AnthropicTranslator(codec, model), codec, model) && Sends(SentBy(codec), codec)
  {
    AnthropicTranslates(codec, model);
  }

  lemma TranslatedLineShows(
      tr: Translator, sent: string -> string, codec: Codec, model: string, raw: string, rest: string)
    requires Lawful(codec) && FitsEventStream(codec) && '\n' !in raw
    requires Translates(tr, codec, model) && Sends(sent, codec)
    ensures ClientText(codec, tr.emit(raw) + rest) == sent(raw) + ClientText(codec, rest)
  {
    assert LooksInto(raw);
    LineShows(codec, model, raw, rest);
  }

  /** The text of lines k on, up to message_stop. */
  function SentFrom(tr: Translator, sent: string -> string, lines: seq<string>, k: nat): string
    requires k <= |lines|
    decreases |lines| - k
  {
    if k == |lines| then ""
    else if tr.stops(lines[k]) then sent(lines[k])
    else sent(lines[k]) + SentFrom(tr, sent, lines, k + 1)
  }

  ghost predicate OneLineEach(lines: seq<string>) {
    forall i | 0 <= i < |lines| :: '\n' !in lines[i]
  }

  /** What the client takes from the bytes of the translated stream is exactly the text that was sent. */
  lemma {:induction false} StreamShowsItsText(
      tr: Translator, sent: string -> string, codec: Codec, model: string, lines: seq<string>, k: nat)
    requires Lawful(codec) && FitsEventStream(codec) && OneLineEach(lines) && k <= |lines|
    requires Translates(tr, codec, model) && Sends(sent, codec)
    ensures ClientText(codec, Translation(tr, lines, k)) == SentFrom(tr, sent, lines, k)
    decreases |lines| - k
  {
    NoBytesNoText(codec);
    if k < |lines| {
      if tr.stops(lines[k]) {
        TranslatedLineShows(tr, sent, codec, model, lines[k], "");
        assert tr.emit(lines[k]) + "" == tr.emit(lines[k]) && sent(lines[k]) + "" == sent(lines[k]);
      } else {
        TranslatedLineShows(tr, sent, codec, model, lines[k], Translation(tr, lines, k + 1));
        StreamShowsItsText(tr, sent, codec, model, lines, k + 1);
      }
    }
  }

  /**
   However a reply's text is split into deltas, and whatever other lines come between,
   the content that a client takes from the streamed bytes is the content of the
   unstreamed response.
   */
  lemma StreamAgreesWithResponse(tr: Translator, sent: string -> string, codec: Codec, model: string,
                                 lines: seq<string>, blocks: seq<Anthropic.Block>)
    requires Lawful(codec) && FitsEventStream(codec) && OneLineEach(lines)
    requires Translates(tr, codec, model) && Sends(sent, codec)
    requires SentFrom(tr, sent, lines, 0) == Concat(Anthropic.Texts(blocks))
    ensures ClientText(codec, Translation(tr, lines, 0)) ==
            OpenAI.TextOf(codec, Anthropic.AssistantMessage(blocks).content)
  {
    StreamShowsItsText(tr, sent, codec, model, lines, 0);
    ResponseText(codec, blocks);
  }

  /** And so it is for the adapter itself. */
  lemma AdapterAgreesWithResponse(codec: Codec, model: string, lines: seq<string>, blocks: seq<Anthropic.Block>)
    requires Lawful(codec) && FitsEventStream(codec) && OneLineEach(lines)
    requires SentFrom(AnthropicTranslator(codec, model), SentBy(codec), lines, 0) == Concat(Anthropic.Texts(blocks))
    ensures ClientText(codec, Translation(AnthropicTranslator(codec, model), lines, 0)) ==
            OpenAI.TextOf(codec, Anthropic.AssistantMessage(blocks).content)
  {
    AdapterFunctions(codec, model);
    StreamAgreesWithResponse(AnthropicTranslator(codec, model), SentBy(codec), codec, model, lines, blocks);
  }

  lemma ResponseText(codec: Codec, blocks: seq<Anthropic.Block>)
    ensures OpenAI.TextOf(codec, Anthropic.AssistantMessage(blocks).content) == Concat(Anthropic.Texts(blocks))
  {
  }

  // ---- Finish reasons ----------------------------------------------------------------------------

  /** An outgoing block without the line ends that close it. */
  function Unended(out: string): string {
    if |out| >= 2 && out[|out| - 2..] == "\n\n" then out[..|out| - 2] else out
  }

  lemma DataBlockUnended(payload: string)
    ensures Unended(DataBlock(payload)) == "data: " + payload
    ensures TrimPrefix("data: " + payload, "data: ") == payload
  {
    var out := DataBlock(payload);
    assert out[|out| - 2..] == "\n\n" && out[..|out| - 2] == "data: " + payload;
  }

  /** The finish reason of a chunk's only choice. */
  function FinishSeen(codec: Codec, out: string): Option<string> {
    match codec.decode(TrimPrefix(Unended(out), "data: "))
    case Some(JObj(fields)) =>
      (match Field(fields, "choices")
       case JArr(items) =>
         if |items| == 1 && items[0].JObj? then StringField(Field(items[0].fields, "finish_reason")) else None
       case _ => None)
    case _ => None
  }

  /** Both paths report the same finish reason, for every stop reason. */
  lemma FinishReasonsAgree(codec: Codec, model: string, stop: string, tokens: Option<int>)
    requires Lawful(codec)
    ensures FinishSeen(codec, Emitted(codec, model, Data(MessageDelta(stop, tokens)))) ==
            Some(Anthropic.FinishReason(stop))
  {
    var chunk := FinishChunk(model, StreamFinish(stop), tokens);
    DataBlockUnended(codec.encode(chunk));
    FinishChunkRead(model, StreamFinish(stop), tokens);
    FinishItemRead(StreamFinish(stop));
    assert codec.decode(codec.encode(chunk)) == Some(chunk);
  }

  // ---- From the raw line to the chunk ------------------------------------------------------------

  /** The line is a data line that carries this object. */
  ghost predicate Carries(codec: Codec, raw: string, fields: map<string, JValue>) {
    var line := TrimSpace(raw);
    |line| >= 6 && line[..6] == "data: " && codec.decode(line[6..]) == Some(JObj(fields))
  }

  /** The object in an outgoing block, if there is one. */
  ghost function ChunkIn(codec: Codec, out: string): Option<JValue> {
    codec.decode(TrimPrefix(Unended(out), "data: "))
  }

  lemma CarriedIsRead(codec: Codec, raw: string, fields: map<string, JValue>)
    requires Carries(codec, raw, fields)
    ensures ReadLine(codec, raw) == Data(ReadEvent(fields))
  {
  }

  lemma BlockCarries(codec: Codec, chunk: JValue)
    requires Lawful(codec)
    ensures ChunkIn(codec, DataBlock(codec.encode(chunk))) == Some(chunk)
  {
    DataBlockUnended(codec.encode(chunk));
    assert codec.decode(codec.encode(chunk)) == Some(chunk);
  }

  /** A text delta's text is the content of the chunk, which names the model. */
  lemma RawTextDelta(tr: Translator, codec: Codec, model: string, raw: string,
                     fields: map<string, JValue>, delta: map<string, JValue>, text: string)
    requires Lawful(codec) && Translates(tr, codec, model) && Carries(codec, raw, fields)
    requires Has(fields, "type", JStr("content_block_delta")) && Has(fields, "delta", JObj(delta))
    requires Has(delta, "type", JStr("text_delta")) && Has(delta, "text", JStr(text))
    ensures ContentIn(ChunkIn(codec, tr.emit(raw))) == text && !tr.stops(raw)
    ensures NamesModel(ChunkIn(codec, tr.emit(raw)), model)
  {
    assert LooksInto(raw);
    CarriedIsRead(codec, raw, fields);
    BlockCarries(codec, ContentChunk(model, text));
    ContentChunkRead(model, text);
    ContentChunkNames(model, text);
  }

  /** A chunk of this model, with no id or time of its own. */
  ghost predicate HasHead(fields: map<string, JValue>, model: string) {
    && Has(fields, "model", JStr(model)) && Has(fields, "object", JStr("chat.completion.chunk"))
    && Has(fields, "id", JStr("")) && Has(fields, "created", JNum(0))
  }

  /** The first choice, whose delta has no role. */
  ghost predicate IsFirstChoice(item: JValue) {
    && item.JObj? && Has(item.fields, "index", JNum(0)) && "delta" in item.fields
    && item.fields["delta"].JObj? && Has(item.fields["delta"].fields, "role", JStr(""))
  }

  ghost predicate NamesModel(chunk: Option<JValue>, model: string) {
    && chunk.Some? && chunk.value.JObj? && HasHead(chunk.value.fields, model)
    && "choices" in chunk.value.fields
    && match chunk.value.fields["choices"]
       case JArr(items) => |items| == 1 && IsFirstChoice(items[0])
       case _ => false
  }

  lemma DeltaHasNoRole(content: JValue)
    ensures Has(Delta(content).fields, "role", JStr(""))
  {
  }

  lemma ContentChunkNames(model: string, text: string)
    ensures NamesModel(Some(ContentChunk(model, text)), model)
  {
    DeltaHasNoRole(JStr(text));
    var item := JObj(map["index" := JInt(0), "delta" := Delta(JStr(text))]);
    assert item.fields["delta"] == Delta(JStr(text)) && IsFirstChoice(item);
    assert ContentChunk(model, text).fields["choices"] == JArr([item]);
  }

  lemma FinishItemIsFirst(finish: string)
    ensures IsFirstChoice(FinishItem(finish))
  {
    DeltaHasNoRole(JNull);
    assert FinishItem(finish).fields["delta"] == Delta(JNull);
  }

  lemma FinishChunkNames(model: string, finish: string, tokens: Option<int>)
    ensures NamesModel(Some(FinishChunk(model, finish, tokens)), model)
  {
    FinishItemIsFirst(finish);
    assert FinishChunk(model, finish, tokens).fields["choices"] == JArr([FinishItem(finish)]);
  }

  /** The text of a content_block_delta of any other type is not shown. */
  lemma RawOtherDelta(tr: Translator, codec: Codec, model: string, raw: string,
                      fields: map<string, JValue>, delta: map<string, JValue>)
    requires Translates(tr, codec, model) && Carries(codec, raw, fields)
    requires Has(fields, "type", JStr("content_block_delta")) && Has(fields, "delta", JObj(delta))
    requires !Has(delta, "type", JStr("text_delta"))
    ensures tr.emit(raw) == "" && !tr.stops(raw)
  {
    assert LooksInto(raw);
    CarriedIsRead(codec, raw, fields);
  }

  /**
   The stop reason is the delta's, and the finish reason is the one that an unstreamed
   response gets for it.
   */
  lemma RawStopReason(tr: Translator, codec: Codec, model: string, raw: string,
                      fields: map<string, JValue>, delta: map<string, JValue>, stop: string)
    requires Lawful(codec) && Translates(tr, codec, model) && Carries(codec, raw, fields)
    requires Has(fields, "type", JStr("message_delta")) && Has(fields, "delta", JObj(delta))
    requires Has(delta, "stop_reason", JStr(stop))
    ensures FinishSeen(codec, tr.emit(raw)) == Some(Anthropic.FinishReason(stop))
    ensures ContentIn(ChunkIn(codec, tr.emit(raw))) == "" && NamesModel(ChunkIn(codec, tr.emit(raw)), model)
    ensures !tr.stops(raw)
  {
    assert LooksInto(raw);
    CarriedIsRead(codec, raw, fields);
    MessageDeltaShows(codec, model, stop, AnthropicEvents.UsageIn(fields));
  }

  lemma MessageDeltaShows(codec: Codec, model: string, stop: string, tokens: Option<int>)
    requires Lawful(codec)
    ensures var out := Emitted(codec, model, Data(MessageDelta(stop, tokens)));
      && ChunkIn(codec, out) == Some(FinishChunk(model, StreamFinish(stop), tokens))
      && FinishSeen(codec, out) == Some(Anthropic.FinishReason(stop))
      && ContentIn(ChunkIn(codec, out)) == "" && NamesModel(ChunkIn(codec, out), model)
  {
    FinishReasonsAgree(codec, model, stop, tokens);
    BlockCarries(codec, FinishChunk(model, StreamFinish(stop), tokens));
    FinishChunkRead(model, StreamFinish(stop), tokens);
    FinishChunkNames(model, StreamFinish(stop), tokens);
  }

  /** Without a stop reason, as with a null one, the finish reason is a plain stop. */
  lemma RawNoStopReason(tr: Translator, codec: Codec, model: string, raw: string,
                        fields: map<string, JValue>, delta: map<string, JValue>)
    requires Lawful(codec) && Translates(tr, codec, model) && Carries(codec, raw, fields)
    requires Has(fields, "type", JStr("message_delta")) && Has(fields, "delta", JObj(delta))
    requires "stop_reason" in delta ==> !delta["stop_reason"].JStr?
    ensures FinishSeen(codec, tr.emit(raw)) == Some("stop")
  {
    assert LooksInto(raw);
    CarriedIsRead(codec, raw, fields);
    MessageDeltaShows(codec, model, "", AnthropicEvents.UsageIn(fields));
  }

  lemma FinishUsageRead(model: string, finish: string, n: int)
    requires IsInt64(n)
    ensures Chunks.UsageIn(Some(FinishChunk(model, finish, Some(n)))) == Tokens(0, n, 0)
  {
    var usage := map["prompt_tokens" := JInt(0), "completion_tokens" := JInt(n), "total_tokens" := JInt(0)];
    assert FinishChunk(model, finish, Some(n)).fields["usage"] == JObj(usage);
    UsageReadBack(FinishChunk(model, finish, Some(n)).fields, usage, Tokens(0, n, 0));
  }

  /** The whole number that is left of a number of millionths when its fraction is dropped. */
  ghost predicate IsWholePart(millionths: int, n: int) {
    if millionths >= 0 then n * UNIT <= millionths < (n + 1) * UNIT else (n - 1) * UNIT < millionths <= n * UNIT
  }

  lemma TruncatedMeaning(millionths: int, n: int)
    requires IsWholePart(millionths, n)
    ensures Truncated(millionths) == n
  {
  }

  /** The usage reported is the event's output tokens, as completion tokens and nothing else, */
  lemma RawTokens(tr: Translator, codec: Codec, model: string, raw: string,
                  fields: map<string, JValue>, usage: map<string, JValue>, millionths: int, n: int)
    requires Lawful(codec) && Translates(tr, codec, model) && Carries(codec, raw, fields)
    requires Has(fields, "type", JStr("message_delta")) && Has(fields, "usage", JObj(usage))
    requires Has(usage, "output_tokens", JNum(millionths)) && IsWholePart(millionths, n) && IsInt64(n)
    ensures Chunks.UsageIn(ChunkIn(codec, tr.emit(raw))) == Tokens(0, n, 0)
  {
    assert LooksInto(raw);
    CarriedIsRead(codec, raw, fields);
    TruncatedMeaning(millionths, n);
    var stop := StringIn(MapIn(fields, "delta"), "stop_reason");
    MessageDeltaShows(codec, model, stop, Some(n));
    FinishUsageRead(model, StreamFinish(stop), n);
  }

  /** or none if they are no number. */
  lemma RawNoTokens(tr: Translator, codec: Codec, model: string, raw: string,
                    fields: map<string, JValue>, usage: map<string, JValue>)
    requires Lawful(codec) && Translates(tr, codec, model) && Carries(codec, raw, fields)
    requires Has(fields, "type", JStr("message_delta")) && Has(fields, "usage", JObj(usage))
    requires "output_tokens" in usage ==> !usage["output_tokens"].JNum?
    ensures Chunks.UsageIn(ChunkIn(codec, tr.emit(raw))) == Tokens(0, 0, 0)
  {
    assert LooksInto(raw);
    CarriedIsRead(codec, raw, fields);
    var stop := StringIn(MapIn(fields, "delta"), "stop_reason");
    MessageDeltaShows(codec, model, stop, Some(0));
    FinishUsageRead(model, StreamFinish(stop), 0);
  }

  lemma NoUsageInChunk(model: string, finish: string)
    ensures "usage" !in FinishChunk(model, finish, None).fields
  {
  }

  /** A message_delta without a usage object reports none. */
  lemma RawNoUsage(tr: Translator, codec: Codec, model: string, raw: string, fields: map<string, JValue>)
    requires Lawful(codec) && Translates(tr, codec, model) && Carries(codec, raw, fields)
    requires Has(fields, "type", JStr("message_delta")) && ("usage" in fields ==> !fields["usage"].JObj?)
    ensures var chunk := ChunkIn(codec, tr.emit(raw));
      chunk.Some? && chunk.value.JObj? && "usage" !in chunk.value.fields
  {
    assert LooksInto(raw);
    CarriedIsRead(codec, raw, fields);
    var stop := StringIn(MapIn(fields, "delta"), "stop_reason");
    MessageDeltaShows(codec, model, stop, None);
    NoUsageInChunk(model, StreamFinish(stop));
  }

  /** message_stop ends the stream, and nothing else does. */
  lemma RawStop(tr: Translator, codec: Codec, model: string, raw: string, fields: map<string, JValue>)
    requires Translates(tr, codec, model) && Carries(codec, raw, fields)
    ensures tr.stops(raw) <==> Has(fields, "type", JStr("message_stop"))
    ensures tr.stops(raw) ==> tr.emit(raw) == "data: [DONE]" + "\n\n"
  {
    assert LooksInto(raw);
    CarriedIsRead(codec, raw, fields);
  }

  /** Events of any other type are not translated. */
  lemma RawOtherEvent(tr: Translator, codec: Codec, model: string, raw: string, fields: map<string, JValue>)
    requires Translates(tr, codec, model) && Carries(codec, raw, fields)
    requires forall kind | Has(fields, "type", JStr(kind)) ::
      kind !in ["content_block_delta", "message_delta", "message_stop"]
    ensures tr.emit(raw) == ""
  {
    assert LooksInto(raw);
    CarriedIsRead(codec, raw, fields);
    assert Field(fields, "type").JStr? ==> Has(fields, "type", JStr(fields["type"].text));
  }

  /** A data line that carries neither an object nor null. */
  ghost predicate CarriesNoEvent(codec: Codec, line: string) {
    |line| >= 6 && line[..6] == "data: " ==>
      match codec.decode(line[6..])
      case Some(value) => !value.JObj? && !value.JNull?
      case None => true
  }

  lemma DataIsRead(codec: Codec, line: string)
    requires CarriesNoEvent(codec, line) && HasPrefix(line, "data: ")
    ensures ReadData(codec, line) == Other(line)
  {
    assert line[..6] == "data: ";
  }

  lemma OtherIsRead(codec: Codec, raw: string)
    requires CarriesNoEvent(codec, TrimSpace(raw)) && !HasPrefix(TrimSpace(raw), "event:")
    ensures ReadLine(codec, raw) == if TrimSpace(raw) == "" then Blank else Other(TrimSpace(raw))
  {
    if HasPrefix(TrimSpace(raw), "data: ") {
      DataIsRead(codec, TrimSpace(raw));
    }
  }

  lemma NoEventPrefix(line: string)
    requires |line| < 6 || line[..6] != "event:"
    ensures !HasPrefix(line, "event:")
  {
  }

  /** Everything that is no event is passed on, without the white space around it. */
  lemma RawOtherLine(tr: Translator, codec: Codec, model: string, raw: string)
    requires Translates(tr, codec, model) && CarriesNoEvent(codec, TrimSpace(raw))
    requires |TrimSpace(raw)| < 6 || TrimSpace(raw)[..6] != "event:"
    ensures tr.emit(raw) == TrimSpace(raw) + "\n" && !tr.stops(raw)
  {
    assert LooksInto(raw);
    NoEventPrefix(TrimSpace(raw));
    OtherIsRead(codec, raw);
  }
}
