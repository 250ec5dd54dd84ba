/** Concrete streams on which the gateway does not do what one would expect. */
module SampleStreams {
  import AnthropicEvents
  import opened Chunks
  import opened Json
  import opened Metering
  import opened ModelNames
  import opened SampleCodecs
  import StreamAdapters
  import opened Text
  import opened Wrappers

  // ---- A report that is discarded ------------------------------------------------------------

  /** {"usage" followed by this. */
  function UsageText(rest: string): string {
    "{" + "\"usage\"" + rest
  }

  const REPORT_TEXT := UsageText(":{\"prompt_tokens\":7}}")
  const NULL_TEXT := UsageText(":null}")

  const REPORT := JObj(map["usage" := JObj(map["prompt_tokens" := JInt(7)])])
  const NULL_REPORT := JObj(map["usage" := JNull])

  ghost function ReportCodec(): Codec {
    TableCodec(Entry(REPORT_TEXT, REPORT), Entry(NULL_TEXT, NULL_REPORT))
  }

  lemma ReportTextLetters()
    ensures 'd' !in REPORT_TEXT && '\n' !in REPORT_TEXT
  {
  }

  lemma NullTextLetters()
    ensures 'd' !in NULL_TEXT && '\n' !in NULL_TEXT
  {
  }

  lemma UsageTextParts(rest: string)
    ensures var text := UsageText(rest);
      |text| == 8 + |rest| && text[0] == '{' && text[1..8] == "\"usage\""
  {
  }

  lemma ReportTexts()
    ensures |REPORT_TEXT| == 29 && REPORT_TEXT[0] == '{' && REPORT_TEXT[1..8] == "\"usage\""
    ensures |NULL_TEXT| == 14 && NULL_TEXT[0] == '{' && NULL_TEXT[1..8] == "\"usage\""
  {
    UsageTextParts(":{\"prompt_tokens\":7}}");
    UsageTextParts(":null}");
  }

  lemma ReportValues()
    ensures REPORT != NULL_REPORT
  {
    assert REPORT.fields["usage"].JObj? && NULL_REPORT.fields["usage"].JNull?;
  }

  lemma ReportCodecIsLawful()
    ensures Lawful(ReportCodec()) && FitsEventStream(ReportCodec())
    ensures ReportCodec().decode(REPORT_TEXT) == Some(REPORT)
    ensures ReportCodec().decode(NULL_TEXT) == Some(NULL_REPORT)
  {
    ReportTexts();
    ReportTextLetters();
    NullTextLetters();
    ReportValues();
    TableCodecIsLawful(Entry(REPORT_TEXT, REPORT), Entry(NULL_TEXT, NULL_REPORT));
  }

  lemma ModelNameHasD(line: string)
    requires Index(line, PREFIX).Some?
    ensures 'd' in line[1..]
  {
    var i := Index(line, PREFIX).value;
    assert line[i..i + |PREFIX|][3] == 'd';
    assert line[1..][i + 2] == 'd';
  }

  /** A line with no d after its first letter has no model name to rewrite. */
  lemma NoModelName(line: string, publicModel: string)
    requires line != "" && 'd' !in line[1..]
    ensures ReplaceModelName(line, publicModel) == line
  {
    if Index(line, PREFIX).Some? {
      ModelNameHasD(line);
    }
  }

  lemma MentionsUsage(payload: string)
    requires |payload| >= 8 && payload[1..8] == "\"usage\""
    ensures Contains("data: " + payload, "\"usage\"")
  {
    var line := "data: " + payload;
    assert line[7..14] == payload[1..8];
    assert OccursAt(line, "\"usage\"", 7);
  }

  lemma ReportRead()
    ensures Chunks.UsageIn(Some(REPORT)) == Tokens(7, 0, 0) && ContentIn(Some(REPORT)) == ""
    ensures Chunks.UsageIn(Some(NULL_REPORT)) == NO_TOKENS && ContentIn(Some(NULL_REPORT)) == ""
  {
    var usage := REPORT.fields["usage"];
    assert usage.fields["prompt_tokens"] == JInt(7);
    assert "completion_tokens" !in usage.fields && "total_tokens" !in usage.fields;
  }

  /** How the meter reads a line that mentions usage and no model. */
  lemma UsageLineRead(codec: Codec, publicModel: string, payload: string, chunk: JValue)
    requires |payload| >= 8 && payload[1..8] == "\"usage\"" && 'd' !in payload
    requires codec.decode(payload) == Some(chunk)
    ensures var line := "data: " + payload;
      && BearsUsage(publicModel, line)
      && UsageOfLine(codec, Relayed(publicModel, line)) == Chunks.UsageIn(Some(chunk))
      && CharsIn(codec, publicModel, line) == |ContentIn(Some(chunk))|
  {
    var line := "data: " + payload;
    assert line[1..] == "ata: " + payload;
    NoModelName(line, publicModel);
    MentionsUsage(payload);
    assert line[6..] == payload;
    assert line != "data: [DONE]" by {
      assert payload[1] == '"' && "data: [DONE]"[7] == 'D' && line[7] == payload[1];
    }
  }

  lemma ReportDiscardedBy(codec: Codec, m: Meter, publicModel: string, first: string, second: string)
    requires Measures(m, codec, publicModel)
    requires |first| >= 8 && first[1..8] == "\"usage\"" && 'd' !in first && codec.decode(first) == Some(REPORT)
    requires |second| >= 8 && second[1..8] == "\"usage\"" && 'd' !in second && codec.decode(second) == Some(NULL_REPORT)
    ensures var lines := ["data: " + first, "data: " + second];
      && m.bears(lines[0]) && m.usage(lines[0]) == Tokens(7, 0, 0)
      && m.bears(lines[1]) && m.usage(lines[1]) == NO_TOKENS
      && UsageUpTo(m, lines, 2) == NO_TOKENS && CharsUpTo(m, lines, 2) == 0
  {
    ReportRead();
    UsageLineRead(codec, publicModel, first, REPORT);
    UsageLineRead(codec, publicModel, second, NULL_REPORT);
    var lines := ["data: " + first, "data: " + second];
    assert LooksInto(lines[0]) && LooksInto(lines[1]);
    LastUsageWins(m, lines, 2, 1);
    assert CharsUpTo(m, lines, 0) == 0 && CharsUpTo(m, lines, 1) == 0;
  }

  lemma ReportIsDiscardedBy(m: Meter, publicModel: string) returns (lines: seq<string>)
    requires Measures(m, ReportCodec(), publicModel)
    ensures Lawful(ReportCodec()) && FitsEventStream(ReportCodec())
    ensures |lines| == 2 && m.bears(lines[0]) && m.usage(lines[0]) == Tokens(7, 0, 0)
    ensures Billed(ReportCodec(), [], UsageUpTo(m, lines, 2), CharsUpTo(m, lines, 2)) == Tokens(1, 1, 2)
  {
    ReportTexts();
    ReportTextLetters();
    NullTextLetters();
    ReportCodecIsLawful();
    ReportDiscardedBy(ReportCodec(), m, publicModel, REPORT_TEXT, NULL_TEXT);
    lines := ["data: " + REPORT_TEXT, "data: " + NULL_TEXT];
  }

  /**
   A stream that reports 7 tokens, and then a null usage, is billed an estimate of 2: the
   report is discarded.
   */
  lemma ReportIsDiscarded(publicModel: string) returns (m: Meter, lines: seq<string>)
    ensures Lawful(ReportCodec()) && Measures(m, ReportCodec(), publicModel)
    ensures |lines| == 2 && m.bears(lines[0]) && m.usage(lines[0]) == Tokens(7, 0, 0)
    ensures Billed(ReportCodec(), [], UsageUpTo(m, lines, 2), CharsUpTo(m, lines, 2)) == Tokens(1, 1, 2)
  {
    m := GatewayMeter(ReportCodec(), publicModel);
    GatewayMeterMeasures(ReportCodec(), publicModel);
    lines := ReportIsDiscardedBy(m, publicModel);
  }

  // ---- A stream that is lost -------------------------------------------------------------------

  const GREETING := "Hi"

  const DELTA_HEAD := "{\"type\":\"content_block_delta\","
  const DELTA_MIDDLE := "\"delta\":{\"type\":\"text_delta\","
  const DELTA_TAIL := "\"text\":\"Hi\"}}"
  const DELTA_TEXT := DELTA_HEAD + (DELTA_MIDDLE + DELTA_TAIL)

  const DELTA_EVENT := JObj(map[
    "type" := JStr("content_block_delta"),
    "delta" := JObj(map["type" := JStr("text_delta"), "text" := JStr(GREETING)])])

  ghost function ReplyCodec(): Codec {
    TableCodec(Entry(DELTA_TEXT, DELTA_EVENT), Entry("{}", JObj(map[])))
  }

  lemma HeadLetters()
    ensures '\n' !in DELTA_HEAD && DELTA_HEAD[0] == '{'
  {
  }

  lemma MiddleLetters()
    ensures '\n' !in DELTA_MIDDLE
  {
  }

  lemma TailLetters()
    ensures '\n' !in DELTA_TAIL && |DELTA_TAIL| > 2 && DELTA_TAIL[|DELTA_TAIL| - 1] == '}'
  {
  }

  lemma DeltaText()
    ensures '\n' !in DELTA_TEXT && |DELTA_TEXT| > 2
    ensures DELTA_TEXT[0] == '{' && DELTA_TEXT[|DELTA_TEXT| - 1] == '}'
  {
    HeadLetters();
    MiddleLetters();
    TailLetters();
  }

  lemma ReplyCodecIsLawful()
    ensures Lawful(ReplyCodec()) && FitsEventStream(ReplyCodec())
    ensures ReplyCodec().decode(DELTA_TEXT) == Some(DELTA_EVENT)
  {
    DeltaText();
    assert "type" in DELTA_EVENT.fields && "type" !in JObj(map[]).fields;
    TableCodecIsLawful(Entry(DELTA_TEXT, DELTA_EVENT), Entry("{}", JObj(map[])));
  }

  lemma DeltaEventRead()
    ensures AnthropicEvents.ReadEvent(DELTA_EVENT.fields) == AnthropicEvents.TextDelta(GREETING)
  {
    assert DELTA_EVENT.fields["type"] == JStr("content_block_delta");
    var delta := DELTA_EVENT.fields["delta"];
    assert delta.fields["type"] == JStr("text_delta") && delta.fields["text"] == JStr(GREETING);
  }

  /** A data: line whose payload needs no trimming is read as its payload. */
  lemma DataLineRead(codec: Codec, payload: string, fields: map<string, JValue>)
    requires payload != "" && !IsSpace(payload[|payload| - 1]) && codec.decode(payload) == Some(JObj(fields))
    ensures AnthropicEvents.ReadLine(codec, "data: " + payload) ==
            AnthropicEvents.Data(AnthropicEvents.ReadEvent(fields))
  {
    var line := "data: " + payload;
    TrimmedIsFixed(line);
    assert line[6..] == payload;
  }

  lemma PrefixAndRest(prefix: string, rest: string)
    ensures HasPrefix(prefix + rest, prefix)
  {
  }

  lemma EventLineTrimmed(rest: string)
    requires rest != "" && !IsSpace(rest[|rest| - 1])
    ensures HasPrefix(TrimSpace("event:" + rest), "event:")
  {
    var line := "event:" + rest;
    assert line[0] == 'e' && line[|line| - 1] == rest[|rest| - 1];
    TrimmedIsFixed(line);
    PrefixAndRest("event:", rest);
  }

  lemma ReplyIsLostBy(tr: AnthropicEvents.Translator, model: string) returns (lines: seq<string>)
    requires AnthropicEvents.Translates(tr, ReplyCodec(), model)
    ensures Lawful(ReplyCodec()) && FitsEventStream(ReplyCodec())
    ensures StreamAdapters.Segment(tr, lines, 0) == ""
    ensures StreamAdapters.Translation(tr, lines, 0) ==
            AnthropicEvents.DataBlock(ReplyCodec().encode(AnthropicEvents.ContentChunk(model, GREETING)))
  {
    ReplyCodecIsLawful();
    EventLineTrimmed(" message_start");
    var codec := ReplyCodec();
    lines := ["event:" + " message_start", "data: " + DELTA_TEXT];
    StreamAdapters.EventLineComesFirst(tr, codec, model, lines);
    AnthropicEvents.EventLineIsSwallowed(tr, codec, model, lines[0]);
    AnthropicEvents.EventLineIsNamed(codec, lines[0]);
    LastLine(tr, codec, model, lines);
  }

  lemma LastLine(tr: AnthropicEvents.Translator, codec: Codec, model: string, lines: seq<string>)
    requires AnthropicEvents.Translates(tr, codec, model) && codec.decode(DELTA_TEXT) == Some(DELTA_EVENT)
    requires |lines| == 2 && lines[1] == "data: " + DELTA_TEXT && tr.emit(lines[0]) == ""
    requires AnthropicEvents.ReadLine(codec, lines[0]) == AnthropicEvents.EventName
    ensures StreamAdapters.Translation(tr, lines, 0) ==
            AnthropicEvents.DataBlock(codec.encode(AnthropicEvents.ContentChunk(model, GREETING)))
  {
    DeltaText();
    DataLineRead(codec, DELTA_TEXT, DELTA_EVENT.fields);
    DeltaEventRead();
    assert AnthropicEvents.LooksInto(lines[0]) && AnthropicEvents.LooksInto(lines[1]);
    assert StreamAdapters.Translation(tr, lines, 2) == "";
    assert StreamAdapters.Translation(tr, lines, 1) == tr.emit(lines[1]) + "";
  }

  /**
   A reply of one word, after the event: line that Anthropic sends first.  A client that
   reads all of the translation gets the word; one that stops at the first EOF gets no
   byte.
   */
  lemma ReplyIsLost(model: string) returns (tr: AnthropicEvents.Translator, lines: seq<string>)
    ensures Lawful(ReplyCodec()) && FitsEventStream(ReplyCodec())
    ensures AnthropicEvents.Translates(tr, ReplyCodec(), model)
    ensures StreamAdapters.Segment(tr, lines, 0) == ""
    ensures StreamAdapters.Translation(tr, lines, 0) ==
            AnthropicEvents.DataBlock(ReplyCodec().encode(AnthropicEvents.ContentChunk(model, GREETING)))
  {
    tr := AnthropicEvents.AnthropicTranslator(ReplyCodec(), model);
    AnthropicEvents.AnthropicTranslates(ReplyCodec(), model);
    lines := ReplyIsLostBy(tr, model);
  }
}
