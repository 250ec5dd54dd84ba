/**
 Relaying and metering a stream (core/inference/service.go, core/inference/helpers.go).

 A string is a sequence of bytes.  The scanner is the list of lines it yields; the
 writer is two functions that say whether its k-th WriteLine and Flush succeed.
 */
module Metering {
  import opened Chunks
  import opened Json
  import opened ModelNames
  import opened OpenAI
  import opened Sums
  import opened Text
  import opened Wrappers

  // ---- One line -------------------------------------------------------------------------------

  predicate IsData(line: string) {
    HasPrefix(line, "data: ") && line != "data: [DONE]"
  }

  /** What the client is sent for a line. */
  function Relayed(publicModel: string, line: string): string {
    if IsData(line) then ReplaceModelName(line, publicModel) else line
  }

  /** Only the model name of a data line is changed, and never the end mark. */
  lemma RelayedMeaning(publicModel: string, line: string)
    ensures |line| >= 6 && line[..6] == "data: " && line[6..] != "[DONE]" ==>
      Relayed(publicModel, line) == ReplaceModelName(line, publicModel)
    ensures (|line| < 6 || line[..6] != "data: ") ==> Relayed(publicModel, line) == line
    ensures line == "data: [DONE]" ==> Relayed(publicModel, line) == line
  {
    if |line| >= 6 && line[..6] == "data: " {
      assert line == line[..6] + line[6..];
    }
  }

  predicate BearsUsage(publicModel: string, line: string) {
    IsData(line) && Contains(Relayed(publicModel, line), "\"usage\"")
  }

  function CharsIn(codec: Codec, publicModel: string, line: string): nat {
    if IsData(line) then |ContentOfLine(codec, Relayed(publicModel, line))| else 0
  }

  /** What a relay loop does with each raw line. */
  datatype Meter = Meter(relay: string -> string, bears: string -> bool, usage: string -> Tokens, chars: string -> nat)

  function GatewayMeter(codec: Codec, publicModel: string): Meter {
    Meter(raw => Relayed(publicModel, raw),
          raw => BearsUsage(publicModel, raw),
          raw => UsageOfLine(codec, Relayed(publicModel, raw)),
          raw => CharsIn(codec, publicModel, raw))
  }

  /** Marks a line whose treatment a proof looks into. */
  ghost predicate LooksInto(raw: string) {
    true
  }

  /**
   The meter is the gateway's, line by line.  A proof about the whole loop keeps the
   meter folded; one about a line unfolds it by LooksInto.
   */
  ghost predicate Measures(m: Meter, codec: Codec, publicModel: string) {
    forall raw {:trigger LooksInto(raw)} :: LooksInto(raw) ==>
      && m.relay(raw) == Relayed(publicModel, raw)
      && (m.bears(raw) <==> BearsUsage(publicModel, raw))
      && m.usage(raw) == UsageOfLine(codec, Relayed(publicModel, raw))
      && m.chars(raw) == CharsIn(codec, publicModel, raw)
  }

  lemma GatewayMeterMeasures(codec: Codec, publicModel: string)
    ensures Measures(GatewayMeter(codec, publicModel), codec, publicModel)
  {
  }

  /** What the meter takes from a data line that names no model is what its payload says, */
  lemma DataLineMeasured(codec: Codec, publicModel: string, m: Meter, payload: string)
    requires Measures(m, codec, publicModel) && payload != "[DONE]"
    requires ModelSpan("data: " + payload).None?
    ensures var raw := "data: " + payload;
      && m.relay(raw) == raw
      && (m.bears(raw) <==> Contains(raw, "\"usage\""))
      && m.usage(raw) == UsageIn(codec.decode(payload))
      && m.chars(raw) == |ContentIn(codec.decode(payload))|
  {
    var raw := "data: " + payload;
    assert LooksInto(raw);
    assert raw[6..] == payload && "data: [DONE]"[6..] == "[DONE]";
  }

  /** and from any other line nothing. */
  lemma OtherLineMeasured(codec: Codec, publicModel: string, m: Meter, raw: string)
    requires Measures(m, codec, publicModel)
    requires raw == "data: [DONE]" || |raw| < 6 || raw[..6] != "data: "
    ensures m.relay(raw) == raw && !m.bears(raw) && m.chars(raw) == 0
  {
    assert LooksInto(raw);
  }

  // ---- The fold ---------------------------------------------------------------------------------

  function UsageUpTo(m: Meter, lines: seq<string>, n: nat): Tokens
    requires n <= |lines|
  {
    if n == 0 then NO_TOKENS
    else if m.bears(lines[n - 1]) then m.usage(lines[n - 1])
    else UsageUpTo(m, lines, n - 1)
  }

  function CharsUpTo(m: Meter, lines: seq<string>, n: nat): nat
    requires n <= |lines|
  {
    if n == 0 then 0 else CharsUpTo(m, lines, n - 1) + m.chars(lines[n - 1])
  }

  /** The length of the answer is that of all its lines' content. */
  lemma {:induction false} CharsAreSum(m: Meter, lines: seq<string>, n: nat)
    requires n <= |lines|
    ensures CharsUpTo(m, lines, n) == SumUpTo((raw: string) => m.chars(raw), lines, n)
  {
    if n > 0 {
      CharsAreSum(m, lines, n - 1);
    }
  }

  /** The last line that mentions usage decides, even when it says nothing. */
  lemma {:induction false} LastUsageWins(m: Meter, lines: seq<string>, n: nat, i: nat)
    requires i < n <= |lines| && m.bears(lines[i])
    requires forall j | i < j < n :: !m.bears(lines[j])
    ensures UsageUpTo(m, lines, n) == m.usage(lines[i])
  {
    if i < n - 1 {
      LastUsageWins(m, lines, n - 1, i);
    }
  }

  lemma {:induction false} NoUsageNoTokens(m: Meter, lines: seq<string>, n: nat)
    requires n <= |lines| && forall j | 0 <= j < n :: !m.bears(lines[j])
    ensures UsageUpTo(m, lines, n) == NO_TOKENS
  {
    if n > 0 {
      NoUsageNoTokens(m, lines, n - 1);
    }
  }

  // ---- The estimate -------------------------------------------------------------------------------

  function AtLeastOne(n: nat): nat {
    if n < 1 then 1 else n
  }

  function MessageLength(codec: Codec, msg: Message): nat {
    4 + if msg.content.JStr? then |msg.content.text| else |codec.encode(msg.content)|
  }

  function LengthUpTo(codec: Codec, messages: seq<Message>, n: nat): nat
    requires n <= |messages|
  {
    if n == 0 then 0 else LengthUpTo(codec, messages, n - 1) + MessageLength(codec, messages[n - 1])
  }

  /** The text of a message counts as it is, and any other content as its JSON text. */
  ghost predicate CountsAs(codec: Codec, msg: Message, text: string) {
    msg.content == JStr(text) || (!msg.content.JStr? && text == codec.encode(msg.content))
  }

  lemma {:induction false} LengthIsOfTexts(codec: Codec, messages: seq<Message>, texts: seq<string>, n: nat)
    requires n <= |messages| == |texts|
    requires forall i | 0 <= i < |messages| :: CountsAs(codec, messages[i], texts[i])
    ensures LengthUpTo(codec, messages, n) == 4 * n + |Concat(texts[..n])|
  {
    if n > 0 {
      LengthIsOfTexts(codec, messages, texts, n - 1);
      assert texts[..n] == texts[..n - 1] + [texts[n - 1]];
      ConcatOfTwo(texts[..n - 1], [texts[n - 1]]);
      ConcatOne(texts[n - 1]);
      assert CountsAs(codec, messages[n - 1], texts[n - 1]);
    }
  }

  method EstimatePromptTokens(codec: Codec, messages: seq<Message>) returns (tokens: nat)
    ensures tokens == AtLeastOne(LengthUpTo(codec, messages, |messages|) / 4)
    ensures tokens >= 1 && tokens >= |messages|
  {
    var total := 0;
    for n := 0 to |messages|
      invariant total == LengthUpTo(codec, messages, n) && total >= 4 * n
    {
      if messages[n].content.JStr? {
        total := total + |messages[n].content.text|;
      } else {
        total := total + |codec.encode(messages[n].content)|;
      }
      total := total + 4;
    }
    tokens := AtLeastOne(total / 4);
  }

  // ---- The bill -----------------------------------------------------------------------------------

  /** What is charged for: the reported usage, unless it leaves prompt and completion at zero. */
  function Billed(codec: Codec, messages: seq<Message>, usage: Tokens, chars: nat): Tokens {
    if usage.prompt == 0 && usage.completion == 0 then
      var prompt := AtLeastOne(LengthUpTo(codec, messages, |messages|) / 4);
      var completion := AtLeastOne(chars / 4);
      Tokens(prompt, completion, prompt + completion)
    else usage
  }

  function TokenCost(inputPrice: real, outputPrice: real, tokens: Tokens): real {
    tokens.prompt as real * inputPrice / 1_000_000.0 + tokens.completion as real * outputPrice / 1_000_000.0
  }

  /** Without a report a token is four bytes, of all messages' texts and of the answer, and each is at least one. */
  lemma EstimateMeaning(codec: Codec, messages: seq<Message>, texts: seq<string>, usage: Tokens, chars: nat)
    requires |messages| == |texts| && usage.prompt == 0 && usage.completion == 0
    requires forall i | 0 <= i < |messages| :: CountsAs(codec, messages[i], texts[i])
    ensures var bill, length := Billed(codec, messages, usage, chars), 4 * |messages| + |Concat(texts)|;
      && bill.total == bill.prompt + bill.completion
      && bill.prompt >= 1 && bill.completion >= 1
      && (length >= 4 ==> 4 * bill.prompt <= length < 4 * bill.prompt + 4)
      && (length < 4 ==> bill.prompt == 1)
      && (chars >= 4 ==> 4 * bill.completion <= chars < 4 * bill.completion + 4)
      && (chars < 4 ==> bill.completion == 1)
  {
    LengthIsOfTexts(codec, messages, texts, |messages|);
    assert texts[..|messages|] == texts;
  }

  /** Costs add up, and the prices are those of a million prompt or completion tokens. */
  lemma CostMeaning(inputPrice: real, outputPrice: real, a: Tokens, b: Tokens)
    ensures TokenCost(inputPrice, outputPrice, Tokens(a.prompt + b.prompt, a.completion + b.completion, a.total)) ==
            TokenCost(inputPrice, outputPrice, a) + TokenCost(inputPrice, outputPrice, b)
    ensures TokenCost(inputPrice, outputPrice, Tokens(1_000_000, 0, a.total)) == inputPrice
    ensures TokenCost(inputPrice, outputPrice, Tokens(0, 1_000_000, a.total)) == outputPrice
    ensures TokenCost(inputPrice, outputPrice, NO_TOKENS) == 0.0
  {
    PriceOfBoth(a.prompt, b.prompt, inputPrice);
    PriceOfBoth(a.completion, b.completion, outputPrice);
  }

  lemma PriceOfBoth(m: int, n: int, price: real)
    ensures (m + n) as real * price == m as real * price + n as real * price
  {
  }

  /**
   The bill is what the upstream reported exactly when the last line that mentions usage
   reports some prompt or completion tokens.  If it does not, as with a null usage, the
   bill is the estimate, whatever earlier lines reported.
   */
  lemma BillIsTheReportIff(
      codec: Codec, m: Meter, lines: seq<string>, n: nat, i: nat, messages: seq<Message>, chars: nat)
    requires i < n <= |lines| && m.bears(lines[i])
    requires forall j | i < j < n :: !m.bears(lines[j])
    ensures Billed(codec, messages, UsageUpTo(m, lines, n), chars) == m.usage(lines[i]) <==>
            m.usage(lines[i]).prompt != 0 || m.usage(lines[i]).completion != 0
    ensures m.usage(lines[i]).prompt == 0 && m.usage(lines[i]).completion == 0 ==>
            Billed(codec, messages, UsageUpTo(m, lines, n), chars) == Billed(codec, messages, NO_TOKENS, chars)
  {
    LastUsageWins(m, lines, n, i);
  }

  // ---- The relay loop -------------------------------------------------------------------------------

  /** The k-th line went all the way to the client. */
  predicate Passes(writes: nat -> bool, flushes: nat -> bool, k: nat) {
    writes(k) && flushes(k)
  }

  /** Lines processed of n: up to the first whose write or flush fails. */
  ghost predicate ProcessedAre(writes: nat -> bool, flushes: nat -> bool, n: nat, processed: nat) {
    && processed <= n
    && (forall k | 0 <= k < processed - 1 :: Passes(writes, flushes, k))
    && (processed < n ==> processed > 0 && !Passes(writes, flushes, processed - 1))
  }

  /** The outcomes decide: all lines if nothing fails, and else up to the first whose write or flush does. */
  lemma ProcessedMeaning(writes: nat -> bool, flushes: nat -> bool, n: nat, processed: nat)
    requires ProcessedAre(writes, flushes, n, processed)
    ensures processed <= n
    ensures (forall k | 0 <= k < n :: writes(k) && flushes(k)) ==> processed == n
    ensures forall k | 0 <= k < n && (!writes(k) || !flushes(k)) :: processed <= k + 1
    ensures processed < n ==> processed > 0 && (!writes(processed - 1) || !flushes(processed - 1))
  {
    forall k | 0 <= k < n && (!writes(k) || !flushes(k)) ensures processed <= k + 1 {
      assert !Passes(writes, flushes, k);
    }
  }

  /** One line: the name is rewritten before the meter looks. */
  method MeterLine(codec: Codec, publicModel: string, ghost m: Meter, raw: string, usage: Tokens, chars: nat)
    returns (line: string, usage': Tokens, chars': nat)
    requires Measures(m, codec, publicModel)
    ensures line == m.relay(raw) == Relayed(publicModel, raw)
    ensures usage' == if m.bears(raw) then m.usage(raw) else usage
    ensures chars' == chars + m.chars(raw)
  {
    assert LooksInto(raw);
    line, usage', chars' := raw, usage, chars;
    if HasPrefix(line, "data: ") && line != "data: [DONE]" {
      line := ReplaceModelName(line, publicModel);
      if Contains(line, "\"usage\"") {
        usage' := UsageOfLine(codec, line);
      }
      chars' := chars' + |ContentOfLine(codec, line)|;
    }
  }

  /**
   The loop.  The client receives a prefix of the lines with only model names rewritten;
   the meter has seen every processed line, also the one whose write failed.
   */
  method Relay(codec: Codec, publicModel: string, ghost m: Meter,
               lines: seq<string>, writes: nat -> bool, flushes: nat -> bool)
    returns (received: seq<string>, usage: Tokens, chars: nat, ghost processed: nat)
    requires Measures(m, codec, publicModel)
    ensures ProcessedAre(writes, flushes, |lines|, processed)
    ensures |received| == if processed > 0 && !writes(processed - 1) then processed - 1 else processed
    ensures forall k | 0 <= k < |received| :: received[k] == m.relay(lines[k])
    ensures usage == UsageUpTo(m, lines, processed)
    ensures chars == CharsUpTo(m, lines, processed)
  {
    received, usage, chars, processed := [], NO_TOKENS, 0, 0;
    for n := 0 to |lines|
      invariant processed == n == |received|
      invariant forall k | 0 <= k < n :: Passes(writes, flushes, k) && received[k] == m.relay(lines[k])
      invariant usage == UsageUpTo(m, lines, n)
      invariant chars == CharsUpTo(m, lines, n)
    {
      var line;
      line, usage, chars := MeterLine(codec, publicModel, m, lines[n], usage, chars);
      processed := n + 1;
      if !writes(n) {
        break;
      }
      received := received + [line];
      if !flushes(n) {
        break;
      }
    }
  }

  datatype Route = Route(inputPrice: real, outputPrice: real)

  datatype Recorded = Recorded(tokens: Tokens, cost: real, status: string, httpStatus: int)

  /**
   A streaming call after its key was chosen.  Exactly one usage record is sent: zeros
   when the upstream fails, and otherwise the bill for the lines that were processed,
   however the client's connection ends.
   */
  method ChatCompletionStream(codec: Codec, publicModel: string, ghost m: Meter, messages: seq<Message>, route: Route,
                              stream: Option<seq<string>>, writes: nat -> bool, flushes: nat -> bool)
    returns (received: seq<string>, record: Recorded, ghost processed: nat)
    requires Measures(m, codec, publicModel)
    ensures stream.None? ==> received == [] && record == Recorded(NO_TOKENS, 0.0, "error", 502)
    ensures stream.Some? ==> ProcessedAre(writes, flushes, |stream.value|, processed)
    ensures stream.Some? ==>
      var tokens := Billed(codec, messages, UsageUpTo(m, stream.value, processed),
                           CharsUpTo(m, stream.value, processed));
      record == Recorded(tokens, TokenCost(route.inputPrice, route.outputPrice, tokens), "ok", 200)
    ensures record.cost * 1_000_000.0 ==
      record.tokens.prompt as real * route.inputPrice + record.tokens.completion as real * route.outputPrice
    ensures stream.Some? ==> record.tokens.prompt != 0 || record.tokens.completion != 0
    ensures stream.Some? && record.tokens != UsageUpTo(m, stream.value, processed) ==>
      record.tokens.prompt >= 1 && record.tokens.completion >= 1 &&
      record.tokens.total == record.tokens.prompt + record.tokens.completion
    ensures stream.Some? ==>
      |received| == if processed > 0 && !writes(processed - 1) then processed - 1 else processed
    ensures stream.Some? ==> forall k | 0 <= k < |received| :: received[k] == m.relay(stream.value[k])
  {
    if stream.None? {
      return [], Recorded(NO_TOKENS, 0.0, "error", 502), 0;
    }
    var usage, chars;
    received, usage, chars, processed := Relay(codec, publicModel, m, stream.value, writes, flushes);
    if usage.prompt == 0 && usage.completion == 0 {
      var prompt := EstimatePromptTokens(codec, messages);
      var completion := AtLeastOne(chars / 4);
      usage := Tokens(prompt, completion, prompt + completion);
    }
    record := Recorded(usage, TokenCost(route.inputPrice, route.outputPrice, usage), "ok", 200);
  }

  /**
   The unstreamed call.  The bill is the reported usage as it is; without a report it is
   nothing.
   */
  method ChatCompletion(route: Route, reply: Option<Option<Tokens>>) returns (record: Recorded)
    ensures reply.None? ==> record == Recorded(NO_TOKENS, 0.0, "error", 502)
    ensures reply.Some? ==> record.status == "ok" && record.httpStatus == 200
    ensures reply.Some? ==> record.tokens == if reply.value.Some? then reply.value.value else NO_TOKENS
    ensures reply.Some? ==> record.cost == TokenCost(route.inputPrice, route.outputPrice, record.tokens)
    ensures record.cost * 1_000_000.0 ==
      record.tokens.prompt as real * route.inputPrice + record.tokens.completion as real * route.outputPrice
  {
    if reply.None? {
      return Recorded(NO_TOKENS, 0.0, "error", 502);
    }
    var cost, tokens := 0.0, NO_TOKENS;
    if reply.value.Some? {
      tokens := reply.value.value;
      cost := TokenCost(route.inputPrice, route.outputPrice, tokens);
    }
    record := Recorded(tokens, cost, "ok", 200);
  }

  lemma PositiveProduct(n: int, price: real)
    requires n >= 1 && price > 0.0
    ensures n as real * price > 0.0
  {
  }

  /**
   Streamed and unstreamed calls cost the same exactly when the upstream reports some
   usage: without a report the unstreamed call is free and the stream is not.
   */
  lemma SameCostIffReported(codec: Codec, messages: seq<Message>, route: Route, usage: Tokens, chars: nat)
    requires route.inputPrice > 0.0 && route.outputPrice > 0.0
    requires usage.prompt >= 0 && usage.completion >= 0
    ensures TokenCost(route.inputPrice, route.outputPrice, Billed(codec, messages, usage, chars)) ==
            TokenCost(route.inputPrice, route.outputPrice, usage)
       <==> usage.prompt != 0 || usage.completion != 0
  {
    var bill := Billed(codec, messages, usage, chars);
    if usage.prompt == 0 && usage.completion == 0 {
      PositiveProduct(bill.prompt, route.inputPrice);
      PositiveProduct(bill.completion, route.outputPrice);
    }
  }
}
