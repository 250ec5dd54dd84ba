/**
 A stream from Anthropic to the client: the adapter (infra/provider/anthropic_provider.go)
 read by the relay loop's scanner (core/inference/service.go).
 */
module AnthropicRelay {
  import opened AnthropicEvents
  import opened Chunks
  import opened Json
  import opened Metering
  import opened OpenAI
  import opened StreamAdapters
  import opened Text
  import opened Wrappers

  function DropCR(line: string): string {
    if line != "" && line[|line| - 1] == '\r' then line[..|line| - 1] else line
  }

  /** bufio.ScanLines: the lines of all bytes up to EOF, the last one also without a line end. */
  function ScanLines(bytes: string): seq<string> {
    DropAll(Whole(Split(bytes, '\n')))
  }

  /** What is left when the last part is empty, as it is after a line end. */
  function Whole(parts: seq<string>): seq<string>
    requires parts != []
  {
    if parts[|parts| - 1] == "" then parts[..|parts| - 1] else parts
  }

  function DropAll(lines: seq<string>): seq<string> {
    seq(|lines|, i requires 0 <= i < |lines| => DropCR(lines[i]))
  }

  ghost predicate IsLine(line: string) {
    '\n' !in line && (line == "" || line[|line| - 1] != '\r')
  }

  /** Lines that end in a line feed, with a carriage return before it or not, are read back as they are. */
  lemma FirstLineIsScanned(line: string, ret: bool, rest: string)
    requires IsLine(line)
    ensures ScanLines(line + (if ret then "\r" else "") + "\n" + rest) == [line] + ScanLines(rest)
  {
    var raw := line + if ret then "\r" else "";
    SplitOfTwo(raw, '\n', rest);
    assert line + (if ret then "\r" else "") + "\n" + rest == raw + ['\n'] + rest;
    FirstIsKept(raw, Split(rest, '\n'));
    ReturnIsDropped(line, ret);
  }

  lemma ReturnIsDropped(line: string, ret: bool)
    requires IsLine(line)
    ensures DropCR(line + if ret then "\r" else "") == line
  {
    assert (line + "\r")[..|line|] == line;
  }

  lemma FirstIsKept(first: string, parts: seq<string>)
    requires parts != []
    ensures DropAll(Whole([first] + parts)) == [DropCR(first)] + DropAll(Whole(parts))
  {
    assert Whole([first] + parts) == [first] + Whole(parts);
  }

  /** Text after the last line end is a line too. */
  lemma RestIsScanned(line: string)
    requires IsLine(line) && line != ""
    ensures ScanLines(line) == [line]
  {
    SplitOfOne(line, '\n');
  }

  lemma NoBytesNoLines()
    ensures ScanLines("") == []
  {
  }

  /**
   One streaming call to Anthropic.  The scanner reads to the first EOF, in whatever
   sizes it asks for, so the client gets and is billed for lines of the segment only.  For
   a stream that opens with an event: line, as Anthropic's do, that is nothing at all: the
   client receives no line, and the bill is the estimate for an empty answer.
   */
  method ChatCompletionStream(
      codec: Codec, model: string, ghost tr: Translator, upstream: seq<string>, scanFails: bool, sizes: nat -> nat,
      publicModel: string, ghost m: Meter, messages: seq<Message>, route: Route,
      writes: nat -> bool, flushes: nat -> bool)
    returns (received: seq<string>, record: Recorded, ghost processed: nat)
    requires AnthropicEvents.Translates(tr, codec, model) && Measures(m, codec, publicModel)
    requires forall k :: sizes(k) > 0
    ensures var lines := ScanLines(Segment(tr, upstream, 0));
      && ProcessedAre(writes, flushes, |lines|, processed)
      && |received| == (if processed > 0 && !writes(processed - 1) then processed - 1 else processed)
      && (forall k | 0 <= k < |received| :: received[k] == m.relay(lines[k]))
      && record.tokens == Billed(codec, messages, UsageUpTo(m, lines, processed), CharsUpTo(m, lines, processed))
      && record.cost == TokenCost(route.inputPrice, route.outputPrice, record.tokens)
      && record.cost * 1_000_000.0 ==
         record.tokens.prompt as real * route.inputPrice + record.tokens.completion as real * route.outputPrice
    ensures upstream != [] && HasPrefix(TrimSpace(upstream[0]), "event:") ==>
      received == [] && record.status == "ok" && record.tokens == Billed(codec, messages, NO_TOKENS, 0)
  {
    var adapter := new StreamAdapter(codec, model, tr, upstream, scanFails);
    var got, status := adapter.ReadToEOF(sizes);
    assert got == Segment(tr, upstream, 0);
    if upstream != [] && HasPrefix(TrimSpace(upstream[0]), "event:") {
      EventLineComesFirst(tr, codec, model, upstream);
      NoBytesNoLines();
    }
    var lines := ScanLines(got);
    received, record, processed :=
      Metering.ChatCompletionStream(codec, publicModel, m, messages, route, Some(lines), writes, flushes);
  }
}
