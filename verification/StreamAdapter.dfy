/**
 The stream adapter's Read (infra/provider/anthropic_provider.go).

 A string here is a sequence of bytes.  The scanner is the list of lines it will yield
 and whether it ends with an error.
 */
module StreamAdapters {
  import opened AnthropicEvents
  import opened Json
  import opened Text

  // ---- The whole stream --------------------------------------------------------------------------

  /** What lines k on translate to, up to message_stop. */
  function Translation(tr: Translator, lines: seq<string>, k: nat): string
    requires k <= |lines|
    decreases |lines| - k
  {
    if k == |lines| then ""
    else if tr.stops(lines[k]) then tr.emit(lines[k])
    else tr.emit(lines[k]) + Translation(tr, lines, k + 1)
  }

  /** The same up to the first line that translates to nothing. */
  function Segment(tr: Translator, lines: seq<string>, k: nat): string
    requires k <= |lines|
    decreases |lines| - k
  {
    if k == |lines| || tr.emit(lines[k]) == "" then ""
    else if tr.stops(lines[k]) then tr.emit(lines[k])
    else tr.emit(lines[k]) + Segment(tr, lines, k + 1)
  }

  /** The line at which the first EOF comes: the end, the line after message_stop, or a swallowed line. */
  function SegmentEnd(tr: Translator, lines: seq<string>, k: nat): (end: nat)
    requires k <= |lines|
    ensures k <= end <= |lines|
    decreases |lines| - k
  {
    if k == |lines| || tr.emit(lines[k]) == "" then k
    else if tr.stops(lines[k]) then k + 1
    else SegmentEnd(tr, lines, k + 1)
  }

  /** The translations of lines k to end, one after the other. */
  function Joined(tr: Translator, lines: seq<string>, k: nat, end: nat): string
    requires k <= end <= |lines|
    decreases end - k
  {
    if k == end then "" else tr.emit(lines[k]) + Joined(tr, lines, k + 1, end)
  }

  /**
   The segment is the longest run of lines that all translate to something, cut off
   after message_stop.
   */
  lemma {:induction false} SegmentIsLongestRun(tr: Translator, lines: seq<string>, k: nat)
    requires k <= |lines|
    ensures var end := SegmentEnd(tr, lines, k);
      && Segment(tr, lines, k) == Joined(tr, lines, k, end)
      && (forall i | k <= i < end :: tr.emit(lines[i]) != "")
      && (forall i | k <= i < end - 1 :: !tr.stops(lines[i]))
      && (end == |lines| || tr.emit(lines[end]) == "" || (end > k && tr.stops(lines[end - 1])))
    decreases |lines| - k
  {
    if k < |lines| && tr.emit(lines[k]) != "" {
      if tr.stops(lines[k]) {
        assert Joined(tr, lines, k + 1, k + 1) == "";
      } else {
        SegmentIsLongestRun(tr, lines, k + 1);
      }
    }
  }

  /** The translation is that of all lines up to and including the first one that ends the stream. */
  lemma {:induction false} TranslationIsUpToTheStop(tr: Translator, lines: seq<string>, k: nat, i: nat)
    requires k <= i < |lines| && tr.stops(lines[i]) && forall j | k <= j < i :: !tr.stops(lines[j])
    ensures Translation(tr, lines, k) == Joined(tr, lines, k, i + 1)
    decreases i - k
  {
    if k < i {
      TranslationIsUpToTheStop(tr, lines, k + 1, i);
    } else {
      assert Joined(tr, lines, k + 1, k + 1) == "";
    }
  }

  lemma {:induction false} TranslationWithoutStop(tr: Translator, lines: seq<string>, k: nat)
    requires k <= |lines| && forall j | k <= j < |lines| :: !tr.stops(lines[j])
    ensures Translation(tr, lines, k) == Joined(tr, lines, k, |lines|)
    decreases |lines| - k
  {
    if k < |lines| {
      TranslationWithoutStop(tr, lines, k + 1);
    }
  }

  /** Joined is what it says: line by line, in order. */
  lemma {:induction false} JoinedIsConcat(tr: Translator, lines: seq<string>, k: nat, end: nat, texts: seq<string>)
    requires k <= end <= |lines| && |texts| == end - k
    requires forall i | 0 <= i < |texts| :: texts[i] == tr.emit(lines[k + i])
    ensures Joined(tr, lines, k, end) == Concat(texts)
    decreases end - k
  {
    if k < end {
      JoinedIsConcat(tr, lines, k + 1, end, texts[1..]);
    }
  }

  lemma Cancel(a: string, x: string, y: string)
    ensures a + x == a + y <==> x == y
  {
    if a + x == a + y {
      assert (a + x)[|a|..] == x && (a + y)[|a|..] == y;
    }
  }

  /** No line from k up to but not including j ends the stream. */
  ghost predicate NoStopIn(tr: Translator, lines: seq<string>, k: nat, j: nat)
    requires j <= |lines|
  {
    forall i | k <= i < j :: !tr.stops(lines[i])
  }

  /** Every line from k on, up to and including the one that ends the stream, is swallowed. */
  ghost predicate AllSwallowed(tr: Translator, lines: seq<string>, k: nat) {
    forall j | k <= j < |lines| :: NoStopIn(tr, lines, k, j) ==> tr.emit(lines[j]) == ""
  }

  lemma SwallowedStep(tr: Translator, lines: seq<string>, k: nat)
    requires k < |lines|
    ensures AllSwallowed(tr, lines, k) <==>
            tr.emit(lines[k]) == "" && (tr.stops(lines[k]) || AllSwallowed(tr, lines, k + 1))
  {
    assert NoStopIn(tr, lines, k, k);
    forall j | k < j < |lines|
      ensures NoStopIn(tr, lines, k, j) <==> !tr.stops(lines[k]) && NoStopIn(tr, lines, k + 1, j)
    {
    }
  }

  lemma {:induction false} SilentIffSwallowed(tr: Translator, lines: seq<string>, k: nat)
    requires k <= |lines|
    ensures Translation(tr, lines, k) == "" <==> AllSwallowed(tr, lines, k)
    decreases |lines| - k
  {
    if k < |lines| {
      SwallowedStep(tr, lines, k);
      SilentIffSwallowed(tr, lines, k + 1);
    }
  }

  lemma {:induction false} SegmentAndRest(tr: Translator, lines: seq<string>, k: nat)
    requires k <= |lines|
    ensures var end := SegmentEnd(tr, lines, k);
      Segment(tr, lines, k) == Translation(tr, lines, k) <==>
        (end > k && tr.stops(lines[end - 1])) || Translation(tr, lines, end) == ""
    decreases |lines| - k
  {
    if k < |lines| && tr.emit(lines[k]) != "" && !tr.stops(lines[k]) {
      SegmentAndRest(tr, lines, k + 1);
      Cancel(tr.emit(lines[k]), Segment(tr, lines, k + 1), Translation(tr, lines, k + 1));
    }
  }

  /**
   Reading to the first EOF gives the whole translation exactly when that EOF is the one
   after message_stop, or every later line of the stream is swallowed.
   */
  lemma SegmentIsAll(tr: Translator, lines: seq<string>, k: nat)
    requires k <= |lines|
    ensures var end := SegmentEnd(tr, lines, k);
      Segment(tr, lines, k) == Translation(tr, lines, k) <==>
        (end > k && tr.stops(lines[end - 1])) || AllSwallowed(tr, lines, end)
  {
    SegmentAndRest(tr, lines, k);
    SilentIffSwallowed(tr, lines, SegmentEnd(tr, lines, k));
  }

  lemma Regroup(a: string, b: string, c: string)
    ensures (a + b) + c == a + (b + c)
  {
  }

  /** A swallowed first line brings EOF before any output. */
  lemma SwallowedFirst(tr: Translator, lines: seq<string>)
    requires lines != [] && tr.emit(lines[0]) == ""
    ensures Segment(tr, lines, 0) == ""
  {
  }

  /** Anthropic's streams open with an event: line, so the first EOF comes before any output. */
  lemma EventLineComesFirst(tr: Translator, codec: Codec, model: string, lines: seq<string>)
    requires Translates(tr, codec, model)
    requires lines != [] && HasPrefix(TrimSpace(lines[0]), "event:")
    ensures Segment(tr, lines, 0) == ""
  {
    EventLineIsSwallowed(tr, codec, model, lines[0]);
    SwallowedFirst(tr, lines);
  }

  /** As many bytes as fit are taken from the front, and the others are left. */
  predicate TakesFrom(bytes: string, n: nat, out: string, rest: string) {
    out + rest == bytes && |out| == if n < |bytes| then n else |bytes|
  }

  // ---- The adapter -----------------------------------------------------------------------------------

  datatype Status = Ok | EOF | ScanError

  /** bytes.Buffer.Read and the adapter's own Read, for a destination of n bytes. */
  class StreamAdapter {
    const codec: Codec
    const model: string
    ghost const tr: Translator
    const lines: seq<string>     // what the scanner yields
    const scanFails: bool        // whether it ends with an error
    var next: nat                // lines scanned so far
    var buf: string
    var done: bool

    ghost predicate Valid()
      reads `next
    {
      next <= |lines| && Translates(tr, codec, model)
    }

    ghost function Later(): string
      requires Valid()
      reads `next, `done
    {
      if done then "" else Translation(tr, lines, next)
    }

    ghost function Soon(): string
      requires Valid()
      reads `next, `done
    {
      if done then "" else Segment(tr, lines, next)
    }

    /** What a reader that never gives up will still get. */
    ghost function Pending(): string
      requires Valid()
      reads this
    {
      buf + Later()
    }

    /** What a reader that stops at the first EOF will still get. */
    ghost function Ahead(): string
      requires Valid()
      reads this
    {
      buf + Soon()
    }

    constructor (codec: Codec, model: string, ghost tr: Translator, lines: seq<string>, scanFails: bool)
      requires Translates(tr, codec, model)
      ensures Valid() && this.codec == codec && this.model == model && this.tr == tr && this.lines == lines
      ensures this.scanFails == scanFails && next == 0 && buf == "" && !done
    {
      this.codec, this.model, this.tr, this.lines, this.scanFails := codec, model, tr, lines, scanFails;
      next, buf, done := 0, "", false;
    }

    /** bytes.Buffer.Read: an empty buffer is EOF, unless nothing was asked for. */
    method BufRead(n: nat) returns (out: string, status: Status)
      requires Valid()
      modifies this`buf
      ensures status == if old(buf) == "" && n > 0 then EOF else Ok
      ensures |out| == if n < |old(buf)| then n else |old(buf)|
      ensures out + buf == old(buf)
      ensures old(Pending()) == out + Pending() && old(Ahead()) == out + Ahead()
    {
      ghost var later, soon := Later(), Soon();
      if buf == "" {
        return "", if n == 0 then Ok else EOF;
      }
      var m := if n < |buf| then n else |buf|;
      out, buf, status := buf[..m], buf[m..], Ok;
      Regroup(out, buf, later);
      Regroup(out, buf, soon);
    }

    /** Scans a line and buffers its translation. */
    method ScanLine()
      requires Valid() && buf == "" && !done && next < |lines|
      modifies this
      ensures Valid() && next == old(next) + 1 && buf == tr.emit(lines[old(next)])
      ensures done == tr.stops(lines[old(next)])
      ensures Pending() == old(Pending())
      ensures if buf == "" then old(Ahead()) == "" else Ahead() == old(Ahead())
    {
      var out, stops := TranslateLine(codec, model, tr, lines[next]);
      next := next + 1;
      buf := buf + out;
      if stops {
        done := true;
      }
    }

    /**
     One Read.  Buffered bytes always come first.  Otherwise one line is scanned, and
     EOF is returned not only at the end but also for every line that translates to
     nothing.
     */
    method Read(n: nat) returns (out: string, status: Status)
      requires Valid()
      modifies this
      ensures Valid() && |out| <= n
      ensures old(Pending()) == out + Pending()
      ensures n > 0 && status == Ok ==> old(Ahead()) == out + Ahead() && out != ""
      ensures status != Ok ==> out == "" && buf == "" && old(Ahead()) == ""
      ensures old(buf) != "" ==>
        status == Ok && next == old(next) && done == old(done) && TakesFrom(old(buf), n, out, buf)
      ensures old(buf) == "" && old(done) ==> status == EOF && done && next == old(next)
      ensures old(buf) == "" && !old(done) && old(next) == |lines| ==>
        done && next == |lines| && status == if scanFails then ScanError else EOF
      ensures old(buf) == "" && !old(done) && old(next) < |lines| ==>
        var line := lines[old(next)];
        && next == old(next) + 1 && done == tr.stops(line) && TakesFrom(tr.emit(line), n, out, buf)
        && status == if tr.emit(line) == "" && n > 0 then EOF else Ok
      ensures status == ScanError ==> scanFails && next == |lines| && done
      ensures next == old(next) && done == old(done) && n > 0 ==> |buf| < |old(buf)| || (done && buf == "")
    {
      if |buf| > 0 {
        out, status := BufRead(n);
        return;
      }
      if done {
        return "", EOF;
      }
      if next == |lines| {
        done := true;
        return "", if scanFails then ScanError else EOF;
      }
      ScanLine();
      out, status := BufRead(n);
    }

    /** A reader that stops at the first EOF or error, whatever sizes it asks for. */
    method ReadToEOF(sizes: nat -> nat) returns (got: string, status: Status)
      requires Valid() && forall k :: sizes(k) > 0
      modifies this
      ensures Valid() && got == old(Ahead()) && buf == ""
      ensures status == EOF || (status == ScanError && scanFails)
    {
      got := "";
      var k := 0;
      while true
        invariant Valid() && old(Ahead()) == got + Ahead()
        decreases |lines| - next, !done, |buf|
      {
        var out: string;
        ghost var ahead := Ahead();
        out, status := Read(sizes(k));
        Regroup(got, out, Ahead());
        if status != Ok {
          assert ahead == "" && out == "";
          return;
        }
        got := got + out;
        k := k + 1;
      }
    }

    /** A reader that goes on past every EOF until the adapter is done. */
    method ReadThrough(sizes: nat -> nat) returns (got: string)
      requires Valid() && forall k :: sizes(k) > 0
      modifies this
      ensures Valid() && got == old(Pending()) && done && buf == ""
    {
      got := "";
      var k := 0;
      while !done || buf != ""
        invariant Valid() && old(Pending()) == got + Pending()
        decreases |lines| - next, !done, |buf|
      {
        var out, status := Read(sizes(k));
        Regroup(got, out, Pending());
        got := got + out;
        k := k + 1;
      }
    }
  }
}
