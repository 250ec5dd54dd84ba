/** Rewriting the model name in a stream line (core/inference/helpers.go, replaceModelName). */
module ModelNames {
  import opened Text
  import opened Wrappers

  const PREFIX := "\"model\":\""
  const QUOTE := "\""

  /** Where the first model value begins and ends, if the line has one that is closed. */
  function ModelSpan(line: string): Option<(nat, nat)> {
    match Index(line, PREFIX)
    case None => None
    case Some(idx) =>
      var start := idx + |PREFIX|;
      match Index(line[start..], QUOTE)
      case None => None
      case Some(end) => Some((start, start + end))
  }

  function ReplaceModelName(line: string, publicModel: string): string {
    match ModelSpan(line)
    case None => line
    case Some((start, end)) => line[..start] + publicModel + line[end..]
  }

  predicate QuoteFree(s: string) {
    '"' !in s
  }

  lemma QuoteAt(s: string, i: nat)
    ensures OccursAt(s, QUOTE, i) <==> i < |s| && s[i] == '"'
  {
    if i < |s| {
      assert s[i..i + 1] == [s[i]];
    }
  }

  /** The span is the text between the first prefix and the next quote. */
  lemma SpanMeaning(line: string)
    requires ModelSpan(line).Some?
    ensures var (start, end) := ModelSpan(line).value;
      && |PREFIX| <= start <= end < |line|
      && OccursAt(line, PREFIX, start - |PREFIX|)
      && (forall j | 0 <= j < start - |PREFIX| :: !OccursAt(line, PREFIX, j))
      && QuoteFree(line[start..end]) && line[end] == '"'
  {
    var (start, end) := ModelSpan(line).value;
    QuoteAt(line[start..], end - start);
    forall i | 0 <= i < end - start ensures line[start..end][i] != '"' {
      QuoteAt(line[start..], i);
    }
  }

  /** And the only one with these properties. */
  lemma SpanUnique(line: string, start: nat, end: nat)
    requires |PREFIX| <= start <= end < |line|
    requires OccursAt(line, PREFIX, start - |PREFIX|)
    requires forall j | 0 <= j < start - |PREFIX| :: !OccursAt(line, PREFIX, j)
    requires QuoteFree(line[start..end]) && line[end] == '"'
    ensures ModelSpan(line) == Some((start, end))
  {
    IndexUnique(line, PREFIX, start - |PREFIX|);
    QuoteAt(line[start..], end - start);
    forall i | 0 <= i < end - start ensures !OccursAt(line[start..], QUOTE, i) {
      QuoteAt(line[start..], i);
      assert line[start..end][i] == line[start..][i];
    }
    IndexUnique(line[start..], QUOTE, end - start);
  }

  /** The text of the first model value is replaced and nothing else. */
  lemma RewriteMeaning(before: string, name: string, rest: string, publicModel: string)
    requires forall j | 0 <= j < |before| :: !OccursAt(before + PREFIX + name + QUOTE + rest, PREFIX, j)
    requires '"' !in name
    ensures ReplaceModelName(before + "\"model\":\"" + name + "\"" + rest, publicModel) ==
            before + "\"model\":\"" + publicModel + "\"" + rest
  {
    var line := before + PREFIX + name + QUOTE + rest;
    var start := |before| + |PREFIX|;
    var end := start + |name|;
    assert line[|before|..start] == PREFIX && line[start..end] == name && line[end] == '"';
    SpanUnique(line, start, end);
    assert line[..start] == before + PREFIX && line[end..] == QUOTE + rest;
  }

  lemma SpanHasQuote(line: string)
    ensures ModelSpan(line).Some? ==>
      exists i :: 0 <= i && OccursAt(line, PREFIX, i) && !QuoteFree(line[i + |PREFIX|..])
  {
    if ModelSpan(line).Some? {
      SpanMeaning(line);
      var (start, end) := ModelSpan(line).value;
      assert OccursAt(line, PREFIX, start - |PREFIX|) && line[start..][end - start] == '"';
      assert start - |PREFIX| + |PREFIX| == start;
    }
  }

  /** A line without a prefix, or without a quote after any of them, is left alone. */
  lemma NothingToRewrite(line: string, publicModel: string)
    requires forall i | 0 <= i && OccursAt(line, PREFIX, i) :: QuoteFree(line[i + |PREFIX|..])
    ensures ReplaceModelName(line, publicModel) == line
  {
    SpanHasQuote(line);
  }

  /** An occurrence that ends within a common prefix of two texts is in both. */
  lemma SamePrefixSameOccurrence(s: string, t: string, n: nat, j: nat)
    requires n <= |s| && n <= |t| && s[..n] == t[..n] && j + |PREFIX| <= n
    ensures OccursAt(s, PREFIX, j) <==> OccursAt(t, PREFIX, j)
  {
    assert s[j..j + |PREFIX|] == s[..n][j..j + |PREFIX|];
    assert t[j..j + |PREFIX|] == t[..n][j..j + |PREFIX|];
  }

  lemma RewrittenParts(line: string, start: nat, end: nat, a: string, q: nat)
    requires start <= end < |line| && line[end] == '"' && q <= |a| && (q < |a| ==> a[q] == '"')
    ensures var after := line[..start] + a + line[end..];
      && start + q < |after| && after[..start] == line[..start]
      && after[start..start + q] == a[..q] && after[start + q] == '"'
  {
    var after := line[..start] + a + line[end..];
    assert after[start..] == a + line[end..];
    assert after[start + q] == after[start..][q];
  }

  /** A text that starts like a line up to its model value has its first model prefix in the same place. */
  lemma FirstPrefixStays(line: string, after: string, start: nat)
    requires |PREFIX| <= start <= |line| && start <= |after| && after[..start] == line[..start]
    requires OccursAt(line, PREFIX, start - |PREFIX|)
    requires forall j | 0 <= j < start - |PREFIX| :: !OccursAt(line, PREFIX, j)
    ensures OccursAt(after, PREFIX, start - |PREFIX|)
    ensures forall j | 0 <= j < start - |PREFIX| :: !OccursAt(after, PREFIX, j)
  {
    SamePrefixSameOccurrence(line, after, start, start - |PREFIX|);
    forall j | 0 <= j < start - |PREFIX| ensures !OccursAt(after, PREFIX, j) {
      SamePrefixSameOccurrence(line, after, start, j);
    }
  }

  ghost predicate IsSpan(line: string, start: nat, end: nat) {
    && |PREFIX| <= start <= end < |line| && line[end] == '"'
    && OccursAt(line, PREFIX, start - |PREFIX|)
    && forall j | 0 <= j < start - |PREFIX| :: !OccursAt(line, PREFIX, j)
  }

  lemma SpanIsSpan(line: string, start: nat, end: nat)
    requires ModelSpan(line) == Some((start, end))
    ensures IsSpan(line, start, end)
  {
    SpanMeaning(line);
  }

  /** After a rewrite the value's end is the first quote of the new name, or else the old end. */
  lemma SpanOfRewritten(line: string, start: nat, end: nat, a: string, q: nat)
    requires IsSpan(line, start, end)
    requires q <= |a| && QuoteFree(a[..q]) && (q < |a| ==> a[q] == '"')
    ensures ModelSpan(line[..start] + a + line[end..]) == Some((start, start + q))
  {
    var after := line[..start] + a + line[end..];
    RewrittenParts(line, start, end, a, q);
    FirstPrefixStays(line, after, start);
    SpanUnique(after, start, start + q);
  }

  function FirstQuote(a: string): (q: nat)
    ensures q <= |a| && QuoteFree(a[..q]) && (q < |a| ==> a[q] == '"')
    ensures q == |a| <==> QuoteFree(a)
  {
    if a == "" || a[0] == '"' then 0
    else
      assert a == [a[0]] + a[1..];
      var q := FirstQuote(a[1..]);
      assert a[..q + 1] == [a[0]] + a[1..][..q];
      q + 1
  }

  /** Replacing the first q letters of an inserted name leaves the rest of that name behind. */
  lemma Reinserted(head: string, a: string, tail: string, b: string, q: nat)
    requires q <= |a|
    ensures var after := head + a + tail;
      && after[..|head|] + b + after[|head| + q..] == head + b + (a[q..] + tail)
      && (after[..|head|] + b + after[|head| + q..] == head + b + tail <==> q == |a|)
  {
    var after := head + a + tail;
    assert after[..|head|] == head;
    assert after[|head| + q..] == a[q..] + tail;
    if q == |a| {
      assert a[q..] + tail == tail;
    } else {
      assert |head + b + (a[q..] + tail)| > |head + b + tail|;
    }
  }

  /**
   Rewriting twice is the same as rewriting once with the second name, exactly when there
   is nothing to rewrite or the first name has no quote in it.
   */
  lemma RewriteTwice(line: string, a: string, b: string)
    ensures ReplaceModelName(ReplaceModelName(line, a), b) == ReplaceModelName(line, b) <==>
            ModelSpan(line).None? || QuoteFree(a)
  {
    if ModelSpan(line).Some? {
      var (start, end) := ModelSpan(line).value;
      var q := FirstQuote(a);
      SpanIsSpan(line, start, end);
      SpanOfRewritten(line, start, end, a, q);
      Reinserted(line[..start], a, line[end..], b, q);
    }
  }

  /** It does make a difference: a name that is one quote leaves that quote behind. */
  lemma QuotedNameStays(line: string, b: string)
    requires ModelSpan(line).Some?
    ensures ReplaceModelName(ReplaceModelName(line, QUOTE), b) != ReplaceModelName(line, b)
  {
    assert QUOTE[0] == '"';
    RewriteTwice(line, QUOTE, b);
  }
}
