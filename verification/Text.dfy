/** The few functions of Go's `strings` package that the gateway relies on. */
module Text {
  import opened Wrappers

  predicate HasPrefix(s: string, prefix: string) {
    prefix <= s
  }

  function TrimPrefix(s: string, prefix: string): string {
    if HasPrefix(s, prefix) then s[|prefix|..] else s
  }

  // ---- Searching -------------------------------------------------------------

  predicate OccursAt(s: string, sub: string, i: nat) {
    i + |sub| <= |s| && s[i..i + |sub|] == sub
  }

  /** The first position from `from` on at which `sub` occurs. */
  function IndexFrom(s: string, sub: string, from: nat): (r: Option<nat>)
    requires from <= |s|
    ensures r.Some? ==> from <= r.value && OccursAt(s, sub, r.value)
    ensures r.Some? ==> forall j | from <= j < r.value :: !OccursAt(s, sub, j)
    ensures r.None? ==> forall j | from <= j :: !OccursAt(s, sub, j)
    decreases |s| - from
  {
    if OccursAt(s, sub, from) then Some(from)
    else if from == |s| then None
    else IndexFrom(s, sub, from + 1)
  }

  function Index(s: string, sub: string): (r: Option<nat>)
    ensures r.Some? ==> OccursAt(s, sub, r.value)
    ensures r.Some? ==> forall j | 0 <= j < r.value :: !OccursAt(s, sub, j)
    ensures r.None? ==> forall j: nat :: !OccursAt(s, sub, j)
  {
    IndexFrom(s, sub, 0)
  }

  predicate Contains(s: string, sub: string) {
    Index(s, sub).Some?
  }

  /** The first occurrence is determined by the text up to its end. */
  lemma IndexUnique(s: string, sub: string, i: nat)
    requires OccursAt(s, sub, i) && forall j | 0 <= j < i :: !OccursAt(s, sub, j)
    ensures Index(s, sub) == Some(i)
  {
    var r := Index(s, sub);
    assert r.Some? && !(r.value < i) && !(i < r.value);
  }

  // ---- White space -------------------------------------------------------------

  predicate IsSpace(c: char) {
    c == ' ' || c == '\t' || c == '\n' || c == '\r' || c == 11 as char || c == 12 as char
  }

  function TrimLeft(s: string): (r: string)
    ensures r == "" || !IsSpace(r[0])
    ensures |r| <= |s|
  {
    if s != "" && IsSpace(s[0]) then TrimLeft(s[1..]) else s
  }

  lemma {:induction false} LeftAddsNothing(s: string)
    ensures forall c | c in TrimLeft(s) :: c in s
  {
    if s != "" && IsSpace(s[0]) {
      LeftAddsNothing(s[1..]);
    }
  }

  function TrimRight(s: string): (r: string)
    ensures r == "" || !IsSpace(r[|r| - 1])
    ensures r <= s
  {
    if s != "" && IsSpace(s[|s| - 1]) then TrimRight(s[..|s| - 1]) else s
  }

  function TrimSpace(s: string): string {
    TrimRight(TrimLeft(s))
  }

  /** A text with no space at either end is left alone. */
  lemma TrimmedIsFixed(s: string)
    requires s != "" ==> !IsSpace(s[0]) && !IsSpace(s[|s| - 1])
    ensures TrimSpace(s) == s
  {
  }

  ghost predicate AllSpaces(s: string) {
    forall i | 0 <= i < |s| :: IsSpace(s[i])
  }

  lemma SpaceMeaning(c: char)
    ensures IsSpace(c) <==> c in {' ', '\t', '\n', '\r', 11 as char, 12 as char}
  {
  }

  lemma OneOnTheLeft(c: char, s: string)
    requires IsSpace(c)
    ensures TrimLeft([c] + s) == TrimLeft(s)
  {
    assert ([c] + s)[1..] == s;
  }

  lemma OneOnTheRight(s: string, c: char)
    requires IsSpace(c)
    ensures TrimRight(s + [c]) == TrimRight(s)
  {
    assert (s + [c])[..|s|] == s;
  }

  lemma {:induction false} LeftIsTrimmed(a: string, n: nat, s: string)
    requires n <= |a| && AllSpaces(a)
    ensures TrimLeft(a[|a| - n..] + s) == TrimLeft(s)
  {
    if n == 0 {
      assert a[|a|..] + s == s;
    } else {
      LeftIsTrimmed(a, n - 1, s);
      OneOnTheLeft(a[|a| - n], a[|a| - n + 1..] + s);
      assert a[|a| - n..] + s == [a[|a| - n]] + (a[|a| - n + 1..] + s);
    }
  }

  lemma {:induction false} RightIsTrimmed(s: string, b: string, n: nat)
    requires n <= |b| && AllSpaces(b)
    ensures TrimRight(s + b[..n]) == TrimRight(s)
  {
    if n == 0 {
      assert s + b[..0] == s;
    } else {
      RightIsTrimmed(s, b, n - 1);
      OneOnTheRight(s + b[..n - 1], b[n - 1]);
      assert s + b[..n] == (s + b[..n - 1]) + [b[n - 1]];
    }
  }

  lemma NothingToTrim(s: string)
    ensures s == "" || !IsSpace(s[0]) ==> TrimLeft(s) == s
    ensures s == "" || !IsSpace(s[|s| - 1]) ==> TrimRight(s) == s
  {
  }

  /** White space at both ends is dropped, and nothing else. */
  lemma TrimMeaning(a: string, s: string, b: string)
    requires AllSpaces(a) && AllSpaces(b) && s != "" && !IsSpace(s[0]) && !IsSpace(s[|s| - 1])
    ensures TrimSpace(a + s + b) == s
  {
    LeftIsTrimmed(a, |a|, s + b);
    assert a[0..] + (s + b) == a + s + b;
    NothingToTrim(s + b);
    assert (s + b)[0] == s[0];
    RightIsTrimmed(s, b, |b|);
    assert b[..|b|] == b;
    NothingToTrim(s);
  }

  // ---- Splitting and joining ----------------------------------------------------

  function Split(s: string, sep: char): (r: seq<string>)
    ensures r != []
    ensures forall i | 0 <= i < |r| :: sep !in r[i]
  {
    if s == "" then [""]
    else
      var rest := Split(s[1..], sep);
      if s[0] == sep then [""] + rest
      else [[s[0]] + rest[0]] + rest[1..]
  }

  function Join(parts: seq<string>, sep: char): string
    requires parts != []
  {
    if |parts| == 1 then parts[0] else parts[0] + [sep] + Join(parts[1..], sep)
  }

  lemma {:induction false} SplitOfOne(s: string, sep: char)
    requires sep !in s
    ensures Split(s, sep) == [s]
  {
    if s != "" {
      SplitOfOne(s[1..], sep);
      assert [s[0]] + s[1..] == s;
    }
  }

  lemma {:induction false} SplitOfTwo(a: string, sep: char, rest: string)
    requires sep !in a
    ensures Split(a + [sep] + rest, sep) == [a] + Split(rest, sep)
  {
    var s := a + [sep] + rest;
    if a == "" {
      assert s[1..] == rest;
    } else {
      SplitOfTwo(a[1..], sep, rest);
      assert s[1..] == a[1..] + [sep] + rest;
      assert [a[0]] + a[1..] == a;
    }
  }

  /** Splitting undoes joining, as long as no part contains the separator. */
  lemma {:induction false} SplitJoin(parts: seq<string>, sep: char)
    requires parts != [] && forall i | 0 <= i < |parts| :: sep !in parts[i]
    ensures Split(Join(parts, sep), sep) == parts
  {
    if |parts| == 1 {
      SplitOfOne(parts[0], sep);
    } else {
      SplitJoin(parts[1..], sep);
      SplitOfTwo(parts[0], sep, Join(parts[1..], sep));
    }
  }

  // ---- Concatenation ------------------------------------------------------------

  /** All the strings one after the other. */
  function Concat(parts: seq<string>): string {
    if parts == [] then "" else parts[0] + Concat(parts[1..])
  }

  lemma {:induction false} ConcatOfTwo(a: seq<string>, b: seq<string>)
    ensures Concat(a + b) == Concat(a) + Concat(b)
  {
    if a == [] {
      assert a + b == b;
    } else {
      ConcatOfTwo(a[1..], b);
      assert (a + b)[1..] == a[1..] + b;
    }
  }

  lemma ConcatOne(s: string)
    ensures Concat([s]) == s
  {
    assert Concat([s]) == s + Concat([]);
  }
}
