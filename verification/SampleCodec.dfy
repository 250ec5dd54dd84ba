/**
 Codecs that meet the laws asked of them.

 The laws about JSON text are assumptions about Go's encoder.  This module shows that
 they can be met, and builds codecs that read chosen texts as chosen values, for the
 concrete streams of other modules.
 */
module SampleCodecs {
  import opened Json
  import opened Wrappers

  // ---- A text form in which no text begins another -----------------------------------------
  //
  // Each function writes its value in front of the rest of the text.

  ghost function Ones(n: nat, rest: string): string {
    if n == 0 then rest else ['1'] + Ones(n - 1, rest)
  }

  ghost function Number(n: int, rest: string): string {
    if n >= 0 then ['+'] + Ones(n, ['.'] + rest) else ['-'] + Ones(-n, ['.'] + rest)
  }

  ghost function Chars(s: string, rest: string): string {
    if s == "" then ['.'] + rest else [','] + Number(s[0] as int, Chars(s[1..], rest))
  }

  ghost function Written(v: JValue, rest: string): string
    decreases v, 2, 0
  {
    match v
    case JNull => ['n'] + rest
    case JBool(b) => [if b then 't' else 'f'] + rest
    case JNum(m) => ['d'] + Number(m, rest)
    case JStr(s) => ['s'] + Chars(s, rest)
    case JArr(_) => ['a'] + Items(v, 0, rest)
    case JObj(fields) => ['o'] + Fields(v, fields, rest)
  }

  ghost function Items(v: JValue, i: nat, rest: string): string
    requires v.JArr? && i <= |v.items|
    decreases v, 1, |v.items| - i
  {
    if i == |v.items| then ['.'] + rest else [','] + Written(v.items[i], Items(v, i + 1, rest))
  }

  ghost predicate PartOf(part: map<string, JValue>, v: JValue) {
    v.JObj? && forall k | k in part :: k in v.fields && part[k] == v.fields[k]
  }

  /** The fields still to write, in any order. */
  ghost function Fields(v: JValue, part: map<string, JValue>, rest: string): string
    requires PartOf(part, v)
    decreases v, 1, |part|
  {
    if part == map[] then ['.'] + rest
    else
      var k :| k in part;
      [','] + Chars(k, Written(v.fields[k], Fields(v, part - {k}, rest)))
  }

  // ---- Different values have different texts ----------------------------------------------------

  lemma SameHead(c: char, a: string, d: char, b: string)
    requires [c] + a == [d] + b
    ensures c == d && a == b
  {
    assert ([c] + a)[0] == c && ([d] + b)[0] == d;
    assert ([c] + a)[1..] == a && ([d] + b)[1..] == b;
  }

  lemma {:induction false} OnesUnique(m: nat, n: nat, s: string, t: string)
    requires Ones(m, ['.'] + s) == Ones(n, ['.'] + t)
    ensures m == n && s == t
  {
    var left := if m == 0 then ['.'] + s else ['1'] + Ones(m - 1, ['.'] + s);
    var right := if n == 0 then ['.'] + t else ['1'] + Ones(n - 1, ['.'] + t);
    assert left == right;
    SameHead(if m == 0 then '.' else '1', if m == 0 then s else Ones(m - 1, ['.'] + s),
             if n == 0 then '.' else '1', if n == 0 then t else Ones(n - 1, ['.'] + t));
    if m > 0 {
      OnesUnique(m - 1, n - 1, s, t);
    }
  }

  lemma NumberUnique(m: int, n: int, s: string, t: string)
    requires Number(m, s) == Number(n, t)
    ensures m == n && s == t
  {
    var a: nat, b: nat := if m >= 0 then m else -m, if n >= 0 then n else -n;
    SameHead(if m >= 0 then '+' else '-', Ones(a, ['.'] + s), if n >= 0 then '+' else '-', Ones(b, ['.'] + t));
    OnesUnique(a, b, s, t);
  }

  lemma {:induction false} CharsUnique(a: string, b: string, s: string, t: string)
    requires Chars(a, s) == Chars(b, t)
    ensures a == b && s == t
  {
    SameHead(if a == "" then '.' else ',', if a == "" then s else Number(a[0] as int, Chars(a[1..], s)),
             if b == "" then '.' else ',', if b == "" then t else Number(b[0] as int, Chars(b[1..], t)));
    if a != "" {
      NumberUnique(a[0] as int, b[0] as int, Chars(a[1..], s), Chars(b[1..], t));
      CharsUnique(a[1..], b[1..], s, t);
      assert a == [a[0]] + a[1..] && b == [b[0]] + b[1..];
    }
  }

  ghost function Tag(v: JValue): char {
    match v
    case JNull => 'n'
    case JBool(b) => if b then 't' else 'f'
    case JNum(_) => 'd'
    case JStr(_) => 's'
    case JArr(_) => 'a'
    case JObj(_) => 'o'
  }

  ghost function Body(v: JValue, rest: string): string {
    match v
    case JNull => rest
    case JBool(_) => rest
    case JNum(m) => Number(m, rest)
    case JStr(s) => Chars(s, rest)
    case JArr(_) => Items(v, 0, rest)
    case JObj(fields) => Fields(v, fields, rest)
  }

  lemma TagAndBody(v: JValue, rest: string)
    ensures Written(v, rest) == [Tag(v)] + Body(v, rest)
  {
  }

  lemma {:induction false} WrittenUnique(v: JValue, w: JValue, s: string, t: string)
    requires Written(v, s) == Written(w, t)
    ensures v == w && s == t
    decreases v, 2, 0
  {
    TagAndBody(v, s);
    TagAndBody(w, t);
    SameHead(Tag(v), Body(v, s), Tag(w), Body(w, t));
    match v
    case JNull =>
    case JBool(_) =>
    case JNum(m) => NumberUnique(m, w.millionths, s, t);
    case JStr(a) => CharsUnique(a, w.text, s, t);
    case JArr(items) =>
      ItemsUnique(v, 0, w, 0, s, t);
      assert items[0..] == items && w.items[0..] == w.items;
    case JObj(fields) => FieldsUnique(v, fields, w, w.fields, s, t);
  }

  lemma {:induction false} ItemsUnique(v: JValue, i: nat, w: JValue, j: nat, s: string, t: string)
    requires v.JArr? && i <= |v.items| && w.JArr? && j <= |w.items|
    requires Items(v, i, s) == Items(w, j, t)
    ensures v.items[i..] == w.items[j..] && s == t
    decreases v, 1, |v.items| - i
  {
    var vEnd, wEnd := i == |v.items|, j == |w.items|;
    SameHead(if vEnd then '.' else ',', if vEnd then s else Written(v.items[i], Items(v, i + 1, s)),
             if wEnd then '.' else ',', if wEnd then t else Written(w.items[j], Items(w, j + 1, t)));
    if !vEnd {
      WrittenUnique(v.items[i], w.items[j], Items(v, i + 1, s), Items(w, j + 1, t));
      ItemsUnique(v, i + 1, w, j + 1, s, t);
      assert v.items[i..] == [v.items[i]] + v.items[i + 1..];
      assert w.items[j..] == [w.items[j]] + w.items[j + 1..];
    }
  }

  lemma FirstField(v: JValue, part: map<string, JValue>, rest: string) returns (k: string)
    requires PartOf(part, v) && part != map[]
    ensures k in part
    ensures Fields(v, part, rest) == [','] + Chars(k, Written(v.fields[k], Fields(v, part - {k}, rest)))
  {
    k :| k in part && Fields(v, part, rest) == [','] + Chars(k, Written(v.fields[k], Fields(v, part - {k}, rest)));
  }

  lemma SameFirstField(v: JValue, part: map<string, JValue>, w: JValue, other: map<string, JValue>,
                       s: string, t: string) returns (k: string)
    requires PartOf(part, v) && PartOf(other, w) && part != map[] && other != map[]
    requires Fields(v, part, s) == Fields(w, other, t)
    ensures k in part && k in other
    ensures Written(v.fields[k], Fields(v, part - {k}, s)) == Written(w.fields[k], Fields(w, other - {k}, t))
  {
    k := FirstField(v, part, s);
    var l := FirstField(w, other, t);
    var restV := Written(v.fields[k], Fields(v, part - {k}, s));
    var restW := Written(w.fields[l], Fields(w, other - {l}, t));
    SameHead(',', Chars(k, restV), ',', Chars(l, restW));
    CharsUnique(k, l, restV, restW);
  }

  lemma EmptyFields(v: JValue, part: map<string, JValue>, w: JValue, other: map<string, JValue>, s: string, t: string)
    requires PartOf(part, v) && PartOf(other, w) && (part == map[] || other == map[])
    requires Fields(v, part, s) == Fields(w, other, t)
    ensures part == other && s == t
  {
    if part == map[] && other == map[] {
      SameHead('.', s, '.', t);
    } else if part == map[] {
      var l := FirstField(w, other, t);
      SameHead('.', s, ',', Chars(l, Written(w.fields[l], Fields(w, other - {l}, t))));
    } else {
      var k := FirstField(v, part, s);
      SameHead(',', Chars(k, Written(v.fields[k], Fields(v, part - {k}, s))), '.', t);
    }
  }

  lemma SameWithFirst(part: map<string, JValue>, other: map<string, JValue>, k: string)
    requires k in part && k in other && part[k] == other[k] && part - {k} == other - {k}
    ensures part == other
  {
    assert part == (part - {k})[k := part[k]];
    assert other == (other - {k})[k := other[k]];
  }

  lemma {:induction false} FieldsUnique(v: JValue, part: map<string, JValue>, w: JValue, other: map<string, JValue>,
                                        s: string, t: string)
    requires PartOf(part, v) && PartOf(other, w)
    requires Fields(v, part, s) == Fields(w, other, t)
    ensures part == other && s == t
    decreases v, 1, |part|
  {
    if part == map[] || other == map[] {
      EmptyFields(v, part, w, other, s, t);
    } else {
      var k := SameFirstField(v, part, w, other, s, t);
      WrittenUnique(v.fields[k], w.fields[k], Fields(v, part - {k}, s), Fields(w, other - {k}, t));
      FieldsUnique(v, part - {k}, w, other - {k}, s, t);
      SameWithFirst(part, other, k);
    }
  }

  // ---- No line breaks -------------------------------------------------------------------------

  lemma {:induction false} OnesOneLine(n: nat, rest: string)
    requires '\n' !in rest
    ensures '\n' !in Ones(n, rest)
  {
    if n > 0 {
      OnesOneLine(n - 1, rest);
    }
  }

  lemma NumberOneLine(n: int, rest: string)
    requires '\n' !in rest
    ensures '\n' !in Number(n, rest)
  {
    OnesOneLine(if n >= 0 then n else -n, ['.'] + rest);
  }

  lemma {:induction false} CharsOneLine(s: string, rest: string)
    requires '\n' !in rest
    ensures '\n' !in Chars(s, rest)
  {
    if s != "" {
      CharsOneLine(s[1..], rest);
      NumberOneLine(s[0] as int, Chars(s[1..], rest));
    }
  }

  lemma {:induction false} WrittenOneLine(v: JValue, rest: string)
    requires '\n' !in rest
    ensures '\n' !in Written(v, rest)
    decreases v, 2, 0
  {
    match v
    case JNull =>
    case JBool(_) =>
    case JNum(m) => NumberOneLine(m, rest);
    case JStr(s) => CharsOneLine(s, rest);
    case JArr(_) => ItemsOneLine(v, 0, rest);
    case JObj(fields) => FieldsOneLine(v, fields, rest);
  }

  lemma {:induction false} ItemsOneLine(v: JValue, i: nat, rest: string)
    requires v.JArr? && i <= |v.items| && '\n' !in rest
    ensures '\n' !in Items(v, i, rest)
    decreases v, 1, |v.items| - i
  {
    if i < |v.items| {
      ItemsOneLine(v, i + 1, rest);
      WrittenOneLine(v.items[i], Items(v, i + 1, rest));
    }
  }

  lemma {:induction false} FieldsOneLine(v: JValue, part: map<string, JValue>, rest: string)
    requires PartOf(part, v) && '\n' !in rest
    ensures '\n' !in Fields(v, part, rest)
    decreases v, 1, |part|
  {
    if part != map[] {
      var k := FirstField(v, part, rest);
      FieldsOneLine(v, part - {k}, rest);
      WrittenOneLine(v.fields[k], Fields(v, part - {k}, rest));
      CharsOneLine(k, Written(v.fields[k], Fields(v, part - {k}, rest)));
    }
  }

  // ---- The codecs ---------------------------------------------------------------------------------

  ghost predicate IsText(s: string) {
    exists v :: Written(v, "") == s
  }

  ghost function ReadBack(s: string): Option<JValue> {
    if IsText(s) then
      var v :| Written(v, "") == s;
      Some(v)
    else None
  }

  ghost function PlainCodec(): Codec {
    Codec(v => Written(v, ""), s => ReadBack(s))
  }

  lemma ReadBackWritten(v: JValue)
    ensures ReadBack(Written(v, "")) == Some(v)
  {
    var s := Written(v, "");
    assert IsText(s);
    var w := ReadBack(s).value;
    assert Written(w, "") == s;
    WrittenUnique(w, v, "", "");
  }

  lemma BracketIsNoText(s: string)
    requires s != "" && s[0] == '['
    ensures ReadBack(s).None?
  {
    forall v ensures Written(v, "") != s {
      TagAndBody(v, "");
    }
  }

  /** The laws can be met. */
  lemma PlainCodecIsLawful()
    ensures Lawful(PlainCodec()) && FitsEventStream(PlainCodec())
  {
    forall v ensures PlainCodec().decode(PlainCodec().encode(v)) == Some(v) {
      ReadBackWritten(v);
    }
    forall v ensures '\n' !in PlainCodec().encode(v) {
      WrittenOneLine(v, "");
    }
    BracketIsNoText("[DONE]");
  }

  /** A value and the text that stands for it. */
  datatype Entry = Entry(text: string, value: JValue)

  /** The texts and values of a table are all different, and no text starts like the others' texts do. */
  ghost predicate Proper(a: Entry, b: Entry) {
    && a.text != b.text && a.value != b.value
    && '\n' !in a.text && '\n' !in b.text
    && a.text != "" && a.text[0] == '{' && b.text != "" && b.text[0] == '{'
  }

  /** Like the plain codec, but with the two texts of the table for their values. */
  ghost function TableCodec(a: Entry, b: Entry): Codec {
    Codec(v => if v == a.value then a.text else if v == b.value then b.text else Written(v, ""),
          s => if s == a.text then Some(a.value) else if s == b.text then Some(b.value) else ReadBack(s))
  }

  lemma TableCodecIsLawful(a: Entry, b: Entry)
    requires Proper(a, b)
    ensures Lawful(TableCodec(a, b)) && FitsEventStream(TableCodec(a, b))
    ensures TableCodec(a, b).decode(a.text) == Some(a.value)
    ensures TableCodec(a, b).decode(b.text) == Some(b.value)
  {
    var codec := TableCodec(a, b);
    forall v ensures codec.decode(codec.encode(v)) == Some(v) {
      ReadBackWritten(v);
      TagAndBody(v, "");
    }
    forall v ensures '\n' !in codec.encode(v) {
      WrittenOneLine(v, "");
    }
    BracketIsNoText("[DONE]");
    assert "[DONE]"[0] == '[' != a.text[0];
  }
}
