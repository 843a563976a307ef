/** The text primitives of the front-matter parser (src/services/WorkflowLoader.ts:140-219):
    lines, comments, indentation and scalars. */
module WorkflowText {
  import opened Texts

  /** Integers are unbounded; a decimal fraction is kept as its text. */
  datatype Value =
    | Null
    | Bool(b: bool)
    | Int(n: int)
    | Dec(text: string)
    | Str(s: string)
    | List(items: seq<Value>)
    | Obj(members: map<string, Value>)

  // ----- Lines -----

  function DropAll(s: string, c: char): string {
    if s == "" then "" else (if s[0] == c then "" else [s[0]]) + DropAll(s[1..], c)
  }

  /** `split` at one character: never empty. */
  function Split(s: string, sep: char): (parts: seq<string>)
    ensures parts != []
  {
    if s == "" then [""]
    else
      var parts := Split(s[1..], sep);
      if s[0] == sep then [""] + parts else [[s[0]] + parts[0]] + parts[1..]
  }

  function Join(parts: seq<string>, sep: string): string {
    if parts == [] then ""
    else if |parts| == 1 then parts[0]
    else parts[0] + sep + Join(parts[1..], sep)
  }

  /** Without line breaks. */
  predicate Unbroken(s: string) {
    forall i :: 0 <= i < |s| ==> s[i] != '\n' && s[i] != '\r'
  }

  function Lines(src: string): seq<string> {
    Split(DropAll(src, '\r'), '\n')
  }

  // ----- Comments and indentation -----

  /** The characters `.` does not match in a regular expression. */
  predicate EndsLine(c: char) {
    c == '\n' || c == '\r' || c as int == 0x2028 || c as int == 0x2029
  }

  /** Whether /\s+#.*$/ matches from the first character on. */
  predicate IsComment(s: string) {
    && s != "" && IsSpace(s[0])
    && var t := TrimStart(s);
       t != "" && t[0] == '#' && forall i :: 1 <= i < |t| ==> !EndsLine(t[i])
  }

  /** Cuts the first comment off, with the white space before it. */
  function StripComment(s: string): string {
    if s == "" || IsComment(s) then "" else [s[0]] + StripComment(s[1..])
  }

  function Indent(s: string): (n: nat)
    ensures n <= |s|
  {
    if s != "" && s[0] == ' ' then 1 + Indent(s[1..]) else 0
  }

  predicate IsItem(content: string) {
    |content| >= 2 && content[0] == '-' && content[1] == ' '
  }

  /** The first position of `c`, or the length. */
  function IndexOf(s: string, c: char): (i: nat)
    ensures i <= |s| && c !in s[..i]
    ensures i < |s| ==> s[i] == c
  {
    if s == "" || s[0] == c then 0 else 1 + IndexOf(s[1..], c)
  }

  // ----- Scalars -----

  predicate IsDigit(c: char) {
    '0' <= c <= '9'
  }

  predicate AllDigits(s: string) {
    s != "" && forall i :: 0 <= i < |s| ==> IsDigit(s[i])
  }

  function Unsigned(s: string): string {
    if s != "" && s[0] == '-' then s[1..] else s
  }

  predicate IsInteger(s: string) {
    AllDigits(Unsigned(s))
  }

  predicate IsFraction(s: string) {
    var u := Unsigned(s);
    var dot := IndexOf(u, '.');
    dot < |u| && AllDigits(u[..dot]) && AllDigits(u[dot + 1..])
  }

  function ValueOf(digits: string): nat
    requires forall i :: 0 <= i < |digits| ==> IsDigit(digits[i])
  {
    if digits == "" then 0
    else
      var last := |digits| - 1;
      assert IsDigit(digits[last]);
      10 * ValueOf(digits[..last]) + (digits[last] as int - '0' as int)
  }

  function ParseInt(s: string): int
    requires IsInteger(s)
  {
    if s[0] == '-' then 0 - ValueOf(s[1..]) else ValueOf(s)
  }

  predicate Quoted(s: string, q: char) {
    s != "" && s[0] == q && s[|s| - 1] == q
  }

  function ParseScalar(s: string): Value {
    if s == "" || s == "~" || s == "null" then Null
    else if s == "true" then Bool(true)
    else if s == "false" then Bool(false)
    else if IsInteger(s) then Int(ParseInt(s))
    else if IsFraction(s) then Dec(s)
    else if Quoted(s, '\'') || Quoted(s, '"') then
      (if |s| < 2 then Str("") else Str(s[1..|s| - 1]))
    else Str(s)
  }

  // ----- An inline list -----

  predicate Bracketed(rest: string) {
    rest != "" && rest[0] == '[' && rest[|rest| - 1] == ']'
  }

  function Scalars(texts: seq<string>): seq<Value> {
    if texts == [] then [] else [ParseScalar(Trim(texts[0]))] + Scalars(texts[1..])
  }

  /** `filter(v => v !== '')`. */
  function NonEmpty(values: seq<Value>): seq<Value> {
    if values == [] then []
    else (if values[0] == Str("") then [] else [values[0]]) + NonEmpty(values[1..])
  }

  function InlineList(rest: string): Value
    requires Bracketed(rest)
  {
    var inner := if |rest| < 2 then "" else rest[1..|rest| - 1];
    List(NonEmpty(Scalars(Split(inner, ','))))
  }

  // ----- What a scalar's text denotes -----

  /** A text for a scalar value. */
  function ScalarText(v: Value): string
    requires !v.List? && !v.Obj?
  {
    match v
    case Null => "null"
    case Bool(b) => if b then "true" else "false"
    case Int(n) => Decimal(n)
    case Dec(text) => text
    case Str(s) => "'" + s + "'"
  }

  lemma {:induction false} DigitsValue(n: nat)
    ensures AllDigits(Digits(n)) && ValueOf(Digits(n)) == n
  {
    DigitsAreDigits(n);
    if n >= 10 { DigitsValue(n / 10); }
    var d := Digits(n);
    assert d[..|d| - 1] == (if n < 10 then "" else Digits(n / 10));
  }

  lemma DigitStart(s: string)
    requires IsInteger(s) || IsFraction(s)
    ensures s != "" && (s[0] == '-' || IsDigit(s[0]))
    ensures s[|s| - 1] != '\'' && s[|s| - 1] != '"'
  {
    var u := Unsigned(s);
    if IsFraction(s) {
      var dot := IndexOf(u, '.');
      assert u[dot + 1..][|u| - dot - 2] == u[|u| - 1] && u[..dot][0] == u[0];
    }
  }

  lemma IntegerRoundTrip(n: int)
    ensures ParseScalar(Decimal(n)) == Int(n)
  {
    var text, digits := Decimal(n), Digits(if n < 0 then -n else n);
    DigitsValue(if n < 0 then -n else n);
    if n < 0 {
      assert text[0] == '-' && text[1..] == digits;
    } else {
      assert IsDigit(text[0]) && text == digits;
    }
    assert Unsigned(text) == digits;
    DigitStart(text);
  }

  lemma StringRoundTrip(s: string)
    ensures ParseScalar("'" + s + "'") == Str(s)
  {
    var t := "'" + s + "'";
    assert t[0] == '\'' && t[|t| - 1] == '\'';
    assert !IsInteger(t) && !IsFraction(t) by {
      if IsInteger(t) || IsFraction(t) { DigitStart(t); }
    }
    assert t[1..|t| - 1] == s;
  }

  /** A scalar written out and parsed again is the same scalar: any integer, any string. */
  lemma ScalarRoundTrip(v: Value)
    requires !v.List? && !v.Obj? && (v.Dec? ==> IsFraction(v.text) && !IsInteger(v.text))
    ensures ParseScalar(ScalarText(v)) == v
  {
    match v
    case Null =>
    case Bool(b) =>
    case Int(n) => IntegerRoundTrip(n);
    case Dec(text) => DigitStart(text);
    case Str(s) => StringRoundTrip(s);
  }

  /** The inline empty list is not empty: it holds one null. */
  lemma EmptyInlineList()
    ensures InlineList("[]") == List([Null])
  {
    assert "[]"[1..1] == "" && Trim("") == "";
    assert Split("", ',') == [""];
    assert [""][1..] == [] && Scalars([""]) == [Null] + Scalars([]);
    assert [Null][1..] == [] && NonEmpty([Null]) == [Null] + NonEmpty([]);
  }

  // ----- Laws -----

  lemma {:induction false} DropAbsent(s: string, c: char)
    requires c !in s
    ensures DropAll(s, c) == s
  {
    if s != "" { DropAbsent(s[1..], c); }
  }

  lemma {:induction false} SplitWhole(a: string, sep: char)
    requires sep !in a
    ensures Split(a, sep) == [a]
  {
    if a != "" {
      SplitWhole(a[1..], sep);
      assert [a[0]] + a[1..] == a;
    }
  }

  lemma {:induction false} SplitAt(a: string, b: string, sep: char)
    requires sep !in a
    ensures Split(a + [sep] + b, sep) == [a] + Split(b, sep)
  {
    var s := a + [sep] + b;
    if a == "" {
      assert s[1..] == b;
    } else {
      SplitAt(a[1..], b, sep);
      assert s[1..] == a[1..] + [sep] + b;
      assert [a[0]] + a[1..] == a;
    }
  }

  lemma {:induction false} SplitJoin(parts: seq<string>, sep: char)
    requires parts != [] && forall i :: 0 <= i < |parts| ==> sep !in parts[i]
    ensures Split(Join(parts, [sep]), sep) == parts
  {
    var first, rest := parts[0], parts[1..];
    assert parts == [first] + rest;
    if rest == [] {
      SplitWhole(first, sep);
    } else {
      SplitJoin(rest, sep);
      SplitAt(first, Join(rest, [sep]), sep);
    }
  }

  lemma {:induction false} JoinHas(parts: seq<string>, sep: string, c: char)
    requires c !in sep && forall i :: 0 <= i < |parts| ==> c !in parts[i]
    ensures c !in Join(parts, sep)
  {
    if |parts| > 1 { JoinHas(parts[1..], sep, c); }
  }

  lemma {:induction false} IndexOfFirst(a: string, c: char, b: string)
    requires c !in a
    ensures IndexOf(a + [c] + b, c) == |a|
  {
    if a != "" {
      IndexOfFirst(a[1..], c, b);
      assert (a + [c] + b)[1..] == a[1..] + [c] + b;
    }
  }

  /** Splitting a list joined with ", ", with or without a space in front. */
  lemma {:induction false} ScalarsOfTrimmed(texts: seq<string>, pad: string)
    requires texts != [] && forall i :: 0 <= i < |texts| ==> Trim(texts[i]) == texts[i] && ',' !in texts[i]
    requires pad == "" || pad == " "
    ensures Scalars(Split(pad + Join(texts, ", "), ',')) == ScalarsOf(texts)
  {
    var first, rest := pad + texts[0], texts[1..];
    PadTrims(pad, texts[0]);
    if rest == [] {
      SplitWhole(first, ',');
      OneScalar(first);
    } else {
      var tail := " " + Join(rest, ", ");
      ScalarsOfTrimmed(rest, " ");
      SplitFirst(first, tail);
      JoinFirst(pad, texts);
    }
  }

  lemma OneScalar(s: string)
    ensures Scalars([s]) == [ParseScalar(Trim(s))]
  {
    assert [s][1..] == [];
  }

  lemma JoinFirst(pad: string, texts: seq<string>)
    requires |texts| > 1
    ensures pad + Join(texts, ", ") == (pad + texts[0]) + [','] + (" " + Join(texts[1..], ", "))
  {
    var first, tail := texts[0], Join(texts[1..], ", ");
    assert ", " == [','] + " ";
    Regroup(pad, first + ", ", tail);
    Regroup(pad, first, ", ");
    Regroup(pad + first, [','], " ");
    Regroup(pad + first + [','], " ", tail);
  }

  lemma PadTrims(pad: string, s: string)
    requires Trim(s) == s && (pad == "" || pad == " ")
    ensures Trim(pad + s) == s
  {
    TrimAfterSpace(s);
    assert "" + s == s;
  }

  lemma SplitFirst(first: string, tail: string)
    requires ',' !in first
    ensures Scalars(Split(first + [','] + tail, ',')) == [ParseScalar(Trim(first))] + Scalars(Split(tail, ','))
  {
    SplitAt(first, tail, ',');
    assert ([first] + Split(tail, ','))[1..] == Split(tail, ',');
  }

  function ScalarsOf(texts: seq<string>): seq<Value> {
    if texts == [] then [] else [ParseScalar(texts[0])] + ScalarsOf(texts[1..])
  }

  /** No '#' right after white space. */
  predicate Uncommented(s: string) {
    |s| < 2 || (!(IsSpace(s[0]) && s[1] == '#') && Uncommented(s[1..]))
  }

  lemma {:induction false} NoCommentAhead(s: string)
    requires Uncommented(s) && s != "" && IsSpace(s[0])
    ensures var t := TrimStart(s); t == "" || t[0] != '#'
  {
    if |s| > 1 && IsSpace(s[1]) { NoCommentAhead(s[1..]); }
  }

  lemma {:induction false} UncommentedStays(s: string)
    requires Uncommented(s)
    ensures StripComment(s) == s
  {
    if s != "" {
      if IsSpace(s[0]) { NoCommentAhead(s); }
      UncommentedStays(s[1..]);
    }
  }

  function Spaces(n: nat): (s: string)
    ensures |s| == n && forall i :: 0 <= i < n ==> s[i] == ' '
  {
    seq(n, i => ' ')
  }

  lemma {:induction false} IndentOf(n: nat, content: string)
    requires content != "" && content[0] != ' '
    ensures Indent(Spaces(n) + content) == n && (Spaces(n) + content)[n..] == content
  {
    if n > 0 {
      IndentOf(n - 1, content);
      assert (Spaces(n) + content)[1..] == Spaces(n - 1) + content;
    } else {
      assert Spaces(0) + content == content;
    }
  }

  lemma {:induction false} TrimSkipsSpaces(n: nat, content: string)
    requires content != "" && !IsSpace(content[0])
    ensures TrimStart(Spaces(n) + content) == content
  {
    if n > 0 {
      TrimSkipsSpaces(n - 1, content);
      assert (Spaces(n) + content)[1..] == Spaces(n - 1) + content;
    } else {
      assert Spaces(0) + content == content;
    }
  }

  lemma {:induction false} TrimEndStarts(s: string)
    requires s != "" && !IsSpace(s[0])
    ensures TrimEnd(s) != "" && TrimEnd(s)[0] == s[0]
  {
    if IsSpace(s[|s| - 1]) { TrimEndStarts(s[..|s| - 1]); }
  }

  /** Text that trimming leaves alone starts and ends with something else than space. */
  lemma {:induction false} TrimStartShorter(s: string)
    ensures |TrimStart(s)| <= |s| && (s != "" && IsSpace(s[0]) ==> |TrimStart(s)| < |s|)
  {
    if s != "" && IsSpace(s[0]) { TrimStartShorter(s[1..]); }
  }

  lemma {:induction false} TrimEndShorter(s: string)
    ensures |TrimEnd(s)| <= |s|
  {
    if s != "" && IsSpace(s[|s| - 1]) { TrimEndShorter(s[..|s| - 1]); }
  }

  lemma TrimmedStart(s: string)
    requires Trim(s) == s
    ensures TrimStart(s) == s && (s != "" ==> !IsSpace(s[0]))
  {
    TrimStartShorter(s);
    TrimEndShorter(TrimStart(s));
  }

  lemma TrimAfterSpace(s: string)
    requires Trim(s) == s
    ensures Trim(" " + s) == s
  {
    TrimmedStart(s);
    assert (" " + s)[1..] == s;
  }
}
