/** JSON values and the text JSON.stringify gives them. Objects list their members in the
    order JavaScript enumerates them. Strings are sequences of Unicode scalar values. */
module JsonText {
  import opened Texts

  /** A finite number by its canonical rendering (Number.prototype.toString). */
  predicate NumeralChar(c: char) {
    '0' <= c <= '9' || c == '-' || c == '+' || c == '.' || c == 'e'
  }

  type Numeral = s: string | s != "" && forall i :: 0 <= i < |s| ==> NumeralChar(s[i]) witness "0"

  datatype Json =
    | Null
    | Bool(b: bool)
    | Num(numeral: Numeral)
    | Str(s: string)
    | Arr(items: seq<Json>)
    | Obj(members: seq<Member>)

  datatype Member = Member(key: string, value: Json)

  lemma DecimalIsNumeral(n: int)
    ensures Decimal(n) != "" && forall i :: 0 <= i < |Decimal(n)| ==> NumeralChar(Decimal(n)[i])
  {
    DigitsAreDigits(if n < 0 then -n else n);
  }

  function Number(n: int): Json {
    DecimalIsNumeral(n);
    Num(Decimal(n))
  }

  // ----- Strings -----

  function HexDigit(n: nat): char
    requires n < 16
  {
    "0123456789abcdef"[n]
  }

  function EscapeChar(c: char): string {
    var n := c as int;
    if c == '\"' then "\\\""
    else if c == '\\' then "\\\\"
    else if n >= 32 then [c]
    else if n == 8 then "\\b"
    else if n == 9 then "\\t"
    else if n == 10 then "\\n"
    else if n == 12 then "\\f"
    else if n == 13 then "\\r"
    else "\\u00" + [HexDigit(n / 16), HexDigit(n % 16)]
  }

  /** The rest of a string literal: its characters escaped, and the closing quote. */
  function Closed(s: string): string {
    if s == "" then "\"" else EscapeChar(s[0]) + Closed(s[1..])
  }

  function Quote(s: string): string {
    "\"" + Closed(s)
  }

  // ----- Values -----

  function Text(v: Json): string
    decreases v, 0
  {
    match v
    case Null => "null"
    case Bool(b) => if b then "true" else "false"
    case Num(n) => n
    case Str(s) => Quote(s)
    case Arr(items) => "[" + ItemsText(items)
    case Obj(members) => "{" + MembersText(members)
  }

  function ItemsText(items: seq<Json>): string
    decreases items, 1
  {
    if items == [] then "]" else Text(items[0]) + MoreItems(items[1..])
  }

  function MembersText(members: seq<Member>): string
    decreases members, 1
  {
    if members == [] then "}" else MemberText(members[0]) + MoreMembers(members[1..])
  }

  function MoreItems(items: seq<Json>): string
    decreases items
  {
    if items == [] then "]" else "," + Text(items[0]) + MoreItems(items[1..])
  }

  function MemberText(m: Member): string
    decreases m
  {
    Quote(m.key) + ":" + Text(m.value)
  }

  function MoreMembers(members: seq<Member>): string
    decreases members
  {
    if members == [] then "}" else "," + MemberText(members[0]) + MoreMembers(members[1..])
  }

  // ----- The text determines the value -----

  /** What can follow a value inside a larger text. */
  ghost predicate Delimited(rest: string) {
    rest == "" || rest[0] == ',' || rest[0] == ']' || rest[0] == '}'
  }

  lemma Cut(a: string, s: string, b: string, t: string)
    requires a + s == b + t && |a| == |b|
    ensures a == b && s == t
  {
    assert a == (a + s)[..|a|] && b == (b + t)[..|b|];
    assert s == (a + s)[|a|..] && t == (b + t)[|b|..];
  }

  lemma HexDigitsDiffer(m: nat, n: nat)
    requires m < 16 && n < 16 && HexDigit(m) == HexDigit(n)
    ensures m == n
  {
  }

  lemma EscapeCharIsPrefixFree(c: char, s: string, d: char, t: string)
    requires EscapeChar(c) + s == EscapeChar(d) + t
    ensures c == d && s == t
  {
    var u, v := EscapeChar(c) + s, EscapeChar(d) + t;
    assert u[0] == EscapeChar(c)[0] && v[0] == EscapeChar(d)[0];
    if u[0] == '\\' {
      assert u[1] == EscapeChar(c)[1] && v[1] == EscapeChar(d)[1];
    }
    assert |EscapeChar(c)| == |EscapeChar(d)|;
    Cut(EscapeChar(c), s, EscapeChar(d), t);
    if |EscapeChar(c)| == 6 {
      assert HexDigit(c as int / 16) == EscapeChar(c)[4] && HexDigit(c as int % 16) == EscapeChar(c)[5];
      assert HexDigit(d as int / 16) == EscapeChar(d)[4] && HexDigit(d as int % 16) == EscapeChar(d)[5];
      HexDigitsDiffer(c as int / 16, d as int / 16);
      HexDigitsDiffer(c as int % 16, d as int % 16);
      assert c as int == d as int;
    }
  }

  lemma ClosedHead(s: string)
    ensures Closed(s) != "" && (Closed(s)[0] == '\"' <==> s == "")
    ensures s != "" ==> Closed(s) == EscapeChar(s[0]) + Closed(s[1..])
  {
  }

  lemma {:induction false} ClosedIsPrefixFree(a: string, s: string, b: string, t: string)
    requires Closed(a) + s == Closed(b) + t
    ensures a == b && s == t
    decreases |a|
  {
    ClosedHead(a);
    ClosedHead(b);
    assert (Closed(a) + s)[0] == Closed(a)[0] && (Closed(b) + t)[0] == Closed(b)[0];
    if a == "" {
      Cut("\"", s, "\"", t);
    } else {
      Regroup(EscapeChar(a[0]), Closed(a[1..]), s);
      Regroup(EscapeChar(b[0]), Closed(b[1..]), t);
      EscapeCharIsPrefixFree(a[0], Closed(a[1..]) + s, b[0], Closed(b[1..]) + t);
      ClosedIsPrefixFree(a[1..], s, b[1..], t);
      assert a == [a[0]] + a[1..] && b == [b[0]] + b[1..];
    }
  }

  lemma QuoteIsPrefixFree(a: string, s: string, b: string, t: string)
    requires Quote(a) + s == Quote(b) + t
    ensures a == b && s == t
  {
    Regroup("\"", Closed(a), s);
    Regroup("\"", Closed(b), t);
    Cut("\"", Closed(a) + s, "\"", Closed(b) + t);
    ClosedIsPrefixFree(a, s, b, t);
  }

  lemma ShorterNumeral(a: Numeral, s: string, b: Numeral, t: string)
    requires Delimited(s) && a + s == b + t
    ensures |b| <= |a|
  {
    assert forall i :: 0 <= i < |b| ==> NumeralChar((b + t)[i]);
    assert s != "" ==> (a + s)[|a|] == s[0] && !NumeralChar(s[0]);
  }

  lemma NumeralIsPrefixFree(a: Numeral, s: string, b: Numeral, t: string)
    requires Delimited(s) && Delimited(t) && a + s == b + t
    ensures a == b && s == t
  {
    ShorterNumeral(a, s, b, t);
    ShorterNumeral(b, t, a, s);
    Cut(a, s, b, t);
  }

  /** The first character of a value's text says which kind of value it is. */
  function Kind(v: Json): nat {
    match v
    case Null => 0
    case Bool(b) => if b then 1 else 2
    case Num(_) => 3
    case Str(_) => 4
    case Arr(_) => 5
    case Obj(_) => 6
  }

  function KindOfChar(c: char): nat {
    if c == 'n' then 0 else if c == 't' then 1 else if c == 'f' then 2
    else if c == '\"' then 4 else if c == '[' then 5 else if c == '{' then 6
    else if NumeralChar(c) then 3 else 7
  }

  lemma FirstCharTellsKind(v: Json, s: string)
    ensures Text(v) != "" && KindOfChar((Text(v) + s)[0]) == Kind(v)
  {
    if v.Num? { assert NumeralChar(v.numeral[0]); }
  }

  lemma {:induction false} TextIsPrefixFree(a: Json, s: string, b: Json, t: string)
    requires Delimited(s) && Delimited(t) && Text(a) + s == Text(b) + t
    ensures a == b && s == t
    decreases a, 1
  {
    FirstCharTellsKind(a, s);
    FirstCharTellsKind(b, t);
    match a
    case Null => Cut("null", s, "null", t);
    case Bool(_) => Cut(Text(a), s, Text(b), t);
    case Num(_) => NumeralIsPrefixFree(a.numeral, s, b.numeral, t);
    case Str(_) => QuoteIsPrefixFree(a.s, s, b.s, t);
    case Arr(_) =>
      Regroup("[", ItemsText(a.items), s);
      Regroup("[", ItemsText(b.items), t);
      Cut("[", ItemsText(a.items) + s, "[", ItemsText(b.items) + t);
      ItemsArePrefixFree(a.items, s, b.items, t);
    case Obj(_) =>
      Regroup("{", MembersText(a.members), s);
      Regroup("{", MembersText(b.members), t);
      Cut("{", MembersText(a.members) + s, "{", MembersText(b.members) + t);
      MembersArePrefixFree(a.members, s, b.members, t);
  }

  lemma ItemsHead(x: seq<Json>, s: string)
    ensures ItemsText(x) != "" && ((ItemsText(x) + s)[0] == ']' <==> x == [])
  {
    if x != [] { FirstCharTellsKind(x[0], MoreItems(x[1..])); }
  }

  lemma {:induction false} ItemsArePrefixFree(x: seq<Json>, s: string, y: seq<Json>, t: string)
    requires ItemsText(x) + s == ItemsText(y) + t
    ensures x == y && s == t
    decreases x, 3
  {
    ItemsHead(x, s);
    ItemsHead(y, t);
    if x == [] {
      Cut("]", s, "]", t);
    } else {
      Regroup(Text(x[0]), MoreItems(x[1..]), s);
      Regroup(Text(y[0]), MoreItems(y[1..]), t);
      ItemStepIsPrefixFree(x, s, y, t);
    }
  }

  lemma {:induction false} ItemStepIsPrefixFree(x: seq<Json>, s: string, y: seq<Json>, t: string)
    requires x != [] && y != []
    requires Text(x[0]) + (MoreItems(x[1..]) + s) == Text(y[0]) + (MoreItems(y[1..]) + t)
    ensures x == y && s == t
    decreases x, 2
  {
    TextIsPrefixFree(x[0], MoreItems(x[1..]) + s, y[0], MoreItems(y[1..]) + t);
    MoreItemsArePrefixFree(x[1..], s, y[1..], t);
    assert x == [x[0]] + x[1..] && y == [y[0]] + y[1..];
  }

  lemma {:induction false} MoreItemsArePrefixFree(x: seq<Json>, s: string, y: seq<Json>, t: string)
    requires MoreItems(x) + s == MoreItems(y) + t
    ensures x == y && s == t
    decreases x, 3
  {
    assert (MoreItems(x) + s)[0] == MoreItems(x)[0] && (MoreItems(y) + t)[0] == MoreItems(y)[0];
    if x == [] {
      Cut("]", s, "]", t);
    } else {
      Regroup3(",", Text(x[0]), MoreItems(x[1..]), s);
      Regroup3(",", Text(y[0]), MoreItems(y[1..]), t);
      Cut(",", Text(x[0]) + (MoreItems(x[1..]) + s), ",", Text(y[0]) + (MoreItems(y[1..]) + t));
      ItemStepIsPrefixFree(x, s, y, t);
    }
  }

  lemma Regroup3(a: string, b: string, c: string, d: string)
    ensures (a + b + c) + d == a + (b + (c + d))
  {
  }

  lemma {:induction false} MemberIsPrefixFree(m: Member, s: string, n: Member, t: string)
    requires Delimited(s) && Delimited(t) && MemberText(m) + s == MemberText(n) + t
    ensures m == n && s == t
    decreases m, 1
  {
    Regroup3(Quote(m.key), ":", Text(m.value), s);
    Regroup3(Quote(n.key), ":", Text(n.value), t);
    QuoteIsPrefixFree(m.key, ":" + (Text(m.value) + s), n.key, ":" + (Text(n.value) + t));
    Cut(":", Text(m.value) + s, ":", Text(n.value) + t);
    TextIsPrefixFree(m.value, s, n.value, t);
  }

  lemma MembersHead(x: seq<Member>, s: string)
    ensures MembersText(x) != "" && ((MembersText(x) + s)[0] == '}' <==> x == [])
  {
    if x != [] { assert MembersText(x)[0] == Quote(x[0].key)[0]; }
  }

  lemma {:induction false} MembersArePrefixFree(x: seq<Member>, s: string, y: seq<Member>, t: string)
    requires MembersText(x) + s == MembersText(y) + t
    ensures x == y && s == t
    decreases x, 3
  {
    MembersHead(x, s);
    MembersHead(y, t);
    if x == [] {
      Cut("}", s, "}", t);
    } else {
      Regroup(MemberText(x[0]), MoreMembers(x[1..]), s);
      Regroup(MemberText(y[0]), MoreMembers(y[1..]), t);
      MemberStepIsPrefixFree(x, s, y, t);
    }
  }

  lemma {:induction false} MemberStepIsPrefixFree(x: seq<Member>, s: string, y: seq<Member>, t: string)
    requires x != [] && y != []
    requires MemberText(x[0]) + (MoreMembers(x[1..]) + s) == MemberText(y[0]) + (MoreMembers(y[1..]) + t)
    ensures x == y && s == t
    decreases x, 2
  {
    MemberIsPrefixFree(x[0], MoreMembers(x[1..]) + s, y[0], MoreMembers(y[1..]) + t);
    MoreMembersArePrefixFree(x[1..], s, y[1..], t);
    assert x == [x[0]] + x[1..] && y == [y[0]] + y[1..];
  }

  lemma {:induction false} MoreMembersArePrefixFree(x: seq<Member>, s: string, y: seq<Member>, t: string)
    requires MoreMembers(x) + s == MoreMembers(y) + t
    ensures x == y && s == t
    decreases x, 3
  {
    assert (MoreMembers(x) + s)[0] == MoreMembers(x)[0] && (MoreMembers(y) + t)[0] == MoreMembers(y)[0];
    if x == [] {
      Cut("}", s, "}", t);
    } else {
      Regroup3(",", MemberText(x[0]), MoreMembers(x[1..]), s);
      Regroup3(",", MemberText(y[0]), MoreMembers(y[1..]), t);
      Cut(",", MemberText(x[0]) + (MoreMembers(x[1..]) + s), ",", MemberText(y[0]) + (MoreMembers(y[1..]) + t));
      MemberStepIsPrefixFree(x, s, y, t);
    }
  }

  /** Two values with the same text are the same value, member order included. */
  lemma TextDeterminesValue(a: Json, b: Json)
    ensures Text(a) == Text(b) <==> a == b
  {
    if Text(a) == Text(b) {
      assert Text(a) + "" == Text(b) + "";
      TextIsPrefixFree(a, "", b, "");
    }
  }
}
