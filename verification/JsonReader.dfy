/** Reading JSON text back, as the rows of the hub and the cycle log are (JSON.parse), after
    RFC 8259, sections 3 to 7: whatever JSON.stringify wrote comes back as it was. Texts are
    compact, without white space between tokens. */
module JsonReader {
  import opened Wrappers
  import opened Texts
  import opened JsonText

  // ----- Strings -----

  function HexValue(c: char): Option<nat> {
    if '0' <= c <= '9' then Some(c as int - '0' as int)
    else if 'a' <= c <= 'f' then Some(c as int - 'a' as int + 10)
    else if 'A' <= c <= 'F' then Some(c as int - 'A' as int + 10)
    else None
  }

  /** The character of a `\u` escape's four digits. */
  function FromHex(digits: string): Option<char>
    requires |digits| == 4
  {
    var a, b, c, d := HexValue(digits[0]), HexValue(digits[1]), HexValue(digits[2]), HexValue(digits[3]);
    if a.None? || b.None? || c.None? || d.None? then None
    else
      var code := ((a.value * 16 + b.value) * 16 + c.value) * 16 + d.value;
      if code < 0xD800 || 0xE000 <= code < 0x10000 then Some(code as char) else None
  }

  /** The character of a two-character escape. */
  function Unescaped(c: char): Option<char> {
    if c == '\"' || c == '\\' || c == '/' then Some(c)
    else if c == 'b' then Some(8 as char)
    else if c == 'f' then Some(12 as char)
    else if c == 'n' then Some(10 as char)
    else if c == 'r' then Some(13 as char)
    else if c == 't' then Some(9 as char)
    else None
  }

  /** One character of a string literal and how long it is written. */
  function ReadChar(s: string): (r: Option<(char, nat)>)
    ensures r.Some? ==> 1 <= r.value.1 <= |s|
  {
    if s == "" || s[0] == '\"' || s[0] as int < 32 then None
    else if s[0] != '\\' then Some((s[0], 1))
    else if |s| < 2 then None
    else if s[1] != 'u' then
      (match Unescaped(s[1])
       case Some(c) => Some((c, 2))
       case None => None)
    else if |s| < 6 then None
    else match FromHex(s[2..6])
      case Some(c) => Some((c, 6))
      case None => None
  }

  /** The rest of a string literal, after its opening quote. */
  function ReadString(s: string): (r: Option<(string, string)>)
    ensures r.Some? ==> |r.value.1| < |s|
  {
    if s != "" && s[0] == '\"' then Some(("", s[1..]))
    else match ReadChar(s)
      case None => None
      case Some((c, n)) =>
        match ReadString(s[n..])
        case None => None
        case Some((more, rest)) => Some(([c] + more, rest))
  }

  // ----- Values -----

  function NumeralLength(s: string): (n: nat)
    ensures n <= |s| && forall i :: 0 <= i < n ==> NumeralChar(s[i])
  {
    if s != "" && NumeralChar(s[0]) then 1 + NumeralLength(s[1..]) else 0
  }

  function ReadWord(s: string, word: string, v: Json): (r: Option<(Json, string)>)
    requires word != ""
    ensures r.Some? ==> |r.value.1| < |s|
  {
    if word <= s then Some((v, s[|word|..])) else None
  }

  function ReadValue(s: string): (r: Option<(Json, string)>)
    ensures r.Some? ==> |r.value.1| < |s|
    decreases |s|, 0
  {
    if s == "" then None
    else if s[0] == 'n' then ReadWord(s, "null", Null)
    else if s[0] == 't' then ReadWord(s, "true", Bool(true))
    else if s[0] == 'f' then ReadWord(s, "false", Bool(false))
    else if s[0] == '\"' then
      (match ReadString(s[1..])
       case None => None
       case Some((text, rest)) => Some((Str(text), rest)))
    else if s[0] == '[' then
      if |s| > 1 && s[1] == ']' then Some((Arr([]), s[2..]))
      else
        (match ReadItems(s[1..])
         case None => None
         case Some((items, rest)) => Some((Arr(items), rest)))
    else if s[0] == '{' then
      if |s| > 1 && s[1] == '}' then Some((Obj([]), s[2..]))
      else
        (match ReadMembers(s[1..])
         case None => None
         case Some((members, rest)) => Some((Obj(members), rest)))
    else
      var n := NumeralLength(s);
      if n == 0 then None else Some((Num(s[..n]), s[n..]))
  }

  /** Values up to the closing bracket, one at least. */
  function ReadItems(s: string): (r: Option<(seq<Json>, string)>)
    ensures r.Some? ==> |r.value.1| < |s|
    decreases |s|, 1
  {
    match ReadValue(s)
    case None => None
    case Some((v, rest)) =>
      if rest == "" then None
      else if rest[0] == ']' then Some(([v], rest[1..]))
      else if rest[0] != ',' then None
      else
        (match ReadItems(rest[1..])
         case None => None
         case Some((items, end)) => Some(([v] + items, end)))
  }

  function ReadMember(s: string): (r: Option<(Member, string)>)
    ensures r.Some? ==> |r.value.1| < |s|
    decreases |s|, 1
  {
    if s == "" || s[0] != '\"' then None
    else match ReadString(s[1..])
      case None => None
      case Some((key, rest)) =>
        if rest == "" || rest[0] != ':' then None
        else
          (match ReadValue(rest[1..])
           case None => None
           case Some((v, end)) => Some((Member(key, v), end)))
  }

  /** Members up to the closing brace, one at least. */
  function ReadMembers(s: string): (r: Option<(seq<Member>, string)>)
    ensures r.Some? ==> |r.value.1| < |s|
    decreases |s|, 2
  {
    match ReadMember(s)
    case None => None
    case Some((m, rest)) =>
      if rest == "" then None
      else if rest[0] == '}' then Some(([m], rest[1..]))
      else if rest[0] != ',' then None
      else
        (match ReadMembers(rest[1..])
         case None => None
         case Some((members, end)) => Some(([m] + members, end)))
  }

  /** `JSON.parse`: one value and nothing after it. */
  function Parse(s: string): Option<Json> {
    match ReadValue(s)
    case Some((v, rest)) => if rest == "" then Some(v) else None
    case None => None
  }

  // ----- Strings come back -----

  lemma HexDigitIsRead(n: nat)
    requires n < 16
    ensures HexValue(HexDigit(n)) == Some(n)
  {
  }

  lemma HexIsRead(c: char, rest: string)
    requires |EscapeChar(c)| == 6
    ensures ReadChar(EscapeChar(c) + rest) == Some((c, 6))
  {
    var s, n := EscapeChar(c) + rest, c as int;
    HexDigitIsRead(n / 16);
    HexDigitIsRead(n % 16);
    assert s[0] == '\\' && s[1] == 'u';
    assert s[2..6] == ['0', '0', HexDigit(n / 16), HexDigit(n % 16)];
    assert n / 16 * 16 + n % 16 == n;
  }

  lemma EscapedIsRead(c: char, rest: string)
    ensures ReadChar(EscapeChar(c) + rest) == Some((c, |EscapeChar(c)|))
    ensures (EscapeChar(c) + rest)[|EscapeChar(c)|..] == rest
    ensures (EscapeChar(c) + rest)[0] != '\"'
  {
    var s := EscapeChar(c) + rest;
    assert s[0] == EscapeChar(c)[0];
    if |EscapeChar(c)| == 6 { HexIsRead(c, rest); }
    if |EscapeChar(c)| == 2 { assert s[1] == EscapeChar(c)[1]; }
  }

  lemma {:induction false} StringIsRead(s: string, rest: string)
    ensures ReadString(Closed(s) + rest) == Some((s, rest))
  {
    if s == "" {
      assert ("\"" + rest)[1..] == rest;
    } else {
      Regroup(EscapeChar(s[0]), Closed(s[1..]), rest);
      EscapedIsRead(s[0], Closed(s[1..]) + rest);
      StringIsRead(s[1..], rest);
      assert [s[0]] + s[1..] == s;
    }
  }

  lemma QuoteIsRead(s: string, rest: string)
    ensures var t := Quote(s) + rest; t[0] == '\"' && ReadString(t[1..]) == Some((s, rest))
  {
    Regroup("\"", Closed(s), rest);
    assert ("\"" + (Closed(s) + rest))[1..] == Closed(s) + rest;
    StringIsRead(s, rest);
  }

  // ----- Values come back -----

  lemma {:induction false} NumeralIsRead(n: string, rest: string)
    requires Delimited(rest) && forall i :: 0 <= i < |n| ==> NumeralChar(n[i])
    ensures NumeralLength(n + rest) == |n|
  {
    if n == "" {
      assert n + rest == rest;
    } else {
      assert (n + rest)[1..] == n[1..] + rest;
      NumeralIsRead(n[1..], rest);
    }
  }

  lemma {:induction false} ValueIsRead(v: Json, rest: string)
    requires Delimited(rest)
    ensures ReadValue(Text(v) + rest) == Some((v, rest))
    decreases v, 2
  {
    var s := Text(v) + rest;
    FirstCharTellsKind(v, rest);
    match v
    case Null => assert s[..4] == "null" && s[4..] == rest;
    case Bool(b) => assert s[|Text(v)|..] == rest && Text(v) <= s;
    case Num(n) =>
      NumeralIsRead(n, rest);
      assert s[..|n|] == n && s[|n|..] == rest;
      NumeralStart(n, rest);
    case Str(t) => QuoteIsRead(t, rest);
    case Arr(items) =>
      Regroup("[", ItemsText(items), rest);
      assert s[1..] == ItemsText(items) + rest;
      ItemsHead(items, rest);
      if items == [] { assert s[2..] == rest; } else { ItemsAreRead(items, rest); }
    case Obj(members) =>
      Regroup("{", MembersText(members), rest);
      assert s[1..] == MembersText(members) + rest;
      MembersHead(members, rest);
      if members == [] { assert s[2..] == rest; } else { MembersAreRead(members, rest); }
  }

  lemma NumeralStart(n: Numeral, rest: string)
    ensures var c := (n + rest)[0];
            c != 'n' && c != 't' && c != 'f' && c != '\"' && c != '[' && c != '{'
  {
    assert NumeralChar(n[0]);
  }

  lemma {:induction false} ItemsAreRead(items: seq<Json>, rest: string)
    requires items != []
    ensures ReadItems(ItemsText(items) + rest) == Some((items, rest))
    decreases items, 1
  {
    var more := MoreItems(items[1..]) + rest;
    Regroup(Text(items[0]), MoreItems(items[1..]), rest);
    assert more[0] == MoreItems(items[1..])[0];
    ValueIsRead(items[0], more);
    if items[1..] == [] {
      assert more[1..] == rest && items == [items[0]];
    } else {
      MoreItemsIs(items[1..]);
      Regroup(",", ItemsText(items[1..]), rest);
      assert more[1..] == ItemsText(items[1..]) + rest;
      ItemsAreRead(items[1..], rest);
      assert items == [items[0]] + items[1..];
    }
  }

  lemma MoreItemsIs(items: seq<Json>)
    requires items != []
    ensures MoreItems(items) == "," + ItemsText(items)
  {
    Regroup(",", Text(items[0]), MoreItems(items[1..]));
  }

  lemma {:induction false} MembersAreRead(members: seq<Member>, rest: string)
    requires members != []
    ensures ReadMembers(MembersText(members) + rest) == Some((members, rest))
    decreases members, 1
  {
    var more := MoreMembers(members[1..]) + rest;
    Regroup(MemberText(members[0]), MoreMembers(members[1..]), rest);
    assert more[0] == MoreMembers(members[1..])[0];
    MemberIsRead(members[0], more);
    if members[1..] == [] {
      assert more[1..] == rest && members == [members[0]];
    } else {
      MoreMembersIs(members[1..]);
      Regroup(",", MembersText(members[1..]), rest);
      assert more[1..] == MembersText(members[1..]) + rest;
      MembersAreRead(members[1..], rest);
      assert members == [members[0]] + members[1..];
    }
  }

  lemma MoreMembersIs(members: seq<Member>)
    requires members != []
    ensures MoreMembers(members) == "," + MembersText(members)
  {
    Regroup(",", MemberText(members[0]), MoreMembers(members[1..]));
  }

  lemma {:induction false} MemberIsRead(m: Member, rest: string)
    requires Delimited(rest)
    ensures ReadMember(MemberText(m) + rest) == Some((m, rest))
    decreases m, 3
  {
    var more := ":" + (Text(m.value) + rest);
    Regroup3(Quote(m.key), ":", Text(m.value), rest);
    QuoteIsRead(m.key, more);
    assert more[1..] == Text(m.value) + rest;
    ValueIsRead(m.value, rest);
  }

  /** Every value comes back from its text, its members in their order. */
  lemma TextReadsBack(v: Json)
    ensures Parse(Text(v)) == Some(v)
  {
    assert Text(v) + "" == Text(v);
    ValueIsRead(v, "");
  }
}
