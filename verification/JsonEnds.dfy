/** Reading a JSON text from the left: where its strings and brackets are. After a colon, no
    object's text is the end of another's, so that a text in front of an object's text and a
    colon can be told from it, whatever colons the two hold. */
module JsonEnds {
  import opened JsonText

  /** Outside of strings, inside of one or after a backslash in it, with the brackets open;
      or lost, at a backslash outside of strings. */
  datatype Place = Out(depth: int) | In(depth: int) | Escaped(depth: int) | Lost

  function Step(p: Place, c: char): Place {
    match p
    case Out(d) =>
      if c == '"' then In(d)
      else if c == '\\' then Lost
      else if c == '{' || c == '[' then Out(d + 1)
      else if c == '}' || c == ']' then Out(d - 1)
      else Out(d)
    case In(d) => if c == '"' then Out(d) else if c == '\\' then Escaped(d) else In(d)
    case Escaped(d) => In(d)
    case Lost => Lost
  }

  function Scan(p: Place, t: string): Place
    decreases |t|
  {
    if t == "" then p else Scan(Step(p, t[0]), t[1..])
  }

  predicate AtLeast(p: Place, d: int) {
    !p.Lost? && p.depth >= d
  }

  /** Before each character of the text, at least `d` brackets are open. */
  predicate Stays(p: Place, t: string, d: int)
    decreases |t|
  {
    t == "" || (AtLeast(p, d) && Stays(Step(p, t[0]), t[1..], d))
  }

  /** The text leads from one place to another, never above the depth on the way. */
  predicate Walks(p: Place, t: string, q: Place, d: int) {
    Scan(p, t) == q && Stays(p, t, d)
  }

  lemma {:induction false} ScanConcat(p: Place, a: string, b: string)
    ensures Scan(p, a + b) == Scan(Scan(p, a), b)
    decreases |a|
  {
    if a == "" {
      assert a + b == b;
    } else {
      assert (a + b)[1..] == a[1..] + b;
      ScanConcat(Step(p, a[0]), a[1..], b);
    }
  }

  lemma {:induction false} StaysConcat(p: Place, a: string, b: string, d: int)
    ensures Stays(p, a + b, d) <==> Stays(p, a, d) && Stays(Scan(p, a), b, d)
    decreases |a|
  {
    if a == "" {
      assert a + b == b;
    } else {
      assert (a + b)[1..] == a[1..] + b;
      StaysConcat(Step(p, a[0]), a[1..], b, d);
    }
  }

  lemma WalksThen(p: Place, a: string, q: Place, b: string, r: Place, d: int)
    requires Walks(p, a, q, d) && Walks(q, b, r, d)
    ensures Walks(p, a + b, r, d)
  {
    ScanConcat(p, a, b);
    StaysConcat(p, a, b, d);
  }

  lemma {:induction false} StaysAbove(p: Place, t: string, d: int, e: int)
    requires Stays(p, t, d) && e <= d
    ensures Stays(p, t, e)
    decreases |t|
  {
    if t != "" { StaysAbove(Step(p, t[0]), t[1..], d, e); }
  }

  // ----- JSON texts keep their places -----

  /** A stretch without quotes, backslashes and brackets. */
  predicate Dull(t: string) {
    forall i :: 0 <= i < |t| ==> t[i] !in "\"\\{}[]"
  }

  lemma {:induction false} DullWalks(t: string, d: int)
    requires Dull(t)
    ensures Walks(Out(d), t, Out(d), d)
  {
    if t != "" { DullWalks(t[1..], d); }
  }

  lemma EscapeWalks(c: char, d: int)
    ensures Walks(In(d), EscapeChar(c), In(d), d)
  {
    var t := EscapeChar(c);
    if |t| == 1 {
      assert t[1..] == "";
    } else if |t| == 2 {
      assert t[0] == '\\' && t[1..] == [t[1]] && [t[1]][1..] == "";
      assert Scan(Escaped(d), [t[1]]) == Scan(In(d), "");
    } else {
      HexWalks(t, d);
    }
  }

  /** A backslash and five ordinary characters. */
  lemma HexWalks(t: string, d: int)
    requires |t| == 6 && t[0] == '\\' && forall i :: 1 <= i < 6 ==> t[i] != '"' && t[i] != '\\'
    ensures Walks(In(d), t, In(d), d)
  {
    OrdinaryWalks(t[2..], d);
    assert t[1..][1..] == t[2..];
  }

  lemma {:induction false} OrdinaryWalks(t: string, d: int)
    requires forall i :: 0 <= i < |t| ==> t[i] != '"' && t[i] != '\\'
    ensures Walks(In(d), t, In(d), d)
  {
    if t != "" { OrdinaryWalks(t[1..], d); }
  }

  lemma {:induction false} ClosedWalks(s: string, d: int)
    ensures Walks(In(d), Closed(s), Out(d), d)
  {
    if s == "" {
      assert "\""[1..] == "";
    } else {
      EscapeWalks(s[0], d);
      ClosedWalks(s[1..], d);
      WalksThen(In(d), EscapeChar(s[0]), In(d), Closed(s[1..]), Out(d), d);
    }
  }

  lemma QuoteWalks(s: string, d: int)
    ensures Walks(Out(d), Quote(s), Out(d), d)
  {
    ClosedWalks(s, d);
    assert Quote(s)[0] == '"' && Quote(s)[1..] == Closed(s);
  }

  /** An opening bracket and what closes it. */
  lemma OpenWalks(open: string, rest: string, d: int)
    requires (open == "{" || open == "[") && Walks(Out(d + 1), rest, Out(d), d + 1)
    ensures Walks(Out(d), open + rest, Out(d), d)
  {
    assert (open + rest)[0] == open[0] && (open + rest)[1..] == rest;
    StaysAbove(Out(d + 1), rest, d + 1, d);
  }

  lemma CloseWalks(close: string, d: int)
    requires close == "}" || close == "]"
    ensures Walks(Out(d + 1), close, Out(d), d + 1)
  {
    assert close[1..] == "";
  }

  /** A value's text ends where it started, and never closes a bracket it did not open. */
  lemma {:induction false} TextWalks(v: Json, d: int)
    ensures Walks(Out(d), Text(v), Out(d), d)
    decreases v, 0
  {
    match v
    case Null => DullWalks("null", d);
    case Bool(b) => DullWalks(if b then "true" else "false", d);
    case Num(n) =>
      assert forall i :: 0 <= i < |n| ==> NumeralChar(n[i]);
      DullWalks(n, d);
    case Str(s) => QuoteWalks(s, d);
    case Arr(items) =>
      ItemsWalk(items, d);
      OpenWalks("[", ItemsText(items), d);
    case Obj(members) =>
      MembersWalk(members, d);
      OpenWalks("{", MembersText(members), d);
  }

  lemma {:induction false} ItemsWalk(items: seq<Json>, d: int)
    ensures Walks(Out(d + 1), ItemsText(items), Out(d), d + 1)
    decreases items, 1
  {
    if items == [] {
      CloseWalks("]", d);
    } else {
      TextWalks(items[0], d + 1);
      MoreItemsWalk(items[1..], d);
      WalksThen(Out(d + 1), Text(items[0]), Out(d + 1), MoreItems(items[1..]), Out(d), d + 1);
    }
  }

  lemma {:induction false} MoreItemsWalk(items: seq<Json>, d: int)
    ensures Walks(Out(d + 1), MoreItems(items), Out(d), d + 1)
    decreases items, 1
  {
    if items == [] {
      CloseWalks("]", d);
    } else {
      DullWalks(",", d + 1);
      TextWalks(items[0], d + 1);
      WalksThen(Out(d + 1), ",", Out(d + 1), Text(items[0]), Out(d + 1), d + 1);
      MoreItemsWalk(items[1..], d);
      WalksThen(Out(d + 1), "," + Text(items[0]), Out(d + 1), MoreItems(items[1..]), Out(d), d + 1);
    }
  }

  lemma {:induction false} MemberWalks(m: Member, d: int)
    ensures Walks(Out(d), MemberText(m), Out(d), d)
    decreases m, 1
  {
    QuoteWalks(m.key, d);
    DullWalks(":", d);
    WalksThen(Out(d), Quote(m.key), Out(d), ":", Out(d), d);
    TextWalks(m.value, d);
    WalksThen(Out(d), Quote(m.key) + ":", Out(d), Text(m.value), Out(d), d);
  }

  lemma {:induction false} MembersWalk(members: seq<Member>, d: int)
    ensures Walks(Out(d + 1), MembersText(members), Out(d), d + 1)
    decreases members, 1
  {
    if members == [] {
      CloseWalks("}", d);
    } else {
      MemberWalks(members[0], d + 1);
      MoreMembersWalk(members[1..], d);
      WalksThen(Out(d + 1), MemberText(members[0]), Out(d + 1), MoreMembers(members[1..]), Out(d), d + 1);
    }
  }

  lemma {:induction false} MoreMembersWalk(members: seq<Member>, d: int)
    ensures Walks(Out(d + 1), MoreMembers(members), Out(d), d + 1)
    decreases members, 1
  {
    if members == [] {
      CloseWalks("}", d);
    } else {
      DullWalks(",", d + 1);
      MemberWalks(members[0], d + 1);
      WalksThen(Out(d + 1), ",", Out(d + 1), MemberText(members[0]), Out(d + 1), d + 1);
      MoreMembersWalk(members[1..], d);
      WalksThen(Out(d + 1), "," + MemberText(members[0]), Out(d + 1), MoreMembers(members[1..]), Out(d), d + 1);
    }
  }

  // ----- No object's text is the end of another's after a colon -----

  /** Read from inside a string, what is outside becomes inside and the other way round. */
  lemma {:induction false} InsideOut(t: string, d: int, e: int)
    requires !Scan(Out(d), t).Lost? && !Scan(In(e), t).Lost?
    ensures Scan(Out(d), t).Out? <==> Scan(In(e), t).In?
    ensures Scan(Out(d), t).In? <==> Scan(In(e), t).Out?
    decreases |t|, 0
  {
    if t != "" {
      if t[0] == '"' {
        OutsideIn(t[1..], d, e);
      } else if t[0] == '\\' {
        LostStays(t[1..]);
      } else {
        var next := Step(Out(d), t[0]);
        InsideOut(t[1..], next.depth, e);
      }
    }
  }

  lemma {:induction false} OutsideIn(t: string, d: int, e: int)
    requires !Scan(In(d), t).Lost? && !Scan(Out(e), t).Lost?
    ensures Scan(In(d), t).Out? <==> Scan(Out(e), t).In?
    ensures Scan(In(d), t).In? <==> Scan(Out(e), t).Out?
    decreases |t|, 0
  {
    if t != "" {
      if t[0] == '"' {
        InsideOut(t[1..], d, e);
      } else if t[0] == '\\' {
        LostStays(t[1..]);
      } else {
        var next := Step(Out(e), t[0]);
        OutsideIn(t[1..], d, next.depth);
      }
    }
  }

  lemma {:induction false} LostStays(t: string)
    ensures Scan(Lost, t) == Lost
  {
    if t != "" { LostStays(t[1..]); }
  }

  lemma {:induction false} ShiftedScan(t: string, d: int, e: int)
    requires Scan(Out(d), t) == Out(d)
    ensures Scan(Out(e), t) == Out(e)
  {
    ShiftedPlace(Out(d), t, e - d);
  }

  function Shift(p: Place, n: int): Place {
    if p.Lost? then p else p.(depth := p.depth + n)
  }

  lemma {:induction false} ShiftedPlace(p: Place, t: string, n: int)
    ensures Scan(Shift(p, n), t) == Shift(Scan(p, t), n)
    decreases |t|
  {
    if t != "" {
      assert Step(Shift(p, n), t[0]) == Shift(Step(p, t[0]), n);
      ShiftedPlace(Step(p, t[0]), t[1..], n);
    }
  }

  /** Inside an object's text, before its last bracket, some bracket is open. */
  lemma InsideIsDeep(members: seq<Member>, front: string, rest: string)
    requires Text(Obj(members)) == front + rest && front != "" && rest != ""
    ensures AtLeast(Scan(Out(0), front), 1) && Scan(Scan(Out(0), front), rest) == Out(0)
  {
    var t, inner := Text(Obj(members)), MembersText(members);
    assert t[0] == '{' && t[1..] == inner && front[0] == t[0] && inner == front[1..] + rest;
    MembersWalk(members, 0);
    StaysConcat(Out(1), front[1..], rest, 1);
    ScanConcat(Out(1), front[1..], rest);
  }

  lemma ColonIsPlain(front: string)
    ensures !Scan(Out(0), front + ":").Escaped?
  {
    ScanConcat(Out(0), front, ":");
    var p := Scan(Out(0), front);
    assert ":"[1..] == "" && Scan(p, ":") == Step(p, ':');
  }

  /** No object's text is the end of another's after a colon. */
  lemma NoObjectEndsAnother(a: seq<Member>, b: seq<Member>, front: string)
    ensures Text(Obj(a)) != front + ":" + Text(Obj(b))
  {
    var t := Text(Obj(b));
    if Text(Obj(a)) == front + ":" + t {
      InsideIsDeep(a, front + ":", t);
      ColonIsPlain(front);
      var p := Scan(Out(0), front + ":");
      TextWalks(Obj(b), 0);
      if p.Out? {
        ShiftedScan(t, 0, p.depth);
      } else {
        InsideOut(t, 0, p.depth);
      }
    }
  }

  /** A text in front of a colon and an object is told from it. */
  lemma FrontOfObject(x: string, a: seq<Member>, y: string, b: seq<Member>)
    requires x + ":" + Text(Obj(a)) == y + ":" + Text(Obj(b))
    ensures x == y && a == b
  {
    if |x| < |y| {
      FrontsDiffer(x, a, y, b);
    } else if |y| < |x| {
      FrontsDiffer(y, b, x, a);
    } else {
      Cut(x + ":", Text(Obj(a)), y + ":", Text(Obj(b)));
      assert x == (x + ":")[..|x|] && y == (y + ":")[..|y|];
      TextDeterminesValue(Obj(a), Obj(b));
    }
  }

  lemma FrontsDiffer(x: string, a: seq<Member>, y: string, b: seq<Member>)
    requires |x| < |y|
    ensures x + ":" + Text(Obj(a)) != y + ":" + Text(Obj(b))
  {
    var s, t := x + ":" + Text(Obj(a)), y + ":" + Text(Obj(b));
    if s == t {
      var middle := y[|x| + 1..];
      assert s[|x|] == ':' && t[..|y|] == y && s[|x| + 1..] == Text(Obj(a));
      assert t[|x| + 1..] == middle + ":" + Text(Obj(b));
      NoObjectEndsAnother(a, b, middle);
    }
  }
}
