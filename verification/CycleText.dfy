/** The events of a cycle and the line each is hashed by (src/services/CycleLog.ts:23-46,
    189-200): five fields and the payload's JSON, joined by colons. Within one cycle the line
    tells everything; across cycles it does when no cycle id runs on like another's line. */
module CycleText {
  import opened Texts
  import opened JsonText
  import opened JsonEnds

  const KINDS := [
    "cycle_started", "phase_transition", "task_claimed", "task_running", "dispatch_sent", "dispatch_reply",
    "retry_scheduled", "retry_exhausted", "verifier_scored", "stop_decision", "receipt_issued", "cycle_sealed",
    "cycle_failed"]

  type Kind = s: string | s in KINDS witness "cycle_started"

  /** A payload is an object; the table holds its text, which tells the object. */
  type Payload = v: Json | v.Obj? witness Obj([])

  datatype Row = Row(kind: Kind, timestamp: int, actor: string, payload: Payload)

  datatype CycleEvent = CycleEvent(cycleId: string, seqNo: nat, row: Row)

  function Field(text: string, rest: string): string {
    text + ":" + rest
  }

  function RowLine(row: Row): string {
    Field(row.kind, Field(Decimal(row.timestamp), Field(row.actor, Text(row.payload))))
  }

  function EventLine(e: CycleEvent): string {
    Field(e.cycleId, Field(Decimal(e.seqNo), RowLine(e.row)))
  }

  /** The text that is hashed, from left to right. */
  lemma EventLineIs(e: CycleEvent)
    ensures EventLine(e) ==
            e.cycleId + ":" + Decimal(e.seqNo) + ":" + e.row.kind + ":" + Decimal(e.row.timestamp) + ":" + e.row.actor
            + ":" + Text(e.row.payload)
  {
    var front := e.cycleId + ":" + Decimal(e.seqNo) + ":" + e.row.kind + ":" + Decimal(e.row.timestamp) + ":";
    Regroup(front, e.row.actor + ":", Text(e.row.payload));
    Regroup(front, e.row.actor, ":");
    FieldRegroups(e.cycleId + ":" + Decimal(e.seqNo) + ":" + e.row.kind, Decimal(e.row.timestamp),
                  Field(e.row.actor, Text(e.row.payload)));
    FieldRegroups(e.cycleId + ":" + Decimal(e.seqNo), e.row.kind,
                  Field(Decimal(e.row.timestamp), Field(e.row.actor, Text(e.row.payload))));
    FieldRegroups(e.cycleId, Decimal(e.seqNo), RowLine(e.row));
  }

  /** Two fields and a rest, grouped from either side. */
  lemma FieldRegroups(a: string, b: string, rest: string)
    ensures Field(a, Field(b, rest)) == a + ":" + b + ":" + rest
  {
    Regroup(a + ":", b + ":", rest);
    Regroup(a + ":", b, ":");
  }

  // ----- Fields -----

  /** A field without a colon is read back, or the other one starts with it. */
  lemma FieldSplit(p: string, s: string, q: string, t: string) returns (rest: string)
    requires ':' !in p && Field(p, s) == Field(q, t)
    ensures (q == p && t == s) || (q == Field(p, rest) && s == Field(rest, t))
  {
    var u, v := Field(p, s), Field(q, t);
    assert u[..|p|] == p && u[|p|] == ':' && v[..|q|] == q && v[|q|] == ':';
    assert forall i :: 0 <= i < |p| ==> u[i] == p[i] && u[i] != ':';
    assert |p| <= |q|;
    rest := "";
    if |q| == |p| {
      SameLengthField(p, s, q, t);
    } else {
      rest := q[|p| + 1..];
      LongerField(p, s, q, t);
    }
  }

  lemma LongerField(p: string, s: string, q: string, t: string)
    requires |p| < |q| && Field(p, s) == Field(q, t)
    ensures q == Field(p, q[|p| + 1..]) && s == Field(q[|p| + 1..], t)
  {
    var u, v := Field(p, s), Field(q, t);
    assert q == v[..|q|] == u[..|q|];
    assert u[|p|] == ':' && p == u[..|p|];
    assert s == u[|p| + 1..] == v[|p| + 1..] == q[|p| + 1..] + ":" + t;
  }

  lemma SameLengthField(p: string, s: string, q: string, t: string)
    requires |p| == |q| && Field(p, s) == Field(q, t)
    ensures p == q && s == t
  {
    var u, v := Field(p, s), Field(q, t);
    assert p == u[..|p|] && q == v[..|q|] && s == u[|p| + 1..] && t == v[|q| + 1..];
  }

  lemma FieldCut(p: string, s: string, q: string, t: string)
    requires ':' !in p && ':' !in q && Field(p, s) == Field(q, t)
    ensures p == q && s == t
  {
    var rest := FieldSplit(p, s, q, t);
    assert Field(p, rest)[|p|] == ':';
  }

  lemma FieldRegroup(a: string, b: string, c: string)
    ensures Field(Field(a, b), c) == Field(a, Field(b, c))
  {
  }

  lemma TailOfFields(a: string, b: string, c: string, rest: string)
    ensures Field(a, Field(b, Field(c, rest))) == Field(a, Field(b, c)) + (":" + rest)
  {
    FieldRegroup(b, c, rest);
    FieldRegroup(a, Field(b, c), rest);
    Regroup(Field(a, Field(b, c)), ":", rest);
  }

  lemma DecimalHasNoColon(n: int)
    ensures ':' !in Decimal(n) && (Decimal(n)[..1] == "-" || '0' <= Decimal(n)[0] <= '9')
  {
    DigitsAreDigits(if n < 0 then -n else n);
  }

  lemma KindIsWord(k: Kind)
    ensures k != "" && 'a' <= k[0] <= 'z' && ':' !in k
  {
    var i :| 0 <= i < |KINDS| && KINDS[i] == k;
  }

  // ----- Within one cycle -----

  lemma RowLineDeterminesRow(a: Row, b: Row)
    requires RowLine(a) == RowLine(b)
    ensures a == b
  {
    KindIsWord(a.kind);
    KindIsWord(b.kind);
    DecimalHasNoColon(a.timestamp);
    DecimalHasNoColon(b.timestamp);
    var x, y := Field(a.actor, Text(a.payload)), Field(b.actor, Text(b.payload));
    FieldCut(a.kind, Field(Decimal(a.timestamp), x), b.kind, Field(Decimal(b.timestamp), y));
    FieldCut(Decimal(a.timestamp), x, Decimal(b.timestamp), y);
    DecimalDeterminesNumber(a.timestamp, b.timestamp);
    FrontOfObject(a.actor, a.payload.members, b.actor, b.payload.members);
  }

  /** Two events of one cycle have the same line exactly when they are the same event,
      whatever colons ids, actors and payloads hold. */
  lemma LineDeterminesEvent(e: CycleEvent, f: CycleEvent)
    requires e.cycleId == f.cycleId
    ensures EventLine(e) == EventLine(f) <==> e == f
  {
    if EventLine(e) == EventLine(f) {
      var x, y := Field(Decimal(e.seqNo), RowLine(e.row)), Field(Decimal(f.seqNo), RowLine(f.row));
      SameLengthField(e.cycleId, x, f.cycleId, y);
      DecimalHasNoColon(e.seqNo);
      DecimalHasNoColon(f.seqNo);
      FieldCut(Decimal(e.seqNo), RowLine(e.row), Decimal(f.seqNo), RowLine(f.row));
      DecimalDeterminesNumber(e.seqNo, f.seqNo);
      RowLineDeterminesRow(e.row, f.row);
    }
  }

  // ----- Across cycles -----

  /** Nothing, a time stamp, or a time stamp, a colon and anything. */
  ghost predicate StampTail(tail: string, stamp: int, more: string) {
    tail == "" || tail == ":" + Decimal(stamp) || tail == ":" + Field(Decimal(stamp), more)
  }

  /** `d` is `c`, a number, a kind and perhaps a time stamp and more: the way a line of
      cycle `c` begins. */
  ghost predicate RunsOnAs(c: string, d: string, n: nat, k: Kind, tail: string) {
    d == Field(c, Field(Decimal(n), k)) + tail
  }

  ghost predicate RunsOn(c: string, d: string) {
    exists n, k, tail, stamp, more :: RunsOnAs(c, d, n, k, tail) && StampTail(tail, stamp, more)
  }

  ghost predicate LinesMeet(c: string, d: string) {
    exists e: CycleEvent, f: CycleEvent :: e.cycleId == c && f.cycleId == d && EventLine(e) == EventLine(f)
  }

  lemma NumberIsNoKind(n: int, k: Kind)
    ensures Decimal(n) != k
  {
    DecimalHasNoColon(n);
    KindIsWord(k);
    assert Decimal(n)[..1] == "-" ==> Decimal(n)[0] == '-';
  }

  /** The fields of the shorter id's line show up in the longer id, one by one. */
  lemma MeetingRunsOn(e: CycleEvent, f: CycleEvent)
    requires |e.cycleId| <= |f.cycleId| && e.cycleId != f.cycleId && EventLine(e) == EventLine(f)
    ensures RunsOn(e.cycleId, f.cycleId)
  {
    var c, d, n, k, stamp := e.cycleId, f.cycleId, e.seqNo, e.row.kind, e.row.timestamp;
    var x, y := Field(Decimal(n), RowLine(e.row)), Field(Decimal(f.seqNo), RowLine(f.row));
    var w := Field(e.row.actor, Text(e.row.payload));
    if |c| == |d| { SameLengthField(c, x, d, y); }
    LongerField(c, x, d, y);
    var r := d[|c| + 1..];
    DecimalHasNoColon(n);
    var r2 := FieldSplit(Decimal(n), RowLine(e.row), r, y);
    if r == Decimal(n) && y == RowLine(e.row) {
      KindIsWord(k);
      DecimalHasNoColon(f.seqNo);
      FieldCut(k, Field(Decimal(stamp), w), Decimal(f.seqNo), RowLine(f.row));
      NumberIsNoKind(f.seqNo, k);
    } else {
      KindIsWord(k);
      var r3 := FieldSplit(k, Field(Decimal(stamp), w), r2, y);
      if r2 == k {
        RunsOnPlain(c, d, n, k);
      } else {
        DecimalHasNoColon(stamp);
        var r4 := FieldSplit(Decimal(stamp), w, r3, y);
        RunsOnStamp(c, d, n, k, stamp, r3, r4);
      }
    }
  }

  lemma RunsOnPlain(c: string, d: string, n: nat, k: Kind)
    requires d == Field(c, Field(Decimal(n), k))
    ensures RunsOn(c, d)
  {
    assert d == Field(c, Field(Decimal(n), k)) + "";
    assert RunsOnAs(c, d, n, k, "") && StampTail("", 0, "");
  }

  lemma RunsOnStamp(c: string, d: string, n: nat, k: Kind, stamp: int, r: string, more: string)
    requires d == Field(c, Field(Decimal(n), Field(k, r)))
    requires r == Decimal(stamp) || r == Field(Decimal(stamp), more)
    ensures RunsOn(c, d)
  {
    TailOfFields(c, Decimal(n), k, r);
    assert RunsOnAs(c, d, n, k, ":" + r) && StampTail(":" + r, stamp, more);
  }

  /** What the line of an event of the longer id holds after the id, as a line's last two fields. */
  function Swallowed(): string {
    Field("cycle_started", Field(Decimal(0), ""))
  }

  /** The event of the longer id. */
  function PlainEvent(d: string): CycleEvent {
    CycleEvent(d, 0, Row("cycle_started", 0, "", Obj([])))
  }

  lemma PlainLine(d: string)
    ensures RowLine(PlainEvent(d).row) == Field(Swallowed(), Text(Obj([])))
    ensures Field(Decimal(0), RowLine(PlainEvent(d).row)) == Field(Field(Decimal(0), Swallowed()), Text(Obj([])))
  {
    FieldRegroup("cycle_started", Field(Decimal(0), ""), Text(Obj([])));
    FieldRegroup(Decimal(0), "", Text(Obj([])));
    FieldRegroup(Decimal(0), Swallowed(), Text(Obj([])));
  }

  lemma RunningOnMeets(c: string, d: string, n: nat, k: Kind, tail: string, stamp: int, more: string)
    requires RunsOnAs(c, d, n, k, tail) && StampTail(tail, stamp, more)
    ensures LinesMeet(c, d)
  {
    var none, f, number := Obj([]), PlainEvent(d), Field(Decimal(0), Swallowed());
    PlainLine(d);
    if tail == "" {
      var e := CycleEvent(c, n, Row(k, 0, Swallowed(), none));
      MeetPlain(e, f);
      TheyMeet(e, f);
    } else if tail == ":" + Decimal(stamp) {
      var e := CycleEvent(c, n, Row(k, stamp, number, none));
      MeetStamp(e, f, number);
      TheyMeet(e, f);
    } else {
      var e := CycleEvent(c, n, Row(k, stamp, Field(more, number), none));
      MeetMore(e, f, more, number);
      TheyMeet(e, f);
    }
  }

  lemma TheyMeet(e: CycleEvent, f: CycleEvent)
    requires EventLine(e) == EventLine(f)
    ensures LinesMeet(e.cycleId, f.cycleId)
  {
  }

  lemma MeetPlain(e: CycleEvent, f: CycleEvent)
    requires f.cycleId == Field(e.cycleId, Field(Decimal(e.seqNo), e.row.kind)) + ""
    requires e.row.timestamp == f.seqNo == 0 && RowLine(f.row) == Field(e.row.actor, Text(e.row.payload))
    ensures EventLine(e) == EventLine(f)
  {
    var rest := Field(Decimal(0), RowLine(f.row));
    FieldRegroup(e.cycleId, Field(Decimal(e.seqNo), e.row.kind), rest);
    FieldRegroup(Decimal(e.seqNo), e.row.kind, rest);
    assert f.cycleId == Field(e.cycleId, Field(Decimal(e.seqNo), e.row.kind));
  }

  lemma MeetStamp(e: CycleEvent, f: CycleEvent, number: string)
    requires f.cycleId == Field(e.cycleId, Field(Decimal(e.seqNo), e.row.kind)) + (":" + Decimal(e.row.timestamp))
    requires e.row.actor == number && Field(Decimal(f.seqNo), RowLine(f.row)) == Field(number, Text(e.row.payload))
    ensures EventLine(e) == EventLine(f)
  {
    var head, rest := Field(e.cycleId, Field(Decimal(e.seqNo), e.row.kind)), Field(number, Text(e.row.payload));
    assert f.cycleId == Field(head, Decimal(e.row.timestamp));
    FieldRegroup(head, Decimal(e.row.timestamp), rest);
    var x := Field(Decimal(e.row.timestamp), rest);
    FieldRegroup(e.cycleId, Field(Decimal(e.seqNo), e.row.kind), x);
    FieldRegroup(Decimal(e.seqNo), e.row.kind, x);
  }

  lemma MeetMore(e: CycleEvent, f: CycleEvent, more: string, number: string)
    requires f.cycleId ==
               Field(e.cycleId, Field(Decimal(e.seqNo), e.row.kind)) + (":" + Field(Decimal(e.row.timestamp), more))
    requires e.row.actor == Field(more, number)
    requires Field(Decimal(f.seqNo), RowLine(f.row)) == Field(number, Text(e.row.payload))
    ensures EventLine(e) == EventLine(f)
  {
    var head, text := Field(e.cycleId, Field(Decimal(e.seqNo), e.row.kind)), Text(e.row.payload);
    var stamp := Decimal(e.row.timestamp);
    assert f.cycleId == Field(head, Field(stamp, more));
    FieldRegroup(head, Field(stamp, more), Field(number, text));
    FieldRegroup(stamp, more, Field(number, text));
    FieldRegroup(more, number, text);
    var x := Field(stamp, Field(e.row.actor, text));
    FieldRegroup(e.cycleId, Field(Decimal(e.seqNo), e.row.kind), x);
    FieldRegroup(Decimal(e.seqNo), e.row.kind, x);
  }

  /** Two different cycles can have events with one line if and only if one id runs on like
      the other's line. */
  lemma LinesMeetIff(c: string, d: string)
    requires c != d
    ensures LinesMeet(c, d) <==> RunsOn(c, d) || RunsOn(d, c)
  {
    if LinesMeet(c, d) {
      var e: CycleEvent, f: CycleEvent :| e.cycleId == c && f.cycleId == d && EventLine(e) == EventLine(f);
      if |c| <= |d| { MeetingRunsOn(e, f); } else { MeetingRunsOn(f, e); }
    }
    if RunsOn(c, d) {
      var n, k, tail, stamp, more :| RunsOnAs(c, d, n, k, tail) && StampTail(tail, stamp, more);
      RunningOnMeets(c, d, n, k, tail, stamp, more);
    }
    if RunsOn(d, c) {
      var n, k, tail, stamp, more :| RunsOnAs(d, c, n, k, tail) && StampTail(tail, stamp, more);
      RunningOnMeets(d, c, n, k, tail, stamp, more);
      var e: CycleEvent, f: CycleEvent :| e.cycleId == d && f.cycleId == c && EventLine(e) == EventLine(f);
      assert EventLine(f) == EventLine(e);
    }
  }

  /** For instance the cycles `a` and `a:0:cycle_started:5`. */
  lemma TwoCyclesOneLine()
    ensures LinesMeet("a", "a:0:cycle_started:5")
  {
    assert Decimal(0) == "0" && Decimal(5) == "5";
    assert "a:0:cycle_started:5" == Field("a", Field("0", "cycle_started")) + (":" + "5");
    RunningOnMeets("a", "a:0:cycle_started:5", 0, "cycle_started", ":" + "5", 5, "");
  }
}
