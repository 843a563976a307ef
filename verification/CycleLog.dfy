/** The append-only event log (src/services/CycleLog.ts) over the cycle_events table,
    whose primary key is (cycle_id, seq). Several CycleLog objects may be opened on one
    table, one after another (restarts) or side by side. */
module CycleLog {
  import opened Wrappers
  import opened JsonText
  import opened CycleText
  import opened Merkle

  type Key = (string, nat)

  datatype CycleReceipt = CycleReceipt(cycleId: string, merkleRoot: Digest, eventCount: nat, sealedAt: int)

  datatype LogError = KeyConflict | NoEvents

  /** SHA-256 of a text, and of two concatenated digests. */
  datatype Hashing = Hashing(sha: string -> Digest, pair: (Digest, Digest) -> Digest)

  /** What `sealCycle` writes. */
  function SealPayload(merkleRoot: Digest, eventCount: nat): Payload {
    Obj([Member("merkleRoot", Str(merkleRoot)), Member("eventCount", Number(eventCount))])
  }

  type Rows = map<Key, Row>
  type Counters = map<string, nat>

  // ----- Reading the table -----

  function SeqNumbers(rows: Rows, cycle: string): set<nat> {
    set k | k in rows && k.0 == cycle :: k.1
  }

  predicate IsLeast(s: set<nat>, m: nat) {
    m in s && forall x :: x in s ==> m <= x
  }

  lemma {:induction false} LeastExists(s: set<nat>)
    requires s != {}
    ensures exists m :: IsLeast(s, m)
  {
    var m :| m in s;
    var rest := s - {m};
    if rest == {} {
      OnlyIsLeast(s, m);
    } else {
      LeastExists(rest);
      var other: nat :| IsLeast(rest, other);
      SmallerIsLeast(s, m, other);
    }
  }

  lemma OnlyIsLeast(s: set<nat>, m: nat)
    requires m in s && s - {m} == {}
    ensures IsLeast(s, m)
  {
    forall x | x in s ensures x == m { assert x !in s - {m}; }
  }

  lemma SmallerIsLeast(s: set<nat>, m: nat, other: nat)
    requires m in s && IsLeast(s - {m}, other)
    ensures IsLeast(s, if m < other then m else other)
  {
    forall x | x in s ensures (if m < other then m else other) <= x {
      if x != m { assert x in s - {m}; }
    }
  }

  lemma LeastIsUnique(s: set<nat>, a: nat, b: nat)
    requires IsLeast(s, a) && IsLeast(s, b)
    ensures a == b
  {
  }

  function Ascending(s: set<nat>): seq<nat>
  {
    if s == {} then []
    else
      LeastExists(s);
      var m: nat :| IsLeast(s, m);
      [m] + Ascending(s - {m})
  }

  lemma {:induction false} AscendingMembers(s: set<nat>)
    ensures forall x :: x in Ascending(s) <==> x in s
  {
    if s != {} {
      LeastExists(s);
      var m: nat :| IsLeast(s, m);
      assert Ascending(s) == [m] + Ascending(s - {m});
      AscendingMembers(s - {m});
    }
  }

  function EventsAt(rows: Rows, cycle: string, numbers: seq<nat>): (events: seq<CycleEvent>)
    requires forall n :: n in numbers ==> (cycle, n) in rows
    ensures forall i :: 0 <= i < |events| ==> events[i].cycleId == cycle
  {
    seq(|numbers|, i requires 0 <= i < |numbers| =>
      assert numbers[i] in numbers; CycleEvent(cycle, numbers[i], rows[(cycle, numbers[i])]))
  }

  /** SELECT … WHERE cycle_id = ? ORDER BY seq ASC */
  function Trail(rows: Rows, cycle: string): (events: seq<CycleEvent>)
    ensures forall i :: 0 <= i < |events| ==> events[i].cycleId == cycle
  {
    var numbers := SeqNumbers(rows, cycle);
    AscendingMembers(numbers);
    assert forall n :: n in numbers ==> (cycle, n) in rows;
    EventsAt(rows, cycle, Ascending(numbers))
  }

  // ----- Contiguous numbering -----

  ghost predicate Contiguous(rows: Rows) {
    forall c, i, j :: 0 <= i < j && (c, j) in rows ==> (c, i) in rows
  }

  function CounterOf(counters: Counters, cycle: string): nat {
    if cycle in counters then counters[cycle] else 0
  }

  /** An open log's counters never run ahead of the table. */
  ghost predicate NotAhead(rows: Rows, counters: Counters) {
    forall c, i :: 0 <= i < CounterOf(counters, c) ==> (c, i) in rows
  }

  /** The cycle holds exactly the sequence numbers below `n`. */
  ghost predicate HasLength(rows: Rows, cycle: string, n: nat) {
    forall i: nat :: (cycle, i) in rows <==> i < n
  }

  lemma {:induction false} AscendingInterval(s: set<nat>, lo: nat, hi: nat)
    requires lo <= hi && forall x: nat :: x in s <==> lo <= x < hi
    ensures Ascending(s) == seq(hi - lo, i requires 0 <= i < hi - lo => lo + i)
    decreases hi - lo
  {
    if lo < hi {
      assert lo in s;
      assert IsLeast(s, lo);
      var m: nat :| IsLeast(s, m);
      LeastIsUnique(s, m, lo);
      assert Ascending(s) == [lo] + Ascending(s - {lo});
      AscendingInterval(s - {lo}, lo + 1, hi);
    } else {
      forall x ensures x !in s { }
      assert s == {};
    }
  }

  /** Under contiguous numbering the trail is event 0, event 1, … without a gap. */
  lemma TrailOfLength(rows: Rows, cycle: string, n: nat)
    requires HasLength(rows, cycle, n)
    ensures |Trail(rows, cycle)| == n
    ensures forall i :: 0 <= i < n ==> Trail(rows, cycle)[i] == CycleEvent(cycle, i, rows[(cycle, i)])
  {
    var numbers := SeqNumbers(rows, cycle);
    forall x: nat ensures x in numbers <==> 0 <= x < n {
      if (cycle, x) in rows { assert (cycle, x).1 in numbers; }
    }
    AscendingInterval(numbers, 0, n);
  }

  lemma {:induction false} LengthExists(rows: Rows, cycle: string, bound: nat)
    requires Contiguous(rows)
    requires forall i :: i >= bound ==> (cycle, i) !in rows
    ensures exists n :: HasLength(rows, cycle, n)
    decreases bound
  {
    if bound > 0 && (cycle, bound - 1) !in rows {
      LengthExists(rows, cycle, bound - 1);
    } else {
      assert HasLength(rows, cycle, bound);
    }
  }

  lemma {:induction false} AboveAll(s: set<nat>) returns (bound: nat)
    ensures forall i :: i in s ==> i < bound
    decreases s
  {
    if s == {} {
      bound := 0;
    } else {
      var x :| x in s;
      var rest := AboveAll(s - {x});
      bound := if x < rest then rest else x + 1;
      forall i | i in s ensures i < bound { if i != x { assert i in s - {x}; } }
    }
  }

  lemma EveryCycleHasALength(rows: Rows, cycle: string) returns (n: nat)
    requires Contiguous(rows)
    ensures HasLength(rows, cycle, n)
  {
    var bound := AboveAll(SeqNumbers(rows, cycle));
    forall i | (cycle, i) in rows ensures i < bound {
      assert (cycle, i).1 in SeqNumbers(rows, cycle);
    }
    LengthExists(rows, cycle, bound);
    n :| HasLength(rows, cycle, n);
  }

  // ----- The operations as functions -----

  function Leaves(h: Hashing, events: seq<CycleEvent>): (leaves: seq<Digest>)
    ensures |leaves| == |events|
    ensures forall i :: 0 <= i < |events| ==> leaves[i] == h.sha(EventLine(events[i]))
  {
    seq(|events|, i requires 0 <= i < |events| => h.sha(EventLine(events[i])))
  }

  datatype LogState = LogState(rows: Rows, counters: Counters)

  function Appended(s: LogState, cycle: string, row: Row): (LogState, Result<CycleEvent, LogError>) {
    var n := CounterOf(s.counters, cycle);
    if (cycle, n) in s.rows then (s, Err(KeyConflict))
    else
      (LogState(s.rows[(cycle, n) := row], s.counters[cycle := n + 1]), Ok(CycleEvent(cycle, n, row)))
  }

  function Sealed(h: Hashing, s: LogState, cycle: string, now: int): (LogState, Result<CycleReceipt, LogError>) {
    var events := Trail(s.rows, cycle);
    if events == [] then (s, Err(NoEvents))
    else
      var root := Root(h.pair, Leaves(h, events));
      var (s', appended) := Appended(s, cycle, Row("cycle_sealed", now, "orchestrator", SealPayload(root, |events|)));
      (s', if appended.Ok? then Ok(CycleReceipt(cycle, root, |events|, now)) else Err(appended.error))
  }

  /** What a log opened on `rows` starts with: MAX(seq) + 1 for every cycle present. */
  ghost predicate Loaded(rows: Rows, counters: Counters) {
    && (forall c :: c in counters <==> SeqNumbers(rows, c) != {})
    && (forall c :: c in counters ==>
          counters[c] > 0 && counters[c] - 1 in SeqNumbers(rows, c)
          && forall i :: i in SeqNumbers(rows, c) ==> i < counters[c])
  }

  class EventTable {
    var rows: Rows

    constructor ()
      ensures rows == map[]
    {
      rows := map[];
    }
  }

  class Log {
    const hashing: Hashing
    const db: EventTable
    var seqCounters: Counters

    function State(): LogState
      reads this, db
    {
      LogState(db.rows, seqCounters)
    }

    constructor (hashing: Hashing, db: EventTable)
      ensures this.hashing == hashing && this.db == db
      ensures Loaded(db.rows, seqCounters)
    {
      this.hashing, this.db := hashing, db;
      var counters: Counters := map[];
      var rest := db.rows.Keys;
      while rest != {}
        invariant rest <= db.rows.Keys
        invariant forall c :: c in counters ==> counters[c] > 0 && (c, counters[c] - 1) in db.rows
        invariant forall k :: k in db.rows && k !in rest ==> k.0 in counters && k.1 < counters[k.0]
      {
        var k :| k in rest;
        rest := rest - {k};
        if k.0 !in counters || counters[k.0] <= k.1 {
          counters := counters[k.0 := k.1 + 1];
        }
      }
      seqCounters := counters;
      forall c ensures c in counters <==> SeqNumbers(db.rows, c) != {} {
        if c in counters { assert (c, counters[c] - 1).1 in SeqNumbers(db.rows, c); }
      }
      forall c, i | c in counters && i in SeqNumbers(db.rows, c) ensures i < counters[c] {
        assert (c, i) in db.rows;
      }
    }

    method Append(cycle: string, row: Row) returns (result: Result<CycleEvent, LogError>)
      modifies this, db
      ensures (State(), result) == Appended(old(State()), cycle, row)
    {
      var n := if cycle in seqCounters then seqCounters[cycle] else 0;
      if (cycle, n) in db.rows {
        return Err(KeyConflict);
      }
      db.rows := db.rows[(cycle, n) := row];
      seqCounters := seqCounters[cycle := n + 1];
      return Ok(CycleEvent(cycle, n, row));
    }

    method SealCycle(cycle: string, now: int) returns (result: Result<CycleReceipt, LogError>)
      modifies this, db
      ensures (State(), result) == Sealed(hashing, old(State()), cycle, now)
    {
      var events := Trail(db.rows, cycle);
      if events == [] {
        return Err(NoEvents);
      }
      var root := ComputeRoot(hashing.pair, hashing.sha("empty"), Leaves(hashing, events));
      var appended := Append(cycle, Row("cycle_sealed", now, "orchestrator", SealPayload(root, |events|)));
      if appended.Err? {
        return Err(appended.error);
      }
      return Ok(CycleReceipt(cycle, root, |events|, now));
    }
  }

  // ----- Runs over one table -----

  /** The table, the counters of every log opened on it so far, and all receipts issued. */
  datatype World = World(rows: Rows, logs: seq<Counters>, receipts: seq<CycleReceipt>)

  datatype Step =
    | Open(counters: Counters)
    | AppendStep(log: nat, cycle: string, row: Row)
    | SealStep(log: nat, cycle: string, now: int)

  ghost predicate Enabled(w: World, step: Step) {
    match step
    case Open(counters) => Loaded(w.rows, counters)
    case AppendStep(log, _, _) => log < |w.logs|
    case SealStep(log, _, _) => log < |w.logs|
  }

  ghost function Next(h: Hashing, w: World, step: Step): World
    requires Enabled(w, step)
  {
    match step
    case Open(counters) => w.(logs := w.logs + [counters])
    case AppendStep(log, cycle, row) =>
      var (s, _) := Appended(LogState(w.rows, w.logs[log]), cycle, row);
      w.(rows := s.rows, logs := w.logs[log := s.counters])
    case SealStep(log, cycle, now) =>
      var (s, result) := Sealed(h, LogState(w.rows, w.logs[log]), cycle, now);
      World(s.rows, w.logs[log := s.counters],
            if result.Ok? then w.receipts + [result.value] else w.receipts)
  }

  /** One step. (The state is bound, so that a proof that only passes the fact on does not
      take the step apart.) */
  ghost predicate Follows(h: Hashing, w: World, step: Step, next: World) {
    forall x :: x == w ==> Enabled(x, step) && next == Next(h, x, step)
  }

  ghost predicate IsRun(h: Hashing, states: seq<World>, steps: seq<Step>) {
    && |states| == |steps| + 1
    && states[0] == World(map[], [], [])
    && (forall i :: 0 <= i < |steps| ==> Follows(h, states[i], steps[i], states[i + 1]))
  }

  lemma OneStep(h: Hashing, states: seq<World>, steps: seq<Step>, k: nat)
    requires IsRun(h, states, steps) && k < |steps|
    ensures Enabled(states[k], steps[k]) && states[k + 1] == Next(h, states[k], steps[k])
  {
    assert Follows(h, states[k], steps[k], states[k + 1]);
  }

  /** The receipt's events are still there, still give its root, and are followed by
      the seal that names root and count. */
  ghost predicate Valid(h: Hashing, rows: Rows, r: CycleReceipt) {
    var events := Trail(rows, r.cycleId);
    && 0 < r.eventCount < |events|
    && Root(h.pair, Leaves(h, events[..r.eventCount])) == r.merkleRoot
    && events[r.eventCount].row.kind == "cycle_sealed"
    && events[r.eventCount].row.payload == SealPayload(r.merkleRoot, r.eventCount)
  }

  ghost predicate Inv(h: Hashing, w: World) {
    && Contiguous(w.rows)
    && (forall i :: 0 <= i < |w.logs| ==> NotAhead(w.rows, w.logs[i]))
    && (forall i :: 0 <= i < |w.receipts| ==> Valid(h, w.rows, w.receipts[i]))
  }

  /** A successful append lands right after the cycle's last event, whichever log made it. */
  lemma AppendExtends(s: LogState, cycle: string, row: Row)
    requires Contiguous(s.rows) && NotAhead(s.rows, s.counters) && Appended(s, cycle, row).1.Ok?
    ensures var s' := Appended(s, cycle, row).0;
            && Contiguous(s'.rows) && NotAhead(s'.rows, s'.counters)
            && Trail(s'.rows, cycle) == Trail(s.rows, cycle) + [CycleEvent(cycle, |Trail(s.rows, cycle)|, row)]
            && forall c :: c != cycle ==> Trail(s'.rows, c) == Trail(s.rows, c)
  {
    var n := CounterOf(s.counters, cycle);
    var s' := Appended(s, cycle, row).0;
    assert HasLength(s.rows, cycle, n) by {
      forall i: nat ensures (cycle, i) in s.rows <==> i < n {
        if i > n { assert (cycle, i) in s.rows ==> (cycle, n) in s.rows; }
      }
    }
    assert HasLength(s'.rows, cycle, n + 1);
    TrailOfLength(s.rows, cycle, n);
    TrailOfLength(s'.rows, cycle, n + 1);
    forall c | c != cycle ensures Trail(s'.rows, c) == Trail(s.rows, c) {
      var m := EveryCycleHasALength(s.rows, c);
      assert HasLength(s'.rows, c, m);
      TrailOfLength(s.rows, c, m);
      TrailOfLength(s'.rows, c, m);
    }
  }

  /** Appending never invalidates a receipt and never puts another log ahead. */
  lemma AppendKeeps(h: Hashing, s: LogState, cycle: string, row: Row, r: CycleReceipt)
    requires Contiguous(s.rows) && NotAhead(s.rows, s.counters) && Valid(h, s.rows, r)
    ensures Valid(h, Appended(s, cycle, row).0.rows, r)
  {
    var s' := Appended(s, cycle, row).0;
    if Appended(s, cycle, row).1.Ok? {
      AppendExtends(s, cycle, row);
      var before, after := Trail(s.rows, r.cycleId), Trail(s'.rows, r.cycleId);
      assert after[..r.eventCount] == before[..r.eventCount];
    }
  }

  lemma LoadedNotAhead(rows: Rows, counters: Counters)
    requires Contiguous(rows) && Loaded(rows, counters)
    ensures NotAhead(rows, counters)
  {
    forall c, i | 0 <= i < CounterOf(counters, c) ensures (c, i) in rows {
      assert counters[c] - 1 in SeqNumbers(rows, c);
    }
  }

  lemma AppendInv(h: Hashing, w: World, log: nat, cycle: string, row: Row)
    requires Inv(h, w) && log < |w.logs|
    ensures Inv(h, Next(h, w, AppendStep(log, cycle, row)))
  {
    var s := LogState(w.rows, w.logs[log]);
    if Appended(s, cycle, row).1.Ok? { AppendExtends(s, cycle, row); }
    forall i | 0 <= i < |w.receipts| ensures Valid(h, Appended(s, cycle, row).0.rows, w.receipts[i]) {
      AppendKeeps(h, s, cycle, row, w.receipts[i]);
    }
  }

  /** The seal right after the events it covers makes the receipt valid. */
  lemma SealIsValid(h: Hashing, s: LogState, cycle: string, now: int)
    requires Contiguous(s.rows) && NotAhead(s.rows, s.counters) && Sealed(h, s, cycle, now).1.Ok?
    ensures Valid(h, Sealed(h, s, cycle, now).0.rows, Sealed(h, s, cycle, now).1.value)
  {
    var events := Trail(s.rows, cycle);
    var row := Row("cycle_sealed", now, "orchestrator", SealPayload(Root(h.pair, Leaves(h, events)), |events|));
    AppendExtends(s, cycle, row);
    assert Trail(Appended(s, cycle, row).0.rows, cycle)[..|events|] == events;
  }

  /** A seal is an append that also hands out a receipt. */
  lemma SealAppends(h: Hashing, w: World, log: nat, cycle: string, now: int)
    requires log < |w.logs| && Trail(w.rows, cycle) != []
    ensures var events := Trail(w.rows, cycle);
            var row := Row("cycle_sealed", now, "orchestrator", SealPayload(Root(h.pair, Leaves(h, events)), |events|));
            var result := Sealed(h, LogState(w.rows, w.logs[log]), cycle, now).1;
            Next(h, w, SealStep(log, cycle, now)) ==
              Next(h, w, AppendStep(log, cycle, row)).(
                receipts := if result.Ok? then w.receipts + [result.value] else w.receipts)
  {
  }

  lemma ReceiptInv(h: Hashing, w: World, r: CycleReceipt)
    requires Inv(h, w) && Valid(h, w.rows, r)
    ensures Inv(h, w.(receipts := w.receipts + [r]))
  {
  }

  lemma SealInv(h: Hashing, w: World, log: nat, cycle: string, now: int)
    requires Inv(h, w) && log < |w.logs|
    ensures Inv(h, Next(h, w, SealStep(log, cycle, now)))
  {
    var events := Trail(w.rows, cycle);
    if events != [] {
      var s := LogState(w.rows, w.logs[log]);
      var row := Row("cycle_sealed", now, "orchestrator", SealPayload(Root(h.pair, Leaves(h, events)), |events|));
      SealAppends(h, w, log, cycle, now);
      AppendInv(h, w, log, cycle, row);
      if Sealed(h, s, cycle, now).1.Ok? {
        SealIsValid(h, s, cycle, now);
        ReceiptInv(h, Next(h, w, AppendStep(log, cycle, row)), Sealed(h, s, cycle, now).1.value);
      }
    } else {
      assert Next(h, w, SealStep(log, cycle, now)).logs == w.logs;
    }
  }

  lemma {:induction false} RunInv(h: Hashing, states: seq<World>, steps: seq<Step>, k: nat)
    requires IsRun(h, states, steps) && k < |states|
    ensures Inv(h, states[k])
  {
    if k > 0 {
      RunInv(h, states, steps, k - 1);
      OneStep(h, states, steps, k - 1);
      NextInv(h, states[k - 1], steps[k - 1]);
    }
  }

  lemma NextInv(h: Hashing, w: World, step: Step)
    requires Inv(h, w) && Enabled(w, step)
    ensures Inv(h, Next(h, w, step))
  {
    match step
    case Open(counters) => LoadedNotAhead(w.rows, counters);
    case AppendStep(log, cycle, row) => AppendInv(h, w, log, cycle, row);
    case SealStep(log, cycle, now) => SealInv(h, w, log, cycle, now);
  }

  /** Receipts, like rows, are only ever added. */
  ghost predicate Grows(w: World, w': World) {
    && w.receipts <= w'.receipts
    && forall key :: key in w.rows ==> key in w'.rows && w'.rows[key] == w.rows[key]
  }

  lemma StepGrows(h: Hashing, states: seq<World>, steps: seq<Step>, k: nat)
    requires IsRun(h, states, steps) && k < |steps|
    ensures Grows(states[k], states[k + 1])
  {
    OneStep(h, states, steps, k);
  }

  lemma {:induction false} RunGrows(h: Hashing, states: seq<World>, steps: seq<Step>, j: nat, k: nat)
    requires IsRun(h, states, steps) && j <= k < |states|
    ensures Grows(states[j], states[k])
    decreases k
  {
    if j < k {
      RunGrows(h, states, steps, j, k - 1);
      StepGrows(h, states, steps, k - 1);
    }
  }

  /** Every receipt ever issued is valid in every later state, whatever was appended,
      sealed again or reopened since. */
  lemma ReceiptsStayValid(h: Hashing, states: seq<World>, steps: seq<Step>, j: nat, k: nat, r: CycleReceipt)
    requires IsRun(h, states, steps) && j <= k < |states| && r in states[j].receipts
    ensures Valid(h, states[k].rows, r)
  {
    RunGrows(h, states, steps, j, k);
    RunInv(h, states, steps, k);
    assert r in states[k].receipts;
  }

  ghost predicate NoCollisions(sha: string -> Digest) {
    forall s, t :: sha(s) == sha(t) ==> s == t
  }

  /** A table passes as the one the receipt was made from. */
  ghost predicate Passes(h: Hashing, rows: Rows, r: CycleReceipt) {
    && 0 < r.eventCount <= |Trail(rows, r.cycleId)|
    && Root(h.pair, Leaves(h, Trail(rows, r.cycleId)[..r.eventCount])) == r.merkleRoot
  }

  lemma SameLeavesSameEvents(h: Hashing, a: seq<CycleEvent>, b: seq<CycleEvent>)
    requires NoCollisions(h.sha) && |a| == |b| && forall i :: 0 <= i < |a| ==> a[i].cycleId == b[i].cycleId
    ensures Leaves(h, a) == Leaves(h, b) <==> a == b
  {
    if Leaves(h, a) == Leaves(h, b) {
      forall i | 0 <= i < |a| ensures a[i] == b[i] {
        assert Leaves(h, a)[i] == Leaves(h, b)[i];
        LineDeterminesEvent(a[i], b[i]);
      }
    }
  }

  /** Root and count together pin down the sealed events: a table passes against a valid
      receipt if and only if it starts the cycle with the very same events. */
  lemma ReceiptPinsEvents(h: Hashing, rows: Rows, other: Rows, r: CycleReceipt)
    requires CollisionFree(h.pair) && NoCollisions(h.sha) && Valid(h, rows, r)
    ensures Passes(h, other, r) <==>
              && r.eventCount <= |Trail(other, r.cycleId)|
              && Trail(other, r.cycleId)[..r.eventCount] == Trail(rows, r.cycleId)[..r.eventCount]
  {
    if r.eventCount <= |Trail(other, r.cycleId)| {
      var a, b := Trail(rows, r.cycleId)[..r.eventCount], Trail(other, r.cycleId)[..r.eventCount];
      RootDeterminesLeaves(h.pair, Leaves(h, a), Leaves(h, b));
      SameLeavesSameEvents(h, a, b);
    }
  }

  // ----- Recovery after a restart -----

  /** replayOpenCycles: cycles with events, none of them terminal. */
  ghost predicate IsOpen(rows: Rows, cycle: string) {
    && (exists i :: (cycle, i) in rows)
    && (forall i :: (cycle, i) in rows ==>
          rows[(cycle, i)].kind != "cycle_sealed" && rows[(cycle, i)].kind != "cycle_failed")
  }

  /** A cycle with a receipt is never replayed as open again. */
  lemma SealedCyclesStayClosed(h: Hashing, states: seq<World>, steps: seq<Step>, j: nat, k: nat, r: CycleReceipt)
    requires IsRun(h, states, steps) && j <= k < |states| && r in states[j].receipts
    ensures !IsOpen(states[k].rows, r.cycleId)
  {
    ReceiptsStayValid(h, states, steps, j, k, r);
    RunInv(h, states, steps, k);
    var n := EveryCycleHasALength(states[k].rows, r.cycleId);
    TrailOfLength(states[k].rows, r.cycleId, n);
    assert (r.cycleId, r.eventCount) in states[k].rows;
  }
}
