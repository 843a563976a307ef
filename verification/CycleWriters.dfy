/** Several logs on one table, over every run: which of their appends go through. */
module CycleWriters {
  import opened CycleText
  import opened Merkle
  import opened CycleLog

  /** The step has log `i` append to the cycle, or seal it. */
  predicate IsBy(step: Step, i: nat, cycle: string) {
    match step
    case Open(_) => false
    case AppendStep(log, c, _) => log == i && c == cycle
    case SealStep(log, c, _) => log == i && c == cycle
  }

  /** Step `p` put an event on the cycle, and log `i` did it. */
  ghost predicate Wrote(states: seq<World>, steps: seq<Step>, p: nat, i: nat, cycle: string)
    requires |states| == |steps| + 1 && p < |steps|
  {
    IsBy(steps[p], i, cycle) && states[p + 1].rows != states[p].rows
  }

  /** At step `p` another log put an event on the cycle; log `i` was open then and has put
      none there since. */
  ghost predicate OvertakenAt(states: seq<World>, steps: seq<Step>, p: nat, k: nat, i: nat, cycle: string)
    requires |states| == |steps| + 1 && p < k <= |steps|
  {
    && i < |states[p].logs| && (exists other :: other != i && Wrote(states, steps, p, other, cycle))
    && forall q :: p < q < k ==> !Wrote(states, steps, q, i, cycle)
  }

  /** Before step `k`, another log has put an event on the cycle since log `i` was opened or
      last put one there itself. */
  ghost predicate Overtaken(states: seq<World>, steps: seq<Step>, k: nat, i: nat, cycle: string)
    requires |states| == |steps| + 1 && k <= |steps|
  {
    exists p :: 0 <= p < k && OvertakenAt(states, steps, p, k, i, cycle)
  }

  /** Log `m` puts `row` on the cycle under its own next number. */
  ghost predicate Puts(w: World, w': World, m: nat, cycle: string, row: Row) {
    && m < |w.logs|
    && var n := CounterOf(w.logs[m], cycle);
       var counters: Counters := w.logs[m][cycle := n + 1];
       (cycle, n) !in w.rows && w'.rows == w.rows[(cycle, n) := row] && w'.logs == w.logs[m := counters]
  }

  /** What a step does to the table and the counters. */
  ghost predicate Writes(w: World, w': World, step: Step) {
    match step
    case Open(counters) => w'.rows == w.rows && w'.logs == w.logs + [counters] && Loaded(w.rows, counters)
    case AppendStep(m, cycle, row) => Puts(w, w', m, cycle, row) || w' == w
    case SealStep(m, cycle, _) => (exists row :: Puts(w, w', m, cycle, row)) || w' == w
  }

  lemma AppendWrites(h: Hashing, w: World, m: nat, cycle: string, row: Row)
    requires m < |w.logs|
    ensures var w' := Next(h, w, AppendStep(m, cycle, row)); Puts(w, w', m, cycle, row) || w' == w
  {
    var n := CounterOf(w.logs[m], cycle);
    if (cycle, n) in w.rows { assert w.logs[m := w.logs[m]] == w.logs; }
  }

  lemma SealWrites(h: Hashing, w: World, m: nat, cycle: string, now: int)
    requires m < |w.logs|
    ensures var w' := Next(h, w, SealStep(m, cycle, now)); (exists row :: Puts(w, w', m, cycle, row)) || w' == w
  {
    var w', events := Next(h, w, SealStep(m, cycle, now)), Trail(w.rows, cycle);
    if events != [] {
      var row := Row("cycle_sealed", now, "orchestrator", SealPayload(Root(h.pair, Leaves(h, events)), |events|));
      SealAppends(h, w, m, cycle, now);
      AppendWrites(h, w, m, cycle, row);
      assert Puts(w, Next(h, w, AppendStep(m, cycle, row)), m, cycle, row) ==> Puts(w, w', m, cycle, row);
    } else {
      assert w.logs[m := w.logs[m]] == w.logs;
    }
  }

  lemma ThatStep(h: Hashing, states: seq<World>, steps: seq<Step>, k: nat)
    requires IsRun(h, states, steps) && k < |steps|
    ensures Writes(states[k], states[k + 1], steps[k])
  {
    OneStep(h, states, steps, k);
    match steps[k]
    case Open(_) =>
    case AppendStep(m, cycle, row) => AppendWrites(h, states[k], m, cycle, row);
    case SealStep(m, cycle, now) => SealWrites(h, states[k], m, cycle, now);
  }

  // ----- When a log's next number is taken -----

  predicate IsTaken(w: World, i: nat, cycle: string)
    requires i < |w.logs|
  {
    (cycle, CounterOf(w.logs[i], cycle)) in w.rows
  }

  /** A new row on the cycle is its next one: it takes the next number of every other log
      and leaves its own log's next number free. */
  lemma PutTakes(w: World, w': World, m: nat, cycle: string, row: Row, i: nat, c: string)
    requires Contiguous(w.rows) && Contiguous(w'.rows) && i < |w.logs| && NotAhead(w.rows, w.logs[i])
    requires Puts(w, w', m, cycle, row)
    ensures |w'.logs| == |w.logs|
    ensures IsTaken(w', i, c) <==> if c == cycle then i != m else IsTaken(w, i, c)
  {
    var n, own := CounterOf(w.logs[m], cycle), CounterOf(w.logs[i], cycle);
    if c == cycle && i == m {
      assert (cycle, n + 1) in w.rows ==> (cycle, n) in w.rows;
    } else if c == cycle {
      assert own > n ==> (cycle, n) in w.rows;
      assert own < n ==> (cycle, own) in w'.rows;
    }
  }

  lemma OpenIsFree(w: World, counters: Counters, cycle: string)
    requires Loaded(w.rows, counters)
    ensures (cycle, CounterOf(counters, cycle)) !in w.rows
  {
    var n := CounterOf(counters, cycle);
    assert (cycle, n) in w.rows ==> (cycle, n).1 in SeqNumbers(w.rows, cycle);
  }

  lemma {:induction false} LogsGrow(h: Hashing, states: seq<World>, steps: seq<Step>, j: nat, k: nat)
    requires IsRun(h, states, steps) && j <= k <= |steps|
    ensures |states[j].logs| <= |states[k].logs|
    decreases k
  {
    if j < k {
      LogsGrow(h, states, steps, j, k - 1);
      ThatStep(h, states, steps, k - 1);
    }
  }

  lemma OvertakenNext(states: seq<World>, steps: seq<Step>, k: nat, i: nat, cycle: string)
    requires |states| == |steps| + 1 && k < |steps| && i < |states[k].logs|
    ensures Overtaken(states, steps, k + 1, i, cycle) <==>
              || (exists other :: other != i && Wrote(states, steps, k, other, cycle))
              || (Overtaken(states, steps, k, i, cycle) && !Wrote(states, steps, k, i, cycle))
  {
    if exists other :: other != i && Wrote(states, steps, k, other, cycle) {
      assert OvertakenAt(states, steps, k, k + 1, i, cycle);
    }
    if Overtaken(states, steps, k, i, cycle) && !Wrote(states, steps, k, i, cycle) {
      var p :| 0 <= p < k && OvertakenAt(states, steps, p, k, i, cycle);
      assert OvertakenAt(states, steps, p, k + 1, i, cycle);
    }
    if Overtaken(states, steps, k + 1, i, cycle) {
      var p :| 0 <= p < k + 1 && OvertakenAt(states, steps, p, k + 1, i, cycle);
      if p < k { assert OvertakenAt(states, steps, p, k, i, cycle); }
    }
  }

  lemma NewLogIsNotOvertaken(h: Hashing, states: seq<World>, steps: seq<Step>, k: nat, i: nat, cycle: string)
    requires IsRun(h, states, steps) && k < |steps| && i == |states[k].logs|
    ensures !Overtaken(states, steps, k + 1, i, cycle)
  {
    if Overtaken(states, steps, k + 1, i, cycle) {
      var p :| 0 <= p < k + 1 && OvertakenAt(states, steps, p, k + 1, i, cycle);
      LogsGrow(h, states, steps, p, k);
    }
  }

  /** One step's share in who has written to the cycle. */
  lemma PutIsWritten(states: seq<World>, steps: seq<Step>, k: nat, m: nat, cycle: string, row: Row, c: string)
    requires |states| == |steps| + 1 && k < |steps| && IsBy(steps[k], m, cycle)
    requires Puts(states[k], states[k + 1], m, cycle, row)
    ensures forall i :: Wrote(states, steps, k, i, c) <==> i == m && c == cycle
  {
    assert (cycle, CounterOf(states[k].logs[m], cycle)) in states[k + 1].rows;
  }

  lemma TakenNext(h: Hashing, states: seq<World>, steps: seq<Step>, k: nat, i: nat, c: string)
    requires IsRun(h, states, steps) && k < |steps| && i < |states[k].logs|
    requires IsTaken(states[k], i, c) <==> Overtaken(states, steps, k, i, c)
    ensures i < |states[k + 1].logs| && (IsTaken(states[k + 1], i, c) <==> Overtaken(states, steps, k + 1, i, c))
  {
    ThatStep(h, states, steps, k);
    RunInv(h, states, steps, k);
    RunInv(h, states, steps, k + 1);
    OvertakenNext(states, steps, k, i, c);
    var w, w' := states[k], states[k + 1];
    if w'.rows != w.rows {
      var m, cycle := steps[k].log, steps[k].cycle;
      var row :| Puts(w, w', m, cycle, row);
      PutTakes(w, w', m, cycle, row, i, c);
      PutIsWritten(states, steps, k, m, cycle, row, c);
      assert Wrote(states, steps, k, m, c) <==> c == cycle;
      assert Wrote(states, steps, k, i, c) <==> i == m && c == cycle;
    }
  }

  /** A log's next number on a cycle is taken exactly when another log has overtaken it there. */
  lemma {:induction false} TakenIffOvertaken(h: Hashing, states: seq<World>, steps: seq<Step>, k: nat, i: nat,
                                             cycle: string)
    requires IsRun(h, states, steps) && k <= |steps| && i < |states[k].logs|
    ensures IsTaken(states[k], i, cycle) <==> Overtaken(states, steps, k, i, cycle)
  {
    if k > 0 {
      if i < |states[k - 1].logs| {
        TakenIffOvertaken(h, states, steps, k - 1, i, cycle);
        TakenNext(h, states, steps, k - 1, i, cycle);
      } else {
        ThatStep(h, states, steps, k - 1);
        OpenIsFree(states[k - 1], states[k].logs[i], cycle);
        NewLogIsNotOvertaken(h, states, steps, k - 1, i, cycle);
      }
    }
  }

  // ----- Which appends and seals go through -----

  lemma FreeIsLength(w: World, i: nat, cycle: string)
    requires Contiguous(w.rows) && i < |w.logs| && NotAhead(w.rows, w.logs[i]) && !IsTaken(w, i, cycle)
    ensures |Trail(w.rows, cycle)| == CounterOf(w.logs[i], cycle)
  {
    var n := CounterOf(w.logs[i], cycle);
    forall m: nat ensures (cycle, m) in w.rows <==> m < n {
      assert n < m ==> ((cycle, m) in w.rows ==> (cycle, n) in w.rows);
    }
    TrailOfLength(w.rows, cycle, n);
  }

  /** An append changes nothing exactly when another log has put an event on the cycle since
      this log was opened or last did so; else it puts its row right after the cycle's events. */
  lemma AppendGoesThroughIff(h: Hashing, states: seq<World>, steps: seq<Step>, k: nat)
    requires IsRun(h, states, steps) && k < |steps| && steps[k].AppendStep?
    ensures var w, w', cycle := states[k], states[k + 1], steps[k].cycle;
            var overtaken := Overtaken(states, steps, k, steps[k].log, cycle);
            && (w' == w <==> overtaken)
            && (!overtaken ==>
                  && w'.rows == w.rows[(cycle, |Trail(w.rows, cycle)|) := steps[k].row]
                  && w'.receipts == w.receipts)
  {
    var w, i, cycle := states[k], steps[k].log, steps[k].cycle;
    OneStep(h, states, steps, k);
    ThatStep(h, states, steps, k);
    RunInv(h, states, steps, k);
    TakenIffOvertaken(h, states, steps, k, i, cycle);
    if !IsTaken(w, i, cycle) { FreeIsLength(w, i, cycle); }
  }

  /** The receipt and the row of a seal made now. */
  ghost predicate Seals(h: Hashing, w: World, w': World, cycle: string, now: int) {
    var events := Trail(w.rows, cycle);
    && events != []
    && var root := Root(h.pair, Leaves(h, events));
       && w'.receipts == w.receipts + [CycleReceipt(cycle, root, |events|, now)]
       && w'.rows == w.rows[(cycle, |events|) := Row("cycle_sealed", now, "orchestrator", SealPayload(root, |events|))]
  }

  lemma SealOutcome(h: Hashing, w: World, i: nat, cycle: string, now: int)
    requires Inv(h, w) && i < |w.logs|
    ensures var w' := Next(h, w, SealStep(i, cycle, now));
            if Trail(w.rows, cycle) == [] || IsTaken(w, i, cycle) then w' == w else Seals(h, w, w', cycle, now)
  {
    SealWrites(h, w, i, cycle, now);
    if !IsTaken(w, i, cycle) { FreeIsLength(w, i, cycle); }
    assert w.logs[i := w.logs[i]] == w.logs;
  }

  lemma TrailIsEmptyIff(rows: Rows, cycle: string)
    requires Contiguous(rows)
    ensures Trail(rows, cycle) == [] <==> forall n: nat :: (cycle, n) !in rows
  {
    var n := EveryCycleHasALength(rows, cycle);
    TrailOfLength(rows, cycle, n);
  }

  /** A seal issues its receipt exactly when the cycle has an event and no other log has
      overtaken this one; otherwise it changes nothing. */
  lemma SealGoesThroughIff(h: Hashing, states: seq<World>, steps: seq<Step>, k: nat)
    requires IsRun(h, states, steps) && k < |steps| && steps[k].SealStep?
    ensures var w, w', cycle := states[k], states[k + 1], steps[k].cycle;
            if (exists n: nat :: (cycle, n) in w.rows) && !Overtaken(states, steps, k, steps[k].log, cycle)
            then Seals(h, w, w', cycle, steps[k].now)
            else w' == w
  {
    OneStep(h, states, steps, k);
    RunInv(h, states, steps, k);
    TakenIffOvertaken(h, states, steps, k, steps[k].log, steps[k].cycle);
    TrailIsEmptyIff(states[k].rows, steps[k].cycle);
    SealOutcome(h, states[k], steps[k].log, steps[k].cycle, steps[k].now);
  }

  /** Every append and seal is by the log opened last: the process was restarted, no more. */
  ghost predicate OnlyTheLastWrites(states: seq<World>, steps: seq<Step>)
    requires |states| == |steps| + 1
  {
    forall k :: 0 <= k < |steps| ==> steps[k].Open? || steps[k].log == |states[k].logs| - 1
  }

  lemma LastIsNotOvertaken(h: Hashing, states: seq<World>, steps: seq<Step>, k: nat, i: nat, cycle: string)
    requires IsRun(h, states, steps) && OnlyTheLastWrites(states, steps) && k <= |steps|
    requires i == |states[k].logs| - 1
    ensures !Overtaken(states, steps, k, i, cycle)
  {
    if Overtaken(states, steps, k, i, cycle) {
      var p :| 0 <= p < k && OvertakenAt(states, steps, p, k, i, cycle);
      LogsGrow(h, states, steps, p, k);
    }
  }

  /** In such a run no append ever conflicts, and a seal succeeds exactly for a cycle that
      has an event. */
  lemma LoneWriterNeverConflicts(h: Hashing, states: seq<World>, steps: seq<Step>, k: nat)
    requires IsRun(h, states, steps) && OnlyTheLastWrites(states, steps) && k < |steps| && !steps[k].Open?
    ensures var w, w', cycle := states[k], states[k + 1], steps[k].cycle;
            match steps[k]
            case Open(_) => true
            case AppendStep(_, _, row) => w'.rows == w.rows[(cycle, |Trail(w.rows, cycle)|) := row]
            case SealStep(_, _, now) =>
              if exists n: nat :: (cycle, n) in w.rows then Seals(h, w, w', cycle, now) else w' == w
  {
    LastIsNotOvertaken(h, states, steps, k, steps[k].log, steps[k].cycle);
    if steps[k].AppendStep? {
      AppendGoesThroughIff(h, states, steps, k);
    } else {
      SealGoesThroughIff(h, states, steps, k);
    }
  }
}
