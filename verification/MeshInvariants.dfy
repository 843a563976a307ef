/** What every step of the protocol keeps, whatever the timing:
    the retry payloads, the attempt bound, the transition count and the workspaces. */
module MeshInvariants {
  import opened Wrappers
  import opened TaskClaims
  import opened MeshSpec

  // ----- Transitions since the last registration -----

  /** How many transitions of `h` the log holds since `h` was last registered. */
  function MovesOf(events: seq<ClaimEvent>, h: Hash): nat {
    if events == [] then 0
    else
      var rest, last := events[..|events| - 1], events[|events| - 1];
      if last.taskHash != h then MovesOf(rest, h)
      else if last.previous.None? then 0
      else 1 + MovesOf(rest, h)
  }

  lemma MovesOfAppend(events: seq<ClaimEvent>, e: ClaimEvent, h: Hash)
    ensures MovesOf(events + [e], h) ==
            if e.taskHash != h then MovesOf(events, h)
            else if e.previous.None? then 0
            else 1 + MovesOf(events, h)
  {
    assert (events + [e])[..|events|] == events;
  }

  /** The latest event of `h`. */
  function LatestOf(events: seq<ClaimEvent>, h: Hash): Option<ClaimEvent> {
    if events == [] then None
    else
      var last := events[|events| - 1];
      if last.taskHash == h then Some(last) else LatestOf(events[..|events| - 1], h)
  }

  lemma LatestOfAppend(events: seq<ClaimEvent>, e: ClaimEvent, h: Hash)
    ensures LatestOf(events + [e], h) == if e.taskHash == h then Some(e) else LatestOf(events, h)
  {
    assert (events + [e])[..|events|] == events;
  }

  /** How many moves a record still has before it; a manual inject that pre-empts a
      backoff (waiting to claimed) is one of them like any other. */
  function MovesLeft(env: Env, state: ClaimState, attempt: nat): int {
    match state
    case Unclaimed => 3 * env.maxAttempts
    case Claimed => 3 * (env.maxAttempts - attempt) + 2
    case Running => 3 * (env.maxAttempts - attempt) + 1
    case RetryQueued => 3 * (env.maxAttempts - attempt)
    case Released => 0
  }

  lemma EveryMoveUsesOne(env: Env, r: ClaimRecord, next: ClaimState, cycle: Option<CycleId>, now: Time)
    requires Legal(r.state, next) && r.attempt <= env.maxAttempts
    requires r.state == Unclaimed ==> r.attempt == 0
    requires r.state == RetryQueued ==> r.attempt < env.maxAttempts
    ensures var r' := Moved(r, next, cycle, now);
            0 <= MovesLeft(env, r'.state, r'.attempt) < MovesLeft(env, r.state, r.attempt)
  {
  }

  /** The move `e` leaves its hash fewer moves than the event before it did. */
  ghost predicate UsesOne(env: Env, before: Option<ClaimEvent>, e: ClaimEvent) {
    before.Some? && 0 <= MovesLeft(env, e.state, e.attempt) < MovesLeft(env, before.value.state, before.value.attempt)
  }

  /** Every move in the log uses up one of its hash's moves. */
  ghost predicate UsesUp(env: Env, events: seq<ClaimEvent>) {
    events == []
    || var rest, last := events[..|events| - 1], events[|events| - 1];
       UsesUp(env, rest) && (last.previous.Some? ==> UsesOne(env, LatestOf(rest, last.taskHash), last))
  }

  lemma UsesUpAppend(env: Env, events: seq<ClaimEvent>, e: ClaimEvent)
    requires UsesUp(env, events) && (e.previous.Some? ==> UsesOne(env, LatestOf(events, e.taskHash), e))
    ensures UsesUp(env, events + [e])
  {
    assert (events + [e])[..|events|] == events;
  }

  /** The transition count is fixed by the record, three per attempt, and the latest event
      tells the record's state. */
  ghost predicate Counted(env: Env, c: Claims, h: Hash) {
    var moves := MovesOf(c.events, h);
    if h !in c.ledger then moves <= 3 * env.maxAttempts
    else
      var r := c.ledger[h];
      && r.attempt <= env.maxAttempts
      && Tells(LatestOf(c.events, h), r)
      && match r.state
         case Unclaimed => moves == 0 && r.attempt == 0
         case Claimed => moves == 3 * r.attempt - 2
         case Running => moves == 3 * r.attempt - 1
         case RetryQueued => moves == 3 * r.attempt && r.attempt < env.maxAttempts
         case Released => moves <= 3 * env.maxAttempts
  }

  predicate Tells(e: Option<ClaimEvent>, r: ClaimRecord) {
    e.Some? && e.value.state == r.state && e.value.attempt == r.attempt
  }

  ghost predicate AllCounted(env: Env, c: Claims) {
    UsesUp(env, c.events) && forall h :: Counted(env, c, h)
  }

  lemma RegisterCounted(env: Env, c: Claims, h: Hash, now: Time)
    requires AllCounted(env, c)
    ensures AllCounted(env, Register(c, h, now))
  {
    var c' := Register(c, h, now);
    if h !in c.ledger {
      forall k ensures Counted(env, c', k) {
        assert Counted(env, c, k);
        MovesOfAppend(c.events, c'.events[|c.events|], k);
        LatestOfAppend(c.events, c'.events[|c.events|], k);
      }
      UsesUpAppend(env, c.events, c'.events[|c.events|]);
    }
  }

  lemma TransitionCounted(env: Env, c: Claims, h: Hash, next: ClaimState, cycle: Option<CycleId>, now: Time)
    requires AllCounted(env, c)
    requires CanMove(c, h, next) ==> c.ledger[h].state == Unclaimed ==> next == Claimed
    requires CanMove(c, h, next) ==> next == Claimed || next == RetryQueued ==>
               c.ledger[h].attempt < env.maxAttempts
    ensures AllCounted(env, Transition(c, h, next, cycle, now))
  {
    var c' := Transition(c, h, next, cycle, now);
    if CanMove(c, h, next) {
      forall k ensures Counted(env, c', k) {
        assert Counted(env, c, k);
        MovesOfAppend(c.events, c'.events[|c.events|], k);
        LatestOfAppend(c.events, c'.events[|c.events|], k);
      }
      assert Counted(env, c, h);
      EveryMoveUsesOne(env, c.ledger[h], next, cycle, now);
      UsesUpAppend(env, c.events, c'.events[|c.events|]);
    }
  }

  lemma RetryQueuedCounted(env: Env, c: Claims, h: Hash, retryAfterMs: real, now: Time)
    requires AllCounted(env, c)
    requires h in c.ledger ==> c.ledger[h].attempt < env.maxAttempts
    ensures AllCounted(env, MarkRetryQueued(c, h, retryAfterMs, now))
  {
    var moved := Transition(c, h, RetryQueued, None, now);
    TransitionCounted(env, c, h, RetryQueued, None, now);
    forall k ensures Counted(env, MarkRetryQueued(c, h, retryAfterMs, now), k) {
      assert Counted(env, moved, k);
    }
  }

  lemma PruneCounted(env: Env, c: Claims, h: Hash)
    requires AllCounted(env, c)
    ensures AllCounted(env, c.(ledger := c.ledger - {h}))
  {
    forall k ensures Counted(env, c.(ledger := c.ledger - {h}), k) {
      assert Counted(env, c, k);
    }
  }

  // ----- The invariant -----

  /** Between steps a record is running, waiting for a retry or released. */
  ghost predicate RecordOk(env: Env, w: World, h: Hash)
    requires h in w.claims.ledger
  {
    var r := w.claims.ledger[h];
    && (r.state == Running || r.state == RetryQueued || r.state == Released)
    && 1 <= r.attempt <= env.maxAttempts
    && r.updatedAt <= w.now
    && (r.state == RetryQueued ==> h in w.pending && r.retryAfter.Some? && r.attempt < env.maxAttempts)
  }

  ghost predicate Inv(env: Env, w: World) {
    && (forall h :: h in w.claims.ledger ==> RecordOk(env, w, h))
    && (forall h :: h in w.pending ==> env.hashOf(w.pending[h].goal) == h)
    && (forall c :: c in w.runs ==>
          && c < w.nextCycle
          && w.runs[c].hash == env.hashOf(w.runs[c].goal)
          && w.runs[c].claimedAt <= w.now)
    && (forall c :: c in w.workspaces <==> c in w.runs && w.runs[c].hasWorkspace && w.runs[c].phase != Ended)
    && AllCounted(env, w.claims)
  }

  // ----- Each building block keeps it -----

  lemma InitInv(env: Env, now: Time)
    ensures Inv(env, Init(now))
  {
    forall h ensures Counted(env, Init(now).claims, h) { }
  }

  lemma TickInv(env: Env, w: World, now: Time)
    requires Inv(env, w) && w.now <= now
    ensures Inv(env, w.(now := now))
  {
    forall h | h in w.claims.ledger ensures RecordOk(env, w.(now := now), h) {
      assert RecordOk(env, w, h);
    }
  }

  lemma ReleaseInv(env: Env, w: World, h: Hash)
    requires Inv(env, w)
    ensures Inv(env, ReleaseTask(w, h))
  {
    var w' := ReleaseTask(w, h);
    forall k | k in w'.claims.ledger ensures RecordOk(env, w', k) {
      assert RecordOk(env, w, k);
    }
    TransitionCounted(env, w.claims, h, Released, None, w.now);
  }

  lemma EnqueuedInv(env: Env, w: World, goal: Goal)
    requires Inv(env, w)
    ensures Inv(env, Enqueued(env, w, env.hashOf(goal), goal).0)
  {
    var h := env.hashOf(goal);
    var w' := Enqueued(env, w, h, goal).0;
    if h in w.claims.ledger {
      assert RecordOk(env, w, h);
      TransitionCounted(env, w.claims, h, Released, None, w.now);
      if w.claims.ledger[h].attempt < env.maxAttempts {
        RetryQueuedCounted(env, w.claims, h, Backoff(env, w.claims.ledger[h].attempt), w.now);
      }
      forall k | k in w'.claims.ledger ensures RecordOk(env, w', k) {
        assert RecordOk(env, w, k);
      }
    }
  }

  lemma InjectCounted(env: Env, w: World, goal: Goal)
    requires AllCounted(env, w.claims)
    requires var h := env.hashOf(goal); h in w.claims.ledger ==>
               w.claims.ledger[h].state == RetryQueued ==> w.claims.ledger[h].attempt < env.maxAttempts
    ensures AllCounted(env, Inject(env, w, goal).claims)
  {
    var h, cycle := env.hashOf(goal), w.nextCycle;
    if Claimable(w.claims, h) {
      var registered := Register(w.claims, h, w.now);
      RegisterCounted(env, w.claims, h, w.now);
      assert Counted(env, registered, h);
      TransitionCounted(env, registered, h, Claimed, Some(cycle), w.now);
      var claimed := TryClaim(registered, h, cycle, w.now);
      assert claimed == Transition(registered, h, Claimed, Some(cycle), w.now);
      TransitionCounted(env, claimed, h, Running, Some(cycle), w.now);
    }
  }

  /** The record a successful inject leaves behind. */
  lemma InjectRecord(env: Env, w: World, goal: Goal)
    requires Claimable(w.claims, env.hashOf(goal))
    ensures var h, w' := env.hashOf(goal), Inject(env, w, goal);
            && h in w'.claims.ledger
            && w'.claims.ledger == w.claims.ledger[h := w'.claims.ledger[h]]
            && (h !in w.claims.ledger ==>
                  w'.claims.ledger[h] == ClaimRecord(Running, 1, w.now, w.now, Some(w.nextCycle), None))
            && (h in w.claims.ledger ==>
                  var r := w.claims.ledger[h];
                  w'.claims.ledger[h] ==
                    ClaimRecord(Running, r.attempt + 1, r.firstSeen, w.now, Some(w.nextCycle), r.retryAfter))
  {
  }

  lemma InjectRecords(env: Env, w: World, goal: Goal, payload: Pending)
    requires Inv(env, w.(pending := w.pending[env.hashOf(goal) := payload]))
    requires env.hashOf(goal) in w.pending || Claimable(w.claims, env.hashOf(goal))
    ensures forall h :: h in Inject(env, w, goal).claims.ledger ==> RecordOk(env, Inject(env, w, goal), h)
  {
    var h := env.hashOf(goal);
    var full := w.(pending := w.pending[h := payload]);
    var w' := Inject(env, w, goal);
    if h in w.claims.ledger { assert RecordOk(env, full, h); }
    if Claimable(w.claims, h) { InjectRecord(env, w, goal); }
    forall k | k in w'.claims.ledger ensures RecordOk(env, w', k) {
      if k in w.claims.ledger { assert RecordOk(env, full, k); }
    }
  }

  /** `w` may lack the payload of the very task being injected: the retry sweep
      takes it out just before. */
  lemma InjectInv(env: Env, w: World, goal: Goal, payload: Pending)
    requires Inv(env, w.(pending := w.pending[env.hashOf(goal) := payload]))
    requires env.hashOf(payload.goal) == env.hashOf(goal)
    requires forall h :: h in w.pending ==> env.hashOf(w.pending[h].goal) == h
    requires env.hashOf(goal) in w.pending || Claimable(w.claims, env.hashOf(goal))
    ensures Inv(env, Inject(env, w, goal))
  {
    var h := env.hashOf(goal);
    if h in w.claims.ledger { assert RecordOk(env, w.(pending := w.pending[h := payload]), h); }
    InjectCounted(env, w, goal);
    InjectRecords(env, w, goal, payload);
  }

  lemma InjectKeepsInv(env: Env, w: World, goal: Goal)
    requires Inv(env, w)
    ensures Inv(env, Inject(env, w, goal))
  {
    var h := env.hashOf(goal);
    if h in w.pending {
      assert w.pending[h := w.pending[h]] == w.pending;
      InjectInv(env, w, goal, w.pending[h]);
    } else if Claimable(w.claims, h) {
      var full := w.(pending := w.pending[h := Pending(goal, 0, 0.0, 0.0)]);
      forall k | k in w.claims.ledger ensures RecordOk(env, full, k) {
        assert RecordOk(env, w, k);
      }
      InjectInv(env, w, goal, Pending(goal, 0, 0.0, 0.0));
    } else {
      forall k | k in w.claims.ledger ensures RecordOk(env, Inject(env, w, goal), k) {
        assert RecordOk(env, w, k);
      }
    }
  }

  lemma PhaseInv(env: Env, w: World, cycle: CycleId, phase: Phase)
    requires Inv(env, w) && cycle in w.runs && w.runs[cycle].phase != Ended && phase != Ended
    ensures Inv(env, SetPhase(w, cycle, phase)) && Inv(env, End(w, cycle))
  {
    forall h | h in w.claims.ledger
      ensures RecordOk(env, SetPhase(w, cycle, phase), h) && RecordOk(env, End(w, cycle), h)
    {
      assert RecordOk(env, w, h);
    }
  }

  lemma AbortInv(env: Env, w: World, cycle: CycleId)
    requires Inv(env, w) && cycle in w.runs && w.runs[cycle].phase != Ended
    ensures Inv(env, End(ReleaseTask(w, w.runs[cycle].hash), cycle))
    ensures Inv(env, SetPhase(ReleaseTask(w, w.runs[cycle].hash), cycle, BeforeRemove))
  {
    ReleaseInv(env, w, w.runs[cycle].hash);
    PhaseInv(env, ReleaseTask(w, w.runs[cycle].hash), cycle, BeforeRemove);
  }

  lemma EnqueueSparesRuns(env: Env, w: World, h: Hash, goal: Goal)
    ensures Enqueued(env, w, h, goal).0.runs == w.runs
  {
  }

  lemma FailInv(env: Env, w: World, cycle: CycleId)
    requires Inv(env, w) && cycle in w.runs && w.runs[cycle].phase != Ended
    ensures var w1 := Enqueued(env, w, w.runs[cycle].hash, w.runs[cycle].goal).0;
            && w1.runs == w.runs
            && Inv(env, End(w1, cycle))
            && Inv(env, SetPhase(w1, cycle, BeforeRemove))
  {
    var w1 := Enqueued(env, w, w.runs[cycle].hash, w.runs[cycle].goal).0;
    EnqueuedInv(env, w, w.runs[cycle].goal);
    EnqueueSparesRuns(env, w, w.runs[cycle].hash, w.runs[cycle].goal);
    PhaseInv(env, w1, cycle, BeforeRemove);
  }

  lemma ResumeInv(env: Env, w: World, cycle: CycleId, reply: Reply)
    requires Inv(env, w) && cycle in w.runs && Answers(w.runs[cycle].phase, reply)
    ensures Inv(env, Resume(env, w, cycle, reply))
  {
    var r := w.runs[cycle];
    match r.phase
    case AfterCreate => PhaseInv(env, w, cycle, BeforeRun); AbortInv(env, w, cycle);
    case BeforeRun => PhaseInv(env, w, cycle, Executing); AbortInv(env, w, cycle);
    case Executing =>
      if reply.Receipt? { PhaseInv(env, w, cycle, AfterRun(reply.verified)); }
      FailInv(env, w, cycle);
    case AfterRun(_) => AbortInv(env, w, cycle); FailInv(env, w, cycle);
    case BeforeRemove => PhaseInv(env, w, cycle, BeforeRemove);
  }

  // ----- The reconciler's sweep, record by record -----

  /** What becomes of one record when the sweep has come by it, or has not. */
  ghost predicate SweptAt(env: Env, c: Claims, c': Claims, h: Hash, seen: bool, now: Time)
    requires h in c.ledger
  {
    if seen && Stalled(env, c.ledger[h], now)
    then h in c'.ledger && c'.ledger[h] == Moved(c.ledger[h], Released, None, now)
    else if seen && AgedOut(env, c.ledger[h], now) then h !in c'.ledger
    else h in c'.ledger && c'.ledger[h] == c.ledger[h]
  }

  lemma ReconcileOneAt(env: Env, c: Claims, c1: Claims, last: Hash, h: Hash, seen: bool, now: Time)
    requires last in c.ledger && h in c.ledger && SweptAt(env, c, c1, h, seen, now)
    requires h == last ==> !seen
    ensures SweptAt(env, c, ReconcileOne(env, c1, last, c.ledger[last], now), h, seen || h == last, now)
  {
  }

  lemma {:induction false} ReconcileAt(env: Env, c: Claims, order: seq<Hash>, now: Time)
    requires forall i, j :: 0 <= i < j < |order| ==> order[i] != order[j]
    requires forall h :: h in order ==> h in c.ledger
    ensures ReconcileAll(env, c, order, now).ledger.Keys <= c.ledger.Keys
    ensures forall h :: h in c.ledger ==> SweptAt(env, c, ReconcileAll(env, c, order, now), h, h in order, now)
  {
    if order != [] {
      var front, last := order[..|order| - 1], order[|order| - 1];
      assert order == front + [last];
      ReconcileAt(env, c, front, now);
      forall h | h in c.ledger ensures SweptAt(env, c, ReconcileAll(env, c, order, now), h, h in order, now) {
        ReconcileOneAt(env, c, ReconcileAll(env, c, front, now), last, h, h in front, now);
      }
    }
  }

  ghost predicate NoneIdle(ledger: Ledger) {
    forall h :: h in ledger ==> ledger[h].state != Unclaimed
  }

  lemma {:induction false} ReconcileCounted(env: Env, c: Claims, order: seq<Hash>, now: Time)
    requires forall h :: h in order ==> h in c.ledger
    requires AllCounted(env, c)
    requires NoneIdle(c.ledger)
    ensures AllCounted(env, ReconcileAll(env, c, order, now))
    ensures NoneIdle(ReconcileAll(env, c, order, now).ledger)
  {
    if order != [] {
      var front, last := order[..|order| - 1], order[|order| - 1];
      ReconcileCounted(env, c, front, now);
      var c1 := ReconcileAll(env, c, front, now);
      TransitionCounted(env, c1, last, Released, None, now);
      PruneCounted(env, c1, last);
    }
  }

  lemma ReconcileInv(env: Env, w: World, order: seq<Hash>)
    requires Inv(env, w) && Enumerates(order, w.claims.ledger.Keys)
    ensures Inv(env, w.(claims := ReconcileAll(env, w.claims, order, w.now)))
  {
    var w' := w.(claims := ReconcileAll(env, w.claims, order, w.now));
    forall h | h in w.claims.ledger ensures w.claims.ledger[h].state != Unclaimed {
      assert RecordOk(env, w, h);
    }
    ReconcileAt(env, w.claims, order, w.now);
    ReconcileCounted(env, w.claims, order, w.now);
    forall h | h in w'.claims.ledger ensures RecordOk(env, w', h) {
      assert RecordOk(env, w, h);
    }
  }

  // ----- The retry sweep, task by task -----

  /** `h` went from waiting to running under `cycle`, one attempt up. */
  ghost predicate TookClaim(w: World, w': World, h: Hash, cycle: CycleId) {
    && h in w.claims.ledger && h in w'.claims.ledger
    && var r := w.claims.ledger[h];
       w'.claims.ledger[h] == ClaimRecord(Running, r.attempt + 1, r.firstSeen, w.now, Some(cycle), r.retryAfter)
  }

  /** Run `cycle` works on the goal that was filed for `h`. */
  ghost predicate StartedRun(env: Env, w: World, w': World, h: Hash, cycle: CycleId) {
    && h in w.pending && cycle in w'.runs
    && w'.runs[cycle] == Run(w.pending[h].goal, h, w'.now, env.acquireOk(cycle), AfterCreate)
  }

  ghost predicate LedgerTaken(w: World, order: seq<Hash>, w': World) {
    && w'.claims.ledger.Keys == w.claims.ledger.Keys
    && (forall h :: h in w.claims.ledger && h !in order ==> w'.claims.ledger[h] == w.claims.ledger[h])
    && (forall i :: 0 <= i < |order| ==> TookClaim(w, w', order[i], w.nextCycle + i))
  }

  ghost predicate RunsStarted(env: Env, w: World, order: seq<Hash>, w': World) {
    && w'.now == w.now
    && w'.nextCycle == w.nextCycle + |order|
    && (forall c :: c in w'.runs <==> c in w.runs || w.nextCycle <= c < w'.nextCycle)
    && (forall c :: c in w.runs ==> w'.runs[c] == w.runs[c])
    && (forall i :: 0 <= i < |order| ==> StartedRun(env, w, w', order[i], w.nextCycle + i))
  }

  /** What dispatching the due claims in `order` does, for those taken and for the others. */
  ghost predicate Dispatched(env: Env, w: World, order: seq<Hash>, w': World) {
    && LedgerTaken(w, order, w')
    && RunsStarted(env, w, order, w')
    && w'.pending == w.pending - (set h | h in order)
  }

  ghost predicate DueOrder(w: World, order: seq<Hash>) {
    && (forall i, j :: 0 <= i < j < |order| ==> order[i] != order[j])
    && (forall h :: h in order ==> h in w.claims.ledger && w.claims.ledger[h].state == RetryQueued)
  }

  /** A due task is on file, so that its dispatch is an inject of its goal. */
  lemma DispatchIsInject(env: Env, w: World, h: Hash)
    requires Inv(env, w) && h in w.claims.ledger && w.claims.ledger[h].state == RetryQueued
    ensures h in w.pending && env.hashOf(w.pending[h].goal) == h && Claimable(w.claims, h)
    ensures DispatchOne(env, w, h) == Inject(env, w.(pending := w.pending - {h}), w.pending[h].goal)
  {
    assert RecordOk(env, w, h);
  }

  lemma DispatchKeepsInv(env: Env, w: World, h: Hash)
    requires Inv(env, w) && h in w.claims.ledger && w.claims.ledger[h].state == RetryQueued
    ensures Inv(env, DispatchOne(env, w, h))
  {
    DispatchIsInject(env, w, h);
    var payload := w.pending[h];
    var taken := w.(pending := w.pending - {h});
    assert taken.pending[h := payload] == w.pending;
    InjectInv(env, taken, payload.goal, payload);
  }

  /** The run a successful inject starts. */
  lemma InjectRun(env: Env, w: World, goal: Goal)
    requires Claimable(w.claims, env.hashOf(goal))
    ensures var cycle, w' := w.nextCycle, Inject(env, w, goal);
            && w'.now == w.now && w'.nextCycle == cycle + 1 && w'.pending == w.pending
            && w'.runs == w.runs[cycle := Run(goal, env.hashOf(goal), w.now, env.acquireOk(cycle), AfterCreate)]
  {
  }

  /** What is said of one dispatched task, put together from its record and its run. */
  lemma OneDispatched(env: Env, w: World, h: Hash, w': World)
    requires h in w.pending && h in w'.claims.ledger && w'.claims.ledger == w.claims.ledger[h := w'.claims.ledger[h]]
    requires TookClaim(w, w', h, w.nextCycle) && StartedRun(env, w, w', h, w.nextCycle)
    requires w'.now == w.now && w'.nextCycle == w.nextCycle + 1 && w'.pending == w.pending - {h}
    requires w.nextCycle !in w.runs && w'.runs == w.runs[w.nextCycle := w'.runs[w.nextCycle]]
    ensures Dispatched(env, w, [h], w')
  {
    assert (set k | k in [h]) == {h};
  }

  /** One due task: its own claim, one fresh run, its own payload, nothing else. */
  lemma DispatchOneTakes(env: Env, w: World, h: Hash)
    requires Inv(env, w) && h in w.claims.ledger && w.claims.ledger[h].state == RetryQueued
    ensures Inv(env, DispatchOne(env, w, h)) && Dispatched(env, w, [h], DispatchOne(env, w, h))
  {
    DispatchKeepsInv(env, w, h);
    DispatchIsInject(env, w, h);
    InjectRecord(env, w.(pending := w.pending - {h}), w.pending[h].goal);
    InjectRun(env, w.(pending := w.pending - {h}), w.pending[h].goal);
    OneDispatched(env, w, h, DispatchOne(env, w, h));
  }

  lemma LedgerTakenExtends(w: World, front: seq<Hash>, mid: World, last: Hash, w': World)
    requires DueOrder(w, front + [last]) && mid.now == w.now && mid.nextCycle == w.nextCycle + |front|
    requires LedgerTaken(w, front, mid) && LedgerTaken(mid, [last], w')
    ensures LedgerTaken(w, front + [last], w')
  {
    var order := front + [last];
    assert order[|front|] == last;
    forall i | 0 <= i < |order| ensures TookClaim(w, w', order[i], w.nextCycle + i) {
      if i < |front| {
        assert order[i] == front[i] != last;
        assert order[i] !in [last];
        assert TookClaim(w, mid, front[i], w.nextCycle + i);
      } else {
        assert TookClaim(mid, w', [last][0], mid.nextCycle + 0);
        assert last !in front by {
          forall j | 0 <= j < |front| ensures front[j] != last { assert order[j] == front[j]; }
        }
      }
    }
  }

  lemma RunsStartedExtends(env: Env, w: World, front: seq<Hash>, mid: World, last: Hash, w': World)
    requires RunsStarted(env, w, front, mid) && RunsStarted(env, mid, [last], w')
    requires mid.pending == w.pending - (set h | h in front)
    ensures RunsStarted(env, w, front + [last], w')
  {
    var order := front + [last];
    forall i | 0 <= i < |order| ensures StartedRun(env, w, w', order[i], w.nextCycle + i) {
      if i < |front| {
        assert StartedRun(env, w, mid, front[i], w.nextCycle + i);
      } else {
        assert StartedRun(env, mid, w', [last][0], mid.nextCycle + 0);
      }
    }
  }

  lemma DispatchedExtends(env: Env, w: World, front: seq<Hash>, mid: World, last: Hash, w': World)
    requires DueOrder(w, front + [last])
    requires Dispatched(env, w, front, mid) && Dispatched(env, mid, [last], w')
    ensures Dispatched(env, w, front + [last], w')
  {
    LedgerTakenExtends(w, front, mid, last, w');
    RunsStartedExtends(env, w, front, mid, last, w');
    assert (set h | h in front + [last]) == (set h | h in front) + (set h | h in [last]);
  }

  lemma DueOrderFront(w: World, front: seq<Hash>, last: Hash)
    requires DueOrder(w, front + [last])
    ensures DueOrder(w, front) && last !in front
    ensures last in w.claims.ledger && w.claims.ledger[last].state == RetryQueued
  {
    var order := front + [last];
    assert order[|front|] == last;
    forall i | 0 <= i < |front| ensures order[i] == front[i] { }
  }

  lemma {:induction false} DispatchDueTakesAll(env: Env, w: World, order: seq<Hash>)
    requires Inv(env, w) && DueOrder(w, order)
    ensures Inv(env, DispatchDue(env, w, order))
    ensures Dispatched(env, w, order, DispatchDue(env, w, order))
  {
    if order == [] {
      assert w.pending - (set h | h in order) == w.pending;
    } else {
      var front, last := order[..|order| - 1], order[|order| - 1];
      assert order == front + [last];
      DueOrderFront(w, front, last);
      DispatchDueTakesAll(env, w, front);
      var mid := DispatchDue(env, w, front);
      assert mid.claims.ledger[last] == w.claims.ledger[last];
      DispatchOneTakes(env, mid, last);
      var w' := DispatchOne(env, mid, last);
      DispatchedExtends(env, w, front, mid, last, w');
    }
  }

  lemma CleanInv(env: Env, w: World)
    requires Inv(env, w)
    ensures Inv(env, w.(pending := CleanPending(w.pending, w.claims.ledger)))
  {
    var w' := w.(pending := CleanPending(w.pending, w.claims.ledger));
    forall h | h in w.claims.ledger ensures RecordOk(env, w', h) {
      assert RecordOk(env, w, h);
    }
  }

  lemma RetrySweepInv(env: Env, w: World, order: seq<Hash>)
    requires Inv(env, w) && Enumerates(order, Due(w.claims.ledger, w.now))
    ensures Inv(env, RetrySweep(env, w, order))
  {
    CleanInv(env, w);
    DispatchDueTakesAll(env, w.(pending := CleanPending(w.pending, w.claims.ledger)), order);
  }

  // ----- Every step, every run -----

  lemma NextInv(env: Env, w: World, step: Step)
    requires Inv(env, w) && Enabled(env, w, step)
    ensures Inv(env, Next(env, w, step))
  {
    var w1 := w.(now := step.now);
    TickInv(env, w, step.now);
    match step
    case InjectStep(goal, _) => InjectKeepsInv(env, w1, goal);
    case ResumeStep(cycle, reply, _) => ResumeInv(env, w1, cycle, reply);
    case RetryStep(order, _) => RetrySweepInv(env, w1, order);
    case ReconcileStep(order, _) => ReconcileInv(env, w1, order);
  }

  lemma {:induction false} RunInv(env: Env, states: seq<World>, steps: seq<Step>, k: nat)
    requires IsRun(env, states, steps) && k < |states|
    ensures Inv(env, states[k])
  {
    if k == 0 {
      InitInv(env, states[0].now);
    } else {
      RunInv(env, states, steps, k - 1);
      assert Enabled(env, states[k - 1], steps[k - 1]);
      NextInv(env, states[k - 1], steps[k - 1]);
    }
  }
}
