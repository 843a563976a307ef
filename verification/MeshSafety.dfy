/** The main results about the claim protocol, over every run of it. */
module MeshSafety {
  import opened Wrappers
  import opened TaskClaims
  import opened MeshSpec
  import opened MeshInvariants

  // ----- No two owners -----

  function Max0(x: real): real {
    if x > 0.0 then x else 0.0
  }

  /** A claim is stall-released at the earliest `stallTimeoutMs` after it was made and
      pruned `cleanupAfterMs` after that; only then can its hash be claimed again. */
  function Limit(env: Env): real {
    Max0(env.stallTimeoutMs) + Max0(env.cleanupAfterMs)
  }

  ghost predicate YoungerThan(w: World, bound: real) {
    forall c :: c in w.runs && Owns(w.runs[c]) ==> w.now - w.runs[c].claimedAt < bound
  }

  ghost predicate Exclusive(w: World) {
    forall c, d | c in w.runs && d in w.runs && Owns(w.runs[c]) && Owns(w.runs[d]) ::
      w.runs[c].hash == w.runs[d].hash ==> c == d
  }

  /** What the ledger shows while run `c` owns its task: its own running claim, or
      that claim stall-released and not yet pruned. */
  ghost predicate Backed(env: Env, w: World, c: CycleId)
    requires c in w.runs
  {
    var r := w.runs[c];
    && r.hash in w.claims.ledger
    && var rec := w.claims.ledger[r.hash];
       || (rec.state == Running && rec.cycleId == Some(c) && rec.updatedAt == r.claimedAt)
       || (rec.state == Released && rec.updatedAt >= r.claimedAt + Max0(env.stallTimeoutMs))
  }

  ghost predicate Held(env: Env, w: World) {
    && Exclusive(w)
    && forall c :: c in w.runs && Owns(w.runs[c]) ==> Backed(env, w, c)
  }

  lemma InjectHeld(env: Env, w: World, goal: Goal)
    requires Inv(env, w) && Held(env, w)
    ensures Held(env, Inject(env, w, goal))
  {
    var h, w' := env.hashOf(goal), Inject(env, w, goal);
    if Claimable(w.claims, h) {
      InjectRecord(env, w, goal);
      forall c | c in w.runs && Owns(w.runs[c]) ensures w.runs[c].hash != h && Backed(env, w', c) {
        assert Backed(env, w, c);
      }
    } else {
      forall c | c in w'.runs && Owns(w'.runs[c]) ensures Backed(env, w', c) {
        assert Backed(env, w, c);
      }
    }
  }

  /** A resumed run touches its own claim or none: what it moves is the running claim
      that carries its own cycle id. */
  lemma ResumeTouchesOwnClaim(env: Env, w: World, cycle: CycleId, reply: Reply)
    requires Held(env, w) && cycle in w.runs && Answers(w.runs[cycle].phase, reply)
    ensures var l, l' := w.claims.ledger, Resume(env, w, cycle, reply).claims.ledger;
            && l'.Keys == l.Keys
            && forall h :: h in l && l'[h] != l[h] ==>
                 h == w.runs[cycle].hash && l[h].state == Running && l[h].cycleId == Some(cycle)
  {
    if Owns(w.runs[cycle]) { assert Backed(env, w, cycle); }
    match w.runs[cycle].phase
    case AfterCreate => ReleaseTouches(w, w.runs[cycle].hash);
    case BeforeRun => ReleaseTouches(w, w.runs[cycle].hash);
    case Executing => EnqueueTouches(env, w, w.runs[cycle].hash, w.runs[cycle].goal);
    case AfterRun(_) =>
      ReleaseTouches(w, w.runs[cycle].hash);
      EnqueueTouches(env, w, w.runs[cycle].hash, w.runs[cycle].goal);
    case BeforeRemove =>
  }

  /** Only this task's record may differ. */
  ghost predicate SameBut(l: Ledger, l': Ledger, h: Hash) {
    l'.Keys == l.Keys && forall k :: k in l && k != h ==> l'[k] == l[k]
  }

  lemma ReleaseTouches(w: World, h: Hash)
    ensures SameBut(w.claims.ledger, ReleaseTask(w, h).claims.ledger, h)
    ensures ReleaseTask(w, h).runs == w.runs && ReleaseTask(w, h).now == w.now
  {
  }

  lemma EnqueueTouches(env: Env, w: World, h: Hash, goal: Goal)
    ensures SameBut(w.claims.ledger, Enqueued(env, w, h, goal).0.claims.ledger, h)
    ensures Enqueued(env, w, h, goal).0.runs == w.runs && Enqueued(env, w, h, goal).0.now == w.now
  {
  }

  /** Only this run's phase may differ. */
  ghost predicate SamePhasesBut(w: World, w': World, cycle: CycleId)
    requires cycle in w.runs
  {
    && w'.now == w.now && cycle in w'.runs
    && w'.runs == w.runs[cycle := w.runs[cycle].(phase := w'.runs[cycle].phase)]
  }

  lemma EndPhases(w: World, cycle: CycleId)
    requires cycle in w.runs
    ensures SamePhasesBut(w, End(w, cycle), cycle) && End(w, cycle).runs[cycle].phase == Ended
    ensures End(w, cycle).claims == w.claims
  {
  }

  /** A resumed run changes its own phase; one that still owns its task after it has moved
      no claim. */
  lemma ResumeRuns(env: Env, w: World, cycle: CycleId, reply: Reply)
    requires cycle in w.runs && Answers(w.runs[cycle].phase, reply)
    ensures var w' := Resume(env, w, cycle, reply);
            SamePhasesBut(w, w', cycle) && (Owns(w'.runs[cycle]) ==> Owns(w.runs[cycle]) && w'.claims == w.claims)
  {
    var r := w.runs[cycle];
    ReleaseTouches(w, r.hash);
    EnqueueTouches(env, w, r.hash, r.goal);
    match r.phase
    case AfterCreate => EndPhases(ReleaseTask(w, r.hash), cycle);
    case BeforeRun => EndPhases(ReleaseTask(w, r.hash), cycle);
    case Executing => EndPhases(Enqueued(env, w, r.hash, r.goal).0, cycle);
    case AfterRun(verified) =>
      EndPhases(if verified then ReleaseTask(w, r.hash) else Enqueued(env, w, r.hash, r.goal).0, cycle);
    case BeforeRemove => EndPhases(w, cycle);
  }

  lemma ResumeHeld(env: Env, w: World, cycle: CycleId, reply: Reply)
    requires Held(env, w) && cycle in w.runs && Answers(w.runs[cycle].phase, reply)
    ensures Held(env, Resume(env, w, cycle, reply))
  {
    var w' := Resume(env, w, cycle, reply);
    ResumeTouchesOwnClaim(env, w, cycle, reply);
    ResumeRuns(env, w, cycle, reply);
    forall c | c in w'.runs && Owns(w'.runs[c]) ensures Backed(env, w', c) {
      assert Backed(env, w, c);
    }
  }

  lemma PendingPlaysNoPart(env: Env, w: World, pending: map<Hash, Pending>)
    requires Held(env, w)
    ensures Held(env, w.(pending := pending))
  {
    forall c | c in w.runs && Owns(w.runs[c]) ensures Backed(env, w.(pending := pending), c) {
      assert Backed(env, w, c);
    }
  }

  lemma RetrySweepHeld(env: Env, w: World, order: seq<Hash>)
    requires Inv(env, w) && Held(env, w) && Enumerates(order, Due(w.claims.ledger, w.now))
    ensures Held(env, RetrySweep(env, w, order))
  {
    var clean := w.(pending := CleanPending(w.pending, w.claims.ledger));
    CleanInv(env, w);
    PendingPlaysNoPart(env, w, clean.pending);
    DispatchDueTakesAll(env, clean, order);
    DispatchedHeld(env, clean, order, RetrySweep(env, w, order));
  }

  lemma DispatchedHeld(env: Env, w: World, order: seq<Hash>, w': World)
    requires DueOrder(w, order) && Dispatched(env, w, order, w')
    requires Held(env, w) && forall c :: c in w.runs ==> c < w.nextCycle
    ensures Held(env, w')
  {
    forall c | c in w'.runs && Owns(w'.runs[c])
      ensures Backed(env, w', c)
      ensures if c in w.runs then w'.runs[c].hash !in order
              else w.nextCycle <= c < w.nextCycle + |order| && w'.runs[c].hash == order[c - w.nextCycle]
    {
      if c in w.runs {
        assert Backed(env, w, c);
      } else {
        var i := c - w.nextCycle;
        assert TookClaim(w, w', order[i], w.nextCycle + i) && StartedRun(env, w, w', order[i], w.nextCycle + i);
      }
    }
  }

  lemma ReconcileHeld(env: Env, w: World, order: seq<Hash>)
    requires Inv(env, w) && Held(env, w) && Enumerates(order, w.claims.ledger.Keys)
    requires YoungerThan(w, Limit(env))
    ensures Held(env, w.(claims := ReconcileAll(env, w.claims, order, w.now)))
  {
    var w' := w.(claims := ReconcileAll(env, w.claims, order, w.now));
    ReconcileAt(env, w.claims, order, w.now);
    forall c | c in w'.runs && Owns(w'.runs[c]) ensures Backed(env, w', c) {
      assert Backed(env, w, c);
      assert RecordOk(env, w, w.runs[c].hash);
    }
  }

  lemma TickHeld(env: Env, w: World, now: Time)
    requires Held(env, w) && w.now <= now
    ensures Held(env, w.(now := now))
  {
    forall c | c in w.runs && Owns(w.runs[c]) ensures Backed(env, w.(now := now), c) { assert Backed(env, w, c); }
  }

  lemma NextHeld(env: Env, w: World, step: Step)
    requires Inv(env, w) && Held(env, w) && Enabled(env, w, step)
    requires YoungerThan(Next(env, w, step), Limit(env))
    ensures Held(env, Next(env, w, step))
  {
    var w1 := w.(now := step.now);
    TickInv(env, w, step.now);
    TickHeld(env, w, step.now);
    match step
    case InjectStep(goal, _) => InjectHeld(env, w1, goal);
    case ResumeStep(cycle, reply, _) => ResumeHeld(env, w1, cycle, reply);
    case RetryStep(order, _) => RetrySweepHeld(env, w1, order);
    case ReconcileStep(order, _) => assert YoungerThan(w1, Limit(env)); ReconcileHeld(env, w1, order);
  }

  /** No two runs ever own the same task, over every interleaving of injects, retry
      sweeps, stall releases and prunes, as long as no ownership reaches the limit. */
  lemma {:induction false} OwnershipsNeverOverlap(env: Env, states: seq<World>, steps: seq<Step>, k: nat)
    requires IsRun(env, states, steps) && k < |states|
    requires forall i :: 0 <= i <= k ==> YoungerThan(states[i], Limit(env))
    ensures Exclusive(states[k]) && Held(env, states[k])
  {
    if k > 0 {
      OwnershipsNeverOverlap(env, states, steps, k - 1);
      RunInv(env, states, steps, k - 1);
      assert Enabled(env, states[k - 1], steps[k - 1]);
      assert states[k - 1 + 1] == Next(env, states[k - 1], steps[k - 1]);
      NextHeld(env, states[k - 1], steps[k - 1]);
    }
  }

  /** In such a run, what a continuation releases or queues by hash is its own claim: the
      running claim that carries its own cycle id. */
  lemma ContinuationsTouchOwnClaims(env: Env, states: seq<World>, steps: seq<Step>, k: nat, h: Hash)
    requires IsRun(env, states, steps) && k < |steps| && steps[k].ResumeStep?
    requires forall i :: 0 <= i <= k ==> YoungerThan(states[i], Limit(env))
    ensures var l, l' := states[k].claims.ledger, states[k + 1].claims.ledger;
            && l'.Keys == l.Keys
            && (h in l && l'[h] != l[h] ==>
                  && steps[k].cycle in states[k].runs && h == states[k].runs[steps[k].cycle].hash
                  && l[h].state == Running && l[h].cycleId == Some(steps[k].cycle))
  {
    OwnershipsNeverOverlap(env, states, steps, k);
    assert Enabled(env, states[k], steps[k]) && states[k + 1] == Next(env, states[k], steps[k]);
    TickHeld(env, states[k], steps[k].now);
    ResumeTouchesOwnClaim(env, states[k].(now := steps[k].now), steps[k].cycle, steps[k].reply);
  }

  /** In every run whose ownerships all stay shorter than `bound`, no two overlap. */
  ghost predicate SafeBelow(env: Env, bound: real) {
    forall states, steps ::
      IsRun(env, states, steps) && (forall i :: 0 <= i < |states| ==> YoungerThan(states[i], bound))
      ==> forall i :: 0 <= i < |states| ==> Exclusive(states[i])
  }

  lemma FourSteps(env: Env, w0: World, w1: World, w2: World, w3: World, w4: World, steps: seq<Step>)
    requires |steps| == 4 && w0 == Init(w0.now)
    requires Enabled(env, w0, steps[0]) && w1 == Next(env, w0, steps[0])
    requires Enabled(env, w1, steps[1]) && w2 == Next(env, w1, steps[1])
    requires Enabled(env, w2, steps[2]) && w3 == Next(env, w2, steps[2])
    requires Enabled(env, w3, steps[3]) && w4 == Next(env, w3, steps[3])
    ensures IsRun(env, [w0, w1, w2, w3, w4], steps)
  {
    var states := [w0, w1, w2, w3, w4];
    forall i | 0 <= i < 4 ensures Enabled(env, states[i], steps[i]) && states[i + 1] == Next(env, states[i], steps[i]) {
      assert i == 0 || i == 1 || i == 2 || i == 3;
    }
  }

  /** A run that loses exclusivity: the first owner is stall-released and pruned while it
      still works, and the same goal is injected again at the moment of the prune. */
  lemma OverlapAtLimit(env: Env, goal: Goal) returns (states: seq<World>, steps: seq<Step>)
    ensures IsRun(env, states, steps)
    ensures forall i, bound :: 0 <= i < |states| && Limit(env) < bound ==> YoungerThan(states[i], bound)
    ensures !Exclusive(states[|states| - 1])
  {
    var h, s, l := env.hashOf(goal), Max0(env.stallTimeoutMs), Limit(env);
    steps := [InjectStep(goal, 0.0), ReconcileStep([h], s), ReconcileStep([h], l), InjectStep(goal, l)];
    var w0 := Init(0.0);
    var w1 := Next(env, w0, steps[0]);
    FirstInject(env, goal);
    var w2, w3 := SweptTwice(env, w1, h);
    var w4 := Next(env, w3, steps[3]);
    InjectedAgain(env, w3, goal);
    FourSteps(env, w0, w1, w2, w3, w4, steps);
    states := [w0, w1, w2, w3, w4];
  }

  /** One run owns the hash, claimed at time zero. */
  ghost predicate OwnedOnce(w: World, h: Hash) {
    && w.nextCycle == 1 && w.runs.Keys == {0} && Owns(w.runs[0]) && w.runs[0].hash == h && w.runs[0].claimedAt == 0.0
  }

  lemma FirstInject(env: Env, goal: Goal)
    ensures var h, w := env.hashOf(goal), Next(env, Init(0.0), InjectStep(goal, 0.0));
            && Enabled(env, Init(0.0), InjectStep(goal, 0.0))
            && OwnedOnce(w, h) && w.now == 0.0
            && w.claims.ledger.Keys == {h} && w.claims.ledger[h].updatedAt == 0.0 && w.claims.ledger[h].state == Running
  {
  }

  /** The stall sweep releases the claim and the next one prunes it; the run is unaware. */
  lemma SweptTwice(env: Env, w1: World, h: Hash) returns (w2: World, w3: World)
    requires OwnedOnce(w1, h) && w1.now == 0.0
    requires w1.claims.ledger.Keys == {h} && w1.claims.ledger[h].updatedAt == 0.0
             && w1.claims.ledger[h].state == Running
    ensures var s, l := ReconcileStep([h], Max0(env.stallTimeoutMs)), ReconcileStep([h], Limit(env));
            && Enabled(env, w1, s) && w2 == Next(env, w1, s) && Enabled(env, w2, l) && w3 == Next(env, w2, l)
    ensures OwnedOnce(w2, h) && OwnedOnce(w3, h) && w3.claims.ledger.Keys == {}
    ensures w2.now == Max0(env.stallTimeoutMs) && w3.now == Limit(env)
  {
    var s, l := Max0(env.stallTimeoutMs), Limit(env);
    ReconcileAt(env, w1.claims, [h], s);
    w2 := Next(env, w1, ReconcileStep([h], s));
    assert h in [h] && w2.claims.ledger.Keys == {h} && w2.claims.ledger[h].updatedAt == s;
    ReconcileAt(env, w2.claims, [h], l);
    w3 := Next(env, w2, ReconcileStep([h], l));
    assert w3.claims.ledger.Keys == {};
  }

  lemma InjectedAgain(env: Env, w: World, goal: Goal)
    requires OwnedOnce(w, env.hashOf(goal)) && w.claims.ledger.Keys == {} && w.now == Limit(env)
    ensures var step := InjectStep(goal, Limit(env));
            && Enabled(env, w, step) && !Exclusive(Next(env, w, step))
            && forall bound :: Limit(env) < bound ==> YoungerThan(Next(env, w, step), bound)
  {
    var w' := Next(env, w, InjectStep(goal, Limit(env)));
    assert w'.runs[0].hash == w'.runs[1].hash && Owns(w'.runs[0]) && Owns(w'.runs[1]);
  }

  /** The limit is exact: bounding every ownership by `bound` excludes overlaps if and
      only if `bound` is at most the limit. */
  lemma ExclusiveExactlyUpToLimit(env: Env, bound: real)
    ensures SafeBelow(env, bound) <==> bound <= Limit(env)
  {
    if bound <= Limit(env) {
      forall states, steps, i |
        IsRun(env, states, steps) && (forall j :: 0 <= j < |states| ==> YoungerThan(states[j], bound))
        && 0 <= i < |states|
        ensures Exclusive(states[i])
      {
        forall j | 0 <= j <= i ensures YoungerThan(states[j], Limit(env)) {
          assert YoungerThan(states[j], bound);
        }
        OwnershipsNeverOverlap(env, states, steps, i);
      }
    } else {
      var states, steps := OverlapAtLimit(env, "");
      assert forall i :: 0 <= i < |states| ==> YoungerThan(states[i], bound);
      assert !Exclusive(states[|states| - 1]);
    }
  }

  // ----- Retries -----

  /** After every step, a claim waiting for a retry has its goal on file. */
  lemma WaitingClaimsHaveTheirGoal(env: Env, states: seq<World>, steps: seq<Step>, k: nat, h: Hash)
    requires IsRun(env, states, steps) && k < |states|
    requires h in states[k].claims.ledger && states[k].claims.ledger[h].state == RetryQueued
    ensures h in states[k].pending && env.hashOf(states[k].pending[h].goal) == h
  {
    RunInv(env, states, steps, k);
    assert RecordOk(env, states[k], h);
  }

  lemma PendingAfterSweep(env: Env, w: World, order: seq<Hash>, w': World)
    requires Inv(env, w) && forall h :: h in order ==> h in w.claims.ledger
    requires Dispatched(env, w.(pending := CleanPending(w.pending, w.claims.ledger)), order, w')
    ensures w'.pending.Keys == (set h | h in w'.claims.ledger && w'.claims.ledger[h].state == RetryQueued)
  {
    var clean := w.(pending := CleanPending(w.pending, w.claims.ledger));
    forall h ensures h in w'.pending <==> h in w'.claims.ledger && w'.claims.ledger[h].state == RetryQueued {
      if h in w.claims.ledger {
        assert RecordOk(env, w, h);
        if h in order {
          var i :| 0 <= i < |order| && order[i] == h;
          assert TookClaim(clean, w', order[i], clean.nextCycle + i);
        }
      }
    }
  }

  /** A retry sweep finds a goal for every due claim, wins each of those claims with a
      fresh run, leaves every other record alone, and ends with goals on file for
      exactly the claims still waiting. */
  ghost predicate SweepSettles(env: Env, w: World, order: seq<Hash>, w': World) {
    && (forall i :: 0 <= i < |order| ==>
          order[i] in w.pending && env.hashOf(w.pending[order[i]].goal) == order[i])
    && (forall i :: 0 <= i < |order| ==> TookClaim(w, w', order[i], w.nextCycle + i))
    && RunsStarted(env, w, order, w')
    && w'.claims.ledger.Keys == w.claims.ledger.Keys
    && (forall h :: h in w.claims.ledger && h !in order ==> w'.claims.ledger[h] == w.claims.ledger[h])
    && w'.pending.Keys == (set h | h in w'.claims.ledger && w'.claims.ledger[h].state == RetryQueued)
    && (forall h :: h in w'.pending ==> h in w.pending && w'.pending[h] == w.pending[h])
  }

  lemma SweepSettlesWorld(env: Env, w: World, order: seq<Hash>)
    requires Inv(env, w) && Enumerates(order, Due(w.claims.ledger, w.now))
    ensures SweepSettles(env, w, order, RetrySweep(env, w, order))
  {
    var clean, w' := w.(pending := CleanPending(w.pending, w.claims.ledger)), RetrySweep(env, w, order);
    CleanInv(env, w);
    DispatchDueTakesAll(env, clean, order);
    PendingAfterSweep(env, w, order, w');
    FromClean(env, w, clean.pending, order, w');
    forall i | 0 <= i < |order|
      ensures order[i] in w.pending && env.hashOf(w.pending[order[i]].goal) == order[i]
    {
      assert order[i] in order;
      assert RecordOk(env, w, order[i]);
    }
  }

  lemma FromClean(env: Env, w: World, pending: map<Hash, Pending>, order: seq<Hash>, w': World)
    requires Dispatched(env, w.(pending := pending), order, w')
    requires forall h :: h in pending ==> h in w.pending && pending[h] == w.pending[h]
    ensures forall i :: 0 <= i < |order| ==> TookClaim(w, w', order[i], w.nextCycle + i)
    ensures RunsStarted(env, w, order, w')
  {
    var clean := w.(pending := pending);
    forall i | 0 <= i < |order| ensures TookClaim(w, w', order[i], w.nextCycle + i) {
      assert TookClaim(clean, w', order[i], clean.nextCycle + i);
    }
    forall i | 0 <= i < |order| ensures StartedRun(env, w, w', order[i], w.nextCycle + i) {
      assert StartedRun(env, clean, w', order[i], clean.nextCycle + i);
    }
  }

  lemma RetrySweepsSettle(env: Env, states: seq<World>, steps: seq<Step>, k: nat)
    requires IsRun(env, states, steps) && k < |steps| && steps[k].RetryStep?
    ensures SweepSettles(env, states[k].(now := steps[k].now), steps[k].order, states[k + 1])
  {
    assert Enabled(env, states[k], steps[k]);
    RunInv(env, states, steps, k);
    TickInv(env, states[k], steps[k].now);
    SweepSettlesWorld(env, states[k].(now := steps[k].now), steps[k].order);
  }

  /** An attempt number never exceeds the limit, and between a registration and the next
      one a task moves at most three times per allowed attempt. */
  lemma AttemptsAndMovesAreBounded(env: Env, states: seq<World>, steps: seq<Step>, k: nat, h: Hash)
    requires IsRun(env, states, steps) && k < |states|
    ensures h in states[k].claims.ledger ==> 1 <= states[k].claims.ledger[h].attempt <= env.maxAttempts
    ensures MovesOf(states[k].claims.events, h) <= 3 * env.maxAttempts
  {
    RunInv(env, states, steps, k);
    assert Counted(env, states[k].claims, h);
    if h in states[k].claims.ledger { assert RecordOk(env, states[k], h); }
  }

  lemma {:induction false} LatestOfIs(events: seq<ClaimEvent>, h: Hash) returns (p: nat)
    requires exists i :: 0 <= i < |events| && events[i].taskHash == h
    ensures p < |events| && events[p].taskHash == h && LatestOf(events, h) == Some(events[p])
    ensures forall i :: p < i < |events| ==> events[i].taskHash != h
  {
    p := |events| - 1;
    if events[p].taskHash != h { p := LatestOfIs(events[..p], h); }
  }

  lemma {:induction false} UsesUpPrefix(env: Env, events: seq<ClaimEvent>, n: nat)
    requires UsesUp(env, events) && n <= |events|
    ensures UsesUp(env, events[..n])
  {
    if n < |events| {
      var rest := events[..|events| - 1];
      UsesUpPrefix(env, rest, n);
      assert rest[..n] == events[..n];
    } else {
      assert events[..n] == events;
    }
  }

  /** Both events are of one registration of the task. */
  ghost predicate SameLife(events: seq<ClaimEvent>, i: nat, j: nat)
    requires i <= j < |events|
  {
    && events[i].taskHash == events[j].taskHash
    && forall m :: i < m <= j && events[m].taskHash == events[j].taskHash ==> events[m].previous.Some?
  }

  lemma {:induction false} LaterMovesLeaveFewer(env: Env, events: seq<ClaimEvent>, i: nat, j: nat)
    requires UsesUp(env, events) && i < j < |events| && SameLife(events, i, j)
    ensures 0 <= MovesLeft(env, events[j].state, events[j].attempt) < MovesLeft(env, events[i].state, events[i].attempt)
  {
    UsesUpPrefix(env, events, j + 1);
    var upTo, rest := events[..j + 1], events[..j];
    assert upTo[..|upTo| - 1] == rest && upTo[|upTo| - 1] == events[j];
    assert rest[i] == events[i];
    var p := LatestOfIs(rest, events[j].taskHash);
    assert UsesOne(env, Some(events[p]), events[j]);
    if i < p { LaterMovesLeaveFewer(env, events, i, p); }
  }

  /** Along any run the moves a task has left fall strictly with each of its transitions
      between two registrations, manual injects that pre-empt a backoff included. */
  lemma EveryTransitionUsesOne(env: Env, states: seq<World>, steps: seq<Step>, k: nat, i: nat, j: nat)
    requires IsRun(env, states, steps) && k < |states|
    requires i < j < |states[k].claims.events| && SameLife(states[k].claims.events, i, j)
    ensures var events := states[k].claims.events;
            0 <= MovesLeft(env, events[j].state, events[j].attempt) < MovesLeft(env, events[i].state, events[i].attempt)
  {
    RunInv(env, states, steps, k);
    LaterMovesLeaveFewer(env, states[k].claims.events, i, j);
  }

  /** Every workspace in use belongs to a run that has not ended, and no ended run keeps one. */
  lemma WorkspacesComeBack(env: Env, states: seq<World>, steps: seq<Step>, k: nat)
    requires IsRun(env, states, steps) && k < |states|
    ensures states[k].workspaces ==
            (set c | c in states[k].runs && states[k].runs[c].hasWorkspace && states[k].runs[c].phase != Ended)
  {
    RunInv(env, states, steps, k);
  }
}
