/** What each step of the protocol does to claims, goals, runs and workspaces, over every
    run and in full: which way a receipt sends its task, and what becomes of everything else. */
module MeshSteps {
  import opened Wrappers
  import opened TaskClaims
  import opened MeshSpec
  import opened MeshInvariants
  import opened MeshSafety

  lemma ThatStep(env: Env, states: seq<World>, steps: seq<Step>, k: nat)
    requires IsRun(env, states, steps) && k < |steps|
    ensures Inv(env, states[k]) && Enabled(env, states[k], steps[k])
    ensures states[k + 1] == Next(env, states[k], steps[k])
  {
    RunInv(env, states, steps, k);
    assert Enabled(env, states[k], steps[k]);
  }

  // ----- Giving a task back -----

  /** The claim of `h` moves to `state` at `now`; no other claim changes. */
  ghost predicate MovesTo(w: World, w': World, h: Hash, state: ClaimState, now: Time, retryAfter: Option<Time>)
    requires h in w.claims.ledger
  {
    var r := w.claims.ledger[h];
    && w'.claims.ledger ==
       w.claims.ledger[h := ClaimRecord(state, r.attempt, r.firstSeen, now, r.cycleId, retryAfter)]
    && w'.claims.events == w.claims.events + [ClaimEvent(h, Some(r.state), state, now, r.attempt, r.cycleId)]
  }

  /** A success or an abort: a live claim is released; no goal is filed. */
  ghost predicate GivenBack(w: World, w': World, h: Hash, now: Time) {
    && w'.pending == w.pending
    && if h in w.claims.ledger && w.claims.ledger[h].state != Released
       then MovesTo(w, w', h, Released, now, w.claims.ledger[h].retryAfter)
       else w'.claims == w.claims
  }

  /** The wait after attempt number `attempt`. */
  function Wait(env: Env, attempt: nat): real
    requires attempt >= 1
  {
    env.baseMs * Pow(env.factor, attempt - 1)
  }

  /** It is the base after the first attempt and grows by the factor with every further one. */
  lemma WaitGrows(env: Env, attempt: nat)
    requires attempt >= 1
    ensures Wait(env, 1) == env.baseMs && Wait(env, attempt + 1) == env.factor * Wait(env, attempt)
    ensures Backoff(env, attempt) == Wait(env, attempt)
  {
    var power := Pow(env.factor, attempt - 1);
    assert Pow(env.factor, attempt) == env.factor * power;
    assert env.baseMs * (env.factor * power) == env.factor * (env.baseMs * power);
  }

  /** The claim waits `wait` from `now` on for its next attempt, and its goal is filed. */
  ghost predicate Waits(w: World, w': World, h: Hash, goal: Goal, wait: real, now: Time)
    requires h in w.claims.ledger
  {
    && MovesTo(w, w', h, RetryQueued, now, Some(now + wait))
    && w'.pending == w.pending[h := Pending(goal, w.claims.ledger[h].attempt + 1, wait, now + wait)]
  }

  /** A failure: a running claim with attempts left waits as long as its attempt number
      says and its goal is filed; one without is released; a claim that is not running stays. */
  ghost predicate Failed(env: Env, w: World, w': World, h: Hash, goal: Goal, now: Time)
    requires h in w.claims.ledger ==> w.claims.ledger[h].attempt >= 1
  {
    if h !in w.claims.ledger || w.claims.ledger[h].state != Running then
      w'.claims == w.claims && w'.pending == w.pending
    else
      var attempt := w.claims.ledger[h].attempt;
      if attempt < env.maxAttempts then
        Waits(w, w', h, goal, Wait(env, attempt), now)
      else GivenBack(w, w', h, now)
  }

  lemma ReleaseGivesBack(w: World, h: Hash)
    ensures GivenBack(w, ReleaseTask(w, h), h, w.now)
  {
  }

  lemma EnqueueWaits(env: Env, w: World, h: Hash, goal: Goal)
    requires h in w.claims.ledger && w.claims.ledger[h].state == Running
    requires 1 <= w.claims.ledger[h].attempt < env.maxAttempts
    ensures Failed(env, w, Enqueued(env, w, h, goal).0, h, goal, w.now)
  {
    var r := w.claims.ledger[h];
    var backoff := Wait(env, r.attempt);
    WaitGrows(env, r.attempt);
    var moved := Transition(w.claims, h, RetryQueued, None, w.now).ledger;
    assert moved[h := moved[h].(retryAfter := Some(w.now + backoff))] ==
           w.claims.ledger[h := ClaimRecord(RetryQueued, r.attempt, r.firstSeen, w.now, r.cycleId,
                                            Some(w.now + backoff))];
    assert Enqueued(env, w, h, goal).0.pending ==
           w.pending[h := Pending(goal, r.attempt + 1, backoff, w.now + backoff)];
  }

  lemma EnqueueFails(env: Env, w: World, h: Hash, goal: Goal)
    requires Inv(env, w)
    ensures h in w.claims.ledger ==> w.claims.ledger[h].attempt >= 1
    ensures Failed(env, w, Enqueued(env, w, h, goal).0, h, goal, w.now)
  {
    if h in w.claims.ledger {
      assert RecordOk(env, w, h);
      var r := w.claims.ledger[h];
      if r.state == Running && r.attempt < env.maxAttempts { EnqueueWaits(env, w, h, goal); }
    }
  }

  // ----- Continuations -----

  /** The run moves on to `phase`, and nothing else of it or of other runs changes. */
  ghost predicate MovesOn(w: World, w': World, c: CycleId, phase: Phase)
    requires c in w.runs
  {
    && w'.runs == w.runs[c := w.runs[c].(phase := phase)]
    && w'.nextCycle == w.nextCycle
    && w'.workspaces == (if phase == Ended && w.runs[c].hasWorkspace then w.workspaces - {c} else w.workspaces)
  }

  /** Where the answer to its await sends a run. */
  ghost predicate GoesOn(w: World, w': World, c: CycleId, reply: Reply)
    requires c in w.runs && Answers(w.runs[c].phase, reply)
  {
    var last := if w.runs[c].hasWorkspace then BeforeRemove else Ended;
    match w.runs[c].phase
    case AfterCreate => MovesOn(w, w', c, if reply.ok then BeforeRun else Ended)
    case BeforeRun => MovesOn(w, w', c, if reply.ok then Executing else Ended)
    case Executing => MovesOn(w, w', c, if reply.Receipt? then AfterRun(reply.verified) else Ended)
    case AfterRun(_) => MovesOn(w, w', c, last)
    case BeforeRemove => MovesOn(w, w', c, Ended)
  }

  /** What it makes the run do to its task. */
  ghost predicate Disposes(env: Env, w: World, w': World, c: CycleId, reply: Reply, now: Time)
    requires c in w.runs && Answers(w.runs[c].phase, reply)
    requires w.runs[c].hash in w.claims.ledger ==> w.claims.ledger[w.runs[c].hash].attempt >= 1
  {
    var r := w.runs[c];
    if r.phase == AfterRun(true) || (r.phase in {AfterCreate, BeforeRun} && reply == HooksDone(false)) then
      GivenBack(w, w', r.hash, now)
    else if r.phase == AfterRun(false) || reply == Threw then
      Failed(env, w, w', r.hash, r.goal, now)
    else
      w'.claims == w.claims && w'.pending == w.pending
  }

  lemma ResumeGoesOn(env: Env, w: World, c: CycleId, reply: Reply)
    requires c in w.runs && Answers(w.runs[c].phase, reply)
    ensures GoesOn(w, Resume(env, w, c, reply), c, reply) && Resume(env, w, c, reply).now == w.now
  {
    var failed := Enqueued(env, w, w.runs[c].hash, w.runs[c].goal).0;
    assert failed.runs == w.runs && failed.nextCycle == w.nextCycle && failed.workspaces == w.workspaces;
  }

  lemma ResumeDisposes(env: Env, w: World, c: CycleId, reply: Reply)
    requires Inv(env, w) && c in w.runs && Answers(w.runs[c].phase, reply)
    ensures w.runs[c].hash in w.claims.ledger ==> w.claims.ledger[w.runs[c].hash].attempt >= 1
    ensures Disposes(env, w, Resume(env, w, c, reply), c, reply, w.now)
  {
    ReleaseGivesBack(w, w.runs[c].hash);
    EnqueueFails(env, w, w.runs[c].hash, w.runs[c].goal);
  }

  /** One continuation in full. */
  lemma ContinuationDoes(env: Env, states: seq<World>, steps: seq<Step>, k: nat)
    requires IsRun(env, states, steps) && k < |steps| && steps[k].ResumeStep?
    ensures steps[k].cycle in states[k].runs && Answers(states[k].runs[steps[k].cycle].phase, steps[k].reply)
    ensures var h := states[k].runs[steps[k].cycle].hash;
            h in states[k].claims.ledger ==> states[k].claims.ledger[h].attempt >= 1
    ensures GoesOn(states[k], states[k + 1], steps[k].cycle, steps[k].reply)
    ensures Disposes(env, states[k], states[k + 1], steps[k].cycle, steps[k].reply, steps[k].now)
    ensures states[k + 1].now == steps[k].now
  {
    ThatStep(env, states, steps, k);
    TickInv(env, states[k], steps[k].now);
    ResumeGoesOn(env, states[k].(now := steps[k].now), steps[k].cycle, steps[k].reply);
    ResumeDisposes(env, states[k].(now := steps[k].now), steps[k].cycle, steps[k].reply);
  }

  // ----- From one continuation to the next -----

  /** The step continues run `c`. */
  predicate IsOf(step: Step, c: CycleId) {
    step.ResumeStep? && step.cycle == c
  }

  lemma OthersLeaveRun(env: Env, states: seq<World>, steps: seq<Step>, k: nat, c: CycleId)
    requires IsRun(env, states, steps) && k < |steps| && c in states[k].runs && !IsOf(steps[k], c)
    ensures c in states[k + 1].runs && states[k + 1].runs[c] == states[k].runs[c]
  {
    ThatStep(env, states, steps, k);
    match steps[k]
    case InjectStep(goal, now) =>
    case ResumeStep(other, reply, now) => ContinuationDoes(env, states, steps, k);
    case RetryStep(order, now) => RetrySweepsSettle(env, states, steps, k);
    case ReconcileStep(order, now) =>
  }

  lemma {:induction false} RunWaits(env: Env, states: seq<World>, steps: seq<Step>, i: nat, j: nat, c: CycleId)
    requires IsRun(env, states, steps) && i <= j < |states| && c in states[i].runs
    requires forall k :: i <= k < j ==> !IsOf(steps[k], c)
    ensures c in states[j].runs && states[j].runs[c] == states[i].runs[c]
  {
    if i < j {
      RunWaits(env, states, steps, i, j - 1, c);
      OthersLeaveRun(env, states, steps, j - 1, c);
    }
  }

  /** Steps `i` and `j` are one run's, with none of its own in between. */
  ghost predicate Successive(steps: seq<Step>, i: nat, j: nat) {
    && i < j < |steps| && steps[i].ResumeStep? && IsOf(steps[j], steps[i].cycle)
    && forall k :: i < k < j ==> !IsOf(steps[k], steps[i].cycle)
  }

  /** The hash of run `c` is claimed, running, and by that run. */
  predicate HoldsOwnClaim(w: World, c: CycleId)
    requires c in w.runs
  {
    var h := w.runs[c].hash;
    h in w.claims.ledger && w.claims.ledger[h].state == Running && w.claims.ledger[h].cycleId == Some(c)
  }

  lemma ReceiptArrives(env: Env, states: seq<World>, steps: seq<Step>, i: nat, j: nat, verified: bool)
    requires IsRun(env, states, steps) && Successive(steps, i, j) && steps[i].reply == Receipt(verified)
    ensures steps[i].cycle in states[j].runs && states[j].runs[steps[i].cycle].phase == AfterRun(verified)
  {
    ContinuationDoes(env, states, steps, i);
    RunWaits(env, states, steps, i + 1, j, steps[i].cycle);
  }

  /** The receipt decides: when the run goes on after it, still holding its own claim, the
      claim is released if the receipt was verified or no attempt is left. Otherwise, and
      only then, it waits for a retry as long as its attempt number says, with the goal filed. */
  lemma ReceiptDecides(env: Env, states: seq<World>, steps: seq<Step>, i: nat, j: nat, verified: bool)
    requires IsRun(env, states, steps) && Successive(steps, i, j) && steps[i].reply == Receipt(verified)
    requires steps[i].cycle in states[j].runs && HoldsOwnClaim(states[j], steps[i].cycle)
    ensures var w, w', c := states[j], states[j + 1], steps[i].cycle;
            var h := w.runs[c].hash;
            var attempt := w.claims.ledger[h].attempt;
            && attempt >= 1
            && if !verified && attempt < env.maxAttempts
               then Waits(w, w', h, w.runs[c].goal, Wait(env, attempt), steps[j].now)
               else GivenBack(w, w', h, steps[j].now)
  {
    ReceiptArrives(env, states, steps, i, j, verified);
    ContinuationDoes(env, states, steps, j);
  }

  /** A dispatch that throws counts as a failed receipt, at once; the run ends there. */
  lemma ThrowDecides(env: Env, states: seq<World>, steps: seq<Step>, k: nat)
    requires IsRun(env, states, steps) && k < |steps| && steps[k].ResumeStep? && steps[k].reply == Threw
    requires steps[k].cycle in states[k].runs && HoldsOwnClaim(states[k], steps[k].cycle)
    ensures var w, w', c := states[k], states[k + 1], steps[k].cycle;
            var h := w.runs[c].hash;
            var attempt := w.claims.ledger[h].attempt;
            && attempt >= 1 && c in w'.runs && w'.runs[c].phase == Ended && c !in w'.workspaces
            && if attempt < env.maxAttempts
               then Waits(w, w', h, w.runs[c].goal, Wait(env, attempt), steps[k].now)
               else GivenBack(w, w', h, steps[k].now)
  {
    ContinuationDoes(env, states, steps, k);
    RunInv(env, states, steps, k);
  }

  /** A hook that fails before the dispatch gives the task back for good: its claim is
      released, no goal is filed, the run ends and its workspace goes back. */
  lemma HookFailureAborts(env: Env, states: seq<World>, steps: seq<Step>, k: nat)
    requires IsRun(env, states, steps) && k < |steps| && steps[k].ResumeStep? && steps[k].reply == HooksDone(false)
    requires steps[k].cycle in states[k].runs && states[k].runs[steps[k].cycle].phase in {AfterCreate, BeforeRun}
    ensures var w, w', c := states[k], states[k + 1], steps[k].cycle;
            var h := w.runs[c].hash;
            && c in w'.runs && w'.runs[c].phase == Ended && c !in w'.workspaces && w'.pending == w.pending
            && w'.claims.ledger.Keys == w.claims.ledger.Keys
            && (h in w.claims.ledger ==> w'.claims.ledger[h].state == Released)
            && forall other :: other in w.claims.ledger && other != h ==>
                 w'.claims.ledger[other] == w.claims.ledger[other]
  {
    ContinuationDoes(env, states, steps, k);
    RunInv(env, states, steps, k);
  }

  // ----- Injects, retry sweeps and reconciler sweeps -----

  /** The claim of a task that starts under cycle `c`: new, or one attempt up. */
  function Started(w: World, h: Hash, c: CycleId, now: Time): ClaimRecord {
    if h !in w.claims.ledger then ClaimRecord(Running, 1, now, now, Some(c), None)
    else
      var r := w.claims.ledger[h];
      ClaimRecord(Running, r.attempt + 1, r.firstSeen, now, Some(c), r.retryAfter)
  }

  /** A run of `goal` starts under cycle `c`. */
  ghost predicate Starts(env: Env, w: World, w': World, goal: Goal, c: CycleId, now: Time) {
    var h := env.hashOf(goal);
    && h in w'.claims.ledger && w'.claims.ledger[h] == Started(w, h, c, now)
    && c in w'.runs && w'.runs[c] == Run(goal, h, now, env.acquireOk(c), AfterCreate)
    && (c in w'.workspaces <==> env.acquireOk(c))
  }

  /** What the ledger announces of it: its registration if it is new, the claim, the start. */
  function Announced(w: World, h: Hash, c: CycleId, now: Time): seq<ClaimEvent> {
    var claim := Started(w, h, c, now);
    var waited := if h in w.claims.ledger then RetryQueued else Unclaimed;
    (if h in w.claims.ledger then [] else [ClaimEvent(h, None, Unclaimed, now, 0, None)])
    + [ClaimEvent(h, Some(waited), Claimed, now, claim.attempt, Some(c)),
       ClaimEvent(h, Some(Claimed), Running, now, claim.attempt, Some(c))]
  }

  lemma InjectAnnounces(env: Env, w: World, goal: Goal)
    requires Claimable(w.claims, env.hashOf(goal))
    requires env.hashOf(goal) in w.claims.ledger ==> w.claims.ledger[env.hashOf(goal)].state == RetryQueued
    ensures Inject(env, w, goal).claims.events ==
            w.claims.events + Announced(w, env.hashOf(goal), w.nextCycle, w.now)
  {
  }

  /** An inject starts a run exactly when the ledger does not know the task or has it waiting
      for a retry; otherwise it uses up a cycle id and nothing else. */
  lemma InjectStarts(env: Env, states: seq<World>, steps: seq<Step>, k: nat)
    requires IsRun(env, states, steps) && k < |steps| && steps[k].InjectStep?
    ensures var w, w', c := states[k], states[k + 1], states[k].nextCycle;
            var h := env.hashOf(steps[k].goal);
            && w'.nextCycle == c + 1 && w'.now == steps[k].now && w'.pending == w.pending
            && if h !in w.claims.ledger || w.claims.ledger[h].state == RetryQueued then
                 && Starts(env, w, w', steps[k].goal, c, steps[k].now)
                 && w'.claims.ledger == w.claims.ledger[h := w'.claims.ledger[h]]
                 && w'.claims.events == w.claims.events + Announced(w, h, c, steps[k].now)
                 && w'.runs == w.runs[c := w'.runs[c]] && w'.workspaces - {c} == w.workspaces - {c}
               else
                 w'.claims == w.claims && w'.runs == w.runs && w'.workspaces == w.workspaces
  {
    var h := env.hashOf(steps[k].goal);
    ThatStep(env, states, steps, k);
    if h in states[k].claims.ledger { assert RecordOk(env, states[k], h); }
    if Claimable(states[k].claims, h) {
      InjectRecord(env, states[k].(now := steps[k].now), steps[k].goal);
      InjectRun(env, states[k].(now := steps[k].now), steps[k].goal);
      InjectAnnounces(env, states[k].(now := steps[k].now), steps[k].goal);
    }
  }

  /** The claim waits for a retry whose time has come. */
  predicate WaitIsOver(w: World, h: Hash, now: Time) {
    && h in w.claims.ledger && w.claims.ledger[h].state == RetryQueued
    && w.claims.ledger[h].retryAfter.Some? && w.claims.ledger[h].retryAfter.value <= now
  }

  /** What a settled sweep says of the claim it took `i`-th. */
  lemma TakenStarts(env: Env, w: World, order: seq<Hash>, w': World, i: nat)
    requires Inv(env, w) && Inv(env, w') && SweepSettles(env, w, order, w') && i < |order|
    ensures var h, c := order[i], w.nextCycle + i;
            && h in w.pending && c !in w.runs && h !in w'.pending && Starts(env, w, w', w.pending[h].goal, c, w.now)
  {
    assert TookClaim(w, w', order[i], w.nextCycle + i);
    assert StartedRun(env, w, w', order[i], w.nextCycle + i);
  }

  /** The sweep starts a run of the filed goal, under `c`, when the wait of `h` is over, and
      leaves `h` as it is otherwise. */
  ghost predicate StartsIfDue(env: Env, w: World, w': World, h: Hash, c: CycleId, now: Time)
    requires h in w.claims.ledger
  {
    && h in w'.claims.ledger
    && (WaitIsOver(w, h, now) ==>
          && h in w.pending && c !in w.runs && h !in w'.pending
          && Starts(env, w, w', w.pending[h].goal, c, now))
    && (!WaitIsOver(w, h, now) ==>
          && w'.claims.ledger[h] == w.claims.ledger[h]
          && (h in w'.pending <==> w.claims.ledger[h].state == RetryQueued)
          && (h in w'.pending ==> h in w.pending && w'.pending[h] == w.pending[h]))
  }

  lemma OthersStay(env: Env, w: World, order: seq<Hash>, w': World, h: Hash)
    requires SweepSettles(env, w, order, w') && h in w.claims.ledger && h !in order && !WaitIsOver(w, h, w.now)
    ensures StartsIfDue(env, w, w', h, 0, w.now)
  {
    assert w'.claims.ledger[h] == w.claims.ledger[h];
  }

  lemma DueIffWaitIsOver(env: Env, w: World, order: seq<Hash>, h: Hash)
    requires Inv(env, w) && Enumerates(order, Due(w.claims.ledger, w.now)) && h in w.claims.ledger
    ensures h in order <==> WaitIsOver(w, h, w.now)
  {
    assert RecordOk(env, w, h);
  }

  lemma SettledStartsTheDue(env: Env, w: World, order: seq<Hash>, w': World, h: Hash) returns (c: CycleId)
    requires Inv(env, w) && Inv(env, w') && SweepSettles(env, w, order, w') && h in w.claims.ledger
    requires h in order <==> WaitIsOver(w, h, w.now)
    ensures StartsIfDue(env, w, w', h, c, w.now)
  {
    if h in order {
      var i :| 0 <= i < |order| && order[i] == h;
      TakenStarts(env, w, order, w', i);
      c := w.nextCycle + i;
    } else {
      OthersStay(env, w, order, w', h);
      c := 0;
    }
  }

  lemma SweepHasDueOrder(env: Env, states: seq<World>, steps: seq<Step>, k: nat)
    requires IsRun(env, states, steps) && k < |steps| && steps[k].RetryStep?
    ensures var w := states[k].(now := steps[k].now);
            Inv(env, w) && Inv(env, states[k + 1]) && Enumerates(steps[k].order, Due(w.claims.ledger, w.now))
  {
    ThatStep(env, states, steps, k);
    TickInv(env, states[k], steps[k].now);
    RunInv(env, states, steps, k + 1);
  }

  /** A retry sweep starts a run for every claim whose wait is over, and for no other; every
      other claim stays as it is, and the goals left are those still waited for. */
  lemma SweepStartsTheDue(env: Env, states: seq<World>, steps: seq<Step>, k: nat, h: Hash) returns (c: CycleId)
    requires IsRun(env, states, steps) && k < |steps| && steps[k].RetryStep? && h in states[k].claims.ledger
    ensures StartsIfDue(env, states[k], states[k + 1], h, c, steps[k].now)
  {
    var w, order := states[k].(now := steps[k].now), steps[k].order;
    SweepHasDueOrder(env, states, steps, k);
    RetrySweepsSettle(env, states, steps, k);
    DueIffWaitIsOver(env, w, order, h);
    c := SettledStartsTheDue(env, w, order, states[k + 1], h);
  }

  /** A reconciler sweep releases the running claims that were not touched for the stall
      timeout, forgets the released ones that were not touched for the cleanup time, and
      leaves every other claim and everything else alone. */
  lemma SweepReleasesTheStalled(env: Env, states: seq<World>, steps: seq<Step>, k: nat, h: Hash)
    requires IsRun(env, states, steps) && k < |steps| && steps[k].ReconcileStep? && h in states[k].claims.ledger
    ensures var w, w', now := states[k], states[k + 1], steps[k].now;
            var r := w.claims.ledger[h];
            && w' == w.(now := now, claims := w'.claims) && w'.claims.ledger.Keys <= w.claims.ledger.Keys
            && (h in w'.claims.ledger <==> r.state != Released || now - r.updatedAt < env.cleanupAfterMs)
            && (h in w'.claims.ledger ==>
                  w'.claims.ledger[h] == (if r.state == Running && now - r.updatedAt >= env.stallTimeoutMs
                                          then r.(state := Released, updatedAt := now) else r))
  {
    ThatStep(env, states, steps, k);
    assert RecordOk(env, states[k], h);
    ReconcileAt(env, states[k].claims, steps[k].order, steps[k].now);
  }
}
