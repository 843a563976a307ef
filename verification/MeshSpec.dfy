/** The claim / retry / reconcile protocol as a state machine.
    One step is a stretch of code that runs without an `await`: the part of
    `injectTask` between two awaits (src/MeshOrchestrator.ts), one retry sweep
    (src/services/RetryQueue.ts) or one reconciler sweep (src/services/Reconciler.ts).
    A run of the protocol interleaves such steps freely under a clock that never
    goes back. */
module MeshSpec {
  import opened Wrappers
  import opened TaskClaims

  type Goal = string

  /** The surroundings of a run: SHA-256 as a function on goals, which workspace
      requests the file system grants, and the configuration. */
  datatype EnvRecord = EnvRecord(
    hashOf: Goal -> Hash,
    acquireOk: CycleId -> bool,
    stallTimeoutMs: real,
    cleanupAfterMs: real,
    maxAttempts: int,
    baseMs: real,
    factor: real)

  /** The RetryQueue constructor throws on any other configuration. */
  type Env = e: EnvRecord | e.maxAttempts >= 1 && e.baseMs > 0.0 && e.factor >= 1.0
    witness EnvRecord(g => g, c => true, 60000.0, 300000.0, 3, 2000.0, 2.0)

  /** Where a run of `injectTask` is suspended. */
  datatype Phase =
    | AfterCreate               // awaiting the after_create hooks
    | BeforeRun                 // awaiting the before_run hooks
    | Executing                 // awaiting mevBridge.execute
    | AfterRun(verified: bool)  // awaiting the after_run hooks, receipt in hand
    | BeforeRemove              // awaiting the before_remove hooks
    | Ended

  datatype Run = Run(goal: Goal, hash: Hash, claimedAt: Time, hasWorkspace: bool, phase: Phase)

  datatype Pending = Pending(goal: Goal, attempt: nat, backoffMs: real, scheduledFor: Time)

  datatype World = World(
    now: Time,
    claims: Claims,
    pending: map<Hash, Pending>,
    runs: map<CycleId, Run>,
    workspaces: set<CycleId>,
    nextCycle: CycleId)

  function Init(now: Time): World {
    World(now, Claims(map[], []), map[], map[], {}, 0)
  }

  /** A run owns its task from the successful tryClaim to its last release/enqueueFailure. */
  predicate Owns(r: Run) {
    r.phase.AfterCreate? || r.phase.BeforeRun? || r.phase.Executing? || r.phase.AfterRun?
  }

  // ----- RetryQueue.enqueueFailure -----

  function Pow(base: real, e: nat): real {
    if e == 0 then 1.0 else base * Pow(base, e - 1)
  }

  function Backoff(env: Env, attempt: nat): real {
    if attempt == 0 then env.baseMs / env.factor else env.baseMs * Pow(env.factor, attempt - 1)
  }

  datatype Outcome = Retry | Exhausted

  function Enqueued(env: Env, w: World, h: Hash, goal: Goal): (World, Outcome) {
    if h !in w.claims.ledger then (w, Exhausted)
    else
      var attempt := w.claims.ledger[h].attempt;
      if attempt + 1 > env.maxAttempts then
        (w.(claims := Transition(w.claims, h, Released, None, w.now)), Exhausted)
      else if !CanMove(w.claims, h, RetryQueued) then (w, Exhausted)
      else
        var backoff := Backoff(env, attempt);
        (w.(claims := MarkRetryQueued(w.claims, h, backoff, w.now),
            pending := w.pending[h := Pending(goal, attempt + 1, backoff, w.now + backoff)]),
         Retry)
  }

  // ----- MeshOrchestrator.injectTask -----

  /** From the call to the first await (or to the throw that refuses a duplicate). */
  function Inject(env: Env, w: World, goal: Goal): World {
    var h := env.hashOf(goal);
    var cycle := w.nextCycle;
    var w1 := w.(nextCycle := cycle + 1);
    if !Claimable(w.claims, h) then w1
    else
      var claimed := TryClaim(Register(w.claims, h, w.now), h, cycle, w.now);
      var ok := env.acquireOk(cycle);
      w1.(claims := Transition(claimed, h, Running, Some(cycle), w.now),
          runs := w.runs[cycle := Run(goal, h, w.now, ok, AfterCreate)],
          workspaces := if ok then w.workspaces + {cycle} else w.workspaces)
  }

  /** What the awaited call came back with. */
  datatype Reply = HooksDone(ok: bool) | Threw | Receipt(verified: bool)

  predicate Answers(phase: Phase, reply: Reply) {
    match phase
    case Executing => reply.Threw? || reply.Receipt?
    case Ended => false
    case _ => reply.HooksDone?
  }

  function SetPhase(w: World, cycle: CycleId, phase: Phase): World
    requires cycle in w.runs
  {
    w.(runs := w.runs[cycle := w.runs[cycle].(phase := phase)])
  }

  /** The run is over; its workspace, if it got one, goes back. */
  function End(w: World, cycle: CycleId): World
    requires cycle in w.runs
  {
    SetPhase(w, cycle, Ended).(
      workspaces := if w.runs[cycle].hasWorkspace then w.workspaces - {cycle} else w.workspaces)
  }

  function ReleaseTask(w: World, h: Hash): World {
    w.(claims := Transition(w.claims, h, Released, None, w.now))
  }

  /** From the await that returned `reply` to the next await or to the end. */
  function Resume(env: Env, w: World, cycle: CycleId, reply: Reply): World
    requires cycle in w.runs && Answers(w.runs[cycle].phase, reply)
  {
    var r := w.runs[cycle];
    match r.phase
    case AfterCreate =>
      if reply.ok then SetPhase(w, cycle, BeforeRun) else End(ReleaseTask(w, r.hash), cycle)
    case BeforeRun =>
      if reply.ok then SetPhase(w, cycle, Executing) else End(ReleaseTask(w, r.hash), cycle)
    case Executing =>
      if reply.Threw? then End(Enqueued(env, w, r.hash, r.goal).0, cycle)
      else SetPhase(w, cycle, AfterRun(reply.verified))
    case AfterRun(verified) =>
      var w1 := if verified then ReleaseTask(w, r.hash) else Enqueued(env, w, r.hash, r.goal).0;
      if r.hasWorkspace then SetPhase(w1, cycle, BeforeRemove) else End(w1, cycle)
    case BeforeRemove => End(w, cycle)
  }

  // ----- RetryQueue.sweep -----

  function CleanPending(pending: map<Hash, Pending>, ledger: Ledger): map<Hash, Pending> {
    map h | h in pending && h in ledger && ledger[h].state == RetryQueued :: pending[h]
  }

  function DispatchOne(env: Env, w: World, h: Hash): World {
    if h !in w.pending then ReleaseTask(w, h)
    else Inject(env, w.(pending := w.pending - {h}), w.pending[h].goal)
  }

  function DispatchDue(env: Env, w: World, order: seq<Hash>): World {
    if order == [] then w
    else DispatchOne(env, DispatchDue(env, w, order[..|order| - 1]), order[|order| - 1])
  }

  function RetrySweep(env: Env, w: World, order: seq<Hash>): World {
    DispatchDue(env, w.(pending := CleanPending(w.pending, w.claims.ledger)), order)
  }

  // ----- Reconciler.sweep -----

  predicate Stalled(env: Env, r: ClaimRecord, now: Time) {
    (r.state == Claimed || r.state == Running) && now - r.updatedAt >= env.stallTimeoutMs
  }

  predicate AgedOut(env: Env, r: ClaimRecord, now: Time) {
    r.state == Released && now - r.updatedAt >= env.cleanupAfterMs
  }

  /** `r` is the record as the sweep's snapshot has it. */
  function ReconcileOne(env: Env, c: Claims, h: Hash, r: ClaimRecord, now: Time): Claims {
    if Stalled(env, r, now) then Transition(c, h, Released, None, now)
    else if AgedOut(env, r, now) then c.(ledger := c.ledger - {h})
    else c
  }

  function ReconcileAll(env: Env, c: Claims, order: seq<Hash>, now: Time): Claims
    requires forall h :: h in order ==> h in c.ledger
  {
    if order == [] then c
    else
      var last := order[|order| - 1];
      ReconcileOne(env, ReconcileAll(env, c, order[..|order| - 1], now), last, c.ledger[last], now)
  }

  // ----- Runs of the protocol -----

  datatype Step =
    | InjectStep(goal: Goal, now: Time)
    | ResumeStep(cycle: CycleId, reply: Reply, now: Time)
    | RetryStep(order: seq<Hash>, now: Time)
    | ReconcileStep(order: seq<Hash>, now: Time)

  ghost predicate Enabled(env: Env, w: World, step: Step) {
    && w.now <= step.now
    && match step
       case InjectStep(_, _) => true
       case ResumeStep(cycle, reply, _) => cycle in w.runs && Answers(w.runs[cycle].phase, reply)
       case RetryStep(order, now) => Enumerates(order, Due(w.claims.ledger, now))
       case ReconcileStep(order, _) => Enumerates(order, w.claims.ledger.Keys)
  }

  ghost function Next(env: Env, w: World, step: Step): World
    requires Enabled(env, w, step)
  {
    var w1 := w.(now := step.now);
    match step
    case InjectStep(goal, _) => Inject(env, w1, goal)
    case ResumeStep(cycle, reply, _) => Resume(env, w1, cycle, reply)
    case RetryStep(order, _) => RetrySweep(env, w1, order)
    case ReconcileStep(order, now) => w1.(claims := ReconcileAll(env, w.claims, order, now))
  }

  /** `states` are the states a run goes through, from the empty ledger on. */
  ghost predicate IsRun(env: Env, states: seq<World>, steps: seq<Step>) {
    && |states| == |steps| + 1
    && states[0] == Init(states[0].now)
    && (forall i :: 0 <= i < |steps| ==>
          Enabled(env, states[i], steps[i]) && states[i + 1] == Next(env, states[i], steps[i]))
  }
}
