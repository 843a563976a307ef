/** Supervision of one agent's child processes (src/services/AgentRuntimeSupervisor.ts).
    A child is a number, fresh at every spawn; what a kill or a spawn call does at once
    (an event delivered before it returns, an exception) is an input, and so are the busy
    check and the clock, read once an operation. Error texts arrive redacted. */
module RuntimeSupervisor {
  import opened Wrappers

  type Child = nat

  datatype Desired = Running | Stopped

  datatype Lifecycle =
    DisabledState | StoppedState | StartingState | RunningState | StoppingState | ExitedState | FailedState

  datatype Managed = Managed(child: Child, generation: nat)

  /** What the record remembers of its latest child. */
  datatype Journal = Journal(
    startedAt: Option<int>,
    stoppingAt: Option<int>,
    exitedAt: Option<int>,
    exitCode: Option<int>,
    exitSignal: Option<string>,
    lastError: Option<string>,
    lastReason: Option<string>)

  const BLANK := Journal(None, None, None, None, None, None, None)

  /** `stopTimer` is the handle, kept after the timer has fired. */
  datatype Record = Record(desired: Desired, state: Lifecycle, managed: Option<Managed>, generation: nat,
                           stopTimer: Option<Managed>, journal: Journal)

  /** Children with their generation; those whose exit or error was delivered; those cut
      loose with a kill timer; and the signals sent. */
  datatype World = World(rec: Record, spawned: map<Child, nat>, gone: set<Child>, detached: set<Child>,
                         terminated: set<Child>, killTimers: set<Child>, killed: set<Child>)

  /** `blocker` is the message of what keeps every agent from starting, if anything does. */
  datatype Config = Config(enabled: bool, blocker: Option<string>)

  function Start(cfg: Config): World {
    World(Record(if cfg.enabled then Running else Stopped, if cfg.enabled then StoppedState else DisabledState,
                 None, 0, None, BLANK),
          map[], {}, {}, {}, {}, {})
  }

  // ----- The operations as functions -----

  datatype SpawnResult = Spawned(child: Child) | Threw(error: string)

  function SpawnRecord(cfg: Config, w: World, result: SpawnResult, reason: string, now: int): World {
    var rec := w.rec;
    if !cfg.enabled || rec.managed.Some? then w
    else if cfg.blocker.Some? then
      w.(rec := rec.(state := FailedState, journal := rec.journal.(exitedAt := Some(now), lastError := cfg.blocker)))
    else
      var generation := rec.generation + 1;
      match result
      case Threw(error) =>
        w.(rec := Record(rec.desired, FailedState, None, generation, None,
                         BLANK.(exitedAt := Some(now), lastError := Some(error), lastReason := Some(reason))))
      case Spawned(child) =>
        w.(rec := Record(rec.desired, RunningState, Some(Managed(child, generation)), generation, None,
                         BLANK.(startedAt := Some(now), lastReason := Some(reason))),
           spawned := w.spawned[child := generation])
  }

  /** Whether an event of this child is the record's business. */
  predicate Current(rec: Record, child: Child, generation: nat) {
    rec.managed == Some(Managed(child, generation))
  }

  /** What a child reports. */
  datatype Event = Exit(code: Option<int>, signal: Option<string>) | Error(message: string)

  function HandleExit(rec: Record, child: Child, generation: nat, code: Option<int>, signal: Option<string>,
                      now: int): Record
  {
    if !Current(rec, child, generation) then rec
    else
      rec.(managed := None, stopTimer := None,
           state := if rec.desired == Stopped || rec.state == StoppingState then StoppedState else ExitedState,
           journal := rec.journal.(exitedAt := Some(now), exitCode := code, exitSignal := signal))
  }

  function HandleError(rec: Record, child: Child, generation: nat, message: string, now: int): Record {
    if !Current(rec, child, generation) then rec
    else
      rec.(managed := None, stopTimer := None, state := FailedState,
           journal := rec.journal.(exitedAt := Some(now), exitCode := None, exitSignal := None,
                                   lastError := Some(message)))
  }

  function Handled(rec: Record, child: Child, generation: nat, event: Event, now: int): Record {
    match event
    case Exit(code, signal) => HandleExit(rec, child, generation, code, signal, now)
    case Error(message) => HandleError(rec, child, generation, message, now)
  }

  /** A child's event reaches the record's listener; an exit also clears its kill timer. */
  function Delivered(w: World, child: Child, event: Event, now: int): World
    requires child in w.spawned
  {
    w.(rec := Handled(w.rec, child, w.spawned[child], event, now), gone := w.gone + {child},
       detached := w.detached - {child}, killTimers := if event.Exit? then w.killTimers - {child} else w.killTimers)
  }

  /** SIGTERM; `atOnce` is what the child reports before `kill` returns. */
  function Terminated(w: World, child: Child, atOnce: Option<Event>, now: int): World
    requires child in w.spawned
  {
    var sent := w.(terminated := w.terminated + {child});
    if atOnce.Some? then Delivered(sent, child, atOnce.value, now) else sent
  }

  function StopRecord(w: World, sticky: bool, reason: Option<string>, atOnce: Option<Event>, now: int): World
    requires w.rec.managed.Some? ==> w.rec.managed.value.child in w.spawned
  {
    var rec := w.rec.(desired := if sticky then Stopped else w.rec.desired);
    match rec.managed
    case None =>
      w.(rec := rec.(state := if rec.state != DisabledState && sticky then StoppedState else rec.state,
                     journal := rec.journal.(lastReason := if reason.Some? then reason else rec.journal.lastReason)))
    case Some(managed) =>
      var told := Some(if reason.Some? then reason.value else "stop");
      var stopping := rec.(state := StoppingState,
                           journal := rec.journal.(stoppingAt := Some(now), lastReason := told));
      var sent := Terminated(w.(rec := stopping), managed.child, atOnce, now);
      if sent.rec.managed.Some? && sent.rec.managed.value.generation == managed.generation
      then sent.(rec := sent.rec.(stopTimer := Some(managed)))
      else sent
  }

  /** The kill timer is set after the kill, whether or not the exit came at once. */
  function DetachAndTerminate(w: World, atOnce: Option<Event>, now: int): World
    requires w.rec.managed.Some? ==> w.rec.managed.value.child in w.spawned
  {
    match w.rec.managed
    case None => w
    case Some(managed) =>
      var loose := w.(rec := w.rec.(managed := None, stopTimer := None,
                                    journal := w.rec.journal.(stoppingAt := Some(now))),
                      detached := w.detached + {managed.child});
      var sent := Terminated(loose, managed.child, atOnce, now);
      sent.(killTimers := sent.killTimers + {managed.child})
  }

  datatype Result = Refused(status: nat) | Done(changed: bool, status: nat)

  function Given(reason: Option<string>, usual: string): string {
    if reason.Some? then reason.value else usual
  }

  function StartAgent(cfg: Config, w: World, result: SpawnResult, reason: Option<string>, now: int): (World, Result) {
    if !cfg.enabled || cfg.blocker.Some? then (w, Refused(409))
    else
      var wanted := w.(rec := w.rec.(desired := Running));
      if w.rec.managed.Some? then (wanted, Done(false, 200))
      else (SpawnRecord(cfg, wanted, result, Given(reason, "manual_start"), now), Done(true, 202))
  }

  /** What a stop call asks for. */
  datatype StopOptions = StopOptions(force: bool, sticky: bool, reason: Option<string>)

  function StopAgent(cfg: Config, w: World, options: StopOptions, busy: bool, atOnce: Option<Event>,
                     now: int): (World, Result)
    requires w.rec.managed.Some? ==> w.rec.managed.value.child in w.spawned
  {
    if !cfg.enabled || (w.rec.managed.Some? && !options.force && busy) then (w, Refused(409))
    else
      (StopRecord(w, options.sticky, Some(Given(options.reason, "manual_stop")), atOnce, now),
       if w.rec.managed.Some? then Done(true, 202) else Done(false, 200))
  }

  /** `stop` for this record: parking an idle runtime leaves it wanted. */
  function ShutDown(w: World, reason: string, atOnce: Option<Event>, now: int): World
    requires w.rec.managed.Some? ==> w.rec.managed.value.child in w.spawned
  {
    StopRecord(w, reason != "resource_idle", Some(reason), atOnce, now)
  }

  function RestartAgent(cfg: Config, w: World, force: bool, reason: Option<string>, busy: bool, atOnce: Option<Event>,
                        result: SpawnResult, now: int): (World, Result)
    requires w.rec.managed.Some? ==> w.rec.managed.value.child in w.spawned
  {
    if !cfg.enabled || cfg.blocker.Some? || (w.rec.managed.Some? && !force && busy) then (w, Refused(409))
    else
      (SpawnRecord(cfg, DetachAndTerminate(w.(rec := w.rec.(desired := Running)), atOnce, now), result,
                   Given(reason, "manual_restart"), now),
       Done(true, 202))
  }

  class RuntimeRecord {
    const cfg: Config
    var desiredState: Desired
    var state: Lifecycle
    var managed: Option<Managed>
    var generation: nat
    var stopTimer: Option<Managed>
    var journal: Journal
    ghost var spawned: map<Child, nat>
    ghost var gone: set<Child>
    ghost var detached: set<Child>
    ghost var terminated: set<Child>
    ghost var killTimers: set<Child>
    ghost var killed: set<Child>

    ghost function State(): World
      reads this
    {
      World(Record(desiredState, state, managed, generation, stopTimer, journal),
            spawned, gone, detached, terminated, killTimers, killed)
    }

    ghost predicate Known()
      reads this
    {
      managed.Some? ==> managed.value.child in spawned && spawned[managed.value.child] == managed.value.generation
    }

    constructor (cfg: Config)
      ensures this.cfg == cfg && State() == Start(cfg)
    {
      this.cfg := cfg;
      desiredState := if cfg.enabled then Running else Stopped;
      state := if cfg.enabled then StoppedState else DisabledState;
      managed, generation, stopTimer, journal := None, 0, None, BLANK;
      spawned, gone, detached, terminated, killTimers, killed := map[], {}, {}, {}, {}, {};
    }

    method Spawn(result: SpawnResult, reason: string, now: int) returns (ok: bool)
      modifies this
      ensures State() == SpawnRecord(cfg, old(State()), result, reason, now)
      ensures ok <==> cfg.enabled && cfg.blocker.None? && old(managed).None? && result.Spawned?
    {
      if !cfg.enabled || managed.Some? {
        return false;
      }
      if cfg.blocker.Some? {
        state := FailedState;
        journal := journal.(exitedAt := Some(now), lastError := cfg.blocker);
        return false;
      }
      generation := generation + 1;
      state := StartingState;
      journal := BLANK.(lastReason := Some(reason));
      stopTimer := None;
      match result {
        case Spawned(child) =>
          managed := Some(Managed(child, generation));
          spawned := spawned[child := generation];
          state := RunningState;
          journal := journal.(startedAt := Some(now));
          return true;
        case Threw(error) =>
          managed := None;
          state := FailedState;
          journal := journal.(exitedAt := Some(now), lastError := Some(error));
          return false;
      }
    }

    method HandleExitEvent(child: Child, childGeneration: nat, code: Option<int>, signal: Option<string>, now: int)
      modifies this
      ensures State() == old(State()).(rec := HandleExit(old(State()).rec, child, childGeneration, code, signal, now))
    {
      if managed.None? || managed.value.child != child || managed.value.generation != childGeneration {
        return;
      }
      stopTimer := None;
      managed := None;
      journal := journal.(exitedAt := Some(now), exitCode := code, exitSignal := signal);
      state := if desiredState == Stopped || state == StoppingState then StoppedState else ExitedState;
    }

    method HandleErrorEvent(child: Child, childGeneration: nat, message: string, now: int)
      modifies this
      ensures State() == old(State()).(rec := HandleError(old(State()).rec, child, childGeneration, message, now))
    {
      if managed.None? || managed.value.child != child || managed.value.generation != childGeneration {
        return;
      }
      stopTimer := None;
      managed := None;
      journal := journal.(exitedAt := Some(now), exitCode := None, exitSignal := None);
      state := FailedState;
      journal := journal.(lastError := Some(message));
    }

    method Kill(child: Child, childGeneration: nat, atOnce: Option<Event>, now: int)
      requires child in spawned && spawned[child] == childGeneration
      modifies this
      ensures State() == Terminated(old(State()), child, atOnce, now)
    {
      terminated := terminated + {child};
      match atOnce {
        case None =>
        case Some(Exit(code, signal)) =>
          HandleExitEvent(child, childGeneration, code, signal, now);
          gone, detached, killTimers := gone + {child}, detached - {child}, killTimers - {child};
        case Some(Error(message)) =>
          HandleErrorEvent(child, childGeneration, message, now);
          gone, detached := gone + {child}, detached - {child};
      }
    }

    method Stop(sticky: bool, reason: Option<string>, atOnce: Option<Event>, now: int) returns (changed: bool)
      requires Known()
      modifies this
      ensures State() == StopRecord(old(State()), sticky, reason, atOnce, now) && changed == old(managed.Some?)
    {
      if sticky {
        desiredState := Stopped;
      }
      if managed.None? {
        if state != DisabledState && sticky {
          state := StoppedState;
        }
        if reason.Some? {
          journal := journal.(lastReason := reason);
        }
        return false;
      }
      var m := managed.value;
      state := StoppingState;
      journal := journal.(stoppingAt := Some(now), lastReason := Some(if reason.Some? then reason.value else "stop"));
      Kill(m.child, m.generation, atOnce, now);
      if managed.Some? && managed.value.generation == m.generation {
        stopTimer := Some(m);
      }
      return true;
    }

    method StartOnDemand(result: SpawnResult, reason: Option<string>, now: int) returns (outcome: Result)
      modifies this
      ensures (State(), outcome) == StartAgent(cfg, old(State()), result, reason, now)
    {
      if !cfg.enabled || cfg.blocker.Some? {
        return Refused(409);
      }
      desiredState := Running;
      if managed.Some? {
        return Done(false, 200);
      }
      var _ := Spawn(result, Given(reason, "manual_start"), now);
      return Done(true, 202);
    }

    method StopOnDemand(options: StopOptions, busy: bool, atOnce: Option<Event>, now: int) returns (outcome: Result)
      requires Known()
      modifies this
      ensures (State(), outcome) == StopAgent(cfg, old(State()), options, busy, atOnce, now)
    {
      if !cfg.enabled || (managed.Some? && !options.force && busy) {
        return Refused(409);
      }
      var changed := Stop(options.sticky, Some(Given(options.reason, "manual_stop")), atOnce, now);
      return Done(changed, if changed then 202 else 200);
    }

    method Detach(atOnce: Option<Event>, now: int)
      requires Known()
      modifies this
      ensures State() == DetachAndTerminate(old(State()), atOnce, now)
    {
      if managed.None? {
        return;
      }
      var m := managed.value;
      stopTimer := None;
      managed := None;
      journal := journal.(stoppingAt := Some(now));
      detached := detached + {m.child};
      Kill(m.child, m.generation, atOnce, now);
      killTimers := killTimers + {m.child};
    }

    method Restart(force: bool, reason: Option<string>, busy: bool, atOnce: Option<Event>, result: SpawnResult,
                   now: int)
      returns (outcome: Result)
      requires Known()
      modifies this
      ensures (State(), outcome) == RestartAgent(cfg, old(State()), force, reason, busy, atOnce, result, now)
    {
      if !cfg.enabled || cfg.blocker.Some? || (managed.Some? && !force && busy) {
        return Refused(409);
      }
      desiredState := Running;
      Detach(atOnce, now);
      var _ := Spawn(result, Given(reason, "manual_restart"), now);
      return Done(true, 202);
    }
  }

  // ----- Runs -----

  datatype Step =
    | Boot(result: SpawnResult, cause: string, now: int)
    | StartStep(result: SpawnResult, reason: Option<string>, now: int)
    | StopStep(options: StopOptions, busy: bool, atOnce: Option<Event>, now: int)
    | ShutDownStep(cause: string, atOnce: Option<Event>, now: int)
    | RestartStep(force: bool, reason: Option<string>, busy: bool, atOnce: Option<Event>, result: SpawnResult, now: int)
    | EventStep(child: Child, event: Event, now: int)
    | StopTimerStep
    | KillTimerStep(child: Child)

  predicate Fresh(w: World, result: SpawnResult) {
    result.Spawned? ==> result.child !in w.spawned
  }

  /** A spawned child has a fresh number; a child may report anything, at any time and
      again; timers fire while they are set. */
  predicate Enabled(w: World, step: Step) {
    match step
    case Boot(result, _, _) => Fresh(w, result)
    case StartStep(result, _, _) => Fresh(w, result)
    case RestartStep(_, _, _, _, result, _) => Fresh(w, result)
    case StopStep(_, _, _, _) => true
    case ShutDownStep(_, _, _) => true
    case EventStep(child, _, _) => child in w.spawned
    case StopTimerStep => w.rec.stopTimer.Some?
    case KillTimerStep(child) => child in w.killTimers
  }

  ghost predicate Known(w: World) {
    w.rec.managed.Some? ==> w.rec.managed.value.child in w.spawned
  }

  ghost function Next(cfg: Config, w: World, step: Step): World
    requires Enabled(w, step) && Known(w)
  {
    match step
    case Boot(result, cause, now) => if w.rec.desired == Running then SpawnRecord(cfg, w, result, cause, now) else w
    case StartStep(result, reason, now) => StartAgent(cfg, w, result, reason, now).0
    case StopStep(options, busy, atOnce, now) => StopAgent(cfg, w, options, busy, atOnce, now).0
    case ShutDownStep(cause, atOnce, now) => ShutDown(w, cause, atOnce, now)
    case RestartStep(force, reason, busy, atOnce, result, now) =>
      RestartAgent(cfg, w, force, reason, busy, atOnce, result, now).0
    case EventStep(child, event, now) => Delivered(w, child, event, now)
    case StopTimerStep =>
      var m := w.rec.stopTimer.value;
      if Current(w.rec, m.child, m.generation) then w.(killed := w.killed + {m.child}) else w
    case KillTimerStep(child) => w.(killTimers := w.killTimers - {child}, killed := w.killed + {child})
  }

  // ----- Where every child is -----

  ghost predicate IsManaged(w: World, child: Child) {
    w.rec.managed.Some? && w.rec.managed.value.child == child
  }

  /** Managed, gone or cut loose: exactly one of the three. */
  ghost predicate OnePlace(w: World, child: Child) {
    && (IsManaged(w, child) || child in w.gone || child in w.detached)
    && !(IsManaged(w, child) && child in w.gone)
    && !(IsManaged(w, child) && child in w.detached)
    && !(child in w.gone && child in w.detached)
  }

  ghost predicate Placed(w: World) {
    && (forall child :: child in w.spawned ==> OnePlace(w, child))
    && w.gone <= w.spawned.Keys && w.detached <= w.spawned.Keys
  }

  /** Whoever was cut loose got a SIGTERM, and has its SIGKILL timer running or behind it. */
  ghost predicate Doomed(w: World) {
    forall child :: child in w.detached ==> child in w.terminated && (child in w.killTimers || child in w.killed)
  }

  /** The record's own fields: it runs or stops exactly while it manages a child, of its
      own generation; and it holds a stop timer only while stopping that very child. */
  ghost predicate Coherent(cfg: Config, w: World) {
    && (w.rec.managed.Some? ==>
          && w.rec.managed.value.child in w.spawned
          && w.spawned[w.rec.managed.value.child] == w.rec.managed.value.generation == w.rec.generation)
    && (w.rec.managed.Some? <==> w.rec.state == RunningState || w.rec.state == StoppingState)
    && (w.rec.stopTimer.Some? ==> w.rec.state == StoppingState && w.rec.stopTimer == w.rec.managed)
    && (!cfg.enabled ==> w.rec.managed.None?)
    && (forall child :: child in w.spawned ==> w.spawned[child] <= w.rec.generation)
  }

  ghost predicate Inv(cfg: Config, w: World) {
    Placed(w) && Doomed(w) && Coherent(cfg, w)
  }

  lemma SpawnKeeps(cfg: Config, w: World, result: SpawnResult, reason: string, now: int)
    requires Inv(cfg, w) && Fresh(w, result)
    ensures Inv(cfg, SpawnRecord(cfg, w, result, reason, now))
  {
  }

  lemma StopKeeps(cfg: Config, w: World, sticky: bool, reason: Option<string>, atOnce: Option<Event>, now: int)
    requires Inv(cfg, w)
    ensures Inv(cfg, StopRecord(w, sticky, reason, atOnce, now))
  {
  }

  lemma DeliveryKeeps(cfg: Config, w: World, child: Child, event: Event, now: int)
    requires Inv(cfg, w) && child in w.spawned
    ensures Inv(cfg, Delivered(w, child, event, now))
  {
  }

  lemma DetachKeeps(cfg: Config, w: World, atOnce: Option<Event>, now: int)
    requires Inv(cfg, w) && w.rec.managed.Some?
    ensures var loose := DetachAndTerminate(w.(rec := w.rec.(desired := Running)), atOnce, now);
            && Placed(loose) && Doomed(loose)
            && loose.rec.managed.None? && loose.rec.stopTimer.None? && loose.spawned == w.spawned
            && loose.rec.generation == w.rec.generation
  {
    var m := w.rec.managed.value;
    assert OnePlace(w, m.child);
  }

  /** A spawn makes the record coherent again, whatever state the detaching left it in. */
  lemma RespawnKeeps(cfg: Config, w: World, result: SpawnResult, reason: string, now: int)
    requires Placed(w) && Doomed(w) && w.rec.managed.None? && w.rec.stopTimer.None? && Fresh(w, result)
    requires forall child :: child in w.spawned ==> w.spawned[child] <= w.rec.generation
    requires cfg.enabled && cfg.blocker.None?
    ensures Inv(cfg, SpawnRecord(cfg, w, result, reason, now))
  {
  }

  lemma RestartKeeps(cfg: Config, w: World, step: Step)
    requires Inv(cfg, w) && Enabled(w, step) && step.RestartStep?
    ensures Inv(cfg, Next(cfg, w, step))
  {
    if cfg.enabled && cfg.blocker.None? && (w.rec.managed.None? || step.force || !step.busy) {
      var wanted := w.(rec := w.rec.(desired := Running));
      if w.rec.managed.Some? {
        DetachKeeps(cfg, w, step.atOnce, step.now);
      }
      RespawnKeeps(cfg, DetachAndTerminate(wanted, step.atOnce, step.now), step.result,
                   Given(step.reason, "manual_restart"), step.now);
    }
  }

  lemma NextKeepsInv(cfg: Config, w: World, step: Step)
    requires Inv(cfg, w) && Enabled(w, step)
    ensures Inv(cfg, Next(cfg, w, step))
  {
    match step
    case Boot(result, cause, now) => SpawnKeeps(cfg, w, result, cause, now);
    case StartStep(result, reason, now) =>
      SpawnKeeps(cfg, w.(rec := w.rec.(desired := Running)), result, Given(reason, "manual_start"), now);
    case StopStep(options, _, atOnce, now) =>
      StopKeeps(cfg, w, options.sticky, Some(Given(options.reason, "manual_stop")), atOnce, now);
    case ShutDownStep(cause, atOnce, now) => StopKeeps(cfg, w, cause != "resource_idle", Some(cause), atOnce, now);
    case RestartStep(_, _, _, _, _, _) => RestartKeeps(cfg, w, step);
    case EventStep(child, event, now) => DeliveryKeeps(cfg, w, child, event, now);
    case StopTimerStep =>
    case KillTimerStep(_) =>
  }

  ghost predicate IsRun(cfg: Config, states: seq<World>, steps: seq<Step>) {
    && |states| == |steps| + 1 && states[0] == Start(cfg)
    && forall k :: 0 <= k < |steps| ==>
         Enabled(states[k], steps[k]) && Known(states[k]) && states[k + 1] == Next(cfg, states[k], steps[k])
  }

  /** Over every run each child ever spawned is managed by the record, has exited or
      errored, or was cut loose after SIGTERM with its SIGKILL timer set: exactly one of
      these; and the record holds a stop timer only while stopping that same child. */
  lemma {:induction false} EveryChildHasOnePlace(cfg: Config, states: seq<World>, steps: seq<Step>, k: nat)
    requires IsRun(cfg, states, steps) && k <= |steps|
    ensures Inv(cfg, states[k])
  {
    if k > 0 {
      EveryChildHasOnePlace(cfg, states, steps, k - 1);
      assert states[k - 1 + 1] == Next(cfg, states[k - 1], steps[k - 1]);
      NextKeepsInv(cfg, states[k - 1], steps[k - 1]);
    }
  }

  lemma NextNeverTakesBack(cfg: Config, w: World, step: Step, child: Child)
    requires Inv(cfg, w) && Enabled(w, step) && child in w.spawned && !IsManaged(w, child)
    ensures child in Next(cfg, w, step).spawned && !IsManaged(Next(cfg, w, step), child)
    ensures Next(cfg, w, step).spawned[child] == w.spawned[child]
  {
  }

  lemma {:induction false} NeverManagedAgain(cfg: Config, states: seq<World>, steps: seq<Step>, j: nat, k: nat,
                                             child: Child)
    requires IsRun(cfg, states, steps) && j <= k <= |steps| && child in states[j].spawned
             && !IsManaged(states[j], child)
    ensures child in states[k].spawned && !IsManaged(states[k], child)
  {
    if j < k {
      NeverManagedAgain(cfg, states, steps, j, k - 1, child);
      EveryChildHasOnePlace(cfg, states, steps, k - 1);
      assert states[k - 1 + 1] == Next(cfg, states[k - 1], steps[k - 1]);
      NextNeverTakesBack(cfg, states[k - 1], steps[k - 1], child);
    }
  }

  /** Once a child is no longer managed, nothing it reports changes the record,
      in every later state. */
  lemma OldEventsAreIgnored(cfg: Config, states: seq<World>, steps: seq<Step>, j: nat, k: nat, child: Child)
    requires IsRun(cfg, states, steps) && j <= k < |steps| && child in states[j].spawned && !IsManaged(states[j], child)
    requires steps[k].EventStep? && steps[k].child == child
    ensures states[k + 1].rec == states[k].rec
  {
    NeverManagedAgain(cfg, states, steps, j, k, child);
    assert states[k + 1] == Next(cfg, states[k], steps[k]);
  }

  /** At most one child is neither gone nor cut loose, and the record manages it. */
  lemma OneChildAtATime(cfg: Config, states: seq<World>, steps: seq<Step>, k: nat, a: Child, b: Child)
    requires IsRun(cfg, states, steps) && k <= |steps| && a in states[k].spawned && b in states[k].spawned
    requires a !in states[k].gone + states[k].detached && b !in states[k].gone + states[k].detached
    ensures a == b && IsManaged(states[k], a)
  {
    EveryChildHasOnePlace(cfg, states, steps, k);
    assert OnePlace(states[k], a) && OnePlace(states[k], b);
  }
}
