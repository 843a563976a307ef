/** What every operation and event does to the record, its children and their signals, over
    every run and in full (src/services/AgentRuntimeSupervisor.ts:300-604). */
module RuntimeSteps {
  import opened Wrappers
  import opened RuntimeSupervisor

  // ----- Which operations go ahead -----

  /** A start or restart is turned down while agents are disabled or blocked, a stop or
      restart of a busy child unless it is forced. */
  predicate IsRefused(cfg: Config, w: World, step: Step) {
    match step
    case StartStep(_, _, _) => !cfg.enabled || cfg.blocker.Some?
    case StopStep(options, busy, _, _) => !cfg.enabled || (w.rec.managed.Some? && busy && !options.force)
    case RestartStep(force, _, busy, _, _, _) =>
      !cfg.enabled || cfg.blocker.Some? || (w.rec.managed.Some? && busy && !force)
    case _ => false
  }

  /** The step tries to start a child: a boot when one is wanted, a start that finds none, a
      restart in any case. */
  predicate Tries(cfg: Config, w: World, step: Step) {
    match step
    case Boot(_, _, _) => cfg.enabled && w.rec.desired == Running && w.rec.managed.None?
    case StartStep(_, _, _) => !IsRefused(cfg, w, step) && w.rec.managed.None?
    case RestartStep(_, _, _, _, _, _) => !IsRefused(cfg, w, step)
    case _ => false
  }

  function ResultOf(step: Step): Option<SpawnResult> {
    match step
    case Boot(result, _, _) => Some(result)
    case StartStep(result, _, _) => Some(result)
    case RestartStep(_, _, _, _, result, _) => Some(result)
    case _ => None
  }

  /** The step sends the managed child a SIGTERM: a stop, a shutdown or a restart of it. */
  predicate Signals(cfg: Config, w: World, step: Step) {
    w.rec.managed.Some? &&
    match step
    case StopStep(_, _, _, _) => !IsRefused(cfg, w, step)
    case ShutDownStep(_, _, _) => true
    case RestartStep(_, _, _, _, _, _) => !IsRefused(cfg, w, step)
    case _ => false
  }

  function AtOnce(step: Step): Option<Event> {
    match step
    case StopStep(_, _, atOnce, _) => atOnce
    case ShutDownStep(_, atOnce, _) => atOnce
    case RestartStep(_, _, _, atOnce, _, _) => atOnce
    case _ => None
  }

  // ----- The record -----

  /** After an attempt: running with the new child, or failed; the journal starts anew. */
  function AfterAttempt(rec: Record, result: SpawnResult, reason: string, now: int): Record {
    match result
    case Spawned(child) =>
      Record(rec.desired, RunningState, Some(Managed(child, rec.generation + 1)), rec.generation + 1, None,
             Journal(Some(now), None, None, None, None, None, Some(reason)))
    case Threw(error) =>
      Record(rec.desired, FailedState, None, rec.generation + 1, None,
             Journal(None, None, Some(now), None, None, Some(error), Some(reason)))
  }

  /** The managed child is over: stopped if that was wanted, exited or failed otherwise. */
  function AfterEvent(rec: Record, event: Event, now: int): Record {
    var ended := rec.(managed := None, stopTimer := None);
    match event
    case Exit(code, signal) =>
      ended.(state := if rec.state == StoppingState || rec.desired == Stopped then StoppedState else ExitedState,
             journal := rec.journal.(exitedAt := Some(now), exitCode := code, exitSignal := signal))
    case Error(message) =>
      ended.(state := FailedState,
             journal := rec.journal.(exitedAt := Some(now), exitCode := None, exitSignal := None,
                                     lastError := Some(message)))
  }

  /** A stop: without a child, at most the wish changes; with one, it is stopping, its kill
      timer set, unless it reports its end at once. */
  function AfterStop(rec: Record, sticky: bool, reason: string, atOnce: Option<Event>, now: int): Record {
    var wish := rec.(desired := if sticky then Stopped else rec.desired);
    if rec.managed.None? then
      wish.(state := if sticky && rec.state != DisabledState then StoppedState else rec.state,
            journal := rec.journal.(lastReason := Some(reason)))
    else
      var stopping := wish.(state := StoppingState,
                            journal := rec.journal.(stoppingAt := Some(now), lastReason := Some(reason)));
      if atOnce.Some? then AfterEvent(stopping, atOnce.value, now) else stopping.(stopTimer := rec.managed)
  }

  function RecordAfter(cfg: Config, w: World, step: Step): Record {
    var rec := w.rec;
    if IsRefused(cfg, w, step) then rec
    else match step
      case Boot(result, cause, now) =>
        if !Tries(cfg, w, step) then rec
        else if cfg.blocker.Some? then
          rec.(state := FailedState, journal := rec.journal.(exitedAt := Some(now), lastError := cfg.blocker))
        else AfterAttempt(rec, result, cause, now)
      case StartStep(result, reason, now) =>
        var wish := rec.(desired := Running);
        if rec.managed.Some? then wish
        else AfterAttempt(wish, result, if reason.Some? then reason.value else "manual_start", now)
      case RestartStep(_, reason, _, _, result, now) =>
        AfterAttempt(rec.(desired := Running), result, if reason.Some? then reason.value else "manual_restart", now)
      case StopStep(options, _, atOnce, now) =>
        AfterStop(rec, options.sticky, if options.reason.Some? then options.reason.value else "manual_stop", atOnce,
                  now)
      case ShutDownStep(cause, atOnce, now) => AfterStop(rec, cause != "resource_idle", cause, atOnce, now)
      case EventStep(child, event, now) =>
        if rec.managed.Some? && rec.managed.value.child == child then AfterEvent(rec, event, now) else rec
      case StopTimerStep => rec
      case KillTimerStep(_) => rec
  }

  lemma RestartRecord(cfg: Config, w: World, step: Step)
    requires Inv(cfg, w) && Enabled(w, step) && step.RestartStep?
    ensures Next(cfg, w, step).rec == RecordAfter(cfg, w, step)
  {
  }

  lemma StopRecordIs(cfg: Config, w: World, sticky: bool, reason: string, atOnce: Option<Event>, now: int)
    requires Inv(cfg, w)
    ensures StopRecord(w, sticky, Some(reason), atOnce, now).rec == AfterStop(w.rec, sticky, reason, atOnce, now)
  {
  }

  lemma NextRecord(cfg: Config, w: World, step: Step)
    requires Inv(cfg, w) && Enabled(w, step)
    ensures Next(cfg, w, step).rec == RecordAfter(cfg, w, step)
  {
    match step
    case Boot(_, _, _) =>
    case StartStep(_, _, _) =>
    case StopStep(options, _, atOnce, now) =>
      StopRecordIs(cfg, w, options.sticky, Given(options.reason, "manual_stop"), atOnce, now);
    case ShutDownStep(cause, atOnce, now) => StopRecordIs(cfg, w, cause != "resource_idle", cause, atOnce, now);
    case RestartStep(_, _, _, _, _, _) => RestartRecord(cfg, w, step);
    case EventStep(_, _, _) =>
    case StopTimerStep =>
    case KillTimerStep(_) =>
  }

  // ----- Children and signals -----

  function ManagedChild(w: World): Child
    requires w.rec.managed.Some?
  {
    w.rec.managed.value.child
  }

  /** The child whose end the step brings, if any: of itself, or at once on a SIGTERM. */
  function Ending(cfg: Config, w: World, step: Step): Option<(Child, Event)> {
    match step
    case EventStep(child, event, _) => Some((child, event))
    case _ =>
      if Signals(cfg, w, step) && AtOnce(step).Some? then Some((ManagedChild(w), AtOnce(step).value)) else None
  }

  /** New children come from attempts, SIGTERM goes to the child stopped or replaced, SIGKILL
      to the one whose timer fires; a restart cuts its child loose with a kill timer, which
      the exit of that child clears, unless it came before the timer was set. */
  ghost predicate ChildrenAfter(cfg: Config, w: World, step: Step, w': World) {
    var result, end := ResultOf(step), Ending(cfg, w, step);
    var replaced := if step.RestartStep? && Signals(cfg, w, step) then {ManagedChild(w)} else {};
    && w'.spawned == (if Tries(cfg, w, step) && cfg.blocker.None? && result.Some? && result.value.Spawned?
                      then w.spawned[result.value.child := w.rec.generation + 1] else w.spawned)
    && w'.terminated == (if Signals(cfg, w, step) then w.terminated + {ManagedChild(w)} else w.terminated)
    && w'.killed == (match step
                     case StopTimerStep => w.killed + (if w.rec.managed.Some? then {ManagedChild(w)} else {})
                     case KillTimerStep(child) => w.killed + {child}
                     case _ => w.killed)
    && w'.gone == (if end.Some? then w.gone + {end.value.0} else w.gone)
    && w'.detached == (if end.Some? then (w.detached + replaced) - {end.value.0} else w.detached + replaced)
    && w'.killTimers == (match step
                         case KillTimerStep(child) => w.killTimers - {child}
                         case _ => (if end.Some? && end.value.1.Exit? then w.killTimers - {end.value.0}
                                    else w.killTimers) + replaced)
  }

  lemma RestartChildren(cfg: Config, w: World, step: Step)
    requires Inv(cfg, w) && Enabled(w, step) && step.RestartStep?
    ensures ChildrenAfter(cfg, w, step, Next(cfg, w, step))
  {
  }

  lemma StopChildren(cfg: Config, w: World, step: Step)
    requires Inv(cfg, w) && Enabled(w, step) && (step.StopStep? || step.ShutDownStep?)
    ensures ChildrenAfter(cfg, w, step, Next(cfg, w, step))
  {
  }

  lemma NextChildren(cfg: Config, w: World, step: Step)
    requires Inv(cfg, w) && Enabled(w, step)
    ensures ChildrenAfter(cfg, w, step, Next(cfg, w, step))
  {
    match step
    case Boot(_, _, _) =>
    case StartStep(_, _, _) =>
    case StopStep(_, _, _, _) => StopChildren(cfg, w, step);
    case ShutDownStep(_, _, _) => StopChildren(cfg, w, step);
    case RestartStep(_, _, _, _, _, _) => RestartChildren(cfg, w, step);
    case EventStep(_, _, _) =>
    case StopTimerStep =>
    case KillTimerStep(_) =>
  }

  /** Every step of every run, in full. */
  lemma StepDoes(cfg: Config, states: seq<World>, steps: seq<Step>, k: nat)
    requires IsRun(cfg, states, steps) && k < |steps|
    ensures states[k + 1].rec == RecordAfter(cfg, states[k], steps[k])
    ensures ChildrenAfter(cfg, states[k], steps[k], states[k + 1])
  {
    EveryChildHasOnePlace(cfg, states, steps, k);
    assert states[k + 1] == Next(cfg, states[k], steps[k]);
    NextRecord(cfg, states[k], steps[k]);
    NextChildren(cfg, states[k], steps[k]);
  }

  /** What the caller of an on-demand operation is told: a conflict when it is refused, that
      there was nothing to do, or that it was done. */
  lemma AnswersAre(cfg: Config, w: World, step: Step)
    requires w.rec.managed.Some? ==> ManagedChild(w) in w.spawned
    ensures step.StartStep? ==>
              StartAgent(cfg, w, step.result, step.reason, step.now).1 ==
                if IsRefused(cfg, w, step) then Refused(409)
                else if w.rec.managed.Some? then Done(false, 200) else Done(true, 202)
    ensures step.StopStep? ==>
              StopAgent(cfg, w, step.options, step.busy, step.atOnce, step.now).1 ==
                if IsRefused(cfg, w, step) then Refused(409)
                else if w.rec.managed.Some? then Done(true, 202) else Done(false, 200)
    ensures step.RestartStep? ==>
              RestartAgent(cfg, w, step.force, step.reason, step.busy, step.atOnce, step.result, step.now).1 ==
                if IsRefused(cfg, w, step) then Refused(409) else Done(true, 202)
  {
  }
}
