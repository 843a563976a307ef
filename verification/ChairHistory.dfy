/** What each operation does to a chair, over every run and in full, and that a chair's beacon
    is the latest claim or heartbeat of its session (src/services/ChairRegistry.ts). */
module ChairHistory {
  import opened Wrappers
  import opened ChairRegistry

  lemma ThatStep(cfg: Config, states: seq<Registry>, steps: seq<Step>, k: nat)
    requires IsRun(cfg, states, steps) && k < |steps|
    ensures Inv(states[k]) && states[k + 1] == Next(cfg, states[k], steps[k])
  {
    RunInv(cfg, states, steps, k);
  }

  /** The operation is about this chair: a claim of it, or a heartbeat or release with the
      session it is held by. */
  predicate IsFor(chairs: Chairs, step: Step, agent: string) {
    match step
    case ClaimStep(a, _, _, _) => a == agent
    case HeartbeatStep(a, session, _, _) => a == agent && agent in chairs && chairs[agent].sessionId == session
    case ReleaseStep(a, session) => a == agent && agent in chairs && chairs[agent].sessionId == session
    case _ => false
  }

  /** The chair after a step, if there is one then. */
  function ChairAfter(cfg: Config, r: Registry, step: Step, agent: string): Option<Chair> {
    var kept := if agent in r.chairs then Some(r.chairs[agent]) else None;
    match step
    case ClaimStep(a, profile, note, now) =>
      if a == agent then Some(Chair(r.nextSession, profile, note, now, now, Online)) else kept
    case HeartbeatStep(_, _, note, now) =>
      if !IsFor(r.chairs, step, agent) then kept
      else
        var chair := r.chairs[agent];
        Some(chair.(lastBeaconAt := now, status := Online, note := if note.Some? then note else chair.note))
    case ReleaseStep(_, _) => if IsFor(r.chairs, step, agent) then None else kept
    case SweepStep(now) =>
      if kept.None? || now - kept.value.lastBeaconAt >= cfg.offlineMs then None
      else if now - kept.value.lastBeaconAt >= cfg.healthyMs then Some(kept.value.(status := Stale))
      else kept
    case RestartStep(now) =>
      if kept.None? || now - kept.value.lastBeaconAt > cfg.offlineMs then None
      else Some(kept.value.(status := Stale))
  }

  /** The chair is there exactly if it is some chair, and then it is that one. */
  predicate IsChair(chairs: Chairs, agent: string, chair: Option<Chair>) {
    if agent in chairs then chair == Some(chairs[agent]) else chair.None?
  }

  lemma NextOnChair(cfg: Config, r: Registry, step: Step, agent: string)
    requires Inv(r)
    ensures IsChair(Next(cfg, r, step).chairs, agent, ChairAfter(cfg, r, step, agent))
  {
    match step
    case ClaimStep(_, _, _, _) =>
    case HeartbeatStep(_, _, _, _) =>
    case ReleaseStep(_, _) =>
    case SweepStep(_) =>
    case RestartStep(_) =>
  }

  lemma ClaimsCount(cfg: Config, r: Registry, step: Step)
    ensures Next(cfg, r, step).nextSession == r.nextSession + (if step.ClaimStep? then 1 else 0)
  {
  }

  /** In memory and in the table alike, every step does this to every chair; only a claim uses
      up a session id. */
  lemma StepOnChair(cfg: Config, states: seq<Registry>, steps: seq<Step>, k: nat, agent: string)
    requires IsRun(cfg, states, steps) && k < |steps|
    ensures IsChair(states[k + 1].chairs, agent, ChairAfter(cfg, states[k], steps[k], agent))
    ensures states[k + 1].rows == states[k + 1].chairs
    ensures states[k + 1].nextSession == states[k].nextSession + (if steps[k].ClaimStep? then 1 else 0)
  {
    ThatStep(cfg, states, steps, k);
    RunInv(cfg, states, steps, k + 1);
    NextOnChair(cfg, states[k], steps[k], agent);
    ClaimsCount(cfg, states[k], steps[k]);
  }

  // ----- The beacon -----

  /** Step `m` claims the chair, or is a heartbeat of the session that holds it. */
  predicate Beats(states: seq<Registry>, steps: seq<Step>, m: nat, agent: string)
    requires |states| == |steps| + 1 && m < |steps|
  {
    (steps[m].ClaimStep? || steps[m].HeartbeatStep?) && IsFor(states[m].chairs, steps[m], agent)
  }

  /** The last such step before state `k`. */
  ghost predicate IsLastBeat(states: seq<Registry>, steps: seq<Step>, m: nat, k: nat, agent: string)
    requires |states| == |steps| + 1 && k <= |steps|
  {
    m < k && Beats(states, steps, m, agent) && forall q :: m < q < k ==> !Beats(states, steps, q, agent)
  }

  /** A chair's beacon is the time of its latest claim or accepted heartbeat, and it is held by
      the session of that. */
  lemma {:induction false} BeaconIsLatestBeat(cfg: Config, states: seq<Registry>, steps: seq<Step>, k: nat,
                                              agent: string) returns (m: nat)
    requires IsRun(cfg, states, steps) && k <= |steps| && agent in states[k].chairs
    ensures IsLastBeat(states, steps, m, k, agent)
    ensures states[k].chairs[agent].lastBeaconAt == steps[m].now
    ensures steps[m].HeartbeatStep? ==> steps[m].session == states[k].chairs[agent].sessionId
  {
    StepOnChair(cfg, states, steps, k - 1, agent);
    if Beats(states, steps, k - 1, agent) {
      m := k - 1;
    } else {
      m := BeaconIsLatestBeat(cfg, states, steps, k - 1, agent);
    }
  }

  /** A chair survives a sweep exactly when its latest beat is younger than offlineMs, and
      wilts when that is as old as healthyMs. */
  lemma SweepAsksForBeats(cfg: Config, states: seq<Registry>, steps: seq<Step>, k: nat, agent: string)
    returns (m: nat)
    requires IsRun(cfg, states, steps) && k < |steps| && steps[k].SweepStep? && agent in states[k].chairs
    ensures IsLastBeat(states, steps, m, k, agent)
    ensures var age := steps[k].now - steps[m].now;
            && (agent in states[k + 1].chairs <==> age < cfg.offlineMs)
            && (age < cfg.offlineMs ==>
                  states[k + 1].chairs[agent] ==
                    if age >= cfg.healthyMs then states[k].chairs[agent].(status := Stale) else states[k].chairs[agent])
  {
    m := BeaconIsLatestBeat(cfg, states, steps, k, agent);
    StepOnChair(cfg, states, steps, k, agent);
  }
}
