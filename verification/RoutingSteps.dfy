/** Which agent an execution goes to and what the tracker says and keeps, over every run
    (src/MevBridge.ts:172-214, src/services/RateLimitTracker.ts). */
module RoutingSteps {
  import opened Wrappers
  import opened RateLimitTracker
  import opened Routing

  /** How many dispatches of the agent lie in the window that ends at `now`. */
  function InWindow(cfg: Config, w: World, agent: string, now: int): nat {
    |Since(HistoryOf(w, agent), now - cfg.windowMs)|
  }

  /** The provider of the agent last reported that nothing is left until later than `now`. */
  predicate IsHeldBack(w: World, agent: string, now: int) {
    agent in w.tracker.limits && w.tracker.limits[agent].remaining <= 0 && now < w.tracker.limits[agent].resetAtMs
  }

  /** The agent an execution goes to: the primary one if its provider does not hold it back,
      its window has room and enough memory is known to be free; the fallback otherwise. */
  function Chosen(cfg: Config, w: World, b: Bridge, r: Readings): string {
    if IsHeldBack(w, b.primary, r.gateProvider) || InWindow(cfg, w, b.primary, r.gate) >= cfg.maxPerWindow
       || !b.vramKnown || b.vramFreeMb < b.vramFloorMb
    then b.fallback else b.primary
  }

  lemma ThatStep(cfg: Config, states: seq<World>, steps: seq<Step>, k: nat)
    requires IsRun(cfg, states, steps) && k < |steps|
    ensures Enabled(states[k], steps[k]) && states[k + 1] == Next(cfg, states[k], steps[k])
  {
    OneStep(cfg, states, steps, k + 1);
  }

  lemma PruningSparesLimits(cfg: Config, t: Tracker, agent: string, first: int, provider: int, last: int)
    ensures Snapped(cfg, t, agent, first, provider, last).limits == t.limits
  {
  }

  /** What a step adds to the history, and which limits are reported afterwards. */
  ghost predicate StepAdds(cfg: Config, w: World, w': World, step: Step) {
    match step
    case Execute(b, r) =>
      var agent := Chosen(cfg, w, b, r);
      && w'.history == w.history[agent := HistoryOf(w, agent) + [r.record]]
      && w'.tracker.limits == w.tracker.limits && w'.clock == r.last
    case Look(_, _, _, last) =>
      w'.history == w.history && w'.tracker.limits == w.tracker.limits && w'.clock == last
    case Report(agent, limit, _, _, last) =>
      w'.history == w.history && w'.tracker.limits == w.tracker.limits[agent := limit] && w'.clock == last
  }

  /** Every execution is recorded for the agent it goes to; nothing else is recorded, and
      only reports change a limit. */
  lemma StepRecords(cfg: Config, states: seq<World>, steps: seq<Step>, k: nat)
    requires IsRun(cfg, states, steps) && k < |steps|
    ensures StepAdds(cfg, states[k], states[k + 1], steps[k])
  {
    var w := states[k];
    ThatStep(cfg, states, steps, k);
    match steps[k]
    case Execute(b, r) =>
      GateCountsTheWindow(cfg, states, steps, k, b.primary, r.gateProvider, r.gate);
      var (asked, free) := Asked(cfg, w.tracker, b.primary, r.gateProvider, r.gate);
      assert Route(b, free) == Chosen(cfg, w, b, r);
      PruningSparesLimits(cfg, Recorded(cfg, asked, Route(b, free), r.record), Route(b, free), r.first, r.provider,
                          r.last);
    case Look(agent, first, provider, last) => PruningSparesLimits(cfg, w.tracker, agent, first, provider, last);
    case Report(agent, limit, first, provider, last) =>
      PruningSparesLimits(cfg, w.tracker.(limits := w.tracker.limits[agent := limit]), agent, first, provider, last);
  }

  /** What a snapshot counts: the dispatches in the window; and it names the time at which the
      oldest of them leaves it, unless that was made at instant 0. */
  lemma SnapshotCounts(cfg: Config, states: seq<World>, steps: seq<Step>, k: nat, agent: string, now: int)
    requires IsRun(cfg, states, steps) && k <= |steps| && states[k].clock <= now
    ensures var list := ListOf(PruneList(cfg, states[k].tracker, agent, now), agent);
            var counted := Since(HistoryOf(states[k], agent), now - cfg.windowMs);
            && |list| == InWindow(cfg, states[k], agent, now)
            && ResetAt(cfg, list) ==
               (if counted == [] || counted[0] == 0 then None else Some(counted[0] + cfg.windowMs))
  {
    RunInv(cfg, states, steps, agent, k);
    RunLists(cfg, states, steps, k, agent);
    PruneTracks(cfg, states[k].tracker, HistoryOf(states[k], agent), agent, agent, states[k].clock, now);
  }
}
