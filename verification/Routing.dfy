/** Which agent gets the architect phase (src/MevBridge.ts:172-214), as runs against the
    sliding window. */
module Routing {
  import opened RateLimitTracker

  datatype Bridge = Bridge(vramFreeMb: int, vramKnown: bool, vramFloorMb: int, primary: string, fallback: string)

  /** `routeArchitect`, given what the rate-limit gate said. */
  function Route(b: Bridge, free: bool): (agent: string)
    ensures b.primary != b.fallback ==>
              (agent == b.primary <==> free && b.vramKnown && b.vramFreeMb >= b.vramFloorMb)
    ensures agent == b.primary || agent == b.fallback
  {
    if !free then b.fallback
    else if !b.vramKnown then b.fallback
    else if b.vramFreeMb >= b.vramFloorMb then b.primary
    else b.fallback
  }

  /** The clock readings of one `execute`, in order. */
  datatype Readings = Readings(gateProvider: int, gate: int, record: int, first: int, provider: int, last: int)

  predicate InOrder(clock: int, r: Readings) {
    clock <= r.gateProvider <= r.gate <= r.record <= r.first <= r.provider <= r.last
  }

  function Executed(cfg: Config, t: Tracker, b: Bridge, r: Readings): (Tracker, string) {
    var (asked, free) := Asked(cfg, t, b.primary, r.gateProvider, r.gate);
    var agent := Route(b, free);
    (Snapped(cfg, Recorded(cfg, asked, agent, r.record), agent, r.first, r.provider, r.last), agent)
  }

  class MevBridge {
    var rateLimits: RateLimitTracker?
    var vramFreeMb: int
    var vramKnown: bool
    var vramFloorMb: int
    var primaryArchitect: string
    var fallbackAgent: string

    function State(): Bridge
      reads this
    {
      Bridge(vramFreeMb, vramKnown, vramFloorMb, primaryArchitect, fallbackAgent)
    }

    constructor ()
      ensures State() == Bridge(0, false, 8192, "shaev-agent", "nyx-cli-agent") && rateLimits == null
    {
      vramFreeMb, vramKnown, vramFloorMb := 0, false, 8192;
      primaryArchitect, fallbackAgent, rateLimits := "shaev-agent", "nyx-cli-agent", null;
    }

    method RouteArchitect(r: Readings) returns (agent: string)
      modifies rateLimits
      ensures rateLimits == null ==> agent == Route(State(), true)
      ensures rateLimits != null ==>
                && (rateLimits.State(), agent)
                   == (var (asked, free) :=
                         Asked(rateLimits.cfg, old(rateLimits.State()), primaryArchitect, r.gateProvider, r.gate);
                       (asked, Route(State(), free)))
    {
      if rateLimits != null {
        var free := rateLimits.CanDispatch(primaryArchitect, r.gateProvider, r.gate);
        if !free {
          return fallbackAgent;
        }
      }
      if !vramKnown {
        return fallbackAgent;
      }
      if vramFreeMb >= vramFloorMb {
        return primaryArchitect;
      }
      return fallbackAgent;
    }

    /** `execute` up to the dispatch it records. */
    method Execute(r: Readings) returns (agent: string)
      modifies rateLimits
      ensures rateLimits == null ==> agent == Route(State(), true)
      ensures rateLimits != null ==>
                (rateLimits.State(), agent) == Executed(rateLimits.cfg, old(rateLimits.State()), State(), r)
    {
      agent := RouteArchitect(r);
      if rateLimits != null {
        rateLimits.RecordDispatch(agent, r.record, r.first, r.provider, r.last);
      }
    }
  }

  // ----- Runs -----

  datatype Step =
    | Execute(bridge: Bridge, readings: Readings)
    | Look(agent: string, first: int, provider: int, last: int)
    | Report(agent: string, limit: Limit, first: int, provider: int, last: int)

  /** The tracker, every dispatch ever recorded, and the latest clock reading. */
  datatype World = World(tracker: Tracker, history: map<string, seq<int>>, clock: int)

  predicate Enabled(w: World, step: Step) {
    match step
    case Execute(_, r) => InOrder(w.clock, r)
    case Look(_, first, provider, last) => w.clock <= first <= provider <= last
    case Report(_, _, first, provider, last) => w.clock <= first <= provider <= last
  }

  function HistoryOf(w: World, agent: string): seq<int> {
    if agent in w.history then w.history[agent] else []
  }

  function Next(cfg: Config, w: World, step: Step): World {
    match step
    case Execute(b, r) =>
      var (tracker, agent) := Executed(cfg, w.tracker, b, r);
      World(tracker, w.history[agent := HistoryOf(w, agent) + [r.record]], r.last)
    case Look(agent, first, provider, last) =>
      World(Snapped(cfg, w.tracker, agent, first, provider, last), w.history, last)
    case Report(agent, limit, first, provider, last) =>
      World(Snapped(cfg, w.tracker.(limits := w.tracker.limits[agent := limit]), agent, first, provider, last),
            w.history, last)
  }

  ghost predicate IsRun(cfg: Config, states: seq<World>, steps: seq<Step>) {
    && |states| == |steps| + 1
    && states[0].tracker == EMPTY && states[0].history == map[]
    && forall k :: 0 <= k < |steps| ==> Enabled(states[k], steps[k]) && states[k + 1] == Next(cfg, states[k], steps[k])
  }

  // ----- The list is the history filtered to a trailing window -----

  /** The agent's list is what its history holds since some cutoff no later than the
      latest reading's window. */
  ghost predicate Tracks(cfg: Config, t: Tracker, history: seq<int>, agent: string, clock: int) {
    exists c :: c <= clock - cfg.windowMs && ListOf(t, agent) == Since(history, c)
  }

  ghost predicate Inv(cfg: Config, w: World, agent: string) {
    && Sorted(HistoryOf(w, agent))
    && (forall i :: 0 <= i < |HistoryOf(w, agent)| ==> HistoryOf(w, agent)[i] <= w.clock)
    && Tracks(cfg, w.tracker, HistoryOf(w, agent), agent, w.clock)
  }

  lemma PruneTracks(cfg: Config, t: Tracker, history: seq<int>, agent: string, other: string, clock: int, now: int)
    requires Sorted(history) && Tracks(cfg, t, history, agent, clock) && clock <= now
    ensures Tracks(cfg, PruneList(cfg, t, other, now), history, agent, now)
    ensures agent == other && agent in t.windows ==>
              ListOf(PruneList(cfg, t, other, now), agent) == Since(history, now - cfg.windowMs)
  {
    var c :| c <= clock - cfg.windowMs && ListOf(t, agent) == Since(history, c);
    if agent == other && agent in t.windows {
      PruneMoves(history, c, now - cfg.windowMs);
    } else {
      assert ListOf(PruneList(cfg, t, other, now), agent) == Since(history, c);
    }
  }

  lemma AskTracks(cfg: Config, t: Tracker, history: seq<int>, agent: string, other: string, clock: int,
                  provider: int, now: int)
    requires Sorted(history) && Tracks(cfg, t, history, agent, clock) && clock <= provider <= now
    ensures Tracks(cfg, Asked(cfg, t, other, provider, now).0, history, agent, now)
  {
    PruneTracks(cfg, t, history, agent, other, clock, now);
    var c :| c <= clock - cfg.windowMs && ListOf(t, agent) == Since(history, c);
    assert c <= now - cfg.windowMs;
  }

  lemma SnapTracks(cfg: Config, t: Tracker, history: seq<int>, agent: string, other: string, clock: int, first: int,
                   provider: int, last: int)
    requires Sorted(history) && Tracks(cfg, t, history, agent, clock) && clock <= first <= provider <= last
    ensures Tracks(cfg, Snapped(cfg, t, other, first, provider, last), history, agent, last)
  {
    PruneTracks(cfg, t, history, agent, other, clock, first);
    AskTracks(cfg, PruneList(cfg, t, other, first), history, agent, other, first, provider, last);
  }

  /** Pushing a reading and pruning gives the longer history's window. */
  lemma PushThenPrune(history: seq<int>, c: int, d: int, now: int)
    requires Sorted(history + [now]) && c <= d
    ensures Pruned(Since(history, c) + [now], d) == Since(history + [now], d)
  {
    SinceAppend(history, now, c);
    if now >= c {
      PruneMoves(history + [now], c, d);
    } else {
      // the window is negative: nothing is ever kept
      forall i | 0 <= i < |history| ensures history[i] <= now {
        assert (history + [now])[i] <= (history + [now])[|history|];
      }
      NoneSince(history, c);
      NoneSince(history + [now], d);
      assert [] + [now] == [now] && Pruned([now], d) == [];
    }
  }

  lemma RecordTracks(cfg: Config, t: Tracker, history: seq<int>, agent: string, clock: int, now: int)
    requires Sorted(history + [now]) && Tracks(cfg, t, history, agent, clock) && clock <= now
    ensures Tracks(cfg, Recorded(cfg, t, agent, now), history + [now], agent, now)
  {
    var c :| c <= clock - cfg.windowMs && ListOf(t, agent) == Since(history, c);
    PushThenPrune(history, c, now - cfg.windowMs, now);
    assert ListOf(Recorded(cfg, t, agent, now), agent) == Since(history + [now], now - cfg.windowMs);
  }

  lemma {:induction false} NoneSince(history: seq<int>, c: int)
    requires forall i :: 0 <= i < |history| ==> history[i] < c
    ensures Since(history, c) == []
  {
    if history != [] { NoneSince(history[1..], c); }
  }

  lemma OtherRecordTracks(cfg: Config, t: Tracker, history: seq<int>, agent: string, other: string, clock: int,
                          now: int)
    requires other != agent && Tracks(cfg, t, history, agent, clock) && clock <= now
    ensures Tracks(cfg, Recorded(cfg, t, other, now), history, agent, now)
  {
    var c :| c <= clock - cfg.windowMs && ListOf(t, agent) == Since(history, c);
    assert c <= now - cfg.windowMs && ListOf(Recorded(cfg, t, other, now), agent) == Since(history, c);
  }

  lemma ExecuteKeepsInv(cfg: Config, w: World, step: Step, agent: string)
    requires Inv(cfg, w, agent) && step.Execute? && Enabled(w, step)
    ensures Inv(cfg, Next(cfg, w, step), agent)
  {
    var r, history := step.readings, HistoryOf(w, agent);
    var (asked, free) := Asked(cfg, w.tracker, step.bridge.primary, r.gateProvider, r.gate);
    var other := Route(step.bridge, free);
    AskTracks(cfg, w.tracker, history, agent, step.bridge.primary, w.clock, r.gateProvider, r.gate);
    var after := Recorded(cfg, asked, other, r.record);
    if other == agent {
      RecordTracks(cfg, asked, history, agent, r.gate, r.record);
      SnapTracks(cfg, after, history + [r.record], agent, other, r.record, r.first, r.provider, r.last);
    } else {
      OtherRecordTracks(cfg, asked, history, agent, other, r.gate, r.record);
      SnapTracks(cfg, after, history, agent, other, r.record, r.first, r.provider, r.last);
    }
  }

  lemma NextKeepsInv(cfg: Config, w: World, step: Step, agent: string)
    requires Inv(cfg, w, agent) && Enabled(w, step)
    ensures Inv(cfg, Next(cfg, w, step), agent)
  {
    match step
    case Execute(_, _) => ExecuteKeepsInv(cfg, w, step, agent);
    case Look(other, first, provider, last) =>
      SnapTracks(cfg, w.tracker, HistoryOf(w, agent), agent, other, w.clock, first, provider, last);
    case Report(other, limit, first, provider, last) =>
      var limited := w.tracker.(limits := w.tracker.limits[other := limit]);
      assert ListOf(limited, agent) == ListOf(w.tracker, agent);
      SnapTracks(cfg, limited, HistoryOf(w, agent), agent, other, w.clock, first, provider, last);
  }

  lemma {:induction false} RunInv(cfg: Config, states: seq<World>, steps: seq<Step>, agent: string, k: nat)
    requires IsRun(cfg, states, steps) && k <= |steps|
    ensures Inv(cfg, states[k], agent)
  {
    if k == 0 {
      assert ListOf(EMPTY, agent) == Since([], states[0].clock - cfg.windowMs);
    } else {
      RunInv(cfg, states, steps, agent, k - 1);
      OneStep(cfg, states, steps, k);
      NextKeepsInv(cfg, states[k - 1], steps[k - 1], agent);
    }
  }

  /** In every reachable state the gate answers for the true number of dispatches in the
      trailing window, unless the provider's own limit blocks first. */
  lemma GateCountsTheWindow(cfg: Config, states: seq<World>, steps: seq<Step>, k: nat, agent: string, provider: int,
                            now: int)
    requires IsRun(cfg, states, steps) && k <= |steps| && states[k].clock <= provider <= now
    ensures Asked(cfg, states[k].tracker, agent, provider, now).1
            <==> !ProviderBlocks(states[k].tracker, agent, provider)
                 && |Since(HistoryOf(states[k], agent), now - cfg.windowMs)| < cfg.maxPerWindow
  {
    RunInv(cfg, states, steps, agent, k);
    RunLists(cfg, states, steps, k, agent);
    PruneTracks(cfg, states[k].tracker, HistoryOf(states[k], agent), agent, agent, states[k].clock, now);
  }

  /** The agent has a list, or it was never dispatched to. */
  ghost predicate Listed(w: World, agent: string) {
    agent in w.tracker.windows || HistoryOf(w, agent) == []
  }

  /** A list, once there, stays; and a dispatch makes one. */
  lemma NextLists(cfg: Config, w: World, step: Step, agent: string)
    requires Listed(w, agent)
    ensures Listed(Next(cfg, w, step), agent)
  {
  }

  lemma OneStep(cfg: Config, states: seq<World>, steps: seq<Step>, k: nat)
    requires IsRun(cfg, states, steps) && 0 < k <= |steps|
    ensures Enabled(states[k - 1], steps[k - 1]) && states[k] == Next(cfg, states[k - 1], steps[k - 1])
  {
    assert states[k - 1 + 1] == states[k];
  }

  lemma {:induction false} RunLists(cfg: Config, states: seq<World>, steps: seq<Step>, k: nat, agent: string)
    requires IsRun(cfg, states, steps) && k <= |steps|
    ensures Listed(states[k], agent)
  {
    if k > 0 {
      OneStep(cfg, states, steps, k);
      RunLists(cfg, states, steps, k - 1, agent);
      NextLists(cfg, states[k - 1], steps[k - 1], agent);
    }
  }

  // ----- The bound on the primary -----

  ghost predicate Apart(history: seq<int>, j: nat, n: nat, windowMs: int) {
    n <= j < |history| ==> history[j] - history[j - n] > windowMs
  }

  /** Any `n` + 1 successive dispatches span more than the window. */
  ghost predicate Spread(history: seq<int>, n: nat, windowMs: int) {
    forall j: nat :: j < |history| ==> Apart(history, j, n, windowMs)
  }

  lemma SpreadAppend(history: seq<int>, now: int, n: nat, windowMs: int)
    requires Spread(history, n, windowMs)
    requires n > 0 && (|history| >= n ==> now - history[|history| - n] > windowMs)
    ensures Spread(history + [now], n, windowMs)
  {
    forall j: nat | j < |history + [now]| ensures Apart(history + [now], j, n, windowMs) {
      if j < |history| { assert Apart(history, j, n, windowMs); }
    }
  }

  /** The gate lets a dispatch through only if the n-th last one has left the window. */
  lemma GateSpreads(cfg: Config, w: World, step: Step, agent: string)
    requires Inv(cfg, w, agent) && step.Execute? && Enabled(w, step) && step.bridge.fallback != agent
    requires Listed(w, agent)
    requires Spread(HistoryOf(w, agent), Max0(cfg.maxPerWindow), cfg.windowMs)
    ensures Spread(HistoryOf(Next(cfg, w, step), agent), Max0(cfg.maxPerWindow), cfg.windowMs)
  {
    var r, n, history := step.readings, Max0(cfg.maxPerWindow), HistoryOf(w, agent);
    var (asked, free) := Asked(cfg, w.tracker, step.bridge.primary, r.gateProvider, r.gate);
    if Route(step.bridge, free) == agent {
      PruneTracks(cfg, w.tracker, history, agent, agent, w.clock, r.gate);
      assert |Since(history, r.gate - cfg.windowMs)| < n;
      if |history| >= n { FewSince(history, r.gate - cfg.windowMs, n); }
      SpreadAppend(history, r.record, n, cfg.windowMs);
    }
  }

  function Max0(x: int): nat {
    if x > 0 then x else 0
  }

  lemma {:induction false} DispatchesAreSpread(cfg: Config, states: seq<World>, steps: seq<Step>, agent: string, k: nat)
    requires IsRun(cfg, states, steps) && k <= |steps|
    requires forall i :: 0 <= i < |steps| && steps[i].Execute? ==> steps[i].bridge.fallback != agent
    ensures Spread(HistoryOf(states[k], agent), Max0(cfg.maxPerWindow), cfg.windowMs)
  {
    if k > 0 {
      DispatchesAreSpread(cfg, states, steps, agent, k - 1);
      RunInv(cfg, states, steps, agent, k - 1);
      OneStep(cfg, states, steps, k);
      if steps[k - 1].Execute? {
        RunLists(cfg, states, steps, k - 1, agent);
        GateSpreads(cfg, states[k - 1], steps[k - 1], agent);
      }
    }
  }

  /** The positions of the dispatches in a closed interval. */
  function Within(history: seq<int>, from: int, until: int): set<nat> {
    set i | 0 <= i < |history| && from <= history[i] <= until
  }

  lemma {:induction false} RangeCount(s: set<nat>, lo: nat, n: nat)
    requires forall i :: i in s ==> lo <= i < lo + n
    ensures |s| <= n
  {
    if n == 0 {
      assert s == {};
    } else {
      RangeCount(s - {lo + n - 1}, lo, n - 1);
    }
  }

  lemma SpreadBounds(history: seq<int>, n: nat, windowMs: int, from: int)
    requires Sorted(history) && Spread(history, n, windowMs)
    ensures |Within(history, from, from + windowMs)| <= n
  {
    var s := Within(history, from, from + windowMs);
    if s != {} {
      var lo := First(history, from, 0);
      assert lo + n < |history| ==> Apart(history, lo + n, n, windowMs);
      RangeCount(s, lo, n);
    }
  }

  /** The first position at or after `k` whose reading is not before `from`. */
  function First(history: seq<int>, from: int, k: nat): (i: nat)
    requires k <= |history|
    ensures k <= i <= |history| && (i < |history| ==> history[i] >= from)
    ensures forall j :: k <= j < i ==> history[j] < from
    decreases |history| - k
  {
    if k == |history| || history[k] >= from then k else First(history, from, k + 1)
  }

  /** The closed interval of length windowMs from this instant on is not overfull. */
  ghost predicate WindowHolds(cfg: Config, history: seq<int>, from: int) {
    |Within(history, from, from + cfg.windowMs)| <= Max0(cfg.maxPerWindow)
  }

  /** Every closed interval of length windowMs holds at most maxPerWindow dispatches of an
      agent that is never the fallback, over all runs. */
  lemma WindowIsNeverExceeded(cfg: Config, states: seq<World>, steps: seq<Step>, agent: string, k: nat, from: int)
    requires IsRun(cfg, states, steps) && k <= |steps|
    requires forall i :: 0 <= i < |steps| && steps[i].Execute? ==> steps[i].bridge.fallback != agent
    ensures WindowHolds(cfg, HistoryOf(states[k], agent), from)
  {
    RunInv(cfg, states, steps, agent, k);
    DispatchesAreSpread(cfg, states, steps, agent, k);
    SpreadBounds(HistoryOf(states[k], agent), Max0(cfg.maxPerWindow), cfg.windowMs, from);
  }

  // ----- The bound and the fallback -----

  ghost predicate FallsBackTo(steps: seq<Step>, fallback: string) {
    forall i :: 0 <= i < |steps| && steps[i].Execute? ==> steps[i].bridge.fallback == fallback
  }

  /** No run with this fallback puts too many dispatches of the agent into one window. */
  ghost predicate NeverExceeds(cfg: Config, agent: string, fallback: string) {
    forall states, steps, from :: IsRun(cfg, states, steps) && FallsBackTo(steps, fallback) ==>
      WindowHolds(cfg, HistoryOf(states[|steps|], agent), from)
  }

  /** An `execute` at instant 0 that knows nothing about the memory. */
  function BlindStep(fallback: string): Step {
    Execute(Bridge(0, false, 0, fallback, fallback), Readings(0, 0, 0, 0, 0, 0))
  }

  lemma BlindExecute(cfg: Config, w: World, fallback: string)
    requires w.clock == 0
    ensures Enabled(w, BlindStep(fallback)) && Next(cfg, w, BlindStep(fallback)).clock == 0
    ensures HistoryOf(Next(cfg, w, BlindStep(fallback)), fallback) == HistoryOf(w, fallback) + [0]
  {
  }

  lemma RunGoesOn(cfg: Config, states: seq<World>, steps: seq<Step>, step: Step)
    requires IsRun(cfg, states, steps) && Enabled(states[|steps|], step)
    ensures IsRun(cfg, states + [Next(cfg, states[|steps|], step)], steps + [step])
  {
  }

  /** The fallback is not gated: any number of its dispatches fit into one instant. */
  lemma {:induction false} FallbackBurst(cfg: Config, fallback: string, n: nat)
    returns (states: seq<World>, steps: seq<Step>)
    ensures IsRun(cfg, states, steps) && FallsBackTo(steps, fallback)
    ensures states[|steps|].clock == 0 && HistoryOf(states[|steps|], fallback) == seq(n, _ => 0)
  {
    if n == 0 {
      states, steps := [World(EMPTY, map[], 0)], [];
    } else {
      states, steps := FallbackBurst(cfg, fallback, n - 1);
      BlindExecute(cfg, states[|steps|], fallback);
      RunGoesOn(cfg, states, steps, BlindStep(fallback));
      states, steps := states + [Next(cfg, states[|steps|], BlindStep(fallback))], steps + [BlindStep(fallback)];
    }
  }

  lemma {:induction false} AllWithin(n: nat, width: int)
    requires width >= 0
    ensures |Within(seq(n, _ => 0), 0, width)| == n
  {
    if n > 0 {
      AllWithin(n - 1, width);
      assert Within(seq(n, _ => 0), 0, width) == Within(seq(n - 1, _ => 0), 0, width) + {n - 1};
    }
  }

  /** The window bounds an agent's dispatches over all runs exactly when the agent is not
      the fallback (a window of negative length holds nothing at all). */
  lemma WindowHoldsIffNotFallback(cfg: Config, agent: string, fallback: string)
    ensures NeverExceeds(cfg, agent, fallback) <==> agent != fallback || cfg.windowMs < 0
  {
    if agent == fallback && cfg.windowMs >= 0 {
      var n := Max0(cfg.maxPerWindow) + 1;
      var states, steps := FallbackBurst(cfg, fallback, n);
      AllWithin(n, cfg.windowMs);
      assert !WindowHolds(cfg, HistoryOf(states[|steps|], agent), 0);
    } else {
      forall states, steps, from | IsRun(cfg, states, steps) && FallsBackTo(steps, fallback)
        ensures WindowHolds(cfg, HistoryOf(states[|steps|], agent), from)
      {
        if agent != fallback {
          WindowIsNeverExceeded(cfg, states, steps, agent, |steps|, from);
        } else {
          assert Within(HistoryOf(states[|steps|], agent), from, from + cfg.windowMs) == {};
        }
      }
    }
  }
}
