/** The per-agent sliding window of dispatches (src/services/RateLimitTracker.ts). Every
    reading of the clock an operation makes is a parameter of its own, in the order of
    the readings. */
module RateLimitTracker {
  import opened Wrappers

  datatype Config = Config(windowMs: int, maxPerWindow: int)

  datatype Limit = Limit(remaining: int, resetAtMs: int)

  datatype Tracker = Tracker(windows: map<string, seq<int>>, limits: map<string, Limit>)

  datatype Snapshot = Snapshot(inWindow: nat, blocked: bool, resetAtMs: Option<int>, reported: Option<Limit>)

  const EMPTY := Tracker(map[], map[])

  // ----- The operations as functions -----

  /** Drops the readings below the cutoff from the front of the list. */
  function Pruned(list: seq<int>, cutoff: int): seq<int> {
    if list != [] && list[0] < cutoff then Pruned(list[1..], cutoff) else list
  }

  function ListOf(t: Tracker, agent: string): seq<int> {
    if agent in t.windows then t.windows[agent] else []
  }

  /** An agent without a list keeps none: pruning works on a throw-away list then. */
  function PruneList(cfg: Config, t: Tracker, agent: string, now: int): Tracker {
    if agent in t.windows then t.(windows := t.windows[agent := Pruned(t.windows[agent], now - cfg.windowMs)]) else t
  }

  predicate ProviderBlocks(t: Tracker, agent: string, now: int) {
    agent in t.limits && t.limits[agent].remaining <= 0 && now < t.limits[agent].resetAtMs
  }

  /** `canDispatch`: the list is only pruned when the provider's limit lets the call get there. */
  function Asked(cfg: Config, t: Tracker, agent: string, provider: int, now: int): (Tracker, bool) {
    if ProviderBlocks(t, agent, provider) then (t, false)
    else (PruneList(cfg, t, agent, now), |ListOf(PruneList(cfg, t, agent, now), agent)| < cfg.maxPerWindow)
  }

  function Snapped(cfg: Config, t: Tracker, agent: string, first: int, provider: int, now: int): Tracker {
    Asked(cfg, PruneList(cfg, t, agent, first), agent, provider, now).0
  }

  function Recorded(cfg: Config, t: Tracker, agent: string, now: int): Tracker {
    t.(windows := t.windows[agent := Pruned(ListOf(t, agent) + [now], now - cfg.windowMs)])
  }

  /** When the oldest reading leaves the window; a reading of 0 is falsy and tells nothing. */
  function ResetAt(cfg: Config, list: seq<int>): Option<int> {
    if list == [] || list[0] == 0 then None else Some(list[0] + cfg.windowMs)
  }

  class RateLimitTracker {
    const cfg: Config
    var windows: map<string, seq<int>>
    var providerLimits: map<string, Limit>

    function State(): Tracker
      reads this
    {
      Tracker(windows, providerLimits)
    }

    constructor (cfg: Config)
      ensures this.cfg == cfg && State() == EMPTY
    {
      this.cfg, windows, providerLimits := cfg, map[], map[];
    }

    method Prune(list: seq<int>, now: int) returns (kept: seq<int>)
      ensures kept == Pruned(list, now - cfg.windowMs)
    {
      var cutoff := now - cfg.windowMs;
      kept := list;
      while |kept| > 0 && kept[0] < cutoff
        invariant Pruned(kept, cutoff) == Pruned(list, cutoff)
      {
        kept := kept[1..];
      }
    }

    method CanDispatch(agent: string, provider: int, now: int) returns (free: bool)
      modifies this
      ensures (State(), free) == Asked(cfg, old(State()), agent, provider, now)
    {
      if agent in providerLimits && providerLimits[agent].remaining <= 0 && provider < providerLimits[agent].resetAtMs {
        return false;
      }
      var list := if agent in windows then windows[agent] else [];
      list := Prune(list, now);
      if agent in windows {
        windows := windows[agent := list];
      }
      return |list| < cfg.maxPerWindow;
    }

    method TakeSnapshot(agent: string, first: int, provider: int, now: int) returns (s: Snapshot)
      modifies this
      ensures State() == Snapped(cfg, old(State()), agent, first, provider, now)
      ensures var pruned := PruneList(cfg, old(State()), agent, first);
              && s.inWindow == |ListOf(pruned, agent)| && s.blocked == !Asked(cfg, pruned, agent, provider, now).1
              && s.resetAtMs == ResetAt(cfg, ListOf(pruned, agent))
      ensures s.reported == if agent in old(providerLimits) then Some(old(providerLimits)[agent]) else None
    {
      var list := if agent in windows then windows[agent] else [];
      list := Prune(list, first);
      if agent in windows {
        windows := windows[agent := list];
      }
      var reported := if agent in providerLimits then Some(providerLimits[agent]) else None;
      var free := CanDispatch(agent, provider, now);
      s := Snapshot(|list|, !free, ResetAt(cfg, list), reported);
    }

    /** The last three readings are those of the snapshot in the emitted event. */
    method RecordDispatch(agent: string, now: int, first: int, provider: int, last: int)
      modifies this
      ensures State() == Snapped(cfg, Recorded(cfg, old(State()), agent, now), agent, first, provider, last)
    {
      var list := if agent in windows then windows[agent] else [];
      list := list + [now];
      list := Prune(list, now);
      windows := windows[agent := list];
      var _ := TakeSnapshot(agent, first, provider, last);
    }

    method UpdateProviderLimit(agent: string, remaining: int, resetAtMs: int, first: int, provider: int, last: int)
      modifies this
      ensures State() == Snapped(cfg,
                                 old(State()).(limits := old(providerLimits)[agent := Limit(remaining, resetAtMs)]),
                                 agent, first, provider, last)
    {
      providerLimits := providerLimits[agent := Limit(remaining, resetAtMs)];
      var _ := TakeSnapshot(agent, first, provider, last);
    }
  }

  // ----- A pruned list is the history filtered to a trailing window -----

  /** The readings at or above the cutoff, wherever they stand. */
  function Since(history: seq<int>, cutoff: int): seq<int> {
    if history == [] then []
    else (if history[0] >= cutoff then [history[0]] else []) + Since(history[1..], cutoff)
  }

  ghost predicate Sorted(s: seq<int>) {
    forall i, j :: 0 <= i <= j < |s| ==> s[i] <= s[j]
  }

  lemma {:induction false} AllSince(history: seq<int>, cutoff: int)
    requires forall i :: 0 <= i < |history| ==> history[i] >= cutoff
    ensures Since(history, cutoff) == history
  {
    if history != [] { AllSince(history[1..], cutoff); }
  }

  lemma {:induction false} PrunedIsSince(history: seq<int>, cutoff: int)
    requires Sorted(history)
    ensures Pruned(history, cutoff) == Since(history, cutoff)
  {
    if history != [] {
      if history[0] < cutoff {
        PrunedIsSince(history[1..], cutoff);
      } else {
        AllSince(history, cutoff);
      }
    }
  }

  lemma {:induction false} SinceAppend(history: seq<int>, now: int, cutoff: int)
    ensures Since(history + [now], cutoff) == Since(history, cutoff) + (if now >= cutoff then [now] else [])
  {
    if history != [] {
      assert (history + [now])[1..] == history[1..] + [now];
      SinceAppend(history[1..], now, cutoff);
    } else {
      assert history + [now] == [now];
    }
  }

  lemma {:induction false} SinceTwice(history: seq<int>, c: int, d: int)
    requires c <= d
    ensures Since(Since(history, c), d) == Since(history, d)
  {
    if history != [] {
      SinceTwice(history[1..], c, d);
      if history[0] >= c {
        assert Since(history, c) == [history[0]] + Since(history[1..], c);
        assert Since(history, c)[1..] == Since(history[1..], c);
      } else {
        assert Since(history, c) == Since(history[1..], c);
      }
    }
  }

  lemma {:induction false} SinceIsSorted(history: seq<int>, cutoff: int)
    requires Sorted(history)
    ensures Sorted(Since(history, cutoff))
    ensures forall x :: x in Since(history, cutoff) ==> x >= cutoff && x in history
  {
    if history != [] {
      var rest := history[1..];
      assert history == [history[0]] + rest;
      SinceIsSorted(rest, cutoff);
      forall i | 0 <= i < |Since(rest, cutoff)| ensures history[0] <= Since(rest, cutoff)[i] {
        assert Since(rest, cutoff)[i] in Since(rest, cutoff);
      }
    }
  }

  /** A list that is the history since `c`, pruned at a later cutoff, is the history since that. */
  lemma PruneMoves(history: seq<int>, c: int, d: int)
    requires Sorted(history) && c <= d
    ensures Pruned(Since(history, c), d) == Since(history, d)
  {
    SinceIsSorted(history, c);
    PrunedIsSince(Since(history, c), d);
    SinceTwice(history, c, d);
  }

  /** When fewer than `n` readings are at or above the cutoff, the n-th from the end is below it. */
  lemma {:induction false} FewSince(history: seq<int>, cutoff: int, n: nat)
    requires Sorted(history) && |Since(history, cutoff)| < n <= |history|
    ensures history[|history| - n] < cutoff
  {
    if history[0] >= cutoff {
      AllSince(history, cutoff);
    }
    assert history[0] < cutoff;
    if n < |history| {
      FewSince(history[1..], cutoff, n);
    }
  }
}
