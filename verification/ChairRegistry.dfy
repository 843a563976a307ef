/** Chair sessions and their rows (src/services/ChairRegistry.ts). Session ids are fresh
    numbers; the table `chair_claims` is a map that outlives the process. */
module ChairRegistry {
  import opened Wrappers

  type Time = int

  datatype Status = Online | Stale

  datatype Profile = Profile(provider: string, capabilities: seq<string>, trustTier: int, host: Option<string>,
                             inboxUrl: Option<string>)

  datatype Chair = Chair(sessionId: nat, profile: Profile, note: Option<string>, claimedAt: Time,
                         lastBeaconAt: Time, status: Status)

  type Chairs = map<string, Chair>

  datatype Config = Config(healthyMs: int, offlineMs: int)

  /** The map in memory, the table, and the next session id. */
  datatype Registry = Registry(chairs: Chairs, rows: Chairs, nextSession: nat)

  // ----- The operations as functions -----

  /** `chairs.set` and `persist`. */
  function Saved(r: Registry, agent: string, chair: Chair): Registry {
    r.(chairs := r.chairs[agent := chair], rows := r.rows[agent := chair])
  }

  /** `chairs.delete` and `erase`. */
  function Dropped(r: Registry, agent: string): Registry {
    r.(chairs := r.chairs - {agent}, rows := r.rows - {agent})
  }

  function Claimed(r: Registry, agent: string, profile: Profile, note: Option<string>, now: Time): Registry {
    Saved(r, agent, Chair(r.nextSession, profile, note, now, now, Online)).(nextSession := r.nextSession + 1)
  }

  /** Whether a session's heartbeat or release is accepted. */
  predicate Holds(chairs: Chairs, agent: string, session: nat) {
    agent in chairs && chairs[agent].sessionId == session
  }

  function Beaten(r: Registry, agent: string, session: nat, note: Option<string>, now: Time): Registry {
    if !Holds(r.chairs, agent, session) then r
    else
      var chair := r.chairs[agent];
      Saved(r, agent, chair.(lastBeaconAt := now, note := if note.Some? then note else chair.note, status := Online))
  }

  function Released(r: Registry, agent: string, session: nat): Registry {
    if Holds(r.chairs, agent, session) then Dropped(r, agent) else r
  }

  predicate Expired(cfg: Config, chair: Chair, now: Time) {
    now - chair.lastBeaconAt >= cfg.offlineMs
  }

  function Aged(cfg: Config, chair: Chair, now: Time): Chair {
    if now - chair.lastBeaconAt >= cfg.healthyMs then chair.(status := Stale) else chair
  }

  /** A chair that a sweep turns stale. */
  predicate Wilts(cfg: Config, chair: Chair, now: Time) {
    !Expired(cfg, chair, now) && now - chair.lastBeaconAt >= cfg.healthyMs && chair.status != Stale
  }

  /** The rows once a sweep has been through these agents: expired chairs are erased, those
      that turn stale are written. */
  function SweptRows(cfg: Config, chairs: Chairs, rows: Chairs, through: set<string>, now: Time): Chairs {
    var erased := set agent | agent in through && agent in chairs && Expired(cfg, chairs[agent], now);
    var written := map agent | agent in through && agent in chairs && Wilts(cfg, chairs[agent], now)
                     :: Aged(cfg, chairs[agent], now);
    (rows - erased) + written
  }

  lemma SweptOneMore(cfg: Config, chairs: Chairs, rows: Chairs, through: set<string>, agent: string, now: Time)
    requires agent in chairs && agent !in through
    ensures var before := SweptRows(cfg, chairs, rows, through, now);
            SweptRows(cfg, chairs, rows, through + {agent}, now) ==
              if Expired(cfg, chairs[agent], now) then before - {agent}
              else if Wilts(cfg, chairs[agent], now) then before[agent := Aged(cfg, chairs[agent], now)]
              else before
  {
  }

  function Swept(cfg: Config, r: Registry, now: Time): Registry {
    r.(chairs := map agent | agent in r.chairs && !Expired(cfg, r.chairs[agent], now)
                   :: Aged(cfg, r.chairs[agent], now),
       rows := SweptRows(cfg, r.chairs, r.rows, r.chairs.Keys, now))
  }

  /** A new process over the old table; its session ids are fresh, too. */
  function Hydrated(cfg: Config, r: Registry, now: Time): Registry {
    var chairs := map agent | agent in r.rows && r.rows[agent].lastBeaconAt >= now - cfg.offlineMs
                    :: r.rows[agent].(status := Stale);
    r.(chairs := chairs, rows := chairs)
  }

  class ChairTable {
    var rows: Chairs

    constructor ()
      ensures rows == map[]
    {
      rows := map[];
    }
  }

  /** A registry without a database keeps its chairs in memory only. */
  class ChairRegistry {
    const cfg: Config
    const db: ChairTable?
    var chairs: Chairs
    var nextSession: nat

    function State(): Registry
      reads this, db
    {
      Registry(chairs, if db == null then map[] else db.rows, nextSession)
    }

    /** The registry is in this state, as far as it keeps one. */
    ghost predicate IsAt(r: Registry)
      reads this, db
    {
      chairs == r.chairs && nextSession == r.nextSession && (db != null ==> db.rows == r.rows)
    }

    constructor (cfg: Config, db: ChairTable?, nextSession: nat, now: Time)
      modifies db
      ensures this.cfg == cfg && this.db == db
      ensures IsAt(Hydrated(cfg, Registry(map[], if db == null then map[] else old(db.rows), nextSession), now))
    {
      this.cfg, this.db, chairs := cfg, db, map[];
      this.nextSession := nextSession;
      new;
      Hydrate(now);
    }

    method Hydrate(now: Time)
      requires chairs == map[]
      modifies this, db
      ensures IsAt(Hydrated(cfg, old(State()), now))
    {
      if db == null {
        return;
      }
      var cutoff := now - cfg.offlineMs;
      ghost var rows := db.rows;
      var rest := db.rows.Keys;
      while rest != {}
        invariant rest <= rows.Keys && nextSession == old(nextSession)
        invariant forall agent :: agent in chairs <==>
                    agent in rows && agent !in rest && rows[agent].lastBeaconAt >= cutoff
        invariant forall agent :: agent in chairs ==> chairs[agent] == rows[agent].(status := Stale)
        invariant forall agent :: agent in db.rows <==> agent in chairs || agent in rest
        invariant forall agent :: agent in db.rows ==>
                    db.rows[agent] == if agent in rest then rows[agent] else chairs[agent]
      {
        var agent :| agent in rest;
        rest := rest - {agent};
        if db.rows[agent].lastBeaconAt < cutoff {
          db.rows := db.rows - {agent};
        } else {
          var chair := db.rows[agent].(status := Stale);
          chairs := chairs[agent := chair];
          db.rows := db.rows[agent := chair];
        }
      }
      assert chairs == Hydrated(cfg, old(State()), now).chairs;
      assert db.rows == chairs;
    }

    method Persist(agent: string, chair: Chair)
      modifies db
      ensures db != null ==> db.rows == old(db.rows)[agent := chair]
    {
      if db != null {
        db.rows := db.rows[agent := chair];
      }
    }

    method Erase(agent: string)
      modifies db
      ensures db != null ==> db.rows == old(db.rows) - {agent}
    {
      if db != null {
        db.rows := db.rows - {agent};
      }
    }

    method Claim(agent: string, profile: Profile, note: Option<string>, now: Time) returns (chair: Chair)
      modifies this, db
      ensures IsAt(Claimed(old(State()), agent, profile, note, now)) && agent in chairs && chair == chairs[agent]
    {
      chair := Chair(nextSession, profile, note, now, now, Online);
      nextSession := nextSession + 1;
      chairs := chairs[agent := chair];
      Persist(agent, chair);
    }

    method Heartbeat(agent: string, session: nat, note: Option<string>, now: Time) returns (chair: Option<Chair>)
      modifies this, db
      ensures IsAt(Beaten(old(State()), agent, session, note, now))
      ensures chair == if old(Holds(chairs, agent, session)) && agent in chairs then Some(chairs[agent]) else None
    {
      if agent !in chairs || chairs[agent].sessionId != session {
        return None;
      }
      var c := chairs[agent].(lastBeaconAt := now);
      if note.Some? {
        c := c.(note := note);
      }
      c := c.(status := Online);
      chairs := chairs[agent := c];
      Persist(agent, c);
      return Some(c);
    }

    method Release(agent: string, session: nat) returns (released: bool)
      modifies this, db
      ensures IsAt(Released(old(State()), agent, session)) && released == old(Holds(chairs, agent, session))
    {
      if agent !in chairs || chairs[agent].sessionId != session {
        return false;
      }
      chairs := chairs - {agent};
      Erase(agent);
      return true;
    }

    method Sweep(now: Time)
      modifies this, db
      ensures IsAt(Swept(cfg, old(State()), now))
    {
      ghost var before, rows, through := chairs, State().rows, {};
      var rest := chairs.Keys;
      while rest != {}
        invariant rest <= before.Keys && nextSession == old(nextSession)
        invariant forall agent :: agent in chairs <==>
                    agent in before && (agent in rest || !Expired(cfg, before[agent], now))
        invariant forall agent :: agent in chairs ==>
                    chairs[agent] == if agent in rest then before[agent] else Aged(cfg, before[agent], now)
        invariant through == before.Keys - rest
                  && (db != null ==> db.rows == SweptRows(cfg, before, rows, through, now))
      {
        var agent :| agent in rest;
        SweptOneMore(cfg, before, rows, through, agent, now);
        rest, through := rest - {agent}, through + {agent};
        var chair := chairs[agent];
        var age := now - chair.lastBeaconAt;
        if age >= cfg.offlineMs {
          chairs := chairs - {agent};
          Erase(agent);
        } else if age >= cfg.healthyMs && chair.status != Stale {
          chair := chair.(status := Stale);
          chairs := chairs[agent := chair];
          Persist(agent, chair);
        }
      }
      assert through == before.Keys;
      assert chairs == Swept(cfg, old(State()), now).chairs;
    }
  }

  // ----- Runs -----

  datatype Step =
    | ClaimStep(agent: string, profile: Profile, note: Option<string>, now: Time)
    | HeartbeatStep(agent: string, session: nat, note: Option<string>, now: Time)
    | ReleaseStep(agent: string, session: nat)
    | SweepStep(now: Time)
    | RestartStep(now: Time)

  function Next(cfg: Config, r: Registry, step: Step): Registry {
    match step
    case ClaimStep(agent, profile, note, now) => Claimed(r, agent, profile, note, now)
    case HeartbeatStep(agent, session, note, now) => Beaten(r, agent, session, note, now)
    case ReleaseStep(agent, session) => Released(r, agent, session)
    case SweepStep(now) => Swept(cfg, r, now)
    case RestartStep(now) => Hydrated(cfg, r, now)
  }

  ghost predicate IsRun(cfg: Config, states: seq<Registry>, steps: seq<Step>) {
    && |states| == |steps| + 1 && states[0] == Registry(map[], map[], 0)
    && forall k :: 0 <= k < |steps| ==> states[k + 1] == Next(cfg, states[k], steps[k])
  }

  /** The table mirrors the map; session ids were handed out, each to one chair. */
  ghost predicate Inv(r: Registry) {
    && r.rows == r.chairs
    && (forall agent :: agent in r.chairs ==> r.chairs[agent].sessionId < r.nextSession)
    && (forall a, b :: a in r.chairs && b in r.chairs && a != b ==> r.chairs[a].sessionId != r.chairs[b].sessionId)
  }

  /** Handed out, and holding no chair. */
  ghost predicate Dead(r: Registry, session: nat) {
    session < r.nextSession && forall agent :: agent in r.chairs ==> r.chairs[agent].sessionId != session
  }

  lemma SweepKeepsInv(cfg: Config, r: Registry, now: Time)
    requires Inv(r)
    ensures Inv(Swept(cfg, r, now))
  {
    assert Swept(cfg, r, now).rows == Swept(cfg, r, now).chairs;
  }

  lemma ClaimKeepsInv(cfg: Config, r: Registry, agent: string, profile: Profile, note: Option<string>, now: Time)
    requires Inv(r)
    ensures Inv(Claimed(r, agent, profile, note, now))
  {
  }

  lemma NextKeepsInv(cfg: Config, r: Registry, step: Step)
    requires Inv(r)
    ensures Inv(Next(cfg, r, step))
  {
    match step
    case ClaimStep(agent, profile, note, now) => ClaimKeepsInv(cfg, r, agent, profile, note, now);
    case HeartbeatStep(_, _, _, _) =>
    case ReleaseStep(_, _) =>
    case SweepStep(now) => SweepKeepsInv(cfg, r, now);
    case RestartStep(_) =>
  }

  lemma NextKeepsDead(cfg: Config, r: Registry, step: Step, session: nat)
    requires Inv(r) && Dead(r, session)
    ensures Dead(Next(cfg, r, step), session)
  {
    match step
    case ClaimStep(_, _, _, _) =>
    case HeartbeatStep(_, _, _, _) =>
    case ReleaseStep(_, _) =>
    case SweepStep(_) =>
    case RestartStep(_) =>
  }

  lemma {:induction false} RunInv(cfg: Config, states: seq<Registry>, steps: seq<Step>, k: nat)
    requires IsRun(cfg, states, steps) && k <= |steps|
    ensures Inv(states[k])
  {
    if k > 0 {
      RunInv(cfg, states, steps, k - 1);
      assert states[k - 1 + 1] == Next(cfg, states[k - 1], steps[k - 1]);
      NextKeepsInv(cfg, states[k - 1], steps[k - 1]);
    }
  }

  lemma {:induction false} DeadStaysDead(cfg: Config, states: seq<Registry>, steps: seq<Step>, j: nat, k: nat,
                                         session: nat)
    requires IsRun(cfg, states, steps) && j <= k <= |steps| && Dead(states[j], session)
    ensures Dead(states[k], session)
  {
    if j < k {
      DeadStaysDead(cfg, states, steps, j, k - 1, session);
      RunInv(cfg, states, steps, k - 1);
      assert states[k - 1 + 1] == Next(cfg, states[k - 1], steps[k - 1]);
      NextKeepsDead(cfg, states[k - 1], steps[k - 1], session);
    }
  }

  /** Which sessions a step ends: the holder of a chair that is claimed over, released,
      expired in a sweep, or too old when the process restarts. */
  ghost predicate Ends(cfg: Config, r: Registry, step: Step, agent: string) {
    agent in r.chairs &&
    match step
    case ClaimStep(a, _, _, _) => a == agent
    case HeartbeatStep(_, _, _, _) => false
    case ReleaseStep(a, session) => a == agent && r.chairs[agent].sessionId == session
    case SweepStep(now) => now - r.chairs[agent].lastBeaconAt >= cfg.offlineMs
    case RestartStep(now) => now - r.chairs[agent].lastBeaconAt > cfg.offlineMs
  }

  lemma EndsWhenOut(cfg: Config, r: Registry, step: Step, agent: string)
    requires Inv(r) && agent in r.chairs
    ensures Ends(cfg, r, step, agent) <==> !Holds(Next(cfg, r, step).chairs, agent, r.chairs[agent].sessionId)
    ensures Ends(cfg, r, step, agent) ==> Dead(Next(cfg, r, step), r.chairs[agent].sessionId)
  {
    match step
    case ClaimStep(_, _, _, _) =>
    case HeartbeatStep(_, _, _, _) =>
    case ReleaseStep(_, _) =>
    case SweepStep(_) =>
    case RestartStep(_) =>
  }

  /** A session ends exactly there, and from then on is never accepted again, by any
      chair's heartbeat or release, over restarts or not. */
  lemma EndedSessionsStayOut(cfg: Config, states: seq<Registry>, steps: seq<Step>, j: nat, k: nat, agent: string,
                             any: string)
    requires IsRun(cfg, states, steps) && j < k <= |steps| && agent in states[j].chairs
    ensures Ends(cfg, states[j], steps[j], agent) <==>
              !Holds(states[j + 1].chairs, agent, states[j].chairs[agent].sessionId)
    ensures Ends(cfg, states[j], steps[j], agent) ==> !Holds(states[k].chairs, any, states[j].chairs[agent].sessionId)
  {
    var session := states[j].chairs[agent].sessionId;
    RunInv(cfg, states, steps, j);
    assert states[j + 1] == Next(cfg, states[j], steps[j]);
    EndsWhenOut(cfg, states[j], steps[j], agent);
    if Ends(cfg, states[j], steps[j], agent) {
      DeadStaysDead(cfg, states, steps, j + 1, k, session);
    }
  }

  /** A restart at any point brings back exactly the chairs of age at most offlineMs, all
      of them stale and otherwise as they were. */
  lemma RestartRestores(cfg: Config, states: seq<Registry>, steps: seq<Step>, k: nat, agent: string)
    requires IsRun(cfg, states, steps) && k < |steps| && steps[k].RestartStep?
    ensures agent in states[k + 1].chairs
            <==> agent in states[k].chairs && steps[k].now - states[k].chairs[agent].lastBeaconAt <= cfg.offlineMs
    ensures agent in states[k + 1].chairs ==> states[k + 1].chairs[agent] == states[k].chairs[agent].(status := Stale)
  {
    RunInv(cfg, states, steps, k);
    assert states[k + 1] == Next(cfg, states[k], steps[k]);
  }
}
