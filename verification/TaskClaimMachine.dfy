/** The claim ledger (src/protocols/TaskClaimMachine.ts): an in-memory map from
    task hash to claim record, changed in place by guarded transitions.
    Times are milliseconds as reals; a call reads the clock once, as `now`. */
module TaskClaims {
  import opened Wrappers

  type Hash = string
  type CycleId = nat
  type Time = real

  datatype ClaimState = Unclaimed | Claimed | Running | RetryQueued | Released

  predicate Legal(current: ClaimState, next: ClaimState) {
    match current
    case Unclaimed => next == Claimed || next == Released
    case Claimed => next == Running || next == Released
    case Running => next == RetryQueued || next == Released
    case RetryQueued => next == Claimed || next == Released
    case Released => false
  }

  /** A claim is made, runs, waits for a retry and is made again; from everywhere it can be
      released, and that is the end of it. */
  lemma LegalMoves(current: ClaimState, next: ClaimState)
    ensures Legal(current, next) <==>
              || (current, next) in {(Unclaimed, Claimed), (Claimed, Running), (Running, RetryQueued),
                                     (RetryQueued, Claimed)}
              || (current != Released && next == Released)
  {
  }

  datatype ClaimRecord = ClaimRecord(
    state: ClaimState,
    attempt: nat,
    firstSeen: Time,
    updatedAt: Time,
    cycleId: Option<CycleId>,
    retryAfter: Option<Time>)

  /** What the machine emits: `previous` is None exactly for a registration. */
  datatype ClaimEvent = ClaimEvent(
    taskHash: Hash,
    previous: Option<ClaimState>,
    state: ClaimState,
    timestamp: Time,
    attempt: nat,
    cycleId: Option<CycleId>)

  type Ledger = map<Hash, ClaimRecord>

  /** The machine's abstract state: its ledger and everything it has emitted. */
  datatype Claims = Claims(ledger: Ledger, events: seq<ClaimEvent>)

  function EventOf(h: Hash, r: ClaimRecord, previous: Option<ClaimState>): ClaimEvent {
    ClaimEvent(h, previous, r.state, r.updatedAt, r.attempt, r.cycleId)
  }

  // ----- The operations as functions of the abstract state -----

  function Register(c: Claims, h: Hash, now: Time): Claims {
    if h in c.ledger then c
    else
      var r := ClaimRecord(Unclaimed, 0, now, now, None, None);
      Claims(c.ledger[h := r], c.events + [EventOf(h, r, None)])
  }

  predicate CanMove(c: Claims, h: Hash, next: ClaimState) {
    h in c.ledger && Legal(c.ledger[h].state, next)
  }

  function Moved(r: ClaimRecord, next: ClaimState, cycle: Option<CycleId>, now: Time): ClaimRecord {
    r.(state := next,
       updatedAt := now,
       cycleId := if cycle.Some? then cycle else r.cycleId,
       attempt := if next == Claimed then r.attempt + 1 else r.attempt)
  }

  /** `transition`: refused moves leave the machine as it was. */
  function Transition(c: Claims, h: Hash, next: ClaimState, cycle: Option<CycleId>, now: Time): Claims {
    if !CanMove(c, h, next) then c
    else
      var r := Moved(c.ledger[h], next, cycle, now);
      Claims(c.ledger[h := r], c.events + [EventOf(h, r, Some(c.ledger[h].state))])
  }

  /** Whether `tryClaim` would grant a hash: unknown, idle, or waiting for a retry. */
  predicate Claimable(c: Claims, h: Hash) {
    h in c.ledger ==> c.ledger[h].state == Unclaimed || c.ledger[h].state == RetryQueued
  }

  function TryClaim(c: Claims, h: Hash, cycle: CycleId, now: Time): Claims {
    if Claimable(c, h) then Transition(Register(c, h, now), h, Claimed, Some(cycle), now) else c
  }

  function MarkRetryQueued(c: Claims, h: Hash, retryAfterMs: real, now: Time): Claims {
    if !CanMove(c, h, RetryQueued) then c
    else
      var moved := Transition(c, h, RetryQueued, None, now);
      moved.(ledger := moved.ledger[h := moved.ledger[h].(retryAfter := Some(now + retryAfterMs))])
  }

  predicate IsDue(r: ClaimRecord, now: Time) {
    r.state == RetryQueued && (if r.retryAfter.Some? then r.retryAfter.value else 0.0) <= now
  }

  function Due(ledger: Ledger, now: Time): set<Hash> {
    set h | h in ledger && IsDue(ledger[h], now)
  }

  class TaskClaimMachine {
    var ledger: Ledger
    var events: seq<ClaimEvent>

    function State(): Claims
      reads this
    {
      Claims(ledger, events)
    }

    constructor ()
      ensures State() == Claims(map[], [])
    {
      ledger, events := map[], [];
    }

    method RegisterTask(h: Hash, now: Time)
      modifies this
      ensures State() == Register(old(State()), h, now)
    {
      if h in ledger {
        return;
      }
      var r := ClaimRecord(Unclaimed, 0, now, now, None, None);
      ledger := ledger[h := r];
      events := events + [EventOf(h, r, None)];
    }

    method Move(h: Hash, next: ClaimState, cycle: Option<CycleId>, now: Time) returns (ok: bool)
      modifies this
      ensures State() == Transition(old(State()), h, next, cycle, now)
      ensures ok == CanMove(old(State()), h, next)
    {
      if h !in ledger || !Legal(ledger[h].state, next) {
        return false;
      }
      var previous := ledger[h].state;
      var r := ledger[h].(state := next, updatedAt := now);
      if cycle.Some? {
        r := r.(cycleId := cycle);
      }
      if next == Claimed {
        r := r.(attempt := r.attempt + 1);
      }
      ledger := ledger[h := r];
      events := events + [EventOf(h, r, Some(previous))];
      return true;
    }

    method TryClaimTask(h: Hash, cycle: CycleId, now: Time) returns (won: bool)
      modifies this
      ensures State() == TryClaim(old(State()), h, cycle, now)
      ensures won == Claimable(old(State()), h)
    {
      if h !in ledger {
        RegisterTask(h, now);
      }
      if ledger[h].state != Unclaimed && ledger[h].state != RetryQueued {
        return false;
      }
      won := Move(h, Claimed, Some(cycle), now);
    }

    method MarkRunning(h: Hash, cycle: CycleId, now: Time) returns (ok: bool)
      modifies this
      ensures State() == Transition(old(State()), h, Running, Some(cycle), now)
      ensures ok == CanMove(old(State()), h, Running)
    {
      ok := Move(h, Running, Some(cycle), now);
    }

    method QueueRetry(h: Hash, retryAfterMs: real, now: Time) returns (ok: bool)
      modifies this
      ensures State() == MarkRetryQueued(old(State()), h, retryAfterMs, now)
      ensures ok == CanMove(old(State()), h, RetryQueued)
    {
      ok := Move(h, RetryQueued, None, now);
      if ok {
        ledger := ledger[h := ledger[h].(retryAfter := Some(now + retryAfterMs))];
      }
    }

    method Release(h: Hash, now: Time) returns (ok: bool)
      modifies this
      ensures State() == Transition(old(State()), h, Released, None, now)
      ensures ok == CanMove(old(State()), h, Released)
    {
      ok := Move(h, Released, None, now);
    }

    method Prune(h: Hash) returns (existed: bool)
      modifies this
      ensures State() == old(State()).(ledger := old(ledger) - {h})
      ensures existed == (h in old(ledger))
    {
      existed := h in ledger;
      ledger := ledger - {h};
    }

    method DueForRetry(now: Time) returns (due: seq<Hash>)
      ensures Enumerates(due, Due(ledger, now))
    {
      due := Enumerate(set h | h in ledger && IsDue(ledger[h], now));
    }
  }
}
