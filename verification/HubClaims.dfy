/** Which replies a claim of the outbox hands over, in plain terms, and that a queued reply is
    among them. */
module HubClaims {
  import opened Wrappers
  import opened HubSpec
  import opened AgentHub
  import opened HubRuns
  import opened HubOutbox

  /** The row can be handed over at `stamp`: it waits and its time has come, or the lease of
      whoever has it is over. */
  predicate IsUp(row: OutboxRow, stamp: int, leaseMs: real) {
    match row.status
    case Pending => row.nextAttemptAt.Some? ==> row.nextAttemptAt.value <= stamp
    case Retrying => row.nextAttemptAt.Some? ==> row.nextAttemptAt.value <= stamp
    case Sending => row.updatedAt + leaseMs.Floor <= stamp
    case Sent => false
    case Dead => false
  }

  /** COALESCE(nextAttemptAt, createdAt), then createdAt, then the place in the table. */
  predicate Precedes(outbox: seq<OutboxRow>, m: nat, n: nat)
    requires m < |outbox| && n < |outbox|
  {
    var a := if outbox[m].nextAttemptAt.Some? then outbox[m].nextAttemptAt.value else outbox[m].createdAt;
    var b := if outbox[n].nextAttemptAt.Some? then outbox[n].nextAttemptAt.value else outbox[n].createdAt;
    if a != b then a < b
    else if outbox[m].createdAt != outbox[n].createdAt then outbox[m].createdAt < outbox[n].createdAt
    else m < n
  }

  /** The rows that are up and come before row `n`. */
  function UpBefore(outbox: seq<OutboxRow>, n: nat, stamp: int, leaseMs: real): set<nat>
    requires n < |outbox|
  {
    set m | 0 <= m < |outbox| && IsUp(outbox[m], stamp, leaseMs) && Precedes(outbox, m, n)
  }

  lemma UpIsDue(row: OutboxRow, stamp: int, leaseMs: real)
    ensures IsUp(row, stamp, leaseMs) <==> IsDue(row, stamp, leaseMs.Floor)
  {
  }

  lemma PrecedesIsEarlier(outbox: seq<OutboxRow>, m: nat, n: nat)
    requires m < |outbox| && n < |outbox|
    ensures Precedes(outbox, m, n) <==> Earlier(outbox, m, n)
  {
  }

  function Firsts(numbers: RowNumbers, p: nat): set<nat>
    requires p <= |numbers|
  {
    if p == 0 then {} else Firsts(numbers, p - 1) + {numbers[p - 1]}
  }

  lemma {:induction false} FirstsAre(numbers: RowNumbers, p: nat)
    requires p <= |numbers|
    ensures forall m :: m in Firsts(numbers, p) <==> m in numbers[..p]
  {
    if p > 0 {
      FirstsAre(numbers, p - 1);
      assert numbers[..p] == numbers[..p - 1] + [numbers[p - 1]];
    }
  }

  lemma {:induction false} FirstsCount(numbers: RowNumbers, p: nat)
    requires p <= |numbers| && forall i, j :: 0 <= i < j < |numbers| ==> numbers[i] != numbers[j]
    ensures |Firsts(numbers, p)| == p
  {
    if p > 0 {
      FirstsCount(numbers, p - 1);
      FirstsAre(numbers, p - 1);
      assert numbers[p - 1] !in numbers[..p - 1];
    }
  }

  /** In the sorted list of due rows, what comes before row `n` is what is up and precedes it. */
  lemma PlaceIsCount(outbox: seq<OutboxRow>, numbers: RowNumbers, p: nat, stamp: int, leaseMs: real)
    requires SortedDue(outbox, |outbox|, numbers, stamp, leaseMs.Floor) && p < |numbers|
    ensures |UpBefore(outbox, numbers[p], stamp, leaseMs)| == p
  {
    var before := UpBefore(outbox, numbers[p], stamp, leaseMs);
    FirstsAre(numbers, p);
    forall m: nat ensures m in before <==> m in Firsts(numbers, p) {
      assert m in numbers[..p] ==> m in numbers;
      if m < |outbox| {
        UpIsDue(outbox[m], stamp, leaseMs);
        PrecedesIsEarlier(outbox, m, numbers[p]);
        if m in before {
          var i :| 0 <= i < |numbers| && numbers[i] == m;
          assert numbers[..p][i] == m;
        }
      }
    }
    assert before == Firsts(numbers, p);
    FirstsCount(numbers, p);
  }

  /** A row is picked exactly when it is up and fewer rows than the limit come before it. */
  lemma PickedIff(outbox: seq<OutboxRow>, stamp: int, limit: real, leaseMs: real, n: nat)
    requires limit > 0.0 && n < |outbox|
    ensures n in Picked(outbox, stamp, limit, leaseMs) <==>
              IsUp(outbox[n], stamp, leaseMs) && |UpBefore(outbox, n, stamp, leaseMs)| < limit.Floor
  {
    var numbers := DueNumbers(outbox, |outbox|, stamp, leaseMs.Floor);
    DueNumbersAreSorted(outbox, |outbox|, stamp, leaseMs.Floor);
    UpIsDue(outbox[n], stamp, leaseMs);
    if n in numbers {
      var p :| 0 <= p < |numbers| && numbers[p] == n;
      PlaceIsCount(outbox, numbers, p, stamp, leaseMs);
      if limit.Floor < |numbers| { PlaceInFront(numbers, p, limit.Floor); }
    }
  }

  lemma PlaceInFront(numbers: RowNumbers, p: nat, k: nat)
    requires p < |numbers| && k <= |numbers| && forall i, j :: 0 <= i < j < |numbers| ==> numbers[i] != numbers[j]
    ensures numbers[p] in numbers[..k] <==> p < k
  {
    if p < k { assert numbers[..k][p] == numbers[p]; }
  }

  // ----- What a claim does -----

  /** The row is up, and fewer rows than the limit come before it. */
  predicate IsTaken(outbox: seq<OutboxRow>, n: nat, stamp: int, limit: real, leaseMs: real)
    requires n < |outbox|
  {
    IsUp(outbox[n], stamp, leaseMs) && |UpBefore(outbox, n, stamp, leaseMs)| < limit.Floor
  }

  /** The rows taken are leased from `stamp` on, one attempt up; the others stay. */
  ghost predicate Leases(outbox: seq<OutboxRow>, outbox': seq<OutboxRow>, stamp: int, limit: real, leaseMs: real) {
    && |outbox'| == |outbox|
    && forall n :: 0 <= n < |outbox| ==>
         outbox'[n] == if IsTaken(outbox, n, stamp, limit, leaseMs)
                       then outbox[n].(status := Sending, attempts := outbox[n].attempts + 1,
                                       nextAttemptAt := None, updatedAt := stamp)
                       else outbox[n]
  }

  /** `rows` are the rows taken as they are then, each once, the oldest first. */
  ghost predicate GivesTaken(outbox: seq<OutboxRow>, outbox': seq<OutboxRow>, rows: seq<OutboxRow>,
                             numbers: seq<nat>, stamp: int, limit: real, leaseMs: real)
    requires |outbox'| == |outbox|
  {
    && |rows| == |numbers|
    && (forall k :: 0 <= k < |numbers| ==> numbers[k] < |outbox| && rows[k] == outbox'[numbers[k]])
    && (forall n :: 0 <= n < |outbox| ==> (n in numbers <==> IsTaken(outbox, n, stamp, limit, leaseMs)))
    && (forall i, j :: 0 <= i < j < |numbers| ==>
          || outbox[numbers[i]].createdAt < outbox[numbers[j]].createdAt
          || (outbox[numbers[i]].createdAt == outbox[numbers[j]].createdAt && numbers[i] < numbers[j]))
  }

  lemma ClaimedRowsAre(outbox: seq<OutboxRow>, stamp: int, limit: real, leaseMs: real) returns (numbers: seq<nat>)
    requires limit > 0.0
    ensures var picked := Picked(outbox, stamp, limit, leaseMs);
            var after := ClaimRows(outbox, picked, stamp);
            && Leases(outbox, after, stamp, limit, leaseMs)
            && GivesTaken(outbox, after, RowsAt(after, ByAge(after, |after|, picked)), numbers, stamp, limit, leaseMs)
  {
    var picked := Picked(outbox, stamp, limit, leaseMs);
    var after := ClaimRows(outbox, picked, stamp);
    numbers := ByAge(after, |after|, picked);
    ClaimedComeOldestFirst(after, |after|, picked);
    forall n | 0 <= n < |outbox| ensures n in picked <==> IsTaken(outbox, n, stamp, limit, leaseMs) {
      PickedIff(outbox, stamp, limit, leaseMs, n);
    }
  }

  lemma ClaimSucceeds(hub: Hub, limit: real, leaseMs: real, stamp: int, failAt: nat)
    requires limit > 0.0 && leaseMs > 0.0
    requires failAt >= 2 + |Picked(hub.outbox, stamp, limit, leaseMs)|
    ensures var picked := Picked(hub.outbox, stamp, limit, leaseMs);
            var after := ClaimRows(hub.outbox, picked, stamp);
            && ClaimDue(hub, limit, leaseMs, stamp, failAt).0 == hub.(outbox := after)
            && HandedOver(hub, limit, leaseMs, stamp, failAt) == RowsAt(after, ByAge(after, |after|, picked))
  {
  }

  /** The whole effect of a claim on the hub and its answer. */
  ghost predicate TakesWhatIsUp(hub: Hub, hub': Hub, rows: seq<OutboxRow>, numbers: seq<nat>, stamp: int, limit: real,
                                leaseMs: real)
  {
    && hub' == hub.(outbox := hub'.outbox)
    && Leases(hub.outbox, hub'.outbox, stamp, limit, leaseMs)
    && GivesTaken(hub.outbox, hub'.outbox, rows, numbers, stamp, limit, leaseMs)
  }

  lemma ClaimOnHub(hub: Hub, limit: real, leaseMs: real, stamp: int, failAt: nat) returns (numbers: seq<nat>)
    requires limit > 0.0 && leaseMs > 0.0 && failAt >= 2 + |hub.outbox|
    ensures TakesWhatIsUp(hub, ClaimDue(hub, limit, leaseMs, stamp, failAt).0,
                          HandedOver(hub, limit, leaseMs, stamp, failAt), numbers, stamp, limit, leaseMs)
  {
    PickedFit(hub.outbox, stamp, limit, leaseMs);
    ClaimSucceeds(hub, limit, leaseMs, stamp, failAt);
    numbers := ClaimedRowsAre(hub.outbox, stamp, limit, leaseMs);
  }

  lemma PickedFit(outbox: seq<OutboxRow>, stamp: int, limit: real, leaseMs: real)
    requires limit > 0.0
    ensures |Picked(outbox, stamp, limit, leaseMs)| <= |outbox|
  {
    var picked := Picked(outbox, stamp, limit, leaseMs);
    PickedAreDistinct(outbox, stamp, limit, leaseMs);
    FirstsCount(picked, |picked|);
    FirstsAre(picked, |picked|);
    forall n | n in Firsts(picked, |picked|) ensures n < |outbox| {
      assert n in picked[..|picked|];
      PickedIsDue(outbox, stamp, limit, leaseMs, n);
    }
    CountBelow(Firsts(picked, |picked|), |outbox|);
  }

  lemma {:induction false} CountBelow(s: set<nat>, n: nat)
    requires forall x :: x in s ==> x < n
    ensures |s| <= n
  {
    if n > 0 {
      CountBelow(s - {n - 1}, n - 1);
    } else {
      assert s == {};
    }
  }

  /** A claim without a fault takes exactly the rows that are up, in the order of their
      time, up to the limit; it hands them over oldest first and leaves the rest alone. */
  lemma ClaimTakesWhatIsUp(env: EnvRecord, states: seq<World>, steps: seq<Step>, k: nat) returns (numbers: seq<nat>)
    requires IsRun(env, states, steps) && k < |steps| && steps[k].Claim?
    requires steps[k].limit > 0.0 && steps[k].leaseMs > 0.0 && steps[k].failAt >= 2 + |states[k].hub.outbox|
    ensures var step, hub := steps[k], states[k].hub;
            TakesWhatIsUp(hub, states[k + 1].hub, HandedOver(hub, step.limit, step.leaseMs, step.stamp, step.failAt),
                          numbers, step.stamp, step.limit, step.leaseMs)
  {
    ClaimStep(env, states, steps, k);
    numbers := ClaimOnHub(states[k].hub, steps[k].limit, steps[k].leaseMs, steps[k].stamp, steps[k].failAt);
  }

  lemma ClaimOnHubOrNot(hub: Hub, limit: real, leaseMs: real, stamp: int, failAt: nat) returns (numbers: seq<nat>)
    ensures var hub' := ClaimDue(hub, limit, leaseMs, stamp, failAt).0;
            var rows := HandedOver(hub, limit, leaseMs, stamp, failAt);
            || (hub' == hub && rows == [])
            || (limit > 0.0 && leaseMs > 0.0 && TakesWhatIsUp(hub, hub', rows, numbers, stamp, limit, leaseMs))
  {
    numbers := [];
    if ClaimDue(hub, limit, leaseMs, stamp, failAt).1.Ok? {
      var picked := Picked(hub.outbox, stamp, limit, leaseMs);
      if picked == [] { NothingByAge(ClaimRows(hub.outbox, picked, stamp), |hub.outbox|); }
      numbers := ClaimedRowsAre(hub.outbox, stamp, limit, leaseMs);
    }
  }

  /** Any claim, at whatever statement it fails, does all of this or nothing. */
  lemma ClaimIsAllOrNothing(env: EnvRecord, states: seq<World>, steps: seq<Step>, k: nat) returns (numbers: seq<nat>)
    requires IsRun(env, states, steps) && k < |steps| && steps[k].Claim?
    ensures var step, hub, hub' := steps[k], states[k].hub, states[k + 1].hub;
            var rows := HandedOver(hub, step.limit, step.leaseMs, step.stamp, step.failAt);
            || (hub' == hub && rows == [])
            || (step.limit > 0.0 && step.leaseMs > 0.0
                && TakesWhatIsUp(hub, hub', rows, numbers, step.stamp, step.limit, step.leaseMs))
  {
    ClaimStep(env, states, steps, k);
    numbers := ClaimOnHubOrNot(states[k].hub, steps[k].limit, steps[k].leaseMs, steps[k].stamp, steps[k].failAt);
  }

  /** With room for the whole outbox, what is up is what is taken. */
  lemma RoomForAll(outbox: seq<OutboxRow>, n: nat, stamp: int, limit: real, leaseMs: real)
    requires n < |outbox| && limit.Floor >= |outbox|
    ensures IsTaken(outbox, n, stamp, limit, leaseMs) <==> IsUp(outbox[n], stamp, leaseMs)
  {
    var before := UpBefore(outbox, n, stamp, leaseMs);
    assert n !in before;
    CountBelow(before + {n}, |outbox|);
  }
}
