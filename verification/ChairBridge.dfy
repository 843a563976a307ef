/** Requests to live chairs and their replies (src/services/ChairBridgeProvider.ts:173-547).
    A call's promise and timers are fields; each stretch of code between two awaits, and
    each timer or abort event, is one operation. Request ids are fresh. */
module ChairBridge {
  import opened Wrappers

  type Id = string

  datatype Policy = Policy(maxAttempts: int, baseBackoffMs: real)

  datatype Target = Target(topicId: string, agentId: string, claimSessionId: string, secret: string)

  /** Where `stream` and its `postWithRetry` stand. */
  datatype Phase =
    | Posting(attempt: nat)   // a fetch is in flight
    | Sleeping(attempt: nat)  // backing off after it
    | Posted                  // accepted by the inbox, the stream not yet resumed
    | PostFailed              // thrown, the stream's catch not yet run
    | Awaiting                // waiting for the reply, or done
    | Closed                  // the stream has thrown the dispatch failure

  datatype Outcome = Resolved(content: string) | Rejected(reason: string)

  /** `outcomes` are the calls of the promise's resolve and reject, in order. */
  datatype Call = Call(target: Target, phase: Phase, outcomes: seq<Outcome>, timerArmed: bool, listening: bool,
                       aborted: bool, attempts: nat, sleeps: nat, slept: real)

  datatype Bridge = Bridge(calls: map<Id, Call>, pending: set<Id>)

  // ----- The operations as functions -----

  function Pow2(n: nat): nat {
    if n == 0 then 1 else 2 * Pow2(n - 1)
  }

  function Update(b: Bridge, id: Id, call: Call): Bridge {
    b.(calls := b.calls[id := call])
  }

  /** `cleanupPending`. */
  function CleanedUp(b: Bridge, id: Id): Bridge
    requires id in b.calls
  {
    Bridge(b.calls[id := b.calls[id].(timerArmed := false, listening := false)], b.pending - {id})
  }

  /** The promise's resolve or reject. */
  function Settled(b: Bridge, id: Id, outcome: Outcome): Bridge
    requires id in b.calls
  {
    CleanedUp(Update(b, id, b.calls[id].(outcomes := b.calls[id].outcomes + [outcome])), id)
  }

  /** The head of the retry loop. */
  function Attempted(policy: Policy, call: Call, attempt: nat): Call {
    if attempt >= policy.maxAttempts || call.aborted then call.(phase := PostFailed)
    else call.(phase := Posting(attempt), attempts := attempt + 1)
  }

  function Opened(policy: Policy, b: Bridge, id: Id, target: Target, aborted: bool): Bridge {
    Bridge(b.calls[id := Attempted(policy, Call(target, PostFailed, [], false, false, aborted, 0, 0, 0.0), 0)],
           b.pending + {id})
  }

  datatype Fetch = Fine | Retryable | NonRetryable | NetworkError

  function Cap(policy: Policy, attempt: nat): real {
    policy.baseBackoffMs * Pow2(attempt) as real
  }

  /** Full jitter: `random` in [0, 1) of the cap, rounded down. */
  function Jitter(random: real, cap: real): real {
    (random * cap).Floor as real
  }

  function Delay(policy: Policy, attempt: nat, random: real): real {
    Jitter(random, Cap(policy, attempt))
  }

  function BackedOff(policy: Policy, call: Call, attempt: nat, random: real): Call {
    if attempt < policy.maxAttempts - 1
    then call.(phase := Sleeping(attempt), sleeps := call.sleeps + 1,
               slept := call.slept + Delay(policy, attempt, random))
    else call.(phase := PostFailed)
  }

  function Fetched(policy: Policy, call: Call, fetch: Fetch, random: real): Call
    requires call.phase.Posting?
  {
    match fetch
    case Fine => call.(phase := Posted)
    case NonRetryable => call.(phase := PostFailed)
    case Retryable => BackedOff(policy, call, call.phase.attempt, random)
    case NetworkError =>
      if call.aborted then call.(phase := PostFailed) else BackedOff(policy, call, call.phase.attempt, random)
  }

  /** The stream resumes after an accepted POST. */
  function Accepted(b: Bridge, id: Id): Bridge
    requires id in b.calls
  {
    var call := b.calls[id].(phase := Awaiting);
    if call.outcomes == [] && id in b.pending then
      if call.aborted then Settled(Update(b, id, call), id, Rejected("aborted by caller"))
      else Update(b, id, call.(listening := true, timerArmed := true))
    else Update(b, id, call)
  }

  /** Closing after a failed POST. */
  function Thrown(b: Bridge, id: Id): Bridge
    requires id in b.calls
  {
    CleanedUp(Update(b, id, b.calls[id].(phase := Closed)), id)
  }

  /** `error` is trimmed and redacted, and None when blank. */
  datatype Submission = Submission(requestId: Id, agentId: string, claimSessionId: string, proof: string,
                                   topicId: Option<string>, content: Option<string>, failed: bool,
                                   error: Option<string>)

  datatype Answer = Taken | Unknown | WrongTarget | WrongSession | BadProof

  /** Proofs are keyed digests of the request, the session and the secret. */
  type Prover = (Id, string, string) -> string

  function Judge(prove: Prover, b: Bridge, s: Submission): Answer {
    if s.requestId !in b.pending || s.requestId !in b.calls then Unknown
    else
      var target := b.calls[s.requestId].target;
      if target.agentId != s.agentId || (s.topicId.Some? && target.topicId != s.topicId.value) then WrongTarget
      else if target.claimSessionId != s.claimSessionId then WrongSession
      else if s.proof != prove(s.requestId, s.claimSessionId, target.secret) then BadProof
      else Taken
  }

  function OutcomeOf(b: Bridge, s: Submission): Outcome {
    if s.failed then
      Rejected(if s.error.Some? then s.error.value else if s.content.Some? then s.content.value else "runtime failure")
    else Resolved(if s.content.Some? then s.content.value else "")
  }

  /** What the chair gets back for a reply that was let in. */
  datatype Receipt = Receipt(requestId: Id, target: Target, failed: bool, receivedAt: int, attempts: Option<nat>,
                             error: Option<string>)

  function ReceiptOf(b: Bridge, s: Submission, now: int): Receipt
    requires s.requestId in b.calls
  {
    var call := b.calls[s.requestId];
    Receipt(s.requestId, call.target, s.failed, now, if call.attempts > 0 then Some(call.attempts) else None, s.error)
  }

  function Replied(prove: Prover, b: Bridge, s: Submission): Bridge {
    if Judge(prove, b, s) == Taken then Settled(b, s.requestId, OutcomeOf(b, s)) else b
  }

  function TimedOut(b: Bridge, id: Id): Bridge
    requires id in b.calls
  {
    if id in b.pending then Settled(b, id, Rejected("timeout")) else Update(b, id, b.calls[id].(timerArmed := false))
  }

  function AbortedBy(b: Bridge, id: Id): Bridge
    requires id in b.calls
  {
    var call := b.calls[id].(aborted := true);
    if call.listening && id in b.pending then Settled(Update(b, id, call), id, Rejected("aborted by caller"))
    else Update(b, id, call.(listening := false))
  }

  class ChairBridgeProvider {
    const policy: Policy
    const prove: Prover
    var calls: map<Id, Call>
    var pendingReplies: set<Id>

    function State(): Bridge
      reads this
    {
      Bridge(calls, pendingReplies)
    }

    constructor (policy: Policy, prove: Prover)
      ensures this.policy == policy && this.prove == prove && State() == Bridge(map[], {})
    {
      this.policy, this.prove, calls, pendingReplies := policy, prove, map[], {};
    }

    method CleanupPending(id: Id)
      requires id in calls
      modifies this
      ensures State() == CleanedUp(old(State()), id)
    {
      var call := calls[id];
      if call.timerArmed {
        call := call.(timerArmed := false);
      }
      if call.listening {
        call := call.(listening := false);
      }
      calls := calls[id := call];
      pendingReplies := pendingReplies - {id};
    }

    method Settle(id: Id, outcome: Outcome)
      requires id in calls
      modifies this
      ensures State() == Settled(old(State()), id, outcome)
    {
      calls := calls[id := calls[id].(outcomes := calls[id].outcomes + [outcome])];
      CleanupPending(id);
    }

    /** The pending reply exists before the first POST. */
    method Open(id: Id, target: Target, aborted: bool)
      modifies this
      ensures State() == Opened(policy, old(State()), id, target, aborted)
    {
      var call := Call(target, PostFailed, [], false, false, aborted, 0, 0, 0.0);
      pendingReplies := pendingReplies + {id};
      if 0 < policy.maxAttempts && !aborted {
        call := call.(phase := Posting(0), attempts := 1);
      }
      calls := calls[id := call];
    }

    method FetchEnded(id: Id, fetch: Fetch, random: real)
      requires id in calls && calls[id].phase.Posting?
      modifies this
      ensures State() == Update(old(State()), id, Fetched(policy, old(calls)[id], fetch, random))
    {
      var call := calls[id];
      var attempt := call.phase.attempt;
      if fetch == Fine {
        call := call.(phase := Posted);
      } else if fetch == NonRetryable || (fetch == NetworkError && call.aborted) {
        call := call.(phase := PostFailed);
      } else if attempt < policy.maxAttempts - 1 {
        call := call.(phase := Sleeping(attempt), sleeps := call.sleeps + 1,
                      slept := call.slept + Delay(policy, attempt, random));
      } else {
        call := call.(phase := PostFailed);
      }
      calls := calls[id := call];
    }

    method AfterAcceptance(id: Id)
      requires id in calls
      modifies this
      ensures State() == Accepted(old(State()), id)
    {
      calls := calls[id := calls[id].(phase := Awaiting)];
      if |calls[id].outcomes| == 0 && id in pendingReplies {
        if calls[id].aborted {
          Settle(id, Rejected("aborted by caller"));
        } else {
          calls := calls[id := calls[id].(listening := true)];
        }
        if |calls[id].outcomes| == 0 && id in pendingReplies {
          calls := calls[id := calls[id].(timerArmed := true)];
        }
      }
    }

    method SubmitReplyForRequest(s: Submission, now: int) returns (answer: Answer, receipt: Option<Receipt>)
      requires forall id :: id in pendingReplies ==> id in calls
      modifies this
      ensures answer == Judge(prove, old(State()), s) && State() == Replied(prove, old(State()), s)
      ensures receipt == if answer == Taken then Some(ReceiptOf(old(State()), s, now)) else None
    {
      if s.requestId !in pendingReplies {
        return Unknown, None;
      }
      var call := calls[s.requestId];
      if call.target.agentId != s.agentId || (s.topicId.Some? && call.target.topicId != s.topicId.value) {
        return WrongTarget, None;
      }
      if call.target.claimSessionId != s.claimSessionId {
        return WrongSession, None;
      }
      if s.proof != prove(s.requestId, s.claimSessionId, call.target.secret) {
        return BadProof, None;
      }
      var attempts := if call.attempts > 0 then Some(call.attempts) else None;
      receipt := Some(Receipt(s.requestId, call.target, s.failed, now, attempts, s.error));
      ghost var before := State();
      pendingReplies := pendingReplies - {s.requestId};
      Settle(s.requestId, OutcomeOf(State(), s));
      assert State() == Settled(before, s.requestId, OutcomeOf(before, s));
      answer := Taken;
    }
  }

  // ----- Runs -----

  datatype Step =
    | Open(id: Id, target: Target, aborted: bool)
    | FetchStep(id: Id, fetch: Fetch, random: real)
    | WakeStep(id: Id)
    | AcceptStep(id: Id)
    | ThrowStep(id: Id)
    | ReplyStep(submission: Submission)
    | TimeoutStep(id: Id)
    | AbortStep(id: Id)

  ghost predicate Enabled(b: Bridge, step: Step) {
    match step
    case Open(id, _, _) => id !in b.calls
    case FetchStep(id, _, random) => id in b.calls && b.calls[id].phase.Posting? && 0.0 <= random < 1.0
    case WakeStep(id) => id in b.calls && b.calls[id].phase.Sleeping?
    case AcceptStep(id) => id in b.calls && b.calls[id].phase == Posted
    case ThrowStep(id) => id in b.calls && b.calls[id].phase == PostFailed
    case ReplyStep(_) => true
    case TimeoutStep(id) => id in b.calls && b.calls[id].timerArmed
    case AbortStep(id) => id in b.calls && !b.calls[id].aborted
  }

  function Next(policy: Policy, prove: Prover, b: Bridge, step: Step): Bridge
    requires Enabled(b, step)
  {
    match step
    case Open(id, target, aborted) => Opened(policy, b, id, target, aborted)
    case FetchStep(id, fetch, random) => Update(b, id, Fetched(policy, b.calls[id], fetch, random))
    case WakeStep(id) => Update(b, id, Attempted(policy, b.calls[id], b.calls[id].phase.attempt + 1))
    case AcceptStep(id) => Accepted(b, id)
    case ThrowStep(id) => Thrown(b, id)
    case ReplyStep(s) => Replied(prove, b, s)
    case TimeoutStep(id) => TimedOut(b, id)
    case AbortStep(id) => AbortedBy(b, id)
  }

  /** One step. (The state is bound, so that a proof that only passes the fact on does not
      take the step apart.) */
  ghost predicate Follows(policy: Policy, prove: Prover, b: Bridge, step: Step, next: Bridge) {
    forall x :: x == b ==> Enabled(x, step) && next == Next(policy, prove, x, step)
  }

  ghost predicate IsRun(policy: Policy, prove: Prover, states: seq<Bridge>, steps: seq<Step>) {
    && |states| == |steps| + 1 && states[0] == Bridge(map[], {})
    && forall k :: 0 <= k < |steps| ==> Follows(policy, prove, states[k], steps[k], states[k + 1])
  }

  lemma ThatStep(policy: Policy, prove: Prover, states: seq<Bridge>, steps: seq<Step>, k: nat)
    requires IsRun(policy, prove, states, steps) && k < |steps|
    ensures Enabled(states[k], steps[k]) && states[k + 1] == Next(policy, prove, states[k], steps[k])
  {
    assert Follows(policy, prove, states[k], steps[k], states[k + 1]);
  }

  // ----- The life of one call -----

  /** How a call and its place among the pending ones fit together. */
  ghost predicate Settles(call: Call, pending: bool) {
    && |call.outcomes| <= 1
    && (pending <==> call.outcomes == [] && call.phase != Closed)
    && (call.timerArmed || call.listening ==> pending && call.phase == Awaiting)
    && (call.phase == Awaiting && call.outcomes == [] ==> call.timerArmed && call.listening)
  }

  /** The sum of the first caps. */
  function Budget(policy: Policy, sleeps: nat): real {
    if sleeps == 0 then 0.0 else Budget(policy, sleeps - 1) + Cap(policy, sleeps - 1)
  }

  /** The sleeps so far, each below its own cap of base times a power of two. */
  ghost predicate Slept(policy: Policy, call: Call) {
    && (call.sleeps == 0 ==> call.slept == 0.0)
    && (call.sleeps > 0 && policy.baseBackoffMs > 0.0 ==> call.slept < Budget(policy, call.sleeps))
  }

  ghost predicate Paced(policy: Policy, call: Call) {
    && call.attempts <= (if policy.maxAttempts > 0 then policy.maxAttempts else 0)
    && call.sleeps <= call.attempts
    && (call.sleeps > 0 ==> call.sleeps <= policy.maxAttempts - 1)
    && (call.phase.Posting? ==> call.attempts == call.phase.attempt + 1 && call.sleeps == call.phase.attempt)
    && (call.phase.Sleeping? ==> call.attempts == call.sleeps == call.phase.attempt + 1 < policy.maxAttempts)
  }

  ghost predicate CallInv(policy: Policy, b: Bridge, id: Id)
    requires id in b.calls
  {
    Settles(b.calls[id], id in b.pending) && Paced(policy, b.calls[id]) && Slept(policy, b.calls[id])
  }

  ghost predicate Inv(policy: Policy, b: Bridge) {
    && (forall id :: id in b.pending ==> id in b.calls)
    && (forall id :: id in b.calls ==> CallInv(policy, b, id))
  }

  lemma SleepAdds(policy: Policy, call: Call, attempt: nat, random: real)
    requires Slept(policy, call) && call.sleeps == attempt && 0.0 <= random < 1.0
    ensures Slept(policy, call.(sleeps := call.sleeps + 1, slept := call.slept + Delay(policy, attempt, random)))
  {
    if policy.baseBackoffMs > 0.0 {
      CapPositive(policy, attempt);
      JitterBelow(random, Cap(policy, attempt));
    }
  }

  lemma JitterBelow(random: real, cap: real)
    requires 0.0 <= random < 1.0 && cap > 0.0
    ensures Jitter(random, cap) < cap
  {
    assert (1.0 - random) * cap > 0.0;
  }

  lemma CapPositive(policy: Policy, attempt: nat)
    requires policy.baseBackoffMs > 0.0
    ensures Cap(policy, attempt) > 0.0
  {
    PowPositive(attempt);
  }

  lemma {:induction false} BudgetGrows(policy: Policy, m: nat, n: nat)
    requires policy.baseBackoffMs > 0.0 && m <= n
    ensures Budget(policy, m) <= Budget(policy, n)
  {
    if m < n {
      CapPositive(policy, n - 1);
      BudgetGrows(policy, m, n - 1);
    }
  }

  lemma {:induction false} BudgetIs(policy: Policy, n: nat)
    ensures Budget(policy, n) == policy.baseBackoffMs * (Pow2(n) - 1) as real
  {
    if n > 0 {
      BudgetIs(policy, n - 1);
      AddScaled(policy.baseBackoffMs, Pow2(n - 1) - 1, Pow2(n - 1));
    }
  }

  lemma AddScaled(base: real, x: int, y: int)
    ensures base * x as real + base * y as real == base * (x + y) as real
  {
  }

  lemma {:induction false} PowPositive(n: nat)
    ensures Pow2(n) >= 1
  {
    if n > 0 { PowPositive(n - 1); }
  }

  /** Only the call itself and its place among the pending ones change. */
  ghost predicate Touches(b: Bridge, next: Bridge, id: Id) {
    && next.calls.Keys == b.calls.Keys + {id}
    && (forall other :: other in b.calls && other != id ==> next.calls[other] == b.calls[other])
    && (forall other :: other != id ==> (other in next.pending <==> other in b.pending))
    && (id in next.pending ==> id in next.calls)
  }

  lemma OneCallChanges(policy: Policy, b: Bridge, next: Bridge, id: Id)
    requires Inv(policy, b) && Touches(b, next, id) && CallInv(policy, next, id)
    ensures Inv(policy, next)
  {
    forall other | other in next.calls ensures CallInv(policy, next, other) {
      if other != id { assert CallInv(policy, b, other); }
    }
  }

  lemma FetchKeeps(policy: Policy, b: Bridge, id: Id, fetch: Fetch, random: real)
    requires Inv(policy, b) && id in b.calls && b.calls[id].phase.Posting? && 0.0 <= random < 1.0
    ensures Inv(policy, Update(b, id, Fetched(policy, b.calls[id], fetch, random)))
  {
    assert CallInv(policy, b, id);
    SleepAdds(policy, b.calls[id], b.calls[id].phase.attempt, random);
    OneCallChanges(policy, b, Update(b, id, Fetched(policy, b.calls[id], fetch, random)), id);
  }

  lemma WakeKeeps(policy: Policy, b: Bridge, id: Id)
    requires Inv(policy, b) && id in b.calls && b.calls[id].phase.Sleeping?
    ensures Inv(policy, Update(b, id, Attempted(policy, b.calls[id], b.calls[id].phase.attempt + 1)))
  {
    assert CallInv(policy, b, id);
    OneCallChanges(policy, b, Update(b, id, Attempted(policy, b.calls[id], b.calls[id].phase.attempt + 1)), id);
  }

  lemma AcceptKeeps(policy: Policy, b: Bridge, id: Id)
    requires Inv(policy, b) && id in b.calls && b.calls[id].phase == Posted
    ensures Inv(policy, Accepted(b, id))
  {
    AcceptKeepsCall(policy, b, id);
    OneCallChanges(policy, b, Accepted(b, id), id);
  }

  lemma AcceptKeepsCall(policy: Policy, b: Bridge, id: Id)
    requires Inv(policy, b) && id in b.calls && b.calls[id].phase == Posted
    ensures CallInv(policy, Accepted(b, id), id) && Touches(b, Accepted(b, id), id)
  {
    assert CallInv(policy, b, id);
    var call := b.calls[id].(phase := Awaiting);
    if call.outcomes == [] && call.aborted {
      assert Accepted(b, id) == Settled(Update(b, id, call), id, Rejected("aborted by caller"));
    }
  }

  lemma ThrowKeeps(policy: Policy, b: Bridge, id: Id)
    requires Inv(policy, b) && id in b.calls && b.calls[id].phase == PostFailed
    ensures Inv(policy, Thrown(b, id))
  {
    assert CallInv(policy, b, id);
    OneCallChanges(policy, b, Thrown(b, id), id);
  }

  lemma SettleKeeps(policy: Policy, b: Bridge, id: Id, outcome: Outcome)
    requires Inv(policy, b) && id in b.pending
    ensures Inv(policy, Settled(b, id, outcome))
  {
    assert CallInv(policy, b, id);
    OneCallChanges(policy, b, Settled(b, id, outcome), id);
  }

  lemma TimeoutKeeps(policy: Policy, b: Bridge, id: Id)
    requires Inv(policy, b) && id in b.calls && b.calls[id].timerArmed
    ensures Inv(policy, TimedOut(b, id))
  {
    assert CallInv(policy, b, id);
    SettleKeeps(policy, b, id, Rejected("timeout"));
  }

  lemma AbortKeeps(policy: Policy, b: Bridge, id: Id)
    requires Inv(policy, b) && id in b.calls
    ensures Inv(policy, AbortedBy(b, id))
  {
    assert CallInv(policy, b, id);
    var flagged := Update(b, id, b.calls[id].(aborted := true));
    OneCallChanges(policy, b, flagged, id);
    if b.calls[id].listening {
      SettleKeeps(policy, flagged, id, Rejected("aborted by caller"));
    } else {
      assert AbortedBy(b, id) == flagged;
    }
  }

  lemma OpenKeeps(policy: Policy, b: Bridge, id: Id, target: Target, aborted: bool)
    requires Inv(policy, b) && id !in b.calls
    ensures Inv(policy, Opened(policy, b, id, target, aborted))
  {
    OneCallChanges(policy, b, Opened(policy, b, id, target, aborted), id);
  }

  lemma NextKeepsInv(policy: Policy, prove: Prover, b: Bridge, step: Step)
    requires Inv(policy, b) && Enabled(b, step)
    ensures Inv(policy, Next(policy, prove, b, step))
  {
    match step
    case Open(id, target, aborted) => OpenKeeps(policy, b, id, target, aborted);
    case FetchStep(id, fetch, random) => FetchKeeps(policy, b, id, fetch, random);
    case WakeStep(id) => WakeKeeps(policy, b, id);
    case AcceptStep(id) => AcceptKeeps(policy, b, id);
    case ThrowStep(id) => ThrowKeeps(policy, b, id);
    case ReplyStep(s) => if Judge(prove, b, s) == Taken { SettleKeeps(policy, b, s.requestId, OutcomeOf(b, s)); }
    case TimeoutStep(id) => TimeoutKeeps(policy, b, id);
    case AbortStep(id) => AbortKeeps(policy, b, id);
  }

  lemma {:induction false} RunInv(policy: Policy, prove: Prover, states: seq<Bridge>, steps: seq<Step>, k: nat)
    requires IsRun(policy, prove, states, steps) && k <= |steps|
    ensures Inv(policy, states[k])
  {
    if k > 0 {
      RunInv(policy, prove, states, steps, k - 1);
      ThatStep(policy, prove, states, steps, k - 1);
      NextKeepsInv(policy, prove, states[k - 1], steps[k - 1]);
    }
  }

  /** Over all interleavings of replies, timeouts, aborts and POST results: a request
      settles at most once, a settled one is not pending, and once its POST was accepted
      an unsettled one has its reply timer armed. */
  lemma SettlesAtMostOnce(policy: Policy, prove: Prover, states: seq<Bridge>, steps: seq<Step>, k: nat, id: Id)
    requires IsRun(policy, prove, states, steps) && k <= |steps| && id in states[k].calls
    ensures var call := states[k].calls[id];
            && |call.outcomes| <= 1
            && (call.outcomes != [] ==> id !in states[k].pending)
            && (call.phase == Awaiting && call.outcomes == [] ==> call.timerArmed && id in states[k].pending)
            && (id !in states[k].pending ==> !call.timerArmed && !call.listening)
  {
    RunInv(policy, prove, states, steps, k);
    assert CallInv(policy, states[k], id);
  }

  lemma NextKeepsOutcome(policy: Policy, prove: Prover, b: Bridge, step: Step, id: Id)
    requires Inv(policy, b) && Enabled(b, step) && id in b.calls && b.calls[id].outcomes != []
    ensures id in Next(policy, prove, b, step).calls
            && Next(policy, prove, b, step).calls[id].outcomes == b.calls[id].outcomes
  {
    assert CallInv(policy, b, id);
  }

  lemma OneStep(policy: Policy, prove: Prover, states: seq<Bridge>, steps: seq<Step>, k: nat)
    requires IsRun(policy, prove, states, steps) && k < |steps|
    ensures Inv(policy, states[k]) && Enabled(states[k], steps[k])
            && states[k + 1] == Next(policy, prove, states[k], steps[k])
  {
    RunInv(policy, prove, states, steps, k);
    ThatStep(policy, prove, states, steps, k);
  }

  /** The first outcome is the last: no later reply, timeout or abort changes it. */
  lemma {:induction false} OutcomeIsFinal(policy: Policy, prove: Prover, states: seq<Bridge>, steps: seq<Step>,
                                          j: nat, k: nat, id: Id)
    requires IsRun(policy, prove, states, steps) && j <= k <= |steps|
    requires id in states[j].calls && states[j].calls[id].outcomes != []
    ensures id in states[k].calls && states[k].calls[id].outcomes == states[j].calls[id].outcomes
  {
    if j < k {
      OutcomeIsFinal(policy, prove, states, steps, j, k - 1, id);
      OneStep(policy, prove, states, steps, k - 1);
      NextKeepsOutcome(policy, prove, states[k - 1], steps[k - 1], id);
    }
  }

  /** With two or more attempts and a positive base, all the backoff of a request stays
      below base times 2^(maxAttempts - 1) - 1; there are never more attempts than that. */
  lemma BackoffIsBounded(policy: Policy, prove: Prover, states: seq<Bridge>, steps: seq<Step>, k: nat, id: Id)
    requires IsRun(policy, prove, states, steps) && k <= |steps| && id in states[k].calls
    requires policy.maxAttempts >= 2 && policy.baseBackoffMs > 0.0
    ensures states[k].calls[id].slept < policy.baseBackoffMs * (Pow2(policy.maxAttempts - 1) - 1) as real
    ensures states[k].calls[id].attempts <= policy.maxAttempts
  {
    RunInv(policy, prove, states, steps, k);
    assert CallInv(policy, states[k], id);
    var call, n := states[k].calls[id], policy.maxAttempts - 1;
    BudgetIs(policy, n);
    if call.sleeps > 0 {
      BudgetGrows(policy, call.sleeps, n);
    } else {
      CapPositive(policy, 0);
      BudgetGrows(policy, 1, n);
      assert Budget(policy, 1) == Cap(policy, 0);
    }
  }

  /** Exactly the four checks let a reply in, and the one let in is the outcome for good. */
  lemma AcceptedReplyIsTheOutcome(policy: Policy, prove: Prover, states: seq<Bridge>, steps: seq<Step>, j: nat, k: nat)
    requires IsRun(policy, prove, states, steps) && j < k <= |steps| && steps[j].ReplyStep?
    ensures var s := steps[j].submission;
            Judge(prove, states[j], s) == Taken ==>
              s.requestId in states[k].calls && states[k].calls[s.requestId].outcomes == [OutcomeOf(states[j], s)]
  {
    var s := steps[j].submission;
    RunInv(policy, prove, states, steps, j);
    ThatStep(policy, prove, states, steps, j);
    if Judge(prove, states[j], s) == Taken {
      assert CallInv(policy, states[j], s.requestId);
      OutcomeIsFinal(policy, prove, states, steps, j + 1, k, s.requestId);
    }
  }

  // ----- Which replies are safe -----

  /** The stream of this call ended in the dispatch failure. */
  ghost predicate HasThrown(b: Bridge, id: Id) {
    id in b.calls && b.calls[id].phase == Closed
  }

  ghost predicate IsAccepted(b: Bridge, id: Id) {
    id in b.calls && (b.calls[id].phase == Posted || b.calls[id].phase == Awaiting)
  }

  /** Another run that agrees with this one up to its state `k`. */
  ghost predicate Continues(policy: Policy, prove: Prover, states: seq<Bridge>, steps: seq<Step>, k: nat,
                            longer: seq<Bridge>, more: seq<Step>)
    requires IsRun(policy, prove, states, steps) && k <= |steps|
  {
    IsRun(policy, prove, longer, more) && k <= |more| && longer[..k + 1] == states[..k + 1] && more[..k] == steps[..k]
  }

  /** However the run goes on from its state `k`, the stream does not throw the dispatch failure. */
  ghost predicate NeverThrows(policy: Policy, prove: Prover, states: seq<Bridge>, steps: seq<Step>, k: nat, id: Id)
    requires IsRun(policy, prove, states, steps) && k <= |steps|
  {
    forall longer, more :: Continues(policy, prove, states, steps, k, longer, more) ==> !HasThrown(longer[|more|], id)
  }

  lemma NextKeepsAccepted(policy: Policy, prove: Prover, b: Bridge, step: Step, id: Id)
    requires Enabled(b, step) && IsAccepted(b, id)
    ensures IsAccepted(Next(policy, prove, b, step), id)
  {
    match step
    case AcceptStep(other) =>
    case ReplyStep(s) => if Judge(prove, b, s) == Taken { assert s.requestId in b.calls; }
    case _ =>
  }

  lemma {:induction false} AcceptedStays(policy: Policy, prove: Prover, states: seq<Bridge>, steps: seq<Step>,
                                         j: nat, k: nat, id: Id)
    requires IsRun(policy, prove, states, steps) && j <= k <= |steps| && IsAccepted(states[j], id)
    ensures IsAccepted(states[k], id)
  {
    if j < k {
      AcceptedStays(policy, prove, states, steps, j, k - 1, id);
      ThatStep(policy, prove, states, steps, k - 1);
      NextKeepsAccepted(policy, prove, states[k - 1], steps[k - 1], id);
    }
  }

  lemma RunGoesOn(policy: Policy, prove: Prover, states: seq<Bridge>, steps: seq<Step>, step: Step)
    requires IsRun(policy, prove, states, steps) && Enabled(states[|steps|], step)
    ensures IsRun(policy, prove, states + [Next(policy, prove, states[|steps|], step)], steps + [step])
  {
  }

  lemma RunStopsShort(policy: Policy, prove: Prover, states: seq<Bridge>, steps: seq<Step>, k: nat)
    requires IsRun(policy, prove, states, steps) && k <= |steps|
    ensures IsRun(policy, prove, states[..k + 1], steps[..k])
  {
  }

  /** A run whose POST has not been accepted can go on until the stream throws. */
  lemma PostCanFail(policy: Policy, prove: Prover, states: seq<Bridge>, steps: seq<Step>, id: Id)
    returns (longer: seq<Bridge>, more: seq<Step>)
    requires IsRun(policy, prove, states, steps)
    requires id in states[|steps|].calls && !IsAccepted(states[|steps|], id)
    ensures IsRun(policy, prove, longer, more) && |more| >= |steps|
    ensures longer[..|states|] == states && more[..|steps|] == steps
    ensures HasThrown(longer[|more|], id)
    decreases match states[|steps|].calls[id].phase
              case Sleeping(_) => 3
              case Posting(_) => 2
              case PostFailed => 1
              case _ => 0
  {
    longer, more := states, steps;
    var b := states[|steps|];
    if b.calls[id].phase != Closed {
      var step := match b.calls[id].phase
        case Sleeping(_) => WakeStep(id)
        case Posting(_) => FetchStep(id, NonRetryable, 0.0)
        case _ => ThrowStep(id);
      RunGoesOn(policy, prove, states, steps, step);
      longer, more := PostCanFail(policy, prove, states + [Next(policy, prove, b, step)], steps + [step], id);
      assert longer[..|states|] == longer[..|states| + 1][..|states|];
      assert more[..|steps|] == more[..|steps| + 1][..|steps|];
    }
  }

  /** A reply let in is safe from the dispatch exactly when the POST was accepted before it
      came: only then does no continuation of the run end with the stream throwing the
      dispatch failure, for all that the promise was settled by the reply. (A reply marked
      failed makes the stream throw the chair's own error in any case.) */
  lemma ReplyIsSafeIffPosted(policy: Policy, prove: Prover, states: seq<Bridge>, steps: seq<Step>, j: nat)
    requires IsRun(policy, prove, states, steps) && j < |steps|
    requires steps[j].ReplyStep? && Judge(prove, states[j], steps[j].submission) == Taken
    ensures var id := steps[j].submission.requestId;
            NeverThrows(policy, prove, states, steps, j + 1, id) <==> states[j].calls[id].phase in {Posted, Awaiting}
  {
    var id := steps[j].submission.requestId;
    OneStep(policy, prove, states, steps, j);
    if IsAccepted(states[j + 1], id) {
      forall longer, more | Continues(policy, prove, states, steps, j + 1, longer, more)
        ensures !HasThrown(longer[|more|], id)
      {
        assert longer[j + 1] == longer[..j + 2][j + 1] == states[j + 1];
        AcceptedStays(policy, prove, longer, more, j + 1, |more|, id);
      }
    } else {
      RunStopsShort(policy, prove, states, steps, j + 1);
      var longer, more := PostCanFail(policy, prove, states[..j + 2], steps[..j + 1], id);
      assert Continues(policy, prove, states, steps, j + 1, longer, more);
    }
  }

  /** The shortest such loss: the reply comes while the first POST is in flight. */
  lemma ReplyCanBeLost(policy: Policy, prove: Prover, id: Id, target: Target)
    returns (states: seq<Bridge>, steps: seq<Step>)
    requires policy.maxAttempts >= 1
    ensures IsRun(policy, prove, states, steps)
    ensures var end := states[|steps|];
            id in end.calls && end.calls[id].outcomes == [Resolved("done")] && end.calls[id].phase == Closed
  {
    var reply := Submission(id, target.agentId, target.claimSessionId, prove(id, target.claimSessionId, target.secret),
                            None, Some("done"), false, None);
    steps := [Open(id, target, false), ReplyStep(reply), FetchStep(id, NonRetryable, 0.0), ThrowStep(id)];
    var s0 := Bridge(map[], {});
    var s1 := Next(policy, prove, s0, steps[0]);
    var s2 := Next(policy, prove, s1, steps[1]);
    var s3 := Next(policy, prove, s2, steps[2]);
    var s4 := Next(policy, prove, s3, steps[3]);
    states := [s0, s1, s2, s3, s4];
  }
}
