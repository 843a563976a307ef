/** What each event does to a call, over every run and in full, and which replies count. */
module ChairSteps {
  import opened ChairBridge

  // ----- Replies -----

  /** The reply is to a pending request, from its agent and session, on its topic if it names
      one, and proved with its secret. */
  ghost predicate Counts(prove: Prover, b: Bridge, s: Submission) {
    && s.requestId in b.pending && s.requestId in b.calls
    && var target := b.calls[s.requestId].target;
       && s.agentId == target.agentId && s.claimSessionId == target.claimSessionId
       && (s.topicId.Some? ==> s.topicId.value == target.topicId)
       && s.proof == prove(s.requestId, target.claimSessionId, target.secret)
  }

  /** What it says. */
  function Said(s: Submission): Outcome {
    if !s.failed then Resolved(if s.content.Some? then s.content.value else "")
    else if s.error.Some? then Rejected(s.error.value)
    else if s.content.Some? then Rejected(s.content.value)
    else Rejected("runtime failure")
  }

  /** The call settled this way, its timer and listener gone. */
  function SettledAs(call: Call, outcome: Outcome): Call {
    call.(outcomes := [outcome], timerArmed := false, listening := false)
  }

  lemma ReplySettles(prove: Prover, b: Bridge, s: Submission)
    requires s.requestId in b.pending ==> s.requestId in b.calls && b.calls[s.requestId].outcomes == []
    ensures Replied(prove, b, s) != b <==> Counts(prove, b, s)
    ensures Counts(prove, b, s) ==>
              Replied(prove, b, s) ==
                Bridge(b.calls[s.requestId := SettledAs(b.calls[s.requestId], Said(s))], b.pending - {s.requestId})
  {
    if Counts(prove, b, s) {
      var call := b.calls[s.requestId];
      var said, done := call.(outcomes := [Said(s)]), SettledAs(call, Said(s));
      assert OutcomeOf(b, s) == Said(s) && call.outcomes + [Said(s)] == [Said(s)];
      assert b.calls[s.requestId := said][s.requestId := done] == b.calls[s.requestId := done];
    }
  }

  /** A reply changes something if and only if it counts; then it is its request's outcome,
      and the request's timer and listener are gone. */
  lemma ReplyCountsIff(policy: Policy, prove: Prover, states: seq<Bridge>, steps: seq<Step>, k: nat)
    requires IsRun(policy, prove, states, steps) && k < |steps| && steps[k].ReplyStep?
    ensures var b, b', s := states[k], states[k + 1], steps[k].submission;
            && (b' != b <==> Counts(prove, b, s))
            && (Counts(prove, b, s) ==>
                  b' == Bridge(b.calls[s.requestId := SettledAs(b.calls[s.requestId], Said(s))],
                               b.pending - {s.requestId}))
  {
    var s := steps[k].submission;
    OneStep(policy, prove, states, steps, k);
    if s.requestId in states[k].pending { assert CallInv(policy, states[k], s.requestId); }
    ReplySettles(prove, states[k], s);
  }

  /** What the chair is told: the first thing that is wrong, in this order. */
  lemma AnswerTells(prove: Prover, b: Bridge, s: Submission)
    requires s.requestId in b.pending ==> s.requestId in b.calls
    ensures Judge(prove, b, s) == Taken <==> Counts(prove, b, s)
    ensures Judge(prove, b, s) == Unknown <==> s.requestId !in b.pending
    ensures s.requestId in b.pending ==>
              var target := b.calls[s.requestId].target;
              var elsewhere := s.topicId.Some? && s.topicId.value != target.topicId;
              && (Judge(prove, b, s) == WrongTarget <==> s.agentId != target.agentId || elsewhere)
              && (Judge(prove, b, s) == WrongSession <==>
                    s.agentId == target.agentId && !elsewhere && s.claimSessionId != target.claimSessionId)
  {
  }

  // ----- Every event -----

  /** The request the event is about. */
  function About(step: Step): Id {
    if step.ReplyStep? then step.submission.requestId else step.id
  }

  /** What becomes of the call an event is about. */
  ghost function CallAfter(policy: Policy, prove: Prover, b: Bridge, step: Step): Call
    requires Enabled(b, step)
    requires About(step) in b.calls || step.Open?
  {
    match step
    case Open(_, target, aborted) =>
      var posts := policy.maxAttempts >= 1 && !aborted;
      Call(target, if posts then Posting(0) else PostFailed, [], false, false, aborted, if posts then 1 else 0, 0, 0.0)
    case FetchStep(id, fetch, random) =>
      var call, attempt := b.calls[id], b.calls[id].phase.attempt;
      if fetch == Fine then call.(phase := Posted)
      else if fetch == NonRetryable || attempt + 1 >= policy.maxAttempts || (fetch == NetworkError && call.aborted)
      then call.(phase := PostFailed)
      else call.(phase := Sleeping(attempt), sleeps := call.sleeps + 1,
                 slept := call.slept + Delay(policy, attempt, random))
    case WakeStep(id) =>
      var call, attempt := b.calls[id], b.calls[id].phase.attempt + 1;
      if call.aborted then call.(phase := PostFailed) else call.(phase := Posting(attempt), attempts := attempt + 1)
    case AcceptStep(id) =>
      var call := b.calls[id].(phase := Awaiting);
      if call.outcomes != [] then call
      else if call.aborted then SettledAs(call, Rejected("aborted by caller"))
      else call.(timerArmed := true, listening := true)
    case ThrowStep(id) => b.calls[id].(phase := Closed, timerArmed := false, listening := false)
    case ReplyStep(s) =>
      if Counts(prove, b, s) then SettledAs(b.calls[s.requestId], Said(s)) else b.calls[s.requestId]
    case TimeoutStep(id) => SettledAs(b.calls[id], Rejected("timeout"))
    case AbortStep(id) =>
      var call := b.calls[id].(aborted := true);
      if call.phase == Awaiting && call.outcomes == [] then SettledAs(call, Rejected("aborted by caller")) else call
  }

  /** The backoff after attempt number `attempt` is a random part of a cap, rounded down; the
      cap is the base for the first and doubles with every further one. */
  lemma DelayIs(policy: Policy, attempt: nat, random: real)
    ensures Delay(policy, attempt, random) <= random * Cap(policy, attempt) < Delay(policy, attempt, random) + 1.0
    ensures Delay(policy, attempt, random).Floor as real == Delay(policy, attempt, random)
    ensures Cap(policy, 0) == policy.baseBackoffMs && Cap(policy, attempt + 1) == 2.0 * Cap(policy, attempt)
  {
    var power := Pow2(attempt) as real;
    assert Pow2(attempt + 1) as real == 2.0 * power;
    assert policy.baseBackoffMs * (2.0 * power) == 2.0 * (policy.baseBackoffMs * power);
  }

  /** A request is pending exactly while its call is neither settled nor closed. */
  ghost predicate PendingFits(b: Bridge) {
    forall id :: id in b.pending <==> id in b.calls && b.calls[id].outcomes == [] && b.calls[id].phase != Closed
  }

  /** The call is `call` now, and no other call has changed. */
  ghost predicate Becomes(b: Bridge, b': Bridge, id: Id, call: Call) {
    && id in b'.calls && b'.calls[id] == call
    && forall other :: other in b.calls && other != id ==> other in b'.calls && b'.calls[other] == b.calls[other]
  }

  lemma SettledBecomes(b: Bridge, b': Bridge, id: Id, outcome: Outcome)
    requires id in b.calls && b.calls[id].outcomes == [] && b' == Settled(b, id, outcome)
    ensures Becomes(b, b', id, SettledAs(b.calls[id], outcome))
  {
    assert [] + [outcome] == [outcome];
  }

  lemma AcceptBecomes(policy: Policy, prove: Prover, b: Bridge, id: Id)
    requires Inv(policy, b) && id in b.calls && b.calls[id].phase == Posted
    ensures Becomes(b, Accepted(b, id), id, CallAfter(policy, prove, b, AcceptStep(id)))
  {
    assert CallInv(policy, b, id);
    var call := b.calls[id].(phase := Awaiting);
    if call.outcomes == [] && call.aborted {
      SettledBecomes(Update(b, id, call), Accepted(b, id), id, Rejected("aborted by caller"));
    }
  }

  lemma AbortBecomes(policy: Policy, prove: Prover, b: Bridge, id: Id)
    requires Inv(policy, b) && id in b.calls && !b.calls[id].aborted
    ensures Becomes(b, AbortedBy(b, id), id, CallAfter(policy, prove, b, AbortStep(id)))
  {
    assert CallInv(policy, b, id);
    var call := b.calls[id].(aborted := true);
    if call.listening { SettledBecomes(Update(b, id, call), AbortedBy(b, id), id, Rejected("aborted by caller")); }
  }

  lemma TimeoutBecomes(policy: Policy, prove: Prover, b: Bridge, id: Id)
    requires Inv(policy, b) && id in b.calls && b.calls[id].timerArmed
    ensures Becomes(b, TimedOut(b, id), id, CallAfter(policy, prove, b, TimeoutStep(id)))
  {
    assert CallInv(policy, b, id);
    SettledBecomes(b, TimedOut(b, id), id, Rejected("timeout"));
  }

  lemma ReplyBecomes(policy: Policy, prove: Prover, b: Bridge, s: Submission)
    requires Inv(policy, b) && s.requestId in b.calls
    ensures Becomes(b, Replied(prove, b, s), s.requestId, CallAfter(policy, prove, b, ReplyStep(s)))
  {
    assert CallInv(policy, b, s.requestId);
    ReplySettles(prove, b, s);
  }

  lemma PostBecomes(policy: Policy, prove: Prover, b: Bridge, step: Step)
    requires Inv(policy, b) && Enabled(b, step)
    requires step.Open? || step.FetchStep? || step.WakeStep? || step.ThrowStep?
    ensures Becomes(b, Next(policy, prove, b, step), step.id, CallAfter(policy, prove, b, step))
  {
    if step.id in b.calls { assert CallInv(policy, b, step.id); }
  }

  lemma NextBecomes(policy: Policy, prove: Prover, b: Bridge, step: Step)
    requires Inv(policy, b) && Enabled(b, step) && (About(step) in b.calls || step.Open?)
    ensures Becomes(b, Next(policy, prove, b, step), About(step), CallAfter(policy, prove, b, step))
  {
    match step
    case AcceptStep(id) => AcceptBecomes(policy, prove, b, id);
    case ReplyStep(s) => ReplyBecomes(policy, prove, b, s);
    case TimeoutStep(id) => TimeoutBecomes(policy, prove, b, id);
    case AbortStep(id) => AbortBecomes(policy, prove, b, id);
    case _ => PostBecomes(policy, prove, b, step);
  }

  lemma PendingAlwaysFits(policy: Policy, prove: Prover, states: seq<Bridge>, steps: seq<Step>, k: nat)
    requires IsRun(policy, prove, states, steps) && k <= |steps|
    ensures PendingFits(states[k])
  {
    RunInv(policy, prove, states, steps, k);
    forall id ensures id in states[k].pending <==> id in states[k].calls && states[k].calls[id].outcomes == []
                                                   && states[k].calls[id].phase != Closed
    {
      if id in states[k].calls { assert CallInv(policy, states[k], id); }
    }
  }

  /** An event changes the call it is about like this, and no other; a reply to an unknown
      request changes nothing; what is pending follows from the calls. */
  lemma EventChangesItsCall(policy: Policy, prove: Prover, states: seq<Bridge>, steps: seq<Step>, k: nat)
    requires IsRun(policy, prove, states, steps) && k < |steps|
    ensures Enabled(states[k], steps[k]) && PendingFits(states[k + 1])
    ensures if About(steps[k]) in states[k].calls || steps[k].Open?
            then Becomes(states[k], states[k + 1], About(steps[k]), CallAfter(policy, prove, states[k], steps[k]))
            else states[k + 1] == states[k]
  {
    OneStep(policy, prove, states, steps, k);
    PendingAlwaysFits(policy, prove, states, steps, k + 1);
    if About(steps[k]) in states[k].calls || steps[k].Open? { NextBecomes(policy, prove, states[k], steps[k]); }
  }

  /** Step `j` is a reply of this content to the request, and it counts. */
  ghost predicate Resolves(prove: Prover, states: seq<Bridge>, steps: seq<Step>, j: nat, id: Id, content: string)
    requires |states| == |steps| + 1 && j < |steps|
  {
    && steps[j].ReplyStep? && steps[j].submission.requestId == id
    && Counts(prove, states[j], steps[j].submission) && Said(steps[j].submission) == Resolved(content)
  }

  /** Every content a request is resolved with was sent in a reply that counts. */
  lemma {:induction false} ResolvedByReply(policy: Policy, prove: Prover, states: seq<Bridge>, steps: seq<Step>, k: nat,
                                           id: Id, content: string) returns (j: nat)
    requires IsRun(policy, prove, states, steps) && k <= |steps|
    requires id in states[k].calls && Resolved(content) in states[k].calls[id].outcomes
    ensures j < k && Resolves(prove, states, steps, j, id, content)
  {
    j := k - 1;
    EventChangesItsCall(policy, prove, states, steps, j);
    var b := states[j];
    if id in b.calls && Resolved(content) in b.calls[id].outcomes {
      j := ResolvedByReply(policy, prove, states, steps, j, id, content);
    } else {
      assert About(steps[j]) == id && steps[j].ReplyStep?;
    }
  }
}
