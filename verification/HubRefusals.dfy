/** Which operations the hub refuses, with which error, and that a refusal changes nothing
    (src/services/AgentHubStore.ts). */
module HubRefusals {
  import opened Wrappers
  import opened JsonText
  import opened StableJson
  import opened HubSpec
  import opened HubRuns
  import HubClaims

  function ErrorIn<T>(r: Result<T, HubError>): Option<HubError> {
    if r.Err? then Some(r.error) else None
  }

  /** The error an operation answers with, if it does. */
  function Refusal(env: EnvRecord, hub: Hub, step: Step): Option<HubError> {
    match step
    case Inbound(payload, stamp, now, failAt) => ErrorIn(RecordInbound(env, hub, payload, stamp, now, failAt).1)
    case Begin(id, stamp, now, failAt) => ErrorIn(MarkRunning(env, hub, id, stamp, now, failAt).1)
    case Postpone(id, replayAfter, _, _) => ErrorIn(ScheduleReplay(hub, id, replayAfter).1)
    case End(id, ending, fields, uuid, stamp, now, failAt) =>
      ErrorIn(MarkEnded(env, hub, id, ending, fields, uuid, stamp, now, failAt).1)
    case Deliver(boxId, stamp, _) => ErrorIn(MarkSent(hub, boxId, stamp).1)
    case Claim(limit, leaseMs, stamp, _, failAt) => ErrorIn(ClaimDue(hub, limit, leaseMs, stamp, failAt).1)
    case Bounce(boxId, error, retryAt, maxAttempts, stamp, _) =>
      ErrorIn(MarkDeliveryFailed(env, hub, boxId, error, retryAt, maxAttempts, stamp).1)
    case PruneOutbox(_, _, _) => None
    case PruneReceipts(_, _, _) => None
  }

  /** An operation that is refused leaves every table as it was, a transaction that fails
      half-way included. */
  lemma RefusedChangesNothing(env: EnvRecord, hub: Hub, step: Step)
    requires Refusal(env, hub, step).Some?
    ensures Apply(env, hub, step) == hub
  {
    match step {
      case Inbound(_, _, _, _) =>
      case Begin(_, _, _, _) =>
      case Postpone(_, _, _, _) =>
      case End(_, _, _, _, _, _, _) =>
      case Deliver(_, _, _) =>
      case Claim(_, _, _, _, _) =>
      case Bounce(_, _, _, _, _, _) =>
      case PruneOutbox(_, _, _) =>
      case PruneReceipts(_, _, _) =>
    }
  }

  /** A delivery names request, topic and agent, this hub's agent, and what it delivered for
      that request before, if anything. */
  lemma DeliveryIsRefusedIff(env: EnvRecord, hub: Hub, step: Step)
    requires step.Inbound?
    ensures var id, topic := TextField(step.payload, "requestId"), TextField(step.payload, "topicId");
            var agent, hash := TextField(step.payload, "agentId"), env.hash(StableStringify(step.payload));
            Refusal(env, hub, step) ==
              if id.None? || topic.None? || agent.None? then Some(MissingField)
              else if agent.value != env.agentId then Some(WrongAgent)
              else if id.value !in hub.dispatches then (if step.failAt < 2 then Some(Fault) else None)
              else if hub.dispatches[id.value].payloadHash in {None, Some(""), Some(hash)} then None
              else Some(HashConflict)
  {
  }

  /** The answer to an accepted one: the request, whether it was known, and the hash. */
  lemma DeliveryAnswers(env: EnvRecord, hub: Hub, payload: Json, stamp: int, now: int, failAt: nat)
    requires RecordInbound(env, hub, payload, stamp, now, failAt).1.Ok?
    ensures TextField(payload, "requestId").Some?
    ensures var id := TextField(payload, "requestId").value;
            RecordInbound(env, hub, payload, stamp, now, failAt).1.value ==
              Delivery(id, id in hub.dispatches, env.hash(StableStringify(payload)))
  {
  }

  ghost predicate HasBox(hub: Hub, id: OutboxId) {
    exists i :: 0 <= i < |hub.outbox| && hub.outbox[i].id == id
  }

  /** All other operations need a request or reply they know, arguments in range, and no fault. */
  ghost function OtherRefusal(hub: Hub, step: Step): Option<HubError>
    requires !step.Inbound? && !step.Claim?
  {
    match step
    case Begin(id, _, _, failAt) =>
      if failAt == 0 then Some(Fault) else if id !in hub.dispatches then Some(UnknownDispatch)
      else if failAt == 1 then Some(Fault) else None
    case Postpone(id, replayAfter, _, _) =>
      if replayAfter < 0.0 then Some(BadArgument) else if id !in hub.dispatches then Some(UnknownDispatch) else None
    case End(id, _, _, _, _, _, failAt) =>
      if failAt == 0 then Some(Fault) else if id !in hub.dispatches then Some(UnknownDispatch)
      else if failAt < (if hub.dispatches[id].replyUrl.Some? then 4 else 3) then Some(Fault) else None
    case Deliver(boxId, _, _) => if HasBox(hub, boxId) then None else Some(UnknownOutbox)
    case Bounce(boxId, _, retryAt, maxAttempts, _, _) =>
      if maxAttempts <= 0.0 || (retryAt.Some? && retryAt.value < 0.0) then Some(BadArgument)
      else if HasBox(hub, boxId) then None else Some(UnknownOutbox)
    case _ => None
  }

  lemma OtherIsRefusedIff(env: EnvRecord, hub: Hub, step: Step)
    requires !step.Inbound? && !step.Claim?
    ensures Refusal(env, hub, step) == OtherRefusal(hub, step)
  {
    if step.Deliver? || step.Bounce? {
      IndexOfIdBound(hub.outbox, step.boxId);
    }
  }

  /** A claim is refused for its arguments or for a fault, which no row more than there are
      can bring. */
  lemma ClaimIsRefused(env: EnvRecord, hub: Hub, step: Step)
    requires step.Claim?
    ensures Refusal(env, hub, step) == Some(BadArgument) <==> step.limit <= 0.0 || step.leaseMs <= 0.0
    ensures Refusal(env, hub, step) in {None, Some(BadArgument), Some(Fault)}
    ensures step.failAt == 0 ==> Refusal(env, hub, step).Some?
    ensures step.limit > 0.0 && step.leaseMs > 0.0 && step.failAt >= 2 + |hub.outbox| ==>
              Refusal(env, hub, step) == None
  {
    if step.limit > 0.0 {
      HubClaims.PickedFit(hub.outbox, step.stamp, step.limit, step.leaseMs);
    }
  }
}
