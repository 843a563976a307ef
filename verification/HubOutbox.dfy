/** The leased outbox over every run. */
module HubOutbox {
  import opened Wrappers
  import opened JsonText
  import opened StableJson
  import opened HubSpec
  import opened AgentHub
  import opened HubRuns

  ghost predicate OneRowPerRequest(outbox: seq<OutboxRow>) {
    && (forall i :: 0 <= i < |outbox| ==> outbox[i].dedupeKey == DedupeKey(outbox[i].requestId))
    && (forall i, j :: 0 <= i < j < |outbox| ==> outbox[i].requestId != outbox[j].requestId)
    && (forall i, j :: 0 <= i < j < |outbox| ==> outbox[i].id != outbox[j].id)
  }

  lemma DedupeKeyTellsRequest(a: string, b: string)
    ensures DedupeKey(a) == DedupeKey(b) <==> a == b
  {
    assert a == DedupeKey(a)[6..] && b == DedupeKey(b)[6..];
  }

  lemma UpsertKeepsOnePerRequest(env: EnvRecord, outbox: seq<OutboxRow>, uuid: OutboxId, id: string, url: string,
                                 body: string, stamp: int)
    requires OneRowPerRequest(outbox) && forall i :: 0 <= i < |outbox| ==> outbox[i].id != uuid
    ensures OneRowPerRequest(Upserted(env, outbox, uuid, id, url, body, stamp))
  {
    IndexOfKeyBound(outbox, DedupeKey(id));
    forall i | 0 <= i < |outbox| ensures outbox[i].requestId == id <==> outbox[i].dedupeKey == DedupeKey(id) {
      DedupeKeyTellsRequest(outbox[i].requestId, id);
    }
  }

  lemma {:induction false} KeepOutboxAt(outbox: seq<OutboxRow>, before: int)
    requires OneRowPerRequest(outbox)
    ensures OneRowPerRequest(KeepOutbox(outbox, before))
    ensures forall r :: r in KeepOutbox(outbox, before) <==> r in outbox && !Prunable(r, before)
  {
    if outbox != [] {
      var front, last := outbox[..|outbox| - 1], outbox[|outbox| - 1];
      assert outbox == front + [last];
      KeepOutboxAt(front, before);
      var kept := KeepOutbox(front, before);
      forall i | 0 <= i < |kept| ensures kept[i].requestId != last.requestId && kept[i].id != last.id {
        assert kept[i] in kept;
        assert kept[i] in front;
        var j :| 0 <= j < |front| && front[j] == kept[i];
        assert outbox[j] == kept[i];
      }
    }
  }

  lemma UpdateKeepsOnePerRequest(outbox: seq<OutboxRow>, i: nat, row: OutboxRow)
    requires OneRowPerRequest(outbox) && i < |outbox|
    requires row.id == outbox[i].id && row.requestId == outbox[i].requestId && row.dedupeKey == outbox[i].dedupeKey
    ensures OneRowPerRequest(outbox[i := row])
  {
  }

  lemma ClaimKeepsOnePerRequest(hub: Hub, limit: real, leaseMs: real, stamp: int, failAt: nat)
    requires OneRowPerRequest(hub.outbox)
    ensures OneRowPerRequest(ClaimDue(hub, limit, leaseMs, stamp, failAt).0.outbox)
  {
  }

  lemma EndKeepsOnePerRequest(env: EnvRecord, hub: Hub, step: Step)
    requires OneRowPerRequest(hub.outbox) && step.End?
    requires forall i :: 0 <= i < |hub.outbox| ==> hub.outbox[i].id != step.uuid
    ensures OneRowPerRequest(Apply(env, hub, step).outbox)
  {
    if step.id in hub.dispatches && hub.dispatches[step.id].replyUrl.Some? {
      var row := hub.dispatches[step.id];
      UpsertKeepsOnePerRequest(env, hub.outbox, step.uuid, step.id, row.replyUrl.value,
                               StableStringify(ReplyPayload(env, step.id, row, step.ending, step.fields)), step.stamp);
    }
  }

  /** Deliveries and bounces rewrite one row, which keeps its ids. */
  ghost predicate RewritesOne(outbox: seq<OutboxRow>, outbox': seq<OutboxRow>, i: nat) {
    && |outbox'| == |outbox|
    && (i < |outbox| ==>
          && outbox' == outbox[i := outbox'[i]]
          && outbox'[i].id == outbox[i].id
          && outbox'[i].requestId == outbox[i].requestId
          && outbox'[i].dedupeKey == outbox[i].dedupeKey)
    && (i >= |outbox| ==> outbox' == outbox)
  }

  lemma DeliverRewritesOne(hub: Hub, id: OutboxId, stamp: int)
    ensures RewritesOne(hub.outbox, MarkSent(hub, id, stamp).0.outbox, IndexOfId(hub.outbox, id))
  {
    IndexOfIdBound(hub.outbox, id);
  }

  lemma BounceRewritesOne(env: EnvRecord, hub: Hub, id: OutboxId, error: string, retryAt: Option<real>,
                          maxAttempts: real, stamp: int)
    ensures RewritesOne(hub.outbox, MarkDeliveryFailed(env, hub, id, error, retryAt, maxAttempts, stamp).0.outbox,
                        IndexOfId(hub.outbox, id))
  {
    IndexOfIdBound(hub.outbox, id);
  }

  lemma RewriteKeepsOnePerRequest(outbox: seq<OutboxRow>, outbox': seq<OutboxRow>, i: nat)
    requires OneRowPerRequest(outbox) && RewritesOne(outbox, outbox', i)
    ensures OneRowPerRequest(outbox')
  {
    if i < |outbox| { UpdateKeepsOnePerRequest(outbox, i, outbox'[i]); }
  }

  lemma NextOnePerRequest(env: EnvRecord, w: World, step: Step)
    requires OneRowPerRequest(w.hub.outbox) && Enabled(w, step)
    ensures OneRowPerRequest(Apply(env, w.hub, step).outbox)
  {
    var outbox, outbox' := w.hub.outbox, Apply(env, w.hub, step).outbox;
    match step {
      case End(_, _, _, _, _, _, _) => EndKeepsOnePerRequest(env, w.hub, step);
      case Deliver(boxId, stamp, _) =>
        DeliverRewritesOne(w.hub, boxId, stamp);
        RewriteKeepsOnePerRequest(outbox, outbox', IndexOfId(outbox, boxId));
      case Claim(limit, leaseMs, stamp, _, failAt) => ClaimKeepsOnePerRequest(w.hub, limit, leaseMs, stamp, failAt);
      case Bounce(boxId, error, retryAt, maxAttempts, stamp, _) =>
        BounceRewritesOne(env, w.hub, boxId, error, retryAt, maxAttempts, stamp);
        RewriteKeepsOnePerRequest(outbox, outbox', IndexOfId(outbox, boxId));
      case PruneOutbox(before, _, _) => KeepOutboxAt(outbox, before);
      case _ => OtherStepsSpareOutbox(env, w.hub, step);
    }
  }

  lemma OtherStepsSpareOutbox(env: EnvRecord, hub: Hub, step: Step)
    requires step.Inbound? || step.Begin? || step.Postpone? || step.PruneReceipts?
    ensures Apply(env, hub, step).outbox == hub.outbox
  {
  }

  lemma RunStepKeepsOne(env: EnvRecord, states: seq<World>, steps: seq<Step>, k: nat)
    requires IsRun(env, states, steps) && k < |steps| && OneRowPerRequest(states[k].hub.outbox)
    ensures OneRowPerRequest(states[k + 1].hub.outbox)
  {
    OneStep(env, states, steps, k);
    NextOnePerRequest(env, states[k], steps[k]);
  }

  /** The outbox never holds two reply rows for one request. */
  lemma {:induction false} AtMostOneReplyPerRequest(env: EnvRecord, states: seq<World>, steps: seq<Step>, k: nat)
    requires IsRun(env, states, steps) && k < |states|
    ensures OneRowPerRequest(states[k].hub.outbox)
  {
    if k > 0 {
      AtMostOneReplyPerRequest(env, states, steps, k - 1);
      RunStepKeepsOne(env, states, steps, k - 1);
    }
  }

  lemma UpsertPassesSentBy(env: EnvRecord, outbox: seq<OutboxRow>, uuid: OutboxId, id: string, url: string,
                           body: string, stamp: int, i: nat)
    requires i < |outbox| && outbox[i].status == Sent
    ensures var outbox' := Upserted(env, outbox, uuid, id, url, body, stamp); i < |outbox'| && outbox'[i] == outbox[i]
  {
    IndexOfKeyBound(outbox, DedupeKey(id));
  }

  lemma ClaimPassesSentBy(hub: Hub, limit: real, leaseMs: real, stamp: int, failAt: nat, i: nat)
    requires i < |hub.outbox| && hub.outbox[i].status == Sent
    ensures var outbox := ClaimDue(hub, limit, leaseMs, stamp, failAt).0.outbox;
            i < |outbox| && outbox[i] == hub.outbox[i]
  {
    DueNumbersAreSorted(hub.outbox, |hub.outbox|, stamp, leaseMs.Floor);
  }

  /** The step prunes this sent row, or reports it as bounced in a call that is accepted. */
  predicate Unsends(step: Step, row: OutboxRow) {
    match step
    case PruneOutbox(before, _, _) => row.updatedAt < before
    case Bounce(boxId, _, retryAt, maxAttempts, _, _) =>
      boxId == row.id && maxAttempts > 0.0 && (retryAt.None? || retryAt.value >= 0.0)
    case _ => false
  }

  lemma EndPassesSentBy(env: EnvRecord, hub: Hub, step: Step, i: nat)
    requires step.End? && i < |hub.outbox| && hub.outbox[i].status == Sent
    ensures i < |Apply(env, hub, step).outbox| && Apply(env, hub, step).outbox[i] == hub.outbox[i]
  {
    if step.id in hub.dispatches && hub.dispatches[step.id].replyUrl.Some? {
      var d := hub.dispatches[step.id];
      UpsertPassesSentBy(env, hub.outbox, step.uuid, step.id, d.replyUrl.value,
                         StableStringify(ReplyPayload(env, step.id, d, step.ending, step.fields)), step.stamp, i);
    }
  }

  lemma SentRowPassedBy(env: EnvRecord, w: World, step: Step, i: nat)
    requires OneRowPerRequest(w.hub.outbox) && i < |w.hub.outbox| && w.hub.outbox[i].status == Sent
    requires !step.PruneOutbox? && !Unsends(step, w.hub.outbox[i])
    ensures i < |Apply(env, w.hub, step).outbox| && Apply(env, w.hub, step).outbox[i] == w.hub.outbox[i]
  {
    match step {
      case End(_, _, _, _, _, _, _) => EndPassesSentBy(env, w.hub, step, i);
      case Deliver(boxId, _, _) => IndexOfIdBound(w.hub.outbox, boxId);
      case Claim(limit, leaseMs, stamp, _, failAt) => ClaimPassesSentBy(w.hub, limit, leaseMs, stamp, failAt, i);
      case Bounce(boxId, _, _, _, _, _) => IndexOfIdBound(w.hub.outbox, boxId);
      case _ => OtherStepsSpareOutbox(env, w.hub, step);
    }
  }

  /** An accepted bounce leaves no sent row with that id. */
  lemma BounceUnsends(env: EnvRecord, w: World, step: Step, row: OutboxRow)
    requires OneRowPerRequest(w.hub.outbox) && row in w.hub.outbox && step.Bounce? && Unsends(step, row)
    ensures forall r :: r in Apply(env, w.hub, step).outbox && r.id == row.id ==>
              r.status == Dead || r.status == Retrying
  {
    IndexOfIdBound(w.hub.outbox, row.id);
    var i :| 0 <= i < |w.hub.outbox| && w.hub.outbox[i] == row;
    assert i == IndexOfId(w.hub.outbox, row.id);
  }

  /** A sent row is kept as it is by every step but two: a prune that finds it old enough,
      and a bounce of that very row that the hub accepts. New replies to the same request,
      claims, repeated deliveries and refused bounces pass it by. */
  lemma SentRowsStay(env: EnvRecord, states: seq<World>, steps: seq<Step>, k: nat, row: OutboxRow)
    requires IsRun(env, states, steps) && k < |steps|
    requires row in states[k].hub.outbox && row.status == Sent
    ensures row in states[k + 1].hub.outbox <==> !Unsends(steps[k], row)
  {
    AtMostOneReplyPerRequest(env, states, steps, k);
    OneStep(env, states, steps, k);
    if steps[k].PruneOutbox? {
      KeepOutboxAt(states[k].hub.outbox, steps[k].before);
    } else if Unsends(steps[k], row) {
      BounceUnsends(env, states[k], steps[k], row);
    } else {
      var i :| 0 <= i < |states[k].hub.outbox| && states[k].hub.outbox[i] == row;
      SentRowPassedBy(env, states[k], steps[k], i);
    }
  }

  /** The bounce would have the row delivered again. */
  predicate Retries(step: Step, row: OutboxRow) {
    step.Bounce? && Unsends(step, row) && step.retryAt.Some? && row.attempts < step.maxAttempts.Floor
  }

  ghost predicate IsRetrying(outbox: seq<OutboxRow>, id: OutboxId) {
    exists r :: r in outbox && r.id == id && r.status == Retrying
  }

  lemma IdsAreUnique(outbox: seq<OutboxRow>, a: OutboxRow, b: OutboxRow)
    requires OneRowPerRequest(outbox) && a in outbox && b in outbox && a.id == b.id
    ensures a == b
  {
  }

  lemma BounceOutcome(env: EnvRecord, w: World, step: Step, row: OutboxRow)
    requires OneRowPerRequest(w.hub.outbox) && row in w.hub.outbox && step.Bounce? && Unsends(step, row)
    ensures IsRetrying(Apply(env, w.hub, step).outbox, row.id) <==> Retries(step, row)
  {
    IndexOfIdBound(w.hub.outbox, row.id);
    var i :| 0 <= i < |w.hub.outbox| && w.hub.outbox[i] == row;
    assert Apply(env, w.hub, step).outbox[i] in Apply(env, w.hub, step).outbox;
  }

  /** What was sent is up for delivery again after a step exactly when the step is an
      accepted bounce of it that names a retry time and leaves it an attempt. */
  lemma SentRowIsRetriedIffBounced(env: EnvRecord, states: seq<World>, steps: seq<Step>, k: nat, row: OutboxRow)
    requires IsRun(env, states, steps) && k < |steps|
    requires row in states[k].hub.outbox && row.status == Sent
    ensures IsRetrying(states[k + 1].hub.outbox, row.id) <==> Retries(steps[k], row)
  {
    AtMostOneReplyPerRequest(env, states, steps, k);
    AtMostOneReplyPerRequest(env, states, steps, k + 1);
    OneStep(env, states, steps, k);
    if steps[k].Bounce? && Unsends(steps[k], row) {
      BounceOutcome(env, states[k], steps[k], row);
    } else if steps[k].PruneOutbox? {
      KeepOutboxAt(states[k].hub.outbox, steps[k].before);
      if IsRetrying(states[k + 1].hub.outbox, row.id) {
        var r :| r in states[k + 1].hub.outbox && r.id == row.id && r.status == Retrying;
        IdsAreUnique(states[k].hub.outbox, row, r);
      }
    } else {
      SentRowsStay(env, states, steps, k, row);
      if IsRetrying(states[k + 1].hub.outbox, row.id) {
        var r :| r in states[k + 1].hub.outbox && r.id == row.id && r.status == Retrying;
        IdsAreUnique(states[k + 1].hub.outbox, row, r);
      }
    }
  }

  /** The outbox is this one row. */
  ghost predicate HoldsOne(outbox: seq<OutboxRow>, id: OutboxId, status: OutboxStatus) {
    |outbox| == 1 && outbox[0].id == id && outbox[0].status == status && outbox[0].attempts == 0
  }

  predicate AwaitsReply(hub: Hub, id: string) {
    id in hub.dispatches && hub.dispatches[id].replyUrl.Some? && hub.outbox == []
  }

  /** A delivery that the hub accepts and that asks for a reply. */
  ghost predicate AsksForReply(env: EnvRecord, payload: Json) {
    && WellFormed(payload) && TextField(payload, "agentId") == Some(env.agentId)
    && TextField(payload, "topicId").Some? && TextField(payload, "requestId").Some?
    && TextField(payload, "replyUrl").Some?
  }

  lemma DeliveryAwaitsReply(env: EnvRecord, hub: Hub, payload: Json)
    requires AsksForReply(env, payload) && hub == Hub(map[], [], [])
    ensures AwaitsReply(Apply(env, hub, Inbound(payload, 0, 0, 2)), TextField(payload, "requestId").value)
  {
  }

  lemma EndPutsReply(env: EnvRecord, hub: Hub, id: string, uuid: OutboxId)
    requires AwaitsReply(hub, id)
    ensures HoldsOne(Apply(env, hub, End(id, Success("done"), ProofFields(None, None), uuid, 0, 0, 4)).outbox, uuid,
                     Pending)
  {
  }

  lemma DeliverSends(env: EnvRecord, hub: Hub, id: OutboxId)
    requires HoldsOne(hub.outbox, id, Pending)
    ensures HoldsOne(Apply(env, hub, Deliver(id, 0, 0)).outbox, id, Sent)
  {
  }

  lemma BounceRetries(env: EnvRecord, hub: Hub, id: OutboxId)
    requires HoldsOne(hub.outbox, id, Sent)
    ensures HoldsOne(Apply(env, hub, Bounce(id, "refused", Some(0.0), 1.0, 0, 0)).outbox, id, Retrying)
  {
  }

  lemma DeliveryIsAccepted(env: EnvRecord, payload: Json) returns (states: seq<World>, steps: seq<Step>)
    requires AsksForReply(env, payload)
    ensures IsRun(env, states, steps) && |steps| == 1 && states[1].clock == 0
    ensures AwaitsReply(states[1].hub, TextField(payload, "requestId").value)
  {
    states, steps := [World(Hub(map[], [], []), 0, [], map[])], [];
    DeliveryAwaitsReply(env, states[0].hub, payload);
    states, steps := RunGoesOn(env, states, steps, Inbound(payload, 0, 0, 2));
  }

  lemma ReplyIsQueued(env: EnvRecord, payload: Json, uuid: OutboxId) returns (states: seq<World>, steps: seq<Step>)
    requires AsksForReply(env, payload)
    ensures IsRun(env, states, steps) && |steps| == 2 && states[2].clock == 0
    ensures HoldsOne(states[2].hub.outbox, uuid, Pending)
  {
    var id := TextField(payload, "requestId").value;
    var before, done := DeliveryIsAccepted(env, payload);
    EndPutsReply(env, before[1].hub, id, uuid);
    states, steps := RunGoesOn(env, before, done, End(id, Success("done"), ProofFields(None, None), uuid, 0, 0, 4));
  }

  lemma ReplyIsSent(env: EnvRecord, payload: Json, uuid: OutboxId) returns (states: seq<World>, steps: seq<Step>)
    requires AsksForReply(env, payload)
    ensures IsRun(env, states, steps) && |steps| == 3 && states[3].clock == 0
    ensures HoldsOne(states[3].hub.outbox, uuid, Sent)
  {
    var before, done := ReplyIsQueued(env, payload, uuid);
    DeliverSends(env, before[2].hub, uuid);
    states, steps := RunGoesOn(env, before, done, Deliver(uuid, 0, 0));
  }

  /** It happens: any such delivery leads to a run whose reply was sent and is retried all
      the same. */
  lemma BounceReopensSentRow(env: EnvRecord, payload: Json, uuid: OutboxId)
    returns (states: seq<World>, steps: seq<Step>)
    requires AsksForReply(env, payload)
    ensures IsRun(env, states, steps) && |steps| == 4
    ensures HoldsOne(states[3].hub.outbox, uuid, Sent) && HoldsOne(states[4].hub.outbox, uuid, Retrying)
  {
    var sent, before := ReplyIsSent(env, payload, uuid);
    BounceRetries(env, sent[3].hub, uuid);
    states, steps := RunGoesOn(env, sent, before, Bounce(uuid, "refused", Some(0.0), 1.0, 0, 0));
    assert states[3] == states[..4][3] == sent[3];
  }

  /** The rows a claim hands over; none when it is refused. */
  function HandedOver(hub: Hub, limit: real, leaseMs: real, stamp: int, failAt: nat): seq<OutboxRow> {
    var r := ClaimDue(hub, limit, leaseMs, stamp, failAt).1;
    if r.Ok? then r.value else []
  }

  ghost predicate HandsOver(hub: Hub, step: Step, id: OutboxId)
    requires step.Claim?
  {
    exists row :: row in HandedOver(hub, step.limit, step.leaseMs, step.stamp, step.failAt) && row.id == id
  }

  /** The step claimed the row with this id. (Bound, so that the claim is not taken apart
      where the fact is passed on.) */
  ghost predicate Claims(hub: Hub, step: Step, id: OutboxId) {
    step.Claim? && forall h :: h == hub ==> HandsOver(h, step, id)
  }

  lemma ClaimIs(hub: Hub, limit: real, leaseMs: real, stamp: int, failAt: nat)
    requires HandedOver(hub, limit, leaseMs, stamp, failAt) != []
    ensures limit > 0.0
    ensures var picked := Picked(hub.outbox, stamp, limit, leaseMs);
            var after := ClaimRows(hub.outbox, picked, stamp);
            && ClaimDue(hub, limit, leaseMs, stamp, failAt).0.outbox == after
            && HandedOver(hub, limit, leaseMs, stamp, failAt) == RowsAt(after, ByAge(after, |after|, picked))
  {
  }

  lemma HandedOverWasPicked(outbox: seq<OutboxRow>, picked: RowNumbers, row: OutboxRow) returns (n: nat)
    requires row in RowsAt(outbox, ByAge(outbox, |outbox|, picked))
    ensures n < |outbox| && outbox[n] == row && n in picked
  {
    var numbers := ByAge(outbox, |outbox|, picked);
    var k :| 0 <= k < |numbers| && RowsAt(outbox, numbers)[k] == row;
    n := numbers[k];
    ClaimedComeOldestFirst(outbox, |outbox|, picked);
    assert n in numbers;
  }

  lemma PickedIsDue(outbox: seq<OutboxRow>, stamp: int, limit: real, leaseMs: real, n: nat)
    requires limit > 0.0 && n in Picked(outbox, stamp, limit, leaseMs)
    ensures n < |outbox| && IsDue(outbox[n], stamp, leaseMs.Floor)
  {
    DueNumbersAreSorted(outbox, |outbox|, stamp, leaseMs.Floor);
    assert n in DueNumbers(outbox, |outbox|, stamp, leaseMs.Floor);
  }

  lemma HandedOverIsStamped(outbox: seq<OutboxRow>, stamp: int, limit: real, leaseMs: real, row: OutboxRow)
    returns (n: nat)
    requires limit > 0.0
    requires var picked := Picked(outbox, stamp, limit, leaseMs);
             var after := ClaimRows(outbox, picked, stamp);
             row in RowsAt(after, ByAge(after, |after|, picked))
    ensures n < |outbox| && IsDue(outbox[n], stamp, leaseMs.Floor) && row == Claimed(outbox[n], stamp)
    ensures ClaimRows(outbox, Picked(outbox, stamp, limit, leaseMs), stamp)[n] == row
  {
    var picked := Picked(outbox, stamp, limit, leaseMs);
    n := HandedOverWasPicked(ClaimRows(outbox, picked, stamp), picked, row);
    PickedIsDue(outbox, stamp, limit, leaseMs, n);
  }

  /** A row handed over was due, and is the claimed form of what it was. */
  lemma ClaimStampsRow(hub: Hub, limit: real, leaseMs: real, stamp: int, failAt: nat, row: OutboxRow) returns (n: nat)
    requires row in HandedOver(hub, limit, leaseMs, stamp, failAt)
    ensures n < |hub.outbox| && IsDue(hub.outbox[n], stamp, leaseMs.Floor) && row == Claimed(hub.outbox[n], stamp)
    ensures row in ClaimDue(hub, limit, leaseMs, stamp, failAt).0.outbox
  {
    ClaimIs(hub, limit, leaseMs, stamp, failAt);
    n := HandedOverIsStamped(hub.outbox, stamp, limit, leaseMs, row);
    assert ClaimRows(hub.outbox, Picked(hub.outbox, stamp, limit, leaseMs), stamp)[n] == row;
  }

  lemma ClaimedRowWasDue(hub: Hub, step: Step, row: OutboxRow)
    requires OneRowPerRequest(hub.outbox) && Claims(hub, step, row.id) && row in hub.outbox
    ensures IsDue(row, step.stamp, step.leaseMs.Floor)
  {
    assert HandsOver(hub, step, row.id);
    var r :| r in HandedOver(hub, step.limit, step.leaseMs, step.stamp, step.failAt) && r.id == row.id;
    var n := ClaimStampsRow(hub, step.limit, step.leaseMs, step.stamp, step.failAt, r);
    IdsAreUnique(hub.outbox, row, hub.outbox[n]);
  }

  lemma ClaimedRowIsLeased(hub: Hub, next: Hub, step: Step, row: OutboxRow)
    requires step.Claim? && next == ClaimDue(hub, step.limit, step.leaseMs, step.stamp, step.failAt).0
    requires OneRowPerRequest(next.outbox) && Claims(hub, step, row.id) && row in next.outbox
    ensures row.status == Sending && row.updatedAt == step.stamp
  {
    assert HandsOver(hub, step, row.id);
    var r :| r in HandedOver(hub, step.limit, step.leaseMs, step.stamp, step.failAt) && r.id == row.id;
    var n := ClaimStampsRow(hub, step.limit, step.leaseMs, step.stamp, step.failAt, r);
    IdsAreUnique(next.outbox, row, r);
  }

  lemma ClaimStep(env: EnvRecord, states: seq<World>, steps: seq<Step>, k: nat)
    requires IsRun(env, states, steps) && k < |steps| && steps[k].Claim?
    ensures var step := steps[k];
            states[k + 1].hub == ClaimDue(states[k].hub, step.limit, step.leaseMs, step.stamp, step.failAt).0
  {
    OneStep(env, states, steps, k);
  }

  /** Two claims of one row, with no other write to it in between, are at least the
      second claim's lease apart. */
  lemma LeaseSeparatesClaims(env: EnvRecord, states: seq<World>, steps: seq<Step>, i: nat, j: nat, row: OutboxRow)
    requires IsRun(env, states, steps) && i < j < |steps|
    requires Claims(states[i].hub, steps[i], row.id) && Claims(states[j].hub, steps[j], row.id)
    requires row in states[i + 1].hub.outbox && row in states[j].hub.outbox
    ensures steps[j].stamp - steps[i].stamp >= steps[j].leaseMs.Floor
  {
    AtMostOneReplyPerRequest(env, states, steps, i + 1);
    AtMostOneReplyPerRequest(env, states, steps, j);
    ClaimStep(env, states, steps, i);
    ClaimedRowIsLeased(states[i].hub, states[i + 1].hub, steps[i], row);
    ClaimedRowWasDue(states[j].hub, steps[j], row);
  }
}
