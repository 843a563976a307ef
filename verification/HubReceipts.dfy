/** Which receipt a step leaves, and which receipts a prune keeps, over every run. */
module HubReceipts {
  import opened Wrappers
  import opened JsonText
  import opened StableJson
  import opened Texts
  import opened HubSpec
  import opened HubRuns
  import opened HubSteps
  import opened HubChain

  /** A committed step about a request: the first delivery of it, or a begin or end of its run. */
  ghost predicate IsCommitted(env: EnvRecord, hub: Hub, step: Step, id: string) {
    match step
    case Inbound(_, _, _, failAt) => Asks(env, step, id) && id !in hub.dispatches && failAt >= 2
    case Begin(begun, _, _, failAt) => begun == id && id in hub.dispatches && failAt >= 2
    case End(ended, _, _, _, _, _, failAt) =>
      ended == id && id in hub.dispatches && failAt >= (if hub.dispatches[id].replyUrl.Some? then 4 else 3)
    case _ => false
  }

  function Text(key: string, value: string): Member {
    Member(key, Str(value))
  }

  /** What is told of the step, with `boxId` the reply's row if there is one. */
  ghost function Told(env: EnvRecord, hub: Hub, step: Step, id: string, boxId: Option<OutboxId>): (string, Json)
    requires IsCommitted(env, hub, step, id)
  {
    var box := Member("outboxId", if boxId.Some? then Str(Decimal(boxId.value)) else Null);
    match step
    case Inbound(payload, _, _, _) =>
      ("dispatch_received",
       Obj([Text("requestId", id), Text("topicId", TextField(payload, "topicId").value), Text("agentId", env.agentId),
            Text("payloadHash", env.hash(StableStringify(payload))), Text("status", "accepted")]))
    case Begin(_, stamp, _, _) =>
      ("runtime_started",
       Obj([Text("requestId", id), Text("status", "running"),
            Member("runtimeAttempts", Number(hub.dispatches[id].runtimeAttempts + 1)),
            Member("startedAt", Number(stamp))]))
    case End(_, ending, _, _, stamp, _, _) =>
      if ending.Success? then
        ("runtime_succeeded",
         Obj([Text("requestId", id), Text("status", "succeeded"), Member("completedAt", Number(stamp)), box,
              Text("replyHash", env.hash(ending.content))]))
      else
        ("runtime_failed",
         Obj([Text("requestId", id), Text("status", "failed"), Member("completedAt", Number(stamp)),
              Text("error", env.redact(ending.error)), box]))
    case _ => ("", Null)
  }

  /** A receipt of `id` that tells this, made at `now` after the request's stored receipts. */
  ghost predicate IsReceipt(env: EnvRecord, receipts: seq<ReceiptRow>, r: ReceiptRow, id: string, told: (string, Json),
                            now: int)
  {
    var own := Of(receipts, id);
    && r.requestId == id && r.kind == told.0 && r.payload == StableStringify(told.1) && r.createdAt == now
    && r.prevHash == (if own == [] then None else Some(own[|own| - 1].receiptHash))
    && r.receiptHash ==
       env.hash((if own == [] then "" else own[|own| - 1].receiptHash)
                + "\n" + (r.kind + "\n" + (Decimal(now) + "\n" + r.payload)))
  }

  lemma NewReceiptIs(env: EnvRecord, receipts: seq<ReceiptRow>, id: string, told: (string, Json), clock: int, now: int)
    requires InOrder(receipts, clock)
    ensures IsReceipt(env, receipts, NewReceipt(env, receipts, id, told.0, told.1, now), id, told, now)
  {
    LatestIsHead(receipts, id, clock);
  }

  ghost predicate AddsReceipt(env: EnvRecord, hub: Hub, hub': Hub, step: Step, id: string, told: (string, Json)) {
    hub'.receipts == hub.receipts + [NewReceipt(env, hub.receipts, id, told.0, told.1, step.now)]
  }

  /** The row of the request's reply after a committed end that asks for one. */
  ghost predicate IsBox(hub: Hub, hub': Hub, id: string, boxId: Option<OutboxId>)
    requires id in hub.dispatches
  {
    if hub.dispatches[id].replyUrl.None? then boxId.None?
    else boxId.Some? && exists r :: r in hub'.outbox && r.dedupeKey == "reply:" + id && r.id == boxId.value
  }

  lemma InboundReceipt(env: EnvRecord, hub: Hub, step: Step, id: string)
    requires step.Inbound? && IsCommitted(env, hub, step, id)
    ensures AddsReceipt(env, hub, Apply(env, hub, step), step, id, Told(env, hub, step, id, None))
  {
  }

  lemma BeginReceiptIs(env: EnvRecord, hub: Hub, step: Step, id: string)
    requires step.Begin? && IsCommitted(env, hub, step, id)
    ensures AddsReceipt(env, hub, Apply(env, hub, step), step, id, Told(env, hub, step, id, None))
  {
  }

  lemma EndReceipt(env: EnvRecord, hub: Hub, step: Step, id: string) returns (boxId: Option<OutboxId>)
    requires step.End? && IsCommitted(env, hub, step, id)
    ensures IsBox(hub, Apply(env, hub, step), id, boxId)
    ensures AddsReceipt(env, hub, Apply(env, hub, step), step, id, Told(env, hub, step, id, boxId))
  {
    boxId := MarkEnded(env, hub, id, step.ending, step.fields, step.uuid, step.stamp, step.now, step.failAt).1.value;
    EndIsReceipted(env, hub, step);
    var outbox := Apply(env, hub, step).outbox;
    IndexOfKeyBound(hub.outbox, DedupeKey(id));
    IndexOfKeyBound(outbox, DedupeKey(id));
    var i := IndexOfKey(outbox, DedupeKey(id));
    if hub.dispatches[id].replyUrl.Some? {
      EndUpserts(env, hub, step);
      assert outbox[IndexOfKey(hub.outbox, DedupeKey(id))].dedupeKey == DedupeKey(id);
      assert outbox[i] in outbox;
    }
  }

  /** A committed step leaves one receipt of its request, which tells what it did and names
      the newest one stored before. */
  lemma CommittedStepLeavesReceipt(env: EnvRecord, states: seq<World>, steps: seq<Step>, k: nat, id: string)
    returns (boxId: Option<OutboxId>, r: ReceiptRow)
    requires HexLike(env.hash) && IsRun(env, states, steps) && k < |steps|
    requires IsCommitted(env, states[k].hub, steps[k], id)
    ensures states[k + 1].hub.receipts == states[k].hub.receipts + [r]
    ensures steps[k].End? ==> IsBox(states[k].hub, states[k + 1].hub, id, boxId)
    ensures IsReceipt(env, states[k].hub.receipts, r, id, Told(env, states[k].hub, steps[k], id, boxId), steps[k].now)
  {
    var hub, step := states[k].hub, steps[k];
    HubChain.RunInv(env, states, steps, k);
    OneStep(env, states, steps, k);
    boxId := None;
    if step.End? {
      boxId := EndReceipt(env, hub, step, id);
    } else if step.Begin? {
      BeginReceiptIs(env, hub, step, id);
    } else {
      InboundReceipt(env, hub, step, id);
    }
    var told := Told(env, hub, step, id, boxId);
    r := NewReceipt(env, hub.receipts, id, told.0, told.1, step.now);
    NewReceiptIs(env, hub.receipts, id, told, states[k].clock, step.now);
  }

  /** No other step leaves one. */
  lemma OtherStepsLeaveNone(env: EnvRecord, states: seq<World>, steps: seq<Step>, k: nat)
    requires IsRun(env, states, steps) && k < |steps| && !steps[k].PruneReceipts?
    requires forall id :: !IsCommitted(env, states[k].hub, steps[k], id)
    ensures states[k + 1].hub.receipts == states[k].hub.receipts
  {
    OneStep(env, states, steps, k);
    match steps[k] {
      case Inbound(payload, _, _, _) =>
        var id := TextField(payload, "requestId");
        if id.Some? { assert !IsCommitted(env, states[k].hub, steps[k], id.value); }
      case Begin(id, _, _, _) => assert !IsCommitted(env, states[k].hub, steps[k], id);
      case End(id, _, _, _, _, _, _) => assert !IsCommitted(env, states[k].hub, steps[k], id);
      case Postpone(_, _, _, _) =>
      case Deliver(_, _, _) =>
      case Claim(_, _, _, _, _) =>
      case Bounce(_, _, _, _, _, _) =>
      case PruneOutbox(_, _, _) =>
      case PruneReceipts(_, _, _) =>
    }
  }

  /** A prune keeps the receipts made at `before` or later, in their order, and no others. */
  lemma PruneKeepsTheRecent(env: EnvRecord, states: seq<World>, steps: seq<Step>, k: nat) returns (n: nat)
    requires HexLike(env.hash) && IsRun(env, states, steps) && k < |steps| && steps[k].PruneReceipts?
    ensures var receipts := states[k].hub.receipts;
            && n <= |receipts| && states[k + 1].hub == states[k].hub.(receipts := receipts[n..])
            && forall i :: 0 <= i < |receipts| ==> (i >= n <==> receipts[i].createdAt >= steps[k].before)
  {
    HubChain.RunInv(env, states, steps, k);
    OneStep(env, states, steps, k);
    n := CutAt(states[k].hub.receipts, steps[k].before);
    KeepIsSuffix(states[k].hub.receipts, steps[k].before, states[k].clock);
    forall i | 0 <= i < |states[k].hub.receipts|
      ensures i >= n <==> states[k].hub.receipts[i].createdAt >= steps[k].before
    {
      CutIsExact(states[k].hub.receipts, steps[k].before, states[k].clock, i);
    }
  }
}
