/** What holds of a hub over every run of its operations, failed transactions included. */
module HubRuns {
  import opened Wrappers
  import opened JsonText
  import opened StableJson
  import opened HubSpec

  datatype Step =
    | Inbound(payload: Json, stamp: int, now: int, failAt: nat)
    | Begin(id: string, stamp: int, now: int, failAt: nat)
    | Postpone(id: string, replayAfter: real, stamp: int, now: int)
    | End(id: string, ending: Ending, fields: ProofFields, uuid: OutboxId, stamp: int, now: int, failAt: nat)
    | Deliver(boxId: OutboxId, stamp: int, now: int)
    | Claim(limit: real, leaseMs: real, stamp: int, now: int, failAt: nat)
    | Bounce(boxId: OutboxId, error: string, retryAt: Option<real>, maxAttempts: real, stamp: int, now: int)
    | PruneOutbox(before: int, stamp: int, now: int)
    | PruneReceipts(before: int, stamp: int, now: int)

  function Apply(env: EnvRecord, hub: Hub, step: Step): Hub {
    match step
    case Inbound(payload, stamp, now, failAt) => RecordInbound(env, hub, payload, stamp, now, failAt).0
    case Begin(id, stamp, now, failAt) => MarkRunning(env, hub, id, stamp, now, failAt).0
    case Postpone(id, replayAfter, _, _) => ScheduleReplay(hub, id, replayAfter).0
    case End(id, ending, fields, uuid, stamp, now, failAt) =>
      MarkEnded(env, hub, id, ending, fields, uuid, stamp, now, failAt).0
    case Deliver(boxId, stamp, _) => MarkSent(hub, boxId, stamp).0
    case Claim(limit, leaseMs, stamp, _, failAt) => ClaimDue(hub, limit, leaseMs, stamp, failAt).0
    case Bounce(boxId, error, retryAt, maxAttempts, stamp, _) =>
      MarkDeliveryFailed(env, hub, boxId, error, retryAt, maxAttempts, stamp).0
    case PruneOutbox(before, _, _) => hub.(outbox := KeepOutbox(hub.outbox, before))
    case PruneReceipts(before, _, _) => hub.(receipts := KeepReceipts(hub.receipts, before))
  }

  /** The hub's tables and what happened so far: every receipt ever committed and,
      for each request, the payloads accepted for it. */
  datatype World = World(hub: Hub, clock: int, history: seq<ReceiptRow>, deliveries: map<string, seq<Json>>)

  /** The clock never goes back, objects have distinct keys and outbox ids are fresh. */
  ghost predicate Enabled(w: World, step: Step) {
    && w.clock <= step.stamp <= step.now
    && (step.Inbound? ==> WellFormed(step.payload))
    && (step.End? ==> forall i :: 0 <= i < |w.hub.outbox| ==> w.hub.outbox[i].id != step.uuid)
  }

  function DeliveriesOf(w: World, id: string): seq<Json> {
    if id in w.deliveries then w.deliveries[id] else []
  }

  ghost function Next(env: EnvRecord, w: World, step: Step): World {
    var hub := Apply(env, w.hub, step);
    World(
      hub,
      step.now,
      if step.PruneReceipts? || |hub.receipts| <= |w.hub.receipts| then w.history
      else w.history + hub.receipts[|w.hub.receipts|..],
      if step.Inbound? && RecordInbound(env, w.hub, step.payload, step.stamp, step.now, step.failAt).1.Ok? then
        var id := TextField(step.payload, "requestId").value;
        w.deliveries[id := DeliveriesOf(w, id) + [step.payload]]
      else w.deliveries)
  }

  /** One step. (The state is bound, so that a proof that only passes the fact on does not
      take the step apart.) */
  ghost predicate Follows(env: EnvRecord, w: World, step: Step, next: World) {
    forall x :: x == w ==> Enabled(x, step) && next == Next(env, x, step)
  }

  ghost predicate IsRun(env: EnvRecord, states: seq<World>, steps: seq<Step>) {
    && |states| == |steps| + 1
    && states[0] == World(Hub(map[], [], []), states[0].clock, [], map[])
    && (forall i :: 0 <= i < |steps| ==> Follows(env, states[i], steps[i], states[i + 1]))
  }

  lemma OneStep(env: EnvRecord, states: seq<World>, steps: seq<Step>, k: nat)
    requires IsRun(env, states, steps) && k < |steps|
    ensures Enabled(states[k], steps[k]) && states[k + 1] == Next(env, states[k], steps[k])
  {
    assert Follows(env, states[k], steps[k], states[k + 1]);
  }

  lemma Extends(env: EnvRecord, states: seq<World>, steps: seq<Step>, step: Step, next: World)
    requires IsRun(env, states, steps) && Follows(env, states[|steps|], step, next)
    ensures IsRun(env, states + [next], steps + [step])
  {
    var longer, more := states + [next], steps + [step];
    forall i | 0 <= i < |more| ensures Follows(env, longer[i], more[i], longer[i + 1]) {
      if i < |steps| { assert Follows(env, states[i], steps[i], states[i + 1]); }
    }
  }

  lemma RunGoesOn(env: EnvRecord, states: seq<World>, steps: seq<Step>, step: Step)
    returns (longer: seq<World>, more: seq<Step>)
    requires IsRun(env, states, steps) && Enabled(states[|steps|], step)
    ensures IsRun(env, longer, more) && more == steps + [step] && longer[..|states|] == states
    ensures longer[|more|].hub == Apply(env, states[|steps|].hub, step) && longer[|more|].clock == step.now
  {
    var next := Next(env, states[|steps|], step);
    longer, more := states + [next], steps + [step];
    Extends(env, states, steps, step, next);
  }

  // ----- Redelivery -----

  /** The row remembers the first payload accepted for it, and counts the later ones. */
  ghost predicate Remembers(env: EnvRecord, w: World, id: string)
    requires id in w.hub.dispatches
  {
    var row, accepted := w.hub.dispatches[id], DeliveriesOf(w, id);
    && accepted != []
    && WellFormed(accepted[0])
    && row.payloadHash == Some(env.hash(StableStringify(accepted[0])))
    && row.payload == Stable(Persistable(accepted[0]))
    && row.duplicateCount == |accepted| - 1
    && forall i :: 0 <= i < |accepted| ==> env.hash(StableStringify(accepted[i])) == row.payloadHash.value
  }

  ghost predicate AllRemembered(env: EnvRecord, w: World) {
    && (forall id :: id in w.hub.dispatches ==> Remembers(env, w, id))
    && (forall id :: id in w.deliveries <==> id in w.hub.dispatches)
  }

  /** The request an accepted delivery was for. */
  ghost function AcceptedId(env: EnvRecord, hub: Hub, step: Step): Option<string> {
    if step.Inbound? && RecordInbound(env, hub, step.payload, step.stamp, step.now, step.failAt).1.Ok?
    then TextField(step.payload, "requestId") else None
  }

  /** The row is still there, with what identifies its payload; it counts an accepted
      delivery and nothing else. */
  ghost predicate KeepsRow(env: EnvRecord, hub: Hub, step: Step, id: string)
    requires id in hub.dispatches
  {
    var row, after := hub.dispatches[id], Apply(env, hub, step).dispatches;
    && id in after
    && after[id].payload == row.payload
    && (row.payloadHash.Some? ==> after[id].payloadHash == row.payloadHash)
    && after[id].duplicateCount == row.duplicateCount + (if AcceptedId(env, hub, step) == Some(id) then 1 else 0)
  }

  lemma InboundKeepsRow(env: EnvRecord, hub: Hub, step: Step, id: string)
    requires step.Inbound? && id in hub.dispatches
    ensures KeepsRow(env, hub, step, id)
  {
  }

  lemma EndKeepsRow(env: EnvRecord, hub: Hub, step: Step, id: string)
    requires step.End? && id in hub.dispatches
    ensures KeepsRow(env, hub, step, id)
  {
  }

  lemma StepRow(env: EnvRecord, hub: Hub, step: Step, id: string)
    requires id in hub.dispatches
    ensures KeepsRow(env, hub, step, id)
  {
    match step {
      case Inbound(_, _, _, _) => InboundKeepsRow(env, hub, step, id);
      case Begin(_, _, _, _) =>
      case Postpone(_, _, _, _) =>
      case End(_, _, _, _, _, _, _) => EndKeepsRow(env, hub, step, id);
      case Deliver(_, _, _) =>
      case Claim(_, _, _, _, _) =>
      case Bounce(_, _, _, _, _, _) =>
      case PruneOutbox(_, _, _) =>
      case PruneReceipts(_, _, _) =>
    }
  }

  /** Rows appear by accepted deliveries only, and an accepted delivery's text has the
      hash the row keeps. */
  lemma StepNewRow(env: EnvRecord, hub: Hub, step: Step, id: string)
    requires id !in hub.dispatches
    ensures var hub' := Apply(env, hub, step);
            && (id in hub'.dispatches <==> AcceptedId(env, hub, step) == Some(id))
            && (id in hub'.dispatches ==>
                  && step.Inbound?
                  && hub'.dispatches[id].payloadHash == Some(env.hash(StableStringify(step.payload)))
                  && hub'.dispatches[id].payload == Stable(Persistable(step.payload))
                  && hub'.dispatches[id].duplicateCount == 0)
  {
    match step {
      case Inbound(_, _, _, _) =>
      case Begin(_, _, _, _) =>
      case Postpone(_, _, _, _) =>
      case End(_, _, _, _, _, _, _) =>
      case Deliver(_, _, _) =>
      case Claim(_, _, _, _, _) =>
      case Bounce(_, _, _, _, _, _) =>
      case PruneOutbox(_, _, _) =>
      case PruneReceipts(_, _, _) =>
    }
  }

  lemma AcceptedHash(env: EnvRecord, hub: Hub, step: Step, id: string)
    requires id in hub.dispatches && AcceptedId(env, hub, step) == Some(id)
    requires hub.dispatches[id].payloadHash.Some? && hub.dispatches[id].payloadHash.value != ""
    ensures env.hash(StableStringify(step.payload)) == hub.dispatches[id].payloadHash.value
  {
  }

  lemma NextRemembers(env: EnvRecord, w: World, step: Step)
    requires HexLike(env.hash) && AllRemembered(env, w) && Enabled(w, step)
    ensures AllRemembered(env, Next(env, w, step))
  {
    var hub := Apply(env, w.hub, step);
    var accepted := AcceptedId(env, w.hub, step);
    var deliveries := if accepted.Some?
                      then w.deliveries[accepted.value := DeliveriesOf(w, accepted.value) + [step.payload]]
                      else w.deliveries;
    assert Next(env, w, step).deliveries == deliveries;
    forall id | id in hub.dispatches ensures Remembers(env, Next(env, w, step), id) {
      RowRemembers(env, w, step, id);
    }
    forall id ensures id in deliveries <==> id in hub.dispatches {
      if id in w.hub.dispatches { StepRow(env, w.hub, step, id); } else { StepNewRow(env, w.hub, step, id); }
    }
  }

  lemma OldRowRemembers(env: EnvRecord, w: World, step: Step, id: string)
    requires HexLike(env.hash) && AllRemembered(env, w) && Enabled(w, step) && id in w.hub.dispatches
    ensures id in Next(env, w, step).hub.dispatches && Remembers(env, Next(env, w, step), id)
  {
    var w' := Next(env, w, step);
    assert Remembers(env, w, id);
    StepRow(env, w.hub, step, id);
    if AcceptedId(env, w.hub, step) == Some(id) {
      AcceptedHash(env, w.hub, step, id);
      assert DeliveriesOf(w', id) == DeliveriesOf(w, id) + [step.payload];
    } else {
      assert DeliveriesOf(w', id) == DeliveriesOf(w, id);
    }
  }

  lemma RowRemembers(env: EnvRecord, w: World, step: Step, id: string)
    requires HexLike(env.hash) && AllRemembered(env, w) && Enabled(w, step)
    requires id in Apply(env, w.hub, step).dispatches
    ensures Remembers(env, Next(env, w, step), id)
  {
    if id in w.hub.dispatches {
      OldRowRemembers(env, w, step, id);
    } else {
      StepNewRow(env, w.hub, step, id);
      assert DeliveriesOf(Next(env, w, step), id) == [step.payload];
    }
  }

  lemma {:induction false} RunRemembers(env: EnvRecord, states: seq<World>, steps: seq<Step>, k: nat)
    requires HexLike(env.hash) && IsRun(env, states, steps) && k < |states|
    ensures AllRemembered(env, states[k])
  {
    if k > 0 {
      RunRemembers(env, states, steps, k - 1);
      OneStep(env, states, steps, k - 1);
      NextRemembers(env, states[k - 1], steps[k - 1]);
    }
  }

  ghost predicate CollisionFree(hash: string -> string) {
    forall s, t :: hash(s) == hash(t) ==> s == t
  }

  /** A delivery that names this hub's agent, a topic and a request the hub knows. */
  ghost predicate IsRedelivery(env: EnvRecord, hub: Hub, payload: Json) {
    && TextField(payload, "agentId") == Some(env.agentId) && TextField(payload, "topicId").Some?
    && TextField(payload, "requestId").Some? && TextField(payload, "requestId").value in hub.dispatches
  }

  lemma DuplicateIsCounted(env: EnvRecord, hub: Hub, payload: Json, stamp: int, now: int, failAt: nat)
    requires IsRedelivery(env, hub, payload)
    requires hub.dispatches[TextField(payload, "requestId").value].payloadHash ==
               Some(env.hash(StableStringify(payload)))
    ensures var id := TextField(payload, "requestId").value;
            var (hub', r) := RecordInbound(env, hub, payload, stamp, now, failAt);
            && r.Ok? && r.value.duplicate && id in hub'.dispatches && hub'.receipts == hub.receipts
            && hub'.dispatches[id].duplicateCount == hub.dispatches[id].duplicateCount + 1
  {
  }

  lemma ConflictIsRefused(env: EnvRecord, hub: Hub, payload: Json, stamp: int, now: int, failAt: nat)
    requires IsRedelivery(env, hub, payload)
    requires var first := hub.dispatches[TextField(payload, "requestId").value].payloadHash;
             first.Some? && first.value != "" && first.value != env.hash(StableStringify(payload))
    ensures RecordInbound(env, hub, payload, stamp, now, failAt) == (hub, Err(HashConflict))
  {
  }

  /** A redelivery is a duplicate exactly when it equals the first payload up to the order
      of keys, `__proto__` members aside; anything else is refused and changes nothing. */
  lemma RedeliveryVerdict(env: EnvRecord, states: seq<World>, steps: seq<Step>, k: nat, payload: Json, stamp: int,
                          now: int, failAt: nat)
    requires HexLike(env.hash) && CollisionFree(env.hash) && IsRun(env, states, steps) && k < |states|
    requires WellFormed(payload) && IsRedelivery(env, states[k].hub, payload)
    ensures var id := TextField(payload, "requestId").value;
            var (hub, r) := RecordInbound(env, states[k].hub, payload, stamp, now, failAt);
            && |DeliveriesOf(states[k], id)| == states[k].hub.dispatches[id].duplicateCount + 1
            && (if Same(payload, DeliveriesOf(states[k], id)[0])
                then r.Ok? && r.value.duplicate && id in hub.dispatches
                     && hub.dispatches[id].duplicateCount == states[k].hub.dispatches[id].duplicateCount + 1
                     && hub.receipts == states[k].hub.receipts
                else r == Err(HashConflict) && hub == states[k].hub)
  {
    RunRemembers(env, states, steps, k);
    var id := TextField(payload, "requestId").value;
    assert Remembers(env, states[k], id);
    var first := DeliveriesOf(states[k], id)[0];
    SameHashIffSame(env, payload, first);
    if Same(payload, first) {
      DuplicateIsCounted(env, states[k].hub, payload, stamp, now, failAt);
    } else {
      ConflictIsRefused(env, states[k].hub, payload, stamp, now, failAt);
    }
  }

  lemma SameHashIffSame(env: EnvRecord, a: Json, b: Json)
    requires HexLike(env.hash) && CollisionFree(env.hash) && WellFormed(a) && WellFormed(b)
    ensures env.hash(StableStringify(a)) == env.hash(StableStringify(b)) <==> Same(a, b)
    ensures env.hash(StableStringify(b)) != ""
  {
    StableTextIffSame(a, b);
  }

  /** The request's row is still there with the same payload and hash. */
  ghost predicate KeepsPayload(w: World, w': World, id: string) {
    && id in w.hub.dispatches && id in w'.hub.dispatches
    && w'.hub.dispatches[id].payload == w.hub.dispatches[id].payload
    && w'.hub.dispatches[id].payloadHash == w.hub.dispatches[id].payloadHash
  }

  lemma StepKeepsPayload(env: EnvRecord, states: seq<World>, steps: seq<Step>, k: nat, id: string)
    requires HexLike(env.hash) && IsRun(env, states, steps) && k < |steps| && id in states[k].hub.dispatches
    ensures KeepsPayload(states[k], states[k + 1], id)
  {
    RunRemembers(env, states, steps, k);
    assert Remembers(env, states[k], id);
    OneStep(env, states, steps, k);
    StepRow(env, states[k].hub, steps[k], id);
  }

  /** What was stored for a request the first time is never overwritten. */
  lemma {:induction false} FirstPayloadStays(env: EnvRecord, states: seq<World>, steps: seq<Step>, j: nat, k: nat,
                                             id: string)
    requires HexLike(env.hash) && IsRun(env, states, steps) && j <= k < |states| && id in states[j].hub.dispatches
    ensures KeepsPayload(states[j], states[k], id)
    decreases k
  {
    if j < k {
      FirstPayloadStays(env, states, steps, j, k - 1, id);
      StepKeepsPayload(env, states, steps, k - 1, id);
    }
  }

  // ----- Replaying the receipts -----

  datatype Progress = Unknown | Known(status: DispatchStatus, attempts: nat)

  function Advance(p: Progress, kind: string): Progress {
    var attempts := if p.Known? then p.attempts else 0;
    if kind == "dispatch_received" then Known(Accepted, 0)
    else if kind == "runtime_started" then Known(InProgress, attempts + 1)
    else if kind == "runtime_succeeded" then Known(Succeeded, attempts)
    else Known(Failed, attempts)
  }

  /** A request's status and attempt count as its receipts tell them. */
  function Replay(history: seq<ReceiptRow>, id: string): Progress {
    if history == [] then Unknown
    else
      var before, last := Replay(history[..|history| - 1], id), history[|history| - 1];
      if last.requestId == id then Advance(before, last.kind) else before
  }

  lemma ReplayAppend(history: seq<ReceiptRow>, r: ReceiptRow, id: string)
    ensures Replay(history + [r], id) ==
            if r.requestId == id then Advance(Replay(history, id), r.kind) else Replay(history, id)
  {
    assert (history + [r])[..|history|] == history;
  }

  function ProgressOf(hub: Hub, id: string): Progress {
    if id in hub.dispatches then Known(hub.dispatches[id].status, hub.dispatches[id].runtimeAttempts) else Unknown
  }

  /** A step adds one receipt and advances its request's row by it, or it adds none and
      leaves every row's status and attempts alone. */
  ghost predicate Advances(hub: Hub, hub': Hub) {
    || (hub'.receipts == hub.receipts && forall id :: ProgressOf(hub', id) == ProgressOf(hub, id))
    || (&& |hub'.receipts| == |hub.receipts| + 1
        && hub'.receipts[..|hub.receipts|] == hub.receipts
        && var added := hub'.receipts[|hub.receipts|];
           forall id :: ProgressOf(hub', id) ==
             if id == added.requestId then Advance(ProgressOf(hub, id), added.kind) else ProgressOf(hub, id))
  }

  lemma StepAdvances(env: EnvRecord, hub: Hub, step: Step)
    requires !step.PruneReceipts?
    ensures Advances(hub, Apply(env, hub, step))
  {
    match step {
      case Inbound(_, _, _, _) => InboundAdvances(env, hub, step);
      case Begin(_, _, _, _) => BeginAdvances(env, hub, step);
      case Postpone(_, _, _, _) =>
      case End(_, _, _, _, _, _, _) => EndAdvances(env, hub, step);
      case Deliver(_, _, _) =>
      case Claim(_, _, _, _, _) =>
      case Bounce(_, _, _, _, _, _) =>
      case PruneOutbox(_, _, _) =>
    }
  }

  lemma InboundAdvances(env: EnvRecord, hub: Hub, step: Step)
    requires step.Inbound?
    ensures Advances(hub, Apply(env, hub, step))
  {
  }

  lemma BeginAdvances(env: EnvRecord, hub: Hub, step: Step)
    requires step.Begin?
    ensures Advances(hub, Apply(env, hub, step))
  {
  }

  /** An update of one row whose receipt tells it. */
  lemma ReceiptAdvances(env: EnvRecord, hub: Hub, updated: Hub, id: string, kind: string, payload: Json, now: int)
    requires updated.receipts == hub.receipts && ProgressOf(updated, id) == Advance(ProgressOf(hub, id), kind)
    requires forall other :: other != id ==> ProgressOf(updated, other) == ProgressOf(hub, other)
    ensures Advances(hub, WithReceipt(env, updated, id, kind, payload, now))
  {
  }

  /** The four kinds of receipts are told apart by their names. */
  lemma KindsAdvance(p: Progress, ending: Ending)
    ensures Advance(p, EndingKind(ending)) ==
            Known(if ending.Success? then Succeeded else Failed, if p.Known? then p.attempts else 0)
  {
  }

  lemma EndIsReceipted(env: EnvRecord, hub: Hub, step: Step)
    requires step.End? && MarkEnded(env, hub, step.id, step.ending, step.fields, step.uuid, step.stamp, step.now,
                                    step.failAt).1.Ok?
    ensures step.id in hub.dispatches
    ensures var (after, r) := MarkEnded(env, hub, step.id, step.ending, step.fields, step.uuid, step.stamp, step.now,
                                        step.failAt);
            var row := Ended(env, hub.dispatches[step.id], step.ending, step.stamp);
            after == WithReceipt(env, Hub(hub.dispatches[step.id := row], after.outbox, hub.receipts), step.id,
                                 EndingKind(step.ending),
                                 EndedPayload(env, step.id, step.ending, step.stamp, r.value), step.now)
  {
  }

  lemma EndAdvances(env: EnvRecord, hub: Hub, step: Step)
    requires step.End?
    ensures Advances(hub, MarkEnded(env, hub, step.id, step.ending, step.fields, step.uuid, step.stamp, step.now,
                                    step.failAt).0)
  {
    var (after, r) :=
      MarkEnded(env, hub, step.id, step.ending, step.fields, step.uuid, step.stamp, step.now, step.failAt);
    if r.Ok? {
      EndIsReceipted(env, hub, step);
      var row := Ended(env, hub.dispatches[step.id], step.ending, step.stamp);
      var updated := Hub(hub.dispatches[step.id := row], after.outbox, hub.receipts);
      KindsAdvance(ProgressOf(hub, step.id), step.ending);
      ReceiptAdvances(env, hub, updated, step.id, EndingKind(step.ending),
                      EndedPayload(env, step.id, step.ending, step.stamp, r.value), step.now);
    }
  }

  ghost predicate Replayed(w: World) {
    forall id :: Replay(w.history, id) == ProgressOf(w.hub, id)
  }

  lemma NextReplayed(env: EnvRecord, w: World, step: Step)
    requires Replayed(w)
    ensures Replayed(Next(env, w, step))
  {
    var hub, w' := Apply(env, w.hub, step), Next(env, w, step);
    if step.PruneReceipts? {
      forall id ensures Replay(w'.history, id) == ProgressOf(hub, id) {
        assert Replay(w.history, id) == ProgressOf(w.hub, id);
      }
    } else {
      StepAdvances(env, w.hub, step);
      forall id ensures Replay(w'.history, id) == ProgressOf(hub, id) {
        assert Replay(w.history, id) == ProgressOf(w.hub, id);
        if |hub.receipts| > |w.hub.receipts| {
          var added := hub.receipts[|w.hub.receipts|];
          assert hub.receipts[|w.hub.receipts|..] == [added];
          ReplayAppend(w.history, added, id);
        }
      }
    }
  }

  /** Every dispatch row's status and attempt count are what its receipts replay to,
      over all runs; a transaction that fails half-way leaves no trace of either. */
  lemma {:induction false} ReceiptsReplayToRows(env: EnvRecord, states: seq<World>, steps: seq<Step>, k: nat)
    requires IsRun(env, states, steps) && k < |states|
    ensures Replayed(states[k])
  {
    if k > 0 {
      ReceiptsReplayToRows(env, states, steps, k - 1);
      OneStep(env, states, steps, k - 1);
      NextReplayed(env, states[k - 1], steps[k - 1]);
    }
  }
}
