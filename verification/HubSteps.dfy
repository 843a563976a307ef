/** What every step does to a request's row and to a reply's row, over all runs and in full,
    and what a reply carries. */
module HubSteps {
  import opened Wrappers
  import opened JsonText
  import opened StableJson
  import opened Texts
  import opened HubSpec
  import opened HubRuns
  import opened HubOutbox
  import opened HubClaims

  // ----- Fields -----

  lemma {:induction false} FieldIs(members: seq<Member>, key: string, v: Json)
    requires DistinctKeys(members)
    ensures FieldOf(members, key) == Some(v) <==> Member(key, v) in members
  {
    if members != [] {
      FieldIs(members[1..], key, v);
      assert members == [members[0]] + members[1..];
      assert members[0].key == key ==> forall i :: 0 <= i < |members[1..]| ==> members[1..][i] == members[i + 1];
    }
  }

  /** A text field is the trimmed value of the member of that name, unless that is blank. */
  lemma TextFieldIs(members: seq<Member>, key: string, t: string)
    requires DistinctKeys(members)
    ensures TextField(Obj(members), key) == Some(t) <==>
              t != "" && exists s :: Member(key, Str(s)) in members && Trim(s) == t
  {
    var v := FieldOf(members, key);
    if v.Some? { FieldIs(members, key, v.value); }
    forall s ensures v == Some(Str(s)) <==> Member(key, Str(s)) in members { FieldIs(members, key, Str(s)); }
  }

  lemma {:induction false} WithoutIs(members: seq<Member>, key: string)
    ensures forall m :: m in Without(members, key) <==> m in members && m.key != key
    ensures DistinctKeys(members) ==> DistinctKeys(Without(members, key))
  {
    if members != [] {
      assert members == [members[0]] + members[1..];
      WithoutIs(members[1..], key);
      if DistinctKeys(members) {
        var rest := Without(members[1..], key);
        forall j | 0 <= j < |rest| ensures rest[j].key != members[0].key {
          assert rest[j] in rest;
          var i :| 0 <= i < |members[1..]| && members[1..][i] == rest[j];
          assert members[i + 1] == rest[j];
        }
      }
    }
  }

  lemma StableHasText(members: seq<Member>, key: string, s: string)
    requires DistinctKeys(members) && key != PROTO
    ensures Member(key, Str(s)) in StableMembers(members) <==> Member(key, Str(s)) in members
  {
    var m := Member(key, Str(s));
    StableMembersAre(members);
    if m in members {
      var i :| 0 <= i < |members| && members[i] == m;
      assert Member(members[i].key, Stable(members[i].value)) in StableMembers(members);
    }
    if m in StableMembers(members) {
      var i :| 0 <= i < |members| && members[i].key != PROTO && m == Member(members[i].key, Stable(members[i].value));
      assert members[i] == m;
    }
  }

  lemma StableField(members: seq<Member>, key: string, t: string)
    requires DistinctKeys(members) && key != PROTO
    ensures TextField(Stable(Obj(members)), key) == Some(t) <==> TextField(Obj(members), key) == Some(t)
  {
    var stable := StableMembers(members);
    var sorted := Enumeration(Sort(false, stable));
    StableMembersAre(members);
    CanonicalMembers(stable);
    CanonicalIsDistinct(stable);
    TextFieldIs(members, key, t);
    TextFieldIs(sorted, key, t);
    forall s ensures Member(key, Str(s)) in members <==> Member(key, Str(s)) in sorted {
      StableHasText(members, key, s);
    }
  }

  lemma CanonicalIsDistinct(ms: seq<Member>)
    requires DistinctKeys(ms)
    ensures DistinctKeys(Enumeration(Sort(false, ms)))
  {
    var sorted := Sort(false, ms);
    SortSorts(false, ms);
    SortedHasDistinctKeys(false, sorted);
    IndicesMembers(sorted, true);
    IndicesMembers(sorted, false);
    SortSorts(true, Indices(sorted, true));
    SortedHasDistinctKeys(true, Sort(true, Indices(sorted, true)));
    var a, b := Sort(true, Indices(sorted, true)), Indices(sorted, false);
    forall i, j | 0 <= i < |a| && 0 <= j < |b| ensures a[i].key != b[j].key {
      assert a[i] in a && b[j] in b;
    }
  }

  /** What is stored of a payload has its text fields, the proof secret excepted. */
  lemma StoredField(payload: Json, key: string)
    requires WellFormed(payload) && key != PROTO
    ensures TextField(Stable(Persistable(payload)), key) ==
            if key == "replyProofSecret" then None else TextField(payload, key)
  {
    if payload.Obj? {
      var kept := Without(payload.members, "replyProofSecret");
      var stored, asked := TextField(Stable(Persistable(payload)), key), TextField(payload, key);
      WithoutIs(payload.members, "replyProofSecret");
      if stored.Some? {
        StableField(kept, key, stored.value);
        TextFieldIs(kept, key, stored.value);
        TextFieldIs(payload.members, key, stored.value);
      }
      if asked.Some? {
        StableField(kept, key, asked.value);
        TextFieldIs(kept, key, asked.value);
        TextFieldIs(payload.members, key, asked.value);
      }
    }
  }

  /** A request's row keeps the text fields of the first payload accepted for it; the proof
      secret it never has. */
  lemma RowHasFirstPayload(env: EnvRecord, states: seq<World>, steps: seq<Step>, k: nat, id: string, key: string)
    requires HexLike(env.hash) && IsRun(env, states, steps) && k < |states| && id in states[k].hub.dispatches
    requires key != PROTO
    ensures DeliveriesOf(states[k], id) != []
    ensures TextField(states[k].hub.dispatches[id].payload, key) ==
            if key == "replyProofSecret" then None else TextField(DeliveriesOf(states[k], id)[0], key)
  {
    RunRemembers(env, states, steps, k);
    assert Remembers(env, states[k], id);
    StoredField(DeliveriesOf(states[k], id)[0], key);
  }

  // ----- Requests -----

  /** The step delivers request `id` on some topic to this hub's agent. */
  ghost predicate Asks(env: EnvRecord, step: Step, id: string) {
    && step.Inbound? && TextField(step.payload, "requestId") == Some(id)
    && TextField(step.payload, "topicId").Some? && TextField(step.payload, "agentId") == Some(env.agentId)
  }

  /** What becomes of a known request's row: a redelivery with the row's hash is counted, a
      run begins or is put off, it ends well or badly; nothing else touches the row. */
  ghost function RowAfter(env: EnvRecord, step: Step, id: string, row: Dispatch): Dispatch {
    match step
    case Inbound(payload, stamp, _, _) =>
      if Asks(env, step, id) && Some(env.hash(StableStringify(payload))) == row.payloadHash
      then row.(duplicateCount := row.duplicateCount + 1, lastSeenAt := stamp) else row
    case Begin(begun, stamp, _, failAt) =>
      if begun == id && failAt >= 2
      then row.(status := InProgress, startedAt := if row.startedAt.Some? then row.startedAt else Some(stamp),
                runtimeAttempts := row.runtimeAttempts + 1, lastRuntimeStartedAt := Some(stamp),
                replayAfter := None, error := None)
      else row
    case Postpone(postponed, until, _, _) =>
      if postponed == id && until >= 0.0 then row.(replayAfter := Some(until.Floor)) else row
    case End(ended, ending, _, _, stamp, _, failAt) =>
      if ended != id || failAt < (if row.replyUrl.Some? then 4 else 3) then row
      else
        (match ending
         case Success(content) => row.(status := Succeeded, completedAt := Some(stamp),
                                       replyContent := Some(content), replayAfter := None, error := None)
         case Failure(error) => row.(status := Failed, completedAt := Some(stamp), error := Some(env.redact(error))))
    case _ => row
  }

  lemma StepRowAfter(env: EnvRecord, hub: Hub, step: Step, id: string)
    requires id in hub.dispatches && hub.dispatches[id].payloadHash.Some? && hub.dispatches[id].payloadHash.value != ""
    ensures id in Apply(env, hub, step).dispatches
    ensures Apply(env, hub, step).dispatches[id] == RowAfter(env, step, id, hub.dispatches[id])
  {
    match step {
      case Inbound(_, _, _, _) =>
      case Begin(_, _, _, _) =>
      case Postpone(_, _, _, _) =>
      case End(_, _, _, _, _, _, _) => EndRowAfter(env, hub, step, id);
      case Deliver(_, _, _) =>
      case Claim(_, _, _, _, _) =>
      case Bounce(_, _, _, _, _, _) =>
      case PruneOutbox(_, _, _) =>
      case PruneReceipts(_, _, _) =>
    }
  }

  lemma EndRowAfter(env: EnvRecord, hub: Hub, step: Step, id: string)
    requires step.End? && id in hub.dispatches
    ensures id in Apply(env, hub, step).dispatches
    ensures Apply(env, hub, step).dispatches[id] == RowAfter(env, step, id, hub.dispatches[id])
  {
  }

  lemma KnownRowAfter(env: EnvRecord, states: seq<World>, steps: seq<Step>, k: nat, id: string)
    requires HexLike(env.hash) && IsRun(env, states, steps) && k < |steps| && id in states[k].hub.dispatches
    ensures id in states[k + 1].hub.dispatches
    ensures states[k + 1].hub.dispatches[id] == RowAfter(env, steps[k], id, states[k].hub.dispatches[id])
  {
    RunRemembers(env, states, steps, k);
    assert Remembers(env, states[k], id);
    OneStep(env, states, steps, k);
    StepRowAfter(env, states[k].hub, steps[k], id);
  }

  /** A request becomes known by a delivery to this hub's agent that names request and topic
      and is committed, and by nothing else; its row starts like this. */
  lemma NewRowIs(env: EnvRecord, states: seq<World>, steps: seq<Step>, k: nat, id: string)
    requires IsRun(env, states, steps) && k < |steps| && id !in states[k].hub.dispatches
    ensures id in states[k + 1].hub.dispatches <==> Asks(env, steps[k], id) && steps[k].failAt >= 2
    ensures id in states[k + 1].hub.dispatches ==>
              var payload, stamp := steps[k].payload, steps[k].stamp;
              states[k + 1].hub.dispatches[id] ==
                Dispatch(TextField(payload, "topicId").value, Accepted, stamp, None, None,
                         Stable(Persistable(payload)), Some(env.hash(StableStringify(payload))),
                         TextField(payload, "replyUrl"), None, None, 0, stamp, 0, None, None)
  {
    OneStep(env, states, steps, k);
    StepNewRow(env, states[k].hub, steps[k], id);
  }

  // ----- Replies -----

  /** The step ends a run of request `id`, which asks for a reply, and is committed. */
  ghost predicate Answers(hub: Hub, step: Step, id: string) {
    step.End? && step.id == id && id in hub.dispatches && hub.dispatches[id].replyUrl.Some? && step.failAt >= 4
  }

  function Body(env: EnvRecord, hub: Hub, step: Step): string
    requires step.End? && step.id in hub.dispatches
  {
    StableStringify(ReplyPayload(env, step.id, hub.dispatches[step.id], step.ending, step.fields))
  }

  /** What becomes of a reply's row: it is sent, bounced, pruned or, unless sent, replaced
      by a newer answer; nothing but these and claims touches it. */
  ghost function BoxAfter(env: EnvRecord, hub: Hub, step: Step, row: OutboxRow): Option<OutboxRow> {
    match step
    case Deliver(boxId, stamp, _) =>
      Some(if boxId == row.id && row.status != Sent
           then row.(status := Sent, sentAt := Some(stamp), updatedAt := stamp, lastError := None) else row)
    case Bounce(boxId, error, retryAt, maxAttempts, stamp, _) =>
      if boxId != row.id || maxAttempts <= 0.0 || (retryAt.Some? && retryAt.value < 0.0) then Some(row)
      else
        var again := retryAt.Some? && row.attempts < maxAttempts.Floor;
        Some(row.(status := if again then Retrying else Dead,
                  nextAttemptAt := if again then Some(retryAt.value.Floor) else None,
                  lastError := Some(env.redact(error)), updatedAt := stamp))
    case PruneOutbox(before, _, _) =>
      if row.status in {Sent, Dead} && row.updatedAt < before then None else Some(row)
    case End(_, _, _, _, stamp, _, _) =>
      Some(if Answers(hub, step, row.requestId) && row.status != Sent
           then row.(targetUrl := hub.dispatches[step.id].replyUrl.value, payload := Body(env, hub, step),
                     payloadHash := env.hash(Body(env, hub, step)), status := Pending, attempts := 0,
                     nextAttemptAt := None, updatedAt := stamp, lastError := None)
           else row)
    case _ => Some(row)
  }

  ghost predicate HasRow(outbox: seq<OutboxRow>, id: OutboxId) {
    exists r :: r in outbox && r.id == id
  }

  ghost predicate Becomes(outbox: seq<OutboxRow>, row: OutboxRow, after: Option<OutboxRow>) {
    if after.Some? then after.value in outbox else !HasRow(outbox, row.id)
  }

  lemma RewrittenAt(outbox: seq<OutboxRow>, i: nat, row: OutboxRow)
    requires i < |outbox|
    ensures row in outbox[i := row]
    ensures forall r :: r in outbox && r != outbox[i] ==> r in outbox[i := row]
  {
    assert outbox[i := row][i] == row;
    forall r | r in outbox && r != outbox[i] ensures r in outbox[i := row] {
      var j :| 0 <= j < |outbox| && outbox[j] == r;
      assert outbox[i := row][j] == r;
    }
  }

  lemma DeliverBecomes(env: EnvRecord, hub: Hub, step: Step, row: OutboxRow)
    requires OneRowPerRequest(hub.outbox) && row in hub.outbox && step.Deliver?
    ensures Becomes(Apply(env, hub, step).outbox, row, BoxAfter(env, hub, step, row))
  {
    var i := IndexOfId(hub.outbox, step.boxId);
    IndexOfIdBound(hub.outbox, step.boxId);
    if i < |hub.outbox| {
      if row.id == step.boxId { IdsAreUnique(hub.outbox, row, hub.outbox[i]); }
      RewrittenAt(hub.outbox, i, MarkSent(hub, step.boxId, step.stamp).0.outbox[i]);
    }
  }

  lemma BounceBecomes(env: EnvRecord, hub: Hub, step: Step, row: OutboxRow)
    requires OneRowPerRequest(hub.outbox) && row in hub.outbox && step.Bounce?
    ensures Becomes(Apply(env, hub, step).outbox, row, BoxAfter(env, hub, step, row))
  {
    var i, after := IndexOfId(hub.outbox, step.boxId), Apply(env, hub, step).outbox;
    IndexOfIdBound(hub.outbox, step.boxId);
    if i < |hub.outbox| {
      if row.id == step.boxId { IdsAreUnique(hub.outbox, row, hub.outbox[i]); }
      RewrittenAt(hub.outbox, i, after[i]);
    }
  }

  lemma PruneBecomes(env: EnvRecord, hub: Hub, step: Step, row: OutboxRow)
    requires OneRowPerRequest(hub.outbox) && row in hub.outbox && step.PruneOutbox?
    ensures Becomes(Apply(env, hub, step).outbox, row, BoxAfter(env, hub, step, row))
  {
    KeepOutboxAt(hub.outbox, step.before);
    if HasRow(Apply(env, hub, step).outbox, row.id) {
      var r :| r in Apply(env, hub, step).outbox && r.id == row.id;
      IdsAreUnique(hub.outbox, row, r);
    }
  }

  lemma EndUpserts(env: EnvRecord, hub: Hub, step: Step)
    requires step.End?
    ensures var outbox := Apply(env, hub, step).outbox;
            if Answers(hub, step, step.id)
            then outbox == Upserted(env, hub.outbox, step.uuid, step.id, hub.dispatches[step.id].replyUrl.value,
                                    Body(env, hub, step), step.stamp)
            else outbox == hub.outbox
  {
  }

  lemma KeyFinds(outbox: seq<OutboxRow>, row: OutboxRow, id: string)
    requires OneRowPerRequest(outbox) && row in outbox
    ensures row.requestId == id <==>
              var i := IndexOfKey(outbox, DedupeKey(id)); i < |outbox| && outbox[i] == row
  {
    var i := IndexOfKey(outbox, DedupeKey(id));
    IndexOfKeyBound(outbox, DedupeKey(id));
    DedupeKeyTellsRequest(row.requestId, id);
    var j :| 0 <= j < |outbox| && outbox[j] == row;
    if i < |outbox| { DedupeKeyTellsRequest(outbox[i].requestId, id); }
  }

  lemma EndBecomes(env: EnvRecord, hub: Hub, step: Step, row: OutboxRow)
    requires OneRowPerRequest(hub.outbox) && row in hub.outbox && step.End?
    ensures Becomes(Apply(env, hub, step).outbox, row, BoxAfter(env, hub, step, row))
  {
    EndUpserts(env, hub, step);
    if Answers(hub, step, step.id) {
      var i := IndexOfKey(hub.outbox, DedupeKey(step.id));
      IndexOfKeyBound(hub.outbox, DedupeKey(step.id));
      KeyFinds(hub.outbox, row, step.id);
      if i < |hub.outbox| { RewrittenAt(hub.outbox, i, Apply(env, hub, step).outbox[i]); }
    }
  }

  lemma ReplyRowAfter(env: EnvRecord, states: seq<World>, steps: seq<Step>, k: nat, row: OutboxRow)
    requires IsRun(env, states, steps) && k < |steps| && row in states[k].hub.outbox && !steps[k].Claim?
    ensures Becomes(states[k + 1].hub.outbox, row, BoxAfter(env, states[k].hub, steps[k], row))
  {
    AtMostOneReplyPerRequest(env, states, steps, k);
    OneStep(env, states, steps, k);
    match steps[k] {
      case End(_, _, _, _, _, _, _) => EndBecomes(env, states[k].hub, steps[k], row);
      case Deliver(_, _, _) => DeliverBecomes(env, states[k].hub, steps[k], row);
      case Bounce(_, _, _, _, _, _) => BounceBecomes(env, states[k].hub, steps[k], row);
      case PruneOutbox(_, _, _) => PruneBecomes(env, states[k].hub, steps[k], row);
      case Claim(_, _, _, _, _) =>
      case _ => OtherStepsSpareOutbox(env, states[k].hub, steps[k]);
    }
  }

  /** A reply's row appears when a run of its request ends that asks for a reply, and by
      nothing else; it is pending from then on, at no particular time. */
  lemma NewReplyRow(env: EnvRecord, states: seq<World>, steps: seq<Step>, k: nat, row: OutboxRow)
    requires IsRun(env, states, steps) && k < |steps| && !steps[k].Claim?
    requires row in states[k + 1].hub.outbox && !HasRow(states[k].hub.outbox, row.id)
    ensures var hub, step := states[k].hub, steps[k];
            && Answers(hub, step, row.requestId)
            && row == OutboxRow(step.uuid, step.id, "reply:" + step.id, hub.dispatches[step.id].replyUrl.value,
                                Body(env, hub, step), env.hash(Body(env, hub, step)), Pending, 0, None, None,
                                step.stamp, step.stamp, None)
  {
    var hub, step := states[k].hub, steps[k];
    AtMostOneReplyPerRequest(env, states, steps, k);
    OneStep(env, states, steps, k);
    match step {
      case End(_, _, _, _, _, _, _) => EndAddsOne(env, hub, step, row);
      case Deliver(_, _, _) =>
        DeliverRewritesOne(hub, step.boxId, step.stamp);
        OnlyRewritten(hub, states[k + 1].hub, IndexOfId(hub.outbox, step.boxId), row);
      case Bounce(_, _, _, _, _, _) =>
        BounceRewritesOne(env, hub, step.boxId, step.error, step.retryAt, step.maxAttempts, step.stamp);
        OnlyRewritten(hub, states[k + 1].hub, IndexOfId(hub.outbox, step.boxId), row);
      case PruneOutbox(before, _, _) => KeepOutboxAt(hub.outbox, before);
      case Claim(_, _, _, _, _) =>
      case _ => OtherStepsSpareOutbox(env, hub, step);
    }
  }

  lemma OnlyRewritten(hub: Hub, hub': Hub, i: nat, row: OutboxRow)
    requires RewritesOne(hub.outbox, hub'.outbox, i) && row in hub'.outbox
    ensures HasRow(hub.outbox, row.id)
  {
    var j :| 0 <= j < |hub'.outbox| && hub'.outbox[j] == row;
    assert hub.outbox[j] in hub.outbox && hub.outbox[j].id == row.id;
  }

  lemma EndAddsOne(env: EnvRecord, hub: Hub, step: Step, row: OutboxRow)
    requires step.End? && row in Apply(env, hub, step).outbox && !HasRow(hub.outbox, row.id)
    ensures Answers(hub, step, row.requestId)
    ensures row == OutboxRow(step.uuid, step.id, "reply:" + step.id, hub.dispatches[step.id].replyUrl.value,
                             Body(env, hub, step), env.hash(Body(env, hub, step)), Pending, 0, None, None,
                             step.stamp, step.stamp, None)
  {
    EndUpserts(env, hub, step);
    var i := IndexOfKey(hub.outbox, DedupeKey(step.id));
    IndexOfKeyBound(hub.outbox, DedupeKey(step.id));
    var after := Apply(env, hub, step).outbox;
    assert forall m :: 0 <= m < |hub.outbox| ==> hub.outbox[m] in hub.outbox && after[m].id == hub.outbox[m].id;
  }

  function Maybe(key: string, text: Option<string>): seq<Member> {
    if text.Some? then [Member(key, Str(text.value))] else []
  }

  /** The members of a reply: topic, agent, content, request, then what is known of the session
      and its proof, then how it came out. */
  function Reply(topicId: string, agentId: string, content: string, requestId: string, session: Option<string>,
                 proof: Option<string>, ok: bool): Json
  {
    Obj([Member("topicId", Str(topicId)), Member("agentId", Str(agentId)), Member("content", Str(content)),
         Member("requestId", Str(requestId))]
        + Maybe("claimSessionId", session) + Maybe("replyProof", proof)
        + ([Member("status", Str(if ok then "succeeded" else "failed"))]
           + Maybe("error", if ok then None else Some(content))))
  }

  predicate IsGiven(text: Option<string>) {
    text.Some? && Trim(text.value) != ""
  }

  /** The session a reply names: the one given with it, or else the first payload's. */
  function SessionOf(first: Json, fields: ProofFields): Option<string> {
    if IsGiven(fields.claimSessionId) then Some(Trim(fields.claimSessionId.value))
    else TextField(first, "claimSessionId")
  }

  /** The proof is there if and only if a session is known and the secret is given with the
      reply: no row remembers the secret. */
  function ProofOf(env: EnvRecord, first: Json, id: string, fields: ProofFields): Option<string> {
    if SessionOf(first, fields).Some? && IsGiven(fields.replyProofSecret)
    then Some(env.proof(id, SessionOf(first, fields).value, Trim(fields.replyProofSecret.value))) else None
  }

  /** What a reply carries, in terms of the first payload accepted for its request. */
  lemma ReplyCarries(env: EnvRecord, states: seq<World>, steps: seq<Step>, k: nat)
    requires HexLike(env.hash) && IsRun(env, states, steps) && k < |steps|
    requires steps[k].End? && steps[k].id in states[k].hub.dispatches
    ensures DeliveriesOf(states[k], steps[k].id) != []
    ensures var hub, step, first := states[k].hub, steps[k], DeliveriesOf(states[k], steps[k].id)[0];
            var content := if step.ending.Success? then step.ending.content else env.redact(step.ending.error);
            Body(env, hub, step) ==
              StableStringify(Reply(hub.dispatches[step.id].topicId, env.agentId, content, step.id,
                                    SessionOf(first, step.fields), ProofOf(env, first, step.id, step.fields),
                                    step.ending.Success?))
  {
    RowHasFirstPayload(env, states, steps, k, steps[k].id, "claimSessionId");
    RowHasFirstPayload(env, states, steps, k, steps[k].id, "replyProofSecret");
    ReplyIs(env, steps[k].id, states[k].hub.dispatches[steps[k].id], steps[k].ending, steps[k].fields,
            DeliveriesOf(states[k], steps[k].id)[0]);
  }

  lemma ReplyIs(env: EnvRecord, id: string, row: Dispatch, ending: Ending, fields: ProofFields, first: Json)
    requires TextField(row.payload, "claimSessionId") == TextField(first, "claimSessionId")
    requires TextField(row.payload, "replyProofSecret") == None
    ensures var content := if ending.Success? then ending.content else env.redact(ending.error);
            ReplyPayload(env, id, row, ending, fields) ==
              Reply(row.topicId, env.agentId, content, id, SessionOf(first, fields),
                    ProofOf(env, first, id, fields), ending.Success?)
  {
    var session := OrElse(fields.claimSessionId, TextField(row.payload, "claimSessionId"));
    assert session == SessionOf(first, fields);
  }

  // ----- A queued reply is handed over -----

  /** The row is the answer that step `i` gave, waiting at no particular time. */
  ghost predicate IsQueued(env: EnvRecord, hub: Hub, step: Step, row: OutboxRow)
    requires step.End? && step.id in hub.dispatches && hub.dispatches[step.id].replyUrl.Some?
  {
    && row.requestId == step.id && row.payload == Body(env, hub, step)
    && row.targetUrl == hub.dispatches[step.id].replyUrl.value
    && row.status == Pending && row.attempts == 0 && row.nextAttemptAt.None?
  }

  lemma EndQueues(env: EnvRecord, states: seq<World>, steps: seq<Step>, i: nat) returns (row: OutboxRow)
    requires IsRun(env, states, steps) && i < |steps| && steps[i].End? && Answers(states[i].hub, steps[i], steps[i].id)
    requires forall r :: r in states[i].hub.outbox && r.requestId == steps[i].id ==> r.status != Sent
    ensures row in states[i + 1].hub.outbox && IsQueued(env, states[i].hub, steps[i], row)
  {
    var hub, step := states[i].hub, steps[i];
    var n := IndexOfKey(hub.outbox, DedupeKey(step.id));
    AtMostOneReplyPerRequest(env, states, steps, i);
    OneStep(env, states, steps, i);
    EndUpserts(env, hub, step);
    IndexOfKeyBound(hub.outbox, DedupeKey(step.id));
    row := states[i + 1].hub.outbox[n];
    if n < |hub.outbox| {
      KeyFinds(hub.outbox, hub.outbox[n], step.id);
      assert hub.outbox[n] in hub.outbox;
    }
  }

  /** The step is no claim and is not about this row. */
  predicate PassesBy(step: Step, row: OutboxRow) {
    match step
    case Claim(_, _, _, _, _) => false
    case Deliver(boxId, _, _) => boxId != row.id
    case Bounce(boxId, _, _, _, _, _) => boxId != row.id
    case End(id, _, _, _, _, _, _) => id != row.requestId
    case _ => true
  }

  lemma {:induction false} QueuedStays(env: EnvRecord, states: seq<World>, steps: seq<Step>, i: nat, j: nat,
                                       row: OutboxRow)
    requires IsRun(env, states, steps) && i <= j < |states| && row in states[i].hub.outbox && row.status == Pending
    requires forall m :: i <= m < j ==> PassesBy(steps[m], row)
    ensures row in states[j].hub.outbox
    decreases j
  {
    if i < j {
      QueuedStays(env, states, steps, i, j - 1, row);
      ReplyRowAfter(env, states, steps, j - 1, row);
    }
  }

  /** A claim that meets no fault and has room for the whole outbox. */
  ghost predicate IsFullClaim(hub: Hub, step: Step) {
    && step.Claim? && step.limit > 0.0 && step.leaseMs > 0.0
    && step.limit.Floor >= |hub.outbox| && step.failAt >= 2 + |hub.outbox|
  }

  /** The first claim after a run has ended hands its reply over, unless the reply of that
      request was sent before: with this content, to this address, on its first attempt. */
  lemma QueuedReplyIsHandedOver(env: EnvRecord, states: seq<World>, steps: seq<Step>, i: nat, j: nat)
    returns (row: OutboxRow)
    requires IsRun(env, states, steps) && i < j < |steps|
    requires steps[i].End? && Answers(states[i].hub, steps[i], steps[i].id)
    requires forall r :: r in states[i].hub.outbox && r.requestId == steps[i].id ==> r.status != Sent
    requires forall m, r :: i < m < j && r in states[i + 1].hub.outbox && r.requestId == steps[i].id ==>
               PassesBy(steps[m], r)
    requires IsFullClaim(states[j].hub, steps[j])
    ensures row in HandedOver(states[j].hub, steps[j].limit, steps[j].leaseMs, steps[j].stamp, steps[j].failAt)
    ensures row.requestId == steps[i].id && row.payload == Body(env, states[i].hub, steps[i])
    ensures row.targetUrl == states[i].hub.dispatches[steps[i].id].replyUrl.value
    ensures row.status == Sending && row.attempts == 1
  {
    var queued := EndQueues(env, states, steps, i);
    QueuedStays(env, states, steps, i + 1, j, queued);
    row := FullClaimHandsOver(env, states, steps, j, queued);
  }

  lemma FullClaimHandsOver(env: EnvRecord, states: seq<World>, steps: seq<Step>, j: nat, queued: OutboxRow)
    returns (row: OutboxRow)
    requires IsRun(env, states, steps) && j < |steps| && IsFullClaim(states[j].hub, steps[j])
    requires queued in states[j].hub.outbox && IsUp(queued, steps[j].stamp, steps[j].leaseMs)
    ensures row in HandedOver(states[j].hub, steps[j].limit, steps[j].leaseMs, steps[j].stamp, steps[j].failAt)
    ensures row == queued.(status := Sending, attempts := queued.attempts + 1, nextAttemptAt := None,
                           updatedAt := steps[j].stamp)
  {
    var numbers := ClaimTakesWhatIsUp(env, states, steps, j);
    var outbox := states[j].hub.outbox;
    var n :| 0 <= n < |outbox| && outbox[n] == queued;
    RoomForAll(outbox, n, steps[j].stamp, steps[j].limit, steps[j].leaseMs);
    var k :| 0 <= k < |numbers| && numbers[k] == n;
    row := states[j + 1].hub.outbox[n];
  }
}
