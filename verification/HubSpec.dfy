/** The per-agent hub (src/services/AgentHubStore.ts) as functions on its three tables.
    A table with rowids is a sequence in rowid order. Operations that run in a
    transaction take the number of the SQL statement that fails, if any: `failAt` at or
    above the number of statements means none does. */
module HubSpec {
  import opened Wrappers
  import opened JsonText
  import opened StableJson
  import opened Texts

  datatype DispatchStatus = Accepted | InProgress | Succeeded | Failed

  datatype Dispatch = Dispatch(
    topicId: string,
    status: DispatchStatus,
    receivedAt: int,
    startedAt: Option<int>,
    completedAt: Option<int>,
    payload: Json,
    payloadHash: Option<string>,
    replyUrl: Option<string>,
    replyContent: Option<string>,
    error: Option<string>,
    duplicateCount: nat,
    lastSeenAt: int,
    runtimeAttempts: nat,
    lastRuntimeStartedAt: Option<int>,
    replayAfter: Option<int>)

  datatype OutboxStatus = Pending | Sending | Sent | Retrying | Dead

  type OutboxId = nat

  datatype OutboxRow = OutboxRow(
    id: OutboxId,
    requestId: string,
    dedupeKey: string,
    targetUrl: string,
    payload: string,
    payloadHash: string,
    status: OutboxStatus,
    attempts: nat,
    nextAttemptAt: Option<int>,
    lastError: Option<string>,
    createdAt: int,
    updatedAt: int,
    sentAt: Option<int>)

  datatype ReceiptRow = ReceiptRow(
    requestId: string,
    kind: string,
    payload: string,
    prevHash: Option<string>,
    receiptHash: string,
    createdAt: int)

  datatype Hub = Hub(dispatches: map<string, Dispatch>, outbox: seq<OutboxRow>, receipts: seq<ReceiptRow>)

  datatype HubError = MissingField | WrongAgent | HashConflict | UnknownDispatch | UnknownOutbox | BadArgument | Fault

  /** The hub's agent, SHA-256, the redaction of secrets and the reply proof. */
  datatype EnvRecord = EnvRecord(
    agentId: string,
    hash: string -> string,
    redact: string -> string,
    proof: (string, string, string) -> string)

  /** A hash is rendered in hexadecimal: some text without a line break. */
  ghost predicate HexLike(hash: string -> string) {
    forall s :: hash(s) != "" && OneLine(hash(s))
  }

  // ----- Fields of a payload -----

  function Field(v: Json, key: string): Option<Json> {
    if !v.Obj? then None else FieldOf(v.members, key)
  }

  function FieldOf(members: seq<Member>, key: string): Option<Json> {
    if members == [] then None
    else if members[0].key == key then Some(members[0].value)
    else FieldOf(members[1..], key)
  }

  /** stringOrNull, and requiredString when a value is demanded. */
  function TextField(v: Json, key: string): Option<string> {
    match Field(v, key)
    case Some(Str(s)) => if Trim(s) == "" then None else Some(Trim(s))
    case _ => None
  }

  function Without(members: seq<Member>, key: string): seq<Member> {
    if members == [] then []
    else (if members[0].key == key then [] else [members[0]]) + Without(members[1..], key)
  }

  function Persistable(payload: Json): Json {
    if payload.Obj? then Obj(Without(payload.members, "replyProofSecret")) else payload
  }

  // ----- appendReceipt -----

  /** ORDER BY created_at DESC, rowid DESC LIMIT 1 among the request's receipts. */
  function Latest(receipts: seq<ReceiptRow>, requestId: string): Option<ReceiptRow> {
    if receipts == [] then None
    else
      var rest, last := Latest(receipts[..|receipts| - 1], requestId), receipts[|receipts| - 1];
      if last.requestId != requestId then rest
      else if rest.Some? && rest.value.createdAt > last.createdAt then rest
      else Some(last)
  }

  function Line(prevHash: Option<string>, kind: string, createdAt: int, payload: string): string {
    (if prevHash.Some? then prevHash.value else "") + "\n" + (kind + "\n" + (Decimal(createdAt) + "\n" + payload))
  }

  function NewReceipt(env: EnvRecord, receipts: seq<ReceiptRow>, requestId: string, kind: string, payload: Json,
                      now: int): ReceiptRow
  {
    var latest := Latest(receipts, requestId);
    var prevHash := if latest.Some? then Some(latest.value.receiptHash) else None;
    var body := StableStringify(payload);
    ReceiptRow(requestId, kind, body, prevHash, env.hash(Line(prevHash, kind, now, body)), now)
  }

  function WithReceipt(env: EnvRecord, hub: Hub, requestId: string, kind: string, payload: Json, now: int): Hub {
    hub.(receipts := hub.receipts + [NewReceipt(env, hub.receipts, requestId, kind, payload, now)])
  }

  // ----- recordInboundDispatch -----

  datatype Delivery = Delivery(requestId: string, duplicate: bool, payloadHash: string)

  function NewDispatch(env: EnvRecord, payload: Json, topicId: string, stamp: int): Dispatch {
    Dispatch(topicId, Accepted, stamp, None, None, Stable(Persistable(payload)),
             Some(env.hash(StableStringify(payload))), TextField(payload, "replyUrl"), None, None,
             0, stamp, 0, None, None)
  }

  function ReceivedPayload(requestId: string, topicId: string, agentId: string, payloadHash: string): Json {
    Obj([Member("requestId", Str(requestId)), Member("topicId", Str(topicId)), Member("agentId", Str(agentId)),
         Member("payloadHash", Str(payloadHash)), Member("status", Str("accepted"))])
  }

  function RecordInbound(env: EnvRecord, hub: Hub, payload: Json, stamp: int, now: int, failAt: nat)
    : (Hub, Result<Delivery, HubError>)
  {
    var requestId, topicId := TextField(payload, "requestId"), TextField(payload, "topicId");
    var agentId := TextField(payload, "agentId");
    if requestId.None? || topicId.None? || agentId.None? then (hub, Err(MissingField))
    else if agentId.value != env.agentId then (hub, Err(WrongAgent))
    else
      var id, payloadHash := requestId.value, env.hash(StableStringify(payload));
      if id in hub.dispatches then
        var row := hub.dispatches[id];
        if row.payloadHash.Some? && row.payloadHash.value != "" && row.payloadHash.value != payloadHash then
          (hub, Err(HashConflict))
        else
          (hub.(dispatches := hub.dispatches[id := row.(
             duplicateCount := row.duplicateCount + 1,
             lastSeenAt := stamp,
             payloadHash := if row.payloadHash.Some? then row.payloadHash else Some(payloadHash))]),
           Ok(Delivery(id, true, payloadHash)))
      else if failAt < 2 then (hub, Err(Fault))
      else
        var inserted := hub.(dispatches := hub.dispatches[id := NewDispatch(env, payload, topicId.value, stamp)]);
        (WithReceipt(env, inserted, id, "dispatch_received",
                     ReceivedPayload(id, topicId.value, agentId.value, payloadHash), now),
         Ok(Delivery(id, false, payloadHash)))
  }

  // ----- markDispatch* -----

  function Started(row: Dispatch, stamp: int): Dispatch {
    row.(status := InProgress,
         startedAt := if row.startedAt.Some? then row.startedAt else Some(stamp),
         runtimeAttempts := row.runtimeAttempts + 1,
         lastRuntimeStartedAt := Some(stamp),
         replayAfter := None,
         error := None)
  }

  function StartedPayload(id: string, attempts: nat, stamp: int): Json {
    Obj([Member("requestId", Str(id)), Member("status", Str("running")),
         Member("runtimeAttempts", Number(attempts)), Member("startedAt", Number(stamp))])
  }

  function MarkRunning(env: EnvRecord, hub: Hub, id: string, stamp: int, now: int, failAt: nat)
    : (Hub, Result<(), HubError>)
  {
    if failAt == 0 then (hub, Err(Fault))
    else if id !in hub.dispatches then (hub, Err(UnknownDispatch))
    else if failAt < 2 then (hub, Err(Fault))
    else
      var row := Started(hub.dispatches[id], stamp);
      (WithReceipt(env, hub.(dispatches := hub.dispatches[id := row]), id, "runtime_started",
                   StartedPayload(id, row.runtimeAttempts, stamp), now),
       Ok(()))
  }

  function ScheduleReplay(hub: Hub, id: string, replayAfter: real): (Hub, Result<(), HubError>) {
    if replayAfter < 0.0 then (hub, Err(BadArgument))
    else if id !in hub.dispatches then (hub, Err(UnknownDispatch))
    else
      (hub.(dispatches := hub.dispatches[id := hub.dispatches[id].(replayAfter := Some(replayAfter.Floor))]), Ok(()))
  }

  /** How a run of the runtime came out. */
  datatype Ending = Success(content: string) | Failure(error: string)

  datatype ProofFields = ProofFields(claimSessionId: Option<string>, replyProofSecret: Option<string>)

  function OrElse(a: Option<string>, b: Option<string>): Option<string> {
    if a.Some? && Trim(a.value) != "" then Some(Trim(a.value)) else b
  }

  function ReplyPayload(env: EnvRecord, id: string, row: Dispatch, ending: Ending, fields: ProofFields): Json {
    var session := OrElse(fields.claimSessionId, TextField(row.payload, "claimSessionId"));
    var secret := OrElse(fields.replyProofSecret, TextField(row.payload, "replyProofSecret"));
    var content := if ending.Success? then ending.content else env.redact(ending.error);
    Obj([Member("topicId", Str(row.topicId)), Member("agentId", Str(env.agentId)), Member("content", Str(content)),
         Member("requestId", Str(id))]
        + (if session.Some? then [Member("claimSessionId", Str(session.value))] else [])
        + (if session.Some? && secret.Some?
           then [Member("replyProof", Str(env.proof(id, session.value, secret.value)))] else [])
        + (if ending.Success? then [Member("status", Str("succeeded"))]
           else [Member("status", Str("failed")), Member("error", Str(content))]))
  }

  function DedupeKey(id: string): string {
    "reply:" + id
  }

  function IndexOfKey(outbox: seq<OutboxRow>, key: string): nat {
    if outbox == [] || outbox[0].dedupeKey == key then 0 else 1 + IndexOfKey(outbox[1..], key)
  }

  /** The INSERT … ON CONFLICT(dedupe_key) of upsertOutboxReply. */
  function Upserted(env: EnvRecord, outbox: seq<OutboxRow>, uuid: OutboxId, id: string, url: string, body: string,
                    stamp: int): seq<OutboxRow>
  {
    var i := IndexOfKey(outbox, DedupeKey(id));
    IndexOfKeyBound(outbox, DedupeKey(id));
    if i == |outbox| then
      outbox + [OutboxRow(uuid, id, DedupeKey(id), url, body, env.hash(body), Pending, 0, None, None, stamp, stamp,
                          None)]
    else if outbox[i].status == Sent then outbox
    else
      outbox[i := outbox[i].(targetUrl := url, payload := body, payloadHash := env.hash(body), status := Pending,
                             attempts := 0, nextAttemptAt := None, updatedAt := stamp, lastError := None)]
  }

  lemma IndexOfKeyBound(outbox: seq<OutboxRow>, key: string)
    ensures IndexOfKey(outbox, key) <= |outbox|
    ensures IndexOfKey(outbox, key) < |outbox| ==> outbox[IndexOfKey(outbox, key)].dedupeKey == key
    ensures forall j :: 0 <= j < IndexOfKey(outbox, key) ==> outbox[j].dedupeKey != key
  {
  }

  function Ended(env: EnvRecord, row: Dispatch, ending: Ending, stamp: int): Dispatch {
    match ending
    case Success(content) =>
      row.(status := Succeeded, completedAt := Some(stamp), replyContent := Some(content), replayAfter := None,
           error := None)
    case Failure(error) =>
      row.(status := Failed, completedAt := Some(stamp), error := Some(env.redact(error)))
  }

  function EndingKind(ending: Ending): string {
    if ending.Success? then "runtime_succeeded" else "runtime_failed"
  }

  function EndedPayload(env: EnvRecord, id: string, ending: Ending, stamp: int, outboxId: Option<OutboxId>): Json {
    var box := if outboxId.Some? then Str(Decimal(outboxId.value)) else Null;
    match ending
    case Success(content) =>
      Obj([Member("requestId", Str(id)), Member("status", Str("succeeded")), Member("completedAt", Number(stamp)),
           Member("outboxId", box), Member("replyHash", Str(env.hash(content)))])
    case Failure(error) =>
      Obj([Member("requestId", Str(id)), Member("status", Str("failed")), Member("completedAt", Number(stamp)),
           Member("error", Str(env.redact(error))), Member("outboxId", box)])
  }

  /** markDispatchSucceeded and markDispatchFailed. */
  function MarkEnded(env: EnvRecord, hub: Hub, id: string, ending: Ending, fields: ProofFields, uuid: OutboxId,
                     stamp: int, now: int, failAt: nat)
    : (Hub, Result<Option<OutboxId>, HubError>)
  {
    if failAt == 0 then (hub, Err(Fault))
    else if id !in hub.dispatches then (hub, Err(UnknownDispatch))
    else if failAt < (if hub.dispatches[id].replyUrl.None? then 3 else 4) then (hub, Err(Fault))
    else
      var row := hub.dispatches[id];
      var outbox := if row.replyUrl.None? then hub.outbox
                    else Upserted(env, hub.outbox, uuid, id, row.replyUrl.value,
                                  StableStringify(ReplyPayload(env, id, row, ending, fields)), stamp);
      IndexOfKeyBound(outbox, DedupeKey(id));
      var i := IndexOfKey(outbox, DedupeKey(id));
      var outboxId := if row.replyUrl.None? || i == |outbox| then None else Some(outbox[i].id);
      var updated := Hub(hub.dispatches[id := Ended(env, row, ending, stamp)], outbox, hub.receipts);
      (WithReceipt(env, updated, id, EndingKind(ending), EndedPayload(env, id, ending, stamp, outboxId), now),
       Ok(outboxId))
  }

  // ----- The outbox -----

  function IndexOfId(outbox: seq<OutboxRow>, id: OutboxId): nat {
    if outbox == [] || outbox[0].id == id then 0 else 1 + IndexOfId(outbox[1..], id)
  }

  lemma IndexOfIdBound(outbox: seq<OutboxRow>, id: OutboxId)
    ensures IndexOfId(outbox, id) <= |outbox|
    ensures IndexOfId(outbox, id) < |outbox| ==> outbox[IndexOfId(outbox, id)].id == id
    ensures forall j :: 0 <= j < IndexOfId(outbox, id) ==> outbox[j].id != id
  {
  }

  function MarkSent(hub: Hub, id: OutboxId, stamp: int): (Hub, Result<(), HubError>) {
    var i := IndexOfId(hub.outbox, id);
    IndexOfIdBound(hub.outbox, id);
    if i == |hub.outbox| then (hub, Err(UnknownOutbox))
    else if hub.outbox[i].status == Sent then (hub, Ok(()))
    else
      (hub.(outbox := hub.outbox[i := hub.outbox[i].(
         status := Sent, sentAt := Some(stamp), updatedAt := stamp, lastError := None)]),
       Ok(()))
  }

  function MarkDeliveryFailed(env: EnvRecord, hub: Hub, id: OutboxId, error: string, retryAt: Option<real>,
                              maxAttempts: real, stamp: int)
    : (Hub, Result<(), HubError>)
  {
    if maxAttempts <= 0.0 || (retryAt.Some? && retryAt.value < 0.0) then (hub, Err(BadArgument))
    else
      var i := IndexOfId(hub.outbox, id);
      IndexOfIdBound(hub.outbox, id);
      if i == |hub.outbox| then (hub, Err(UnknownOutbox))
      else
        var row := hub.outbox[i];
        var terminal := retryAt.None? || row.attempts >= maxAttempts.Floor;
        (hub.(outbox := hub.outbox[i := row.(
           status := if terminal then Dead else Retrying,
           nextAttemptAt := if terminal then None else Some(retryAt.value.Floor),
           lastError := Some(env.redact(error)),
           updatedAt := stamp)]),
         Ok(()))
  }

  predicate IsDue(row: OutboxRow, stamp: int, lease: int) {
    || ((row.status == Pending || row.status == Retrying)
        && (row.nextAttemptAt.None? || row.nextAttemptAt.value <= stamp))
    || (row.status == Sending && row.updatedAt <= stamp - lease)
  }

  function DueAt(row: OutboxRow): int {
    if row.nextAttemptAt.Some? then row.nextAttemptAt.value else row.createdAt
  }

  /** ORDER BY COALESCE(next_attempt_at, created_at), created_at, rowid, on row numbers. */
  predicate Earlier(outbox: seq<OutboxRow>, i: nat, j: nat)
    requires i < |outbox| && j < |outbox|
  {
    var a, b := outbox[i], outbox[j];
    DueAt(a) < DueAt(b)
    || (DueAt(a) == DueAt(b) && (a.createdAt < b.createdAt || (a.createdAt == b.createdAt && i < j)))
  }

  type RowNumbers = seq<nat>

  ghost predicate InRange(outbox: seq<OutboxRow>, numbers: RowNumbers) {
    forall k :: 0 <= k < |numbers| ==> numbers[k] < |outbox|
  }

  function InsertEarliest(outbox: seq<OutboxRow>, i: nat, numbers: RowNumbers): (r: RowNumbers)
    requires i < |outbox| && InRange(outbox, numbers)
    ensures InRange(outbox, r)
  {
    if numbers == [] then [i]
    else if Earlier(outbox, i, numbers[0]) then [i] + numbers
    else [numbers[0]] + InsertEarliest(outbox, i, numbers[1..])
  }

  /** The due row numbers among the first `n` rows, earliest due first. */
  function DueNumbers(outbox: seq<OutboxRow>, n: nat, stamp: int, lease: int): (r: RowNumbers)
    requires n <= |outbox|
    ensures InRange(outbox, r)
  {
    if n == 0 then []
    else
      var rest := DueNumbers(outbox, n - 1, stamp, lease);
      if IsDue(outbox[n - 1], stamp, lease) then InsertEarliest(outbox, n - 1, rest) else rest
  }

  function Picked(outbox: seq<OutboxRow>, stamp: int, limit: real, leaseMs: real): RowNumbers
    requires limit > 0.0
  {
    var due := DueNumbers(outbox, |outbox|, stamp, leaseMs.Floor);
    if limit.Floor < |due| then due[..limit.Floor] else due
  }

  function Claimed(row: OutboxRow, stamp: int): OutboxRow {
    row.(status := Sending, attempts := row.attempts + 1, nextAttemptAt := None, updatedAt := stamp)
  }

  function ClaimRows(outbox: seq<OutboxRow>, picked: RowNumbers, stamp: int): (r: seq<OutboxRow>)
    ensures |r| == |outbox|
    ensures forall i :: 0 <= i < |outbox| ==> r[i] == if i in picked then Claimed(outbox[i], stamp) else outbox[i]
  {
    seq(|outbox|, i requires 0 <= i < |outbox| => if i in picked then Claimed(outbox[i], stamp) else outbox[i])
  }

  function InsertByAge(outbox: seq<OutboxRow>, i: nat, numbers: RowNumbers): (r: RowNumbers)
    requires i < |outbox| && InRange(outbox, numbers)
    ensures InRange(outbox, r)
  {
    if numbers == [] then [i]
    else if outbox[i].createdAt < outbox[numbers[0]].createdAt then [i] + numbers
    else [numbers[0]] + InsertByAge(outbox, i, numbers[1..])
  }

  /** The picked among the first `n` rows, ORDER BY created_at, rowid. */
  function ByAge(outbox: seq<OutboxRow>, n: nat, picked: RowNumbers): (r: RowNumbers)
    requires n <= |outbox|
    ensures InRange(outbox, r)
  {
    if n == 0 then []
    else
      var rest := ByAge(outbox, n - 1, picked);
      if n - 1 in picked then InsertByAge(outbox, n - 1, rest) else rest
  }

  function RowsAt(outbox: seq<OutboxRow>, numbers: RowNumbers): (rows: seq<OutboxRow>)
    requires InRange(outbox, numbers)
    ensures |rows| == |numbers| && forall k :: 0 <= k < |rows| ==> rows[k] == outbox[numbers[k]]
  {
    seq(|numbers|, k requires 0 <= k < |numbers| => outbox[numbers[k]])
  }

  /** The claim as a transaction of one SELECT, one UPDATE per picked row and, when there
      is any, one SELECT of the claimed rows. */
  function ClaimDue(hub: Hub, limit: real, leaseMs: real, stamp: int, failAt: nat)
    : (Hub, Result<seq<OutboxRow>, HubError>)
  {
    if limit <= 0.0 || leaseMs <= 0.0 then (hub, Err(BadArgument))
    else
      var picked := Picked(hub.outbox, stamp, limit, leaseMs);
      if failAt < (if picked == [] then 1 else 2 + |picked|) then (hub, Err(Fault))
      else
        var outbox := ClaimRows(hub.outbox, picked, stamp);
        (hub.(outbox := outbox), Ok(RowsAt(outbox, ByAge(outbox, |outbox|, picked))))
  }

  // ----- Pruning -----

  predicate Prunable(row: OutboxRow, before: int) {
    (row.status == Sent || row.status == Dead) && row.updatedAt < before
  }

  function KeepOutbox(outbox: seq<OutboxRow>, before: int): seq<OutboxRow> {
    if outbox == [] then []
    else
      var rest := KeepOutbox(outbox[..|outbox| - 1], before);
      if Prunable(outbox[|outbox| - 1], before) then rest else rest + [outbox[|outbox| - 1]]
  }

  function KeepReceipts(receipts: seq<ReceiptRow>, before: int): seq<ReceiptRow> {
    if receipts == [] then []
    else
      var rest := KeepReceipts(receipts[..|receipts| - 1], before);
      if receipts[|receipts| - 1].createdAt < before then rest else rest + [receipts[|receipts| - 1]]
  }
}
