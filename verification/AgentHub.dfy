/** AgentHubStore as it runs: three tables changed statement by statement, with
    withTransaction putting everything back when a statement fails half-way. */
module AgentHub {
  import opened Wrappers
  import opened JsonText
  import opened StableJson
  import opened HubSpec

  class AgentHubStore {
    const env: EnvRecord
    var dispatches: map<string, Dispatch>
    var outbox: seq<OutboxRow>
    var receipts: seq<ReceiptRow>

    function Tables(): Hub
      reads this
    {
      Hub(dispatches, outbox, receipts)
    }

    constructor (env: EnvRecord)
      ensures this.env == env && Tables() == Hub(map[], [], [])
    {
      this.env, dispatches, outbox, receipts := env, map[], [], [];
    }

    method Rollback(saved: Hub)
      modifies this
      ensures Tables() == saved
    {
      dispatches, outbox, receipts := saved.dispatches, saved.outbox, saved.receipts;
    }

    method AppendReceipt(requestId: string, kind: string, payload: Json, now: int)
      modifies this
      ensures Tables() == WithReceipt(env, old(Tables()), requestId, kind, payload, now)
    {
      var body := StableStringify(payload);
      var latest := Latest(receipts, requestId);
      var prevHash := if latest.Some? then Some(latest.value.receiptHash) else None;
      var receiptHash := env.hash(Line(prevHash, kind, now, body));
      receipts := receipts + [ReceiptRow(requestId, kind, body, prevHash, receiptHash, now)];
    }

    method RecordInboundDispatch(payload: Json, stamp: int, now: int, failAt: nat)
      returns (r: Result<Delivery, HubError>)
      modifies this
      ensures (Tables(), r) == RecordInbound(env, old(Tables()), payload, stamp, now, failAt)
    {
      var requestId, topicId := TextField(payload, "requestId"), TextField(payload, "topicId");
      var agentId := TextField(payload, "agentId");
      if requestId.None? || topicId.None? || agentId.None? {
        return Err(MissingField);
      }
      if agentId.value != env.agentId {
        return Err(WrongAgent);
      }
      var id := requestId.value;
      var payloadHash := env.hash(StableStringify(payload));
      if id in dispatches {
        var row := dispatches[id];
        if row.payloadHash.Some? && row.payloadHash.value != "" && row.payloadHash.value != payloadHash {
          return Err(HashConflict);
        }
        row := row.(duplicateCount := row.duplicateCount + 1, lastSeenAt := stamp);
        if row.payloadHash.None? {
          row := row.(payloadHash := Some(payloadHash));
        }
        dispatches := dispatches[id := row];
        return Ok(Delivery(id, true, payloadHash));
      }
      var saved := Tables();
      if failAt == 0 {
        return Err(Fault);
      }
      dispatches := dispatches[id := NewDispatch(env, payload, topicId.value, stamp)];
      if failAt == 1 {
        Rollback(saved);
        return Err(Fault);
      }
      AppendReceipt(id, "dispatch_received", ReceivedPayload(id, topicId.value, agentId.value, payloadHash), now);
      return Ok(Delivery(id, false, payloadHash));
    }

    method MarkDispatchRunning(id: string, stamp: int, now: int, failAt: nat) returns (r: Result<(), HubError>)
      modifies this
      ensures (Tables(), r) == MarkRunning(env, old(Tables()), id, stamp, now, failAt)
    {
      var saved := Tables();
      if failAt == 0 {
        return Err(Fault);
      }
      if id !in dispatches {
        return Err(UnknownDispatch);
      }
      var row := dispatches[id];
      if row.startedAt.None? {
        row := row.(startedAt := Some(stamp));
      }
      row := row.(status := InProgress, runtimeAttempts := row.runtimeAttempts + 1,
                  lastRuntimeStartedAt := Some(stamp), replayAfter := None, error := None);
      dispatches := dispatches[id := row];
      if failAt == 1 {
        Rollback(saved);
        return Err(Fault);
      }
      AppendReceipt(id, "runtime_started", StartedPayload(id, dispatches[id].runtimeAttempts, stamp), now);
      return Ok(());
    }

    method ScheduleDispatchReplay(id: string, replayAfter: real) returns (r: Result<(), HubError>)
      modifies this
      ensures (Tables(), r) == ScheduleReplay(old(Tables()), id, replayAfter)
    {
      if replayAfter < 0.0 {
        return Err(BadArgument);
      }
      if id !in dispatches {
        return Err(UnknownDispatch);
      }
      dispatches := dispatches[id := dispatches[id].(replayAfter := Some(replayAfter.Floor))];
      return Ok(());
    }

    method UpsertOutboxReply(uuid: OutboxId, id: string, url: string, body: string, stamp: int)
      returns (outboxId: OutboxId)
      modifies this
      ensures Tables() == old(Tables()).(outbox := Upserted(env, old(outbox), uuid, id, url, body, stamp))
      ensures var i := IndexOfKey(outbox, DedupeKey(id)); i < |outbox| && outboxId == outbox[i].id
    {
      var i := IndexOfKey(outbox, DedupeKey(id));
      IndexOfKeyBound(outbox, DedupeKey(id));
      if i == |outbox| {
        outbox := outbox + [OutboxRow(uuid, id, DedupeKey(id), url, body, env.hash(body), Pending, 0, None, None,
                                      stamp, stamp, None)];
      } else if outbox[i].status != Sent {
        var row := outbox[i].(targetUrl := url, payload := body, payloadHash := env.hash(body));
        row := row.(status := Pending, attempts := 0, nextAttemptAt := None, updatedAt := stamp, lastError := None);
        outbox := outbox[i := row];
      }
      IndexOfKeyBound(outbox, DedupeKey(id));
      assert outbox[i].dedupeKey == DedupeKey(id);
      return outbox[IndexOfKey(outbox, DedupeKey(id))].id;
    }

    /** markDispatchSucceeded and markDispatchFailed, told apart by `ending`. */
    method MarkDispatchEnded(id: string, ending: Ending, fields: ProofFields, uuid: OutboxId, stamp: int, now: int,
                             failAt: nat)
      returns (r: Result<Option<OutboxId>, HubError>)
      modifies this
      ensures (Tables(), r) == MarkEnded(env, old(Tables()), id, ending, fields, uuid, stamp, now, failAt)
    {
      var saved := Tables();
      if failAt == 0 {
        return Err(Fault);
      }
      if id !in dispatches {
        return Err(UnknownDispatch);
      }
      var row := dispatches[id];
      var outboxId := None;
      var statement := 1;
      if row.replyUrl.Some? {
        if failAt == 1 {
          return Err(Fault);
        }
        var body := StableStringify(ReplyPayload(env, id, row, ending, fields));
        var boxed := UpsertOutboxReply(uuid, id, row.replyUrl.value, body, stamp);
        outboxId, statement := Some(boxed), 2;
      }
      if failAt == statement {
        Rollback(saved);
        return Err(Fault);
      }
      dispatches := dispatches[id := Ended(env, row, ending, stamp)];
      if failAt == statement + 1 {
        Rollback(saved);
        return Err(Fault);
      }
      AppendReceipt(id, EndingKind(ending), EndedPayload(env, id, ending, stamp, outboxId), now);
      return Ok(outboxId);
    }

    method MarkOutboxSent(id: OutboxId, stamp: int) returns (r: Result<(), HubError>)
      modifies this
      ensures (Tables(), r) == MarkSent(old(Tables()), id, stamp)
    {
      var i := IndexOfId(outbox, id);
      IndexOfIdBound(outbox, id);
      if i == |outbox| {
        return Err(UnknownOutbox);
      }
      if outbox[i].status == Sent {
        return Ok(());
      }
      outbox := outbox[i := outbox[i].(status := Sent, sentAt := Some(stamp), updatedAt := stamp, lastError := None)];
      return Ok(());
    }

    method ClaimDueOutbox(limit: real, leaseMs: real, stamp: int, failAt: nat)
      returns (r: Result<seq<OutboxRow>, HubError>)
      modifies this
      ensures (Tables(), r) == ClaimDue(old(Tables()), limit, leaseMs, stamp, failAt)
    {
      if limit <= 0.0 || leaseMs <= 0.0 {
        return Err(BadArgument);
      }
      var saved := Tables();
      if failAt == 0 {
        return Err(Fault);
      }
      var rows := Picked(outbox, stamp, limit, leaseMs);
      PickedAreDistinct(outbox, stamp, limit, leaseMs);
      for k := 0 to |rows|
        invariant |outbox| == |saved.outbox| && dispatches == saved.dispatches && receipts == saved.receipts
        invariant failAt > k
        invariant forall i :: 0 <= i < |outbox| ==>
                    outbox[i] == if i in rows[..k] then Claimed(saved.outbox[i], stamp) else saved.outbox[i]
      {
        if failAt == k + 1 {
          Rollback(saved);
          return Err(Fault);
        }
        var i := rows[k];
        assert rows[..k + 1] == rows[..k] + [i];
        outbox := outbox[i := outbox[i].(status := Sending, attempts := outbox[i].attempts + 1,
                                         nextAttemptAt := None, updatedAt := stamp)];
      }
      assert rows[..|rows|] == rows;
      assert outbox == ClaimRows(saved.outbox, rows, stamp);
      if rows == [] {
        NothingByAge(outbox, |outbox|);
        return Ok([]);
      }
      if failAt == 1 + |rows| {
        Rollback(saved);
        return Err(Fault);
      }
      return Ok(RowsAt(outbox, ByAge(outbox, |outbox|, rows)));
    }

    method MarkOutboxDeliveryFailed(id: OutboxId, error: string, retryAt: Option<real>, maxAttempts: real, stamp: int)
      returns (r: Result<(), HubError>)
      modifies this
      ensures (Tables(), r) == MarkDeliveryFailed(env, old(Tables()), id, error, retryAt, maxAttempts, stamp)
    {
      if maxAttempts <= 0.0 {
        return Err(BadArgument);
      }
      if retryAt.Some? && retryAt.value < 0.0 {
        return Err(BadArgument);
      }
      var i := IndexOfId(outbox, id);
      IndexOfIdBound(outbox, id);
      if i == |outbox| {
        return Err(UnknownOutbox);
      }
      var exhausted := outbox[i].attempts >= maxAttempts.Floor;
      var row := outbox[i].(lastError := Some(env.redact(error)), updatedAt := stamp);
      if retryAt.None? || exhausted {
        row := row.(status := Dead, nextAttemptAt := None);
      } else {
        row := row.(status := Retrying, nextAttemptAt := Some(retryAt.value.Floor));
      }
      outbox := outbox[i := row];
      return Ok(());
    }

    method PruneTerminalOutbox(before: int)
      modifies this
      ensures Tables() == old(Tables()).(outbox := KeepOutbox(old(outbox), before))
    {
      var kept := [];
      for i := 0 to |outbox|
        invariant kept == KeepOutbox(outbox[..i], before)
      {
        assert outbox[..i + 1][..i] == outbox[..i];
        if !Prunable(outbox[i], before) {
          kept := kept + [outbox[i]];
        }
      }
      assert outbox[..|outbox|] == outbox;
      outbox := kept;
    }

    method PruneOldReceipts(before: int)
      modifies this
      ensures Tables() == old(Tables()).(receipts := KeepReceipts(old(receipts), before))
    {
      var kept := [];
      for i := 0 to |receipts|
        invariant kept == KeepReceipts(receipts[..i], before)
      {
        assert receipts[..i + 1][..i] == receipts[..i];
        if receipts[i].createdAt >= before {
          kept := kept + [receipts[i]];
        }
      }
      assert receipts[..|receipts|] == receipts;
      receipts := kept;
    }
  }

  lemma PickedAreDistinct(outbox: seq<OutboxRow>, stamp: int, limit: real, leaseMs: real)
    requires limit > 0.0
    ensures var p := Picked(outbox, stamp, limit, leaseMs); forall i, j :: 0 <= i < j < |p| ==> p[i] != p[j]
  {
    DueNumbersAreSorted(outbox, |outbox|, stamp, leaseMs.Floor);
  }

  ghost predicate EarliestFirst(outbox: seq<OutboxRow>, numbers: RowNumbers)
    requires InRange(outbox, numbers)
  {
    forall i, j :: 0 <= i < j < |numbers| ==> Earlier(outbox, numbers[i], numbers[j])
  }

  lemma {:induction false} InsertKeepsOrder(outbox: seq<OutboxRow>, i: nat, numbers: RowNumbers)
    requires i < |outbox| && InRange(outbox, numbers) && EarliestFirst(outbox, numbers) && i !in numbers
    ensures EarliestFirst(outbox, InsertEarliest(outbox, i, numbers))
    ensures forall n :: n in InsertEarliest(outbox, i, numbers) <==> n == i || n in numbers
  {
    if numbers != [] {
      var head, tail := numbers[0], numbers[1..];
      assert numbers == [head] + tail;
      if !Earlier(outbox, i, head) {
        InsertKeepsOrder(outbox, i, tail);
        var rest := InsertEarliest(outbox, i, tail);
        forall k | 0 <= k < |rest| ensures Earlier(outbox, head, rest[k]) {
          assert rest[k] in rest;
          if rest[k] in tail {
            var m :| 0 <= m < |tail| && tail[m] == rest[k];
            assert numbers[m + 1] == rest[k];
          }
        }
      }
    }
  }

  /** The due rows among the first `n`, each once, the earliest first. */
  ghost predicate SortedDue(outbox: seq<OutboxRow>, n: nat, numbers: RowNumbers, stamp: int, lease: int)
    requires n <= |outbox|
  {
    && InRange(outbox, numbers) && EarliestFirst(outbox, numbers)
    && forall i :: i in numbers <==> 0 <= i < n && IsDue(outbox[i], stamp, lease)
  }

  /** The same, bound, so that it is not unfolded where it is passed on. */
  ghost predicate AreSortedDue(outbox: seq<OutboxRow>, n: nat, numbers: RowNumbers, stamp: int, lease: int)
    requires n <= |outbox|
  {
    InRange(outbox, numbers) && forall x :: x == numbers ==> SortedDue(outbox, n, x, stamp, lease)
  }

  lemma InsertKeepsSortedDue(outbox: seq<OutboxRow>, n: nat, numbers: RowNumbers, stamp: int, lease: int)
    requires n < |outbox| && AreSortedDue(outbox, n, numbers, stamp, lease)
    ensures var grown := if IsDue(outbox[n], stamp, lease) then InsertEarliest(outbox, n, numbers) else numbers;
            AreSortedDue(outbox, n + 1, grown, stamp, lease)
  {
    assert SortedDue(outbox, n, numbers, stamp, lease);
    if IsDue(outbox[n], stamp, lease) { InsertKeepsOrder(outbox, n, numbers); }
  }

  lemma {:induction false} DueNumbersSort(outbox: seq<OutboxRow>, n: nat, stamp: int, lease: int)
    requires n <= |outbox|
    ensures AreSortedDue(outbox, n, DueNumbers(outbox, n, stamp, lease), stamp, lease)
  {
    if n > 0 {
      DueNumbersSort(outbox, n - 1, stamp, lease);
      InsertKeepsSortedDue(outbox, n - 1, DueNumbers(outbox, n - 1, stamp, lease), stamp, lease);
    }
  }

  lemma DueNumbersAreSorted(outbox: seq<OutboxRow>, n: nat, stamp: int, lease: int)
    requires n <= |outbox|
    ensures SortedDue(outbox, n, DueNumbers(outbox, n, stamp, lease), stamp, lease)
  {
    DueNumbersSort(outbox, n, stamp, lease);
    assert SortedDue(outbox, n, DueNumbers(outbox, n, stamp, lease), stamp, lease);
  }

  // ----- What a claim gives back -----

  lemma {:induction false} NothingByAge(outbox: seq<OutboxRow>, n: nat)
    requires n <= |outbox|
    ensures ByAge(outbox, n, []) == []
  {
    if n > 0 { NothingByAge(outbox, n - 1); }
  }

  /** Oldest first, rows of one age in the order of the table; hence no row twice. */
  ghost predicate OldestFirst(outbox: seq<OutboxRow>, numbers: RowNumbers)
    requires InRange(outbox, numbers)
  {
    forall i, j :: 0 <= i < j < |numbers| ==>
      var a, b := outbox[numbers[i]].createdAt, outbox[numbers[j]].createdAt;
      a < b || (a == b && numbers[i] < numbers[j])
  }

  lemma {:induction false} InsertKeepsAge(outbox: seq<OutboxRow>, i: nat, numbers: RowNumbers)
    requires i < |outbox| && InRange(outbox, numbers) && OldestFirst(outbox, numbers)
    requires forall k :: 0 <= k < |numbers| ==> numbers[k] < i
    ensures OldestFirst(outbox, InsertByAge(outbox, i, numbers))
    ensures forall n :: n in InsertByAge(outbox, i, numbers) <==> n == i || n in numbers
  {
    if numbers != [] {
      var head, tail := numbers[0], numbers[1..];
      assert numbers == [head] + tail;
      if outbox[i].createdAt >= outbox[head].createdAt {
        InsertKeepsAge(outbox, i, tail);
        HeadStaysOldest(outbox, head, tail, InsertByAge(outbox, i, tail), i);
      }
    }
  }

  lemma HeadStaysOldest(outbox: seq<OutboxRow>, head: nat, tail: RowNumbers, grown: RowNumbers, i: nat)
    requires head < i < |outbox| && InRange(outbox, tail) && InRange(outbox, grown)
    requires OldestFirst(outbox, [head] + tail) && OldestFirst(outbox, grown)
    requires outbox[i].createdAt >= outbox[head].createdAt && forall n :: n in grown <==> n == i || n in tail
    ensures OldestFirst(outbox, [head] + grown)
  {
    forall k | 0 <= k < |grown|
      ensures outbox[head].createdAt < outbox[grown[k]].createdAt
              || (outbox[head].createdAt == outbox[grown[k]].createdAt && head < grown[k])
    {
      assert grown[k] in grown;
      if grown[k] != i {
        var m :| 0 <= m < |tail| && tail[m] == grown[k];
        assert ([head] + tail)[0] == head && ([head] + tail)[m + 1] == grown[k];
      }
    }
  }

  /** A claim hands over exactly the rows it picked, oldest first. */
  lemma {:induction false} ClaimedComeOldestFirst(outbox: seq<OutboxRow>, n: nat, picked: RowNumbers)
    requires n <= |outbox|
    ensures OldestFirst(outbox, ByAge(outbox, n, picked))
    ensures forall i :: i in ByAge(outbox, n, picked) <==> 0 <= i < n && i in picked
  {
    if n > 0 {
      ClaimedComeOldestFirst(outbox, n - 1, picked);
      var rest := ByAge(outbox, n - 1, picked);
      forall k | 0 <= k < |rest| ensures rest[k] < n - 1 { assert rest[k] in rest; }
      if n - 1 in picked { InsertKeepsAge(outbox, n - 1, rest); }
    }
  }

  /** A claim takes due rows only, as many as allowed, and never passes over a row that
      became due earlier than one it takes. */
  lemma ClaimTakesTheEarliest(outbox: seq<OutboxRow>, stamp: int, limit: real, leaseMs: real)
    requires limit > 0.0
    ensures var p := Picked(outbox, stamp, limit, leaseMs);
            var due := set i | 0 <= i < |outbox| && IsDue(outbox[i], stamp, leaseMs.Floor);
            && InRange(outbox, p)
            && (forall i :: i in p ==> i in due)
            && |p| == (if limit.Floor < |due| then limit.Floor else |due|)
            && (forall i, j :: i in p && j in due && j !in p ==> i < |outbox| && Earlier(outbox, i, j))
  {
    var due := set i | 0 <= i < |outbox| && IsDue(outbox[i], stamp, leaseMs.Floor);
    var numbers := DueNumbers(outbox, |outbox|, stamp, leaseMs.Floor);
    var p := Picked(outbox, stamp, limit, leaseMs);
    DueNumbersAreSorted(outbox, |outbox|, stamp, leaseMs.Floor);
    DistinctCount(outbox, numbers, due);
    forall i, j | i in p && j in due && j !in p ensures i < |outbox| && Earlier(outbox, i, j) {
      var k :| 0 <= k < |p| && p[k] == i;
      var m :| 0 <= m < |numbers| && numbers[m] == j;
      assert numbers[k] == i && k < |p| <= m;
    }
  }

  lemma {:induction false} DistinctCount(outbox: seq<OutboxRow>, numbers: RowNumbers, members: set<int>)
    requires InRange(outbox, numbers) && EarliestFirst(outbox, numbers)
    requires forall i :: i in members <==> i >= 0 && i in numbers
    ensures |members| == |numbers|
    decreases |numbers|
  {
    if numbers == [] {
      forall i ensures i !in members { }
      assert members == {};
    } else {
      var head, tail := numbers[0], numbers[1..];
      assert numbers == [head] + tail;
      assert head !in tail by {
        forall k | 0 <= k < |tail| ensures tail[k] != head { assert numbers[k + 1] == tail[k]; }
      }
      DistinctCount(outbox, tail, members - {head});
    }
  }
}
