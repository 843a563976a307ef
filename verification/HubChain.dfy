/** The receipts of one request form a hash chain under a clock that never goes back, as
    long as it is never pruned down to nothing and then goes on; the head of a chain fixes
    everything before it, and pruning leaves a suffix. */
module HubChain {
  import opened Wrappers
  import opened JsonText
  import opened StableJson
  import opened HubText
  import opened Texts
  import opened HubSpec
  import opened HubRuns

  /** The request's receipts, oldest first. */
  function Of(receipts: seq<ReceiptRow>, id: string): seq<ReceiptRow> {
    if receipts == [] then []
    else
      var before, last := Of(receipts[..|receipts| - 1], id), receipts[|receipts| - 1];
      if last.requestId == id then before + [last] else before
  }

  ghost predicate Stamped(env: EnvRecord, r: ReceiptRow) {
    && OneLine(r.kind)
    && (r.prevHash.Some? ==> r.prevHash.value != "" && OneLine(r.prevHash.value))
    && r.receiptHash == env.hash(Line(r.prevHash, r.kind, r.createdAt, r.payload))
  }

  /** Each link names the hash of the one before it. */
  ghost predicate Chain(env: EnvRecord, links: seq<ReceiptRow>) {
    && (forall i :: 0 <= i < |links| ==> Stamped(env, links[i]))
    && (forall i :: 0 < i < |links| ==> links[i].prevHash == Some(links[i - 1].receiptHash))
  }

  ghost predicate InOrder(receipts: seq<ReceiptRow>, clock: int) {
    && (forall i, j :: 0 <= i < j < |receipts| ==> receipts[i].createdAt <= receipts[j].createdAt)
    && (forall i :: 0 <= i < |receipts| ==> receipts[i].createdAt <= clock)
  }

  lemma OfAppend(receipts: seq<ReceiptRow>, r: ReceiptRow, id: string)
    ensures Of(receipts + [r], id) == if r.requestId == id then Of(receipts, id) + [r] else Of(receipts, id)
  {
    assert (receipts + [r])[..|receipts|] == receipts;
  }

  lemma {:induction false} OfMembers(receipts: seq<ReceiptRow>, id: string)
    ensures forall r :: r in Of(receipts, id) ==> r in receipts && r.requestId == id
  {
    if receipts != [] { OfMembers(receipts[..|receipts| - 1], id); }
  }

  lemma {:induction false} LatestIsHead(receipts: seq<ReceiptRow>, id: string, clock: int)
    requires InOrder(receipts, clock)
    ensures Latest(receipts, id) ==
            if Of(receipts, id) == [] then None else Some(Of(receipts, id)[|Of(receipts, id)| - 1])
  {
    if receipts != [] {
      var before := receipts[..|receipts| - 1];
      LatestIsHead(before, id, clock);
      OfMembers(before, id);
    }
  }

  lemma {:induction false} NothingKept(receipts: seq<ReceiptRow>, before: int)
    requires forall r :: r in receipts ==> r.createdAt < before
    ensures KeepReceipts(receipts, before) == []
  {
    if receipts != [] { NothingKept(receipts[..|receipts| - 1], before); }
  }

  /** How many rows come before the first of those that a prune keeps. */
  function CutAt(receipts: seq<ReceiptRow>, before: int): (k: nat)
    ensures k <= |receipts|
  {
    if receipts == [] then 0
    else if receipts[|receipts| - 1].createdAt < before then |receipts|
    else CutAt(receipts[..|receipts| - 1], before)
  }

  /** They are exactly the rows older than `before`. */
  lemma {:induction false} CutIsExact(receipts: seq<ReceiptRow>, before: int, clock: int, i: nat)
    requires InOrder(receipts, clock) && i < |receipts|
    ensures i < CutAt(receipts, before) <==> receipts[i].createdAt < before
  {
    var front := receipts[..|receipts| - 1];
    if i < |front| && receipts[|front|].createdAt >= before {
      assert front[i] == receipts[i];
      CutIsExact(front, before, clock, i);
    }
  }

  /** Pruning a table in order cuts off a prefix. */
  lemma {:induction false} KeepIsSuffix(receipts: seq<ReceiptRow>, before: int, clock: int)
    requires InOrder(receipts, clock)
    ensures KeepReceipts(receipts, before) == receipts[CutAt(receipts, before)..]
  {
    if receipts != [] {
      var front, last := receipts[..|receipts| - 1], receipts[|receipts| - 1];
      if last.createdAt < before {
        NothingKept(receipts, before);
      } else {
        KeepIsSuffix(front, before, clock);
        var k := CutAt(front, before);
        assert receipts[k..] == front[k..] + [last];
      }
    }
  }

  lemma {:induction false} OfSuffix(receipts: seq<ReceiptRow>, k: nat, id: string) returns (j: nat)
    requires k <= |receipts|
    ensures j <= |Of(receipts, id)| && Of(receipts[k..], id) == Of(receipts, id)[j..]
    decreases |receipts|
  {
    if k == |receipts| {
      j := |Of(receipts, id)|;
    } else {
      var front, last := receipts[..|receipts| - 1], receipts[|receipts| - 1];
      j := OfSuffix(front, k, id);
      assert receipts[k..] == front[k..] + [last];
      OfAppend(front[k..], last, id);
    }
  }

  // ----- Over all runs -----

  ghost predicate Chains(env: EnvRecord, receipts: seq<ReceiptRow>) {
    forall id :: Chain(env, Of(receipts, id))
  }

  ghost predicate IsTail(receipts: seq<ReceiptRow>, history: seq<ReceiptRow>) {
    |receipts| <= |history| && receipts == history[|history| - |receipts|..]
  }

  ghost predicate Inv(env: EnvRecord, w: World) {
    && InOrder(w.hub.receipts, w.clock)
    && Chains(env, w.hub.receipts)
    && IsTail(w.hub.receipts, w.history)
  }

  /** `r` is what appendReceipt adds to `receipts` at time `now`. */
  ghost predicate Appendable(env: EnvRecord, receipts: seq<ReceiptRow>, r: ReceiptRow, now: int) {
    && OneLine(r.kind) && r.createdAt == now
    && var latest := Latest(receipts, r.requestId);
       && r.prevHash == (if latest.Some? then Some(latest.value.receiptHash) else None)
       && r.receiptHash == env.hash(Line(r.prevHash, r.kind, r.createdAt, r.payload))
  }

  lemma ChainAppend(env: EnvRecord, links: seq<ReceiptRow>, r: ReceiptRow)
    requires Chain(env, links) && Stamped(env, r)
    requires links != [] ==> r.prevHash == Some(links[|links| - 1].receiptHash)
    ensures Chain(env, links + [r])
  {
    var longer := links + [r];
    forall i | 0 <= i < |longer| ensures Stamped(env, longer[i]) {
      if i < |links| { assert longer[i] == links[i]; }
    }
    forall i | 0 < i < |longer| ensures longer[i].prevHash == Some(longer[i - 1].receiptHash) {
      assert longer[i - 1] == links[i - 1];
      if i < |links| { assert longer[i] == links[i]; }
    }
  }

  lemma AppendedIsStamped(env: EnvRecord, links: seq<ReceiptRow>, r: ReceiptRow)
    requires HexLike(env.hash) && Chain(env, links) && OneLine(r.kind)
    requires r.prevHash == if links == [] then None else Some(links[|links| - 1].receiptHash)
    requires r.receiptHash == env.hash(Line(r.prevHash, r.kind, r.createdAt, r.payload))
    ensures Stamped(env, r)
  {
    if links != [] { assert Stamped(env, links[|links| - 1]); }
  }

  lemma AppendChainsOwn(env: EnvRecord, receipts: seq<ReceiptRow>, r: ReceiptRow, clock: int, now: int)
    requires HexLike(env.hash) && InOrder(receipts, clock) && Chain(env, Of(receipts, r.requestId))
    requires Appendable(env, receipts, r, now)
    ensures Chain(env, Of(receipts, r.requestId) + [r])
  {
    LatestIsHead(receipts, r.requestId, clock);
    AppendedIsStamped(env, Of(receipts, r.requestId), r);
    ChainAppend(env, Of(receipts, r.requestId), r);
  }

  lemma AppendChains(env: EnvRecord, receipts: seq<ReceiptRow>, r: ReceiptRow, clock: int, now: int)
    requires HexLike(env.hash) && InOrder(receipts, clock) && Chains(env, receipts)
    requires Appendable(env, receipts, r, now)
    ensures Chains(env, receipts + [r])
  {
    assert Chain(env, Of(receipts, r.requestId));
    AppendChainsOwn(env, receipts, r, clock, now);
    forall id ensures Chain(env, Of(receipts + [r], id)) {
      OfAppend(receipts, r, id);
      assert Chain(env, Of(receipts, id));
    }
  }

  lemma AppendInv(env: EnvRecord, w: World, r: ReceiptRow, now: int)
    requires HexLike(env.hash) && Inv(env, w) && w.clock <= now && Appendable(env, w.hub.receipts, r, now)
    ensures Inv(env, w.(hub := w.hub.(receipts := w.hub.receipts + [r]), clock := now, history := w.history + [r]))
  {
    AppendChains(env, w.hub.receipts, r, w.clock, now);
    var n := |w.history| - |w.hub.receipts|;
    assert (w.history + [r])[n..] == w.history[n..] + [r];
  }

  lemma PruneInv(env: EnvRecord, w: World, before: int, now: int)
    requires Inv(env, w) && w.clock <= now
    ensures Inv(env, w.(hub := w.hub.(receipts := KeepReceipts(w.hub.receipts, before)), clock := now))
  {
    var receipts := w.hub.receipts;
    var k := CutAt(receipts, before);
    KeepIsSuffix(receipts, before, w.clock);
    forall id ensures Chain(env, Of(receipts[k..], id)) {
      var j := OfSuffix(receipts, k, id);
      assert Chain(env, Of(receipts, id));
    }
  }

  lemma KindsAreOneLine()
    ensures OneLine("dispatch_received") && OneLine("runtime_started")
    ensures OneLine("runtime_succeeded") && OneLine("runtime_failed")
  {
  }

  /** A step adds at most one receipt, and adds it at the end of its request's chain. */
  lemma StepReceipt(env: EnvRecord, hub: Hub, step: Step)
    requires !step.PruneReceipts? && Apply(env, hub, step).receipts != hub.receipts
    ensures var receipts := Apply(env, hub, step).receipts;
            && |receipts| == |hub.receipts| + 1
            && receipts == hub.receipts + [receipts[|hub.receipts|]]
            && Appendable(env, hub.receipts, receipts[|hub.receipts|], step.now)
  {
    KindsAreOneLine();
    match step {
      case Inbound(payload, stamp, now, failAt) =>
        var id := TextField(payload, "requestId").value;
        var hash := env.hash(StableStringify(payload));
        var body := ReceivedPayload(id, TextField(payload, "topicId").value, env.agentId, hash);
        assert Apply(env, hub, step).receipts ==
                 hub.receipts + [NewReceipt(env, hub.receipts, id, "dispatch_received", body, now)];
      case Begin(id, stamp, now, _) =>
        var body := StartedPayload(id, Started(hub.dispatches[id], stamp).runtimeAttempts, stamp);
        assert Apply(env, hub, step).receipts ==
                 hub.receipts + [NewReceipt(env, hub.receipts, id, "runtime_started", body, now)];
      case End(id, ending, fields, uuid, stamp, now, failAt) =>
        var outboxId := MarkEnded(env, hub, id, ending, fields, uuid, stamp, now, failAt).1.value;
        var body := EndedPayload(env, id, ending, stamp, outboxId);
        assert Apply(env, hub, step).receipts ==
                 hub.receipts + [NewReceipt(env, hub.receipts, id, EndingKind(ending), body, now)];
      case _ =>
    }
  }

  /** A prune of receipts leaves the history alone. */
  lemma PruneStepInv(env: EnvRecord, w: World, step: Step)
    requires Inv(env, w) && Enabled(w, step) && step.PruneReceipts?
    ensures Inv(env, Next(env, w, step))
  {
    PruneInv(env, w, step.before, step.now);
    KeepShrinks(w.hub.receipts, step.before);
  }

  /** A step without a receipt only moves the clock. */
  lemma QuietStepInv(env: EnvRecord, w: World, step: Step)
    requires Inv(env, w) && Enabled(w, step) && !step.PruneReceipts?
    requires Apply(env, w.hub, step).receipts == w.hub.receipts
    ensures Inv(env, Next(env, w, step))
  {
    assert Next(env, w, step).history == w.history;
  }

  lemma ReceiptStepInv(env: EnvRecord, w: World, step: Step)
    requires HexLike(env.hash) && Inv(env, w) && Enabled(w, step) && !step.PruneReceipts?
    requires Apply(env, w.hub, step).receipts != w.hub.receipts
    ensures Inv(env, Next(env, w, step))
  {
    var receipts := Apply(env, w.hub, step).receipts;
    StepReceipt(env, w.hub, step);
    var r := receipts[|w.hub.receipts|];
    assert receipts[|w.hub.receipts|..] == [r];
    AppendInv(env, w, r, step.now);
  }

  lemma NextInv(env: EnvRecord, w: World, step: Step)
    requires HexLike(env.hash) && Inv(env, w) && Enabled(w, step)
    ensures Inv(env, Next(env, w, step))
  {
    if step.PruneReceipts? {
      PruneStepInv(env, w, step);
    } else if Apply(env, w.hub, step).receipts == w.hub.receipts {
      QuietStepInv(env, w, step);
    } else {
      ReceiptStepInv(env, w, step);
    }
  }

  lemma {:induction false} KeepShrinks(receipts: seq<ReceiptRow>, before: int)
    ensures |KeepReceipts(receipts, before)| <= |receipts|
  {
    if receipts != [] { KeepShrinks(receipts[..|receipts| - 1], before); }
  }

  lemma {:induction false} RunInv(env: EnvRecord, states: seq<World>, steps: seq<Step>, k: nat)
    requires HexLike(env.hash) && IsRun(env, states, steps) && k < |states|
    ensures Inv(env, states[k])
  {
    if k > 0 {
      RunInv(env, states, steps, k - 1);
      OneStep(env, states, steps, k - 1);
      NextInv(env, states[k - 1], steps[k - 1]);
    }
  }

  /** In every reachable state the stored receipts of a request form one hash chain and
      are the newest receipts of its whole history, without a gap. */
  lemma ReceiptsAreAChainSuffix(env: EnvRecord, states: seq<World>, steps: seq<Step>, k: nat, id: string)
    returns (j: nat)
    requires HexLike(env.hash) && IsRun(env, states, steps) && k < |states|
    ensures Chain(env, Of(states[k].hub.receipts, id))
    ensures j <= |Of(states[k].history, id)| && Of(states[k].hub.receipts, id) == Of(states[k].history, id)[j..]
  {
    RunInv(env, states, steps, k);
    var w := states[k];
    j := OfSuffix(w.history, |w.history| - |w.hub.receipts|, id);
  }

  // ----- The head determines the history -----

  lemma LinkDeterminesFields(env: EnvRecord, a: ReceiptRow, b: ReceiptRow)
    requires CollisionFree(env.hash) && Stamped(env, a) && Stamped(env, b) && a.receiptHash == b.receiptHash
    ensures a.prevHash == b.prevHash && a.kind == b.kind && a.createdAt == b.createdAt && a.payload == b.payload
  {
    var p := if a.prevHash.Some? then a.prevHash.value else "";
    var q := if b.prevHash.Some? then b.prevHash.value else "";
    LineCut(p, a.kind + "\n" + (Decimal(a.createdAt) + "\n" + a.payload),
            q, b.kind + "\n" + (Decimal(b.createdAt) + "\n" + b.payload));
    LineCut(a.kind, Decimal(a.createdAt) + "\n" + a.payload, b.kind, Decimal(b.createdAt) + "\n" + b.payload);
    DecimalIsOneLine(a.createdAt);
    DecimalIsOneLine(b.createdAt);
    LineCut(Decimal(a.createdAt), a.payload, Decimal(b.createdAt), b.payload);
    DecimalDeterminesNumber(a.createdAt, b.createdAt);
  }

  /** The k-th link from the head. */
  function FromHead(links: seq<ReceiptRow>, k: nat): ReceiptRow
    requires k < |links|
  {
    links[|links| - 1 - k]
  }

  /** A chain of one request's links. (Bound, so that it is not taken apart where it is
      passed on.) */
  ghost predicate ChainOf(env: EnvRecord, links: seq<ReceiptRow>, id: string) {
    forall x :: x == links ==> Chain(env, x) && forall r :: r in x ==> r.requestId == id
  }

  lemma LinksBack(env: EnvRecord, links: seq<ReceiptRow>, id: string, k: nat)
    requires ChainOf(env, links, id) && k < |links|
    ensures Stamped(env, FromHead(links, k)) && FromHead(links, k).requestId == id
    ensures k + 1 < |links| ==> FromHead(links, k).prevHash == Some(FromHead(links, k + 1).receiptHash)
  {
    var i := |links| - 1 - k;
    assert Chain(env, links) && links[i] in links;
    assert i > 0 ==> links[i].prevHash == Some(links[i - 1].receiptHash);
  }

  lemma SameLink(env: EnvRecord, r: ReceiptRow, s: ReceiptRow)
    requires CollisionFree(env.hash) && Stamped(env, r) && Stamped(env, s)
    requires r.requestId == s.requestId && r.receiptHash == s.receiptHash
    ensures r == s
  {
    LinkDeterminesFields(env, r, s);
  }

  /** Links with one hash are the same, and so are the hashes they name. */
  lemma SameLinksBack(env: EnvRecord, a: seq<ReceiptRow>, b: seq<ReceiptRow>, id: string, k: nat)
    requires CollisionFree(env.hash) && ChainOf(env, a, id) && ChainOf(env, b, id) && k < |a| && k < |b|
    requires FromHead(a, k).receiptHash == FromHead(b, k).receiptHash
    ensures FromHead(a, k) == FromHead(b, k)
    ensures k + 1 < |a| && k + 1 < |b| ==> FromHead(a, k + 1).receiptHash == FromHead(b, k + 1).receiptHash
  {
    LinksBack(env, a, id, k);
    LinksBack(env, b, id, k);
    SameLink(env, FromHead(a, k), FromHead(b, k));
  }

  /** Chains of one request with the same head hash agree as far back as both reach. */
  lemma {:induction false} HeadDeterminesTail(env: EnvRecord, a: seq<ReceiptRow>, b: seq<ReceiptRow>, id: string,
                                              k: nat)
    requires CollisionFree(env.hash) && ChainOf(env, a, id) && ChainOf(env, b, id) && k < |a| && k < |b|
    requires a[|a| - 1].receiptHash == b[|b| - 1].receiptHash
    ensures FromHead(a, k) == FromHead(b, k)
  {
    if k > 0 {
      HeadDeterminesTail(env, a, b, id, k - 1);
      SameLinksBack(env, a, b, id, k - 1);
    }
    SameLinksBack(env, a, b, id, k);
  }

  /** All of one request's receipts, linked from the first to the last. */
  ghost predicate WholeChain(env: EnvRecord, links: seq<ReceiptRow>, id: string) {
    && Chain(env, links)
    && links != [] && links[0].prevHash == None
    && forall r :: r in links ==> r.requestId == id
  }

  lemma LongerChainReachesBack(env: EnvRecord, a: seq<ReceiptRow>, b: seq<ReceiptRow>, id: string)
    requires CollisionFree(env.hash) && WholeChain(env, a, id) && WholeChain(env, b, id) && |a| <= |b|
    requires a[|a| - 1].receiptHash == b[|b| - 1].receiptHash
    ensures |a| == |b|
  {
    HeadDeterminesTail(env, a, b, id, |a| - 1);
    LinksBack(env, b, id, |a| - 1);
  }

  lemma SameHeadSameChain(env: EnvRecord, a: seq<ReceiptRow>, b: seq<ReceiptRow>, id: string)
    requires CollisionFree(env.hash) && WholeChain(env, a, id) && WholeChain(env, b, id)
    requires a[|a| - 1].receiptHash == b[|b| - 1].receiptHash
    ensures a == b
  {
    if |a| <= |b| { LongerChainReachesBack(env, a, b, id); } else { LongerChainReachesBack(env, b, a, id); }
    forall j | 0 <= j < |a| ensures a[j] == b[j] {
      HeadDeterminesTail(env, a, b, id, |a| - 1 - j);
    }
  }

  // ----- When the whole history is one chain -----

  /** A step adds a receipt of a request that had some, all of them pruned: it has no
      previous hash to name. */
  predicate Restarts(w: World, w': World, id: string) {
    Of(w'.history, id) != Of(w.history, id) && Of(w.hub.receipts, id) == [] && Of(w.history, id) != []
  }

  /** The call adds a receipt of this request. */
  predicate Adds(env: EnvRecord, hub: Hub, step: Step, id: string) {
    var receipts := Apply(env, hub, step).receipts;
    !step.PruneReceipts? && |receipts| > |hub.receipts| && receipts[|hub.receipts|].requestId == id
  }

  /** The request's receipts, pruned ones included, are one chain. */
  ghost predicate Linked(env: EnvRecord, history: seq<ReceiptRow>, id: string) {
    Of(history, id) == [] || WholeChain(env, Of(history, id), id)
  }

  /** What is stored of a request ends with its newest receipt. */
  lemma StoredEndsWithNewest(receipts: seq<ReceiptRow>, history: seq<ReceiptRow>, id: string)
    requires IsTail(receipts, history) && Of(receipts, id) != []
    ensures Of(history, id) != []
    ensures Of(receipts, id)[|Of(receipts, id)| - 1] == Of(history, id)[|Of(history, id)| - 1]
  {
    var j := OfSuffix(history, |history| - |receipts|, id);
  }

  lemma ChainGoesOn(env: EnvRecord, links: seq<ReceiptRow>, r: ReceiptRow, id: string)
    requires links != [] && r.requestId == id && r.prevHash == Some(links[|links| - 1].receiptHash) && Stamped(env, r)
    ensures WholeChain(env, links + [r], id) <==> WholeChain(env, links, id)
  {
    var longer := links + [r];
    if WholeChain(env, longer, id) {
      forall i | 0 <= i < |links| ensures Stamped(env, links[i]) { assert longer[i] == links[i]; }
      forall i | 0 < i < |links| ensures links[i].prevHash == Some(links[i - 1].receiptHash) {
        assert longer[i].prevHash == Some(longer[i - 1].receiptHash);
      }
      forall x | x in links ensures x.requestId == id { assert x in longer; }
    } else if WholeChain(env, links, id) {
      ChainAppend(env, links, r);
    }
  }

  lemma ChainNamesPrevious(env: EnvRecord, links: seq<ReceiptRow>, i: nat)
    requires 0 < i < |links|
    ensures Chain(env, links) ==> links[i].prevHash.Some?
  {
    if Chain(env, links) { assert links[i].prevHash == Some(links[i - 1].receiptHash); }
  }

  lemma ChainBreaks(env: EnvRecord, links: seq<ReceiptRow>, r: ReceiptRow, id: string)
    requires links != [] && r.prevHash == None
    ensures !WholeChain(env, links + [r], id)
  {
    ChainNamesPrevious(env, links + [r], |links|);
  }

  lemma ChainBegins(env: EnvRecord, r: ReceiptRow, id: string)
    requires Stamped(env, r) && r.prevHash == None && r.requestId == id
    ensures WholeChain(env, [r], id)
  {
  }

  /** One more receipt that names the newest of those stored, if any is. */
  lemma OneMoreLink(env: EnvRecord, stored: seq<ReceiptRow>, all: seq<ReceiptRow>, r: ReceiptRow, id: string)
    requires Stamped(env, r) && r.requestId == id
    requires r.prevHash == if stored == [] then None else Some(stored[|stored| - 1].receiptHash)
    requires stored != [] ==> all != [] && stored[|stored| - 1] == all[|all| - 1]
    ensures WholeChain(env, all + [r], id) <==>
              (all == [] || WholeChain(env, all, id)) && (stored == [] ==> all == [])
  {
    if stored != [] {
      ChainGoesOn(env, all, r, id);
    } else if all != [] {
      ChainBreaks(env, all, r, id);
    } else {
      ChainBegins(env, r, id);
      assert all + [r] == [r];
    }
  }

  lemma AppendedLink(env: EnvRecord, receipts: seq<ReceiptRow>, r: ReceiptRow, clock: int, now: int)
    requires HexLike(env.hash) && InOrder(receipts, clock) && Chains(env, receipts)
    requires Appendable(env, receipts, r, now)
    ensures Stamped(env, r)
    ensures var stored := Of(receipts, r.requestId);
            r.prevHash == if stored == [] then None else Some(stored[|stored| - 1].receiptHash)
  {
    assert Chain(env, Of(receipts, r.requestId));
    LatestIsHead(receipts, r.requestId, clock);
    AppendedIsStamped(env, Of(receipts, r.requestId), r);
  }

  lemma TailLinks(env: EnvRecord, stored: seq<ReceiptRow>, history: seq<ReceiptRow>, r: ReceiptRow, id: string)
    requires Stamped(env, r) && r.requestId == id
    requires r.prevHash == if stored == [] then None else Some(stored[|stored| - 1].receiptHash)
    requires var all := Of(history, id); stored != [] ==> all != [] && stored[|stored| - 1] == all[|all| - 1]
    ensures Linked(env, history + [r], id) <==> Linked(env, history, id) && (stored == [] ==> Of(history, id) == [])
  {
    OfAppend(history, r, id);
    OneMoreLink(env, stored, Of(history, id), r, id);
  }

  /** What one more receipt of the request does to the chain. */
  lemma AppendLinks(env: EnvRecord, w: World, r: ReceiptRow, now: int)
    requires HexLike(env.hash) && Inv(env, w) && Appendable(env, w.hub.receipts, r, now)
    ensures var id := r.requestId;
            Linked(env, w.history + [r], id) <==>
              Linked(env, w.history, id) && (Of(w.hub.receipts, id) == [] ==> Of(w.history, id) == [])
  {
    var stored := Of(w.hub.receipts, r.requestId);
    AppendedLink(env, w.hub.receipts, r, w.clock, now);
    if stored != [] { StoredEndsWithNewest(w.hub.receipts, w.history, r.requestId); }
    TailLinks(env, stored, w.history, r, r.requestId);
  }

  lemma ReceiptStepHistory(env: EnvRecord, w: World, step: Step) returns (r: ReceiptRow)
    requires !step.PruneReceipts? && Apply(env, w.hub, step).receipts != w.hub.receipts
    ensures Appendable(env, w.hub.receipts, r, step.now) && Next(env, w, step).history == w.history + [r]
    ensures forall id :: Adds(env, w.hub, step, id) <==> r.requestId == id
  {
    var receipts := Apply(env, w.hub, step).receipts;
    StepReceipt(env, w.hub, step);
    r := receipts[|w.hub.receipts|];
    assert receipts[|w.hub.receipts|..] == [r];
  }

  /** What a step adds to the history tells whether it restarts the chain; from the hub and
      the call alone: it adds a receipt where there were some and none is left. */
  lemma RestartIsVisible(env: EnvRecord, w: World, step: Step, id: string)
    ensures Restarts(w, Next(env, w, step), id) <==>
              Adds(env, w.hub, step, id) && Of(w.hub.receipts, id) == [] && Of(w.history, id) != []
  {
    if step.PruneReceipts? || Apply(env, w.hub, step).receipts == w.hub.receipts {
      assert Next(env, w, step).history == w.history;
    } else {
      var r := ReceiptStepHistory(env, w, step);
      OfAppend(w.history, r, id);
    }
  }

  lemma StepLinks(env: EnvRecord, w: World, step: Step, id: string)
    requires HexLike(env.hash) && Inv(env, w)
    ensures Linked(env, Next(env, w, step).history, id) <==>
              Linked(env, w.history, id) && !Restarts(w, Next(env, w, step), id)
  {
    if step.PruneReceipts? || Apply(env, w.hub, step).receipts == w.hub.receipts {
      assert Next(env, w, step).history == w.history;
    } else {
      var r := ReceiptStepHistory(env, w, step);
      OfAppend(w.history, r, id);
      if r.requestId == id { AppendLinks(env, w, r, step.now); }
    }
  }

  lemma RunStepLinks(env: EnvRecord, states: seq<World>, steps: seq<Step>, k: nat, id: string)
    requires HexLike(env.hash) && IsRun(env, states, steps) && k < |steps|
    ensures Linked(env, states[k + 1].history, id) <==>
              Linked(env, states[k].history, id) && !Restarts(states[k], states[k + 1], id)
  {
    RunInv(env, states, steps, k);
    OneStep(env, states, steps, k);
    StepLinks(env, states[k], steps[k], id);
  }

  /** No step up to state `k` has restarted the request's chain. */
  ghost predicate NeverRestarted(states: seq<World>, k: nat, id: string)
    requires k < |states|
  {
    forall i :: 0 <= i < k ==> !Restarts(states[i], states[i + 1], id)
  }

  /** In every state of every run, prunings included: a request's whole history is one
      chain if and only if no step so far has gone on after its last receipt was pruned. */
  lemma {:induction false} HistoryIsLinkedIff(env: EnvRecord, states: seq<World>, steps: seq<Step>, k: nat, id: string)
    requires HexLike(env.hash) && IsRun(env, states, steps) && k < |states|
    ensures Linked(env, states[k].history, id) <==> NeverRestarted(states, k, id)
  {
    if k > 0 {
      HistoryIsLinkedIff(env, states, steps, k - 1, id);
      RunStepLinks(env, states, steps, k - 1, id);
      OneMoreStep(states, k, id);
    }
  }

  lemma OneMoreStep(states: seq<World>, k: nat, id: string)
    requires 0 < k < |states|
    ensures NeverRestarted(states, k, id) <==>
              NeverRestarted(states, k - 1, id) && !Restarts(states[k - 1], states[k], id)
  {
    assert states[k - 1 + 1] == states[k];
  }

  /** Two hubs that never went on from nothing and have the same newest hash for a request
      have the same history for it, link by link, pruned receipts included. */
  lemma HeadDeterminesHistory(
      env: EnvRecord, states: seq<World>, steps: seq<Step>, k: nat,
      states': seq<World>, steps': seq<Step>, k': nat, id: string)
    requires HexLike(env.hash) && CollisionFree(env.hash)
    requires IsRun(env, states, steps) && k < |states| && IsRun(env, states', steps') && k' < |states'|
    requires NeverRestarted(states, k, id) && NeverRestarted(states', k', id)
    requires var a, b := Of(states[k].history, id), Of(states'[k'].history, id);
             a != [] && b != [] && a[|a| - 1].receiptHash == b[|b| - 1].receiptHash
    ensures Of(states[k].history, id) == Of(states'[k'].history, id)
  {
    HistoryIsLinkedIff(env, states, steps, k, id);
    HistoryIsLinkedIff(env, states', steps', k', id);
    SameHeadSameChain(env, Of(states[k].history, id), Of(states'[k'].history, id), id);
  }

  // ----- A run that goes on from nothing -----

  /** A delivery the hub accepts. */
  ghost predicate Acceptable(env: EnvRecord, payload: Json) {
    && WellFormed(payload) && TextField(payload, "agentId") == Some(env.agentId)
    && TextField(payload, "topicId").Some? && TextField(payload, "requestId").Some?
  }

  function StartReceipt(env: EnvRecord, id: string): ReceiptRow {
    NewReceipt(env, [], id, "runtime_started", StartedPayload(id, 1, 2), 2)
  }

  lemma DeliveryReceipt(env: EnvRecord, payload: Json, at: int)
    requires Acceptable(env, payload)
    ensures var id := TextField(payload, "requestId").value;
            var hub := Apply(env, Hub(map[], [], []), Inbound(payload, at, at, 2));
            && |hub.receipts| == 1 && hub.receipts[0].requestId == id && hub.receipts[0].createdAt == at
            && id in hub.dispatches && hub.dispatches[id].runtimeAttempts == 0
  {
  }

  lemma PruneEmpties(hub: Hub)
    requires |hub.receipts| == 1 && hub.receipts[0].createdAt < 2
    ensures KeepReceipts(hub.receipts, 2) == []
  {
    NothingKept(hub.receipts, 2);
  }

  lemma BeginReceipt(env: EnvRecord, hub: Hub, id: string)
    requires hub.receipts == [] && id in hub.dispatches && hub.dispatches[id].runtimeAttempts == 0
    ensures Apply(env, hub, Begin(id, 2, 2, 2)).receipts == [StartReceipt(env, id)]
  {
  }

  /** One receipt so far, of this request, made at this time. */
  ghost predicate OneReceipt(history: seq<ReceiptRow>, id: string, at: int) {
    |history| == 1 && history[0].requestId == id && history[0].createdAt == at
  }

  predicate IsFresh(hub: Hub, id: string) {
    id in hub.dispatches && hub.dispatches[id].runtimeAttempts == 0
  }

  lemma InboundFollows(env: EnvRecord, w: World, step: Step)
    requires step.Inbound? && WellFormed(step.payload) && w.clock <= step.stamp <= step.now
    ensures Follows(env, w, step, Next(env, w, step))
  {
  }

  lemma FirstState(env: EnvRecord, w: World)
    requires w == World(Hub(map[], [], []), w.clock, [], map[])
    ensures IsRun(env, [w], [])
  {
  }

  lemma Delivered(env: EnvRecord, payload: Json, at: int) returns (states: seq<World>, steps: seq<Step>)
    requires Acceptable(env, payload) && 0 <= at < 2
    ensures IsRun(env, states, steps) && |steps| == 1 && states[1].clock == at
    ensures var id := TextField(payload, "requestId").value;
            && OneReceipt(states[1].history, id, at) && states[1].hub.receipts == states[1].history
            && IsFresh(states[1].hub, id)
  {
    var w0, step := World(Hub(map[], [], []), 0, [], map[]), Inbound(payload, at, at, 2);
    var w1 := Next(env, w0, step);
    DeliveryReceipt(env, payload, at);
    assert w1.history == w1.hub.receipts;
    FirstState(env, w0);
    InboundFollows(env, w0, step);
    Extends(env, [w0], [], step, w1);
    states, steps := [w0] + [w1], [] + [step];
  }

  lemma Emptied(env: EnvRecord, payload: Json, at: int) returns (states: seq<World>, steps: seq<Step>)
    requires Acceptable(env, payload) && 0 <= at < 2
    ensures IsRun(env, states, steps) && |steps| == 2 && states[2].clock == 2
    ensures var id := TextField(payload, "requestId").value;
            OneReceipt(states[2].history, id, at) && states[2].hub.receipts == [] && IsFresh(states[2].hub, id)
  {
    var before, done := Delivered(env, payload, at);
    var w := Next(env, before[1], PruneReceipts(2, 2, 2));
    PruneEmpties(before[1].hub);
    Extends(env, before, done, PruneReceipts(2, 2, 2), w);
    states, steps := before + [w], done + [PruneReceipts(2, 2, 2)];
  }

  lemma BeginRestarts(env: EnvRecord, w: World, id: string, at: int)
    requires OneReceipt(w.history, id, at) && w.hub.receipts == [] && IsFresh(w.hub, id)
    ensures Next(env, w, Begin(id, 2, 2, 2)).history == w.history + [StartReceipt(env, id)]
    ensures Restarts(w, Next(env, w, Begin(id, 2, 2, 2)), id)
  {
    BeginReceipt(env, w.hub, id);
    OfBoth(w.history, id);
    OfBoth(w.history + [StartReceipt(env, id)], id);
  }

  lemma BeginFollows(env: EnvRecord, w: World, step: Step)
    requires step.Begin? && w.clock <= step.stamp <= step.now
    ensures Follows(env, w, step, Next(env, w, step))
  {
  }

  lemma RestartStep(env: EnvRecord, w: World, id: string, at: int) returns (next: World)
    requires OneReceipt(w.history, id, at) && w.hub.receipts == [] && IsFresh(w.hub, id) && w.clock == 2
    ensures Follows(env, w, Begin(id, 2, 2, 2), next) && Restarts(w, next, id)
    ensures Of(next.history, id) == w.history + [StartReceipt(env, id)]
  {
    next := Next(env, w, Begin(id, 2, 2, 2));
    BeginRestarts(env, w, id, at);
    BeginFollows(env, w, Begin(id, 2, 2, 2));
    OfBoth(next.history, id);
  }

  /** Delivered, pruned to nothing, and started. */
  lemma RestartRun(env: EnvRecord, payload: Json, at: int) returns (states: seq<World>, steps: seq<Step>)
    requires Acceptable(env, payload) && 0 <= at < 2
    ensures IsRun(env, states, steps) && |steps| == 3
    ensures var id := TextField(payload, "requestId").value;
            && OneReceipt(states[2].history, id, at) && Restarts(states[2], states[3], id)
            && Of(states[3].history, id) == states[2].history + [StartReceipt(env, id)]
  {
    var id := TextField(payload, "requestId").value;
    var before, done := Emptied(env, payload, at);
    var next := RestartStep(env, before[2], id, at);
    Extends(env, before, done, Begin(id, 2, 2, 2), next);
    states, steps := before + [next], done + [Begin(id, 2, 2, 2)];
  }

  lemma {:induction false} OfBoth(history: seq<ReceiptRow>, id: string)
    requires forall i :: 0 <= i < |history| ==> history[i].requestId == id
    ensures Of(history, id) == history
  {
    if history != [] { OfBoth(history[..|history| - 1], id); }
  }

  lemma DifferentPasts(a: seq<ReceiptRow>, b: seq<ReceiptRow>, r: ReceiptRow)
    requires |a| == |b| == 1 && a[0].createdAt != b[0].createdAt
    ensures a + [r] != b + [r] && (a + [r])[1] == (b + [r])[1] == r
  {
    assert (a + [r])[0] == a[0] && (b + [r])[0] == b[0];
  }

  /** It happens, and the head then tells nothing about what came before: the same request,
      delivered at two different times, pruned to nothing and started, has two histories
      with one head. */
  lemma RestartForgets(env: EnvRecord, payload: Json)
    returns (states: seq<World>, steps: seq<Step>, states': seq<World>, steps': seq<Step>)
    requires Acceptable(env, payload)
    ensures IsRun(env, states, steps) && |steps| == 3 && IsRun(env, states', steps') && |steps'| == 3
    ensures var id := TextField(payload, "requestId").value;
            var a, b := Of(states[3].history, id), Of(states'[3].history, id);
            a != [] && b != [] && a[|a| - 1] == b[|b| - 1] && a != b
  {
    states, steps := RestartRun(env, payload, 0);
    states', steps' := RestartRun(env, payload, 1);
    DifferentPasts(states[2].history, states'[2].history, StartReceipt(env, TextField(payload, "requestId").value));
  }
}
