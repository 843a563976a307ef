/** The weighted committee verdict (src/services/ConsensusEngine.ts:56-163). Scores are
    reals: the rounding of what is reported comes after the decision. */
module ConsensusEngine {
  import opened Wrappers

  /** A JavaScript number as far as `Number.isFinite` tells. */
  datatype Number = Finite(value: real) | NotFinite

  datatype Ballot = Approve | Reject | Abstain

  datatype Vote = Vote(agentId: string, ballot: Ballot, confidence: Number, weight: Option<Number>)

  datatype Counted = Counted(agentId: string, ballot: Ballot, confidence: real, weight: real)

  datatype Options = Options(quorum: Option<Number>, failure: Option<Number>, participants: Option<seq<string>>,
                             candidates: seq<string>)

  datatype Status = Accepted | Failed | NeedsSidecar

  datatype Verdict = Verdict(status: Status, quorum: real, failure: real, support: real, confidence: real,
                             sidecars: seq<string>)

  // ----- Normalizing -----

  function Min(a: real, b: real): real {
    if a <= b then a else b
  }

  function Max(a: real, b: real): real {
    if a >= b then a else b
  }

  function ClampRange(v: Number, low: real, high: real): (r: real)
    ensures low <= high ==> low <= r <= high
    ensures v.Finite? && low <= v.value <= high ==> r == v.value
    ensures v.NotFinite? || v.value < low <= high ==> r == low
    ensures v.Finite? && low <= high < v.value ==> r == high
  {
    match v
    case NotFinite => low
    case Finite(x) => Min(high, Max(low, x))
  }

  function Normalized(v: Vote): (c: Counted)
    ensures 0.0 <= c.confidence <= 1.0 && c.weight >= 0.0
    ensures c.agentId == v.agentId && c.ballot == v.ballot
    ensures v.weight.None? || v.weight.value.NotFinite? ==> c.weight == 1.0
    ensures v.weight.Some? && v.weight.value.Finite? && v.weight.value.value >= 0.0 ==> c.weight == v.weight.value.value
    ensures v.weight.Some? && v.weight.value.Finite? && v.weight.value.value < 0.0 ==> c.weight == 0.0
    ensures v.confidence.Finite? && 0.0 <= v.confidence.value <= 1.0 ==> c.confidence == v.confidence.value
  {
    var weight := match v.weight
      case Some(Finite(w)) => Max(0.0, w)
      case _ => 1.0;
    Counted(v.agentId, v.ballot, ClampRange(v.confidence, 0.0, 1.0), weight)
  }

  function NormalizeAll(votes: seq<Vote>): (all: seq<Counted>)
    ensures |all| == |votes| && forall i :: 0 <= i < |all| ==> all[i] == Normalized(votes[i])
  {
    seq(|votes|, i requires 0 <= i < |votes| => Normalized(votes[i]))
  }

  ghost predicate IsLastVote(votes: seq<Vote>, agent: string, i: nat) {
    && i < |votes| && votes[i].agentId == agent
    && forall j :: i < j < |votes| ==> votes[j].agentId != agent
  }

  /** The last vote of an agent: a JavaScript Map built from the list keeps that one. */
  function LastVote(votes: seq<Vote>, agent: string): (v: Option<Vote>)
    ensures v.None? <==> forall i :: 0 <= i < |votes| ==> votes[i].agentId != agent
    ensures v.Some? ==> v.value.agentId == agent
  {
    if votes == [] then None
    else if votes[|votes| - 1].agentId == agent then Some(votes[|votes| - 1])
    else LastVote(votes[..|votes| - 1], agent)
  }

  /** It is one of the votes, and no vote of that agent comes after it. */
  lemma {:induction false} LastVoteIsLast(votes: seq<Vote>, agent: string) returns (i: nat)
    requires LastVote(votes, agent).Some?
    ensures IsLastVote(votes, agent, i) && votes[i] == LastVote(votes, agent).value
  {
    i := |votes| - 1;
    if votes[i].agentId != agent { i := LastVoteIsLast(votes[..i], agent); }
  }

  function Missing(agent: string): Vote {
    Vote(agent, Abstain, Finite(0.0), Some(Finite(1.0)))
  }

  function Seat(votes: seq<Vote>, agent: string): Vote {
    var v := LastVote(votes, agent);
    if v.Some? then v.value else Missing(agent)
  }

  function Seats(votes: seq<Vote>, participants: seq<string>): (seats: seq<Vote>)
    ensures |seats| == |participants| && forall i :: 0 <= i < |seats| ==> seats[i] == Seat(votes, participants[i])
  {
    seq(|participants|, i requires 0 <= i < |participants| => Seat(votes, participants[i]))
  }

  function Outsiders(votes: seq<Vote>, participants: seq<string>): seq<Vote> {
    if votes == [] then []
    else (if votes[0].agentId in participants then [] else [votes[0]]) + Outsiders(votes[1..], participants)
  }

  /** `completeParticipantVotes`: one seat a participant, in their order, then the votes
      of everybody else. */
  function Completed(votes: seq<Vote>, participants: Option<seq<string>>): seq<Vote> {
    if participants.None? || participants.value == [] then votes
    else Seats(votes, participants.value) + Outsiders(votes, participants.value)
  }

  // ----- The verdict -----

  function TotalWeight(all: seq<Counted>): real {
    if all == [] then 0.0 else TotalWeight(all[..|all| - 1]) + all[|all| - 1].weight
  }

  function Backing(c: Counted): real {
    if c.ballot == Approve then c.weight * c.confidence else 0.0
  }

  function ApproveWeight(all: seq<Counted>): real {
    if all == [] then 0.0 else ApproveWeight(all[..|all| - 1]) + Backing(all[|all| - 1])
  }

  function ConfidenceSum(all: seq<Counted>): real {
    if all == [] then 0.0 else ConfidenceSum(all[..|all| - 1]) + all[|all| - 1].confidence
  }

  function Support(all: seq<Counted>): real {
    if TotalWeight(all) == 0.0 then 0.0 else ApproveWeight(all) / TotalWeight(all)
  }

  function MeanConfidence(all: seq<Counted>): real {
    if all == [] then 0.0 else ConfidenceSum(all) / |all| as real
  }

  function Quorum(options: Options): (q: real)
    ensures 0.6 <= q <= 1.0
  {
    ClampRange(if options.quorum.Some? then options.quorum.value else Finite(0.85), 0.6, 1.0)
  }

  function FailureThreshold(options: Options): (f: real)
    ensures 0.5 <= f <= Quorum(options)
  {
    ClampRange(if options.failure.Some? then options.failure.value else Finite(0.5), 0.5, Quorum(options))
  }

  function Decide(support: real, confidence: real, q: real, f: real): Status {
    if support >= q && confidence >= q then Accepted
    else if support < f || confidence < f then NeedsSidecar
    else Failed
  }

  function Inactive(candidates: seq<string>, active: seq<string>): seq<string> {
    if candidates == [] then []
    else (if candidates[0] in active then [] else [candidates[0]]) + Inactive(candidates[1..], active)
  }

  function Sidecars(candidates: seq<string>, active: seq<string>): seq<string> {
    var idle := Inactive(candidates, active);
    if |idle| <= 2 then idle else idle[..2]
  }

  function Agents(all: seq<Counted>): seq<string> {
    seq(|all|, i requires 0 <= i < |all| => all[i].agentId)
  }

  /** The votes that are counted, normalized. */
  function Committee(votes: seq<Vote>, options: Options): seq<Counted> {
    NormalizeAll(Completed(votes, options.participants))
  }

  /** The named participants, or else whoever voted. */
  function Active(votes: seq<Vote>, options: Options): seq<string> {
    if options.participants.Some? then options.participants.value else Agents(Committee(votes, options))
  }

  function EvaluateCommittee(votes: seq<Vote>, options: Options): Verdict {
    var all := Committee(votes, options);
    var q, f := Quorum(options), FailureThreshold(options);
    var status := Decide(Support(all), MeanConfidence(all), q, f);
    Verdict(status, q, f, Support(all), MeanConfidence(all),
            if status == NeedsSidecar then Sidecars(options.candidates, Active(votes, options)) else [])
  }

  // ----- Two accepted verdicts share approvers -----

  /** What a normalized committee looks like. */
  ghost predicate Sound(all: seq<Counted>) {
    forall i :: 0 <= i < |all| ==> 0.0 <= all[i].confidence <= 1.0 && all[i].weight >= 0.0
  }

  /** The same members with the same weights, whatever they vote. */
  ghost predicate SameMembers(a: seq<Counted>, b: seq<Counted>) {
    |a| == |b| && forall i :: 0 <= i < |a| ==> a[i].agentId == b[i].agentId && a[i].weight == b[i].weight
  }

  /** The weight of those who approve in both. */
  function SharedWeight(a: seq<Counted>, b: seq<Counted>): real
    requires |a| == |b|
  {
    if a == [] then 0.0
    else
      var n := |a| - 1;
      SharedWeight(a[..n], b[..n]) + (if a[n].ballot == Approve && b[n].ballot == Approve then a[n].weight else 0.0)
  }

  lemma BackingIsDiscounted(c: Counted)
    requires c.weight >= 0.0 && 0.0 <= c.confidence <= 1.0
    ensures 0.0 <= Backing(c) <= (if c.ballot == Approve then c.weight else 0.0)
  {
    assert c.weight * c.confidence >= 0.0;
    assert c.weight * (1.0 - c.confidence) == c.weight - c.weight * c.confidence;
    assert c.weight * (1.0 - c.confidence) >= 0.0;
  }

  /** Inclusion and exclusion, with confidences that only take weight away. */
  lemma {:induction false} ApprovalsOverlap(a: seq<Counted>, b: seq<Counted>)
    requires Sound(a) && Sound(b) && SameMembers(a, b)
    ensures ApproveWeight(a) + ApproveWeight(b) <= TotalWeight(a) + SharedWeight(a, b)
    ensures TotalWeight(a) == TotalWeight(b) >= 0.0
  {
    if a != [] {
      var n := |a| - 1;
      var x, y := a[n], b[n];
      BackingIsDiscounted(x);
      BackingIsDiscounted(y);
      ApprovalsOverlap(a[..n], b[..n]);
    }
  }

  lemma ShareArithmetic(w: real, a1: real, a2: real, shared: real)
    requires w > 0.0 && a1 + a2 <= w + shared
    ensures shared / w >= a1 / w + a2 / w - 1.0
  {
    var s1, s2, t := a1 / w, a2 / w, shared / w;
    assert s1 * w == a1 && s2 * w == a2 && t * w == shared;
    assert (s1 + s2 - 1.0) * w == a1 + a2 - w;
    CancelPositive(s1 + s2 - 1.0, t, w);
  }

  lemma CancelPositive(x: real, y: real, n: real)
    requires n > 0.0 && x * n <= y * n
    ensures x <= y
  {
    assert (x - y) * n == x * n - y * n;
    assert x > y ==> (x - y) * n > 0.0;
  }

  lemma AcceptedMeans(votes: seq<Vote>, options: Options)
    requires EvaluateCommittee(votes, options).status == Accepted
    ensures Support(Committee(votes, options)) >= Quorum(options)
            && MeanConfidence(Committee(votes, options)) >= Quorum(options)
    ensures Sound(Committee(votes, options))
  {
  }

  /** The share of the weight that approves in both. */
  function SharedSupport(a: seq<Counted>, b: seq<Counted>): real
    requires |a| == |b|
  {
    if TotalWeight(a) == 0.0 then 0.0 else SharedWeight(a, b) / TotalWeight(a)
  }

  lemma SupportersShare(a: seq<Counted>, b: seq<Counted>)
    requires Sound(a) && Sound(b) && SameMembers(a, b) && Support(a) > 0.0
    ensures SharedSupport(a, b) >= Support(a) + Support(b) - 1.0
  {
    ApprovalsOverlap(a, b);
    ShareArithmetic(TotalWeight(a), ApproveWeight(a), ApproveWeight(b), SharedWeight(a, b));
  }

  /** Two committees of the same members and weights that are both accepted share
      approvers of at least q1 + q2 - 1 of the weight, and of a fifth in any case. */
  lemma AcceptedVerdictsShareApprovers(votes1: seq<Vote>, options1: Options, votes2: seq<Vote>, options2: Options)
    requires EvaluateCommittee(votes1, options1).status == Accepted
             && EvaluateCommittee(votes2, options2).status == Accepted
    requires SameMembers(Committee(votes1, options1), Committee(votes2, options2))
    ensures SharedSupport(Committee(votes1, options1), Committee(votes2, options2))
            >= Quorum(options1) + Quorum(options2) - 1.0 >= 0.2
  {
    AcceptedMeans(votes1, options1);
    AcceptedMeans(votes2, options2);
    SupportersShare(Committee(votes1, options1), Committee(votes2, options2));
  }

  // ----- Missing votes -----

  function MissingCount(votes: seq<Vote>, participants: seq<string>): nat {
    if participants == [] then 0
    else
      var n := |participants| - 1;
      MissingCount(votes, participants[..n]) + (if LastVote(votes, participants[n]).None? then 1 else 0)
  }

  lemma {:induction false} SeatsConfidence(votes: seq<Vote>, participants: seq<string>)
    ensures ConfidenceSum(NormalizeAll(Seats(votes, participants)))
            <= |participants| as real - MissingCount(votes, participants) as real
  {
    var all := NormalizeAll(Seats(votes, participants));
    if participants != [] {
      var n := |participants| - 1;
      SeatsConfidence(votes, participants[..n]);
      assert all[..n] == NormalizeAll(Seats(votes, participants[..n]));
      assert all[n] == Normalized(Seat(votes, participants[n]));
    }
  }

  lemma {:induction false} MoreConfidence(a: seq<Counted>, b: seq<Counted>)
    requires Sound(b)
    ensures ConfidenceSum(a + b) <= ConfidenceSum(a) + |b| as real
  {
    if b == [] {
      assert a + b == a;
    } else {
      assert (a + b)[..|a + b| - 1] == a + b[..|b| - 1];
      MoreConfidence(a, b[..|b| - 1]);
    }
  }

  lemma SeatedConfidence(votes: seq<Vote>, options: Options)
    requires options.participants.Some? && options.participants.value != []
    ensures ConfidenceSum(Committee(votes, options))
            <= |Committee(votes, options)| as real - MissingCount(votes, options.participants.value) as real
  {
    var participants := options.participants.value;
    var seats, others := Seats(votes, participants), Outsiders(votes, participants);
    assert Committee(votes, options) == NormalizeAll(seats) + NormalizeAll(others);
    SeatsConfidence(votes, participants);
    MoreConfidence(NormalizeAll(seats), NormalizeAll(others));
  }

  /** The share of all seats whose vote was missing. */
  function MissingShare(votes: seq<Vote>, options: Options): real
    requires options.participants.Some?
  {
    var n := |Committee(votes, options)|;
    if n == 0 then 0.0 else MissingCount(votes, options.participants.value) as real / n as real
  }

  lemma RatioArithmetic(sum: real, missing: real, n: real)
    requires n > 0.0 && sum <= n - missing
    ensures missing / n <= 1.0 - sum / n
  {
    var m, s := missing / n, sum / n;
    assert m * n == missing && s * n == sum;
    assert (1.0 - s) * n == n - sum;
    CancelPositive(m, 1.0 - s, n);
  }

  /** An accepted verdict misses the votes of at most (1 - q) of all that were counted. */
  lemma FewVotesAreMissing(votes: seq<Vote>, options: Options)
    requires options.participants.Some? && options.participants.value != []
    requires EvaluateCommittee(votes, options).status == Accepted
    ensures MissingShare(votes, options) <= 1.0 - Quorum(options)
  {
    var all := Committee(votes, options);
    AcceptedMeans(votes, options);
    SeatedConfidence(votes, options);
    RatioArithmetic(ConfidenceSum(all), MissingCount(votes, options.participants.value) as real, |all| as real);
  }

  // ----- Who sits on the committee, and who is called in -----

  /** The positions of everybody else's votes, in order, each once. */
  ghost predicate AreOutside(votes: seq<Vote>, participants: seq<string>, at: seq<nat>) {
    && (forall j, k :: 0 <= j < k < |at| ==> at[j] < at[k])
    && (forall i: nat :: i in at <==> i < |votes| && votes[i].agentId !in participants)
  }

  ghost predicate Reads(votes: seq<Vote>, at: seq<nat>, list: seq<Vote>) {
    |list| == |at| && forall k :: 0 <= k < |at| ==> at[k] < |votes| && list[k] == votes[at[k]]
  }

  /** Beside the seats of the participants, completing keeps every vote of everybody else,
      in order. */
  lemma {:induction false} OutsidersAre(votes: seq<Vote>, participants: seq<string>) returns (at: seq<nat>)
    ensures AreOutside(votes, participants, at) && Reads(votes, at, Outsiders(votes, participants))
  {
    if votes == [] {
      at := [];
    } else {
      var later := OutsidersAre(votes[1..], participants);
      LaterReads(votes, later, Outsiders(votes[1..], participants));
      LaterAreOutside(votes, participants, later);
      at := Shifted(later);
      if votes[0].agentId !in participants {
        HeadReads(votes, at, Outsiders(votes[1..], participants));
        at := [0] + at;
      }
    }
  }

  /** Positions in a list that got a new head. */
  function Shifted(at: seq<nat>): (r: seq<nat>)
    ensures |r| == |at| && forall k :: 0 <= k < |at| ==> r[k] == at[k] + 1
  {
    seq(|at|, k requires 0 <= k < |at| => at[k] + 1)
  }

  lemma ShiftedMembers(at: seq<nat>, i: nat)
    ensures i in Shifted(at) <==> i > 0 && i - 1 in at
  {
    if i > 0 && i - 1 in at {
      var k :| 0 <= k < |at| && at[k] == i - 1;
      assert Shifted(at)[k] == i;
    }
  }

  lemma LaterAreOutside(votes: seq<Vote>, participants: seq<string>, later: seq<nat>)
    requires votes != [] && AreOutside(votes[1..], participants, later)
    ensures votes[0].agentId in participants ==> AreOutside(votes, participants, Shifted(later))
    ensures votes[0].agentId !in participants ==> AreOutside(votes, participants, [0] + Shifted(later))
  {
    var at := Shifted(later);
    forall i: nat ensures i in at <==> 0 < i < |votes| && votes[i].agentId !in participants {
      ShiftedMembers(later, i);
    }
  }

  lemma LaterReads(votes: seq<Vote>, later: seq<nat>, list: seq<Vote>)
    requires votes != [] && Reads(votes[1..], later, list)
    ensures Reads(votes, Shifted(later), list)
  {
  }

  lemma HeadReads(votes: seq<Vote>, at: seq<nat>, list: seq<Vote>)
    requires votes != [] && Reads(votes, at, list)
    ensures Reads(votes, [0] + at, [votes[0]] + list)
  {
  }

  lemma {:induction false} InactiveAre(candidates: seq<string>, active: seq<string>)
    ensures forall c :: c in Inactive(candidates, active) <==> c in candidates && c !in active
  {
    if candidates != [] {
      assert candidates == [candidates[0]] + candidates[1..];
      InactiveAre(candidates[1..], active);
    }
  }

  /** Sidecars are called in only when asked for, at most two, none of them active, and
      fewer than two only when all idle candidates are called. */
  lemma SidecarsAreIdle(votes: seq<Vote>, options: Options)
    ensures var v, active := EvaluateCommittee(votes, options), Active(votes, options);
            && |v.sidecars| <= 2
            && (v.sidecars != [] ==> v.status == NeedsSidecar)
            && (forall c :: c in v.sidecars ==> c in options.candidates && c !in active)
            && (v.status == NeedsSidecar && |v.sidecars| < 2 ==>
                  forall c :: c in options.candidates && c !in active ==> c in v.sidecars)
  {
    InactiveAre(options.candidates, Active(votes, options));
  }
}
