/** The committee verdict in plain terms: who is counted, with what, and which sums decide
    (src/services/ConsensusEngine.ts:56-163). */
module CommitteeVerdicts {
  import opened Lists
  import opened ConsensusEngine

  // ----- Who is counted -----

  /** The number within bounds; what is no number counts as the lower bound. */
  predicate IsClamped(n: Number, low: real, high: real, r: real) {
    match n
    case NotFinite => r == low
    case Finite(x) => if x < low then r == low else if x > high then r == high else r == x
  }

  /** What is counted of a vote. A weight that is missing or no number is one. */
  ghost predicate CountsAs(v: Vote, c: Counted) {
    && c.agentId == v.agentId && c.ballot == v.ballot && IsClamped(v.confidence, 0.0, 1.0, c.confidence)
    && match v.weight
       case Some(Finite(w)) => c.weight == if w < 0.0 then 0.0 else w
       case _ => c.weight == 1.0
  }

  lemma NormalizedCounts(v: Vote)
    ensures CountsAs(v, Normalized(v))
  {
  }

  /** A participant's seat: the last vote in its name, or an abstention without confidence. */
  ghost predicate IsSeat(votes: seq<Vote>, agent: string, c: Counted) {
    || (exists i: nat :: IsLastVote(votes, agent, i) && CountsAs(votes[i], c))
    || ((forall i :: 0 <= i < |votes| ==> votes[i].agentId != agent) && c == Counted(agent, Abstain, 0.0, 1.0))
  }

  lemma SeatIs(votes: seq<Vote>, agent: string)
    ensures IsSeat(votes, agent, Normalized(Seat(votes, agent)))
  {
    NormalizedCounts(Seat(votes, agent));
    if LastVote(votes, agent).Some? {
      var i := LastVoteIsLast(votes, agent);
      assert IsLastVote(votes, agent, i);
    }
  }

  /** The participants' seats, in their order, then the votes of everybody else, in theirs. */
  ghost predicate AreSeated(votes: seq<Vote>, seats: seq<string>, all: seq<Counted>, at: seq<nat>) {
    && |all| == |seats| + |at| && AreOutside(votes, seats, at)
    && (forall i :: 0 <= i < |seats| ==> IsSeat(votes, seats[i], all[i]))
    && (forall k :: 0 <= k < |at| ==> at[k] < |votes| && CountsAs(votes[at[k]], all[|seats| + k]))
  }

  lemma AllAreSeated(votes: seq<Vote>) returns (at: seq<nat>)
    ensures AreSeated(votes, [], NormalizeAll(votes), at)
  {
    at := seq(|votes|, i => i);
    forall i: nat ensures i in at <==> i < |votes| { if i < |votes| { assert at[i] == i; } }
    forall k | 0 <= k < |at| ensures CountsAs(votes[at[k]], NormalizeAll(votes)[k]) { NormalizedCounts(votes[k]); }
  }

  lemma SeatsAreSeats(votes: seq<Vote>, seats: seq<string>, others: seq<Vote>)
    ensures var all := NormalizeAll(Seats(votes, seats) + others);
            |all| == |seats| + |others| && forall i :: 0 <= i < |seats| ==> IsSeat(votes, seats[i], all[i])
  {
    var all := NormalizeAll(Seats(votes, seats) + others);
    forall i | 0 <= i < |seats| ensures IsSeat(votes, seats[i], all[i]) {
      SeatIs(votes, seats[i]);
      assert all[i] == Normalized(Seat(votes, seats[i]));
    }
  }

  lemma OthersCount(votes: seq<Vote>, front: seq<Vote>, others: seq<Vote>, at: seq<nat>)
    requires Reads(votes, at, others)
    ensures forall k :: 0 <= k < |at| ==> CountsAs(votes[at[k]], NormalizeAll(front + others)[|front| + k])
  {
    forall k | 0 <= k < |at| ensures CountsAs(votes[at[k]], NormalizeAll(front + others)[|front| + k]) {
      NormalizedCounts(votes[at[k]]);
    }
  }

  lemma ParticipantsAreSeated(votes: seq<Vote>, seats: seq<string>) returns (at: seq<nat>)
    ensures AreSeated(votes, seats, NormalizeAll(Seats(votes, seats) + Outsiders(votes, seats)), at)
  {
    at := OutsidersAre(votes, seats);
    SeatsAreSeats(votes, seats, Outsiders(votes, seats));
    OthersCount(votes, Seats(votes, seats), Outsiders(votes, seats), at);
  }

  /** With participants named, this is the committee; otherwise it is everybody who voted. */
  lemma CommitteeIs(votes: seq<Vote>, options: Options) returns (at: seq<nat>)
    ensures AreSeated(votes, if options.participants.Some? then options.participants.value else [],
                      Committee(votes, options), at)
  {
    if options.participants.Some? && options.participants.value != [] {
      at := ParticipantsAreSeated(votes, options.participants.value);
    } else {
      at := AllAreSeated(votes);
    }
  }

  // ----- What decides -----

  /** A sum, from the front. */
  function Sum(xs: seq<real>): real {
    if xs == [] then 0.0 else xs[0] + Sum(xs[1..])
  }

  lemma {:induction false} SumLast(xs: seq<real>, x: real)
    ensures Sum(xs + [x]) == Sum(xs) + x
  {
    if xs == [] {
      assert [x][1..] == [];
    } else {
      assert (xs + [x])[1..] == xs[1..] + [x];
      SumLast(xs[1..], x);
    }
  }

  function Weights(all: seq<Counted>): seq<real> {
    seq(|all|, i requires 0 <= i < |all| => all[i].weight)
  }

  /** An approval backs the motion with its weight times its confidence, anything else with
      nothing. */
  function Backs(c: Counted): real {
    match c.ballot
    case Approve => c.weight * c.confidence
    case _ => 0.0
  }

  function Backings(all: seq<Counted>): seq<real> {
    seq(|all|, i requires 0 <= i < |all| => Backs(all[i]))
  }

  function Confidences(all: seq<Counted>): seq<real> {
    seq(|all|, i requires 0 <= i < |all| => all[i].confidence)
  }

  lemma {:induction false} SumsAre(all: seq<Counted>)
    ensures TotalWeight(all) == Sum(Weights(all))
    ensures ApproveWeight(all) == Sum(Backings(all))
    ensures ConfidenceSum(all) == Sum(Confidences(all))
  {
    if all != [] {
      var front, last := all[..|all| - 1], all[|all| - 1];
      SumsAre(front);
      SumLast(Weights(front), last.weight);
      SumLast(Backings(front), Backs(last));
      SumLast(Confidences(front), last.confidence);
      assert Weights(all) == Weights(front) + [last.weight];
      assert Backings(all) == Backings(front) + [Backs(last)];
      assert Confidences(all) == Confidences(front) + [last.confidence];
    }
  }

  /** The part is at least this share of the whole, and there is a whole. */
  predicate Reaches(part: real, whole: real, share: real) {
    whole > 0.0 && part >= share * whole
  }

  lemma QuotientReaches(part: real, whole: real, share: real)
    requires whole >= 0.0 && share > 0.0
    ensures (if whole == 0.0 then 0.0 else part / whole) >= share <==> Reaches(part, whole, share)
  {
    if whole > 0.0 {
      var x := part / whole;
      assert x * whole == part;
      if x >= share { assert (x - share) * whole >= 0.0; }
      if x < share { assert (share - x) * whole > 0.0; }
    }
  }

  lemma {:induction false} WeightsAreNotNegative(all: seq<Counted>)
    requires Sound(all)
    ensures TotalWeight(all) >= 0.0
  {
    if all != [] { WeightsAreNotNegative(all[..|all| - 1]); }
  }

  /** The quorum is 0.85 unless another is asked for, between 0.6 and 1; the failure
      threshold 0.5 unless another is asked for, between 0.5 and the quorum. */
  lemma ThresholdsAre(votes: seq<Vote>, options: Options)
    ensures var v := EvaluateCommittee(votes, options);
            && IsClamped(if options.quorum.Some? then options.quorum.value else Finite(0.85), 0.6, 1.0, v.quorum)
            && IsClamped(if options.failure.Some? then options.failure.value else Finite(0.5), 0.5, v.quorum, v.failure)
            && 0.5 <= v.failure <= v.quorum
  {
  }

  /** Both the approving share of the weight and the mean confidence reach the threshold. */
  ghost predicate BothReach(all: seq<Counted>, share: real) {
    Reaches(Sum(Backings(all)), Sum(Weights(all)), share) && Reaches(Sum(Confidences(all)), |all| as real, share)
  }

  lemma BothReachIff(all: seq<Counted>, share: real)
    requires Sound(all) && share > 0.0
    ensures BothReach(all, share) <==> Support(all) >= share && MeanConfidence(all) >= share
  {
    SumsAre(all);
    WeightsAreNotNegative(all);
    QuotientReaches(ApproveWeight(all), TotalWeight(all), share);
    QuotientReaches(ConfidenceSum(all), |all| as real, share);
  }

  /** Accepted when both reach the quorum, a case for sidecars when one of them does not even
      reach the failure threshold, and failed in between. */
  lemma VerdictIs(votes: seq<Vote>, options: Options)
    ensures var v, all := EvaluateCommittee(votes, options), Committee(votes, options);
            && (v.status == Accepted <==> BothReach(all, v.quorum))
            && (v.status == NeedsSidecar <==> !BothReach(all, v.failure))
            && (v.status == ConsensusEngine.Failed <==> BothReach(all, v.failure) && !BothReach(all, v.quorum))
  {
    var v, all := EvaluateCommittee(votes, options), Committee(votes, options);
    ThresholdsAre(votes, options);
    BothReachIff(all, v.quorum);
    BothReachIff(all, v.failure);
  }

  // ----- Who is called in -----

  lemma {:induction false} IdleAre(candidates: seq<string>, active: seq<string>)
    ensures Inactive(candidates, active) == Without(candidates, active)
  {
    if candidates != [] { IdleAre(candidates[1..], active); }
  }

  /** When sidecars are needed, the first two candidates who are not active are called in, in
      their order, or all of them if there are fewer. */
  lemma FirstIdleAreCalled(votes: seq<Vote>, options: Options)
    ensures var v := EvaluateCommittee(votes, options);
            var idle := Without(options.candidates, Active(votes, options));
            v.sidecars == if v.status != NeedsSidecar then [] else if |idle| <= 2 then idle else idle[..2]
  {
    IdleAre(options.candidates, Active(votes, options));
  }
}
