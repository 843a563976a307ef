/** What a mention is, and every turn of a round table in plain terms
    (src/services/ConversationBus.ts:255-569). */
module SpeakerTurns {
  import opened Lists
  import opened SpeakerQueue

  // ----- Mentions -----

  /** A letter, a digit, an underscore or a hyphen, by its code. */
  predicate IsWordChar(c: char) {
    var n := c as int;
    65 <= n <= 90 || 97 <= n <= 122 || 48 <= n <= 57 || n == 95 || n == 45
  }

  /** An `@` with a name character right behind it. */
  predicate StartsMention(content: string, p: nat) {
    p + 1 < |content| && content[p] == '@' && IsWordChar(content[p + 1])
  }

  /** The name behind the `@`: all name characters up to the first other one. */
  ghost predicate IsNameAt(content: string, p: nat, name: string) {
    && p + 1 + |name| <= |content| && name == content[p + 1..p + 1 + |name|]
    && (forall i :: 0 <= i < |name| ==> IsWordChar(name[i]))
    && (p + 1 + |name| == |content| || !IsWordChar(content[p + 1 + |name|]))
  }

  lemma {:induction false} NameLengthIs(s: string)
    ensures forall i :: 0 <= i < NameLength(s) ==> IsWordChar(s[i])
    ensures NameLength(s) == |s| || !IsWordChar(s[NameLength(s)])
  {
    if s != "" && IsWordChar(s[0]) {
      NameLengthIs(s[1..]);
      forall i | 0 <= i < NameLength(s) ensures IsWordChar(s[i]) {
        if i > 0 { assert s[i] == s[1..][i - 1]; }
      }
    }
  }

  /** The mentions of `content` from position `from` on. */
  function MentionsFrom(content: string, from: nat): seq<string>
    requires from <= |content|
  {
    Mentions(content[from..])
  }

  lemma NoMentionAt(content: string, p: nat)
    requires p < |content| && !StartsMention(content, p)
    ensures MentionsFrom(content, p) == MentionsFrom(content, p + 1)
  {
    var s := content[p..];
    assert s[1..] == content[p + 1..];
    NameLengthIs(s[1..]);
    if s[0] == '@' && |s| > 1 { assert s[1..][0] == content[p + 1]; }
  }

  lemma MentionAt(content: string, p: nat) returns (name: string)
    requires StartsMention(content, p)
    ensures name != "" && IsNameAt(content, p, name)
    ensures p + 1 + |name| <= |content| && MentionsFrom(content, p) == [name] + MentionsFrom(content, p + 1 + |name|)
  {
    var s := content[p..];
    var n := NameLength(s[1..]);
    NameLengthIs(s[1..]);
    assert s[1..][0] == content[p + 1];
    name := s[1..n + 1];
    assert s[n + 1..] == content[p + 1 + n..];
    assert s[1..] == content[p + 1..];
    forall i | 0 <= i < n ensures name[i] == content[p + 1 + i] && IsWordChar(name[i]) {
      assert name[i] == s[1..][i];
    }
    assert n < |s[1..]| ==> s[1..][n] == content[p + 1 + n];
  }

  lemma NameHoldsNoMention(content: string, p: nat, name: string, q: nat)
    requires IsNameAt(content, p, name) && p < q < p + 1 + |name|
    ensures !StartsMention(content, q)
  {
    assert content[q] == name[q - p - 1];
  }

  /** `names` are the mentions from `from` on: one for every `@` with a name behind it, in
      their order, each the whole name. */
  ghost predicate AreMentions(content: string, from: nat, names: seq<string>)
    requires from <= |content|
    decreases |content| - from
  {
    if from == |content| then names == []
    else if StartsMention(content, from) then
      names != [] && IsNameAt(content, from, names[0]) && AreMentions(content, from + 1, names[1..])
    else AreMentions(content, from + 1, names)
  }

  lemma {:induction false} NothingWithin(content: string, from: nat, to: nat, names: seq<string>)
    requires from <= to <= |content| && AreMentions(content, to, names)
    requires forall q :: from <= q < to ==> !StartsMention(content, q)
    ensures AreMentions(content, from, names)
    decreases |content| - from
  {
    if from < to { NothingWithin(content, from + 1, to, names); }
  }

  lemma {:induction false} MentionsFromAre(content: string, from: nat)
    requires from <= |content|
    ensures AreMentions(content, from, MentionsFrom(content, from))
    decreases |content| - from
  {
    if from < |content| {
      if StartsMention(content, from) {
        var name := MentionAt(content, from);
        var end := from + 1 + |name|;
        MentionsFromAre(content, end);
        forall q | from + 1 <= q < end ensures !StartsMention(content, q) {
          NameHoldsNoMention(content, from, name, q);
        }
        NothingWithin(content, from + 1, end, MentionsFrom(content, end));
        assert MentionsFrom(content, from)[1..] == MentionsFrom(content, end);
      } else {
        NoMentionAt(content, from);
        MentionsFromAre(content, from + 1);
      }
    }
  }

  /** The mentions of a message: every `@` with a name behind it, from left to right. */
  lemma MentionsAre(content: string)
    ensures AreMentions(content, 0, Mentions(content))
  {
    MentionsFromAre(content, 0);
    assert content[0..] == content;
  }

  predicate IsOther(name: string, participants: seq<string>, speaker: string) {
    name in participants && name != speaker
  }

  /** Mentions of anybody but the other participants are left out, the rest keeps its order:
      this and the next say so, list by list and name by name. */
  lemma {:induction false} ValidSplits(a: seq<string>, b: seq<string>, participants: seq<string>, speaker: string)
    ensures Valid(a + b, participants, speaker) == Valid(a, participants, speaker) + Valid(b, participants, speaker)
  {
    if a == [] {
      assert a + b == b;
    } else {
      assert (a + b)[1..] == a[1..] + b;
      ValidSplits(a[1..], b, participants, speaker);
    }
  }

  lemma ValidOne(name: string, participants: seq<string>, speaker: string)
    ensures Valid([name], participants, speaker) == if IsOther(name, participants, speaker) then [name] else []
  {
    assert [name][1..] == [];
  }

  // ----- Turns -----

  /** The first participant but the speaker, if there is one. */
  ghost predicate IsFirstOther(participants: seq<string>, speaker: string, next: seq<string>) {
    || (next == [] && forall i :: 0 <= i < |participants| ==> participants[i] == speaker)
    || (exists i :: 0 <= i < |participants| && participants[i] != speaker && next == [participants[i]]
                    && forall j :: 0 <= j < i ==> participants[j] == speaker)
  }

  lemma {:induction false} FirstOtherIsFirst(participants: seq<string>, speaker: string)
    ensures IsFirstOther(participants, speaker, FirstOther(participants, speaker))
  {
    if participants != [] && participants[0] == speaker {
      var rest, next := participants[1..], FirstOther(participants[1..], speaker);
      FirstOtherIsFirst(rest, speaker);
      if next != [] {
        var i :| 0 <= i < |rest| && rest[i] != speaker && next == [rest[i]]
                 && forall j :: 0 <= j < i ==> rest[j] == speaker;
        assert participants[i + 1] == rest[i];
        forall j | 0 <= j < i + 1 ensures participants[j] == speaker {
          if j > 0 { assert participants[j] == rest[j - 1]; }
        }
      } else {
        forall j | 0 <= j < |participants| ensures participants[j] == speaker {
          if j > 0 { assert participants[j] == rest[j - 1]; }
        }
      }
    }
  }

  /** The queue after a reply: the others it mentions by first appearance, then the rest in the
      old order; when that is nobody and turns are left, the first other participant. */
  ghost predicate IsNextQueue(participants: seq<string>, queue: seq<string>, speaker: string, content: string,
                              turnCount: nat, after: seq<string>)
  {
    var valid := Valid(Mentions(content), participants, speaker);
    if queue == [] && valid == [] then
      if turnCount < 6 then IsFirstOther(participants, speaker, after) else after == []
    else after == FirstAppearances(valid) + Without(queue, valid)
  }

  /** One turn by the head of the queue. */
  ghost predicate TurnDoes(participants: seq<string>, st: State, turn: Turn, next: State)
    requires st.queue != []
  {
    var speaker, rest := st.queue[0], st.queue[1..];
    match turn
    case Presence =>
      next.posts == st.posts + [speaker] && next.turnCount == st.turnCount + 1 && next.queue == rest && !next.done
    case NotReady => next.posts == st.posts && next.turnCount == st.turnCount && next.queue == rest && !next.done
    case Spoke(content, stop) =>
      && next.posts == st.posts + [speaker] && next.turnCount == st.turnCount + 1 && next.done == stop
      && IsNextQueue(participants, rest, speaker, content, next.turnCount, next.queue)
    case Failed => next.posts == st.posts && next.turnCount == st.turnCount && next.done
  }

  lemma OneTurnDoes(participants: seq<string>, st: State, turn: Turn)
    requires Goes(st) && Distinct(st.queue)
    ensures TurnDoes(participants, st, turn, OneTurn(participants, st, turn))
  {
    var speaker, rest := st.queue[0], st.queue[1..];
    assert st.queue == [speaker] + rest;
    TailIsDistinct(speaker, rest);
    if turn.Spoke? {
      QueueAfterTurn(participants, rest, speaker, turn.content, st.turnCount + 1);
      FirstOtherIsFirst(participants, speaker);
    }
  }

  /** Turn number `n` takes place and leads from `st` to `next`: somebody is in line, fewer
      than six turns were taken, nothing has stopped the table. */
  ghost predicate TakesPlace(participants: seq<string>, turns: nat -> Turn, aborted: nat -> bool, n: nat, st: State,
                             next: State)
  {
    !st.done && st.queue != [] && st.turnCount < 6 && !aborted(n) && TurnDoes(participants, st, turns(n), next)
  }

  /** The round table before every turn from number `from` on, up to where it stops. */
  ghost predicate IsConvening(participants: seq<string>, turns: nat -> Turn, aborted: nat -> bool, from: nat,
                              states: seq<State>)
  {
    && states != []
    && (forall k :: 0 <= k < |states| - 1 ==>
          TakesPlace(participants, turns, aborted, from + k, states[k], states[k + 1]))
    && var last := states[|states| - 1];
       last.done || last.queue == [] || last.turnCount >= 6 || aborted(from + |states| - 1)
  }

  lemma {:induction false} LoopConvenes(participants: seq<string>, turns: nat -> Turn, aborted: nat -> bool, k: nat,
                                        st: State) returns (states: seq<State>)
    requires SpeakerQueue.Inv(participants, st)
    ensures IsConvening(participants, turns, aborted, k, states)
    ensures states[0] == st && states[|states| - 1] == Loop(participants, turns, aborted, k, st)
    decreases MAX_TURNS - st.turnCount, |st.queue|
  {
    states := [st];
    if Goes(st) && !aborted(k) {
      var next := OneTurn(participants, st, turns(k));
      OneTurnDoes(participants, st, turns(k));
      TurnKeepsInv(participants, st, turns(k));
      var later := [next];
      if !next.done { later := LoopConvenes(participants, turns, aborted, k + 1, next); }
      OneMoreTurn(participants, turns, aborted, k, st, later);
      states := [st] + later;
    }
  }

  lemma OneMoreTurn(participants: seq<string>, turns: nat -> Turn, aborted: nat -> bool, k: nat, st: State,
                    later: seq<State>)
    requires IsConvening(participants, turns, aborted, k + 1, later) && Goes(st) && !aborted(k)
    requires TurnDoes(participants, st, turns(k), later[0])
    ensures IsConvening(participants, turns, aborted, k, [st] + later)
  {
    var states := [st] + later;
    forall j | 0 <= j < |states| - 1
      ensures TakesPlace(participants, turns, aborted, k + j, states[j], states[j + 1])
    {
      if j > 0 { assert TakesPlace(participants, turns, aborted, k + 1 + (j - 1), later[j - 1], later[j - 1 + 1]); }
    }
  }

  /** A round table among distinct participants, from the first turn to the last. */
  lemma RoundTable(participants: seq<string>, turns: nat -> Turn, aborted: nat -> bool) returns (states: seq<State>)
    requires Distinct(participants)
    ensures IsConvening(participants, turns, aborted, 0, states)
    ensures states[0] == State(participants, 0, [], false)
    ensures states[|states| - 1] == Loop(participants, turns, aborted, 0, State(participants, 0, [], false))
  {
    states := LoopConvenes(participants, turns, aborted, 0, State(participants, 0, [], false));
  }
}
