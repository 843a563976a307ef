/** The speaker queue of a convened round table (src/services/ConversationBus.ts:262-569).
    What a turn brings (a reply's text, a failure, an early stop, an abort) is an input. */
module SpeakerQueue {
  import opened Lists

  const MAX_TURNS: nat := 6

  // ----- Mentions -----

  predicate IsNameChar(c: char) {
    'a' <= c <= 'z' || 'A' <= c <= 'Z' || '0' <= c <= '9' || c == '_' || c == '-'
  }

  function NameLength(s: string): (n: nat)
    ensures n <= |s|
  {
    if s != "" && IsNameChar(s[0]) then 1 + NameLength(s[1..]) else 0
  }

  /** `parseMentions`: the matches of /@([a-zA-Z0-9_-]+)/g, from left to right. */
  function Mentions(content: string): seq<string>
    decreases |content|
  {
    if content == "" then []
    else
      var n := if content[0] == '@' then NameLength(content[1..]) else 0;
      if n > 0 then [content[1..n + 1]] + Mentions(content[n + 1..]) else Mentions(content[1..])
  }

  function Valid(mentions: seq<string>, participants: seq<string>, speaker: string): seq<string> {
    if mentions == [] then []
    else (if mentions[0] in participants && mentions[0] != speaker then [mentions[0]] else [])
         + Valid(mentions[1..], participants, speaker)
  }

  // ----- The queue -----

  function IndexOf(queue: seq<string>, name: string): (i: nat)
    ensures i <= |queue| && (i < |queue| ==> queue[i] == name)
    ensures name !in queue[..i]
  {
    if queue == [] || queue[0] == name then 0 else 1 + IndexOf(queue[1..], name)
  }

  /** Without the first occurrence, if there is one. */
  function TakenOut(queue: seq<string>, name: string): seq<string> {
    var i := IndexOf(queue, name);
    if i < |queue| then RemoveAt(queue, i) else queue
  }

  /** The name in front, its first occurrence taken out. */
  function ToFront(queue: seq<string>, name: string): seq<string> {
    [name] + TakenOut(queue, name)
  }

  /** The valid mentions moved to the front, the last one first. */
  function Bumped(queue: seq<string>, valid: seq<string>): seq<string> {
    if valid == [] then queue else ToFront(Bumped(queue, valid[1..]), valid[0])
  }

  function FirstOther(participants: seq<string>, speaker: string): seq<string> {
    if participants == [] then []
    else if participants[0] != speaker then [participants[0]]
    else FirstOther(participants[1..], speaker)
  }

  /** The queue after a completed turn. */
  function AfterTurn(participants: seq<string>, queue: seq<string>, speaker: string, content: string,
                     turnCount: nat): seq<string>
  {
    var bumped := Bumped(queue, Valid(Mentions(content), participants, speaker));
    if bumped == [] && turnCount < MAX_TURNS then FirstOther(participants, speaker) else bumped
  }

  // ----- One turn -----

  datatype Turn =
    | Presence                            // on-line without an inbox: a canned message
    | NotReady                            // live chairs required, and this one is not
    | Spoke(content: string, stop: bool)  // `stop`: the stopping criterion ends the loop
    | Failed

  /** `posts` are the senders of the assistant messages; `done` is a `break`. */
  datatype State = State(queue: seq<string>, turnCount: nat, posts: seq<string>, done: bool)

  predicate Goes(st: State) {
    !st.done && st.queue != [] && st.turnCount < MAX_TURNS
  }

  function OneTurn(participants: seq<string>, st: State, turn: Turn): State
    requires Goes(st)
  {
    var speaker, rest := st.queue[0], st.queue[1..];
    match turn
    case Presence => State(rest, st.turnCount + 1, st.posts + [speaker], false)
    case NotReady => State(rest, st.turnCount, st.posts, false)
    case Spoke(content, stop) =>
      State(AfterTurn(participants, rest, speaker, content, st.turnCount + 1), st.turnCount + 1,
            st.posts + [speaker], stop)
    case Failed => State(rest, st.turnCount, st.posts, true)
  }

  /** The loop: turn `k` brings `turns(k)`; before it the topic may be aborted. */
  function Loop(participants: seq<string>, turns: nat -> Turn, aborted: nat -> bool, k: nat, st: State): State
    decreases MAX_TURNS - st.turnCount, |st.queue|
  {
    if !Goes(st) || aborted(k) then st
    else
      var next := OneTurn(participants, st, turns(k));
      if next.done then next else Loop(participants, turns, aborted, k + 1, next)
  }

  class ConversationBus {
    var speakerQueue: seq<string>
    var turnCount: nat
    var posts: seq<string>

    /** Moves the mentioned participants to the front, last one first. */
    method Prepend(valid: seq<string>)
      modifies `speakerQueue
      ensures speakerQueue == Bumped(old(speakerQueue), valid)
    {
      var k := |valid|;
      while k > 0
        invariant 0 <= k <= |valid| && speakerQueue == Bumped(old(speakerQueue), valid[k..])
      {
        k := k - 1;
        assert valid[k..][0] == valid[k] && valid[k..][1..] == valid[k + 1..];
        var idx := IndexOf(speakerQueue, valid[k]);
        if idx != |speakerQueue| {
          speakerQueue := RemoveAt(speakerQueue, idx);
        }
        speakerQueue := [valid[k]] + speakerQueue;
      }
      assert valid[0..] == valid;
    }

    function Now(done: bool): State
      reads this
    {
      State(speakerQueue, turnCount, posts, done)
    }

    method TakeTurn(participants: seq<string>, turn: Turn) returns (done: bool)
      requires Goes(Now(false))
      modifies this
      ensures Now(done) == OneTurn(participants, old(Now(false)), turn)
    {
      var currentSpeaker := speakerQueue[0];
      speakerQueue := speakerQueue[1..];
      match turn {
        case Presence =>
          posts := posts + [currentSpeaker];
          turnCount := turnCount + 1;
          return false;
        case NotReady =>
          return false;
        case Spoke(content, stop) =>
          posts := posts + [currentSpeaker];
          turnCount := turnCount + 1;
          Prepend(Valid(Mentions(content), participants, currentSpeaker));
          if |speakerQueue| == 0 && turnCount < MAX_TURNS {
            speakerQueue := FirstOther(participants, currentSpeaker);
          }
          return stop;
        case Failed =>
          return true;
      }
    }

    /** Nothing happens without participants. */
    method Convene(participants: seq<string>, turns: nat -> Turn, aborted: nat -> bool)
      modifies this
      ensures participants == [] ==> Now(false) == old(Now(false))
      ensures participants != [] ==>
                exists done :: Now(done) == Loop(participants, turns, aborted, 0, State(participants, 0, [], false))
    {
      if |participants| == 0 {
        return;
      }
      ghost var end := Loop(participants, turns, aborted, 0, State(participants, 0, [], false));
      speakerQueue, turnCount, posts := participants, 0, [];
      var k, done := 0, false;
      while !done && |speakerQueue| > 0 && turnCount < MAX_TURNS && !aborted(k)
        invariant !done ==> Loop(participants, turns, aborted, k, Now(false)) == end
        invariant done ==> Now(true) == end
        decreases !done, MAX_TURNS - turnCount, |speakerQueue|
      {
        done := TakeTurn(participants, turns(k));
        k := k + 1;
      }
      assert Now(done) == end;
    }
  }

  // ----- What a bump does -----

  /** Each name once, where it first appears. */
  function FirstAppearances(s: seq<string>): seq<string> {
    if s == [] then []
    else
      var front, last := s[..|s| - 1], s[|s| - 1];
      FirstAppearances(front) + (if last in front then [] else [last])
  }

  lemma {:induction false} WithoutTwice(s: seq<string>, names: seq<string>, name: string)
    ensures Without(Without(s, names), [name]) == Without(s, [name] + names)
  {
    if s != [] {
      WithoutTwice(s[1..], names, name);
      WithoutSplits(if s[0] in names then [] else [s[0]], Without(s[1..], names), [name]);
    }
  }

  lemma ToFrontIsFilter(queue: seq<string>, name: string)
    requires Distinct(queue)
    ensures ToFront(queue, name) == [name] + Without(queue, [name])
  {
    var i := IndexOf(queue, name);
    if i < |queue| {
      RemoveIsWithout(queue, i);
    } else {
      assert queue[..i] == queue;
      WithoutNone(queue, [name]);
    }
  }

  /** First appearances, read from the front instead. */
  lemma {:induction false} FirstAppearancesFromFront(name: string, s: seq<string>)
    ensures FirstAppearances([name] + s) == [name] + Without(FirstAppearances(s), [name])
  {
    var t := [name] + s;
    if s == [] {
      assert t[..0] == [];
    } else {
      var front, last := s[..|s| - 1], s[|s| - 1];
      assert t[..|t| - 1] == [name] + front;
      FirstAppearancesFromFront(name, front);
      WithoutSplits(FirstAppearances(front), if last in front then [] else [last], [name]);
    }
  }

  lemma {:induction false} FirstAppearancesAre(s: seq<string>)
    ensures Distinct(FirstAppearances(s)) && forall x :: x in FirstAppearances(s) <==> x in s
  {
    if s != [] {
      var front, last := s[..|s| - 1], s[|s| - 1];
      assert s == front + [last];
      FirstAppearancesAre(front);
    }
  }

  /** Bumping puts the mentions in front in the order of their first appearance; the rest
      of the queue keeps its order. */
  lemma {:induction false} BumpedIs(queue: seq<string>, valid: seq<string>)
    requires Distinct(queue)
    ensures Bumped(queue, valid) == FirstAppearances(valid) + Without(queue, valid)
    ensures Distinct(FirstAppearances(valid) + Without(queue, valid))
  {
    if valid == [] {
      WithoutNone(queue, []);
    } else {
      BumpedIs(queue, valid[1..]);
      BumpOne(queue, valid[0], valid[1..]);
      assert valid == [valid[0]] + valid[1..];
    }
    FrontIsDistinct(queue, valid);
  }

  lemma BumpOne(queue: seq<string>, name: string, rest: seq<string>)
    requires Distinct(FirstAppearances(rest) + Without(queue, rest))
    ensures ToFront(FirstAppearances(rest) + Without(queue, rest), name)
            == FirstAppearances([name] + rest) + Without(queue, [name] + rest)
  {
    var f, w := FirstAppearances(rest), Without(queue, rest);
    calc {
      ToFront(f + w, name);
    == { ToFrontIsFilter(f + w, name); }
      [name] + Without(f + w, [name]);
    == { WithoutSplits(f, w, [name]); }
      [name] + (Without(f, [name]) + Without(w, [name]));
    == { WithoutTwice(queue, rest, name); }
      [name] + (Without(f, [name]) + Without(queue, [name] + rest));
    ==
      ([name] + Without(f, [name])) + Without(queue, [name] + rest);
    == { FirstAppearancesFromFront(name, rest); }
      FirstAppearances([name] + rest) + Without(queue, [name] + rest);
    }
  }

  lemma FrontIsDistinct(queue: seq<string>, valid: seq<string>)
    requires Distinct(queue)
    ensures Distinct(FirstAppearances(valid) + Without(queue, valid))
    ensures forall x :: x in FirstAppearances(valid) + Without(queue, valid) <==> x in queue || x in valid
  {
    WithoutMembers(queue, valid);
    FirstAppearancesAre(valid);
    DistinctJoin(FirstAppearances(valid), Without(queue, valid));
  }

  lemma DistinctJoin(a: seq<string>, b: seq<string>)
    requires Distinct(a) && Distinct(b) && forall x :: x in a ==> x !in b
    ensures Distinct(a + b)
  {
    forall i, j | 0 <= i < j < |a + b| ensures (a + b)[i] != (a + b)[j] {
      if i < |a| <= j { assert a[i] !in b && b[j - |a|] in b; }
    }
  }

  // ----- Runs -----

  lemma {:induction false} ValidAre(mentions: seq<string>, participants: seq<string>, speaker: string)
    ensures forall x :: x in Valid(mentions, participants, speaker)
                        <==> x in mentions && x in participants && x != speaker
  {
    if mentions != [] {
      assert mentions == [mentions[0]] + mentions[1..];
      ValidAre(mentions[1..], participants, speaker);
    }
  }

  lemma {:induction false} FirstOtherIs(participants: seq<string>, speaker: string)
    ensures |FirstOther(participants, speaker)| <= 1
    ensures forall x :: x in FirstOther(participants, speaker) ==> x in participants && x != speaker
    ensures FirstOther(participants, speaker) == [] <==> forall x :: x in participants ==> x == speaker
  {
    if participants != [] {
      var first, rest := participants[0], participants[1..];
      assert participants == [first] + rest;
      FirstOtherIs(rest, speaker);
      assert first in participants && forall x :: x in participants <==> x == first || x in rest;
    }
  }

  /** What holds between two turns: the queue is a duplicate-free list of participants
      without the last speaker, and there is one assistant message for every turn. */
  ghost predicate Inv(participants: seq<string>, st: State) {
    && Distinct(st.queue) && (forall x :: x in st.queue ==> x in participants)
    && |st.posts| == st.turnCount <= MAX_TURNS
    && (forall i :: 0 <= i < |st.posts| ==> st.posts[i] in participants)
    && (forall i :: 0 < i < |st.posts| ==> st.posts[i] != st.posts[i - 1])
    && (st.posts != [] ==> st.posts[|st.posts| - 1] !in st.queue)
  }

  /** A completed turn: the valid mentions by first appearance, then the rest in the old
      order; one other participant when that is empty and turns are left. */
  lemma QueueAfterTurn(participants: seq<string>, queue: seq<string>, speaker: string, content: string, turnCount: nat)
    requires Distinct(queue)
    ensures var valid := Valid(Mentions(content), participants, speaker);
            var after := AfterTurn(participants, queue, speaker, content, turnCount);
            && (queue != [] || valid != [] ==> after == FirstAppearances(valid) + Without(queue, valid))
            && (queue == [] && valid == [] ==> |after| <= 1)
            && (queue == [] && valid == [] ==> forall x :: x in after ==> x in participants && x != speaker)
            && (after == [] <==> queue == [] && valid == [] &&
                                 (turnCount >= MAX_TURNS || forall x :: x in participants ==> x == speaker))
  {
    var valid := Valid(Mentions(content), participants, speaker);
    FirstOtherIs(participants, speaker);
    BumpedIs(queue, valid);
    FrontIsDistinct(queue, valid);
    var front := FirstAppearances(valid) + Without(queue, valid);
    if queue != [] { assert queue[0] in front; }
    if valid != [] { assert valid[0] in front; }
    if queue == [] && valid == [] { assert front == []; }
  }

  lemma QueueStaysSound(participants: seq<string>, queue: seq<string>, speaker: string, content: string, turnCount: nat)
    requires Distinct(queue) && speaker !in queue && forall x :: x in queue ==> x in participants
    ensures var after := AfterTurn(participants, queue, speaker, content, turnCount);
            Distinct(after) && speaker !in after && forall x :: x in after ==> x in participants
  {
    var valid := Valid(Mentions(content), participants, speaker);
    ValidAre(Mentions(content), participants, speaker);
    FirstOtherIs(participants, speaker);
    BumpedIs(queue, valid);
    FrontIsDistinct(queue, valid);
  }

  lemma TailIsDistinct(first: string, rest: seq<string>)
    requires Distinct([first] + rest)
    ensures Distinct(rest) && first !in rest
  {
    var s := [first] + rest;
    assert s[0] == first && forall i :: 0 <= i < |rest| ==> s[i + 1] == rest[i];
  }

  lemma TurnKeepsInv(participants: seq<string>, st: State, turn: Turn)
    requires Goes(st) && Inv(participants, st)
    ensures Inv(participants, OneTurn(participants, st, turn))
  {
    var speaker, rest := st.queue[0], st.queue[1..];
    assert st.queue == [speaker] + rest;
    TailIsDistinct(speaker, rest);
    if turn.Spoke? { QueueStaysSound(participants, rest, speaker, turn.content, st.turnCount + 1); }
  }

  lemma {:induction false} LoopKeepsInv(participants: seq<string>, turns: nat -> Turn, aborted: nat -> bool, k: nat,
                                        st: State)
    requires Inv(participants, st)
    ensures Inv(participants, Loop(participants, turns, aborted, k, st))
    decreases MAX_TURNS - st.turnCount, |st.queue|
  {
    if Goes(st) && !aborted(k) {
      var next := OneTurn(participants, st, turns(k));
      TurnKeepsInv(participants, st, turns(k));
      if !next.done { LoopKeepsInv(participants, turns, aborted, k + 1, next); }
    }
  }

  /** Whatever the chairs answer: at most six messages, all by participants, never two in
      a row by the same one, and a queue without duplicates. */
  lemma ConveneIsBounded(participants: seq<string>, turns: nat -> Turn, aborted: nat -> bool)
    requires Distinct(participants)
    ensures Inv(participants, Loop(participants, turns, aborted, 0, State(participants, 0, [], false)))
  {
    LoopKeepsInv(participants, turns, aborted, 0, State(participants, 0, [], false));
  }
}
