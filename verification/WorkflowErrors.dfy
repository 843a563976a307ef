/** Which texts the front-matter parser refuses, told from their lines alone
    (src/services/WorkflowLoader.ts:144-207). */
module WorkflowErrors {
  import opened Wrappers
  import opened Texts
  import opened WorkflowText
  import opened WorkflowLoader
  import opened WorkflowPaths
  import opened WorkflowLayout

  // ----- Lines -----

  /** What the parser sees of a line: the comment cut off, the leading spaces left out. */
  function Seen(line: string): string {
    StripComment(line)[Indent(StripComment(line))..]
  }

  /** Blank lines and lines that start with `#` are passed over. */
  predicate Shows(line: string) {
    var seen := Trim(StripComment(line));
    seen != "" && seen[0] != '#'
  }

  predicate IsItemLine(line: string) {
    Shows(line) && |Seen(line)| >= 2 && Seen(line)[0] == '-' && Seen(line)[1] == ' '
  }

  predicate IsKeyLine(line: string) {
    Shows(line) && !IsItemLine(line)
  }

  /** Where the line's text starts. */
  function Margin(line: string): nat {
    Indent(StripComment(line))
  }

  /** Line `n` is the first after `p` with something on it, a `#` at its very start included. */
  ghost predicate ComesNext(lines: seq<string>, p: nat, n: nat) {
    && p < n < |lines| && Trim(StripComment(lines[n])) != ""
    && forall m :: p < m < n ==> Trim(StripComment(lines[m])) == ""
  }

  /** Line `p` is a key with nothing after its colon, and the line that comes next is a list
      item, set in by `d` spaces. */
  ghost predicate OpensList(lines: seq<string>, p: nat, d: nat)
    requires p < |lines|
  {
    && IsKeyLine(lines[p]) && ':' in Seen(lines[p])
    && Trim(Seen(lines[p])[IndexOf(Seen(lines[p]), ':') + 1..]) == ""
    && exists n: nat :: ComesNext(lines, p, n) && IsItem(TrimStart(lines[n])) && Indent(lines[n]) == d
  }

  // The next two bind what they are about, so that a proof that only passes the facts on
  // does not take the lines apart.

  ghost predicate IsKeyAt(lines: seq<string>, q: nat)
    requires q < |lines|
  {
    forall x :: x == lines[q] ==> IsKeyLine(x)
  }

  ghost predicate OpensAt(lines: seq<string>, p: nat, d: nat)
    requires p < |lines|
  {
    forall x :: x == lines ==> OpensList(x, p, d)
  }

  /** Line `p` opens the list and is the last key before line `k`. */
  ghost predicate OpenedAt(lines: seq<string>, p: nat, k: nat, d: nat)
    requires k <= |lines|
  {
    p < k && OpensAt(lines, p, d) && forall q :: p < q < k ==> !IsKeyAt(lines, q)
  }

  /** The last key before line `k` opens a list set in by `d`. */
  ghost predicate Collects(lines: seq<string>, k: nat, d: nat)
    requires k <= |lines|
  {
    exists p: nat :: OpenedAt(lines, p, k, d)
  }

  /** An item outside its list, or a key without a colon. */
  ghost predicate IsBad(lines: seq<string>, k: nat)
    requires k < |lines|
  {
    || (IsItemLine(lines[k]) && !Collects(lines, k, Margin(lines[k])))
    || (IsKeyLine(lines[k]) && ':' !in Seen(lines[k]))
  }

  // ----- What the parser does with them -----

  lemma {:induction false} NextLineComes(lines: seq<string>, p: nat, from: nat)
    requires p < from && forall m :: p < m < from && m < |lines| ==> Trim(StripComment(lines[m])) == ""
    ensures NextLine(lines, from).Some? ==>
              exists n: nat :: ComesNext(lines, p, n) && NextLine(lines, from) == Some(lines[n])
    ensures NextLine(lines, from).None? ==> forall n: nat :: !ComesNext(lines, p, n)
    decreases |lines| - from
  {
    if from < |lines| {
      if Trim(StripComment(lines[from])) != "" {
        assert ComesNext(lines, p, from);
      } else {
        NextLineComes(lines, p, from + 1);
      }
    }
  }

  lemma OneComesNext(lines: seq<string>, p: nat, m: nat, n: nat)
    requires ComesNext(lines, p, m) && ComesNext(lines, p, n)
    ensures m == n
  {
  }

  lemma OpensIff(lines: seq<string>, p: nat, d: nat)
    requires p < |lines| && IsKeyLine(lines[p]) && ':' in Seen(lines[p])
    ensures OpensList(lines, p, d) <==>
              && Trim(Seen(lines[p])[IndexOf(Seen(lines[p]), ':') + 1..]) == ""
              && ItemComes(lines, p + 1) && Indent(NextLine(lines, p + 1).value) == d
  {
    NextLineComes(lines, p, p + 1);
    if NextLine(lines, p + 1).Some? {
      var n: nat :| ComesNext(lines, p, n) && NextLine(lines, p + 1) == Some(lines[n]);
      forall m: nat | ComesNext(lines, p, m) ensures m == n { OneComesNext(lines, p, m, n); }
    }
  }

  predicate IsPending(st: State, d: nat) {
    st.pending.Some? && st.pending.value.indent == d
  }

  lemma ColonFound(s: string)
    ensures IndexOf(s, ':') < |s| <==> ':' in s
  {
    assert s[..|s|] == s;
  }

  /** When a line is refused, and with which error. */
  lemma StepFails(lines: seq<string>, k: nat, st: State)
    requires k < |lines| && WorkflowLoader.Inv(st)
    ensures var outside := IsItemLine(lines[k]) && !IsPending(st, Margin(lines[k]));
            var bare := IsKeyLine(lines[k]) && ':' !in Seen(lines[k]);
            && (OneLineStep(lines, k, st).Err? <==> outside || bare)
            && (outside ==> OneLineStep(lines, k, st) == Err(UnexpectedItem(k + 1)))
            && (bare ==> OneLineStep(lines, k, st) == Err(NoColon(k + 1)))
  {
    PopToKeeps(st.stack, Margin(lines[k]));
    ColonFound(Seen(lines[k]));
  }

  lemma ItemKeepsPending(lines: seq<string>, k: nat, st: State)
    requires k < |lines| && !IsKeyLine(lines[k]) && OneLineStep(lines, k, st).Ok?
    ensures OneLineStep(lines, k, st).value.pending == st.pending
  {
  }

  /** What becomes of the list being collected. */
  lemma StepPending(lines: seq<string>, k: nat, st: State, d: nat)
    requires k < |lines| && WorkflowLoader.Inv(st) && OneLineStep(lines, k, st).Ok?
    ensures IsPending(OneLineStep(lines, k, st).value, d) <==>
              if IsKeyLine(lines[k]) then OpensList(lines, k, d) else IsPending(st, d)
  {
    if IsKeyLine(lines[k]) {
      StepFails(lines, k, st);
      OpensIff(lines, k, d);
    } else {
      ItemKeepsPending(lines, k, st);
    }
  }

  lemma CollectsNext(lines: seq<string>, k: nat, d: nat)
    requires k < |lines|
    ensures Collects(lines, k + 1, d) <==>
              if IsKeyAt(lines, k) then OpensAt(lines, k, d) else Collects(lines, k, d)
  {
    if Collects(lines, k + 1, d) {
      var p: nat :| OpenedAt(lines, p, k + 1, d);
      if p < k { assert OpenedAt(lines, p, k, d); } else { OpenerIsKey(lines, k, d); }
    }
    if IsKeyAt(lines, k) && OpensAt(lines, k, d) { assert OpenedAt(lines, k, k + 1, d); }
    if !IsKeyAt(lines, k) && Collects(lines, k, d) {
      var p: nat :| OpenedAt(lines, p, k, d);
      assert OpenedAt(lines, p, k + 1, d);
    }
  }

  lemma OpenerIsKey(lines: seq<string>, p: nat, d: nat)
    requires p < |lines| && OpensAt(lines, p, d)
    ensures IsKeyAt(lines, p)
  {
    assert OpensList(lines, p, d);
  }

  lemma LineAt(lines: seq<string>, k: nat, d: nat)
    requires k < |lines|
    ensures IsKeyAt(lines, k) <==> IsKeyLine(lines[k])
    ensures OpensAt(lines, k, d) <==> OpensList(lines, k, d)
  {
  }

  lemma PendingNext(lines: seq<string>, k: nat, st: State, next: State, d: nat)
    requires k < |lines| && WorkflowLoader.Inv(st) && OneLineStep(lines, k, st) == Ok(next)
    requires IsPending(st, d) <==> Collects(lines, k, d)
    ensures IsPending(next, d) <==> Collects(lines, k + 1, d)
  {
    StepPending(lines, k, st, d);
    LineAt(lines, k, d);
    CollectsNext(lines, k, d);
  }

  /** The list being collected is the one that the last key before line `k` opened. */
  ghost predicate PendingFits(lines: seq<string>, k: nat, st: State)
    requires k <= |lines|
  {
    WorkflowLoader.Inv(st) && forall d: nat :: IsPending(st, d) <==> Collects(lines, k, d)
  }

  lemma FitsNext(lines: seq<string>, k: nat, st: State, next: State)
    requires k < |lines| && PendingFits(lines, k, st) && OneLineStep(lines, k, st) == Ok(next)
    ensures PendingFits(lines, k + 1, next)
  {
    OneLineKeepsInv(lines, k, st);
    forall d: nat ensures IsPending(next, d) <==> Collects(lines, k + 1, d) {
      PendingNext(lines, k, st, next, d);
    }
  }

  lemma {:induction false} PendingIsCollected(lines: seq<string>, k: nat)
    requires k <= |lines| && StateAt(lines, k).Ok?
    ensures PendingFits(lines, k, StateAt(lines, k).value)
  {
    if k > 0 {
      PendingIsCollected(lines, k - 1);
      FitsNext(lines, k - 1, StateAt(lines, k - 1).value, StateAt(lines, k).value);
    }
  }

  function ErrorAt(lines: seq<string>, k: nat): Error
    requires k < |lines|
  {
    if IsItemLine(lines[k]) then UnexpectedItem(k + 1) else NoColon(k + 1)
  }

  ghost predicate IsFirstBad(lines: seq<string>, k: nat) {
    k < |lines| && IsBad(lines, k) && forall j :: 0 <= j < k ==> !IsBad(lines, j)
  }

  lemma {:induction false} StoppedAtFirstBad(lines: seq<string>, k: nat)
    requires k <= |lines|
    ensures StateAt(lines, k).Ok? ==> forall j :: 0 <= j < k ==> !IsBad(lines, j)
    ensures StateAt(lines, k).Err? ==>
              exists j :: 0 <= j < k && IsFirstBad(lines, j) && StateAt(lines, k) == Err(ErrorAt(lines, j))
  {
    if k > 0 {
      StoppedAtFirstBad(lines, k - 1);
      if StateAt(lines, k - 1).Ok? {
        PendingIsCollected(lines, k - 1);
        StepFails(lines, k - 1, StateAt(lines, k - 1).value);
        if IsBad(lines, k - 1) { assert IsFirstBad(lines, k - 1); }
      }
    }
  }

  /** A text is refused if and only if one of its lines is bad: an item outside the list that
      the last key opened, at another indent, or a key without a colon. The first such line
      is the one the error names. */
  lemma ParseFailsIffBadLine(src: string)
    ensures Parse(src).Err? <==> exists k :: 0 <= k < |Lines(src)| && IsBad(Lines(src), k)
    ensures forall k :: IsFirstBad(Lines(src), k) ==> Parse(src) == Err(ErrorAt(Lines(src), k))
  {
    var lines := Lines(src);
    StateAtIsRun(lines, |lines|);
    StoppedAtFirstBad(lines, |lines|);
  }

  // ----- A comment that hides a list -----

  lemma WholeSeen(line: string)
    requires Uncommented(line) && line != "" && line[0] != ' ' && Trim(line) == line
    ensures StripComment(line) == line && Seen(line) == line && Trim(StripComment(line)) == line
  {
    UncommentedStays(line);
    assert line[0..] == line;
  }

  lemma KeyShows()
    ensures IsKeyLine("k:") && ':' in Seen("k:")
  {
    WholeSeen("k:");
    assert "k:"[1] == ':';
  }

  lemma HashIsPassedOver()
    ensures !Shows("#") && Trim(StripComment("#")) == "#" && !IsItem(TrimStart("#"))
  {
    WholeSeen("#");
  }

  lemma ItemShows()
    ensures IsItemLine("- a") && Margin("- a") == 0
  {
    WholeSeen("- a");
  }

  lemma NothingOpens(lines: seq<string>)
    requires lines == ["k:", "#", "- a"]
    ensures !Collects(lines, 2, 0)
  {
    HashIsPassedOver();
    assert ComesNext(lines, 0, 1);
    forall n: nat | ComesNext(lines, 0, n) ensures n == 1 { OneComesNext(lines, 0, 1, n); }
    assert !OpensList(lines, 0, 0) && !OpensList(lines, 1, 0);
    LineAt(lines, 0, 0);
    LineAt(lines, 1, 0);
    forall p: nat ensures !OpenedAt(lines, p, 2, 0) { }
  }

  lemma ThirdIsFirstBad(lines: seq<string>)
    requires lines == ["k:", "#", "- a"]
    ensures IsFirstBad(lines, 2) && ErrorAt(lines, 2) == UnexpectedItem(3)
  {
    KeyShows();
    HashIsPassedOver();
    ItemShows();
    NothingOpens(lines);
    assert !IsBad(lines, 0) && !IsBad(lines, 1);
  }

  /** A comment at the very start of a line, between a key and its list, is passed over but
      counts as what comes next: the list is then not expected any more. */
  lemma CommentHidesList()
    ensures Parse(Join(["k:", "#", "- a"], "\n")) == Err(UnexpectedItem(3))
  {
    var lines := ["k:", "#", "- a"];
    LinesOfJoin(lines);
    ThirdIsFirstBad(lines);
    ParseFailsIffBadLine(Join(lines, "\n"));
  }
}
