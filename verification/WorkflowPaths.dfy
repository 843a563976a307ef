/** Why a path may stand for a reference (src/services/WorkflowLoader.ts:135-207): on every
    input the frames' objects and the pending array are still part of the result, so no
    write misses. */
module WorkflowPaths {
  import opened Wrappers
  import opened WorkflowText
  import opened WorkflowLoader

  /** The state before line `k`. */
  function StateAt(lines: seq<string>, k: nat): Result<State, Error>
    requires k <= |lines|
  {
    if k == 0 then Ok(START)
    else match StateAt(lines, k - 1)
      case Ok(st) => OneLineStep(lines, k - 1, st)
      case Err(e) => Err(e)
  }

  lemma RunStep(lines: seq<string>, k: nat, st: State)
    requires k < |lines|
    ensures match OneLineStep(lines, k, st)
            case Ok(next) => Run(lines, k, st) == Run(lines, k + 1, next)
            case Err(e) => Run(lines, k, st) == Err(e)
  {
  }

  lemma {:induction false} StateAtIsRun(lines: seq<string>, k: nat)
    requires k <= |lines|
    ensures match StateAt(lines, k)
            case Ok(st) => Run(lines, k, st) == Run(lines, 0, START)
            case Err(e) => Run(lines, 0, START) == Err(e)
  {
    if k > 0 {
      StateAtIsRun(lines, k - 1);
      if StateAt(lines, k - 1).Ok? { RunStep(lines, k - 1, StateAt(lines, k - 1).value); }
    }
  }

  // ----- Writes and the paths above them -----

  ghost predicate ThroughProto(path: Path) {
    "__proto__" in path
  }

  ghost predicate IsObj(root: Value, path: Path) {
    Get(root, path).Some? && Get(root, path).value.Obj?
  }

  ghost predicate IsList(root: Value, path: Path) {
    Get(root, path).Some? && Get(root, path).value.List?
  }

  /** Writing at a path leaves every object on the way to it an object. */
  lemma {:induction false} WriteKeepsAbove(root: Value, path: Path, v: Value, above: Path)
    requires Get(root, path).Some? && above <= path && (above == path ==> v.Obj?)
    ensures IsObj(Set(root, path, v), above)
  {
    if above != [] {
      assert path[0] == above[0] && above[1..] <= path[1..];
      WriteKeepsAbove(root.members[path[0]], path[1..], v, above[1..]);
    }
  }

  lemma {:induction false} WriteReaches(root: Value, path: Path, members: map<string, Value>, key: string)
    requires Get(root, path).Some? && key in members
    ensures Get(Set(root, path, Obj(members)), path + [key]) == Some(members[key])
  {
    if path == [] {
      assert [key][1..] == [];
    } else {
      assert (path + [key])[1..] == path[1..] + [key];
      WriteReaches(root.members[path[0]], path[1..], members, key);
    }
  }

  lemma AssignKeepsAbove(root: Value, path: Path, key: string, v: Value, above: Path)
    requires above <= path && IsObj(root, above)
    ensures IsObj(Assign(root, path, key, v), above)
  {
    if IsObj(root, path) && key != "__proto__" {
      WriteKeepsAbove(root, path, Obj(Get(root, path).value.members[key := v]), above);
    }
  }

  lemma PushKeepsAbove(root: Value, path: Path, v: Value, above: Path)
    requires above < path && IsObj(root, above)
    ensures IsObj(Push(root, path, v), above)
  {
    if IsList(root, path) {
      WriteKeepsAbove(root, path, List(Get(root, path).value.items + [v]), above);
    }
  }

  // ----- The invariant -----

  ghost predicate Live(st: State) {
    forall j :: 0 <= j < |st.stack| ==> ThroughProto(st.stack[j].path) || IsObj(st.root, st.stack[j].path)
  }

  ghost predicate PendingLive(st: State) {
    st.pending.Some? && st.stack != [] ==>
      && Child(st.stack[|st.stack| - 1].path, st.pending.value.path)
      && (ThroughProto(st.pending.value.path) || IsList(st.root, st.pending.value.path))
  }

  lemma {:induction false} FramesAreAbove(stack: seq<Frame>, j: nat)
    requires StackOk(stack) && j < |stack|
    ensures stack[j].path <= stack[|stack| - 1].path
    decreases |stack|
  {
    var last := |stack| - 1;
    if j < last {
      assert Child(stack[last - 1].path, stack[last].path);
      FramesAreAbove(stack[..last], j);
    }
  }

  lemma {:induction false} PopToIsPrefix(stack: seq<Frame>, indent: int)
    ensures PopTo(stack, indent) <= stack
  {
    if stack != [] && stack[|stack| - 1].indent >= indent { PopToIsPrefix(stack[..|stack| - 1], indent); }
  }

  lemma AssignKeepsFrames(root: Value, stack: seq<Frame>, key: string, v: Value)
    requires StackOk(stack) && Live(State(root, stack, None))
    ensures Live(State(Assign(root, stack[|stack| - 1].path, key, v), stack, None))
  {
    var path := stack[|stack| - 1].path;
    forall j | 0 <= j < |stack| && !ThroughProto(stack[j].path)
      ensures IsObj(Assign(root, path, key, v), stack[j].path)
    {
      FramesAreAbove(stack, j);
      AssignKeepsAbove(root, path, key, v, stack[j].path);
    }
  }

  /** What was assigned under a live frame is there, except under `__proto__`. */
  lemma AssignedIsThere(root: Value, path: Path, key: string, v: Value)
    requires ThroughProto(path) || IsObj(root, path)
    ensures ThroughProto(path + [key]) || Get(Assign(root, path, key, v), path + [key]) == Some(v)
  {
    if ThroughProto(path) || key == "__proto__" {
      assert "__proto__" in path + [key];
    } else {
      WriteReaches(root, path, Get(root, path).value.members[key := v], key);
    }
  }

  lemma EnteredKeepsLive(lines: seq<string>, i: nat, root: Value, stack: seq<Frame>, indent: nat, key: string,
                         rest: string)
    requires StackOk(stack) && Live(State(root, stack, None))
    ensures var next := Entered(lines, i, root, stack, indent, key, rest); Live(next) && PendingLive(next)
  {
    var path := stack[|stack| - 1].path;
    var v := if rest == "" then (if ItemComes(lines, i + 1) then List([]) else Obj(map[]))
             else if Bracketed(rest) then InlineList(rest) else ParseScalar(rest);
    AssignKeepsFrames(root, stack, key, v);
    AssignedIsThere(root, path, key, v);
  }

  lemma ItemKeepsLive(i: nat, st: State, indent: nat, content: string)
    requires Inv(st) && Live(st) && PendingLive(st) && IsItem(content) && ItemLine(i, st, indent, content).Ok?
    ensures var next := ItemLine(i, st, indent, content).value; Live(next) && PendingLive(next)
  {
    var path, v := st.pending.value.path, ParseScalar(Texts.Trim(content[2..]));
    forall j | 0 <= j < |st.stack| && !ThroughProto(st.stack[j].path)
      ensures IsObj(Push(st.root, path, v), st.stack[j].path)
    {
      FramesAreAbove(st.stack, j);
      PushKeepsAbove(st.root, path, v, st.stack[j].path);
    }
    if IsList(st.root, path) { GetSet(st.root, path, List(Get(st.root, path).value.items + [v])); }
  }

  lemma KeyLineKeepsLive(lines: seq<string>, i: nat, st: State, indent: nat, content: string)
    requires Inv(st) && Live(st) && KeyLine(lines, i, st, indent, content).Ok?
    ensures var next := KeyLine(lines, i, st, indent, content).value; Live(next) && PendingLive(next)
  {
    var stack, colon := PopTo(st.stack, indent), IndexOf(content, ':');
    PopToKeeps(st.stack, indent);
    PopToIsPrefix(st.stack, indent);
    assert Live(State(st.root, stack, None)) by {
      forall j | 0 <= j < |stack| ensures stack[j] == st.stack[j] { }
    }
    EnteredKeepsLive(lines, i, st.root, stack, indent, Texts.Trim(content[..colon]), Texts.Trim(content[colon + 1..]));
  }

  /** Before every line of every text: the stack is sound, every frame's object and the
      pending array are in the value under construction (unless they were assigned to
      `__proto__`), so entries and items are stored where the source stores them. */
  lemma {:induction false} WritesNeverMiss(lines: seq<string>, k: nat)
    requires k <= |lines|
    ensures match StateAt(lines, k)
            case Ok(st) => Inv(st) && Live(st) && PendingLive(st)
            case Err(e) => !e.StackUnderflow?
  {
    if k == 0 {
      assert Get(START.root, []) == Some(Obj(map[]));
    } else {
      WritesNeverMiss(lines, k - 1);
      if StateAt(lines, k - 1).Ok? {
        LineKeepsLive(lines, k - 1, StateAt(lines, k - 1).value);
      }
    }
  }

  lemma LineKeepsLive(lines: seq<string>, i: nat, st: State)
    requires i < |lines| && Inv(st) && Live(st) && PendingLive(st)
    ensures match OneLineStep(lines, i, st)
            case Ok(next) => Inv(next) && Live(next) && PendingLive(next)
            case Err(e) => !e.StackUnderflow?
  {
    OneLineKeepsInv(lines, i, st);
    var stripped := StripComment(lines[i]);
    var indent := Indent(stripped);
    var content := stripped[indent..];
    if !Skipped(stripped) && OneLineStep(lines, i, st).Ok? {
      if IsItem(content) {
        ItemKeepsLive(i, st, indent, content);
      } else {
        KeyLineKeepsLive(lines, i, st, indent, content);
      }
    }
  }
}
