/** The one-pass, indent-stack parser of the front matter (src/services/WorkflowLoader.ts:135-207).
    The object under construction is one value; a frame of the stack and the pending list
    reach the object or array they hold by its path from the root. */
module WorkflowLoader {
  import opened Wrappers
  import opened Texts
  import opened WorkflowText

  /** Line numbers count from one. */
  datatype Error = UnexpectedItem(line: nat) | StackUnderflow(line: nat) | NoColon(line: nat)

  type Path = seq<string>

  datatype Frame = Frame(indent: int, path: Path)

  datatype Pending = Pending(indent: nat, path: Path)

  datatype State = State(root: Value, stack: seq<Frame>, pending: Option<Pending>)

  const START := State(Obj(map[]), [Frame(-1, [])], None)

  // ----- Values by path -----

  function Get(root: Value, path: Path): Option<Value> {
    if path == [] then Some(root)
    else if root.Obj? && path[0] in root.members then Get(root.members[path[0]], path[1..])
    else None
  }

  function Set(root: Value, path: Path, v: Value): Value {
    if path == [] then v
    else if root.Obj? && path[0] in root.members
    then Obj(root.members[path[0] := Set(root.members[path[0]], path[1..], v)])
    else root
  }

  /** `obj[key] = v`; assigning the member `__proto__` adds no member. */
  function Assign(root: Value, path: Path, key: string, v: Value): Value {
    match Get(root, path)
    case Some(Obj(members)) => if key == "__proto__" then root else Set(root, path, Obj(members[key := v]))
    case _ => root
  }

  function Push(root: Value, path: Path, v: Value): Value {
    match Get(root, path)
    case Some(List(items)) => Set(root, path, List(items + [v]))
    case _ => root
  }

  lemma {:induction false} GetSet(root: Value, path: Path, v: Value)
    requires Get(root, path).Some?
    ensures Get(Set(root, path, v), path) == Some(v)
  {
    if path != [] { GetSet(root.members[path[0]], path[1..], v); }
  }

  // ----- One line -----

  function PopTo(stack: seq<Frame>, indent: int): seq<Frame> {
    if stack != [] && stack[|stack| - 1].indent >= indent then PopTo(stack[..|stack| - 1], indent) else stack
  }

  /** `peekNext`: the next line with something on it, comments cut off. */
  function NextLine(lines: seq<string>, from: nat): Option<string>
    decreases |lines| - from
  {
    if from >= |lines| then None
    else if Trim(StripComment(lines[from])) != "" then Some(lines[from])
    else NextLine(lines, from + 1)
  }

  predicate ItemComes(lines: seq<string>, from: nat) {
    var next := NextLine(lines, from);
    next.Some? && IsItem(TrimStart(next.value))
  }

  /** A `key: rest` line under the frame on top of the stack. */
  function Entered(lines: seq<string>, i: nat, root: Value, stack: seq<Frame>, indent: nat, key: string,
                   rest: string): State
    requires stack != []
  {
    var path := stack[|stack| - 1].path;
    if rest == "" then
      if ItemComes(lines, i + 1) then
        State(Assign(root, path, key, List([])), stack,
              Some(Pending(Indent(NextLine(lines, i + 1).value), path + [key])))
      else State(Assign(root, path, key, Obj(map[])), stack + [Frame(indent, path + [key])], None)
    else State(Assign(root, path, key, if Bracketed(rest) then InlineList(rest) else ParseScalar(rest)), stack, None)
  }

  function KeyLine(lines: seq<string>, i: nat, st: State, indent: nat, content: string): Result<State, Error> {
    var stack := PopTo(st.stack, indent);
    if stack == [] then Err(StackUnderflow(i + 1))
    else
      var colon := IndexOf(content, ':');
      if colon == |content| then Err(NoColon(i + 1))
      else Ok(Entered(lines, i, st.root, stack, indent, Trim(content[..colon]), Trim(content[colon + 1..])))
  }

  function ItemLine(i: nat, st: State, indent: nat, content: string): Result<State, Error>
    requires IsItem(content)
  {
    if st.pending.Some? && st.pending.value.indent == indent
    then Ok(st.(root := Push(st.root, st.pending.value.path, ParseScalar(Trim(content[2..])))))
    else Err(UnexpectedItem(i + 1))
  }

  predicate Skipped(stripped: string) {
    Trim(stripped) == "" || Trim(stripped)[0] == '#'
  }

  function OneLineStep(lines: seq<string>, i: nat, st: State): Result<State, Error>
    requires i < |lines|
  {
    var stripped := StripComment(lines[i]);
    if Skipped(stripped) then Ok(st)
    else
      var indent := Indent(stripped);
      var content := stripped[indent..];
      if IsItem(content) then ItemLine(i, st, indent, content) else KeyLine(lines, i, st, indent, content)
  }

  /** The lines from `i` on. */
  function Run(lines: seq<string>, i: nat, st: State): Result<State, Error>
    requires i <= |lines|
    decreases |lines| - i
  {
    if i == |lines| then Ok(st)
    else match OneLineStep(lines, i, st)
      case Ok(next) => Run(lines, i + 1, next)
      case Err(e) => Err(e)
  }

  function Parse(src: string): Result<Value, Error> {
    match Run(Lines(src), 0, START)
    case Ok(st) => Ok(st.root)
    case Err(e) => Err(e)
  }

  // ----- The loops -----

  method PeekNext(lines: seq<string>, from: nat) returns (next: Option<string>)
    ensures next == NextLine(lines, from)
  {
    var i := from;
    while i < |lines|
      invariant from <= i && NextLine(lines, i) == NextLine(lines, from)
      decreases |lines| - i
    {
      if Trim(StripComment(lines[i])) != "" {
        return Some(lines[i]);
      }
      i := i + 1;
    }
    return None;
  }

  method PopStack(frames: seq<Frame>, indent: int) returns (stack: seq<Frame>)
    ensures stack == PopTo(frames, indent)
  {
    stack := frames;
    while |stack| > 0 && stack[|stack| - 1].indent >= indent
      invariant PopTo(stack, indent) == PopTo(frames, indent)
    {
      stack := stack[..|stack| - 1];
    }
  }

  /** A `key: rest` line: the new object or array, a nested frame, or the pending list. */
  method EnterKey(lines: seq<string>, lineNo: nat, before: Value, frames: seq<Frame>, indent: nat, key: string,
                  rest: string)
    returns (root: Value, stack: seq<Frame>, pending: Option<Pending>)
    requires frames != []
    ensures State(root, stack, pending) == Entered(lines, lineNo, before, frames, indent, key, rest)
  {
    stack, pending := frames, None;
    var path := stack[|stack| - 1].path;
    if rest == "" {
      var next := PeekNext(lines, lineNo + 1);
      if next.Some? && IsItem(TrimStart(next.value)) {
        root := Assign(before, path, key, List([]));
        pending := Some(Pending(Indent(next.value), path + [key]));
      } else {
        root := Assign(before, path, key, Obj(map[]));
        stack := stack + [Frame(indent, path + [key])];
      }
    } else if Bracketed(rest) {
      root := Assign(before, path, key, InlineList(rest));
    } else {
      root := Assign(before, path, key, ParseScalar(rest));
    }
  }

  method ReadLine(lines: seq<string>, lineNo: nat, st: State) returns (result: Result<State, Error>)
    requires lineNo < |lines|
    ensures result == OneLineStep(lines, lineNo, st)
  {
    var stripped := StripComment(lines[lineNo]);
    if Trim(stripped) == "" || Trim(stripped)[0] == '#' {
      return Ok(st);
    }
    var indent := Indent(stripped);
    var content := stripped[indent..];
    if IsItem(content) {
      var value := ParseScalar(Trim(content[2..]));
      if st.pending.None? || st.pending.value.indent != indent {
        return Err(UnexpectedItem(lineNo + 1));
      }
      return Ok(st.(root := Push(st.root, st.pending.value.path, value)));
    }
    var stack := PopStack(st.stack, indent);
    if |stack| == 0 {
      return Err(StackUnderflow(lineNo + 1));
    }
    var colon := IndexOf(content, ':');
    if colon == |content| {
      return Err(NoColon(lineNo + 1));
    }
    var root, frames, pending :=
      EnterKey(lines, lineNo, st.root, stack, indent, Trim(content[..colon]), Trim(content[colon + 1..]));
    return Ok(State(root, frames, pending));
  }

  method ParseYamlSubset(src: string) returns (result: Result<Value, Error>)
    ensures result == Parse(src)
  {
    var lines := Lines(src);
    var st := START;
    var lineNo := 0;
    while lineNo < |lines|
      invariant lineNo <= |lines|
      invariant Run(lines, lineNo, st) == Run(lines, 0, START)
    {
      var next := ReadLine(lines, lineNo, st);
      if next.Err? {
        return Err(next.error);
      }
      st := next.value;
      lineNo := lineNo + 1;
    }
    return Ok(st.root);
  }

  // ----- The stack, on every input -----

  /** The root frame at the bottom, indents strictly increasing upwards, every frame's
      object a member of the one below. */
  ghost predicate StackOk(stack: seq<Frame>) {
    && stack != [] && stack[0] == Frame(-1, [])
    && forall j :: 1 <= j < |stack| ==>
         stack[j - 1].indent < stack[j].indent && Child(stack[j - 1].path, stack[j].path)
  }

  ghost predicate Child(parent: Path, child: Path) {
    |child| == |parent| + 1 && child[..|parent|] == parent
  }

  lemma {:induction false} PopToKeeps(stack: seq<Frame>, indent: int)
    requires StackOk(stack) && indent >= 0
    ensures StackOk(PopTo(stack, indent))
    ensures PopTo(stack, indent)[|PopTo(stack, indent)| - 1].indent < indent
  {
    if stack[|stack| - 1].indent >= indent {
      assert |stack| > 1;
      PopToKeeps(stack[..|stack| - 1], indent);
    }
  }

  lemma PushKeeps(stack: seq<Frame>, indent: nat, key: string)
    requires StackOk(stack) && stack[|stack| - 1].indent < indent
    ensures StackOk(stack + [Frame(indent, stack[|stack| - 1].path + [key])])
  {
  }

  /** What holds between two lines of any text. */
  ghost predicate Inv(st: State) {
    StackOk(st.stack) && st.root.Obj?
  }

  ghost predicate Fine(r: Result<State, Error>) {
    match r
    case Ok(next) => Inv(next)
    case Err(e) => !e.StackUnderflow?
  }

  lemma EnteredKeepsInv(lines: seq<string>, i: nat, root: Value, stack: seq<Frame>, indent: nat, key: string,
                        rest: string)
    requires StackOk(stack) && stack[|stack| - 1].indent < indent && root.Obj?
    ensures Inv(Entered(lines, i, root, stack, indent, key, rest))
  {
    PushKeeps(stack, indent, key);
  }

  lemma KeyLineKeepsInv(lines: seq<string>, i: nat, st: State, indent: nat, content: string)
    requires Inv(st)
    ensures Fine(KeyLine(lines, i, st, indent, content))
  {
    PopToKeeps(st.stack, indent);
    var stack, colon := PopTo(st.stack, indent), IndexOf(content, ':');
    if colon < |content| {
      EnteredKeepsInv(lines, i, st.root, stack, indent, Trim(content[..colon]), Trim(content[colon + 1..]));
    }
  }

  lemma OneLineKeepsInv(lines: seq<string>, i: nat, st: State)
    requires i < |lines| && Inv(st)
    ensures Fine(OneLineStep(lines, i, st))
  {
    var stripped := StripComment(lines[i]);
    KeyLineKeepsInv(lines, i, st, Indent(stripped), stripped[Indent(stripped)..]);
  }

  /** No text makes the stack run empty, and a parse that succeeds gives an object. */
  lemma {:induction false} StackNeverUnderflows(lines: seq<string>, i: nat, st: State)
    requires i <= |lines| && Inv(st)
    ensures Fine(Run(lines, i, st))
    decreases |lines| - i
  {
    if i < |lines| {
      OneLineKeepsInv(lines, i, st);
      if OneLineStep(lines, i, st).Ok? {
        StackNeverUnderflows(lines, i + 1, OneLineStep(lines, i, st).value);
      }
    }
  }

  lemma ParseNeverUnderflows(src: string)
    ensures match Parse(src)
            case Ok(v) => v.Obj?
            case Err(e) => !e.StackUnderflow?
  {
    StackNeverUnderflows(Lines(src), 0, START);
  }
}
