/** A tree of maps, lists and scalars laid out by indentation, and that the one-pass
    parser reads it back (src/services/WorkflowLoader.ts:135-207). */
module WorkflowLayout {
  import opened Wrappers
  import opened Texts
  import opened WorkflowText
  import opened WorkflowLoader

  /** What stands after a key: a scalar's text, an inline or a block list of scalar texts,
      or nested entries. */
  datatype Node =
    | Leaf(text: string)
    | Inline(texts: seq<string>)
    | Block(items: seq<Item>)
    | Branch(entries: seq<Entry>)

  /** A remark is what ends a line: a comment with the white space before it, or nothing. */
  datatype Entry = Entry(key: string, node: Node, remark: string)

  datatype Item = Item(text: string, remark: string)

  // ----- Meaning -----

  /** An inline list loses its empty strings and holds a null when it is empty; a block
      list without items is an empty map. */
  function Denote(node: Node): Value {
    match node
    case Leaf(text) => ParseScalar(text)
    case Inline(texts) => if texts == [] then List([Null]) else List(NonEmpty(ScalarsOf(texts)))
    case Block(items) => if items == [] then Obj(map[]) else List(ItemValues(items))
    case Branch(entries) => Obj(DenoteAll(entries, map[]))
  }

  function ItemValues(items: seq<Item>): seq<Value> {
    if items == [] then [] else [ParseScalar(items[0].text)] + ItemValues(items[1..])
  }

  /** Entry by entry, a repeated key taking the later value. */
  function DenoteAll(entries: seq<Entry>, members: map<string, Value>): map<string, Value> {
    if entries == [] then members
    else DenoteAll(entries[1..], members[entries[0].key := Denote(entries[0].node)])
  }

  // ----- Layout -----

  function InlineText(texts: seq<string>): string {
    "[" + Join(texts, ", ") + "]"
  }

  /** The line of the entry itself, from its key on. */
  function Head(e: Entry): string {
    match e.node
    case Leaf(text) => e.key + ":" + (" " + text)
    case Inline(texts) => e.key + ":" + (" " + InlineText(texts))
    case _ => e.key + ":" + ""
  }

  function LineOfItem(item: Item, indent: nat): string {
    Spaces(indent) + ("- " + item.text + item.remark)
  }

  function Items(items: seq<Item>, indent: nat): seq<string> {
    if items == [] then [] else [LineOfItem(items[0], indent)] + Items(items[1..], indent)
  }

  function LineOfEntry(e: Entry, indent: nat): string {
    Spaces(indent) + (Head(e) + e.remark)
  }

  /** Lines, each map `width` deeper than the one around it. */
  function Layout(entries: seq<Entry>, indent: nat, width: nat): seq<string> {
    if entries == [] then []
    else LayoutOne(entries[0], indent, width) + Layout(entries[1..], indent, width)
  }

  function LayoutOne(e: Entry, indent: nat, width: nat): seq<string> {
    [LineOfEntry(e, indent)] + Nested(e.node, indent + width, width)
  }

  function Nested(node: Node, indent: nat, width: nat): seq<string> {
    match node
    case Leaf(_) => []
    case Inline(_) => []
    case Block(items) => Items(items, indent)
    case Branch(entries) => Layout(entries, indent, width)
  }

  // ----- What can be laid out -----

  /** One line of which the parser sees the content, as the remark is cut off. */
  ghost predicate RemarkedBy(content: string, remark: string) {
    StripComment(content + remark) == content && Unbroken(content + remark)
  }

  /** The same, bound, so that it is not unfolded where it is passed on. */
  ghost predicate Remarked(content: string, remark: string) {
    forall x :: x == content ==> RemarkedBy(x, remark)
  }

  ghost predicate KeyOk(key: string) {
    && Trim(key) == key && ':' !in key && !IsItem(key) && key != "__proto__"
    && (key != "" ==> key[0] != '#')
  }

  ghost predicate ItemOk(item: Item) {
    Trim(item.text) == item.text && Remarked("- " + item.text, item.remark)
  }

  ghost predicate AllItemsOk(items: seq<Item>) {
    items == [] || (ItemOk(items[0]) && AllItemsOk(items[1..]))
  }

  ghost predicate WellFormed(e: Entry) {
    && KeyOk(e.key) && Remarked(Head(e), e.remark)
    && match e.node
       case Leaf(text) => text != "" && Trim(text) == text && !Bracketed(text)
       case Inline(texts) => forall i :: 0 <= i < |texts| ==> Trim(texts[i]) == texts[i] && ',' !in texts[i]
       case Block(items) => AllItemsOk(items)
       case Branch(entries) => AllWellFormed(entries)
  }

  ghost predicate AllWellFormed(entries: seq<Entry>) {
    entries == [] || (WellFormed(entries[0]) && AllWellFormed(entries[1..]))
  }

  // ----- Values by path -----

  lemma {:induction false} SetTwice(root: Value, path: Path, v: Value, w: Value)
    requires Get(root, path).Some?
    ensures Set(Set(root, path, v), path, w) == Set(root, path, w)
  {
    if path != [] {
      SetTwice(root.members[path[0]], path[1..], v, w);
      var m, sub := root.members, Set(root.members[path[0]], path[1..], v);
      assert m[path[0] := sub][path[0] := Set(sub, path[1..], w)] == m[path[0] := Set(sub, path[1..], w)];
    }
  }

  lemma {:induction false} SetSame(root: Value, path: Path)
    requires Get(root, path).Some?
    ensures Set(root, path, Get(root, path).value) == root
  {
    if path != [] {
      SetSame(root.members[path[0]], path[1..]);
      assert root.members[path[0] := root.members[path[0]]] == root.members;
    }
  }

  /** Writing a member's member is writing the member. */
  lemma {:induction false} SetMember(root: Value, path: Path, key: string, v: Value)
    requires Get(root, path).Some? && Get(root, path).value.Obj? && key in Get(root, path).value.members
    ensures var m := Get(root, path).value.members;
            && Set(root, path + [key], v) == Set(root, path, Obj(m[key := v]))
            && Get(root, path + [key]) == Some(m[key])
  {
    if path == [] {
      assert [key][1..] == [];
    } else {
      assert (path + [key])[1..] == path[1..] + [key];
      SetMember(root.members[path[0]], path[1..], key, v);
    }
  }

  // ----- One line of a layout -----

  lemma {:induction false} StripAfterSpaces(n: nat, line: string)
    requires line != "" && line[0] != '#' && !IsSpace(line[0])
    ensures StripComment(Spaces(n) + line) == Spaces(n) + StripComment(line)
  {
    if n > 0 {
      assert Spaces(n) + line == [' '] + (Spaces(n - 1) + line);
      TrimSkipsSpaces(n, line);
      StripAfterSpaces(n - 1, line);
      assert [' '] + (Spaces(n - 1) + StripComment(line)) == Spaces(n) + StripComment(line);
    } else {
      assert Spaces(0) + line == line && Spaces(0) + StripComment(line) == StripComment(line);
    }
  }

  /** What the parser sees of a line laid out at an indent. */
  lemma SeesContent(n: nat, content: string, remark: string)
    requires Remarked(content, remark) && content != "" && content[0] != '#' && !IsSpace(content[0])
    ensures var line, seen := Spaces(n) + (content + remark), Spaces(n) + content;
            && StripComment(line) == seen && !Skipped(seen) && Trim(seen) != ""
            && Indent(seen) == n && seen[n..] == content
            && TrimStart(line) == content + remark && Indent(line) == n
  {
    assert RemarkedBy(content, remark);
    var line := content + remark;
    assert line[0] == content[0];
    StripAfterSpaces(n, line);
    TrimSkipsSpaces(n, line);
    TrimSkipsSpaces(n, content);
    TrimEndStarts(content);
    IndentOf(n, content);
    IndentOf(n, line);
  }

  /** A key followed by a colon: neither blank, a comment nor a list item. */
  lemma SeesKey(key: string, tail: string)
    requires KeyOk(key)
    ensures var content := key + ":" + tail;
            && content != "" && content[0] != '#' && !IsSpace(content[0]) && !IsItem(content)
            && IndexOf(content, ':') == |key| && content[..|key|] == key && content[|key| + 1..] == tail
  {
    var content := key + ":" + tail;
    TrimmedStart(key);
    IndexOfFirst(key, ':', tail);
    assert content[|key|] == ':' && forall i :: 0 <= i < |key| ==> content[i] == key[i];
  }

  lemma KeyIsNoItem(key: string, tail: string, remark: string)
    requires KeyOk(key)
    ensures !IsItem(key + ":" + tail + remark)
  {
    var content := key + ":" + tail;
    SeesKey(key, tail);
    if |content| >= 2 {
      assert (content + remark)[0] == content[0] && (content + remark)[1] == content[1];
    } else {
      assert content[|key|] == ':' && (content + remark)[0] == content[0];
    }
  }

  /** What follows the colon, as the parser sees it. */
  function Rest(node: Node): string {
    match node
    case Leaf(text) => text
    case Inline(texts) => InlineText(texts)
    case _ => ""
  }

  function Tail(node: Node): string {
    match node
    case Leaf(text) => " " + text
    case Inline(texts) => " " + InlineText(texts)
    case _ => ""
  }

  lemma RestIsTrimmedTail(e: Entry)
    requires WellFormed(e)
    ensures Trim(Tail(e.node)) == Rest(e.node) && Head(e) == e.key + ":" + Tail(e.node)
  {
    match e.node
    case Leaf(text) => TrimAfterSpace(text);
    case Inline(texts) =>
      var t := InlineText(texts);
      assert t[0] == '[' && t[|t| - 1] == ']';
      TrimAfterSpace(t);
    case Block(_) =>
    case Branch(_) =>
  }

  /** The parser's step on an entry's own line. */
  lemma EntryLine(lines: seq<string>, i: nat, e: Entry, n: nat, st: State)
    requires i < |lines| && lines[i] == LineOfEntry(e, n) && WellFormed(e) && PopTo(st.stack, n) != []
    ensures OneLineStep(lines, i, st) == Ok(Entered(lines, i, st.root, PopTo(st.stack, n), n, e.key, Rest(e.node)))
    ensures NextLine(lines, i) == Some(lines[i]) && !ItemComes(lines, i)
  {
    RestIsTrimmedTail(e);
    SeesKey(e.key, Tail(e.node));
    SeesContent(n, Head(e), e.remark);
    KeyIsNoItem(e.key, Tail(e.node), e.remark);
  }

  // ----- A stretch of lines -----

  /** The lines from `a` on start with `part`. */
  ghost predicate At(lines: seq<string>, a: nat, part: seq<string>) {
    a + |part| <= |lines| && lines[a..a + |part|] == part
  }

  lemma AtSplit(lines: seq<string>, a: nat, part: seq<string>, rest: seq<string>)
    requires At(lines, a, part + rest)
    ensures At(lines, a, part) && At(lines, a + |part|, rest)
  {
    var whole := lines[a..a + |part + rest|];
    assert whole[..|part|] == part && whole[|part|..] == rest;
    assert lines[a..a + |part|] == whole[..|part|];
    assert lines[a + |part|..a + |part| + |rest|] == whole[|part|..];
  }

  lemma AtFirst(lines: seq<string>, a: nat, first: string, rest: seq<string>)
    requires At(lines, a, [first] + rest)
    ensures a < |lines| && lines[a] == first && At(lines, a + 1, rest)
  {
    AtSplit(lines, a, [first], rest);
    assert lines[a..a + 1][0] == lines[a];
  }

  // The predicates up to Leads bind what they are about, so that a proof that only passes
  // them on does not take the texts apart.

  ghost predicate ItemsAt(lines: seq<string>, a: nat, items: seq<Item>, n: nat) {
    forall x {:trigger AllItemsOk(x)} :: x == items ==> AllItemsOk(x) && At(lines, a, Items(x, n))
  }

  ghost predicate HeadAt(lines: seq<string>, a: nat, e: Entry, n: nat) {
    forall x {:trigger WellFormed(x)} :: x == e ==> WellFormed(x) && a < |lines| && lines[a] == LineOfEntry(x, n)
  }

  ghost predicate OneAt(lines: seq<string>, a: nat, e: Entry, n: nat, w: nat) {
    forall x {:trigger WellFormed(x)} :: x == e ==> WellFormed(x) && At(lines, a, LayoutOne(x, n, w))
  }

  ghost predicate EntriesAt(lines: seq<string>, a: nat, entries: seq<Entry>, n: nat, w: nat) {
    forall x {:trigger AllWellFormed(x)} :: x == entries ==> AllWellFormed(x) && At(lines, a, Layout(x, n, w))
  }

  /** From `st` before line `a`, the parser gets to `end` before line `b`. */
  ghost predicate Leads(lines: seq<string>, a: nat, st: State, b: nat, end: State) {
    a <= |lines| && b <= |lines| && forall x :: x == end ==> Run(lines, a, st) == Run(lines, b, x)
  }

  lemma StepLeads(lines: seq<string>, a: nat, st: State, next: State)
    requires a < |lines| && OneLineStep(lines, a, st) == Ok(next)
    ensures Leads(lines, a, st, a + 1, next)
  {
  }

  lemma LeadsThen(lines: seq<string>, a: nat, st: State, b: nat, mid: State, c: nat, end: State)
    requires Leads(lines, a, st, b, mid) && Leads(lines, b, mid, c, end)
    ensures Leads(lines, a, st, c, end)
  {
    assert Run(lines, a, st) == Run(lines, b, mid);
  }

  /** The number of lines of a layout. */
  function Height(entries: seq<Entry>): nat {
    if entries == [] then 0 else HeightOne(entries[0]) + Height(entries[1..])
  }

  function HeightOne(e: Entry): nat {
    match e.node
    case Leaf(_) => 1
    case Inline(_) => 1
    case Block(items) => 1 + |items|
    case Branch(entries) => 1 + Height(entries)
  }

  lemma {:induction false} ItemsLength(items: seq<Item>, n: nat)
    ensures |Items(items, n)| == |items|
  {
    if items != [] { ItemsLength(items[1..], n); }
  }

  lemma {:induction false} LayoutOneHeight(e: Entry, n: nat, w: nat)
    ensures |LayoutOne(e, n, w)| == HeightOne(e)
    decreases e
  {
    match e.node
    case Leaf(_) =>
    case Inline(_) =>
    case Block(items) => ItemsLength(items, n + w);
    case Branch(entries) => LayoutHeight(entries, n + w, w);
  }

  lemma {:induction false} LayoutHeight(entries: seq<Entry>, n: nat, w: nat)
    ensures |Layout(entries, n, w)| == Height(entries)
    decreases entries
  {
    if entries != [] {
      LayoutOneHeight(entries[0], n, w);
      LayoutHeight(entries[1..], n, w);
    }
  }

  lemma WellFormedSplits(entries: seq<Entry>)
    requires entries != [] && AllWellFormed(entries)
    ensures WellFormed(entries[0]) && AllWellFormed(entries[1..])
  {
  }

  lemma LayoutSplits(entries: seq<Entry>, n: nat, w: nat)
    requires entries != []
    ensures Layout(entries, n, w) == LayoutOne(entries[0], n, w) + Layout(entries[1..], n, w)
    ensures |LayoutOne(entries[0], n, w)| == HeightOne(entries[0])
  {
    LayoutOneHeight(entries[0], n, w);
  }

  lemma AtParts(lines: seq<string>, a: nat, whole: seq<string>, part: seq<string>, rest: seq<string>, height: nat)
    requires At(lines, a, whole) && whole == part + rest && |part| == height
    ensures At(lines, a, part) && At(lines, a + height, rest)
  {
    AtSplit(lines, a, part, rest);
  }

  lemma LayoutAtSplits(lines: seq<string>, a: nat, entries: seq<Entry>, n: nat, w: nat)
    requires At(lines, a, Layout(entries, n, w)) && entries != []
    ensures At(lines, a, LayoutOne(entries[0], n, w))
    ensures At(lines, a + HeightOne(entries[0]), Layout(entries[1..], n, w))
  {
    LayoutSplits(entries, n, w);
    AtParts(lines, a, Layout(entries, n, w), LayoutOne(entries[0], n, w), Layout(entries[1..], n, w),
            HeightOne(entries[0]));
  }

  lemma OneIsAt(lines: seq<string>, a: nat, e: Entry, n: nat, w: nat)
    requires WellFormed(e) && At(lines, a, LayoutOne(e, n, w))
    ensures OneAt(lines, a, e, n, w)
  {
  }

  lemma EntriesAreAt(lines: seq<string>, a: nat, entries: seq<Entry>, n: nat, w: nat)
    requires AllWellFormed(entries) && At(lines, a, Layout(entries, n, w))
    ensures EntriesAt(lines, a, entries, n, w)
  {
  }

  lemma EntriesAtMeans(lines: seq<string>, a: nat, entries: seq<Entry>, n: nat, w: nat)
    requires EntriesAt(lines, a, entries, n, w)
    ensures AllWellFormed(entries) && At(lines, a, Layout(entries, n, w))
  {
    assert AllWellFormed(entries);
  }

  lemma SplitEntries(lines: seq<string>, a: nat, entries: seq<Entry>, n: nat, w: nat)
    requires AllWellFormed(entries) && At(lines, a, Layout(entries, n, w)) && entries != []
    ensures OneAt(lines, a, entries[0], n, w)
    ensures EntriesAt(lines, a + HeightOne(entries[0]), entries[1..], n, w)
  {
    WellFormedSplits(entries);
    LayoutAtSplits(lines, a, entries, n, w);
    OneIsAt(lines, a, entries[0], n, w);
    EntriesAreAt(lines, a + HeightOne(entries[0]), entries[1..], n, w);
  }

  lemma EntriesSplit(lines: seq<string>, a: nat, entries: seq<Entry>, n: nat, w: nat)
    requires EntriesAt(lines, a, entries, n, w) && entries != []
    ensures OneAt(lines, a, entries[0], n, w)
    ensures EntriesAt(lines, a + HeightOne(entries[0]), entries[1..], n, w)
  {
    EntriesAtMeans(lines, a, entries, n, w);
    SplitEntries(lines, a, entries, n, w);
  }

  lemma OneSplit(lines: seq<string>, a: nat, e: Entry, n: nat, w: nat)
    requires OneAt(lines, a, e, n, w)
    ensures HeadAt(lines, a, e, n) && e.key != "__proto__"
    ensures e.node.Block? ==> ItemsAt(lines, a + 1, e.node.items, n + w)
    ensures e.node.Branch? ==> EntriesAt(lines, a + 1, e.node.entries, n + w, w)
  {
    assert WellFormed(e);
    AtFirst(lines, a, LineOfEntry(e, n), Nested(e.node, n + w, w));
  }

  // ----- Entries -----

  function Top(base: seq<Frame>): Path
    requires base != []
  {
    base[|base| - 1].path
  }

  /** The parser stands in the map at the top of `base`, whose members so far are `m`,
      whatever deeper frames it has yet to pop. */
  ghost predicate StandsIn(st: State, base: seq<Frame>, n: nat, m: map<string, Value>) {
    && PopTo(st.stack, n) == base && base != []
    && Get(st.root, Top(base)) == Some(Obj(m))
  }

  /** The same, bound, so that it is not unfolded where it is passed on. */
  ghost predicate Standing(st: State, base: seq<Frame>, n: nat, m: map<string, Value>) {
    base != [] && forall x :: x == m ==> StandsIn(st, base, n, x)
  }

  lemma {:induction false} PopTwice(stack: seq<Frame>, n: int, k: int)
    requires k <= n
    ensures PopTo(PopTo(stack, n), k) == PopTo(stack, k)
  {
    if stack != [] && stack[|stack| - 1].indent >= n { PopTwice(stack[..|stack| - 1], n, k); }
  }

  /** The lines from `a` to `b` lead from `st` to `end`, and all they change is that the
      map on top of `base` has the members `m`. */
  ghost predicate WroteMap(lines: seq<string>, a: nat, st: State, b: nat, end: State, base: seq<Frame>, n: nat,
                           m: map<string, Value>)
    requires base != []
  {
    Leads(lines, a, st, b, end) && Standing(end, base, n, m) && end.root == Set(st.root, Top(base), Obj(m))
  }

  /** The same, bound. */
  ghost predicate Wrote(lines: seq<string>, a: nat, st: State, b: nat, end: State, base: seq<Frame>, n: nat,
                        m: map<string, Value>) {
    base != [] && forall x :: x == m ==> WroteMap(lines, a, st, b, end, base, n, x)
  }

  lemma WroteStands(lines: seq<string>, a: nat, st: State, b: nat, end: State, base: seq<Frame>, n: nat,
                    m: map<string, Value>)
    requires Wrote(lines, a, st, b, end, base, n, m)
    ensures Standing(end, base, n, m)
  {
    assert WroteMap(lines, a, st, b, end, base, n, m);
  }

  lemma WroteThen(lines: seq<string>, a: nat, st: State, b: nat, mid: State, c: nat, end: State,
                  base: seq<Frame>, n: nat, m: map<string, Value>, m1: map<string, Value>, m2: map<string, Value>)
    requires Standing(st, base, n, m)
    requires Wrote(lines, a, st, b, mid, base, n, m1) && Wrote(lines, b, mid, c, end, base, n, m2)
    ensures Wrote(lines, a, st, c, end, base, n, m2)
  {
    assert StandsIn(st, base, n, m);
    assert WroteMap(lines, a, st, b, mid, base, n, m1) && WroteMap(lines, b, mid, c, end, base, n, m2);
    SetTwice(st.root, Top(base), Obj(m1), Obj(m2));
    LeadsThen(lines, a, st, b, mid, c, end);
  }

  /** A written member is there, and writing below it is writing it. */
  lemma MemberWritten(st: State, base: seq<Frame>, n: nat, m: map<string, Value>, key: string, v: Value, w: Value)
    requires Standing(st, base, n, m) && key != "__proto__"
    ensures var root := Assign(st.root, Top(base), key, v);
            && root == Set(st.root, Top(base), Obj(m[key := v]))
            && Get(root, Top(base)) == Some(Obj(m[key := v]))
            && Get(root, Top(base) + [key]) == Some(v)
            && Set(root, Top(base) + [key], w) == Set(st.root, Top(base), Obj(m[key := w]))
    ensures Get(Set(st.root, Top(base), Obj(m[key := w])), Top(base)) == Some(Obj(m[key := w]))
  {
    assert StandsIn(st, base, n, m);
    var path, root := Top(base), Assign(st.root, Top(base), key, v);
    GetSet(st.root, path, Obj(m[key := v]));
    GetSet(st.root, path, Obj(m[key := w]));
    SetMember(root, path, key, w);
    SetTwice(st.root, path, Obj(m[key := v]), Obj(m[key := v][key := w]));
    assert m[key := v][key := w] == m[key := w];
  }

  lemma InlineDenotes(texts: seq<string>)
    requires forall i :: 0 <= i < |texts| ==> Trim(texts[i]) == texts[i] && ',' !in texts[i]
    ensures Bracketed(InlineText(texts)) && InlineList(InlineText(texts)) == Denote(Inline(texts))
  {
    var t := InlineText(texts);
    assert t[0] == '[' && t[|t| - 1] == ']' && t[1..|t| - 1] == Join(texts, ", ");
    if texts == [] {
      EmptyInlineList();
      assert t == "[]";
    } else {
      ScalarsOfTrimmed(texts, "");
      assert "" + Join(texts, ", ") == Join(texts, ", ");
    }
  }

  /** Whether some text stands for the empty string. */
  predicate HasEmpty(texts: seq<string>) {
    exists i :: 0 <= i < |texts| && ParseScalar(texts[i]) == Str("")
  }

  lemma HasEmptyFirst(texts: seq<string>)
    requires texts != []
    ensures HasEmpty(texts) <==> ParseScalar(texts[0]) == Str("") || HasEmpty(texts[1..])
  {
    if HasEmpty(texts[1..]) {
      var i :| 0 <= i < |texts[1..]| && ParseScalar(texts[1..][i]) == Str("");
      assert texts[i + 1] == texts[1..][i];
    }
    if HasEmpty(texts) && ParseScalar(texts[0]) != Str("") {
      var i :| 0 <= i < |texts| && ParseScalar(texts[i]) == Str("");
      assert texts[1..][i - 1] == texts[i];
    }
  }

  lemma {:induction false} NonEmptyShortens(texts: seq<string>)
    ensures |NonEmpty(ScalarsOf(texts))| <= |ScalarsOf(texts)|
    ensures |NonEmpty(ScalarsOf(texts))| == |ScalarsOf(texts)| <==> !HasEmpty(texts)
    ensures !HasEmpty(texts) ==> NonEmpty(ScalarsOf(texts)) == ScalarsOf(texts)
  {
    if texts != [] {
      HasEmptyFirst(texts);
      assert ScalarsOf(texts)[1..] == ScalarsOf(texts[1..]);
      NonEmptyShortens(texts[1..]);
    }
  }

  /** An inline list comes back item by item exactly when it has an item and none of its
      texts stands for the empty string. */
  lemma InlineListComesBackIff(texts: seq<string>)
    requires forall i :: 0 <= i < |texts| ==> Trim(texts[i]) == texts[i] && ',' !in texts[i]
    ensures InlineList(InlineText(texts)) == List(ScalarsOf(texts)) <==> texts != [] && !HasEmpty(texts)
  {
    InlineDenotes(texts);
    NonEmptyShortens(texts);
  }

  /** The step on an entry's own line, and what the line looks like from before. */
  lemma HeadStep(lines: seq<string>, a: nat, e: Entry, n: nat, st: State)
    requires HeadAt(lines, a, e, n) && PopTo(st.stack, n) != []
    ensures a < |lines| && !ItemComes(lines, a)
    ensures Leads(lines, a, st, a + 1, Entered(lines, a, st.root, PopTo(st.stack, n), n, e.key, Rest(e.node)))
  {
    assert WellFormed(e);
    EntryLine(lines, a, e, n, st);
    StepLeads(lines, a, st, Entered(lines, a, st.root, PopTo(st.stack, n), n, e.key, Rest(e.node)));
  }

  /** After a line comes no list item when an entry or nothing follows. */
  lemma NoItemAhead(lines: seq<string>, a: nat, entries: seq<Entry>, n: nat, w: nat)
    requires EntriesAt(lines, a, entries, n, w) && (entries == [] ==> !ItemComes(lines, a))
    ensures !ItemComes(lines, a)
  {
    if entries != [] {
      EntriesSplit(lines, a, entries, n, w);
      OneSplit(lines, a, entries[0], n, w);
      HeadStep(lines, a, entries[0], n, START);
    }
  }

  lemma RestDenotes(e: Entry, n: nat)
    requires WellFormed(e) && (e.node.Leaf? || e.node.Inline?)
    ensures var rest := Rest(e.node);
            rest != "" && (if Bracketed(rest) then InlineList(rest) else ParseScalar(rest)) == Denote(e.node)
  {
    if e.node.Inline? { InlineDenotes(e.node.texts); }
  }

  lemma EnteredScalar(lines: seq<string>, a: nat, root: Value, base: seq<Frame>, n: nat, e: Entry)
    requires base != [] && WellFormed(e) && (e.node.Leaf? || e.node.Inline?)
    ensures Entered(lines, a, root, base, n, e.key, Rest(e.node)) ==
              State(Assign(root, Top(base), e.key, Denote(e.node)), base, None)
  {
    RestDenotes(e, n);
  }

  /** A member assigned, the stack popped to the map: that is what was written. */
  lemma AssignedIsWritten(lines: seq<string>, a: nat, st: State, base: seq<Frame>, n: nat, m: map<string, Value>,
                          key: string, v: Value)
    requires Standing(st, base, n, m) && key != "__proto__"
    requires Leads(lines, a, st, a + 1, State(Assign(st.root, Top(base), key, v), base, None))
    ensures Wrote(lines, a, st, a + 1, State(Assign(st.root, Top(base), key, v), base, None), base, n, m[key := v])
  {
    assert StandsIn(st, base, n, m);
    MemberWritten(st, base, n, m, key, v, v);
    PopTwice(st.stack, n, n);
  }

  lemma ScalarEntryParses(lines: seq<string>, a: nat, e: Entry, n: nat, st: State, base: seq<Frame>,
                          m: map<string, Value>) returns (end: State)
    requires HeadAt(lines, a, e, n) && e.key != "__proto__" && Standing(st, base, n, m)
    requires e.node.Leaf? || e.node.Inline?
    ensures Wrote(lines, a, st, a + 1, end, base, n, m[e.key := Denote(e.node)])
  {
    assert StandsIn(st, base, n, m);
    assert WellFormed(e);
    HeadStep(lines, a, e, n, st);
    EnteredScalar(lines, a, st.root, base, n, e);
    end := State(Assign(st.root, Top(base), e.key, Denote(e.node)), base, None);
    AssignedIsWritten(lines, a, st, base, n, m, e.key, Denote(e.node));
  }

  // ----- Block lists -----

  function WithItems(st: State, items: seq<Value>): State
    requires st.pending.Some?
  {
    st.(root := Set(st.root, st.pending.value.path, List(items)))
  }

  ghost predicate Collecting(st: State, n: nat, items: seq<Value>) {
    st.pending.Some? && st.pending.value.indent == n && Get(st.root, st.pending.value.path) == Some(List(items))
  }

  lemma ItemsSplit(lines: seq<string>, a: nat, items: seq<Item>, n: nat)
    requires ItemsAt(lines, a, items, n) && items != []
    ensures ItemOk(items[0]) && a < |lines| && lines[a] == LineOfItem(items[0], n)
    ensures ItemsAt(lines, a + 1, items[1..], n)
  {
    assert AllItemsOk(items);
    AtFirst(lines, a, LineOfItem(items[0], n), Items(items[1..], n));
  }

  /** The step on an item, by what is seen of its line. */
  lemma SeenItemSteps(lines: seq<string>, a: nat, seen: string, text: string, n: nat, st: State)
    requires a < |lines| && StripComment(lines[a]) == seen && !Skipped(seen) && Indent(seen) == n
    requires seen[n..] == "- " + text && Trim(text) == text && st.pending.Some? && st.pending.value.indent == n
    ensures OneLineStep(lines, a, st) ==
              Ok(st.(root := Push(st.root, st.pending.value.path, ParseScalar(text))))
  {
    assert ("- " + text)[2..] == text;
  }

  lemma ItemSteps(lines: seq<string>, a: nat, item: Item, n: nat, st: State, values: seq<Value>)
    requires a < |lines| && lines[a] == LineOfItem(item, n) && ItemOk(item) && Collecting(st, n, values)
    ensures OneLineStep(lines, a, st) == Ok(WithItems(st, values + [ParseScalar(item.text)]))
  {
    SeesContent(n, "- " + item.text, item.remark);
    SeenItemSteps(lines, a, Spaces(n) + ("- " + item.text), item.text, n, st);
  }

  lemma ItemLeads(lines: seq<string>, a: nat, item: Item, n: nat, st: State, values: seq<Value>)
    requires a < |lines| && lines[a] == LineOfItem(item, n) && ItemOk(item) && Collecting(st, n, values)
    ensures Leads(lines, a, st, a + 1, WithItems(st, values + [ParseScalar(item.text)]))
    ensures ItemComes(lines, a) && Indent(NextLine(lines, a).value) == n
  {
    SeesContent(n, "- " + item.text, item.remark);
    ItemSteps(lines, a, item, n, st, values);
    StepLeads(lines, a, st, WithItems(st, values + [ParseScalar(item.text)]));
  }

  lemma FirstItemParses(lines: seq<string>, a: nat, items: seq<Item>, n: nat, st: State, values: seq<Value>)
    requires ItemsAt(lines, a, items, n) && items != [] && Collecting(st, n, values)
    ensures ItemsAt(lines, a + 1, items[1..], n)
    ensures var grown := values + [ParseScalar(items[0].text)];
            && Leads(lines, a, st, a + 1, WithItems(st, grown)) && Collecting(WithItems(st, grown), n, grown)
  {
    ItemsSplit(lines, a, items, n);
    ItemLeads(lines, a, items[0], n, st, values);
    GetSet(st.root, st.pending.value.path, List(values + [ParseScalar(items[0].text)]));
  }

  lemma ItemsAgain(st: State, before: seq<Value>, after: seq<Value>)
    requires st.pending.Some? && Get(st.root, st.pending.value.path).Some?
    ensures WithItems(WithItems(st, before), after) == WithItems(st, after)
  {
    SetTwice(st.root, st.pending.value.path, List(before), List(after));
  }

  lemma ItemsJoin(values: seq<Value>, v: Value, later: seq<Value>)
    ensures (values + [v]) + later == values + ([v] + later)
  {
  }

  lemma LaterItems(st: State, n: nat, values: seq<Value>, items: seq<Item>)
    requires st.pending.Some? && Get(st.root, st.pending.value.path).Some? && items != []
    ensures var grown := values + [ParseScalar(items[0].text)];
            WithItems(WithItems(st, grown), grown + ItemValues(items[1..])) == WithItems(st, values + ItemValues(items))
  {
    var grown := values + [ParseScalar(items[0].text)];
    ItemsJoin(values, ParseScalar(items[0].text), ItemValues(items[1..]));
    ItemsAgain(st, grown, values + ItemValues(items));
  }

  lemma NoMoreItems(lines: seq<string>, a: nat, n: nat, st: State, values: seq<Value>)
    requires ItemsAt(lines, a, [], n) && Collecting(st, n, values)
    ensures Leads(lines, a, st, a, WithItems(st, values + []))
  {
    assert AllItemsOk([]);
    SetSame(st.root, st.pending.value.path);
    assert values + [] == values;
  }

  /** The values of a block list land in the pending list. */
  lemma {:induction false} ItemsParse(lines: seq<string>, a: nat, items: seq<Item>, n: nat, st: State,
                                      values: seq<Value>)
    requires ItemsAt(lines, a, items, n) && Collecting(st, n, values)
    ensures Leads(lines, a, st, a + |items|, WithItems(st, values + ItemValues(items)))
    decreases |items|
  {
    if items == [] {
      NoMoreItems(lines, a, n, st, values);
    } else {
      var grown := values + [ParseScalar(items[0].text)];
      FirstItemParses(lines, a, items, n, st, values);
      ItemsParse(lines, a + 1, items[1..], n, WithItems(st, grown), grown);
      LaterItems(st, n, values, items);
      LeadsThen(lines, a, st, a + 1, WithItems(st, grown), a + |items|, WithItems(st, values + ItemValues(items)));
    }
  }

  /** A block list's own line opens the pending list. */
  lemma BlockOpens(lines: seq<string>, a: nat, e: Entry, n: nat, w: nat, st: State, base: seq<Frame>,
                   m: map<string, Value>) returns (mid: State)
    requires HeadAt(lines, a, e, n) && e.node.Block? && ItemsAt(lines, a + 1, e.node.items, n + w)
    requires e.key != "__proto__" && Standing(st, base, n, m) && e.node.items != []
    ensures Leads(lines, a, st, a + 1, mid) && mid.stack == base
    ensures Collecting(mid, n + w, []) && mid.pending.value.path == Top(base) + [e.key]
    ensures mid.root == Assign(st.root, Top(base), e.key, List([]))
  {
    assert StandsIn(st, base, n, m);
    HeadStep(lines, a, e, n, st);
    ItemsAhead(lines, a + 1, e.node.items, n + w);
    mid := State(Assign(st.root, Top(base), e.key, List([])), base, Some(Pending(n + w, Top(base) + [e.key])));
    MemberWritten(st, base, n, m, e.key, List([]), List([]));
  }

  /** The line of a first item, as it is seen from the line before. */
  lemma ItemsAhead(lines: seq<string>, a: nat, items: seq<Item>, n: nat)
    requires ItemsAt(lines, a, items, n) && items != []
    ensures ItemComes(lines, a) && Indent(NextLine(lines, a).value) == n
  {
    ItemsSplit(lines, a, items, n);
    ItemLeads(lines, a, items[0], n, State(List([]), [], Some(Pending(n, []))), []);
  }

  lemma BlockEntryParses(lines: seq<string>, a: nat, e: Entry, n: nat, w: nat, st: State, base: seq<Frame>,
                         m: map<string, Value>) returns (end: State)
    requires HeadAt(lines, a, e, n) && e.node.Block? && ItemsAt(lines, a + 1, e.node.items, n + w)
    requires e.key != "__proto__" && Standing(st, base, n, m) && e.node.items != []
    ensures Wrote(lines, a, st, a + 1 + |e.node.items|, end, base, n, m[e.key := List(ItemValues(e.node.items))])
  {
    assert StandsIn(st, base, n, m);
    var items := e.node.items;
    var mid := BlockOpens(lines, a, e, n, w, st, base, m);
    ItemsParse(lines, a + 1, items, n + w, mid, []);
    assert [] + ItemValues(items) == ItemValues(items);
    end := WithItems(mid, ItemValues(items));
    LeadsThen(lines, a, st, a + 1, mid, a + 1 + |items|, end);
    MemberWritten(st, base, n, m, e.key, List([]), List(ItemValues(items)));
    PopTwice(st.stack, n, n);
  }

  lemma EmptyEntryParses(lines: seq<string>, a: nat, e: Entry, n: nat, st: State, base: seq<Frame>,
                         m: map<string, Value>) returns (end: State)
    requires HeadAt(lines, a, e, n) && e.node == Block([]) && e.key != "__proto__"
    requires Standing(st, base, n, m) && !ItemComes(lines, a + 1)
    ensures Wrote(lines, a, st, a + 1, end, base, n, m[e.key := Obj(map[])])
  {
    assert StandsIn(st, base, n, m);
    HeadStep(lines, a, e, n, st);
    end := Entered(lines, a, st.root, base, n, e.key, "");
    MemberWritten(st, base, n, m, e.key, Obj(map[]), Obj(map[]));
    PopTwice(st.stack, n, n);
    assert end.stack[..|end.stack| - 1] == base;
  }

  // ----- Nested maps -----

  function Inner(base: seq<Frame>, n: nat, key: string): seq<Frame>
    requires base != []
  {
    base + [Frame(n, Top(base) + [key])]
  }

  /** A map's own line opens a frame for its entries. */
  lemma BranchOpens(lines: seq<string>, a: nat, e: Entry, n: nat, w: nat, st: State, base: seq<Frame>,
                    m: map<string, Value>) returns (mid: State)
    requires HeadAt(lines, a, e, n) && e.key != "__proto__" && Standing(st, base, n, m) && w > 0
    requires e.node.Branch? && !ItemComes(lines, a + 1)
    ensures Leads(lines, a, st, a + 1, mid)
    ensures mid.root == Set(st.root, Top(base), Obj(m[e.key := Obj(map[])]))
    ensures Standing(mid, Inner(base, n, e.key), n + w, map[])
  {
    assert StandsIn(st, base, n, m);
    HeadStep(lines, a, e, n, st);
    mid := Entered(lines, a, st.root, base, n, e.key, "");
    MemberWritten(st, base, n, m, e.key, Obj(map[]), Obj(map[]));
  }

  /** Closing the frame: what was written below the member is the member. */
  lemma BranchCloses(lines: seq<string>, a: nat, st: State, b: nat, mid: State, c: nat, end: State,
                     base: seq<Frame>, n: nat, w: nat, m: map<string, Value>, key: string, inner: map<string, Value>)
    requires w > 0 && key != "__proto__" && Standing(st, base, n, m)
    requires Leads(lines, a, st, b, mid) && mid.root == Set(st.root, Top(base), Obj(m[key := Obj(map[])]))
    requires Wrote(lines, b, mid, c, end, Inner(base, n, key), n + w, inner)
    ensures Wrote(lines, a, st, c, end, base, n, m[key := Obj(inner)])
  {
    assert StandsIn(st, base, n, m);
    assert WroteMap(lines, b, mid, c, end, Inner(base, n, key), n + w, inner);
    assert StandsIn(end, Inner(base, n, key), n + w, inner);
    MemberWritten(st, base, n, m, key, Obj(map[]), Obj(inner));
    PopTwice(end.stack, n + w, n);
    PopTwice(st.stack, n, n);
    assert Inner(base, n, key)[..|base|] == base;
    LeadsThen(lines, a, st, b, mid, c, end);
  }

  lemma {:induction false} EntryParses(lines: seq<string>, a: nat, e: Entry, n: nat, w: nat, st: State,
                                       base: seq<Frame>, m: map<string, Value>) returns (end: State)
    requires OneAt(lines, a, e, n, w) && Standing(st, base, n, m) && w > 0
    requires !ItemComes(lines, a + HeightOne(e))
    ensures Wrote(lines, a, st, a + HeightOne(e), end, base, n, m[e.key := Denote(e.node)])
    decreases e, 1
  {
    OneSplit(lines, a, e, n, w);
    match e.node
    case Leaf(_) => end := ScalarEntryParses(lines, a, e, n, st, base, m);
    case Inline(_) => end := ScalarEntryParses(lines, a, e, n, st, base, m);
    case Block(items) =>
      if items == [] {
        end := EmptyEntryParses(lines, a, e, n, st, base, m);
      } else {
        end := BlockEntryParses(lines, a, e, n, w, st, base, m);
      }
    case Branch(_) => end := BranchParses(lines, a, e, n, w, st, base, m);
  }

  lemma {:induction false} BranchParses(lines: seq<string>, a: nat, e: Entry, n: nat, w: nat, st: State,
                                        base: seq<Frame>, m: map<string, Value>) returns (end: State)
    requires HeadAt(lines, a, e, n) && e.key != "__proto__" && Standing(st, base, n, m) && w > 0
    requires e.node.Branch? && EntriesAt(lines, a + 1, e.node.entries, n + w, w)
    requires !ItemComes(lines, a + 1 + Height(e.node.entries))
    ensures Wrote(lines, a, st, a + 1 + Height(e.node.entries), end, base, n, m[e.key := Denote(e.node)])
    decreases e, 0
  {
    var entries := e.node.entries;
    NoItemAhead(lines, a + 1, entries, n + w, w);
    var mid := BranchOpens(lines, a, e, n, w, st, base, m);
    end := EntriesParse(lines, a + 1, entries, n + w, w, mid, Inner(base, n, e.key), map[]);
    BranchCloses(lines, a, st, a + 1, mid, a + 1 + Height(entries), end, base, n, w, m, e.key,
                 DenoteAll(entries, map[]));
  }

  lemma NoMoreEntries(lines: seq<string>, a: nat, n: nat, w: nat, st: State, base: seq<Frame>, m: map<string, Value>)
    requires EntriesAt(lines, a, [], n, w) && Standing(st, base, n, m)
    ensures Wrote(lines, a, st, a, st, base, n, m)
  {
    assert StandsIn(st, base, n, m);
    assert AllWellFormed([]);
    SetSame(st.root, Top(base));
  }

  lemma EntriesWrote(lines: seq<string>, a: nat, st: State, entries: seq<Entry>, mid: State, end: State,
                     base: seq<Frame>, n: nat, m: map<string, Value>)
    requires entries != [] && Standing(st, base, n, m)
    requires var b, one := a + HeightOne(entries[0]), m[entries[0].key := Denote(entries[0].node)];
             && Wrote(lines, a, st, b, mid, base, n, one)
             && Wrote(lines, b, mid, b + Height(entries[1..]), end, base, n, DenoteAll(entries[1..], one))
    ensures Wrote(lines, a, st, a + Height(entries), end, base, n, DenoteAll(entries, m))
  {
    var b, one := a + HeightOne(entries[0]), m[entries[0].key := Denote(entries[0].node)];
    WroteThen(lines, a, st, b, mid, a + Height(entries), end, base, n, m, one, DenoteAll(entries, m));
  }

  /** The lines of a map's entries, read where the map stands, add exactly its members. */
  lemma {:induction false} EntriesParse(lines: seq<string>, a: nat, entries: seq<Entry>, n: nat, w: nat, st: State,
                                        base: seq<Frame>, m: map<string, Value>) returns (end: State)
    requires EntriesAt(lines, a, entries, n, w) && Standing(st, base, n, m) && w > 0
    requires !ItemComes(lines, a + Height(entries))
    ensures Wrote(lines, a, st, a + Height(entries), end, base, n, DenoteAll(entries, m))
    decreases entries
  {
    if entries == [] {
      NoMoreEntries(lines, a, n, w, st, base, m);
      end := st;
    } else {
      var e, rest := entries[0], entries[1..];
      EntriesSplit(lines, a, entries, n, w);
      var b, one := a + HeightOne(e), m[e.key := Denote(e.node)];
      NoItemAhead(lines, b, rest, n, w);
      var mid := EntryParses(lines, a, e, n, w, st, base, m);
      WroteStands(lines, a, st, b, mid, base, n, one);
      end := EntriesParse(lines, b, rest, n, w, mid, base, one);
      EntriesWrote(lines, a, st, entries, mid, end, base, n, m);
    }
  }

  // ----- Whole texts -----

  /** The text of a document: its lines, one newline between two. */
  function Document(entries: seq<Entry>, width: nat): string {
    Join(Layout(entries, 0, width), "\n")
  }

  ghost predicate OneLines(lines: seq<string>) {
    forall j :: 0 <= j < |lines| ==> Unbroken(lines[j])
  }

  lemma RemarkedLine(n: nat, content: string, remark: string)
    requires Remarked(content, remark)
    ensures Unbroken(Spaces(n) + (content + remark))
  {
    assert RemarkedBy(content, remark);
  }

  lemma {:induction false} ItemsAreLines(items: seq<Item>, n: nat)
    requires AllItemsOk(items)
    ensures OneLines(Items(items, n))
  {
    if items != [] {
      RemarkedLine(n, "- " + items[0].text, items[0].remark);
      ItemsAreLines(items[1..], n);
    }
  }

  lemma {:induction false} LayoutOneIsLines(e: Entry, n: nat, w: nat)
    requires WellFormed(e)
    ensures OneLines(LayoutOne(e, n, w))
    decreases e
  {
    RemarkedLine(n, Head(e), e.remark);
    match e.node
    case Leaf(_) =>
    case Inline(_) =>
    case Block(items) => ItemsAreLines(items, n + w);
    case Branch(entries) => LayoutIsLines(entries, n + w, w);
  }

  lemma {:induction false} LayoutIsLines(entries: seq<Entry>, n: nat, w: nat)
    requires AllWellFormed(entries)
    ensures OneLines(Layout(entries, n, w))
    decreases entries
  {
    if entries != [] {
      LayoutOneIsLines(entries[0], n, w);
      LayoutIsLines(entries[1..], n, w);
    }
  }

  lemma LinesOfJoin(lines: seq<string>)
    requires lines != [] && OneLines(lines)
    ensures Lines(Join(lines, "\n")) == lines
  {
    JoinHas(lines, "\n", '\r');
    DropAbsent(Join(lines, "\n"), '\r');
    SplitJoin(lines, '\n');
  }

  lemma StartStands()
    ensures Standing(START, START.stack, 0, map[])
  {
  }

  /** Written from the start to the end, at the root. */
  lemma WroteAll(lines: seq<string>, end: State, m: map<string, Value>)
    requires Wrote(lines, 0, START, |lines|, end, START.stack, 0, m)
    ensures Run(lines, 0, START) == Ok(end) && end.root == Obj(m)
  {
    assert WroteMap(lines, 0, START, |lines|, end, START.stack, 0, m);
    assert Run(lines, 0, START) == Run(lines, |lines|, end);
  }

  lemma LayoutIsThere(lines: seq<string>, entries: seq<Entry>, width: nat)
    requires AllWellFormed(entries) && lines == Layout(entries, 0, width)
    ensures EntriesAt(lines, 0, entries, 0, width) && Height(entries) == |lines| && !ItemComes(lines, |lines|)
  {
    LayoutHeight(entries, 0, width);
  }

  lemma WholeLayoutParses(lines: seq<string>, entries: seq<Entry>, width: nat) returns (end: State)
    requires EntriesAt(lines, 0, entries, 0, width) && Height(entries) == |lines| && !ItemComes(lines, |lines|)
    requires width > 0
    ensures Run(lines, 0, START) == Ok(end) && end.root == Obj(DenoteAll(entries, map[]))
  {
    StartStands();
    end := EntriesParse(lines, 0, entries, 0, width, START, START.stack, map[]);
    WroteAll(lines, end, DenoteAll(entries, map[]));
  }

  lemma EmptyParses()
    ensures Parse("") == Ok(Obj(map[]))
  {
    assert Lines("") == [""] && StripComment("") == "" && Trim("") == "";
    assert Run([""], 0, START) == Run([""], 1, START);
  }

  /** Any tree of maps, lists and scalars, laid out at any indent width and parsed, gives
      its meaning back. */
  lemma LayoutParsesBack(entries: seq<Entry>, width: nat)
    requires AllWellFormed(entries) && width > 0
    ensures Parse(Document(entries, width)) == Ok(Obj(DenoteAll(entries, map[])))
  {
    if entries == [] {
      EmptyParses();
    } else {
      assert Layout(entries, 0, width) == LayoutOne(entries[0], 0, width) + Layout(entries[1..], 0, width);
      LayoutIsLines(entries, 0, width);
      LinesOfJoin(Layout(entries, 0, width));
      LayoutIsThere(Layout(entries, 0, width), entries, width);
      var end := WholeLayoutParses(Layout(entries, 0, width), entries, width);
    }
  }

  // ----- What the tree means -----

  /** The meaning of a map is read off key by key: the last entry of a key decides. */
  lemma {:induction false} LastEntryDecides(entries: seq<Entry>, m: map<string, Value>, i: nat)
    requires i < |entries| && forall j :: i < j < |entries| ==> entries[j].key != entries[i].key
    ensures var all := DenoteAll(entries, m);
            entries[i].key in all && all[entries[i].key] == Denote(entries[i].node)
  {
    if i > 0 {
      LastEntryDecides(entries[1..], m[entries[0].key := Denote(entries[0].node)], i - 1);
    } else {
      KeysUntouched(entries[1..], m[entries[0].key := Denote(entries[0].node)], entries[0].key);
    }
  }

  lemma {:induction false} KeysUntouched(entries: seq<Entry>, m: map<string, Value>, key: string)
    requires forall j :: 0 <= j < |entries| ==> entries[j].key != key
    ensures key in DenoteAll(entries, m) <==> key in m
    ensures key in m ==> DenoteAll(entries, m)[key] == m[key]
  {
    if entries != [] {
      KeysUntouched(entries[1..], m[entries[0].key := Denote(entries[0].node)], key);
    }
  }
}
