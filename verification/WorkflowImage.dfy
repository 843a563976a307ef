/** Which objects have a text at all (src/services/WorkflowLoader.ts:135-219), and when a
    quoted string comes back: quotes do not protect a `#` from the comment rule. */
module WorkflowImage {
  import opened Wrappers
  import opened Texts
  import opened WorkflowText
  import opened WorkflowLoader
  import opened WorkflowLayout

  // ----- Values a text can say -----

  ghost predicate SayableScalar(v: Value) {
    match v
    case Null => true
    case Bool(_) => true
    case Int(_) => true
    case Dec(text) => IsFraction(text) && !IsInteger(text)
    case Str(s) => Unbroken(s)
    case _ => false
  }

  ghost predicate SayableKey(key: string) {
    && Trim(key) == key && ':' !in key && Unbroken(key) && key != "__proto__"
    && (key != "" ==> key[0] != '#')
  }

  /** Nested maps, lists of scalars and scalars, without line breaks. */
  ghost predicate Sayable(v: Value) {
    match v
    case List(items) => forall i :: 0 <= i < |items| ==> SayableScalar(items[i])
    case Obj(members) => forall key :: key in members ==> SayableKey(key) && Sayable(members[key])
    case _ => SayableScalar(v)
  }

  // ----- Every result is sayable -----

  lemma {:induction false} TrimUnbroken(s: string)
    requires Unbroken(s)
    ensures Unbroken(TrimStart(s)) && Unbroken(TrimEnd(s))
  {
    if s != "" {
      if IsSpace(s[0]) { TrimUnbroken(s[1..]); }
      if IsSpace(s[|s| - 1]) { TrimUnbroken(s[..|s| - 1]); }
    }
  }

  lemma TrimmedIsUnbroken(s: string)
    requires Unbroken(s)
    ensures Unbroken(Trim(s))
  {
    TrimUnbroken(s);
    TrimUnbroken(TrimStart(s));
  }

  lemma {:induction false} TrimEndIsTrimmed(s: string)
    ensures var t := TrimEnd(s); t == "" || !IsSpace(t[|t| - 1])
    ensures |TrimEnd(s)| <= |s| && TrimEnd(s) == s[..|TrimEnd(s)|]
  {
    if s != "" && IsSpace(s[|s| - 1]) { TrimEndIsTrimmed(s[..|s| - 1]); }
  }

  lemma {:induction false} TrimStartIsTrimmed(s: string)
    ensures var t := TrimStart(s); t == "" || !IsSpace(t[0])
    ensures |TrimStart(s)| <= |s| && TrimStart(s) == s[|s| - |TrimStart(s)|..]
  {
    if s != "" && IsSpace(s[0]) { TrimStartIsTrimmed(s[1..]); }
  }

  lemma TrimIsTrimmed(s: string)
    ensures Trim(Trim(s)) == Trim(s)
    ensures |Trim(s)| <= |TrimStart(s)| <= |s| && Trim(s) == TrimStart(s)[..|Trim(s)|]
  {
    TrimStartIsTrimmed(s);
    TrimEndIsTrimmed(TrimStart(s));
    var t := Trim(s);
    assert t != "" ==> t[0] == TrimStart(s)[0];
    assert TrimStart(t) == t && TrimEnd(t) == t;
  }

  /** The comment starts at `c`, if there is one. */
  lemma {:induction false} StripIsPrefix(s: string) returns (c: nat)
    ensures c <= |s| && StripComment(s) == s[..c] && (c < |s| ==> IsComment(s[c..]))
  {
    if s == "" {
      c := 0;
    } else if IsComment(s) {
      c := 0;
      assert s[0..] == s;
    } else {
      var d := StripIsPrefix(s[1..]);
      c := d + 1;
      assert s[c..] == s[1..][d..] && s[..c] == [s[0]] + s[1..][..d];
    }
  }

  lemma {:induction false} DropAllDrops(s: string, c: char)
    ensures c !in DropAll(s, c)
  {
    if s != "" { DropAllDrops(s[1..], c); }
  }

  lemma {:induction false} SplitParts(s: string, sep: char, c: char)
    requires c != sep ==> c !in s
    ensures forall i :: 0 <= i < |Split(s, sep)| ==> c !in Split(s, sep)[i]
  {
    if s != "" {
      SplitParts(s[1..], sep, c);
      var parts := Split(s[1..], sep);
      assert c !in parts[0];
      assert forall i :: 0 <= i < |parts[1..]| ==> parts[1..][i] == parts[i + 1];
    }
  }

  lemma LinesAreUnbroken(src: string)
    ensures forall i :: 0 <= i < |Lines(src)| ==> Unbroken(Lines(src)[i])
  {
    DropAllDrops(src, '\r');
    SplitParts(DropAll(src, '\r'), '\n', '\n');
    SplitParts(DropAll(src, '\r'), '\n', '\r');
  }

  lemma ParsedScalar(s: string)
    requires Unbroken(s)
    ensures SayableScalar(ParseScalar(s))
    ensures ParseScalar(s).Str? ==> |ParseScalar(s).s| <= |s|
  {
  }

  lemma {:induction false} ParsedScalars(texts: seq<string>)
    requires forall i :: 0 <= i < |texts| ==> Unbroken(texts[i])
    ensures forall i :: 0 <= i < |Scalars(texts)| ==> SayableScalar(Scalars(texts)[i])
  {
    if texts != [] {
      TrimmedIsUnbroken(texts[0]);
      ParsedScalar(Trim(texts[0]));
      ParsedScalars(texts[1..]);
    }
  }

  lemma {:induction false} FilteredScalars(values: seq<Value>)
    requires forall i :: 0 <= i < |values| ==> SayableScalar(values[i])
    ensures forall i :: 0 <= i < |NonEmpty(values)| ==> SayableScalar(NonEmpty(values)[i])
  {
    if values != [] { FilteredScalars(values[1..]); }
  }

  lemma SplitUnbroken(s: string, sep: char)
    requires Unbroken(s)
    ensures forall i :: 0 <= i < |Split(s, sep)| ==> Unbroken(Split(s, sep)[i])
  {
    SplitParts(s, sep, '\n');
    SplitParts(s, sep, '\r');
  }

  lemma ParsedInline(rest: string)
    requires Unbroken(rest) && Bracketed(rest)
    ensures Sayable(InlineList(rest))
  {
    var inner := if |rest| < 2 then "" else rest[1..|rest| - 1];
    SplitUnbroken(inner, ',');
    ParsedScalars(Split(inner, ','));
    FilteredScalars(Scalars(Split(inner, ',')));
  }

  lemma {:induction false} GetSayable(root: Value, path: Path)
    requires Sayable(root) && Get(root, path).Some?
    ensures Sayable(Get(root, path).value)
  {
    if path != [] { GetSayable(root.members[path[0]], path[1..]); }
  }

  lemma {:induction false} SetSayable(root: Value, path: Path, v: Value)
    requires Sayable(root) && Sayable(v)
    ensures Sayable(Set(root, path, v)) && (root.Obj? && (path != [] || v.Obj?) ==> Set(root, path, v).Obj?)
  {
    if path != [] && root.Obj? && path[0] in root.members { SetSayable(root.members[path[0]], path[1..], v); }
  }

  lemma AssignSayable(root: Value, path: Path, key: string, v: Value)
    requires Sayable(root) && Sayable(v) && (key != "__proto__" ==> SayableKey(key))
    ensures Sayable(Assign(root, path, key, v))
  {
    if Get(root, path).Some? && Get(root, path).value.Obj? && key != "__proto__" {
      GetSayable(root, path);
      SetSayable(root, path, Obj(Get(root, path).value.members[key := v]));
    }
  }

  lemma PushSayable(root: Value, path: Path, v: Value)
    requires Sayable(root) && SayableScalar(v)
    ensures Sayable(Push(root, path, v))
  {
    if Get(root, path).Some? && Get(root, path).value.List? {
      GetSayable(root, path);
      SetSayable(root, path, List(Get(root, path).value.items + [v]));
    }
  }

  lemma EnteredSayable(lines: seq<string>, i: nat, root: Value, stack: seq<Frame>, indent: nat, key: string,
                       rest: string)
    requires stack != [] && Sayable(root) && Unbroken(rest) && (key != "__proto__" ==> SayableKey(key))
    ensures Sayable(Entered(lines, i, root, stack, indent, key, rest).root)
  {
    var path := stack[|stack| - 1].path;
    AssignSayable(root, path, key, List([]));
    AssignSayable(root, path, key, Obj(map[]));
    if rest != "" {
      if Bracketed(rest) { ParsedInline(rest); } else { ParsedScalar(rest); }
      AssignSayable(root, path, key, if Bracketed(rest) then InlineList(rest) else ParseScalar(rest));
    }
  }

  /** The indent does not show in the first character seen. */
  lemma {:induction false} SameFirst(s: string)
    ensures TrimStart(s[Indent(s)..]) == TrimStart(s)
  {
    if s != "" && s[0] == ' ' {
      SameFirst(s[1..]);
      assert s[Indent(s)..] == s[1..][Indent(s[1..])..];
    } else {
      assert Indent(s) == 0 && s[0..] == s;
    }
  }

  lemma {:induction false} FirstShows(s: string, t: string)
    requires s <= t && TrimStart(s) != ""
    ensures TrimStart(t) != "" && TrimStart(t)[0] == TrimStart(s)[0]
  {
    if IsSpace(s[0]) { FirstShows(s[1..], t[1..]); }
  }

  lemma SeenKey(stripped: string, colon: nat)
    requires Unbroken(stripped) && !Skipped(stripped)
    requires var content := stripped[Indent(stripped)..]; colon < |content| && ':' !in content[..colon]
    ensures var key := Trim(stripped[Indent(stripped)..][..colon]); key != "__proto__" ==> SayableKey(key)
  {
    var content := stripped[Indent(stripped)..];
    var front := content[..colon];
    var key := Trim(front);
    TrimIsTrimmed(front);
    TrimStartIsTrimmed(front);
    TrimmedIsUnbroken(front);
    assert ':' !in TrimStart(front);
    if key != "" {
      FirstShows(front, content);
      SameFirst(stripped);
      TrimIsTrimmed(stripped);
    }
  }

  lemma StepSayable(lines: seq<string>, i: nat, st: State)
    requires i < |lines| && Unbroken(lines[i]) && Sayable(st.root)
    ensures var r := OneLineStep(lines, i, st); r.Ok? ==> Sayable(r.value.root)
  {
    var c := StripIsPrefix(lines[i]);
    var stripped := StripComment(lines[i]);
    if !Skipped(stripped) {
      var content := stripped[Indent(stripped)..];
      if IsItem(content) {
        TrimmedIsUnbroken(content[2..]);
        ParsedScalar(Trim(content[2..]));
        if st.pending.Some? { PushSayable(st.root, st.pending.value.path, ParseScalar(Trim(content[2..]))); }
      } else {
        var stack, colon := PopTo(st.stack, Indent(stripped)), IndexOf(content, ':');
        if stack != [] && colon < |content| {
          SeenKey(stripped, colon);
          TrimmedIsUnbroken(content[colon + 1..]);
          EnteredSayable(lines, i, st.root, stack, Indent(stripped), Trim(content[..colon]),
                         Trim(content[colon + 1..]));
        }
      }
    }
  }

  lemma {:induction false} RunSayable(lines: seq<string>, i: nat, st: State)
    requires i <= |lines| && Sayable(st.root) && forall j :: 0 <= j < |lines| ==> Unbroken(lines[j])
    ensures Run(lines, i, st).Ok? ==> Sayable(Run(lines, i, st).value.root)
    decreases |lines| - i
  {
    if i < |lines| {
      StepSayable(lines, i, st);
      var r := OneLineStep(lines, i, st);
      if r.Ok? { RunSayable(lines, i + 1, r.value); }
    }
  }

  /** Whatever a text parses to is made of nested maps, lists of scalars and scalars, and no
      string or key in it holds a line break. */
  lemma ParsedIsSayable(src: string)
    requires Parse(src).Ok?
    ensures Sayable(Parse(src).value)
  {
    LinesAreUnbroken(src);
    RunSayable(Lines(src), 0, START);
  }

  // ----- Remarks -----

  /** Not ending in white space. */
  predicate Ends(s: string) {
    s != "" && !IsSpace(s[|s| - 1])
  }

  lemma {:induction false} TrimStartBefore(s: string, tail: string)
    requires Ends(s)
    ensures TrimStart(s + tail) == TrimStart(s) + tail && TrimStart(s) != ""
  {
    if IsSpace(s[0]) {
      assert (s + tail)[1..] == s[1..] + tail;
      TrimStartBefore(s[1..], tail);
    }
  }

  lemma {:induction false} SpacesAreTrimmed(pad: string, s: string)
    requires (forall i :: 0 <= i < |pad| ==> IsSpace(pad[i])) && s != "" && !IsSpace(s[0])
    ensures TrimStart(pad + s) == s
  {
    if pad == "" {
      assert pad + s == s;
    } else {
      assert (pad + s)[1..] == pad[1..] + s;
      SpacesAreTrimmed(pad[1..], s);
    }
  }

  /** An ordinary comment is a remark: white space, `#` and a note. */
  lemma {:induction false} CommentIsRemark(content: string, pad: string, note: string)
    requires Uncommented(content) && (content == "" || Ends(content))
    requires pad != "" && forall i :: 0 <= i < |pad| ==> IsSpace(pad[i])
    requires forall i :: 0 <= i < |note| ==> !EndsLine(note[i])
    ensures StripComment(content + (pad + ("#" + note))) == content
  {
    var remark := pad + ("#" + note);
    if content == "" {
      SpacesAreTrimmed(pad, "#" + note);
      assert content + remark == remark;
    } else {
      var line := content + remark;
      assert line[0] == content[0] && line[1..] == content[1..] + remark;
      if IsSpace(content[0]) {
        TrimStartBefore(content, remark);
        NoCommentAhead(content);
      }
      CommentIsRemark(content[1..], pad, note);
    }
  }

  /** A line without a `#` after white space needs no remark. */
  lemma PlainNeedsNoRemark(content: string)
    requires Uncommented(content) && Unbroken(content)
    ensures Remarked(content, "")
  {
    UncommentedStays(content);
    assert content + "" == content;
  }

  /** A line separator and a `#`: a comment of its own that stops `.*$` from reaching it from
      any earlier `#`. */
  const GUARD := "\U{2028}#"

  lemma {:induction false} GuardIsRemark(content: string)
    requires content == "" || Ends(content)
    ensures StripComment(content + GUARD) == content
  {
    if content == "" {
      assert content + GUARD == GUARD && GUARD[1..] == "#" && TrimStart("#") == "#";
      assert IsComment(GUARD);
    } else {
      var line := content + GUARD;
      assert line[1..] == content[1..] + GUARD;
      if IsSpace(content[0]) {
        TrimStartBefore(content, GUARD);
        var t := TrimStart(line);
        assert EndsLine(t[|t| - 2]);
      }
      GuardIsRemark(content[1..]);
    }
  }

  lemma GuardedIsRemarked(content: string)
    requires Ends(content) && Unbroken(content)
    ensures Remarked(content, GUARD)
  {
    GuardIsRemark(content);
  }

  // ----- Every sayable object has a text -----

  /** No key that would be taken for a list item. */
  ghost predicate NoItemKeys(v: Value) {
    v.Obj? ==> forall key :: key in v.members ==> !IsItem(key) && NoItemKeys(v.members[key])
  }

  /** Neither blank nor a bracket in front, no white space at either end. */
  ghost predicate Tight(text: string) {
    Ends(text) && !IsSpace(text[0]) && text[0] != '[' && Unbroken(text)
  }

  lemma TightIsTrimmed(text: string)
    requires Tight(text)
    ensures Trim(text) == text && !Bracketed(text)
  {
  }

  lemma FractionChars(s: string)
    requires IsFraction(s)
    ensures s != "" && forall i :: 0 <= i < |s| ==> IsDigit(s[i]) || s[i] == '-' || s[i] == '.'
  {
    var u := Unsigned(s);
    var dot := IndexOf(u, '.');
    forall i | 0 <= i < |u| ensures IsDigit(u[i]) || u[i] == '.' {
      if i < dot { assert u[..dot][i] == u[i]; }
      if i > dot { assert u[dot + 1..][i - dot - 1] == u[i]; }
    }
    forall i | 0 <= i < |s| ensures IsDigit(s[i]) || s[i] == '-' || s[i] == '.' {
      if u != s && i > 0 { assert u[i - 1] == s[i]; }
    }
  }

  lemma IntegerIsTight(n: int)
    ensures Tight(Decimal(n))
  {
    DigitsAreDigits(if n < 0 then -n else n);
    var text := Decimal(n);
    assert forall i :: 0 <= i < |text| ==> IsDigit(text[i]) || text[i] == '-';
  }

  lemma FractionIsTight(text: string)
    requires IsFraction(text)
    ensures Tight(text)
  {
    FractionChars(text);
  }

  lemma QuotedIsTight(s: string)
    requires Unbroken(s)
    ensures Tight("'" + s + "'")
  {
    var text := "'" + s + "'";
    assert text[0] == '\'' && text[|text| - 1] == '\'';
  }

  lemma ScalarTextIsTight(v: Value)
    requires SayableScalar(v)
    ensures Tight(ScalarText(v)) && ParseScalar(ScalarText(v)) == v
  {
    ScalarRoundTrip(v);
    match v
    case Null =>
    case Bool(_) =>
    case Int(n) => IntegerIsTight(n);
    case Dec(text) => FractionIsTight(text);
    case Str(s) => QuotedIsTight(s);
  }

  ghost function ItemsFor(values: seq<Value>): seq<Item>
    requires forall i :: 0 <= i < |values| ==> SayableScalar(values[i])
  {
    if values == [] then []
    else
      assert SayableScalar(values[0]);
      [Item(ScalarText(values[0]), GUARD)] + ItemsFor(values[1..])
  }

  lemma {:induction false} ItemsForValues(values: seq<Value>)
    requires forall i :: 0 <= i < |values| ==> SayableScalar(values[i])
    ensures ItemValues(ItemsFor(values)) == values && (values != [] ==> ItemsFor(values) != [])
    ensures AllItemsOk(ItemsFor(values))
  {
    if values != [] {
      ItemsForValues(values[1..]);
      ScalarTextIsTight(values[0]);
      TightIsTrimmed(ScalarText(values[0]));
      GuardedIsRemarked("- " + ScalarText(values[0]));
    }
  }

  lemma HeadIsRemarked(key: string, node: Node)
    requires SayableKey(key)
    requires node.Leaf? ==> Tight(node.text)
    requires node.Inline? ==> node == Inline(["''"])
    ensures Remarked(Head(Entry(key, node, GUARD)), GUARD)
  {
    var head := Head(Entry(key, node, GUARD));
    match node {
      case Leaf(text) => assert head[|head| - 1] == text[|text| - 1];
      case Inline(texts) => assert head[|head| - 1] == ']' && Unbroken(InlineText(texts));
      case Block(_) => assert head[|head| - 1] == ':';
      case Branch(_) => assert head[|head| - 1] == ':';
    }
    GuardedIsRemarked(head);
  }

  /** An empty list is written as the inline list of an empty string, which is filtered out. */
  lemma EmptyListNode()
    ensures Denote(Inline(["''"])) == List([]) && Trim("''") == "''" && ',' !in "''"
  {
    StringRoundTrip("");
    assert "'" + "" + "'" == "''";
    assert ["''"][1..] == [] && ScalarsOf(["''"]) == [Str("")] + ScalarsOf([]);
    assert [Str("")][1..] == [] && NonEmpty([Str("")]) == [] + NonEmpty([]);
  }

  lemma {:induction false} NodeFor(key: string, v: Value) returns (node: Node)
    requires SayableKey(key) && !IsItem(key) && Sayable(v) && NoItemKeys(v)
    ensures WellFormed(Entry(key, node, GUARD)) && Denote(node) == v
    decreases v, 1
  {
    if v.Obj? {
      var entries := EntriesFor(v, v.members);
      node := Branch(entries);
    } else if v.List? && v.items == [] {
      node := Inline(["''"]);
      EmptyListNode();
    } else if v.List? {
      node := Block(ItemsFor(v.items));
      ItemsForValues(v.items);
    } else {
      node := Leaf(ScalarText(v));
      ScalarTextIsTight(v);
      TightIsTrimmed(ScalarText(v));
    }
    HeadIsRemarked(key, node);
  }

  /** Entries, one a key, for some of an object's members. */
  lemma {:induction false} EntriesFor(v: Value, m: map<string, Value>) returns (entries: seq<Entry>)
    requires v.Obj? && Sayable(v) && NoItemKeys(v)
    requires forall key :: key in m ==> key in v.members && m[key] == v.members[key]
    ensures AllWellFormed(entries) && DenoteAll(entries, map[]) == m
    ensures forall j :: 0 <= j < |entries| ==> entries[j].key in m
    decreases v, 0, |m|
  {
    if m == map[] {
      entries := [];
    } else {
      var key :| key in m;
      var others := EntriesFor(v, m - {key});
      var node := NodeFor(key, v.members[key]);
      entries := [Entry(key, node, GUARD)] + others;
      EntryPrepends(others, m, Entry(key, node, GUARD));
    }
  }

  lemma EntryPrepends(others: seq<Entry>, m: map<string, Value>, e: Entry)
    requires AllWellFormed(others) && WellFormed(e) && e.key in m && m[e.key] == Denote(e.node)
    requires DenoteAll(others, map[]) == m - {e.key}
    requires forall j :: 0 <= j < |others| ==> others[j].key in m - {e.key}
    ensures AllWellFormed([e] + others) && DenoteAll([e] + others, map[]) == m
    ensures forall j :: 0 <= j < |[e] + others| ==> ([e] + others)[j].key in m
  {
    var entries := [e] + others;
    assert entries[0] == e && entries[1..] == others;
    DenoteFirst(e, others, map[]);
    FirstEntryAdds(others, map[], e.key, m[e.key]);
    PutBack(m, e.key);
    forall j | 0 <= j < |entries| ensures entries[j].key in m {
      if j > 0 { assert entries[j] == others[j - 1]; }
    }
  }

  lemma DenoteFirst(e: Entry, others: seq<Entry>, m: map<string, Value>)
    ensures DenoteAll([e] + others, m) == DenoteAll(others, m[e.key := Denote(e.node)])
  {
    assert ([e] + others)[1..] == others;
  }

  lemma PutBack(m: map<string, Value>, key: string)
    requires key in m
    ensures (m - {key})[key := m[key]] == m
  {
  }

  /** An entry whose key comes up nowhere else can be read last. */
  lemma {:induction false} FirstEntryAdds(entries: seq<Entry>, m: map<string, Value>, key: string, v: Value)
    requires forall j :: 0 <= j < |entries| ==> entries[j].key != key
    ensures DenoteAll(entries, m[key := v]) == DenoteAll(entries, m)[key := v]
  {
    if entries != [] {
      var k, w := entries[0].key, Denote(entries[0].node);
      assert m[key := v][k := w] == m[k := w][key := v];
      FirstEntryAdds(entries[1..], m[k := w], key, v);
    }
  }

  /** An object has a text if and only if it is sayable: any strings but those with line
      breaks, any lists of scalars, any nesting. */
  lemma HasTextIffSayable(v: Value)
    requires v.Obj? && NoItemKeys(v)
    ensures (exists src :: Parse(src) == Ok(v)) <==> Sayable(v)
  {
    if Sayable(v) {
      var entries := EntriesFor(v, v.members);
      LayoutParsesBack(entries, 2);
      assert Parse(Document(entries, 2)) == Ok(v);
    }
    if exists src :: Parse(src) == Ok(v) {
      var src :| Parse(src) == Ok(v);
      ParsedIsSayable(src);
    }
  }

  // ----- Quoted strings -----

  function QuotedLine(key: string, s: string): string {
    key + ":" + (" " + ("'" + s + "'"))
  }

  lemma QuotedIsEntry(key: string, s: string)
    requires KeyOk(key) && Unbroken(key) && Unbroken(s) && StripComment(QuotedLine(key, s)) == QuotedLine(key, s)
    ensures WellFormed(Entry(key, Leaf("'" + s + "'"), ""))
  {
    var e := Entry(key, Leaf("'" + s + "'"), "");
    QuotedIsTight(s);
    TightIsTrimmed("'" + s + "'");
    assert Head(e) + "" == Head(e) == QuotedLine(key, s);
  }

  /** A document of one scalar entry. */
  lemma OneEntryParses(e: Entry)
    requires e.node.Leaf? && WellFormed(e)
    ensures Parse(Head(e) + e.remark) == Ok(Obj(map[e.key := ParseScalar(e.node.text)]))
  {
    OneEntryDocument(e);
    assert [e][1..] == [];
    assert AllWellFormed([e]);
    assert DenoteAll([e], map[]) == map[e.key := Denote(e.node)];
    LayoutParsesBack([e], 1);
  }

  lemma OneEntryDocument(e: Entry)
    requires e.node.Leaf?
    ensures Document([e], 1) == Head(e) + e.remark
  {
    var line := Head(e) + e.remark;
    assert [e][1..] == [] && Layout([], 0, 1) == [];
    assert Spaces(0) + line == line;
    assert Nested(e.node, 1, 1) == [] && LayoutOne(e, 0, 1) == [line] + [];
    assert Layout([e], 0, 1) == LayoutOne(e, 0, 1) + [] == [line];
  }

  lemma QuotedKept(key: string, s: string)
    requires KeyOk(key) && Unbroken(key) && Unbroken(s) && StripComment(QuotedLine(key, s)) == QuotedLine(key, s)
    ensures Parse(QuotedLine(key, s)) == Ok(Obj(map[key := Str(s)]))
  {
    var e := Entry(key, Leaf("'" + s + "'"), "");
    QuotedIsEntry(key, s);
    OneEntryParses(e);
    StringRoundTrip(s);
    assert Head(e) + "" == QuotedLine(key, s);
  }

  lemma OneLineParses(line: string)
    requires Unbroken(line)
    ensures Parse(line) == match OneLineStep([line], 0, START)
                           case Ok(st) => Ok(st.root)
                           case Err(e) => Err(e)
  {
    DropAbsent(line, '\r');
    SplitWhole(line, '\n');
    assert Lines(line) == [line];
    var r := OneLineStep([line], 0, START);
    if r.Ok? { assert Run([line], 1, r.value) == r; }
  }

  lemma AfterColon(key: string, s: string)
    ensures var line := QuotedLine(key, s);
            && |line| == |key| + |s| + 4 && line[|key|] == ':' && line[|key| + 1] == ' ' && line[|key| + 2] == '\''
            && line[|line| - 1] == '\'' && TrimStart(line[|key| + 1..]) == "'" + s + "'"
  {
    var line := QuotedLine(key, s);
    assert line[|key| + 1..] == " " + ("'" + s + "'");
    assert (" " + ("'" + s + "'"))[1..] == "'" + s + "'";
    assert TrimStart("'" + s + "'") == "'" + s + "'";
  }

  /** Where a comment can start in the line: inside the key, or well inside the quotes. */
  lemma CommentPlace(key: string, s: string, c: nat)
    requires c < |QuotedLine(key, s)| && IsComment(QuotedLine(key, s)[c..])
    ensures c < |key| || |key| + 3 <= c <= |key| + 1 + |s|
  {
    var line := QuotedLine(key, s);
    var t := TrimStart(line[c..]);
    AfterColon(key, s);
    TrimStartIsTrimmed(line[c..]);
    TrimStartShorter(line[c..]);
    assert t[0] == line[|line| - |t|] && t[0] == '#';
    assert ("'" + s + "'")[0] == '\'';
  }

  lemma CutLineLoses(key: string, s: string)
    requires KeyOk(key) && Unbroken(key) && Unbroken(s) && StripComment(QuotedLine(key, s)) != QuotedLine(key, s)
    ensures Parse(QuotedLine(key, s)) != Ok(Obj(map[key := Str(s)]))
  {
    var line := QuotedLine(key, s);
    var c := StripIsPrefix(line);
    assert line[..|line|] == line;
    CommentPlace(key, s, c);
    OneLineParses(line);
    assert key in Obj(map[key := Str(s)]).members && key !in START.root.members;
    if c < |key| { CutInKey(key, line, c); } else { CutInQuotes(key, s, c); }
  }

  lemma CutInKey(key: string, line: string, c: nat)
    requires KeyOk(key) && key <= line && c < |key| && StripComment(line) == line[..c]
    ensures OneLineStep([line], 0, START).Err? || OneLineStep([line], 0, START).value == START
  {
    var seen := line[..c];
    assert seen == key[..c];
    TrimmedStart(key);
    if c > 0 {
      assert Indent(seen) == 0 && seen[0..] == seen;
      assert IndexOf(seen, ':') == |seen|;
      assert IsItem(seen) ==> IsItem(key);
    }
  }

  /** A scalar line at the left margin. */
  lemma MarginLine(line: string, key: string, tail: string)
    requires KeyOk(key) && StripComment(line) == key + ":" + tail
    ensures OneLineStep([line], 0, START) == Ok(Entered([line], 0, START.root, START.stack, 0, key, Trim(tail)))
  {
    var seen := key + ":" + tail;
    SeesKey(key, tail);
    assert Indent(seen) == 0 && seen[0..] == seen;
    TrimEndStarts(seen);
    assert PopTo(START.stack, 0) == START.stack;
  }

  lemma ShortRest(tail: string, n: nat)
    requires Unbroken(tail) && tail != "" && tail[0] == ' ' && |tail| <= n
    ensures Unbroken(Trim(tail)) && |Trim(tail)| < n
  {
    TrimIsTrimmed(tail);
    TrimStartShorter(tail);
    TrimmedIsUnbroken(tail);
  }

  lemma ShortValue(lines: seq<string>, key: string, rest: string, s: string)
    requires Unbroken(rest) && |rest| < |s| && key != "__proto__"
    ensures Entered(lines, 0, START.root, START.stack, 0, key, rest).root != Obj(map[key := Str(s)])
  {
    ParsedScalar(rest);
    var root := Entered(lines, 0, START.root, START.stack, 0, key, rest).root;
    var v := root.members[key];
    assert root == Obj(map[key := v]);
    assert map[key := Str(s)][key] == Str(s);
  }

  lemma TailOfCut(key: string, s: string, c: nat)
    requires Unbroken(s) && |key| + 3 <= c <= |key| + 1 + |s|
    ensures var line := QuotedLine(key, s);
            && |key| + 1 <= c <= |line| && line[..c] == key + ":" + line[|key| + 1..c]
            && Unbroken(Trim(line[|key| + 1..c])) && |Trim(line[|key| + 1..c])| < |s|
  {
    var line := QuotedLine(key, s);
    var tail := line[|key| + 1..c];
    AfterColon(key, s);
    assert line[|key| + 1..] == " " + ("'" + s + "'");
    assert tail == (" " + ("'" + s + "'"))[..c - |key| - 1];
    ShortRest(tail, |s|);
  }

  lemma CutInQuotes(key: string, s: string, c: nat)
    requires KeyOk(key) && Unbroken(s)
    requires |key| + 3 <= c <= |key| + 1 + |s| && StripComment(QuotedLine(key, s)) == QuotedLine(key, s)[..c]
    ensures var r := OneLineStep([QuotedLine(key, s)], 0, START); r.Ok? ==> r.value.root != Obj(map[key := Str(s)])
  {
    var line := QuotedLine(key, s);
    TailOfCut(key, s, c);
    MarginLine(line, key, line[|key| + 1..c]);
    ShortValue([line], key, Trim(line[|key| + 1..c]), s);
  }

  /** A quoted string under a plain key comes back if and only if it has no line break and
      the comment rule, which knows no quotes, leaves its line alone. */
  lemma QuotedComesBackIff(key: string, s: string)
    requires KeyOk(key) && Unbroken(key)
    ensures Parse(QuotedLine(key, s)) == Ok(Obj(map[key := Str(s)]))
            <==> Unbroken(s) && StripComment(QuotedLine(key, s)) == QuotedLine(key, s)
  {
    if Parse(QuotedLine(key, s)) == Ok(Obj(map[key := Str(s)])) {
      ParsedIsSayable(QuotedLine(key, s));
      assert Sayable(Obj(map[key := Str(s)]).members[key]);
      if StripComment(QuotedLine(key, s)) != QuotedLine(key, s) { CutLineLoses(key, s); }
    }
    if Unbroken(s) && StripComment(QuotedLine(key, s)) == QuotedLine(key, s) { QuotedKept(key, s); }
  }

  /** For instance, `k: 'a #b'` is read as the string `'a`. */
  lemma QuotesDoNotProtect()
    ensures Parse("k: 'a #b'") == Ok(Obj(map["k" := Str("'a")]))
  {
    var e := Entry("k", Leaf("'a"), " #b'");
    assert Head(e) == "k: 'a";
    HashIsRemark();
    assert Trim("'a") == "'a" && KeyOk("k");
    assert WellFormed(e);
    OneEntryParses(e);
    assert Head(e) + e.remark == "k: 'a #b'";
    assert "'a"[0] == '\'' && "'a"[1] == 'a';
    NoScalarButText();
  }

  lemma HashIsRemark()
    ensures Remarked("k: 'a", " #b'")
  {
    CommentIsRemark("k: 'a", " ", "b'");
    assert " " + ("#" + "b'") == " #b'";
  }

  lemma NoScalarButText()
    ensures ParseScalar("'a") == Str("'a")
  {
    if IsInteger("'a") || IsFraction("'a") { DigitStart("'a"); }
  }
}
