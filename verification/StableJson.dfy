/** `stableStringify` (src/services/AgentHubStore.ts): every object is rebuilt with its
    keys sorted before it is rendered, so that the text does not depend on key order. */
module StableJson {
  import opened JsonText

  // ----- Key orders -----

  function Codes(s: string): seq<nat> {
    seq(|s|, i requires 0 <= i < |s| => s[i] as int)
  }

  predicate LexLess(a: seq<nat>, b: seq<nat>) {
    b != [] && (a == [] || a[0] < b[0] || (a[0] == b[0] && LexLess(a[1..], b[1..])))
  }

  /** A property name JavaScript treats as an array index: a canonical numeral below 2^32 - 1. */
  predicate IsIndex(key: string) {
    && key != ""
    && (forall i :: 0 <= i < |key| ==> '0' <= key[i] <= '9')
    && (key[0] == '0' ==> key == "0")
    && (|key| < 10 || (|key| == 10 && LexLess(Codes(key), Codes("4294967295"))))
  }

  /** Array.prototype.sort on keys compares them character by character; indices
      (without leading zeros) are enumerated by magnitude, that is shorter first. */
  function Rank(byMagnitude: bool, key: string): seq<nat> {
    if byMagnitude then [|key|] + Codes(key) else Codes(key)
  }

  predicate Before(byMagnitude: bool, a: Member, b: Member) {
    LexLess(Rank(byMagnitude, a.key), Rank(byMagnitude, b.key))
  }

  function Insert(byMagnitude: bool, m: Member, sorted: seq<Member>): seq<Member> {
    if sorted == [] then [m]
    else if Before(byMagnitude, m, sorted[0]) then [m] + sorted
    else [sorted[0]] + Insert(byMagnitude, m, sorted[1..])
  }

  function Sort(byMagnitude: bool, ms: seq<Member>): seq<Member> {
    if ms == [] then [] else Insert(byMagnitude, ms[0], Sort(byMagnitude, ms[1..]))
  }

  function Indices(ms: seq<Member>, wanted: bool): seq<Member> {
    if ms == [] then []
    else (if IsIndex(ms[0].key) == wanted then [ms[0]] else []) + Indices(ms[1..], wanted)
  }

  /** How JSON.stringify walks an object filled in this order: indices first, by
      magnitude, then the other names in the order they were added. */
  function Enumeration(ms: seq<Member>): seq<Member> {
    Sort(true, Indices(ms, true)) + Indices(ms, false)
  }

  // ----- stableValue -----

  /** Assigning to this name sets the prototype and creates no member. */
  const PROTO := "__proto__"

  function Stable(v: Json): Json
    decreases v, 0
  {
    match v
    case Arr(items) => Arr(StableItems(items))
    case Obj(members) => Obj(Enumeration(Sort(false, StableMembers(members))))
    case _ => v
  }

  function StableItems(items: seq<Json>): seq<Json>
    decreases items
  {
    if items == [] then [] else [Stable(items[0])] + StableItems(items[1..])
  }

  function StableMembers(members: seq<Member>): seq<Member>
    decreases members
  {
    if members == [] then []
    else
      (if members[0].key == PROTO then [] else [Member(members[0].key, Stable(members[0].value))])
      + StableMembers(members[1..])
  }

  function StableStringify(v: Json): string {
    Text(Stable(v))
  }

  // ----- Equality up to key order -----

  ghost predicate Same(a: Json, b: Json)
    decreases a, b
  {
    match (a, b)
    case (Arr(x), Arr(y)) => |x| == |y| && forall i | 0 <= i < |x| :: Same(x[i], y[i])
    case (Obj(x), Obj(y)) =>
      && (forall i | 0 <= i < |x| && x[i].key != PROTO :: HasLike(x[i].key, x[i].value, y))
      && (forall j | 0 <= j < |y| && y[j].key != PROTO :: IsLiked(x, y[j].key, y[j].value))
    case _ => a == b
  }

  /** Some member of `y` has this name and a value the same as `v`. */
  ghost predicate HasLike(key: string, v: Json, y: seq<Member>)
    decreases v, y
  {
    exists j | 0 <= j < |y| :: y[j].key == key && Same(v, y[j].value)
  }

  /** Some member of `x` has this name and a value that `w` is the same as. */
  ghost predicate IsLiked(x: seq<Member>, key: string, w: Json)
    decreases x, w
  {
    exists i | 0 <= i < |x| :: x[i].key == key && Same(x[i].value, w)
  }

  ghost predicate DistinctKeys(ms: seq<Member>) {
    forall i, j :: 0 <= i < j < |ms| ==> ms[i].key != ms[j].key
  }

  /** What JavaScript guarantees of every object: no name occurs twice. */
  ghost predicate WellFormed(v: Json) {
    match v
    case Arr(items) => forall i | 0 <= i < |items| :: WellFormed(items[i])
    case Obj(members) => DistinctKeys(members) && forall i | 0 <= i < |members| :: WellFormed(members[i].value)
    case _ => true
  }

  // ----- Sorting keeps the members and forgets their order -----

  lemma {:induction false} LexTotal(a: seq<nat>, b: seq<nat>)
    ensures LexLess(a, b) || a == b || LexLess(b, a)
    ensures !(LexLess(a, b) && LexLess(b, a)) && !LexLess(a, a)
    decreases |a|
  {
    if a != [] {
      LexTotal(a[1..], a[1..]);
      if b != [] {
        LexTotal(a[1..], b[1..]);
        assert a == [a[0]] + a[1..] && b == [b[0]] + b[1..];
      }
    }
  }

  lemma {:induction false} LexTransitive(a: seq<nat>, b: seq<nat>, c: seq<nat>)
    requires LexLess(a, b) && LexLess(b, c)
    ensures LexLess(a, c)
    decreases |a|
  {
    if a != [] && a[0] == b[0] == c[0] {
      LexTransitive(a[1..], b[1..], c[1..]);
    }
  }

  lemma RankTellsKeys(byMagnitude: bool, a: string, b: string)
    requires Rank(byMagnitude, a) == Rank(byMagnitude, b)
    ensures a == b
  {
    var x, y := Rank(byMagnitude, a), Rank(byMagnitude, b);
    var d := if byMagnitude then 1 else 0;
    assert |a| == |x| - d && |b| == |y| - d;
    forall i | 0 <= i < |a| ensures a[i] == b[i] {
      assert x[i + d] == a[i] as int && y[i + d] == b[i] as int;
    }
  }

  ghost predicate Sorted(byMagnitude: bool, ms: seq<Member>) {
    forall i, j :: 0 <= i < j < |ms| ==> Before(byMagnitude, ms[i], ms[j])
  }

  ghost predicate SameMembers(ms: seq<Member>, ns: seq<Member>) {
    forall m :: m in ms <==> m in ns
  }

  lemma {:induction false} InsertSorted(byMagnitude: bool, m: Member, sorted: seq<Member>)
    requires Sorted(byMagnitude, sorted) && forall n :: n in sorted ==> n.key != m.key
    ensures Sorted(byMagnitude, Insert(byMagnitude, m, sorted))
    ensures forall n :: n in Insert(byMagnitude, m, sorted) <==> n == m || n in sorted
  {
    if sorted != [] {
      var head, tail := sorted[0], sorted[1..];
      assert sorted == [head] + tail;
      LexTotal(Rank(byMagnitude, m.key), Rank(byMagnitude, head.key));
      if Before(byMagnitude, m, head) {
        forall j | 0 <= j < |sorted| ensures Before(byMagnitude, m, sorted[j]) {
          if j > 0 {
            LexTransitive(Rank(byMagnitude, m.key), Rank(byMagnitude, head.key), Rank(byMagnitude, sorted[j].key));
          }
        }
      } else {
        assert head.key != m.key;
        if Rank(byMagnitude, m.key) == Rank(byMagnitude, head.key) { RankTellsKeys(byMagnitude, m.key, head.key); }
        InsertSorted(byMagnitude, m, tail);
        var rest := Insert(byMagnitude, m, tail);
        forall j | 0 <= j < |rest| ensures Before(byMagnitude, head, rest[j]) {
          assert rest[j] in rest;
          if rest[j] != m {
            var k :| 0 <= k < |tail| && tail[k] == rest[j];
            assert sorted[k + 1] == rest[j];
          }
        }
      }
    }
  }

  lemma {:induction false} SortSorts(byMagnitude: bool, ms: seq<Member>)
    requires DistinctKeys(ms)
    ensures Sorted(byMagnitude, Sort(byMagnitude, ms)) && SameMembers(Sort(byMagnitude, ms), ms)
  {
    if ms != [] {
      assert ms == [ms[0]] + ms[1..];
      SortSorts(byMagnitude, ms[1..]);
      forall n | n in Sort(byMagnitude, ms[1..]) ensures n.key != ms[0].key {
        assert n in ms[1..];
        var k :| 0 <= k < |ms[1..]| && ms[1..][k] == n;
        assert ms[k + 1] == n;
      }
      InsertSorted(byMagnitude, ms[0], Sort(byMagnitude, ms[1..]));
    }
  }

  lemma {:induction false} SortedIsUnique(byMagnitude: bool, ms: seq<Member>, ns: seq<Member>)
    requires Sorted(byMagnitude, ms) && Sorted(byMagnitude, ns) && SameMembers(ms, ns)
    ensures ms == ns
    decreases |ms|
  {
    assert ns != [] ==> ns[0] in ns;
    if ms != [] {
      assert ms[0] in ns;
      var j :| 0 <= j < |ns| && ns[j] == ms[0];
      assert ns[0] in ms;
      var i :| 0 <= i < |ms| && ms[i] == ns[0];
      assert i > 0 ==> Before(byMagnitude, ms[0], ns[0]);
      assert j > 0 ==> Before(byMagnitude, ns[0], ms[0]);
      LexTotal(Rank(byMagnitude, ms[0].key), Rank(byMagnitude, ns[0].key));
      assert ms[0] == ns[0];
      TailsAgree(byMagnitude, ms, ns);
      SortedIsUnique(byMagnitude, ms[1..], ns[1..]);
      assert ms == [ms[0]] + ms[1..] && ns == [ns[0]] + ns[1..];
    }
  }

  lemma TailsAgree(byMagnitude: bool, ms: seq<Member>, ns: seq<Member>)
    requires Sorted(byMagnitude, ms) && Sorted(byMagnitude, ns) && SameMembers(ms, ns)
    requires ms != [] && ns != [] && ms[0] == ns[0]
    ensures SameMembers(ms[1..], ns[1..])
  {
    LexTotal(Rank(byMagnitude, ms[0].key), Rank(byMagnitude, ms[0].key));
    forall m ensures m in ms[1..] <==> m in ns[1..] {
      assert ms == [ms[0]] + ms[1..] && ns == [ns[0]] + ns[1..];
      assert m in ms <==> m in ns;
      if m == ms[0] {
        assert m !in ms[1..] && m !in ns[1..];
      }
    }
  }

  lemma {:induction false} IndicesMembers(ms: seq<Member>, wanted: bool)
    requires DistinctKeys(ms)
    ensures forall m :: m in Indices(ms, wanted) <==> m in ms && IsIndex(m.key) == wanted
    ensures DistinctKeys(Indices(ms, wanted))
  {
    if ms != [] {
      assert ms == [ms[0]] + ms[1..];
      IndicesMembers(ms[1..], wanted);
      var rest := Indices(ms[1..], wanted);
      forall j | 0 <= j < |rest| ensures rest[j].key != ms[0].key {
        assert rest[j] in rest;
        assert rest[j] in ms[1..];
        var k :| 0 <= k < |ms[1..]| && ms[1..][k] == rest[j];
        assert ms[k + 1] == rest[j];
      }
    }
  }

  lemma {:induction false} SortedHasDistinctKeys(byMagnitude: bool, ms: seq<Member>)
    requires Sorted(byMagnitude, ms)
    ensures DistinctKeys(ms)
  {
    forall i, j | 0 <= i < j < |ms| ensures ms[i].key != ms[j].key {
      assert Before(byMagnitude, ms[i], ms[j]);
      LexTotal(Rank(byMagnitude, ms[i].key), Rank(byMagnitude, ms[i].key));
    }
  }

  lemma CanonicalMembers(ms: seq<Member>)
    requires DistinctKeys(ms)
    ensures SameMembers(Enumeration(Sort(false, ms)), ms)
  {
    var sorted := Sort(false, ms);
    SortSorts(false, ms);
    SortedHasDistinctKeys(false, sorted);
    IndicesMembers(sorted, true);
    IndicesMembers(sorted, false);
    SortSorts(true, Indices(sorted, true));
  }

  /** The canonical member list depends on the members alone, and determines them. */
  lemma CanonicalIffSameMembers(ms: seq<Member>, ns: seq<Member>)
    requires DistinctKeys(ms) && DistinctKeys(ns)
    ensures Enumeration(Sort(false, ms)) == Enumeration(Sort(false, ns)) <==> SameMembers(ms, ns)
  {
    CanonicalMembers(ms);
    CanonicalMembers(ns);
    if SameMembers(ms, ns) {
      SortSorts(false, ms);
      SortSorts(false, ns);
      SortedIsUnique(false, Sort(false, ms), Sort(false, ns));
    }
  }

  // ----- stableValue -----

  lemma {:induction false} StableItemsAt(items: seq<Json>)
    ensures |StableItems(items)| == |items|
    ensures forall i :: 0 <= i < |items| ==> StableItems(items)[i] == Stable(items[i])
  {
    if items != [] { StableItemsAt(items[1..]); }
  }

  lemma {:induction false} StableMembersAre(ms: seq<Member>)
    requires DistinctKeys(ms)
    ensures DistinctKeys(StableMembers(ms))
    ensures forall n :: n in StableMembers(ms) <==>
              exists i :: 0 <= i < |ms| && ms[i].key != PROTO && n == Member(ms[i].key, Stable(ms[i].value))
  {
    if ms != [] {
      var tail, rest := ms[1..], StableMembers(ms[1..]);
      StableMembersAre(tail);
      forall n | n in StableMembers(ms)
        ensures exists i :: 0 <= i < |ms| && ms[i].key != PROTO && n == Member(ms[i].key, Stable(ms[i].value))
      {
        if n in rest {
          var i :| 0 <= i < |tail| && tail[i].key != PROTO && n == Member(tail[i].key, Stable(tail[i].value));
          assert ms[i + 1] == tail[i];
        }
      }
      forall i | 0 <= i < |ms| && ms[i].key != PROTO
        ensures Member(ms[i].key, Stable(ms[i].value)) in StableMembers(ms)
      {
        if i > 0 { assert tail[i - 1] == ms[i]; }
      }
      forall j | 0 <= j < |rest| ensures rest[j].key != ms[0].key {
        assert rest[j] in rest;
        var i :| 0 <= i < |tail| && tail[i].key != PROTO && rest[j] == Member(tail[i].key, Stable(tail[i].value));
        assert ms[i + 1] == tail[i];
      }
    }
  }

  lemma {:induction false} StableIffSame(a: Json, b: Json)
    requires WellFormed(a) && WellFormed(b)
    ensures Stable(a) == Stable(b) <==> Same(a, b)
    decreases a
  {
    match (a, b)
    case (Arr(x), Arr(y)) =>
      StableItemsAt(x);
      StableItemsAt(y);
      if |x| == |y| {
        forall i | 0 <= i < |x| ensures Stable(x[i]) == Stable(y[i]) <==> Same(x[i], y[i]) {
          StableIffSame(x[i], y[i]);
        }
        assert Stable(a) == Stable(b) <==> forall i :: 0 <= i < |x| ==> StableItems(x)[i] == StableItems(y)[i];
      }
    case (Obj(x), Obj(y)) =>
      StableMembersAre(x);
      StableMembersAre(y);
      CanonicalIffSameMembers(StableMembers(x), StableMembers(y));
      forall i, j | 0 <= i < |x| && 0 <= j < |y|
        ensures Stable(x[i].value) == Stable(y[j].value) <==> Same(x[i].value, y[j].value)
      {
        StableIffSame(x[i].value, y[j].value);
      }
      ObjectsIffSame(x, y);
    case _ =>
  }

  /** `x`'s member `i` has its like in `y` once both values are made stable. */
  ghost predicate StableLike(x: seq<Member>, i: nat, y: seq<Member>)
    requires i < |x|
  {
    exists j :: 0 <= j < |y| && y[j].key == x[i].key && Stable(y[j].value) == Stable(x[i].value)
  }

  lemma StableMembersCovered(x: seq<Member>, y: seq<Member>)
    requires DistinctKeys(x) && DistinctKeys(y)
    ensures (forall n :: n in StableMembers(x) ==> n in StableMembers(y))
            <==> (forall i :: 0 <= i < |x| && x[i].key != PROTO ==> StableLike(x, i, y))
  {
    StableMembersAre(x);
    StableMembersAre(y);
    if forall n :: n in StableMembers(x) ==> n in StableMembers(y) {
      forall i | 0 <= i < |x| && x[i].key != PROTO ensures StableLike(x, i, y) {
        assert Member(x[i].key, Stable(x[i].value)) in StableMembers(y);
      }
    }
    if forall i :: 0 <= i < |x| && x[i].key != PROTO ==> StableLike(x, i, y) {
      forall n | n in StableMembers(x) ensures n in StableMembers(y) {
        var i :| 0 <= i < |x| && x[i].key != PROTO && n == Member(x[i].key, Stable(x[i].value));
        assert StableLike(x, i, y);
      }
    }
  }

  /** Equal stable texts and equality up to key order agree on these members' values. */
  ghost predicate ValuesAgree(x: seq<Member>, y: seq<Member>) {
    forall i, j :: 0 <= i < |x| && 0 <= j < |y| ==>
      (Stable(x[i].value) == Stable(y[j].value) <==> Same(x[i].value, y[j].value))
  }

  /** The same, bound, so that it is not unfolded where it is passed on. */
  ghost predicate AllValuesAgree(x: seq<Member>, y: seq<Member>) {
    forall z :: z == y ==> ValuesAgree(x, z)
  }

  lemma LikeForward(x: seq<Member>, i: nat, y: seq<Member>)
    requires AllValuesAgree(x, y) && i < |x|
    ensures StableLike(x, i, y) <==> HasLike(x[i].key, x[i].value, y)
  {
    assert ValuesAgree(x, y);
  }

  lemma LikeBackward(x: seq<Member>, y: seq<Member>, j: nat)
    requires AllValuesAgree(x, y) && j < |y|
    ensures StableLike(y, j, x) <==> IsLiked(x, y[j].key, y[j].value)
  {
    assert ValuesAgree(x, y);
  }

  lemma ObjectsIffSame(x: seq<Member>, y: seq<Member>)
    requires DistinctKeys(x) && DistinctKeys(y) && AllValuesAgree(x, y)
    ensures SameMembers(StableMembers(x), StableMembers(y)) <==> Same(Obj(x), Obj(y))
  {
    StableMembersCovered(x, y);
    StableMembersCovered(y, x);
    forall i | 0 <= i < |x| ensures StableLike(x, i, y) <==> HasLike(x[i].key, x[i].value, y) { LikeForward(x, i, y); }
    forall j | 0 <= j < |y| ensures StableLike(y, j, x) <==> IsLiked(x, y[j].key, y[j].value) { LikeBackward(x, y, j); }
  }

  /** Two JSON values get the same text exactly when they are equal up to the order of
      object keys, members named `__proto__` aside. */
  lemma StableTextIffSame(a: Json, b: Json)
    requires WellFormed(a) && WellFormed(b)
    ensures StableStringify(a) == StableStringify(b) <==> Same(a, b)
  {
    TextDeterminesValue(Stable(a), Stable(b));
    StableIffSame(a, b);
  }

  /** A member named `__proto__` leaves no trace: two payloads that differ in it alone
      get the same text, and hence the same hash. */
  lemma ProtoMembersAreInvisible(members: seq<Member>, value: Json)
    requires WellFormed(Obj([Member(PROTO, value)] + members))
    ensures StableStringify(Obj([Member(PROTO, value)] + members)) == StableStringify(Obj(members))
  {
    var all := [Member(PROTO, value)] + members;
    assert all[1..] == members;
    assert StableMembers(all) == StableMembers(members);
  }
}
