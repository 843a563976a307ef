/** The stable text of an object: its keys in order, and that it is read back as the stable
    value (src/services/AgentHubStore.ts:975-987). */
module StableOrder {
  import opened Wrappers
  import opened JsonText
  import opened JsonReader
  import opened StableJson

  /** The texts agree up to `p`; there the first one ends or has the smaller character. */
  predicate PartsAt(a: string, b: string, p: nat) {
    p <= |a| && p < |b| && a[..p] == b[..p] && (p == |a| || a[p] < b[p])
  }

  ghost predicate IsLess(a: string, b: string) {
    exists p: nat :: PartsAt(a, b, p)
  }

  lemma {:induction false} LexIsLess(a: string, b: string)
    requires LexLess(Codes(a), Codes(b))
    ensures IsLess(a, b)
  {
    if a == "" || a[0] < b[0] {
      assert PartsAt(a, b, 0);
    } else {
      assert Codes(a)[1..] == Codes(a[1..]) && Codes(b)[1..] == Codes(b[1..]);
      LexIsLess(a[1..], b[1..]);
      var p: nat :| PartsAt(a[1..], b[1..], p);
      assert a[..p + 1] == [a[0]] + a[1..][..p] && b[..p + 1] == [b[0]] + b[1..][..p];
      assert PartsAt(a, b, p + 1);
    }
  }

  /** Array indices come first, the shorter before the longer and then digit by digit; all
      other names follow, character by character. */
  ghost predicate ComesBefore(a: string, b: string) {
    if IsIndex(a) then IsIndex(b) ==> |a| < |b| || (|a| == |b| && IsLess(a, b))
    else !IsIndex(b) && IsLess(a, b)
  }

  lemma BeforeComesBefore(byMagnitude: bool, a: Member, b: Member)
    requires Before(byMagnitude, a, b) && IsIndex(a.key) == byMagnitude == IsIndex(b.key)
    ensures ComesBefore(a.key, b.key)
  {
    if byMagnitude {
      var x, y := Rank(true, a.key), Rank(true, b.key);
      assert x[0] == |a.key| && y[0] == |b.key| && x[1..] == Codes(a.key) && y[1..] == Codes(b.key);
      if |a.key| == |b.key| { LexIsLess(a.key, b.key); }
    } else {
      LexIsLess(a.key, b.key);
    }
  }

  lemma {:induction false} IndicesStaySorted(ms: seq<Member>, wanted: bool)
    requires StableJson.Sorted(false, ms)
    ensures StableJson.Sorted(false, Indices(ms, wanted))
    ensures forall m :: m in Indices(ms, wanted) ==> m in ms && IsIndex(m.key) == wanted
  {
    if ms != [] {
      var rest := Indices(ms[1..], wanted);
      IndicesStaySorted(ms[1..], wanted);
      assert ms == [ms[0]] + ms[1..];
      forall j | 0 <= j < |rest| ensures Before(false, ms[0], rest[j]) {
        assert rest[j] in rest;
        var k :| 0 <= k < |ms[1..]| && ms[1..][k] == rest[j];
        assert ms[k + 1] == rest[j];
      }
    }
  }

  /** In an enumeration of distinct names, every name comes before the later ones. */
  lemma EnumerationIsOrdered(ms: seq<Member>, i: nat, j: nat)
    requires DistinctKeys(ms) && i < j < |Enumeration(Sort(false, ms))|
    ensures var all := Enumeration(Sort(false, ms)); ComesBefore(all[i].key, all[j].key)
  {
    var sorted := Sort(false, ms);
    SortSorts(false, ms);
    SortedHasDistinctKeys(false, sorted);
    IndicesMembers(sorted, true);
    IndicesStaySorted(sorted, false);
    SortSorts(true, Indices(sorted, true));
    PairIsOrdered(Sort(true, Indices(sorted, true)), Indices(sorted, false), i, j);
  }

  lemma PairIsOrdered(indices: seq<Member>, names: seq<Member>, i: nat, j: nat)
    requires StableJson.Sorted(true, indices) && StableJson.Sorted(false, names) && i < j < |indices + names|
    requires (forall m :: m in indices ==> IsIndex(m.key)) && forall m :: m in names ==> !IsIndex(m.key)
    ensures ComesBefore((indices + names)[i].key, (indices + names)[j].key)
  {
    var a, b := (indices + names)[i], (indices + names)[j];
    if j < |indices| {
      assert a in indices && b in indices;
      BeforeComesBefore(true, a, b);
    } else if i >= |indices| {
      assert a in names && b in names;
      BeforeComesBefore(false, a, b);
    } else {
      assert a in indices && b in names;
    }
  }

  /** A stable object has its members, `__proto__` aside, in this order. */
  lemma StableKeysAreOrdered(members: seq<Member>, i: nat, j: nat)
    requires WellFormed(Obj(members)) && i < j < |Stable(Obj(members)).members|
    ensures ComesBefore(Stable(Obj(members)).members[i].key, Stable(Obj(members)).members[j].key)
  {
    StableMembersAre(members);
    EnumerationIsOrdered(StableMembers(members), i, j);
  }

  /** What is stored under a stable text is read back as the stable value. */
  lemma StableTextReadsBack(v: Json)
    ensures Parse(StableStringify(v)) == Some(Stable(v))
  {
    TextReadsBack(Stable(v));
  }
}
