/** Lists of names, as the rate limiter and the speaker queue keep them. */
module Lists {
  ghost predicate Distinct(s: seq<string>) {
    forall i, j :: 0 <= i < j < |s| ==> s[i] != s[j]
  }

  function RemoveAt<T>(s: seq<T>, i: nat): seq<T>
    requires i < |s|
  {
    s[..i] + s[i + 1..]
  }

  function Without(s: seq<string>, names: seq<string>): seq<string> {
    if s == [] then [] else (if s[0] in names then [] else [s[0]]) + Without(s[1..], names)
  }

  lemma {:induction false} WithoutMembers(s: seq<string>, names: seq<string>)
    ensures forall x :: x in Without(s, names) <==> x in s && x !in names
    ensures Distinct(s) ==> Distinct(Without(s, names))
  {
    if s != [] {
      assert s == [s[0]] + s[1..];
      WithoutMembers(s[1..], names);
      if Distinct(s) { assert s[0] !in s[1..]; }
    }
  }

  lemma {:induction false} WithoutNone(s: seq<string>, names: seq<string>)
    requires forall x :: x in s ==> x !in names
    ensures Without(s, names) == s
  {
    if s != [] { WithoutNone(s[1..], names); }
  }

  lemma {:induction false} WithoutSplits(a: seq<string>, b: seq<string>, names: seq<string>)
    ensures Without(a + b, names) == Without(a, names) + Without(b, names)
  {
    if a == [] {
      assert a + b == b;
    } else {
      assert (a + b)[1..] == a[1..] + b;
      WithoutSplits(a[1..], b, names);
    }
  }

  lemma {:induction false} RemoveIsWithout(s: seq<string>, i: nat)
    requires Distinct(s) && i < |s|
    ensures RemoveAt(s, i) == Without(s, [s[i]])
  {
    if i == 0 {
      WithoutNone(s[1..], [s[0]]);
      assert RemoveAt(s, 0) == s[1..];
    } else {
      RemoveIsWithout(s[1..], i - 1);
      assert RemoveAt(s, i) == [s[0]] + RemoveAt(s[1..], i - 1);
    }
  }
}
