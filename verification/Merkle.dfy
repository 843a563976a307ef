/** The Merkle root of a sealed cycle (CycleLog.computeMerkleRoot): levels are halved by
    hashing neighbours, the last node of an odd level being paired with itself. */
module Merkle {
  type Digest = string

  ghost predicate CollisionFree(pair: (Digest, Digest) -> Digest) {
    forall a, b, c, d :: pair(a, b) == pair(c, d) ==> a == c && b == d
  }

  function Parent(pair: (Digest, Digest) -> Digest, level: seq<Digest>, i: nat): Digest
    requires 2 * i < |level|
  {
    pair(level[2 * i], if 2 * i + 1 < |level| then level[2 * i + 1] else level[2 * i])
  }

  function Halve(pair: (Digest, Digest) -> Digest, level: seq<Digest>): (next: seq<Digest>)
    ensures |next| == (|level| + 1) / 2
    ensures forall i :: 0 <= i < |next| ==> next[i] == Parent(pair, level, i)
  {
    seq((|level| + 1) / 2, i requires 0 <= i < (|level| + 1) / 2 => Parent(pair, level, i))
  }

  function Root(pair: (Digest, Digest) -> Digest, leaves: seq<Digest>): Digest
    requires leaves != []
    decreases |leaves|
  {
    if |leaves| == 1 then leaves[0] else Root(pair, Halve(pair, leaves))
  }

  method ComputeRoot(pair: (Digest, Digest) -> Digest, empty: Digest, leaves: seq<Digest>) returns (root: Digest)
    ensures root == if leaves == [] then empty else Root(pair, leaves)
  {
    if leaves == [] {
      return empty;
    }
    var level := leaves;
    while |level| > 1
      invariant level != [] && Root(pair, level) == Root(pair, leaves)
      decreases |level|
    {
      var next := [];
      var i := 0;
      while i < |level|
        invariant i % 2 == 0 && 0 <= i <= |level| + 1
        invariant |next| == i / 2
        invariant forall j :: 0 <= j < |next| ==> next[j] == Parent(pair, level, j)
      {
        var left := level[i];
        var right := if i + 1 < |level| then level[i + 1] else left;
        next := next + [pair(left, right)];
        i := i + 2;
      }
      assert next == Halve(pair, level);
      level := next;
    }
    return level[0];
  }

  /** Two lists of the same length with the same root are the same list. */
  lemma {:induction false} RootDeterminesLeaves(pair: (Digest, Digest) -> Digest, a: seq<Digest>, b: seq<Digest>)
    requires CollisionFree(pair)
    requires |a| == |b| > 0
    ensures Root(pair, a) == Root(pair, b) <==> a == b
    decreases |a|
  {
    if |a| > 1 && Root(pair, a) == Root(pair, b) {
      RootDeterminesLeaves(pair, Halve(pair, a), Halve(pair, b));
      forall i | 0 <= i < |a| ensures a[i] == b[i] {
        assert Halve(pair, a)[i / 2] == Parent(pair, a, i / 2);
        assert Halve(pair, b)[i / 2] == Parent(pair, b, i / 2);
      }
    }
  }

  // ----- Which lists share a root -----

  /** What a root is the hash of. */
  datatype Tree = Leaf(digest: Digest) | Node(left: Tree, right: Tree)

  function HashOf(pair: (Digest, Digest) -> Digest, t: Tree): Digest {
    match t
    case Leaf(d) => d
    case Node(l, r) => pair(HashOf(pair, l), HashOf(pair, r))
  }

  function ParentNode(level: seq<Tree>, i: nat): Tree
    requires 2 * i < |level|
  {
    Node(level[2 * i], if 2 * i + 1 < |level| then level[2 * i + 1] else level[2 * i])
  }

  function HalveNodes(level: seq<Tree>): (next: seq<Tree>)
    ensures |next| == (|level| + 1) / 2
    ensures forall i :: 0 <= i < |next| ==> next[i] == ParentNode(level, i)
  {
    seq((|level| + 1) / 2, i requires 0 <= i < (|level| + 1) / 2 => ParentNode(level, i))
  }

  function TreeOf(level: seq<Tree>): Tree
    requires level != []
    decreases |level|
  {
    if |level| == 1 then level[0] else TreeOf(HalveNodes(level))
  }

  function HashAll(pair: (Digest, Digest) -> Digest, level: seq<Tree>): (hashes: seq<Digest>)
    ensures |hashes| == |level| && forall i :: 0 <= i < |level| ==> hashes[i] == HashOf(pair, level[i])
  {
    seq(|level|, i requires 0 <= i < |level| => HashOf(pair, level[i]))
  }

  lemma {:induction false} RootIsTreeHash(pair: (Digest, Digest) -> Digest, level: seq<Tree>)
    requires level != []
    ensures Root(pair, HashAll(pair, level)) == HashOf(pair, TreeOf(level))
    decreases |level|
  {
    if |level| > 1 {
      RootIsTreeHash(pair, HalveNodes(level));
      assert HashAll(pair, HalveNodes(level)) == Halve(pair, HashAll(pair, level));
    }
  }

  /** The leaves from left to right. */
  function Fringe(t: Tree): seq<Digest> {
    match t
    case Leaf(d) => [d]
    case Node(l, r) => Fringe(l) + Fringe(r)
  }

  /** No leaf is itself the hash of a pair. */
  ghost predicate LeavesApart(pair: (Digest, Digest) -> Digest, leaves: seq<Digest>) {
    forall i, x, y :: 0 <= i < |leaves| ==> leaves[i] != pair(x, y)
  }

  lemma {:induction false} HashDeterminesTree(pair: (Digest, Digest) -> Digest, t: Tree, u: Tree)
    requires CollisionFree(pair) && LeavesApart(pair, Fringe(t)) && LeavesApart(pair, Fringe(u))
    ensures HashOf(pair, t) == HashOf(pair, u) <==> t == u
  {
    if t.Leaf? { assert Fringe(t)[0] == t.digest; }
    if u.Leaf? { assert Fringe(u)[0] == u.digest; }
    if t.Node? && u.Node? {
      PartsApart(pair, Fringe(t.left), Fringe(t.right));
      PartsApart(pair, Fringe(u.left), Fringe(u.right));
      HashDeterminesTree(pair, t.left, u.left);
      HashDeterminesTree(pair, t.right, u.right);
    }
  }

  lemma PartsApart(pair: (Digest, Digest) -> Digest, a: seq<Digest>, b: seq<Digest>)
    requires LeavesApart(pair, a + b)
    ensures LeavesApart(pair, a) && LeavesApart(pair, b)
  {
    forall i, x, y | 0 <= i < |a| ensures a[i] != pair(x, y) { assert a[i] == (a + b)[i]; }
    forall i, x, y | 0 <= i < |b| ensures b[i] != pair(x, y) { assert b[i] == (a + b)[|a| + i]; }
  }

  predicate Perfect(t: Tree, height: nat) {
    match t
    case Leaf(_) => height == 0
    case Node(l, r) => height > 0 && Perfect(l, height - 1) && Perfect(r, height - 1)
  }

  function Pow2(n: nat): nat {
    if n == 0 then 1 else 2 * Pow2(n - 1)
  }

  lemma {:induction false} PerfectWidth(t: Tree, height: nat)
    requires Perfect(t, height)
    ensures |Fringe(t)| == Pow2(height)
  {
    if t.Node? {
      PerfectWidth(t.left, height - 1);
      PerfectWidth(t.right, height - 1);
    }
  }

  /** Perfect trees are told apart by their leaves. */
  lemma {:induction false} FringeDeterminesTree(t: Tree, h: nat, u: Tree, k: nat)
    requires Perfect(t, h) && Perfect(u, k)
    ensures Fringe(t) == Fringe(u) <==> t == u
  {
    PerfectWidth(t, h);
    PerfectWidth(u, k);
    if Fringe(t) == Fringe(u) {
      SameHeight(h, k);
      if t.Node? {
        PerfectWidth(t.left, h - 1);
        PerfectWidth(u.left, k - 1);
        assert Fringe(t.left) == Fringe(t)[..Pow2(h - 1)] == Fringe(u.left);
        assert Fringe(t.right) == Fringe(t)[Pow2(h - 1)..] == Fringe(u.right);
        FringeDeterminesTree(t.left, h - 1, u.left, k - 1);
        FringeDeterminesTree(t.right, h - 1, u.right, k - 1);
      }
    }
  }

  lemma {:induction false} SameHeight(h: nat, k: nat)
    requires Pow2(h) == Pow2(k)
    ensures h == k
  {
    if h > 0 && k > 0 { SameHeight(h - 1, k - 1); }
  }

  lemma {:induction false} TreeIsPerfect(level: seq<Tree>, h: nat) returns (height: nat)
    requires level != [] && forall i :: 0 <= i < |level| ==> Perfect(level[i], h)
    ensures Perfect(TreeOf(level), height)
    decreases |level|
  {
    if |level| == 1 { height := h; } else { height := TreeIsPerfect(HalveNodes(level), h + 1); }
  }

  /** A list filled up to a power of two, the last block of an odd number of blocks being
      repeated: [a, b, c] becomes [a, b, c, c], and six leaves repeat the last two. */
  function FillUp(blocks: seq<seq<Digest>>): seq<Digest>
    requires blocks != []
    decreases |blocks|
  {
    if |blocks| == 1 then blocks[0] else FillUp(HalveBlocks(blocks))
  }

  function HalveBlocks(blocks: seq<seq<Digest>>): (next: seq<seq<Digest>>)
    ensures |next| == (|blocks| + 1) / 2
    ensures forall i :: 0 <= i < |next| ==>
              next[i] == blocks[2 * i] + blocks[if 2 * i + 1 < |blocks| then 2 * i + 1 else 2 * i]
  {
    seq((|blocks| + 1) / 2, i requires 0 <= i < (|blocks| + 1) / 2 =>
      blocks[2 * i] + blocks[if 2 * i + 1 < |blocks| then 2 * i + 1 else 2 * i])
  }

  function Filled(leaves: seq<Digest>): seq<Digest>
    requires leaves != []
  {
    FillUp(seq(|leaves|, i requires 0 <= i < |leaves| => [leaves[i]]))
  }

  function Fringes(level: seq<Tree>): (all: seq<seq<Digest>>)
    ensures |all| == |level| && forall i :: 0 <= i < |level| ==> all[i] == Fringe(level[i])
  {
    seq(|level|, i requires 0 <= i < |level| => Fringe(level[i]))
  }

  lemma {:induction false} FringeIsFilled(level: seq<Tree>)
    requires level != []
    ensures Fringe(TreeOf(level)) == FillUp(Fringes(level))
    decreases |level|
  {
    if |level| > 1 {
      FringeIsFilled(HalveNodes(level));
      assert Fringes(HalveNodes(level)) == HalveBlocks(Fringes(level));
    }
  }

  lemma {:induction false} FilledWithBlocks(blocks: seq<seq<Digest>>, leaves: seq<Digest>)
    requires blocks != [] && forall i, j :: 0 <= i < |blocks| && 0 <= j < |blocks[i]| ==> blocks[i][j] in leaves
    ensures forall j :: 0 <= j < |FillUp(blocks)| ==> FillUp(blocks)[j] in leaves
    decreases |blocks|
  {
    if |blocks| > 1 { FilledWithBlocks(HalveBlocks(blocks), leaves); }
  }

  function LeafNodes(leaves: seq<Digest>): (level: seq<Tree>)
    ensures |level| == |leaves| && forall i :: 0 <= i < |leaves| ==> level[i] == Leaf(leaves[i])
  {
    seq(|leaves|, i requires 0 <= i < |leaves| => Leaf(leaves[i]))
  }

  /** The tree above a list hashes to its root and has the filled list as its leaves. */
  lemma TreeAbove(pair: (Digest, Digest) -> Digest, leaves: seq<Digest>) returns (t: Tree, height: nat)
    requires leaves != []
    ensures HashOf(pair, t) == Root(pair, leaves) && Fringe(t) == Filled(leaves) && Perfect(t, height)
    ensures LeavesApart(pair, leaves) ==> LeavesApart(pair, Fringe(t))
  {
    var level := LeafNodes(leaves);
    t := TreeOf(level);
    RootIsTreeHash(pair, level);
    assert HashAll(pair, level) == leaves;
    FringeIsFilled(level);
    assert Fringes(level) == seq(|leaves|, i requires 0 <= i < |leaves| => [leaves[i]]);
    FilledWithBlocks(Fringes(level), leaves);
    height := TreeIsPerfect(level, 0);
  }

  /** The padding is all that is lost: two lists, of whatever lengths, have the same root if
      and only if they fill up to the same list. */
  lemma SameRootIffSameFilled(pair: (Digest, Digest) -> Digest, a: seq<Digest>, b: seq<Digest>)
    requires CollisionFree(pair) && a != [] && b != [] && LeavesApart(pair, a) && LeavesApart(pair, b)
    ensures Root(pair, a) == Root(pair, b) <==> Filled(a) == Filled(b)
  {
    var t, h := TreeAbove(pair, a);
    var u, k := TreeAbove(pair, b);
    HashDeterminesTree(pair, t, u);
    FringeDeterminesTree(t, h, u, k);
  }

  lemma HalvesAgree(pair: (Digest, Digest) -> Digest, a: seq<Digest>, n: nat)
    requires |a| == 2 * n + 1
    ensures Halve(pair, a + [a[2 * n]]) == Halve(pair, a)
  {
    var b := a + [a[2 * n]];
    assert |Halve(pair, a)| == n + 1 == |Halve(pair, b)|;
    forall i | 0 <= i < n + 1 ensures Halve(pair, a)[i] == Halve(pair, b)[i] {
      assert b[2 * i] == a[2 * i];
    }
  }

  /** The length cannot be dropped: repeating the last leaf of an odd list is invisible. */
  lemma RepeatedLastLeafIsInvisible(pair: (Digest, Digest) -> Digest, a: seq<Digest>)
    requires |a| > 1 && |a| % 2 == 1
    ensures Root(pair, a + [a[|a| - 1]]) == Root(pair, a)
  {
    HalvesAgree(pair, a, |a| / 2);
    var b := a + [a[|a| - 1]];
    assert Root(pair, b) == Root(pair, Halve(pair, b));
  }
}
