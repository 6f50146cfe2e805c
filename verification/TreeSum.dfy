// The tree of the tree sum as tree.txt lists it, and the sums of the leaf values below its nodes.
module TreeSums {

  // A tree as tree.txt describes it. depth witnesses that every node reaches the root.
  datatype Config = Config(parent: seq<nat>, root: nat, value: seq<int>, depth: seq<nat>) {
    function N(): nat { |parent| }

    ghost predicate Valid() {
      && root < |parent| == |value| == |depth|
      && parent[root] == root
      && forall i :: 0 <= i < |parent| ==>
           parent[i] < |parent| && (i != root ==> parent[i] != i && depth[i] == depth[parent[i]] + 1)
    }

    predicate Child(t: nat, i: nat) {
      t < |parent| && t != i && parent[t] == i
    }

    function NumChild(i: nat, k: nat): nat
      requires k <= |parent|
    {
      if k == 0 then 0 else NumChild(i, k - 1) + if Child(k - 1, i) then 1 else 0
    }

    predicate Leaf(i: nat) {
      NumChild(i, |parent|) == 0
    }

    // Node l lies in the subtree of node i.
    predicate Under(l: nat, i: nat)
      requires Valid() && l < |parent|
      decreases depth[l]
    {
      l == i || (l != root && Under(parent[l], i))
    }

    // The sum of the leaf values below node i, over the leaves before k.
    function LeavesUnder(i: nat, k: nat): int
      requires Valid() && k <= |parent|
    {
      if k == 0 then 0
      else LeavesUnder(i, k - 1) + if Leaf(k - 1) && Under(k - 1, i) then value[k - 1] else 0
    }

    function LeafSum(i: nat): int
      requires Valid()
    {
      LeavesUnder(i, |parent|)
    }

    // What the children of node i before k have added to its sum.
    function Gathered(added: seq<bool>, i: nat, k: nat): int
      requires Valid() && k <= |parent| == |added|
    {
      if k == 0 then 0
      else Gathered(added, i, k - 1) + if Child(k - 1, i) && added[k - 1] then LeafSum(k - 1) else 0
    }
  }

  // ---------- Reading the tree ----------

  // Node t is in one of the first k lines.
  ghost predicate Listed(lines: seq<(nat, nat)>, t: nat, k: nat)
    requires k <= |lines|
  {
    exists j :: 0 <= j < k && lines[j].0 == t
  }

  // The lines of tree.txt, each a node and its parent: every node once, in any order.
  ghost predicate Lists(c: Config, lines: seq<(nat, nat)>) {
    && |lines| == c.N()
    && (forall k :: 0 <= k < |lines| ==> lines[k].0 < c.N() && lines[k].1 == c.parent[lines[k].0])
    && (forall j, k :: 0 <= j < k < |lines| ==> lines[j].0 != lines[k].0)
    && forall t :: 0 <= t < c.N() ==> Listed(lines, t, |lines|)
  }

  // The children of node i among the first k lines, and among the first k nodes.
  ghost function ListedChildren(c: Config, lines: seq<(nat, nat)>, i: nat, k: nat): set<nat>
    requires k <= |lines|
  {
    set t: nat | t < c.N() && c.Child(t, i) && Listed(lines, t, k)
  }

  function Children(c: Config, i: nat, k: nat): set<nat> {
    set t: nat | t < k && c.Child(t, i)
  }

  lemma NextListed(c: Config, lines: seq<(nat, nat)>, k: nat)
    requires c.Valid() && Lists(c, lines) && k < |lines|
    ensures !Listed(lines, lines[k].0, k)
    ensures forall t: nat :: Listed(lines, t, k + 1) <==> Listed(lines, t, k) || t == lines[k].0
  {
    forall t: nat | t == lines[k].0 || Listed(lines, t, k) ensures Listed(lines, t, k + 1) {
      if t == lines[k].0 {
        assert 0 <= k < k + 1;
      } else {
        var j :| 0 <= j < k && lines[j].0 == t;
      }
    }
  }

  lemma NextLine(c: Config, lines: seq<(nat, nat)>, i: nat, k: nat)
    requires c.Valid() && Lists(c, lines) && k < |lines|
    ensures |ListedChildren(c, lines, i, k + 1)| ==
            |ListedChildren(c, lines, i, k)| + if c.Child(lines[k].0, i) then 1 else 0
  {
    var s, t := ListedChildren(c, lines, i, k), ListedChildren(c, lines, i, k + 1);
    NextListed(c, lines, k);
    if c.Child(lines[k].0, i) {
      assert t == s + {lines[k].0};
    } else {
      assert t == s;
    }
  }

  lemma {:induction false} ChildrenBelow(c: Config, i: nat, k: nat)
    requires k <= c.N()
    ensures |Children(c, i, k)| == c.NumChild(i, k)
  {
    if k == 0 {
      assert Children(c, i, k) == {};
    } else {
      ChildrenBelow(c, i, k - 1);
      if c.Child(k - 1, i) {
        assert Children(c, i, k) == Children(c, i, k - 1) + {k - 1};
      } else {
        assert Children(c, i, k) == Children(c, i, k - 1);
      }
    }
  }

  lemma AllListed(c: Config, lines: seq<(nat, nat)>, i: nat)
    requires c.Valid() && Lists(c, lines)
    ensures |ListedChildren(c, lines, i, |lines|)| == c.NumChild(i, c.N())
  {
    ChildrenBelow(c, i, c.N());
    assert ListedChildren(c, lines, i, |lines|) == Children(c, i, c.N());
  }

  // What the arrays hold after k lines.
  ghost predicate ReadSoFar(c: Config, lines: seq<(nat, nat)>, parent: seq<nat>, numChild: seq<nat>, root: nat, k: nat)
    requires k <= |lines|
  {
    && |parent| == |numChild| == c.N()
    && (forall t: nat :: t < c.N() && Listed(lines, t, k) ==> parent[t] == c.parent[t])
    && (forall i: nat :: i < c.N() ==> numChild[i] == |ListedChildren(c, lines, i, k)|)
    && (Listed(lines, c.root, k) ==> root == c.root)
  }

  lemma ReadLine(c: Config, lines: seq<(nat, nat)>, parent: seq<nat>, numChild: seq<nat>, root: nat, k: nat)
    requires c.Valid() && Lists(c, lines) && k < |lines| && ReadSoFar(c, lines, parent, numChild, root, k)
    ensures var (node, par) := lines[k];
            ReadSoFar(c, lines, parent[node := par],
                      if node != par then numChild[par := numChild[par] + 1] else numChild,
                      if node != par then root else node, k + 1)
  {
    NextListed(c, lines, k);
    forall i: nat | i < c.N()
      ensures |ListedChildren(c, lines, i, k + 1)| == |ListedChildren(c, lines, i, k)|
              + if c.Child(lines[k].0, i) then 1 else 0
    {
      NextLine(c, lines, i, k);
    }
  }

  lemma NothingRead(c: Config, lines: seq<(nat, nat)>, parent: seq<nat>, numChild: seq<nat>)
    requires |parent| == |numChild| == c.N() && forall i :: 0 <= i < c.N() ==> numChild[i] == 0
    ensures ReadSoFar(c, lines, parent, numChild, 0, 0)
  {
    forall i: nat | i < c.N() ensures ListedChildren(c, lines, i, 0) == {} {}
  }

  lemma AllRead(c: Config, lines: seq<(nat, nat)>, parent: seq<nat>, numChild: seq<nat>, root: nat)
    requires c.Valid() && Lists(c, lines) && ReadSoFar(c, lines, parent, numChild, root, |lines|)
    ensures parent == c.parent && root == c.root
    ensures forall i :: 0 <= i < c.N() ==> numChild[i] == c.NumChild(i, c.N())
  {
    assert Listed(lines, c.root, |lines|);
    forall i: nat | i < c.N() ensures numChild[i] == c.NumChild(i, c.N()) {
      AllListed(c, lines, i);
    }
  }

  // One turn of the loop: the line's node gets its parent, and is counted there or is the root.
  method Record(parent: array<nat>, numChild: array<nat>, root: nat, node: nat, par: nat) returns (root': nat)
    requires node < parent.Length && par < numChild.Length && parent != numChild
    modifies parent, numChild
    ensures parent[..] == old(parent[..])[node := par]
    ensures numChild[..] == if node != par then old(numChild[..])[par := old(numChild[par]) + 1] else old(numChild[..])
    ensures root' == if node != par then root else node
  {
    root' := root;
    parent[node] := par;
    if node != par {
      numChild[par] := numChild[par] + 1;
    } else {
      root' := node;
    }
  }

  // The main program's loop over tree.txt.
  method ReadTree(c: Config, lines: seq<(nat, nat)>) returns (parent: array<nat>, numChild: array<nat>, root: nat)
    requires c.Valid() && Lists(c, lines)
    ensures parent[..] == c.parent && root == c.root
    ensures numChild.Length == c.N() && forall i :: 0 <= i < c.N() ==> numChild[..][i] == c.NumChild(i, c.N())
  {
    parent := new nat[c.N()](_ => 0);
    numChild := new nat[c.N()](_ => 0);
    root := 0;
    NothingRead(c, lines, parent[..], numChild[..]);
    var k := 0;
    while k < |lines|
      invariant k <= |lines| && parent.Length == numChild.Length == c.N() && parent != numChild
      invariant ReadSoFar(c, lines, parent[..], numChild[..], root, k)
    {
      ReadLine(c, lines, parent[..], numChild[..], root, k);
      root := Record(parent, numChild, root, lines[k].0, lines[k].1);
      k := k + 1;
    }
    AllRead(c, lines, parent[..], numChild[..], root);
  }

  // ---------- The leaf values of a subtree ----------

  // The child of i through which l reaches it.
  function Via(c: Config, l: nat, i: nat): nat
    requires c.Valid() && l < c.N() && l != i && c.Under(l, i)
    decreases c.depth[l]
  {
    if c.parent[l] == i then l else Via(c, c.parent[l], i)
  }

  lemma {:induction false} ViaIsTheChild(c: Config, l: nat, i: nat)
    requires c.Valid() && l < c.N() && l != i && c.Under(l, i)
    ensures c.Child(Via(c, l, i), i) && c.Under(l, Via(c, l, i))
    decreases c.depth[l]
  {
    if c.parent[l] != i { ViaIsTheChild(c, c.parent[l], i); }
  }

  lemma {:induction false} UnderIsNotHigher(c: Config, l: nat, i: nat)
    requires c.Valid() && l < c.N() && c.Under(l, i)
    ensures i < c.N() && c.depth[i] <= c.depth[l] && (c.depth[i] == c.depth[l] ==> i == l)
    decreases c.depth[l]
  {
    if l != i { UnderIsNotHigher(c, c.parent[l], i); }
  }

  // A node is under a child of i exactly when it is properly under i and that child is its way up.
  lemma {:induction false} UnderChild(c: Config, l: nat, t: nat, i: nat)
    requires c.Valid() && l < c.N() && i < c.N() && c.Child(t, i)
    ensures c.Under(l, t) <==> l != i && c.Under(l, i) && Via(c, l, i) == t
    decreases c.depth[l]
  {
    if l == i {
      if c.Under(l, t) { UnderIsNotHigher(c, l, t); }
    } else if l == t {
      assert l != c.root && c.Under(i, i) && c.Under(l, i);
    } else {
      if c.parent[l] == i {
        if l != c.root && c.Under(i, t) { UnderIsNotHigher(c, i, t); }
      } else if l != c.root {
        UnderChild(c, c.parent[l], t, i);
      }
    }
  }

  // The contribution of leaf l to the children of i before k.
  function Share(c: Config, i: nat, l: nat, k: nat): int
    requires c.Valid() && l < c.N() && k <= c.N()
  {
    if k == 0 then 0
    else Share(c, i, l, k - 1) + if c.Child(k - 1, i) && c.Leaf(l) && c.Under(l, k - 1) then c.value[l] else 0
  }

  lemma {:induction false} ShareOfLeaf(c: Config, i: nat, l: nat, k: nat)
    requires c.Valid() && l < c.N() && k <= c.N() && i < c.N() && !c.Leaf(i)
    ensures Share(c, i, l, k) == if c.Leaf(l) && c.Under(l, i) && Via(c, l, i) < k then c.value[l] else 0
  {
    if k > 0 {
      ShareOfLeaf(c, i, l, k - 1);
      if c.Child(k - 1, i) { UnderChild(c, l, k - 1, i); }
      else if c.Leaf(l) && c.Under(l, i) { ViaIsTheChild(c, l, i); }
    }
  }

  // The sums of the children of i before k, over the leaves before j.
  function ChildSums(c: Config, i: nat, k: nat, j: nat): int
    requires c.Valid() && k <= c.N() && j <= c.N()
  {
    if k == 0 then 0 else ChildSums(c, i, k - 1, j) + if c.Child(k - 1, i) then c.LeavesUnder(k - 1, j) else 0
  }

  lemma {:induction false} ChildSumsByLeaf(c: Config, i: nat, k: nat, j: nat)
    requires c.Valid() && k <= c.N() && 0 < j <= c.N()
    ensures ChildSums(c, i, k, j) == ChildSums(c, i, k, j - 1) + Share(c, i, j - 1, k)
  {
    if k > 0 { ChildSumsByLeaf(c, i, k - 1, j); }
  }

  lemma {:induction false} ChildSumsZero(c: Config, i: nat, k: nat)
    requires c.Valid() && k <= c.N()
    ensures ChildSums(c, i, k, 0) == 0
  {
    if k > 0 { ChildSumsZero(c, i, k - 1); }
  }

  lemma {:induction false} ChildrenCover(c: Config, i: nat, j: nat)
    requires c.Valid() && j <= c.N() && i < c.N() && !c.Leaf(i)
    ensures ChildSums(c, i, c.N(), j) == c.LeavesUnder(i, j)
  {
    if j == 0 {
      ChildSumsZero(c, i, c.N());
    } else {
      ChildrenCover(c, i, j - 1);
      ChildSumsByLeaf(c, i, c.N(), j);
      ShareOfLeaf(c, i, j - 1, c.N());
      if c.Leaf(j - 1) && c.Under(j - 1, i) { ViaIsTheChild(c, j - 1, i); }
    }
  }

  lemma {:induction false} GatheredAll(c: Config, added: seq<bool>, i: nat, k: nat)
    requires c.Valid() && k <= c.N() == |added|
    requires forall t :: 0 <= t < k && c.Child(t, i) ==> added[t]
    ensures c.Gathered(added, i, k) == ChildSums(c, i, k, c.N())
  {
    if k > 0 { GatheredAll(c, added, i, k - 1); }
  }

  // The leaf sum of an inner node is the sum of its children's, when all have added theirs.
  lemma InnerSum(c: Config, added: seq<bool>, i: nat)
    requires c.Valid() && |added| == c.N() && i < c.N() && !c.Leaf(i)
    requires forall t :: 0 <= t < c.N() && c.Child(t, i) ==> added[t]
    ensures c.Gathered(added, i, c.N()) == c.LeafSum(i)
  {
    GatheredAll(c, added, i, c.N());
    ChildrenCover(c, i, c.N());
  }

  lemma {:induction false} NoChildren(c: Config, i: nat, k: nat, t: nat)
    requires k <= c.N() && c.NumChild(i, k) == 0 && t < k
    ensures !c.Child(t, i)
  {
    if t < k - 1 { NoChildren(c, i, k - 1, t); }
  }

  lemma {:induction false} OnlyItself(c: Config, i: nat, l: nat)
    requires c.Valid() && i < c.N() && l < c.N() && c.Leaf(i)
    ensures c.Under(l, i) <==> l == i
    decreases c.depth[l]
  {
    if l != i && l != c.root {
      OnlyItself(c, i, c.parent[l]);
      NoChildren(c, i, c.N(), l);
    }
  }

  lemma {:induction false} LeafSumOfLeaf(c: Config, i: nat, k: nat)
    requires c.Valid() && i < c.N() && c.Leaf(i) && k <= c.N()
    ensures c.LeavesUnder(i, k) == if i < k then c.value[i] else 0
  {
    if k > 0 {
      LeafSumOfLeaf(c, i, k - 1);
      OnlyItself(c, i, k - 1);
    }
  }

  lemma {:induction false} AllUnderRoot(c: Config, l: nat)
    requires c.Valid() && l < c.N()
    ensures c.Under(l, c.root)
    decreases c.depth[l]
  {
    if l != c.root { AllUnderRoot(c, c.parent[l]); }
  }

  function AllLeaves(c: Config, k: nat): int
    requires k <= c.N() == |c.value|
  {
    if k == 0 then 0 else AllLeaves(c, k - 1) + if c.Leaf(k - 1) then c.value[k - 1] else 0
  }

  // The leaf sum of the root is the sum of all leaves.
  lemma {:induction false} RootSum(c: Config, k: nat)
    requires c.Valid() && k <= c.N()
    ensures c.LeavesUnder(c.root, k) == AllLeaves(c, k)
  {
    if k > 0 {
      RootSum(c, k - 1);
      AllUnderRoot(c, k - 1);
    }
  }
}
