// Trees of regular files and directories, as maps from relative paths.
module FileTrees {

  type Path = seq<string>

  type Bytes = seq<bv8>

  datatype Inode = File(bytes: Bytes, mtime: int, mode: int) | Dir(mtime: int, mode: int)

  type Tree = map<Path, Inode>

  function Parent(q: Path): Path
    requires q != []
  {
    q[..|q| - 1]
  }

  ghost predicate ParentOk(d: Tree, q: Path) {
    q != [] ==> Parent(q) in d && d[Parent(q)].Dir?
  }

  // The root is a directory and every other entry lies in a directory.
  ghost predicate IsTree(d: Tree) {
    [] in d && d[[]].Dir? && forall q :: q in d ==> ParentOk(d, q)
  }

  // The entries of directory p, by their paths.
  function Kids(d: Tree, p: Path): set<Path> {
    set q | q in d && q != [] && Parent(q) == p
  }

  // Everything at or below p.
  function Subtree(d: Tree, p: Path): set<Path> {
    set q | q in d && p <= q
  }

  // The entry of p on the way down to q.
  function Towards(p: Path, q: Path): (c: Path)
    requires p <= q && p != q
    ensures c != [] && Parent(c) == p && c <= q && |c| == |p| + 1
  {
    q[..|p| + 1]
  }

  lemma OnlyWay(p: Path, c: Path, q: Path)
    requires p <= q && p != q && c != [] && Parent(c) == p && c <= q
    ensures c == Towards(p, q)
  {}

  lemma {:induction false} PrefixInTree(d: Tree, q: Path, k: nat)
    requires IsTree(d) && q in d && k <= |q|
    ensures q[..k] in d && (k < |q| ==> d[q[..k]].Dir?)
    decreases |q|
  {
    if k < |q| {
      assert ParentOk(d, q);
      if k < |q| - 1 {
        PrefixInTree(d, Parent(q), k);
        assert Parent(q)[..k] == q[..k];
      }
    } else {
      assert q[..k] == q;
    }
  }

  // What lies below p lies at or below an entry of p.
  lemma ThroughKid(d: Tree, p: Path, q: Path)
    requires IsTree(d) && q in d && p <= q && p != q
    ensures p in d && d[p].Dir? && Towards(p, q) in Kids(d, p)
  {
    PrefixInTree(d, q, |p|);
    PrefixInTree(d, q, |p| + 1);
    assert q[..|p|] == p;
  }

  lemma SubtreeOfKid(d: Tree, p: Path, c: Path)
    requires IsTree(d) && c in Kids(d, p)
    ensures Subtree(d, c) < Subtree(d, p)
  {
    assert ParentOk(d, c);
    assert p <= c && p in Subtree(d, p);
    forall q | q in Subtree(d, c) ensures q in Subtree(d, p) {}
    assert p !in Subtree(d, c);
  }

  // ---------- Comparing two states of a tree ----------

  ghost predicate Same(d: Tree, e: Tree, q: Path) {
    (q in d <==> q in e) && (q in d ==> d[q] == e[q])
  }

  ghost predicate SameOutside(d: Tree, e: Tree, c: Path) {
    forall q :: !(c <= q) ==> Same(d, e, q)
  }

  // A directory whose modification time may have changed.
  ghost predicate Touched(d: Tree, e: Tree, p: Path) {
    p in d && p in e && d[p].Dir? && e[p].Dir? && e[p].mode == d[p].mode
  }

  // An entry has been made, or a subtree removed: nothing else has changed but the time of its directory.
  ghost predicate Made(d: Tree, e: Tree, c: Path) {
    && c != [] && c !in d && e.Keys == d.Keys + {c} && Touched(d, e, Parent(c))
    && forall q :: q in d && q != Parent(c) ==> e[q] == d[q]
  }

  ghost predicate Cut(d: Tree, e: Tree, c: Path) {
    && c != [] && e.Keys == d.Keys - Subtree(d, c) && Touched(d, e, Parent(c))
    && forall q :: q in e && q != Parent(c) ==> e[q] == d[q]
  }

  lemma MadeKeepsTree(d: Tree, e: Tree, c: Path)
    requires IsTree(d) && Made(d, e, c)
    ensures IsTree(e) && |e| == |d| + 1
  {
    forall q | q in e ensures ParentOk(e, q) {
      if q in d { assert ParentOk(d, q); }
    }
    assert |e.Keys| == |d.Keys| + 1;
  }

  lemma CutKeepsTree(d: Tree, e: Tree, c: Path)
    requires IsTree(d) && Cut(d, e, c)
    ensures IsTree(e) && |e| == |d| - |Subtree(d, c)|
  {
    forall q | q in e ensures ParentOk(e, q) {
      assert ParentOk(d, q);
      assert q != [] && c <= Parent(q) ==> c <= q;
    }
    assert d.Keys == e.Keys + Subtree(d, c);
    assert |d.Keys| == |e.Keys| + |Subtree(d, c)|;
  }
}
