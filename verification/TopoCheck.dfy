// The boss's computation of the indegrees and its check of the result, both in place.
module TopoCheck {
  import opened TopoSorts

  ghost predicate IsIndegrees(g: Graph, indeg: seq<int>) {
    |indeg| == |g| && forall j: nat :: j < |g| ==> indeg[j] == Preds(g, All(|g|), j, |g|)
  }

  method Indegrees(g: Graph) returns (indeg: array<int>)
    requires Square(g)
    ensures fresh(indeg) && IsIndegrees(g, indeg[..])
  {
    var n := |g|;
    indeg := new int[n](_ => 0);
    for i := 0 to n
      invariant forall j: nat :: j < n ==> indeg[j] == Preds(g, All(n), j, i)
    {
      for j := 0 to n
        invariant forall k: nat :: k < n ==> indeg[k] == Preds(g, All(n), k, if k < j then i + 1 else i)
      {
        if g[i][j] {
          indeg[j] := indeg[j] + 1;
        }
      }
    }
  }

  // ---------- The check ----------

  function Without(g: Graph, indeg: seq<int>, i: nat): (r: seq<int>)
    ensures |r| == |indeg|
  {
    seq(|indeg|, j requires 0 <= j < |indeg| => indeg[j] - if Edge(g, i, j) then 1 else 0)
  }

  predicate Accepts(g: Graph, indeg: seq<int>, t: seq<int>)
    decreases |t|
  {
    t == [] || (0 <= t[0] < |indeg| && indeg[t[0]] == 0 && Accepts(g, Without(g, indeg, t[0]), t[1..]))
  }

  method Check(g: Graph, T: seq<int>, indeg: array<int>) returns (correct: bool)
    requires Square(g) && indeg.Length == |g| == |T| && forall i :: 0 <= i < |T| ==> 0 <= T[i] < |g|
    modifies indeg
    ensures correct <==> Accepts(g, old(indeg[..]), T)
  {
    correct := true;
    var n := |g|;
    var i := 0;
    while i < n
      invariant 0 <= i <= n && correct
      invariant Accepts(g, old(indeg[..]), T) <==> Accepts(g, indeg[..], T[i..])
    {
      if indeg[T[i]] == 0 {
        ghost var before := indeg[..];
        for j := 0 to n
          invariant forall k: nat :: k < n ==> indeg[k] == if k < j then Without(g, before, T[i])[k] else before[k]
        {
          if g[T[i]][j] {
            indeg[j] := indeg[j] - 1;
          }
        }
        assert indeg[..] == Without(g, before, T[i]);
        assert T[i..][1..] == T[i + 1..];
      } else {
        correct := false;
        break;
      }
      i := i + 1;
    }
  }

  // ---------- What the check decides ----------

  // The nodes that are not among the first of T.
  function NotIn(t: seq<int>, n: nat): (r: seq<bool>)
    ensures |r| == n
  {
    seq(n, x requires 0 <= x < n => x !in t)
  }

  // The indegrees that are left when the nodes of done have been taken away.
  ghost predicate Remaining(g: Graph, indeg: seq<int>, done: seq<int>) {
    |indeg| == |g| && forall j: nat :: j < |g| ==> indeg[j] == Preds(g, NotIn(done, |g|), j, |g|)
  }

  lemma RemainingWithout(g: Graph, indeg: seq<int>, done: seq<int>, i: nat)
    requires i < |g| && i !in done && Remaining(g, indeg, done)
    ensures Remaining(g, Without(g, indeg, i), done + [i])
  {
    assert NotIn(done + [i], |g|) == NotIn(done, |g|)[i := false];
    forall j: nat | j < |g| ensures Without(g, indeg, i)[j] == Preds(g, NotIn(done + [i], |g|), j, |g|) {
      PredsSet(g, NotIn(done, |g|), j, |g|, i);
    }
  }

  lemma {:induction false} AcceptsSorted(g: Graph, indeg: seq<int>, done: seq<int>, t: seq<int>)
    requires Sorted(g, done) && Remaining(g, indeg, done)
    requires forall a :: 0 <= a < |t| ==> 0 <= t[a] < |g|
    requires forall a, b :: 0 <= a < b < |done + t| ==> (done + t)[a] != (done + t)[b]
    ensures Accepts(g, indeg, t) <==> Sorted(g, done + t)
    decreases |t|
  {
    if t == [] {
      assert done + t == done;
    } else {
      var i: nat := t[0];
      assert done + t == (done + [i]) + t[1..];
      assert (done + t)[|done|] == i;
      assert forall a :: 0 <= a < |done| ==> done[a] == (done + t)[a];
      PredsBound(g, NotIn(done, |g|), i, |g|);
      if indeg[i] == 0 {
        RemainingWithout(g, indeg, done, i);
        assert IsFree(g, done, i);
        AppendSorted(g, done, i);
        AcceptsSorted(g, Without(g, indeg, i), done + [i], t[1..]);
      } else {
        var p: nat :| p < |g| && Edge(g, p, i) && p !in done;
        assert (done + t)[..|done|] == done;
      }
    }
  }

  // On permutations of the nodes the check accepts exactly the topological orders.
  lemma CheckIsExact(g: Graph, indeg: seq<int>, t: seq<int>)
    requires IsIndegrees(g, indeg) && |t| == |g|
    requires forall a :: 0 <= a < |t| ==> 0 <= t[a] < |g|
    requires forall a, b :: 0 <= a < b < |t| ==> t[a] != t[b]
    ensures Accepts(g, indeg, t) <==> Topological(g, t)
  {
    assert NotIn([], |g|) == All(|g|);
    assert [] + t == t;
    AcceptsSorted(g, indeg, [], t);
  }

  // ---------- Lists that are not permutations ----------

  // A list of as many nodes as there are passes the check and is not a topological order.
  ghost predicate WronglyAccepted(g: Graph, indeg: seq<int>, t: seq<int>) {
    && |t| == |g| && (forall a :: 0 <= a < |t| ==> 0 <= t[a] < |g|)
    && Accepts(g, indeg, t) && !Topological(g, t)
  }

  function Repeat(i: int, n: nat): (t: seq<int>)
    ensures |t| == n && forall a :: 0 <= a < n ==> t[a] == i
  {
    seq(n, _ => i)
  }

  lemma {:induction false} RepeatAccepted(g: Graph, indeg: seq<int>, i: nat, n: nat)
    requires i < |indeg| && indeg[i] == 0 && !Edge(g, i, i)
    ensures Accepts(g, indeg, Repeat(i, n))
    decreases n
  {
    if n > 0 {
      RepeatAccepted(g, Without(g, indeg, i), i, n - 1);
      assert Repeat(i, n)[1..] == Repeat(i, n - 1);
    }
  }

  // A node without predecessors may be named for every place.
  lemma SourceRepeats(g: Graph, indeg: seq<int>, i: nat)
    requires IsIndegrees(g, indeg) && |g| >= 2 && i < |g| && indeg[i] == 0
    ensures WronglyAccepted(g, indeg, Repeat(i, |g|))
  {
    PredsBound(g, All(|g|), i, |g|);
    assert !Edge(g, i, i) by { assert All(|g|)[i]; }
    RepeatAccepted(g, indeg, i, |g|);
    assert Repeat(i, |g|)[0] == Repeat(i, |g|)[1];
  }

  lemma WrongListsNeed(g: Graph, indeg: seq<int>, t: seq<int>)
    requires IsIndegrees(g, indeg) && WronglyAccepted(g, indeg, t)
    ensures |g| >= 2 && 0 <= t[0] < |g| && indeg[t[0]] == 0
  {
    if |g| < 2 { CheckIsExact(g, indeg, t); }
  }

  // The check alone decides rightly about every list exactly if there are fewer than two nodes or
  // every node has a predecessor. That T is a permutation is the workers' doing.
  lemma CheckAloneFails(g: Graph, indeg: seq<int>)
    requires IsIndegrees(g, indeg)
    ensures (exists t :: WronglyAccepted(g, indeg, t)) <==> |g| >= 2 && exists i: nat :: i < |g| && indeg[i] == 0
  {
    if i: nat :| i < |g| && indeg[i] == 0 {
      if |g| >= 2 { SourceRepeats(g, indeg, i); }
    }
    forall t | WronglyAccepted(g, indeg, t) ensures |g| >= 2 && 0 <= t[0] < |g| && indeg[t[0]] == 0 {
      WrongListsNeed(g, indeg, t);
    }
  }

  // For instance node 0 twice, of two nodes without edges.
  lemma CheckPassesRepeats()
    ensures WronglyAccepted([[false, false], [false, false]], [0, 0], [0, 0])
  {
    var g: Graph := [[false, false], [false, false]];
    forall j: nat | j < 2 ensures Preds(g, All(2), j, 2) == 0 {
      PredsBound(g, All(2), j, 2);
    }
    SourceRepeats(g, [0, 0], 0);
    assert Repeat(0, 2) == [0, 0];
  }

  // No run of the workers makes such a list: the boss's verdict on the result of any run is well done,
  // and rightly so.
  lemma BossIsContent(g: Graph, run: seq<State>, indeg: seq<int>)
    requires IsRun(g, run) && run[|run| - 1].boss == Finished && IsIndegrees(g, indeg)
    ensures Accepts(g, indeg, run[|run| - 1].T) && !WronglyAccepted(g, indeg, run[|run| - 1].T)
  {
    BossHasAnOrder(g, run);
    CheckIsExact(g, indeg, run[|run| - 1].T);
  }
}
