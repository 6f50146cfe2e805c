// The generators of the random graph and the random tree, and what their clients need of them. A call
// of rand() is the next value of a function of the call's number.
module Generators {
  import opened TopoSorts
  import opened Sums
  import TreeSums

  // A list of all the numbers below n, each once.
  ghost predicate Permutation(p: seq<nat>) {
    && (forall i :: 0 <= i < |p| ==> p[i] < |p|)
    && (forall i, j :: 0 <= i < j < |p| ==> p[i] != p[j])
  }

  lemma PermutationCovers(p: seq<nat>, x: nat)
    requires Permutation(p) && x < |p|
    ensures x in p
  {
    if x !in p {
      var t: seq<int> := p;
      RoomLeft(t, |p|, x);
    }
  }

  // ---------- The shuffle that both generators begin with ----------

  function Exchanged(p: seq<nat>, i: nat, j: nat): seq<nat>
    requires i < |p| && j < |p|
  {
    p[i := p[j]][j := p[i]]
  }

  // The place that a random number r draws from those at and after i.
  function Place(n: nat, i: nat, r: nat): (j: nat)
    requires i < n
    ensures i <= j < n && (r < n - i ==> j == i + r)
  {
    i + r % (n - i)
  }

  // The list after each of the first i turns: from the numbers in order, turn k exchanges place k with a
  // place drawn from those at and after it.
  ghost predicate Turns(n: nat, rand: nat -> nat, lists: seq<seq<nat>>, i: nat) {
    && i <= n && |lists| == i + 1 && lists[0] == seq(n, k => k)
    && forall k: nat :: k < i ==>
         |lists[k]| == n && lists[k + 1] == Exchanged(lists[k], k, Place(n, k, rand(k)))
  }

  ghost predicate IsShuffle(n: nat, rand: nat -> nat, perm: seq<nat>) {
    exists lists :: Turns(n, rand, lists, n) && lists[n] == perm
  }

  lemma OneMoreTurn(n: nat, rand: nat -> nat, lists: seq<seq<nat>>, i: nat, next: seq<nat>)
    requires Turns(n, rand, lists, i) && i < n && |lists[i]| == n
    requires next == Exchanged(lists[i], i, Place(n, i, rand(i)))
    ensures Turns(n, rand, lists + [next], i + 1)
  {}

  lemma ExchangeKeepsPermutation(p: seq<nat>, i: nat, j: nat)
    requires Permutation(p) && i < |p| && j < |p|
    ensures Permutation(Exchanged(p, i, j))
  {}

  // One turn on the array.
  method Exchange(PERM: array<nat>, i: nat, j: nat)
    requires i < PERM.Length && j < PERM.Length
    modifies PERM
    ensures PERM[..] == Exchanged(old(PERM[..]), i, j)
  {
    PERM[i], PERM[j] := PERM[j], PERM[i];
  }

  method Shuffle(n: nat, rand: nat -> nat) returns (PERM: array<nat>)
    ensures fresh(PERM) && PERM.Length == n && Permutation(PERM[..]) && IsShuffle(n, rand, PERM[..])
  {
    PERM := new nat[n](i => i);
    ghost var lists: seq<seq<nat>> := [PERM[..]];
    var i := 0;
    while i < n
      invariant 0 <= i <= n && Permutation(PERM[..])
      invariant Turns(n, rand, lists, i) && lists[i] == PERM[..]
    {
      var j := i + rand(i) % (n - i);
      ExchangeKeepsPermutation(PERM[..], i, j);
      OneMoreTurn(n, rand, lists, i, Exchanged(PERM[..], i, j));
      lists := lists + [Exchanged(PERM[..], i, j)];
      Exchange(PERM, i, j);
      i := i + 1;
    }
  }

  // After turn i the first i places do not change any more.
  lemma {:induction false} PlaceStays(n: nat, rand: nat -> nat, lists: seq<seq<nat>>, i: nat, k: nat)
    requires Turns(n, rand, lists, n) && k < i <= n
    ensures |lists[i]| == n && lists[i][k] == lists[k + 1][k]
  {
    assert lists[i] == Exchanged(lists[i - 1], i - 1, Place(n, i - 1, rand(i - 1)));
    if k < i - 1 { PlaceStays(n, rand, lists, i - 1, k); }
  }

  lemma {:induction false} TurnsArePermutations(n: nat, rand: nat -> nat, lists: seq<seq<nat>>, i: nat)
    requires Turns(n, rand, lists, n) && i <= n
    ensures |lists[i]| == n && Permutation(lists[i])
  {
    if i > 0 {
      TurnsArePermutations(n, rand, lists, i - 1);
      assert lists[i] == Exchanged(lists[i - 1], i - 1, Place(n, i - 1, rand(i - 1)));
    }
  }

  lemma {:induction false} SameTurns(n: nat, rand: nat -> nat, rand': nat -> nat, lists: seq<seq<nat>>,
                                     lists': seq<seq<nat>>, i: nat)
    requires Turns(n, rand, lists, n) && Turns(n, rand', lists', n) && lists[n] == lists'[n] && i <= n
    ensures lists[i] == lists'[i] && forall k: nat :: k < i ==> Place(n, k, rand(k)) == Place(n, k, rand'(k))
  {
    if i > 0 {
      var k := i - 1;
      SameTurns(n, rand, rand', lists, lists', k);
      TurnsArePermutations(n, rand, lists, k);
      PlaceStays(n, rand, lists, n, k);
      PlaceStays(n, rand', lists', n, k);
      var j, j' := Place(n, k, rand(k)), Place(n, k, rand'(k));
      assert lists[i] == Exchanged(lists[k], k, j) && lists'[i] == Exchanged(lists'[k], k, j');
      assert lists[k][j] == lists[k][j'];
    }
  }

  // The turn that brings the right number to place i.
  lemma TurnTowards(p: seq<nat>, last: seq<nat>, i: nat) returns (j: nat)
    requires Permutation(p) && Permutation(last) && |last| == |p| && i < |p|
    requires forall k: nat :: k < i ==> last[k] == p[k]
    ensures i <= j < |p| && Permutation(Exchanged(last, i, j))
    ensures forall k: nat :: k <= i ==> Exchanged(last, i, j)[k] == p[k]
  {
    PermutationCovers(last, p[i]);
    j :| 0 <= j < |last| && last[j] == p[i];
    ExchangeKeepsPermutation(last, i, j);
  }

  // The first i turns that lead to p, place by place.
  lemma {:induction false} TurnsTo(p: seq<nat>, i: nat) returns (draws: seq<nat>, lists: seq<seq<nat>>)
    requires Permutation(p) && i <= |p|
    ensures |draws| == i && |lists| == i + 1 && lists[0] == seq(|p|, k => k)
    ensures forall k: nat :: k < i ==> |lists[k]| == |p| && draws[k] < |p| - k
    ensures forall k: nat :: k < i ==> lists[k + 1] == Exchanged(lists[k], k, k + draws[k])
    ensures |lists[i]| == |p| && Permutation(lists[i]) && forall k: nat :: k < i ==> lists[i][k] == p[k]
  {
    if i == 0 {
      draws, lists := [], [seq(|p|, k => k)];
    } else {
      draws, lists := TurnsTo(p, i - 1);
      var j := TurnTowards(p, lists[i - 1], i - 1);
      draws, lists := draws + [j - (i - 1)], lists + [Exchanged(lists[i - 1], i - 1, j)];
    }
  }

  lemma SomeDraws(p: seq<nat>) returns (rand: nat -> nat, lists: seq<seq<nat>>)
    requires Permutation(p)
    ensures Turns(|p|, rand, lists, |p|) && lists[|p|] == p
  {
    var n := |p|;
    var draws;
    draws, lists := TurnsTo(p, n);
    rand := (i: nat) => if i < |draws| then draws[i] else 0;
    forall i: nat | i < n ensures lists[i + 1] == Exchanged(lists[i], i, Place(n, i, rand(i))) {
      assert rand(i) == draws[i] < n - i;
    }
  }

  lemma OnlyDraws(n: nat, rand: nat -> nat, rand': nat -> nat, lists: seq<seq<nat>>)
    requires Turns(n, rand, lists, n) && IsShuffle(n, rand', lists[n])
    ensures forall i: nat :: i < n ==> Place(n, i, rand'(i)) == Place(n, i, rand(i))
  {
    var lists' :| Turns(n, rand', lists', n) && lists'[n] == lists[n];
    SameTurns(n, rand, rand', lists, lists', n);
  }

  // Every order comes of exactly one sequence of draws, so all are as likely as the draws are.
  lemma EveryOrderOnce(p: seq<nat>) returns (rand: nat -> nat)
    requires Permutation(p)
    ensures IsShuffle(|p|, rand, p)
    ensures forall rand': nat -> nat :: IsShuffle(|p|, rand', p) ==>
              forall i: nat :: i < |p| ==> Place(|p|, i, rand'(i)) == Place(|p|, i, rand(i))
  {
    var lists;
    rand, lists := SomeDraws(p);
    forall rand': nat -> nat | IsShuffle(|p|, rand', p)
      ensures forall i: nat :: i < |p| ==> Place(|p|, i, rand'(i)) == Place(|p|, i, rand(i))
    {
      OnlyDraws(|p|, rand, rand', lists);
    }
  }

  // ---------- The graph ----------

  // The cell of the nodes at positions a and b of perm holds an edge only if a comes before b.
  predicate CellOk(A: array2<bool>, perm: seq<nat>, edge: (nat, nat) -> bool, a: nat, b: nat)
    requires A.Length0 == A.Length1 == |perm|
    reads A
  {
    a < |perm| && b < |perm| && perm[a] < |perm| && perm[b] < |perm| && A[perm[a], perm[b]] == (a < b && edge(a, b))
  }

  // One turn of the outer loop: the cell on the diagonal, and row and column i of the rest.
  method FillRow(A: array2<bool>, PERM: seq<nat>, edge: (nat, nat) -> bool, i: nat)
    requires A.Length0 == A.Length1 == |PERM| && Permutation(PERM) && i < |PERM|
    modifies A
    ensures forall u: nat :: u < |PERM| ==> A[u, u] == if u == i then false else old(A[u, u])
    ensures forall b: nat :: i < b < |PERM| ==> CellOk(A, PERM, edge, i, b) && CellOk(A, PERM, edge, b, i)
    ensures forall a: nat, b: nat :: a < |PERM| && b < |PERM| && a != b && (a < i || b < i) ==>
              A[PERM[a], PERM[b]] == old(A[PERM[a], PERM[b]])
  {
    A[i, i] := false;
    for j := i + 1 to |PERM|
      invariant forall u: nat :: u < |PERM| ==> A[u, u] == if u == i then false else old(A[u, u])
      invariant forall b: nat :: i < b < j ==> CellOk(A, PERM, edge, i, b) && CellOk(A, PERM, edge, b, i)
      invariant forall a: nat, b: nat :: a < |PERM| && b < |PERM| && a != b && (a < i || b < i) ==>
                  A[PERM[a], PERM[b]] == old(A[PERM[a], PERM[b]])
    {
      label before:
      A[PERM[i], PERM[j]] := edge(i, j);
      A[PERM[j], PERM[i]] := false;
      forall b: nat | i < b <= j ensures CellOk(A, PERM, edge, i, b) && CellOk(A, PERM, edge, b, i) {
        if b < j {
          assert PERM[b] != PERM[j] && old@before(CellOk(A, PERM, edge, i, b) && CellOk(A, PERM, edge, b, i));
        }
      }
    }
  }

  // The fill of the adjacency matrix: every cell is assigned, an edge only to a later node of PERM.
  method FillGraph(PERM: seq<nat>, edge: (nat, nat) -> bool) returns (A: array2<bool>)
    requires Permutation(PERM)
    ensures fresh(A) && A.Length0 == A.Length1 == |PERM|
    ensures forall a: nat, b: nat :: a < |PERM| && b < |PERM| ==> CellOk(A, PERM, edge, a, b)
  {
    var n := |PERM|;
    A := new bool[n, n];
    for i := 0 to n
      invariant forall u: nat :: u < i ==> !A[u, u]
      invariant forall a: nat, b: nat :: a < n && b < n && a != b && (a < i || b < i) ==> CellOk(A, PERM, edge, a, b)
    {
      label before:
      FillRow(A, PERM, edge, i);
      assert forall u: nat :: u < i ==> A[u, u] == old@before(A[u, u]);
      forall a: nat, b: nat | a < n && b < n && a != b && (a <= i || b <= i) ensures CellOk(A, PERM, edge, a, b) {
        if a < i || b < i { assert old@before(CellOk(A, PERM, edge, a, b)); }
      }
    }
  }

  // A matrix filled like that is acyclic: PERM is a topological order of it.
  lemma FilledIsAcyclic(g: Graph, perm: seq<nat>)
    requires Square(g) && |perm| == |g| && Permutation(perm)
    requires forall a: nat, b: nat :: a < |g| && b < |g| && Edge(g, perm[a], perm[b]) ==> a < b
    ensures Topological(g, perm) && Acyclic(g)
  {
    var t: seq<int> := perm;
    forall b: nat, p: nat | b < |t| && p < |g| && Edge(g, p, t[b]) ensures p in t[..b] {
      PermutationCovers(perm, p);
      var a: nat :| a < |perm| && perm[a] == p;
      assert Edge(g, perm[a], perm[b]);
    }
    assert Topological(g, t);
    AcyclicHasOrder(g);
  }

  // The edges of g are those drawn, from earlier to later places of perm.
  ghost predicate HasEdgesDrawn(g: Graph, perm: seq<nat>, edge: (nat, nat) -> bool) {
    && |perm| == |g| && Permutation(perm)
    && forall a: nat, b: nat :: a < |g| && b < |g| ==> (Edge(g, perm[a], perm[b]) <==> a < b && edge(a, b))
  }

  method GenerateGraph(n: nat, rand: nat -> nat, edge: (nat, nat) -> bool) returns (g: Graph, ghost perm: seq<nat>)
    ensures |g| == n && Square(g) && Acyclic(g)
    ensures IsShuffle(n, rand, perm) && HasEdgesDrawn(g, perm, edge)
  {
    var PERM := Shuffle(n, rand);
    var A := FillGraph(PERM[..], edge);
    perm := PERM[..];
    g := [];
    for i := 0 to n
      invariant |g| == i && forall k :: 0 <= k < i ==> |g[k]| == n && forall j :: 0 <= j < n ==> g[k][j] == A[k, j]
    {
      var row := [];
      for j := 0 to n
        invariant |row| == j && forall k :: 0 <= k < j ==> row[k] == A[i, k]
      {
        row := row + [A[i, j]];
      }
      g := g + [row];
    }
    forall a: nat, b: nat | a < n && b < n ensures Edge(g, perm[a], perm[b]) <==> a < b && edge(a, b) {
      assert CellOk(A, perm, edge, a, b);
    }
    FilledIsAcyclic(g, perm);
  }

  // Every way of drawing edges from earlier to later nodes of some order gives a graph without a cycle, and
  // every graph without a cycle is drawn in some way.
  lemma EveryAcyclicGraph(g: Graph) returns (rand: nat -> nat, perm: seq<nat>, edge: (nat, nat) -> bool)
    requires Square(g) && Acyclic(g)
    ensures IsShuffle(|g|, rand, perm) && HasEdgesDrawn(g, perm, edge)
  {
    AcyclicHasOrder(g);
    var t :| Topological(g, t);
    perm := seq(|t|, i requires 0 <= i < |t| && 0 <= t[i] => t[i] as nat);
    edge := (a: nat, b: nat) => a < |perm| && b < |perm| && Edge(g, perm[a], perm[b]);
    rand := EveryOrderOnce(perm);
    forall a: nat, b: nat | a < |g| && b < |g| && Edge(g, perm[a], perm[b]) ensures a < b {
      assert perm[a] in t[..b];
    }
  }

  // ---------- The tree ----------

  // Parents of positions: each is earlier, they come in order, and five positions later comes the child of a
  // later one, so none has more than five children.
  ghost predicate Ordered(par: seq<nat>) {
    && 0 < |par| && par[0] == 0
    && (forall c :: 0 < c < |par| ==> par[c] < c)
    && (forall c, d :: 0 < c < d < |par| ==> par[c] <= par[d] && (c + 5 <= d ==> par[c] < par[d]))
  }

  // The node at position c of perm is a child of that at the earlier position par[c].
  ghost predicate Laid(perm: seq<nat>, P: seq<nat>, par: seq<nat>) {
    && |par| <= |perm| == |P| && Ordered(par)
    && (forall c :: 0 <= c < |par| ==> perm[c] < |P| && P[perm[c]] == perm[par[c]])
  }

  // The parents when the first position gets drawn[0] children, the next drawn[1], and so on.
  function Layout(drawn: seq<nat>): (par: seq<nat>)
    ensures |par| > 0
  {
    if drawn == [] then [0]
    else Layout(drawn[..|drawn| - 1]) + seq(drawn[|drawn| - 1], _ => |drawn| - 1)
  }

  // The number drawn for position k, with the parents of placed positions known: up to five, no more than
  // there are nodes left, and at least one if no position follows k yet. The first n calls of rand() were
  // those of the shuffle.
  ghost predicate IsDraw(n: nat, rand: nat -> nat, placed: nat, k: nat, t: nat) {
    && k < placed < n
    && t == (if placed == k + 1 then 1 else 0) + rand(n + k) % (if n - placed < 5 then n - placed else 5)
  }

  ghost predicate Draws(n: nat, rand: nat -> nat, drawn: seq<nat>) {
    forall k: nat :: k < |drawn| ==> IsDraw(n, rand, |Layout(drawn[..k])|, k, drawn[k])
  }

  function Children(par: seq<nat>, k: nat): set<nat> {
    set c: nat | 0 < c < |par| && par[c] == k
  }

  lemma {:induction false} ChildrenGrow(par: seq<nat>, parent: nat, t: nat, k: nat)
    requires par != []
    ensures |Children(par + seq(t, _ => parent), k)| == |Children(par, k)| + if k == parent then t else 0
  {
    if t == 0 {
      assert par + seq(t, _ => parent) == par;
    } else {
      var before, after := par + seq(t - 1, _ => parent), par + seq(t, _ => parent);
      ChildrenGrow(par, parent, t - 1, k);
      assert after == before + [parent];
      assert Children(after, k) == Children(before, k) + if k == parent then {|before|} else {};
    }
  }

  // The positions with parent k are as many as have been drawn for it.
  lemma {:induction false} ChildrenDrawn(drawn: seq<nat>, k: nat)
    ensures |Children(Layout(drawn), k)| == if k < |drawn| then drawn[k] else 0
  {
    if drawn == [] {
      assert Children(Layout(drawn), k) == {};
    } else {
      var m := |drawn| - 1;
      ChildrenDrawn(drawn[..m], k);
      ChildrenGrow(Layout(drawn[..m]), m, drawn[m], k);
    }
  }

  lemma {:induction false} ParentsDrawn(drawn: seq<nat>)
    ensures |Layout(drawn)| == 1 + Total(drawn)
    ensures forall c :: 0 < c < |Layout(drawn)| ==> Layout(drawn)[c] < |drawn|
  {
    if drawn != [] {
      var m := |drawn| - 1;
      assert drawn == drawn[..m] + [drawn[m]];
      TotalAppend(drawn[..m], drawn[m]);
      ParentsDrawn(drawn[..m]);
    }
  }

  lemma MoreChildren(par: seq<nat>, parent: nat, t: nat)
    requires Ordered(par) && parent < |par| && t <= 5 && forall c :: 0 < c < |par| ==> par[c] < parent
    ensures Ordered(par + seq(t, _ => parent))
  {}

  // One more child, for the node at position parent.
  lemma LayOne(perm: seq<nat>, P: seq<nat>, par: seq<nat>, parent: nat)
    requires Permutation(perm) && Laid(perm, P, par) && |par| < |perm| && parent < |par| && Ordered(par + [parent])
    ensures Laid(perm, P[perm[|par|] := perm[parent]], par + [parent])
  {
    var P', par' := P[perm[|par|] := perm[parent]], par + [parent];
    forall c | 0 <= c < |par'| ensures perm[c] < |P'| && P'[perm[c]] == perm[par'[c]] {
      if c < |par| { assert perm[c] != perm[|par|]; }
    }
  }

  // The inner loop: the next t positions become children of the node at position parent.
  method HandOutChildren(PERM: array<nat>, P: array<nat>, nextchild: nat, parent: nat, t: nat, ghost par: seq<nat>)
    requires PERM != P && Permutation(PERM[..]) && Laid(PERM[..], P[..], par) && |par| == nextchild + 1
    requires nextchild + t < PERM.Length && parent <= nextchild && t <= 5
    requires forall c :: 0 < c < |par| ==> par[c] < parent
    modifies P
    ensures Laid(PERM[..], P[..], par + seq(t, _ => parent))
  {
    ghost var perm := PERM[..];
    for i := 0 to t
      invariant PERM[..] == perm && Laid(perm, P[..], par + seq(i, _ => parent))
    {
      ghost var now, next := par + seq(i, _ => parent), par + seq(i + 1, _ => parent);
      assert next == now + [parent];
      MoreChildren(par, parent, i + 1);
      LayOne(perm, P[..], now, parent);
      P[PERM[nextchild + i + 1]] := PERM[parent];
    }
  }

  lemma OneMoreDraw(n: nat, rand: nat -> nat, drawn: seq<nat>, t: nat)
    requires Draws(n, rand, drawn) && IsDraw(n, rand, |Layout(drawn)|, |drawn|, t)
    ensures Draws(n, rand, drawn + [t]) && Layout(drawn + [t]) == Layout(drawn) + seq(t, _ => |drawn|)
  {
    var next := drawn + [t];
    assert next[..|drawn|] == drawn;
    forall k: nat | k < |next| ensures IsDraw(n, rand, |Layout(next[..k])|, k, next[k]) {
      if k < |drawn| { assert next[..k] == drawn[..k]; }
    }
  }

  // The choice of a number of children by the value r of rand().
  method Choose(remaining: nat, last: bool, r: nat) returns (t: nat)
    requires remaining > 0
    ensures t == (if last then 1 else 0) + r % (if remaining < 5 then remaining else 5)
    ensures t <= remaining && t <= 5 && (last ==> t > 0)
  {
    if remaining > 5 {
      t := if last then 1 + r % 5 else r % 5;
    } else {
      t := if last then 1 + r % remaining else r % remaining;
    }
  }

  // The tree so far: as many positions have got children as numbers have been drawn.
  ghost predicate Grown(n: nat, rand: nat -> nat, perm: seq<nat>, P: seq<nat>, drawn: seq<nat>) {
    Permutation(perm) && |perm| == n && Draws(n, rand, drawn) && Laid(perm, P, Layout(drawn))
  }

  // One turn of the loop.
  method GrowTree(PERM: array<nat>, P: array<nat>, rand: nat -> nat, nextchild: nat, nextparent: nat,
                  ghost drawn: seq<nat>) returns (t: nat)
    requires PERM != P && Grown(PERM.Length, rand, PERM[..], P[..], drawn)
    requires nextparent == |drawn| <= nextchild == |Layout(drawn)| - 1 < PERM.Length - 1
    modifies P
    ensures Grown(PERM.Length, rand, PERM[..], P[..], drawn + [t])
    ensures |Layout(drawn + [t])| == nextchild + t + 1 <= PERM.Length && (nextchild == nextparent ==> t > 0)
  {
    t := Choose(PERM.Length - 1 - nextchild, nextchild == nextparent, rand(PERM.Length + nextparent));
    assert IsDraw(PERM.Length, rand, |Layout(drawn)|, |drawn|, t);
    OneMoreDraw(PERM.Length, rand, drawn, t);
    ParentsDrawn(drawn);
    HandOutChildren(PERM, P, nextchild, nextparent, t, Layout(drawn));
  }

  // The loop that hands out children, for every outcome of rand().
  method GenerateTree(n: nat, rand: nat -> nat) returns (P: array<nat>, ghost perm: seq<nat>, ghost drawn: seq<nat>)
    requires n > 0
    ensures fresh(P) && P.Length == n && Permutation(perm) && IsShuffle(n, rand, perm)
    ensures Draws(n, rand, drawn) && |Layout(drawn)| == n && Laid(perm, P[..], Layout(drawn))
  {
    var PERM := Shuffle(n, rand);
    perm := PERM[..];
    drawn := [];
    P := new nat[n](_ => 0);
    P[PERM[0]] := PERM[0];
    var nextchild, nextparent, remaining := 0, 0, n - 1;
    while remaining > 0
      invariant nextparent == |drawn| <= nextchild == |Layout(drawn)| - 1 == n - 1 - remaining <= n - 1
      invariant PERM[..] == perm && Grown(n, rand, perm, P[..], drawn)
      decreases 2 * remaining + nextchild - nextparent
    {
      var t := GrowTree(PERM, P, rand, nextchild, nextparent, drawn);
      drawn := drawn + [t];
      remaining := remaining - t;
      nextchild := nextchild + t;
      nextparent := nextparent + 1;
    }
  }

  // The number of steps from the node at position c of perm up to the first.
  ghost function Depth(perm: seq<nat>, P: seq<nat>, par: seq<nat>, c: nat): nat
    requires Laid(perm, P, par) && c < |par|
  {
    if c == 0 then 0 else Depth(perm, P, par, par[c]) + 1
  }

  ghost function PositionIn(perm: seq<nat>, x: nat): (a: nat)
    requires Permutation(perm) && x < |perm|
    ensures a < |perm| && perm[a] == x
  {
    PermutationCovers(perm, x);
    var a :| 0 <= a < |perm| && perm[a] == x;
    a
  }

  // Every node reaches the unique root: the tree is one for the tree sum.
  lemma GeneratedIsTree(perm: seq<nat>, P: seq<nat>, par: seq<nat>, value: seq<int>) returns (depth: seq<nat>)
    requires Permutation(perm) && Laid(perm, P, par) && |par| == |perm| == |value|
    ensures TreeSums.Config(P, perm[0], value, depth).Valid()
  {
    var n := |perm|;
    depth := seq(n, i requires 0 <= i < n => Depth(perm, P, par, PositionIn(perm, i)));
    forall i: nat | i < n ensures P[i] < n && (i != perm[0] ==> P[i] != i && depth[i] == depth[P[i]] + 1) {
      var c := PositionIn(perm, i);
      assert P[i] == perm[par[c]];
      if c > 0 {
        assert PositionIn(perm, P[i]) == par[c];
      }
    }
  }

  lemma {:induction false} ImageSize(perm: seq<nat>, places: set<nat>)
    requires Permutation(perm) && forall c :: c in places ==> c < |perm|
    ensures |set c | c in places :: perm[c]| == |places|
  {
    if places != {} {
      var c :| c in places;
      ImageSize(perm, places - {c});
      assert (set d | d in places :: perm[d]) == (set d | d in places - {c} :: perm[d]) + {perm[c]};
    }
  }

  // The node at position k has as many children as have been drawn for it.
  lemma ChildrenOfNode(perm: seq<nat>, P: seq<nat>, drawn: seq<nat>, k: nat)
    requires Permutation(perm) && Laid(perm, P, Layout(drawn)) && |Layout(drawn)| == |perm| && k < |perm|
    ensures |set v: nat | v < |P| && v != perm[0] && P[v] == perm[k]| == if k < |drawn| then drawn[k] else 0
  {
    var places := Children(Layout(drawn), k);
    var nodes := set v: nat | v < |P| && v != perm[0] && P[v] == perm[k];
    forall v | v in nodes ensures v in set c | c in places :: perm[c] {
      assert PositionIn(perm, v) in places;
    }
    assert nodes == set c | c in places :: perm[c];
    ImageSize(perm, places);
    ChildrenDrawn(drawn, k);
  }
}
