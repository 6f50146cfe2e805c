// The concurrent topological sort: the boss and one worker a node, with a semaphore a node that
// counts the predecessors to come, and the semaphores mtx and ntfy between boss and workers.
module TopoSorts {
  import opened Sums

  type Graph = seq<seq<bool>>

  predicate Square(g: Graph) {
    forall i :: 0 <= i < |g| ==> |g[i]| == |g|
  }

  predicate Edge(g: Graph, i: nat, j: nat) {
    i < |g| && j < |g[i]| && g[i][j]
  }

  // The next operation of a worker and of the boss. A worker at Dec(j) looks at the edge to node j.
  datatype Pc = WaitZero | WaitMtx | Insert | Advance | Dec(j: nat) | Notify | Exited

  datatype BossPc = WaitNtfy | PostMtx | Test | Finished

  datatype State = State(pcs: seq<Pc>, boss: BossPc, sync: seq<int>, mtx: nat, ntfy: nat, idx: nat, T: seq<int>)

  // The predecessors of j before k, among those that pass the filter.
  function Preds(g: Graph, waits: seq<bool>, j: nat, k: nat): nat
    requires k <= |waits|
  {
    if k == 0 then 0 else Preds(g, waits, j, k - 1) + if Edge(g, k - 1, j) && waits[k - 1] then 1 else 0
  }

  function All(n: nat): (r: seq<bool>)
    ensures |r| == n
  {
    seq(n, _ => true)
  }

  // The state that the boss sets up before its loop, with all workers started.
  ghost predicate Init(g: Graph, s: State) {
    && |s.sync| == |s.T| == |g|
    && s == State(seq(|g|, _ => WaitZero), WaitNtfy, s.sync, 0, 1, 0, s.T)
    && forall j: nat :: j < |g| ==> s.sync[j] == Preds(g, All(|g|), j, |g|)
  }

  ghost predicate Shaped(g: Graph, s: State) {
    Square(g) && |s.pcs| == |s.sync| == |s.T| == |g| && s.idx <= |g|
    && forall i :: 0 <= i < |g| && s.pcs[i].Dec? ==> s.pcs[i].j < |g|
  }

  function NextPc(n: nat, pc: Pc): Pc {
    match pc
    case WaitZero => WaitMtx
    case WaitMtx => Insert
    case Insert => Advance
    case Advance => Dec(0)
    case Dec(j) => if j + 1 < n then Dec(j + 1) else Notify
    case Notify => Exited
    case Exited => Exited
  }

  function NextSync(g: Graph, sync: seq<int>, i: nat, pc: Pc): (r: seq<int>)
    requires pc.Dec? ==> pc.j < |sync|
    ensures |r| == |sync|
  {
    if pc.Dec? && Edge(g, i, pc.j) then sync[pc.j := sync[pc.j] - 1] else sync
  }

  // The operation at the worker's pc does not block.
  predicate CanMove(g: Graph, s: State, i: nat)
    requires i < |s.pcs| == |s.sync| && (s.pcs[i].Dec? ==> s.pcs[i].j < |s.sync|)
  {
    match s.pcs[i]
    case WaitZero => s.sync[i] == 0
    case WaitMtx => s.mtx > 0
    case Insert => true
    case Advance => true
    case Dec(j) => Edge(g, i, j) ==> s.sync[j] > 0
    case Notify => true
    case Exited => false
  }

  // One operation of worker i. An insertion beyond the end of T would be undefined.
  ghost predicate WorkerStep(g: Graph, s: State, i: nat, s': State) {
    && Shaped(g, s) && i < |g| && CanMove(g, s, i)
    && (s.pcs[i] == Insert ==> s.idx < |g|)
    && s' == State(s.pcs[i := NextPc(|g|, s.pcs[i])], s.boss,
                   NextSync(g, s.sync, i, s.pcs[i]),
                   if s.pcs[i] == WaitMtx then s.mtx - 1 else s.mtx,
                   if s.pcs[i] == Notify then s.ntfy + 1 else s.ntfy,
                   if s.pcs[i] == Advance then s.idx + 1 else s.idx,
                   if s.pcs[i] == Insert then s.T[s.idx := i] else s.T)
  }

  ghost predicate BossStep(g: Graph, s: State, s': State) {
    match s.boss
    case WaitNtfy => s.ntfy > 0 && s' == s.(boss := PostMtx, ntfy := s.ntfy - 1)
    case PostMtx => s' == s.(boss := Test, mtx := s.mtx + 1)
    case Test => s' == s.(boss := if s.idx == |g| then Finished else WaitNtfy)
    case Finished => false
  }

  ghost predicate Next(g: Graph, s: State, s': State) {
    Shaped(g, s) && (BossStep(g, s, s') || exists i: nat :: WorkerStep(g, s, i, s'))
  }

  // ---------- The invariant ----------

  predicate InCs(pc: Pc) {
    pc.Insert? || pc.Advance? || pc.Dec? || pc.Notify?
  }

  predicate Placed(pc: Pc) {
    pc.Dec? || pc.Notify? || pc.Exited?
  }

  // The worker has passed the edge to node j.
  predicate Passed(pc: Pc, j: nat) {
    (pc.Dec? && pc.j > j) || pc.Notify? || pc.Exited?
  }

  ghost predicate SomeoneIn(pcs: seq<Pc>) {
    exists i :: 0 <= i < |pcs| && InCs(pcs[i])
  }

  // One permission goes round: in ntfy, with the boss, in mtx, or with the one worker in its critical
  // section.
  ghost predicate TokenOk(pcs: seq<Pc>, boss: BossPc, mtx: nat, ntfy: nat) {
    && mtx + ntfy + (if boss == PostMtx then 1 else 0) + (if SomeoneIn(pcs) then 1 else 0) == 1
    && forall i, k :: 0 <= i < |pcs| && 0 <= k < |pcs| && InCs(pcs[i]) && InCs(pcs[k]) ==> i == k
  }

  function Waits(pcs: seq<Pc>, j: nat): (r: seq<bool>)
    ensures |r| == |pcs|
  {
    seq(|pcs|, i requires 0 <= i < |pcs| => !Passed(pcs[i], j))
  }

  // sync counts the predecessors that have not decremented it yet.
  ghost predicate SyncOk(g: Graph, pcs: seq<Pc>, sync: seq<int>) {
    |sync| == |pcs| && forall j: nat :: j < |sync| ==> sync[j] == Preds(g, Waits(pcs, j), j, |pcs|)
  }

  ghost predicate OrderOk(g: Graph, pcs: seq<Pc>) {
    forall i: nat, p: nat :: i < |pcs| && p < |pcs| && Edge(g, p, i) && pcs[i] != WaitZero ==> Passed(pcs[p], i)
  }

  // What has been placed is distinct, and every node comes after its predecessors.
  ghost predicate Sorted(g: Graph, t: seq<int>) {
    && (forall a :: 0 <= a < |t| ==> 0 <= t[a] < |g|)
    && (forall a, b :: 0 <= a < b < |t| ==> t[a] != t[b])
    && (forall b: nat, p: nat :: b < |t| && t[b] >= 0 && p < |g| && Edge(g, p, t[b]) ==> p in t[..b])
  }

  ghost predicate PlacesOk(g: Graph, pcs: seq<Pc>, idx: nat, T: seq<int>) {
    && idx <= |T| == |pcs| == |g| && Sorted(g, T[..idx])
    && (forall i: nat :: i < |pcs| ==> (i in T[..idx] <==> Placed(pcs[i])))
    && (forall i: nat :: i < |pcs| && pcs[i] == Advance ==> idx < |T| && T[idx] == i)
  }

  ghost predicate Inv(g: Graph, s: State) {
    && Shaped(g, s)
    && TokenOk(s.pcs, s.boss, s.mtx, s.ntfy)
    && SyncOk(g, s.pcs, s.sync)
    && OrderOk(g, s.pcs)
    && PlacesOk(g, s.pcs, s.idx, s.T)
    && (s.boss == Finished ==> s.idx == |g|)
    && (s.boss == WaitNtfy && s.mtx > 0 ==> s.idx < |g|)
  }

  // ---------- Counting predecessors ----------

  lemma {:induction false} PredsBound(g: Graph, waits: seq<bool>, j: nat, k: nat)
    requires k <= |waits|
    ensures Preds(g, waits, j, k) == 0 <==> forall p: nat :: p < k && Edge(g, p, j) ==> !waits[p]
  {
    if k > 0 { PredsBound(g, waits, j, k - 1); }
  }

  lemma {:induction false} PredsSet(g: Graph, waits: seq<bool>, j: nat, k: nat, p: nat)
    requires k <= |waits| && p < |waits| && waits[p]
    ensures Preds(g, waits[p := false], j, k) == Preds(g, waits, j, k) - if p < k && Edge(g, p, j) then 1 else 0
  {
    if k > 0 { PredsSet(g, waits, j, k - 1, p); }
  }

  // ---------- Every step keeps the invariant ----------

  lemma InitInv(g: Graph, s: State)
    requires Square(g) && Init(g, s)
    ensures Inv(g, s)
  {
    forall j: nat | j < |g| ensures Waits(s.pcs, j) == All(|g|) {}
  }

  lemma WorkerKeepsSync(g: Graph, pcs: seq<Pc>, sync: seq<int>, i: nat)
    requires i < |pcs| == |g| && SyncOk(g, pcs, sync) && (pcs[i].Dec? ==> pcs[i].j < |g|)
    ensures SyncOk(g, pcs[i := NextPc(|g|, pcs[i])], NextSync(g, sync, i, pcs[i]))
  {
    var pcs' := pcs[i := NextPc(|g|, pcs[i])];
    forall j: nat | j < |sync|
      ensures NextSync(g, sync, i, pcs[i])[j] == Preds(g, Waits(pcs', j), j, |pcs|)
    {
      if pcs[i].Dec? && pcs[i].j == j {
        assert Waits(pcs', j) == Waits(pcs, j)[i := false];
        PredsSet(g, Waits(pcs, j), j, |pcs|, i);
      } else {
        assert Waits(pcs', j) == Waits(pcs, j);
      }
    }
  }

  // A node whose semaphore is zero has been passed by all its predecessors.
  lemma WorkerKeepsOrder(g: Graph, pcs: seq<Pc>, sync: seq<int>, i: nat)
    requires i < |pcs| == |g| && SyncOk(g, pcs, sync) && OrderOk(g, pcs)
    requires pcs[i] == WaitZero ==> sync[i] == 0
    ensures OrderOk(g, pcs[i := NextPc(|g|, pcs[i])])
  {
    if pcs[i] == WaitZero { PredsBound(g, Waits(pcs, i), i, |pcs|); }
  }

  lemma WorkerKeepsToken(n: nat, pcs: seq<Pc>, boss: BossPc, mtx: nat, ntfy: nat, i: nat)
    requires i < |pcs| && TokenOk(pcs, boss, mtx, ntfy) && (pcs[i] == WaitMtx ==> mtx > 0)
    ensures TokenOk(pcs[i := NextPc(n, pcs[i])], boss,
                    if pcs[i] == WaitMtx then mtx - 1 else mtx, if pcs[i] == Notify then ntfy + 1 else ntfy)
  {
    var pcs' := pcs[i := NextPc(n, pcs[i])];
    if InCs(pcs'[i]) { assert SomeoneIn(pcs'); }
    if InCs(pcs[i]) { assert SomeoneIn(pcs); }
    if k :| 0 <= k < |pcs| && k != i && InCs(pcs[k]) {
      assert InCs(pcs'[k]);
    }
    if pcs[i] == Notify {
      forall k | 0 <= k < |pcs| ensures !InCs(pcs'[k]) {
        assert k != i && InCs(pcs[k]) ==> k == i;
      }
    }
  }

  // Of the numbers below n, a list without repetition that lacks one has fewer than n.
  function Below(n: nat): (r: set<int>)
    ensures forall x :: x in r <==> 0 <= x < n
    ensures |r| == n
  {
    if n == 0 then {} else Below(n - 1) + {n - 1}
  }

  lemma {:induction false} DistinctSize(t: seq<int>)
    requires forall a, b :: 0 <= a < b < |t| ==> t[a] != t[b]
    ensures |(set x | x in t)| == |t|
  {
    if t != [] {
      var n := |t| - 1;
      DistinctSize(t[..n]);
      assert (set x | x in t) == (set x | x in t[..n]) + {t[n]};
      assert t[n] !in t[..n];
    }
  }

  lemma RoomLeft(t: seq<int>, n: nat, i: nat)
    requires forall a :: 0 <= a < |t| ==> 0 <= t[a] < n
    requires forall a, b :: 0 <= a < b < |t| ==> t[a] != t[b]
    requires i < n && i !in t
    ensures |t| < n
  {
    DistinctSize(t);
    var s := set x | x in t;
    assert s <= Below(n) - {i};
    Smaller(s, Below(n) - {i});
  }

  lemma Smaller(s: set<int>, t: set<int>)
    requires s <= t
    ensures |s| <= |t|
  {
    assert t == s + (t - s);
  }

  // Nobody else is placing a node: T is extended by a node whose predecessors are all in it.
  lemma InsertKeepsPlaces(g: Graph, pcs: seq<Pc>, idx: nat, T: seq<int>, i: nat)
    requires i < |pcs| && pcs[i] == Insert && PlacesOk(g, pcs, idx, T)
    requires forall k :: 0 <= k < |pcs| && k != i ==> !InCs(pcs[k])
    ensures idx < |T| && PlacesOk(g, pcs[i := Advance], idx, T[idx := i])
  {
    RoomLeft(T[..idx], |g|, i);
    assert T[idx := i][..idx] == T[..idx];
  }

  lemma AdvanceKeepsPlaces(g: Graph, pcs: seq<Pc>, idx: nat, T: seq<int>, i: nat)
    requires i < |pcs| && pcs[i] == Advance && PlacesOk(g, pcs, idx, T) && OrderOk(g, pcs)
    requires forall k :: 0 <= k < |pcs| && k != i ==> !InCs(pcs[k])
    ensures PlacesOk(g, pcs[i := Dec(0)], idx + 1, T)
  {
    var t := T[..idx + 1];
    assert t == T[..idx] + [i];
    assert i !in T[..idx];
    forall b: nat, p: nat | b < |t| && p < |g| && Edge(g, p, t[b]) ensures p in t[..b] {
      if b == idx {
        assert Passed(pcs[p], i);
        assert t[..b] == T[..idx];
      } else {
        assert t[..b] == T[..idx][..b];
      }
    }
    forall k: nat | k < |pcs| ensures k in t <==> Placed(pcs[i := Dec(0)][k]) {
      assert k in T[..idx] <==> Placed(pcs[k]);
    }
  }

  lemma WorkerKeepsPlaces(g: Graph, s: State, i: nat, s': State)
    requires WorkerStep(g, s, i, s') && TokenOk(s.pcs, s.boss, s.mtx, s.ntfy) && OrderOk(g, s.pcs)
    requires PlacesOk(g, s.pcs, s.idx, s.T)
    ensures PlacesOk(g, s'.pcs, s'.idx, s'.T)
  {
    if s.pcs[i] == Insert {
      InsertKeepsPlaces(g, s.pcs, s.idx, s.T, i);
    } else if s.pcs[i] == Advance {
      AdvanceKeepsPlaces(g, s.pcs, s.idx, s.T, i);
    }
  }

  lemma WorkerKeeps(g: Graph, s: State, i: nat, s': State)
    requires Inv(g, s) && WorkerStep(g, s, i, s')
    ensures Inv(g, s')
  {
    WorkerKeepsSync(g, s.pcs, s.sync, i);
    WorkerKeepsOrder(g, s.pcs, s.sync, i);
    WorkerKeepsToken(|g|, s.pcs, s.boss, s.mtx, s.ntfy, i);
    WorkerKeepsPlaces(g, s, i, s');
  }

  lemma BossKeeps(g: Graph, s: State, s': State)
    requires Inv(g, s) && BossStep(g, s, s')
    ensures Inv(g, s')
  {}

  // ---------- What every interleaving guarantees ----------

  ghost predicate IsRun(g: Graph, run: seq<State>) {
    && Square(g) && run != [] && Init(g, run[0])
    && forall k :: 0 < k < |run| ==> Next(g, run[k - 1], run[k])
  }

  // The workers' operations to come weigh eight each, so that a notification pays for a round of the boss.
  function PcLeft(n: nat, pc: Pc): nat {
    match pc
    case WaitZero => n + 6
    case WaitMtx => n + 5
    case Insert => n + 4
    case Advance => n + 3
    case Dec(j) => if j <= n then n + 2 - j else 2
    case Notify => 1
    case Exited => 0
  }

  function Left(n: nat, pcs: seq<Pc>): (r: seq<nat>)
    ensures |r| == |pcs|
  {
    seq(|pcs|, i requires 0 <= i < |pcs| => PcLeft(n, pcs[i]))
  }

  function BossLeft(boss: BossPc): nat {
    match boss
    case WaitNtfy => 0 case PostMtx => 3 case Test => 1 case Finished => 0
  }

  function Rank(g: Graph, s: State): nat {
    8 * Total(Left(|g|, s.pcs)) + 4 * s.ntfy + BossLeft(s.boss) + s.mtx
  }

  lemma StepLowers(g: Graph, s: State, s': State)
    requires Next(g, s, s')
    ensures Rank(g, s') < Rank(g, s)
  {
    if !BossStep(g, s, s') {
      var i: nat :| WorkerStep(g, s, i, s');
      var left := PcLeft(|g|, s'.pcs[i]);
      assert Left(|g|, s'.pcs) == Left(|g|, s.pcs)[i := left];
      TotalUpdate(Left(|g|, s.pcs), i, left);
    }
  }

  lemma {:induction false} RunInv(g: Graph, run: seq<State>)
    requires IsRun(g, run)
    ensures Inv(g, run[|run| - 1]) && Rank(g, run[|run| - 1]) + |run| - 1 <= Rank(g, run[0])
  {
    var n := |run| - 1;
    if n == 0 {
      InitInv(g, run[0]);
    } else {
      assert IsRun(g, run[..n]) && run[..n][n - 1] == run[n - 1];
      RunInv(g, run[..n]);
      StepLowers(g, run[n - 1], run[n]);
      if BossStep(g, run[n - 1], run[n]) {
        BossKeeps(g, run[n - 1], run[n]);
      } else {
        var i: nat :| WorkerStep(g, run[n - 1], i, run[n]);
        WorkerKeeps(g, run[n - 1], i, run[n]);
      }
    }
  }

  // At most one worker is in its critical section, its insertion stays within T, and no decrement
  // ever blocks.
  lemma CriticalSection(g: Graph, run: seq<State>, i: nat, k: nat)
    requires IsRun(g, run) && i < |g| && k < |g|
    ensures var s := run[|run| - 1];
            && Shaped(g, s)
            && (InCs(s.pcs[i]) && InCs(s.pcs[k]) ==> i == k)
            && (s.pcs[i] == Insert ==> s.idx < |g|)
            && (s.pcs[i].Dec? && Edge(g, i, s.pcs[i].j) ==> s.sync[s.pcs[i].j] > 0)
  {
    var s := run[|run| - 1];
    RunInv(g, run);
    if s.pcs[i] == Insert { RoomLeft(s.T[..s.idx], |g|, i); }
    if s.pcs[i].Dec? { PredsBound(g, Waits(s.pcs, s.pcs[i].j), s.pcs[i].j, |g|); }
  }

  // sync[j] is the number of the predecessors of j that have not decremented it, in every state.
  lemma SyncCounts(g: Graph, run: seq<State>, j: nat)
    requires IsRun(g, run) && j < |g|
    ensures var s := run[|run| - 1];
            |s.sync| == |g| == |s.pcs| && s.sync[j] == Preds(g, Waits(s.pcs, j), j, |g|)
  {
    RunInv(g, run);
  }

  // A topological order of all the nodes.
  ghost predicate Topological(g: Graph, t: seq<int>) {
    |t| == |g| && Sorted(g, t)
  }

  // Whatever the interleaving, the boss stops only with a topological order in T.
  lemma BossHasAnOrder(g: Graph, run: seq<State>)
    requires IsRun(g, run) && run[|run| - 1].boss == Finished
    ensures Topological(g, run[|run| - 1].T)
  {
    RunInv(g, run);
    assert run[|run| - 1].T[..|g|] == run[|run| - 1].T;
  }

  // The boss may remove the semaphores as soon as it has stopped: no decrement is left to do.
  lemma NothingLeftToDecrement(g: Graph, run: seq<State>, i: nat, j: nat)
    requires IsRun(g, run) && run[|run| - 1].boss == Finished && i < |g| && j < |g| && Edge(g, i, j)
    ensures var s := run[|run| - 1]; |s.pcs| == |g| && Passed(s.pcs[i], j)
  {
    var s := run[|run| - 1];
    RunInv(g, run);
    Covers(g, s.T[..s.idx], j);
  }

  // ---------- Cycles ----------

  // A sequence of nodes, each with an edge to the next.
  ghost predicate IsWalk(g: Graph, w: seq<nat>) {
    forall a {:trigger w[a]} :: 0 <= a < |w| - 1 ==> Edge(g, w[a], w[a + 1])
  }

  ghost predicate IsCycle(g: Graph, w: seq<nat>) {
    IsWalk(g, w) && |w| >= 2 && w[0] == w[|w| - 1]
  }

  ghost predicate Acyclic(g: Graph) {
    forall w :: !IsCycle(g, w)
  }

  ghost predicate HasOrder(g: Graph) {
    exists t :: Topological(g, t)
  }

  function PlaceOf(t: seq<int>, x: int): (k: nat)
    requires x in t
    ensures k < |t| && t[k] == x
  {
    if t[0] == x then 0 else 1 + PlaceOf(t[1..], x)
  }

  // Along an edge the place in an order grows.
  lemma EdgeClimbs(g: Graph, t: seq<int>, p: nat, i: nat)
    requires Square(g) && Topological(g, t) && Edge(g, p, i)
    ensures p in t && i in t && PlaceOf(t, p) < PlaceOf(t, i)
  {
    Covers(g, t, p);
    Covers(g, t, i);
    var b := PlaceOf(t, i);
    assert p in t[..b];
    var a :| 0 <= a < b && t[a] == p;
    assert t[PlaceOf(t, p)] == t[a];
  }

  lemma {:induction false} WalkClimbs(g: Graph, t: seq<int>, w: seq<nat>)
    requires Square(g) && Topological(g, t) && IsWalk(g, w) && |w| >= 2
    ensures w[0] in t && w[|w| - 1] in t && PlaceOf(t, w[0]) < PlaceOf(t, w[|w| - 1])
  {
    var n := |w| - 1;
    EdgeClimbs(g, t, w[n - 1], w[n]);
    if n > 1 {
      WalkClimbs(g, t, w[..n]);
    }
  }

  // A node that is not placed, while all its predecessors are.
  ghost predicate IsFree(g: Graph, t: seq<int>, i: nat) {
    i < |g| && i !in t && forall p: nat :: p < |g| && Edge(g, p, i) ==> p in t
  }

  // Without such a node one can walk backwards for ever.
  lemma {:induction false} BackwardWalk(g: Graph, t: seq<int>, i: nat, n: nat) returns (w: seq<nat>)
    requires i < |g| && i !in t && forall j: nat :: j < |g| && j !in t ==> !IsFree(g, t, j)
    ensures |w| == n + 1 && IsWalk(g, w) && w[n] == i && forall x :: x in w ==> x < |g|
    decreases n
  {
    if n == 0 {
      w := [i];
    } else {
      assert !IsFree(g, t, i);
      var p: nat :| p < |g| && Edge(g, p, i) && p !in t;
      var before := BackwardWalk(g, t, p, n - 1);
      w := before + [i];
    }
  }

  // Among more than n numbers below n one comes twice.
  lemma Repeats(w: seq<nat>, n: nat) returns (a: nat, b: nat)
    requires |w| > n && forall x :: x in w ==> x < n
    ensures a < b < |w| && w[a] == w[b]
  {
    if forall c, d :: 0 <= c < d < |w| ==> w[c] != w[d] {
      DistinctSize(w);
      Smaller((set x | x in w), Below(n));
    }
    a, b :| 0 <= a < b < |w| && w[a] == w[b];
  }

  lemma CycleInWalk(g: Graph, w: seq<nat>, a: nat, b: nat)
    requires IsWalk(g, w) && a < b < |w| && w[a] == w[b]
    ensures IsCycle(g, w[a..b + 1])
  {
    var c := w[a..b + 1];
    forall k {:trigger c[k]} | 0 <= k < |c| - 1 ensures Edge(g, c[k], c[k + 1]) {
      assert w[a + k] == c[k];
    }
  }

  lemma Unplaced(t: seq<int>, n: nat) returns (i: nat)
    requires |t| < n
    ensures i < n && i !in t
  {
    if forall j: nat :: j < n ==> j in t { RoomLeftNone(t, n); }
    i :| i < n && i !in t;
  }

  lemma NobodyFree(g: Graph, t: seq<int>, i: nat)
    requires i < |g| && i !in t && forall j: nat :: j < |g| && j !in t ==> !IsFree(g, t, j)
    ensures !Acyclic(g)
  {
    var w := BackwardWalk(g, t, i, |g|);
    var a, b := Repeats(w, |g|);
    CycleInWalk(g, w, a, b);
  }

  lemma FreeNode(g: Graph, t: seq<int>) returns (i: nat)
    requires Acyclic(g) && |t| < |g|
    ensures IsFree(g, t, i)
  {
    var last := Unplaced(t, |g|);
    if forall j: nat :: j < |g| && j !in t ==> !IsFree(g, t, j) { NobodyFree(g, t, last); }
    i :| i < |g| && i !in t && IsFree(g, t, i);
  }

  lemma AppendSorted(g: Graph, done: seq<int>, i: nat)
    requires Sorted(g, done) && IsFree(g, done, i)
    ensures Sorted(g, done + [i])
  {
    var t := done + [i];
    forall b: nat, p: nat | b < |t| && p < |g| && Edge(g, p, t[b]) ensures p in t[..b] {
      assert t[..b] == done[..b];
    }
  }

  lemma {:induction false} OrderFrom(g: Graph, t: seq<int>) returns (r: seq<int>)
    requires Acyclic(g) && Sorted(g, t) && |t| <= |g|
    ensures Topological(g, r)
    decreases |g| - |t|
  {
    r := t;
    if |t| < |g| {
      var i := FreeNode(g, t);
      AppendSorted(g, t, i);
      r := OrderFrom(g, t + [i]);
    }
  }

  // A graph without cycles is one that has a topological order.
  lemma AcyclicHasOrder(g: Graph)
    requires Square(g)
    ensures Acyclic(g) <==> HasOrder(g)
  {
    if Acyclic(g) {
      var t := OrderFrom(g, []);
    } else {
      var w :| IsCycle(g, w);
      forall t | Topological(g, t) ensures false {
        WalkClimbs(g, t, w);
      }
    }
  }

  // ---------- Progress ----------

  ghost predicate Stuck(g: Graph, s: State) {
    forall s' :: !Next(g, s, s')
  }

  lemma MoveExists(g: Graph, s: State, i: nat)
    requires Inv(g, s) && i < |g| && CanMove(g, s, i)
    ensures !Stuck(g, s)
  {
    if s.pcs[i] == Insert { RoomLeft(s.T[..s.idx], |g|, i); }
    var s' := State(s.pcs[i := NextPc(|g|, s.pcs[i])], s.boss, NextSync(g, s.sync, i, s.pcs[i]),
                    if s.pcs[i] == WaitMtx then s.mtx - 1 else s.mtx,
                    if s.pcs[i] == Notify then s.ntfy + 1 else s.ntfy,
                    if s.pcs[i] == Advance then s.idx + 1 else s.idx,
                    if s.pcs[i] == Insert then s.T[s.idx := i] else s.T);
    assert WorkerStep(g, s, i, s');
    assert Next(g, s, s');
  }

  lemma BossMoves(g: Graph, s: State)
    requires Inv(g, s) && s.boss != Finished && (s.boss == WaitNtfy ==> s.ntfy > 0)
    ensures !Stuck(g, s)
  {
    var s' := if s.boss == WaitNtfy then s.(boss := PostMtx, ntfy := s.ntfy - 1)
              else if s.boss == PostMtx then s.(boss := Test, mtx := s.mtx + 1)
              else s.(boss := if s.idx == |g| then Finished else WaitNtfy);
    assert BossStep(g, s, s');
    assert Next(g, s, s');
  }

  // When nothing moves, every worker waits for its semaphore or has ended.
  lemma StuckWorkers(g: Graph, s: State, i: nat)
    requires Inv(g, s) && Stuck(g, s) && i < |g|
    ensures s.pcs[i] == Exited || (s.boss == WaitNtfy && s.pcs[i] == WaitZero && s.sync[i] != 0) || s.boss == Finished
  {
    if CanMove(g, s, i) { MoveExists(g, s, i); }
    if s.boss in {PostMtx, Test} || (s.boss == WaitNtfy && s.ntfy > 0) { BossMoves(g, s); }
    if s.pcs[i].Dec? { PredsBound(g, Waits(s.pcs, s.pcs[i].j), s.pcs[i].j, |g|); }
    if SomeoneIn(s.pcs) {
      var k: nat :| k < |s.pcs| && InCs(s.pcs[k]);
      if s.pcs[k].Dec? { PredsBound(g, Waits(s.pcs, s.pcs[k].j), s.pcs[k].j, |g|); }
      MoveExists(g, s, k);
    }
  }

  // Position of a node in an order of all nodes.
  lemma {:induction false} Covers(g: Graph, t: seq<int>, i: nat)
    requires Topological(g, t) && i < |g|
    ensures i in t
  {
    if i !in t { RoomLeft(t, |g|, i); }
  }

  // Walking along an order of the graph, no node can be the first that still waits.
  lemma {:induction false} NobodyWaits(g: Graph, s: State, t: seq<int>, k: nat)
    requires Inv(g, s) && Stuck(g, s) && s.boss != Finished && Topological(g, t) && k < |t|
    ensures s.pcs[t[k]] == Exited
    decreases k
  {
    var i: nat := t[k];
    StuckWorkers(g, s, i);
    if s.pcs[i] != Exited {
      PredsBound(g, Waits(s.pcs, i), i, |g|);
      var p: nat :| p < |g| && Edge(g, p, i) && !Passed(s.pcs[p], i);
      assert p in t[..k];
      var a :| 0 <= a < k && t[a] == p;
      NobodyWaits(g, s, t, a);
    }
  }

  // Every run is finite. One that cannot go on has the boss finished exactly when the graph has no cycle.
  lemma EveryRunEnds(g: Graph, run: seq<State>)
    requires IsRun(g, run)
    ensures |run| - 1 <= 8 * (|g| * (|g| + 6)) + 4
    ensures Stuck(g, run[|run| - 1]) ==> (run[|run| - 1].boss == Finished <==> Acyclic(g))
  {
    var s := run[|run| - 1];
    RunInv(g, run);
    TotalBound(Left(|g|, run[0].pcs), |g| + 6);
    AcyclicHasOrder(g);
    if Stuck(g, s) && s.boss == Finished {
      BossHasAnOrder(g, run);
    }
    if Stuck(g, s) && Acyclic(g) && s.boss != Finished {
      var t :| Topological(g, t);
      forall i: nat | i < |g| ensures i in s.T[..s.idx] {
        Covers(g, t, i);
        var k :| 0 <= k < |t| && t[k] == i;
        NobodyWaits(g, s, t, k);
      }
      StuckBoss(g, s);
    }
  }

  // With all nodes placed, the boss is not left waiting.
  lemma StuckBoss(g: Graph, s: State)
    requires Inv(g, s) && Stuck(g, s)
    requires forall i: nat :: i < |g| ==> i in s.T[..s.idx]
    ensures s.boss == Finished
  {
    RoomLeftNone(s.T[..s.idx], |g|);
    if s.boss in {PostMtx, Test} || (s.boss == WaitNtfy && s.ntfy > 0) { BossMoves(g, s); }
    forall k: nat | k < |g| ensures s.boss == Finished || !InCs(s.pcs[k]) {
      StuckWorkers(g, s, k);
    }
  }

  lemma RoomLeftNone(t: seq<int>, n: nat)
    requires forall i: nat :: i < n ==> i in t
    ensures |t| >= n
  {
    assert Below(n) <= set x | x in t;
    Smaller(Below(n), set x | x in t);
    SetSize(t);
  }

  lemma {:induction false} SetSize(t: seq<int>)
    ensures |(set x | x in t)| <= |t|
  {
    if t != [] {
      var n := |t| - 1;
      SetSize(t[..n]);
      assert (set x | x in t) == (set x | x in t[..n]) + {t[n]};
    }
  }
}
