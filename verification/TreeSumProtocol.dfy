// The threads of the tree sum as a step machine: one thread per node, the main thread, a mutex per
// partial sum, the print mutex, a barrier per node and the barrier on which the main thread waits.
// A barrier is a counter here: a wait arrives, and returns once all participants have arrived.
// TreeSumBarriers shows that this is what the barrier's specification allows, and TreeSumComposed puts
// the library's barrier in its place.
module TreeSumProtocol {
  import opened Sums
  import opened TreeSums

  datatype Option<T> = None | Some(value: T)

  // The next operation of a node's thread.
  datatype Pc =
    | Unborn
    | AtOwn         // arrive at the own barrier
    | InOwn         // return from it
    | LockExec
    | LockOwn
    | UseOwn        // a leaf stores its value, an inner node reports its sum
    | UnlockOwn
    | UnlockExec
    | LockParent
    | AddUp         // read both sums
    | Store         // write the parent's sum
    | UnlockParent
    | TakeTotal     // the root only
    | Report        // arrive at the parent's barrier, the root at the main thread's
    | InReport      // return from it
    | Finished

  datatype MainPc = Creating(next: nat) | Arrive | Wait | Show | End

  datatype State = State(pcs: seq<Pc>, main: MainPc, exec: Option<nat>, own: seq<Option<nat>>,
                         arrived: seq<nat>, done: nat,
                         sum: seq<int>, tmp: seq<int>, total: int,
                         shown: seq<Option<int>>, printed: Option<int>)

  function Init(c: Config): State {
    State(seq(c.N(), _ => Unborn), Creating(0), None, seq(c.N(), _ => None), seq(c.N(), _ => 0), 0,
          seq(c.N(), _ => 0), seq(c.N(), _ => 0), 0, seq(c.N(), _ => None), None)
  }

  predicate Shaped(c: Config, s: State) {
    && |s.pcs| == |s.own| == |s.arrived| == |s.sum| == |s.tmp| == |s.shown| == c.N()
    && (s.main.Creating? ==> s.main.next <= c.N())
  }

  // What one operation of node t's thread, at pc, changes in each part of the state.
  function NextPc(root: bool, pc: Pc): Pc {
    match pc
    case Unborn => Unborn
    case AtOwn => InOwn
    case InOwn => LockExec
    case LockExec => LockOwn
    case LockOwn => UseOwn
    case UseOwn => UnlockOwn
    case UnlockOwn => UnlockExec
    case UnlockExec => LockParent
    case LockParent => if root then UnlockParent else AddUp
    case AddUp => Store
    case Store => UnlockParent
    case UnlockParent => if root then TakeTotal else Report
    case TakeTotal => Report
    case Report => InReport
    case InReport => Finished
    case Finished => Finished
  }

  function NextExec(exec: Option<nat>, pc: Pc, t: nat): Option<nat> {
    if pc == LockExec then Some(t) else if pc == UnlockExec then None else exec
  }

  function NextOwn(own: seq<Option<nat>>, pc: Pc, t: nat, par: nat): (own': seq<Option<nat>>)
    requires t < |own| && par < |own|
    ensures |own'| == |own|
  {
    if pc == LockOwn then own[t := Some(t)]
    else if pc == UnlockOwn then own[t := None]
    else if pc == LockParent then own[par := Some(t)]
    else if pc == UnlockParent then own[par := None]
    else own
  }

  function NextArrived(root: bool, arrived: seq<nat>, pc: Pc, t: nat, par: nat): (arrived': seq<nat>)
    requires t < |arrived| && par < |arrived|
    ensures |arrived'| == |arrived|
  {
    if pc == AtOwn then arrived[t := arrived[t] + 1]
    else if pc == Report && !root then arrived[par := arrived[par] + 1]
    else arrived
  }

  function NextSum(leaf: bool, value: int, sum: seq<int>, tmp: int, pc: Pc, t: nat, par: nat): (sum': seq<int>)
    requires t < |sum| && par < |sum|
    ensures |sum'| == |sum|
  {
    if pc == UseOwn && leaf then sum[t := value]
    else if pc == Store then sum[par := tmp]
    else sum
  }

  // The operation at the thread's pc does not block.
  predicate CanMove(c: Config, s: State, t: nat)
    requires c.Valid() && Shaped(c, s) && t < c.N()
  {
    match s.pcs[t]
    case Unborn => false
    case InOwn => s.arrived[t] == c.NumChild(t, c.N()) + 1
    case LockExec => s.exec.None?
    case LockOwn => s.own[t].None?
    case LockParent => s.own[c.parent[t]].None?
    case InReport => if t == c.root then s.done == 2 else s.arrived[c.parent[t]] == c.NumChild(c.parent[t], c.N()) + 1
    case Finished => false
    case _ => true
  }

  // One operation of node t's thread.
  function Moved(c: Config, s: State, t: nat): State
    requires c.Valid() && Shaped(c, s) && t < c.N()
  {
    var pc, par := s.pcs[t], c.parent[t];
    State(s.pcs[t := NextPc(t == c.root, pc)], s.main,
          NextExec(s.exec, pc, t),
          NextOwn(s.own, pc, t, par),
          NextArrived(t == c.root, s.arrived, pc, t, par),
          if pc == Report && t == c.root then s.done + 1 else s.done,
          NextSum(c.Leaf(t), c.value[t], s.sum, s.tmp[t], pc, t, par),
          if pc == AddUp then s.tmp[t := s.sum[par] + s.sum[t]] else s.tmp,
          if pc == TakeTotal then s.sum[t] else s.total,
          if pc == UseOwn && !c.Leaf(t) then s.shown[t := Some(s.sum[t])] else s.shown,
          s.printed)
  }

  ghost predicate NodeStep(c: Config, s: State, t: nat, s': State)
    requires c.Valid() && Shaped(c, s) && t < c.N()
  {
    CanMove(c, s, t) && s' == Moved(c, s, t)
  }

  // One operation of the main thread.
  ghost predicate MainStep(c: Config, s: State, s': State)
    requires c.Valid() && Shaped(c, s)
  {
    match s.main
    case Creating(k) => s' == if k < c.N() then s.(pcs := s.pcs[k := AtOwn], main := Creating(k + 1))
                              else s.(main := Arrive)
    case Arrive => s' == s.(main := Wait, done := s.done + 1)
    case Wait => s.done == 2 && s' == s.(main := Show)
    case Show => s' == s.(main := End, printed := Some(s.total))
    case End => false
  }

  ghost predicate Next(c: Config, s: State, s': State) {
    c.Valid() && Shaped(c, s) && (MainStep(c, s, s') || exists t: nat :: t < c.N() && NodeStep(c, s, t, s'))
  }

  function Position(pc: Pc): nat {
    match pc
    case Unborn => 0 case AtOwn => 1 case InOwn => 2 case LockExec => 3 case LockOwn => 4 case UseOwn => 5
    case UnlockOwn => 6 case UnlockExec => 7 case LockParent => 8 case AddUp => 9 case Store => 10
    case UnlockParent => 11 case TakeTotal => 12 case Report => 13 case InReport => 14 case Finished => 15
  }

  // ---------- The invariant ----------

  const IN_EXEC := {LockOwn, UseOwn, UnlockOwn, UnlockExec}
  const IN_OWN := {UseOwn, UnlockOwn}
  const IN_PARENT := {AddUp, Store, UnlockParent}

  // Thread t holds the mutex of node b's sum.
  predicate Holds(c: Config, pc: Pc, t: nat, b: nat) {
    t < |c.parent| && ((t == b && pc in IN_OWN) || (c.parent[t] == b && pc in IN_PARENT))
  }

  ghost predicate ExecOk(pcs: seq<Pc>, exec: Option<nat>) {
    && (forall t: nat :: t < |pcs| ==> (exec == Some(t) <==> pcs[t] in IN_EXEC))
    && (exec.Some? ==> exec.value < |pcs|)
  }

  ghost predicate OwnOk(c: Config, pcs: seq<Pc>, own: seq<Option<nat>>)
    requires |pcs| == |own| == c.N()
  {
    && (forall b: nat, t: nat :: b < c.N() && t < c.N() ==> (own[b] == Some(t) <==> Holds(c, pcs[t], t, b)))
    && (forall b: nat :: b < c.N() && own[b].Some? ==> own[b].value < c.N())
  }

  // The children of b before k that have arrived at its barrier.
  function Arrivals(c: Config, pcs: seq<Pc>, b: nat, k: nat): nat
    requires k <= c.N() == |pcs|
  {
    if k == 0 then 0
    else Arrivals(c, pcs, b, k - 1) + if c.Child(k - 1, b) && Position(pcs[k - 1]) >= 14 then 1 else 0
  }

  ghost predicate ArrivalsOk(c: Config, pcs: seq<Pc>, arrived: seq<nat>)
    requires |pcs| == |arrived| == c.N()
  {
    forall b: nat :: b < c.N() ==> arrived[b] == Arrivals(c, pcs, b, c.N()) + if Position(pcs[b]) >= 2 then 1 else 0
  }

  // A thread beyond its own barrier has all its children beyond their reports.
  ghost predicate OrderOk(c: Config, pcs: seq<Pc>)
    requires |pcs| == c.N()
  {
    && (forall t: nat, i: nat :: c.Child(t, i) && i < c.N() && Position(pcs[i]) >= 3 ==> Position(pcs[t]) >= 14)
    && (forall t: nat :: t < c.N() ==> if t == c.root then pcs[t] !in {AddUp, Store} else pcs[t] != TakeTotal)
  }

  // The main thread starts the others and meets the root at its barrier.
  ghost predicate MainOk(c: Config, pcs: seq<Pc>, main: MainPc, done: nat)
    requires c.Valid() && |pcs| == c.N()
  {
    && (forall t: nat :: t < c.N() ==> (pcs[t] == Unborn <==> main.Creating? && t >= main.next))
    && done == (if Position(pcs[c.root]) >= 14 then 1 else 0) + (if main in {Wait, Show, End} then 1 else 0)
    && (main in {Show, End} ==> Position(pcs[c.root]) >= 14)
  }

  // Which threads have added their sums to their parents'.
  function Added(pcs: seq<Pc>): (added: seq<bool>)
    ensures |added| == |pcs|
  {
    seq(|pcs|, t requires 0 <= t < |pcs| => Position(pcs[t]) >= 11)
  }

  function Expected(c: Config, pcs: seq<Pc>, i: nat): int
    requires c.Valid() && |pcs| == c.N() && i < c.N()
  {
    if c.Leaf(i) then (if Position(pcs[i]) >= 6 then c.value[i] else 0) else c.Gathered(Added(pcs), i, c.N())
  }

  ghost predicate SumsOk(c: Config, pcs: seq<Pc>, sum: seq<int>)
    requires c.Valid() && |pcs| == |sum| == c.N()
  {
    forall i: nat :: i < c.N() ==> sum[i] == Expected(c, pcs, i)
  }

  ghost predicate ReadOk(c: Config, pcs: seq<Pc>, tmp: seq<int>, sum: seq<int>)
    requires c.Valid() && |pcs| == |tmp| == |sum| == c.N()
  {
    forall t: nat :: t < c.N() && pcs[t] == Store ==> tmp[t] == sum[c.parent[t]] + c.LeafSum(t)
  }

  // What has been reported so far is right.
  ghost predicate ShownOk(c: Config, pcs: seq<Pc>, shown: seq<Option<int>>)
    requires c.Valid() && |pcs| == |shown| == c.N()
  {
    forall i: nat :: i < c.N() ==>
      shown[i] == if !c.Leaf(i) && Position(pcs[i]) >= 6 then Some(c.LeafSum(i)) else None
  }

  ghost predicate TotalOk(c: Config, pcs: seq<Pc>, main: MainPc, total: int, printed: Option<int>)
    requires c.Valid() && |pcs| == c.N()
  {
    && (Position(pcs[c.root]) >= 13 ==> total == c.LeafSum(c.root))
    && printed == if main == End then Some(c.LeafSum(c.root)) else None
  }

  ghost predicate Inv(c: Config, s: State) {
    && c.Valid() && Shaped(c, s)
    && ExecOk(s.pcs, s.exec) && OwnOk(c, s.pcs, s.own)
    && ArrivalsOk(c, s.pcs, s.arrived)
    && OrderOk(c, s.pcs)
    && MainOk(c, s.pcs, s.main, s.done)
    && SumsOk(c, s.pcs, s.sum)
    && ReadOk(c, s.pcs, s.tmp, s.sum)
    && ShownOk(c, s.pcs, s.shown)
    && TotalOk(c, s.pcs, s.main, s.total, s.printed)
  }

  // ---------- Counting arrivals and contributions ----------

  lemma {:induction false} ArrivalsSet(c: Config, pcs: seq<Pc>, t: nat, pc: Pc, b: nat, k: nat)
    requires k <= c.N() == |pcs| && t < c.N()
    ensures Arrivals(c, pcs[t := pc], b, k) == Arrivals(c, pcs, b, k)
              + (if t < k && c.Child(t, b) && Position(pc) >= 14 then 1 else 0)
              - (if t < k && c.Child(t, b) && Position(pcs[t]) >= 14 then 1 else 0)
  {
    if k > 0 { ArrivalsSet(c, pcs, t, pc, b, k - 1); }
  }

  lemma {:induction false} ArrivalsFull(c: Config, pcs: seq<Pc>, b: nat, k: nat)
    requires k <= c.N() == |pcs|
    ensures Arrivals(c, pcs, b, k) <= c.NumChild(b, k)
    ensures Arrivals(c, pcs, b, k) == c.NumChild(b, k) <==>
            forall t: nat :: t < k && c.Child(t, b) ==> Position(pcs[t]) >= 14
  {
    if k > 0 { ArrivalsFull(c, pcs, b, k - 1); }
  }

  lemma {:induction false} GatheredSet(c: Config, added: seq<bool>, t: nat, i: nat, k: nat)
    requires c.Valid() && k <= c.N() == |added| && t < c.N() && !added[t]
    ensures c.Gathered(added[t := true], i, k) ==
            c.Gathered(added, i, k) + if t < k && c.Child(t, i) then c.LeafSum(t) else 0
  {
    if k > 0 { GatheredSet(c, added, t, i, k - 1); }
  }

  lemma {:induction false} NothingGathered(c: Config, added: seq<bool>, i: nat, k: nat)
    requires c.Valid() && k <= c.N() == |added|
    requires forall t :: 0 <= t < k ==> !added[t]
    ensures c.Gathered(added, i, k) == 0
  {
    if k > 0 { NothingGathered(c, added, i, k - 1); }
  }

  // Beyond its barrier and, for a leaf, its store, a node's sum is its leaf sum.
  lemma SumComplete(c: Config, pcs: seq<Pc>, sum: seq<int>, i: nat)
    requires c.Valid() && |pcs| == |sum| == c.N() && OrderOk(c, pcs) && SumsOk(c, pcs, sum)
    requires i < c.N() && Position(pcs[i]) >= if c.Leaf(i) then 6 else 3
    ensures sum[i] == c.LeafSum(i)
  {
    if c.Leaf(i) {
      LeafSumOfLeaf(c, i, c.N());
    } else {
      InnerSum(c, Added(pcs), i);
    }
  }

  // ---------- Every operation of a node's thread keeps the invariant ----------

  lemma ExecKept(root: bool, pcs: seq<Pc>, exec: Option<nat>, t: nat)
    requires t < |pcs| && ExecOk(pcs, exec) && (pcs[t] == LockExec ==> exec.None?)
    ensures ExecOk(pcs[t := NextPc(root, pcs[t])], NextExec(exec, pcs[t], t))
  {}

  lemma OwnKept(c: Config, pcs: seq<Pc>, own: seq<Option<nat>>, t: nat)
    requires c.Valid() && |pcs| == |own| == c.N() && t < c.N() && OwnOk(c, pcs, own)
    requires pcs[t] == LockOwn ==> own[t].None?
    requires pcs[t] == LockParent ==> own[c.parent[t]].None?
    ensures OwnOk(c, pcs[t := NextPc(t == c.root, pcs[t])], NextOwn(own, pcs[t], t, c.parent[t]))
  {
    var pcs', own' := pcs[t := NextPc(t == c.root, pcs[t])], NextOwn(own, pcs[t], t, c.parent[t]);
    forall b: nat, u: nat | b < c.N() && u < c.N() ensures own'[b] == Some(u) <==> Holds(c, pcs'[u], u, b) {
      assert own[b] == Some(u) <==> Holds(c, pcs[u], u, b);
      assert own[b] == Some(t) <==> Holds(c, pcs[t], t, b);
    }
  }

  lemma ArrivalsKept(c: Config, pcs: seq<Pc>, arrived: seq<nat>, t: nat)
    requires c.Valid() && |pcs| == |arrived| == c.N() && t < c.N() && ArrivalsOk(c, pcs, arrived)
    ensures ArrivalsOk(c, pcs[t := NextPc(t == c.root, pcs[t])],
                       NextArrived(t == c.root, arrived, pcs[t], t, c.parent[t]))
  {
    var pc := NextPc(t == c.root, pcs[t]);
    var arrived' := NextArrived(t == c.root, arrived, pcs[t], t, c.parent[t]);
    forall b: nat | b < c.N()
      ensures arrived'[b] == Arrivals(c, pcs[t := pc], b, c.N()) + if Position(pcs[t := pc][b]) >= 2 then 1 else 0
    {
      ArrivalsSet(c, pcs, t, pc, b, c.N());
    }
  }

  lemma OrderKept(c: Config, pcs: seq<Pc>, arrived: seq<nat>, t: nat)
    requires c.Valid() && |pcs| == |arrived| == c.N() && t < c.N() && OrderOk(c, pcs) && ArrivalsOk(c, pcs, arrived)
    requires pcs[t] == InOwn ==> arrived[t] == c.NumChild(t, c.N()) + 1
    ensures OrderOk(c, pcs[t := NextPc(t == c.root, pcs[t])])
  {
    if pcs[t] == InOwn { ArrivalsFull(c, pcs, t, c.N()); }
  }

  lemma MainKept(c: Config, pcs: seq<Pc>, main: MainPc, done: nat, t: nat)
    requires c.Valid() && |pcs| == c.N() && t < c.N() && MainOk(c, pcs, main, done)
    ensures MainOk(c, pcs[t := NextPc(t == c.root, pcs[t])], main,
                   if pcs[t] == Report && t == c.root then done + 1 else done)
  {}

  lemma SumsKept(c: Config, pcs: seq<Pc>, sum: seq<int>, tmp: int, t: nat)
    requires c.Valid() && |pcs| == |sum| == c.N() && t < c.N() && SumsOk(c, pcs, sum)
    requires t == c.root ==> pcs[t] !in {AddUp, Store}
    requires pcs[t] == Store ==> tmp == sum[c.parent[t]] + c.LeafSum(t)
    ensures SumsOk(c, pcs[t := NextPc(t == c.root, pcs[t])],
                   NextSum(c.Leaf(t), c.value[t], sum, tmp, pcs[t], t, c.parent[t]))
  {
    var pcs' := pcs[t := NextPc(t == c.root, pcs[t])];
    var sum' := NextSum(c.Leaf(t), c.value[t], sum, tmp, pcs[t], t, c.parent[t]);
    var adds := Position(pcs[t]) < 11 <= Position(pcs'[t]);
    assert Added(pcs') == if adds then Added(pcs)[t := true] else Added(pcs);
    forall i: nat | i < c.N() ensures sum'[i] == Expected(c, pcs', i) {
      if adds { GatheredSet(c, Added(pcs), t, i, c.N()); }
      if c.Leaf(i) { NoChildren(c, i, c.N(), t); }
    }
  }

  // No sum that a thread has read changes before it has stored its result.
  lemma ReadIsStable(c: Config, pcs: seq<Pc>, own: seq<Option<nat>>, sum: seq<int>, tmp: int, t: nat, u: nat)
    requires c.Valid() && |pcs| == |own| == |sum| == c.N() && t < c.N() && u < c.N() && u != t && pcs[u] == Store
    requires OwnOk(c, pcs, own)
    ensures NextSum(c.Leaf(t), c.value[t], sum, tmp, pcs[t], t, c.parent[t])[c.parent[u]] == sum[c.parent[u]]
  {
    assert Holds(c, pcs[u], u, c.parent[u]);
    assert own[c.parent[u]] == Some(u);
    if pcs[t] == Store { assert own[c.parent[t]] == Some(t) by { assert Holds(c, pcs[t], t, c.parent[t]); } }
    if pcs[t] == UseOwn { assert own[t] == Some(t) by { assert Holds(c, pcs[t], t, t); } }
  }

  lemma ReadKept(c: Config, pcs: seq<Pc>, own: seq<Option<nat>>, tmp: seq<int>, sum: seq<int>, t: nat)
    requires c.Valid() && |pcs| == |own| == |tmp| == |sum| == c.N() && t < c.N()
    requires ReadOk(c, pcs, tmp, sum) && OwnOk(c, pcs, own) && (pcs[t] == AddUp ==> sum[t] == c.LeafSum(t))
    ensures ReadOk(c, pcs[t := NextPc(t == c.root, pcs[t])],
                   if pcs[t] == AddUp then tmp[t := sum[c.parent[t]] + sum[t]] else tmp,
                   NextSum(c.Leaf(t), c.value[t], sum, tmp[t], pcs[t], t, c.parent[t]))
  {
    forall u: nat | u < c.N() && u != t && pcs[u] == Store
      ensures NextSum(c.Leaf(t), c.value[t], sum, tmp[t], pcs[t], t, c.parent[t])[c.parent[u]] == sum[c.parent[u]]
    {
      ReadIsStable(c, pcs, own, sum, tmp[t], t, u);
    }
  }

  lemma ShownKept(c: Config, pcs: seq<Pc>, sum: seq<int>, shown: seq<Option<int>>, t: nat)
    requires c.Valid() && |pcs| == |sum| == |shown| == c.N() && t < c.N()
    requires ShownOk(c, pcs, shown) && OrderOk(c, pcs) && SumsOk(c, pcs, sum)
    ensures ShownOk(c, pcs[t := NextPc(t == c.root, pcs[t])],
                    if pcs[t] == UseOwn && !c.Leaf(t) then shown[t := Some(sum[t])] else shown)
  {
    if pcs[t] == UseOwn && !c.Leaf(t) { SumComplete(c, pcs, sum, t); }
  }

  lemma TotalKept(c: Config, pcs: seq<Pc>, main: MainPc, sum: seq<int>, total: int, printed: Option<int>, t: nat)
    requires c.Valid() && |pcs| == |sum| == c.N() && t < c.N()
    requires TotalOk(c, pcs, main, total, printed) && OrderOk(c, pcs) && SumsOk(c, pcs, sum)
    ensures TotalOk(c, pcs[t := NextPc(t == c.root, pcs[t])], main,
                    if pcs[t] == TakeTotal then sum[t] else total, printed)
  {
    if pcs[t] == TakeTotal { SumComplete(c, pcs, sum, t); }
  }

  lemma NodeKeeps(c: Config, s: State, t: nat, s': State)
    requires Inv(c, s) && t < c.N() && NodeStep(c, s, t, s')
    ensures Inv(c, s')
  {
    ExecKept(t == c.root, s.pcs, s.exec, t);
    OwnKept(c, s.pcs, s.own, t);
    ArrivalsKept(c, s.pcs, s.arrived, t);
    OrderKept(c, s.pcs, s.arrived, t);
    MainKept(c, s.pcs, s.main, s.done, t);
    SumsKept(c, s.pcs, s.sum, s.tmp[t], t);
    if s.pcs[t] == AddUp { SumComplete(c, s.pcs, s.sum, t); }
    ReadKept(c, s.pcs, s.own, s.tmp, s.sum, t);
    ShownKept(c, s.pcs, s.sum, s.shown, t);
    TotalKept(c, s.pcs, s.main, s.sum, s.total, s.printed, t);
  }

  // ---------- So does every operation of the main thread ----------

  lemma InitInv(c: Config)
    requires c.Valid()
    ensures Inv(c, Init(c))
  {
    var s := Init(c);
    forall b: nat | b < c.N() ensures Arrivals(c, s.pcs, b, c.N()) == 0 {
      NoArrivals(c, s.pcs, b, c.N());
    }
    forall i: nat | i < c.N() ensures s.sum[i] == Expected(c, s.pcs, i) {
      NothingGathered(c, Added(s.pcs), i, c.N());
    }
  }

  lemma {:induction false} NoArrivals(c: Config, pcs: seq<Pc>, b: nat, k: nat)
    requires k <= c.N() == |pcs| && forall t :: 0 <= t < k ==> pcs[t] == Unborn
    ensures Arrivals(c, pcs, b, k) == 0
  {
    if k > 0 { NoArrivals(c, pcs, b, k - 1); }
  }

  // Starting a thread shows in nothing but its pc.
  lemma CreateKeepsCounts(c: Config, pcs: seq<Pc>, arrived: seq<nat>, sum: seq<int>, k: nat)
    requires c.Valid() && |pcs| == |arrived| == |sum| == c.N() && k < c.N() && pcs[k] == Unborn
    requires ArrivalsOk(c, pcs, arrived) && SumsOk(c, pcs, sum)
    ensures ArrivalsOk(c, pcs[k := AtOwn], arrived) && SumsOk(c, pcs[k := AtOwn], sum)
  {
    var pcs' := pcs[k := AtOwn];
    assert Added(pcs') == Added(pcs);
    forall b: nat | b < c.N() ensures Arrivals(c, pcs', b, c.N()) == Arrivals(c, pcs, b, c.N()) {
      ArrivalsSet(c, pcs, k, AtOwn, b, c.N());
    }
    assert forall i: nat :: i < c.N() ==> Expected(c, pcs', i) == Expected(c, pcs, i);
  }

  lemma CreateKeepsLocks(c: Config, pcs: seq<Pc>, own: seq<Option<nat>>, k: nat)
    requires |pcs| == |own| == c.N() && k < c.N() && pcs[k] == Unborn && OwnOk(c, pcs, own)
    ensures OwnOk(c, pcs[k := AtOwn], own)
  {
    forall b: nat, u: nat | b < c.N() && u < c.N() ensures own[b] == Some(u) <==> Holds(c, pcs[k := AtOwn][u], u, b) {
      assert own[b] == Some(u) <==> Holds(c, pcs[u], u, b);
    }
  }

  lemma CreateKeepsOrder(c: Config, pcs: seq<Pc>, shown: seq<Option<int>>, k: nat)
    requires c.Valid() && |pcs| == |shown| == c.N() && k < c.N() && pcs[k] == Unborn
    requires OrderOk(c, pcs) && ShownOk(c, pcs, shown)
    ensures OrderOk(c, pcs[k := AtOwn]) && ShownOk(c, pcs[k := AtOwn], shown)
  {}

  lemma CreateKeeps(c: Config, s: State, k: nat, s': State)
    requires Inv(c, s) && k < c.N() && s.main == Creating(k) && MainStep(c, s, s')
    ensures Inv(c, s')
  {
    CreateKeepsCounts(c, s.pcs, s.arrived, s.sum, k);
    CreateKeepsLocks(c, s.pcs, s.own, k);
    CreateKeepsOrder(c, s.pcs, s.shown, k);
  }

  lemma MainKeeps(c: Config, s: State, s': State)
    requires Inv(c, s) && MainStep(c, s, s')
    ensures Inv(c, s')
  {
    if s.main.Creating? && s.main.next < c.N() {
      CreateKeeps(c, s, s.main.next, s');
    }
  }

  // The barrier of a node, made for one more than its children, is full exactly when the node and
  // all its children have arrived: the size that the main thread computes is the number of callers.
  lemma BarrierSize(c: Config, s: State, b: nat)
    requires Inv(c, s) && b < c.N()
    ensures s.arrived[b] <= c.NumChild(b, c.N()) + 1
    ensures s.arrived[b] == c.NumChild(b, c.N()) + 1 <==>
            && Position(s.pcs[b]) >= 2
            && forall t: nat :: t < c.N() && c.Child(t, b) ==> Position(s.pcs[t]) >= 14
  {
    ArrivalsFull(c, s.pcs, b, c.N());
  }

  // ---------- No deadlock ----------

  ghost predicate Complete(c: Config, s: State) {
    && c.Valid() && Shaped(c, s) && s.main == End && forall t: nat :: t < c.N() ==> s.pcs[t] == Finished
  }

  // Whoever holds a mutex lets some thread move: itself, or the one whose mutex it waits for.
  lemma HolderMoves(c: Config, s: State, b: nat) returns (t: nat)
    requires Inv(c, s) && b < c.N() && s.own[b].Some?
    ensures t < c.N() && CanMove(c, s, t)
  {
    t := s.own[b].value;
    assert Holds(c, s.pcs[t], t, b);
  }

  lemma BusyMoves(c: Config, s: State, t: nat) returns (u: nat)
    requires Inv(c, s) && t < c.N() && s.pcs[t] !in {Unborn, InOwn, InReport, Finished}
    ensures u < c.N() && CanMove(c, s, u)
  {
    u := t;
    if s.pcs[t] == LockExec && s.exec.Some? {
      u := s.exec.value;
      if s.pcs[u] == LockOwn && s.own[u].Some? { u := HolderMoves(c, s, u); }
    } else if s.pcs[t] == LockOwn && s.own[t].Some? {
      u := HolderMoves(c, s, t);
    } else if s.pcs[t] == LockParent && s.own[c.parent[t]].Some? {
      u := HolderMoves(c, s, c.parent[t]);
    }
  }

  // The deepest of some waiting nodes.
  lemma {:induction false} Deepest(c: Config, pcs: seq<Pc>, i: nat, k: nat) returns (d: nat)
    requires c.Valid() && k <= c.N() == |pcs| && i < c.N() && pcs[i] == InOwn
    ensures d < c.N() && pcs[d] == InOwn && c.depth[d] >= c.depth[i]
    ensures forall t: nat :: t < k && pcs[t] == InOwn ==> c.depth[t] <= c.depth[d]
  {
    if k == 0 {
      d := i;
    } else {
      d := Deepest(c, pcs, i, k - 1);
      if pcs[k - 1] == InOwn && c.depth[k - 1] > c.depth[d] { d := k - 1; }
    }
  }

  // With every thread waiting at a barrier, the deepest one at its own barrier can leave it.
  lemma WaiterMoves(c: Config, s: State, i: nat) returns (d: nat)
    requires Inv(c, s) && i < c.N() && s.pcs[i] == InOwn
    requires forall t: nat :: t < c.N() ==> s.pcs[t] in {InOwn, InReport, Finished}
    ensures d < c.N() && CanMove(c, s, d)
  {
    d := Deepest(c, s.pcs, i, c.N());
    forall t: nat | t < c.N() && c.Child(t, d) ensures Position(s.pcs[t]) >= 14 {
      assert t != c.root && c.depth[t] == c.depth[d] + 1;
    }
    ArrivalsFull(c, s.pcs, d, c.N());
  }

  // With every node's sum reported every barrier is full.
  lemma AllReported(c: Config, pcs: seq<Pc>, arrived: seq<nat>, b: nat)
    requires |pcs| == |arrived| == c.N() && ArrivalsOk(c, pcs, arrived) && b < c.N()
    requires forall t: nat :: t < c.N() ==> Position(pcs[t]) >= 14
    ensures arrived[b] == c.NumChild(b, c.N()) + 1
  {
    ArrivalsFull(c, pcs, b, c.N());
  }

  // So whoever has not ended yet can.
  lemma ReporterMoves(c: Config, s: State, t: nat)
    requires Inv(c, s) && t < c.N() && s.pcs[t] == InReport && (t == c.root ==> s.main in {Wait, Show, End})
    requires forall t: nat :: t < c.N() ==> s.pcs[t] in {InReport, Finished}
    ensures CanMove(c, s, t)
  {
    if t != c.root { AllReported(c, s.pcs, s.arrived, c.parent[t]); }
  }

  ghost predicate Moves(c: Config, s: State) {
    exists s' :: Next(c, s, s')
  }

  lemma NodeMoves(c: Config, s: State, t: nat)
    requires Inv(c, s) && t < c.N() && CanMove(c, s, t)
    ensures Moves(c, s)
  {
    assert NodeStep(c, s, t, Moved(c, s, t));
    assert Next(c, s, Moved(c, s, t));
  }

  lemma MainMoves(c: Config, s: State)
    requires Inv(c, s) && s.main != End && (s.main == Wait ==> s.done == 2)
    ensures Moves(c, s)
  {
    var s' := match s.main
      case Creating(k) => if k < c.N() then s.(pcs := s.pcs[k := AtOwn], main := Creating(k + 1))
                          else s.(main := Arrive)
      case Arrive => s.(main := Wait, done := s.done + 1)
      case Wait => s.(main := Show)
      case _ => s.(main := End, printed := Some(s.total));
    assert MainStep(c, s, s');
    assert Next(c, s, s');
  }

  lemma DeadlockFree(c: Config, s: State)
    requires Inv(c, s)
    ensures Moves(c, s) || Complete(c, s)
  {
    if s.main.Creating? || s.main in {Arrive, Show} || (s.done == 2 && s.main == Wait) {
      MainMoves(c, s);
    } else if t: nat :| t < c.N() && s.pcs[t] !in {InOwn, InReport, Finished} {
      var u := BusyMoves(c, s, t);
      NodeMoves(c, s, u);
    } else if t: nat :| t < c.N() && s.pcs[t] == InOwn {
      var u := WaiterMoves(c, s, t);
      NodeMoves(c, s, u);
    } else if t: nat :| t < c.N() && s.pcs[t] == InReport {
      ReporterMoves(c, s, t);
      NodeMoves(c, s, t);
    }
  }

  // ---------- Runs ----------

  function Left(pcs: seq<Pc>): (left: seq<nat>)
    ensures |left| == |pcs|
  {
    seq(|pcs|, t requires 0 <= t < |pcs| => 15 - Position(pcs[t]))
  }

  function MainLeft(n: nat, main: MainPc): nat {
    match main
    case Creating(k) => if k <= n then n - k + 4 else 4
    case Arrive => 3 case Wait => 2 case Show => 1 case End => 0
  }

  function Rank(c: Config, s: State): nat {
    Total(Left(s.pcs)) + MainLeft(c.N(), s.main)
  }

  lemma {:induction false} LeftUpdate(pcs: seq<Pc>, t: nat, pc: Pc)
    requires t < |pcs|
    ensures Total(Left(pcs[t := pc])) == Total(Left(pcs)) + Position(pcs[t]) - Position(pc)
  {
    assert Left(pcs[t := pc]) == Left(pcs)[t := 15 - Position(pc)];
    TotalUpdate(Left(pcs), t, 15 - Position(pc));
  }

  lemma NodeLowers(c: Config, s: State, t: nat)
    requires c.Valid() && Shaped(c, s) && t < c.N() && CanMove(c, s, t)
    ensures Rank(c, Moved(c, s, t)) < Rank(c, s)
  {
    var pc := NextPc(t == c.root, s.pcs[t]);
    assert Position(pc) > Position(s.pcs[t]);
    LeftUpdate(s.pcs, t, pc);
  }

  lemma MainLowers(c: Config, s: State, s': State)
    requires c.Valid() && Shaped(c, s) && MainStep(c, s, s')
    requires s.main.Creating? && s.main.next < c.N() ==> s.pcs[s.main.next] == Unborn
    ensures Rank(c, s') < Rank(c, s)
  {
    if s.main.Creating? && s.main.next < c.N() { LeftUpdate(s.pcs, s.main.next, AtOwn); }
  }

  lemma StepLowers(c: Config, s: State, s': State)
    requires c.Valid() && Shaped(c, s) && Next(c, s, s')
    requires s.main.Creating? && s.main.next < c.N() ==> s.pcs[s.main.next] == Unborn
    ensures Rank(c, s') < Rank(c, s)
  {
    if MainStep(c, s, s') {
      MainLowers(c, s, s');
    } else {
      var t: nat :| t < c.N() && NodeStep(c, s, t, s');
      NodeLowers(c, s, t);
    }
  }

  lemma StepKeeps(c: Config, s: State, s': State)
    requires Inv(c, s) && Next(c, s, s')
    ensures Inv(c, s')
  {
    if MainStep(c, s, s') {
      MainKeeps(c, s, s');
    } else {
      var t: nat :| t < c.N() && NodeStep(c, s, t, s');
      NodeKeeps(c, s, t, s');
    }
  }

  ghost predicate IsRun(c: Config, run: seq<State>) {
    c.Valid() && run != [] && run[0] == Init(c) && forall k :: 0 < k < |run| ==> Next(c, run[k - 1], run[k])
  }

  lemma {:induction false} RunInv(c: Config, run: seq<State>)
    requires IsRun(c, run)
    ensures Inv(c, run[|run| - 1]) && Rank(c, run[|run| - 1]) + |run| - 1 <= Rank(c, Init(c))
  {
    if |run| == 1 {
      InitInv(c);
    } else {
      var k := |run| - 1;
      assert IsRun(c, run[..k]) && run[..k][k - 1] == run[k - 1];
      RunInv(c, run[..k]);
      StepKeeps(c, run[k - 1], run[k]);
      StepLowers(c, run[k - 1], run[k]);
    }
  }

  // Whatever has been printed, in any run, is right: an inner node reports the sum of the leaf
  // values below it, the main thread prints the sum of all leaf values.
  lemma ReportsAreSums(c: Config, run: seq<State>, i: nat)
    requires IsRun(c, run) && i < c.N()
    ensures var s := run[|run| - 1];
            && Shaped(c, s)
            && (s.shown[i].Some? ==> !c.Leaf(i) && s.shown[i].value == c.LeafSum(i))
            && (s.printed.Some? ==> s.printed.value == AllLeaves(c, c.N()))
  {
    RunInv(c, run);
    RootSum(c, c.N());
  }

  // Every run is finite, and one that cannot go on has all threads finished and everything printed.
  lemma EveryRunCompletes(c: Config, run: seq<State>, i: nat)
    requires IsRun(c, run) && i < c.N()
    ensures |run| - 1 <= 16 * c.N() + 4
    ensures !Moves(c, run[|run| - 1]) ==>
              && Complete(c, run[|run| - 1])
              && run[|run| - 1].printed == Some(AllLeaves(c, c.N()))
              && (c.Leaf(i) || run[|run| - 1].shown[i] == Some(c.LeafSum(i)))
  {
    RunInv(c, run);
    RootSum(c, c.N());
    TotalBound(Left(Init(c).pcs), 15);
    DeadlockFree(c, run[|run| - 1]);
  }
}
