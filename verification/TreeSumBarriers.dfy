// The tree sum on the barrier of the thread library: the protocol's barrier operations are the ones that
// the barrier's specification allows, and with every barrier replaced by its mutex, counter and two
// semaphores the threads still compute the sums and end.
module TreeSumBarriers {
  import opened Sums
  import opened TreeSums
  import opened TreeSumProtocol
  import Barriers

  // ---------- Who calls which barrier ----------

  // Threads are the nodes and, as number N, the main thread. Barrier b < N is the one of node b, which
  // waits there for its children; barrier N is the one on which the main thread waits for the root.
  predicate IsMember(c: Config, b: nat, m: nat) {
    if b < c.N() then m == b || c.Child(m, b) else b == c.N() && (m == c.N() || m == c.root)
  }

  function ChildrenOf(c: Config, b: nat, k: nat): seq<nat>
    requires k <= c.N()
  {
    if k == 0 then [] else ChildrenOf(c, b, k - 1) + if c.Child(k - 1, b) then [k - 1] else []
  }

  // The threads that call barrier b; thread number j of the barrier is the j-th of them.
  function Members(c: Config, b: nat): seq<nat> {
    if b < c.N() then [b] + ChildrenOf(c, b, c.N()) else [c.N(), c.root]
  }

  lemma {:induction false} ChildrenListed(c: Config, b: nat, k: nat)
    requires k <= c.N()
    ensures |ChildrenOf(c, b, k)| == c.NumChild(b, k)
    ensures forall j :: 0 <= j < |ChildrenOf(c, b, k)| ==>
              ChildrenOf(c, b, k)[j] < k && c.Child(ChildrenOf(c, b, k)[j], b)
    ensures forall i, j :: 0 <= i < j < |ChildrenOf(c, b, k)| ==> ChildrenOf(c, b, k)[i] != ChildrenOf(c, b, k)[j]
    ensures forall m: nat :: m < k && c.Child(m, b) ==> m in ChildrenOf(c, b, k)
  {
    if k > 0 { ChildrenListed(c, b, k - 1); }
  }

  // The main thread makes the barriers for as many threads as call them.
  lemma MembersAreCallers(c: Config, b: nat)
    requires c.Valid() && b <= c.N()
    ensures |Members(c, b)| == if b < c.N() then c.NumChild(b, c.N()) + 1 else 2
    ensures forall j :: 0 <= j < |Members(c, b)| ==> IsMember(c, b, Members(c, b)[j])
    ensures forall m: nat :: IsMember(c, b, m) ==> m in Members(c, b)
    ensures forall i, j :: 0 <= i < j < |Members(c, b)| ==> Members(c, b)[i] != Members(c, b)[j]
  {
    if b < c.N() {
      ChildrenListed(c, b, c.N());
      assert Members(c, b)[1..] == ChildrenOf(c, b, c.N());
    }
  }

  // The barrier that thread m is about to call or inside.
  function CallOf(c: Config, s: State, m: nat): Option<nat>
    requires c.Valid() && Shaped(c, s) && m <= c.N()
  {
    if m == c.N() then (if s.main in {Arrive, Wait} then Some(c.N()) else None)
    else if s.pcs[m] in {AtOwn, InOwn} then Some(m)
    else if s.pcs[m] in {Report, InReport} then Some(if m == c.root then c.N() else c.parent[m])
    else None
  }

  // Thread m's only call of barrier b has not begun, has begun, or has returned.
  function Phase(c: Config, s: State, b: nat, m: nat): nat
    requires c.Valid() && Shaped(c, s) && m <= c.N()
  {
    if m == c.N() then MainPhase(s.main) else NodePhase(s.pcs[m], m == b)
  }

  function MainPhase(main: MainPc): nat {
    match main case Wait => 1 case Show => 2 case End => 2 case _ => 0
  }

  function NodePhase(pc: Pc, own: bool): nat {
    var begins := if own then 2 else 14;
    if Position(pc) < begins then 0 else if Position(pc) == begins then 1 else 2
  }

  lemma NodePhaseAdvances(root: bool, pc: Pc, own: bool)
    requires pc != Finished
    ensures NodePhase(NextPc(root, pc), own) ==
            NodePhase(pc, own) + if pc in (if own then {AtOwn, InOwn} else {Report, InReport}) then 1 else 0
  {}

  // ---------- The barriers through their specification ----------

  // The phases of all callers of barrier b, and which of them are at least p.
  function Phases(c: Config, s: State, b: nat): (ps: seq<nat>)
    requires c.Valid() && Shaped(c, s) && b <= c.N()
    ensures |ps| == |Members(c, b)|
  {
    seq(|Members(c, b)|, j requires 0 <= j < |Members(c, b)| =>
      if Members(c, b)[j] <= c.N() then Phase(c, s, b, Members(c, b)[j]) else 0)
  }

  function Marks(ps: seq<nat>, p: nat): (ms: seq<nat>)
    ensures |ms| == |ps|
  {
    seq(|ps|, j requires 0 <= j < |ps| => if ps[j] >= p then 1 else 0)
  }

  lemma MarksUpdate(ps: seq<nat>, p: nat, j: nat)
    requires j < |ps|
    ensures Marks(ps[j := ps[j] + 1], p) == if ps[j] + 1 == p then Marks(ps, p)[j := 1] else Marks(ps, p)
  {}

  // Barrier b as its specification has it: which calls have begun, and which have returned.
  function SpecOf(c: Config, s: State, b: nat): Barriers.Spec
    requires c.Valid() && Shaped(c, s) && b <= c.N()
  {
    Barriers.Spec(Marks(Phases(c, s, b), 1), Marks(Phases(c, s, b), 2))
  }

  // Thread m's operation does not block.
  predicate CanAdvance(c: Config, s: State, m: nat)
    requires c.Valid() && Shaped(c, s) && m <= c.N()
  {
    if m < c.N() then CanMove(c, s, m) else s.main != End && (s.main == Wait ==> s.done == 2)
  }

  function MainMoved(c: Config, s: State): State
    requires c.Valid() && Shaped(c, s)
  {
    match s.main
    case Creating(k) => if k < c.N() then s.(pcs := s.pcs[k := AtOwn], main := Creating(k + 1)) else s.(main := Arrive)
    case Arrive => s.(main := Wait, done := s.done + 1)
    case Wait => s.(main := Show)
    case Show => s.(main := End, printed := Some(s.total))
    case End => s
  }

  function Advanced(c: Config, s: State, m: nat): (s': State)
    requires c.Valid() && Shaped(c, s) && m <= c.N()
    ensures Shaped(c, s')
  {
    if m < c.N() then Moved(c, s, m) else MainMoved(c, s)
  }

  lemma AdvanceKeeps(c: Config, s: State, m: nat)
    requires Inv(c, s) && m <= c.N() && CanAdvance(c, s, m)
    ensures Inv(c, Advanced(c, s, m))
  {
    if m < c.N() {
      NodeKeeps(c, s, m, Moved(c, s, m));
    } else {
      assert MainStep(c, s, MainMoved(c, s));
      MainKeeps(c, s, MainMoved(c, s));
    }
  }

  lemma NodePhasesAdvance(c: Config, s: State, m: nat, b: nat, u: nat)
    requires c.Valid() && Shaped(c, s) && m < c.N() && b <= c.N() && u <= c.N() && IsMember(c, b, u) && CanMove(c, s, m)
    ensures Phase(c, Moved(c, s, m), b, u) == Phase(c, s, b, u) + if u == m && CallOf(c, s, m) == Some(b) then 1 else 0
  {
    if u == m { NodePhaseAdvances(m == c.root, s.pcs[m], m == b); }
  }

  lemma MainPhasesAdvance(c: Config, s: State, b: nat, u: nat)
    requires c.Valid() && Shaped(c, s) && MainOk(c, s.pcs, s.main, s.done) && b <= c.N() && u <= c.N()
    requires IsMember(c, b, u)
    requires CanAdvance(c, s, c.N())
    ensures Phase(c, MainMoved(c, s), b, u) == Phase(c, s, b, u)
            + if u == c.N() && CallOf(c, s, c.N()) == Some(b) then 1 else 0
  {}

  // An operation of thread m begins or ends its call of the barrier that it is at, and no other.
  lemma PhasesAdvance(c: Config, s: State, m: nat, b: nat, u: nat)
    requires Inv(c, s) && m <= c.N() && b <= c.N() && u <= c.N() && IsMember(c, b, u) && CanAdvance(c, s, m)
    ensures Phase(c, Advanced(c, s, m), b, u) ==
            Phase(c, s, b, u) + if u == m && CallOf(c, s, m) == Some(b) then 1 else 0
  {
    if m < c.N() { NodePhasesAdvance(c, s, m, b, u); } else { MainPhasesAdvance(c, s, b, u); }
  }

  // Thread m is at barrier b, before or inside its call.
  predicate IsAt(c: Config, s: State, m: nat, b: nat)
    requires c.Valid() && Shaped(c, s)
  {
    m <= c.N() && b <= c.N() && CallOf(c, s, m) == Some(b)
  }

  lemma AtItsBarrier(c: Config, s: State, m: nat, b: nat)
    requires Inv(c, s) && IsAt(c, s, m, b)
    ensures IsMember(c, b, m) && Phase(c, s, b, m) <= 1
    ensures Phase(c, s, b, m) == 0 ==> CanAdvance(c, s, m)
  {}

  ghost predicate AllBegun(c: Config, s: State, b: nat)
    requires c.Valid() && Shaped(c, s) && b <= c.N()
  {
    forall u: nat :: u <= c.N() && IsMember(c, b, u) ==> Phase(c, s, b, u) >= 1
  }

  // The counters of the protocol let a thread return exactly when all callers have begun.
  lemma ReturnNeedsAll(c: Config, s: State, m: nat, b: nat)
    requires Inv(c, s) && IsAt(c, s, m, b) && Phase(c, s, b, m) == 1
    ensures CanAdvance(c, s, m) <==> AllBegun(c, s, b)
  {
    if b < c.N() {
      BarrierSize(c, s, b);
      assert IsMember(c, b, b);
      assert forall t: nat :: t < c.N() && c.Child(t, b) ==> IsMember(c, b, t);
    } else {
      assert IsMember(c, b, c.N()) && IsMember(c, b, c.root);
    }
  }

  // The number of thread m at barrier b.
  lemma NumberAt(c: Config, b: nat, m: nat) returns (j: nat)
    requires c.Valid() && b <= c.N() && IsMember(c, b, m)
    ensures j < |Members(c, b)| && Members(c, b)[j] == m
    ensures forall i :: 0 <= i < |Members(c, b)| && Members(c, b)[i] == m ==> i == j
  {
    MembersAreCallers(c, b);
    j :| 0 <= j < |Members(c, b)| && Members(c, b)[j] == m;
  }

  lemma AllBegunInSpec(c: Config, s: State, b: nat)
    requires c.Valid() && Shaped(c, s) && b <= c.N()
    ensures var e := SpecOf(c, s, b).entered;
            AllBegun(c, s, b) <==> forall i :: 0 <= i < |e| ==> e[i] >= 1
  {
    var e := SpecOf(c, s, b).entered;
    MembersAreCallers(c, b);
    if forall i :: 0 <= i < |e| ==> e[i] >= 1 {
      forall u: nat | u <= c.N() && IsMember(c, b, u) ensures Phase(c, s, b, u) >= 1 {
        var j := NumberAt(c, b, u);
        assert e[j] >= 1;
      }
    }
  }

  lemma MayLeave(p: Barriers.Spec, j: nat)
    requires j < |p.entered| == |p.left| && p.entered[j] == 1 && p.left[j] == 0
    ensures (exists r :: Barriers.Leaves(p, j, r)) <==> forall i :: 0 <= i < |p.entered| ==> p.entered[i] >= 1
  {
    if forall i :: 0 <= i < |p.entered| ==> p.entered[i] >= 1 {
      assert Barriers.Leaves(p, j, p.(left := p.left[j := p.left[j] + 1]));
    }
  }

  // An operation inside the barrier's call does not block exactly when the specification lets the
  // call end.
  lemma ReturnIsLeave(c: Config, s: State, m: nat, b: nat, j: nat)
    requires Inv(c, s) && IsAt(c, s, m, b) && Phase(c, s, b, m) == 1
    requires j < |Members(c, b)| && Members(c, b)[j] == m
    ensures CanAdvance(c, s, m) <==> exists r :: Barriers.Leaves(SpecOf(c, s, b), j, r)
  {
    ReturnNeedsAll(c, s, m, b);
    AllBegunInSpec(c, s, b);
    MayLeave(SpecOf(c, s, b), j);
  }

  // No operation shows at a barrier that the thread is not at.
  lemma ElsewhereUnchanged(c: Config, s: State, m: nat, b: nat)
    requires Inv(c, s) && m <= c.N() && b <= c.N() && CanAdvance(c, s, m) && !IsAt(c, s, m, b)
    ensures SpecOf(c, Advanced(c, s, m), b) == SpecOf(c, s, b)
  {
    MembersAreCallers(c, b);
    forall i | 0 <= i < |Members(c, b)| ensures Phases(c, Advanced(c, s, m), b)[i] == Phases(c, s, b)[i] {
      assert IsMember(c, b, Members(c, b)[i]);
      PhasesAdvance(c, s, m, b, Members(c, b)[i]);
    }
    assert Phases(c, Advanced(c, s, m), b) == Phases(c, s, b);
  }

  lemma CallCounts(c: Config, s: State, m: nat, b: nat, j: nat)
    requires Inv(c, s) && IsAt(c, s, m, b) && CanAdvance(c, s, m) && j < |Members(c, b)| && Members(c, b)[j] == m
    ensures Phases(c, Advanced(c, s, m), b) == Phases(c, s, b)[j := Phase(c, s, b, m) + 1]
  {
    MembersAreCallers(c, b);
    forall i | 0 <= i < |Members(c, b)|
      ensures Phases(c, Advanced(c, s, m), b)[i] == if i == j then Phase(c, s, b, m) + 1 else Phases(c, s, b)[i]
    {
      assert IsMember(c, b, Members(c, b)[i]);
      PhasesAdvance(c, s, m, b, Members(c, b)[i]);
    }
  }

  // The protocol's barrier operations are the specification's: arriving begins the thread's call.
  lemma ArrivalEnters(c: Config, s: State, m: nat, b: nat, j: nat)
    requires Inv(c, s) && IsAt(c, s, m, b) && Phase(c, s, b, m) == 0 && j < |Members(c, b)| && Members(c, b)[j] == m
    ensures CanAdvance(c, s, m) && Barriers.Enters(SpecOf(c, s, b), j, SpecOf(c, Advanced(c, s, m), b))
  {
    AtItsBarrier(c, s, m, b);
    CallCounts(c, s, m, b, j);
    MarksUpdate(Phases(c, s, b), 1, j);
    MarksUpdate(Phases(c, s, b), 2, j);
  }

  // Going on ends it.
  lemma ReturnLeaves(c: Config, s: State, m: nat, b: nat, j: nat)
    requires Inv(c, s) && IsAt(c, s, m, b) && Phase(c, s, b, m) == 1 && j < |Members(c, b)| && Members(c, b)[j] == m
    requires CanAdvance(c, s, m)
    ensures Barriers.Leaves(SpecOf(c, s, b), j, SpecOf(c, Advanced(c, s, m), b))
  {
    ReturnIsLeave(c, s, m, b, j);
    CallCounts(c, s, m, b, j);
    MarksUpdate(Phases(c, s, b), 1, j);
    MarksUpdate(Phases(c, s, b), 2, j);
  }
}
