// The threads of the tree sum with every barrier taken apart: each semaphore operation inside a call of
// foothread_barrier_wait is a step of its own. A thread's call begins where the barrier counts it in
// and returns where the barrier counts its return.
module TreeSumComposed {
  import opened Sums
  import opened TreeSums
  import opened TreeSumProtocol
  import opened TreeSumBarriers
  import Barriers

  // bars[b] holds the semaphores and the counter of barrier b, and where its callers are in their calls.
  datatype Whole = Whole(tree: State, bars: seq<Barriers.State>)

  function Size(c: Config, b: nat): nat {
    |Members(c, b)|
  }

  // Every thread calls each of its barriers once.
  function Once(c: Config, b: nat): seq<nat> {
    Barriers.Equal(Size(c, b), 1)
  }

  function Start(c: Config): Whole {
    Whole(Init(c), seq(c.N() + 1, b requires 0 <= b <= c.N() => Barriers.Init(Size(c, b))))
  }

  ghost predicate Fits(c: Config, w: Whole) {
    c.Valid() && Shaped(c, w.tree) && |w.bars| == c.N() + 1
  }

  // An operation of thread m outside the barriers.
  ghost predicate OutsideStep(c: Config, w: Whole, m: nat, w': Whole)
    requires Fits(c, w)
  {
    && m <= c.N() && CallOf(c, w.tree, m).None? && CanAdvance(c, w.tree, m)
    && w' == w.(tree := Advanced(c, w.tree, m))
  }

  // A semaphore operation, or a test of the count, of thread m, which is number j at barrier b.
  ghost predicate InsideStep(c: Config, w: Whole, m: nat, b: nat, j: nat, w': Whole)
    requires Fits(c, w)
  {
    && IsAt(c, w.tree, m, b) && j < Size(c, b) && Members(c, b)[j] == m && |w'.bars| == |w.bars|
    && Barriers.Step(Size(c, b), Once(c, b), w.bars[b], j, w'.bars[b])
    && w'.bars == w.bars[b := w'.bars[b]]
    && w'.tree == if Barriers.Abstract(w'.bars[b]) == Barriers.Abstract(w.bars[b]) then w.tree
                  else Advanced(c, w.tree, m)
  }

  ghost predicate WholeNext(c: Config, w: Whole, w': Whole) {
    Fits(c, w) && ((exists m :: OutsideStep(c, w, m, w')) || (exists m, b, j :: InsideStep(c, w, m, b, j, w')))
  }

  // ---------- The invariant ----------

  // The barrier is in order, shows what the protocol says, and only threads at it are inside a call.
  ghost predicate BarrierOk(c: Config, s: State, b: nat, bar: Barriers.State, open: bool, round: nat)
    requires c.Valid() && Shaped(c, s) && b <= c.N()
  {
    && Barriers.Inv(Size(c, b), bar, open, round)
    && Barriers.Within(Size(c, b), Once(c, b), bar)
    && Barriers.Abstract(bar) == SpecOf(c, s, b)
    && forall j :: 0 <= j < Size(c, b) && bar.pcs[j] != Barriers.Enter ==> IsAt(c, s, Members(c, b)[j], b)
  }

  ghost predicate InOrder(c: Config, s: State, b: nat, bar: Barriers.State)
    requires c.Valid() && Shaped(c, s) && b <= c.N()
  {
    exists open, round :: BarrierOk(c, s, b, bar, open, round)
  }

  ghost predicate WholeInv(c: Config, w: Whole) {
    && Inv(c, w.tree) && |w.bars| == c.N() + 1
    && forall b: nat :: b <= c.N() ==> InOrder(c, w.tree, b, w.bars[b])
  }

  lemma StartInv(c: Config)
    requires c.Valid()
    ensures WholeInv(c, Start(c))
  {
    InitInv(c);
    forall b: nat | b <= c.N() ensures InOrder(c, Init(c), b, Start(c).bars[b]) {
      MembersAreCallers(c, b);
      Barriers.InitInv(Size(c, b));
      var bar := Barriers.Init(Size(c, b));
      assert Barriers.Abstract(bar) == SpecOf(c, Init(c), b);
      assert BarrierOk(c, Init(c), b, bar, false, 0);
    }
  }

  lemma NodeLeavesOthers(c: Config, s: State, m: nat, u: nat)
    requires c.Valid() && Shaped(c, s) && m < c.N() && u <= c.N() && u != m
    ensures CallOf(c, Moved(c, s, m), u) == CallOf(c, s, u)
  {}

  lemma MainLeavesNodes(c: Config, s: State, u: nat)
    requires c.Valid() && Shaped(c, s) && MainOk(c, s.pcs, s.main, s.done) && u < c.N() && CallOf(c, s, u).Some?
    ensures CallOf(c, MainMoved(c, s), u) == CallOf(c, s, u)
  {}

  // A thread at a barrier stays there while another moves.
  lemma OthersStay(c: Config, s: State, m: nat, u: nat, b: nat)
    requires Inv(c, s) && m <= c.N() && u != m && IsAt(c, s, u, b)
    ensures IsAt(c, Advanced(c, s, m), u, b)
  {
    if m < c.N() { NodeLeavesOthers(c, s, m, u); } else { MainLeavesNodes(c, s, u); }
  }

  // Barriers that the moving thread is not at.
  lemma ElsewhereInOrder(c: Config, s: State, m: nat, b: nat, bar: Barriers.State)
    requires Inv(c, s) && m <= c.N() && b <= c.N() && CanAdvance(c, s, m) && !IsAt(c, s, m, b) && InOrder(c, s, b, bar)
    ensures InOrder(c, Advanced(c, s, m), b, bar)
  {
    var open, round :| BarrierOk(c, s, b, bar, open, round);
    ElsewhereUnchanged(c, s, m, b);
    forall j | 0 <= j < Size(c, b) && bar.pcs[j] != Barriers.Enter
      ensures IsAt(c, Advanced(c, s, m), Members(c, b)[j], b)
    {
      OthersStay(c, s, m, Members(c, b)[j], b);
    }
    assert BarrierOk(c, Advanced(c, s, m), b, bar, open, round);
  }

  lemma OutsideKeeps(c: Config, w: Whole, m: nat, w': Whole)
    requires WholeInv(c, w) && OutsideStep(c, w, m, w')
    ensures WholeInv(c, w')
  {
    AdvanceKeeps(c, w.tree, m);
    forall b: nat | b <= c.N() ensures InOrder(c, w'.tree, b, w'.bars[b]) {
      ElsewhereInOrder(c, w.tree, m, b, w.bars[b]);
    }
  }

  // ---------- A step inside a barrier ----------

  // What the barrier's invariant says of a step of thread number j.
  lemma BarrierMoves(c: Config, s: State, b: nat, bar: Barriers.State, j: nat, bar': Barriers.State, open: bool,
                     round: nat)
    returns (open': bool, round': nat)
    requires c.Valid() && Shaped(c, s) && b <= c.N() && BarrierOk(c, s, b, bar, open, round)
    requires Barriers.Step(Size(c, b), Once(c, b), bar, j, bar')
    ensures Barriers.Inv(Size(c, b), bar', open', round') && Barriers.Within(Size(c, b), Once(c, b), bar')
    ensures Barriers.Rank(Size(c, b), Once(c, b), bar') < Barriers.Rank(Size(c, b), Once(c, b), bar)
    ensures forall i :: 0 <= i < Size(c, b) && i != j ==> bar'.pcs[i] == bar.pcs[i]
  {
    Barriers.StepKeeps(Size(c, b), Once(c, b), bar, j, bar', open, round);
    Barriers.StepLowers(Size(c, b), Once(c, b), bar, j, bar');
    open', round' := Barriers.OpenAfter(bar, j, open), Barriers.RoundAfter(bar, j, round);
  }

  // The barrier's client sees nothing, the beginning of the call, or its return.
  lemma WhatIsSeen(c: Config, s: State, m: nat, b: nat, bar: Barriers.State, j: nat, bar': Barriers.State, open: bool,
                   round: nat)
    requires Inv(c, s) && IsAt(c, s, m, b) && BarrierOk(c, s, b, bar, open, round)
    requires j < Size(c, b) && Members(c, b)[j] == m && Barriers.Step(Size(c, b), Once(c, b), bar, j, bar')
    requires Barriers.Abstract(bar') != Barriers.Abstract(bar)
    ensures CanAdvance(c, s, m) && Barriers.Abstract(bar') == SpecOf(c, Advanced(c, s, m), b)
    ensures Phase(c, s, b, m) == 1 ==> bar'.pcs[j] == Barriers.Enter
  {
    Barriers.Refines(Size(c, b), Once(c, b), bar, j, bar', open, round);
    AtItsBarrier(c, s, m, b);
    var p, p' := SpecOf(c, s, b), Barriers.Abstract(bar');
    if Phase(c, s, b, m) == 0 {
      ArrivalEnters(c, s, m, b, j);
    } else {
      assert Barriers.Leaves(p, j, p');
      ReturnIsLeave(c, s, m, b, j);
      ReturnLeaves(c, s, m, b, j);
    }
  }

  lemma StaysForReturn(c: Config, s: State, m: nat, b: nat)
    requires Inv(c, s) && IsAt(c, s, m, b) && Phase(c, s, b, m) == 0 && CanAdvance(c, s, m)
    ensures IsAt(c, Advanced(c, s, m), m, b)
  {}

  lemma OwnInOrder(c: Config, s: State, m: nat, b: nat, bar: Barriers.State, j: nat, bar': Barriers.State)
    requires Inv(c, s) && IsAt(c, s, m, b) && InOrder(c, s, b, bar)
    requires j < Size(c, b) && Members(c, b)[j] == m && Barriers.Step(Size(c, b), Once(c, b), bar, j, bar')
    ensures if Barriers.Abstract(bar') == Barriers.Abstract(bar) then InOrder(c, s, b, bar')
            else CanAdvance(c, s, m) && InOrder(c, Advanced(c, s, m), b, bar')
  {
    var open, round :| BarrierOk(c, s, b, bar, open, round);
    var open', round' := BarrierMoves(c, s, b, bar, j, bar', open, round);
    if Barriers.Abstract(bar') == Barriers.Abstract(bar) {
      assert BarrierOk(c, s, b, bar', open', round');
    } else {
      WhatIsSeen(c, s, m, b, bar, j, bar', open, round);
      MembersAreCallers(c, b);
      AtItsBarrier(c, s, m, b);
      var s' := Advanced(c, s, m);
      forall i | 0 <= i < Size(c, b) && bar'.pcs[i] != Barriers.Enter ensures IsAt(c, s', Members(c, b)[i], b) {
        if i == j { StaysForReturn(c, s, m, b); } else { OthersStay(c, s, m, Members(c, b)[i], b); }
      }
      assert BarrierOk(c, s', b, bar', open', round');
    }
  }

  lemma InsideKeeps(c: Config, w: Whole, m: nat, b: nat, j: nat, w': Whole)
    requires WholeInv(c, w) && InsideStep(c, w, m, b, j, w')
    ensures WholeInv(c, w')
  {
    OwnInOrder(c, w.tree, m, b, w.bars[b], j, w'.bars[b]);
    if w'.tree != w.tree { AdvanceKeeps(c, w.tree, m); }
    forall d: nat | d <= c.N() && d != b ensures InOrder(c, w'.tree, d, w'.bars[d]) {
      if w'.tree != w.tree { ElsewhereInOrder(c, w.tree, m, d, w.bars[d]); }
    }
  }

  lemma AdvanceIsNext(c: Config, s: State, m: nat)
    requires c.Valid() && Shaped(c, s) && m <= c.N() && CanAdvance(c, s, m)
    ensures Next(c, s, Advanced(c, s, m))
  {
    if m < c.N() {
      assert NodeStep(c, s, m, Moved(c, s, m));
    } else {
      assert MainStep(c, s, MainMoved(c, s));
    }
  }

  lemma OutsideRefines(c: Config, w: Whole, m: nat, w': Whole)
    requires WholeInv(c, w) && OutsideStep(c, w, m, w')
    ensures Next(c, w.tree, w'.tree)
  {
    AdvanceIsNext(c, w.tree, m);
  }

  lemma InsideRefines(c: Config, w: Whole, m: nat, b: nat, j: nat, w': Whole)
    requires WholeInv(c, w) && InsideStep(c, w, m, b, j, w')
    ensures w'.tree == w.tree || Next(c, w.tree, w'.tree)
  {
    if w'.tree != w.tree {
      OwnInOrder(c, w.tree, m, b, w.bars[b], j, w'.bars[b]);
      AdvanceIsNext(c, w.tree, m);
    }
  }

  // The protocol sees every step of the whole as one of its own or not at all: in particular nobody
  // goes on from a barrier before the protocol allows it.
  lemma WholeRefines(c: Config, w: Whole, w': Whole)
    requires WholeInv(c, w) && WholeNext(c, w, w')
    ensures w'.tree == w.tree || Next(c, w.tree, w'.tree)
  {
    if m :| OutsideStep(c, w, m, w') {
      OutsideRefines(c, w, m, w');
    } else {
      var m, b, j :| InsideStep(c, w, m, b, j, w');
      InsideRefines(c, w, m, b, j, w');
    }
  }

  // ---------- No deadlock ----------

  ghost predicate WholeMoves(c: Config, w: Whole) {
    exists w' :: WholeNext(c, w, w')
  }

  lemma OutsideMoves(c: Config, w: Whole, m: nat)
    requires WholeInv(c, w) && m <= c.N() && CanAdvance(c, w.tree, m) && CallOf(c, w.tree, m).None?
    ensures WholeMoves(c, w)
  {
    var w' := w.(tree := Advanced(c, w.tree, m));
    assert OutsideStep(c, w, m, w');
    assert WholeNext(c, w, w');
  }

  // A caller of barrier b that the barrier lets go on, and that is at it, moves the whole.
  lemma InsideMoves(c: Config, w: Whole, b: nat, j: nat)
    requires WholeInv(c, w) && b <= c.N() && j < Size(c, b) && IsAt(c, w.tree, Members(c, b)[j], b)
    requires Barriers.Enabled(Size(c, b), Once(c, b), w.bars[b], j)
    ensures WholeMoves(c, w)
  {
    var m := Members(c, b)[j];
    var bar :| Barriers.Step(Size(c, b), Once(c, b), w.bars[b], j, bar);
    var w' := Whole(if Barriers.Abstract(bar) == Barriers.Abstract(w.bars[b]) then w.tree else Advanced(c, w.tree, m),
                    w.bars[b := bar]);
    assert InsideStep(c, w, m, b, j, w');
    assert WholeNext(c, w, w');
  }

  // If the protocol lets a thread go on at a barrier, somebody at that barrier can take a step.
  lemma CallerMoves(c: Config, w: Whole, m: nat, b: nat, open: bool, round: nat)
    requires WholeInv(c, w) && IsAt(c, w.tree, m, b) && CanAdvance(c, w.tree, m)
    requires BarrierOk(c, w.tree, b, w.bars[b], open, round)
    ensures WholeMoves(c, w)
  {
    AtItsBarrier(c, w.tree, m, b);
    var j := NumberAt(c, b, m);
    var u: nat;
    if Phase(c, w.tree, b, m) == 0 {
      u := Barriers.EntryProgresses(Size(c, b), Once(c, b), w.bars[b], open, round, j);
    } else {
      ReturnIsLeave(c, w.tree, m, b, j);
      u := Barriers.ReturnProgresses(Size(c, b), Once(c, b), w.bars[b], open, round, j);
    }
    InsideMoves(c, w, b, u);
  }

  lemma AdvancerMoves(c: Config, w: Whole, m: nat)
    requires WholeInv(c, w) && m <= c.N() && CanAdvance(c, w.tree, m)
    ensures WholeMoves(c, w)
  {
    if CallOf(c, w.tree, m).None? {
      OutsideMoves(c, w, m);
    } else {
      var b := CallOf(c, w.tree, m).value;
      assert InOrder(c, w.tree, b, w.bars[b]);
      var open, round :| BarrierOk(c, w.tree, b, w.bars[b], open, round);
      CallerMoves(c, w, m, b, open, round);
    }
  }

  lemma SomebodyAdvances(c: Config, s: State) returns (m: nat)
    requires Inv(c, s) && Moves(c, s)
    ensures m <= c.N() && CanAdvance(c, s, m)
  {
    var s' :| Next(c, s, s');
    if MainStep(c, s, s') {
      m := c.N();
    } else {
      m :| m < c.N() && NodeStep(c, s, m, s');
    }
  }

  ghost predicate NobodyInside(c: Config, w: Whole) {
    forall b: nat, j :: b <= c.N() && b < |w.bars| && 0 <= j < |w.bars[b].pcs| ==> w.bars[b].pcs[j] == Barriers.Enter
  }

  ghost predicate NobodyCalls(c: Config, s: State)
    requires c.Valid() && Shaped(c, s)
  {
    forall m: nat :: m <= c.N() ==> CallOf(c, s, m).None?
  }

  lemma NobodyAt(c: Config, s: State, b: nat, bar: Barriers.State)
    requires c.Valid() && Shaped(c, s) && b <= c.N() && InOrder(c, s, b, bar) && NobodyCalls(c, s)
    ensures forall j :: 0 <= j < |bar.pcs| ==> bar.pcs[j] == Barriers.Enter
  {
    var open, round :| BarrierOk(c, s, b, bar, open, round);
    forall j | 0 <= j < |bar.pcs| ensures bar.pcs[j] == Barriers.Enter {
      assert bar.pcs[j] != Barriers.Enter ==> IsAt(c, s, Members(c, b)[j], b);
    }
  }

  lemma CompleteCallsNone(c: Config, s: State)
    requires c.Valid() && Shaped(c, s) && Complete(c, s)
    ensures NobodyCalls(c, s)
  {}

  lemma NobodyAtAny(c: Config, w: Whole)
    requires c.Valid() && Shaped(c, w.tree) && |w.bars| == c.N() + 1 && NobodyCalls(c, w.tree)
    requires forall b: nat :: b <= c.N() ==> InOrder(c, w.tree, b, w.bars[b])
    ensures NobodyInside(c, w)
  {
    forall b: nat | b <= c.N() ensures forall j :: 0 <= j < |w.bars[b].pcs| ==> w.bars[b].pcs[j] == Barriers.Enter {
      NobodyAt(c, w.tree, b, w.bars[b]);
    }
  }

  lemma CompleteIsOutside(c: Config, w: Whole)
    requires WholeInv(c, w) && Complete(c, w.tree)
    ensures NobodyInside(c, w)
  {
    CompleteCallsNone(c, w.tree);
    NobodyAtAny(c, w);
  }

  // In every reachable state some thread can take a step, or all have finished and left their barriers.
  lemma WholeDeadlockFree(c: Config, w: Whole)
    requires WholeInv(c, w)
    ensures WholeMoves(c, w) || (Complete(c, w.tree) && NobodyInside(c, w))
  {
    DeadlockFree(c, w.tree);
    if Moves(c, w.tree) {
      var m := SomebodyAdvances(c, w.tree);
      AdvancerMoves(c, w, m);
    } else {
      CompleteIsOutside(c, w);
    }
  }

  // ---------- Runs ----------

  ghost function BarrierRanks(c: Config, w: Whole): seq<nat>
    requires WholeInv(c, w)
  {
    seq(c.N() + 1, b requires 0 <= b <= c.N() =>
      assert InOrder(c, w.tree, b, w.bars[b]);
      Barriers.Rank(Size(c, b), Once(c, b), w.bars[b]))
  }

  ghost function WholeRank(c: Config, w: Whole): nat
    requires WholeInv(c, w)
  {
    Rank(c, w.tree) + Total(BarrierRanks(c, w))
  }

  lemma AdvanceLowers(c: Config, s: State, m: nat)
    requires Inv(c, s) && m <= c.N() && CanAdvance(c, s, m)
    ensures Rank(c, Advanced(c, s, m)) < Rank(c, s)
  {
    if m < c.N() {
      NodeLowers(c, s, m);
    } else {
      assert MainStep(c, s, MainMoved(c, s));
      MainLowers(c, s, MainMoved(c, s));
    }
  }

  lemma OutsideLowers(c: Config, w: Whole, m: nat, w': Whole)
    requires WholeInv(c, w) && WholeInv(c, w') && OutsideStep(c, w, m, w')
    ensures WholeRank(c, w') < WholeRank(c, w)
  {
    AdvanceLowers(c, w.tree, m);
    assert BarrierRanks(c, w') == BarrierRanks(c, w);
  }

  lemma BarrierLowers(c: Config, w: Whole, m: nat, b: nat, j: nat, w': Whole)
    requires WholeInv(c, w) && InsideStep(c, w, m, b, j, w')
    ensures Barriers.Within(Size(c, b), Once(c, b), w.bars[b]) && Barriers.Within(Size(c, b), Once(c, b), w'.bars[b])
    ensures Barriers.Rank(Size(c, b), Once(c, b), w'.bars[b]) < Barriers.Rank(Size(c, b), Once(c, b), w.bars[b])
  {
    assert InOrder(c, w.tree, b, w.bars[b]);
    var open, round :| BarrierOk(c, w.tree, b, w.bars[b], open, round);
    var open', round' := BarrierMoves(c, w.tree, b, w.bars[b], j, w'.bars[b], open, round);
  }

  lemma TreeNotHigher(c: Config, w: Whole, m: nat, b: nat, j: nat, w': Whole)
    requires WholeInv(c, w) && InsideStep(c, w, m, b, j, w')
    ensures Rank(c, w'.tree) <= Rank(c, w.tree)
  {
    if w'.tree != w.tree {
      OwnInOrder(c, w.tree, m, b, w.bars[b], j, w'.bars[b]);
      AdvanceLowers(c, w.tree, m);
    }
  }

  lemma OneBarrierLowers(c: Config, w: Whole, b: nat, w': Whole)
    requires WholeInv(c, w) && WholeInv(c, w') && b <= c.N() && w'.bars == w.bars[b := w'.bars[b]]
    requires BarrierRanks(c, w')[b] < BarrierRanks(c, w)[b]
    ensures Total(BarrierRanks(c, w')) < Total(BarrierRanks(c, w))
  {
    var xs, ys := BarrierRanks(c, w), BarrierRanks(c, w');
    assert ys == xs[b := ys[b]];
    TotalUpdate(xs, b, ys[b]);
  }

  lemma InsideLowers(c: Config, w: Whole, m: nat, b: nat, j: nat, w': Whole)
    requires WholeInv(c, w) && WholeInv(c, w') && InsideStep(c, w, m, b, j, w')
    ensures WholeRank(c, w') < WholeRank(c, w)
  {
    BarrierLowers(c, w, m, b, j, w');
    TreeNotHigher(c, w, m, b, j, w');
    OneBarrierLowers(c, w, b, w');
  }

  lemma WholeStep(c: Config, w: Whole, w': Whole)
    requires WholeInv(c, w) && WholeNext(c, w, w')
    ensures WholeInv(c, w') && WholeRank(c, w') < WholeRank(c, w)
  {
    if m :| OutsideStep(c, w, m, w') {
      OutsideKeeps(c, w, m, w');
      OutsideLowers(c, w, m, w');
    } else {
      var m, b, j :| InsideStep(c, w, m, b, j, w');
      InsideKeeps(c, w, m, b, j, w');
      InsideLowers(c, w, m, b, j, w');
    }
  }

  ghost predicate IsWholeRun(c: Config, run: seq<Whole>) {
    c.Valid() && run != [] && run[0] == Start(c) && forall k :: 0 < k < |run| ==> WholeNext(c, run[k - 1], run[k])
  }

  lemma {:induction false} WholeRunInv(c: Config, run: seq<Whole>)
    requires IsWholeRun(c, run)
    ensures WholeInv(c, Start(c)) && WholeInv(c, run[|run| - 1])
    ensures WholeRank(c, run[|run| - 1]) + |run| - 1 <= WholeRank(c, Start(c))
  {
    StartInv(c);
    if |run| > 1 {
      var k := |run| - 1;
      assert IsWholeRun(c, run[..k]) && run[..k][k - 1] == run[k - 1];
      WholeRunInv(c, run[..k]);
      WholeStep(c, run[k - 1], run[k]);
    }
  }

  function MostOfBarrier(n: nat): nat {
    14 * (n + 2)
  }

  function BarrierBudget(n: nat): nat {
    (n + 1) * MostOfBarrier(n)
  }

  // A bound on the steps of a run: those of the protocol and those inside the calls of barriers.
  function WholeBudget(c: Config): nat {
    16 * c.N() + 4 + BarrierBudget(c.N())
  }

  lemma StartBarriersLow(c: Config)
    requires c.Valid() && WholeInv(c, Start(c))
    ensures forall b: nat :: b <= c.N() ==> BarrierRanks(c, Start(c))[b] <= MostOfBarrier(c.N())
  {
    forall b: nat | b <= c.N() ensures BarrierRanks(c, Start(c))[b] <= MostOfBarrier(c.N()) {
      BarrierRankBound(c, b);
    }
  }

  lemma StartBarrierRanks(n: nat, xs: seq<nat>)
    requires |xs| == n + 1 && forall b: nat :: b <= n ==> xs[b] <= MostOfBarrier(n)
    ensures Total(xs) <= BarrierBudget(n)
  {
    TotalBound(xs, MostOfBarrier(n));
  }

  lemma StartTreeRank(c: Config)
    requires c.Valid()
    ensures Rank(c, Init(c)) <= 16 * c.N() + 4
  {
    TotalBound(Left(Init(c).pcs), 15);
  }

  lemma StartRank(c: Config)
    requires c.Valid() && WholeInv(c, Start(c))
    ensures WholeRank(c, Start(c)) <= WholeBudget(c)
  {
    StartTreeRank(c);
    StartBarriersLow(c);
    StartBarrierRanks(c.N(), BarrierRanks(c, Start(c)));
  }

  lemma {:induction false} FewChildren(c: Config, b: nat, k: nat)
    requires k <= c.N()
    ensures |ChildrenOf(c, b, k)| <= k
  {
    if k > 0 { FewChildren(c, b, k - 1); }
  }

  lemma BarrierRankBound(c: Config, b: nat)
    requires c.Valid() && b <= c.N()
    ensures Barriers.Rank(Size(c, b), Once(c, b), Barriers.Init(Size(c, b))) <= MostOfBarrier(c.N())
  {
    var n := Size(c, b);
    FewChildren(c, b, c.N());
    var bar := Barriers.Init(n);
    TotalBound(seq(n, t requires 0 <= t < n => Barriers.StepsLeft(Once(c, b)[t], bar.pcs[t], bar.left[t])), 14);
  }

  // With the library's own barriers: in every state of every run, what has been printed is right.
  lemma WholeReportsAreSums(c: Config, run: seq<Whole>, i: nat)
    requires IsWholeRun(c, run) && i < c.N()
    ensures var s := run[|run| - 1].tree;
            && Shaped(c, s)
            && (s.shown[i].Some? ==> !c.Leaf(i) && s.shown[i].value == c.LeafSum(i))
            && (s.printed.Some? ==> s.printed.value == AllLeaves(c, c.N()))
  {
    WholeRunInv(c, run);
    RootSum(c, c.N());
  }

  // Every run is finite, and one that cannot go on has all threads finished, nobody inside a
  // barrier and every sum printed.
  lemma WholeRunCompletes(c: Config, run: seq<Whole>, i: nat)
    requires IsWholeRun(c, run) && i < c.N()
    ensures |run| - 1 <= WholeBudget(c)
    ensures var w := run[|run| - 1];
            !WholeMoves(c, w) ==>
              && Complete(c, w.tree) && NobodyInside(c, w)
              && w.tree.printed == Some(AllLeaves(c, c.N()))
              && (c.Leaf(i) || w.tree.shown[i] == Some(c.LeafSum(i)))
  {
    WholeRunInv(c, run);
    StartRank(c);
    RootSum(c, c.N());
    WholeDeadlockFree(c, run[|run| - 1]);
  }
}
