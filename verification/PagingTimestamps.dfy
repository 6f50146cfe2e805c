// The MMU's timestamp, the number of requests received: when it stays within its int and when it does not.
module PagingTimestamps {
  import opened Sums
  import opened PagedMemory
  import opened LruReplacement
  import opened PagingSystem
  import opened PagingInvariant
  import opened PagingSteps
  import opened PagingRank
  import Theorems = PagingTheorems

  // ---------- A bound on the rank, in every state ----------

  function RankCap(c: Config): nat {
    Combined(c.K(), 2 * Theorems.References(c.refs) + 3 * c.K() + 4, c.K() + 1, 9, c.K()) + 1
  }

  function MostWeights(refs: seq<seq<nat>>): (xs: seq<nat>)
    ensures |xs| == |refs|
  {
    seq(|refs|, i requires 0 <= i < |refs| => 2 * |refs[i]| + 3)
  }

  lemma WorkBelow(c: Config, s: State, v: View)
    requires Sized(c, s, v)
    ensures Work(c, s, v) <= 2 * Theorems.References(c.refs) + 3 * c.K() + 4
  {
    var xs, ys := MostWeights(c.refs), Weights(c, s, v);
    Theorems.InitialTotal(c.refs, xs);
    TotalRaised(xs, ys, 0);
  }

  lemma CombinedGrows(k: nat, work: nat, dist: nat, micro: nat, unread: nat, w: nat, d: nat, m: nat, u: nat)
    requires work <= w && dist <= d && micro <= m && unread <= u
    ensures Combined(k, work, dist, micro, unread) <= Combined(k, w, d, m, u)
  {
    Theorems.ProductBound(work, w, k + 2, k + 2);
    Theorems.ProductBound((work * (k + 2) + dist) * 10 + micro, (w * (k + 2) + d) * 10 + m, k + 1, k + 1);
  }

  lemma RankBelow(c: Config, s: State, v: View)
    requires Inv(c, s, v)
    ensures Sized(c, s, v) && Rank(c, s, v) < RankCap(c)
  {
    InvSized(c, s, v);
    WorkBelow(c, s, v);
    CombinedGrows(c.K(), Work(c, s, v), FirstOwner(s.mem.tables, Order(v)), Micro(v.tok, s.mmu), Unread(s.procs),
                  2 * Theorems.References(c.refs) + 3 * c.K() + 4, c.K() + 1, 9, c.K());
  }

  // ---------- Requests pay for steps ----------

  // A request has been received that may end in a fruitless load.
  predicate AtRequest(mmu: MmuPc) {
    mmu.Serving? || mmu.Loading?
  }

  ghost function Potential(c: Config, s: State, v: View): nat
    requires Sized(c, s, v)
  {
    Rank(c, s, v) + if AtRequest(s.mmu) then RankCap(c) else 0
  }

  // Without frames a load raises the rank; the request that it serves has paid for it.
  ghost predicate Paid(c: Config, s: State, v: View, s': State, v': View) {
    && Inv(c, s', v') && Sized(c, s, v) && Sized(c, s', v') && |s.log| <= |s'.log| <= |s.log| + 1
    && Potential(c, s', v') + 1 <= Potential(c, s, v) + if |s'.log| > |s.log| then RankCap(c) + 1 else 0
  }

  lemma LoadPays(c: Config, s: State, s': State, v: View) returns (v': View)
    requires Inv(c, s, v) && MmuLoadsStep(c, s, s') && c.f == 0
    ensures Paid(c, s, v, s', v')
  {
    v' := MmuLoadsKeeps(c, s, s', v);
    RankBelow(c, s, v);
    RankBelow(c, s', v');
  }

  // Only receiving a request gives the MMU one.
  lemma OthersGiveNone(c: Config, s: State, a: Action, s': State)
    requires c.Valid() && Step(c, s, a, s') && a != MmuReceives && AtRequest(s'.mmu)
    ensures AtRequest(s.mmu)
  {}

  lemma OtherStepPays(c: Config, s: State, a: Action, s': State, v: View) returns (v': View)
    requires Inv(c, s, v) && Step(c, s, a, s') && a != MmuLoads
    ensures Paid(c, s, v, s', v')
  {
    v' := StepLowers(c, s, a, s', v);
    LowerRank(c, s, v, s', v');
    LogStep(c, s, a, s');
    if a != MmuReceives && AtRequest(s'.mmu) { OthersGiveNone(c, s, a, s'); }
  }

  lemma NextPays(c: Config, s: State, s': State, v: View) returns (v': View)
    requires Inv(c, s, v) && Next(c, s, s') && c.f == 0
    ensures Paid(c, s, v, s', v')
  {
    var a :| Step(c, s, a, s');
    if a.MmuLoads? { v' := LoadPays(c, s, s', v); } else { v' := OtherStepPays(c, s, a, s', v); }
  }

  // So a long run has many requests.
  ghost predicate PaidFor(c: Config, s: State, v: View, n: int) {
    c.Valid() && Inv(c, s, v) && Sized(c, s, v) && n + Potential(c, s, v) < RankCap(c) + (RankCap(c) + 1) * |s.log|
  }

  lemma StartPaid(c: Config)
    requires c.Valid()
    ensures PaidFor(c, Init(c), InitView(c), 0)
  {
    InitInv(c);
    RankBelow(c, Init(c), InitView(c));
  }

  lemma StillPaid(c: Config, s: State, s': State, v: View, n: int) returns (v': View)
    requires PaidFor(c, s, v, n) && Next(c, s, s') && c.f == 0
    ensures PaidFor(c, s', v', n + 1)
  {
    v' := NextPays(c, s, s', v);
    var cost := RankCap(c) + 1;
    assert cost * (|s.log| + 1) == cost * |s.log| + cost;
  }

  lemma {:induction false} RunPaid(c: Config, run: seq<State>) returns (v: View)
    requires c.Valid() && IsRun(c, run) && c.f == 0
    ensures PaidFor(c, run[|run| - 1], v, |run| - 1)
  {
    var n := |run| - 1;
    if n == 0 {
      v := InitView(c);
      StartPaid(c);
    } else {
      Theorems.LastStep(c, run);
      var u := RunPaid(c, run[..n]);
      v := StillPaid(c, run[n - 1], run[n], u, n - 1);
    }
  }

  // Without frames a process that needs one makes any number of requests.
  lemma ManyRequests(c: Config, i: nat, n: nat) returns (run: seq<State>)
    requires c.Valid() && c.f == 0 && i < c.K() && Theorems.NeedsFrame(c, i)
    ensures IsRun(c, run) && |run[|run| - 1].log| > n
  {
    var cost := RankCap(c) + 1;
    run := Theorems.LongRun(c, i, RankCap(c) + cost * n);
    var v := RunPaid(c, run);
    var requests := |run[|run| - 1].log|;
    if requests <= n { Theorems.ProductBound(cost, cost, requests, n); }
  }

  // ---------- The timestamp ----------

  ghost predicate TimestampsFit(c: Config)
    requires c.Valid()
  {
    forall run: seq<State> :: IsRun(c, run) ==> |run[|run| - 1].log| < INT_MAX
  }

  lemma BudgetHolds(c: Config, run: seq<State>)
    requires c.Valid() && IsRun(c, run) && Theorems.Feasible(c) && Theorems.RequestBudget(c) < INT_MAX
    ensures |run[|run| - 1].log| <= Theorems.RequestBudget(c)
  {
    var v := Theorems.RunReached(c, run);
  }

  // Within the master's limits the timestamp stays below INT_MAX in all runs exactly if there is a
  // frame or nobody needs one.
  lemma TimestampFits(c: Config)
    requires Theorems.WithinLimits(c)
    ensures TimestampsFit(c) <==> Theorems.Feasible(c)
  {
    Theorems.BudgetFits(c);
    if Theorems.Feasible(c) {
      forall run: seq<State> | IsRun(c, run) ensures |run[|run| - 1].log| < INT_MAX {
        BudgetHolds(c, run);
      }
    } else {
      var i :| 0 <= i < c.K() && Theorems.NeedsFrame(c, i);
      var run := ManyRequests(c, i, INT_MAX);
    }
  }
}
