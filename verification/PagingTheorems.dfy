// What holds of every run of the demand paging system.
module PagingTheorems {
  import opened Sums
  import opened MessageQueues
  import opened ReferenceStrings
  import opened PagedMemory
  import opened LruReplacement
  import opened Mmus
  import opened PagingSystem
  import opened PagingInvariant
  import opened PagingSteps
  import opened PagingProgress
  import opened PagingRank

  // ---------- Budgets ----------

  function References(refs: seq<seq<nat>>): nat {
    if refs == [] then 0 else |refs[0]| + References(refs[1..])
  }

  // A bound on the requests that the MMU receives, and one on the steps of a run.
  function RequestBudget(c: Config): nat {
    (2 * References(c.refs) + 3 * c.K() + 4) * (c.K() + 2) + 1
  }

  function StepBudget(c: Config): nat {
    Combined(c.K(), 2 * References(c.refs) + 3 * c.K() + 4, 0, 7, 0)
  }

  lemma {:induction false} InitialTotal(refs: seq<seq<nat>>, xs: seq<nat>)
    requires |xs| == |refs| && forall i :: 0 <= i < |refs| ==> xs[i] == 2 * |refs[i]| + 3
    ensures Total(xs) == 2 * References(refs) + 3 * |refs|
  {
    if refs != [] { InitialTotal(refs[1..], xs[1..]); }
  }

  lemma {:induction false} NothingUnread(procs: seq<Proc>)
    requires forall i :: 0 <= i < |procs| ==> procs[i].pc != AwaitingReply
    ensures Unread(procs) == 0
  {
    TotalBound(UnreadFlags(procs), 0);
  }

  lemma InitialRank(c: Config)
    requires c.Valid()
    ensures Sized(c, Init(c), InitView(c))
    ensures Rank(c, Init(c), InitView(c)) == StepBudget(c)
    ensures RequestsLeft(c, Init(c), InitView(c)) == RequestBudget(c)
  {
    InitialTotal(c.refs, Weights(c, Init(c), InitView(c)));
    NothingUnread(Init(c).procs);
  }

  lemma {:induction false} ReferencesBound(refs: seq<seq<nat>>, b: nat)
    requires forall i :: 0 <= i < |refs| ==> |refs[i]| <= b
    ensures References(refs) <= |refs| * b
  {
    if refs != [] { ReferencesBound(refs[1..], b); }
  }

  lemma ProductBound(a: nat, b: nat, x: nat, y: nat)
    requires a <= b && x <= y
    ensures a * x <= b * y
  {
    assert b * y == a * x + (b - a) * y + a * (y - x);
  }

  // The master's limits: 100 processes of at most 25 pages and at most 10 references per page.
  ghost predicate WithinLimits(c: Config) {
    c.Valid() && c.K() <= 100 && forall i :: 0 <= i < c.K() ==> c.need[i] <= 25 && |c.refs[i]| <= 10 * c.need[i]
  }

  // What the master makes of a space of c.rows pages: at least two references per page that a process
  // needs, each to a page of the space.
  ghost predicate MasterMakes(c: Config) {
    && WithinLimits(c) && c.rows <= 25
    && forall i :: 0 <= i < c.K() ==>
         1 <= c.need[i] && 2 * c.need[i] <= |c.refs[i]| && forall n :: 0 <= n < |c.refs[i]| ==> c.refs[i][n] < c.rows
  }

  lemma BudgetFits(c: Config)
    requires WithinLimits(c)
    ensures RequestBudget(c) < INT_MAX
  {
    ReferencesBound(c.refs, 250);
    var w := 2 * References(c.refs) + 3 * c.K() + 4;
    ProductBound(w, 50304, c.K() + 2, 102);
  }

  // ---------- Single token ----------

  // What it means, in terms of the state alone, that a place of the system holds the right to proceed.
  ghost predicate HasToken(c: Config, s: State, t: Token)
    requires c.Valid() && |s.procs| == c.K() && (!t.Chosen? && !t.Finished? ==> t.p < c.K())
  {
    match t
    case Chosen => s.sched == Choosing
    case Finished => s.sched == Exited
    case Dispatched(p) => s.sched == Dispatching(c.pids[p])
    case Requeued(p) => s.sched == Requeueing(c.pids[p])
    case Resumed(p) => OfType(s.q1, c.pids[p]) != []
    case Running(p) => s.procs[p].pc == AtHead
    case Requested(p) => exists n :: 0 <= n < |OfType(s.q3, 1)| && OfType(s.q3, 1)[n].0 == c.pids[p]
    case InMmu(p) => MmuWith(s.mmu, p)
    case Replied(p) => exists n :: 0 <= n < |OfType(s.q3, c.pids[p])| && OfType(s.q3, c.pids[p])[n].1 >= 0
    case Noticed(p, over) => Msg(if over then 2 else 1, c.pids[p]) in s.q2
  }

  // A token that is a message of queue 1 or 3.
  predicate IsMessage(t: Token) {
    t.Resumed? || t.Requested? || t.Replied?
  }

  lemma MessageIsToken(c: Config, s: State, v: View, t: Token)
    requires Inv(c, s, v) && IsMessage(t) && t.p < c.K()
    ensures HasToken(c, s, t) <==> t == v.tok
  {
    assert Local(c, s, v, t.p);
    if t.Requested? && t == v.tok {
      assert OfType(s.q3, 1)[0].0 == c.pids[t.p];
    } else if t.Replied? && t == v.tok {
      assert OfType(s.q3, c.pids[t.p])[0].1 >= 0;
    }
  }

  lemma TokenElsewhere(c: Config, s: State, v: View, t: Token)
    requires Inv(c, s, v) && !t.Chosen? && !t.Finished? && t.p < c.K()
    ensures HasToken(c, s, t) <==> t == v.tok
  {
    if IsMessage(t) {
      MessageIsToken(c, s, v, t);
    } else {
      assert Local(c, s, v, t.p);
    }
  }

  // In every reachable state exactly one place holds it; so at most one request awaits the MMU.
  lemma SingleToken(c: Config, s: State, v: View, t: Token)
    requires Inv(c, s, v) && (!t.Chosen? && !t.Finished? ==> t.p < c.K())
    ensures HasToken(c, s, t) <==> t == v.tok
    ensures |OfType(s.q3, 1)| <= 1
  {
    if !t.Chosen? && !t.Finished? {
      TokenElsewhere(c, s, v, t);
    }
  }

  datatype Place = Starts | Waits | Proceeds | Gone

  // Process i has not asked to be scheduled yet, is in the ready queue, is where the right to
  // proceed is, or is over and nobody deals with it any more.
  ghost predicate IsAt(c: Config, s: State, tok: Token, i: nat, place: Place)
    requires c.Valid() && i < c.K() && |s.procs| == c.K()
  {
    match place
    case Starts => s.procs[i].pc == Unborn || s.procs[i].pc == Starting
    case Waits => c.pids[i] in OfType(s.q1, 1)
    case Proceeds => HeldBy(tok, i)
    case Gone => Over(s.procs[i], OfType(s.q3, c.pids[i])) && !HeldBy(tok, i)
  }

  lemma QueuedIsWaiting(c: Config, s: State, v: View, i: nat)
    requires Inv(c, s, v) && i < c.K()
    ensures c.pids[i] in OfType(s.q1, 1) <==> v.stage[i] == Queued
  {
    if c.pids[i] in OfType(s.q1, 1) {
      var n :| 0 <= n < |v.ready| && OfType(s.q1, 1)[n] == c.pids[i];
      assert v.ready[n] == i;
    }
    if v.stage[i] == Queued {
      var n :| 0 <= n < |v.ready| && v.ready[n] == i;
      assert OfType(s.q1, 1)[n] == c.pids[i];
    }
  }

  // Every process is in one and only one place; the ready queue holds nobody twice, and who is in
  // it waits for a run message.
  lemma OnePlacePerProcess(c: Config, s: State, v: View, i: nat) returns (place: Place)
    requires Inv(c, s, v) && i < c.K()
    ensures forall q: Place :: IsAt(c, s, v.tok, i, q) <==> q == place
    ensures c.pids[i] in OfType(s.q1, 1) ==> Waiting(s.procs[i], OfType(s.q3, c.pids[i]))
    ensures forall a, b :: 0 <= a < b < |OfType(s.q1, 1)| ==> OfType(s.q1, 1)[a] != OfType(s.q1, 1)[b]
  {
    assert Local(c, s, v, i);
    QueuedIsWaiting(c, s, v, i);
    place := match v.stage[i] case Unforked => Starts case Born => Starts case Queued => Waits
                              case Held => Proceeds case Ended => Gone;
  }

  // ---------- Outcome ----------

  // The pages before the first illegal one.
  function LegalPrefix(pages: seq<nat>, need: nat): seq<nat> {
    if pages == [] || pages[0] >= need then [] else [pages[0]] + LegalPrefix(pages[1..], need)
  }

  lemma {:induction false} PrefixIsLegal(pages: seq<nat>, need: nat, j: nat)
    requires j <= |pages| && (forall n :: 0 <= n < j ==> pages[n] < need)
    requires j == |pages| || pages[j] >= need
    ensures LegalPrefix(pages, need) == pages[..j]
  {
    if j > 0 {
      PrefixIsLegal(pages[1..], need, j - 1);
      assert pages[..j] == [pages[0]] + pages[1..][..j - 1];
    }
  }

  // When the scheduler posts, what each process has been granted is the legal prefix of its
  // reference string, whatever the schedule was, and all frames and page tables are clean.
  lemma OutcomeAtPost(c: Config, s: State, v: View)
    requires Inv(c, s, v) && s.sched == Exited
    ensures forall i :: 0 <= i < c.K() ==> s.procs[i].granted == LegalPrefix(c.refs[i], c.need[i])
    ensures forall i :: 0 <= i < c.K() ==>
              (s.procs[i].pc == Done <==> LegalPrefix(c.refs[i], c.need[i]) == c.refs[i])
    ensures |s.mem.tables| == c.K() && forall i :: 0 <= i < c.K() ==> Empty(s.mem.tables[i])
    ensures |s.mem.frames| == c.f + 1 && forall x :: 0 <= x < c.f ==> s.mem.frames[x] == 1
  {
    NobodyAlive(v.stage);
    forall i | 0 <= i < c.K()
      ensures s.procs[i].granted == LegalPrefix(c.refs[i], c.need[i])
      ensures s.procs[i].pc == Done <==> LegalPrefix(c.refs[i], c.need[i]) == c.refs[i]
    {
      assert Local(c, s, v, i);
      PrefixIsLegal(c.refs[i], c.need[i], |s.procs[i].granted|);
    }
    assert forall i :: 0 <= i < c.K() ==> Empty(s.mem.tables[i]);
    forall x | 0 <= x < c.f ensures s.mem.frames[x] == 1 {
      OccupiedIffMappedOnce(s.mem, v.ow, x);
    }
  }

  // ---------- Runs ----------

  // The first page of the process is legal: it needs a frame to get anywhere.
  predicate NeedsFrame(c: Config, i: nat)
    requires i < |c.refs| && i < |c.need|
  {
    c.refs[i] != [] && c.refs[i][0] < c.need[i]
  }

  // There is a frame, or nobody needs one.
  ghost predicate Feasible(c: Config)
    requires c.Valid()
  {
    c.f >= 1 || forall i :: 0 <= i < c.K() ==> !NeedsFrame(c, i)
  }

  // Without frames nobody is ever granted a page.
  ghost predicate Ungranted(c: Config, s: State) {
    c.f == 0 ==> forall i :: 0 <= i < |s.procs| ==> s.procs[i].granted == []
  }

  // Only reading a reply grants a page.
  lemma GrantsOnlyByReading(c: Config, s: State, a: Action, s': State)
    requires c.Valid() && Step(c, s, a, s') && !a.ProcReads?
    ensures |s'.procs| == |s.procs| && forall i :: 0 <= i < |s.procs| ==> s'.procs[i].granted == s.procs[i].granted
  {}

  lemma NothingReplied(c: Config, s: State, v: View)
    requires Inv(c, s, v) && c.f == 0
    ensures !v.tok.Replied?
  {
    if v.tok.Replied? {
      MappedIsRequired(s.mem, v.ow, v.tok.p, s.procs[v.tok.p].page);
    }
  }

  lemma ReadGrants(c: Config, s: State, p: nat, s': State, v: View)
    requires c.Valid() && Locals(c, s, v) && HolderOk(c, v.tok, v.stage) && p < c.K() && ProcReadsStep(c, s, p, s')
    requires v.tok != Replied(p)
    ensures s'.procs[p].granted == s.procs[p].granted
  {
    assert Local(c, s, v, p);
  }

  lemma StepUngranted(c: Config, s: State, a: Action, s': State, v: View)
    requires Inv(c, s, v) && Step(c, s, a, s') && Ungranted(c, s)
    ensures Ungranted(c, s')
  {
    if c.f == 0 {
      if a.ProcReads? {
        NothingReplied(c, s, v);
        ReadGrants(c, s, a.p, s', v);
      } else {
        GrantsOnlyByReading(c, s, a, s');
      }
    }
  }

  // So a load without frames is asked for by a process that needs one.
  lemma LoadNeedsFrame(c: Config, s: State, a: Action, s': State, v: View)
    requires Inv(c, s, v) && Step(c, s, a, s') && Ungranted(c, s)
    ensures c.f >= 1 || a != MmuLoads || exists i :: 0 <= i < c.K() && NeedsFrame(c, i)
  {
    if c.f == 0 && a == MmuLoads {
      assert Local(c, s, v, v.tok.p);
      assert NeedsFrame(c, v.tok.p);
    }
  }

  lemma FeasibleLoads(c: Config, s: State, a: Action, s': State, v: View)
    requires Inv(c, s, v) && Step(c, s, a, s') && Ungranted(c, s) && Feasible(c)
    ensures c.f >= 1 || a != MmuLoads
  {
    LoadNeedsFrame(c, s, a, s', v);
  }

  // What holds after n steps of a run: the invariant, the rank pays for every step and the timestamps
  // stay within their budget.
  ghost predicate Reached(c: Config, s: State, v: View, n: int) {
    && c.Valid() && Inv(c, s, v) && Sized(c, s, v) && Ungranted(c, s)
    && Rank(c, s, v) + n <= StepBudget(c)
    && |s.log| + RequestsLeft(c, s, v) <= RequestBudget(c)
  }

  lemma InitReached(c: Config)
    requires c.Valid()
    ensures Reached(c, Init(c), InitView(c), 0)
  {
    InitInv(c);
    InitialRank(c);
  }

  lemma StepReached(c: Config, s: State, a: Action, s': State, u: View, n: int) returns (v: View)
    requires Reached(c, s, u, n) && Step(c, s, a, s') && Feasible(c) && RequestBudget(c) < INT_MAX
    ensures Reached(c, s', v, n + 1)
  {
    FeasibleLoads(c, s, a, s', u);
    StepUngranted(c, s, a, s', u);
    v := StepLowers(c, s, a, s', u);
    LogStep(c, s, a, s');
    LowerRank(c, s, u, s', v);
    LowerRequests(c, s, u, s', v);
  }

  lemma NextReached(c: Config, s: State, s': State, u: View, n: int) returns (v: View)
    requires Reached(c, s, u, n) && Next(c, s, s') && Feasible(c) && RequestBudget(c) < INT_MAX
    ensures Reached(c, s', v, n + 1)
  {
    var a :| Step(c, s, a, s');
    v := StepReached(c, s, a, s', u, n);
  }

  lemma LastStep(c: Config, run: seq<State>)
    requires c.Valid() && IsRun(c, run) && |run| > 1
    ensures var n := |run| - 1; IsRun(c, run[..n]) && run[..n][n - 1] == run[n - 1] && Next(c, run[n - 1], run[n])
  {}

  lemma {:induction false} RunReached(c: Config, run: seq<State>) returns (v: View)
    requires c.Valid() && IsRun(c, run) && Feasible(c) && RequestBudget(c) < INT_MAX
    ensures Reached(c, run[|run| - 1], v, |run| - 1)
  {
    var n := |run| - 1;
    if n == 0 {
      v := InitView(c);
      InitReached(c);
    } else {
      LastStep(c, run);
      var u := RunReached(c, run[..n]);
      v := NextReached(c, run[n - 1], run[n], u, n - 1);
    }
  }

  // No feasible run is longer than the budget, and a run that cannot be continued has ended in the
  // scheduler's post: no schedule deadlocks or retries for ever.
  lemma EveryRunCompletes(c: Config, run: seq<State>)
    requires c.Valid() && IsRun(c, run) && Feasible(c) && RequestBudget(c) < INT_MAX
    ensures |run| <= StepBudget(c) + 1
    ensures Stuck(c, run[|run| - 1]) ==> Completed(c, run[|run| - 1])
  {
    var v := RunReached(c, run);
    DeadlockFree(c, run[|run| - 1], v);
  }

  lemma {:induction false} RunInvNoFrames(c: Config, run: seq<State>) returns (v: View)
    requires c.Valid() && IsRun(c, run) && c.f == 0
    ensures Inv(c, run[|run| - 1], v) && Ungranted(c, run[|run| - 1])
  {
    if |run| == 1 {
      v := InitView(c);
      InitInv(c);
    } else {
      var n := |run| - 1;
      assert IsRun(c, run[..n]) && run[..n][n - 1] == run[n - 1];
      var u := RunInvNoFrames(c, run[..n]);
      assert Next(c, run[n - 1], run[n]);
      var a :| Step(c, run[n - 1], a, run[n]);
      StepUngranted(c, run[n - 1], a, run[n], u);
      v := StepKeepsNoFrames(c, run[n - 1], a, run[n], u);
    }
  }

  // Without a frame, a process that needs one keeps the scheduler busy for ever.
  lemma NeverCompletes(c: Config, run: seq<State>, i: nat)
    requires c.Valid() && IsRun(c, run) && c.f == 0 && i < c.K() && NeedsFrame(c, i)
    ensures run[|run| - 1].sched != Exited && !Stuck(c, run[|run| - 1])
  {
    var s := run[|run| - 1];
    var v := RunInvNoFrames(c, run);
    assert LegalPrefix(c.refs[i], c.need[i]) != [];
    if s.sched == Exited { OutcomeAtPost(c, s, v); }
    DeadlockFree(c, s, v);
  }

  lemma {:induction false} LongRun(c: Config, i: nat, n: nat) returns (run: seq<State>)
    requires c.Valid() && c.f == 0 && i < c.K() && NeedsFrame(c, i)
    ensures IsRun(c, run) && |run| == n + 1
  {
    if n == 0 {
      run := [Init(c)];
    } else {
      run := LongRun(c, i, n - 1);
      NeverCompletes(c, run, i);
      var s' :| Next(c, run[n - 1], s');
      run := run + [s'];
    }
  }

  ghost predicate RunsWithin(c: Config, b: nat)
    requires c.Valid()
  {
    forall run :: IsRun(c, run) ==> |run| <= b
  }

  // Exactly when the length of runs is bounded: when there is a frame, or nobody needs one.
  lemma BoundedIffFeasible(c: Config)
    requires c.Valid() && RequestBudget(c) < INT_MAX
    ensures Feasible(c) <==> exists b: nat :: RunsWithin(c, b)
  {
    if Feasible(c) {
      forall run | IsRun(c, run) ensures |run| <= StepBudget(c) + 1 {
        EveryRunCompletes(c, run);
      }
      assert RunsWithin(c, StepBudget(c) + 1);
    } else {
      var i :| 0 <= i < c.K() && NeedsFrame(c, i);
      forall b: nat ensures !RunsWithin(c, b) {
        var run := LongRun(c, i, b);
      }
    }
  }

  // ---------- Memory in every reachable state ----------

  // Every frame is free or mapped by exactly one required page, the valid bit says whether a page
  // is mapped, and free frames and resident pages make up all frames.
  ghost predicate FramesAgree(m: Memory, f: nat) {
    && |m.frames| == f + 1
    && (forall x: nat :: x < f ==> m.frames[x] in {0, 1})
    && (forall x: nat :: x < f ==> (m.frames[x] == 0 <==> exists i, j :: HoldsFrame(m, i, j, x)))
    && (forall i, j :: 0 <= i < |m.tables| && 0 <= j < |m.tables[i]| ==>
        (m.tables[i][j].valid == 1 <==> m.tables[i][j].frame != -1))
    && |FreeFrames(m)| + |ResidentPages(m)| == f
  }

  lemma FramesInEveryState(c: Config, s: State, v: View)
    requires Inv(c, s, v)
    ensures FramesAgree(s.mem, c.f)
  {
    forall x: nat | x < c.f
      ensures s.mem.frames[x] in {0, 1} && (s.mem.frames[x] == 0 <==> exists i, j :: HoldsFrame(s.mem, i, j, x))
    {
      OccupiedIffMappedOnce(s.mem, v.ow, x);
    }
    forall i, j | 0 <= i < |s.mem.tables| && 0 <= j < |s.mem.tables[i]|
      ensures s.mem.tables[i][j].valid == 1 <==> s.mem.tables[i][j].frame != -1
    {
      assert EntryAgrees(s.mem, v.ow, i, j);
    }
    FramesConserved(s.mem, v.ow);
  }

  // LRU stack property: the resident pages of a process are its |R| most recently requested ones,
  // with the time of their last request as timestamp. A request that the MMU has received but not
  // finished is not counted yet.
  ghost predicate HoldsItsStack(t: Table, need: nat, log: Log, i: nat) {
    && need <= |t| && MostRecent(t, need, log, i)
    && forall j: nat :: j in Resident(t, need) ==> t[j].stamp == LastTime(log, i, j)
  }

  lemma StackInEveryState(c: Config, s: State, v: View, i: nat)
    requires Inv(c, s, v) && i < c.K()
    ensures |s.mem.tables| == c.K() && HoldsItsStack(s.mem.tables[i], c.need[i], Served(s.log, v.tok, i), i)
  {
    assert Stacked(s.mem.tables[i], c.need[i], Served(s.log, v.tok, i), i);
    ResidentIsMostRecent(s.mem.tables[i], c.need[i], Served(s.log, v.tok, i), i);
  }

  // The MMU's steps for one request add up to what its request handler does, at the time of the log.
  lemma MmuTurnIsHandled(c: Config, s: State, s1: State, s2: State)
    requires MmuServesStep(c, s, s1)
    requires (s1.mmu == Receiving && s2 == s1) || MmuReleasesStep(c, s1, s2) || MmuLoadsStep(c, s1, s2)
    ensures var done := Handled(s.mem, s.mmu.idx, s.mmu.page, |s.log|);
            && s2.mem == done.mem && s2.mmu == Receiving
            && s2.q2 == s.q2 + (if done.notice.Some? then [Msg(done.notice.value, c.pids[s.mmu.idx])] else [])
            && s2.q3 == s.q3 + if done.reply.Some? then [Msg(c.pids[s.mmu.idx], (c.pids[s.mmu.idx], done.reply.value))]
                               else []
  {}

  // ---------- The same, of every run ----------

  // Every state of every run satisfies the invariant, whatever the number of frames.
  lemma ReachableInv(c: Config, run: seq<State>) returns (v: View)
    requires c.Valid() && IsRun(c, run) && RequestBudget(c) < INT_MAX
    ensures Inv(c, run[|run| - 1], v)
  {
    if c.f == 0 { v := RunInvNoFrames(c, run); } else { v := RunReached(c, run); }
  }

  // In every reachable state exactly one place holds the right to proceed.
  lemma ExactlyOneToken(c: Config, run: seq<State>) returns (tok: Token)
    requires c.Valid() && IsRun(c, run) && RequestBudget(c) < INT_MAX
    ensures |run[|run| - 1].procs| == c.K()
    ensures forall t: Token :: (t.Chosen? || t.Finished? || t.p < c.K()) ==>
            (HasToken(c, run[|run| - 1], t) <==> t == tok)
    ensures |OfType(run[|run| - 1].q3, 1)| <= 1
  {
    var v := ReachableInv(c, run);
    tok := v.tok;
    forall t: Token | t.Chosen? || t.Finished? || t.p < c.K() ensures HasToken(c, run[|run| - 1], t) <==> t == tok {
      SingleToken(c, run[|run| - 1], v, t);
    }
    SingleToken(c, run[|run| - 1], v, Chosen);
  }

  // The outcome is the same on every run that gets to the scheduler's post.
  lemma OutcomeOfRun(c: Config, run: seq<State>)
    requires c.Valid() && IsRun(c, run) && RequestBudget(c) < INT_MAX && run[|run| - 1].sched == Exited
    ensures var s := run[|run| - 1];
            && |s.procs| == |s.mem.tables| == c.K() && |s.mem.frames| == c.f + 1
            && (forall i :: 0 <= i < c.K() ==> s.procs[i].granted == LegalPrefix(c.refs[i], c.need[i]))
            && (forall i :: 0 <= i < c.K() ==>
                (s.procs[i].pc == Done <==> LegalPrefix(c.refs[i], c.need[i]) == c.refs[i]))
            && (forall i :: 0 <= i < c.K() ==> Empty(s.mem.tables[i]))
            && (forall x :: 0 <= x < c.f ==> s.mem.frames[x] == 1)
  {
    var v := ReachableInv(c, run);
    OutcomeAtPost(c, run[|run| - 1], v);
  }

  // In every reachable state marks, valid bits and mappings agree and frames are conserved, and each
  // process holds its most recently requested pages, up to the request of the one in the MMU.
  lemma MemoryOfRun(c: Config, run: seq<State>, i: nat) returns (tok: Token)
    requires c.Valid() && IsRun(c, run) && RequestBudget(c) < INT_MAX && i < c.K()
    ensures var s := run[|run| - 1];
            && |s.procs| == |s.mem.tables| == c.K()
            && (tok.Chosen? || tok.Finished? || tok.p < c.K()) && HasToken(c, s, tok)
            && FramesAgree(s.mem, c.f)
            && HoldsItsStack(s.mem.tables[i], c.need[i], Served(s.log, tok, i), i)
  {
    var v := ReachableInv(c, run);
    tok := v.tok;
    SingleToken(c, run[|run| - 1], v, tok);
    FramesInEveryState(c, run[|run| - 1], v);
    StackInEveryState(c, run[|run| - 1], v, i);
  }
}
