// The paging system with one process: whatever the schedule, the MMU's log and fault total are those
// of the reference string served by itself, so more frames never cause more faults.
module PagingAlone {
  import opened MessageQueues
  import opened ReferenceStrings
  import opened PagedMemory
  import opened LruReplacement
  import opened Mmus
  import opened PagingSystem
  import opened PagingInvariant
  import opened PagingProgress
  import opened PagingRank
  import Theorems = PagingTheorems

  // One process, at least one frame, and timestamps within their budget.
  ghost predicate Alone(c: Config) {
    c.Valid() && c.K() == 1 && c.f >= 1 && Theorems.RequestBudget(c) < INT_MAX
  }

  lemma AloneFits(c: Config)
    requires Alone(c)
    ensures 2 * |c.refs[0]| < INT_MAX
  {
    assert Theorems.References(c.refs) == |c.refs[0]| + Theorems.References(c.refs[1..]);
  }

  ghost predicate AllLegal(c: Config, j: nat)
    requires Alone(c)
  {
    j <= |c.refs[0]| && forall n :: 0 <= n < j ==> c.refs[0][n] < c.need[0]
  }

  // Memory and log after the first j pages of the process, served by themselves.
  function After(c: Config, j: nat): Run
    requires Alone(c) && AllLegal(c, j)
  {
    LruReplacement.References(c.f, c.rows, c.need[0], c.refs[0][..j])
  }

  lemma AfterNext(c: Config, j: nat)
    requires Alone(c) && j < |c.refs[0]| && AllLegal(c, j + 1)
    ensures After(c, j + 1) == Reference(After(c, j), c.refs[0][j])
  {
    assert c.refs[0][..j + 1][..j] == c.refs[0][..j];
  }

  // After j pages; the next one may have had its fault already.
  ghost predicate Between(c: Config, r: Run, j: nat)
    requires Alone(c)
  {
    && AllLegal(c, j)
    && (r == After(c, j)
        || (j < |c.refs[0]| && AllLegal(c, j + 1) && !Hit(After(c, j).mem, 0, c.refs[0][j])
            && r == FaultStep(After(c, j), c.refs[0][j])))
  }

  lemma SecondTryHits(c: Config, j: nat)
    requires Alone(c) && j < |c.refs[0]| && AllLegal(c, j + 1) && !Hit(After(c, j).mem, 0, c.refs[0][j])
    ensures Hit(FaultStep(After(c, j), c.refs[0][j]).mem, 0, c.refs[0][j])
  {
    AloneFits(c);
    var ow := ReferencesInv(c.f, c.rows, c.need[0], c.refs[0][..j]);
    ow := FaultKeepsRunInv(After(c, j), ow, c.need[0], c.f, c.refs[0][j]);
  }

  // ---------- The state of the system ----------

  function Replies(c: Config, s: State): seq<(nat, int)>
    requires c.pids != []
  {
    OfType(s.q3, c.pids[0])
  }

  // The last request of the process: for its first illegal page, or the one to terminate.
  function LastPage(c: Config, j: nat): int
    requires Alone(c)
  {
    if j >= |c.refs[0]| then TERMINATE else c.refs[0][j]
  }

  // All legal pages have been served and the process has made its last request.
  ghost predicate Closed(c: Config, faults: seq<nat>, log: Log, j: nat)
    requires Alone(c)
  {
    && AllLegal(c, j) && !AllLegal(c, j + 1)
    && faults == After(c, j).mem.faults && log == After(c, j).log + [Request(0, LastPage(c, j))]
  }

  // The MMU has received a request and not finished it.
  ghost predicate Busy(c: Config, mmu: MmuPc, mem: Memory, log: Log, j: nat)
    requires Alone(c)
  {
    && log != []
    && var pre := log[..|log| - 1];
       match mmu
       case Serving(_, _) => Between(c, Run(mem, pre), j)
       case Loading(_, _) => j < |c.refs[0]| && AllLegal(c, j + 1) && !Hit(After(c, j).mem, 0, c.refs[0][j])
                             && mem == CountFault(After(c, j).mem, 0)
                             && log == After(c, j).log + [Request(0, c.refs[0][j])]
       case Releasing(_) => Closed(c, mem.faults, log, j)
       case _ => false
  }

  predicate AtWork(mmu: MmuPc) {
    mmu.Serving? || mmu.Loading? || mmu.Releasing?
  }

  // What memory and log are, in terms of the pages granted so far and of where the request is.
  ghost predicate Matches(c: Config, s: State)
    requires Alone(c)
  {
    && |s.procs| == 1
    && var (p, r3) := (s.procs[0], Replies(c, s));
       var j := |p.granted|;
       if AtWork(s.mmu) then Busy(c, s.mmu, s.mem, s.log, j)
       else if Over(p, r3) && OfType(s.q3, 1) == [] then Closed(c, s.mem.faults, s.log, j)
       else if r3 != [] && r3[0].1 >= 0 then
         j < |c.refs[0]| && AllLegal(c, j + 1) && Run(s.mem, s.log) == After(c, j + 1)
       else Between(c, Run(s.mem, s.log), j)
  }

  lemma InitMatches(c: Config)
    requires Alone(c)
    ensures Matches(c, Init(c))
  {
    assert c.need == [c.need[0]];
  }

  // What the invariant says of the only process.
  lemma OnlyProcess(c: Config, s: State, v: View)
    requires Alone(c) && Inv(c, s, v)
    ensures |s.procs| == 1 && Local(c, s, v, 0) && AllLegal(c, |s.procs[0].granted|)
    ensures s.mem.need == c.need && Shaped(s.mem) && |s.mem.tables| == 1
  {}

  // Nobody is serving, granting or ending anything.
  ghost predicate Idle(c: Config, s: State)
    requires Alone(c) && |s.procs| == 1
  {
    && !AtWork(s.mmu)
    && !(Over(s.procs[0], Replies(c, s)) && OfType(s.q3, 1) == [])
    && (Replies(c, s) != [] ==> Replies(c, s)[0].1 < 0)
  }

  lemma IdleMatches(c: Config, s: State)
    requires Alone(c) && |s.procs| == 1 && Idle(c, s)
    ensures Matches(c, s) <==> Between(c, Run(s.mem, s.log), |s.procs[0].granted|)
  {}

  lemma RunningIdle(c: Config, s: State, v: View)
    requires Alone(c) && Inv(c, s, v) && s.procs[0].pc == AtHead
    ensures Idle(c, s)
  {
    OnlyProcess(c, s, v);
  }

  lemma RequestedIdle(c: Config, s: State, v: View)
    requires Alone(c) && Inv(c, s, v) && OfType(s.q3, 1) != []
    ensures Idle(c, s) && v.tok == Requested(0) && s.procs[0].pc in {Done, AwaitingReply}
  {
    OnlyProcess(c, s, v);
  }

  lemma WaitingIdle(c: Config, s: State, v: View)
    requires Alone(c) && Inv(c, s, v) && !AtWork(s.mmu) && Waiting(s.procs[0], Replies(c, s))
    ensures Idle(c, s)
  {
    OnlyProcess(c, s, v);
  }

  // ---------- Steps ----------

  // A step that leaves memory, log, MMU and replies alone, grants nothing and ends nothing.
  ghost predicate Quiet(c: Config, s: State, s': State)
    requires Alone(c)
  {
    && s'.mem == s.mem && s'.log == s.log && AtWork(s'.mmu) == AtWork(s.mmu) && (AtWork(s.mmu) ==> s'.mmu == s.mmu)
    && |s.procs| == |s'.procs| == 1 && s'.procs[0].granted == s.procs[0].granted && Replies(c, s') == Replies(c, s)
    && (Over(s'.procs[0], Replies(c, s')) && OfType(s'.q3, 1) == [] <==>
        Over(s.procs[0], Replies(c, s)) && OfType(s.q3, 1) == [])
  }

  lemma QuietMatches(c: Config, s: State, s': State)
    requires Alone(c) && Matches(c, s) && Quiet(c, s, s')
    ensures Matches(c, s')
  {}

  lemma SchedulerIsQuiet(c: Config, s: State, a: Action, s': State)
    requires Alone(c) && |s.procs| == 1 && Step(c, s, a, s') && OfScheduler(a)
    ensures Quiet(c, s, s')
  {}

  lemma MasterIsQuiet(c: Config, s: State, a: Action, s': State, v: View)
    requires Alone(c) && Inv(c, s, v) && Step(c, s, a, s') && OfMaster(a)
    ensures Quiet(c, s, s')
  {
    OnlyProcess(c, s, v);
  }

  lemma BootIsQuiet(c: Config, s: State, s': State)
    requires Alone(c) && |s.procs| == 1 && MmuBootsStep(c, s, s')
    ensures Quiet(c, s, s')
  {}

  lemma RunMessageIsQuiet(c: Config, s: State, a: Action, s': State)
    requires Alone(c) && |s.procs| == 1 && Step(c, s, a, s')
    requires a.ProcStarts? || a.ProcFirstRuns? || a.ProcResumes?
    ensures Quiet(c, s, s')
  {}

  lemma RequestMatches(c: Config, s: State, p: nat, s': State, v: View, v': View)
    requires Alone(c) && Matches(c, s) && Inv(c, s, v) && Inv(c, s', v') && p < c.K() && ProcRequestsStep(c, s, p, s')
    ensures Matches(c, s')
  {
    RunningIdle(c, s, v);
    IdleMatches(c, s);
    SendAll(s.q3, s'.q3[|s.q3|]);
    RequestedIdle(c, s', v');
    IdleMatches(c, s');
  }

  lemma ReadFacts(c: Config, s: State, s': State, v: View)
    requires Alone(c) && Inv(c, s, v) && |s.procs| == 1 && ProcReadsStep(c, s, 0, s')
    ensures |Replies(c, s)| == 1 && Replies(c, s') == [] && OfType(s'.q3, 1) == OfType(s.q3, 1)
    ensures OfType(s.q3, 1) == [] && (Replies(c, s)[0].1 >= 0 ==> !AtWork(s.mmu))
    ensures Replies(c, s)[0].1 in {FAULT, ILLEGAL} || Replies(c, s)[0].1 >= 0
  {
    OnlyProcess(c, s, v);
    TakeByProcess(c, s.q3, 0);
  }

  lemma ReadMatches(c: Config, s: State, p: nat, s': State, v: View)
    requires Alone(c) && Matches(c, s) && Inv(c, s, v) && p < c.K() && ProcReadsStep(c, s, p, s')
    ensures Matches(c, s')
  {
    ReadFacts(c, s, s', v);
  }

  lemma ReceiveMatches(c: Config, s: State, s': State, v: View, v': View)
    requires Alone(c) && Matches(c, s) && Inv(c, s, v) && Inv(c, s', v') && MmuReceivesStep(c, s, s')
    ensures Matches(c, s')
  {
    RequestedIdle(c, s, v);
    IdleMatches(c, s);
    assert s'.mmu.Serving? by { OnlyProcess(c, s', v'); }
    assert s'.log[..|s.log|] == s.log;
  }

  // What the MMU is asked for while it serves the only process.
  lemma Asked(c: Config, s: State, v: View)
    requires Alone(c) && Inv(c, s, v) && s.mmu.Serving?
    ensures s.mmu.idx == 0 && s.log != [] && s.log == s.log[..|s.log| - 1] + [Request(0, s.mmu.page)]
    ensures s.mmu.page == LastPage(c, |s.procs[0].granted|)
    ensures s.procs[0].pc == (if s.mmu.page == TERMINATE then Done else AwaitingReply)
    ensures Replies(c, s) == [] && OfType(s.q3, 1) == []
  {
    OnlyProcess(c, s, v);
  }

  lemma TerminationMatches(c: Config, s: State, s': State, v: View)
    requires Alone(c) && Matches(c, s) && Inv(c, s, v) && MmuServesStep(c, s, s') && s.mmu.page == TERMINATE
    ensures Matches(c, s')
  {
    OnlyProcess(c, s, v);
    Asked(c, s, v);
  }

  lemma IllegalMatches(c: Config, s: State, s': State, v: View)
    requires Alone(c) && Matches(c, s) && Inv(c, s, v) && MmuServesStep(c, s, s')
    requires s.mmu.page != TERMINATE && s.mmu.page >= c.need[0]
    ensures Matches(c, s')
  {
    OnlyProcess(c, s, v);
    Asked(c, s, v);
  }

  // A hit completes the reference, at the first try or at the second.
  lemma HitCompletes(c: Config, mem: Memory, log: Log, j: nat, page: nat)
    requires Alone(c) && j < |c.refs[0]| && c.refs[0][j] == page < c.need[0] && Between(c, Run(mem, log), j)
    requires |mem.tables| == 1 && page < |mem.tables[0]| && Hit(mem, 0, page)
    ensures AllLegal(c, j + 1) && After(c, j + 1) == Run(Touch(mem, 0, page, |log| + 1), log + [Request(0, page)])
  {
    AfterNext(c, j);
    assert After(c, j).log + [Request(0, page), Request(0, page)] ==
           After(c, j).log + [Request(0, page)] + [Request(0, page)];
  }

  lemma HitReplies(c: Config, s: State, s': State, v: View)
    requires Alone(c) && Inv(c, s, v) && MmuServesStep(c, s, s')
    requires 0 <= s.mmu.page < c.need[0] && s.mmu.page < |s.mem.tables[0]| && Hit(s.mem, 0, s.mmu.page)
    ensures Replies(c, s') != [] && Replies(c, s')[0].1 >= 0 && s'.procs[0].pc == AwaitingReply && s'.mmu == Receiving
  {
    Asked(c, s, v);
    SendToProcess(c, s.q3, 0, (c.pids[0], s.mem.tables[0][s.mmu.page].frame));
    assert ShapedTable(s.mem.tables[0], c.need[0], |s.mem.frames| - 1);
  }

  lemma RepliedMatches(c: Config, s: State)
    requires Alone(c) && |s.procs| == 1 && !AtWork(s.mmu) && s.procs[0].pc == AwaitingReply
    requires Replies(c, s) != [] && Replies(c, s)[0].1 >= 0
    requires var j := |s.procs[0].granted|;
             j < |c.refs[0]| && AllLegal(c, j + 1) && Run(s.mem, s.log) == After(c, j + 1)
    ensures Matches(c, s)
  {}

  lemma HitServed(c: Config, s: State, s': State, j: nat, page: nat)
    requires Alone(c) && s.log != [] && Between(c, Run(s.mem, s.log[..|s.log| - 1]), j)
    requires |s.mem.tables| == 1 && page < |s.mem.tables[0]| && s.log == s.log[..|s.log| - 1] + [Request(0, page)]
    requires Hit(s.mem, 0, page)
    requires j < |c.refs[0]| && c.refs[0][j] == page < c.need[0]
    requires s'.mem == Touch(s.mem, 0, page, |s.log|) && s'.log == s.log
    ensures AllLegal(c, j + 1) && Run(s'.mem, s'.log) == After(c, j + 1)
  {
    HitCompletes(c, s.mem, s.log[..|s.log| - 1], j, page);
  }

  lemma HitMatches(c: Config, s: State, s': State)
    requires Alone(c) && Matches(c, s) && |s.procs| == 1 && s.mmu.Serving? && s.log != []
    requires s.procs[0].pc == AwaitingReply
    requires var j := |s.procs[0].granted|; j < |c.refs[0]| && s.mmu.page == c.refs[0][j] < c.need[0]
    requires s.log == s.log[..|s.log| - 1] + [Request(0, s.mmu.page)]
    requires |s.mem.tables| == 1 && s.mmu.page < |s.mem.tables[0]| && Hit(s.mem, 0, s.mmu.page)
    requires s'.mem == Touch(s.mem, 0, s.mmu.page, |s.log|) && s'.log == s.log && s'.procs == s.procs
    requires s'.mmu == Receiving
    requires Replies(c, s') != [] && Replies(c, s')[0].1 >= 0
    ensures Matches(c, s')
  {
    HitServed(c, s, s', |s.procs[0].granted|, s.mmu.page);
    RepliedMatches(c, s');
  }

  lemma FaultIsFirstTry(c: Config, mem: Memory, log: Log, j: nat, page: nat)
    requires Alone(c) && j < |c.refs[0]| && c.refs[0][j] == page < c.need[0] && Between(c, Run(mem, log), j)
    requires |mem.tables| == 1 && page < |mem.tables[0]| && !Hit(mem, 0, page)
    ensures AllLegal(c, j + 1) && After(c, j) == Run(mem, log)
  {
    if !Hit(After(c, j).mem, 0, page) { SecondTryHits(c, j); }
  }

  lemma FaultMatches(c: Config, s: State, s': State, v: View)
    requires Alone(c) && Matches(c, s) && Inv(c, s, v) && MmuServesStep(c, s, s')
    requires 0 <= s.mmu.page < c.need[0] && s.mmu.page < |s.mem.tables[0]| && !Hit(s.mem, 0, s.mmu.page)
    ensures Matches(c, s')
  {
    Asked(c, s, v);
    FaultIsFirstTry(c, s.mem, s.log[..|s.log| - 1], |s.procs[0].granted|, s.mmu.page);
  }

  lemma ServeMatches(c: Config, s: State, s': State, v: View)
    requires Alone(c) && Matches(c, s) && Inv(c, s, v) && MmuServesStep(c, s, s')
    ensures Matches(c, s')
  {
    OnlyProcess(c, s, v);
    if s.mmu.page == TERMINATE { TerminationMatches(c, s, s', v); }
    else if s.mmu.page >= c.need[0] { IllegalMatches(c, s, s', v); }
    else if Hit(s.mem, 0, s.mmu.page) {
      Asked(c, s, v);
      HitReplies(c, s, s', v);
      HitMatches(c, s, s');
    }
    else { FaultMatches(c, s, s', v); }
  }

  lemma ReleaseMatches(c: Config, s: State, s': State, v: View)
    requires Alone(c) && Matches(c, s) && Inv(c, s, v) && MmuReleasesStep(c, s, s')
    ensures Matches(c, s')
  {
    OnlyProcess(c, s, v);
  }

  lemma LoadFacts(c: Config, s: State, s': State, v: View, v': View)
    requires Alone(c) && Inv(c, s, v) && Inv(c, s', v') && MmuLoadsStep(c, s, s')
    ensures |s.procs| == 1 && s.mmu.idx == 0 && |s.procs[0].granted| < |c.refs[0]|
    ensures s.mmu.page == c.refs[0][|s.procs[0].granted|] && Idle(c, s')
  {
    OnlyProcess(c, s, v);
    WaitingIdle(c, s', v');
  }

  lemma LoadedMatches(c: Config, s: State, s': State)
    requires Alone(c) && Matches(c, s) && MmuLoadsStep(c, s, s') && |s.procs| == 1 && s.mmu.idx == 0
    requires |s.procs[0].granted| < |c.refs[0]| && s.mmu.page == c.refs[0][|s.procs[0].granted|] && Idle(c, s')
    ensures Matches(c, s')
  {
    assert Run(s'.mem, s'.log) == FaultStep(After(c, |s.procs[0].granted|), s.mmu.page);
    IdleMatches(c, s');
  }

  lemma LoadMatches(c: Config, s: State, s': State, v: View, v': View)
    requires Alone(c) && Matches(c, s) && Inv(c, s, v) && Inv(c, s', v') && MmuLoadsStep(c, s, s')
    ensures Matches(c, s')
  {
    LoadFacts(c, s, s', v, v');
    LoadedMatches(c, s, s');
  }

  lemma MmuMatches(c: Config, s: State, a: Action, s': State, v: View, v': View)
    requires Alone(c) && Matches(c, s) && Inv(c, s, v) && Inv(c, s', v') && Step(c, s, a, s')
    requires a.MmuReceives? || a.MmuServes? || a.MmuReleases? || a.MmuLoads?
    ensures Matches(c, s')
  {
    if a.MmuReceives? { ReceiveMatches(c, s, s', v, v'); }
    else if a.MmuServes? { ServeMatches(c, s, s', v); }
    else if a.MmuReleases? { ReleaseMatches(c, s, s', v); }
    else { LoadMatches(c, s, s', v, v'); }
  }

  predicate IsQuiet(a: Action) {
    OfMaster(a) || OfScheduler(a) || a.MmuBoots? || a.ProcStarts? || a.ProcFirstRuns? || a.ProcResumes?
  }

  lemma StepIsQuiet(c: Config, s: State, a: Action, s': State, v: View)
    requires Alone(c) && Inv(c, s, v) && Step(c, s, a, s') && IsQuiet(a)
    ensures Quiet(c, s, s')
  {
    if OfMaster(a) { MasterIsQuiet(c, s, a, s', v); }
    else if OfScheduler(a) { SchedulerIsQuiet(c, s, a, s'); }
    else if a.MmuBoots? { BootIsQuiet(c, s, s'); }
    else { RunMessageIsQuiet(c, s, a, s'); }
  }

  lemma StepMatches(c: Config, s: State, a: Action, s': State, v: View, v': View)
    requires Alone(c) && Matches(c, s) && Inv(c, s, v) && Inv(c, s', v') && Step(c, s, a, s')
    ensures Matches(c, s')
  {
    if IsQuiet(a) {
      StepIsQuiet(c, s, a, s', v);
      QuietMatches(c, s, s');
    } else if a.ProcRequests? {
      RequestMatches(c, s, a.p, s', v, v');
    } else if a.ProcReads? {
      ReadMatches(c, s, a.p, s', v);
    } else {
      MmuMatches(c, s, a, s', v, v');
    }
  }

  // ---------- Runs ----------

  lemma NextMatches(c: Config, s: State, s': State, v: View, v': View)
    requires Alone(c) && Matches(c, s) && Inv(c, s, v) && Inv(c, s', v') && Next(c, s, s')
    ensures Matches(c, s')
  {
    var a :| Step(c, s, a, s');
    StepMatches(c, s, a, s', v, v');
  }

  lemma {:induction false} RunMatches(c: Config, run: seq<State>)
    requires Alone(c) && IsRun(c, run)
    ensures Matches(c, run[|run| - 1])
  {
    var n := |run| - 1;
    if n == 0 {
      InitMatches(c);
    } else {
      Theorems.LastStep(c, run);
      RunMatches(c, run[..n]);
      var v := Theorems.ReachableInv(c, run[..n]);
      var v' := Theorems.ReachableInv(c, run);
      NextMatches(c, run[n - 1], run[n], v, v');
    }
  }

  // What the MMU has printed and counted by the time the scheduler posts: the log of the legal
  // pages served by themselves, with the last request, and their page faults.
  lemma AloneAtPost(c: Config, run: seq<State>)
    requires Alone(c) && IsRun(c, run) && run[|run| - 1].sched == Exited
    ensures var (s, j) := (run[|run| - 1], |Theorems.LegalPrefix(c.refs[0], c.need[0])|);
            && AllLegal(c, j) && c.refs[0][..j] == Theorems.LegalPrefix(c.refs[0], c.need[0])
            && s.mem.faults == After(c, j).mem.faults
            && s.log == After(c, j).log + [Request(0, LastPage(c, j))]
  {
    var s := run[|run| - 1];
    var v := Theorems.ReachableInv(c, run);
    RunMatches(c, run);
    OnlyProcess(c, s, v);
    NobodyAlive(v.stage);
    Theorems.OutcomeAtPost(c, s, v);
  }

  // No Belady anomaly in the running system: of two configurations with one process that differ in
  // the number of frames only, the one with more frames counts no more page faults, in any runs.
  lemma MoreFramesNeverHurtRuns(c: Config, g: nat, run: seq<State>, run': seq<State>)
    requires Alone(c) && c.f <= g
    requires IsRun(c, run) && run[|run| - 1].sched == Exited
    requires IsRun(c.(f := g), run') && run'[|run'| - 1].sched == Exited
    ensures |run[|run| - 1].mem.faults| == |run'[|run'| - 1].mem.faults| == 1
    ensures run'[|run'| - 1].mem.faults[0] <= run[|run| - 1].mem.faults[0]
  {
    var j := |Theorems.LegalPrefix(c.refs[0], c.need[0])|;
    AloneFits(c);
    AloneAtPost(c, run);
    AloneAtPost(c.(f := g), run');
    MoreFramesNeverHurt(c.f, g, c.rows, c.need[0], c.refs[0][..j]);
  }

  // The MMU has told the process the frame of its page, and the process has not read it yet.
  ghost predicate JustGranted(c: Config, s: State)
    requires c.pids != []
  {
    |s.procs| == 1 && Replies(c, s) != [] && Replies(c, s)[0].1 >= 0
  }

  lemma GrantMatches(c: Config, s: State, v: View)
    requires Alone(c) && Inv(c, s, v) && Matches(c, s) && JustGranted(c, s)
    ensures AllLegal(c, |s.procs[0].granted| + 1) && Run(s.mem, s.log) == After(c, |s.procs[0].granted| + 1)
  {
    OnlyProcess(c, s, v);
  }

  lemma GrantOfRun(c: Config, run: seq<State>) returns (j: nat)
    requires Alone(c) && IsRun(c, run) && JustGranted(c, run[|run| - 1])
    ensures j == |run[|run| - 1].procs[0].granted| + 1 && AllLegal(c, j)
    ensures Run(run[|run| - 1].mem, run[|run| - 1].log) == After(c, j)
  {
    var v := Theorems.ReachableInv(c, run);
    RunMatches(c, run);
    GrantMatches(c, run[|run| - 1], v);
    j := |run[|run| - 1].procs[0].granted| + 1;
  }

  // After every reference, not only in the end: when both processes have just been told the frame of the
  // same page of their list, what is in memory with fewer frames is in memory with more, and no more
  // faults have been counted.
  lemma MoreFramesHoldMore(c: Config, g: nat, run: seq<State>, run': seq<State>)
    requires Alone(c) && c.f <= g && IsRun(c, run) && IsRun(c.(f := g), run')
    requires JustGranted(c, run[|run| - 1]) && JustGranted(c, run'[|run'| - 1])
    requires |run[|run| - 1].procs[0].granted| == |run'[|run'| - 1].procs[0].granted|
    ensures var (s, s') := (run[|run| - 1], run'[|run'| - 1]);
            && |s.mem.tables| == |s'.mem.tables| == |s.mem.faults| == |s'.mem.faults| == 1
            && c.need[0] <= |s.mem.tables[0]| && c.need[0] <= |s'.mem.tables[0]|
            && Resident(s.mem.tables[0], c.need[0]) <= Resident(s'.mem.tables[0], c.need[0])
            && s'.mem.faults[0] <= s.mem.faults[0]
  {
    AloneFits(c);
    var j := GrantOfRun(c, run);
    var k := GrantOfRun(c.(f := g), run');
    MoreFramesNeverHurt(c.f, g, c.rows, c.need[0], c.refs[0][..j]);
  }
}
