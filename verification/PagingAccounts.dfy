// The MMU's totals and its answers, in every run: what has been counted for each process, in terms of the
// requests received and the pages granted, and which frame a process is told.
module PagingAccounts {
  import opened MessageQueues
  import opened PagedMemory
  import opened LruReplacement
  import opened Mmus
  import opened PagingSystem
  import opened PagingInvariant
  import opened PagingProgress
  import opened PagingRank
  import Theorems = PagingTheorems

  // ---------- Requests and answers ----------

  // The requests that the MMU has answered: all it has received but the one it serves.
  function Answered(s: State): Log {
    if s.mmu.Serving? && s.log != [] then s.log[..|s.log| - 1] else s.log
  }

  function Bit(b: bool): nat {
    if b then 1 else 0
  }

  // How many requests of process i are for pages from lo up, and below hi.
  function IllegalRequests(log: Log, i: nat, need: nat): nat {
    if log == [] then 0
    else IllegalRequests(log[..|log| - 1], i, need) + Bit(log[|log| - 1].proc == i && log[|log| - 1].page >= need)
  }

  function LegalRequests(log: Log, i: nat, need: nat): nat {
    if log == [] then 0
    else LegalRequests(log[..|log| - 1], i, need) + Bit(log[|log| - 1].proc == i && 0 <= log[|log| - 1].page < need)
  }

  lemma RequestCounts(log: Log, r: Request, i: nat, need: nat)
    ensures IllegalRequests(log + [r], i, need) == IllegalRequests(log, i, need) + Bit(r.proc == i && r.page >= need)
    ensures LegalRequests(log + [r], i, need) == LegalRequests(log, i, need) + Bit(r.proc == i && 0 <= r.page < need)
  {
    assert (log + [r])[..|log|] == log;
  }

  // The answer that process i has not read yet.
  function Unread(c: Config, s: State, i: nat): seq<(nat, int)>
    requires i < c.K()
  {
    OfType(s.q3, c.pids[i])
  }

  ghost predicate Sizes(c: Config, s: State) {
    |s.procs| == |c.need| == |s.mem.tables| == |s.mem.faults| == |s.mem.illegal| == c.K()
  }

  // Process i has been told that its page is illegal, or been told a frame that it has not read yet.
  ghost predicate Refused(c: Config, s: State, i: nat)
    requires Sizes(c, s) && i < c.K()
  {
    s.procs[i].pc == Stopped || (Unread(c, s, i) != [] && Unread(c, s, i)[0].1 == ILLEGAL)
  }

  ghost predicate Told(c: Config, s: State, i: nat)
    requires i < c.K()
  {
    Unread(c, s, i) != [] && Unread(c, s, i)[0].1 >= 0
  }

  // The frame told is that of the page asked for.
  ghost predicate ToldFrame(c: Config, s: State, i: nat)
    requires Sizes(c, s) && i < c.K() && Told(c, s, i)
  {
    && 0 <= s.procs[i].page < |s.mem.tables[i]|
    && Unread(c, s, i)[0] == (c.pids[i], s.mem.tables[i][s.procs[i].page].frame)
  }

  // Every illegal request is counted, at most one is made, and every legal one has been granted or
  // counted as a fault.
  ghost predicate Account(c: Config, s: State, i: nat)
    requires Sizes(c, s) && i < c.K()
  {
    && s.mem.illegal[i] == IllegalRequests(Answered(s), i, c.need[i]) == Bit(Refused(c, s, i))
    && LegalRequests(Answered(s), i, c.need[i]) ==
       s.mem.faults[i] + |s.procs[i].granted| + Bit(Told(c, s, i))
    && (Told(c, s, i) ==> ToldFrame(c, s, i))
  }

  ghost predicate Accounts(c: Config, s: State) {
    Sizes(c, s) && forall i: nat :: i < c.K() ==> Account(c, s, i)
  }

  lemma InvSizes(c: Config, s: State, v: View)
    requires Inv(c, s, v)
    ensures Sizes(c, s) && s.mmu != Crashed
  {}

  lemma InitAccounts(c: Config)
    requires c.Valid()
    ensures Accounts(c, Init(c))
  {}

  // ---------- Every step keeps the accounts ----------

  // Nothing that the account of process i speaks of changes.
  ghost predicate Unchanged(c: Config, s: State, s': State, i: nat)
    requires Sizes(c, s) && Sizes(c, s') && i < c.K()
  {
    && s'.mem.illegal[i] == s.mem.illegal[i] && s'.mem.faults[i] == s.mem.faults[i]
    && s'.procs[i].granted == s.procs[i].granted && Unread(c, s', i) == Unread(c, s, i)
    && (s'.procs[i].pc == Stopped <==> s.procs[i].pc == Stopped)
    && (Told(c, s, i) ==> s'.procs[i].page == s.procs[i].page && s'.mem.tables[i] == s.mem.tables[i])
  }

  lemma UnchangedAccount(c: Config, s: State, s': State, i: nat)
    requires Sizes(c, s) && Sizes(c, s') && i < c.K() && Account(c, s, i)
    requires Answered(s') == Answered(s) && Unchanged(c, s, s', i)
    ensures Account(c, s', i)
  {}

  // A request of process p that has been answered is none of any other process.
  lemma OtherAccount(c: Config, s: State, s': State, i: nat, r: Request)
    requires Sizes(c, s) && Sizes(c, s') && i < c.K() && Account(c, s, i)
    requires Answered(s') == Answered(s) + [r] && r.proc != i && Unchanged(c, s, s', i)
    ensures Account(c, s', i)
  {
    RequestCounts(Answered(s), r, i, c.need[i]);
  }

  lemma RequestKeepsAccount(c: Config, s: State, p: nat, s': State, v: View, i: nat)
    requires Inv(c, s, v) && Sizes(c, s) && Sizes(c, s') && p < c.K() && i < c.K()
    requires ProcRequestsStep(c, s, p, s') && Account(c, s, i)
    ensures Account(c, s', i)
  {
    assert Local(c, s, v, p);
    SendOne(c, s.q3, s'.q3[|s.q3|].body);
    UnchangedAccount(c, s, s', i);
  }

  lemma ReadKeepsAccount(c: Config, s: State, p: nat, s': State, v: View, i: nat)
    requires Inv(c, s, v) && Sizes(c, s) && Sizes(c, s') && p < c.K() && i < c.K()
    requires ProcReadsStep(c, s, p, s') && Account(c, s, i)
    ensures Account(c, s', i)
  {
    assert Local(c, s, v, p);
    TakeByProcess(c, s.q3, p);
    if i != p { UnchangedAccount(c, s, s', i); }
  }

  lemma ReceiveKeepsAccount(c: Config, s: State, s': State, v: View, i: nat)
    requires Inv(c, s, v) && Sizes(c, s) && Sizes(c, s') && i < c.K()
    requires MmuReceivesStep(c, s, s') && Account(c, s, i) && s'.mmu.Serving?
    ensures Account(c, s', i)
  {
    TakeOne(c, s.q3);
    assert s'.log[..|s.log|] == s.log;
    UnchangedAccount(c, s, s', i);
  }

  // What the MMU is serving: the last request received.
  lemma Asked(c: Config, s: State, v: View)
    requires Inv(c, s, v) && s.mmu.Serving?
    ensures v.tok == InMmu(s.mmu.idx) && s.mmu.idx < c.K()
    ensures s.log == Answered(s) + [Request(s.mmu.idx, s.mmu.page)]
    ensures |s.procs| == c.K() && Unread(c, s, s.mmu.idx) == [] && s.mmu.page == Wanted(s.procs[s.mmu.idx])
    ensures s.procs[s.mmu.idx].pc != Stopped && (s.mmu.page != TERMINATE ==> s.mmu.page == s.procs[s.mmu.idx].page)
  {
    assert Local(c, s, v, s.mmu.idx);
  }

  lemma ServeKeepsOther(c: Config, s: State, s': State, v: View, i: nat)
    requires Inv(c, s, v) && Sizes(c, s) && Sizes(c, s') && i < c.K()
    requires MmuServesStep(c, s, s') && Account(c, s, i) && i != s.mmu.idx
    ensures Account(c, s', i)
  {
    Asked(c, s, v);
    if |s'.q3| > |s.q3| { SendToProcess(c, s.q3, s.mmu.idx, s'.q3[|s.q3|].body); }
    OtherAccount(c, s, s', i, Request(s.mmu.idx, s.mmu.page));
  }

  lemma ServeKeepsOwn(c: Config, s: State, s': State, v: View)
    requires Inv(c, s, v) && Sizes(c, s) && Sizes(c, s') && s.mmu.Serving? && s.mmu.idx < c.K()
    requires MmuServesStep(c, s, s') && Account(c, s, s.mmu.idx)
    ensures Account(c, s', s.mmu.idx)
  {
    Asked(c, s, v);
    assert ShapedTable(s.mem.tables[s.mmu.idx], c.need[s.mmu.idx], |s.mem.frames| - 1);
    ServedAccount(c, s, s', s.mmu.idx, s.mmu.page);
  }

  lemma ServedAccount(c: Config, s: State, s': State, p: nat, page: int)
    requires c.Valid() && Sizes(c, s) && Sizes(c, s') && s.mmu == Serving(p, page) && p < c.K()
    requires MmuServesStep(c, s, s') && Account(c, s, p) && s.mem.need == c.need && s.procs[p].pc != Stopped
    requires s.log == Answered(s) + [Request(p, page)] && Unread(c, s, p) == []
    requires page != TERMINATE ==> page == s.procs[p].page
    requires ShapedTable(s.mem.tables[p], c.need[p], |s.mem.frames| - 1)
    ensures Account(c, s', p)
  {
    if |s'.q3| > |s.q3| { SendToProcess(c, s.q3, p, s'.q3[|s.q3|].body); }
    RequestCounts(Answered(s), Request(p, page), p, c.need[p]);
  }

  // The second part of a turn changes the table of a process that has not been told a frame.
  lemma TurnEndKeepsAccount(c: Config, s: State, s': State, v: View, i: nat)
    requires Inv(c, s, v) && Sizes(c, s) && Sizes(c, s') && i < c.K()
    requires MmuReleasesStep(c, s, s') || MmuLoadsStep(c, s, s')
    requires Account(c, s, i)
    ensures Account(c, s', i)
  {
    assert Local(c, s, v, s.mmu.idx);
    if s.mmu.Loading? { LoadTouchesOne(s.mem, s.mmu.idx, s.mmu.page, |s.log|); }
    UnchangedAccount(c, s, s', i);
  }

  lemma MmuKeepsAccount(c: Config, s: State, a: Action, s': State, v: View, i: nat)
    requires Inv(c, s, v) && Sizes(c, s) && Sizes(c, s') && i < c.K() && s'.mmu != Crashed
    requires Step(c, s, a, s') && OfMmu(a) && !a.MmuBoots? && Account(c, s, i)
    ensures Account(c, s', i)
  {
    if a.MmuReceives? { ReceiveKeepsAccount(c, s, s', v, i); }
    else if a.MmuReleases? || a.MmuLoads? { TurnEndKeepsAccount(c, s, s', v, i); }
    else if i == s.mmu.idx { ServeKeepsOwn(c, s, s', v); }
    else { ServeKeepsOther(c, s, s', v, i); }
  }

  // No other step sends or reads an answer, or touches memory and log.
  lemma MasterKeepsAccount(c: Config, s: State, a: Action, s': State, v: View, i: nat)
    requires Inv(c, s, v) && Sizes(c, s) && Sizes(c, s') && i < c.K() && Account(c, s, i)
    requires Step(c, s, a, s') && (OfMaster(a) || a.MmuBoots?)
    ensures Account(c, s', i)
  {
    if a.Fork? { assert Local(c, s, v, s.master.next); }
    UnchangedAccount(c, s, s', i);
  }

  lemma SchedulerKeepsAccount(c: Config, s: State, a: Action, s': State, i: nat)
    requires c.Valid() && Sizes(c, s) && Sizes(c, s') && i < c.K() && Account(c, s, i)
    requires Step(c, s, a, s') && OfScheduler(a)
    ensures Account(c, s', i)
  {
    UnchangedAccount(c, s, s', i);
  }

  lemma RunMessageKeepsAccount(c: Config, s: State, a: Action, s': State, i: nat)
    requires c.Valid() && Sizes(c, s) && Sizes(c, s') && i < c.K() && Account(c, s, i)
    requires Step(c, s, a, s') && (a.ProcStarts? || a.ProcFirstRuns? || a.ProcResumes?)
    ensures Account(c, s', i)
  {
    UnchangedAccount(c, s, s', i);
  }

  lemma StepKeepsAccount(c: Config, s: State, a: Action, s': State, v: View, i: nat)
    requires Inv(c, s, v) && Sizes(c, s) && Sizes(c, s') && i < c.K() && s'.mmu != Crashed
    requires Step(c, s, a, s') && Account(c, s, i)
    ensures Account(c, s', i)
  {
    if a.ProcRequests? { RequestKeepsAccount(c, s, a.p, s', v, i); }
    else if a.ProcReads? { ReadKeepsAccount(c, s, a.p, s', v, i); }
    else if OfMaster(a) || a.MmuBoots? { MasterKeepsAccount(c, s, a, s', v, i); }
    else if OfMmu(a) { MmuKeepsAccount(c, s, a, s', v, i); }
    else if OfScheduler(a) { SchedulerKeepsAccount(c, s, a, s', i); }
    else { RunMessageKeepsAccount(c, s, a, s', i); }
  }

  lemma NextKeepsAccounts(c: Config, s: State, s': State, v: View)
    requires Inv(c, s, v) && Sizes(c, s') && s'.mmu != Crashed && Accounts(c, s) && Next(c, s, s')
    ensures Accounts(c, s')
  {
    var a :| Step(c, s, a, s');
    forall i: nat | i < c.K() ensures Account(c, s', i) {
      StepKeepsAccount(c, s, a, s', v, i);
    }
  }

  // ---------- Runs ----------

  // In every state of every run, each process's illegal requests that the MMU has answered are those it has
  // counted, its legal ones are those granted and those counted as faults, and a process is told the frame
  // to which the page that it asked for is mapped.
  lemma {:induction false} AccountsOfRun(c: Config, run: seq<State>)
    requires c.Valid() && IsRun(c, run) && Theorems.RequestBudget(c) < INT_MAX
    ensures Accounts(c, run[|run| - 1])
  {
    var n := |run| - 1;
    if n == 0 {
      InitAccounts(c);
    } else {
      Theorems.LastStep(c, run);
      AccountsOfRun(c, run[..n]);
      var v := Theorems.ReachableInv(c, run[..n]);
      var v' := Theorems.ReachableInv(c, run);
      InvSizes(c, run[n], v');
      NextKeepsAccounts(c, run[n - 1], run[n], v);
    }
  }

  ghost predicate AsksForIllegal(c: Config, i: nat)
    requires i < |c.refs| && i < |c.need|
  {
    exists n :: 0 <= n < |c.refs[i]| && c.refs[i][n] >= c.need[i]
  }

  // What the accounts say of process i when the scheduler has posted.
  lemma AccountAtPost(c: Config, s: State, v: View, i: nat)
    requires Inv(c, s, v) && s.sched == Exited && i < c.K()
    ensures !s.mmu.Serving? && Sizes(c, s) && !Told(c, s, i)
    ensures Refused(c, s, i) <==> AsksForIllegal(c, i)
  {
    NobodyAlive(v.stage);
    assert Local(c, s, v, i);
  }

  // The totals that the MMU prints, whatever the schedule was: one illegal reference for each process with an
  // illegal page in its list, and as many faults as the legal requests beyond those that were granted.
  lemma TotalsAtPost(c: Config, run: seq<State>, i: nat)
    requires c.Valid() && IsRun(c, run) && Theorems.RequestBudget(c) < INT_MAX && i < c.K()
    requires run[|run| - 1].sched == Exited
    ensures var s := run[|run| - 1];
            && |s.mem.illegal| == |s.mem.faults| == c.K()
            && s.mem.illegal[i] == IllegalRequests(s.log, i, c.need[i]) == Bit(AsksForIllegal(c, i))
            && LegalRequests(s.log, i, c.need[i]) ==
               |Theorems.LegalPrefix(c.refs[i], c.need[i])| + s.mem.faults[i]
  {
    AccountsOfRun(c, run);
    Theorems.OutcomeOfRun(c, run);
    var v := Theorems.ReachableInv(c, run);
    AccountAtPost(c, run[|run| - 1], v, i);
    assert Account(c, run[|run| - 1], i);
  }
}
