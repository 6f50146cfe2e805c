// The paging system never deadlocks, and with at least one frame every run is finite: a rank that
// every step decreases.
module PagingProgress {
  import opened MessageQueues
  import opened ReferenceStrings
  import opened PagedMemory
  import opened LruReplacement
  import opened Mmus
  import opened PagingSystem
  import opened PagingInvariant
  import opened PagingSteps

  // The scheduler has posted, the master has been woken and every process has terminated.
  ghost predicate Completed(c: Config, s: State) {
    && s.sched == Exited && s.master == Notified && s.sem == 0 && s.left == 0
    && |s.procs| == c.K() && forall i :: 0 <= i < c.K() ==> s.procs[i].pc == Done || s.procs[i].pc == Stopped
  }

  // ---------- Deadlock freedom ----------

  lemma {:induction false} NobodyAlive(stage: seq<Stage>)
    requires Alive(stage) == 0
    ensures forall i :: 0 <= i < |stage| ==> stage[i] == Ended
  {
    if stage != [] { NobodyAlive(stage[1..]); }
  }

  lemma {:induction false} SomeoneAlive(stage: seq<Stage>) returns (i: nat)
    requires Alive(stage) > 0
    ensures i < |stage| && stage[i] != Ended
  {
    if stage[0] != Ended { i := 0; } else {
      i := SomeoneAlive(stage[1..]);
      i := i + 1;
    }
  }

  // No process reads that its page was illegal.
  predicate NobodyStops(procs: seq<Proc>, procs': seq<Proc>) {
    |procs'| == |procs| && forall i :: 0 <= i < |procs| && procs'[i].pc == Stopped ==> procs[i].pc == Stopped
  }

  // A step that leaves such a reply, if there is one, where it is.
  ghost predicate Calm(c: Config, s: State, t: State)
    requires c.Valid()
  {
    Next(c, s, t) && NobodyStops(s.procs, t.procs)
  }

  lemma StepIsCalm(c: Config, s: State, a: Action, s': State)
    requires c.Valid() && Step(c, s, a, s') && NobodyStops(s.procs, s'.procs)
    ensures exists t :: Calm(c, s, t)
  {
    assert Next(c, s, s');
    assert Calm(c, s, s');
  }

  lemma StartupMoves(c: Config, s: State, v: View)
    requires Inv(c, s, v) && (s.master == AwaitingMmuPid || (s.master.Forking? && s.master.next < c.K()))
    ensures exists t :: Calm(c, s, t)
  {
    if s.master.Forking? {
      var n := s.master.next;
      StepIsCalm(c, s, Fork, s.(master := Forking(n + 1), pidTable := s.pidTable[n := c.pids[n]],
                                procs := s.procs[n := s.procs[n].(pc := Starting)]));
    } else if s.mmu == Booting {
      StepIsCalm(c, s, MmuBoots, s.(mmu := Receiving, q2 := s.q2 + [Msg(100, c.mmuPid)]));
    } else {
      StepIsCalm(c, s, MasterLearnsMmu, s.(q2 := Take(s.q2, 100), master := Forking(0)));
    }
  }

  lemma ChoosingMoves(c: Config, s: State, v: View)
    requires Inv(c, s, v) && v.tok.Chosen? && (s.master == Forking(c.K()) || s.master == Notified)
    ensures exists t :: Calm(c, s, t)
  {
    if s.left == 0 {
      StepIsCalm(c, s, SchedPosts, s.(sched := Exited, sem := s.sem + 1));
    } else if v.ready != [] {
      StepIsCalm(c, s, SchedReceives, s.(q1 := Take(s.q1, 1), sched := Dispatching(OfType(s.q1, 1)[0])));
    } else {
      var p := SomeoneAlive(v.stage);
      assert Local(c, s, v, p);
      StepIsCalm(c, s, ProcStarts(p),
                 SetProc(s, p, s.procs[p].(pc := AwaitingFirstRun)).(q1 := s.q1 + [Msg(1, c.pids[p])]));
    }
  }

  lemma NoticedMoves(c: Config, s: State, v: View)
    requires Inv(c, s, v) && v.tok.Noticed?
    ensures exists t :: Calm(c, s, t)
  {
    if v.tok.over {
      StepIsCalm(c, s, SchedNoticed, s.(q2 := s.q2[1..], sched := Choosing, left := s.left - 1));
    } else {
      StepIsCalm(c, s, SchedNoticed, s.(q2 := s.q2[1..], sched := Requeueing(s.q2[0].body)));
    }
  }

  lemma SchedulerMoves(c: Config, s: State, v: View)
    requires Inv(c, s, v) && (v.tok.Chosen? || v.tok.Dispatched? || v.tok.Noticed? || v.tok.Requeued?)
    requires s.master == Forking(c.K()) || s.master == Notified
    ensures exists t :: Calm(c, s, t)
  {
    if v.tok.Chosen? {
      ChoosingMoves(c, s, v);
    } else if v.tok.Noticed? {
      NoticedMoves(c, s, v);
    } else if v.tok.Dispatched? {
      StepIsCalm(c, s, SchedDispatches, s.(q1 := s.q1 + [Msg(s.sched.pid, s.sched.pid)], sched := AwaitingMmu));
    } else {
      StepIsCalm(c, s, SchedRequeues, s.(q1 := s.q1 + [Msg(1, s.sched.pid)], sched := Choosing));
    }
  }

  lemma ReaderMoves(c: Config, s: State, p: nat)
    requires c.Valid() && p < c.K() && p < |s.procs|
    requires s.procs[p].pc == AwaitingReply && OfType(s.q3, c.pids[p]) != [] && OfType(s.q3, c.pids[p])[0].1 != ILLEGAL
    ensures exists t :: Calm(c, s, t)
  {
    var (q, frame) := (s.procs[p], OfType(s.q3, c.pids[p])[0].1);
    StepIsCalm(c, s, ProcReads(p),
               SetProc(s, p, if frame == FAULT then q.(pc := AwaitingRun)
                             else q.(pc := AtHead, granted := q.granted + [q.page]))
               .(q3 := Take(s.q3, c.pids[p])));
  }

  lemma RunningMoves(c: Config, s: State, v: View)
    requires Inv(c, s, v) && v.tok.Running?
    ensures exists t :: Calm(c, s, t)
  {
    var p := v.tok.p;
    var q, pid := s.procs[p], c.pids[p];
    assert Local(c, s, v, p);
    if q.i >= |c.Text(p)| {
      StepIsCalm(c, s, ProcRequests(p), SetProc(s, p, q.(pc := Done)).(q3 := s.q3 + [Msg(1, (pid, TERMINATE))]));
    } else {
      var (page, next) := ParsePage(c.Text(p), q.i);
      StepIsCalm(c, s, ProcRequests(p),
                 SetProc(s, p, q.(pc := AwaitingReply, prev := q.i, i := next, page := page))
                 .(q3 := s.q3 + [Msg(1, (pid, page))]));
    }
  }

  lemma ResumedMoves(c: Config, s: State, v: View)
    requires Inv(c, s, v) && v.tok.Resumed?
    ensures exists t :: Calm(c, s, t)
  {
    var p := v.tok.p;
    var q, pid := s.procs[p], c.pids[p];
    assert Local(c, s, v, p);
    if q.pc == AwaitingReply {
      ReaderMoves(c, s, p);
    } else if q.pc == AwaitingFirstRun {
      StepIsCalm(c, s, ProcFirstRuns(p), SetProc(s, p, q.(pc := AtHead, i := 0)).(q1 := Take(s.q1, pid)));
    } else {
      StepIsCalm(c, s, ProcResumes(p), SetProc(s, p, q.(pc := AtHead, i := q.prev)).(q1 := Take(s.q1, pid)));
    }
  }

  lemma HolderMoves(c: Config, s: State, v: View)
    requires Inv(c, s, v) && (v.tok.Resumed? || v.tok.Running? || v.tok.Replied?)
    ensures exists t :: Calm(c, s, t)
  {
    if v.tok.Running? {
      RunningMoves(c, s, v);
    } else if v.tok.Resumed? {
      ResumedMoves(c, s, v);
    } else {
      assert Local(c, s, v, v.tok.p);
      ReaderMoves(c, s, v.tok.p);
    }
  }

  lemma ServingMoves(c: Config, s: State, v: View)
    requires Inv(c, s, v) && v.tok.InMmu? && s.mmu.Serving?
    ensures exists t :: Calm(c, s, t)
  {
    var p, page := v.tok.p, s.mmu.page;
    var pid := c.pids[p];
    assert Local(c, s, v, p);
    if page == TERMINATE {
      StepIsCalm(c, s, MmuServes, s.(mmu := Receiving, mem := Release(s.mem, p), q2 := s.q2 + [Msg(2, pid)]));
    } else if page >= s.mem.need[p] {
      StepIsCalm(c, s, MmuServes,
                 s.(mmu := Releasing(p), mem := CountIllegal(s.mem, p), q3 := s.q3 + [Msg(pid, (pid, ILLEGAL))]));
    } else if Hit(s.mem, p, page) {
      StepIsCalm(c, s, MmuServes, s.(mmu := Receiving, mem := Touch(s.mem, p, page, |s.log|),
                                     q3 := s.q3 + [Msg(pid, (pid, s.mem.tables[p][page].frame))]));
    } else {
      StepIsCalm(c, s, MmuServes,
                 s.(mmu := Loading(p, page), mem := CountFault(s.mem, p), q3 := s.q3 + [Msg(pid, (pid, FAULT))]));
    }
  }

  lemma MmuMoves(c: Config, s: State, v: View)
    requires Inv(c, s, v) && (v.tok.Requested? || v.tok.InMmu?)
    ensures exists t :: Calm(c, s, t)
  {
    var p := v.tok.p;
    var pid := c.pids[p];
    assert Local(c, s, v, p);
    if v.tok.Requested? {
      var page := OfType(s.q3, 1)[0].1;
      var idx := IndexOf(s.pidTable, OfType(s.q3, 1)[0].0);
      StepIsCalm(c, s, MmuReceives, s.(q3 := Take(s.q3, 1), log := s.log + [Request(idx, page)],
                                       mmu := if idx == |s.pidTable| then Crashed else Serving(idx, page)));
    } else if s.mmu.Releasing? {
      StepIsCalm(c, s, MmuReleases, s.(mmu := Receiving, mem := Release(s.mem, p), q2 := s.q2 + [Msg(2, pid)]));
    } else if s.mmu.Loading? {
      StepIsCalm(c, s, MmuLoads,
                 s.(mmu := Receiving, mem := Load(s.mem, p, s.mmu.page, |s.log|), q2 := s.q2 + [Msg(1, pid)]));
    } else {
      ServingMoves(c, s, v);
    }
  }

  // Until the master has been woken some program can take a step, and need not be a process that
  // reads that its page was illegal.
  lemma CalmMoves(c: Config, s: State, v: View)
    requires Inv(c, s, v) && s.master != Notified
    ensures exists t :: Calm(c, s, t)
  {
    if s.master == AwaitingMmuPid || s.master.next < c.K() {
      StartupMoves(c, s, v);
    } else if v.tok.Chosen? || v.tok.Dispatched? || v.tok.Noticed? || v.tok.Requeued? {
      SchedulerMoves(c, s, v);
    } else if v.tok.Requested? || v.tok.InMmu? {
      MmuMoves(c, s, v);
    } else if v.tok.Finished? {
      StepIsCalm(c, s, MasterWakes, s.(master := Notified, sem := s.sem - 1));
    } else {
      HolderMoves(c, s, v);
    }
  }

  // A process that has ended in the schedule and not in its program can read its last reply.
  lemma LastReaderMoves(c: Config, s: State, v: View, p: nat)
    requires Inv(c, s, v) && p < c.K() && v.stage[p] == Ended && s.procs[p].pc != Done && s.procs[p].pc != Stopped
    ensures exists t :: Next(c, s, t)
  {
    assert Local(c, s, v, p);
    var t := SetProc(s, p, s.procs[p].(pc := Stopped)).(q3 := Take(s.q3, c.pids[p]));
    assert Step(c, s, ProcReads(p), t);
    assert Next(c, s, t);
  }

  // In every state that satisfies the invariant, some step is possible or everything is completed.
  lemma DeadlockFree(c: Config, s: State, v: View)
    requires Inv(c, s, v)
    ensures Completed(c, s) || exists t :: Next(c, s, t)
  {
    if s.master != Notified {
      CalmMoves(c, s, v);
    } else if !Completed(c, s) {
      NobodyAlive(v.stage);
      var i :| 0 <= i < c.K() && s.procs[i].pc != Done && s.procs[i].pc != Stopped;
      LastReaderMoves(c, s, v, i);
    }
  }
}
