// The demand paging system as a step relation: master, scheduler, MMU and k processes, talking
// over three typed message queues. Every message operation is one atomic step.
module PagingSystem {
  import opened MessageQueues
  import opened ReferenceStrings
  import opened PagedMemory
  import opened LruReplacement
  import opened Mmus

  // rows is the size of a page table, f the number of frames. Process i has pid pids[i], needs
  // need[i] pages and refers to the pages refs[i].
  datatype Config = Config(pids: seq<nat>, need: seq<nat>, refs: seq<seq<nat>>, rows: nat, f: nat, mmuPid: nat) {
    function K(): nat { |pids| }

    ghost predicate Valid() {
      && |need| == |refs| == |pids|
      && (forall i :: 0 <= i < |pids| ==> pids[i] > 1 && need[i] <= rows)
      && forall i, j :: 0 <= i < j < |pids| ==> pids[i] != pids[j]
    }

    function Text(i: nat): string
      requires i < |refs|
    {
      Render(refs[i])
    }
  }

  datatype MasterPc = AwaitingMmuPid | Forking(next: nat) | Notified

  datatype SchedPc = Choosing | Dispatching(pid: nat) | AwaitingMmu | Requeueing(pid: nat) | Exited

  // Serving: a request has been received. Releasing and Loading: the process has its answer, the
  // scheduler does not have its notice yet.
  datatype MmuPc = Booting | Receiving | Serving(idx: nat, page: int) | Releasing(idx: nat)
                 | Loading(idx: nat, page: int) | Crashed

  datatype ProcPc = Unborn | Starting | AwaitingFirstRun | AtHead | AwaitingReply | AwaitingRun | Done | Stopped

  // i and prev are the parser's indices, page the page of the request in progress and granted the
  // pages reported as allocated so far.
  datatype Proc = Proc(pc: ProcPc, i: nat, prev: nat, page: int, granted: seq<int>)

  datatype State = State(q1: seq<Msg<nat>>, q2: seq<Msg<nat>>, q3: seq<Msg<(nat, int)>>,
                         master: MasterPc, sched: SchedPc, left: int, sem: nat,
                         mmu: MmuPc, mem: Memory, log: Log,
                         pidTable: seq<nat>, procs: seq<Proc>)

  function Init(c: Config): State
    requires c.Valid()
  {
    State([], [], [], AwaitingMmuPid, Choosing, c.K(), 0, Booting,
          InitialMemory(c.need, c.rows, c.f), [],
          seq(c.K(), _ => 0), seq(c.K(), _ => Proc(Unborn, 0, 0, 0, [])))
  }

  datatype Action = MasterLearnsMmu | Fork | MasterWakes
                  | MmuBoots | MmuReceives | MmuServes | MmuReleases | MmuLoads
                  | SchedReceives | SchedDispatches | SchedNoticed | SchedRequeues | SchedPosts
                  | ProcStarts(p: nat) | ProcFirstRuns(p: nat) | ProcRequests(p: nat) | ProcReads(p: nat)
                  | ProcResumes(p: nat)

  ghost predicate Step(c: Config, s: State, a: Action, s': State)
    requires c.Valid()
  {
    match a
    case MasterLearnsMmu => MasterLearnsMmuStep(c, s, s')
    case Fork => ForkStep(c, s, s')
    case MasterWakes => MasterWakesStep(c, s, s')
    case MmuBoots => MmuBootsStep(c, s, s')
    case MmuReceives => MmuReceivesStep(c, s, s')
    case MmuServes => MmuServesStep(c, s, s')
    case MmuReleases => MmuReleasesStep(c, s, s')
    case MmuLoads => MmuLoadsStep(c, s, s')
    case SchedReceives => SchedReceivesStep(c, s, s')
    case SchedDispatches => SchedDispatchesStep(c, s, s')
    case SchedNoticed => SchedNoticedStep(c, s, s')
    case SchedRequeues => SchedRequeuesStep(c, s, s')
    case SchedPosts => SchedPostsStep(c, s, s')
    case ProcStarts(p) => p < c.K() && p < |s.procs| && ProcStartsStep(c, s, p, s')
    case ProcFirstRuns(p) => p < c.K() && p < |s.procs| && ProcFirstRunsStep(c, s, p, s')
    case ProcRequests(p) => p < c.K() && p < |s.procs| && ProcRequestsStep(c, s, p, s')
    case ProcReads(p) => p < c.K() && p < |s.procs| && ProcReadsStep(c, s, p, s')
    case ProcResumes(p) => p < c.K() && p < |s.procs| && ProcResumesStep(c, s, p, s')
  }

  // ---------- Master ----------

  ghost predicate MasterLearnsMmuStep(c: Config, s: State, s': State) {
    && s.master == AwaitingMmuPid && OfType(s.q2, 100) != []
    && s' == s.(q2 := Take(s.q2, 100), master := Forking(0))
  }

  // The child writes its own pid into shared memory before it becomes the process program.
  ghost predicate ForkStep(c: Config, s: State, s': State) {
    && s.master.Forking? && s.master.next < c.K()
    && s.master.next < |s.procs| && s.master.next < |s.pidTable|
    && var n := s.master.next;
       s' == s.(master := Forking(n + 1), pidTable := s.pidTable[n := c.pids[n]],
                procs := s.procs[n := s.procs[n].(pc := Starting)])
  }

  ghost predicate MasterWakesStep(c: Config, s: State, s': State) {
    && s.master == Forking(c.K()) && s.sem > 0
    && s' == s.(master := Notified, sem := s.sem - 1)
  }

  // ---------- MMU ----------

  ghost predicate MmuBootsStep(c: Config, s: State, s': State) {
    && s.mmu == Booting
    && s' == s.(mmu := Receiving, q2 := s.q2 + [Msg(100, c.mmuPid)])
  }

  // The search of shared memory 1 for the process with this pid; the table's length if there is none.
  function IndexOf(pids: seq<nat>, pid: nat): (i: nat)
    ensures i <= |pids| && (i < |pids| ==> pids[i] == pid)
    ensures forall j :: 0 <= j < i ==> pids[j] != pid
  {
    if pids == [] || pids[0] == pid then 0 else 1 + IndexOf(pids[1..], pid)
  }

  ghost predicate MmuReceivesStep(c: Config, s: State, s': State) {
    && s.mmu == Receiving && OfType(s.q3, 1) != []
    && var (pid, page) := OfType(s.q3, 1)[0];
       var idx := IndexOf(s.pidTable, pid);
       s' == s.(q3 := Take(s.q3, 1), log := s.log + [Request(idx, page)],
                mmu := if idx == |s.pidTable| then Crashed else Serving(idx, page))
  }

  ghost predicate MmuServesStep(c: Config, s: State, s': State) {
    && s.mmu.Serving? && Shaped(s.mem) && s.mmu.idx < |s.mem.tables| && s.mmu.idx < c.K()
    && (s.mmu.page == TERMINATE || s.mmu.page >= 0)
    && var (i, page) := (s.mmu.idx, s.mmu.page);
       var pid := c.pids[i];
       if page == TERMINATE then
         s' == s.(mmu := Receiving, mem := Release(s.mem, i), q2 := s.q2 + [Msg(2, pid)])
       else if page >= s.mem.need[i] then
         s' == s.(mmu := Releasing(i), mem := CountIllegal(s.mem, i), q3 := s.q3 + [Msg(pid, (pid, ILLEGAL))])
       else if Hit(s.mem, i, page) then
         s' == s.(mmu := Receiving, mem := Touch(s.mem, i, page, |s.log|),
                  q3 := s.q3 + [Msg(pid, (pid, s.mem.tables[i][page].frame))])
       else
         s' == s.(mmu := Loading(i, page), mem := CountFault(s.mem, i), q3 := s.q3 + [Msg(pid, (pid, FAULT))])
  }

  ghost predicate MmuReleasesStep(c: Config, s: State, s': State) {
    && s.mmu.Releasing? && Shaped(s.mem) && s.mmu.idx < |s.mem.tables| && s.mmu.idx < c.K()
    && s' == s.(mmu := Receiving, mem := Release(s.mem, s.mmu.idx), q2 := s.q2 + [Msg(2, c.pids[s.mmu.idx])])
  }

  ghost predicate MmuLoadsStep(c: Config, s: State, s': State) {
    && s.mmu.Loading? && Shaped(s.mem) && s.mmu.idx < |s.mem.tables| && s.mmu.idx < c.K()
    && 0 <= s.mmu.page < s.mem.need[s.mmu.idx]
    && s' == s.(mmu := Receiving, mem := Load(s.mem, s.mmu.idx, s.mmu.page, |s.log|),
                q2 := s.q2 + [Msg(1, c.pids[s.mmu.idx])])
  }

  // ---------- Scheduler ----------

  ghost predicate SchedReceivesStep(c: Config, s: State, s': State) {
    && s.sched == Choosing && s.left > 0 && OfType(s.q1, 1) != []
    && s' == s.(q1 := Take(s.q1, 1), sched := Dispatching(OfType(s.q1, 1)[0]))
  }

  ghost predicate SchedDispatchesStep(c: Config, s: State, s': State) {
    && s.sched.Dispatching?
    && s' == s.(q1 := s.q1 + [Msg(s.sched.pid, s.sched.pid)], sched := AwaitingMmu)
  }

  // The receive of any type from the MMU, with the decrement that follows a type 2 notice.
  ghost predicate SchedNoticedStep(c: Config, s: State, s': State) {
    && s.sched == AwaitingMmu && s.q2 != []
    && var m := s.q2[0];
       if m.mtype == 1 then s' == s.(q2 := s.q2[1..], sched := Requeueing(m.body))
       else if m.mtype == 2 then s' == s.(q2 := s.q2[1..], sched := Choosing, left := s.left - 1)
       else s' == s.(q2 := s.q2[1..], sched := Choosing)
  }

  ghost predicate SchedRequeuesStep(c: Config, s: State, s': State) {
    && s.sched.Requeueing?
    && s' == s.(q1 := s.q1 + [Msg(1, s.sched.pid)], sched := Choosing)
  }

  ghost predicate SchedPostsStep(c: Config, s: State, s': State) {
    && s.sched == Choosing && s.left <= 0
    && s' == s.(sched := Exited, sem := s.sem + 1)
  }

  // ---------- Process p ----------

  function SetProc(s: State, p: nat, q: Proc): State
    requires p < |s.procs|
  {
    s.(procs := s.procs[p := q])
  }

  ghost predicate ProcStartsStep(c: Config, s: State, p: nat, s': State)
    requires p < c.K() && p < |s.procs|
  {
    && s.procs[p].pc == Starting
    && s' == SetProc(s, p, s.procs[p].(pc := AwaitingFirstRun)).(q1 := s.q1 + [Msg(1, c.pids[p])])
  }

  ghost predicate ProcFirstRunsStep(c: Config, s: State, p: nat, s': State)
    requires p < c.K() && p < |s.procs|
  {
    && s.procs[p].pc == AwaitingFirstRun && OfType(s.q1, c.pids[p]) != []
    && s' == SetProc(s, p, s.procs[p].(pc := AtHead, i := 0)).(q1 := Take(s.q1, c.pids[p]))
  }

  // The loop head: at the end of the text the termination message, otherwise the next page.
  ghost predicate ProcRequestsStep(c: Config, s: State, p: nat, s': State)
    requires c.Valid() && p < c.K() && p < |s.procs|
  {
    && s.procs[p].pc == AtHead
    && var (q, pid) := (s.procs[p], c.pids[p]);
       if q.i >= |c.Text(p)| then
         s' == SetProc(s, p, q.(pc := Done)).(q3 := s.q3 + [Msg(1, (pid, TERMINATE))])
       else
         var (page, next) := ParsePage(c.Text(p), q.i);
         s' == SetProc(s, p, q.(pc := AwaitingReply, prev := q.i, i := next, page := page))
               .(q3 := s.q3 + [Msg(1, (pid, page))])
  }

  ghost predicate ProcReadsStep(c: Config, s: State, p: nat, s': State)
    requires p < c.K() && p < |s.procs|
  {
    && s.procs[p].pc == AwaitingReply && OfType(s.q3, c.pids[p]) != []
    && var (q, frame) := (s.procs[p], OfType(s.q3, c.pids[p])[0].1);
       s' == SetProc(s, p, if frame == ILLEGAL then q.(pc := Stopped)
                           else if frame == FAULT then q.(pc := AwaitingRun)
                           else q.(pc := AtHead, granted := q.granted + [q.page]))
             .(q3 := Take(s.q3, c.pids[p]))
  }

  ghost predicate ProcResumesStep(c: Config, s: State, p: nat, s': State)
    requires p < c.K() && p < |s.procs|
  {
    && s.procs[p].pc == AwaitingRun && OfType(s.q1, c.pids[p]) != []
    && s' == SetProc(s, p, s.procs[p].(pc := AtHead, i := s.procs[p].prev)).(q1 := Take(s.q1, c.pids[p]))
  }

  // ---------- Runs ----------

  ghost predicate Next(c: Config, s: State, s': State)
    requires c.Valid()
  {
    exists a :: Step(c, s, a, s')
  }

  ghost predicate IsRun(c: Config, run: seq<State>)
    requires c.Valid()
  {
    && run != [] && run[0] == Init(c)
    && forall n :: 0 < n < |run| ==> Next(c, run[n - 1], run[n])
  }

  ghost predicate Stuck(c: Config, s: State)
    requires c.Valid()
  {
    forall s' :: !Next(c, s, s')
  }
}
