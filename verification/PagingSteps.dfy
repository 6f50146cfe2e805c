// Every step of the paging system keeps the invariant.
module PagingSteps {
  import opened MessageQueues
  import opened ReferenceStrings
  import opened PagedMemory
  import opened LruReplacement
  import opened Mmus
  import opened PagingSystem
  import opened PagingInvariant

  function InitView(c: Config): View {
    View(Chosen, [], seq(c.K(), _ => Unforked), seq(c.f, _ => Free))
  }

  lemma InitMemory(c: Config)
    requires c.Valid()
    ensures MemoryOk(c, Init(c), InitView(c))
  {
    InitialOwned(c.need, c.rows, c.f);
  }

  lemma InitInv(c: Config)
    requires c.Valid()
    ensures Inv(c, Init(c), InitView(c))
  {
    InitMemory(c);
    AllAlive(InitView(c).stage);
  }

  lemma {:induction false} AllAlive(stage: seq<Stage>)
    requires forall i :: 0 <= i < |stage| ==> stage[i] != Ended
    ensures Alive(stage) == |stage|
  {
    if stage != [] { AllAlive(stage[1..]); }
  }

  // The number of live processes after the stage of one process changes.
  lemma {:induction false} AliveUpdate(stage: seq<Stage>, i: nat, x: Stage)
    requires i < |stage|
    ensures Alive(stage[i := x]) == Alive(stage) + (if x == Ended then 0 else 1) - (if stage[i] == Ended then 0 else 1)
  {
    if i > 0 {
      assert stage[i := x][1..] == stage[1..][i - 1 := x];
      AliveUpdate(stage[1..], i - 1, x);
    } else {
      assert stage[i := x][1..] == stage[1..];
    }
  }

  // ---------- Master and start of the MMU ----------

  lemma MasterLearnsMmuKeeps(c: Config, s: State, s': State, v: View)
    requires Inv(c, s, v) && MasterLearnsMmuStep(c, s, s')
    ensures Inv(c, s', v)
  {
    assert Control(c, s', v) by {
      assert s.q2 == [Msg(100, c.mmuPid)];
      assert Take(s.q2, 100) == [];
    }
    LocalsFrame(c, s, v, s', v, c.K());
    MemoryFrame(c, s, v, s', v);
  }

  lemma ForkControl(c: Config, s: State, s': State, v: View, v': View)
    requires c.Valid() && Control(c, s, v) && ForkStep(c, s, s')
    requires v' == v.(stage := v.stage[s.master.next := Born])
    ensures Control(c, s', v')
  {
    var n := s.master.next;
    assert v.stage[n] == Unforked;
    AliveUpdate(v.stage, n, Born);
  }

  lemma ForkKeeps(c: Config, s: State, s': State, v: View) returns (v': View)
    requires Inv(c, s, v) && ForkStep(c, s, s')
    ensures Inv(c, s', v') && v.stage[s.master.next] == Unforked
    ensures v' == v.(stage := v.stage[s.master.next := Born])
  {
    v' := v.(stage := v.stage[s.master.next := Born]);
    ForkControl(c, s, s', v, v');
    ForkLocals(c, s, s', v, v');
    MemoryFrame(c, s, v, s', v');
  }

  lemma ForkLocals(c: Config, s: State, s': State, v: View, v': View)
    requires c.Valid() && Locals(c, s, v) && ForkStep(c, s, s') && v.stage[s.master.next] == Unforked
    requires v' == v.(stage := v.stage[s.master.next := Born])
    ensures Locals(c, s', v')
  {
    assert Local(c, s, v, s.master.next);
    assert Local(c, s', v', s.master.next);
    LocalsFrame(c, s, v, s', v', s.master.next);
  }

  lemma MasterWakesKeeps(c: Config, s: State, s': State, v: View)
    requires Inv(c, s, v) && MasterWakesStep(c, s, s')
    ensures Inv(c, s', v)
  {
    LocalsFrame(c, s, v, s', v, c.K());
    MemoryFrame(c, s, v, s', v);
  }

  lemma MmuBootsKeeps(c: Config, s: State, s': State, v: View)
    requires Inv(c, s, v) && MmuBootsStep(c, s, s')
    ensures Inv(c, s', v)
  {
    LocalsFrame(c, s, v, s', v, c.K());
    MemoryFrame(c, s, v, s', v);
  }

  // ---------- Scheduler ----------

  lemma PopReady(c: Config, ready: seq<nat>, stage: seq<Stage>)
    requires ReadyOk(c, ready, stage) && ready != []
    ensures ReadyOk(c, ready[1..], stage[ready[0] := Held])
    ensures Pids(c, ready)[1..] == Pids(c, ready[1..]) && Pids(c, ready)[0] == c.pids[ready[0]]
  {
    assert ready == [ready[0]] + ready[1..];
  }

  lemma PushReady(c: Config, ready: seq<nat>, stage: seq<Stage>, p: nat)
    requires ReadyOk(c, ready, stage) && p < c.K() && stage[p] != Queued
    ensures ReadyOk(c, ready + [p], stage[p := Queued])
    ensures Pids(c, ready + [p]) == Pids(c, ready) + [c.pids[p]]
  {
    forall i | 0 <= i < c.K() && stage[p := Queued][i] == Queued ensures i in ready + [p] {
      if i != p { assert i in ready; }
    }
  }

  // Scheduler steps that only move process p between waiting stages.
  lemma WaitingLocals(c: Config, s: State, s': State, v: View, v': View, p: nat)
    requires c.Valid() && Locals(c, s, v) && p < c.K() && |v'.stage| == c.K()
    requires forall i :: 0 <= i < c.K() && i != p ==> v.stage[i] == v'.stage[i] != Held
    requires s'.procs == s.procs && SameMail(c, s.q1, s'.q1, c.K()) && s'.q3 == s.q3
    requires v.stage[p] == Queued || (v.stage[p] == Held && (v.tok == Noticed(p, false) || v.tok == Requeued(p)))
    requires v'.stage[p] == Queued || (v'.stage[p] == Held && (v'.tok == Dispatched(p) || v'.tok == Requeued(p)))
    ensures Locals(c, s', v')
  {
    assert Local(c, s, v, p);
    assert Local(c, s', v', p);
    LocalsFrame(c, s, v, s', v', p);
  }

  lemma SchedReceivesControl(c: Config, s: State, s': State, v: View, v': View)
    requires c.Valid() && Control(c, s, v) && SchedReceivesStep(c, s, s')
    requires v.ready != [] && v' == View(Dispatched(v.ready[0]), v.ready[1..], v.stage[v.ready[0] := Held], v.ow)
    ensures Control(c, s', v')
  {
    TakeOne(c, s.q1);
    PopReady(c, v.ready, v.stage);
    AliveUpdate(v.stage, v.ready[0], Held);
  }

  lemma SchedReceivesKeeps(c: Config, s: State, s': State, v: View) returns (v': View)
    requires Inv(c, s, v) && SchedReceivesStep(c, s, s')
    ensures Inv(c, s', v')
    ensures v.tok == Chosen && v.ready != [] && v.ready[0] < c.K()
    ensures v' == View(Dispatched(v.ready[0]), v.ready[1..], v.stage[v.ready[0] := Held], v.ow)
  {
    v' := View(Dispatched(v.ready[0]), v.ready[1..], v.stage[v.ready[0] := Held], v.ow);
    SchedReceivesControl(c, s, s', v, v');
    TakeOne(c, s.q1);
    WaitingLocals(c, s, s', v, v', v.ready[0]);
    MemoryFrame(c, s, v, s', v');
  }

  lemma SchedDispatchesLocals(c: Config, s: State, s': State, v: View, v': View)
    requires c.Valid() && Locals(c, s, v) && SchedDispatchesStep(c, s, s') && v.tok.Dispatched?
    requires HolderOk(c, v.tok, v.stage) && s.sched.pid == c.pids[v.tok.p] && v' == v.(tok := Resumed(v.tok.p))
    ensures Locals(c, s', v')
  {
    var p := v.tok.p;
    SendToProcess(c, s.q1, p, c.pids[p]);
    assert Local(c, s, v, p);
    assert Local(c, s', v', p);
    LocalsFrame(c, s, v, s', v', p);
  }

  lemma SchedDispatchesControl(c: Config, s: State, s': State, v: View, v': View)
    requires c.Valid() && Control(c, s, v) && SchedDispatchesStep(c, s, s') && v.tok.Dispatched?
    requires v' == v.(tok := Resumed(v.tok.p))
    ensures Control(c, s', v')
  {
    SendToProcess(c, s.q1, v.tok.p, c.pids[v.tok.p]);
  }

  lemma SchedDispatchesKeeps(c: Config, s: State, s': State, v: View) returns (v': View)
    requires Inv(c, s, v) && SchedDispatchesStep(c, s, s')
    ensures Inv(c, s', v')
    ensures v.tok.Dispatched? && v' == v.(tok := Resumed(v.tok.p))
  {
    var p := v.tok.p;
    v' := v.(tok := Resumed(p));
    SchedDispatchesControl(c, s, s', v, v');
    SchedDispatchesLocals(c, s, s', v, v');
    MemoryFrame(c, s, v, s', v');
  }

  lemma NoticedOverKeeps(c: Config, s: State, s': State, v: View) returns (v': View)
    requires Inv(c, s, v) && SchedNoticedStep(c, s, s') && v.tok.Noticed? && v.tok.over
    ensures Inv(c, s', v') && v.tok.p < c.K()
    ensures v' == v.(tok := Chosen, stage := v.stage[v.tok.p := Ended])
  {
    v' := v.(tok := Chosen, stage := v.stage[v.tok.p := Ended]);
    NoticedOverControl(c, s, s', v, v');
    NoticedOverLocals(c, s, s', v, v');
    MemoryFrame(c, s, v, s', v');
  }

  lemma NoticedOverControl(c: Config, s: State, s': State, v: View, v': View)
    requires c.Valid() && Control(c, s, v) && SchedNoticedStep(c, s, s') && v.tok.Noticed? && v.tok.over
    requires v' == v.(tok := Chosen, stage := v.stage[v.tok.p := Ended])
    ensures Control(c, s', v')
  {
    assert s.q2[1..] == [];
    AliveUpdate(v.stage, v.tok.p, Ended);
  }

  lemma NoticedOverLocals(c: Config, s: State, s': State, v: View, v': View)
    requires c.Valid() && Locals(c, s, v) && SchedNoticedStep(c, s, s') && v.tok.Noticed? && v.tok.over
    requires HolderOk(c, v.tok, v.stage)
    requires v' == v.(tok := Chosen, stage := v.stage[v.tok.p := Ended])
    ensures Locals(c, s', v')
  {
    assert Local(c, s, v, v.tok.p);
    assert Local(c, s', v', v.tok.p);
    LocalsFrame(c, s, v, s', v', v.tok.p);
  }

  lemma NoticedFaultKeeps(c: Config, s: State, s': State, v: View) returns (v': View)
    requires Inv(c, s, v) && SchedNoticedStep(c, s, s') && v.tok.Noticed? && !v.tok.over
    ensures Inv(c, s', v')
    ensures v' == v.(tok := Requeued(v.tok.p))
  {
    assert s.q2[1..] == [];
    v' := v.(tok := Requeued(v.tok.p));
    WaitingLocals(c, s, s', v, v', v.tok.p);
    MemoryFrame(c, s, v, s', v');
  }

  // The scheduler waits for the MMU only while the token is on its way, so the message it reads is
  // a notice about the holder and never the MMU's announcement of type 100.
  lemma NoticeIsForHolder(c: Config, s: State, s': State, v: View)
    requires Inv(c, s, v) && SchedNoticedStep(c, s, s')
    ensures v.tok.Noticed? && |s.q2| == 1
    ensures s.q2[0].mtype == (if v.tok.over then 2 else 1) && s.q2[0].body == c.pids[v.tok.p]
  {}

  lemma SchedRequeuesKeeps(c: Config, s: State, s': State, v: View) returns (v': View)
    requires Inv(c, s, v) && SchedRequeuesStep(c, s, s')
    ensures Inv(c, s', v')
    ensures v.tok.Requeued? && v.tok.p < c.K()
    ensures v' == View(Chosen, v.ready + [v.tok.p], v.stage[v.tok.p := Queued], v.ow)
  {
    v' := View(Chosen, v.ready + [v.tok.p], v.stage[v.tok.p := Queued], v.ow);
    SchedRequeuesControl(c, s, s', v, v');
    SendOne(c, s.q1, c.pids[v.tok.p]);
    WaitingLocals(c, s, s', v, v', v.tok.p);
    MemoryFrame(c, s, v, s', v');
  }

  lemma SchedRequeuesControl(c: Config, s: State, s': State, v: View, v': View)
    requires c.Valid() && Control(c, s, v) && SchedRequeuesStep(c, s, s') && v.tok.Requeued?
    requires v' == View(Chosen, v.ready + [v.tok.p], v.stage[v.tok.p := Queued], v.ow)
    ensures Control(c, s', v')
  {
    SendOne(c, s.q1, c.pids[v.tok.p]);
    AliveUpdate(v.stage, v.tok.p, Queued);
    PushReady(c, v.ready, v.stage, v.tok.p);
  }

  lemma SchedPostsKeeps(c: Config, s: State, s': State, v: View) returns (v': View)
    requires Inv(c, s, v) && SchedPostsStep(c, s, s')
    ensures Inv(c, s', v')
    ensures v.tok == Chosen && v' == v.(tok := Finished)
  {
    v' := v.(tok := Finished);
    assert Control(c, s', v');
    LocalsFrame(c, s, v, s', v', c.K());
    MemoryFrame(c, s, v, s', v');
  }

  // ---------- Processes ----------

  lemma ProcStartsKeeps(c: Config, s: State, p: nat, s': State, v: View) returns (v': View)
    requires Inv(c, s, v) && p < c.K() && ProcStartsStep(c, s, p, s')
    ensures Inv(c, s', v')
    ensures v.stage[p] == Born && v' == v.(ready := v.ready + [p], stage := v.stage[p := Queued])
  {
    v' := v.(ready := v.ready + [p], stage := v.stage[p := Queued]);
    ProcStartsLocals(c, s, p, s', v, v');
    ProcStartsControl(c, s, p, s', v, v');
    MemoryFrame(c, s, v, s', v');
  }

  lemma ProcStartsLocals(c: Config, s: State, p: nat, s': State, v: View, v': View)
    requires c.Valid() && Locals(c, s, v) && p < c.K() && ProcStartsStep(c, s, p, s')
    requires HolderOk(c, v.tok, v.stage) && v' == v.(ready := v.ready + [p], stage := v.stage[p := Queued])
    ensures Locals(c, s', v') && v.stage[p] == Born
  {
    assert Local(c, s, v, p);
    SendOne(c, s.q1, c.pids[p]);
    assert Local(c, s', v', p);
    LocalsFrame(c, s, v, s', v', p);
  }

  lemma ProcStartsControl(c: Config, s: State, p: nat, s': State, v: View, v': View)
    requires c.Valid() && Control(c, s, v) && p < c.K() && ProcStartsStep(c, s, p, s') && v.stage[p] == Born
    requires v' == v.(ready := v.ready + [p], stage := v.stage[p := Queued])
    ensures Control(c, s', v')
  {
    SendOne(c, s.q1, c.pids[p]);
    AliveUpdate(v.stage, p, Queued);
    PushReady(c, v.ready, v.stage, p);
  }

  // A process reads its run message, for the first time or after a fault.
  lemma RunMessageKeeps(c: Config, s: State, p: nat, s': State, v: View) returns (v': View)
    requires Inv(c, s, v) && p < c.K() && (ProcFirstRunsStep(c, s, p, s') || ProcResumesStep(c, s, p, s'))
    ensures Inv(c, s', v')
    ensures v.tok == Resumed(p) && v' == v.(tok := Running(p))
  {
    v' := v.(tok := Running(p));
    RunMessageLocals(c, s, p, s', v, v');
    assert Control(c, s', v') by { TakeByProcess(c, s.q1, p); }
    MemoryFrame(c, s, v, s', v');
  }

  lemma RunMessageLocals(c: Config, s: State, p: nat, s': State, v: View, v': View)
    requires c.Valid() && Locals(c, s, v) && p < c.K()
    requires ProcFirstRunsStep(c, s, p, s') || ProcResumesStep(c, s, p, s')
    requires HolderOk(c, v.tok, v.stage) && v' == v.(tok := Running(p))
    ensures Locals(c, s', v') && v.tok == Resumed(p)
  {
    assert Local(c, s, v, p);
    TakeByProcess(c, s.q1, p);
    ParseRoundTrip(c.refs[p], 0);
    assert Local(c, s', v', p);
    LocalsFrame(c, s, v, s', v', p);
  }

  // The parser's turn: the next page of the reference string, or its end.
  lemma ParsedFaithful(q: Proc, pages: seq<nat>, need: nat)
    requires Faithful(q, pages, need) && q.pc == AtHead
    ensures q.i >= |Render(pages)| ==> Faithful(q.(pc := Done), pages, need)
    ensures q.i < |Render(pages)| ==>
              var (page, next) := ParsePage(Render(pages), q.i);
              Faithful(q.(pc := AwaitingReply, prev := q.i, i := next, page := page), pages, need)
  {
    ParseRoundTrip(pages, |q.granted|);
  }

  lemma GrantedFaithful(q: Proc, pages: seq<nat>, need: nat)
    requires Faithful(q, pages, need) && q.pc == AwaitingReply
    ensures q.page < need ==> Faithful(q.(pc := AtHead, granted := q.granted + [q.page]), pages, need)
    ensures q.page < need ==> Faithful(q.(pc := AwaitingRun), pages, need)
    ensures q.page >= need ==> Faithful(q.(pc := Stopped), pages, need)
  {
    var j := |q.granted|;
    assert pages[..j + 1] == pages[..j] + [pages[j]];
  }

  lemma ProcRequestsKeeps(c: Config, s: State, p: nat, s': State, v: View) returns (v': View)
    requires Inv(c, s, v) && p < c.K() && ProcRequestsStep(c, s, p, s')
    ensures Inv(c, s', v')
    ensures v.tok == Running(p) && v' == v.(tok := Requested(p))
  {
    v' := v.(tok := Requested(p));
    ProcRequestsLocals(c, s, p, s', v, v');
    assert Control(c, s', v') by { SendOne(c, s.q3, (c.pids[p], Wanted(s'.procs[p]))); }
    MemoryFrame(c, s, v, s', v');
  }

  lemma ProcRequestsLocals(c: Config, s: State, p: nat, s': State, v: View, v': View)
    requires c.Valid() && Locals(c, s, v) && p < c.K() && ProcRequestsStep(c, s, p, s')
    requires HolderOk(c, v.tok, v.stage) && v' == v.(tok := Requested(p))
    ensures Locals(c, s', v') && v.tok == Running(p)
  {
    assert Local(c, s, v, p);
    SendOne(c, s.q3, (c.pids[p], Wanted(s'.procs[p])));
    ParsedFaithful(s.procs[p], c.refs[p], c.need[p]);
    assert Local(c, s', v', p);
    LocalsFrame(c, s, v, s', v', p);
  }

  lemma ProcReadsKeeps(c: Config, s: State, p: nat, s': State, v: View) returns (v': View)
    requires Inv(c, s, v) && p < c.K() && ProcReadsStep(c, s, p, s')
    ensures Inv(c, s', v')
    ensures v' == if v.tok == Replied(p) then v.(tok := Running(p)) else v
  {
    v' := if v.tok == Replied(p) then v.(tok := Running(p)) else v;
    ReadLocals(c, s, p, s', v, v');
    ReadControl(c, s, p, s', v, v');
    MemoryFrame(c, s, v, s', v');
  }

  lemma ReadControl(c: Config, s: State, p: nat, s': State, v: View, v': View)
    requires c.Valid() && p < c.K() && Control(c, s, v) && ProcReadsStep(c, s, p, s') && v.tok != Requested(p)
    requires v' == if v.tok == Replied(p) then v.(tok := Running(p)) else v
    ensures Control(c, s', v')
  {
    TakeByProcess(c, s.q3, p);
  }

  lemma ReadLocals(c: Config, s: State, p: nat, s': State, v: View, v': View)
    requires c.Valid() && p < c.K() && Locals(c, s, v) && ProcReadsStep(c, s, p, s')
    requires HolderOk(c, v.tok, v.stage)
    requires v' == if v.tok == Replied(p) then v.(tok := Running(p)) else v
    ensures Locals(c, s', v') && v.tok != Requested(p)
  {
    assert Local(c, s, v, p);
    TakeByProcess(c, s.q3, p);
    GrantedFaithful(s.procs[p], c.refs[p], c.need[p]);
    assert Local(c, s', v', p);
    LocalsFrame(c, s, v, s', v', p);
  }

  // ---------- MMU ----------

  lemma FoundInTable(c: Config, table: seq<nat>, stage: seq<Stage>, p: nat)
    requires c.Valid() && |table| == |stage| == c.K() && p < c.K() && stage[p] != Unforked
    requires forall i :: 0 <= i < c.K() ==> table[i] == if stage[i] == Unforked then 0 else c.pids[i]
    ensures IndexOf(table, c.pids[p]) == p
  {
    assert table[p] == c.pids[p];
    forall j | 0 <= j < p ensures table[j] != c.pids[p] {}
  }

  lemma MmuReceivesKeeps(c: Config, s: State, s': State, v: View) returns (v': View)
    requires Inv(c, s, v) && MmuReceivesStep(c, s, s')
    ensures Inv(c, s', v')
    ensures v.tok.Requested? && v' == v.(tok := InMmu(v.tok.p))
  {
    v' := v.(tok := InMmu(v.tok.p));
    MmuReceivesControl(c, s, s', v, v');
    MmuReceivesLocals(c, s, s', v, v');
    LogGrows(c, s.mem, s.log, v.tok, v.ow, v.tok.p, s'.mmu.page);
  }

  lemma MmuReceivesControl(c: Config, s: State, s': State, v: View, v': View)
    requires c.Valid() && Control(c, s, v) && MmuReceivesStep(c, s, s') && v.tok.Requested?
    requires v' == v.(tok := InMmu(v.tok.p))
    ensures Control(c, s', v') && s'.mmu == Serving(v.tok.p, Wanted(s.procs[v.tok.p]))
    ensures s'.log == s.log + [Request(v.tok.p, Wanted(s.procs[v.tok.p]))]
  {
    FoundInTable(c, s.pidTable, v.stage, v.tok.p);
    TakeOne(c, s.q3);
  }

  lemma MmuReceivesLocals(c: Config, s: State, s': State, v: View, v': View)
    requires c.Valid() && Locals(c, s, v) && MmuReceivesStep(c, s, s') && v.tok.Requested?
    requires HolderOk(c, v.tok, v.stage) && v' == v.(tok := InMmu(v.tok.p))
    requires s'.mmu == Serving(v.tok.p, Wanted(s.procs[v.tok.p]))
    ensures Locals(c, s', v')
  {
    TakeOne(c, s.q3);
    assert Local(c, s, v, v.tok.p);
    assert Local(c, s', v', v.tok.p);
    LocalsFrame(c, s, v, s', v', v.tok.p);
  }

  lemma LogGrows(c: Config, mem: Memory, log: Log, tok: Token, ow: seq<Owner>, p: nat, page: int)
    requires StacksOk(c, mem, log, tok, ow) && !tok.InMmu?
    ensures StacksOk(c, mem, log + [Request(p, page)], InMmu(p), ow)
  {
    var log' := log + [Request(p, page)];
    assert log'[..|log|] == log;
    forall i | 0 <= i < c.K() ensures Stacked(mem.tables[i], c.need[i], Served(log', InMmu(p), i), i) {
      assert Stacked(mem.tables[i], c.need[i], Served(log, tok, i), i);
      if i != p { StackedIgnoresOthers(mem.tables[i], c.need[i], log, i, Request(p, page)); }
    }
  }

  // Release empties the table of p and touches no other.
  lemma ReleaseMemory(c: Config, mem: Memory, log: Log, p: nat, ow: seq<Owner>)
    requires StacksOk(c, mem, log, InMmu(p), ow) && p < c.K()
    ensures StacksOk(c, Release(mem, p), log, Noticed(p, true), ReleaseOwner(ow, p))
    ensures Empty(Release(mem, p).tables[p])
  {
    ReleaseKeepsOwned(mem, ow, p);
    forall i | 0 <= i < c.K() ensures Stacked(Release(mem, p).tables[i], c.need[i], log, i) {
      assert Stacked(mem.tables[i], c.need[i], Served(log, InMmu(p), i), i);
    }
  }

  lemma TouchMemory(c: Config, mem: Memory, log: Log, p: nat, page: nat, ow: seq<Owner>)
    requires StacksOk(c, mem, log, InMmu(p), ow) && p < c.K() && page < c.need[p] && Hit(mem, p, page)
    requires log != [] && log[|log| - 1] == Request(p, page)
    ensures StacksOk(c, Touch(mem, p, page, |log|), log, Replied(p), ow)
  {
    var pre := log[..|log| - 1];
    assert log == pre + [Request(p, page)];
    TouchKeepsOwned(mem, ow, p, page, |log|);
    forall i | 0 <= i < c.K() ensures Stacked(Touch(mem, p, page, |log|).tables[i], c.need[i], log, i) {
      assert Stacked(mem.tables[i], c.need[i], Served(log, InMmu(p), i), i);
      if i == p { TouchKeepsStacked(mem.tables[p], c.need[p], pre, p, page); }
    }
  }

  lemma NoFrameNoLoad(mem: Memory, ow: seq<Owner>, p: nat, page: nat, now: int)
    requires Owned(mem, ow) && |ow| == 0 && p < |mem.tables| && page < mem.need[p]
    ensures Load(mem, p, page, now) == mem && Empty(mem.tables[p])
  {
    forall j | 0 <= j < |mem.tables[p]| ensures mem.tables[p][j].frame == -1 {
      assert EntryAgrees(mem, ow, p, j);
    }
  }

  lemma EmptyStack(t: Table, need: nat, log: Log, p: nat)
    requires Empty(t) && need <= |t|
    ensures Stacked(t, need, log, p)
  {}

  lemma LoadStack(mem: Memory, pre: Log, p: nat, page: nat, ow: seq<Owner>)
    requires Owned(mem, ow) && p < |mem.need| && page < mem.need[p] && !Hit(mem, p, page)
    requires |pre| + 1 < INT_MAX || |ow| == 0
    requires p < |mem.tables| && mem.need[p] <= |mem.tables[p]| && Stacked(mem.tables[p], mem.need[p], pre, p)
    ensures Stacked(Load(mem, p, page, |pre| + 1).tables[p], mem.need[p], pre + [Request(p, page)], p)
  {
    if |ow| == 0 {
      NoFrameNoLoad(mem, ow, p, page, |pre| + 1);
      EmptyStack(mem.tables[p], mem.need[p], pre + [Request(p, page)], p);
    } else {
      LoadKeepsStacked(mem, ow, pre, p, page);
    }
  }

  // A change of process p's table that leaves its stack in order with p's last request counted.
  lemma OneStackChanges(c: Config, mem: Memory, r: Memory, log: Log, p: nat, ow: seq<Owner>, ow': seq<Owner>)
    requires StacksOk(c, mem, log, InMmu(p), ow) && p < c.K()
    requires Owned(r, ow') && |ow'| == c.f && r.need == mem.need && |r.tables| == |mem.tables|
    requires |r.tables[p]| == |mem.tables[p]|
    requires forall i :: 0 <= i < |r.tables| && i != p ==> r.tables[i] == mem.tables[i]
    requires c.need[p] <= |r.tables[p]| && Stacked(r.tables[p], c.need[p], log, p)
    ensures StacksOk(c, r, log, Noticed(p, false), ow')
  {
    forall i | 0 <= i < c.K() && i != p ensures Stacked(r.tables[i], c.need[i], log, i) {
      assert Stacked(mem.tables[i], c.need[i], Served(log, InMmu(p), i), i);
    }
  }

  // What a load changes: the table of process p only, whose stack counts the last request afterwards.
  lemma LoadFacts(mem: Memory, log: Log, p: nat, page: nat, ow: seq<Owner>)
    requires Owned(mem, ow) && p < |mem.need| && page < mem.need[p] && !Hit(mem, p, page)
    requires log != [] && log[|log| - 1] == Request(p, page) && (|log| < INT_MAX || |ow| == 0)
    requires p < |mem.tables| && mem.need[p] <= |mem.tables[p]|
    requires Stacked(mem.tables[p], mem.need[p], log[..|log| - 1], p)
    ensures var r := Load(mem, p, page, |log|);
            && Owned(r, LoadOwner(mem, ow, p, page)) && r.need == mem.need && r.tables == mem.tables[p := r.tables[p]]
            && |r.tables[p]| == |mem.tables[p]| && Stacked(r.tables[p], mem.need[p], log, p)
  {
    LoadTouchesOne(mem, p, page, |log|);
    LoadKeepsOwned(mem, ow, p, page, |log|);
    var pre := log[..|log| - 1];
    assert log == pre + [Request(p, page)];
    LoadStack(mem, pre, p, page, ow);
  }

  lemma LoadMemory(c: Config, mem: Memory, log: Log, p: nat, page: nat, ow: seq<Owner>)
    requires StacksOk(c, mem, log, InMmu(p), ow) && p < c.K() && page < c.need[p] && !Hit(mem, p, page)
    requires log != [] && log[|log| - 1] == Request(p, page) && (|log| < INT_MAX || c.f == 0)
    ensures StacksOk(c, Load(mem, p, page, |log|), log, Noticed(p, false), LoadOwner(mem, ow, p, page))
  {
    assert Stacked(mem.tables[p], c.need[p], Served(log, InMmu(p), p), p);
    LoadFacts(mem, log, p, page, ow);
    OneStackChanges(c, mem, Load(mem, p, page, |log|), log, p, ow, LoadOwner(mem, ow, p, page));
  }

  // The holder's part of every answer of the MMU.
  lemma AnswerLocals(c: Config, s: State, s': State, v: View, v': View, p: nat, frame: int)
    requires c.Valid() && Locals(c, s, v) && HolderOk(c, v.tok, v.stage) && v.tok == InMmu(p) && MmuWith(s.mmu, p)
    requires s.mmu.Serving? && s'.procs == s.procs && s'.q1 == s.q1 && v'.stage == v.stage
    requires if s.mmu.page == TERMINATE then s'.q3 == s.q3 && v'.tok == Noticed(p, true)
             else s'.q3 == s.q3 + [Msg(c.pids[p], (c.pids[p], frame))]
    requires s.mmu.page != TERMINATE ==>
               if frame == ILLEGAL then s.mmu.page >= c.need[p] && v'.tok == v.tok && s'.mmu == Releasing(p)
               else if frame == FAULT then s.mmu.page < c.need[p] && v'.tok == v.tok && s'.mmu == Loading(p, s.mmu.page)
               else s.mmu.page < c.need[p] && frame >= 0 && v'.tok == Replied(p)
    ensures Locals(c, s', v')
  {
    assert Local(c, s, v, p);
    SendToProcess(c, s.q3, p, (c.pids[p], frame));
    assert Local(c, s', v', p);
    LocalsFrame(c, s, v, s', v', p);
  }

  lemma ServeTerminationControl(c: Config, s: State, s': State, v: View, v': View)
    requires c.Valid() && Control(c, s, v) && MmuServesStep(c, s, s') && s.mmu.page == TERMINATE
    requires v' == v.(tok := Noticed(s.mmu.idx, true), ow := v'.ow)
    ensures Control(c, s', v') && v.tok == InMmu(s.mmu.idx)
  {}

  lemma ServeTerminationKeeps(c: Config, s: State, s': State, v: View) returns (v': View)
    requires Inv(c, s, v) && MmuServesStep(c, s, s') && s.mmu.page == TERMINATE
    ensures Inv(c, s', v') && v.tok == InMmu(s.mmu.idx)
    ensures v' == v.(tok := Noticed(s.mmu.idx, true), ow := ReleaseOwner(v.ow, s.mmu.idx))
  {
    var p := s.mmu.idx;
    v' := v.(tok := Noticed(p, true), ow := ReleaseOwner(v.ow, p));
    ServeTerminationControl(c, s, s', v, v');
    AnswerLocals(c, s, s', v, v', p, 0);
    ReleaseMemory(c, s.mem, s.log, p, v.ow);
  }

  lemma ServeIllegalKeeps(c: Config, s: State, s': State, v: View)
    requires Inv(c, s, v) && MmuServesStep(c, s, s') && s.mmu.page != TERMINATE && s.mmu.page >= s.mem.need[s.mmu.idx]
    ensures Inv(c, s', v) && v.tok == InMmu(s.mmu.idx)
  {
    var p := s.mmu.idx;
    assert Control(c, s', v) by { SendToProcess(c, s.q3, p, (c.pids[p], ILLEGAL)); }
    AnswerLocals(c, s, s', v, v, p, ILLEGAL);
    CountersKeepOwned(s.mem, v.ow, p);
  }

  lemma ServeHitMemory(c: Config, s: State, s': State, v: View, v': View)
    requires c.Valid() && MemoryOk(c, s, v) && MmuServesStep(c, s, s') && 0 <= s.mmu.page < s.mem.need[s.mmu.idx]
    requires Hit(s.mem, s.mmu.idx, s.mmu.page) && |s.procs| == c.K() && s.procs[s.mmu.idx].page == s.mmu.page
    requires v.tok == InMmu(s.mmu.idx) && v' == v.(tok := Replied(s.mmu.idx))
    ensures MemoryOk(c, s', v')
  {
    TouchMemory(c, s.mem, s.log, s.mmu.idx, s.mmu.page, v.ow);
  }

  lemma ServeHitControl(c: Config, s: State, s': State, v: View, v': View)
    requires c.Valid() && Control(c, s, v) && MmuServesStep(c, s, s') && 0 <= s.mmu.page < s.mem.need[s.mmu.idx]
    requires Hit(s.mem, s.mmu.idx, s.mmu.page) && v' == v.(tok := Replied(s.mmu.idx))
    ensures Control(c, s', v') && v.tok == InMmu(s.mmu.idx)
  {
    SendToProcess(c, s.q3, s.mmu.idx, (c.pids[s.mmu.idx], s.mem.tables[s.mmu.idx][s.mmu.page].frame));
  }

  lemma ServeHitKeeps(c: Config, s: State, s': State, v: View) returns (v': View)
    requires Inv(c, s, v) && MmuServesStep(c, s, s') && 0 <= s.mmu.page < s.mem.need[s.mmu.idx]
    requires Hit(s.mem, s.mmu.idx, s.mmu.page)
    ensures Inv(c, s', v') && v.tok == InMmu(s.mmu.idx) && v' == v.(tok := Replied(s.mmu.idx))
  {
    var p, page := s.mmu.idx, s.mmu.page;
    v' := v.(tok := Replied(p));
    var frame := s.mem.tables[p][page].frame;
    assert frame >= 0 by { assert ShapedTable(s.mem.tables[p], c.need[p], |s.mem.frames| - 1); }
    ServeHitControl(c, s, s', v, v');
    AnswerLocals(c, s, s', v, v', p, frame);
    assert page == s.procs[p].page by { assert Local(c, s, v, p); }
    ServeHitMemory(c, s, s', v, v');
  }

  lemma ServeFaultKeeps(c: Config, s: State, s': State, v: View)
    requires Inv(c, s, v) && MmuServesStep(c, s, s') && 0 <= s.mmu.page < s.mem.need[s.mmu.idx]
    requires !Hit(s.mem, s.mmu.idx, s.mmu.page)
    ensures Inv(c, s', v) && v.tok == InMmu(s.mmu.idx)
  {
    var p := s.mmu.idx;
    assert Control(c, s', v) by { SendToProcess(c, s.q3, p, (c.pids[p], FAULT)); }
    AnswerLocals(c, s, s', v, v, p, FAULT);
    CountersKeepOwned(s.mem, v.ow, p);
  }

  // The MMU's second message after an illegal page or a fault.
  lemma NoticeLocals(c: Config, s: State, s': State, v: View, v': View, p: nat)
    requires c.Valid() && Locals(c, s, v) && HolderOk(c, v.tok, v.stage) && v.tok == InMmu(p) && MmuWith(s.mmu, p)
    requires s'.procs == s.procs && s'.q1 == s.q1 && s'.q3 == s.q3 && v'.stage == v.stage
    requires (s.mmu.Releasing? && v'.tok == Noticed(p, true)) || (s.mmu.Loading? && v'.tok == Noticed(p, false))
    ensures Locals(c, s', v')
  {
    assert Local(c, s, v, p);
    assert Local(c, s', v', p);
    LocalsFrame(c, s, v, s', v', p);
  }

  lemma MmuReleasesKeeps(c: Config, s: State, s': State, v: View) returns (v': View)
    requires Inv(c, s, v) && MmuReleasesStep(c, s, s')
    ensures Inv(c, s', v') && v.tok == InMmu(s.mmu.idx)
    ensures v' == v.(tok := Noticed(s.mmu.idx, true), ow := ReleaseOwner(v.ow, s.mmu.idx))
  {
    var p := s.mmu.idx;
    v' := v.(tok := Noticed(p, true), ow := ReleaseOwner(v.ow, p));
    assert Control(c, s', v');
    NoticeLocals(c, s, s', v, v', p);
    ReleaseMemory(c, s.mem, s.log, p, v.ow);
  }

  lemma MmuLoadsMemory(c: Config, s: State, s': State, v: View, v': View)
    requires c.Valid() && MemoryOk(c, s, v) && MmuLoadsStep(c, s, s') && (|s.log| < INT_MAX || c.f == 0)
    requires HolderOk(c, v.tok, v.stage)
    requires v.tok == InMmu(s.mmu.idx)
    requires v' == v.(tok := Noticed(s.mmu.idx, false), ow := LoadOwner(s.mem, v.ow, s.mmu.idx, s.mmu.page))
    ensures MemoryOk(c, s', v')
  {
    LoadMemory(c, s.mem, s.log, s.mmu.idx, s.mmu.page, v.ow);
    LoadTouchesOne(s.mem, s.mmu.idx, s.mmu.page, |s.log|);
  }

  lemma MmuLoadsKeeps(c: Config, s: State, s': State, v: View) returns (v': View)
    requires Inv(c, s, v) && MmuLoadsStep(c, s, s') && (|s.log| < INT_MAX || c.f == 0)
    ensures Inv(c, s', v') && v.tok == InMmu(s.mmu.idx)
    ensures v' == v.(tok := Noticed(s.mmu.idx, false), ow := v'.ow)
  {
    v' := v.(tok := Noticed(s.mmu.idx, false), ow := LoadOwner(s.mem, v.ow, s.mmu.idx, s.mmu.page));
    assert Control(c, s', v');
    NoticeLocals(c, s, s', v, v', s.mmu.idx);
    MmuLoadsMemory(c, s, s', v, v');
  }
}
