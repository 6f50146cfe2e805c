// How long the threads of the clinic can go on: the steps that they take by their own power are bounded
// by the length of the plan and by how often a wait ends without a signal.
module ClinicBounds {
  import opened Sums
  import opened ClinicThreads

  // ---------- What each thread can still do ----------

  // The steps of a visitor until it sleeps or ends; before DoneSignal also the two of the main thread that it wakes.
  function VisitorLeft(pc: VisitorPc): nat {
    match pc
    case Copying => 7 case DoneLock => 6 case DoneSignal => 5
    case TurnLock => 2 case TurnCheck => 1 case TurnAsleep => 0 case Ended => 0
  }

  // The steps of the doctor until it sleeps or has gone; with work to do also the two of the main
  // thread that it wakes.
  function DoctorLeft(pc: DoctorPc, docState: int): nat {
    if docState == 0 then
      (match pc case Asleep => 0 case Check => 1 case Lock => 2 case Unlock => 3 case _ => 11)
    else if docState == 1 then
      (match pc case Reset => 6 case Look => 7 case LockMutex => 8 case Check => 9 case Lock => 10 case _ => 11)
    else
      (match pc
       case Gone => 0 case Going => 1 case Look => 2 case LockMutex => 3 case Check => 4 case Lock => 5 case _ => 6)
  }

  // What a command can cost: k is the number of visitors of the plan, all of whom a broadcast may wake.
  function Cost(k: nat): nat {
    21 + 2 * k
  }

  function MainLocal(k: nat, main: MainPc): nat {
    match main
    case Idle => Cost(k) case Locked => 20 + 2 * k
    case Create => 11 case InitLock => 3 case InitCheck => 2 case InitAsleep => 1
    case SeeLockDoc => 19 + 2 * k case SeeSet => 18 + 2 * k case SeeLockDone => 6 + 2 * k case SeeCheck => 5 + 2 * k
    case SeeAsleep => 4 + 2 * k case SeeLock => 3 + 2 * k case SeeCall => 2 + 2 * k case SeeJoin => 1
    case LeaveLockDoc => 15 case LeaveSet => 14 case LeaveUnlock => 2 case LeaveJoin => 1
  }

  // The cost of n commands that have not begun.
  function Script(n: nat, k: nat): nat {
    if n == 0 then 0 else Script(n - 1, k) + Cost(k)
  }

  // n commands are left, the one under way included.
  function MainLeft(n: nat, k: nat, main: MainPc): nat {
    if n == 0 then 0 else Script(n - 1, k) + MainLocal(k, main)
  }

  lemma {:induction false} ScriptCost(n: nat, k: nat)
    ensures Script(n, k) == n * Cost(k)
  {
    if n > 0 { ScriptCost(n - 1, k); }
  }

  function VisitorsLeft(visitors: seq<VisitorThread>): (xs: seq<nat>)
    ensures |xs| == |visitors|
  {
    seq(|visitors|, v requires 0 <= v < |visitors| => VisitorLeft(visitors[v].pc))
  }

  function Rank(p: Plan, s: State): nat
    requires s.pos <= |p.commands|
  {
    MainLeft(|p.commands| - s.pos, |p.kind|, s.main) + DoctorLeft(s.doctor, s.docState)
        + Total(VisitorsLeft(s.visitors))
  }

  // ---------- Visitors ----------

  lemma VisitorUpdate(visitors: seq<VisitorThread>, v: nat, thread: VisitorThread)
    requires v < |visitors|
    ensures Total(VisitorsLeft(visitors[v := thread])) ==
            Total(VisitorsLeft(visitors)) - VisitorLeft(visitors[v].pc) + VisitorLeft(thread.pc)
  {
    assert VisitorsLeft(visitors[v := thread]) == VisitorsLeft(visitors)[v := VisitorLeft(thread.pc)];
    TotalUpdate(VisitorsLeft(visitors), v, VisitorLeft(thread.pc));
  }

  // What the main thread can still do when it has been woken from its wait for a new visitor or for the doctor.
  lemma MainWoken(n: nat, k: nat, main: MainPc)
    requires n > 0
    ensures MainLeft(n, k, if main == InitAsleep then InitLock else main) <= MainLeft(n, k, main) + 2
    ensures MainLeft(n, k, if main == SeeAsleep then SeeLockDone else main) <= MainLeft(n, k, main) + 2
  {}

  lemma VisitorStepLowers(p: Plan, s: State, v: nat, s': State)
    requires NumbersOk(p) && Shaped(p, s) && Phase(p, s.pos, s.main) && v < |s.visitors| && VisitorStep(p, s, v, s')
    ensures s'.pos == s.pos && Rank(p, s') < Rank(p, s)
  {
    VisitorUpdate(s.visitors, v, s'.visitors[v]);
    assert s'.visitors == s.visitors[v := s'.visitors[v]];
    if s.pos < |p.commands| { MainWoken(|p.commands| - s.pos, |p.kind|, s.main); }
  }

  lemma NewVisitor(visitors: seq<VisitorThread>)
    ensures Total(VisitorsLeft(visitors + [VisitorThread(Copying, None)])) == Total(VisitorsLeft(visitors)) + 7
  {
    assert VisitorsLeft(visitors + [VisitorThread(Copying, None)]) == VisitorsLeft(visitors) + [7];
    TotalAppend(VisitorsLeft(visitors), 7);
  }

  lemma BroadcastRaises(p: Plan, visitors: seq<VisitorThread>, k: nat)
    requires |visitors| <= |p.kind|
    ensures Total(VisitorsLeft(WakeVisitors(p, visitors, k))) <= Total(VisitorsLeft(visitors)) + 2 * |p.kind|
  {
    TotalRaised(VisitorsLeft(visitors), VisitorsLeft(WakeVisitors(p, visitors, k)), 2);
  }

  // ---------- Doctor and main thread ----------

  lemma DoctorMoveLowers(pc: DoctorPc, pc': DoctorPc, docState: int)
    requires docState in {-1, 0, 1} && (pc in {LockMutex, Look} ==> docState != 0)
    requires || (pc == Lock && pc' == Check)
             || (pc == Check && pc' == (if docState == 0 then Asleep else LockMutex))
             || (pc == LockMutex && pc' == Look)
             || (pc == Look && pc' == (if docState == -1 then Going else Reset))
             || (pc == Unlock && pc' == Lock) || (pc == Going && docState == -1 && pc' == Gone)
    ensures DoctorLeft(pc', docState) < DoctorLeft(pc, docState)
  {}

  lemma DoctorStepLowers(p: Plan, s: State, s': State)
    requires Shaped(p, s) && Phase(p, s.pos, s.main) && DoctorOk(p, s.pos, s.main, s.doctor, s.docState)
    requires DoctorStep(s, s')
    ensures s'.pos == s.pos && Rank(p, s') < Rank(p, s)
  {
    if s.doctor == Reset {
      if s.pos < |p.commands| { MainWoken(|p.commands| - s.pos, |p.kind|, s.main); }
    } else {
      DoctorMoveLowers(s.doctor, s'.doctor, s.docState);
    }
  }

  // The main thread's own part of its step, with what it leaves to others: work for the doctor, a new
  // visitor, or a broadcast.
  function Handed(k: nat, main: MainPc): nat {
    match main
    case SeeSet => 11 case LeaveSet => 11 case Create => 7 case SeeCall => 2 * k case _ => 0
  }

  lemma MainMoveLowers(n: nat, k: nat, main: MainPc, main': MainPc, ends: bool)
    requires n > 0 && MainLocal(k, main) > Handed(k, main) + if ends then 0 else MainLocal(k, main')
    requires ends ==> main' == Idle
    ensures MainLeft(if ends then n - 1 else n, k, main') + Handed(k, main) < MainLeft(n, k, main)
  {}

  lemma MainTurns(p: Plan, s: State, s': State)
    requires NumbersOk(p) && Shaped(p, s) && Phase(p, s.pos, s.main) && (s.main == SeeCall ==> CommandOk(p, s.pos))
    requires MainStep(p, s, s')
    ensures s.pos < |p.commands| && (s'.pos == s.pos || (s'.pos == s.pos + 1 && s'.main == Idle))
    ensures MainLocal(|p.kind|, s.main) > Handed(|p.kind|, s.main)
            + if s'.pos == s.pos then MainLocal(|p.kind|, s'.main) else 0
  {}

  lemma DoctorGiven(pc: DoctorPc, docState: int)
    ensures DoctorLeft(pc, docState) <= 11
  {}

  lemma MainHandsOver(p: Plan, s: State, s': State)
    requires NumbersOk(p) && Shaped(p, s) && Phase(p, s.pos, s.main) && (s.main == SeeCall ==> CommandOk(p, s.pos))
    requires MainStep(p, s, s')
    ensures DoctorLeft(s'.doctor, s'.docState) + Total(VisitorsLeft(s'.visitors)) <=
            DoctorLeft(s.doctor, s.docState) + Total(VisitorsLeft(s.visitors)) + Handed(|p.kind|, s.main)
  {
    if s.main == Create {
      NewVisitor(s.visitors);
    } else if s.main == SeeCall {
      BroadcastRaises(p, s.visitors, p.kind[p.commands[s.pos].v]);
    } else {
      DoctorGiven(s'.doctor, s'.docState);
    }
  }

  lemma MainStepLowers(p: Plan, s: State, s': State)
    requires NumbersOk(p) && Shaped(p, s) && Phase(p, s.pos, s.main) && (s.main == SeeCall ==> CommandOk(p, s.pos))
    requires MainStep(p, s, s')
    ensures s'.pos <= |p.commands| && Rank(p, s') < Rank(p, s)
  {
    MainTurns(p, s, s');
    MainHandsOver(p, s, s');
    MainMoveLowers(|p.commands| - s.pos, |p.kind|, s.main, s'.main, s'.pos != s.pos);
  }

  lemma ProperLowers(p: Plan, s: State, s': State)
    requires Inv(p, s) && Proper(p, s, s')
    ensures s'.pos <= |p.commands| && Rank(p, s') < Rank(p, s)
  {
    if MainStep(p, s, s') {
      MainStepLowers(p, s, s');
    } else if DoctorStep(s, s') {
      DoctorStepLowers(p, s, s');
    } else {
      var v: nat :| v < |s.visitors| && VisitorStep(p, s, v, s');
      VisitorStepLowers(p, s, v, s');
    }
  }

  lemma SleeperRaises(p: Plan, s: State, v: nat)
    requires Shaped(p, s) && v < |s.visitors| && s.visitors[v].pc == TurnAsleep
    ensures Rank(p, Put(s, v, TurnLock)) == Rank(p, s) + 2
  {
    VisitorUpdate(s.visitors, v, s.visitors[v].(pc := TurnLock));
  }

  lemma MainRaises(p: Plan, s: State)
    requires Shaped(p, s) && Phase(p, s.pos, s.main)
    ensures s.main == InitAsleep ==> Rank(p, s.(main := InitLock)) <= Rank(p, s) + 2
    ensures s.main == SeeAsleep ==> Rank(p, s.(main := SeeLockDone)) <= Rank(p, s) + 2
  {
    if s.main in {InitAsleep, SeeAsleep} { MainWoken(|p.commands| - s.pos, |p.kind|, s.main); }
  }

  // A wait that ends without a signal lets its thread look twice more.
  lemma SpuriousRaises(p: Plan, s: State, s': State)
    requires Shaped(p, s) && Phase(p, s.pos, s.main) && DoctorOk(p, s.pos, s.main, s.doctor, s.docState)
    requires SpuriousStep(s, s')
    ensures s'.pos == s.pos && Rank(p, s') <= Rank(p, s) + 2
  {
    if v: nat :| v < |s.visitors| && s.visitors[v].pc == TurnAsleep && s' == Put(s, v, TurnLock) {
      SleeperRaises(p, s, v);
    } else {
      MainRaises(p, s);
    }
  }

  // ---------- Runs ----------

  // How many steps of the run are nothing but a wait that ends without a signal.
  ghost function Wakeups(p: Plan, run: seq<State>): nat {
    if |run| <= 1 then 0
    else Wakeups(p, run[..|run| - 1]) + if Proper(p, run[|run| - 2], run[|run| - 1]) then 0 else 1
  }

  lemma {:induction false} RunRank(p: Plan, run: seq<State>)
    requires IsRun(p, run)
    ensures run[|run| - 1].pos <= |p.commands|
    ensures Rank(p, run[|run| - 1]) + |run| - 1 <= Rank(p, Init()) + 3 * Wakeups(p, run)
  {
    var n := |run| - 1;
    if n > 0 {
      assert IsRun(p, run[..n]) && run[..n][n - 1] == run[n - 1];
      RunRank(p, run[..n]);
      RunInv(p, run[..n]);
      if Proper(p, run[n - 1], run[n]) { ProperLowers(p, run[n - 1], run[n]); }
      else { SpuriousRaises(p, run[n - 1], run[n]); }
    }
  }

  lemma StartRank(p: Plan)
    ensures Rank(p, Init()) == |p.commands| * Cost(|p.kind|) + 2
  {
    ScriptCost(|p.commands|, |p.kind|);
  }

  // Every run with w spurious wakeups ends within a bound that the plan and w give, and a run that
  // cannot go on by anybody's own power has carried out the plan.
  lemma EveryRunEnds(p: Plan, run: seq<State>)
    requires IsRun(p, run)
    ensures |run| - 1 <= |p.commands| * Cost(|p.kind|) + 2 + 3 * Wakeups(p, run)
    ensures !Moves(p, run[|run| - 1]) ==> Complete(p, run[|run| - 1]) && AtRest(run[|run| - 1])
  {
    RunRank(p, run);
    DeadlockFree(p, run);
    StartRank(p);
  }
}
