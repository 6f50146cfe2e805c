// The reusable barrier of the thread library: a mutex, a counter and two turnstile semaphores.
// Every semaphore operation of foothread_barrier_wait is one atomic step.
module Barriers {
  import opened Sums

  // The next operation of a thread.
  datatype Pc =
    | Enter       // wait mutex, on the way in; also: between two calls
    | CountIn     // count++ and the test for the last arrival
    | CloseExit   // wait sem2, by the last arrival
    | OpenGate    // post sem1
    | EnterDone   // post mutex
    | AtGate      // wait sem1
    | PassGate    // post sem1
    | Depart      // wait mutex, on the way out
    | CountOut    // count-- and the test for the last departure
    | CloseGate   // wait sem1, by the last departure
    | OpenExit    // post sem2
    | DepartDone  // post mutex
    | AtExit      // wait sem2
    | PassExit    // post sem2 and return

  // entered and left count the calls that each thread has begun (by counting itself in) and ended.
  datatype State = State(count: int, mutex: nat, sem1: nat, sem2: nat,
                         pcs: seq<Pc>, entered: seq<nat>, left: seq<nat>)

  // foothread_barrier_init for n threads.
  function Init(n: nat): State {
    State(0, 1, 0, 1, seq(n, _ => Enter), seq(n, _ => 0), seq(n, _ => 0))
  }

  function At(s: State, t: nat, pc: Pc): State
    requires t < |s.pcs|
  {
    s.(pcs := s.pcs[t := pc])
  }

  // One operation of thread t, which makes calls[t] calls in all.
  ghost predicate Step(n: nat, calls: seq<nat>, s: State, t: nat, s': State) {
    && t < n == |s.pcs| == |s.entered| == |s.left| == |calls|
    && match s.pcs[t]
       case Enter => s.mutex > 0 && s.left[t] < calls[t] && s' == At(s, t, CountIn).(mutex := s.mutex - 1)
       case CountIn => s' == At(s, t, if s.count + 1 == n then CloseExit else EnterDone)
                             .(count := s.count + 1, entered := s.entered[t := s.entered[t] + 1])
       case CloseExit => s.sem2 > 0 && s' == At(s, t, OpenGate).(sem2 := s.sem2 - 1)
       case OpenGate => s' == At(s, t, EnterDone).(sem1 := s.sem1 + 1)
       case EnterDone => s' == At(s, t, AtGate).(mutex := s.mutex + 1)
       case AtGate => s.sem1 > 0 && s' == At(s, t, PassGate).(sem1 := s.sem1 - 1)
       case PassGate => s' == At(s, t, Depart).(sem1 := s.sem1 + 1)
       case Depart => s.mutex > 0 && s' == At(s, t, CountOut).(mutex := s.mutex - 1)
       case CountOut => s' == At(s, t, if s.count - 1 == 0 then CloseGate else DepartDone).(count := s.count - 1)
       case CloseGate => s.sem1 > 0 && s' == At(s, t, OpenExit).(sem1 := s.sem1 - 1)
       case OpenExit => s' == At(s, t, DepartDone).(sem2 := s.sem2 + 1)
       case DepartDone => s' == At(s, t, AtExit).(mutex := s.mutex + 1)
       case AtExit => s.sem2 > 0 && s' == At(s, t, PassExit).(sem2 := s.sem2 - 1)
       case PassExit => s' == At(s, t, Enter).(sem2 := s.sem2 + 1, left := s.left[t := s.left[t] + 1])
  }

  // ---------- Counting threads ----------

  function One(pc: Pc, at: set<Pc>): nat {
    if pc in at then 1 else 0
  }

  function Number(pcs: seq<Pc>, at: set<Pc>): nat {
    if pcs == [] then 0 else One(pcs[0], at) + Number(pcs[1..], at)
  }

  lemma {:induction false} NumberUpdate(pcs: seq<Pc>, t: nat, pc: Pc, at: set<Pc>)
    requires t < |pcs|
    ensures Number(pcs[t := pc], at) == Number(pcs, at) + One(pc, at) - One(pcs[t], at)
  {
    if t > 0 {
      assert pcs[t := pc][1..] == pcs[1..][t - 1 := pc];
      NumberUpdate(pcs[1..], t - 1, pc, at);
    } else {
      assert pcs[t := pc][1..] == pcs[1..];
    }
  }

  lemma {:induction false} NumberBounds(pcs: seq<Pc>, at: set<Pc>)
    ensures Number(pcs, at) <= |pcs|
    ensures Number(pcs, at) == |pcs| <==> forall t :: 0 <= t < |pcs| ==> pcs[t] in at
    ensures Number(pcs, at) == 0 <==> forall t :: 0 <= t < |pcs| ==> pcs[t] !in at
  {
    if pcs != [] {
      NumberBounds(pcs[1..], at);
      assert forall t :: 0 < t < |pcs| ==> pcs[t] == pcs[1..][t - 1];
      assert forall t :: 0 <= t < |pcs| - 1 ==> pcs[1..][t] == pcs[t + 1];
    }
  }

  // If one thread is there and the number is one, no other thread is.
  lemma OnlyOne(pcs: seq<Pc>, at: set<Pc>, t: nat)
    requires t < |pcs| && pcs[t] in at && Number(pcs, at) <= 1
    ensures forall u :: 0 <= u < |pcs| && u != t ==> pcs[u] !in at
  {
    forall u | 0 <= u < |pcs| && u != t ensures pcs[u] !in at {
      TwoThere(pcs, at, t, u);
    }
  }

  lemma {:induction false} TwoThere(pcs: seq<Pc>, at: set<Pc>, t: nat, u: nat)
    requires t < |pcs| && u < |pcs| && t != u && pcs[t] in at
    ensures pcs[u] in at ==> Number(pcs, at) >= 2
  {
    if t > 0 && u > 0 {
      TwoThere(pcs[1..], at, t - 1, u - 1);
    } else {
      NumberBounds(pcs[1..], at);
      if t == 0 { assert pcs[1..][u - 1] == pcs[u]; } else { assert pcs[1..][t - 1] == pcs[t]; }
    }
  }

  // ---------- The invariant ----------

  const COUNTED := {CloseExit, OpenGate, EnterDone, AtGate, PassGate, Depart, CountOut}
  const HOLDING := {CountIn, CloseExit, OpenGate, EnterDone, CountOut, CloseGate, OpenExit, DepartDone}
  const CARRYING := {OpenGate, PassGate, OpenExit, PassExit}

  // The single turnstile token is on the exit's side while threads arrive and on the gate's side
  // while they depart.
  ghost predicate Placed(open: bool, round: nat, pc: Pc, entered: nat, left: nat) {
    match pc
    case Enter => !open && entered == round == left
    case CountIn => !open && entered == round == left
    case CloseExit => !open && entered == round + 1 && left == round
    case OpenGate => !open && entered == round + 1 && left == round
    case EnterDone => entered == round + 1 && left == round
    case AtGate => entered == round + 1 && left == round
    case PassGate => open && entered == round + 1 && left == round
    case Depart => open && entered == round + 1 && left == round
    case CountOut => open && entered == round + 1 && left == round
    case CloseGate => open && entered == round + 1 && left == round
    case OpenExit => open && entered == round + 1 && left == round
    case DepartDone => entered == left + 1 == if open then round + 1 else round
    case AtExit => entered == left + 1 == if open then round + 1 else round
    case PassExit => !open && entered == left + 1 == round
  }

  ghost predicate Someone(pcs: seq<Pc>, at: set<Pc>) {
    exists t :: 0 <= t < |pcs| && pcs[t] in at
  }

  // While open: the gate's side has the token. round: the number of completed rounds.
  ghost predicate Inv(n: nat, s: State, open: bool, round: nat) {
    && 0 < n == |s.pcs| == |s.entered| == |s.left|
    && s.count == Number(s.pcs, COUNTED)
    && s.mutex + Number(s.pcs, HOLDING) == 1
    && s.sem1 + s.sem2 + Number(s.pcs, CARRYING) == 1
    && (if open then s.sem2 == 0 else s.sem1 == 0)
    && (!open ==> (s.count == n <==> Someone(s.pcs, {CloseExit, OpenGate})))
    && (open ==> (s.count == 0 <==> Someone(s.pcs, {CloseGate, OpenExit})))
    && forall t :: 0 <= t < n ==> Placed(open, round, s.pcs[t], s.entered[t], s.left[t])
  }

  lemma InitInv(n: nat)
    requires n > 0
    ensures Inv(n, Init(n), false, 0)
  {
    NumberBounds(Init(n).pcs, COUNTED);
    NumberBounds(Init(n).pcs, HOLDING);
    NumberBounds(Init(n).pcs, CARRYING);
  }

  // The three numbers after thread t moves.
  lemma Moves(s: State, t: nat, pc: Pc)
    requires t < |s.pcs|
    ensures Number(s.pcs[t := pc], COUNTED) == Number(s.pcs, COUNTED) + One(pc, COUNTED) - One(s.pcs[t], COUNTED)
    ensures Number(s.pcs[t := pc], HOLDING) == Number(s.pcs, HOLDING) + One(pc, HOLDING) - One(s.pcs[t], HOLDING)
    ensures Number(s.pcs[t := pc], CARRYING) == Number(s.pcs, CARRYING) + One(pc, CARRYING) - One(s.pcs[t], CARRYING)
  {
    NumberUpdate(s.pcs, t, pc, COUNTED);
    NumberUpdate(s.pcs, t, pc, HOLDING);
    NumberUpdate(s.pcs, t, pc, CARRYING);
  }

  // Where the token is after a step.
  function OpenAfter(s: State, t: nat, open: bool): bool
    requires t < |s.pcs|
  {
    if s.pcs[t] == OpenGate then true else if s.pcs[t] == OpenExit then false else open
  }

  function RoundAfter(s: State, t: nat, round: nat): nat
    requires t < |s.pcs|
  {
    if s.pcs[t] == OpenExit then round + 1 else round
  }

  // Facts about the moving thread that every case needs.
  lemma MovingThread(n: nat, calls: seq<nat>, s: State, t: nat, s': State, open: bool, round: nat)
    requires Inv(n, s, open, round) && Step(n, calls, s, t, s')
    ensures Placed(open, round, s.pcs[t], s.entered[t], s.left[t])
    ensures s.pcs[t] in HOLDING ==> forall u :: 0 <= u < n && u != t ==> s.pcs[u] !in HOLDING
    ensures s.pcs[t] in CARRYING ==> forall u :: 0 <= u < n && u != t ==> s.pcs[u] !in CARRYING
    ensures s'.pcs == s.pcs[t := s'.pcs[t]]
    ensures Number(s'.pcs, COUNTED) == Number(s.pcs, COUNTED) + One(s'.pcs[t], COUNTED) - One(s.pcs[t], COUNTED)
    ensures Number(s'.pcs, HOLDING) == Number(s.pcs, HOLDING) + One(s'.pcs[t], HOLDING) - One(s.pcs[t], HOLDING)
    ensures Number(s'.pcs, CARRYING) == Number(s.pcs, CARRYING) + One(s'.pcs[t], CARRYING) - One(s.pcs[t], CARRYING)
  {
    Moves(s, t, s'.pcs[t]);
    if s.pcs[t] in HOLDING { OnlyOne(s.pcs, HOLDING, t); }
    if s.pcs[t] in CARRYING { OnlyOne(s.pcs, CARRYING, t); }
  }

  lemma SomeoneStays(pcs: seq<Pc>, t: nat, pc: Pc, at: set<Pc>)
    requires t < |pcs| && (pc in at <==> pcs[t] in at)
    ensures Someone(pcs[t := pc], at) <==> Someone(pcs, at)
  {
    if Someone(pcs, at) {
      var u :| 0 <= u < |pcs| && pcs[u] in at;
      assert pcs[t := pc][u] in at;
    }
  }

  // The steps that neither count nor move the token across.
  lemma MutexInKeeps(n: nat, calls: seq<nat>, s: State, t: nat, s': State, open: bool, round: nat)
    requires Inv(n, s, open, round) && Step(n, calls, s, t, s') && s.pcs[t] in {Enter, EnterDone}
    ensures Inv(n, s', open, round)
  {
    MovingThread(n, calls, s, t, s', open, round);
    SomeoneStays(s.pcs, t, s'.pcs[t], {CloseGate, OpenExit});
    SomeoneStays(s.pcs, t, s'.pcs[t], {CloseExit, OpenGate});
  }

  lemma MutexOutKeeps(n: nat, calls: seq<nat>, s: State, t: nat, s': State, open: bool, round: nat)
    requires Inv(n, s, open, round) && Step(n, calls, s, t, s') && s.pcs[t] in {Depart, DepartDone}
    ensures Inv(n, s', open, round)
  {
    MovingThread(n, calls, s, t, s', open, round);
    SomeoneStays(s.pcs, t, s'.pcs[t], {CloseGate, OpenExit});
    SomeoneStays(s.pcs, t, s'.pcs[t], {CloseExit, OpenGate});
  }

  lemma GateStepKeeps(n: nat, calls: seq<nat>, s: State, t: nat, s': State, open: bool, round: nat)
    requires Inv(n, s, open, round) && Step(n, calls, s, t, s') && s.pcs[t] in {CloseGate, AtGate, PassGate}
    ensures open && Inv(n, s', open, round)
  {
    MovingThread(n, calls, s, t, s', open, round);
    SomeoneStays(s.pcs, t, s'.pcs[t], {CloseGate, OpenExit});
  }

  lemma ExitStepKeeps(n: nat, calls: seq<nat>, s: State, t: nat, s': State, open: bool, round: nat)
    requires Inv(n, s, open, round) && Step(n, calls, s, t, s') && s.pcs[t] in {CloseExit, AtExit, PassExit}
    ensures !open && Inv(n, s', open, round)
  {
    MovingThread(n, calls, s, t, s', open, round);
    SomeoneStays(s.pcs, t, s'.pcs[t], {CloseExit, OpenGate});
  }

  lemma CountInKeeps(n: nat, calls: seq<nat>, s: State, t: nat, s': State, open: bool, round: nat)
    requires Inv(n, s, open, round) && Step(n, calls, s, t, s') && s.pcs[t] == CountIn
    ensures Inv(n, s', open, round)
  {
    MovingThread(n, calls, s, t, s', open, round);
    NumberBounds(s.pcs, COUNTED);
    if s'.count == n { assert s'.pcs[t] in {CloseExit, OpenGate}; }
  }

  lemma CountOutKeeps(n: nat, calls: seq<nat>, s: State, t: nat, s': State, open: bool, round: nat)
    requires Inv(n, s, open, round) && Step(n, calls, s, t, s') && s.pcs[t] == CountOut
    ensures Inv(n, s', open, round)
  {
    MovingThread(n, calls, s, t, s', open, round);
    NumberBounds(s.pcs, COUNTED);
    if s'.count == 0 { assert s'.pcs[t] in {CloseGate, OpenExit}; }
  }

  // The last arrival opens the gate: everybody has entered the round.
  lemma OpenGateKeeps(n: nat, calls: seq<nat>, s: State, t: nat, s': State, open: bool, round: nat)
    requires Inv(n, s, open, round) && Step(n, calls, s, t, s') && s.pcs[t] == OpenGate
    ensures !open && Inv(n, s', true, round)
  {
    MovingThread(n, calls, s, t, s', open, round);
    NumberBounds(s.pcs, COUNTED);
  }

  // The last departure opens the exit: everybody has been counted out.
  lemma OpenExitKeeps(n: nat, calls: seq<nat>, s: State, t: nat, s': State, open: bool, round: nat)
    requires Inv(n, s, open, round) && Step(n, calls, s, t, s') && s.pcs[t] == OpenExit
    ensures open && Inv(n, s', false, round + 1)
  {
    MovingThread(n, calls, s, t, s', open, round);
    NumberBounds(s.pcs, COUNTED);
  }

  lemma StepKeeps(n: nat, calls: seq<nat>, s: State, t: nat, s': State, open: bool, round: nat)
    requires Inv(n, s, open, round) && Step(n, calls, s, t, s')
    ensures Inv(n, s', OpenAfter(s, t, open), RoundAfter(s, t, round))
  {
    if s.pcs[t] == CountIn { CountInKeeps(n, calls, s, t, s', open, round); }
    else if s.pcs[t] == CountOut { CountOutKeeps(n, calls, s, t, s', open, round); }
    else if s.pcs[t] == OpenGate { OpenGateKeeps(n, calls, s, t, s', open, round); }
    else if s.pcs[t] == OpenExit { OpenExitKeeps(n, calls, s, t, s', open, round); }
    else if s.pcs[t] in {CloseGate, AtGate, PassGate} { GateStepKeeps(n, calls, s, t, s', open, round); }
    else if s.pcs[t] in {CloseExit, AtExit, PassExit} { ExitStepKeeps(n, calls, s, t, s', open, round); }
    else if s.pcs[t] in {Enter, EnterDone} { MutexInKeeps(n, calls, s, t, s', open, round); }
    else { MutexOutKeeps(n, calls, s, t, s', open, round); }
  }

  // ---------- What the barrier guarantees ----------

  // No thread has returned from a round that some thread has not entered, and no thread laps another.
  lemma Synchronised(n: nat, s: State, open: bool, round: nat, t: nat, u: nat)
    requires Inv(n, s, open, round) && t < n && u < n
    ensures s.left[t] <= s.entered[u]
    ensures s.entered[t] <= s.entered[u] + 1
    ensures s.left[t] <= s.entered[t] <= s.left[t] + 1
    ensures 0 <= s.count <= n
  {
    NumberBounds(s.pcs, COUNTED);
    assert Placed(open, round, s.pcs[t], s.entered[t], s.left[t]);
    assert Placed(open, round, s.pcs[u], s.entered[u], s.left[u]);
  }

  // The waits inside the critical sections never block.
  lemma InnerWaitsPass(n: nat, s: State, open: bool, round: nat, t: nat)
    requires Inv(n, s, open, round) && t < n
    ensures s.pcs[t] == CloseExit ==> s.sem2 == 1
    ensures s.pcs[t] == CloseGate ==> s.sem1 == 1
  {
    assert Placed(open, round, s.pcs[t], s.entered[t], s.left[t]);
    if s.pcs[t] == CloseExit || s.pcs[t] == CloseGate {
      assert Someone(s.pcs, {CloseExit, OpenGate}) || Someone(s.pcs, {CloseGate, OpenExit});
      OnlyOne(s.pcs, HOLDING, t);
      NumberBounds(s.pcs, COUNTED);
      forall u | 0 <= u < n ensures s.pcs[u] !in CARRYING {
        assert Placed(open, round, s.pcs[u], s.entered[u], s.left[u]);
      }
      NumberBounds(s.pcs, CARRYING);
    }
  }

  ghost predicate Enabled(n: nat, calls: seq<nat>, s: State, t: nat) {
    exists s' :: Step(n, calls, s, t, s')
  }

  // The thread has made all its calls.
  ghost predicate Done(n: nat, calls: seq<nat>, s: State, t: nat) {
    t < n == |s.pcs| == |s.left| == |calls| && s.pcs[t] == Enter && s.left[t] >= calls[t]
  }

  // The thread waits for a round that another thread, out of calls, never enters.
  ghost predicate Abandoned(n: nat, calls: seq<nat>, s: State, t: nat) {
    t < n == |s.pcs| == |s.entered| && s.pcs[t] == AtGate
    && exists u: nat :: Done(n, calls, s, u) && u < |s.entered| && s.entered[u] < s.entered[t]
  }

  ghost predicate Settled(n: nat, calls: seq<nat>, s: State) {
    forall t: nat :: t < n ==> Done(n, calls, s, t) || Abandoned(n, calls, s, t)
  }

  // A thread whose next operation is not a wait can always perform it.
  lemma FreeOperation(n: nat, calls: seq<nat>, s: State, t: nat)
    requires t < n == |s.pcs| == |s.entered| == |s.left| == |calls|
    requires s.pcs[t] in {CountIn, OpenGate, EnterDone, PassGate, CountOut, OpenExit, DepartDone, PassExit}
    ensures Enabled(n, calls, s, t)
  {
    var s' := if s.pcs[t] == CountIn then
                At(s, t, if s.count + 1 == n then CloseExit else EnterDone)
                .(count := s.count + 1, entered := s.entered[t := s.entered[t] + 1])
              else if s.pcs[t] == OpenGate then At(s, t, EnterDone).(sem1 := s.sem1 + 1)
              else if s.pcs[t] == EnterDone then At(s, t, AtGate).(mutex := s.mutex + 1)
              else if s.pcs[t] == PassGate then At(s, t, Depart).(sem1 := s.sem1 + 1)
              else if s.pcs[t] == CountOut then
                At(s, t, if s.count - 1 == 0 then CloseGate else DepartDone).(count := s.count - 1)
              else if s.pcs[t] == OpenExit then At(s, t, DepartDone).(sem2 := s.sem2 + 1)
              else if s.pcs[t] == DepartDone then At(s, t, AtExit).(mutex := s.mutex + 1)
              else At(s, t, Enter).(sem2 := s.sem2 + 1, left := s.left[t := s.left[t] + 1]);
    assert Step(n, calls, s, t, s');
  }

  lemma WaitOperation(n: nat, calls: seq<nat>, s: State, t: nat)
    requires t < n == |s.pcs| == |s.entered| == |s.left| == |calls|
    requires || (s.pcs[t] == Enter && s.mutex > 0 && s.left[t] < calls[t])
             || (s.pcs[t] == Depart && s.mutex > 0)
             || (s.pcs[t] in {AtGate, CloseGate} && s.sem1 > 0)
             || (s.pcs[t] in {AtExit, CloseExit} && s.sem2 > 0)
    ensures Enabled(n, calls, s, t)
  {
    var s' := if s.pcs[t] == Enter then At(s, t, CountIn).(mutex := s.mutex - 1)
              else if s.pcs[t] == Depart then At(s, t, CountOut).(mutex := s.mutex - 1)
              else if s.pcs[t] == AtGate then At(s, t, PassGate).(sem1 := s.sem1 - 1)
              else if s.pcs[t] == CloseGate then At(s, t, OpenExit).(sem1 := s.sem1 - 1)
              else if s.pcs[t] == AtExit then At(s, t, PassExit).(sem2 := s.sem2 - 1)
              else At(s, t, OpenGate).(sem2 := s.sem2 - 1);
    assert Step(n, calls, s, t, s');
  }

  // Whoever holds the mutex can go on.
  lemma HolderEnabled(n: nat, calls: seq<nat>, s: State, open: bool, round: nat, t: nat)
    requires Inv(n, s, open, round) && t < n == |calls| && s.pcs[t] in HOLDING
    ensures Enabled(n, calls, s, t)
  {
    InnerWaitsPass(n, s, open, round, t);
    if s.pcs[t] in {CloseExit, CloseGate} {
      WaitOperation(n, calls, s, t);
    } else {
      FreeOperation(n, calls, s, t);
    }
  }

  // With the mutex free and the gate open, the gate lets someone through.
  lemma GateEnabled(n: nat, calls: seq<nat>, s: State, round: nat) returns (t: nat)
    requires Inv(n, s, true, round) && |calls| == n
    requires forall u :: 0 <= u < n ==> s.pcs[u] in {AtGate, AtExit, Enter}
    ensures t < n && Enabled(n, calls, s, t)
  {
    NumberBounds(s.pcs, CARRYING);
    NumberBounds(s.pcs, COUNTED);
    assert s.count != 0;
    t :| 0 <= t < n && s.pcs[t] in COUNTED;
    WaitOperation(n, calls, s, t);
  }

  // With the gate closed, the exit lets everybody out who is there; whoever is left waits at the
  // gate for a thread that has no call to make.
  lemma ExitEnabled(n: nat, calls: seq<nat>, s: State, round: nat)
    requires Inv(n, s, false, round) && |calls| == n
    requires forall u: nat :: u < n ==> s.pcs[u] in {AtGate, AtExit} || Done(n, calls, s, u)
    ensures (exists t: nat :: t < n && Enabled(n, calls, s, t))
         || Settled(n, calls, s)
  {
    NumberBounds(s.pcs, CARRYING);
    NumberBounds(s.pcs, COUNTED);
    if u: nat :| u < n && s.pcs[u] == AtExit {
      WaitOperation(n, calls, s, u);
    } else {
      assert s.count != n;
      var u: nat :| u < n && s.pcs[u] !in COUNTED;
      forall t: nat | t < n ensures Done(n, calls, s, t) || Abandoned(n, calls, s, t) {
        assert Placed(false, round, s.pcs[u], s.entered[u], s.left[u]);
        assert Placed(false, round, s.pcs[t], s.entered[t], s.left[t]);
      }
    }
  }

  // In every reachable state some thread can take a step, or every thread has either made all its
  // calls or waits for a thread that has.
  lemma DeadlockFree(n: nat, calls: seq<nat>, s: State, open: bool, round: nat)
    requires Inv(n, s, open, round) && |calls| == n
    ensures (exists t: nat :: t < n && Enabled(n, calls, s, t))
         || Settled(n, calls, s)
  {
    if t: nat :| t < n && s.pcs[t] in HOLDING {
      HolderEnabled(n, calls, s, open, round, t);
    } else {
      NumberBounds(s.pcs, HOLDING);
      if t: nat :| t < n && s.pcs[t] in {PassGate, PassExit} {
        FreeOperation(n, calls, s, t);
      } else if t: nat :| t < n && (s.pcs[t] == Depart || (s.pcs[t] == Enter && s.left[t] < calls[t])) {
        WaitOperation(n, calls, s, t);
      } else {
        if open { var t := GateEnabled(n, calls, s, round); } else { ExitEnabled(n, calls, s, round); }
      }
    }
  }

  // ---------- Runs ----------

  function Position(pc: Pc): nat {
    match pc
    case Enter => 0 case CountIn => 1 case CloseExit => 2 case OpenGate => 3 case EnterDone => 4
    case AtGate => 5 case PassGate => 6 case Depart => 7 case CountOut => 8 case CloseGate => 9
    case OpenExit => 10 case DepartDone => 11 case AtExit => 12 case PassExit => 13
  }

  // The operations that a thread still has to perform, at most.
  function StepsLeft(calls: nat, pc: Pc, left: nat): nat {
    if left >= calls then 0 else 14 * (calls - left) - Position(pc)
  }

  ghost function Rank(n: nat, calls: seq<nat>, s: State): nat
    requires n == |s.pcs| == |s.left| == |calls|
  {
    Total(seq(n, t requires 0 <= t < n => StepsLeft(calls[t], s.pcs[t], s.left[t])))
  }

  // Threads inside a call have calls left.
  ghost predicate Within(n: nat, calls: seq<nat>, s: State) {
    n == |s.pcs| == |s.left| == |calls|
    && forall t :: 0 <= t < n ==> s.left[t] <= calls[t] && (s.pcs[t] != Enter ==> s.left[t] < calls[t])
  }

  lemma ThreadLowers(n: nat, calls: seq<nat>, s: State, t: nat, s': State)
    requires Step(n, calls, s, t, s') && Within(n, calls, s)
    ensures |s'.pcs| == |s'.left| == n && s'.left[t] <= calls[t] && (s'.pcs[t] != Enter ==> s'.left[t] < calls[t])
    ensures StepsLeft(calls[t], s'.pcs[t], s'.left[t]) < StepsLeft(calls[t], s.pcs[t], s.left[t])
    ensures s'.pcs == s.pcs[t := s'.pcs[t]] && s'.left == s.left[t := s'.left[t]]
  {}

  lemma StepLowers(n: nat, calls: seq<nat>, s: State, t: nat, s': State)
    requires Step(n, calls, s, t, s') && Within(n, calls, s)
    ensures Within(n, calls, s') && Rank(n, calls, s') < Rank(n, calls, s)
  {
    ThreadLowers(n, calls, s, t, s');
    var xs := seq(n, u requires 0 <= u < n => StepsLeft(calls[u], s.pcs[u], s.left[u]));
    var ys := seq(n, u requires 0 <= u < n => StepsLeft(calls[u], s'.pcs[u], s'.left[u]));
    assert ys == xs[t := ys[t]];
    TotalUpdate(xs, t, ys[t]);
  }

  ghost predicate Next(n: nat, calls: seq<nat>, s: State, s': State) {
    exists t :: Step(n, calls, s, t, s')
  }

  ghost predicate IsRun(n: nat, calls: seq<nat>, run: seq<State>) {
    && |calls| == n && run != [] && run[0] == Init(n)
    && forall k :: 0 < k < |run| ==> Next(n, calls, run[k - 1], run[k])
  }

  lemma {:induction false} RunInv(n: nat, calls: seq<nat>, run: seq<State>) returns (open: bool, round: nat)
    requires n > 0 && IsRun(n, calls, run)
    ensures Inv(n, run[|run| - 1], open, round) && Within(n, calls, run[|run| - 1])
    ensures Rank(n, calls, run[|run| - 1]) + |run| - 1 <= Rank(n, calls, Init(n))
  {
    if |run| == 1 {
      open, round := false, 0;
      InitInv(n);
    } else {
      var k := |run| - 1;
      assert IsRun(n, calls, run[..k]) && run[..k][k - 1] == run[k - 1];
      open, round := RunInv(n, calls, run[..k]);
      assert Next(n, calls, run[k - 1], run[k]);
      var t :| Step(n, calls, run[k - 1], t, run[k]);
      StepKeeps(n, calls, run[k - 1], t, run[k], open, round);
      StepLowers(n, calls, run[k - 1], t, run[k]);
      open, round := OpenAfter(run[k - 1], t, open), RoundAfter(run[k - 1], t, round);
    }
  }

  ghost predicate Stuck(n: nat, calls: seq<nat>, s: State) {
    forall s' :: !Next(n, calls, s, s')
  }

  // A run that cannot go on leaves only threads that are done or abandoned.
  lemma StuckThreads(n: nat, calls: seq<nat>, run: seq<State>)
    requires n > 0 && IsRun(n, calls, run) && Stuck(n, calls, run[|run| - 1])
    ensures Settled(n, calls, run[|run| - 1])
  {
    var s := run[|run| - 1];
    var open, round := RunInv(n, calls, run);
    DeadlockFree(n, calls, s, open, round);
    forall t: nat | t < n && Enabled(n, calls, s, t) ensures false {
      var s' :| Step(n, calls, s, t, s');
      assert Next(n, calls, s, s');
    }
  }

  ghost predicate AllReturned(n: nat, rounds: nat, s: State) {
    |s.pcs| == |s.left| == n && forall t :: 0 <= t < n ==> s.pcs[t] == Enter && s.left[t] == rounds
  }

  function Equal(n: nat, rounds: nat): seq<nat> {
    seq(n, _ => rounds)
  }

  lemma NotAbandoned(n: nat, rounds: nat, s: State, open: bool, round: nat, t: nat)
    requires Inv(n, s, open, round) && Within(n, Equal(n, rounds), s) && t < n
    ensures !Abandoned(n, Equal(n, rounds), s, t)
  {
    assert Placed(open, round, s.pcs[t], s.entered[t], s.left[t]);
    forall u: nat | u < n && Done(n, Equal(n, rounds), s, u) ensures s.entered[u] == s.left[u] {
      assert Placed(open, round, s.pcs[u], s.entered[u], s.left[u]);
    }
  }

  // Any number of rounds, any interleaving: when every thread makes the same number of calls, runs
  // are finite and a run that cannot go on has all calls returned.
  lemma AllCallsReturn(n: nat, rounds: nat, run: seq<State>)
    requires n > 0 && IsRun(n, Equal(n, rounds), run)
    ensures |run| - 1 <= n * (14 * rounds)
    ensures Stuck(n, Equal(n, rounds), run[|run| - 1]) ==> AllReturned(n, rounds, run[|run| - 1])
  {
    var calls, s := Equal(n, rounds), run[|run| - 1];
    var open, round := RunInv(n, calls, run);
    TotalBound(seq(n, t requires 0 <= t < n => StepsLeft(calls[t], Init(n).pcs[t], Init(n).left[t])), 14 * rounds);
    if Stuck(n, calls, s) {
      StuckThreads(n, calls, run);
      forall t: nat | t < n ensures s.pcs[t] == Enter && s.left[t] == rounds {
        NotAbandoned(n, rounds, s, open, round, t);
      }
    }
  }

  // What every run guarantees at each of its states.
  lemma InEveryRun(n: nat, calls: seq<nat>, run: seq<State>, t: nat, u: nat)
    requires n > 0 && IsRun(n, calls, run) && t < n && u < n
    ensures var s := run[|run| - 1];
            && |s.pcs| == |s.entered| == |s.left| == n && 0 <= s.count <= n
            && s.left[t] <= s.entered[u] && s.entered[t] <= s.entered[u] + 1
            && (s.pcs[t] == CloseExit ==> s.sem2 == 1) && (s.pcs[t] == CloseGate ==> s.sem1 == 1)
  {
    var open, round := RunInv(n, calls, run);
    Synchronised(n, run[|run| - 1], open, round, t, u);
    InnerWaitsPass(n, run[|run| - 1], open, round, t);
  }

  // ---------- The barrier as its clients see it ----------

  // A call begins, and ends after all threads have begun theirs.
  datatype Spec = Spec(entered: seq<nat>, left: seq<nat>)

  ghost predicate Enters(s: Spec, t: nat, s': Spec) {
    t < |s.entered| == |s.left| && s.entered[t] == s.left[t]
    && s' == s.(entered := s.entered[t := s.entered[t] + 1])
  }

  ghost predicate Leaves(s: Spec, t: nat, s': Spec) {
    t < |s.entered| == |s.left| && s.entered[t] == s.left[t] + 1
    && (forall u :: 0 <= u < |s.entered| ==> s.entered[u] >= s.entered[t])
    && s' == s.(left := s.left[t := s.left[t] + 1])
  }

  function Abstract(s: State): Spec {
    Spec(s.entered, s.left)
  }

  // Every step of the implementation begins a call, ends one as the specification allows, or
  // changes nothing that a client sees.
  lemma Refines(n: nat, calls: seq<nat>, s: State, t: nat, s': State, open: bool, round: nat)
    requires Inv(n, s, open, round) && Step(n, calls, s, t, s')
    ensures || Abstract(s') == Abstract(s)
            || Enters(Abstract(s), t, Abstract(s'))
            || Leaves(Abstract(s), t, Abstract(s'))
  {
    assert Placed(open, round, s.pcs[t], s.entered[t], s.left[t]);
    forall u | 0 <= u < n && s.pcs[t] == PassExit ensures s.entered[u] >= s.entered[t] {
      Synchronised(n, s, open, round, t, u);
    }
  }

  // Whenever the specification lets a call end, some thread inside a call can go on with it: the
  // implementation ends every call that may end, without waiting for anybody to begin another.
  lemma ReturnProgresses(n: nat, calls: seq<nat>, s: State, open: bool, round: nat, t: nat) returns (u: nat)
    requires Inv(n, s, open, round) && |calls| == n && t < n
    requires s.entered[t] == s.left[t] + 1 && forall v :: 0 <= v < n ==> s.entered[v] >= s.entered[t]
    ensures u < n && s.pcs[u] != Enter && Enabled(n, calls, s, u)
  {
    if v: nat :| v < n && s.pcs[v] in HOLDING {
      u := v;
      HolderEnabled(n, calls, s, open, round, u);
    } else {
      NumberBounds(s.pcs, HOLDING);
      if v: nat :| v < n && s.pcs[v] in {PassGate, PassExit} {
        u := v;
        FreeOperation(n, calls, s, u);
      } else if v: nat :| v < n && s.pcs[v] == Depart {
        u := v;
        WaitOperation(n, calls, s, u);
      } else {
        u := TurnstileEnabled(n, calls, s, open, round, t);
      }
    }
  }

  lemma TurnstileEnabled(n: nat, calls: seq<nat>, s: State, open: bool, round: nat, t: nat) returns (u: nat)
    requires Inv(n, s, open, round) && |calls| == n && t < n
    requires s.entered[t] == s.left[t] + 1 && forall v :: 0 <= v < n ==> s.entered[v] >= s.entered[t]
    requires forall v :: 0 <= v < n ==> s.pcs[v] in {Enter, AtGate, AtExit}
    ensures u < n && s.pcs[u] != Enter && Enabled(n, calls, s, u)
  {
    NumberBounds(s.pcs, CARRYING);
    NumberBounds(s.pcs, COUNTED);
    if open {
      u := GateEnabled(n, calls, s, round);
      assert Placed(open, round, s.pcs[u], s.entered[u], s.left[u]);
    } else {
      u := t;
      assert !Someone(s.pcs, {CloseExit, OpenGate});
      var v: nat :| v < n && s.pcs[v] !in COUNTED;
      assert Placed(open, round, s.pcs[v], s.entered[v], s.left[v]);
      assert Placed(open, round, s.pcs[t], s.entered[t], s.left[t]);
      assert s.pcs[t] == AtExit;
      WaitOperation(n, calls, s, u);
    }
  }

  // A thread that may begin a call can go on with it, or the thread that holds the mutex can.
  lemma EntryProgresses(n: nat, calls: seq<nat>, s: State, open: bool, round: nat, t: nat) returns (u: nat)
    requires Inv(n, s, open, round) && |calls| == n && t < n
    requires s.entered[t] == s.left[t] < calls[t]
    ensures u < n && (u == t || s.pcs[u] != Enter) && Enabled(n, calls, s, u)
  {
    u := t;
    assert Placed(open, round, s.pcs[t], s.entered[t], s.left[t]);
    if s.pcs[t] == CountIn {
      FreeOperation(n, calls, s, t);
    } else if s.mutex > 0 {
      WaitOperation(n, calls, s, t);
    } else {
      NumberBounds(s.pcs, HOLDING);
      u :| u < n && s.pcs[u] in HOLDING;
      HolderEnabled(n, calls, s, open, round, u);
    }
  }
}
