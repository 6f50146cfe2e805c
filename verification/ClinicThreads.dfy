// The threads of the clinic as a step machine: the main thread carries out a plan, the doctor waits
// on doc_cond and each visitor on the condition of its class. Each lock, each unlock and each wait is
// one step; what a thread does while it holds a mutex is part of the step that releases it.
module ClinicThreads {

  // What the event loop decides: to look at an event, to admit a visitor, to let a visitor see the
  // doctor, to end the session. Visitors are numbered in the order in which they are admitted.
  datatype Command = Tick | Admit(v: nat) | See(v: nat) | Leave

  // The class of each visitor, and its number in the class, from one.
  datatype Plan = Plan(commands: seq<Command>, kind: seq<nat>, id: seq<nat>)

  function Admits(p: Plan, pos: nat): nat
    requires pos <= |p.commands|
  {
    if pos == 0 then 0 else Admits(p, pos - 1) + if p.commands[pos - 1].Admit? then 1 else 0
  }

  // The visitors of class k who see the doctor before position pos.
  function Sees(p: Plan, k: nat, pos: nat): nat
    requires pos <= |p.commands|
  {
    if pos == 0 then 0
    else var c := p.commands[pos - 1];
         Sees(p, k, pos - 1) + if c.See? && c.v < |p.kind| && p.kind[c.v] == k then 1 else 0
  }

  // Visitors are admitted in the order of their indices; those of a class see the doctor in the order
  // of their numbers, after they have been admitted.
  ghost predicate CommandOk(p: Plan, i: nat) {
    && i < |p.commands| && |p.kind| == |p.id|
    && (p.commands[i].Admit? ==> p.commands[i].v == Admits(p, i) < |p.kind|)
    && (p.commands[i].See? ==>
          var v := p.commands[i].v; v < Admits(p, i) && v < |p.kind| && p.id[v] == Sees(p, p.kind[v], i) + 1)
  }

  ghost predicate NumbersOk(p: Plan) {
    && |p.kind| == |p.id|
    && (forall v :: 0 <= v < |p.kind| ==> p.kind[v] < 3 && p.id[v] >= 1)
    && (forall v, w :: 0 <= v < w < |p.kind| && p.kind[v] == p.kind[w] ==> p.id[v] != p.id[w])
  }

  // After the end of the session nothing happens but that events are looked at.
  ghost predicate EndsOnce(p: Plan) {
    forall i, j :: 0 <= i < j < |p.commands| && p.commands[i].Leave? ==> p.commands[j].Tick?
  }

  ghost predicate Valid(p: Plan) {
    NumbersOk(p) && EndsOnce(p) && forall i: nat :: i < |p.commands| ==> CommandOk(p, i)
  }

  // The next operation of the main thread, of the doctor and of a visitor.
  datatype MainPc =
    | Idle | Locked
    | Create | InitLock | InitCheck | InitAsleep
    | SeeLockDoc | SeeSet | SeeLockDone | SeeCheck | SeeAsleep | SeeLock | SeeCall | SeeJoin
    | LeaveLockDoc | LeaveSet | LeaveUnlock | LeaveJoin

  datatype DoctorPc = Lock | Check | Asleep | LockMutex | Look | Reset | Unlock | Going | Gone

  datatype VisitorPc = Copying | DoneLock | DoneSignal | TurnLock | TurnCheck | TurnAsleep | Ended

  datatype Holder = Nobody | Main | Doctor | Visitor(v: nat)

  datatype Option<T> = None | Some(value: T)

  datatype VisitorThread = VisitorThread(pc: VisitorPc, copy: Option<nat>)

  // The lines that the threads print.
  datatype Line = DoctorHasVisitor | Enters(v: nat) | DoctorLeaves

  datatype State = State(pos: nat, main: MainPc, doctor: DoctorPc, visitors: seq<VisitorThread>,
                         mutex: Holder, docMutex: Holder, docState: int,
                         param: nat, done: bool, curr: seq<nat>, log: seq<Line>)

  function Init(): State {
    State(0, Idle, Lock, [], Nobody, Nobody, 0, 0, false, [0, 0, 0], [])
  }

  ghost predicate Shaped(p: Plan, s: State) {
    s.pos <= |p.commands| && |s.curr| == 3 && |s.visitors| <= |p.kind|
  }

  // The commands that the main thread can be carrying out at its pc.
  ghost predicate Phase(p: Plan, pos: nat, main: MainPc) {
    if main == Idle then pos <= |p.commands|
    else
      pos < |p.commands|
      && (main in {Create, InitLock, InitCheck, InitAsleep} ==> p.commands[pos].Admit?)
      && (main in {SeeLockDoc, SeeSet, SeeLockDone, SeeCheck, SeeAsleep, SeeLock, SeeCall, SeeJoin} ==>
          p.commands[pos].See?)
      && (main in {LeaveLockDoc, LeaveSet, LeaveUnlock, LeaveJoin} ==> p.commands[pos].Leave?)
  }

  // A signal on doc_cond.
  function WakeDoctor(pc: DoctorPc): DoctorPc {
    if pc == Asleep then Lock else pc
  }

  // A broadcast on the condition of class k.
  function WakeVisitors(p: Plan, visitors: seq<VisitorThread>, k: nat): (r: seq<VisitorThread>)
    requires |visitors| <= |p.kind|
    ensures |r| == |visitors|
  {
    seq(|visitors|, v requires 0 <= v < |visitors| =>
      if p.kind[v] == k && visitors[v].pc == TurnAsleep then visitors[v].(pc := TurnLock) else visitors[v])
  }

  ghost predicate MainStep(p: Plan, s: State, s': State)
    requires NumbersOk(p) && Shaped(p, s) && Phase(p, s.pos, s.main)
    requires s.main == SeeCall ==> CommandOk(p, s.pos)
  {
    match s.main
    case Idle => s.pos < |p.commands| && s.mutex == Nobody && s' == s.(main := Locked, mutex := Main)
    case Locked =>
      (match p.commands[s.pos]
       case Tick => s' == s.(main := Idle, pos := s.pos + 1, mutex := Nobody)
       case Admit(v) => s' == s.(main := Create, done := false, mutex := Nobody)
       case See(v) => s' == s.(main := SeeLockDoc, mutex := Nobody)
       case Leave => s' == s.(main := LeaveLockDoc))
    case Create => s' == s.(main := InitLock, param := p.commands[s.pos].v,
                            visitors := s.visitors + [VisitorThread(Copying, None)])
    case InitLock => s.mutex == Nobody && s' == s.(main := InitCheck, mutex := Main)
    case InitCheck => s' == if s.done then s.(main := Idle, pos := s.pos + 1, done := false, mutex := Nobody)
                            else s.(main := InitAsleep, mutex := Nobody)
    case InitAsleep => false
    case SeeLockDoc => s.docMutex == Nobody && s' == s.(main := SeeSet, docMutex := Main)
    case SeeSet => s' == s.(main := SeeLockDone, docState := 1, doctor := WakeDoctor(s.doctor), docMutex := Nobody)
    case SeeLockDone => s.docMutex == Nobody && s' == s.(main := SeeCheck, docMutex := Main)
    case SeeCheck => s' == s.(main := if s.docState == 1 then SeeAsleep else SeeLock, docMutex := Nobody)
    case SeeAsleep => false
    case SeeLock => s.mutex == Nobody && s' == s.(main := SeeCall, mutex := Main)
    case SeeCall =>
      var k := p.kind[p.commands[s.pos].v];
      s' == s.(main := SeeJoin, curr := s.curr[k := s.curr[k] + 1],
               visitors := WakeVisitors(p, s.visitors, k), mutex := Nobody)
    case SeeJoin => p.commands[s.pos].v < |s.visitors| && s.visitors[p.commands[s.pos].v].pc == Ended
                    && s' == s.(main := Idle, pos := s.pos + 1)
    case LeaveLockDoc => s.docMutex == Nobody && s' == s.(main := LeaveSet, docMutex := Main)
    case LeaveSet => s' == s.(main := LeaveUnlock, docState := -1, doctor := WakeDoctor(s.doctor), docMutex := Nobody)
    case LeaveUnlock => s' == s.(main := LeaveJoin, mutex := Nobody)
    case LeaveJoin => s.doctor == Gone && s' == s.(main := Idle, pos := s.pos + 1)
  }

  ghost predicate DoctorStep(s: State, s': State) {
    match s.doctor
    case Lock => s.docMutex == Nobody && s' == s.(doctor := Check, docMutex := Doctor)
    case Check => s' == if s.docState == 0 then s.(doctor := Asleep, docMutex := Nobody) else s.(doctor := LockMutex)
    case Asleep => false
    case LockMutex => s.mutex == Nobody && s' == s.(doctor := Look, mutex := Doctor)
    case Look => s' == if s.docState == -1 then s.(doctor := Going, mutex := Nobody, log := s.log + [DoctorLeaves])
                       else s.(doctor := Reset, mutex := Nobody, log := s.log + [DoctorHasVisitor])
    case Reset => s' == s.(doctor := Unlock, docState := 0,
                           main := if s.main == SeeAsleep then SeeLockDone else s.main)
    case Unlock => s' == s.(doctor := Lock, docMutex := Nobody)
    case Going => s' == s.(doctor := Gone, docMutex := Nobody)
    case Gone => false
  }

  function Put(s: State, v: nat, pc: VisitorPc): State
    requires v < |s.visitors|
  {
    s.(visitors := s.visitors[v := s.visitors[v].(pc := pc)])
  }

  ghost predicate VisitorStep(p: Plan, s: State, v: nat, s': State)
    requires NumbersOk(p) && Shaped(p, s) && v < |s.visitors|
  {
    match s.visitors[v].pc
    case Copying => s' == s.(visitors := s.visitors[v := VisitorThread(DoneLock, Some(s.param))])
    case DoneLock => s.mutex == Nobody && s' == Put(s, v, DoneSignal).(mutex := Visitor(v))
    case DoneSignal => s' == Put(s, v, TurnLock).(done := true, mutex := Nobody,
                                                  main := if s.main == InitAsleep then InitLock else s.main)
    case TurnLock => s.mutex == Nobody && s' == Put(s, v, TurnCheck).(mutex := Visitor(v))
    case TurnCheck =>
      var me := s.visitors[v].copy;
      me.Some? && me.value < |p.id|
      && s' == if s.curr[p.kind[me.value]] == p.id[me.value]
               then Put(s, v, Ended).(mutex := Nobody, log := s.log + [Enters(me.value)])
               else Put(s, v, TurnAsleep).(mutex := Nobody)
    case TurnAsleep => false
    case Ended => false
  }

  // A wait may also end without a signal.
  ghost predicate SpuriousStep(s: State, s': State) {
    || (s.main == InitAsleep && s' == s.(main := InitLock))
    || (s.main == SeeAsleep && s' == s.(main := SeeLockDone))
    || (s.doctor == Asleep && s' == s.(doctor := Lock))
    || (exists v: nat :: v < |s.visitors| && s.visitors[v].pc == TurnAsleep && s' == Put(s, v, TurnLock))
  }

  // ---------- The invariant ----------

  const INIT := {InitLock, InitCheck, InitAsleep}
  const NEW := {Copying, DoneLock, DoneSignal}

  ghost predicate MutexOk(main: MainPc, doctor: DoctorPc, visitors: seq<VisitorThread>, mutex: Holder) {
    && (mutex == Main <==> main in {Locked, InitCheck, SeeCall, LeaveLockDoc, LeaveSet, LeaveUnlock})
    && (mutex == Doctor <==> doctor == Look)
    && (forall v :: 0 <= v < |visitors| ==> (mutex == Visitor(v) <==> visitors[v].pc in {DoneSignal, TurnCheck}))
    && (mutex.Visitor? ==> mutex.v < |visitors|)
  }

  ghost predicate DocMutexOk(main: MainPc, doctor: DoctorPc, docMutex: Holder) {
    && (docMutex == Main <==> main in {SeeSet, SeeCheck, LeaveSet})
    && (docMutex == Doctor <==> doctor in {Check, LockMutex, Look, Reset, Unlock, Going})
    && !docMutex.Visitor?
  }

  // The session has ended before position pos.
  predicate Over(p: Plan, pos: nat)
    requires pos <= |p.commands|
  {
    pos > 0 && (p.commands[pos - 1].Leave? || Over(p, pos - 1))
  }

  // doc_state is 1 only while the main thread waits for the doctor and the doctor has work, and -1 from the
  // end of the session on; the doctor sleeps, looks and leaves accordingly.
  ghost predicate DoctorOk(p: Plan, pos: nat, main: MainPc, doctor: DoctorPc, docState: int)
    requires pos <= |p.commands|
  {
    && docState in {-1, 0, 1}
    && (docState == -1 <==> Over(p, pos) || main in {LeaveUnlock, LeaveJoin})
    && (docState == 1 ==> main in {SeeLockDone, SeeCheck, SeeAsleep})
    && (main == SeeAsleep ==> docState == 1)
    && (doctor in {LockMutex, Look} ==> docState != 0)
    && (doctor == Reset ==> docState == 1)
    && (doctor in {Going, Gone} ==> docState == -1)
    && (doctor == Asleep ==> docState == 0)
    && (Over(p, pos) ==> doctor == Gone)
  }

  // Every visitor but the one being admitted has copied its own parameter and said so.
  ghost predicate VisitorsOk(p: Plan, pos: nat, main: MainPc, visitors: seq<VisitorThread>, param: nat, done: bool)
    requires pos <= |p.commands|
  {
    && |visitors| == Admits(p, pos) + (if main in INIT then 1 else 0)
    && (main in INIT ==> param == |visitors| - 1)
    && (main in {Create, InitAsleep} ==> !done)
    && (forall v :: 0 <= v < |visitors| ==> visitors[v].copy == if visitors[v].pc == Copying then None else Some(v))
    && (forall v :: 0 <= v < |visitors| ==>
          (visitors[v].pc in NEW <==> main in INIT && v == |visitors| - 1 && !done))
  }

  // The main thread has called visitor v and waits for the thread to end.
  predicate InTurn(p: Plan, pos: nat, main: MainPc, v: nat) {
    main == SeeJoin && pos < |p.commands| && p.commands[pos] == See(v)
  }

  predicate Calls(p: Plan, pos: nat, main: MainPc, k: nat) {
    main == SeeJoin && pos < |p.commands| && p.commands[pos].See?
    && p.commands[pos].v < |p.kind| && p.kind[p.commands[pos].v] == k
  }

  ghost predicate CurrOk(p: Plan, pos: nat, main: MainPc, curr: seq<nat>)
    requires pos <= |p.commands| && |curr| == 3
  {
    forall k: nat :: k < 3 ==> curr[k] == Sees(p, k, pos) + if Calls(p, pos, main, k) then 1 else 0
  }

  // The visitors called so far have been in; whoever sleeps has not been called.
  predicate TurnOk(called: bool, pc: VisitorPc, id: nat, curr: nat) {
    && (pc == Ended ==> id <= curr)
    && (id <= curr ==> pc == Ended || called)
    && (pc == TurnAsleep ==> id > curr)
    && (called ==> id == curr)
  }

  ghost predicate TurnsOk(p: Plan, pos: nat, main: MainPc, visitors: seq<VisitorThread>, curr: seq<nat>)
    requires |curr| == 3 && |visitors| <= |p.kind| && NumbersOk(p)
  {
    forall v: nat :: v < |visitors| ==> TurnOk(InTurn(p, pos, main, v), visitors[v].pc, p.id[v], curr[p.kind[v]])
  }

  // What is printed for the commands before pos.
  function Expected(p: Plan, pos: nat): seq<Line>
    requires pos <= |p.commands|
  {
    if pos == 0 then []
    else Expected(p, pos - 1) + match p.commands[pos - 1]
                                case Tick => []
                                case Admit(_) => []
                                case See(v) => [DoctorHasVisitor, Enters(v)]
                                case Leave => [DoctorLeaves]
  }

  // What has been printed for a command under way.
  function Partial(c: Command, main: MainPc, doctor: DoctorPc, docState: int, visitors: seq<VisitorThread>): seq<Line> {
    match c
    case Tick => []
    case Admit(_) => []
    case See(v) =>
      (if docState == 1 then (if doctor == Reset then [DoctorHasVisitor] else [])
       else if main in {SeeLockDone, SeeCheck, SeeAsleep, SeeLock, SeeCall, SeeJoin} then [DoctorHasVisitor] else [])
      + (if main == SeeJoin && v < |visitors| && visitors[v].pc == Ended then [Enters(v)] else [])
    case Leave => if main in {LeaveUnlock, LeaveJoin} && doctor in {Going, Gone} then [DoctorLeaves] else []
  }

  ghost predicate LogOk(p: Plan, pos: nat, main: MainPc, doctor: DoctorPc, docState: int, visitors: seq<VisitorThread>,
                        log: seq<Line>)
    requires pos <= |p.commands|
  {
    log == Expected(p, pos) + if main in {Idle, Locked} || pos == |p.commands| then []
                              else Partial(p.commands[pos], main, doctor, docState, visitors)
  }

  ghost predicate Inv(p: Plan, s: State) {
    && Valid(p) && Shaped(p, s) && Phase(p, s.pos, s.main)
    && MutexOk(s.main, s.doctor, s.visitors, s.mutex)
    && DocMutexOk(s.main, s.doctor, s.docMutex)
    && DoctorOk(p, s.pos, s.main, s.doctor, s.docState)
    && VisitorsOk(p, s.pos, s.main, s.visitors, s.param, s.done)
    && CurrOk(p, s.pos, s.main, s.curr) && TurnsOk(p, s.pos, s.main, s.visitors, s.curr)
    && LogOk(p, s.pos, s.main, s.doctor, s.docState, s.visitors, s.log)
  }

  // ---------- Facts about plans ----------

  lemma {:induction false} OverMeansTick(p: Plan, i: nat, pos: nat)
    requires EndsOnce(p) && i <= pos < |p.commands| && Over(p, i)
    ensures p.commands[pos].Tick?
  {
    if !p.commands[i - 1].Leave? { OverMeansTick(p, i - 1, pos); }
  }

  lemma {:induction false} AdmitsGrow(p: Plan, i: nat, j: nat)
    requires i <= j <= |p.commands|
    ensures Admits(p, i) <= Admits(p, j)
  {
    if i < j { AdmitsGrow(p, i, j - 1); }
  }

  // A visitor who is not admitted yet has a number beyond those who have been called.
  lemma {:induction false} NewcomersWait(p: Plan, pos: nat, v: nat)
    requires Valid(p) && pos <= |p.commands| && Admits(p, pos) <= v < |p.kind|
    ensures p.id[v] > Sees(p, p.kind[v], pos)
  {
    if pos > 0 {
      NewcomersWait(p, pos - 1, v);
      assert CommandOk(p, pos - 1);
    }
  }

  // ---------- The steps of the visitors ----------

  lemma VisitorKeepsMutex(p: Plan, s: State, v: nat, s': State)
    requires NumbersOk(p) && Shaped(p, s) && v < |s.visitors| && VisitorStep(p, s, v, s')
    requires MutexOk(s.main, s.doctor, s.visitors, s.mutex) && DocMutexOk(s.main, s.doctor, s.docMutex)
    ensures MutexOk(s'.main, s'.doctor, s'.visitors, s'.mutex) && DocMutexOk(s'.main, s'.doctor, s'.docMutex)
  {}

  lemma VisitorKeepsDoctor(p: Plan, s: State, v: nat, s': State)
    requires NumbersOk(p) && Shaped(p, s) && v < |s.visitors| && VisitorStep(p, s, v, s')
    requires Phase(p, s.pos, s.main) && DoctorOk(p, s.pos, s.main, s.doctor, s.docState)
    ensures Shaped(p, s') && Phase(p, s'.pos, s'.main)
    ensures DoctorOk(p, s'.pos, s'.main, s'.doctor, s'.docState)
  {}

  lemma VisitorKeepsVisitors(p: Plan, s: State, v: nat, s': State)
    requires NumbersOk(p) && Shaped(p, s) && v < |s.visitors| && VisitorStep(p, s, v, s')
    requires VisitorsOk(p, s.pos, s.main, s.visitors, s.param, s.done)
    ensures Shaped(p, s') && VisitorsOk(p, s'.pos, s'.main, s'.visitors, s'.param, s'.done)
  {}

  lemma VisitorKeepsTurns(p: Plan, s: State, v: nat, s': State)
    requires NumbersOk(p) && Shaped(p, s) && v < |s.visitors| && VisitorStep(p, s, v, s')
    requires s.visitors[v].pc != Copying ==> s.visitors[v].copy == Some(v)
    requires CurrOk(p, s.pos, s.main, s.curr) && TurnsOk(p, s.pos, s.main, s.visitors, s.curr)
    ensures Shaped(p, s') && CurrOk(p, s'.pos, s'.main, s'.curr) && TurnsOk(p, s'.pos, s'.main, s'.visitors, s'.curr)
  {
    forall u: nat | u < |s.visitors|
      ensures TurnOk(InTurn(p, s'.pos, s'.main, u), s'.visitors[u].pc, p.id[u], s'.curr[p.kind[u]])
    {
      assert TurnOk(InTurn(p, s.pos, s.main, u), s.visitors[u].pc, p.id[u], s.curr[p.kind[u]]);
      assert InTurn(p, s'.pos, s'.main, u) == InTurn(p, s.pos, s.main, u);
    }
    assert forall k: nat :: k < 3 ==> Calls(p, s'.pos, s'.main, k) == Calls(p, s.pos, s.main, k);
  }

  // A visitor prints when it is in turn, and only then shows in the log.
  lemma EntryIsLogged(p: Plan, pos: nat, doctor: DoctorPc, docState: int, visitors: seq<VisitorThread>, log: seq<Line>,
                      v: nat)
    requires v < |visitors| && InTurn(p, pos, SeeJoin, v) && visitors[v].pc != Ended
    requires LogOk(p, pos, SeeJoin, doctor, docState, visitors, log)
    ensures LogOk(p, pos, SeeJoin, doctor, docState, visitors[v := visitors[v].(pc := Ended)], log + [Enters(v)])
  {}

  lemma OthersAreNotLogged(p: Plan, pos: nat, main: MainPc, main': MainPc, doctor: DoctorPc, docState: int,
                           visitors: seq<VisitorThread>, v: nat, thread: VisitorThread, log: seq<Line>)
    requires v < |visitors| && (visitors[v].pc == Ended <==> thread.pc == Ended)
    requires Phase(p, pos, main) && (main' == main || (main == InitAsleep && main' == InitLock))
    requires LogOk(p, pos, main, doctor, docState, visitors, log)
    ensures LogOk(p, pos, main', doctor, docState, visitors[v := thread], log)
  {}

  lemma VisitorKeepsLog(p: Plan, s: State, v: nat, s': State)
    requires NumbersOk(p) && Shaped(p, s) && v < |s.visitors| && VisitorStep(p, s, v, s') && Phase(p, s.pos, s.main)
    requires s.visitors[v].pc != Copying ==> s.visitors[v].copy == Some(v)
    requires TurnsOk(p, s.pos, s.main, s.visitors, s.curr)
    requires LogOk(p, s.pos, s.main, s.doctor, s.docState, s.visitors, s.log)
    ensures Shaped(p, s') && LogOk(p, s'.pos, s'.main, s'.doctor, s'.docState, s'.visitors, s'.log)
  {
    if s.visitors[v].pc == TurnCheck && s'.visitors[v].pc == Ended {
      assert TurnOk(InTurn(p, s.pos, s.main, v), s.visitors[v].pc, p.id[v], s.curr[p.kind[v]]);
      EntryIsLogged(p, s.pos, s.doctor, s.docState, s.visitors, s.log, v);
    } else {
      OthersAreNotLogged(p, s.pos, s.main, s'.main, s.doctor, s.docState, s.visitors, v, s'.visitors[v], s.log);
    }
  }

  // A wait that ends changes nothing but the pc of the thread that waited.
  lemma WakingKeeps(p: Plan, pos: nat, main: MainPc, main': MainPc, visitors: seq<VisitorThread>, param: nat,
                    done: bool,
                    curr: seq<nat>)
    requires NumbersOk(p) && pos <= |p.commands| && |curr| == 3 && |visitors| <= |p.kind|
    requires main' == main || (main == SeeAsleep && main' == SeeLockDone) || (main == InitAsleep && main' == InitLock)
    requires VisitorsOk(p, pos, main, visitors, param, done)
    requires CurrOk(p, pos, main, curr) && TurnsOk(p, pos, main, visitors, curr)
    ensures VisitorsOk(p, pos, main', visitors, param, done)
    ensures CurrOk(p, pos, main', curr) && TurnsOk(p, pos, main', visitors, curr)
  {
    assert forall k: nat :: k < 3 ==> Calls(p, pos, main', k) == Calls(p, pos, main, k);
    forall u: nat | u < |visitors| ensures TurnOk(InTurn(p, pos, main', u), visitors[u].pc, p.id[u], curr[p.kind[u]]) {
      assert TurnOk(InTurn(p, pos, main, u), visitors[u].pc, p.id[u], curr[p.kind[u]]);
    }
  }

  // ---------- The steps of the doctor ----------

  lemma DoctorKeepsLocks(p: Plan, s: State, s': State)
    requires Shaped(p, s) && Phase(p, s.pos, s.main) && DoctorStep(s, s')
    requires MutexOk(s.main, s.doctor, s.visitors, s.mutex) && DocMutexOk(s.main, s.doctor, s.docMutex)
    requires DoctorOk(p, s.pos, s.main, s.doctor, s.docState)
    ensures Shaped(p, s') && Phase(p, s'.pos, s'.main)
    ensures MutexOk(s'.main, s'.doctor, s'.visitors, s'.mutex) && DocMutexOk(s'.main, s'.doctor, s'.docMutex)
    ensures DoctorOk(p, s'.pos, s'.main, s'.doctor, s'.docState)
  {}

  lemma DoctorKeepsLog(p: Plan, s: State, s': State)
    requires EndsOnce(p) && Shaped(p, s) && Phase(p, s.pos, s.main) && DoctorStep(s, s')
    requires DocMutexOk(s.main, s.doctor, s.docMutex) && DoctorOk(p, s.pos, s.main, s.doctor, s.docState)
    requires LogOk(p, s.pos, s.main, s.doctor, s.docState, s.visitors, s.log)
    ensures LogOk(p, s'.pos, s'.main, s'.doctor, s'.docState, s'.visitors, s'.log)
  {}

  lemma DoctorKeeps(p: Plan, s: State, s': State)
    requires Inv(p, s) && DoctorStep(s, s')
    ensures Inv(p, s')
  {
    DoctorKeepsLocks(p, s, s');
    DoctorKeepsLog(p, s, s');
    WakingKeeps(p, s.pos, s.main, s'.main, s.visitors, s.param, s.done, s.curr);
  }

  lemma VisitorKeeps(p: Plan, s: State, v: nat, s': State)
    requires Inv(p, s) && v < |s.visitors| && VisitorStep(p, s, v, s')
    ensures Inv(p, s')
  {
    VisitorKeepsMutex(p, s, v, s');
    VisitorKeepsDoctor(p, s, v, s');
    VisitorKeepsVisitors(p, s, v, s');
    VisitorKeepsTurns(p, s, v, s');
    VisitorKeepsLog(p, s, v, s');
  }

  // ---------- The steps of the main thread ----------

  lemma MainKeepsLocks(p: Plan, s: State, s': State)
    requires Valid(p) && Shaped(p, s) && Phase(p, s.pos, s.main) && MainStep(p, s, s')
    requires MutexOk(s.main, s.doctor, s.visitors, s.mutex) && DocMutexOk(s.main, s.doctor, s.docMutex)
    requires s.main == Create ==> |s.visitors| < |p.kind|
    ensures Shaped(p, s') && Phase(p, s'.pos, s'.main)
    ensures MutexOk(s'.main, s'.doctor, s'.visitors, s'.mutex) && DocMutexOk(s'.main, s'.doctor, s'.docMutex)
  {
    if s.main == SeeCall { assert CommandOk(p, s.pos); }
  }

  lemma MainKeepsDoctor(p: Plan, s: State, s': State)
    requires Valid(p) && Shaped(p, s) && Phase(p, s.pos, s.main) && MainStep(p, s, s')
    requires DocMutexOk(s.main, s.doctor, s.docMutex) && DoctorOk(p, s.pos, s.main, s.doctor, s.docState)
    ensures s'.pos <= |p.commands| && DoctorOk(p, s'.pos, s'.main, s'.doctor, s'.docState)
  {
    if s.main != Idle && Over(p, s.pos) { OverMeansTick(p, s.pos, s.pos); }
  }

  lemma AdmissionKeepsVisitors(p: Plan, s: State, s': State)
    requires Valid(p) && Shaped(p, s) && Phase(p, s.pos, s.main) && s.main in {Create, InitLock, InitCheck}
    requires MainStep(p, s, s')
    requires VisitorsOk(p, s.pos, s.main, s.visitors, s.param, s.done)
    ensures s'.pos <= |p.commands| && VisitorsOk(p, s'.pos, s'.main, s'.visitors, s'.param, s'.done)
  {
    assert CommandOk(p, s.pos);
  }

  lemma MainKeepsVisitors(p: Plan, s: State, s': State)
    requires Valid(p) && Shaped(p, s) && Phase(p, s.pos, s.main) && MainStep(p, s, s')
    requires VisitorsOk(p, s.pos, s.main, s.visitors, s.param, s.done)
    ensures s'.pos <= |p.commands| && VisitorsOk(p, s'.pos, s'.main, s'.visitors, s'.param, s'.done)
  {
    if s.main in {Create, InitLock, InitCheck} {
      AdmissionKeepsVisitors(p, s, s');
    } else if s.pos < |p.commands| {
      assert CommandOk(p, s.pos);
    }
  }

  // Calling a visitor: it is the next of its class, and everybody asleep in the class looks again.
  lemma CallKeepsTurns(p: Plan, s: State, s': State)
    requires Valid(p) && Shaped(p, s) && Phase(p, s.pos, s.main) && s.main == SeeCall && MainStep(p, s, s')
    requires CurrOk(p, s.pos, s.main, s.curr) && TurnsOk(p, s.pos, s.main, s.visitors, s.curr)
    ensures Shaped(p, s') && CurrOk(p, s'.pos, s'.main, s'.curr) && TurnsOk(p, s'.pos, s'.main, s'.visitors, s'.curr)
  {
    assert CommandOk(p, s.pos);
    var v := p.commands[s.pos].v;
    forall u: nat | u < |s.visitors|
      ensures TurnOk(InTurn(p, s'.pos, s'.main, u), s'.visitors[u].pc, p.id[u], s'.curr[p.kind[u]])
    {
      assert TurnOk(InTurn(p, s.pos, s.main, u), s.visitors[u].pc, p.id[u], s.curr[p.kind[u]]);
      assert u != v && p.kind[u] == p.kind[v] ==> p.id[u] != p.id[v];
    }
  }

  // The visitor called has ended: the class has seen one more.
  lemma JoinKeepsTurns(p: Plan, s: State, s': State)
    requires Valid(p) && Shaped(p, s) && Phase(p, s.pos, s.main) && s.main == SeeJoin && MainStep(p, s, s')
    requires CurrOk(p, s.pos, s.main, s.curr) && TurnsOk(p, s.pos, s.main, s.visitors, s.curr)
    ensures Shaped(p, s') && CurrOk(p, s'.pos, s'.main, s'.curr) && TurnsOk(p, s'.pos, s'.main, s'.visitors, s'.curr)
  {
    assert CommandOk(p, s.pos);
    forall u: nat | u < |s.visitors|
      ensures TurnOk(InTurn(p, s'.pos, s'.main, u), s'.visitors[u].pc, p.id[u], s'.curr[p.kind[u]])
    {
      assert TurnOk(InTurn(p, s.pos, s.main, u), s.visitors[u].pc, p.id[u], s.curr[p.kind[u]]);
    }
  }

  // A new visitor has not been called.
  lemma CreateKeepsTurns(p: Plan, s: State, s': State)
    requires Valid(p) && Shaped(p, s) && Phase(p, s.pos, s.main) && s.main == Create && MainStep(p, s, s')
    requires |s.visitors| == Admits(p, s.pos) < |p.kind|
    requires CurrOk(p, s.pos, s.main, s.curr) && TurnsOk(p, s.pos, s.main, s.visitors, s.curr)
    ensures Shaped(p, s') && CurrOk(p, s'.pos, s'.main, s'.curr) && TurnsOk(p, s'.pos, s'.main, s'.visitors, s'.curr)
  {
    var n := |s.visitors|;
    NewcomersWait(p, s.pos, n);
    forall u: nat | u <= n
      ensures TurnOk(InTurn(p, s'.pos, s'.main, u), s'.visitors[u].pc, p.id[u], s'.curr[p.kind[u]])
    {
      if u < n { assert TurnOk(InTurn(p, s.pos, s.main, u), s.visitors[u].pc, p.id[u], s.curr[p.kind[u]]); }
    }
  }

  lemma MainKeepsTurns(p: Plan, s: State, s': State)
    requires Inv(p, s) && MainStep(p, s, s') && Shaped(p, s')
    ensures CurrOk(p, s'.pos, s'.main, s'.curr) && TurnsOk(p, s'.pos, s'.main, s'.visitors, s'.curr)
  {
    if s.main == SeeCall { CallKeepsTurns(p, s, s'); }
    else if s.main == SeeJoin { JoinKeepsTurns(p, s, s'); }
    else if s.main == Create { assert CommandOk(p, s.pos); CreateKeepsTurns(p, s, s'); }
    else { OtherKeepsTurns(p, s, s'); }
  }

  lemma OtherKeepsTurns(p: Plan, s: State, s': State)
    requires Valid(p) && Shaped(p, s) && Phase(p, s.pos, s.main) && s.main !in {SeeCall, SeeJoin, Create}
    requires MainStep(p, s, s')
    requires CurrOk(p, s.pos, s.main, s.curr) && TurnsOk(p, s.pos, s.main, s.visitors, s.curr)
    ensures s'.pos <= |p.commands| && CurrOk(p, s'.pos, s'.main, s'.curr)
    ensures TurnsOk(p, s'.pos, s'.main, s'.visitors, s'.curr)
  {
    forall u: nat | u < |s.visitors|
      ensures TurnOk(InTurn(p, s'.pos, s'.main, u), s'.visitors[u].pc, p.id[u], s'.curr[p.kind[u]])
    {
      assert TurnOk(InTurn(p, s.pos, s.main, u), s.visitors[u].pc, p.id[u], s.curr[p.kind[u]]);
    }
  }

  // A command that ends has printed all its lines, one that goes on prints none by the main thread.
  lemma MainKeepsLog(p: Plan, s: State, s': State)
    requires Valid(p) && Shaped(p, s) && Phase(p, s.pos, s.main) && MainStep(p, s, s')
    requires DocMutexOk(s.main, s.doctor, s.docMutex) && DoctorOk(p, s.pos, s.main, s.doctor, s.docState)
    requires TurnsOk(p, s.pos, s.main, s.visitors, s.curr) && CurrOk(p, s.pos, s.main, s.curr)
    requires LogOk(p, s.pos, s.main, s.doctor, s.docState, s.visitors, s.log)
    ensures s'.pos <= |p.commands| && LogOk(p, s'.pos, s'.main, s'.doctor, s'.docState, s'.visitors, s'.log)
  {
    if s.main == SeeCall {
      CallKeepsLog(p, s, s');
    } else if s.main in {SeeLockDoc, SeeSet, SeeLockDone, SeeCheck, SeeLock} {
      if Over(p, s.pos) { OverMeansTick(p, s.pos, s.pos); }
      SeeKeepsLog(p, s, s');
    } else if s'.pos != s.pos {
      EndKeepsLog(p, s, s');
    } else {
      if s.main != Idle && Over(p, s.pos) { OverMeansTick(p, s.pos, s.pos); }
      StartKeepsLog(p, s, s');
    }
  }

  lemma CallKeepsLog(p: Plan, s: State, s': State)
    requires Valid(p) && Shaped(p, s) && Phase(p, s.pos, s.main) && s.main == SeeCall && MainStep(p, s, s')
    requires TurnsOk(p, s.pos, s.main, s.visitors, s.curr) && CurrOk(p, s.pos, s.main, s.curr)
    requires LogOk(p, s.pos, s.main, s.doctor, s.docState, s.visitors, s.log)
    ensures LogOk(p, s.pos, s'.main, s'.doctor, s'.docState, s'.visitors, s'.log)
  {
    assert CommandOk(p, s.pos);
    var v := p.commands[s.pos].v;
    if v < |s.visitors| { assert TurnOk(InTurn(p, s.pos, s.main, v), s.visitors[v].pc, p.id[v], s.curr[p.kind[v]]); }
  }

  lemma SeeKeepsLog(p: Plan, s: State, s': State)
    requires NumbersOk(p) && Shaped(p, s) && Phase(p, s.pos, s.main)
    requires s.main in {SeeLockDoc, SeeSet, SeeLockDone, SeeCheck, SeeLock}
    requires MainStep(p, s, s') && !Over(p, s.pos)
    requires DocMutexOk(s.main, s.doctor, s.docMutex) && DoctorOk(p, s.pos, s.main, s.doctor, s.docState)
    requires LogOk(p, s.pos, s.main, s.doctor, s.docState, s.visitors, s.log)
    ensures LogOk(p, s.pos, s'.main, s'.doctor, s'.docState, s'.visitors, s'.log)
  {}

  lemma EndKeepsLog(p: Plan, s: State, s': State)
    requires NumbersOk(p) && Shaped(p, s) && Phase(p, s.pos, s.main) && s.main !in {SeeCall} && MainStep(p, s, s')
    requires s'.pos != s.pos
    requires DoctorOk(p, s.pos, s.main, s.doctor, s.docState)
    requires LogOk(p, s.pos, s.main, s.doctor, s.docState, s.visitors, s.log)
    ensures s'.pos <= |p.commands| && LogOk(p, s'.pos, s'.main, s'.doctor, s'.docState, s'.visitors, s'.log)
  {}

  lemma StartKeepsLog(p: Plan, s: State, s': State)
    requires NumbersOk(p) && Shaped(p, s) && Phase(p, s.pos, s.main)
    requires s.main !in {SeeCall, SeeJoin, SeeLockDoc, SeeSet, SeeLockDone, SeeCheck, SeeLock}
    requires MainStep(p, s, s') && s'.pos == s.pos
    requires s.main != Idle ==> !Over(p, s.pos)
    requires DocMutexOk(s.main, s.doctor, s.docMutex) && DoctorOk(p, s.pos, s.main, s.doctor, s.docState)
    requires LogOk(p, s.pos, s.main, s.doctor, s.docState, s.visitors, s.log)
    ensures LogOk(p, s.pos, s'.main, s'.doctor, s'.docState, s'.visitors, s'.log)
  {}

  lemma MainKeeps(p: Plan, s: State, s': State)
    requires Inv(p, s) && MainStep(p, s, s')
    ensures Inv(p, s')
  {
    if s.main == Create { assert CommandOk(p, s.pos); }
    MainKeepsLocks(p, s, s');
    MainKeepsDoctor(p, s, s');
    MainKeepsVisitors(p, s, s');
    MainKeepsTurns(p, s, s');
    MainKeepsLog(p, s, s');
  }

  // ---------- Every step keeps the invariant ----------

  lemma InitInv(p: Plan)
    requires Valid(p)
    ensures Inv(p, Init())
  {}

  lemma SleeperKeeps(p: Plan, s: State, v: nat)
    requires Inv(p, s) && v < |s.visitors| && s.visitors[v].pc == TurnAsleep
    ensures Inv(p, Put(s, v, TurnLock))
  {
    var visitors := Put(s, v, TurnLock).visitors;
    forall u: nat | u < |s.visitors|
      ensures TurnOk(InTurn(p, s.pos, s.main, u), visitors[u].pc, p.id[u], s.curr[p.kind[u]])
    {
      assert TurnOk(InTurn(p, s.pos, s.main, u), s.visitors[u].pc, p.id[u], s.curr[p.kind[u]]);
    }
    OthersAreNotLogged(p, s.pos, s.main, s.main, s.doctor, s.docState, s.visitors, v, visitors[v], s.log);
    SleeperKeepsLocks(p, s.pos, s.main, s.doctor, s.visitors, s.mutex, s.param, s.done, v, visitors[v]);
  }

  lemma SleeperKeepsLocks(p: Plan, pos: nat, main: MainPc, doctor: DoctorPc, visitors: seq<VisitorThread>,
                          mutex: Holder,
                          param: nat, done: bool, v: nat, thread: VisitorThread)
    requires pos <= |p.commands| && v < |visitors| && visitors[v].pc == TurnAsleep
    requires thread == visitors[v].(pc := TurnLock)
    requires MutexOk(main, doctor, visitors, mutex) && VisitorsOk(p, pos, main, visitors, param, done)
    ensures MutexOk(main, doctor, visitors[v := thread], mutex)
    ensures VisitorsOk(p, pos, main, visitors[v := thread], param, done)
  {}

  lemma SpuriousKeeps(p: Plan, s: State, s': State)
    requires Inv(p, s) && SpuriousStep(s, s')
    ensures Inv(p, s')
  {
    if v: nat :| v < |s.visitors| && s.visitors[v].pc == TurnAsleep && s' == Put(s, v, TurnLock) {
      SleeperKeeps(p, s, v);
    } else {
      WakingKeeps(p, s.pos, s.main, s'.main, s.visitors, s.param, s.done, s.curr);
    }
  }

  // A step of some thread, by its own power.
  ghost predicate Proper(p: Plan, s: State, s': State) {
    && Valid(p) && Shaped(p, s) && Phase(p, s.pos, s.main) && (s.main == SeeCall ==> CommandOk(p, s.pos))
    && (MainStep(p, s, s') || DoctorStep(s, s') || exists v: nat :: v < |s.visitors| && VisitorStep(p, s, v, s'))
  }

  lemma ProperKeeps(p: Plan, s: State, s': State)
    requires Inv(p, s) && Proper(p, s, s')
    ensures Inv(p, s')
  {
    if MainStep(p, s, s') {
      MainKeeps(p, s, s');
    } else if DoctorStep(s, s') {
      DoctorKeeps(p, s, s');
    } else {
      var v: nat :| v < |s.visitors| && VisitorStep(p, s, v, s');
      VisitorKeeps(p, s, v, s');
    }
  }

  ghost predicate IsRun(p: Plan, run: seq<State>) {
    && Valid(p) && run != [] && run[0] == Init()
    && forall i :: 0 < i < |run| ==> Proper(p, run[i - 1], run[i]) || SpuriousStep(run[i - 1], run[i])
  }

  lemma {:induction false} RunInv(p: Plan, run: seq<State>)
    requires IsRun(p, run)
    ensures Inv(p, run[|run| - 1])
  {
    var n := |run| - 1;
    if n == 0 {
      InitInv(p);
    } else {
      assert IsRun(p, run[..n]) && run[..n][n - 1] == run[n - 1];
      RunInv(p, run[..n]);
      if Proper(p, run[n - 1], run[n]) { ProperKeeps(p, run[n - 1], run[n]); }
      else { SpuriousKeeps(p, run[n - 1], run[n]); }
    }
  }

  // ---------- What every interleaving guarantees ----------

  // While the main thread asks for doc_mutex with mutex in hand, doc_state is 0, so the doctor does not
  // ask for mutex with doc_mutex in hand.
  lemma NoLockCycle(p: Plan, run: seq<State>)
    requires IsRun(p, run) && run[|run| - 1].main == LeaveLockDoc
    ensures run[|run| - 1].docState == 0 && run[|run| - 1].doctor !in {LockMutex, Look, Reset, Going, Gone}
  {
    var s := run[|run| - 1];
    RunInv(p, run);
    if Over(p, s.pos) { OverMeansTick(p, s.pos, s.pos); }
  }

  // Each visitor works with its own parameter, however the threads are scheduled.
  lemma OwnParameter(p: Plan, run: seq<State>, v: nat)
    requires IsRun(p, run) && v < |run[|run| - 1].visitors|
    ensures run[|run| - 1].visitors[v].copy in {None, Some(v)}
    ensures run[|run| - 1].visitors[v].copy == None <==> run[|run| - 1].visitors[v].pc == Copying
    ensures run[|run| - 1].visitors[v].pc == Copying ==> run[|run| - 1].param == v == |run[|run| - 1].visitors| - 1
  {
    RunInv(p, run);
  }

  // The lines printed are those of the plan, in its order: the doctor calls, the visitor of the plan
  // enters, before the next command begins.
  lemma PrintsThePlan(p: Plan, run: seq<State>)
    requires IsRun(p, run)
    ensures var s := run[|run| - 1];
            && s.pos <= |p.commands|
            && Expected(p, s.pos) <= s.log
            && (s.pos < |p.commands| ==> s.log <= Expected(p, s.pos + 1))
            && (s.pos == |p.commands| ==> s.log == Expected(p, s.pos))
  {
    var s := run[|run| - 1];
    RunInv(p, run);
    if s.main == LeaveLockDoc && Over(p, s.pos) { OverMeansTick(p, s.pos, s.pos); }
    if s.main == SeeJoin {
      assert CommandOk(p, s.pos);
      if Over(p, s.pos) { OverMeansTick(p, s.pos, s.pos); }
    }
  }

  // ---------- No deadlock ----------

  ghost predicate Moves(p: Plan, s: State) {
    exists s' :: Proper(p, s, s')
  }

  // The plan has been carried out; the visitors called have ended.
  ghost predicate Complete(p: Plan, s: State) {
    && s.main == Idle && s.pos == |p.commands| && |s.curr| == 3 && |s.visitors| <= |p.kind| && NumbersOk(p)
    && forall v: nat :: v < |s.visitors| && p.id[v] <= s.curr[p.kind[v]] ==> s.visitors[v].pc == Ended
  }

  lemma VisitorMoves(p: Plan, s: State, v: nat)
    requires Inv(p, s) && v < |s.visitors| && s.visitors[v].pc !in {TurnAsleep, Ended}
    requires s.visitors[v].pc in {DoneLock, TurnLock} ==> s.mutex == Nobody
    ensures Moves(p, s)
  {
    var pc := s.visitors[v].pc;
    var s' := if pc == Copying then s.(visitors := s.visitors[v := VisitorThread(DoneLock, Some(s.param))])
              else if pc == DoneLock then Put(s, v, DoneSignal).(mutex := Visitor(v))
              else if pc == DoneSignal then
                Put(s, v, TurnLock).(done := true, mutex := Nobody,
                                     main := if s.main == InitAsleep then InitLock else s.main)
              else if pc == TurnLock then Put(s, v, TurnCheck).(mutex := Visitor(v))
              else if s.curr[p.kind[v]] == p.id[v] then Put(s, v, Ended).(mutex := Nobody, log := s.log + [Enters(v)])
              else Put(s, v, TurnAsleep).(mutex := Nobody);
    if s.main == SeeCall { assert CommandOk(p, s.pos); }
    assert VisitorStep(p, s, v, s');
    assert Proper(p, s, s');
  }

  lemma DoctorMoves(p: Plan, s: State)
    requires Inv(p, s) && s.doctor !in {Asleep, Gone}
    requires s.doctor == Lock ==> s.docMutex == Nobody
    requires s.doctor == LockMutex ==> s.mutex == Nobody
    ensures Moves(p, s)
  {
    var pc := s.doctor;
    var s' := if pc == Lock then s.(doctor := Check, docMutex := Doctor)
              else if pc == Check then (if s.docState == 0 then s.(doctor := Asleep, docMutex := Nobody)
                                        else s.(doctor := LockMutex))
              else if pc == LockMutex then s.(doctor := Look, mutex := Doctor)
              else if pc == Look then (if s.docState == -1 then
                                         s.(doctor := Going, mutex := Nobody, log := s.log + [DoctorLeaves])
                                       else s.(doctor := Reset, mutex := Nobody, log := s.log + [DoctorHasVisitor]))
              else if pc == Reset then s.(doctor := Unlock, docState := 0,
                                          main := if s.main == SeeAsleep then SeeLockDone else s.main)
              else if pc == Unlock then s.(doctor := Lock, docMutex := Nobody)
              else s.(doctor := Gone, docMutex := Nobody);
    if s.main == SeeCall { assert CommandOk(p, s.pos); }
    assert DoctorStep(s, s');
    assert Proper(p, s, s');
  }

  lemma SeeMoves(p: Plan, s: State)
    requires Inv(p, s) && s.main in {SeeLockDoc, SeeSet, SeeLockDone, SeeCheck, SeeLock, SeeCall, SeeJoin}
    requires s.main == SeeLock ==> s.mutex == Nobody
    requires s.main in {SeeLockDoc, SeeLockDone} ==> s.docMutex == Nobody
    requires s.main == SeeJoin ==> p.commands[s.pos].v < |s.visitors| && s.visitors[p.commands[s.pos].v].pc == Ended
    ensures Moves(p, s)
  {
    assert CommandOk(p, s.pos);
    var k := p.kind[p.commands[s.pos].v];
    var s' := if s.main == SeeLockDoc then s.(main := SeeSet, docMutex := Main)
              else if s.main == SeeSet then
                s.(main := SeeLockDone, docState := 1, doctor := WakeDoctor(s.doctor), docMutex := Nobody)
              else if s.main == SeeLockDone then s.(main := SeeCheck, docMutex := Main)
              else if s.main == SeeCheck then
                s.(main := if s.docState == 1 then SeeAsleep else SeeLock, docMutex := Nobody)
              else if s.main == SeeLock then s.(main := SeeCall, mutex := Main)
              else if s.main == SeeCall then s.(main := SeeJoin, curr := s.curr[k := s.curr[k] + 1],
                                                visitors := WakeVisitors(p, s.visitors, k), mutex := Nobody)
              else s.(main := Idle, pos := s.pos + 1);
    assert MainStep(p, s, s');
    assert Proper(p, s, s');
  }

  lemma LeaveMoves(p: Plan, s: State)
    requires Inv(p, s) && s.main in {LeaveLockDoc, LeaveSet, LeaveUnlock, LeaveJoin}
    requires s.main == LeaveLockDoc ==> s.docMutex == Nobody
    requires s.main == LeaveJoin ==> s.doctor == Gone
    ensures Moves(p, s)
  {
    var s' := if s.main == LeaveLockDoc then s.(main := LeaveSet, docMutex := Main)
              else if s.main == LeaveSet then
                s.(main := LeaveUnlock, docState := -1, doctor := WakeDoctor(s.doctor), docMutex := Nobody)
              else if s.main == LeaveUnlock then s.(main := LeaveJoin, mutex := Nobody)
              else s.(main := Idle, pos := s.pos + 1);
    assert MainStep(p, s, s');
    assert Proper(p, s, s');
  }

  lemma AdmitMoves(p: Plan, s: State)
    requires Inv(p, s) && s.main in {Idle, Locked, Create, InitLock, InitCheck}
    requires s.main == Idle ==> s.pos < |p.commands|
    requires s.main in {Idle, InitLock} ==> s.mutex == Nobody
    ensures Moves(p, s)
  {
    var c := p.commands[s.pos];
    var s' := if s.main == Idle then s.(main := Locked, mutex := Main)
              else if s.main == Create then
                s.(main := InitLock, param := c.v, visitors := s.visitors + [VisitorThread(Copying, None)])
              else if s.main == InitLock then s.(main := InitCheck, mutex := Main)
              else if s.main == InitCheck then
                (if s.done then s.(main := Idle, pos := s.pos + 1, done := false, mutex := Nobody)
                 else s.(main := InitAsleep, mutex := Nobody))
              else if c.Tick? then s.(main := Idle, pos := s.pos + 1, mutex := Nobody)
              else if c.Admit? then s.(main := Create, done := false, mutex := Nobody)
              else if c.See? then s.(main := SeeLockDoc, mutex := Nobody)
              else s.(main := LeaveLockDoc);
    assert MainStep(p, s, s');
    assert Proper(p, s, s');
  }

  lemma MainMoves(p: Plan, s: State)
    requires Inv(p, s) && s.main !in {InitAsleep, SeeAsleep} && (s.main == Idle ==> s.pos < |p.commands|)
    requires s.main in {Idle, InitLock, SeeLock} ==> s.mutex == Nobody
    requires s.main in {SeeLockDoc, SeeLockDone, LeaveLockDoc} ==> s.docMutex == Nobody
    requires s.main == SeeJoin ==> p.commands[s.pos].v < |s.visitors| && s.visitors[p.commands[s.pos].v].pc == Ended
    requires s.main == LeaveJoin ==> s.doctor == Gone
    ensures Moves(p, s)
  {
    if s.main in {SeeLockDoc, SeeSet, SeeLockDone, SeeCheck, SeeLock, SeeCall, SeeJoin} { SeeMoves(p, s); }
    else if s.main in {LeaveLockDoc, LeaveSet, LeaveUnlock, LeaveJoin} { LeaveMoves(p, s); }
    else { AdmitMoves(p, s); }
  }

  // Whoever holds doc_mutex can go on, unless it is the doctor waiting for a mutex that somebody holds.
  lemma DocHolderMoves(p: Plan, s: State)
    requires Inv(p, s) && s.docMutex != Nobody && (s.doctor == LockMutex ==> s.mutex == Nobody)
    ensures Moves(p, s)
  {
    if s.docMutex == Main { MainMoves(p, s); } else { DoctorMoves(p, s); }
  }

  lemma HolderMoves(p: Plan, s: State)
    requires Inv(p, s) && s.mutex != Nobody
    ensures Moves(p, s)
  {
    if s.mutex == Doctor {
      DoctorMoves(p, s);
    } else if s.mutex.Visitor? {
      VisitorMoves(p, s, s.mutex.v);
    } else if s.main == LeaveLockDoc && s.docMutex != Nobody {
      if Over(p, s.pos) { OverMeansTick(p, s.pos, s.pos); }
      DocHolderMoves(p, s);
    } else {
      MainMoves(p, s);
    }
  }

  // With every other thread asleep or ended, the main thread is not asleep itself.
  lemma QuietMoves(p: Plan, s: State)
    requires Inv(p, s) && s.mutex == Nobody && s.docMutex == Nobody && s.doctor in {Asleep, Gone}
    requires forall v: nat :: v < |s.visitors| ==> s.visitors[v].pc in {TurnAsleep, Ended}
    requires s.main == Idle ==> s.pos < |p.commands|
    ensures Moves(p, s)
  {
    if s.main == SeeJoin {
      assert CommandOk(p, s.pos);
      var v := p.commands[s.pos].v;
      assert TurnOk(InTurn(p, s.pos, s.main, v), s.visitors[v].pc, p.id[v], s.curr[p.kind[v]]);
    }
    if s.main == InitAsleep { NewestSpeaks(p, s.pos, s.main, s.visitors, s.param, s.done); }
    MainMoves(p, s);
  }

  lemma NewestSpeaks(p: Plan, pos: nat, main: MainPc, visitors: seq<VisitorThread>, param: nat, done: bool)
    requires pos <= |p.commands| && VisitorsOk(p, pos, main, visitors, param, done) && main in INIT
    ensures visitors != [] && (visitors[|visitors| - 1].pc in NEW <==> !done)
  {}

  lemma CalledHaveEnded(p: Plan, s: State)
    requires Inv(p, s) && s.main == Idle && s.pos == |p.commands|
    ensures Complete(p, s)
  {
    forall v: nat | v < |s.visitors| && p.id[v] <= s.curr[p.kind[v]] ensures s.visitors[v].pc == Ended {
      assert TurnOk(InTurn(p, s.pos, s.main, v), s.visitors[v].pc, p.id[v], s.curr[p.kind[v]]);
    }
  }

  // Nobody has anything to do: the doctor waits for work or has gone, and visitors have ended or wait
  // for their turn.
  ghost predicate AtRest(s: State) {
    && s.doctor in {Asleep, Gone}
    && forall v: nat :: v < |s.visitors| ==> s.visitors[v].pc in {TurnAsleep, Ended}
  }

  // In every reachable state some thread can take a step by its own power, or the plan is carried out
  // and everybody is at rest.
  lemma DeadlockFree(p: Plan, run: seq<State>)
    requires IsRun(p, run)
    ensures Moves(p, run[|run| - 1]) || (Complete(p, run[|run| - 1]) && AtRest(run[|run| - 1]))
  {
    var s := run[|run| - 1];
    RunInv(p, run);
    if s.mutex != Nobody {
      HolderMoves(p, s);
    } else if s.docMutex != Nobody {
      DocHolderMoves(p, s);
    } else if v: nat :| v < |s.visitors| && s.visitors[v].pc !in {TurnAsleep, Ended} {
      VisitorMoves(p, s, v);
    } else if s.doctor !in {Asleep, Gone} {
      DoctorMoves(p, s);
    } else if s.main == Idle && s.pos == |p.commands| {
      CalledHaveEnded(p, s);
    } else {
      QuietMoves(p, s);
    }
  }
}
