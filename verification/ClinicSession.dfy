// The clinic's main program: the counters, the arrays of admitted visitors and the event loop.
module ClinicSession {
  import opened EventHeaps
  import opened Clinics
  import opened ClinicTheorems
  import opened ClinicDays

  const MAX_REPORTERS := 100

  // The counters of a class and its array: everybody who came, whoever waits, whoever has been seen.
  datatype Desk = Desk(cnt: nat, wait: int, curr: nat, q: seq<Event>)

  ghost predicate DeskIs(d: Desk, came: nat, line: Line) {
    && d.cnt == came && d.wait == Waiting(line) && d.curr == line.served <= |line.queue| <= |d.q|
    && d.q[..|line.queue|] == line.queue
  }

  // The fields of the main program stand for the state of the event loop.
  ghost predicate Tied(now: int, free: bool, over: bool, visits: seq<Visit>, r: Desk, p: Desk, s: Desk, m: State) {
    && Shaped(m.lines) && |r.q| == MAX_REPORTERS && |p.q| == 25 && |s.q| == 3
    && now == m.now && free == m.free && over == m.over && visits == m.log
    && DeskIs(r, |OfRank(m.past, REPORTERS)|, m.lines[REPORTERS])
    && DeskIs(p, |OfRank(m.past, PATIENTS)|, m.lines[PATIENTS])
    && DeskIs(s, |OfRank(m.past, SALES)|, m.lines[SALES])
  }

  function Arrived(d: Desk, e: Event, admitted: bool): Desk
    requires admitted ==> d.cnt < |d.q|
  {
    if admitted then Desk(d.cnt + 1, d.wait + 1, d.curr, d.q[d.cnt := e]) else d.(cnt := d.cnt + 1)
  }

  // What an arrival of class k changes, at its desk and in the model.
  lemma ArrivalCounts(past: seq<Event>, over: bool, log: seq<Visit>, k: nat, line: Line, d: Desk, e: Event)
    requires Rank(e.kind) == k < 3 && LineOk(past, over, log, k, line) && DeskIs(d, |OfRank(past, k)|, line)
    requires if k == REPORTERS then d.cnt < |d.q| else |d.q| == Quota(k)
    ensures Admitted(past, over, e) <==> !over && (k == REPORTERS || d.cnt + 1 <= Quota(k))
    ensures Admitted(past, over, e) ==> d.cnt == |line.queue| < |d.q|
    ensures DeskIs(Arrived(d, e, Admitted(past, over, e)), |OfRank(past + [e], k)|,
                   if Admitted(past, over, e) then line.(queue := line.queue + [e]) else line)
  {
    OfRankAppend(past, e, k);
    if Admitted(past, over, e) {
      assert d.q[d.cnt := e][..d.cnt + 1] == d.q[..d.cnt] + [e];
    }
  }

  lemma OthersDoNotCount(past: seq<Event>, e: Event)
    ensures forall j :: 0 <= j < 3 && j != Rank(e.kind) ==> OfRank(past + [e], j) == OfRank(past, j)
  {
    forall j: nat | j < 3 && j != Rank(e.kind) ensures OfRank(past + [e], j) == OfRank(past, j) {
      OfRankAppend(past, e, j);
    }
  }

  // One more reporter is still one of the file.
  lemma ReporterFits(file: seq<Event>, past: seq<Event>, arrivals: multiset<Event>, e: Event)
    requires multiset(past) + arrivals == multiset(file) && e in arrivals && Rank(e.kind) == REPORTERS
    ensures |OfRank(past, REPORTERS)| < |OfRank(file, REPORTERS)|
  {
    assert multiset(past + [e]) == multiset(past) + multiset{e} <= multiset(file);
    RankSizes(past + [e], file, REPORTERS);
    OfRankAppend(past, e, REPORTERS);
  }

  lemma DoctorTied(now: int, free: bool, over: bool, visits: seq<Visit>, r: Desk, p: Desk, s: Desk, m: State, e: Event)
    requires Tied(now, free, over, visits, r, p, s, m) && !IsVisitor(e)
    ensures (GoesOn(m, e) <==> !(p.curr == 25 && s.curr == 3 && r.wait == 0))
    ensures Tied(e.time, GoesOn(m, e), over || !GoesOn(m, e), visits, r, p, s, Handle(m, e))
  {}

  lemma VisitorTied(now: int, free: bool, over: bool, visits: seq<Visit>, r: Desk, p: Desk, s: Desk, m: State, e: Event)
    requires Tied(now, free, over, visits, r, p, s, m) && IsVisitor(e) && LinesOk(m.past, m.over, m.log, m.lines)
    requires Rank(e.kind) == REPORTERS ==> r.cnt < MAX_REPORTERS
    ensures Rank(e.kind) == REPORTERS ==>
              (GoesOn(m, e) <==> !over)
              && Tied(e.time, free, over, visits, Arrived(r, e, GoesOn(m, e)), p, s, Handle(m, e))
    ensures Rank(e.kind) == PATIENTS ==>
              (GoesOn(m, e) <==> !over && p.cnt + 1 <= 25)
              && Tied(e.time, free, over, visits, r, Arrived(p, e, GoesOn(m, e)), s, Handle(m, e))
    ensures Rank(e.kind) == SALES ==>
              (GoesOn(m, e) <==> !over && s.cnt + 1 <= 3)
              && Tied(e.time, free, over, visits, r, p, Arrived(s, e, GoesOn(m, e)), Handle(m, e))
  {
    var k := Rank(e.kind);
    OthersDoNotCount(m.past, e);
    ArrivalCounts(m.past, m.over, m.log, k, m.lines[k],
                  if k == REPORTERS then r else if k == PATIENTS then p else s, e);
  }

  lemma PatientTied(now: int, free: bool, over: bool, visits: seq<Visit>, r: Desk, p: Desk, s: Desk, m: State, e: Event)
    requires Tied(now, free, over, visits, r, p, s, m) && e.kind == 'P' && LinesOk(m.past, m.over, m.log, m.lines)
    ensures (GoesOn(m, e) <==> !over && p.cnt + 1 <= 25) && (GoesOn(m, e) ==> p.cnt < |p.q|)
    ensures Tied(e.time, free, over, visits, r, Arrived(p, e, GoesOn(m, e)), s, Handle(m, e))
  {
    VisitorTied(now, free, over, visits, r, p, s, m, e);
  }

  lemma SalesrepTied(now: int, free: bool, over: bool, visits: seq<Visit>, r: Desk, p: Desk, s: Desk, m: State,
                     e: Event)
    requires Tied(now, free, over, visits, r, p, s, m) && e.kind == 'S' && LinesOk(m.past, m.over, m.log, m.lines)
    ensures (GoesOn(m, e) <==> !over && s.cnt + 1 <= 3) && (GoesOn(m, e) ==> s.cnt < |s.q|)
    ensures Tied(e.time, free, over, visits, r, p, Arrived(s, e, GoesOn(m, e)), Handle(m, e))
  {
    VisitorTied(now, free, over, visits, r, p, s, m, e);
  }

  function Seen(d: Desk): Desk {
    d.(wait := d.wait - 1, curr := d.curr + 1)
  }

  // The pending events of n are those of m and ends.
  ghost predicate Leads(m: State, n: State, ends: seq<Event>) {
    |ends| <= 1 && Pending(n) == Pending(m) + multiset(ends)
  }

  // What a visit to the doctor changes.
  lemma ReporterSeen(now: int, over: bool, visits: seq<Visit>, r: Desk, p: Desk, s: Desk, m: State)
    requires Tied(now, true, over, visits, r, p, s, m) && !over && r.wait > 0
    ensures 0 <= r.curr < |r.q|
    ensures Tied(now, false, over, visits + [Visit(r.q[r.curr], now)], Seen(r), p, s, Serve(m))
    ensures Leads(m, Serve(m), [Event('D', now + r.q[r.curr].duration, 0)])
  {}

  lemma PatientSeen(now: int, over: bool, visits: seq<Visit>, r: Desk, p: Desk, s: Desk, m: State)
    requires Tied(now, true, over, visits, r, p, s, m) && !over && r.wait <= 0 < p.wait
    ensures 0 <= p.curr < |p.q|
    ensures Tied(now, false, over, visits + [Visit(p.q[p.curr], now)], r, Seen(p), s, Serve(m))
    ensures Leads(m, Serve(m), [Event('D', now + p.q[p.curr].duration, 0)])
  {}

  lemma SalesrepSeen(now: int, over: bool, visits: seq<Visit>, r: Desk, p: Desk, s: Desk, m: State)
    requires Tied(now, true, over, visits, r, p, s, m) && !over && r.wait <= 0 && p.wait <= 0 < s.wait
    ensures 0 <= s.curr < |s.q|
    ensures Tied(now, false, over, visits + [Visit(s.q[s.curr], now)], r, p, Seen(s), Serve(m))
    ensures Leads(m, Serve(m), [Event('D', now + s.q[s.curr].duration, 0)])
  {}

  lemma NobodySeen(now: int, free: bool, over: bool, visits: seq<Visit>, r: Desk, p: Desk, s: Desk, m: State)
    requires Tied(now, free, over, visits, r, p, s, m)
    requires !free || over || (r.wait <= 0 && p.wait <= 0 && s.wait <= 0)
    ensures Serve(m) == m && Leads(m, m, [])
  {}

  function NewDesk(n: nat, e: Event): Desk {
    Desk(0, 0, 0, seq(n, _ => e))
  }

  lemma InitTied(file: seq<Event>, first: Event)
    ensures Tied(START, false, false, [], NewDesk(MAX_REPORTERS, first), NewDesk(25, first), NewDesk(3, first),
                 Init(file, first))
    ensures Pending(Init(file, first)) == multiset(file) + multiset{first}
  {}

  lemma InitFacts(file: seq<Event>, first: Event) returns (m: State)
    requires File(file) && !IsVisitor(first)
    ensures m == Init(file, first) && Inv(file, m) && Pending(m) == multiset(file) + multiset{first}
    ensures Tied(START, false, false, [], NewDesk(MAX_REPORTERS, first), NewDesk(25, first), NewDesk(3, first), m)
  {
    m := Init(file, first);
    InitTied(file, first);
    InitInv(file, first);
  }

  lemma StepPending(file: seq<Event>, s: State, e: Event)
    requires Inv(file, s) && First(s, e)
    ensures Pending(Handle(s, e)) == Pending(s) - multiset{e}
    ensures LinesOk(s.past, s.over, s.log, s.lines)
    ensures Rank(e.kind) == REPORTERS ==> |OfRank(s.past, REPORTERS)| < |OfRank(file, REPORTERS)|
  {
    if Rank(e.kind) == REPORTERS { ReporterFits(file, s.past, s.arrivals, e); }
    assert IsVisitor(e) ==> e !in s.due;
    assert !IsVisitor(e) ==> e !in s.arrivals;
  }

  lemma TurnFacts(file: seq<Event>, s: State, e: Event)
    requires Inv(file, s) && First(s, e)
    ensures Pending(Handle(s, e)) == Pending(s) - multiset{e}
    ensures Shaped(s.lines) && LinesOk(s.past, s.over, s.log, s.lines)
    ensures Rank(e.kind) == REPORTERS ==> |OfRank(s.past, REPORTERS)| < |OfRank(file, REPORTERS)|
    ensures Inv(file, Step(s, e)) && |Pending(Step(s, e))| <= |file| + 1
  {
    StepPending(file, s, e);
    StepKeeps(file, s, e);
    QueueFits(file, Step(s, e));
  }

  class Session {
    var patients: Desk
    var reporters: Desk
    var salesreps: Desk
    var currTime: int
    var docFree: bool
    var docSessionEnd: bool
    var visits: seq<Visit>
    const E: EventQueue

    // The state of the event loop that the fields stand for, and the arrivals of the day.
    ghost var model: State
    ghost const file: seq<Event>

    ghost predicate Fields()
      reads this
    {
      Tied(currTime, docFree, docSessionEnd, visits, reporters, patients, salesreps, model)
    }

    ghost predicate Valid()
      reads this, E, E.Q
    {
      && Fields() && Inv(file, model)
      && |file| < CAPACITY && |OfRank(file, REPORTERS)| <= MAX_REPORTERS
      && E.Valid() && E.Pending() == Pending(model)
    }

    // The initialisation of main, with the arrivals of the file. first is the doctor's first event;
    // its duration is never set.
    constructor (arrivals: seq<Event>, first: Event)
      requires |arrivals| < CAPACITY && File(arrivals) && |OfRank(arrivals, REPORTERS)| <= MAX_REPORTERS
      requires first.kind == 'D' && first.time == 0
      ensures Valid() && model == Init(arrivals, first) && file == arrivals && fresh(E) && fresh(E.Q)
    {
      ghost var start := InitFacts(arrivals, first);
      patients := NewDesk(25, first);
      reporters := NewDesk(MAX_REPORTERS, first);
      salesreps := NewDesk(3, first);
      currTime := START;
      docFree, docSessionEnd := false, false;
      visits := [];
      E := new EventQueue(arrivals);
      file := arrivals;
      model := start;
      new;
      E.AddEvent(first);
    }

    // The end of the session, or the doctor is ready for the next visitor.
    method DoctorIsReady(e: Event) returns (goOn: bool)
      requires Fields() && !IsVisitor(e)
      modifies this
      ensures Fields() && model == Handle(old(model), e) && goOn == GoesOn(old(model), e)
    {
      DoctorTied(currTime, docFree, docSessionEnd, visits, reporters, patients, salesreps, model, e);
      currTime := e.time;
      docFree := true;
      goOn := true;
      if patients.curr == 25 && salesreps.curr == 3 && reporters.wait == 0 {
        docSessionEnd := true;
        docFree := false;
        goOn := false;
      }
      model := Handle(model, e);
    }

    method PatientArrives(e: Event) returns (goOn: bool)
      requires Fields() && LinesOk(model.past, model.over, model.log, model.lines) && e.kind == 'P'
      modifies this
      ensures Fields() && model == Handle(old(model), e) && goOn == GoesOn(old(model), e)
    {
      PatientTied(currTime, docFree, docSessionEnd, visits, reporters, patients, salesreps, model, e);
      currTime := e.time;
      patients := patients.(cnt := patients.cnt + 1);
      goOn := !docSessionEnd && patients.cnt <= 25;
      if goOn {
        patients := patients.(wait := patients.wait + 1, q := patients.q[patients.cnt - 1 := e]);
      }
      assert patients == Arrived(old(patients), e, goOn);
      model := Handle(model, e);
    }

    method ReporterArrives(e: Event) returns (goOn: bool)
      requires Fields() && LinesOk(model.past, model.over, model.log, model.lines) && e.kind == 'R'
      requires reporters.cnt < MAX_REPORTERS
      modifies this
      ensures Fields() && model == Handle(old(model), e) && goOn == GoesOn(old(model), e)
    {
      VisitorTied(currTime, docFree, docSessionEnd, visits, reporters, patients, salesreps, model, e);
      currTime := e.time;
      reporters := reporters.(cnt := reporters.cnt + 1);
      goOn := !docSessionEnd;
      if goOn {
        reporters := reporters.(wait := reporters.wait + 1, q := reporters.q[reporters.cnt - 1 := e]);
      }
      assert reporters == Arrived(old(reporters), e, goOn);
      model := Handle(model, e);
    }

    method SalesrepArrives(e: Event) returns (goOn: bool)
      requires Fields() && LinesOk(model.past, model.over, model.log, model.lines) && e.kind == 'S'
      modifies this
      ensures Fields() && model == Handle(old(model), e) && goOn == GoesOn(old(model), e)
    {
      SalesrepTied(currTime, docFree, docSessionEnd, visits, reporters, patients, salesreps, model, e);
      currTime := e.time;
      salesreps := salesreps.(cnt := salesreps.cnt + 1);
      goOn := !docSessionEnd && salesreps.cnt <= 3;
      if goOn {
        salesreps := salesreps.(wait := salesreps.wait + 1, q := salesreps.q[salesreps.cnt - 1 := e]);
      }
      assert salesreps == Arrived(old(salesreps), e, goOn);
      model := Handle(model, e);
    }

    // A free doctor sees the next visitor of a class: the visit is logged, and its end is an event to add.
    method SeeReporter() returns (ends: seq<Event>)
      requires Fields() && docFree && !docSessionEnd && reporters.wait > 0
      modifies this
      ensures Fields() && model == Serve(old(model)) && Leads(old(model), model, ends)
    {
      ReporterSeen(currTime, docSessionEnd, visits, reporters, patients, salesreps, model);
      var visitor := reporters.q[reporters.curr];
      docFree := false;
      reporters := reporters.(wait := reporters.wait - 1, curr := reporters.curr + 1);
      visits := visits + [Visit(visitor, currTime)];
      ends := [Event('D', currTime + visitor.duration, 0)];
      model := Serve(model);
    }

    method SeePatient() returns (ends: seq<Event>)
      requires Fields() && docFree && !docSessionEnd && reporters.wait <= 0 < patients.wait
      modifies this
      ensures Fields() && model == Serve(old(model)) && Leads(old(model), model, ends)
    {
      PatientSeen(currTime, docSessionEnd, visits, reporters, patients, salesreps, model);
      var visitor := patients.q[patients.curr];
      docFree := false;
      patients := patients.(wait := patients.wait - 1, curr := patients.curr + 1);
      visits := visits + [Visit(visitor, currTime)];
      ends := [Event('D', currTime + visitor.duration, 0)];
      model := Serve(model);
    }

    method SeeSalesrep() returns (ends: seq<Event>)
      requires Fields() && docFree && !docSessionEnd && reporters.wait <= 0 && patients.wait <= 0 < salesreps.wait
      modifies this
      ensures Fields() && model == Serve(old(model)) && Leads(old(model), model, ends)
    {
      SalesrepSeen(currTime, docSessionEnd, visits, reporters, patients, salesreps, model);
      var visitor := salesreps.q[salesreps.curr];
      docFree := false;
      salesreps := salesreps.(wait := salesreps.wait - 1, curr := salesreps.curr + 1);
      visits := visits + [Visit(visitor, currTime)];
      ends := [Event('D', currTime + visitor.duration, 0)];
      model := Serve(model);
    }

    // The second half of the loop body.
    method SeeNext() returns (ends: seq<Event>)
      requires Fields()
      modifies this
      ensures Fields() && model == Serve(old(model)) && Leads(old(model), model, ends)
    {
      ends := [];
      if docFree && !docSessionEnd {
        if reporters.wait > 0 {
          ends := SeeReporter();
        } else if patients.wait > 0 {
          ends := SeePatient();
        } else if salesreps.wait > 0 {
          ends := SeeSalesrep();
        } else {
          NobodySeen(currTime, docFree, docSessionEnd, visits, reporters, patients, salesreps, model);
        }
      } else {
        NobodySeen(currTime, docFree, docSessionEnd, visits, reporters, patients, salesreps, model);
      }
    }

    // The first half of the loop body, on the event taken.
    method HandleEvent(e: Event) returns (goOn: bool)
      requires Fields() && LinesOk(model.past, model.over, model.log, model.lines)
      requires Rank(e.kind) == REPORTERS ==> |OfRank(model.past, REPORTERS)| < MAX_REPORTERS
      modifies this
      ensures Fields() && model == Handle(old(model), e) && goOn == GoesOn(old(model), e)
    {
      if e.kind == 'P' {
        goOn := PatientArrives(e);
      } else if e.kind == 'R' {
        goOn := ReporterArrives(e);
      } else if e.kind == 'S' {
        goOn := SalesrepArrives(e);
      } else {
        goOn := DoctorIsReady(e);
      }
    }

    // The loop body on the event taken; ends is what it adds to the queue.
    method Turn(e: Event) returns (ends: seq<Event>)
      requires Fields() && LinesOk(model.past, model.over, model.log, model.lines)
      requires Rank(e.kind) == REPORTERS ==> |OfRank(model.past, REPORTERS)| < MAX_REPORTERS
      modifies this
      ensures Fields() && model == Step(old(model), e)
      ensures Leads(Handle(old(model), e), model, ends)
    {
      ends := [];
      var goOn := HandleEvent(e);
      if goOn {
        ends := SeeNext();
      }
    }

    // nextevent and delevent.
    method TakeFirst() returns (e: Event)
      requires E.Valid() && E.n > 0
      modifies E`n, E.Q
      ensures E.Valid() && E.Pending() == old(E.Pending()) - multiset{e}
      ensures e in old(E.Pending()) && forall x :: x in old(E.Pending()) ==> Before(e, x)
    {
      e := E.NextEvent();
      E.DelEvent();
    }

    method Put(ends: seq<Event>)
      requires E.Valid() && |ends| <= 1 && |E.Pending() + multiset(ends)| <= CAPACITY
      modifies E`n, E.Q
      ensures E.Valid() && E.Pending() == old(E.Pending()) + multiset(ends)
    {
      if |ends| == 1 {
        assert ends == [ends[0]];
        E.AddEvent(ends[0]);
      }
    }

    // One turn of the event loop.
    method HandleNext()
      requires Valid() && E.n > 0
      modifies this, E`n, E.Q
      ensures Valid() && Next(old(model), model)
    {
      ghost var before := model;
      var e := TakeFirst();
      assert First(before, e);
      TurnFacts(file, before, e);
      var ends := Turn(e);
      Put(ends);
      assert Next(before, model);
    }

    // The same, and there is less to do.
    method HandleOne()
      requires Valid() && E.n > 0
      modifies this, E`n, E.Q
      ensures Valid() && Next(old(model), model) && 0 <= Left(model) < Left(old(model))
    {
      ghost var s := model;
      HandleNext();
      ghost var e :| First(s, e) && model == Step(s, e);
      StepLowers(file, s, e);
    }

    // The loop: it ends, and run has the states of the event loop after each of its turns.
    method Run() returns (ghost run: seq<State>)
      requires Valid()
      modifies this, E`n, E.Q
      ensures Valid() && E.n == 0 && LeadsTo(run, old(model), model)
      ensures forall k :: 0 <= k < 3 ==> SeenOfRank(visits, k) == model.lines[k].queue
      ensures docSessionEnd <==> |OfRank(file, PATIENTS)| >= 25 && |OfRank(file, SALES)| >= 3
    {
      run := [model];
      while E.n > 0
        invariant Valid() && LeadsTo(run, old(model), model)
        decreases Left(model)
      {
        ghost var s := model;
        HandleOne();
        LeadsOn(run, old(model), s, model);
        run := run + [model];
      }
      AllSeen(file, model);
    }
  }

  // A whole day. order is that in which the visitors came.
  method RunDay(arrivals: seq<Event>, first: Event) returns (visits: seq<Visit>, over: bool, ghost order: seq<Event>)
    requires |arrivals| < CAPACITY && File(arrivals) && |OfRank(arrivals, REPORTERS)| <= MAX_REPORTERS
    requires first.kind == 'D' && first.time == 0
    ensures IsDay(arrivals, order, visits, over)
  {
    var session := new Session(arrivals, first);
    ghost var run := session.Run();
    visits, over, order := session.visits, session.docSessionEnd, session.model.past;
    DayOfRun(arrivals, first, run);
  }
}
