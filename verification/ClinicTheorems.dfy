// What the clinic's event loop guarantees its visitors, over every run.
module ClinicTheorems {
  import opened EventHeaps
  import opened Clinics

  function End(v: Visit): int {
    v.start + v.visitor.duration
  }

  // Some event has been handled.
  predicate Started(s: State) {
    s.past != [] || s.free || s.over || s.log != []
  }

  ghost predicate LogOk(log: seq<Visit>) {
    && (forall i :: 0 <= i < |log| ==> log[i].start >= 0 && log[i].visitor.time <= log[i].start <= End(log[i]))
    && (forall i, j :: 0 <= i < j < |log| ==> End(log[i]) <= log[j].start)
  }

  // The clock is not behind anything that has happened nor ahead of anything that is to come.
  ghost predicate ClockOk(s: State) {
    && (Started(s) ==> forall x :: x in Pending(s) ==> x.time >= s.now)
    && (forall i :: 0 <= i < |s.past| ==> s.past[i].time <= s.now)
    && (forall i, d :: 0 <= i < |s.log| && d in s.due ==> End(s.log[i]) <= d.time)
    && (s.due == multiset{} ==> s.now >= 0 && forall i :: 0 <= i < |s.log| ==> End(s.log[i]) <= s.now)
    && (forall d :: d in s.due ==> d.time >= 0)
  }

  ghost predicate Patient(file: seq<Event>) {
    File(file) && forall i :: 0 <= i < |file| ==> file[i].duration >= 0
  }

  ghost predicate Timely(file: seq<Event>, s: State) {
    Inv(file, s) && LogOk(s.log) && ClockOk(s)
  }

  lemma HandleIsTimely(file: seq<Event>, s: State, e: Event)
    requires Timely(file, s) && First(s, e)
    ensures Between(file, Handle(s, e)) && LogOk(Handle(s, e).log) && ClockOk(Handle(s, e))
  {
    HandleKeeps(file, s, e);
    var t := Handle(s, e);
    assert forall x :: x in Pending(t) ==> x in Pending(s);
    assert e.time >= s.now || !Started(s);
    if !IsVisitor(e) {
      assert e in s.due && |t.due| == 0;
      assert forall i :: 0 <= i < |s.log| ==> End(s.log[i]) <= e.time;
    }
    if t.due == multiset{} && IsVisitor(e) {
      assert |s.due| == 0;
      assert s.due == multiset{};
    }
    forall i | 0 <= i < |t.past| ensures t.past[i].time <= t.now {
      if i < |s.past| { assert Before(s.past[i], e) || e in s.due; }
    }
  }

  lemma NextVisitorWaits(file: seq<Event>, s: State, k: nat)
    requires Between(file, s) && ClockOk(s) && k < 3 && Waiting(s.lines[k]) > 0
    ensures NextVisitor(s.lines[k]) in file && NextVisitor(s.lines[k]).time <= s.now
  {
    var line := s.lines[k];
    assert LineOk(s.past, s.over, s.log, k, line);
    OfRankIsOfRank(s.past, k, line.served);
    var visitor := OfRank(s.past, k)[line.served];
    var i :| 0 <= i < |s.past| && s.past[i] == visitor;
    assert visitor in multiset(s.past);
    assert visitor in multiset(file);
  }

  lemma VisitKeepsLog(log: seq<Visit>, v: Visit)
    requires LogOk(log) && v.start >= 0 && v.visitor.time <= v.start && v.visitor.duration >= 0
    requires forall i :: 0 <= i < |log| ==> End(log[i]) <= v.start
    ensures LogOk(log + [v])
  {}

  lemma SeeKeepsClock(s: State, k: nat)
    requires Shaped(s.lines) && ClockOk(s) && s.due == multiset{} && Started(s)
    requires k < 3 && Waiting(s.lines[k]) > 0 && NextVisitor(s.lines[k]).duration >= 0
    ensures ClockOk(See(s, k))
  {
    var t := See(s, k);
    assert forall x :: x in Pending(t) ==> x in Pending(s) || x in t.due;
  }

  lemma SeeIsTimely(file: seq<Event>, s: State, k: nat)
    requires Patient(file) && Between(file, s) && LogOk(s.log) && ClockOk(s)
    requires s.free && k < 3 && Waiting(s.lines[k]) > 0
    ensures LogOk(See(s, k).log) && ClockOk(See(s, k))
  {
    NextVisitorWaits(file, s, k);
    assert |s.due| == 0;
    assert s.due == multiset{};
    VisitKeepsLog(s.log, Visit(NextVisitor(s.lines[k]), s.now));
    SeeKeepsClock(s, k);
  }

  lemma StepIsTimely(file: seq<Event>, s: State, e: Event)
    requires Patient(file) && Timely(file, s) && First(s, e)
    ensures Timely(file, Step(s, e))
  {
    HandleIsTimely(file, s, e);
    StepKeeps(file, s, e);
    var t := Handle(s, e);
    if GoesOn(s, e) && t.free && !t.over {
      if Waiting(t.lines[REPORTERS]) > 0 { SeeIsTimely(file, t, REPORTERS); }
      else if Waiting(t.lines[PATIENTS]) > 0 { SeeIsTimely(file, t, PATIENTS); }
      else if Waiting(t.lines[SALES]) > 0 { SeeIsTimely(file, t, SALES); }
    }
  }

  // ---------- Priority ----------

  // The class whose first visitor a free doctor sees.
  function FirstClass(lines: seq<Line>): (k: nat)
    requires Shaped(lines)
    ensures k <= 3 && (k < 3 ==> Waiting(lines[k]) > 0) && forall j :: 0 <= j < k ==> Waiting(lines[j]) == 0
  {
    if Waiting(lines[REPORTERS]) > 0 then REPORTERS
    else if Waiting(lines[PATIENTS]) > 0 then PATIENTS
    else if Waiting(lines[SALES]) > 0 then SALES
    else 3
  }

  lemma SeenClass(file: seq<Event>, h: State)
    requires Between(file, h) && h.free && FirstClass(h.lines) < 3
    ensures var k, t := FirstClass(h.lines), Serve(h);
            && t.log == h.log + [Visit(NextVisitor(h.lines[k]), h.now)] && Rank(NextVisitor(h.lines[k]).kind) == k
            && t.arrivals == h.arrivals
            && forall j :: 0 <= j < k ==> Waiting(t.lines[j]) == 0
  {
    var k := FirstClass(h.lines);
    assert LineOk(h.past, h.over, h.log, k, h.lines[k]);
    OfRankIsOfRank(h.past, k, h.lines[k].served);
    assert NextVisitor(h.lines[k]) == OfRank(h.past, k)[h.lines[k].served];
  }

  lemma ArrivalWaits(file: seq<Event>, s: State, e: Event)
    requires Inv(file, s) && First(s, e) && GoesOn(s, e) && IsVisitor(e)
    ensures Waiting(Handle(s, e).lines[Rank(e.kind)]) > 0
  {}

  // Whoever is seen is of the first class that anybody waits in, and nobody of a better class with an
  // arrival time up to now is still to be handled.
  lemma BetterClassesFirst(file: seq<Event>, s: State, e: Event)
    requires Inv(file, s) && First(s, e) && Step(s, e).log != s.log
    ensures var t := Step(s, e);
            && |t.log| == |s.log| + 1 && t.log[..|s.log|] == s.log
            && var v := t.log[|s.log|];
               && v.start == e.time
               && (forall k :: 0 <= k < Rank(v.visitor.kind) < 3 ==> Waiting(t.lines[k]) == 0)
               && (forall x :: x in t.arrivals && Rank(x.kind) < Rank(v.visitor.kind) ==> x.time > v.start)
  {
    HandleKeeps(file, s, e);
    var h := Handle(s, e);
    SeenClass(file, h);
    if IsVisitor(e) { ArrivalWaits(file, s, e); }
    forall x | x in h.arrivals && Rank(x.kind) < FirstClass(h.lines) ensures x.time > e.time {
      assert x in Pending(s);
      assert Before(e, x);
    }
  }

  // ---------- The end of the day ----------

  lemma {:induction false} RankCounts(s: seq<Event>, k: nat, x: Event)
    ensures multiset(OfRank(s, k))[x] == if Rank(x.kind) == k then multiset(s)[x] else 0
  {
    if s != [] {
      var n := |s| - 1;
      assert s == s[..n] + [s[n]];
      RankCounts(s[..n], k, x);
    }
  }

  // Of equal multisets the classes are equally large, of smaller ones they are not larger.
  lemma RankSizes(s: seq<Event>, t: seq<Event>, k: nat)
    requires multiset(s) <= multiset(t)
    ensures |OfRank(s, k)| <= |OfRank(t, k)|
  {
    var a, b := multiset(OfRank(s, k)), multiset(OfRank(t, k));
    forall x ensures a[x] <= b[x] {
      RankCounts(s, k, x);
      RankCounts(t, k, x);
    }
    assert b == a + (b - a);
  }

  // When no event is left, everybody admitted has been seen once, in order; the session is over
  // exactly when enough patients and sales representatives came; and until it is, only quotas turn
  // visitors away.
  lemma AllSeen(file: seq<Event>, s: State)
    requires Inv(file, s) && Pending(s) == multiset{}
    ensures multiset(s.past) == multiset(file)
    ensures forall k :: 0 <= k < 3 ==> SeenOfRank(s.log, k) == s.lines[k].queue <= OfRank(s.past, k)
    ensures s.over <==> |OfRank(file, PATIENTS)| >= 25 && |OfRank(file, SALES)| >= 3
    ensures forall k :: PATIENTS <= k <= SALES ==>
              |SeenOfRank(s.log, k)| == if |OfRank(file, k)| <= Quota(k) then |OfRank(file, k)| else Quota(k)
    ensures !s.over ==> |SeenOfRank(s.log, REPORTERS)| == |OfRank(file, REPORTERS)|
  {
    assert s.arrivals == multiset{} && s.due == multiset{} by {
      assert forall x :: x in s.arrivals ==> x in Pending(s);
      assert forall x :: x in s.due ==> x in Pending(s);
    }
    forall k: nat | k < 3
      ensures |OfRank(s.past, k)| == |OfRank(file, k)| && SeenOfRank(s.log, k) == s.lines[k].queue <= OfRank(s.past, k)
    {
      RankSizes(s.past, file, k);
      RankSizes(file, s.past, k);
      assert LineOk(s.past, s.over, s.log, k, s.lines[k]);
      assert Waiting(s.lines[k]) == 0;
    }
  }

  // ---------- Termination and the size of the queue ----------

  function AllWaiting(lines: seq<Line>): int
    requires Shaped(lines)
  {
    Waiting(lines[REPORTERS]) + Waiting(lines[PATIENTS]) + Waiting(lines[SALES])
  }

  function Left(s: State): int
    requires Shaped(s.lines)
  {
    3 * |s.arrivals| + 2 * AllWaiting(s.lines) + |s.due|
  }

  lemma ServeCounts(s: State)
    requires Shaped(s.lines)
    ensures 0 <= Left(Serve(s)) <= Left(s)
  {}

  lemma HandleCounts(file: seq<Event>, s: State, e: Event)
    requires Inv(file, s) && First(s, e)
    ensures Left(Handle(s, e)) < Left(s)
  {
    if IsVisitor(e) {
      assert e in s.arrivals;
      assert AllWaiting(Joined(s.lines, e)) == AllWaiting(s.lines) + 1;
    }
  }

  // An arrival may become a waiting visitor, a waiting visitor a visit to end.
  lemma StepLowers(file: seq<Event>, s: State, e: Event)
    requires Inv(file, s) && First(s, e)
    ensures 0 <= Left(Step(s, e)) < Left(s)
  {
    HandleCounts(file, s, e);
    ServeCounts(Handle(s, e));
  }

  lemma QueueFits(file: seq<Event>, s: State)
    requires Inv(file, s)
    ensures |Pending(s)| <= |file| + 1
  {
    assert |multiset(s.past) + s.arrivals| == |file|;
  }

  // ---------- Runs ----------

  ghost predicate Next(s: State, t: State) {
    Shaped(s.lines) && exists e :: First(s, e) && t == Step(s, e)
  }

  ghost predicate IsRun(file: seq<Event>, first: Event, run: seq<State>) {
    && File(file) && first.kind == 'D' && first.time == 0
    && run != [] && run[0] == Init(file, first)
    && forall i :: 0 < i < |run| ==> Next(run[i - 1], run[i])
  }

  // What holds after n steps.
  ghost predicate Holds(file: seq<Event>, s: State, n: int) {
    && Inv(file, s) && 0 <= Left(s) <= 3 * |file| + 1 - n
    && (Patient(file) ==> Timely(file, s))
  }

  lemma InitHolds(file: seq<Event>, first: Event)
    requires File(file) && first.kind == 'D' && first.time == 0
    ensures Holds(file, Init(file, first), 0)
  {
    InitInv(file, first);
  }

  lemma NextHolds(file: seq<Event>, s: State, t: State, n: int)
    requires Holds(file, s, n) && Next(s, t)
    ensures Holds(file, t, n + 1)
  {
    var e :| First(s, e) && t == Step(s, e);
    StepKeeps(file, s, e);
    StepLowers(file, s, e);
    if Patient(file) { StepIsTimely(file, s, e); }
  }

  lemma {:induction false} RunHolds(file: seq<Event>, first: Event, run: seq<State>)
    requires IsRun(file, first, run)
    ensures Holds(file, run[|run| - 1], |run| - 1)
  {
    if |run| == 1 {
      InitHolds(file, first);
    } else {
      var n := |run| - 1;
      assert IsRun(file, first, run[..n]) && run[..n][n - 1] == run[n - 1];
      RunHolds(file, first, run[..n]);
      NextHolds(file, run[n - 1], run[n], n - 1);
    }
  }

  // In every reachable state exactly one of the three holds of the doctor, the queue holds at most
  // the arrivals and one more event, and the loop ends after three times the arrivals and one steps.
  lemma DoctorState(file: seq<Event>, first: Event, run: seq<State>)
    requires IsRun(file, first, run)
    ensures var s := run[|run| - 1];
            && |s.due| + Bit(s.free) + Bit(s.over) == 1
            && |Pending(s)| <= |file| + 1
            && |run| - 1 <= 3 * |file| + 1
  {
    RunHolds(file, first, run);
    QueueFits(file, run[|run| - 1]);
  }

  // With durations that are not negative, no visit begins before its visitor has come, before the
  // session or before the visits ahead of it have ended.
  lemma VisitsDoNotOverlap(file: seq<Event>, first: Event, run: seq<State>, i: nat, j: nat)
    requires IsRun(file, first, run) && Patient(file) && i < j < |run[|run| - 1].log|
    ensures var log := run[|run| - 1].log;
            End(log[i]) <= log[j].start && 0 <= log[j].start && log[j].visitor.time <= log[j].start
  {
    RunHolds(file, first, run);
  }

  // The visits of a class are those of its first visitors, in the order of their arrival times.
  lemma FirstComeFirstServed(file: seq<Event>, first: Event, run: seq<State>, k: nat)
    requires IsRun(file, first, run) && k < 3
    ensures var s := run[|run| - 1];
            && SeenOfRank(s.log, k) <= OfRank(s.past, k)
            && forall i, j :: 0 <= i < j < |SeenOfRank(s.log, k)| ==>
               SeenOfRank(s.log, k)[i].time <= SeenOfRank(s.log, k)[j].time
  {
    RunHolds(file, first, run);
    var s := run[|run| - 1];
    assert LineOk(s.past, s.over, s.log, k, s.lines[k]);
    forall i, j | 0 <= i < j < |OfRank(s.past, k)| ensures OfRank(s.past, k)[i].time <= OfRank(s.past, k)[j].time {
      ClassInOrder(s.past, k, i, j);
    }
  }

  lemma {:induction false} ClassInOrder(past: seq<Event>, k: nat, i: nat, j: nat)
    requires forall i, j :: 0 <= i < j < |past| ==> Before(past[i], past[j])
    requires i < j < |OfRank(past, k)|
    ensures OfRank(past, k)[i].time <= OfRank(past, k)[j].time
  {
    var n := |past| - 1;
    if j < |OfRank(past[..n], k)| {
      ClassInOrder(past[..n], k, i, j);
    } else {
      OfRankIsOfRank(past[..n], k, i);
    }
  }
}
