// The visits of a whole day at the clinic: who is seen, in which order and when.
module ClinicDays {
  import opened EventHeaps
  import opened Clinics
  import opened ClinicTheorems

  // When the doctor has come, or the visit before visit i has ended.
  function DoctorFrom(log: seq<Visit>, i: nat): int
    requires i <= |log|
  {
    if i == 0 then 0 else End(log[i - 1])
  }

  // Both quotas have been seen.
  ghost predicate Full(log: seq<Visit>) {
    |SeenOfRank(log, PATIENTS)| == 25 && |SeenOfRank(log, SALES)| == 3
  }

  // ---------- What a visit means for itself and for those who are seen later ----------

  // It begins when the doctor gets ready, or, unless the quotas have been seen, when its visitor comes.
  ghost predicate Prompt(log: seq<Visit>, i: nat)
    requires i < |log|
  {
    log[i].start == DoctorFrom(log, i) || (log[i].start == log[i].visitor.time && !Full(log[..i]))
  }

  // A visitor of a better class who is seen later came after it had begun, and nobody who is seen later had
  // come while the doctor was free.
  predicate Behind(v: Visit, ready: int, x: Event) {
    && (Rank(x.kind) < Rank(v.visitor.kind) ==> v.start < x.time)
    && (v.start != ready ==> v.start <= x.time)
  }

  ghost predicate InOrder(log: seq<Visit>) {
    && (forall i: nat :: i < |log| ==> Prompt(log, i))
    && forall i: nat, j: nat :: i < j < |log| ==> Behind(log[i], DoctorFrom(log, i), log[j].visitor)
  }

  lemma InOrderGrows(log: seq<Visit>, v: Visit)
    requires InOrder(log)
    requires v.start == DoctorFrom(log, |log|) || (v.start == v.visitor.time && !Full(log))
    requires forall i: nat :: i < |log| ==> Behind(log[i], DoctorFrom(log, i), v.visitor)
    ensures InOrder(log + [v])
  {
    var log' := log + [v];
    forall i: nat | i < |log'| ensures Prompt(log', i) {
      if i < |log| {
        assert log'[..i] == log[..i] && Prompt(log, i);
      } else {
        assert log'[..i] == log;
      }
    }
    forall i: nat, j: nat | i < j < |log'| ensures Behind(log'[i], DoctorFrom(log', i), log'[j].visitor) {
      assert DoctorFrom(log', i) == DoctorFrom(log, i);
    }
  }

  // Those who wait and those who are to come are behind.
  ghost predicate AllBehind(s: State, v: Visit, ready: int)
    requires Shaped(s.lines)
  {
    && (forall x :: x in s.arrivals ==> Behind(v, ready, x))
    && (forall k, p :: 0 <= k < 3 && s.lines[k].served <= p < |s.lines[k].queue| ==>
        Behind(v, ready, s.lines[k].queue[p]))
  }

  // The doctor's next event is the end of the last visit.
  ghost predicate Tidy(s: State) {
    && Shaped(s.lines) && InOrder(s.log)
    && (forall d :: d in s.due ==> d.time == DoctorFrom(s.log, |s.log|))
    && (forall i: nat :: i < |s.log| ==> AllBehind(s, s.log[i], DoctorFrom(s.log, i)))
  }

  lemma HandleBehind(file: seq<Event>, s: State, e: Event, v: Visit, ready: int)
    requires Inv(file, s) && First(s, e) && AllBehind(s, v, ready)
    ensures AllBehind(Handle(s, e), v, ready)
  {
    assert forall x :: x in Handle(s, e).arrivals ==> x in s.arrivals;
    assert IsVisitor(e) ==> e in s.arrivals;
  }

  lemma HandleIsTidy(file: seq<Event>, s: State, e: Event)
    requires Inv(file, s) && First(s, e) && Tidy(s)
    ensures Tidy(Handle(s, e))
  {
    forall i: nat | i < |s.log| ensures AllBehind(Handle(s, e), s.log[i], DoctorFrom(s.log, i)) {
      HandleBehind(file, s, e, s.log[i], DoctorFrom(s.log, i));
    }
  }

  // ---------- When the doctor is free ----------

  // After event e: the doctor has just got ready, or the quotas have not been seen and whoever waits has just
  // come, alone.
  ghost predicate Ready(h: State, e: Event)
    requires Shaped(h.lines)
  {
    && h.now == e.time && h.due == multiset{}
    && (forall x :: x in h.arrivals ==> e.time <= x.time)
    && (forall x, k :: x in h.arrivals && Rank(x.kind) < k < 3 && Waiting(h.lines[k]) > 0 ==> e.time < x.time)
    && (h.now == DoctorFrom(h.log, |h.log|)
        || (!Full(h.log)
            && forall k :: 0 <= k < 3 && Waiting(h.lines[k]) > 0 ==> Waiting(h.lines[k]) == 1 && k == Rank(e.kind)
                                                                      && NextVisitor(h.lines[k]) == e))
  }

  lemma DoctorGetsReady(file: seq<Event>, s: State, e: Event)
    requires Inv(file, s) && First(s, e) && Tidy(s) && !IsVisitor(e)
    ensures Ready(Handle(s, e), e)
  {
    assert e in s.due && |s.due| == 1;
    assert forall x :: x in s.arrivals ==> x in Pending(s);
  }

  lemma QuotasSeen(file: seq<Event>, s: State)
    requires Inv(file, s) && s.free
    ensures !Full(s.log)
  {
    assert LineOk(s.past, s.over, s.log, PATIENTS, s.lines[PATIENTS]);
    assert LineOk(s.past, s.over, s.log, SALES, s.lines[SALES]);
  }

  lemma VisitorIsAlone(file: seq<Event>, s: State, e: Event)
    requires Inv(file, s) && First(s, e) && IsVisitor(e) && GoesOn(s, e) && s.free
    ensures Ready(Handle(s, e), e)
  {
    QuotasSeen(file, s);
    var h := Handle(s, e);
    forall x | x in h.arrivals ensures Before(e, x) {
      assert x in s.arrivals && x in Pending(s);
    }
  }

  // ---------- Every step keeps it ----------

  lemma ServedIsBehind(h: State, k: nat, v: Visit, ready: int)
    requires Shaped(h.lines) && k < 3 && Waiting(h.lines[k]) > 0 && AllBehind(h, v, ready)
    ensures AllBehind(See(h, k), v, ready) && Behind(v, ready, NextVisitor(h.lines[k]))
  {}

  lemma WaitingRank(file: seq<Event>, h: State, k: nat, p: nat)
    requires Between(file, h) && k < 3 && p < |h.lines[k].queue|
    ensures Rank(h.lines[k].queue[p].kind) == k
  {
    assert LineOk(h.past, h.over, h.log, k, h.lines[k]);
    OfRankIsOfRank(h.past, k, p);
    assert h.lines[k].queue[p] == OfRank(h.past, k)[p];
  }

  lemma NewVisitFirst(file: seq<Event>, h: State, e: Event)
    requires Between(file, h) && h.free && Ready(h, e) && FirstClass(h.lines) < 3
    ensures var k := FirstClass(h.lines);
            AllBehind(See(h, k), Visit(NextVisitor(h.lines[k]), h.now), DoctorFrom(h.log, |h.log|))
  {
    var k := FirstClass(h.lines);
    var v, t := Visit(NextVisitor(h.lines[k]), h.now), See(h, k);
    WaitingRank(file, h, k, h.lines[k].served);
    forall l: nat, p: nat | l < 3 && t.lines[l].served <= p < |t.lines[l].queue|
      ensures Behind(v, DoctorFrom(h.log, |h.log|), t.lines[l].queue[p])
    {
      WaitingRank(file, h, l, p);
      assert Waiting(h.lines[l]) > 0;
    }
  }

  lemma StillBehind(h: State, k: nat, i: nat)
    requires Shaped(h.lines) && k < 3 && Waiting(h.lines[k]) > 0
    requires i < |h.log| ==> AllBehind(h, h.log[i], DoctorFrom(h.log, i))
    requires i == |h.log| ==> AllBehind(See(h, k), Visit(NextVisitor(h.lines[k]), h.now), DoctorFrom(h.log, |h.log|))
    requires i < |See(h, k).log|
    ensures AllBehind(See(h, k), See(h, k).log[i], DoctorFrom(See(h, k).log, i))
  {
    assert DoctorFrom(See(h, k).log, i) == DoctorFrom(h.log, i);
    if i < |h.log| { ServedIsBehind(h, k, h.log[i], DoctorFrom(h.log, i)); }
  }

  lemma SeeIsTidy(file: seq<Event>, h: State, e: Event)
    requires Between(file, h) && h.free && !h.over && Tidy(h) && Ready(h, e) && FirstClass(h.lines) < 3
    ensures Tidy(See(h, FirstClass(h.lines)))
  {
    var k := FirstClass(h.lines);
    var v := Visit(NextVisitor(h.lines[k]), h.now);
    NewVisitFirst(file, h, e);
    forall i: nat | i < |h.log| ensures Behind(h.log[i], DoctorFrom(h.log, i), v.visitor) {
      ServedIsBehind(h, k, h.log[i], DoctorFrom(h.log, i));
    }
    InOrderGrows(h.log, v);
    forall i: nat | i < |See(h, k).log| ensures AllBehind(See(h, k), See(h, k).log[i], DoctorFrom(See(h, k).log, i)) {
      StillBehind(h, k, i);
    }
  }

  lemma StepIsTidy(file: seq<Event>, s: State, e: Event)
    requires Inv(file, s) && First(s, e) && Tidy(s)
    ensures Tidy(Step(s, e))
  {
    HandleKeeps(file, s, e);
    HandleIsTidy(file, s, e);
    var h := Handle(s, e);
    if GoesOn(s, e) && h.free && !h.over && FirstClass(h.lines) < 3 {
      if IsVisitor(e) { VisitorIsAlone(file, s, e); } else { DoctorGetsReady(file, s, e); }
      SeeIsTidy(file, h, e);
    }
  }

  // ---------- The end of the session ----------

  // Reporters who are not seen came after the last visit.
  ghost predicate LateReporters(s: State) {
    s.over ==>
      && s.log != []
      && (forall x :: x in s.arrivals ==> End(s.log[|s.log| - 1]) < x.time)
      && forall p :: |SeenOfRank(s.log, REPORTERS)| <= p < |OfRank(s.past, REPORTERS)| ==>
           End(s.log[|s.log| - 1]) < OfRank(s.past, REPORTERS)[p].time
  }

  lemma SessionEndsTidy(file: seq<Event>, s: State, e: Event)
    requires Inv(file, s) && First(s, e) && Tidy(s) && !IsVisitor(e) && LateReporters(s)
    ensures LateReporters(Handle(s, e))
  {
    assert e in s.due && !s.over;
    if SessionEnds(s.lines) {
      assert LineOk(s.past, s.over, s.log, PATIENTS, s.lines[PATIENTS]);
      assert LineOk(s.past, s.over, s.log, REPORTERS, s.lines[REPORTERS]);
      assert s.log != [];
      forall x | x in s.arrivals ensures e.time < x.time {
        assert x in Pending(s) && Before(e, x);
      }
    }
  }

  lemma ArrivalKeepsLate(s: State, e: Event)
    requires Shaped(s.lines) && LateReporters(s) && IsVisitor(e) && e in s.arrivals
    ensures LateReporters(Handle(s, e))
  {
    OfRankAppend(s.past, e, REPORTERS);
    assert forall x :: x in Handle(s, e).arrivals ==> x in s.arrivals;
  }

  lemma ServeKeepsLate(h: State)
    requires Shaped(h.lines) && LateReporters(h)
    ensures LateReporters(Serve(h))
  {}

  lemma StepKeepsLate(file: seq<Event>, s: State, e: Event)
    requires Inv(file, s) && First(s, e) && Tidy(s) && LateReporters(s)
    ensures LateReporters(Step(s, e))
  {
    if IsVisitor(e) { ArrivalKeepsLate(s, e); } else { SessionEndsTidy(file, s, e); }
    ServeKeepsLate(Handle(s, e));
  }

  // ---------- The day ----------

  ghost predicate DayState(file: seq<Event>, s: State) {
    Inv(file, s) && Tidy(s) && LateReporters(s) && (Patient(file) ==> Timely(file, s))
  }

  lemma NextKeepsDay(file: seq<Event>, s: State, t: State)
    requires DayState(file, s) && Next(s, t)
    ensures DayState(file, t)
  {
    var e :| First(s, e) && t == Step(s, e);
    StepKeeps(file, s, e);
    StepIsTidy(file, s, e);
    StepKeepsLate(file, s, e);
    if Patient(file) { StepIsTimely(file, s, e); }
  }

  lemma {:induction false} RunDayState(file: seq<Event>, first: Event, run: seq<State>)
    requires IsRun(file, first, run)
    ensures DayState(file, run[|run| - 1])
  {
    var n := |run| - 1;
    if n == 0 {
      InitInv(file, first);
    } else {
      assert IsRun(file, first, run[..n]) && run[..n][n - 1] == run[n - 1];
      RunDayState(file, first, run[..n]);
      NextKeepsDay(file, run[n - 1], run[n]);
    }
  }

  // run leads from s to t.
  ghost predicate LeadsTo(run: seq<State>, s: State, t: State) {
    && run != [] && run[0] == s && run[|run| - 1] == t
    && forall i :: 0 < i < |run| ==> Next(run[i - 1], run[i])
  }

  lemma LeadsOn(run: seq<State>, s: State, t: State, u: State)
    requires LeadsTo(run, s, t) && Next(t, u)
    ensures LeadsTo(run + [u], s, u)
  {}

  // Who is seen, of everybody in the order of arrival: the first of each class, as many patients and sales
  // representatives as their quotas allow; the session is over if enough of them came, and then reporters
  // who come after its last visit are sent away.
  ghost predicate SeesTheFirst(file: seq<Event>, order: seq<Event>, visits: seq<Visit>, over: bool) {
    && multiset(order) == multiset(file) && (forall i, j :: 0 <= i < j < |order| ==> Before(order[i], order[j]))
    && (forall i :: 0 <= i < |visits| ==> IsVisitor(visits[i].visitor))
    && (forall k :: 0 <= k < 3 ==> SeenOfRank(visits, k) <= OfRank(order, k))
    && (forall k :: PATIENTS <= k <= SALES ==>
        |SeenOfRank(visits, k)| == if |OfRank(file, k)| <= Quota(k) then |OfRank(file, k)| else Quota(k))
    && (over <==> |OfRank(file, PATIENTS)| >= 25 && |OfRank(file, SALES)| >= 3)
    && (!over ==> |SeenOfRank(visits, REPORTERS)| == |OfRank(file, REPORTERS)|)
    && (over ==>
        && visits != []
        && forall p :: |SeenOfRank(visits, REPORTERS)| <= p < |OfRank(order, REPORTERS)| ==>
             End(visits[|visits| - 1]) < OfRank(order, REPORTERS)[p].time)
  }

  // The day's visits; with durations that are not negative they do not overlap.
  ghost predicate IsDay(file: seq<Event>, order: seq<Event>, visits: seq<Visit>, over: bool) {
    SeesTheFirst(file, order, visits, over) && InOrder(visits) && (Patient(file) ==> LogOk(visits))
  }

  lemma DayOfRun(file: seq<Event>, first: Event, run: seq<State>)
    requires IsRun(file, first, run) && Pending(run[|run| - 1]) == multiset{}
    ensures var s := run[|run| - 1]; IsDay(file, s.past, s.log, s.over)
  {
    RunDayState(file, first, run);
    AllSeen(file, run[|run| - 1]);
  }

  // A visit begins at the later of the times at which its visitor comes and the doctor gets ready.
  lemma StartsExactly(file: seq<Event>, order: seq<Event>, visits: seq<Visit>, over: bool, i: nat)
    requires IsDay(file, order, visits, over) && Patient(file) && i < |visits|
    ensures var (comes, ready) := (visits[i].visitor.time, DoctorFrom(visits, i));
            visits[i].start == if comes < ready then ready else comes
  {
    assert Prompt(visits, i);
    if i > 0 { assert End(visits[i - 1]) <= visits[i].start; }
  }

  // ---------- The day is determined by the arrivals ----------

  lemma {:induction false} SeenSoFar(log: seq<Visit>, i: nat, k: nat)
    requires i <= |log|
    ensures |SeenOfRank(log[..i], k)| <= |SeenOfRank(log, k)|
    ensures SeenOfRank(log[..i], k) == SeenOfRank(log, k)[..|SeenOfRank(log[..i], k)|]
    ensures i < |log| && Rank(log[i].visitor.kind) == k ==>
              |SeenOfRank(log[..i], k)| < |SeenOfRank(log, k)|
              && log[i].visitor == SeenOfRank(log, k)[|SeenOfRank(log[..i], k)|]
  {
    var n := |log| - 1;
    if i == |log| {
      assert log[..i] == log;
    } else {
      SeenSoFar(log[..n], i, k);
      assert log[..n][..i] == log[..i];
    }
  }

  // Visitor number p of class k, if not seen at the first i visits, is seen at a later one.
  lemma {:induction false} SeenLater(log: seq<Visit>, i: nat, k: nat, p: nat) returns (j: nat)
    requires i <= |log| && |SeenOfRank(log[..i], k)| <= p < |SeenOfRank(log, k)|
    ensures i <= j < |log| && Rank(log[j].visitor.kind) == k && log[j].visitor == SeenOfRank(log, k)[p]
  {
    var n := |log| - 1;
    assert log[..|log|] == log;
    if p < |SeenOfRank(log[..n], k)| {
      assert log[..n][..i] == log[..i];
      j := SeenLater(log[..n], i, k, p);
    } else {
      j := n;
    }
  }

  // Whoever is next of a better class than that of visit i came after it had begun.
  lemma BetterCameLater(file: seq<Event>, order: seq<Event>, over: bool, w: seq<Visit>, i: nat, k: nat)
    requires Patient(file) && IsDay(file, order, w, over) && i < |w| && k < Rank(w[i].visitor.kind)
    requires |SeenOfRank(w[..i], k)| < |OfRank(order, k)|
    requires (over && k == REPORTERS) || |SeenOfRank(w[..i], k)| < |SeenOfRank(w, k)|
    ensures w[i].start < OfRank(order, k)[|SeenOfRank(w[..i], k)|].time
  {
    SeenSoFar(w, i, k);
    if |SeenOfRank(w[..i], k)| < |SeenOfRank(w, k)| {
      var j := SeenLater(w, i, k, |SeenOfRank(w[..i], k)|);
      assert i < j;
      assert Behind(w[i], DoctorFrom(w, i), w[j].visitor);
    } else {
      assert w[i].start <= End(w[i]) <= End(w[|w| - 1]);
    }
  }

  // The doctor does not wait while somebody is there who is seen later.
  lemma WorseDoesNotWait(v: seq<Visit>, i: nat, k: nat)
    requires InOrder(v) && i < |v| && |SeenOfRank(v[..i], k)| < |SeenOfRank(v, k)|
    ensures v[i].start == DoctorFrom(v, i)
            || v[i].start <= SeenOfRank(v, k)[|SeenOfRank(v[..i], k)|].time
  {
    var j := SeenLater(v, i, k, |SeenOfRank(v[..i], k)|);
    if i < j {
      assert Behind(v[i], DoctorFrom(v, i), v[j].visitor);
    } else {
      assert Prompt(v, i);
    }
  }

  // As many of class k are seen on either day, but perhaps of the reporters when the session has ended.
  lemma SameNumbers(file: seq<Event>, order: seq<Event>, over: bool, v: seq<Visit>, w: seq<Visit>, k: nat)
    requires IsDay(file, order, v, over) && IsDay(file, order, w, over) && k < 3 && !(over && k == REPORTERS)
    ensures SeenOfRank(v, k) == SeenOfRank(w, k)
  {}

  // Two days that agree on the first i visits agree on the class of the next.
  lemma WorseIsNotNext(file: seq<Event>, order: seq<Event>, over: bool, v: seq<Visit>, w: seq<Visit>, i: nat)
    requires Patient(file) && IsDay(file, order, v, over) && IsDay(file, order, w, over)
    requires i < |v| && i < |w| && v[..i] == w[..i]
    ensures Rank(v[i].visitor.kind) >= Rank(w[i].visitor.kind)
  {
    var a, b := Rank(v[i].visitor.kind), Rank(w[i].visitor.kind);
    if a < b {
      SeenSoFar(v, i, a);
      SeenSoFar(w, i, b);
      SameNumbers(file, order, over, v, w, b);
      if !(over && a == REPORTERS) { SameNumbers(file, order, over, v, w, a); }
      BetterCameLater(file, order, over, w, i, a);
      WorseDoesNotWait(v, i, b);
      StartsExactly(file, order, v, over, i);
      StartsExactly(file, order, w, over, i);
    }
  }

  lemma SameVisit(file: seq<Event>, order: seq<Event>, over: bool, v: seq<Visit>, w: seq<Visit>, i: nat)
    requires Patient(file) && IsDay(file, order, v, over) && IsDay(file, order, w, over)
    requires i < |v| && i < |w| && v[..i] == w[..i]
    ensures v[i] == w[i]
  {
    WorseIsNotNext(file, order, over, v, w, i);
    WorseIsNotNext(file, order, over, w, v, i);
    var k := Rank(v[i].visitor.kind);
    SeenSoFar(v, i, k);
    SeenSoFar(w, i, k);
    StartsExactly(file, order, v, over, i);
    StartsExactly(file, order, w, over, i);
    assert DoctorFrom(v, i) == DoctorFrom(w, i) by {
      if i > 0 { assert v[i - 1] == v[..i][i - 1] == w[..i][i - 1]; }
    }
  }

  // No day goes on after another has ended.
  lemma SameLength(file: seq<Event>, order: seq<Event>, over: bool, v: seq<Visit>, w: seq<Visit>)
    requires Patient(file) && IsDay(file, order, v, over) && IsDay(file, order, w, over)
    requires w <= v
    ensures v == w
  {
    var i := |w|;
    if i < |v| {
      var k := Rank(v[i].visitor.kind);
      assert v[..i] == w;
      SeenSoFar(v, i, k);
      if !(over && k == REPORTERS) {
        SameNumbers(file, order, over, v, w, k);
      } else {
        StartsExactly(file, order, v, over, i);
        assert Prompt(v, i) && Full(w);
      }
    }
  }

  lemma {:induction false} SamePrefix(file: seq<Event>, order: seq<Event>, over: bool, v: seq<Visit>, w: seq<Visit>,
                                      i: nat)
    requires Patient(file) && IsDay(file, order, v, over) && IsDay(file, order, w, over)
    requires i <= |v| && i <= |w|
    ensures v[..i] == w[..i]
  {
    if i > 0 {
      SamePrefix(file, order, over, v, w, i - 1);
      SameVisit(file, order, over, v, w, i - 1);
    }
  }

  // With durations that are not negative, the arrivals in their order determine all visits.
  lemma DayIsDetermined(file: seq<Event>, order: seq<Event>, v: seq<Visit>, over: bool, w: seq<Visit>, over': bool)
    requires Patient(file) && IsDay(file, order, v, over) && IsDay(file, order, w, over')
    ensures v == w && over == over'
  {
    if |w| <= |v| {
      SamePrefix(file, order, over, v, w, |w|);
      assert w <= v by { assert w[..|w|] == w; }
      SameLength(file, order, over, v, w);
    } else {
      SamePrefix(file, order, over, v, w, |v|);
      assert v <= w by { assert v[..|v|] == v; }
      SameLength(file, order, over, w, v);
    }
  }
}
