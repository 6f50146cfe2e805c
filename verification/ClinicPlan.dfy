// The decisions of the event loop as a plan for the threads: the plan is one that the threads carry out
// without deadlock, and the visitors enter in the order of the loop's visits.
module ClinicPlans {
  import opened EventHeaps
  import opened Clinics
  import L = ClinicTheorems
  import T = ClinicThreads

  // The visitors admitted, in order; each has its class and its number in the class.
  function PlanOf(commands: seq<T.Command>, who: seq<Event>): T.Plan {
    T.Plan(commands,
           seq(|who|, v requires 0 <= v < |who| => Rank(who[v].kind)),
           seq(|who|, v requires 0 <= v < |who| => |OfRank(who[..v + 1], Rank(who[v].kind))|))
  }

  // ---------- Numbers in a class ----------

  lemma {:induction false} OfRankGrows(who: seq<Event>, k: nat, i: nat, j: nat)
    requires i <= j <= |who|
    ensures |OfRank(who[..i], k)| <= |OfRank(who[..j], k)|
    ensures i < j && Rank(who[j - 1].kind) == k ==> |OfRank(who[..i], k)| < |OfRank(who[..j], k)|
  {
    if i < j {
      OfRankGrows(who, k, i, j - 1);
      assert who[..j] == who[..j - 1] + [who[j - 1]];
      OfRankAppend(who[..j - 1], who[j - 1], k);
    }
  }

  lemma NumbersAreOk(commands: seq<T.Command>, who: seq<Event>)
    requires File(who)
    ensures T.NumbersOk(PlanOf(commands, who))
  {
    var p := PlanOf(commands, who);
    forall v: nat | v < |who| ensures p.kind[v] < 3 && p.id[v] >= 1 {
      OfRankGrows(who, p.kind[v], v, v + 1);
    }
    forall v: nat, w: nat | v < w < |who| && p.kind[v] == p.kind[w] ensures p.id[v] != p.id[w] {
      OfRankGrows(who, p.kind[w], v + 1, w + 1);
    }
  }

  // The visitor with number j in class k.
  lemma {:induction false} NumberedVisitor(who: seq<Event>, k: nat, j: nat) returns (v: nat)
    requires j < |OfRank(who, k)|
    ensures v < |who| && Rank(who[v].kind) == k && |OfRank(who[..v + 1], k)| == j + 1 && OfRank(who, k)[j] == who[v]
  {
    var n := |who| - 1;
    if j < |OfRank(who[..n], k)| {
      v := NumberedVisitor(who[..n], k, j);
      assert who[..n][..v + 1] == who[..v + 1];
    } else {
      v := n;
      assert who[..n + 1] == who;
    }
  }

  // ---------- Plans grow ----------

  lemma {:induction false} PrefixCounts(p: T.Plan, q: T.Plan, k: nat, pos: nat)
    requires pos <= |p.commands| <= |q.commands| && p.commands == q.commands[..|p.commands|]
    requires |p.kind| <= |q.kind| && p.kind == q.kind[..|p.kind|]
    requires forall i: nat :: i < |p.commands| ==> T.CommandOk(p, i)
    ensures T.Admits(q, pos) == T.Admits(p, pos) && T.Sees(q, k, pos) == T.Sees(p, k, pos)
  {
    if pos > 0 {
      PrefixCounts(p, q, k, pos - 1);
      assert T.CommandOk(p, pos - 1);
      assert q.commands[pos - 1] == p.commands[pos - 1];
    }
  }

  lemma NewcomerCounts(commands: seq<T.Command>, who: seq<Event>, e: Event, k: nat, pos: nat)
    requires T.Valid(PlanOf(commands, who)) && pos <= |commands|
    ensures T.Admits(PlanOf(commands, who + [e]), pos) == T.Admits(PlanOf(commands, who), pos)
    ensures T.Sees(PlanOf(commands, who + [e]), k, pos) == T.Sees(PlanOf(commands, who), k, pos)
  {
    var p, q := PlanOf(commands, who), PlanOf(commands, who + [e]);
    assert p.kind == q.kind[..|p.kind|];
    assert q.commands[..|p.commands|] == p.commands;
    PrefixCounts(p, q, k, pos);
  }

  lemma NewcomerKeepsValid(commands: seq<T.Command>, who: seq<Event>, e: Event)
    requires T.Valid(PlanOf(commands, who)) && File(who + [e])
    ensures T.Valid(PlanOf(commands, who + [e]))
  {
    var p, q := PlanOf(commands, who), PlanOf(commands, who + [e]);
    NumbersAreOk(commands, who + [e]);
    forall i: nat | i < |commands| ensures T.CommandOk(q, i) {
      assert T.CommandOk(p, i);
      NewcomerCounts(commands, who, e, if p.commands[i].See? then p.kind[p.commands[i].v] else 0, i);
      if p.commands[i].See? {
        var v := p.commands[i].v;
        assert (who + [e])[..v + 1] == who[..v + 1];
      }
    }
  }

  predicate Left(commands: seq<T.Command>) {
    exists i :: 0 <= i < |commands| && commands[i].Leave?
  }

  // What a command must satisfy to come next.
  ghost predicate ComesNext(p: T.Plan, c: T.Command) {
    && |p.kind| == |p.id|
    && (c.Admit? ==> c.v == T.Admits(p, |p.commands|) < |p.kind|)
    && (c.See? ==>
          c.v < T.Admits(p, |p.commands|) && c.v < |p.kind|
          && p.id[c.v] == T.Sees(p, p.kind[c.v], |p.commands|) + 1)
  }

  lemma CommandCounts(commands: seq<T.Command>, who: seq<Event>, c: T.Command, k: nat, pos: nat)
    requires T.Valid(PlanOf(commands, who)) && pos <= |commands|
    ensures var p, q := PlanOf(commands, who), PlanOf(commands + [c], who);
            T.Admits(q, pos) == T.Admits(p, pos) && T.Sees(q, k, pos) == T.Sees(p, k, pos)
  {
    var p, q := PlanOf(commands, who), PlanOf(commands + [c], who);
    assert q.kind == p.kind && q.commands[..|commands|] == commands;
    PrefixCounts(p, q, k, pos);
  }

  lemma NextCounts(commands: seq<T.Command>, who: seq<Event>, c: T.Command, k: nat)
    requires T.Valid(PlanOf(commands, who)) && ComesNext(PlanOf(commands, who), c)
    ensures var p, q := PlanOf(commands, who), PlanOf(commands + [c], who);
            && T.Admits(q, |commands| + 1) == T.Admits(p, |commands|) + (if c.Admit? then 1 else 0)
            && T.Sees(q, k, |commands| + 1) == T.Sees(p, k, |commands|) + if c.See? && p.kind[c.v] == k then 1 else 0
  {
    CommandCounts(commands, who, c, k, |commands|);
    assert (commands + [c])[|commands|] == c;
  }

  lemma NextKeepsEnd(commands: seq<T.Command>, who: seq<Event>, c: T.Command)
    requires T.EndsOnce(PlanOf(commands, who)) && (Left(commands) ==> c.Tick?)
    ensures T.EndsOnce(PlanOf(commands + [c], who)) && (Left(commands + [c]) <==> Left(commands) || c.Leave?)
  {
    var p, q := PlanOf(commands, who), PlanOf(commands + [c], who);
    if Left(commands) {
      var i :| 0 <= i < |commands| && commands[i].Leave?;
      assert (commands + [c])[i].Leave?;
    }
    if c.Leave? { assert (commands + [c])[|commands|].Leave?; }
    forall i, j | 0 <= i < j < |commands| + 1 && q.commands[i].Leave? ensures q.commands[j].Tick? {
      assert commands[i].Leave?;
      if j < |commands| { assert p.commands[i].Leave? && q.commands[j] == p.commands[j]; }
    }
  }

  lemma NextKeepsValid(commands: seq<T.Command>, who: seq<Event>, c: T.Command)
    requires T.Valid(PlanOf(commands, who)) && ComesNext(PlanOf(commands, who), c)
    requires File(who) && (Left(commands) ==> c.Tick?)
    ensures T.Valid(PlanOf(commands + [c], who))
  {
    var p, q := PlanOf(commands, who), PlanOf(commands + [c], who);
    NumbersAreOk(commands + [c], who);
    NextKeepsEnd(commands, who, c);
    forall i: nat | i <= |commands| ensures T.CommandOk(q, i) {
      if i < |commands| { assert T.CommandOk(p, i) && q.commands[i] == p.commands[i]; }
      CommandCounts(commands, who, c, if q.commands[i].See? then p.kind[q.commands[i].v] else 0, i);
    }
  }

  // ---------- The plan of the event loop ----------

  // The visitors whom the plan lets see the doctor, in order.
  function SeenBy(commands: seq<T.Command>, who: seq<Event>): seq<Event> {
    if commands == [] then []
    else
      var n := |commands| - 1;
      SeenBy(commands[..n], who)
      + if commands[n].See? && commands[n].v < |who| then [who[commands[n].v]] else []
  }

  function Visitors(log: seq<Visit>): (r: seq<Event>)
    ensures |r| == |log|
  {
    seq(|log|, i requires 0 <= i < |log| => log[i].visitor)
  }

  // The plan so far agrees with the loop so far.
  ghost predicate Linked(s: State, commands: seq<T.Command>, who: seq<Event>) {
    var p := PlanOf(commands, who);
    && Shaped(s.lines) && File(who) && T.Valid(p) && T.Admits(p, |commands|) == |who|
    && (forall k: nat :: k < 3 ==> s.lines[k].queue == OfRank(who, k) && T.Sees(p, k, |commands|) == s.lines[k].served)
    && (Left(commands) <==> s.over)
    && SeenBy(commands, who) == Visitors(s.log)
  }

  lemma {:induction false} SeenByOthers(commands: seq<T.Command>, who: seq<Event>, e: Event)
    requires forall i :: 0 <= i < |commands| && commands[i].See? ==> commands[i].v < |who|
    ensures SeenBy(commands, who + [e]) == SeenBy(commands, who)
  {
    if commands != [] { SeenByOthers(commands[..|commands| - 1], who, e); }
  }

  lemma TickLinks(s: State, t: State, commands: seq<T.Command>, who: seq<Event>, c: T.Command)
    requires Linked(s, commands, who) && (c.Tick? || (c.Leave? && !s.over))
    requires t.lines == s.lines && t.log == s.log && (t.over <==> s.over || c.Leave?)
    ensures Linked(t, commands + [c], who)
  {
    NextKeepsValid(commands, who, c);
    NextKeepsEnd(commands, who, c);
    forall k: nat | k < 3 ensures T.Sees(PlanOf(commands + [c], who), k, |commands| + 1) == s.lines[k].served {
      NextCounts(commands, who, c, k);
    }
    NextCounts(commands, who, c, 0);
    assert (commands + [c])[..|commands|] == commands;
  }

  lemma AdmitLinks(s: State, t: State, commands: seq<T.Command>, who: seq<Event>, e: Event)
    requires Linked(s, commands, who) && IsVisitor(e) && !s.over
    requires t.lines == Joined(s.lines, e) && t.log == s.log && t.over == s.over
    ensures Linked(t, commands + [T.Admit(|who|)], who + [e])
  {
    var c := T.Admit(|who|);
    NewcomerCounts(commands, who, e, 0, |commands|);
    NewcomerKeepsValid(commands, who, e);
    NextKeepsValid(commands, who + [e], c);
    NextKeepsEnd(commands, who + [e], c);
    NextCounts(commands, who + [e], c, 0);
    forall k: nat | k < 3
      ensures t.lines[k].queue == OfRank(who + [e], k)
      ensures T.Sees(PlanOf(commands + [c], who + [e]), k, |commands| + 1) == t.lines[k].served
    {
      OfRankAppend(who, e, k);
      NewcomerCounts(commands, who, e, k, |commands|);
      NextCounts(commands, who + [e], c, k);
    }
    forall i | 0 <= i < |commands| && commands[i].See? ensures commands[i].v < |who| {
      assert T.CommandOk(PlanOf(commands, who), i);
    }
    SeenByOthers(commands, who, e);
    assert (commands + [c])[..|commands|] == commands;
  }

  lemma SeeCounts(s: State, commands: seq<T.Command>, who: seq<Event>, k: nat, v: nat)
    requires Linked(s, commands, who) && k < 3 && Waiting(s.lines[k]) > 0
    requires ComesNext(PlanOf(commands, who), T.See(v)) && Rank(who[v].kind) == k
    ensures forall j: nat :: j < 3 ==>
              T.Sees(PlanOf(commands + [T.See(v)], who), j, |commands| + 1) == See(s, k).lines[j].served
  {
    forall j: nat | j < 3
      ensures T.Sees(PlanOf(commands + [T.See(v)], who), j, |commands| + 1) == See(s, k).lines[j].served
    {
      NextCounts(commands, who, T.See(v), j);
    }
  }

  lemma SeeLinks(s: State, commands: seq<T.Command>, who: seq<Event>, k: nat) returns (c: T.Command)
    requires Linked(s, commands, who) && !s.over && k < 3 && Waiting(s.lines[k]) > 0
    ensures Linked(See(s, k), commands + [c], who)
  {
    var v := NumberedVisitor(who, k, s.lines[k].served);
    c := T.See(v);
    NextKeepsValid(commands, who, c);
    NextKeepsEnd(commands, who, c);
    NextCounts(commands, who, c, 0);
    SeeCounts(s, commands, who, k, v);
    assert (commands + [c])[..|commands|] == commands;
    assert Visitors(See(s, k).log) == Visitors(s.log) + [who[v]];
  }

  lemma ServeLinks(s: State, commands: seq<T.Command>, who: seq<Event>) returns (c: T.Command)
    requires Linked(s, commands, who) && !s.over
    ensures Linked(Serve(s), commands + [c], who)
  {
    if s.free && Waiting(s.lines[REPORTERS]) > 0 {
      c := SeeLinks(s, commands, who, REPORTERS);
    } else if s.free && Waiting(s.lines[PATIENTS]) > 0 {
      c := SeeLinks(s, commands, who, PATIENTS);
    } else if s.free && Waiting(s.lines[SALES]) > 0 {
      c := SeeLinks(s, commands, who, SALES);
    } else {
      c := T.Tick;
      TickLinks(s, s, commands, who, c);
    }
  }

  lemma StepLinks(file: seq<Event>, s: State, e: Event, commands: seq<T.Command>, who: seq<Event>)
    returns (commands': seq<T.Command>, who': seq<Event>)
    requires Inv(file, s) && First(s, e) && Linked(s, commands, who)
    ensures Linked(Step(s, e), commands', who')
  {
    var h := Handle(s, e);
    if !GoesOn(s, e) {
      var c := if IsVisitor(e) then T.Tick else T.Leave;
      TickLinks(s, h, commands, who, c);
      commands', who' := commands + [c], who;
    } else {
      if IsVisitor(e) {
        AdmitLinks(s, h, commands, who, e);
        commands', who' := commands + [T.Admit(|who|)], who + [e];
      } else {
        TickLinks(s, h, commands, who, T.Tick);
        commands', who' := commands + [T.Tick], who;
      }
      var c := ServeLinks(h, commands', who');
      commands' := commands' + [c];
    }
  }

  lemma NothingLinked(file: seq<Event>, first: Event)
    ensures Linked(Init(file, first), [], [])
  {}

  lemma NextLinks(file: seq<Event>, s: State, s': State, commands: seq<T.Command>, who: seq<Event>)
    returns (commands': seq<T.Command>, who': seq<Event>)
    requires Inv(file, s) && L.Next(s, s') && Linked(s, commands, who)
    ensures Linked(s', commands', who')
  {
    var e :| First(s, e) && s' == Step(s, e);
    commands', who' := StepLinks(file, s, e, commands, who);
  }

  // Every run of the event loop decides on a plan that the threads can carry out.
  lemma {:induction false} PlanOfRun(file: seq<Event>, first: Event, run: seq<State>)
    returns (commands: seq<T.Command>, who: seq<Event>)
    requires L.IsRun(file, first, run)
    ensures Linked(run[|run| - 1], commands, who)
  {
    var n := |run| - 1;
    if n == 0 {
      commands, who := [], [];
      NothingLinked(file, first);
    } else {
      assert L.IsRun(file, first, run[..n]) && run[..n][n - 1] == run[n - 1];
      commands, who := PlanOfRun(file, first, run[..n]);
      L.RunHolds(file, first, run[..n]);
      commands, who := NextLinks(file, run[n - 1], run[n], commands, who);
    }
  }

  // ---------- What the threads print for it ----------

  // Two lines for each visit, the second that of its visitor, and a last one exactly if the doctor has left.
  ghost predicate Shows(lines: seq<T.Line>, who: seq<Event>, visitors: seq<Event>, over: bool) {
    && |lines| == 2 * |visitors| + (if over then 1 else 0)
    && (forall i: nat :: i < |visitors| ==>
          && lines[2 * i] == T.DoctorHasVisitor
          && lines[2 * i + 1].Enters? && lines[2 * i + 1].v < |who| && who[lines[2 * i + 1].v] == visitors[i])
    && (over ==> lines[2 * |visitors|] == T.DoctorLeaves)
  }

  lemma ShowsVisit(lines: seq<T.Line>, who: seq<Event>, visitors: seq<Event>, v: nat)
    requires Shows(lines, who, visitors, false) && v < |who|
    ensures Shows(lines + [T.DoctorHasVisitor, T.Enters(v)], who, visitors + [who[v]], false)
  {
    var n, next, seen := |visitors|, lines + [T.DoctorHasVisitor, T.Enters(v)], visitors + [who[v]];
    forall i: nat | i < |seen|
      ensures next[2 * i] == T.DoctorHasVisitor
      ensures next[2 * i + 1].Enters? && next[2 * i + 1].v < |who| && who[next[2 * i + 1].v] == seen[i]
    {
      if i == n {
        assert next[2 * n] == T.DoctorHasVisitor && next[2 * n + 1] == T.Enters(v);
      } else {
        assert next[2 * i] == lines[2 * i] && next[2 * i + 1] == lines[2 * i + 1];
      }
    }
  }

  lemma LeftAppend(commands: seq<T.Command>, c: T.Command)
    ensures Left(commands + [c]) <==> Left(commands) || c.Leave?
  {
    if Left(commands) {
      var i :| 0 <= i < |commands| && commands[i].Leave?;
      assert (commands + [c])[i].Leave?;
    }
    if c.Leave? { assert (commands + [c])[|commands|].Leave?; }
  }

  lemma {:induction false} ExpectedShows(p: T.Plan, who: seq<Event>, pos: nat)
    requires T.Valid(p) && |p.kind| == |who| && pos <= |p.commands|
    ensures Shows(T.Expected(p, pos), who, SeenBy(p.commands[..pos], who), Left(p.commands[..pos]))
  {
    if pos > 0 {
      ExpectedShows(p, who, pos - 1);
      var c, commands := p.commands[pos - 1], p.commands[..pos - 1];
      assert p.commands[..pos][..pos - 1] == commands;
      assert p.commands[..pos] == commands + [c];
      LeftAppend(commands, c);
      assert T.CommandOk(p, pos - 1);
      if Left(commands) {
        var i :| 0 <= i < |commands| && commands[i].Leave?;
        assert p.commands[i].Leave? && c.Tick?;
      }
      if c.See? { ShowsVisit(T.Expected(p, pos - 1), who, SeenBy(commands, who), c.v); }
    }
  }

  // Whatever the interleaving, threads that have carried out the plan of a run of the event loop have printed its
  // visits, in its order and nothing else, and the doctor's leaving exactly if the session is over.
  lemma ThreadsShowTheVisits(s: State, commands: seq<T.Command>, who: seq<Event>, threads: seq<T.State>)
    requires Linked(s, commands, who) && T.IsRun(PlanOf(commands, who), threads)
    requires threads[|threads| - 1].pos == |commands|
    ensures Shows(threads[|threads| - 1].log, who, Visitors(s.log), s.over)
  {
    T.PrintsThePlan(PlanOf(commands, who), threads);
    ExpectedShows(PlanOf(commands, who), who, |commands|);
    assert commands[..|commands|] == commands;
  }
}
