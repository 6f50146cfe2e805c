// The clinic's event loop: one step takes the first event, brings the doctor or a visitor in, and
// lets a free doctor see the next visitor. The threads that announce the visits are in ClinicThreads.
module Clinics {
  import opened EventHeaps

  // A class of visitors: everybody admitted so far, in order, and how many of them have been seen.
  datatype Line = Line(queue: seq<Event>, served: nat)

  datatype Visit = Visit(visitor: Event, start: int)

  // arrivals and due are the pending events of visitors and of the doctor; past is the order in
  // which visitors came; lines are those of the reporters, the patients and the sales
  // representatives, by rank; log is the order of the visits.
  datatype State = State(arrivals: multiset<Event>, due: multiset<Event>, past: seq<Event>, now: int,
                         lines: seq<Line>, free: bool, over: bool, log: seq<Visit>)

  const REPORTERS := 0
  const PATIENTS := 1
  const SALES := 2
  const START := -1000000000

  predicate IsVisitor(e: Event) {
    Rank(e.kind) < 3
  }

  // Reporters have no quota.
  function Quota(k: nat): nat {
    if k == PATIENTS then 25 else 3
  }

  predicate File(file: seq<Event>) {
    forall i :: 0 <= i < |file| ==> IsVisitor(file[i])
  }

  function Init(file: seq<Event>, first: Event): State {
    State(multiset(file), multiset{first}, [], START, seq(3, _ => Line([], 0)), false, false, [])
  }

  function OfRank(s: seq<Event>, k: nat): (r: seq<Event>)
    ensures |r| <= |s|
  {
    if s == [] then []
    else OfRank(s[..|s| - 1], k) + if Rank(s[|s| - 1].kind) == k then [s[|s| - 1]] else []
  }

  function SeenOfRank(log: seq<Visit>, k: nat): seq<Event> {
    if log == [] then []
    else
      SeenOfRank(log[..|log| - 1], k)
      + if Rank(log[|log| - 1].visitor.kind) == k then [log[|log| - 1].visitor] else []
  }

  predicate Shaped(lines: seq<Line>) {
    |lines| == 3 && forall k :: 0 <= k < 3 ==> lines[k].served <= |lines[k].queue|
  }

  function Waiting(line: Line): int {
    |line.queue| - line.served
  }

  // The doctor's session ends when both quotas have been seen and no reporter waits.
  predicate SessionEnds(lines: seq<Line>)
    requires Shaped(lines)
  {
    lines[PATIENTS].served == 25 && lines[SALES].served == 3 && Waiting(lines[REPORTERS]) == 0
  }

  predicate Admitted(past: seq<Event>, over: bool, e: Event) {
    !over && (Rank(e.kind) == REPORTERS || |OfRank(past, Rank(e.kind))| < Quota(Rank(e.kind)))
  }

  function Joined(lines: seq<Line>, e: Event): (r: seq<Line>)
    requires Shaped(lines) && IsVisitor(e)
    ensures Shaped(r)
  {
    var line := lines[Rank(e.kind)];
    lines[Rank(e.kind) := line.(queue := line.queue + [e])]
  }

  // The first half of the loop body. The second half is skipped at the end of the session and
  // after a visitor who is sent away.
  function Handle(s: State, e: Event): (t: State)
    requires Shaped(s.lines)
    ensures Shaped(t.lines)
  {
    if IsVisitor(e) then
      s.(arrivals := s.arrivals - multiset{e}, now := e.time, past := s.past + [e],
         lines := if Admitted(s.past, s.over, e) then Joined(s.lines, e) else s.lines)
    else
      s.(due := s.due - multiset{e}, now := e.time,
         free := !SessionEnds(s.lines), over := s.over || SessionEnds(s.lines))
  }

  predicate GoesOn(s: State, e: Event)
    requires Shaped(s.lines)
  {
    if IsVisitor(e) then Admitted(s.past, s.over, e) else !SessionEnds(s.lines)
  }

  function NextVisitor(line: Line): Event
    requires Waiting(line) > 0
  {
    line.queue[line.served]
  }

  function Served(lines: seq<Line>, k: nat): (r: seq<Line>)
    requires Shaped(lines) && k < 3 && Waiting(lines[k]) > 0
    ensures Shaped(r)
  {
    lines[k := lines[k].(served := lines[k].served + 1)]
  }

  function See(s: State, k: nat): (t: State)
    requires Shaped(s.lines) && k < 3 && Waiting(s.lines[k]) > 0
    ensures Shaped(t.lines)
  {
    var visitor := NextVisitor(s.lines[k]);
    s.(lines := Served(s.lines, k), free := false,
       due := s.due + multiset{Event('D', s.now + visitor.duration, 0)},
       log := s.log + [Visit(visitor, s.now)])
  }

  // The second half of the loop body: reporters first, then patients, then sales representatives.
  function Serve(s: State): (t: State)
    requires Shaped(s.lines)
    ensures Shaped(t.lines)
  {
    if !s.free || s.over then s
    else if Waiting(s.lines[REPORTERS]) > 0 then See(s, REPORTERS)
    else if Waiting(s.lines[PATIENTS]) > 0 then See(s, PATIENTS)
    else if Waiting(s.lines[SALES]) > 0 then See(s, SALES)
    else s
  }

  function Step(s: State, e: Event): (t: State)
    requires Shaped(s.lines)
    ensures Shaped(t.lines)
  {
    if GoesOn(s, e) then Serve(Handle(s, e)) else Handle(s, e)
  }

  function Pending(s: State): multiset<Event> {
    s.arrivals + s.due
  }

  ghost predicate First(s: State, e: Event) {
    e in Pending(s) && forall x :: x in Pending(s) ==> Before(e, x)
  }

  // ---------- The doctor ----------

  function Bit(b: bool): nat {
    if b then 1 else 0
  }

  // Exactly one of: the doctor is free, one visit is to end, the session is over.
  ghost predicate DoctorOk(due: multiset<Event>, free: bool, over: bool) {
    |due| + Bit(free) + Bit(over) == 1 && forall e :: e in due ==> !IsVisitor(e)
  }

  // Nobody waits for a free doctor, nor after the session, and a free doctor has visitors to come.
  ghost predicate NobodyWaits(lines: seq<Line>, free: bool, over: bool)
    requires Shaped(lines)
  {
    && (free || over ==> forall k :: 0 <= k < 3 ==> Waiting(lines[k]) == 0)
    && (free ==> !SessionEnds(lines))
    && (over ==> SessionEnds(lines))
  }

  // ---------- The visitors ----------

  // The line of a class holds its first visitors, all of them but those beyond the quota or after the
  // session, and the visits of that class are its served part, in order.
  ghost predicate LineOk(past: seq<Event>, over: bool, log: seq<Visit>, k: nat, line: Line) {
    var came := OfRank(past, k);
    && line.served <= |line.queue| <= |came|
    && line.queue == came[..|line.queue|]
    && (k != REPORTERS ==> |line.queue| <= Quota(k))
    && (!over ==> |line.queue| == if k == REPORTERS || |came| <= Quota(k) then |came| else Quota(k))
    && SeenOfRank(log, k) == line.queue[..line.served]
  }

  ghost predicate LinesOk(past: seq<Event>, over: bool, log: seq<Visit>, lines: seq<Line>) {
    && |lines| == 3
    && (forall i :: 0 <= i < |log| ==> IsVisitor(log[i].visitor))
    && (forall k :: 0 <= k < 3 ==> LineOk(past, over, log, k, lines[k]))
  }

  // Visitors are handled in the order of their arrival, equal times by rank, and none is lost.
  ghost predicate ArrivalsOk(file: seq<Event>, past: seq<Event>, arrivals: multiset<Event>) {
    && multiset(past) + arrivals == multiset(file)
    && (forall e :: e in arrivals ==> IsVisitor(e))
    && (forall i, j :: 0 <= i < j < |past| ==> Before(past[i], past[j]))
    && (forall i, x :: 0 <= i < |past| && x in arrivals ==> Before(past[i], x))
  }

  // After the first half of the body visitors may wait for a free doctor.
  ghost predicate Between(file: seq<Event>, s: State) {
    && Shaped(s.lines) && DoctorOk(s.due, s.free, s.over)
    && LinesOk(s.past, s.over, s.log, s.lines) && ArrivalsOk(file, s.past, s.arrivals)
  }

  ghost predicate Inv(file: seq<Event>, s: State) {
    Between(file, s) && NobodyWaits(s.lines, s.free, s.over)
  }

  // ---------- Every step keeps the invariant ----------

  lemma OfRankAppend(s: seq<Event>, e: Event, k: nat)
    ensures OfRank(s + [e], k) == OfRank(s, k) + if Rank(e.kind) == k then [e] else []
  {
    assert (s + [e])[..|s|] == s;
  }

  lemma SeenAppend(log: seq<Visit>, v: Visit, k: nat)
    ensures SeenOfRank(log + [v], k) == SeenOfRank(log, k) + if Rank(v.visitor.kind) == k then [v.visitor] else []
  {
    assert (log + [v])[..|log|] == log;
  }

  lemma {:induction false} OfRankIsOfRank(s: seq<Event>, k: nat, i: nat)
    requires i < |OfRank(s, k)|
    ensures Rank(OfRank(s, k)[i].kind) == k && OfRank(s, k)[i] in s
  {
    var n := |s| - 1;
    if i < |OfRank(s[..n], k)| { OfRankIsOfRank(s[..n], k, i); }
  }

  lemma InitInv(file: seq<Event>, first: Event)
    requires File(file) && !IsVisitor(first)
    ensures Inv(file, Init(file, first))
  {}

  lemma JoinKeepsLine(past: seq<Event>, over: bool, log: seq<Visit>, k: nat, line: Line, e: Event, admitted: bool)
    requires LineOk(past, over, log, k, line) && admitted == Admitted(past, over, e)
    ensures LineOk(past + [e], over, log, k,
                   if Rank(e.kind) == k && admitted then line.(queue := line.queue + [e]) else line)
  {
    OfRankAppend(past, e, k);
  }

  lemma JoinKeepsLines(past: seq<Event>, over: bool, log: seq<Visit>, lines: seq<Line>, e: Event)
    requires Shaped(lines) && LinesOk(past, over, log, lines) && IsVisitor(e)
    ensures LinesOk(past + [e], over, log, if Admitted(past, over, e) then Joined(lines, e) else lines)
  {
    forall k: nat | k < 3
      ensures LineOk(past + [e], over, log, k, if Admitted(past, over, e) then Joined(lines, e)[k] else lines[k])
    {
      JoinKeepsLine(past, over, log, k, lines[k], e, Admitted(past, over, e));
    }
  }

  lemma ArrivalKeepsOrder(file: seq<Event>, past: seq<Event>, arrivals: multiset<Event>, e: Event)
    requires ArrivalsOk(file, past, arrivals) && e in arrivals && forall x :: x in arrivals ==> Before(e, x)
    ensures ArrivalsOk(file, past + [e], arrivals - multiset{e})
  {
    var rest := arrivals - multiset{e};
    assert forall x :: x in rest ==> x in arrivals;
    assert multiset(past + [e]) + rest == multiset(file);
  }

  lemma VisitKeepsLine(past: seq<Event>, over: bool, log: seq<Visit>, k: nat, line: Line, v: Visit)
    requires LineOk(past, over, log, k, line)
    requires Rank(v.visitor.kind) == k ==> Waiting(line) > 0 && v.visitor == NextVisitor(line)
    ensures LineOk(past, over, log + [v], k,
                   if Rank(v.visitor.kind) == k then line.(served := line.served + 1) else line)
  {
    SeenAppend(log, v, k);
    if Rank(v.visitor.kind) == k {
      assert line.queue[..line.served + 1] == line.queue[..line.served] + [v.visitor];
    }
  }

  lemma VisitKeepsLines(past: seq<Event>, over: bool, log: seq<Visit>, lines: seq<Line>, k: nat, start: int)
    requires Shaped(lines) && LinesOk(past, over, log, lines) && k < 3 && Waiting(lines[k]) > 0
    ensures LinesOk(past, over, log + [Visit(NextVisitor(lines[k]), start)], Served(lines, k))
  {
    var v := Visit(NextVisitor(lines[k]), start);
    assert LineOk(past, over, log, k, lines[k]);
    OfRankIsOfRank(past, k, lines[k].served);
    assert v.visitor == OfRank(past, k)[lines[k].served];
    forall j: nat | j < 3 ensures LineOk(past, over, log + [v], j, Served(lines, k)[j]) {
      VisitKeepsLine(past, over, log, j, lines[j], v);
    }
  }

  lemma EndKeepsLines(past: seq<Event>, over: bool, log: seq<Visit>, lines: seq<Line>)
    requires LinesOk(past, over, log, lines)
    ensures LinesOk(past, true, log, lines)
  {
    forall k: nat | k < 3 ensures LineOk(past, true, log, k, lines[k]) {
      assert LineOk(past, over, log, k, lines[k]);
    }
  }

  lemma HandleKeeps(file: seq<Event>, s: State, e: Event)
    requires Inv(file, s) && First(s, e)
    ensures Between(file, Handle(s, e))
  {
    assert forall x :: x in s.arrivals ==> x in Pending(s);
    if IsVisitor(e) {
      JoinKeepsLines(s.past, s.over, s.log, s.lines, e);
      ArrivalKeepsOrder(file, s.past, s.arrivals, e);
    } else {
      assert e in s.due;
      EndKeepsLines(s.past, s.over, s.log, s.lines);
    }
  }

  lemma SeeKeeps(file: seq<Event>, s: State, k: nat)
    requires Between(file, s) && s.free && k < 3 && Waiting(s.lines[k]) > 0
    ensures Inv(file, See(s, k))
  {
    VisitKeepsLines(s.past, s.over, s.log, s.lines, k, s.now);
  }

  lemma ServeKeeps(file: seq<Event>, s: State)
    requires Between(file, s) && !s.over
    requires s.free && (forall k :: 0 <= k < 3 ==> Waiting(s.lines[k]) == 0) ==> !SessionEnds(s.lines)
    ensures Inv(file, Serve(s))
  {
    if s.free {
      if Waiting(s.lines[REPORTERS]) > 0 { SeeKeeps(file, s, REPORTERS); }
      else if Waiting(s.lines[PATIENTS]) > 0 { SeeKeeps(file, s, PATIENTS); }
      else if Waiting(s.lines[SALES]) > 0 { SeeKeeps(file, s, SALES); }
    }
  }

  // Where the second half is skipped, nobody waits for a free doctor; where it is not, the session goes on.
  lemma HandleWaits(s: State, e: Event)
    requires Shaped(s.lines) && NobodyWaits(s.lines, s.free, s.over)
    requires LinesOk(s.past, s.over, s.log, s.lines)
    ensures !GoesOn(s, e) ==> NobodyWaits(Handle(s, e).lines, Handle(s, e).free, Handle(s, e).over)
    ensures GoesOn(s, e) && IsVisitor(e) ==> Waiting(Handle(s, e).lines[Rank(e.kind)]) > 0 && !Handle(s, e).over
    ensures GoesOn(s, e) && !IsVisitor(e) ==> !SessionEnds(Handle(s, e).lines) && (Handle(s, e).over ==> s.over)
  {
    assert LineOk(s.past, s.over, s.log, PATIENTS, s.lines[PATIENTS]);
    assert LineOk(s.past, s.over, s.log, SALES, s.lines[SALES]);
  }

  lemma StepKeeps(file: seq<Event>, s: State, e: Event)
    requires Inv(file, s) && First(s, e)
    ensures Inv(file, Step(s, e))
  {
    HandleKeeps(file, s, e);
    HandleWaits(s, e);
    if GoesOn(s, e) {
      ServeKeeps(file, Handle(s, e));
    }
  }
}
