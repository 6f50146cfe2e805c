// A rank that every step of the paging system decreases, so that every run is finite.
module PagingRank {
  import opened Sums
  import opened MessageQueues
  import opened ReferenceStrings
  import opened PagedMemory
  import opened LruReplacement
  import opened Mmus
  import opened PagingSystem
  import opened PagingInvariant
  import opened PagingSteps

  // ---------- Work left ----------

  // The page that the process has to be granted next is already in memory.
  predicate NextPageIn(granted: seq<int>, pages: seq<nat>, need: nat, t: Table) {
    && |granted| < |pages| && pages[|granted|] < need && pages[|granted|] < |t|
    && t[pages[|granted|]].frame != -1
  }

  // Every reference is worth a fault and a hit; a page in memory has had its fault.
  function Credit(over: bool, granted: seq<int>, pages: seq<nat>, need: nat, t: Table): nat {
    if over || |granted| > |pages| then 0
    else 2 * (|pages| - |granted|) + 1 - if NextPageIn(granted, pages, need, t) then 1 else 0
  }

  function Weight(c: Config, s: State, v: View, i: nat): nat
    requires c.Valid() && i < c.K() && |s.procs| == |v.stage| == |s.mem.tables| == c.K()
  {
    Credit(v.stage[i] == Ended || v.tok == Noticed(i, true), s.procs[i].granted, c.refs[i], c.need[i], s.mem.tables[i])
    + match v.stage[i] case Unforked => 2 case Born => 1 case _ => 0
  }

  ghost predicate Sized(c: Config, s: State, v: View) {
    c.Valid() && |s.procs| == |v.stage| == |s.mem.tables| == c.K()
  }

  ghost function Weights(c: Config, s: State, v: View): seq<nat>
    requires Sized(c, s, v)
  {
    seq(c.K(), i requires 0 <= i < c.K() => Weight(c, s, v, i))
  }

  ghost function Work(c: Config, s: State, v: View): nat
    requires Sized(c, s, v)
  {
    Total(Weights(c, s, v))
    + (match s.master case AwaitingMmuPid => 2 case Forking(_) => 1 case Notified => 0)
    + (if s.mmu == Booting then 1 else 0)
    + (if s.sched == Exited then 0 else 1)
  }

  // ---------- Distance to a process that owns a frame ----------

  // The order in which processes get their turn from here.
  function Order(v: View): seq<nat> {
    match v.tok
    case Chosen => v.ready
    case Finished => v.ready
    case Noticed(p, over) => if over then v.ready else v.ready + [p]
    case Requeued(p) => v.ready + [p]
    case _ => [v.tok.p] + v.ready
  }

  ghost function FirstOwner(tables: seq<Table>, order: seq<nat>): (n: nat)
    ensures n <= |order|
  {
    if order == [] || (order[0] < |tables| && !Empty(tables[order[0]])) then 0
    else 1 + FirstOwner(tables, order[1..])
  }

  function Micro(tok: Token, mmu: MmuPc): nat {
    match tok
    case Noticed(_, _) => 9
    case Requeued(_) => 8
    case Chosen => 7
    case Finished => 7
    case Dispatched(_) => 6
    case Resumed(_) => 5
    case Running(_) => 4
    case Requested(_) => 3
    case InMmu(_) => if mmu.Serving? then 2 else 1
    case Replied(_) => 0
  }

  function UnreadFlags(procs: seq<Proc>): seq<nat> {
    seq(|procs|, i requires 0 <= i < |procs| => if procs[i].pc == AwaitingReply then 1 else 0)
  }

  function Unread(procs: seq<Proc>): nat {
    Total(UnreadFlags(procs))
  }

  ghost function Rank(c: Config, s: State, v: View): nat
    requires Sized(c, s, v)
  {
    Combined(c.K(), Work(c, s, v), FirstOwner(s.mem.tables, Order(v)), Micro(v.tok, s.mmu), Unread(s.procs))
  }

  function Combined(k: nat, work: nat, dist: nat, micro: nat, unread: nat): nat {
    ((work * (k + 2) + dist) * 10 + micro) * (k + 1) + unread
  }

  lemma Carry(a: nat, b: nat, m: nat)
    requires a < b
    ensures a * m + m <= b * m
  {
    assert b * m == (b - a - 1) * m + a * m + m;
  }

  lemma LexicographicDecrease(k: nat, w: nat, d: nat, m: nat, u: nat, w': nat, d': nat, m': nat, u': nat)
    requires d' <= k + 1 && m' <= 9 && u' <= k
    requires w' < w || (w' == w && (d' < d || (d' == d && (m' < m || (m' == m && u' < u)))))
    ensures Combined(k, w', d', m', u') < Combined(k, w, d, m, u)
  {
    var x, x' := w * (k + 2) + d, w' * (k + 2) + d';
    if w' < w { Carry(w', w, k + 2); }
    var y, y' := x * 10 + m, x' * 10 + m';
    if y' < y { Carry(y', y, k + 1); }
  }

  // ---------- Bounds ----------

  lemma DistinctBound(s: seq<nat>, k: nat)
    requires Distinct(s) && forall n :: 0 <= n < |s| ==> s[n] < k
    ensures |s| <= k
  {
    ElementsCount(s);
    assert Elements(s) <= Below(k);
    SubsetCount(Elements(s), Below(k));
  }

  function Below(k: nat): (s: set<nat>)
    ensures |s| == k && forall x: nat :: x in s <==> x < k
  {
    if k == 0 then {} else Below(k - 1) + {k - 1}
  }

  lemma {:induction false} ElementsCount(s: seq<nat>)
    requires Distinct(s)
    ensures |Elements(s)| == |s|
  {
    if s == [] {
      assert Elements(s) == {};
    } else {
      ElementsCount(s[1..]);
      assert s == [s[0]] + s[1..] && s[0] !in s[1..];
      assert Elements(s) == {s[0]} + Elements(s[1..]);
    }
  }

  lemma {:induction false} SubsetCount(a: set<nat>, b: set<nat>)
    requires a <= b
    ensures |a| <= |b|
    decreases a
  {
    if a != {} {
      var x :| x in a;
      SubsetCount(a - {x}, b - {x});
    }
  }

  lemma InvSized(c: Config, s: State, v: View)
    requires Inv(c, s, v)
    ensures Sized(c, s, v) && FirstOwner(s.mem.tables, Order(v)) <= c.K() + 1 && Unread(s.procs) <= c.K()
  {
    DistinctBound(v.ready, c.K());
    TotalBound(UnreadFlags(s.procs), 1);
  }

  // ---------- What single steps do to the rank ----------

  // Every weight but that of p is unchanged (with p == K: every weight).
  ghost predicate SameWeights(c: Config, s: State, v: View, s': State, v': View, p: nat)
    requires Sized(c, s, v) && Sized(c, s', v')
  {
    forall i :: 0 <= i < c.K() && i != p ==> Weight(c, s', v', i) == Weight(c, s, v, i)
  }

  lemma WeightsFrame(c: Config, s: State, v: View, s': State, v': View, p: nat)
    requires Sized(c, s, v) && Sized(c, s', v') && p <= c.K() && SameWeights(c, s, v, s', v', p)
    ensures Total(Weights(c, s', v')) ==
            Total(Weights(c, s, v)) + if p < c.K() then Weight(c, s', v', p) - Weight(c, s, v, p) else 0
  {
    var xs, ys := Weights(c, s, v), Weights(c, s', v');
    if p < c.K() {
      assert ys == xs[p := ys[p]];
      TotalUpdate(xs, p, ys[p]);
    } else {
      assert ys == xs;
    }
  }

  // The rank goes down when the work does, or when the work stays and a later component goes down.
  ghost predicate Lower(c: Config, s: State, v: View, s': State, v': View)
    requires Sized(c, s, v) && Sized(c, s', v')
  {
    var (w, w') := (Work(c, s, v), Work(c, s', v'));
    var (d, d') := (FirstOwner(s.mem.tables, Order(v)), FirstOwner(s'.mem.tables, Order(v')));
    var (m, m') := (Micro(v.tok, s.mmu), Micro(v'.tok, s'.mmu));
    w' < w || (w' == w && (d' < d || (d' == d && (m' < m || (m' == m && Unread(s'.procs) < Unread(s.procs))))))
  }

  // What a step does to state and view: the invariant still holds and the rank is lower.
  ghost predicate Progress(c: Config, s: State, v: View, s': State, v': View) {
    Inv(c, s', v') && Sized(c, s, v) && Sized(c, s', v') && Lower(c, s, v, s', v')
  }

  lemma LowerRank(c: Config, s: State, v: View, s': State, v': View)
    requires Progress(c, s, v, s', v')
    ensures Rank(c, s', v') < Rank(c, s, v)
  {
    InvSized(c, s', v');
    LexicographicDecrease(c.K(),
                          Work(c, s, v), FirstOwner(s.mem.tables, Order(v)), Micro(v.tok, s.mmu), Unread(s.procs),
                          Work(c, s', v'), FirstOwner(s'.mem.tables, Order(v')), Micro(v'.tok, s'.mmu),
                          Unread(s'.procs));
  }

  lemma MasterLowers(c: Config, s: State, s': State, v: View)
    requires Sized(c, s, v) && Sized(c, s', v)
    requires MasterLearnsMmuStep(c, s, s') || MasterWakesStep(c, s, s') || MmuBootsStep(c, s, s')
    ensures Lower(c, s, v, s', v)
  {
    WeightsFrame(c, s, v, s', v, c.K());
  }

  lemma ForkLowers(c: Config, s: State, s': State, v: View, v': View)
    requires Sized(c, s, v) && Sized(c, s', v') && ForkStep(c, s, s') && v.stage[s.master.next] == Unforked
    requires v' == v.(stage := v.stage[s.master.next := Born])
    ensures Lower(c, s, v, s', v')
  {
    WeightsFrame(c, s, v, s', v', s.master.next);
  }

  // Token moves of the scheduler keep the work and the order of turns.
  lemma SchedulerLowers(c: Config, s: State, s': State, v: View, v': View)
    requires Sized(c, s, v) && Sized(c, s', v') && s'.procs == s.procs && s'.mem == s.mem
    requires s'.master == s.master && s'.mmu == s.mmu && s.sched != Exited && s'.sched != Exited
    requires Order(v') == Order(v) && Micro(v'.tok, s'.mmu) < Micro(v.tok, s.mmu)
    requires SameWeights(c, s, v, s', v', c.K())
    ensures Lower(c, s, v, s', v')
  {
    WeightsFrame(c, s, v, s', v', c.K());
  }

  lemma SchedReceivesLowers(c: Config, s: State, s': State, v: View, v': View)
    requires Sized(c, s, v) && Sized(c, s', v') && SchedReceivesStep(c, s, s') && v.tok == Chosen
    requires v.ready != [] && v.ready[0] < c.K() && v.stage[v.ready[0]] == Queued
    requires v' == View(Dispatched(v.ready[0]), v.ready[1..], v.stage[v.ready[0] := Held], v.ow)
    ensures Lower(c, s, v, s', v')
  {
    assert v.ready == [v.ready[0]] + v.ready[1..];
    SchedulerLowers(c, s, s', v, v');
  }

  lemma SchedDispatchesLowers(c: Config, s: State, s': State, v: View, v': View)
    requires Sized(c, s, v) && Sized(c, s', v') && SchedDispatchesStep(c, s, s')
    requires v.tok.Dispatched? && v' == v.(tok := Resumed(v.tok.p))
    ensures Lower(c, s, v, s', v')
  {
    SchedulerLowers(c, s, s', v, v');
  }

  lemma SchedNoticedLowers(c: Config, s: State, s': State, v: View, v': View)
    requires Sized(c, s, v) && Sized(c, s', v') && SchedNoticedStep(c, s, s')
    requires v.tok.Noticed? && v.tok.p < c.K() && v.stage[v.tok.p] == Held
    requires v' == if v.tok.over then v.(tok := Chosen, stage := v.stage[v.tok.p := Ended])
                   else v.(tok := Requeued(v.tok.p))
    ensures Lower(c, s, v, s', v')
  {
    SchedulerLowers(c, s, s', v, v');
  }

  lemma SchedRequeuesLowers(c: Config, s: State, s': State, v: View, v': View)
    requires Sized(c, s, v) && Sized(c, s', v') && SchedRequeuesStep(c, s, s')
    requires v.tok.Requeued? && v.tok.p < c.K() && v.stage[v.tok.p] == Held
    requires v' == View(Chosen, v.ready + [v.tok.p], v.stage[v.tok.p := Queued], v.ow)
    ensures Lower(c, s, v, s', v')
  {
    SchedulerLowers(c, s, s', v, v');
  }

  lemma SchedPostsLowers(c: Config, s: State, s': State, v: View, v': View)
    requires Sized(c, s, v) && Sized(c, s', v') && SchedPostsStep(c, s, s')
    requires v.tok == Chosen && v' == v.(tok := Finished)
    ensures Lower(c, s, v, s', v')
  {
    WeightsFrame(c, s, v, s', v', c.K());
  }

  lemma ProcStartsLowers(c: Config, s: State, p: nat, s': State, v: View, v': View)
    requires Sized(c, s, v) && Sized(c, s', v') && p < c.K() && ProcStartsStep(c, s, p, s') && v.stage[p] == Born
    requires v' == v.(ready := v.ready + [p], stage := v.stage[p := Queued])
    ensures Lower(c, s, v, s', v')
  {
    WeightsFrame(c, s, v, s', v', p);
  }

  // A process that moves the token without being granted a page.
  lemma ProcessLowers(c: Config, s: State, p: nat, s': State, v: View, v': View)
    requires Sized(c, s, v) && Sized(c, s', v') && p < c.K()
    requires || ((ProcFirstRunsStep(c, s, p, s') || ProcResumesStep(c, s, p, s')) && v.tok == Resumed(p)
                 && v' == v.(tok := Running(p)))
             || (ProcRequestsStep(c, s, p, s') && v.tok == Running(p) && v' == v.(tok := Requested(p)))
    ensures Lower(c, s, v, s', v')
  {
    WeightsFrame(c, s, v, s', v', c.K());
  }

  lemma UnreadDrops(procs: seq<Proc>, p: nat, q: Proc)
    requires p < |procs| && procs[p].pc == AwaitingReply && q.pc != AwaitingReply
    ensures Unread(procs[p := q]) < Unread(procs)
  {
    assert UnreadFlags(procs[p := q]) == UnreadFlags(procs)[p := 0];
    TotalUpdate(UnreadFlags(procs), p, 0);
  }

  lemma GrantLowers(c: Config, s: State, p: nat, s': State, v: View, v': View)
    requires Sized(c, s, v) && Sized(c, s', v') && p < c.K() && v.tok == Replied(p) && v' == v.(tok := Running(p))
    requires v.stage[p] == Held && Faithful(s.procs[p], c.refs[p], c.need[p]) && s.procs[p].pc == AwaitingReply
    requires s.mem.need == c.need && Loaded(s.mem, p, s.procs[p].page)
    requires s'.mem == s.mem && s'.master == s.master && s'.mmu == s.mmu && s'.sched == s.sched
    requires s'.procs == s.procs[p := s.procs[p].(pc := AtHead, granted := s.procs[p].granted + [s.procs[p].page])]
    ensures Lower(c, s, v, s', v')
  {
    assert NextPageIn(s.procs[p].granted, c.refs[p], c.need[p], s.mem.tables[p]);
    WeightsFrame(c, s, v, s', v', p);
  }

  lemma ReadLowers(c: Config, s: State, p: nat, s': State, v: View)
    requires Sized(c, s, v) && Sized(c, s', v) && p < c.K() && ProcReadsStep(c, s, p, s')
    requires s'.procs[p].granted == s.procs[p].granted && s'.procs[p].pc != AwaitingReply
    ensures Lower(c, s, v, s', v)
  {
    UnreadDrops(s.procs, p, s'.procs[p]);
    WeightsFrame(c, s, v, s', v, c.K());
  }

  lemma ProcReadsLowers(c: Config, s: State, p: nat, s': State, v: View, v': View)
    requires Inv(c, s, v) && Sized(c, s, v) && Sized(c, s', v') && p < c.K() && ProcReadsStep(c, s, p, s')
    requires v' == if v.tok == Replied(p) then v.(tok := Running(p)) else v
    ensures Lower(c, s, v, s', v')
  {
    assert Local(c, s, v, p);
    if v.tok == Replied(p) {
      GrantLowers(c, s, p, s', v, v');
    } else {
      ReadLowers(c, s, p, s', v);
    }
  }

  lemma MmuReceivesLowers(c: Config, s: State, s': State, v: View, v': View)
    requires Sized(c, s, v) && Sized(c, s', v') && MmuReceivesStep(c, s, s') && s'.mmu.Serving?
    requires v.tok.Requested? && v' == v.(tok := InMmu(v.tok.p))
    ensures Lower(c, s, v, s', v')
  {
    WeightsFrame(c, s, v, s', v', c.K());
  }

  lemma {:induction false} SameOwners(ts: seq<Table>, ts': seq<Table>, order: seq<nat>)
    requires |ts'| == |ts| && forall i :: 0 <= i < |ts| ==> Empty(ts'[i]) == Empty(ts[i])
    ensures FirstOwner(ts', order) == FirstOwner(ts, order)
  {
    if order != [] { SameOwners(ts, ts', order[1..]); }
  }

  // The end of a process takes all its remaining credit.
  lemma EndLowers(c: Config, s: State, s': State, v: View, v': View, p: nat)
    requires Inv(c, s, v) && Sized(c, s, v) && Sized(c, s', v') && p < c.K() && v.tok == InMmu(p)
    requires v'.tok == Noticed(p, true) && v'.stage == v.stage && s'.procs == s.procs
    requires s'.master == s.master && s.mmu != Booting && s'.mmu != Booting && s'.sched == s.sched
    requires forall i :: 0 <= i < c.K() && i != p ==> s'.mem.tables[i] == s.mem.tables[i]
    ensures Lower(c, s, v, s', v')
  {
    assert Local(c, s, v, p);
    WeightsFrame(c, s, v, s', v', p);
  }

  lemma AnswerLowers(c: Config, s: State, s': State, v: View, v': View, p: nat)
    requires Sized(c, s, v) && Sized(c, s', v') && p < c.K() && v.tok == InMmu(p) && s.mmu.Serving?
    requires || (v' == v && s'.mem.tables == s.mem.tables && (s'.mmu.Releasing? || s'.mmu.Loading?))
             || (v' == v.(tok := Replied(p)) && s.mmu.idx == p && 0 <= s.mmu.page < |s.mem.tables[p]|
                 && s'.mmu == Receiving
                 && s'.mem == Touch(s.mem, p, s.mmu.page, |s.log|))
    requires s'.procs == s.procs && s'.master == s.master && s'.sched == s.sched
    ensures Lower(c, s, v, s', v')
  {
    forall i | 0 <= i < c.K() ensures Empty(s'.mem.tables[i]) == Empty(s.mem.tables[i]) {
      if s'.mem.tables[i] != s.mem.tables[i] {
        assert forall j :: 0 <= j < |s.mem.tables[i]| ==> s'.mem.tables[i][j].frame == s.mem.tables[i][j].frame;
      }
    }
    SameOwners(s.mem.tables, s'.mem.tables, Order(v));
    WeightsFrame(c, s, v, s', v', c.K());
  }

  // ---------- Page loads ----------

  lemma LoadOrNothing(m: Memory, ow: seq<Owner>, i: nat, page: nat, now: int)
    requires Owned(m, ow) && i < |m.tables| && page < m.need[i] && !Hit(m, i, page)
    ensures || Load(m, i, page, now).tables[i][page].frame != -1
            || (Load(m, i, page, now) == m && FreeFrames(m) == {} && Victim(m.tables[i], m.need[i]) == -1)
  {
    assert EntryAgrees(m, ow, i, page);
    if m.frames[FreeFrame(m.frames, 0)] != 1 {
      assert forall y: nat :: y < |m.frames| ==> m.frames[y] != 1;
    }
  }

  lemma NoVictimNoPages(m: Memory, ow: seq<Owner>, i: nat, log: Log)
    requires Owned(m, ow) && i < |m.tables| && Stacked(m.tables[i], m.need[i], log, i) && |log| < INT_MAX
    requires Victim(m.tables[i], m.need[i]) == -1
    ensures Empty(m.tables[i])
  {
    forall j | 0 <= j < |m.tables[i]| && m.tables[i][j].frame != -1 ensures j < m.need[i] {
      MappedIsRequired(m, ow, i, j);
    }
  }

  // A load that changes nothing happens only when the process owns nothing and no frame is free.
  lemma FruitlessLoad(c: Config, s: State, v: View, p: nat, page: nat)
    requires StacksOk(c, s.mem, s.log, InMmu(p), v.ow) && p < c.K() && Absent(s.mem, p, page) && |s.log| < INT_MAX
    ensures var after := Load(s.mem, p, page, |s.log|).tables[p];
            || (page < |after| && after[page].frame != -1)
            || (Load(s.mem, p, page, |s.log|) == s.mem && Empty(s.mem.tables[p]) && FreeFrames(s.mem) == {})
  {
    LoadTouchesOne(s.mem, p, page, |s.log|);
    LoadOrNothing(s.mem, v.ow, p, page, |s.log|);
    if Victim(s.mem.tables[p], s.mem.need[p]) == -1 {
      NoVictimNoPages(s.mem, v.ow, p, Served(s.log, InMmu(p), p));
    }
  }

  // When no frame is free, some process that waits in the ready queue owns one.
  lemma SomeQueuedOwner(c: Config, s: State, v: View, p: nat) returns (n: nat)
    requires Inv(c, s, v) && c.f >= 1 && v.tok == InMmu(p) && p < c.K()
    requires Empty(s.mem.tables[p]) && FreeFrames(s.mem) == {}
    ensures n < |v.ready| && v.ready[n] < |s.mem.tables| && !Empty(s.mem.tables[v.ready[n]])
  {
    assert 0 !in FreeFrames(s.mem);
    assert v.ow[0].By?;
    var q := v.ow[0].proc;
    assert HoldsFrame(s.mem, q, v.ow[0].page, 0);
    assert s.mem.tables[q][v.ow[0].page].frame != -1;
    assert !Empty(s.mem.tables[q]);
    assert v.stage[q] == Queued;
    n :| 0 <= n < |v.ready| && v.ready[n] == q;
  }

  lemma {:induction false} OwnerAhead(ts: seq<Table>, order: seq<nat>, n: nat)
    requires n < |order| && order[n] < |ts| && !Empty(ts[order[n]])
    ensures FirstOwner(ts, order) <= n
    ensures forall tail :: FirstOwner(ts, order + tail) == FirstOwner(ts, order)
  {
    if n > 0 && !(order[0] < |ts| && !Empty(ts[order[0]])) {
      OwnerAhead(ts, order[1..], n - 1);
      forall tail ensures FirstOwner(ts, order + tail) == FirstOwner(ts, order) {
        assert (order + tail)[1..] == order[1..] + tail;
      }
    }
  }

  lemma FruitlessLowers(c: Config, s: State, s': State, v: View, v': View, n: nat)
    requires Sized(c, s, v) && Sized(c, s', v') && MmuLoadsStep(c, s, s') && v.tok == InMmu(s.mmu.idx)
    requires v' == v.(tok := Noticed(s.mmu.idx, false), ow := v'.ow)
    requires s'.mem == s.mem && Empty(s.mem.tables[s.mmu.idx])
    requires n < |v.ready| && v.ready[n] < c.K() && !Empty(s.mem.tables[v.ready[n]])
    ensures Lower(c, s, v, s', v')
  {
    var p := s.mmu.idx;
    WeightsFrame(c, s, v, s', v', c.K());
    OwnerAhead(s.mem.tables, v.ready, n);
    assert ([p] + v.ready)[1..] == v.ready;
    assert FirstOwner(s.mem.tables, v.ready + [p]) == FirstOwner(s.mem.tables, v.ready);
  }

  lemma FruitfulLowers(c: Config, s: State, s': State, v: View, v': View)
    requires Sized(c, s, v) && Sized(c, s', v') && MmuLoadsStep(c, s, s') && v.tok == InMmu(s.mmu.idx)
    requires v' == v.(tok := Noticed(s.mmu.idx, false), ow := v'.ow)
    requires var (p, page) := (s.mmu.idx, s.mmu.page);
             && page < |s'.mem.tables[p]| && s'.mem.tables[p][page].frame != -1 && Absent(s.mem, p, page)
             && (forall j :: 0 <= j < |s.mem.tables[p]| && s.mem.tables[p][j].frame != -1 ==>
                 s.mem.tables[p][j].valid == 1)
             && Faithful(s.procs[p], c.refs[p], c.need[p]) && v.stage[p] == Held && page == s.procs[p].page
             && (s.procs[p].pc == AwaitingReply || s.procs[p].pc == AwaitingRun) && s.mem.need == c.need
    ensures Lower(c, s, v, s', v')
  {
    var p := s.mmu.idx;
    LoadTouchesOne(s.mem, p, s.mmu.page, |s.log|);
    assert NextPageIn(s.procs[p].granted, c.refs[p], c.need[p], s'.mem.tables[p]);
    WeightsFrame(c, s, v, s', v', p);
  }

  lemma MmuLoadsLowers(c: Config, s: State, s': State, v: View, v': View)
    requires Inv(c, s, v) && Sized(c, s, v) && Sized(c, s', v') && MmuLoadsStep(c, s, s')
    requires c.f >= 1 && |s.log| < INT_MAX && v.tok == InMmu(s.mmu.idx)
    requires v' == v.(tok := Noticed(s.mmu.idx, false), ow := v'.ow)
    ensures Lower(c, s, v, s', v')
  {
    var p, page := s.mmu.idx, s.mmu.page;
    FruitlessLoad(c, s, v, p, page);
    if s'.mem == s.mem && Empty(s.mem.tables[p]) && FreeFrames(s.mem) == {} {
      var n := SomeQueuedOwner(c, s, v, p);
      FruitlessLowers(c, s, s', v, v', n);
    } else {
      assert Local(c, s, v, p);
      forall j | 0 <= j < |s.mem.tables[p]| && s.mem.tables[p][j].frame != -1 ensures s.mem.tables[p][j].valid == 1 {
        assert EntryAgrees(s.mem, v.ow, p, j);
      }
      FruitfulLowers(c, s, s', v, v');
    }
  }

  // ---------- One lemma per step ----------

  lemma MasterLearnsMmuProgress(c: Config, s: State, s': State, v: View)
    requires Inv(c, s, v) && MasterLearnsMmuStep(c, s, s')
    ensures Progress(c, s, v, s', v)
  {
    MasterLearnsMmuKeeps(c, s, s', v);
    MasterLowers(c, s, s', v);
  }

  lemma MasterWakesProgress(c: Config, s: State, s': State, v: View)
    requires Inv(c, s, v) && MasterWakesStep(c, s, s')
    ensures Progress(c, s, v, s', v)
  {
    MasterWakesKeeps(c, s, s', v);
    MasterLowers(c, s, s', v);
  }

  lemma MmuBootsProgress(c: Config, s: State, s': State, v: View)
    requires Inv(c, s, v) && MmuBootsStep(c, s, s')
    ensures Progress(c, s, v, s', v)
  {
    MmuBootsKeeps(c, s, s', v);
    MasterLowers(c, s, s', v);
  }

  lemma ForkProgress(c: Config, s: State, s': State, v: View) returns (v': View)
    requires Inv(c, s, v) && ForkStep(c, s, s')
    ensures Progress(c, s, v, s', v')
  {
    v' := ForkKeeps(c, s, s', v);
    ForkLowers(c, s, s', v, v');
  }

  lemma SchedReceivesProgress(c: Config, s: State, s': State, v: View) returns (v': View)
    requires Inv(c, s, v) && SchedReceivesStep(c, s, s')
    ensures Progress(c, s, v, s', v')
  {
    v' := SchedReceivesKeeps(c, s, s', v);
    SchedReceivesLowers(c, s, s', v, v');
  }

  lemma SchedDispatchesProgress(c: Config, s: State, s': State, v: View) returns (v': View)
    requires Inv(c, s, v) && SchedDispatchesStep(c, s, s')
    ensures Progress(c, s, v, s', v')
  {
    v' := SchedDispatchesKeeps(c, s, s', v);
    SchedDispatchesLowers(c, s, s', v, v');
  }

  lemma SchedNoticedProgress(c: Config, s: State, s': State, v: View) returns (v': View)
    requires Inv(c, s, v) && SchedNoticedStep(c, s, s')
    ensures Progress(c, s, v, s', v')
  {
    NoticeIsForHolder(c, s, s', v);
    if v.tok.over { v' := NoticedOverKeeps(c, s, s', v); } else { v' := NoticedFaultKeeps(c, s, s', v); }
    SchedNoticedLowers(c, s, s', v, v');
  }

  lemma SchedRequeuesProgress(c: Config, s: State, s': State, v: View) returns (v': View)
    requires Inv(c, s, v) && SchedRequeuesStep(c, s, s')
    ensures Progress(c, s, v, s', v')
  {
    v' := SchedRequeuesKeeps(c, s, s', v);
    SchedRequeuesLowers(c, s, s', v, v');
  }

  lemma SchedPostsProgress(c: Config, s: State, s': State, v: View) returns (v': View)
    requires Inv(c, s, v) && SchedPostsStep(c, s, s')
    ensures Progress(c, s, v, s', v')
  {
    v' := SchedPostsKeeps(c, s, s', v);
    SchedPostsLowers(c, s, s', v, v');
  }

  lemma ProcStartsProgress(c: Config, s: State, p: nat, s': State, v: View) returns (v': View)
    requires Inv(c, s, v) && p < c.K() && ProcStartsStep(c, s, p, s')
    ensures Progress(c, s, v, s', v')
  {
    v' := ProcStartsKeeps(c, s, p, s', v);
    ProcStartsLowers(c, s, p, s', v, v');
  }

  lemma RunMessageProgress(c: Config, s: State, p: nat, s': State, v: View) returns (v': View)
    requires Inv(c, s, v) && p < c.K() && (ProcFirstRunsStep(c, s, p, s') || ProcResumesStep(c, s, p, s'))
    ensures Progress(c, s, v, s', v')
  {
    v' := RunMessageKeeps(c, s, p, s', v);
    ProcessLowers(c, s, p, s', v, v');
  }

  lemma ProcRequestsProgress(c: Config, s: State, p: nat, s': State, v: View) returns (v': View)
    requires Inv(c, s, v) && p < c.K() && ProcRequestsStep(c, s, p, s')
    ensures Progress(c, s, v, s', v')
  {
    v' := ProcRequestsKeeps(c, s, p, s', v);
    ProcessLowers(c, s, p, s', v, v');
  }

  lemma ProcReadsProgress(c: Config, s: State, p: nat, s': State, v: View) returns (v': View)
    requires Inv(c, s, v) && p < c.K() && ProcReadsStep(c, s, p, s')
    ensures Progress(c, s, v, s', v')
  {
    v' := ProcReadsKeeps(c, s, p, s', v);
    ProcReadsLowers(c, s, p, s', v, v');
  }

  // Only the MMU's receive uses up a request.
  ghost predicate UsesRequest(s: State, v: View, s': State, v': View) {
    Micro(v.tok, s.mmu) == 3 && Micro(v'.tok, s'.mmu) == 2
  }

  lemma MmuReceivesProgress(c: Config, s: State, s': State, v: View) returns (v': View)
    requires Inv(c, s, v) && MmuReceivesStep(c, s, s')
    ensures Progress(c, s, v, s', v') && UsesRequest(s, v, s', v')
  {
    v' := MmuReceivesKeeps(c, s, s', v);
    MmuReceivesLowers(c, s, s', v, v');
  }

  lemma ServeTerminationProgress(c: Config, s: State, s': State, v: View) returns (v': View)
    requires Inv(c, s, v) && MmuServesStep(c, s, s') && s.mmu.page == TERMINATE
    ensures Progress(c, s, v, s', v')
  {
    v' := ServeTerminationKeeps(c, s, s', v);
    EndLowers(c, s, s', v, v', s.mmu.idx);
  }

  lemma ServeIllegalProgress(c: Config, s: State, s': State, v: View)
    requires Inv(c, s, v) && MmuServesStep(c, s, s') && s.mmu.page != TERMINATE && s.mmu.page >= s.mem.need[s.mmu.idx]
    ensures Progress(c, s, v, s', v)
  {
    ServeIllegalKeeps(c, s, s', v);
    AnswerLowers(c, s, s', v, v, s.mmu.idx);
  }

  lemma ServeHitProgress(c: Config, s: State, s': State, v: View) returns (v': View)
    requires Inv(c, s, v) && MmuServesStep(c, s, s') && 0 <= s.mmu.page < s.mem.need[s.mmu.idx]
    requires Hit(s.mem, s.mmu.idx, s.mmu.page)
    ensures Progress(c, s, v, s', v')
  {
    v' := ServeHitKeeps(c, s, s', v);
    AnswerLowers(c, s, s', v, v', s.mmu.idx);
  }

  lemma ServeFaultProgress(c: Config, s: State, s': State, v: View)
    requires Inv(c, s, v) && MmuServesStep(c, s, s') && 0 <= s.mmu.page < s.mem.need[s.mmu.idx]
    requires !Hit(s.mem, s.mmu.idx, s.mmu.page)
    ensures Progress(c, s, v, s', v)
  {
    ServeFaultKeeps(c, s, s', v);
    AnswerLowers(c, s, s', v, v, s.mmu.idx);
  }

  lemma MmuServesProgress(c: Config, s: State, s': State, v: View) returns (v': View)
    requires Inv(c, s, v) && MmuServesStep(c, s, s')
    ensures Progress(c, s, v, s', v')
  {
    v' := v;
    if s.mmu.page == TERMINATE {
      v' := ServeTerminationProgress(c, s, s', v);
    } else if s.mmu.page >= s.mem.need[s.mmu.idx] {
      ServeIllegalProgress(c, s, s', v);
    } else if Hit(s.mem, s.mmu.idx, s.mmu.page) {
      v' := ServeHitProgress(c, s, s', v);
    } else {
      ServeFaultProgress(c, s, s', v);
    }
  }

  lemma MmuReleasesProgress(c: Config, s: State, s': State, v: View) returns (v': View)
    requires Inv(c, s, v) && MmuReleasesStep(c, s, s')
    ensures Progress(c, s, v, s', v')
  {
    v' := MmuReleasesKeeps(c, s, s', v);
    EndLowers(c, s, s', v, v', s.mmu.idx);
  }

  lemma MmuLoadsProgress(c: Config, s: State, s': State, v: View) returns (v': View)
    requires Inv(c, s, v) && MmuLoadsStep(c, s, s') && |s.log| < INT_MAX && c.f >= 1
    ensures Progress(c, s, v, s', v')
  {
    v' := MmuLoadsKeeps(c, s, s', v);
    MmuLoadsLowers(c, s, s', v, v');
  }

  // ---------- Any step ----------

  // The coarse part of the rank and whether the current turn's request is still to be received:
  // together they bound how many requests the MMU can still receive.
  ghost function RequestsLeft(c: Config, s: State, v: View): nat
    requires Sized(c, s, v)
  {
    Work(c, s, v) * (c.K() + 2) + FirstOwner(s.mem.tables, Order(v)) + if Micro(v.tok, s.mmu) >= 3 then 1 else 0
  }

  lemma LowerRequests(c: Config, s: State, v: View, s': State, v': View)
    requires Progress(c, s, v, s', v')
    ensures RequestsLeft(c, s', v') <= RequestsLeft(c, s, v)
    ensures UsesRequest(s, v, s', v') ==> RequestsLeft(c, s', v') < RequestsLeft(c, s, v)
  {
    InvSized(c, s', v');
    if Work(c, s', v') < Work(c, s, v) { Carry(Work(c, s', v'), Work(c, s, v), c.K() + 2); }
  }

  // Only the MMU's receive writes the log.
  lemma LogStep(c: Config, s: State, a: Action, s': State)
    requires c.Valid() && Step(c, s, a, s')
    ensures if a == MmuReceives then |s'.log| == |s.log| + 1 else s'.log == s.log
  {}

  predicate OfMaster(a: Action) {
    a.MasterLearnsMmu? || a.Fork? || a.MasterWakes?
  }

  predicate OfMmu(a: Action) {
    a.MmuBoots? || a.MmuReceives? || a.MmuServes? || a.MmuReleases? || a.MmuLoads?
  }

  predicate OfScheduler(a: Action) {
    a.SchedReceives? || a.SchedDispatches? || a.SchedNoticed? || a.SchedRequeues? || a.SchedPosts?
  }

  lemma MasterProgress(c: Config, s: State, a: Action, s': State, v: View) returns (v': View)
    requires Inv(c, s, v) && Step(c, s, a, s') && OfMaster(a)
    ensures Progress(c, s, v, s', v')
  {
    v' := v;
    if a.MasterLearnsMmu? { MasterLearnsMmuProgress(c, s, s', v); }
    else if a.Fork? { v' := ForkProgress(c, s, s', v); }
    else { MasterWakesProgress(c, s, s', v); }
  }

  lemma MmuProgress(c: Config, s: State, a: Action, s': State, v: View) returns (v': View)
    requires Inv(c, s, v) && Step(c, s, a, s') && OfMmu(a)
    requires (|s.log| < INT_MAX && c.f >= 1) || a != MmuLoads
    ensures Progress(c, s, v, s', v')
    ensures a == MmuReceives ==> UsesRequest(s, v, s', v')
  {
    v' := v;
    if a.MmuBoots? { MmuBootsProgress(c, s, s', v); }
    else if a.MmuReceives? { v' := MmuReceivesProgress(c, s, s', v); }
    else if a.MmuServes? { v' := MmuServesProgress(c, s, s', v); }
    else if a.MmuReleases? { v' := MmuReleasesProgress(c, s, s', v); }
    else { v' := MmuLoadsProgress(c, s, s', v); }
  }

  lemma SchedulerProgress(c: Config, s: State, a: Action, s': State, v: View) returns (v': View)
    requires Inv(c, s, v) && Step(c, s, a, s') && OfScheduler(a)
    ensures Progress(c, s, v, s', v')
  {
    if a.SchedReceives? { v' := SchedReceivesProgress(c, s, s', v); }
    else if a.SchedDispatches? { v' := SchedDispatchesProgress(c, s, s', v); }
    else if a.SchedNoticed? { v' := SchedNoticedProgress(c, s, s', v); }
    else if a.SchedRequeues? { v' := SchedRequeuesProgress(c, s, s', v); }
    else { v' := SchedPostsProgress(c, s, s', v); }
  }

  lemma ProcessProgress(c: Config, s: State, a: Action, s': State, v: View) returns (v': View)
    requires Inv(c, s, v) && Step(c, s, a, s') && !OfMaster(a) && !OfMmu(a) && !OfScheduler(a)
    ensures Progress(c, s, v, s', v')
  {
    if a.ProcStarts? { v' := ProcStartsProgress(c, s, a.p, s', v); }
    else if a.ProcRequests? { v' := ProcRequestsProgress(c, s, a.p, s', v); }
    else if a.ProcReads? { v' := ProcReadsProgress(c, s, a.p, s', v); }
    else { v' := RunMessageProgress(c, s, a.p, s', v); }
  }

  // Every step keeps the invariant and lowers the rank, unless the MMU serves a fault without
  // having a single frame.
  lemma StepLowers(c: Config, s: State, a: Action, s': State, v: View) returns (v': View)
    requires Inv(c, s, v) && Step(c, s, a, s') && ((|s.log| < INT_MAX && c.f >= 1) || a != MmuLoads)
    ensures Progress(c, s, v, s', v')
    ensures a == MmuReceives ==> UsesRequest(s, v, s', v')
  {
    if OfMaster(a) { v' := MasterProgress(c, s, a, s', v); }
    else if OfMmu(a) { v' := MmuProgress(c, s, a, s', v); }
    else if OfScheduler(a) { v' := SchedulerProgress(c, s, a, s', v); }
    else { v' := ProcessProgress(c, s, a, s', v); }
  }

  // Without frames the invariant needs no bound on the timestamps.
  lemma StepKeepsNoFrames(c: Config, s: State, a: Action, s': State, v: View) returns (v': View)
    requires Inv(c, s, v) && Step(c, s, a, s') && c.f == 0
    ensures Inv(c, s', v')
  {
    if a.MmuLoads? {
      v' := MmuLoadsKeeps(c, s, s', v);
    } else {
      v' := StepLowers(c, s, a, s', v);
    }
  }
}
