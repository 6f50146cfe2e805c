// The replacement policy of the MMU: what the resident set of a process is at any time, and why
// adding frames can never add page faults.
module LruReplacement {
  import opened PagedMemory

  // One line of the MMU's "Global ordering" output; the request with timestamp t is log[t - 1].
  datatype Request = Request(proc: nat, page: int)

  type Log = seq<Request>

  // The timestamp of the last request of process i for page p, or 0.
  function LastTime(log: Log, i: nat, p: int): (t: nat)
    ensures t <= |log|
    ensures t > 0 ==> log[t - 1] == Request(i, p)
    ensures forall n :: t <= n < |log| ==> log[n] != Request(i, p)
  {
    if log == [] then 0
    else if log[|log| - 1] == Request(i, p) then |log|
    else LastTime(log[..|log| - 1], i, p)
  }

  lemma LastTimeOfAppend(log: Log, r: Request, i: nat, p: int)
    ensures LastTime(log + [r], i, p) == if r == Request(i, p) then |log| + 1 else LastTime(log, i, p)
  {
    assert (log + [r])[..|log|] == log;
  }

  // Resident stamps are last request times, and every page that is not resident was last
  // requested before every page that is.
  ghost predicate Stacked(t: Table, need: nat, log: Log, i: nat)
    requires need <= |t|
  {
    && (forall j :: 0 <= j < need && t[j].frame != -1 ==> t[j].stamp == LastTime(log, i, j) > 0)
    && forall q, r :: 0 <= q < need && 0 <= r < need && t[q].frame == -1 && t[r].frame != -1
                      ==> LastTime(log, i, q) < LastTime(log, i, r)
  }

  lemma StackedIgnoresOthers(t: Table, need: nat, log: Log, i: nat, r: Request)
    requires need <= |t| && Stacked(t, need, log, i)
    requires r.proc != i || !(0 <= r.page < need)
    ensures Stacked(t, need, log + [r], i)
  {
    forall j | 0 <= j < need ensures LastTime(log + [r], i, j) == LastTime(log, i, j) {
      LastTimeOfAppend(log, r, i, j);
    }
  }

  // The last requests for all required pages after one more request.
  lemma LastTimesGrow(log: Log, i: nat, page: nat, need: nat)
    ensures forall j: nat :: j < need ==>
              LastTime(log + [Request(i, page)], i, j) == if j == page then |log| + 1 else LastTime(log, i, j)
  {
    forall j: nat | j < need
      ensures LastTime(log + [Request(i, page)], i, j) == if j == page then |log| + 1 else LastTime(log, i, j)
    {
      LastTimeOfAppend(log, Request(i, page), i, j);
    }
  }

  lemma TouchKeepsStacked(t: Table, need: nat, log: Log, i: nat, page: nat)
    requires page < need <= |t| && Stacked(t, need, log, i) && t[page].frame != -1
    ensures Stacked(t[page := t[page].(stamp := |log| + 1)], need, log + [Request(i, page)], i)
  {
    LastTimesGrow(log, i, page, need);
  }

  lemma TakeFreeStacked(t: Table, need: nat, log: Log, i: nat, page: nat, x: nat)
    requires page < need <= |t| && Stacked(t, need, log, i)
    ensures Stacked(t[page := Entry(x, 1, |log| + 1)], need, log + [Request(i, page)], i)
  {
    LastTimesGrow(log, i, page, need);
  }

  // No two pages were last requested at the same time.
  lemma TimesDiffer(log: Log, i: nat, p: int, q: int)
    requires p != q && LastTime(log, i, p) > 0 && LastTime(log, i, q) > 0
    ensures LastTime(log, i, p) != LastTime(log, i, q)
  {
    assert log[LastTime(log, i, p) - 1] == Request(i, p);
  }

  lemma VictimIsEarlier(t: Table, need: nat, log: Log, i: nat, v: nat, j: nat)
    requires need <= |t| && Stacked(t, need, log, i) && Victim(t, need) == v && j < need && t[j].frame != -1 && j != v
    ensures LastTime(log, i, v) < LastTime(log, i, j)
  {
    assert t[v].stamp <= t[j].stamp;
    TimesDiffer(log, i, v, j);
  }

  lemma VictimIsEarliest(t: Table, need: nat, log: Log, i: nat, v: nat)
    requires need <= |t| && Stacked(t, need, log, i) && Victim(t, need) == v
    ensures forall j: nat :: j < need && t[j].frame != -1 && j != v ==> LastTime(log, i, v) < LastTime(log, i, j)
  {
    forall j: nat | j < need && t[j].frame != -1 && j != v ensures LastTime(log, i, v) < LastTime(log, i, j) {
      VictimIsEarlier(t, need, log, i, v, j);
    }
  }

  lemma EvictStacked(t: Table, need: nat, log: Log, i: nat, page: nat, v: nat)
    requires page < need <= |t| && Stacked(t, need, log, i) && t[page].frame == -1
    requires Victim(t, need) == v
    ensures Stacked(t[page := Entry(t[v].frame, 1, |log| + 1)][v := UNMAPPED], need, log + [Request(i, page)], i)
  {
    var t', log' := t[page := Entry(t[v].frame, 1, |log| + 1)][v := UNMAPPED], log + [Request(i, page)];
    LastTimesGrow(log, i, page, need);
    VictimIsEarliest(t, need, log, i, v);
    forall q, r | 0 <= q < need && 0 <= r < need && t'[q].frame == -1 && t'[r].frame != -1
      ensures LastTime(log', i, q) < LastTime(log', i, r)
    {
      if r != page && q != v { assert t[q].frame == -1 && t[r].frame != -1; }
    }
  }

  // A fault loads the page, or leaves a process that owns nothing with nothing; either way the
  // resident pages are again the most recently requested ones.
  lemma LoadKeepsStacked(m: Memory, ow: seq<Owner>, log: Log, i: nat, page: nat)
    requires Owned(m, ow) && i < |m.tables| && page < m.need[i] && !Hit(m, i, page)
    requires Stacked(m.tables[i], m.need[i], log, i) && |log| + 1 < INT_MAX
    ensures Stacked(Load(m, i, page, |log| + 1).tables[i], m.need[i], log + [Request(i, page)], i)
  {
    var t, need := m.tables[i], m.need[i];
    assert EntryAgrees(m, ow, i, page);
    var x, v := FreeFrame(m.frames, 0), Victim(t, need);
    if m.frames[x] == 1 {
      TakeFreeStacked(t, need, log, i, page, x);
    } else if v != -1 {
      EvictStacked(t, need, log, i, page, v);
    }
  }

  // ---------- The recency list ----------

  function Without(s: seq<nat>, p: nat): seq<nat> {
    if s == [] then [] else if s[0] == p then Without(s[1..], p) else [s[0]] + Without(s[1..], p)
  }

  // The required pages of process i that it has requested, most recent first, without repetition.
  function Recency(log: Log, i: nat, need: nat): seq<nat> {
    if log == [] then []
    else
      var (before, r) := (Recency(log[..|log| - 1], i, need), log[|log| - 1]);
      if r.proc == i && 0 <= r.page < need then [r.page as nat] + Without(before, r.page) else before
  }

  // Strictly decreasing times of last request.
  ghost predicate Descending(s: seq<nat>, log: Log, i: nat) {
    s == [] || ((forall q :: q in s[1..] ==> LastTime(log, i, s[0]) > LastTime(log, i, q))
                && Descending(s[1..], log, i))
  }

  lemma {:induction false} WithoutMembers(s: seq<nat>, p: nat)
    ensures forall q :: q in Without(s, p) <==> q in s && q != p
  {
    if s != [] {
      WithoutMembers(s[1..], p);
      assert s == [s[0]] + s[1..];
    }
  }

  lemma {:induction false} DescendingWithout(s: seq<nat>, log: Log, i: nat, p: nat)
    requires Descending(s, log, i)
    ensures Descending(Without(s, p), log + [Request(i, p)], i)
  {
    if s != [] {
      DescendingWithout(s[1..], log, i, p);
      WithoutMembers(s[1..], p);
      var w := Without(s, p);
      if s[0] != p {
        assert w[1..] == Without(s[1..], p);
        LastTimeOfAppend(log, Request(i, p), i, s[0]);
        forall q | q in w[1..] ensures LastTime(log + [Request(i, p)], i, q) == LastTime(log, i, q) {
          LastTimeOfAppend(log, Request(i, p), i, q);
        }
      }
    }
  }

  lemma {:induction false} DescendingIgnores(s: seq<nat>, log: Log, i: nat, r: Request)
    requires Descending(s, log, i) && forall q :: q in s ==> r != Request(i, q)
    ensures Descending(s, log + [r], i)
  {
    if s != [] {
      DescendingIgnores(s[1..], log, i, r);
      forall q | q in s ensures LastTime(log + [r], i, q) == LastTime(log, i, q) {
        LastTimeOfAppend(log, r, i, q);
      }
    }
  }

  function Elements(s: seq<nat>): set<nat> {
    set p | p in s
  }

  lemma {:induction false} DescendingDistinct(s: seq<nat>, log: Log, i: nat)
    requires Descending(s, log, i)
    ensures |Elements(s)| == |s|
  {
    if s == [] {
      assert Elements(s) == {};
    } else {
      DescendingDistinct(s[1..], log, i);
      assert s == [s[0]] + s[1..] && s[0] !in s[1..];
      assert Elements(s) == {s[0]} + Elements(s[1..]);
    }
  }

  // The list holds exactly the requested required pages, in decreasing order of last request.
  lemma {:induction false} RecencySorted(log: Log, i: nat, need: nat)
    ensures forall p: nat :: p in Recency(log, i, need) <==> p < need && LastTime(log, i, p) > 0
    ensures Descending(Recency(log, i, need), log, i)
  {
    if log != [] {
      var (pre, r) := (log[..|log| - 1], log[|log| - 1]);
      assert log == pre + [r];
      RecencySorted(pre, i, need);
      RecencyOfAppend(pre, r, i, need);
      RecencyGrows(pre, r, i, need);
    }
  }

  lemma RecencyDistinct(log: Log, i: nat, need: nat)
    ensures |Elements(Recency(log, i, need))| == |Recency(log, i, need)|
  {
    RecencySorted(log, i, need);
    DescendingDistinct(Recency(log, i, need), log, i);
  }

  lemma RecencyGrows(log: Log, r: Request, i: nat, need: nat)
    requires forall p: nat :: p in Recency(log, i, need) <==> p < need && LastTime(log, i, p) > 0
    requires Descending(Recency(log, i, need), log, i)
    ensures forall p: nat :: p in Recency(log + [r], i, need) <==> p < need && LastTime(log + [r], i, p) > 0
    ensures Descending(Recency(log + [r], i, need), log + [r], i)
  {
    var before, after := Recency(log, i, need), Recency(log + [r], i, need);
    RecencyOfAppend(log, r, i, need);
    forall p: nat ensures LastTime(log + [r], i, p) == if r == Request(i, p) then |log| + 1 else LastTime(log, i, p) {
      LastTimeOfAppend(log, r, i, p);
    }
    if r.proc == i && 0 <= r.page < need {
      WithoutMembers(before, r.page);
      DescendingWithout(before, log, i, r.page);
      assert after[1..] == Without(before, r.page);
    } else {
      DescendingIgnores(before, log, i, r);
    }
  }

  function Resident(t: Table, need: nat): set<nat>
    requires need <= |t|
  {
    set j: nat | j < need && t[j].frame != -1
  }

  // A set closed under "requested more recently" is a prefix of the recency list.
  lemma {:induction false} ClosedIsPrefix(s: seq<nat>, log: Log, i: nat, res: set<nat>)
    requires Descending(s, log, i) && res <= Elements(s)
    requires forall p, q :: p in res && q in s && LastTime(log, i, q) > LastTime(log, i, p) ==> q in res
    ensures |res| <= |s| && res == Elements(s[..|res|])
  {
    if res != {} {
      var p :| p in res;
      assert p in s && s == [s[0]] + s[1..];
      assert s[0] in res;
      var rest := res - {s[0]};
      ClosedIsPrefix(s[1..], log, i, rest);
      assert s[..|res|] == [s[0]] + s[1..][..|rest|];
      assert Elements(s[..|res|]) == {s[0]} + Elements(s[1..][..|rest|]);
    }
  }

  ghost predicate MostRecent(t: Table, need: nat, log: Log, i: nat)
    requires need <= |t|
  {
    var (res, rec) := (Resident(t, need), Recency(log, i, need));
    |res| <= |rec| && res == Elements(rec[..|res|])
  }

  // The stack property in terms of the recency list: the resident pages are its first |R| pages.
  lemma ResidentIsMostRecent(t: Table, need: nat, log: Log, i: nat)
    requires need <= |t| && Stacked(t, need, log, i)
    ensures MostRecent(t, need, log, i)
  {
    RecencySorted(log, i, need);
    ClosedIsPrefix(Recency(log, i, need), log, i, Resident(t, need));
  }

  // ---------- No Belady anomaly ----------

  datatype Run = Run(mem: Memory, log: Log)

  // One reference of the only process: a hit is served at once, a fault is loaded and the process
  // then asks for the same page again.
  function Reference(s: Run, page: nat): (r: Run)
    requires Shaped(s.mem) && |s.mem.tables| == 1 && page < s.mem.need[0]
    ensures Shaped(r.mem) && r.mem.need == s.mem.need
  {
    var now := |s.log| + 1;
    if Hit(s.mem, 0, page) then Run(Touch(s.mem, 0, page, now), s.log + [Request(0, page)])
    else
      var loaded := Load(CountFault(s.mem, 0), 0, page, now);
      Run(Touch(loaded, 0, page, now + 1), s.log + [Request(0, page), Request(0, page)])
  }

  ghost predicate RunInv(s: Run, ow: seq<Owner>, need: nat, f: nat) {
    && Owned(s.mem, ow) && |ow| == f && s.mem.need == [need]
    && Stacked(s.mem.tables[0], need, s.log, 0)
    && |Resident(s.mem.tables[0], need)| == Capped(|Recency(s.log, 0, need)|, f)
  }

  function Capped(n: nat, f: nat): nat {
    if n < f then n else f
  }

  lemma RecencyOfAppend(log: Log, r: Request, i: nat, need: nat)
    ensures Recency(log + [r], i, need) ==
              if r.proc == i && 0 <= r.page < need then [r.page as nat] + Without(Recency(log, i, need), r.page)
              else Recency(log, i, need)
  {
    assert (log + [r])[..|log|] == log;
  }

  lemma {:induction false} WithoutAbsent(s: seq<nat>, p: nat)
    requires p !in s
    ensures Without(s, p) == s
  {
    if s != [] { WithoutAbsent(s[1..], p); }
  }

  lemma RecencyRepeat(s: seq<nat>, p: nat)
    ensures [p] + Without([p] + Without(s, p), p) == [p] + Without(s, p)
  {
    WithoutMembers(s, p);
    assert ([p] + Without(s, p))[1..] == Without(s, p);
    WithoutAbsent(Without(s, p), p);
  }

  // Page v was requested before every other page of the set.
  ghost predicate LeastRecent(pages: set<nat>, v: nat, log: Log, i: nat) {
    v in pages && forall u :: u in pages && u != v ==> LastTime(log, i, v) < LastTime(log, i, u)
  }

  lemma VictimIsLeastRecent(t: Table, need: nat, log: Log, i: nat)
    requires need <= |t| && Stacked(t, need, log, i) && Victim(t, need) != -1
    ensures LeastRecent(Resident(t, need), Victim(t, need), log, i)
  {
    VictimIsEarliest(t, need, log, i, Victim(t, need));
  }

  lemma NoVictimNobody(t: Table, need: nat, log: Log, i: nat)
    requires need <= |t| && Stacked(t, need, log, i) && |log| < INT_MAX
    ensures Victim(t, need) == -1 <==> Resident(t, need) == {}
  {
    if Victim(t, need) == -1 {
      assert forall j: nat :: j in Resident(t, need) ==> t[j].stamp == LastTime(log, i, j) < INT_MAX;
    } else {
      var v: nat := Victim(t, need);
      assert v in Resident(t, need);
    }
  }

  lemma NobodyFree(m: Memory)
    requires Shaped(m)
    ensures m.frames[FreeFrame(m.frames, 0)] == 1 <==> FreeFrames(m) != {}
  {
    var x := FreeFrame(m.frames, 0);
    if m.frames[x] == 1 {
      assert x in FreeFrames(m);
    } else {
      assert forall y: nat :: y < |m.frames| ==> m.frames[y] != 1;
    }
  }

  lemma ResidentAfter(t: Table, need: nat, page: nat, e: Entry, v: nat)
    requires page < need <= |t| && v < need && t[page].frame == -1 && t[v].frame != -1 && e.frame != -1
    ensures Resident(t[page := e], need) == Resident(t, need) + {page}
    ensures Resident(t[page := e][v := UNMAPPED], need) == Resident(t, need) - {v} + {page}
  {}

  // What a page fault does to the resident set of the faulting process: the page comes in, and the
  // least recently used one goes out if no frame is free.
  lemma LoadChangesResident(m: Memory, ow: seq<Owner>, log: Log, i: nat, page: nat)
    requires Owned(m, ow) && i < |m.tables| && page < m.need[i] && !Hit(m, i, page)
    requires Stacked(m.tables[i], m.need[i], log, i) && |log| + 1 < INT_MAX
    ensures var before, after := Resident(m.tables[i], m.need[i]),
                                 Resident(Load(m, i, page, |log| + 1).tables[i], m.need[i]);
            && page !in before
            && (FreeFrames(m) != {} ==> after == before + {page})
            && (FreeFrames(m) == {} && before != {} ==>
                  exists v :: LeastRecent(before, v, log, i) && after == before - {v} + {page})
            && (FreeFrames(m) == {} && before == {} ==> Load(m, i, page, |log| + 1) == m)
  {
    var t, need := m.tables[i], m.need[i];
    assert EntryAgrees(m, ow, i, page);
    NobodyFree(m);
    NoVictimNobody(t, need, log, i);
    if FreeFrames(m) != {} {
      assert Resident(t[page := Entry(FreeFrame(m.frames, 0), 1, |log| + 1)], need) == Resident(t, need) + {page};
    } else if Resident(t, need) != {} {
      VictimIsLeastRecent(t, need, log, i);
      ResidentAfter(t, need, page, Entry(t[Victim(t, need)].frame, 1, |log| + 1), Victim(t, need));
    }
  }

  // The resident pages of process 0, as pairs.
  function Pairs(t: Table, n: nat): set<(nat, nat)>
    requires n <= |t|
  {
    set i: nat, j: nat | i < 1 && j < n && t[j].frame != -1 :: (i, j)
  }

  lemma PairsStep(t: Table, n: nat)
    requires 0 < n <= |t|
    ensures Pairs(t, n) == Pairs(t, n - 1) + if t[n - 1].frame != -1 then {(0, n - 1)} else {}
  {}

  lemma {:induction false} PairCount(t: Table, n: nat)
    requires n <= |t|
    ensures |Pairs(t, n)| == |Resident(t, n)|
  {
    if n > 0 {
      PairCount(t, n - 1);
      PairsStep(t, n);
      assert Resident(t, n) == Resident(t, n - 1) + if t[n - 1].frame != -1 then {n - 1} else {};
    } else {
      assert Pairs(t, 0) == {};
      assert Resident(t, 0) == {};
    }
  }

  // With one process, its resident pages and the free frames make up all frames.
  lemma SingleConserved(m: Memory, ow: seq<Owner>)
    requires Owned(m, ow) && |m.tables| == 1
    ensures |FreeFrames(m)| + |Resident(m.tables[0], m.need[0])| == |ow|
  {
    var t, need := m.tables[0], m.need[0];
    FramesConserved(m, ow);
    PairCount(t, need);
    forall j | 0 <= j < |t| && t[j].frame != -1 ensures j < need {
      assert EntryAgrees(m, ow, 0, j);
      assert HoldsFrame(m, 0, j, t[j].frame);
    }
    assert ResidentPages(m) == Pairs(t, need);
  }

  // A repeated reference leaves the recency list's length alone, a new one adds one.
  lemma RecencyLength(log: Log, i: nat, need: nat, page: nat)
    requires page < need
    ensures |Recency(log + [Request(i, page)], i, need)| ==
            |Recency(log, i, need)| + if page in Recency(log, i, need) then 0 else 1
  {
    var r := Request(i, page);
    var rec, rec' := Recency(log, i, need), Recency(log + [r], i, need);
    RecencyDistinct(log, i, need);
    RecencyDistinct(log + [r], i, need);
    RecencyOfAppend(log, r, i, need);
    WithoutMembers(rec, page);
    assert Elements(rec') == Elements(rec) + {page};
    assert |rec'| == |Elements(rec')| && |rec| == |Elements(rec)|;
    if page in rec {
      assert Elements(rec) + {page} == Elements(rec);
    } else {
      assert page !in Elements(rec);
    }
  }

  lemma HitKeepsRunInv(s: Run, ow: seq<Owner>, need: nat, f: nat, page: nat)
    requires RunInv(s, ow, need, f) && page < need && Hit(s.mem, 0, page)
    ensures RunInv(Reference(s, page), ow, need, f)
    ensures Resident(Reference(s, page).mem.tables[0], need) == Resident(s.mem.tables[0], need)
    ensures Recency(s.log + [Request(0, page)], 0, need) == Recency(Reference(s, page).log, 0, need)
  {
    var t := s.mem.tables[0];
    TouchKeepsOwned(s.mem, ow, 0, page, |s.log| + 1);
    TouchKeepsStacked(t, need, s.log, 0, page);
    assert Resident(Reference(s, page).mem.tables[0], need) == Resident(t, need);
    RecencyLength(s.log, 0, need, page);
    ResidentIsMostRecent(t, need, s.log, 0);
    assert page in Resident(t, need);
  }

  // The MMU's part of a fault, before the process asks again.
  function FaultStep(s: Run, page: nat): (r: Run)
    requires Shaped(s.mem) && |s.mem.tables| == 1 && page < s.mem.need[0]
    ensures Shaped(r.mem) && r.mem.need == s.mem.need
  {
    Run(Load(CountFault(s.mem, 0), 0, page, |s.log| + 1), s.log + [Request(0, page)])
  }

  lemma FaultKeepsRunInv(s: Run, ow: seq<Owner>, need: nat, f: nat, page: nat) returns (ow': seq<Owner>)
    requires RunInv(s, ow, need, f) && page < need && f >= 1 && |s.log| + 1 < INT_MAX
    requires !Hit(s.mem, 0, page)
    ensures RunInv(FaultStep(s, page), ow', need, f)
    ensures Hit(FaultStep(s, page).mem, 0, page) && page !in Resident(s.mem.tables[0], need)
  {
    var m := CountFault(s.mem, 0);
    CountersKeepOwned(s.mem, ow, 0);
    LoadKeepsOwned(m, ow, 0, page, |s.log| + 1);
    LoadKeepsStacked(m, ow, s.log, 0, page);
    ow' := LoadOwner(m, ow, 0, page);
    LoadedCount(m, ow, s.log, need, f, page);
    assert EntryAgrees(FaultStep(s, page).mem, ow', 0, page);
  }

  lemma LoadedCount(m: Memory, ow: seq<Owner>, log: Log, need: nat, f: nat, page: nat)
    requires Owned(m, ow) && m.need == [need] && |ow| == f >= 1 && page < need && !Hit(m, 0, page)
    requires Stacked(m.tables[0], need, log, 0) && |log| + 1 < INT_MAX
    requires |Resident(m.tables[0], need)| == Capped(|Recency(log, 0, need)|, f)
    ensures page !in Resident(m.tables[0], need)
    ensures page in Resident(Load(m, 0, page, |log| + 1).tables[0], need)
    ensures |Resident(Load(m, 0, page, |log| + 1).tables[0], need)| ==
            Capped(|Recency(log + [Request(0, page)], 0, need)|, f)
  {
    var before := Resident(m.tables[0], need);
    LoadChangesResident(m, ow, log, 0, page);
    SingleConserved(m, ow);
    RecencyLength(log, 0, need, page);
    ResidentIsMostRecent(m.tables[0], need, log, 0);
    if FreeFrames(m) != {} {
      assert |FreeFrames(m)| > 0;
      assert Recency(log, 0, need)[..|before|] == Recency(log, 0, need);
    }
  }

  // After the fault the process asks again, and hits.
  lemma FaultReference(s: Run, ow: seq<Owner>, need: nat, f: nat, page: nat) returns (ow': seq<Owner>)
    requires RunInv(s, ow, need, f) && page < need && f >= 1 && |s.log| + 2 < INT_MAX && !Hit(s.mem, 0, page)
    ensures RunInv(Reference(s, page), ow', need, f)
    ensures Reference(s, page).log == s.log + [Request(0, page), Request(0, page)]
    ensures Reference(s, page).mem.faults[0] == s.mem.faults[0] + 1 && page !in Resident(s.mem.tables[0], need)
  {
    ow' := FaultKeepsRunInv(s, ow, need, f, page);
    var s1 := FaultStep(s, page);
    HitKeepsRunInv(s1, ow', need, f, page);
    assert s.log + [Request(0, page), Request(0, page)] == s1.log + [Request(0, page)];
    assert Reference(s, page) == Reference(s1, page);
  }

  lemma TwiceIsOnce(log: Log, need: nat, page: nat)
    ensures Recency(log + [Request(0, page), Request(0, page)], 0, need) == Recency(log + [Request(0, page)], 0, need)
  {
    var r := Request(0, page);
    assert log + [r, r] == (log + [r]) + [r];
    RecencyOfAppend(log, r, 0, need);
    RecencyOfAppend(log + [r], r, 0, need);
    RecencyRepeat(Recency(log, 0, need), page);
  }

  // A whole reference, hit or fault, and what it adds to the fault total.
  lemma ReferenceKeepsRunInv(s: Run, ow: seq<Owner>, need: nat, f: nat, page: nat) returns (ow': seq<Owner>)
    requires RunInv(s, ow, need, f) && page < need && f >= 1 && |s.log| + 2 < INT_MAX
    ensures RunInv(Reference(s, page), ow', need, f)
    ensures Recency(Reference(s, page).log, 0, need) == Recency(s.log + [Request(0, page)], 0, need)
    ensures Reference(s, page).mem.faults[0] ==
            s.mem.faults[0] + if page in Resident(s.mem.tables[0], need) then 0 else 1
  {
    if Hit(s.mem, 0, page) {
      ow' := ow;
      HitKeepsRunInv(s, ow, need, f, page);
      assert page in Resident(s.mem.tables[0], need);
    } else {
      ow' := FaultReference(s, ow, need, f, page);
      TwiceIsOnce(s.log, need, page);
    }
  }

  // The state after a whole reference string, started from the master's initial memory.
  function References(f: nat, rows: nat, need: nat, pages: seq<nat>): (s: Run)
    requires need <= rows && forall n :: 0 <= n < |pages| ==> pages[n] < need
    ensures Shaped(s.mem) && s.mem.need == [need]
  {
    if pages == [] then
      InitialOwned([need], rows, f);
      Run(InitialMemory([need], rows, f), [])
    else
      Reference(References(f, rows, need, pages[..|pages| - 1]), pages[|pages| - 1])
  }

  lemma InitialRunInv(f: nat, rows: nat, need: nat)
    requires need <= rows
    ensures RunInv(Run(InitialMemory([need], rows, f), []), seq(f, _ => Free), need, f)
  {
    InitialOwned([need], rows, f);
    assert Resident(InitialMemory([need], rows, f).tables[0], need) == {};
  }

  lemma {:induction false} ReferencesInv(f: nat, rows: nat, need: nat, pages: seq<nat>) returns (ow: seq<Owner>)
    requires need <= rows && forall n :: 0 <= n < |pages| ==> pages[n] < need
    requires f >= 1 && 2 * |pages| < INT_MAX
    ensures RunInv(References(f, rows, need, pages), ow, need, f)
    ensures |References(f, rows, need, pages).log| <= 2 * |pages|
  {
    if pages == [] {
      ow := seq(f, _ => Free);
      InitialRunInv(f, rows, need);
    } else {
      var n := |pages| - 1;
      var before := ReferencesInv(f, rows, need, pages[..n]);
      ow := ReferenceKeepsRunInv(References(f, rows, need, pages[..n]), before, need, f, pages[n]);
    }
  }

  // The last reference of a reference string: its effect on the recency list and the fault total.
  lemma LastReference(f: nat, rows: nat, need: nat, pages: seq<nat>, before: Run, page: nat)
    requires need <= rows && pages != [] && forall n :: 0 <= n < |pages| ==> pages[n] < need
    requires f >= 1 && 2 * |pages| < INT_MAX
    requires before == References(f, rows, need, pages[..|pages| - 1]) && page == pages[|pages| - 1]
    ensures Recency(References(f, rows, need, pages).log, 0, need) ==
            [page] + Without(Recency(before.log, 0, need), page)
    ensures References(f, rows, need, pages).mem.faults[0] ==
            before.mem.faults[0] + if page in Resident(before.mem.tables[0], need) then 0 else 1
  {
    var ow := ReferencesInv(f, rows, need, pages[..|pages| - 1]);
    ow := ReferenceKeepsRunInv(before, ow, need, f, page);
    RecencyOfAppend(before.log, Request(0, page), 0, need);
  }

  lemma LastRecency(pages: seq<nat>, need: nat)
    requires pages != [] && pages[|pages| - 1] < need
    ensures Recency(LogOf(pages), 0, need) ==
            [pages[|pages| - 1]] + Without(Recency(LogOf(pages[..|pages| - 1]), 0, need), pages[|pages| - 1])
  {
    var n := |pages| - 1;
    assert LogOf(pages) == LogOf(pages[..n]) + [Request(0, pages[n])];
    RecencyOfAppend(LogOf(pages[..n]), Request(0, pages[n]), 0, need);
  }

  lemma {:induction false} ReferencesRecency(f: nat, rows: nat, need: nat, pages: seq<nat>)
    requires need <= rows && forall n :: 0 <= n < |pages| ==> pages[n] < need
    requires f >= 1 && 2 * |pages| < INT_MAX
    ensures Recency(References(f, rows, need, pages).log, 0, need) == Recency(LogOf(pages), 0, need)
  {
    if pages == [] {
      assert LogOf(pages) == [];
    } else {
      var n := |pages| - 1;
      ReferencesRecency(f, rows, need, pages[..n]);
      LastReference(f, rows, need, pages, References(f, rows, need, pages[..n]), pages[n]);
      LastRecency(pages, need);
    }
  }

  function LogOf(pages: seq<nat>): Log {
    seq(|pages|, n requires 0 <= n < |pages| => Request(0, pages[n]))
  }

  lemma PrefixElements(s: seq<nat>, a: nat, b: nat)
    requires a <= b <= |s|
    ensures Elements(s[..a]) <= Elements(s[..b])
  {
    assert s[..a] == s[..b][..a];
  }

  // No Belady anomaly: with more frames, the resident set after any reference string is a superset
  // and the number of page faults is no larger.
  lemma {:induction false} MoreFramesNeverHurt(f: nat, g: nat, rows: nat, need: nat, pages: seq<nat>)
    requires need <= rows && forall n :: 0 <= n < |pages| ==> pages[n] < need
    requires 1 <= f <= g && 2 * |pages| < INT_MAX
    ensures Resident(References(f, rows, need, pages).mem.tables[0], need) <=
            Resident(References(g, rows, need, pages).mem.tables[0], need)
    ensures References(g, rows, need, pages).mem.faults[0] <= References(f, rows, need, pages).mem.faults[0]
  {
    var owF := ReferencesInv(f, rows, need, pages);
    var owG := ReferencesInv(g, rows, need, pages);
    ReferencesRecency(f, rows, need, pages);
    ReferencesRecency(g, rows, need, pages);
    var sF, sG := References(f, rows, need, pages), References(g, rows, need, pages);
    ResidentIsMostRecent(sF.mem.tables[0], need, sF.log, 0);
    ResidentIsMostRecent(sG.mem.tables[0], need, sG.log, 0);
    var rec := Recency(LogOf(pages), 0, need);
    PrefixElements(rec, Capped(|rec|, f), Capped(|rec|, g));
    if pages != [] {
      var n := |pages| - 1;
      MoreFramesNeverHurt(f, g, rows, need, pages[..n]);
      LastReference(f, rows, need, pages, References(f, rows, need, pages[..n]), pages[n]);
      LastReference(g, rows, need, pages, References(g, rows, need, pages[..n]), pages[n]);
    }
  }
}
