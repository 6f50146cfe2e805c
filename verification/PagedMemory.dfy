// Page tables (shared memory 1) and the frame list (shared memory 2) of the paging assignment,
// with the memory operations of the MMU as functions on a snapshot.
module PagedMemory {

  const INT_MAX := 0x7FFF_FFFF

  datatype Entry = Entry(frame: int, valid: int, stamp: int)

  const UNMAPPED := Entry(-1, 0, INT_MAX)

  type Table = seq<Entry>

  // need[i] is sm1[i].mi. In frames, 1 is free, 0 is occupied and -1 ends the list.
  datatype Memory = Memory(need: seq<nat>, tables: seq<Table>, frames: seq<int>,
                           faults: seq<nat>, illegal: seq<nat>)

  // What the MMU's code relies on: the list of frames ends with its sentinel, tables hold at least
  // the required pages, and a table entry names no frame or one before the sentinel.
  ghost predicate Shaped(m: Memory) {
    && |m.need| == |m.tables| == |m.faults| == |m.illegal|
    && |m.frames| > 0 && m.frames[|m.frames| - 1] == -1
    && (forall x :: 0 <= x < |m.frames| - 1 ==> m.frames[x] != -1)
    && forall i :: 0 <= i < |m.tables| ==> ShapedTable(m.tables[i], m.need[i], |m.frames| - 1)
  }

  ghost predicate ShapedTable(t: Table, need: nat, f: nat) {
    need <= |t| && forall j :: 0 <= j < |t| ==> -1 <= t[j].frame < f
  }

  predicate Mapped(m: Memory, i: nat, j: nat)
    requires i < |m.tables| && j < |m.tables[i]|
  {
    m.tables[i][j].frame != -1
  }

  predicate Hit(m: Memory, i: nat, page: nat)
    requires i < |m.tables| && page < |m.tables[i]|
  {
    m.tables[i][page].frame != -1 && m.tables[i][page].valid == 1
  }

  // ---------- The MMU's operations ----------

  function SetEntry(m: Memory, i: nat, j: nat, e: Entry): Memory
    requires i < |m.tables| && j < |m.tables[i]|
  {
    m.(tables := m.tables[i := m.tables[i][j := e]])
  }

  // One turn of the release loop.
  function ReleaseEntry(m: Memory, i: nat, j: nat): Memory
    requires Shaped(m) && i < |m.tables| && j < m.need[i]
  {
    var frame := m.tables[i][j].frame;
    if frame == -1 then m else SetEntry(m.(frames := m.frames[frame := 1]), i, j, UNMAPPED)
  }

  // The release loop after its first n turns.
  function ReleaseUpTo(m: Memory, i: nat, n: nat): (r: Memory)
    requires Shaped(m) && i < |m.tables| && n <= m.need[i]
    ensures Shaped(r) && r.need == m.need && r.faults == m.faults && r.illegal == m.illegal
    ensures |r.frames| == |m.frames| && |r.tables| == |m.tables|
    ensures |r.tables[i]| == |m.tables[i]|
    ensures forall k :: 0 <= k < |m.tables| && k != i ==> r.tables[k] == m.tables[k]
    ensures forall j :: 0 <= j < |m.tables[i]| ==>
                          r.tables[i][j] == if j < n && Mapped(m, i, j) then UNMAPPED else m.tables[i][j]
    ensures forall x :: 0 <= x < |m.frames| ==>
                          r.frames[x] == if exists j :: 0 <= j < n && m.tables[i][j].frame == x then 1 else m.frames[x]
  {
    if n == 0 then m else ReleaseEntry(ReleaseUpTo(m, i, n - 1), i, n - 1)
  }

  function Release(m: Memory, i: nat): Memory
    requires Shaped(m) && i < |m.tables|
  {
    ReleaseUpTo(m, i, m.need[i])
  }

  function Touch(m: Memory, i: nat, page: nat, now: int): (r: Memory)
    requires i < |m.tables| && page < |m.tables[i]|
    ensures Shaped(m) ==> Shaped(r)
  {
    SetEntry(m, i, page, m.tables[i][page].(stamp := now))
  }

  // The first free frame at or after x, or the sentinel.
  function FreeFrame(frames: seq<int>, x: nat): (r: nat)
    requires x < |frames| && frames[|frames| - 1] == -1
    ensures x <= r < |frames| && frames[r] in {1, -1}
    ensures forall y :: x <= y < r ==> frames[y] !in {1, -1}
    decreases |frames| - x
  {
    if frames[x] == 1 || frames[x] == -1 then x else FreeFrame(frames, x + 1)
  }

  // The least recently used mapped page among the first n, or -1.
  function Victim(t: Table, n: nat): (v: int)
    requires n <= |t|
    ensures -1 <= v < n
    ensures v == -1 ==> forall j :: 0 <= j < n ==> t[j].frame == -1 || t[j].stamp >= INT_MAX
    ensures v >= 0 ==> t[v].frame != -1 && t[v].stamp < INT_MAX
    ensures v >= 0 ==> forall j :: 0 <= j < n && t[j].frame != -1 ==> t[v].stamp <= t[j].stamp
    ensures v >= 0 ==> forall j :: 0 <= j < v && t[j].frame != -1 ==> t[v].stamp < t[j].stamp
  {
    if n == 0 then -1
    else
      var v := Victim(t, n - 1);
      if t[n - 1].frame != -1 && t[n - 1].stamp < (if v == -1 then INT_MAX else t[v].stamp) then n - 1 else v
  }

  // What the MMU does for a page fault, after telling the process about it.
  function Load(m: Memory, i: nat, page: nat, now: int): (r: Memory)
    requires Shaped(m) && i < |m.tables| && page < m.need[i]
    ensures Shaped(r)
  {
    var x := FreeFrame(m.frames, 0);
    if m.frames[x] == 1 then
      SetEntry(m.(frames := m.frames[x := 0]), i, page, Entry(x, 1, now))
    else
      var v := Victim(m.tables[i], m.need[i]);
      if v == -1 then m
      else SetEntry(SetEntry(m, i, page, Entry(m.tables[i][v].frame, 1, now)), i, v, UNMAPPED)
  }

  function CountFault(m: Memory, i: nat): Memory
    requires i < |m.faults|
  {
    m.(faults := m.faults[i := m.faults[i] + 1])
  }

  function CountIllegal(m: Memory, i: nat): Memory
    requires i < |m.illegal|
  {
    m.(illegal := m.illegal[i := m.illegal[i] + 1])
  }

  // The master's initial tables and frames: rows pages per table, f frames.
  function InitialMemory(need: seq<nat>, rows: nat, f: nat): Memory {
    Memory(need, seq(|need|, _ => seq(rows, _ => UNMAPPED)), seq(f, _ => 1) + [-1],
           seq(|need|, _ => 0), seq(|need|, _ => 0))
  }

  // ---------- Frame ownership ----------

  datatype Owner = Free | By(proc: nat, page: nat)

  // Every frame is free or belongs to exactly one required page, and the tables say the same.
  ghost predicate Owned(m: Memory, ow: seq<Owner>) {
    && Shaped(m)
    && |ow| == |m.frames| - 1
    && (forall x :: 0 <= x < |ow| ==> m.frames[x] == if ow[x].Free? then 1 else 0)
    && (forall x :: 0 <= x < |ow| && ow[x].By? ==> HoldsFrame(m, ow[x].proc, ow[x].page, x))
    && forall i, j :: 0 <= i < |m.tables| && 0 <= j < |m.tables[i]| ==> EntryAgrees(m, ow, i, j)
  }

  ghost predicate HoldsFrame(m: Memory, i: nat, j: nat, x: nat) {
    i < |m.tables| && i < |m.need| && j < |m.tables[i]| && j < m.need[i] && m.tables[i][j].frame == x
  }

  ghost predicate EntryAgrees(m: Memory, ow: seq<Owner>, i: nat, j: nat)
    requires i < |m.tables| && j < |m.tables[i]|
  {
    var e := m.tables[i][j];
    if e.frame == -1 then e == UNMAPPED
    else e.valid == 1 && 0 <= e.frame < |ow| && ow[e.frame] == By(i, j)
  }

  lemma MappedIsRequired(m: Memory, ow: seq<Owner>, i: nat, j: nat)
    requires Owned(m, ow) && i < |m.tables| && j < |m.tables[i]| && m.tables[i][j].frame != -1
    ensures j < m.need[i] && |ow| > 0
  {
    assert EntryAgrees(m, ow, i, j);
    assert HoldsFrame(m, i, j, m.tables[i][j].frame);
  }

  function ReleaseOwner(ow: seq<Owner>, i: nat): seq<Owner> {
    seq(|ow|, x requires 0 <= x < |ow| => if ow[x].By? && ow[x].proc == i then Free else ow[x])
  }

  function LoadOwner(m: Memory, ow: seq<Owner>, i: nat, page: nat): seq<Owner>
    requires Owned(m, ow) && i < |m.tables| && page < m.need[i]
  {
    var x := FreeFrame(m.frames, 0);
    if m.frames[x] == 1 then ow[x := By(i, page)]
    else
      var v := Victim(m.tables[i], m.need[i]);
      if v == -1 then ow else
        assert EntryAgrees(m, ow, i, v);
        ow[m.tables[i][v].frame := By(i, page)]
  }

  lemma InitialOwned(need: seq<nat>, rows: nat, f: nat)
    requires forall i :: 0 <= i < |need| ==> need[i] <= rows
    ensures Owned(InitialMemory(need, rows, f), seq(f, _ => Free))
  {}

  lemma ReleaseKeepsOwned(m: Memory, ow: seq<Owner>, i: nat)
    requires Owned(m, ow) && i < |m.tables|
    ensures Owned(Release(m, i), ReleaseOwner(ow, i))
    ensures forall j :: 0 <= j < |m.tables[i]| ==> Release(m, i).tables[i][j] == UNMAPPED
  {
    var r, rw := Release(m, i), ReleaseOwner(ow, i);
    forall k, j | 0 <= k < |m.tables| && 0 <= j < |m.tables[k]| ensures EntryAgrees(r, rw, k, j) {
      assert EntryAgrees(m, ow, k, j);
      if m.tables[k][j].frame != -1 { assert HoldsFrame(m, k, j, m.tables[k][j].frame); }
    }
    forall x | 0 <= x < |ow| ensures r.frames[x] == if rw[x].Free? then 1 else 0 {
      if ow[x].By? && ow[x].proc == i { assert HoldsFrame(m, i, ow[x].page, x); }
      forall j | 0 <= j < m.need[i] && m.tables[i][j].frame == x ensures ow[x] == By(i, j) {
        assert EntryAgrees(m, ow, i, j);
      }
    }
    forall x | 0 <= x < |ow| && rw[x].By? ensures HoldsFrame(r, rw[x].proc, rw[x].page, x) {
      assert HoldsFrame(m, ow[x].proc, ow[x].page, x);
    }
    forall j | 0 <= j < |m.tables[i]| ensures r.tables[i][j] == UNMAPPED {
      assert EntryAgrees(m, ow, i, j);
      if m.tables[i][j].frame != -1 { assert HoldsFrame(m, i, j, m.tables[i][j].frame); }
    }
  }

  lemma TouchKeepsOwned(m: Memory, ow: seq<Owner>, i: nat, page: nat, now: int)
    requires Owned(m, ow) && i < |m.tables| && page < m.need[i] && Hit(m, i, page)
    ensures Owned(Touch(m, i, page, now), ow)
  {
    var r := Touch(m, i, page, now);
    forall x | 0 <= x < |ow| && ow[x].By? ensures HoldsFrame(r, ow[x].proc, ow[x].page, x) {
      assert HoldsFrame(m, ow[x].proc, ow[x].page, x);
    }
    forall k, j | 0 <= k < |m.tables| && 0 <= j < |m.tables[k]| ensures EntryAgrees(r, ow, k, j) {
      assert EntryAgrees(m, ow, k, j);
    }
  }

  lemma LoadTouchesOne(m: Memory, i: nat, page: nat, now: int)
    requires Shaped(m) && i < |m.tables| && page < m.need[i]
    ensures var r := Load(m, i, page, now);
            && r.need == m.need && |r.frames| == |m.frames| && r.tables == m.tables[i := r.tables[i]]
            && |r.tables[i]| == |m.tables[i]|
  {}

  lemma LoadAgrees(m: Memory, ow: seq<Owner>, i: nat, page: nat, now: int, k: nat, j: nat)
    requires Owned(m, ow) && i < |m.tables| && page < m.need[i] && !Hit(m, i, page)
    requires k < |m.tables| && j < |m.tables[k]| && k < |Load(m, i, page, now).tables|
    requires j < |Load(m, i, page, now).tables[k]|
    ensures EntryAgrees(Load(m, i, page, now), LoadOwner(m, ow, i, page), k, j)
  {
    assert EntryAgrees(m, ow, i, page);
    assert EntryAgrees(m, ow, k, j);
    var v := Victim(m.tables[i], m.need[i]);
    if v != -1 { assert EntryAgrees(m, ow, i, v); }
  }

  // A fault keeps tables, frame list and owners in agreement, and never evicts the page that it loads.
  lemma LoadKeepsOwned(m: Memory, ow: seq<Owner>, i: nat, page: nat, now: int)
    requires Owned(m, ow) && i < |m.tables| && page < m.need[i] && !Hit(m, i, page)
    ensures Owned(Load(m, i, page, now), LoadOwner(m, ow, i, page))
    ensures Victim(m.tables[i], m.need[i]) != page
  {
    var r, rw := Load(m, i, page, now), LoadOwner(m, ow, i, page);
    assert EntryAgrees(m, ow, i, page);
    var v := Victim(m.tables[i], m.need[i]);
    if v != -1 { assert EntryAgrees(m, ow, i, v); }
    LoadTouchesOne(m, i, page, now);
    forall y | 0 <= y < |rw| && rw[y].By? ensures HoldsFrame(r, rw[y].proc, rw[y].page, y) {
      if rw[y] == ow[y] { assert HoldsFrame(m, ow[y].proc, ow[y].page, y); }
    }
    forall k, j | 0 <= k < |r.tables| && 0 <= j < |r.tables[k]| ensures EntryAgrees(r, rw, k, j) {
      LoadAgrees(m, ow, i, page, now, k, j);
    }
  }

  // The statistics do not matter for ownership.
  lemma CountersKeepOwned(m: Memory, ow: seq<Owner>, i: nat)
    requires Owned(m, ow) && i < |m.faults|
    ensures Owned(CountFault(m, i), ow) && Owned(CountIllegal(m, i), ow)
  {
    forall r | r == CountFault(m, i) || r == CountIllegal(m, i) ensures Owned(r, ow) {
      forall x | 0 <= x < |ow| && ow[x].By? ensures HoldsFrame(r, ow[x].proc, ow[x].page, x) {
        assert HoldsFrame(m, ow[x].proc, ow[x].page, x);
      }
      forall k, j | 0 <= k < |r.tables| && 0 <= j < |r.tables[k]| ensures EntryAgrees(r, ow, k, j) {
        assert EntryAgrees(m, ow, k, j);
      }
    }
  }

  // ---------- Frame conservation ----------

  function FreeFrames(m: Memory): set<nat> {
    set x: nat | x < |m.frames| && m.frames[x] == 1
  }

  function ResidentPages(m: Memory): set<(nat, nat)> {
    set i: nat, j: nat | i < |m.tables| && j < |m.tables[i]| && m.tables[i][j].frame != -1 :: (i, j)
  }

  // A frame is occupied exactly when one (process, required page) pair maps to it.
  lemma OccupiedIffMappedOnce(m: Memory, ow: seq<Owner>, x: nat)
    requires Owned(m, ow) && x < |m.frames| - 1
    ensures m.frames[x] == 0 <==> exists i, j :: HoldsFrame(m, i, j, x)
    ensures forall i, j, k, l :: HoldsFrame(m, i, j, x) && HoldsFrame(m, k, l, x) ==> i == k && j == l
    ensures m.frames[x] in {0, 1}
  {
    forall i, j | HoldsFrame(m, i, j, x) ensures ow[x] == By(i, j) {
      assert EntryAgrees(m, ow, i, j);
    }
    if m.frames[x] == 0 { assert HoldsFrame(m, ow[x].proc, ow[x].page, x); }
  }

  // Free frames and resident pages always add up to the number of frames.
  lemma FramesConserved(m: Memory, ow: seq<Owner>)
    requires Owned(m, ow)
    ensures |FreeFrames(m)| + |ResidentPages(m)| == |m.frames| - 1
  {
    var f := |ow|;
    FreeCount(m, ow, f);
    ResidentCount(m, ow, f);
    assert FreeFrames(m) == set x: nat | x < f && ow[x].Free?;
    forall i, j | (i, j) in ResidentPages(m) ensures (i, j) in OwnersBelow(ow, f) {
      assert EntryAgrees(m, ow, i, j);
      assert ow[m.tables[i][j].frame] == By(i, j);
    }
    forall p | p in OwnersBelow(ow, f) ensures p in ResidentPages(m) {
      var x: nat :| x < f && ow[x].By? && p == (ow[x].proc, ow[x].page);
      assert HoldsFrame(m, p.0, p.1, x);
    }
    assert ResidentPages(m) == OwnersBelow(ow, f);
  }

  function OwnersBelow(ow: seq<Owner>, n: nat): set<(nat, nat)>
    requires n <= |ow|
  {
    set x: nat | x < n && ow[x].By? :: (ow[x].proc, ow[x].page)
  }

  function CountFree(ow: seq<Owner>, n: nat): (c: nat)
    requires n <= |ow|
    ensures c <= n
  {
    if n == 0 then 0 else CountFree(ow, n - 1) + if ow[n - 1].Free? then 1 else 0
  }

  lemma {:induction false} FreeCount(m: Memory, ow: seq<Owner>, n: nat)
    requires n <= |ow|
    ensures |set x: nat | x < n && ow[x].Free?| == CountFree(ow, n)
  {
    if n > 0 {
      FreeCount(m, ow, n - 1);
      var s, t := set x: nat | x < n - 1 && ow[x].Free?, set x: nat | x < n && ow[x].Free?;
      assert t == if ow[n - 1].Free? then s + {n - 1} else s;
    }
  }

  lemma {:induction false} ResidentCount(m: Memory, ow: seq<Owner>, n: nat)
    requires Owned(m, ow) && n <= |ow|
    ensures |OwnersBelow(ow, n)| == n - CountFree(ow, n)
  {
    if n > 0 {
      ResidentCount(m, ow, n - 1);
      var s, t := OwnersBelow(ow, n - 1), OwnersBelow(ow, n);
      if ow[n - 1].By? {
        var p := (ow[n - 1].proc, ow[n - 1].page);
        assert HoldsFrame(m, p.0, p.1, n - 1);
        forall x: nat | x < n - 1 && ow[x].By? ensures (ow[x].proc, ow[x].page) != p {
          assert HoldsFrame(m, ow[x].proc, ow[x].page, x);
        }
        assert t == s + {p};
      } else {
        assert t == s;
      }
    }
  }
}
