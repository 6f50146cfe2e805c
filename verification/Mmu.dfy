// The MMU process itself: shared page tables and frame list updated in place.
module Mmus {
  import opened PagedMemory

  datatype Option<T> = None | Some(value: T)

  // What one request does: the new memory, the answer to the process and the type of the notice
  // sent to the scheduler.
  datatype Outcome = Outcome(mem: Memory, reply: Option<int>, notice: Option<nat>)

  const TERMINATE := -9
  const ILLEGAL := -2
  const FAULT := -1

  function Handled(m: Memory, i: nat, page: int, now: int): Outcome
    requires Shaped(m) && i < |m.tables| && (page == TERMINATE || page >= 0)
  {
    if page == TERMINATE then Outcome(Release(m, i), None, Some(2))
    else if page >= m.need[i] then Outcome(Release(CountIllegal(m, i), i), Some(ILLEGAL), Some(2))
    else if Hit(m, i, page) then Outcome(Touch(m, i, page, now), Some(m.tables[i][page].frame), None)
    else Outcome(Load(CountFault(m, i), i, page, now), Some(FAULT), Some(1))
  }

  // What the process and the scheduler are told, and what is counted.
  lemma AnswersAndTotals(m: Memory, i: nat, page: int, now: int)
    requires Shaped(m) && i < |m.tables| && (page == TERMINATE || page >= 0)
    ensures var done := Handled(m, i, page, now);
            var legal := 0 <= page < m.need[i];
            var hit := legal && m.tables[i][page].frame != -1 && m.tables[i][page].valid == 1;
            && done.mem.illegal == (if page >= m.need[i] then m.illegal[i := m.illegal[i] + 1] else m.illegal)
            && done.mem.faults == (if legal && !hit then m.faults[i := m.faults[i] + 1] else m.faults)
            && done.reply == (if page == -9 then None
                              else if hit then Some(m.tables[i][page].frame)
                              else if legal then Some(-1) else Some(-2))
            && done.notice == (if hit then None else if legal then Some(1) else Some(2))
  {
    assert ShapedTable(m.tables[i], m.need[i], |m.frames| - 1);
  }

  class Mmu {
    const need: seq<nat>
    const tables: array2<Entry>
    const frames: array<int>
    const faults: array<nat>
    const illegal: array<nat>
    var timestamp: int

    ghost predicate Separate() {
      && tables.Length0 == |need| == faults.Length == illegal.Length
      && faults != illegal
    }

    ghost function Row(i: nat): (t: Table)
      requires i < tables.Length0
      reads tables
      ensures |t| == tables.Length1
      ensures forall j :: 0 <= j < |t| ==> t[j] == tables[i, j]
    {
      seq(tables.Length1, j requires 0 <= j < tables.Length1 reads tables => tables[i, j])
    }

    ghost function View(): (m: Memory)
      reads tables, frames, faults, illegal
      ensures |m.tables| == tables.Length0 && m.need == need
      ensures forall i :: 0 <= i < |m.tables| ==> m.tables[i] == Row(i)
      ensures m.frames == frames[..] && m.faults == faults[..] && m.illegal == illegal[..]
    {
      Memory(need, seq(tables.Length0, i requires 0 <= i < tables.Length0 reads tables => Row(i)),
             frames[..], faults[..], illegal[..])
    }

    ghost predicate Valid()
      reads tables, frames, faults, illegal
    {
      Separate() && Shaped(View())
    }

    // The master's initialisation of both shared memories.
    constructor (need: seq<nat>, rows: nat, f: nat)
      requires forall i :: 0 <= i < |need| ==> need[i] <= rows
      ensures Valid() && timestamp == 0 && View() == InitialMemory(need, rows, f)
      ensures fresh(tables) && fresh(frames) && fresh(faults) && fresh(illegal)
    {
      this.need := need;
      tables := new Entry[|need|, rows]((_, _) => UNMAPPED);
      frames := new int[f + 1](x => if x < f then 1 else -1);
      faults := new nat[|need|](_ => 0);
      illegal := new nat[|need|](_ => 0);
      timestamp := 0;
      new;
      var init := InitialMemory(need, rows, f);
      forall i | 0 <= i < |need| ensures View().tables[i] == init.tables[i] {
        assert Row(i) == init.tables[i];
      }
      assert View() == init;
      InitialOwned(need, rows, f);
    }

    // Writes one entry of a page table.
    method Store(i: nat, j: nat, e: Entry)
      requires Separate() && i < |need| && j < tables.Length1
      modifies tables
      ensures View() == SetEntry(old(View()), i, j, e)
    {
      ghost var next := SetEntry(View(), i, j, e);
      tables[i, j] := e;
      forall k | 0 <= k < |need| ensures View().tables[k] == next.tables[k] {
        assert Row(k) == next.tables[k];
      }
    }

    // One turn of the release loop.
    method ReleasePage(i: nat, j: nat)
      requires Valid() && i < |need| && j < need[i]
      modifies tables, frames
      ensures View() == ReleaseEntry(old(View()), i, j)
    {
      ghost var m := View();
      assert ShapedTable(m.tables[i], need[i], frames.Length - 1);
      if tables[i, j].frame != -1 {
        frames[tables[i, j].frame] := 1;
        assert View() == m.(frames := frames[..]) by { assert View().tables == m.tables; }
        Store(i, j, UNMAPPED);
      }
    }

    // The same, as a turn of the loop that began with memory before.
    method ReleaseNext(ghost before: Memory, i: nat, j: nat)
      requires Valid() && i < |need| && j < need[i]
      requires Shaped(before) && before.need == need && View() == ReleaseUpTo(before, i, j)
      modifies tables, frames
      ensures Separate() && View() == ReleaseUpTo(before, i, j + 1)
    {
      ReleasePage(i, j);
    }

    // The release loop.
    method ReleaseProcess(i: nat)
      requires Valid() && i < |need|
      modifies tables, frames
      ensures Valid() && View() == Release(old(View()), i)
    {
      ghost var before := View();
      var j := 0;
      while j < need[i]
        invariant j <= need[i] && Separate()
        invariant View() == ReleaseUpTo(before, i, j)
      {
        ReleaseNext(before, i, j);
        j := j + 1;
      }
    }

    // Takes the first free frame off the list, or stops at the sentinel.
    method TakeFrame() returns (frame: nat)
      requires Valid()
      modifies frames
      ensures frame == FreeFrame(old(frames[..]), 0)
      ensures frames[..] == if old(frames[frame]) == 1 then old(frames[..])[frame := 0] else old(frames[..])
    {
      frame := 0;
      while frames[frame] != -1
        invariant frame < frames.Length
        invariant frames[..] == old(frames[..])
        invariant FreeFrame(frames[..], 0) == FreeFrame(frames[..], frame)
        decreases frames.Length - frame
      {
        if frames[frame] == 1 {
          frames[frame] := 0;
          break;
        }
        frame := frame + 1;
      }
    }

    // The scan for the least recently used page of process i.
    method FindVictim(i: nat) returns (idx: int, frame: int)
      requires Valid() && i < |need|
      ensures idx == Victim(View().tables[i], need[i])
      ensures idx >= 0 ==> frame == tables[i, idx].frame
    {
      var minTime := INT_MAX;
      idx, frame := -1, -1;
      var j := 0;
      assert ShapedTable(View().tables[i], need[i], frames.Length - 1);
      while j < need[i]
        invariant j <= need[i] <= tables.Length1
        invariant idx == Victim(View().tables[i], j)
        invariant idx >= 0 ==> frame == tables[i, idx].frame
        invariant minTime == if idx == -1 then INT_MAX else tables[i, idx].stamp
      {
        if tables[i, j].frame != -1 && tables[i, j].stamp < minTime {
          minTime := tables[i, j].stamp;
          idx := j;
          frame := tables[i, j].frame;
        }
        j := j + 1;
      }
    }

    // Without a free frame, the process's own least recently used page makes room, or nothing happens.
    method Evict(i: nat, page: nat)
      requires Valid() && i < |need| && page < need[i] && frames[FreeFrame(frames[..], 0)] != 1
      modifies tables
      ensures View() == Load(old(View()), i, page, timestamp)
    {
      ghost var before := View();
      assert ShapedTable(before.tables[i], need[i], frames.Length - 1);
      var idx, victimFrame := FindVictim(i);
      if idx != -1 {
        Store(i, page, Entry(victimFrame, 1, timestamp));
        Store(i, idx, UNMAPPED);
      }
    }

    // The fault handler: a free frame, else an eviction.
    method HandleFault(i: nat, page: nat)
      requires Valid() && i < |need| && page < need[i]
      modifies tables, frames
      ensures Valid() && View() == Load(old(View()), i, page, timestamp)
    {
      ghost var before := View();
      assert ShapedTable(before.tables[i], need[i], frames.Length - 1);
      var frame := TakeFrame();
      assert View().tables == before.tables;
      if frames[frame] != -1 {
        Store(i, page, Entry(frame, 1, timestamp));
      } else {
        assert View() == before;
        Evict(i, page);
      }
    }

    // One turn of the MMU's loop after a message has been received.
    method HandleRequest(i: nat, page: int) returns (reply: Option<int>, notice: Option<nat>)
      requires Valid() && i < |need| && (page == TERMINATE || page >= 0)
      modifies this, tables, frames, faults, illegal
      ensures Valid() && timestamp == old(timestamp) + 1
      ensures Outcome(View(), reply, notice) == Handled(old(View()), i, page, timestamp)
    {
      ghost var before := View();
      timestamp := timestamp + 1;
      assert ShapedTable(before.tables[i], need[i], frames.Length - 1);
      if page == TERMINATE {
        ReleaseProcess(i);
        return None, Some(2);
      } else if page >= need[i] {
        illegal[i] := illegal[i] + 1;
        assert View() == CountIllegal(before, i) by { assert View().tables == before.tables; }
        ReleaseProcess(i);
        return Some(ILLEGAL), Some(2);
      } else if tables[i, page].frame != -1 && tables[i, page].valid == 1 {
        Store(i, page, tables[i, page].(stamp := timestamp));
        return Some(tables[i, page].frame), None;
      } else {
        faults[i] := faults[i] + 1;
        assert View() == CountFault(before, i) by { assert View().tables == before.tables; }
        HandleFault(i, page);
        return Some(FAULT), Some(1);
      }
    }
  }
}
