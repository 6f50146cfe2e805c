// The directory synchroniser: a pass that makes the destination's entries those of the source, then one
// that sets times and modes. Any write to a file, and any change of a directory's entries, gives it an
// arbitrary new modification time, and a new entry gets an arbitrary mode: the operating system decides.
module DirSyncs {
  import opened FileTrees

  datatype Change = Change(symbol: char, path: Path)

  const BUF_SIZE := 4096

  // The report is a journal of the entries: from those of origin it leads to keys, an addition of an
  // entry that was missing or a removal of one that was there at a time.
  ghost predicate Journal(origin: set<Path>, report: seq<Change>, keys: set<Path>) {
    if report == [] then keys == origin
    else
      var c, earlier := report[|report| - 1], report[..|report| - 1];
      if c.symbol == '+' then c.path in keys && Journal(origin, earlier, keys - {c.path})
      else if c.symbol == '-' then c.path !in keys && Journal(origin, earlier, keys + {c.path})
      else c.path in keys && Journal(origin, earlier, keys)
  }

  // How often a change has been reported.
  function Lines(report: seq<Change>, symbol: char, q: Path): nat {
    multiset(report)[Change(symbol, q)]
  }

  function Net(report: seq<Change>): int {
    if report == [] then 0
    else Net(report[..|report| - 1])
         + if report[|report| - 1].symbol == '+' then 1 else if report[|report| - 1].symbol == '-' then -1 else 0
  }

  // Additions less removals is what the tree has grown by.
  lemma {:induction false} JournalCounts(origin: set<Path>, report: seq<Change>, keys: set<Path>)
    requires Journal(origin, report, keys)
    ensures Net(report) == |keys| - |origin|
  {
    if report != [] {
      var c, earlier := report[|report| - 1], report[..|report| - 1];
      JournalCounts(origin, earlier,
                    if c.symbol == '+' then keys - {c.path} else if c.symbol == '-' then keys + {c.path} else keys);
    }
  }

  class Syncer {
    const src: Tree
    var dst: Tree
    var report: seq<Change>

    // The paths in the destination before the run.
    ghost const origin: set<Path>

    ghost predicate Valid()
      reads this
    {
      IsTree(dst) && Journal(origin, report, dst.Keys)
    }

    constructor (src: Tree, dst: Tree)
      requires IsTree(dst)
      ensures this.src == src && this.dst == dst && report == [] && origin == dst.Keys && Valid()
    {
      this.src, this.dst, this.report, this.origin := src, dst, [], dst.Keys;
    }

    method ReportChange(path: Path, symbol: char)
      requires symbol == '+' ==> path in dst && Journal(origin, report, dst.Keys - {path})
      requires symbol == '-' ==> path !in dst && Journal(origin, report, dst.Keys + {path})
      requires symbol !in {'+', '-'} ==> path in dst && Journal(origin, report, dst.Keys)
      modifies this`report
      ensures report == old(report) + [Change(symbol, path)] && Journal(origin, report, dst.Keys)
    {
      ghost var before := report;
      report := report + [Change(symbol, path)];
      assert report[..|report| - 1] == before;
    }

    // ---------- What the operating system does ----------

    // mkdir, or open with O_CREAT and the writing of all bytes: a new entry of a directory.
    method Make(c: Path, entry: Inode)
      requires IsTree(dst) && c != [] && c !in dst && Parent(c) in dst && dst[Parent(c)].Dir?
      modifies this`dst
      ensures IsTree(dst) && Made(old(dst), dst, c) && |dst| == |old(dst)| + 1
      ensures dst[c].Dir? == entry.Dir? && (entry.File? ==> dst[c].bytes == entry.bytes)
    {
      ghost var before := dst;
      var mtime: int, mode: int, mtime': int := *, *, *;
      var made := if entry.Dir? then Dir(mtime, mode) else File(entry.bytes, mtime, mode);
      dst := dst[c := made][Parent(c) := Dir(mtime', dst[Parent(c)].mode)];
      MadeKeepsTree(before, dst, c);
    }

    // open with O_TRUNC and the writing of all bytes.
    method Overwrite(c: Path, bytes: Bytes)
      requires IsTree(dst) && c in dst && dst[c].File?
      modifies this`dst
      ensures IsTree(dst) && dst.Keys == old(dst).Keys && forall q :: q in dst && q != c ==> dst[q] == old(dst)[q]
      ensures dst[c].File? && dst[c].bytes == bytes && dst[c].mode == old(dst)[c].mode
    {
      var mtime: int := *;
      dst := dst[c := File(bytes, mtime, dst[c].mode)];
      assert forall q :: q in dst ==> ParentOk(old(dst), q);
    }

    // remove of a file, or rmdir of an empty directory.
    method Unlink(c: Path)
      requires IsTree(dst) && c != [] && c in dst && Subtree(dst, c) == {c}
      modifies this`dst
      ensures IsTree(dst) && Cut(old(dst), dst, c) && |dst| == |old(dst)| - 1
    {
      ghost var before := dst;
      assert ParentOk(dst, c);
      var mtime': int := *;
      dst := dst[Parent(c) := Dir(mtime', dst[Parent(c)].mode)] - {c};
      CutKeepsTree(before, dst, c);
    }

    // ---------- The program ----------

    // The loop that copies a file by the buffer.
    method Copy(bytes: Bytes) returns (copy: Bytes)
      ensures copy == bytes
    {
      copy := [];
      var at := 0;
      while at < |bytes|
        invariant at <= |bytes| && copy == bytes[..at]
      {
        var read := if |bytes| - at < BUF_SIZE then |bytes| - at else BUF_SIZE;
        assert bytes[..at + read] == bytes[..at] + bytes[at..at + read];
        copy := copy + bytes[at..at + read];
        at := at + read;
      }
    }

    // A removal, and its report.
    method RemoveAlone(c: Path)
      requires Valid() && c != [] && c in dst && Subtree(dst, c) == {c}
      modifies this`dst, this`report
      ensures Valid() && Cut(old(dst), dst, c) && RemovalLines(old(report), report, old(dst), c)
    {
      Unlink(c);
      assert dst.Keys + {c} == old(dst).Keys;
      ReportChange(c, '-');
      assert forall q :: q in old(dst) && c <= q ==> q in Subtree(old(dst), c);
    }

    // Removes p with everything below it; every entry removed is reported.
    method RemoveDirectory(p: Path)
      requires Valid() && p != [] && p in dst && dst[p].Dir?
      modifies this`dst, this`report
      ensures Valid() && Cut(old(dst), dst, p) && RemovalLines(old(report), report, old(dst), p)
      decreases Subtree(dst, p), 2
    {
      RemoveEntries(p);
      ghost var d, reported := dst, report;
      EmptiedIsAlone(old(dst), dst, p);
      RemoveAlone(p);
      EmptiedIsCut(old(dst), d, dst, p);
      RemovalEnds(old(dst), d, old(report), reported, report, p);
    }

    // Its loop.
    method RemoveEntries(p: Path)
      requires Valid() && p != [] && p in dst && dst[p].Dir?
      modifies this`dst, this`report
      ensures Valid() && Emptying(old(dst), dst, p, {}) && RemovalLinesBut(old(report), report, old(dst), p, {})
      decreases Subtree(dst, p), 1
    {
      ghost var before := dst;
      EmptyingStarts(dst, p);
      RemovalStarts(dst, report, p);
      var todo := Kids(dst, p);
      while todo != {}
        invariant Valid() && Emptying(before, dst, p, todo) && RemovalLinesBut(old(report), report, before, p, todo)
        decreases todo
      {
        var c :| c in todo;
        assert todo - {c} + {c} == todo;
        todo := todo - {c};
        RemoveKid(c, before, old(report), p, todo);
      }
    }

    // One turn of that loop, on its way through the entries of p. r is the report before the loop.
    method RemoveKid(c: Path, ghost before: Tree, ghost r: seq<Change>, ghost p: Path, ghost todo: set<Path>)
      requires Valid() && IsTree(before) && Emptying(before, dst, p, todo + {c}) && c !in todo
      requires RemovalLinesBut(r, report, before, p, todo + {c})
      modifies this`dst, this`report
      ensures Valid() && Emptying(before, dst, p, todo) && RemovalLinesBut(r, report, before, p, todo)
      decreases Subtree(before, p), 0
    {
      ghost var d, reported := dst, report;
      EmptyingEntry(before, dst, p, todo + {c}, c);
      RemoveEntry(c);
      EmptyingGoesOn(before, d, dst, p, todo, c);
      RemovalGoesOn(before, d, r, reported, report, p, todo, c);
    }

    // One turn of that loop.
    method RemoveEntry(c: Path)
      requires Valid() && c != [] && c in dst
      modifies this`dst, this`report
      ensures Valid() && Cut(old(dst), dst, c) && RemovalLines(old(report), report, old(dst), c)
      decreases Subtree(dst, c), 3
    {
      if dst[c].Dir? {
        RemoveDirectory(c);
      } else {
        AloneInTree(dst, c);
        RemoveAlone(c);
      }
    }

    // mkdir or the copying of a file, and its report.
    method MakeAndReport(c: Path, entry: Inode)
      requires Valid() && c != [] && c !in dst && Parent(c) in dst && dst[Parent(c)].Dir?
      modifies this`dst, this`report
      ensures Valid() && Made(old(dst), dst, c) && report == old(report) + [Change('+', c)]
      ensures dst[c].Dir? == entry.Dir? && (entry.File? ==> dst[c].bytes == entry.bytes)
    {
      Make(c, entry);
      assert dst.Keys - {c} == old(dst).Keys;
      ReportChange(c, '+');
    }

    // A directory is made, in place of a file if there is one.
    method MakeDirectory(c: Path)
      requires Valid() && c in src && src[c].Dir? && c != [] && Parent(c) in dst && dst[Parent(c)].Dir?
      requires c in dst ==> dst[c].File?
      modifies this`dst, this`report
      ensures Valid() && Only(old(dst), dst, c) && Subtree(dst, c) == {c} && dst[c].Dir?
      ensures LinesAt(src, old(dst), old(report), report, c)
    {
      if c in dst {
        AloneInTree(dst, c);
        RemoveAlone(c);
        ghost var d, reported := dst, report;
        MakeAndReport(c, src[c]);
        ReplacedOnly(old(dst), d, dst, c);
        ReplacedLine(src, old(dst), old(report), reported, c);
      } else {
        NothingBelow(dst, c);
        MakeAndReport(c, src[c]);
        MadeOnly(old(dst), dst, c);
      }
    }

    // A turn of the first loop on a subdirectory of the source, up to the recursive call.
    method PrepareDirectory(c: Path)
      requires Valid() && c in src && src[c].Dir? && c != [] && Parent(c) in dst && dst[Parent(c)].Dir?
      modifies this`dst, this`report
      ensures Valid() && Only(old(dst), dst, c) && c in dst && dst[c].Dir?
      ensures LinesAt(src, old(dst), old(report), report, c)
      ensures if c in old(dst) && old(dst)[c].Dir? then dst == old(dst) && report == old(report)
              else Subtree(dst, c) == {c}
    {
      if c !in dst || !dst[c].Dir? {
        MakeDirectory(c);
        assert c in Subtree(dst, c);
      }
    }

    // A turn of the first loop on a file of the source that is to be made, in place of a directory if there is one.
    method MakeFile(c: Path)
      requires IsTree(src) && Valid() && c in src && src[c].File? && c != [] && Parent(c) in dst && dst[Parent(c)].Dir?
      requires c in dst ==> dst[c].Dir?
      modifies this`dst, this`report
      ensures Valid() && Only(old(dst), dst, c) && Subtree(dst, c) == {c} && NodeSynced(src, old(dst), dst, c)
      ensures FirstLines(src, old(dst), old(report), report, c)
    {
      if c in dst {
        RemoveDirectory(c);
        ghost var d, reported := dst, report;
        var bytes := Copy(src[c].bytes);
        MakeAndReport(c, File(bytes, 0, src[c].mode));
        ReplacedOnly(old(dst), d, dst, c);
        ReplacedLines(src, old(dst), old(report), reported, c);
      } else {
        NothingBelow(dst, c);
        var bytes := Copy(src[c].bytes);
        MakeAndReport(c, File(bytes, 0, src[c].mode));
        MadeOnly(old(dst), dst, c);
        FileLines(src, old(dst), old(report), report, c);
      }
    }

    // A turn of the first loop on a file of the source.
    method SyncFile(c: Path)
      requires IsTree(src) && Valid() && c in src && src[c].File? && c != [] && Parent(c) in dst && dst[Parent(c)].Dir?
      modifies this`dst, this`report
      ensures Valid() && Only(old(dst), dst, c) && Subtree(dst, c) == {c} && NodeSynced(src, old(dst), dst, c)
      ensures c in old(dst) && NodeQuiet(src[c], old(dst)[c]) ==> dst == old(dst) && report == old(report)
      ensures FirstLines(src, old(dst), old(report), report, c)
    {
      if c !in dst || !dst[c].File? {
        MakeFile(c);
      } else {
        AloneInTree(dst, c);
        if |src[c].bytes| != |dst[c].bytes| || src[c].mtime != dst[c].mtime {
          var bytes := Copy(src[c].bytes);
          Overwrite(c, bytes);
          OverwrittenOnly(old(dst), dst, c);
          ReportChange(c, 'o');
        }
        FileLines(src, old(dst), old(report), report, c);
      }
    }

    // A turn of the first loop.
    method SyncEntry(c: Path)
      requires IsTree(src) && Valid() && c in src && c != [] && Parent(c) in dst && dst[Parent(c)].Dir?
      modifies this`dst, this`report
      ensures Valid() && Only(old(dst), dst, c) && Synced(src, old(dst), dst, c)
      ensures FirstLines(src, old(dst), old(report), report, c)
      ensures Quiet(src, old(dst), c) ==> dst == old(dst) && report == old(report)
      decreases Subtree(src, c), 2
    {
      if src[c].Dir? {
        PrepareDirectory(c);
        ghost var d, reported := dst, report;
        SyncDirs(c);
        DirectorySynced(src, old(dst), d, dst, c);
        DirectoryLines(src, old(dst), d, old(report), reported, report, c);
      } else {
        SyncFile(c);
        FileSynced(src, old(dst), dst, c);
      }
    }

    // The first pass, at directory p: makes the entries below it those of the source.
    method SyncDirs(p: Path)
      requires IsTree(src) && Valid() && p in src && src[p].Dir? && p in dst && dst[p].Dir?
      modifies this`dst, this`report
      ensures Valid() && SameOutside(old(dst), dst, p) && Touched(old(dst), dst, p)
      ensures Synced(src, old(dst), dst, p) && FirstLines(src, old(dst), old(report), report, p)
      ensures Quiet(src, old(dst), p) ==> dst == old(dst) && report == old(report)
      decreases Subtree(src, p), 1
    {
      AddEntries(p);
      PruningStarts(src, old(dst), dst, p);
      PruneLinesStart(src, old(dst), dst, old(report), report, p);
      PruneEntries(old(dst), old(report), p);
      PruningEnds(src, old(dst), dst, p);
      PruneLinesEnd(src, old(dst), dst, old(report), report, p);
    }

    // Its second loop. before and r are destination and report before the pass.
    method PruneEntries(ghost before: Tree, ghost r: seq<Change>, p: Path)
      requires IsTree(src) && Valid() && Pruning(src, before, dst, p, Kids(dst, p))
      requires PruneLines(src, before, r, report, p, Kids(dst, p))
      modifies this`dst, this`report
      ensures Valid() && Pruning(src, before, dst, p, {}) && PruneLines(src, before, r, report, p, {})
      ensures Quiet(src, before, p) && old(dst) == before ==> dst == before && report == old(report)
    {
      var todo := Kids(dst, p);
      while todo != {}
        invariant Valid() && Pruning(src, before, dst, p, todo) && PruneLines(src, before, r, report, p, todo)
        invariant Quiet(src, before, p) && old(dst) == before ==> dst == before && report == old(report)
        decreases todo
      {
        var c :| c in todo;
        assert todo - {c} + {c} == todo;
        todo := todo - {c};
        PruneEntry(c, before, r, p, todo);
      }
    }

    // One turn of the second loop, on its way through the entries of p. r is the report before the pass.
    method PruneEntry(c: Path, ghost before: Tree, ghost r: seq<Change>, ghost p: Path, ghost todo: set<Path>)
      requires IsTree(src) && Valid() && c !in todo && Pruning(src, before, dst, p, todo + {c})
      requires PruneLines(src, before, r, report, p, todo + {c})
      modifies this`dst, this`report
      ensures Valid() && Pruning(src, before, dst, p, todo) && PruneLines(src, before, r, report, p, todo)
      ensures Quiet(src, before, p) && old(dst) == before ==> dst == before && report == old(report)
    {
      ghost var d, reported := dst, report;
      KidIsBelow(src, before, dst, p, c);
      if c !in src {
        RemoveEntry(c);
      }
      PruningGoesOn(src, before, d, dst, p, todo, c);
      PruneLinesGoOn(src, before, d, r, reported, report, p, todo, c);
    }

    // Its first loop.
    method AddEntries(p: Path)
      requires IsTree(src) && Valid() && p in src && src[p].Dir? && p in dst && dst[p].Dir?
      modifies this`dst, this`report
      ensures Valid() && Adding(src, old(dst), dst, p, {}) && FirstLinesBut(src, old(dst), old(report), report, p, {})
      ensures Quiet(src, old(dst), p) ==> dst == old(dst) && report == old(report)
      decreases Subtree(src, p), 0
    {
      ghost var before := dst;
      AddingStarts(src, dst, p);
      FirstLinesStart(src, dst, report, p);
      var todo := Kids(src, p);
      while todo != {}
        invariant Valid() && Adding(src, before, dst, p, todo)
        invariant FirstLinesBut(src, before, old(report), report, p, todo)
        invariant Quiet(src, before, p) ==> dst == before && report == old(report)
        decreases todo
      {
        var c :| c in todo;
        ghost var d, reported := dst, report;
        SubtreeOfKid(src, p, c);
        KidIsBelow(src, before, src, p, c);
        SyncEntry(c);
        todo := todo - {c};
        AddingGoesOn(src, before, d, dst, p, todo, c);
        FirstLinesGoOn(src, before, d, old(report), reported, report, p, todo, c);
      }
    }

    // futimes or fchmod, and the report of a change.
    method Restamp(c: Path, entry: Inode, changed: bool, symbol: char)
      requires Valid() && c in dst && entry.Dir? == dst[c].Dir? && symbol !in {'+', '-'}
      modifies this`dst, this`report
      ensures Valid() && dst == old(dst)[c := entry]
      ensures report == old(report) + if changed then [Change(symbol, c)] else []
    {
      StampKeepsTree(dst, c, entry);
      dst := dst[c := entry];
      if changed {
        ReportChange(c, symbol);
      }
    }

    // The time of c becomes that of the source, then its mode; both are reported where they differed.
    method Stamp(c: Path)
      requires Valid() && c in src && c in dst && src[c].Dir? == dst[c].Dir?
      modifies this`dst, this`report
      ensures Valid() && dst == old(dst)[c := Stamped(src[c], old(dst)[c])]
      ensures report == old(report) + StampLines(src[c], old(dst)[c], c)
    {
      var stat := dst[c];
      Restamp(c, Stamped(Dir(src[c].mtime, stat.mode), stat), src[c].mtime != stat.mtime, 't');
      if src[c].mode != stat.mode {
        Restamp(c, Stamped(src[c], stat), true, 'p');
      }
    }

    // The second pass, at directory p: gives the entries at and below it the times and modes of the source.
    method SyncTimePermissions(p: Path)
      requires IsTree(src) && Valid() && p in src && src[p].Dir? && Matching(src, dst, p)
      modifies this`dst, this`report
      ensures Valid() && dst == StampedUnder(src, old(dst), p) && Announced(src, old(dst), old(report), report, p)
      ensures QuietStamps(src, old(dst), p) ==> report == old(report)
      decreases Subtree(src, p), 2
    {
      StampEntries(p);
      StampingEnds(src, old(dst), dst, p);
      ghost var reported := report;
      Stamp(p);
      AnnouncingEnds(src, old(dst), old(report), reported, report, p);
    }

    // Its loop.
    method StampEntries(p: Path)
      requires IsTree(src) && Valid() && p in src && src[p].Dir? && Matching(src, dst, p)
      modifies this`dst, this`report
      ensures Valid() && Stamping(src, old(dst), dst, p, {}) && AnnouncedBut(src, old(dst), old(report), report, p, {})
      ensures QuietStamps(src, old(dst), p) ==> report == old(report)
      decreases Subtree(src, p), 1
    {
      ghost var before := dst;
      var todo := Kids(src, p);
      StampingStarts(src, dst, p);
      AnnouncingStarts(src, dst, report, p);
      while todo != {}
        invariant Valid() && Stamping(src, before, dst, p, todo)
        invariant AnnouncedBut(src, before, old(report), report, p, todo)
        invariant QuietStamps(src, before, p) ==> report == old(report)
        decreases todo
      {
        var c :| c in todo;
        assert todo - {c} + {c} == todo;
        todo := todo - {c};
        StampKid(c, before, old(report), p, todo);
      }
    }

    // One turn of that loop, on its way through the entries of p. r is the report before the loop.
    method StampKid(c: Path, ghost before: Tree, ghost r: seq<Change>, ghost p: Path, ghost todo: set<Path>)
      requires IsTree(src) && Valid() && c !in todo
      requires Stamping(src, before, dst, p, todo + {c}) && AnnouncedBut(src, before, r, report, p, todo + {c})
      modifies this`dst, this`report
      ensures Valid() && Stamping(src, before, dst, p, todo) && AnnouncedBut(src, before, r, report, p, todo)
      ensures QuietStamps(src, before, p) ==> report == old(report)
      decreases Subtree(src, p), 0
    {
      ghost var d, reported := dst, report;
      StampingEntry(src, before, dst, p, todo + {c}, c);
      SubtreeOfKid(src, p, c);
      StampEntry(c);
      StampingGoesOn(src, before, d, dst, p, todo, c);
      AnnouncingGoesOn(src, before, d, r, reported, report, p, todo, c);
    }

    // One turn of that loop.
    method StampEntry(c: Path)
      requires IsTree(src) && Valid() && c in src && Matching(src, dst, c)
      modifies this`dst, this`report
      ensures Valid() && dst == StampedUnder(src, old(dst), c) && Announced(src, old(dst), old(report), report, c)
      ensures QuietStamps(src, old(dst), c) ==> report == old(report)
      decreases Subtree(src, c), 3
    {
      if src[c].Dir? {
        SyncTimePermissions(c);
      } else {
        assert c <= c;
        FileStampedUnder(src, dst, c);
        Stamp(c);
        FileAnnounced(src, old(dst), old(report), report, c);
      }
    }

    // Both passes, on the two root directories.
    method Synchronize()
      requires IsTree(src) && Valid()
      modifies this`dst, this`report
      ensures Valid() && Outcome(src, old(dst), dst)
      ensures FirstLinesOnly(src, old(dst), old(report), report)
      ensures exists d :: Synced(src, old(dst), d, []) && AllLines(src, old(dst), d, old(report), report)
      ensures Agree(src, old(dst)) ==> dst == old(dst) && report == old(report)
    {
      ghost var before := dst;
      SyncDirs([]);
      ghost var d, reported := dst, report;
      FirstPassMatches(src, before, d);
      SyncTimePermissions([]);
      BothPasses(src, before, d, dst);
      BothReports(src, before, d, old(report), reported, report);
    }
  }

  // On the way to removing p: what is outside is as before, and of its entries only those in todo are left, as
  // they were.
  ghost predicate Emptying(before: Tree, d: Tree, p: Path, todo: set<Path>) {
    && p != [] && Touched(before, d, p) && todo <= Kids(before, p)
    && (forall q :: q in d <==> q in before && (p <= q && q != p ==> Towards(p, q) in todo))
    && (forall q :: q in d && q != p ==> d[q] == before[q])
  }

  lemma AloneInTree(d: Tree, c: Path)
    requires IsTree(d) && c in d && d[c].File?
    ensures Subtree(d, c) == {c}
  {
    forall q | q in Subtree(d, c) ensures q == c {
      if q != c { ThroughKid(d, c, q); }
    }
  }

  lemma EmptyingStarts(before: Tree, p: Path)
    requires IsTree(before) && p != [] && p in before && before[p].Dir?
    ensures Emptying(before, before, p, Kids(before, p))
  {
    forall q | q in before && p <= q && q != p ensures Towards(p, q) in Kids(before, p) {
      ThroughKid(before, p, q);
    }
  }

  lemma EmptyingGoesOn(before: Tree, d: Tree, e: Tree, p: Path, todo: set<Path>, c: Path)
    requires IsTree(before) && IsTree(d) && Emptying(before, d, p, todo + {c}) && c !in todo && Cut(d, e, c)
    ensures Emptying(before, e, p, todo)
  {
    assert c in Kids(before, p);
    forall q ensures q in e <==> q in before && (p <= q && q != p ==> Towards(p, q) in todo) {
      if q in d && p <= q && q != p {
        if c <= q { OnlyWay(p, c, q); }
      }
    }
  }

  lemma EmptyingEntry(before: Tree, d: Tree, p: Path, todo: set<Path>, c: Path)
    requires IsTree(before) && Emptying(before, d, p, todo) && c in todo
    ensures c != [] && c in d && Subtree(d, c) < Subtree(before, p)
  {
    SubtreeOfKid(before, p, c);
    OnlyWay(p, c, c);
    assert Subtree(d, c) <= Subtree(before, c);
  }

  lemma EmptiedIsCut(before: Tree, d: Tree, e: Tree, p: Path)
    requires Emptying(before, d, p, {}) && Cut(d, e, p)
    ensures Cut(before, e, p)
  {
    forall q ensures q in e <==> q in before && !(p <= q) {}
  }

  lemma EmptiedIsAlone(before: Tree, d: Tree, p: Path)
    requires IsTree(before) && Emptying(before, d, p, {})
    ensures Subtree(d, p) == {p}
  {}

  // The removal of exactly the entries at and below c has been reported.
  ghost predicate RemovalLines(r: seq<Change>, s: seq<Change>, d: Tree, c: Path) {
    forall x, q :: Lines(s, x, q) == Lines(r, x, q) + (if x == '-' && q in d && c <= q then 1 else 0)
  }

  ghost predicate RemovalLinesBut(r: seq<Change>, s: seq<Change>, before: Tree, p: Path, todo: set<Path>) {
    forall x, q :: Lines(s, x, q) ==
      Lines(r, x, q) + (if x == '-' && q in before && p <= q && q != p && Towards(p, q) !in todo then 1 else 0)
  }

  lemma RemovalStarts(before: Tree, r: seq<Change>, p: Path)
    requires IsTree(before)
    ensures RemovalLinesBut(r, r, before, p, Kids(before, p))
  {
    forall q | q in before && p <= q && q != p ensures Towards(p, q) in Kids(before, p) {
      ThroughKid(before, p, q);
    }
  }

  lemma RemovalGoesOn(before: Tree, d: Tree, r: seq<Change>, s: seq<Change>, t: seq<Change>, p: Path, todo: set<Path>,
                      c: Path)
    requires Emptying(before, d, p, todo + {c}) && c !in todo
    requires RemovalLinesBut(r, s, before, p, todo + {c}) && RemovalLines(s, t, d, c)
    ensures RemovalLinesBut(r, t, before, p, todo)
  {
    assert c in Kids(before, p) && p <= c;
    forall x, q ensures Lines(t, x, q) ==
      Lines(r, x, q) + (if x == '-' && q in before && p <= q && q != p && Towards(p, q) !in todo then 1 else 0)
    {
      if c <= q { OnlyWay(p, c, q); }
    }
  }

  lemma RemovalEnds(before: Tree, d: Tree, r: seq<Change>, s: seq<Change>, t: seq<Change>, p: Path)
    requires Emptying(before, d, p, {}) && Subtree(d, p) == {p}
    requires RemovalLinesBut(r, s, before, p, {}) && RemovalLines(s, t, d, p)
    ensures RemovalLines(r, t, before, p)
  {
    forall x, q ensures Lines(t, x, q) == Lines(r, x, q) + (if x == '-' && q in before && p <= q then 1 else 0) {
      assert q in d && p <= q <==> q in Subtree(d, p);
    }
  }

  // ---------- What the first pass does ----------

  // Nothing has changed but at and below c, and the time of its directory.
  ghost predicate Only(d: Tree, e: Tree, c: Path) {
    && c != [] && Touched(d, e, Parent(c))
    && forall q :: !(c <= q) && q != Parent(c) ==> Same(d, e, q)
  }

  // Kind, size and time agree: there is nothing to copy.
  predicate NodeQuiet(a: Inode, b: Inode) {
    (a.Dir? && b.Dir?) || (a.File? && b.File? && |a.bytes| == |b.bytes| && a.mtime == b.mtime)
  }

  // The entry is in the destination as it is in the source; a file has the source's bytes, unless it was
  // left alone because size and time agreed.
  ghost predicate NodeSynced(src: Tree, before: Tree, d: Tree, q: Path) {
    && (q in src <==> q in d)
    && (q in src ==>
          && src[q].Dir? == d[q].Dir?
          && (src[q].File? ==> if q in before && NodeQuiet(src[q], before[q]) then d[q] == before[q]
                               else d[q].bytes == src[q].bytes))
  }

  ghost predicate Synced(src: Tree, before: Tree, d: Tree, c: Path) {
    forall q :: c <= q ==> NodeSynced(src, before, d, q)
  }

  ghost predicate Quiet(src: Tree, d: Tree, c: Path) {
    forall q :: c <= q ==> (q in src <==> q in d) && (q in src ==> NodeQuiet(src[q], d[q]))
  }

  // A file of the source that the destination has as a file of another size or time.
  predicate Rewritten(src: Tree, before: Tree, q: Path) {
    q in src && q in before && src[q].File? && before[q].File? && !NodeQuiet(src[q], before[q])
  }

  // An entry of the source that the destination lacks, or has as another kind.
  predicate Added(src: Tree, before: Tree, q: Path) {
    q in src && (q in before ==> before[q].Dir? != src[q].Dir?)
  }

  // An entry of the destination that the source lacks, or has as another kind.
  predicate Dropped(src: Tree, before: Tree, q: Path) {
    q in before && (q in src ==> before[q].Dir? != src[q].Dir?)
  }

  // The lines that the first pass owes for entry q.
  predicate FirstLine(src: Tree, before: Tree, symbol: char, q: Path) {
    || (symbol == 'o' && Rewritten(src, before, q))
    || (symbol == '+' && Added(src, before, q))
    || (symbol == '-' && Dropped(src, before, q))
  }

  // Exactly those for the entries at and below p have been reported.
  ghost predicate FirstLines(src: Tree, before: Tree, r: seq<Change>, s: seq<Change>, p: Path) {
    forall x, q :: Lines(s, x, q) == Lines(r, x, q) + (if p <= q && FirstLine(src, before, x, q) then 1 else 0)
  }

  ghost predicate LinesAt(src: Tree, before: Tree, r: seq<Change>, s: seq<Change>, c: Path) {
    forall x, q :: Lines(s, x, q) == Lines(r, x, q) + (if q == c && FirstLine(src, before, x, q) then 1 else 0)
  }

  // On the way through the source, with the entries of p in todo to come, and through the destination.
  ghost predicate FirstLinesBut(src: Tree, before: Tree, r: seq<Change>, s: seq<Change>, p: Path, todo: set<Path>) {
    forall x, q :: Lines(s, x, q) ==
      Lines(r, x, q)
      + (if p <= q && q != p && Towards(p, q) in src && Towards(p, q) !in todo && FirstLine(src, before, x, q)
         then 1 else 0)
  }

  ghost predicate PruneLines(src: Tree, before: Tree, r: seq<Change>, s: seq<Change>, p: Path, todo: set<Path>) {
    forall x, q :: Lines(s, x, q) ==
      Lines(r, x, q)
      + (if p <= q && q != p && (Towards(p, q) in src || Towards(p, q) !in todo) && FirstLine(src, before, x, q)
         then 1 else 0)
  }

  lemma FirstLinesStart(src: Tree, before: Tree, r: seq<Change>, p: Path)
    requires IsTree(src)
    ensures FirstLinesBut(src, before, r, r, p, Kids(src, p))
  {
    forall q | p <= q && q != p && Towards(p, q) in src ensures Towards(p, q) in Kids(src, p) {}
  }

  lemma FirstLinesGoOn(src: Tree, before: Tree, d: Tree, r: seq<Change>, s: seq<Change>, t: seq<Change>, p: Path,
                       todo: set<Path>, c: Path)
    requires Adding(src, before, d, p, todo + {c}) && c !in todo
    requires FirstLinesBut(src, before, r, s, p, todo + {c}) && FirstLines(src, d, s, t, c)
    ensures FirstLinesBut(src, before, r, t, p, todo)
  {
    assert c in Kids(src, p) && p <= c;
    forall x, q ensures Lines(t, x, q) ==
      Lines(r, x, q)
      + (if p <= q && q != p && Towards(p, q) in src && Towards(p, q) !in todo && FirstLine(src, before, x, q)
         then 1 else 0)
    {
      if c <= q {
        OnlyWay(p, c, q);
        assert Same(before, d, q);
      }
    }
  }

  // A file of the source that is made where nothing was, or that the destination has as a file.
  lemma FileLines(src: Tree, before: Tree, r: seq<Change>, s: seq<Change>, c: Path)
    requires IsTree(src) && IsTree(before) && c in src && src[c].File? && (c in before ==> before[c].File?)
    requires LinesAt(src, before, r, s, c)
    ensures FirstLines(src, before, r, s, c)
  {
    AloneInTree(src, c);
    if c in before { AloneInTree(before, c); } else { NothingBelow(before, c); }
    forall q | c <= q && q != c ensures q !in src && q !in before {
      assert q !in Subtree(src, c) && q !in Subtree(before, c);
    }
  }

  // A file of the source that replaces a directory.
  lemma ReplacedLines(src: Tree, before: Tree, r: seq<Change>, s: seq<Change>, c: Path)
    requires IsTree(src) && c in src && src[c].File? && c in before && before[c].Dir?
    requires RemovalLines(r, s, before, c)
    ensures FirstLines(src, before, r, s + [Change('+', c)], c)
  {
    AloneInTree(src, c);
    forall q | c <= q && q != c ensures q !in src {
      assert q !in Subtree(src, c);
    }
  }

  // A directory that replaces a file.
  lemma ReplacedLine(src: Tree, before: Tree, r: seq<Change>, s: seq<Change>, c: Path)
    requires c in src && src[c].Dir? && c in before && before[c].File? && Subtree(before, c) == {c}
    requires RemovalLines(r, s, before, c)
    ensures LinesAt(src, before, r, s + [Change('+', c)], c)
  {
    forall x, q ensures Lines(s + [Change('+', c)], x, q) ==
      Lines(r, x, q) + (if q == c && FirstLine(src, before, x, q) then 1 else 0)
    {
      assert q in before && c <= q <==> q in Subtree(before, c);
    }
  }

  lemma DirectoryLines(src: Tree, before: Tree, d: Tree, r: seq<Change>, s: seq<Change>, t: seq<Change>, c: Path)
    requires IsTree(before) && c in src && src[c].Dir? && c in d && d[c].Dir?
    requires LinesAt(src, before, r, s, c) && FirstLines(src, d, s, t, c)
    requires if c in before && before[c].Dir? then d == before else Subtree(d, c) == {c}
    ensures FirstLines(src, before, r, t, c)
  {
    if !(c in before && before[c].Dir?) {
      if c in before { AloneInTree(before, c); } else { NothingBelow(before, c); }
      forall q | c <= q && q != c ensures q !in before && q !in d {
        assert q !in Subtree(before, c) && q !in Subtree(d, c);
      }
    }
  }

  lemma PruneLinesStart(src: Tree, before: Tree, d: Tree, r: seq<Change>, s: seq<Change>, p: Path)
    requires IsTree(src) && IsTree(d) && Adding(src, before, d, p, {}) && FirstLinesBut(src, before, r, s, p, {})
    ensures PruneLines(src, before, r, s, p, Kids(d, p))
  {
    forall q | p <= q && q != p && Towards(p, q) !in src && Towards(p, q) !in Kids(d, p)
      ensures q !in src && q !in before
    {
      if q in src { ThroughKid(src, p, q); }
      assert Same(before, d, q);
      if q in d { ThroughKid(d, p, q); }
    }
  }

  lemma PruneLinesGoOn(src: Tree, before: Tree, d: Tree, r: seq<Change>, s: seq<Change>, t: seq<Change>, p: Path,
                       todo: set<Path>, c: Path)
    requires IsTree(src) && Pruning(src, before, d, p, todo + {c}) && c !in todo
    requires PruneLines(src, before, r, s, p, todo + {c}) && if c in src then t == s else RemovalLines(s, t, d, c)
    ensures PruneLines(src, before, r, t, p, todo)
  {
    assert c in Kids(d, p) && p <= c;
    forall x, q ensures Lines(t, x, q) ==
      Lines(r, x, q)
      + (if p <= q && q != p && (Towards(p, q) in src || Towards(p, q) !in todo) && FirstLine(src, before, x, q)
         then 1 else 0)
    {
      if c <= q {
        OnlyWay(p, c, q);
        if c !in src {
          if q in src { ThroughKid(src, p, q); }
          assert Same(before, d, q);
        }
      }
    }
  }

  lemma PruneLinesEnd(src: Tree, before: Tree, d: Tree, r: seq<Change>, s: seq<Change>, p: Path)
    requires p in src && src[p].Dir? && Pruning(src, before, d, p, {}) && PruneLines(src, before, r, s, p, {})
    ensures FirstLines(src, before, r, s, p)
  {}

  lemma NothingBelow(d: Tree, c: Path)
    requires IsTree(d) && c !in d
    ensures Subtree(d, c) == {}
  {
    forall q | q in d ensures !(c <= q) {
      if c <= q {
        assert q[..|c|] == c;
        PrefixInTree(d, q, |c|);
      }
    }
  }

  lemma MadeOnly(d: Tree, e: Tree, c: Path)
    requires Made(d, e, c) && Subtree(d, c) == {}
    ensures Only(d, e, c) && Subtree(e, c) == {c}
  {}

  lemma OverwrittenOnly(d: Tree, e: Tree, c: Path)
    requires IsTree(d) && c != [] && c in d && e.Keys == d.Keys && forall q :: q in e && q != c ==> e[q] == d[q]
    ensures Only(d, e, c) && Subtree(e, c) == Subtree(d, c)
  {
    assert ParentOk(d, c);
  }

  lemma ReplacedOnly(d: Tree, e: Tree, f: Tree, c: Path)
    requires Cut(d, e, c) && Made(e, f, c)
    ensures Only(d, f, c) && Subtree(f, c) == {c}
  {}

  // ---------- The loops of the first pass ----------

  // On the way through the source: its entries but those in todo are done, everything else below p is as before.
  ghost predicate Adding(src: Tree, before: Tree, d: Tree, p: Path, todo: set<Path>) {
    && SameOutside(before, d, p) && Touched(before, d, p) && todo <= Kids(src, p)
    && (forall c :: c in Kids(src, p) && c !in todo ==> Synced(src, before, d, c))
    && (forall q :: p <= q && q != p && (Towards(p, q) in todo || Towards(p, q) !in src) ==> Same(before, d, q))
  }

  // On the way through the destination: the entries of the source are done, others are left only in todo.
  ghost predicate Pruning(src: Tree, before: Tree, d: Tree, p: Path, todo: set<Path>) {
    && SameOutside(before, d, p) && Touched(before, d, p) && todo <= Kids(d, p)
    && (forall c :: c in Kids(src, p) ==> Synced(src, before, d, c))
    && (forall q :: q in d && p <= q && q != p ==> Towards(p, q) in src || Towards(p, q) in todo)
    && (forall q :: p <= q && q != p && Towards(p, q) in todo && Towards(p, q) !in src ==> Same(before, d, q))
  }

  lemma AddingGoesOn(src: Tree, before: Tree, d: Tree, e: Tree, p: Path, todo: set<Path>, c: Path)
    requires Adding(src, before, d, p, todo + {c}) && c !in todo && Only(d, e, c) && Synced(src, d, e, c)
    ensures Adding(src, before, e, p, todo)
  {
    assert c in Kids(src, p) && p <= c;
    forall q | c <= q ensures NodeSynced(src, before, e, q) {
      OnlyWay(p, c, q);
      assert Same(before, d, q) && NodeSynced(src, d, e, q);
    }
    forall k | k in Kids(src, p) && k !in todo && k != c ensures Synced(src, before, e, k) {
      forall q | k <= q ensures NodeSynced(src, before, e, q) {
        assert p <= k;
        OnlyWay(p, k, q);
        if c <= q { OnlyWay(p, c, q); }
        assert Same(d, e, q) && NodeSynced(src, before, d, q);
      }
    }
    forall q | p <= q && q != p && (Towards(p, q) in todo || Towards(p, q) !in src) ensures Same(before, e, q) {
      if c <= q { OnlyWay(p, c, q); }
      assert Same(before, d, q) && Same(d, e, q);
    }
    forall q | !(p <= q) ensures Same(before, e, q) {
      assert Same(before, d, q) && Same(d, e, q);
    }
  }

  lemma PruningStarts(src: Tree, before: Tree, d: Tree, p: Path)
    requires IsTree(d) && Adding(src, before, d, p, {})
    ensures Pruning(src, before, d, p, Kids(d, p))
  {
    forall q | q in d && p <= q && q != p ensures Towards(p, q) in Kids(d, p) {
      ThroughKid(d, p, q);
    }
  }

  lemma PruningGoesOn(src: Tree, before: Tree, d: Tree, e: Tree, p: Path, todo: set<Path>, c: Path)
    requires Pruning(src, before, d, p, todo + {c}) && c !in todo
    requires if c in src then e == d else Cut(d, e, c)
    ensures Pruning(src, before, e, p, todo)
  {
    assert c in Kids(d, p) && p <= c;
    if c !in src {
      forall k | k in Kids(src, p) ensures Synced(src, before, e, k) {
        forall q | k <= q ensures NodeSynced(src, before, e, q) {
          assert p <= k;
          OnlyWay(p, k, q);
          if c <= q { OnlyWay(p, c, q); }
          assert NodeSynced(src, before, d, q);
        }
      }
      forall q | !(p <= q) ensures Same(before, e, q) {
        assert Same(before, d, q);
      }
      forall k | k in todo ensures k in Kids(e, p) {
        if c <= k { OnlyWay(p, c, k); OnlyWay(p, k, k); }
      }
    }
    forall q | q in e && p <= q && q != p ensures Towards(p, q) in src || Towards(p, q) in todo {
      assert q in d;
    }
    forall q | p <= q && q != p && Towards(p, q) in todo && Towards(p, q) !in src ensures Same(before, e, q) {
      assert Same(before, d, q);
      if c !in src && c <= q { OnlyWay(p, c, q); }
    }
  }

  lemma PruningEnds(src: Tree, before: Tree, d: Tree, p: Path)
    requires IsTree(src) && p in src && src[p].Dir? && Pruning(src, before, d, p, {})
    ensures Synced(src, before, d, p)
  {
    forall q | p <= q && q != p ensures NodeSynced(src, before, d, q) {
      var c := Towards(p, q);
      if c in src {
        assert Synced(src, before, d, c);
      } else if q in src {
        ThroughKid(src, p, q);
      }
    }
  }

  lemma AddingStarts(src: Tree, d: Tree, p: Path)
    requires IsTree(src) && p in src && p in d && d[p].Dir?
    ensures Adding(src, d, d, p, Kids(src, p))
  {}

  // What is quiet below p is quiet below its entries.
  lemma KidIsBelow(src: Tree, before: Tree, d: Tree, p: Path, c: Path)
    requires c in Kids(d, p)
    ensures p <= c && (Quiet(src, before, p) ==> Quiet(src, before, c))
  {
    if Quiet(src, before, p) {
      forall q | c <= q ensures (q in src <==> q in before) && (q in src ==> NodeQuiet(src[q], before[q])) {
        assert p <= q;
      }
    }
  }

  lemma FileSynced(src: Tree, before: Tree, d: Tree, c: Path)
    requires IsTree(src) && c in src && src[c].File? && Subtree(d, c) == {c} && NodeSynced(src, before, d, c)
    ensures Synced(src, before, d, c)
  {
    AloneInTree(src, c);
    forall q | c <= q ensures NodeSynced(src, before, d, q) {
      if q != c { assert q !in Subtree(src, c) && q !in Subtree(d, c); }
    }
  }

  lemma DirectorySynced(src: Tree, before: Tree, d: Tree, e: Tree, c: Path)
    requires IsTree(before) && Only(before, d, c) && SameOutside(d, e, c) && Synced(src, d, e, c)
    requires c in src && src[c].Dir?
    requires if c in before && before[c].Dir? then d == before else Subtree(d, c) == {c}
    ensures Only(before, e, c) && Synced(src, before, e, c)
  {
    if !(c in before && before[c].Dir?) {
      if c in before { AloneInTree(before, c); } else { NothingBelow(before, c); }
      forall q | c <= q ensures NodeSynced(src, before, e, q) {
        assert NodeSynced(src, d, e, q);
        if q != c { assert q !in Subtree(before, c) && q !in Subtree(d, c); }
      }
    }
    assert Same(d, e, Parent(c));
    forall q | !(c <= q) && q != Parent(c) ensures Same(before, e, q) {
      assert Same(before, d, q) && Same(d, e, q);
    }
  }

  // ---------- What the second pass does ----------

  // The entry of the destination with the time and the mode of the source's.
  function Stamped(a: Inode, b: Inode): Inode {
    if b.Dir? then Dir(a.mtime, a.mode) else File(b.bytes, a.mtime, a.mode)
  }

  predicate NodeStamped(a: Inode, b: Inode) {
    b.mtime == a.mtime && b.mode == a.mode
  }

  // The entries at and below p are those of the source, of the same kinds.
  ghost predicate Matching(src: Tree, d: Tree, p: Path) {
    forall q :: p <= q ==> (q in src <==> q in d) && (q in src ==> src[q].Dir? == d[q].Dir?)
  }

  function StampedUnder(src: Tree, d: Tree, p: Path): Tree {
    map q | q in d :: if p <= q && q in src then Stamped(src[q], d[q]) else d[q]
  }

  ghost predicate QuietStamps(src: Tree, d: Tree, p: Path) {
    forall q :: q in src && q in d && p <= q ==> NodeStamped(src[q], d[q])
  }

  // A change of time or mode that the second pass reports.
  predicate Differs(symbol: char, a: Inode, b: Inode) {
    (symbol == 't' && a.mtime != b.mtime) || (symbol == 'p' && a.mode != b.mode)
  }

  // Exactly the changes at and below p have been reported.
  ghost predicate Announced(src: Tree, before: Tree, r: seq<Change>, s: seq<Change>, p: Path) {
    forall x, q :: Lines(s, x, q) ==
      Lines(r, x, q) + (if p <= q && q in src && q in before && Differs(x, src[q], before[q]) then 1 else 0)
  }

  ghost predicate AnnouncedBut(src: Tree, before: Tree, r: seq<Change>, s: seq<Change>, p: Path, todo: set<Path>) {
    forall x, q :: Lines(s, x, q) ==
      Lines(r, x, q)
      + (if p <= q && q != p && Towards(p, q) !in todo && q in src && q in before && Differs(x, src[q], before[q])
         then 1 else 0)
  }

  function StampLines(a: Inode, b: Inode, c: Path): seq<Change> {
    (if a.mtime != b.mtime then [Change('t', c)] else []) + (if a.mode != b.mode then [Change('p', c)] else [])
  }

  lemma StampLinesDiffer(r: seq<Change>, a: Inode, b: Inode, c: Path, x: char, q: Path)
    ensures Lines(r + StampLines(a, b, c), x, q) == Lines(r, x, q) + (if q == c && Differs(x, a, b) then 1 else 0)
  {}

  lemma AnnouncingStarts(src: Tree, before: Tree, r: seq<Change>, p: Path)
    requires IsTree(src)
    ensures AnnouncedBut(src, before, r, r, p, Kids(src, p))
  {
    forall q | q in src && p <= q && q != p ensures Towards(p, q) in Kids(src, p) {
      ThroughKid(src, p, q);
    }
  }

  lemma AnnouncingGoesOn(src: Tree, before: Tree, d: Tree, r: seq<Change>, s: seq<Change>, t: seq<Change>, p: Path,
                         todo: set<Path>, c: Path)
    requires Stamping(src, before, d, p, todo + {c}) && c !in todo
    requires AnnouncedBut(src, before, r, s, p, todo + {c}) && Announced(src, d, s, t, c)
    ensures AnnouncedBut(src, before, r, t, p, todo)
  {
    assert c in Kids(src, p) && p <= c;
    forall x, q ensures Lines(t, x, q) ==
      Lines(r, x, q)
      + (if p <= q && q != p && Towards(p, q) !in todo && q in src && q in before && Differs(x, src[q], before[q])
         then 1 else 0)
    {
      if c <= q { OnlyWay(p, c, q); }
    }
  }

  lemma AnnouncingEnds(src: Tree, before: Tree, r: seq<Change>, s: seq<Change>, t: seq<Change>, p: Path)
    requires AnnouncedBut(src, before, r, s, p, {}) && p in src && p in before
    requires t == s + StampLines(src[p], before[p], p)
    ensures Announced(src, before, r, t, p)
  {
    forall x, q ensures Lines(t, x, q) ==
      Lines(r, x, q) + (if p <= q && q in src && q in before && Differs(x, src[q], before[q]) then 1 else 0)
    {
      StampLinesDiffer(s, src[p], before[p], p, x, q);
    }
  }

  // In a whole report the lines of the first pass are exactly those that it owes.
  ghost predicate FirstLinesOnly(src: Tree, before: Tree, r: seq<Change>, s: seq<Change>) {
    forall x, q :: x in {'+', '-', 'o'} ==>
      Lines(s, x, q) == Lines(r, x, q) + (if FirstLine(src, before, x, q) then 1 else 0)
  }

  // d is what the first pass has made of before: the lines of the second are those of its differences.
  ghost predicate AllLines(src: Tree, before: Tree, d: Tree, r: seq<Change>, s: seq<Change>) {
    forall x, q :: Lines(s, x, q) ==
      Lines(r, x, q)
      + (if FirstLine(src, before, x, q) || (q in src && q in d && Differs(x, src[q], d[q])) then 1 else 0)
  }

  // The second pass reports nothing as made, removed or overwritten.
  lemma BothReports(src: Tree, before: Tree, d: Tree, r: seq<Change>, s: seq<Change>, t: seq<Change>)
    requires FirstLines(src, before, r, s, []) && Announced(src, d, s, t, [])
    ensures FirstLinesOnly(src, before, r, t) && AllLines(src, before, d, r, t)
  {
    forall x, q ensures Lines(t, x, q) ==
      Lines(r, x, q)
      + (if FirstLine(src, before, x, q) || (q in src && q in d && Differs(x, src[q], d[q])) then 1 else 0)
    {
      var root: Path := [];
      assert root <= q;
    }
  }

  lemma FileAnnounced(src: Tree, before: Tree, r: seq<Change>, s: seq<Change>, c: Path)
    requires IsTree(src) && c in src && src[c].File? && c in before && s == r + StampLines(src[c], before[c], c)
    ensures Announced(src, before, r, s, c)
  {
    AloneInTree(src, c);
    forall x, q ensures Lines(s, x, q) ==
      Lines(r, x, q) + (if c <= q && q in src && q in before && Differs(x, src[q], before[q]) then 1 else 0)
    {
      StampLinesDiffer(r, src[c], before[c], c, x, q);
      if c <= q && q != c { assert q !in Subtree(src, c); }
    }
  }

  lemma StampKeepsTree(d: Tree, c: Path, entry: Inode)
    requires IsTree(d) && c in d && entry.Dir? == d[c].Dir?
    ensures IsTree(d[c := entry]) && d[c := entry].Keys == d.Keys
  {
    forall q | q in d ensures ParentOk(d[c := entry], q) {
      assert ParentOk(d, q);
    }
  }

  // On the way through the source: what lies below p and not in todo has been stamped.
  ghost predicate Stamping(src: Tree, before: Tree, d: Tree, p: Path, todo: set<Path>) {
    && d.Keys == before.Keys && todo <= Kids(src, p) && Matching(src, before, p)
    && forall q :: q in d ==>
         d[q] == if p <= q && q != p && Towards(p, q) !in todo && q in src then Stamped(src[q], before[q])
                 else before[q]
  }

  lemma StampingStarts(src: Tree, d: Tree, p: Path)
    requires IsTree(src) && Matching(src, d, p)
    ensures Stamping(src, d, d, p, Kids(src, p))
  {
    forall q | q in src && p <= q && q != p ensures Towards(p, q) in Kids(src, p) {
      ThroughKid(src, p, q);
    }
  }

  lemma StampingEntry(src: Tree, before: Tree, d: Tree, p: Path, todo: set<Path>, c: Path)
    requires Stamping(src, before, d, p, todo) && c in todo
    ensures c in src && Matching(src, d, c) && c in d
    ensures QuietStamps(src, before, p) ==> QuietStamps(src, d, c)
  {
    assert p <= c;
    forall q | c <= q
      ensures (q in src <==> q in d) && (q in src ==> d[q] == before[q] && src[q].Dir? == d[q].Dir?) && p <= q
    {
      OnlyWay(p, c, q);
    }
  }

  lemma FileStampedUnder(src: Tree, d: Tree, c: Path)
    requires IsTree(src) && c in src && src[c].File? && c in d
    ensures StampedUnder(src, d, c) == d[c := Stamped(src[c], d[c])]
  {
    AloneInTree(src, c);
    forall q | q in d && c <= q && q != c ensures q !in src {
      assert q !in Subtree(src, c);
    }
  }

  lemma StampingGoesOn(src: Tree, before: Tree, d: Tree, e: Tree, p: Path, todo: set<Path>, c: Path)
    requires Stamping(src, before, d, p, todo + {c}) && c !in todo && e == StampedUnder(src, d, c)
    ensures Stamping(src, before, e, p, todo)
  {
    assert c in Kids(src, p) && p <= c;
    forall q | q in e
      ensures e[q] == if p <= q && q != p && Towards(p, q) !in todo && q in src then Stamped(src[q], before[q])
                      else before[q]
    {
      if c <= q { OnlyWay(p, c, q); }
    }
  }

  lemma StampingEnds(src: Tree, before: Tree, d: Tree, p: Path)
    requires Stamping(src, before, d, p, {}) && p in src
    ensures p in d && src[p].Dir? == d[p].Dir?
    ensures p in before && d[p] == before[p] && d[p := Stamped(src[p], d[p])] == StampedUnder(src, before, p)
    ensures QuietStamps(src, before, p) ==> NodeStamped(src[p], d[p])
  {
    assert p <= p;
  }

  // ---------- The whole run ----------

  // Names, kinds, sizes, times and modes agree everywhere.
  ghost predicate Agree(src: Tree, d: Tree) {
    && d.Keys == src.Keys
    && forall q :: q in src ==> NodeQuiet(src[q], d[q]) && NodeStamped(src[q], d[q])
  }

  // What a run makes of a destination: everything agrees, and a file has the source's bytes unless it
  // was left alone because size and time agreed before.
  ghost predicate Outcome(src: Tree, before: Tree, d: Tree) {
    && Agree(src, d)
    && forall q :: q in src && src[q].File? ==>
         d[q].bytes == if q in before && NodeQuiet(src[q], before[q]) then before[q].bytes else src[q].bytes
  }

  lemma FirstPassMatches(src: Tree, before: Tree, d: Tree)
    requires Synced(src, before, d, [])
    ensures Matching(src, d, [])
    ensures Agree(src, before) ==> Quiet(src, before, [])
    ensures Agree(src, before) && d == before ==> QuietStamps(src, d, [])
  {
    forall q | [] <= q ensures (q in src <==> q in d) && (q in src ==> src[q].Dir? == d[q].Dir?) {
      assert NodeSynced(src, before, d, q);
    }
  }

  lemma BothPasses(src: Tree, before: Tree, d: Tree, e: Tree)
    requires Synced(src, before, d, []) && e == StampedUnder(src, d, [])
    ensures Outcome(src, before, e)
    ensures Agree(src, before) && d == before ==> e == before
  {
    forall q ensures (q in src <==> q in d) && NodeSynced(src, before, d, q) {
      BelowRoot(src, before, d, q);
    }
    assert e.Keys == d.Keys == src.Keys;
    forall q | q in src ensures e[q] == Stamped(src[q], d[q]) {
      BelowRoot(src, before, d, q);
    }
  }

  lemma BelowRoot(src: Tree, before: Tree, d: Tree, q: Path)
    requires Synced(src, before, d, [])
    ensures NodeSynced(src, before, d, q)
  {
    var root: Path := [];
    assert root <= q;
  }

  // Every file that is as large and as old as its source has the source's bytes.
  ghost predicate TimesTellBytes(src: Tree, before: Tree) {
    forall q :: q in src && q in before && src[q].File? && NodeQuiet(src[q], before[q]) ==>
        before[q].bytes == src[q].bytes
  }

  // The destination ends as a copy of the source exactly if that held before the run.
  lemma AgreedCopies(src: Tree, before: Tree, d: Tree)
    requires Outcome(src, before, d)
    ensures d == src <==> TimesTellBytes(src, before)
  {
    if TimesTellBytes(src, before) {
      forall q | q in src ensures d[q] == src[q] {}
      assert d == src;
    }
  }

  // A run on these two trees leaves a file with other bytes than its source.
  lemma CopyWithOtherBytes() returns (src: Tree, before: Tree)
    ensures IsTree(src) && IsTree(before) && Outcome(src, before, before)
    ensures forall d: Tree :: Outcome(src, before, d) ==> d == before && d != src
  {
    var root: Path, file: Path := [], ["a"];
    src := map[root := Dir(0, 0), file := File([0], 0, 0)];
    before := map[root := Dir(0, 0), file := File([1], 0, 0)];
    assert Parent(file) == root && src[file] != before[file];
    forall d: Tree | Outcome(src, before, d) ensures d == before {
      assert d[file].bytes == before[file].bytes;
      forall q | q in d ensures d[q] == before[q] {}
    }
  }

  // The report of a run counts what the destination has grown by.
  lemma ReportAccounts(origin: set<Path>, report: seq<Change>, src: Tree, d: Tree)
    requires Journal(origin, report, d.Keys) && Agree(src, d)
    ensures Net(report) == |src| - |origin|
  {
    JournalCounts(origin, report, d.Keys);
    assert |d.Keys| == |src.Keys|;
  }
}
