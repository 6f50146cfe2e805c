// The tree sum on the thread library alone: the barriers taken apart as in TreeSumComposed, and every
// mutex as well, into its semaphore, its two fields and the tests of unlock.
module TreeSumLocked {
  import opened Sums
  import opened TreeSums
  import opened TreeSumProtocol
  import opened TreeSumBarriers
  import opened TreeSumComposed
  import Mutexes

  // Mutex b < N is the one of node b's sum, mutex N the one for printing and reading.
  datatype Full = Full(whole: Whole, locks: seq<Mutexes.State>)

  predicate ToLock(pc: Pc) {
    pc in {LockExec, LockOwn, LockParent}
  }

  predicate ToUnlock(pc: Pc) {
    pc in {UnlockExec, UnlockOwn, UnlockParent}
  }

  // The mutex that thread t is to lock or unlock next.
  function LockOf(c: Config, pc: Pc, t: nat): nat
    requires t < |c.parent|
  {
    if pc in {LockExec, UnlockExec} then c.N() else if pc in {LockOwn, UnlockOwn} then t else c.parent[t]
  }

  predicate IsLocking(c: Config, s: State, t: nat, x: nat)
    requires c.Valid() && Shaped(c, s)
  {
    t < c.N() && ToLock(s.pcs[t]) && LockOf(c, s.pcs[t], t) == x
  }

  predicate IsUnlocking(c: Config, s: State, t: nat, x: nat)
    requires c.Valid() && Shaped(c, s)
  {
    t < c.N() && ToUnlock(s.pcs[t]) && LockOf(c, s.pcs[t], t) == x
  }

  predicate AtLock(pc: Pc) {
    ToLock(pc) || ToUnlock(pc)
  }

  // Who holds mutex x in the protocol.
  function HolderOf(c: Config, s: State, x: nat): Option<nat>
    requires c.Valid() && Shaped(c, s) && x <= c.N()
  {
    if x < c.N() then s.own[x] else s.exec
  }

  function FullStart(c: Config): Full {
    Full(Start(c), seq(c.N() + 1, _ => Mutexes.Init(c.N())))
  }

  ghost predicate FullFits(c: Config, f: Full) {
    Fits(c, f.whole) && |f.locks| == c.N() + 1
  }

  // An operation of thread t inside its call of lock or unlock of mutex x. The protocol's thread goes on
  // when the call returns.
  ghost predicate LockStep(c: Config, f: Full, t: nat, x: nat, f': Full)
    requires FullFits(c, f)
  {
    && x <= c.N() && (IsLocking(c, f.whole.tree, t, x) || IsUnlocking(c, f.whole.tree, t, x))
    && |f'.locks| == |f.locks| && t < |f.locks[x].pcs| && Mutexes.Step(f.locks[x], t, f'.locks[x])
    && f'.locks == f.locks[x := f'.locks[x]]
    && f'.whole == if f.locks[x].pcs[t] in {Mutexes.SetOwner, Mutexes.Post} then
                     f.whole.(tree := Moved(c, f.whole.tree, t))
                   else
                     f.whole
  }

  // Any other operation: of a thread that is not at a mutex, or inside a barrier.
  ghost predicate OtherStep(c: Config, f: Full, f': Full)
    requires FullFits(c, f)
  {
    && f'.locks == f.locks
    && ((exists m: nat :: OutsideStep(c, f.whole, m, f'.whole) && (m < c.N() ==> !AtLock(f.whole.tree.pcs[m])))
        || exists m, b, j :: InsideStep(c, f.whole, m, b, j, f'.whole))
  }

  ghost predicate FullNext(c: Config, f: Full, f': Full) {
    FullFits(c, f) && (OtherStep(c, f, f') || exists t: nat, x: nat :: LockStep(c, f, t, x, f'))
  }

  // ---------- The invariant ----------

  // Where thread t is in its calls of mutex x: it holds the mutex exactly if the protocol says so, and is
  // inside a call only if it is at the mutex.
  predicate ThreadAt(c: Config, s: State, x: nat, t: nat, pc: Mutexes.Pc)
    requires c.Valid() && Shaped(c, s) && x <= c.N()
  {
    && (Mutexes.Holding(pc) <==> HolderOf(c, s, x) == Some(t))
    && (Mutexes.Locking(pc) ==> IsLocking(c, s, t, x))
    && (Mutexes.Unlocking(pc) ==> IsUnlocking(c, s, t, x))
  }

  ghost predicate LockOk(c: Config, s: State, x: nat, lock: Mutexes.State)
    requires c.Valid() && Shaped(c, s) && x <= c.N()
  {
    Mutexes.InOrder(lock) && |lock.pcs| == c.N() && forall t: nat :: t < c.N() ==> ThreadAt(c, s, x, t, lock.pcs[t])
  }

  ghost predicate FullInv(c: Config, f: Full) {
    WholeInv(c, f.whole) && LocksOk(c, f.whole.tree, f.locks)
  }

  lemma FullStartInv(c: Config)
    requires c.Valid()
    ensures FullInv(c, FullStart(c))
  {
    StartInv(c);
    assert Mutexes.Inv(Mutexes.Init(c.N()), Mutexes.Nobody);
  }

  lemma AtExec(c: Config, s: State, t: nat)
    requires Inv(c, s) && t < c.N() && s.pcs[t] in {LockExec, UnlockExec}
    ensures (s.exec == Some(t) <==> s.pcs[t] == UnlockExec) && (s.exec.Some? ==> s.exec.value < c.N())
  {}

  lemma AtOwnMutex(c: Config, s: State, t: nat, x: nat)
    requires Inv(c, s) && x < c.N() && (IsLocking(c, s, t, x) || IsUnlocking(c, s, t, x))
    ensures (s.own[x] == Some(t) <==> IsUnlocking(c, s, t, x)) && (s.own[x].Some? ==> s.own[x].value < c.N())
  {
    assert s.own[x] == Some(t) <==> Holds(c, s.pcs[t], t, x);
  }

  // What the protocol's invariant says of a thread that is at mutex x.
  lemma AtMutex(c: Config, s: State, t: nat, x: nat)
    requires Inv(c, s) && (IsLocking(c, s, t, x) || IsUnlocking(c, s, t, x))
    ensures x <= c.N() && (HolderOf(c, s, x) == Some(t) <==> IsUnlocking(c, s, t, x))
    ensures HolderOf(c, s, x).Some? ==> HolderOf(c, s, x).value < c.N()
    ensures CallOf(c, s, t).None?
  {
    if x < c.N() { AtOwnMutex(c, s, t, x); } else { AtExec(c, s, t); }
  }

  // The thread can go on in the protocol exactly if nobody else holds the mutex.
  lemma MutexLetsGo(c: Config, s: State, t: nat, x: nat)
    requires Inv(c, s) && x <= c.N() && (IsLocking(c, s, t, x) || IsUnlocking(c, s, t, x))
    ensures IsUnlocking(c, s, t, x) ==> CanMove(c, s, t)
    ensures IsLocking(c, s, t, x) ==> (CanMove(c, s, t) <==> HolderOf(c, s, x).None?)
  {}

  lemma HoldersMove(c: Config, s: State, t: nat, x: nat, y: nat)
    requires c.Valid() && Shaped(c, s) && x <= c.N() && y <= c.N() && (IsLocking(c, s, t, x) || IsUnlocking(c, s, t, x))
    ensures HolderOf(c, Moved(c, s, t), y) ==
            if y != x then HolderOf(c, s, y) else if IsLocking(c, s, t, x) then Some(t) else None
  {}

  // ---------- Steps outside the mutexes ----------

  lemma HoldersStay(c: Config, s: State, m: nat, x: nat)
    requires c.Valid() && Shaped(c, s) && m <= c.N() && x <= c.N() && (m < c.N() ==> !AtLock(s.pcs[m]))
    ensures HolderOf(c, Advanced(c, s, m), x) == HolderOf(c, s, x)
  {}

  lemma LockersStay(c: Config, s: State, m: nat, t: nat)
    requires Inv(c, s) && m <= c.N() && t < c.N() && t != m && AtLock(s.pcs[t])
    ensures Advanced(c, s, m).pcs[t] == s.pcs[t]
  {}

  lemma OutsideKeepsThread(c: Config, s: State, m: nat, x: nat, t: nat, pc: Mutexes.Pc)
    requires Inv(c, s) && m <= c.N() && x <= c.N() && t < c.N() && (m < c.N() ==> !AtLock(s.pcs[m]))
    requires ThreadAt(c, s, x, t, pc)
    ensures ThreadAt(c, Advanced(c, s, m), x, t, pc)
  {
    HoldersStay(c, s, m, x);
    if t != m && AtLock(s.pcs[t]) { LockersStay(c, s, m, t); }
  }

  lemma OutsideKeepsLock(c: Config, s: State, m: nat, x: nat, lock: Mutexes.State)
    requires Inv(c, s) && m <= c.N() && x <= c.N() && (m < c.N() ==> !AtLock(s.pcs[m])) && LockOk(c, s, x, lock)
    ensures LockOk(c, Advanced(c, s, m), x, lock)
  {
    forall t: nat | t < c.N() ensures ThreadAt(c, Advanced(c, s, m), x, t, lock.pcs[t]) {
      OutsideKeepsThread(c, s, m, x, t, lock.pcs[t]);
    }
  }

  ghost predicate LocksOk(c: Config, s: State, locks: seq<Mutexes.State>)
    requires c.Valid() && Shaped(c, s)
  {
    |locks| == c.N() + 1 && forall x: nat :: x <= c.N() ==> LockOk(c, s, x, locks[x])
  }

  lemma AdvanceKeepsLocks(c: Config, s: State, m: nat, locks: seq<Mutexes.State>)
    requires Inv(c, s) && m <= c.N() && (m < c.N() ==> !AtLock(s.pcs[m])) && LocksOk(c, s, locks)
    ensures LocksOk(c, Advanced(c, s, m), locks)
  {
    forall x: nat | x <= c.N() ensures LockOk(c, Advanced(c, s, m), x, locks[x]) {
      OutsideKeepsLock(c, s, m, x, locks[x]);
    }
  }

  lemma BarrierCallers(c: Config, s: State, m: nat, b: nat)
    requires c.Valid() && Shaped(c, s) && IsAt(c, s, m, b)
    ensures m <= c.N() && (m < c.N() ==> !AtLock(s.pcs[m]))
  {}

  // The protocol's part of such a step: nothing, or the operation of a thread that is not at a mutex.
  lemma OtherStepTree(c: Config, f: Full, f': Full) returns (m: nat)
    requires FullFits(c, f) && OtherStep(c, f, f')
    ensures m <= c.N() && (m < c.N() ==> !AtLock(f.whole.tree.pcs[m]))
    ensures f'.whole.tree == f.whole.tree || f'.whole.tree == Advanced(c, f.whole.tree, m)
  {
    if d: nat :| OutsideStep(c, f.whole, d, f'.whole) && (d < c.N() ==> !AtLock(f.whole.tree.pcs[d])) {
      m := d;
    } else {
      var d, b, j :| InsideStep(c, f.whole, d, b, j, f'.whole);
      BarrierCallers(c, f.whole.tree, d, b);
      m := d;
    }
  }

  lemma OtherKeeps(c: Config, f: Full, f': Full)
    requires FullInv(c, f) && OtherStep(c, f, f')
    ensures FullInv(c, f') && WholeRank(c, f'.whole) < WholeRank(c, f.whole)
  {
    assert WholeNext(c, f.whole, f'.whole);
    WholeStep(c, f.whole, f'.whole);
    var m := OtherStepTree(c, f, f');
    if f'.whole.tree != f.whole.tree { AdvanceKeepsLocks(c, f.whole.tree, m, f.locks); }
  }

  // ---------- Steps inside a mutex ----------

  // A thread that is at mutex x and is to unlock it holds it, one that is to lock it does not.
  lemma InItsCall(c: Config, s: State, t: nat, x: nat, lock: Mutexes.State)
    requires Inv(c, s) && x <= c.N() && LockOk(c, s, x, lock) && (IsLocking(c, s, t, x) || IsUnlocking(c, s, t, x))
    ensures t < |lock.pcs| && (Mutexes.Holding(lock.pcs[t]) <==> IsUnlocking(c, s, t, x))
  {
    AtMutex(c, s, t, x);
    assert ThreadAt(c, s, x, t, lock.pcs[t]);
  }

  lemma OwnLockQuiet(c: Config, s: State, t: nat, x: nat, lock: Mutexes.State, lock': Mutexes.State)
    requires c.Valid() && Shaped(c, s) && x <= c.N() && LockOk(c, s, x, lock)
    requires IsLocking(c, s, t, x) || IsUnlocking(c, s, t, x)
    requires t < |lock.pcs| && (Mutexes.Holding(lock.pcs[t]) <==> IsUnlocking(c, s, t, x))
    requires Mutexes.Step(lock, t, lock') && lock.pcs[t] !in {Mutexes.SetOwner, Mutexes.Post}
    ensures LockOk(c, s, x, lock')
  {
    Mutexes.Refines(lock, t, lock');
    forall u: nat | u < c.N() ensures ThreadAt(c, s, x, u, lock'.pcs[u]) {
      assert ThreadAt(c, s, x, u, lock.pcs[u]);
    }
  }

  // When a call of lock is about to return, nobody holds the mutex.
  lemma NobodyHolds(c: Config, s: State, t: nat, x: nat, lock: Mutexes.State, lock': Mutexes.State)
    requires Inv(c, s) && x <= c.N() && LockOk(c, s, x, lock) && IsLocking(c, s, t, x)
    requires t < |lock.pcs| && Mutexes.Step(lock, t, lock') && lock.pcs[t] == Mutexes.SetOwner
    ensures HolderOf(c, s, x).None?
  {
    AtMutex(c, s, t, x);
    Mutexes.Refines(lock, t, lock');
    forall u: nat | u < c.N() ensures HolderOf(c, s, x) != Some(u) {
      assert ThreadAt(c, s, x, u, lock.pcs[u]);
    }
  }

  // The mutex's new holder is the protocol's.
  lemma OwnLockMoves(c: Config, s: State, t: nat, x: nat, lock: Mutexes.State, lock': Mutexes.State)
    requires c.Valid() && Shaped(c, s) && x <= c.N() && LockOk(c, s, x, lock)
    requires t < |lock.pcs| && Mutexes.Step(lock, t, lock')
    requires || (lock.pcs[t] == Mutexes.SetOwner && IsLocking(c, s, t, x))
             || (lock.pcs[t] == Mutexes.Post && IsUnlocking(c, s, t, x))
    ensures LockOk(c, Moved(c, s, t), x, lock')
  {
    Mutexes.Refines(lock, t, lock');
    HoldersMove(c, s, t, x, x);
    forall u: nat | u < c.N() ensures ThreadAt(c, Moved(c, s, t), x, u, lock'.pcs[u]) {
      assert ThreadAt(c, s, x, u, lock.pcs[u]);
      assert u != t ==> Moved(c, s, t).pcs[u] == s.pcs[u];
    }
  }

  // The call returns, and the protocol's step is possible.
  lemma OwnLockReturns(c: Config, s: State, t: nat, x: nat, lock: Mutexes.State, lock': Mutexes.State)
    requires Inv(c, s) && x <= c.N() && LockOk(c, s, x, lock) && (IsLocking(c, s, t, x) || IsUnlocking(c, s, t, x))
    requires t < |lock.pcs| && Mutexes.Step(lock, t, lock') && lock.pcs[t] in {Mutexes.SetOwner, Mutexes.Post}
    ensures CanMove(c, s, t) && LockOk(c, Moved(c, s, t), x, lock')
  {
    InItsCall(c, s, t, x, lock);
    MutexLetsGo(c, s, t, x);
    if lock.pcs[t] == Mutexes.SetOwner { NobodyHolds(c, s, t, x, lock, lock'); }
    OwnLockMoves(c, s, t, x, lock, lock');
  }

  lemma OtherLockStays(c: Config, s: State, t: nat, x: nat, y: nat, lock: Mutexes.State)
    requires c.Valid() && Shaped(c, s) && x <= c.N() && y <= c.N() && y != x && LockOk(c, s, y, lock)
    requires IsLocking(c, s, t, x) || IsUnlocking(c, s, t, x)
    ensures LockOk(c, Moved(c, s, t), y, lock)
  {
    HoldersMove(c, s, t, x, y);
    forall u: nat | u < c.N() ensures ThreadAt(c, Moved(c, s, t), y, u, lock.pcs[u]) {
      assert ThreadAt(c, s, y, u, lock.pcs[u]);
      assert u != t ==> Moved(c, s, t).pcs[u] == s.pcs[u];
    }
  }

  // The part of a step inside a mutex that the rest of the system sees.
  lemma LockStepWhole(c: Config, f: Full, t: nat, x: nat, f': Full)
    requires FullInv(c, f) && LockStep(c, f, t, x, f')
    ensures f'.whole == f.whole || OutsideStep(c, f.whole, t, f'.whole)
    ensures f.locks[x].pcs[t] in {Mutexes.SetOwner, Mutexes.Post} ==> OutsideStep(c, f.whole, t, f'.whole)
  {
    if f.locks[x].pcs[t] in {Mutexes.SetOwner, Mutexes.Post} {
      OwnLockReturns(c, f.whole.tree, t, x, f.locks[x], f'.locks[x]);
      AtMutex(c, f.whole.tree, t, x);
    }
  }

  lemma LockStepOwn(c: Config, f: Full, t: nat, x: nat, f': Full)
    requires FullInv(c, f) && LockStep(c, f, t, x, f')
    ensures LockOk(c, f'.whole.tree, x, f'.locks[x])
  {
    assert LockOk(c, f.whole.tree, x, f.locks[x]);
    InItsCall(c, f.whole.tree, t, x, f.locks[x]);
    if f.locks[x].pcs[t] in {Mutexes.SetOwner, Mutexes.Post} {
      OwnLockReturns(c, f.whole.tree, t, x, f.locks[x], f'.locks[x]);
    } else {
      OwnLockQuiet(c, f.whole.tree, t, x, f.locks[x], f'.locks[x]);
    }
  }

  lemma LockStepLocks(c: Config, f: Full, t: nat, x: nat, f': Full)
    requires FullInv(c, f) && LockStep(c, f, t, x, f')
    ensures LocksOk(c, f'.whole.tree, f'.locks)
  {
    LockStepOwn(c, f, t, x, f');
    forall y: nat | y <= c.N() && y != x ensures LockOk(c, f'.whole.tree, y, f'.locks[y]) {
      if f'.whole != f.whole { OtherLockStays(c, f.whole.tree, t, x, y, f.locks[y]); }
    }
  }

  lemma LockKeeps(c: Config, f: Full, t: nat, x: nat, f': Full)
    requires FullInv(c, f) && LockStep(c, f, t, x, f')
    ensures FullInv(c, f')
  {
    LockStepWhole(c, f, t, x, f');
    if f'.whole != f.whole { OutsideKeeps(c, f.whole, t, f'.whole); }
    LockStepLocks(c, f, t, x, f');
  }

  // ---------- No deadlock ----------

  ghost predicate FullMoves(c: Config, f: Full) {
    exists f' :: FullNext(c, f, f')
  }

  lemma LockStepMoves(c: Config, f: Full, t: nat, x: nat, lock: Mutexes.State)
    requires FullInv(c, f) && x <= c.N() && t < |f.locks[x].pcs| && Mutexes.Step(f.locks[x], t, lock)
    requires IsLocking(c, f.whole.tree, t, x) || IsUnlocking(c, f.whole.tree, t, x)
    ensures FullMoves(c, f)
  {
    var whole := if f.locks[x].pcs[t] in {Mutexes.SetOwner, Mutexes.Post} then
                   f.whole.(tree := Moved(c, f.whole.tree, t))
                 else
                   f.whole;
    var f' := Full(whole, f.locks[x := lock]);
    assert LockStep(c, f, t, x, f');
    assert FullNext(c, f, f');
  }

  lemma NobodyHolding(c: Config, s: State, x: nat, lock: Mutexes.State)
    requires c.Valid() && Shaped(c, s) && x <= c.N() && LockOk(c, s, x, lock) && HolderOf(c, s, x).None?
    ensures forall u :: 0 <= u < |lock.pcs| ==> !Mutexes.Holding(lock.pcs[u])
  {
    forall u: nat | u < |lock.pcs| ensures !Mutexes.Holding(lock.pcs[u]) {
      assert ThreadAt(c, s, x, u, lock.pcs[u]);
    }
  }

  // If the protocol lets a thread go on at a mutex, that thread or the one before it in its call can.
  lemma LockerMoves(c: Config, f: Full, t: nat, x: nat)
    requires FullInv(c, f) && x <= c.N() && IsLocking(c, f.whole.tree, t, x) && CanMove(c, f.whole.tree, t)
    ensures FullMoves(c, f)
  {
    var s, lock := f.whole.tree, f.locks[x];
    assert LockOk(c, s, x, lock);
    MutexLetsGo(c, s, t, x);
    NobodyHolding(c, s, x, lock);
    var u, lock' := Mutexes.LockProgresses(lock, t);
    assert ThreadAt(c, s, x, u, lock.pcs[u]);
    LockStepMoves(c, f, u, x, lock');
  }

  lemma UnlockerMoves(c: Config, f: Full, t: nat, x: nat)
    requires FullInv(c, f) && x <= c.N() && IsUnlocking(c, f.whole.tree, t, x)
    ensures FullMoves(c, f)
  {
    var lock := f.locks[x];
    assert LockOk(c, f.whole.tree, x, lock);
    InItsCall(c, f.whole.tree, t, x, lock);
    var lock' := Mutexes.UnlockProgresses(lock, t);
    LockStepMoves(c, f, t, x, lock');
  }

  lemma OtherMoves(c: Config, f: Full, w: Whole)
    requires FullInv(c, f) && FullFits(c, f) && OtherStep(c, f, Full(w, f.locks))
    ensures FullMoves(c, f)
  {
    assert FullNext(c, f, Full(w, f.locks));
  }

  lemma AtLockMoves(c: Config, f: Full, t: nat)
    requires FullInv(c, f) && FullFits(c, f) && t < c.N() && AtLock(f.whole.tree.pcs[t]) && CanMove(c, f.whole.tree, t)
    ensures FullMoves(c, f)
  {
    var x := LockOf(c, f.whole.tree.pcs[t], t);
    if ToLock(f.whole.tree.pcs[t]) { LockerMoves(c, f, t, x); } else { UnlockerMoves(c, f, t, x); }
  }

  lemma OutsiderMoves(c: Config, f: Full, m: nat, w: Whole)
    requires FullInv(c, f) && FullFits(c, f) && OutsideStep(c, f.whole, m, w)
    ensures FullMoves(c, f)
  {
    if m < c.N() && AtLock(f.whole.tree.pcs[m]) {
      AtLockMoves(c, f, m);
    } else {
      OtherMoves(c, f, w);
    }
  }

  lemma InsiderMoves(c: Config, f: Full, m: nat, b: nat, j: nat, w: Whole)
    requires FullInv(c, f) && FullFits(c, f) && InsideStep(c, f.whole, m, b, j, w)
    ensures FullMoves(c, f)
  {
    OtherMoves(c, f, w);
  }

  lemma WholeMoverMoves(c: Config, f: Full)
    requires FullInv(c, f) && WholeMoves(c, f.whole)
    ensures FullMoves(c, f)
  {
    var w :| WholeNext(c, f.whole, w);
    if m :| OutsideStep(c, f.whole, m, w) {
      OutsiderMoves(c, f, m, w);
    } else {
      var m, b, j :| InsideStep(c, f.whole, m, b, j, w);
      InsiderMoves(c, f, m, b, j, w);
    }
  }

  ghost predicate NobodyLocking(locks: seq<Mutexes.State>) {
    forall x, t :: 0 <= x < |locks| && 0 <= t < |locks[x].pcs| ==> locks[x].pcs[t] == Mutexes.Wait
  }

  // No test of unlock has ever failed.
  ghost predicate NobodyFailed(locks: seq<Mutexes.State>) {
    forall x, t :: 0 <= x < |locks| && 0 <= t < |locks[x].pcs| ==> locks[x].pcs[t] != Mutexes.Failed
  }

  lemma InOrderIsFine(lock: Mutexes.State)
    requires Mutexes.InOrder(lock)
    ensures forall t :: 0 <= t < |lock.pcs| ==> lock.pcs[t] != Mutexes.Failed
  {}

  lemma LocksAreFine(c: Config, s: State, locks: seq<Mutexes.State>)
    requires c.Valid() && Shaped(c, s) && LocksOk(c, s, locks)
    ensures NobodyFailed(locks)
  {
    forall x: nat | x <= c.N() ensures forall t :: 0 <= t < |locks[x].pcs| ==> locks[x].pcs[t] != Mutexes.Failed {
      assert LockOk(c, s, x, locks[x]);
      InOrderIsFine(locks[x]);
    }
  }

  lemma OneLockIdle(c: Config, s: State, x: nat, lock: Mutexes.State)
    requires Inv(c, s) && x <= c.N() && LockOk(c, s, x, lock) && forall t: nat :: t < c.N() ==> s.pcs[t] == Finished
    ensures forall t :: 0 <= t < |lock.pcs| ==> lock.pcs[t] == Mutexes.Wait
  {
    InOrderIsFine(lock);
    forall t: nat | t < c.N() ensures lock.pcs[t] == Mutexes.Wait {
      assert ThreadAt(c, s, x, t, lock.pcs[t]);
      if x < c.N() { assert s.own[x] == Some(t) <==> Holds(c, s.pcs[t], t, x); }
    }
  }

  // In every reachable state some thread can take a step, or all have finished, nobody is inside a
  // barrier and every mutex is free.
  lemma FullDeadlockFree(c: Config, f: Full)
    requires FullInv(c, f)
    ensures FullMoves(c, f) || (Complete(c, f.whole.tree) && NobodyInside(c, f.whole) && NobodyLocking(f.locks))
  {
    WholeDeadlockFree(c, f.whole);
    if WholeMoves(c, f.whole) {
      WholeMoverMoves(c, f);
    } else {
      forall x: nat | x <= c.N() ensures forall t :: 0 <= t < |f.locks[x].pcs| ==> f.locks[x].pcs[t] == Mutexes.Wait {
        assert LockOk(c, f.whole.tree, x, f.locks[x]);
        OneLockIdle(c, f.whole.tree, x, f.locks[x]);
      }
    }
  }

  // ---------- Runs ----------

  // The operations that a thread still has to perform until it has unlocked, at most.
  function CallLeft(pc: Mutexes.Pc): nat {
    match pc
    case Wait => 8 case SetLocked => 7 case SetOwner => 6 case Critical => 5
    case CheckLocked => 4 case CheckOwner => 3 case ClearLocked => 2 case Post => 1 case Failed => 0
  }

  function CallsLeft(pcs: seq<Mutexes.Pc>): (xs: seq<nat>)
    ensures |xs| == |pcs|
  {
    seq(|pcs|, t requires 0 <= t < |pcs| => CallLeft(pcs[t]))
  }

  function LocksLeft(locks: seq<Mutexes.State>): (xs: seq<nat>)
    ensures |xs| == |locks|
  {
    seq(|locks|, x requires 0 <= x < |locks| => Total(CallsLeft(locks[x].pcs)))
  }

  ghost function FullRank(c: Config, f: Full): nat
    requires FullInv(c, f)
  {
    8 * WholeRank(c, f.whole) + Total(LocksLeft(f.locks))
  }

  lemma CallLowers(s: Mutexes.State, t: nat, s': Mutexes.State)
    requires Mutexes.InOrder(s) && Mutexes.Step(s, t, s')
    ensures Total(CallsLeft(s'.pcs)) == Total(CallsLeft(s.pcs)) + if s.pcs[t] == Mutexes.Post then 7 else -1
  {
    Mutexes.Refines(s, t, s');
    assert CallsLeft(s'.pcs) == CallsLeft(s.pcs)[t := CallLeft(s'.pcs[t])];
    TotalUpdate(CallsLeft(s.pcs), t, CallLeft(s'.pcs[t]));
  }

  lemma LockStepLeft(c: Config, f: Full, t: nat, x: nat, f': Full)
    requires FullInv(c, f) && LockStep(c, f, t, x, f')
    ensures Total(LocksLeft(f'.locks)) ==
            Total(LocksLeft(f.locks)) + if f.locks[x].pcs[t] == Mutexes.Post then 7 else -1
  {
    assert LockOk(c, f.whole.tree, x, f.locks[x]);
    CallLowers(f.locks[x], t, f'.locks[x]);
    var left := Total(CallsLeft(f'.locks[x].pcs));
    assert LocksLeft(f'.locks) == LocksLeft(f.locks)[x := left];
    TotalUpdate(LocksLeft(f.locks), x, left);
  }

  lemma LockLowers(c: Config, f: Full, t: nat, x: nat, f': Full)
    requires FullInv(c, f) && FullInv(c, f') && LockStep(c, f, t, x, f')
    ensures FullRank(c, f') < FullRank(c, f)
  {
    LockStepWhole(c, f, t, x, f');
    LockStepLeft(c, f, t, x, f');
    if f'.whole != f.whole || f.locks[x].pcs[t] == Mutexes.Post { OutsideLowers(c, f.whole, t, f'.whole); }
  }

  lemma FullStep(c: Config, f: Full, f': Full)
    requires FullInv(c, f) && FullNext(c, f, f')
    ensures FullInv(c, f') && FullRank(c, f') < FullRank(c, f)
  {
    if OtherStep(c, f, f') {
      OtherKeeps(c, f, f');
    } else {
      var t: nat, x: nat :| LockStep(c, f, t, x, f');
      LockKeeps(c, f, t, x, f');
      LockLowers(c, f, t, x, f');
    }
  }

  ghost predicate IsFullRun(c: Config, run: seq<Full>) {
    c.Valid() && run != [] && run[0] == FullStart(c) && forall k :: 0 < k < |run| ==> FullNext(c, run[k - 1], run[k])
  }

  lemma {:induction false} FullRunInv(c: Config, run: seq<Full>)
    requires IsFullRun(c, run)
    ensures FullInv(c, FullStart(c)) && FullInv(c, run[|run| - 1])
    ensures FullRank(c, run[|run| - 1]) + |run| - 1 <= FullRank(c, FullStart(c))
  {
    FullStartInv(c);
    if |run| > 1 {
      var k := |run| - 1;
      assert IsFullRun(c, run[..k]) && run[..k][k - 1] == run[k - 1];
      FullRunInv(c, run[..k]);
      FullStep(c, run[k - 1], run[k]);
    }
  }

  function LockBudget(n: nat): nat {
    (n + 1) * (n * 8)
  }

  // A bound on the steps of a run: eight for each of those with mutexes in one piece, and as many as
  // the calls that never come.
  function FullBudget(c: Config): nat {
    8 * WholeBudget(c) + LockBudget(c.N())
  }

  lemma FreeLocksLeft(n: nat, locks: seq<Mutexes.State>)
    requires |locks| == n + 1 && forall x :: 0 <= x < |locks| ==> locks[x] == Mutexes.Init(n)
    ensures Total(LocksLeft(locks)) <= LockBudget(n)
  {
    TotalBound(CallsLeft(Mutexes.Init(n).pcs), 8);
    TotalBound(LocksLeft(locks), n * 8);
  }

  lemma FullStartRank(c: Config)
    requires c.Valid() && FullInv(c, FullStart(c))
    ensures FullRank(c, FullStart(c)) <= FullBudget(c)
  {
    StartRank(c);
    FreeLocksLeft(c.N(), FullStart(c).locks);
  }

  // On the library's own mutexes and barriers, in every state of every run: what has been printed is
  // right, and no unlock has reported an error.
  lemma FullReportsAreSums(c: Config, run: seq<Full>, i: nat)
    requires IsFullRun(c, run) && i < c.N()
    ensures NobodyFailed(run[|run| - 1].locks)
    ensures var s := run[|run| - 1].whole.tree;
            && Shaped(c, s)
            && (s.shown[i].Some? ==> !c.Leaf(i) && s.shown[i].value == c.LeafSum(i))
            && (s.printed.Some? ==> s.printed.value == AllLeaves(c, c.N()))
  {
    FullRunInv(c, run);
    RootSum(c, c.N());
    LocksAreFine(c, run[|run| - 1].whole.tree, run[|run| - 1].locks);
  }

  // Every run is finite, and one that cannot go on has all threads finished, nobody inside a
  // barrier, every mutex free and every sum printed.
  lemma FullRunCompletes(c: Config, run: seq<Full>, i: nat)
    requires IsFullRun(c, run) && i < c.N()
    ensures |run| - 1 <= FullBudget(c)
    ensures var f := run[|run| - 1];
            !FullMoves(c, f) ==>
              && Complete(c, f.whole.tree) && NobodyInside(c, f.whole) && NobodyLocking(f.locks)
              && f.whole.tree.printed == Some(AllLeaves(c, c.N()))
              && (c.Leaf(i) || f.whole.tree.shown[i] == Some(c.LeafSum(i)))
  {
    FullRunInv(c, run);
    FullStartRank(c);
    RootSum(c, c.N());
    FullDeadlockFree(c, run[|run| - 1]);
  }
}
