// The thread library's mutex at the grain of its separate field writes, for clients that unlock
// exactly what they have locked.
module Mutexes {

  // The next operation of a client that locks, works and unlocks over and over.
  datatype Pc =
    | Wait          // wait on the semaphore
    | SetLocked     // is_locked = 1
    | SetOwner      // owner_tid = own tid (all threads share one pid)
    | Critical      // the client's work
    | CheckLocked   // unlock: is it locked?
    | CheckOwner    // unlock: is the caller the owner?
    | ClearLocked   // is_locked = 0
    | Post          // post the semaphore
    | Failed        // exit(EXIT_FAILURE)

  datatype State = State(sem: nat, locked: bool, owner: int, pcs: seq<Pc>)

  function Init(n: nat): State {
    State(1, false, -1, seq(n, _ => Wait))
  }

  function At(s: State, t: nat, pc: Pc): State
    requires t < |s.pcs|
  {
    s.(pcs := s.pcs[t := pc])
  }

  // Thread t's tid is t.
  ghost predicate Step(s: State, t: nat, s': State) {
    && t < |s.pcs|
    && match s.pcs[t]
       case Wait => s.sem > 0 && s' == At(s, t, SetLocked).(sem := s.sem - 1)
       case SetLocked => s' == At(s, t, SetOwner).(locked := true)
       case SetOwner => s' == At(s, t, Critical).(owner := t)
       case Critical => s' == At(s, t, CheckLocked)
       case CheckLocked => s' == At(s, t, if s.locked then CheckOwner else Failed)
       case CheckOwner => s' == At(s, t, if s.owner == t then ClearLocked else Failed)
       case ClearLocked => s' == At(s, t, Post).(locked := false)
       case Post => s' == At(s, t, Wait).(sem := s.sem + 1)
       case Failed => false
  }

  // Between the writes of is_locked.
  predicate Marked(pc: Pc) {
    pc in {SetOwner, Critical, CheckLocked, CheckOwner, ClearLocked}
  }

  datatype Holder = Nobody | Thread(t: nat)

  ghost predicate Inv(s: State, h: Holder) {
    && s.sem == (if h.Nobody? then 1 else 0)
    && (h.Thread? ==> h.t < |s.pcs| && s.pcs[h.t] != Wait)
    && (s.locked ==> h.Thread? && Marked(s.pcs[h.t]))
    && forall t :: 0 <= t < |s.pcs| ==>
         && s.pcs[t] != Failed
         && (h != Thread(t) ==> s.pcs[t] == Wait)
         && (Marked(s.pcs[t]) ==> s.locked)
         && (s.pcs[t] in {Critical, CheckLocked, CheckOwner, ClearLocked} ==> s.owner == t)
  }

  lemma InitInv(n: nat)
    ensures Inv(Init(n), Nobody)
  {}

  // No step ends in a failed check, and the semaphore's holder is the only thread past its wait.
  lemma StepKeeps(s: State, t: nat, s': State, h: Holder)
    requires Inv(s, h) && Step(s, t, s')
    ensures Inv(s', if s.pcs[t] == Wait then Thread(t) else if s.pcs[t] == Post then Nobody else h)
  {}

  ghost predicate Next(s: State, s': State) {
    exists t: nat :: Step(s, t, s')
  }

  ghost predicate IsRun(n: nat, run: seq<State>) {
    && run != [] && run[0] == Init(n)
    && forall k :: 0 < k < |run| ==> Next(run[k - 1], run[k])
  }

  lemma {:induction false} RunInv(n: nat, run: seq<State>) returns (h: Holder)
    requires IsRun(n, run)
    ensures Inv(run[|run| - 1], h) && |run[|run| - 1].pcs| == n
  {
    var k := |run| - 1;
    if k == 0 {
      h := Nobody;
    } else {
      assert IsRun(n, run[..k]) && run[..k][k - 1] == run[k - 1];
      h := RunInv(n, run[..k]);
      assert Next(run[k - 1], run[k]);
      var t: nat :| Step(run[k - 1], t, run[k]);
      StepKeeps(run[k - 1], t, run[k], h);
      h := if run[k - 1].pcs[t] == Wait then Thread(t) else if run[k - 1].pcs[t] == Post then Nobody else h;
    }
  }

  // In every state of every run at most one thread is between its wait and its post, no unlock has
  // found a mutex that is not locked or not its own, and some thread can go on; the mutex is marked as
  // locked exactly while some thread is between its two writes, and as owned by a thread with its lock returned.
  lemma Exclusive(n: nat, run: seq<State>, t: nat, u: nat)
    requires IsRun(n, run) && t < n && u < n
    ensures var s := run[|run| - 1];
            && |s.pcs| == n && s.pcs[t] != Failed
            && (s.pcs[t] != Wait && s.pcs[u] != Wait ==> t == u)
            && (s.locked <==> exists v :: 0 <= v < n && Marked(s.pcs[v]))
            && (Marked(s.pcs[t]) && s.pcs[t] != SetOwner ==> s.owner == t)
            && exists s' :: Next(s, s')
  {
    var h := RunInv(n, run);
    var v, s' := SomeoneMoves(run[|run| - 1], h);
    assert Next(run[|run| - 1], s');
  }

  lemma SomeoneMoves(s: State, h: Holder) returns (t: nat, s': State)
    requires Inv(s, h) && |s.pcs| > 0
    ensures Step(s, t, s')
  {
    t := if h.Thread? then h.t else 0;
    s' := match s.pcs[t]
          case Wait => At(s, t, SetLocked).(sem := 0)
          case SetLocked => At(s, t, SetOwner).(locked := true)
          case SetOwner => At(s, t, Critical).(owner := t)
          case Critical => At(s, t, CheckLocked)
          case CheckLocked => At(s, t, CheckOwner)
          case CheckOwner => At(s, t, ClearLocked)
          case ClearLocked => At(s, t, Post).(locked := false)
          case Post => At(s, t, Wait).(sem := s.sem + 1)
          case Failed => s;
  }

  // ---------- The mutex as its clients see it ----------

  // The thread's call of lock has returned and its call of unlock has not.
  predicate Holding(pc: Pc) {
    pc in {Critical, CheckLocked, CheckOwner, ClearLocked, Post}
  }

  // Inside the two calls.
  predicate Locking(pc: Pc) {
    pc in {SetLocked, SetOwner}
  }

  predicate Unlocking(pc: Pc) {
    pc in {CheckLocked, CheckOwner, ClearLocked, Post}
  }

  ghost predicate InOrder(s: State) {
    exists h :: Inv(s, h)
  }

  // A lock returns only when nobody holds the mutex, an unlock only to its holder, and no other
  // operation shows; nobody is ever inside an unlock without holding the mutex.
  lemma Refines(s: State, t: nat, s': State)
    requires InOrder(s) && Step(s, t, s')
    ensures InOrder(s') && |s'.pcs| == |s.pcs| && s'.pcs[t] != Failed
    ensures forall u :: 0 <= u < |s.pcs| && u != t ==> s'.pcs[u] == s.pcs[u]
    ensures s.pcs[t] == SetOwner ==> Holding(s'.pcs[t]) && forall u :: 0 <= u < |s.pcs| ==> !Holding(s.pcs[u])
    ensures s.pcs[t] == Post ==> Holding(s.pcs[t]) && forall u :: 0 <= u < |s.pcs| ==> !Holding(s'.pcs[u])
    ensures s.pcs[t] !in {SetOwner, Post} ==> Holding(s'.pcs[t]) == Holding(s.pcs[t])
  {
    var h :| Inv(s, h);
    StepKeeps(s, t, s', h);
  }

  // A thread that calls lock while nobody holds the mutex can go on, or the one before it in its call can.
  lemma LockProgresses(s: State, t: nat) returns (u: nat, s': State)
    requires InOrder(s) && t < |s.pcs| && forall v :: 0 <= v < |s.pcs| ==> !Holding(s.pcs[v])
    ensures u < |s.pcs| && (u == t || Locking(s.pcs[u])) && Step(s, u, s')
  {
    var h :| Inv(s, h);
    u := if h.Thread? then h.t else t;
    s' := if s.pcs[u] == Wait then At(s, u, SetLocked).(sem := s.sem - 1)
          else if s.pcs[u] == SetLocked then At(s, u, SetOwner).(locked := true)
          else At(s, u, Critical).(owner := u);
  }

  lemma UnlockProgresses(s: State, t: nat) returns (s': State)
    requires InOrder(s) && t < |s.pcs| && Holding(s.pcs[t])
    ensures Step(s, t, s')
  {
    var h :| Inv(s, h);
    s' := if s.pcs[t] == Critical then At(s, t, CheckLocked)
          else if s.pcs[t] == CheckLocked then At(s, t, CheckOwner)
          else if s.pcs[t] == CheckOwner then At(s, t, ClearLocked)
          else if s.pcs[t] == ClearLocked then At(s, t, Post).(locked := false)
          else At(s, t, Wait).(sem := s.sem + 1);
  }
}
