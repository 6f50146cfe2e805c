// The token discipline of the paging system and its preservation by every step.
module PagingInvariant {
  import opened MessageQueues
  import opened ReferenceStrings
  import opened PagedMemory
  import opened LruReplacement
  import opened Mmus
  import opened PagingSystem

  // Who holds the right to proceed.
  datatype Token = Chosen | Dispatched(p: nat) | Resumed(p: nat) | Running(p: nat) | Requested(p: nat)
                 | InMmu(p: nat) | Replied(p: nat) | Noticed(p: nat, over: bool) | Requeued(p: nat) | Finished

  predicate HeldBy(t: Token, p: nat) {
    !t.Chosen? && !t.Finished? && t.p == p
  }

  // Where a process is in the schedule.
  datatype Stage = Unforked | Born | Queued | Held | Ended

  // The abstract picture of a state: token, ready queue (process indices), stages and frame owners.
  datatype View = View(tok: Token, ready: seq<nat>, stage: seq<Stage>, ow: seq<Owner>)

  // ---------- Ready queue, token and counters ----------

  function Pids(c: Config, ready: seq<nat>): seq<nat> {
    seq(|ready|, n requires 0 <= n < |ready| => if ready[n] < |c.pids| then c.pids[ready[n]] else 0)
  }

  ghost predicate Distinct(s: seq<nat>) {
    forall a, b :: 0 <= a < b < |s| ==> s[a] != s[b]
  }

  // The processes in the ready queue are the ones in stage Queued, each once.
  ghost predicate ReadyOk(c: Config, ready: seq<nat>, stage: seq<Stage>) {
    && |stage| == c.K()
    && Distinct(ready)
    && (forall n :: 0 <= n < |ready| ==> ready[n] < c.K() && stage[ready[n]] == Queued)
    && forall i :: 0 <= i < c.K() && stage[i] == Queued ==> i in ready
  }

  // What process p asks of the MMU with the request it has sent.
  function Wanted(p: Proc): int {
    if p.pc == Done then TERMINATE else p.page
  }

  ghost predicate HolderOk(c: Config, tok: Token, stage: seq<Stage>) {
    && |stage| == c.K()
    && (!tok.Chosen? && !tok.Finished? ==> tok.p < c.K())
    && forall i :: 0 <= i < c.K() ==> (stage[i] == Held <==> HeldBy(tok, i))
  }

  ghost predicate TokenOk(c: Config, s: State, v: View) {
    && OfType(s.q1, 1) == Pids(c, v.ready)
    && |s.procs| == c.K() && HolderOk(c, v.tok, v.stage)
    && s.sched == (match v.tok
                   case Chosen => Choosing
                   case Finished => Exited
                   case Dispatched(p) => Dispatching(c.pids[p])
                   case Requeued(p) => Requeueing(c.pids[p])
                   case _ => AwaitingMmu)
    && OfType(s.q3, 1) == (if v.tok.Requested? then [(c.pids[v.tok.p], Wanted(s.procs[v.tok.p]))] else [])
    && if s.master == AwaitingMmuPid then
         && (v.tok.Chosen? || v.tok.Finished?)
         && ((s.mmu == Booting && s.q2 == []) || (s.mmu == Receiving && s.q2 == [Msg(100, c.mmuPid)]))
       else
         && s.q2 == (if v.tok.Noticed? then [Msg(if v.tok.over then 2 else 1, c.pids[v.tok.p])] else [])
         && if v.tok.InMmu? then MmuWith(s.mmu, v.tok.p) else s.mmu == Receiving
  }

  ghost predicate MmuWith(m: MmuPc, p: nat) {
    (m.Serving? || m.Releasing? || m.Loading?) && m.idx == p
  }

  function Forked(c: Config, master: MasterPc): nat {
    match master
    case AwaitingMmuPid => 0
    case Forking(n) => n
    case Notified => c.K()
  }

  function Alive(stage: seq<Stage>): nat {
    if stage == [] then 0 else (if stage[0] == Ended then 0 else 1) + Alive(stage[1..])
  }

  // Processes are forked in order; the scheduler counts the live ones and posts once.
  ghost predicate CountsOk(c: Config, s: State, v: View) {
    && |v.stage| == c.K() == |s.pidTable|
    && (s.master.Forking? ==> s.master.next <= c.K())
    && (forall i :: 0 <= i < c.K() ==> (v.stage[i] == Unforked <==> i >= Forked(c, s.master)))
    && (forall i :: 0 <= i < c.K() ==> s.pidTable[i] == if v.stage[i] == Unforked then 0 else c.pids[i])
    && s.left == Alive(v.stage)
    && (v.tok == Finished ==> s.left == 0)
    && s.sem == (if v.tok == Finished && s.master != Notified then 1 else 0)
    && (s.master == Notified ==> v.tok == Finished)
  }

  // ---------- One process ----------

  // A process that waits for a run message, with its fault reply read or not.
  ghost predicate Waiting(p: Proc, r3: seq<(nat, int)>) {
    || ((p.pc == AwaitingFirstRun || p.pc == AwaitingRun) && r3 == [])
    || (p.pc == AwaitingReply && |r3| == 1 && r3[0].1 == FAULT)
  }

  // A process that has terminated, or will as soon as it reads that its page was illegal.
  ghost predicate Over(p: Proc, r3: seq<(nat, int)>) {
    || ((p.pc == Done || p.pc == Stopped) && r3 == [])
    || (p.pc == AwaitingReply && |r3| == 1 && r3[0].1 == ILLEGAL)
  }

  // A process without the token; r1 and r3 are the messages addressed to it in queues 1 and 3.
  ghost predicate Parked(stage: Stage, p: Proc, r1: seq<nat>, r3: seq<(nat, int)>) {
    && r1 == []
    && match stage
       case Unforked => p.pc == Unborn && r3 == []
       case Born => p.pc == Starting && r3 == []
       case Queued => Waiting(p, r3)
       case Ended => Over(p, r3)
       case Held => false
  }

  // The process with the token.
  ghost predicate Holds(tok: Token, mmu: MmuPc, p: Proc, pid: nat, r1: seq<nat>, r3: seq<(nat, int)>) {
    && r1 == (if tok.Resumed? then [pid] else [])
    && match tok
       case Dispatched(_) => Waiting(p, r3)
       case Requeued(_) => Waiting(p, r3)
       case Resumed(_) => Waiting(p, r3)
       case Running(_) => p.pc == AtHead && r3 == []
       case Requested(_) => (p.pc == AwaitingReply || p.pc == Done) && r3 == []
       case InMmu(_) =>
         (match mmu
          case Serving(_, page) => (p.pc == AwaitingReply || p.pc == Done) && r3 == [] && page == Wanted(p)
          case Releasing(_) => Over(p, r3) && p.pc != Done
          case Loading(_, page) => Waiting(p, r3) && p.pc != AwaitingFirstRun && page == p.page
          case _ => false)
       case Replied(_) => p.pc == AwaitingReply && |r3| == 1 && r3[0].1 >= 0
       case Noticed(_, over) => if over then Over(p, r3) else Waiting(p, r3)
       case _ => false
  }

  // What a process has achieved: the pages granted so far are the first of its reference string,
  // all legal, and its parser stands where the pages granted say.
  ghost predicate Faithful(p: Proc, pages: seq<nat>, need: nat) {
    var j := |p.granted|;
    && j <= |pages| && p.granted == pages[..j]
    && (forall n :: 0 <= n < j ==> pages[n] < need)
    && match p.pc
       case Unborn => j == 0
       case Starting => j == 0
       case AwaitingFirstRun => j == 0
       case AtHead => p.i == Offset(pages, j)
       case AwaitingReply =>
         j < |pages| && p.prev == Offset(pages, j) && p.page == pages[j] && p.i == Offset(pages, j + 1)
       case AwaitingRun => j < |pages| && p.prev == Offset(pages, j) && p.page == pages[j]
       case Done => j == |pages|
       case Stopped => j < |pages| && pages[j] >= need
  }

  // Pages awaited after a fault are legal, pages refused are not.
  ghost predicate Judged(p: Proc, r3: seq<(nat, int)>, need: nat) {
    && (p.pc == AwaitingRun ==> p.page < need)
    && (p.pc == AwaitingReply && |r3| > 0 ==> if r3[0].1 == ILLEGAL then p.page >= need else p.page < need)
  }

  ghost predicate Local(c: Config, s: State, v: View, i: nat)
    requires c.Valid() && i < c.K() && |s.procs| == |v.stage| == c.K()
  {
    var p, r1, r3 := s.procs[i], OfType(s.q1, c.pids[i]), OfType(s.q3, c.pids[i]);
    && (if v.stage[i] == Held then Holds(v.tok, s.mmu, p, c.pids[i], r1, r3) else Parked(v.stage[i], p, r1, r3))
    && Faithful(p, c.refs[i], c.need[i])
    && Judged(p, r3, c.need[i])
  }

  ghost predicate Locals(c: Config, s: State, v: View)
    requires c.Valid()
  {
    |s.procs| == |v.stage| == c.K() && forall i :: 0 <= i < c.K() ==> Local(c, s, v, i)
  }

  // ---------- Memory ----------

  // The requests of process i that the MMU has dealt with.
  function Served(log: Log, tok: Token, i: nat): Log {
    if tok == InMmu(i) && log != [] then log[..|log| - 1] else log
  }

  ghost predicate Empty(t: Table) {
    forall j :: 0 <= j < |t| ==> t[j].frame == -1
  }

  ghost predicate StacksOk(c: Config, mem: Memory, log: Log, tok: Token, ow: seq<Owner>) {
    && Owned(mem, ow) && |ow| == c.f && mem.need == c.need && |c.need| == c.K()
    && forall i :: 0 <= i < c.K() ==>
         |mem.tables[i]| == c.rows && Stacked(mem.tables[i], c.need[i], Served(log, tok, i), i)
  }

  // Only processes that have run and not ended own frames.
  ghost predicate EmptyOk(c: Config, mem: Memory, tok: Token, stage: seq<Stage>) {
    && |stage| == |mem.tables| == c.K()
    && forall i :: 0 <= i < c.K() && (stage[i] in {Unforked, Born, Ended} || tok == Noticed(i, true))
                   ==> Empty(mem.tables[i])
  }

  // While a page is loaded, the last line of the log is its request and it is not in memory.
  ghost predicate AskedOk(c: Config, s: State, tok: Token) {
    tok.InMmu? ==> s.log != [] && var last := s.log[|s.log| - 1];
                   match s.mmu
                   case Serving(i, page) => last == Request(i, page)
                   case Releasing(i) => i < c.K() && |c.need| == c.K() && last.proc == i && last.page >= c.need[i]
                   case Loading(i, page) => last == Request(i, page) && Absent(s.mem, i, page)
                   case _ => false
  }

  ghost predicate Absent(m: Memory, i: nat, page: int) {
    i < |m.tables| && i < |m.need| && 0 <= page < m.need[i] && page < |m.tables[i]| && !Hit(m, i, page)
  }

  // A page that has been granted is in memory.
  ghost predicate LoadedOk(c: Config, s: State, tok: Token) {
    tok.Replied? ==> tok.p < |s.procs| && Loaded(s.mem, tok.p, s.procs[tok.p].page)
  }

  ghost predicate Loaded(m: Memory, i: nat, page: int) {
    i < |m.tables| && i < |m.need| && 0 <= page < m.need[i] && page < |m.tables[i]| && m.tables[i][page].frame != -1
  }

  ghost predicate MemoryOk(c: Config, s: State, v: View) {
    && StacksOk(c, s.mem, s.log, v.tok, v.ow)
    && EmptyOk(c, s.mem, v.tok, v.stage)
    && AskedOk(c, s, v.tok)
    && LoadedOk(c, s, v.tok)
  }

  // ---------- The invariant ----------

  ghost predicate Control(c: Config, s: State, v: View) {
    && ReadyOk(c, v.ready, v.stage)
    && TokenOk(c, s, v)
    && CountsOk(c, s, v)
  }

  ghost predicate Inv(c: Config, s: State, v: View) {
    && c.Valid()
    && Control(c, s, v)
    && Locals(c, s, v)
    && MemoryOk(c, s, v)
  }

  // ---------- Frame lemmas ----------

  ghost predicate SameMail<P>(c: Config, q: seq<Msg<P>>, q': seq<Msg<P>>, p: nat) {
    forall i :: 0 <= i < c.K() && i != p ==> OfType(q', c.pids[i]) == OfType(q, c.pids[i])
  }

  // A message for process p reaches nobody else.
  lemma SendToProcess<P>(c: Config, q: seq<Msg<P>>, p: nat, body: P)
    requires c.Valid() && p < c.K()
    ensures var q' := q + [Msg(c.pids[p], body)];
            && OfType(q', 1) == OfType(q, 1) && SameMail(c, q, q', p)
            && OfType(q', c.pids[p]) == OfType(q, c.pids[p]) + [body]
  {
    SendAll(q, Msg(c.pids[p], body));
  }

  lemma TakeByProcess<P>(c: Config, q: seq<Msg<P>>, p: nat)
    requires c.Valid() && p < c.K() && OfType(q, c.pids[p]) != []
    ensures var q' := Take(q, c.pids[p]);
            && OfType(q', 1) == OfType(q, 1) && SameMail(c, q, q', p)
            && OfType(q', c.pids[p]) == OfType(q, c.pids[p])[1..]
  {
    TakeAll(q, c.pids[p]);
  }

  // A message of type 1 reaches no process.
  lemma SendOne<P>(c: Config, q: seq<Msg<P>>, body: P)
    requires c.Valid()
    ensures var q' := q + [Msg(1, body)];
            OfType(q', 1) == OfType(q, 1) + [body] && SameMail(c, q, q', c.K())
  {
    SendAll(q, Msg(1, body));
  }

  lemma TakeOne<P>(c: Config, q: seq<Msg<P>>)
    requires c.Valid() && OfType(q, 1) != []
    ensures var q' := Take(q, 1);
            OfType(q', 1) == OfType(q, 1)[1..] && SameMail(c, q, q', c.K())
  {
    TakeAll(q, 1);
  }

  // Every process but p is as it was (with p == K: every process).
  lemma LocalsFrame(c: Config, s: State, v: View, s': State, v': View, p: nat)
    requires c.Valid() && Locals(c, s, v) && p <= c.K() && |s'.procs| == |v'.stage| == c.K()
    requires forall i :: 0 <= i < c.K() && i != p ==> v.stage[i] == v'.stage[i] && s'.procs[i] == s.procs[i]
    requires forall i :: 0 <= i < c.K() && i != p && v.stage[i] == Held ==> v'.tok == v.tok && s'.mmu == s.mmu
    requires SameMail(c, s.q1, s'.q1, p) && SameMail(c, s.q3, s'.q3, p)
    requires p < c.K() ==> Local(c, s', v', p)
    ensures Locals(c, s', v')
  {
    forall i | 0 <= i < c.K() ensures Local(c, s', v', i) {
      if i != p { assert Local(c, s, v, i); }
    }
  }

  // A step of the scheduler or of a process leaves memory alone.
  lemma MemoryFrame(c: Config, s: State, v: View, s': State, v': View)
    requires MemoryOk(c, s, v) && s'.mem == s.mem && s'.log == s.log && v'.ow == v.ow
    requires s'.mmu == s.mmu || !v.tok.InMmu?
    requires v'.tok.InMmu? || v.tok.InMmu? ==> v.tok == v'.tok
    requires v'.tok.Replied? ==>
               v.tok == v'.tok && |s.procs| == |s'.procs| && s'.procs[v.tok.p].page == s.procs[v.tok.p].page
    requires |v'.stage| == c.K() && |s.procs| == c.K()
    requires forall i :: 0 <= i < c.K() && (v'.stage[i] in {Unforked, Born, Ended} || v'.tok == Noticed(i, true)) ==>
               v.stage[i] in {Unforked, Born, Ended} || v.tok == Noticed(i, true)
    ensures MemoryOk(c, s', v')
  {
    assert forall i :: 0 <= i < c.K() ==> Served(s.log, v.tok, i) == Served(s'.log, v'.tok, i);
  }
}
