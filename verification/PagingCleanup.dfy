// After the post: the master removes the message queues without waiting for the processes.
module PagingCleanup {
  import opened MessageQueues
  import opened ReferenceStrings
  import opened PagedMemory
  import opened Mmus
  import opened PagingSystem
  import opened PagingInvariant
  import opened PagingProgress
  import opened PagingRank
  import opened PagingTheorems

  // One turn of a process once queue 3 is gone: sends and receives fail and leave its message
  // buffer as it was, so the page number it has just written there passes for a frame number.
  function LateTurn(text: string, p: Proc): Proc {
    match p.pc
    case AwaitingReply => p.(pc := AtHead, granted := p.granted + [p.page])
    case AtHead =>
      if p.i >= |text| then p.(pc := Done)
      else
        var (page, next) := ParsePage(text, p.i);
        p.(pc := AwaitingReply, prev := p.i, i := next, page := page)
    case _ => p
  }

  function LateTurns(text: string, p: Proc, n: nat): Proc
    decreases n
  {
    if n == 0 then p else LateTurns(text, LateTurn(text, p), n - 1)
  }

  // Where a process without queues stands in its reference string.
  ghost predicate Adrift(pages: seq<nat>, p: Proc) {
    var j := |p.granted|;
    && j <= |pages| && p.granted == pages[..j]
    && ((p.pc == AtHead && p.i == Offset(pages, j))
        || (p.pc == AwaitingReply && j < |pages| && p.page == pages[j] && p.i == Offset(pages, j + 1))
        || (p.pc == Done && j == |pages|))
  }

  lemma LateTurnAdrift(pages: seq<nat>, p: Proc)
    requires Adrift(pages, p)
    ensures Adrift(pages, LateTurn(Render(pages), p))
  {
    ParseRoundTrip(pages, |p.granted|);
    if p.pc == AwaitingReply {
      assert pages[..|p.granted| + 1] == pages[..|p.granted|] + [pages[|p.granted|]];
    }
  }

  function TurnsLeft(pages: seq<nat>, p: Proc): nat {
    if p.pc == Done || |p.granted| > |pages| then 0
    else 2 * (|pages| - |p.granted|) + if p.pc == AwaitingReply then 0 else 1
  }

  lemma {:induction false} LateEnd(pages: seq<nat>, p: Proc)
    requires Adrift(pages, p)
    ensures LateTurns(Render(pages), p, TurnsLeft(pages, p)).pc == Done
    ensures LateTurns(Render(pages), p, TurnsLeft(pages, p)).granted == pages
    decreases TurnsLeft(pages, p)
  {
    if p.pc != Done {
      var q := LateTurn(Render(pages), p);
      LateTurnAdrift(pages, p);
      ParseRoundTrip(pages, |p.granted|);
      assert TurnsLeft(pages, p) == TurnsLeft(pages, q) + 1;
      LateEnd(pages, q);
    }
  }

  // At the post every process has either finished or still has to read that its page is illegal.
  lemma AtPost(c: Config, s: State, v: View, i: nat)
    requires Inv(c, s, v) && s.sched == Exited && i < c.K()
    ensures s.procs[i].pc in {Done, Stopped, AwaitingReply}
    ensures s.procs[i].pc == AwaitingReply ==>
              Adrift(c.refs[i], s.procs[i]) && LegalPrefix(c.refs[i], c.need[i]) != c.refs[i]
  {
    NobodyAlive(v.stage);
    assert Local(c, s, v, i);
    OutcomeAtPost(c, s, v);
  }

  // If the master removes queue 3 in state s, process i ends with exactly its legal pages if and
  // only if it had read its last reply; otherwise it reports illegal pages as granted, to the end
  // of its reference string.
  lemma OutcomeAfterCleanup(c: Config, s: State, v: View, i: nat)
    requires Inv(c, s, v) && s.sched == Exited && i < c.K()
    ensures var final := LateTurns(c.Text(i), s.procs[i], TurnsLeft(c.refs[i], s.procs[i]));
            && (final.pc == Done || final.pc == Stopped)
            && (final.granted == LegalPrefix(c.refs[i], c.need[i]) <==> s.procs[i].pc != AwaitingReply)
            && (s.procs[i].pc == AwaitingReply ==> final.granted == c.refs[i])
  {
    AtPost(c, s, v, i);
    OutcomeAtPost(c, s, v);
    var p := s.procs[i];
    if p.pc == AwaitingReply {
      LateEnd(c.refs[i], p);
    } else {
      FinishedStays(c.Text(i), p, TurnsLeft(c.refs[i], p));
    }
  }

  lemma {:induction false} FinishedStays(text: string, p: Proc, n: nat)
    requires p.pc == Done || p.pc == Stopped
    ensures LateTurns(text, p, n) == p
    decreases n
  {
    if n > 0 { FinishedStays(text, p, n - 1); }
  }

  // ---------- Which runs end that way ----------

  // What process i has been granted in the end if the queues are removed in state s.
  function GrantedInTheEnd(c: Config, s: State, i: nat): seq<int>
    requires i < |c.refs| && i < |s.procs|
  {
    LateTurns(c.Text(i), s.procs[i], TurnsLeft(c.refs[i], s.procs[i])).granted
  }

  // A run in which the master has been woken, so that it goes on to remove the queues, and after
  // which process i has reported pages as allocated that are not.
  ghost predicate Misreported(c: Config, run: seq<State>, i: nat)
    requires c.Valid() && i < c.K()
  {
    && IsRun(c, run)
    && var s := run[|run| - 1];
       s.master == Notified && i < |s.procs| && GrantedInTheEnd(c, s, i) != LegalPrefix(c.refs[i], c.need[i])
  }

  ghost predicate NobodyStopped(s: State) {
    forall i :: 0 <= i < |s.procs| ==> s.procs[i].pc != Stopped
  }

  lemma CalmStep(c: Config, run: seq<State>) returns (longer: seq<State>)
    requires c.Valid() && IsRun(c, run) && Feasible(c) && RequestBudget(c) < INT_MAX
    requires run[|run| - 1].master != Notified && NobodyStopped(run[|run| - 1])
    ensures IsRun(c, longer) && |longer| == |run| + 1 && NobodyStopped(longer[|run|])
    ensures |run| <= StepBudget(c)
  {
    var s := run[|run| - 1];
    var v := RunReached(c, run);
    CalmMoves(c, s, v);
    var t :| Calm(c, s, t);
    longer := run + [t];
    EveryRunCompletes(c, longer);
  }

  // Any run can be continued, until the master is woken, without a process that reads that its page
  // was illegal.
  lemma {:induction false} CalmRun(c: Config, run: seq<State>) returns (longer: seq<State>)
    requires c.Valid() && IsRun(c, run) && Feasible(c) && RequestBudget(c) < INT_MAX
    requires NobodyStopped(run[|run| - 1])
    ensures IsRun(c, longer) && longer[|longer| - 1].master == Notified && NobodyStopped(longer[|longer| - 1])
    decreases StepBudget(c) + 1 - |run|
  {
    longer := run;
    if run[|run| - 1].master != Notified {
      longer := CalmStep(c, run);
      longer := CalmRun(c, longer);
    }
  }

  lemma WokenAfterPost(c: Config, s: State, v: View)
    requires Inv(c, s, v) && s.master == Notified
    ensures s.sched == Exited
  {}

  lemma MisreportNeeds(c: Config, run: seq<State>, i: nat)
    requires c.Valid() && RequestBudget(c) < INT_MAX && i < c.K() && Misreported(c, run, i)
    ensures Feasible(c) && LegalPrefix(c.refs[i], c.need[i]) != c.refs[i]
  {
    var s := run[|run| - 1];
    var v := ReachableInv(c, run);
    WokenAfterPost(c, s, v);
    AtPost(c, s, v, i);
    OutcomeAfterCleanup(c, s, v, i);
    if !Feasible(c) {
      var q :| 0 <= q < c.K() && NeedsFrame(c, q);
      NeverCompletes(c, run, q);
    }
  }

  lemma MisreportHappens(c: Config, i: nat) returns (run: seq<State>)
    requires c.Valid() && Feasible(c) && RequestBudget(c) < INT_MAX && i < c.K()
    requires LegalPrefix(c.refs[i], c.need[i]) != c.refs[i]
    ensures Misreported(c, run, i)
  {
    run := CalmRun(c, [Init(c)]);
    var s := run[|run| - 1];
    var v := RunReached(c, run);
    WokenAfterPost(c, s, v);
    AtPost(c, s, v, i);
    OutcomeAtPost(c, s, v);
    OutcomeAfterCleanup(c, s, v, i);
  }

  // The defect, exactly: some run leaves process i with a wrong report if and only if runs get to
  // the post at all and a page of its list is illegal.
  lemma MisreportIffIllegal(c: Config, i: nat)
    requires c.Valid() && RequestBudget(c) < INT_MAX && i < c.K()
    ensures (exists run :: Misreported(c, run, i)) <==>
            Feasible(c) && exists n :: 0 <= n < |c.refs[i]| && c.refs[i][n] >= c.need[i]
  {
    PrefixIsWhole(c.refs[i], c.need[i]);
    if Feasible(c) && LegalPrefix(c.refs[i], c.need[i]) != c.refs[i] {
      var run := MisreportHappens(c, i);
    }
    forall run | Misreported(c, run, i) ensures Feasible(c) && LegalPrefix(c.refs[i], c.need[i]) != c.refs[i] {
      MisreportNeeds(c, run, i);
    }
  }

  lemma {:induction false} PrefixIsWhole(pages: seq<nat>, need: nat)
    ensures LegalPrefix(pages, need) == pages <==> forall n :: 0 <= n < |pages| ==> pages[n] < need
  {
    if pages != [] {
      PrefixIsWhole(pages[1..], need);
      assert pages == [pages[0]] + pages[1..];
      assert pages[0] >= need || ((forall n :: 0 <= n < |pages| ==> pages[n] < need) <==>
               forall n :: 0 <= n < |pages[1..]| ==> pages[1..][n] < need) by {
        assert forall n :: 0 < n < |pages| ==> pages[n] == pages[1..][n - 1];
      }
    }
  }

  // An input that the master can make: two pages at most, one process that needs one of them and asks
  // for page 1 twice, one frame.
  lemma MisreportExample(mmuPid: nat)
    ensures var c := Config([2], [1], [[1, 1]], 2, 1, mmuPid);
            MasterMakes(c) && exists run :: Misreported(c, run, 0)
  {
    var c := Config([2], [1], [[1, 1]], 2, 1, mmuPid);
    assert References(c.refs) == 2;
    assert c.refs[0][0] >= c.need[0];
    MisreportIffIllegal(c, 0);
  }
}
