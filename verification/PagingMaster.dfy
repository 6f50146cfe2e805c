// The master's lists of references. The random numbers for a process and for a reference are functions of their
// positions; stray says where a page beyond the process's bound is wanted.
module PagingMaster {
  import opened PagingSystem
  import opened ReferenceStrings
  import Theorems = PagingTheorems

  datatype Draws = Draws(bound: nat -> nat, length: nat -> nat, page: (nat, nat) -> nat, stray: (nat, nat) -> bool)

  // The list of process i, in a space of m pages.
  ghost predicate IsList(m: nat, d: Draws, i: nat, need: nat, refs: seq<nat>) {
    && m > 0 && need == d.bound(i) % m + 1
    && |refs| == 2 * need + d.length(i) % (8 * need + 1)
    && forall j: nat :: j < |refs| ==> IsReference(m, d, i, need, j, refs[j])
  }

  ghost predicate IsReference(m: nat, d: Draws, i: nat, need: nat, j: nat, page: nat) {
    && need > 0
    && page == if d.stray(i, j) && m > need then need + d.page(i, j) % (m - need) else d.page(i, j) % need
  }

  // The lists of the first k processes.
  ghost predicate AreLists(m: nat, d: Draws, k: nat, need: seq<nat>, refs: seq<seq<nat>>) {
    |need| == |refs| == k && forall i: nat :: i < k ==> IsList(m, d, i, need[i], refs[i])
  }

  method MakeList(m: nat, d: Draws, i: nat) returns (need: nat, refs: seq<nat>)
    requires m > 0
    ensures IsList(m, d, i, need, refs)
  {
    need := d.bound(i) % m + 1;
    var length := 2 * need + d.length(i) % (8 * need + 1);
    refs := [];
    var j := 0;
    while j < length
      invariant j <= length && |refs| == j
      invariant forall n: nat :: n < j ==> IsReference(m, d, i, need, n, refs[n])
    {
      if d.stray(i, j) && m > need {
        refs := refs + [need + d.page(i, j) % (m - need)];
      } else {
        refs := refs + [d.page(i, j) % need];
      }
      j := j + 1;
    }
  }

  // The loop over the processes, with the strings that it prints.
  method MakeLists(k: nat, m: nat, d: Draws) returns (need: seq<nat>, refs: seq<seq<nat>>, texts: seq<string>)
    requires m > 0
    ensures AreLists(m, d, k, need, refs)
    ensures |texts| == k && forall i :: 0 <= i < k ==> texts[i] == Render(refs[i])
  {
    need, refs, texts := [], [], [];
    var i := 0;
    while i < k
      invariant i <= k && |need| == |refs| == |texts| == i
      invariant forall n: nat :: n < i ==> IsList(m, d, n, need[n], refs[n]) && texts[n] == Render(refs[n])
    {
      var bound, list := MakeList(m, d, i);
      var text := BuildReferenceString(list);
      need, refs, texts := need + [bound], refs + [list], texts + [text];
      i := i + 1;
    }
  }

  lemma ListWithin(m: nat, d: Draws, i: nat, need: nat, refs: seq<nat>)
    requires IsList(m, d, i, need, refs)
    ensures 1 <= need <= m && 2 * need <= |refs| <= 10 * need && forall j :: 0 <= j < |refs| ==> refs[j] < m
  {
    forall j: nat | j < |refs| ensures refs[j] < m {
      assert IsReference(m, d, i, need, j, refs[j]);
    }
  }

  // Draws for given lists.
  function DrawsFor(need: seq<nat>, refs: seq<seq<nat>>): Draws {
    Draws((i: nat) => if i < |need| && need[i] > 0 then need[i] - 1 else 0,
          (i: nat) => if i < |need| && i < |refs| && |refs[i]| >= 2 * need[i] then |refs[i]| - 2 * need[i] else 0,
          (i: nat, j: nat) =>
            if i < |need| && i < |refs| && j < |refs[i]|
            then if refs[i][j] >= need[i] then refs[i][j] - need[i] else refs[i][j]
            else 0,
          (i: nat, j: nat) => i < |need| && i < |refs| && j < |refs[i]| && refs[i][j] >= need[i])
  }

  lemma Small(x: nat, n: nat)
    requires x < n
    ensures x % n == x
  {}

  lemma ListOfDraws(m: nat, need: seq<nat>, refs: seq<seq<nat>>, i: nat)
    requires i < |need| == |refs| && 1 <= need[i] <= m && 2 * need[i] <= |refs[i]| <= 10 * need[i]
    requires forall j :: 0 <= j < |refs[i]| ==> refs[i][j] < m
    ensures IsList(m, DrawsFor(need, refs), i, need[i], refs[i])
  {
    var d := DrawsFor(need, refs);
    Small(d.bound(i), m);
    Small(d.length(i), 8 * need[i] + 1);
    forall j: nat | j < |refs[i]| ensures IsReference(m, d, i, need[i], j, refs[i][j]) {
      Small(d.page(i, j), if d.stray(i, j) then m - need[i] else need[i]);
    }
  }

  // For up to 100 processes and 25 pages: a configuration is one that the master makes if and only if some
  // random numbers make it.
  lemma MadeIffDrawn(c: Config)
    requires c.Valid() && c.K() <= 100 && 1 <= c.rows <= 25
    ensures Theorems.MasterMakes(c) <==> exists d :: AreLists(c.rows, d, c.K(), c.need, c.refs)
  {
    if Theorems.MasterMakes(c) {
      forall i: nat | i < c.K() ensures IsList(c.rows, DrawsFor(c.need, c.refs), i, c.need[i], c.refs[i]) {
        ListOfDraws(c.rows, c.need, c.refs, i);
      }
      assert AreLists(c.rows, DrawsFor(c.need, c.refs), c.K(), c.need, c.refs);
    }
    if d :| AreLists(c.rows, d, c.K(), c.need, c.refs) {
      forall i: nat | i < c.K()
        ensures 1 <= c.need[i] <= c.rows && 2 * c.need[i] <= |c.refs[i]| <= 10 * c.need[i]
        ensures forall j :: 0 <= j < |c.refs[i]| ==> c.refs[i][j] < c.rows
      {
        ListWithin(c.rows, d, i, c.need[i], c.refs[i]);
      }
    }
  }
}
