// The event queue of the clinic: a binary heap in an array of 128 events, ordered by a comparison
// that answers "before" both ways for two reporters, patients or sales representatives of equal time.
module EventHeaps {

  datatype Event = Event(kind: char, time: int, duration: int)

  const CAPACITY := 128

  function Compare(a: Event, b: Event): int {
    if a.time < b.time then -1
    else if a.time > b.time then 1
    else if a.kind == 'R' then -1
    else if b.kind == 'R' then 1
    else if a.kind == 'P' then -1
    else if b.kind == 'P' then 1
    else if a.kind == 'S' then -1
    else if b.kind == 'S' then 1
    else 0
  }

  // Reporters before patients before sales representatives before everything else.
  function Rank(kind: char): nat {
    if kind == 'R' then 0 else if kind == 'P' then 1 else if kind == 'S' then 2 else 3
  }

  // The order that the comparison stands for: by time, then by rank.
  predicate Before(a: Event, b: Event) {
    a.time < b.time || (a.time == b.time && Rank(a.kind) <= Rank(b.kind))
  }

  // The comparison is not antisymmetric, but both its answers agree with the order: a negative one
  // means not after, any other means not before.
  lemma CompareOrders(a: Event, b: Event)
    ensures Compare(a, b) < 0 ==> Before(a, b)
    ensures Compare(a, b) >= 0 ==> Before(b, a)
    ensures Compare(a, b) < 0 && Compare(b, a) < 0 <==> a.time == b.time && Rank(a.kind) == Rank(b.kind) < 3
  {}

  predicate HeapFrom(q: seq<Event>, lo: int) {
    forall k {:trigger q[k]} :: 0 < k < |q| && lo <= (k - 1) / 2 ==> Before(q[(k - 1) / 2], q[k])
  }

  predicate Heap(q: seq<Event>) {
    HeapFrom(q, 0)
  }

  lemma {:induction false} RootFirst(q: seq<Event>, k: nat)
    requires Heap(q) && k < |q|
    ensures Before(q[0], q[k])
    decreases k
  {
    if k > 0 { RootFirst(q, (k - 1) / 2); }
  }

  // No event is after a later one.
  ghost predicate InOrder(s: seq<Event>) {
    forall j, k :: 0 <= j < k < |s| ==> Before(s[j], s[k])
  }

  // Every event of the list may come before every one that is still pending.
  ghost predicate Precedes(s: seq<Event>, pending: multiset<Event>) {
    forall k, x :: 0 <= k < |s| && x in pending ==> Before(s[k], x)
  }

  lemma ExtendOrder(s: seq<Event>, pending: multiset<Event>, e: Event)
    requires InOrder(s) && Precedes(s, pending) && e in pending && forall x :: x in pending ==> Before(e, x)
    ensures InOrder(s + [e]) && Precedes(s + [e], pending - multiset{e})
    ensures multiset(s + [e]) + (pending - multiset{e}) == multiset(s) + pending
  {
    forall x | x in pending - multiset{e} ensures x in pending {}
    assert pending == (pending - multiset{e}) + multiset{e};
  }

  // Exchanging two events keeps the multiset.
  function Swapped(q: seq<Event>, i: nat, j: nat): (r: seq<Event>)
    requires i < |q| && j < |q|
    ensures |r| == |q|
  {
    q[i := q[j]][j := q[i]]
  }

  lemma SwapKeeps(q: seq<Event>, i: nat, j: nat)
    requires i < |q| && j < |q|
    ensures multiset(Swapped(q, i, j)) == multiset(q)
  {}

  // ---------- Moving one event down ----------

  // The heap order from lo on, except between position i and its children, which are not before
  // the parent of i.
  predicate HeapExceptBelow(q: seq<Event>, lo: int, i: int) {
    && (forall k {:trigger q[k]} :: 0 < k < |q| && lo <= (k - 1) / 2 && (k - 1) / 2 != i ==>
        Before(q[(k - 1) / 2], q[k]))
    && (forall k :: 0 < i && lo <= (i - 1) / 2 && 0 < k < |q| && (k - 1) / 2 == i ==> Before(q[(i - 1) / 2], q[k]))
  }

  function EarlierChild(q: seq<Event>, i: nat): (m: nat)
    requires 2 * i + 1 < |q|
    ensures m < |q| && (m - 1) / 2 == i && m > i
    ensures forall k :: 0 < k < |q| && (k - 1) / 2 == i ==> Before(q[m], q[k])
  {
    var l, r := 2 * i + 1, 2 * i + 2;
    if r == |q| || Compare(q[l], q[r]) < 0 then l else r
  }

  lemma DownStep(q: seq<Event>, lo: nat, i: nat, m: nat)
    requires lo <= i < m < |q| && (m - 1) / 2 == i && HeapExceptBelow(q, lo, i)
    requires forall k :: 0 < k < |q| && (k - 1) / 2 == i ==> Before(q[m], q[k])
    requires Before(q[m], q[i])
    ensures HeapExceptBelow(Swapped(q, i, m), lo, m)
  {
    var r := Swapped(q, i, m);
    forall k {:trigger r[k]} | 0 < k < |r| && lo <= (k - 1) / 2 && (k - 1) / 2 != m
      ensures Before(r[(k - 1) / 2], r[k])
    {
      if k == i { assert Before(q[(i - 1) / 2], q[m]); }
    }
    forall k | 0 < k < |r| && (k - 1) / 2 == m ensures Before(r[(m - 1) / 2], r[k]) {
      assert k != i && k != m;
    }
  }

  // ---------- Moving one event up ----------

  // The heap order except between position i and its parent; the children of i are not before it.
  predicate HeapExceptAbove(q: seq<Event>, i: int) {
    && (forall k {:trigger q[k]} :: 0 < k < |q| && k != i ==> Before(q[(k - 1) / 2], q[k]))
    && (forall k :: 0 < i && 0 < k < |q| && (k - 1) / 2 == i && (i - 1) / 2 < |q| ==> Before(q[(i - 1) / 2], q[k]))
  }

  lemma UpStep(q: seq<Event>, i: nat, p: nat)
    requires 0 < i < |q| && p == (i - 1) / 2 && HeapExceptAbove(q, i) && Before(q[i], q[p])
    ensures HeapExceptAbove(Swapped(q, i, p), p)
  {
    var r := Swapped(q, i, p);
    forall k {:trigger r[k]} | 0 < k < |r| && k != p ensures Before(r[(k - 1) / 2], r[k]) {
      if k == i {
      } else if (k - 1) / 2 == i {
        assert Before(q[p], q[k]);
      } else if (k - 1) / 2 == p {
        assert Before(q[p], q[k]);
      }
    }
    forall k | 0 < p && 0 < k < |r| && (k - 1) / 2 == p ensures Before(r[(p - 1) / 2], r[k]) {
      assert Before(q[(p - 1) / 2], q[p]);
      if k != i { assert Before(q[p], q[k]); }
    }
  }

  lemma Appended(q: seq<Event>, e: Event)
    requires Heap(q)
    ensures HeapExceptAbove(q + [e], |q|) && multiset(q + [e]) == multiset(q) + multiset{e}
  {}

  lemma Settled(q: seq<Event>, i: nat)
    requires i < |q| && HeapExceptAbove(q, i) && (i == 0 || Before(q[(i - 1) / 2], q[i]))
    ensures Heap(q)
  {}

  class EventQueue {
    var n: nat
    const Q: array<Event>

    ghost predicate Valid()
      reads this, Q
    {
      Q.Length == CAPACITY && n <= CAPACITY && Heap(Contents())
    }

    function Contents(): (q: seq<Event>)
      reads this, Q
    {
      if n <= Q.Length then Q[..n] else []
    }

    function Pending(): multiset<Event>
      reads this, Q
    {
      multiset(Contents())
    }

    // Exchange two positions.
    method Swap(i: nat, j: nat)
      requires i < n <= Q.Length && j < n
      modifies Q
      ensures Contents() == Swapped(old(Contents()), i, j)
      ensures Pending() == old(Pending())
    {
      SwapKeeps(Contents(), i, j);
      var t := Q[i];
      Q[i] := Q[j];
      Q[j] := t;
      assert Contents() == Swapped(old(Contents()), i, j);
    }

    // The loop that heapify and delevent share.
    method SiftDown(j: nat)
      requires n <= Q.Length && HeapExceptBelow(Contents(), j, j)
      modifies Q
      ensures HeapFrom(Contents(), j) && Pending() == old(Pending())
    {
      var i := j;
      while 2 * i + 1 < n
        invariant j <= i && HeapExceptBelow(Contents(), j, i)
        invariant Pending() == old(Pending())
        decreases n - i
      {
        var m := EarlierChild(Contents(), i);
        CompareOrders(Q[i], Q[m]);
        if Compare(Q[i], Q[m]) < 0 { break; }
        DownStep(Contents(), j, i, m);
        Swap(i, m);
        i := m;
      }
    }

    // The loop of addevent: the last event rises.
    method SiftUp()
      requires 0 < n <= Q.Length && HeapExceptAbove(Contents(), n - 1)
      modifies Q
      ensures Heap(Contents()) && Pending() == old(Pending())
    {
      var i := n - 1;
      while i != 0
        invariant 0 <= i < n <= Q.Length && HeapExceptAbove(Contents(), i)
        invariant Pending() == old(Pending())
      {
        var p := (i - 1) / 2;
        CompareOrders(Q[p], Q[i]);
        if Compare(Q[p], Q[i]) < 0 { break; }
        UpStep(Contents(), i, p);
        Swap(i, p);
        i := p;
      }
      Settled(Contents(), i);
    }

    // initEQ, on the events that it has read.
    constructor (arrivals: seq<Event>)
      requires |arrivals| <= CAPACITY
      ensures Valid() && fresh(Q) && Pending() == multiset(arrivals) && n == |arrivals|
    {
      n := |arrivals|;
      Q := new Event[CAPACITY](i => if 0 <= i < |arrivals| then arrivals[i] else Event('E', 0, 0));
      new;
      assert Contents() == arrivals;
      var j := n / 2 - 1;
      while j >= 0
        invariant -1 <= j < n / 2 || n == 0
        invariant n == |arrivals| && fresh(Q) && Q.Length == CAPACITY
        invariant HeapFrom(Contents(), j + 1) && Pending() == multiset(arrivals)
        decreases j
      {
        SiftDown(j);
        j := j - 1;
      }
    }

    method AddEvent(e: Event)
      requires Valid() && n < CAPACITY
      modifies this`n, Q
      ensures Valid() && Pending() == old(Pending()) + multiset{e}
      ensures n == old(n) + 1
    {
      ghost var before := Contents();
      Q[n] := e;
      n := n + 1;
      assert Contents() == before + [e];
      Appended(before, e);
      SiftUp();
    }

    // Removes the first event, which is not after any other.
    method DelEvent()
      requires Valid()
      modifies this`n, Q
      ensures Valid()
      ensures old(n) == 0 ==> n == 0 && Pending() == old(Pending())
      ensures old(n) > 0 ==> n == old(n) - 1 && Pending() == old(Pending()) - multiset{old(Q[0])}
    {
      if n > 0 {
        ghost var before := Contents();
        Q[0] := Q[n - 1];
        n := n - 1;
        assert Contents() == before[0 := before[n]][..n];
        LastMoved(before);
        SiftDown(0);
      }
    }

    // The earliest event, or the end marker.
    method NextEvent() returns (e: Event)
      requires Valid()
      ensures Pending() == multiset{} ==> e == Event('E', 0, 0)
      ensures Pending() != multiset{} ==>
                n > 0 && e == Q[0] && e in Pending() && forall x :: x in Pending() ==> Before(e, x)
    {
      if n == 0 { return Event('E', 0, 0); }
      ghost var q := Contents();
      e := Q[0];
      assert q[0] in Pending();
      forall x | x in Pending() ensures Before(e, x) {
        var k :| 0 <= k < |q| && q[k] == x;
        RootFirst(q, k);
      }
    }

    // Taking the first event until none is left gives all events, by time and then by rank.
    method Drain() returns (out: seq<Event>)
      requires Valid()
      modifies this`n, Q
      ensures Valid() && n == 0
      ensures InOrder(out) && multiset(out) == old(Pending())
    {
      out := [];
      while n > 0
        invariant Valid() && InOrder(out) && Precedes(out, Pending())
        invariant multiset(out) + Pending() == old(Pending())
        decreases n
      {
        ghost var pending := Pending();
        var e := NextEvent();
        ExtendOrder(out, pending, e);
        DelEvent();
        out := out + [e];
      }
      assert Contents() == [];
    }
  }

  // Putting the last event in the place of the first removes the first from the multiset.
  lemma LastMoved(q: seq<Event>)
    requires q != [] && Heap(q)
    ensures var r := q[0 := q[|q| - 1]][..|q| - 1];
            multiset(r) == multiset(q) - multiset{q[0]} && HeapExceptBelow(r, 0, 0)
  {
    var n := |q| - 1;
    var r := q[0 := q[n]][..n];
    if n == 0 {
      assert q == [q[0]];
    } else {
      assert r == [q[n]] + q[1..n];
      assert q == [q[0]] + q[1..n] + [q[n]];
    }
    assert forall k :: 0 < k < n ==> r[k] == q[k];
  }
}
