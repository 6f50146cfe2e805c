// System V message queues as the paging assignment uses them: every message carries a type,
// msgsnd appends, and msgrcv takes the oldest message of the requested type.
module MessageQueues {

  datatype Msg<P> = Msg(mtype: nat, body: P)

  // The bodies of the messages of one type, oldest first.
  function OfType<P>(q: seq<Msg<P>>, t: nat): seq<P> {
    if q == [] then []
    else if q[0].mtype == t then [q[0].body] + OfType(q[1..], t)
    else OfType(q[1..], t)
  }

  // msgrcv with a positive type: what stays in the queue (the message taken is OfType(q, t)[0]).
  function Take<P>(q: seq<Msg<P>>, t: nat): seq<Msg<P>>
    requires OfType(q, t) != []
  {
    if q[0].mtype == t then q[1..] else [q[0]] + Take(q[1..], t)
  }

  lemma {:induction false} SendAppends<P>(q: seq<Msg<P>>, m: Msg<P>, t: nat)
    ensures OfType(q + [m], t) == OfType(q, t) + (if m.mtype == t then [m.body] else [])
  {
    if q == [] {
      assert (q + [m])[1..] == [];
    } else {
      assert (q + [m])[1..] == q[1..] + [m];
      SendAppends(q[1..], m, t);
    }
  }

  // A typed receive removes the oldest message of its type and disturbs no other type.
  lemma {:induction false} TakeRemovesOldest<P>(q: seq<Msg<P>>, t: nat, u: nat)
    requires OfType(q, t) != []
    ensures |Take(q, t)| == |q| - 1
    ensures OfType(Take(q, t), u) == if u == t then OfType(q, t)[1..] else OfType(q, u)
  {
    if q[0].mtype != t {
      TakeRemovesOldest(q[1..], t, u);
      assert Take(q, t)[1..] == Take(q[1..], t);
    }
  }

  lemma SendAll<P>(q: seq<Msg<P>>, m: Msg<P>)
    ensures forall t :: OfType(q + [m], t) == OfType(q, t) + (if m.mtype == t then [m.body] else [])
  {
    forall t { SendAppends(q, m, t); }
  }

  lemma TakeAll<P>(q: seq<Msg<P>>, t: nat)
    requires OfType(q, t) != []
    ensures forall u :: OfType(Take(q, t), u) == if u == t then OfType(q, t)[1..] else OfType(q, u)
  {
    forall u { TakeRemovesOldest(q, t, u); }
  }
}
