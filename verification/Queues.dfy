/** Circular doubly linked queues. A queue is the ring of its header and its items; an item
    on no queue is a ring by itself. The operations keep any family of disjoint rings. */
module Queues {
  import opened Sequences

  class Link {
    var fwd: Link
    var back: Link

    constructor Init()
      ensures fwd == this && back == this
    {
      fwd, back := this, this;
    }
  }

  ghost function Nodes(r: seq<Link>): (s: set<Link>) { set i | 0 <= i < |r| :: r[i] }

  function Next(i: nat, n: nat): (j: nat)
    requires i < n
    ensures j < n
  {
    if i + 1 == n then 0 else i + 1
  }

  function Prev(i: nat, n: nat): (j: nat)
    requires i < n
    ensures j < n
  {
    if i == 0 then n - 1 else i - 1
  }

  ghost predicate Joined(r: seq<Link>, i: nat)
    requires i < |r|
    reads r[i]
  {
    r[i].fwd == r[Next(i, |r|)] && r[i].back == r[Prev(i, |r|)]
  }

  /** The links run round `r`, in order and back again. */
  ghost predicate Ring(r: seq<Link>)
    reads Nodes(r)
  {
    && r != [] && (forall i, j :: 0 <= i < j < |r| ==> r[i] != r[j])
    && forall i: nat :: i < |r| ==> Joined(r, i)
  }

  ghost predicate Apart(a: seq<Link>, b: seq<Link>) { Nodes(a) !! Nodes(b) }

  /** Rings that share no link. */
  ghost predicate Family(rs: seq<seq<Link>>)
    reads set i, j | 0 <= i < |rs| && 0 <= j < |rs[i]| :: rs[i][j]
  {
    && (forall i :: 0 <= i < |rs| ==> RingOf(rs, i))
    && forall i, j :: 0 <= i < j < |rs| ==> Apart(rs[i], rs[j])
  }

  ghost predicate RingOf(rs: seq<seq<Link>>, i: nat)
    requires i < |rs|
    reads Nodes(rs[i])
  {
    Ring(rs[i])
  }

  // ---- reading ----

  method Empty(queue: Link, ghost r: seq<Link>) returns (b: bool)
    requires Ring(r) && r[0] == queue
    ensures b <==> |r| == 1
  {
    assert Joined(r, 0);
    b := queue.fwd == queue;
  }

  method First(queue: Link, ghost r: seq<Link>) returns (x: Link?)
    requires Ring(r) && r[0] == queue
    ensures x == if |r| == 1 then null else r[1]
  {
    assert Joined(r, 0);
    x := if queue.fwd == queue then null else queue.fwd;
  }

  method Last(queue: Link, ghost r: seq<Link>) returns (x: Link?)
    requires Ring(r) && r[0] == queue
    ensures x == if |r| == 1 then null else r[|r| - 1]
  {
    assert Joined(r, 0);
    x := if queue.back == queue then null else queue.back;
  }

  // ---- one ring ----

  /** Neighbours in a ring without position `p`, in terms of those before. */
  lemma CutNeighbours<T>(r: seq<T>, p: nat, i: nat)
    requires p < |r| && i < |r| - 1
    ensures var s, n := Cut(r, p), |r|; var j := if i < p then i else i + 1;
      && j < n && s[i] == r[j]
      && s[Next(i, n - 1)] == r[if Next(j, n) == p then Next(p, n) else Next(j, n)]
      && s[Prev(i, n - 1)] == r[if Prev(j, n) == p then Prev(p, n) else Prev(j, n)]
  {
  }

  /** Take `x` out of whatever ring it is in and make it a ring by itself. */
  method Unlink(x: Link, ghost r: seq<Link>, ghost p: nat)
    requires Ring(r) && p < |r| && r[p] == x
    modifies x, x.fwd, x.back
    ensures Ring([x])
    ensures |r| > 1 ==> Ring(Cut(r, p))
  {
    assert Joined(r, p);
    x.fwd.back := x.back;
    x.back.fwd := x.fwd;
    x.fwd := x;
    x.back := x;
    ghost var s := Cut(r, p);
    if |r| > 1 {
      forall i: nat | i < |s| ensures Joined(s, i) {
        assert old(Joined(r, if i < p then i else i + 1));
        CutNeighbours(r, p, i);
      }
    }
  }

  /** Neighbours in a ring with `x` put in at `q`. */
  lemma SpliceNeighbours<T>(r: seq<T>, q: nat, x: T, i: nat)
    requires 0 < q <= |r| && i <= |r|
    ensures var s, n := Splice(r, q, x), |r|;
      s[q] == x && s[Next(q, n + 1)] == r[Next(q - 1, n)] && s[Prev(q, n + 1)] == r[q - 1]
    ensures var s, n, j := Splice(r, q, x), |r|, if i < q then i else i - 1;
      || i == q
      || (s[i] == r[j]
          && s[Next(i, n + 1)] == (if j == q - 1 then x else r[Next(j, n)])
          && s[Prev(i, n + 1)] == (if j == Next(q - 1, n) then x else r[Prev(j, n)]))
  {
  }

  lemma SpliceApart<T>(r: seq<T>, q: nat, x: T)
    requires q <= |r| && x !in r && forall i, j :: 0 <= i < j < |r| ==> r[i] != r[j]
    ensures |Splice(r, q, x)| == |r| + 1
    ensures var s := Splice(r, q, x); forall i, j :: 0 <= i < j < |s| ==> s[i] != s[j]
  {
    SpliceFacts(r, q, x);
    hide Splice;
    var s := Splice(r, q, x);
    forall i, j | 0 <= i < j < |s| ensures s[i] != s[j] {
      assert i != q ==> s[i] == r[if i < q then i else i - 1];
      assert j != q ==> s[j] == r[if j < q then j else j - 1];
    }
  }

  lemma NextOfPrev(p: nat, n: nat)
    requires p < n
    ensures Next(Prev(p, n), n) == p && Prev(p, n) == (if p == 0 then n else p) - 1
  {
  }

  /** Link `item` in after `a`. */
  method LinkAfter(item: Link, a: Link, ghost r: seq<Link>, ghost p: nat)
    requires Ring(r) && p < |r| && r[p] == a && item !in Nodes(r)
    modifies item, a, a.fwd
    ensures Ring(Splice(r, p + 1, item))
  {
    hide Splice, Next, Prev;
    assert Joined(r, p) && Joined(r, Next(p, |r|));
    item.back := a;
    item.fwd := a.fwd;
    a.fwd.back := item;
    a.fwd := item;
    ghost var q := p + 1;
    ghost var s := Splice(r, q, item);
    SpliceApart(r, q, item) by { assert forall i :: 0 <= i < |r| ==> r[i] in Nodes(r); }
    forall i: nat | i < |s| ensures Joined(s, i) {
      assert i != q ==> old(Joined(r, if i < q then i else i - 1));
      SpliceNeighbours(r, q, item, i);
    }
  }

  /** Link `item` in before `a`; before the header is after the last item. */
  method LinkBefore(item: Link, a: Link, ghost r: seq<Link>, ghost p: nat)
    requires Ring(r) && p < |r| && r[p] == a && item !in Nodes(r)
    modifies item, a, a.back
    ensures Ring(Splice(r, if p == 0 then |r| else p, item))
  {
    NextOfPrev(p, |r|);
    hide Splice, Next, Prev;
    assert Joined(r, p) && Joined(r, Prev(p, |r|));
    item.fwd := a;
    item.back := a.back;
    a.back.fwd := item;
    a.back := item;
    ghost var q := if p == 0 then |r| else p;
    ghost var s := Splice(r, q, item);
    SpliceApart(r, q, item) by { assert forall i :: 0 <= i < |r| ==> r[i] in Nodes(r); }
    forall i: nat | i < |s| ensures Joined(s, i) {
      assert i != q ==> old(Joined(r, if i < q then i else i - 1));
      SpliceNeighbours(r, q, item, i);
    }
  }

  // ---- any family of queues ----

  ghost predicate Nowhere(rs: seq<seq<Link>>, x: Link) { forall i :: 0 <= i < |rs| ==> x !in Nodes(rs[i]) }

  /** The family once `x`, at `p` of ring `k`, has been taken out: an orphan stays as it is. */
  ghost function Removed(rs: seq<seq<Link>>, k: nat, p: nat): (t: seq<seq<Link>>)
    requires k < |rs| && p < |rs[k]|
  {
    if |rs[k]| == 1 then rs else rs[k := Cut(rs[k], p)] + [[rs[k][p]]]
  }

  lemma CutNodes(r: seq<Link>, p: nat)
    requires p < |r| && forall i, j :: 0 <= i < j < |r| ==> r[i] != r[j]
    ensures Nodes(Cut(r, p)) == Nodes(r) - {r[p]}
  {
    var s := Cut(r, p);
    forall x | x in Nodes(r) - {r[p]} ensures x in Nodes(s) {
      var i :| 0 <= i < |r| && r[i] == x;
      assert s[if i < p then i else i - 1] == x;
    }
    forall i | 0 <= i < |s| ensures s[i] in Nodes(r) && s[i] != r[p] { assert s[i] == r[if i < p then i else i + 1]; }
  }

  lemma SpliceNodes(r: seq<Link>, p: nat, x: Link)
    requires p <= |r|
    ensures Nodes(Splice(r, p, x)) == Nodes(r) + {x}
  {
    var s := Splice(r, p, x);
    assert s[p] == x;
    forall y | y in Nodes(r) ensures y in Nodes(s) {
      var i :| 0 <= i < |r| && r[i] == y;
      assert s[if i < p then i else i + 1] == y;
    }
    forall i | 0 <= i < |s| ensures s[i] in Nodes(r) + {x} {
      assert s[i] == if i < p then r[i] else if i == p then x else r[i - 1];
    }
  }

  /** What is linked to an item of a ring is in the ring. */
  lemma Neighbours(r: seq<Link>, p: nat)
    requires Ring(r) && p < |r|
    ensures {r[p], r[p].fwd, r[p].back} <= Nodes(r)
  {
    assert Joined(r, p);
  }

  /** Remove an item from whichever queue holds it; the queue is not named. */
  method Remove(item: Link, ghost rs: seq<seq<Link>>, ghost k: nat, ghost p: nat)
    requires Family(rs) && k < |rs| && p < |rs[k]| && rs[k][p] == item
    modifies Nodes(rs[k])
    ensures Family(Removed(rs, k, p))
  {
    assert RingOf(rs, k);
    Neighbours(rs[k], p);
    forall i | 0 <= i < |rs| ensures RingOf(rs, i) && (i != k ==> Nodes(rs[i]) !! Nodes(rs[k])) {
      assert i < k ==> Apart(rs[i], rs[k]);
      assert k < i ==> Apart(rs[k], rs[i]);
    }
    CutNodes(rs[k], p);
    Unlink(item, rs[k], p);
    if |rs[k]| == 1 {
      assert rs[k] == [item];
      forall i | 0 <= i < |rs| ensures RingOf(rs, i) { assert i != k ==> old(RingOf(rs, i)); }
    } else {
      ghost var t := Removed(rs, k, p);
      forall i | 0 <= i < |t| ensures RingOf(t, i) { assert i < |rs| && i != k ==> old(RingOf(rs, i)); }
      forall i, j | 0 <= i < j < |t| ensures Apart(t[i], t[j]) {
        assert j < |rs| ==> Apart(rs[i], rs[j]);
      }
    }
  }

  /** The family with `item` spliced into ring `k`. */
  ghost function Linked(rs: seq<seq<Link>>, k: nat, q: nat, item: Link): (t: seq<seq<Link>>)
    requires k < |rs| && q <= |rs[k]|
  {
    rs[k := Splice(rs[k], q, item)]
  }

  /** The other rings of a family keep away from ring `k`. */
  lemma Others(rs: seq<seq<Link>>, k: nat)
    requires Family(rs) && k < |rs|
    ensures Ring(rs[k])
    ensures forall i :: 0 <= i < |rs| ==> RingOf(rs, i) && (i != k ==> Nodes(rs[i]) !! Nodes(rs[k]))
  {
    assert RingOf(rs, k);
    forall i | 0 <= i < |rs| ensures RingOf(rs, i) && (i != k ==> Nodes(rs[i]) !! Nodes(rs[k])) {
      assert i < k ==> Apart(rs[i], rs[k]);
      assert k < i ==> Apart(rs[k], rs[i]);
    }
  }

  lemma LinkedApart(rs: seq<seq<Link>>, k: nat, q: nat, item: Link)
    requires k < |rs| && q <= |rs[k]| && Nowhere(rs, item)
    requires forall i, j :: 0 <= i < j < |rs| ==> Apart(rs[i], rs[j])
    ensures var t := Linked(rs, k, q, item); forall i, j :: 0 <= i < j < |t| ==> Apart(t[i], t[j])
  {
    SpliceNodes(rs[k], q, item);
    var t := Linked(rs, k, q, item);
    forall i, j | 0 <= i < j < |t| ensures Apart(t[i], t[j]) { assert Apart(rs[i], rs[j]); }
  }

  method AddAfter(item: Link, predecessor: Link, ghost rs: seq<seq<Link>>, ghost k: nat, ghost p: nat)
    requires Family(rs) && k < |rs| && p < |rs[k]| && rs[k][p] == predecessor && Nowhere(rs, item)
    modifies item, Nodes(rs[k])
    ensures Family(Linked(rs, k, p + 1, item))
  {
    Others(rs, k);
    Neighbours(rs[k], p);
    LinkedApart(rs, k, p + 1, item);
    LinkAfter(item, predecessor, rs[k], p);
    ghost var t := Linked(rs, k, p + 1, item);
    forall i | 0 <= i < |t| ensures RingOf(t, i) { assert i != k ==> old(RingOf(rs, i)); }
  }

  method AddBefore(item: Link, successor: Link, ghost rs: seq<seq<Link>>, ghost k: nat, ghost p: nat)
    requires Family(rs) && k < |rs| && p < |rs[k]| && rs[k][p] == successor && Nowhere(rs, item)
    modifies item, Nodes(rs[k])
    ensures Family(Linked(rs, k, if p == 0 then |rs[k]| else p, item))
  {
    ghost var q := if p == 0 then |rs[k]| else p;
    Others(rs, k);
    Neighbours(rs[k], p);
    LinkedApart(rs, k, q, item);
    LinkBefore(item, successor, rs[k], p);
    ghost var t := Linked(rs, k, q, item);
    forall i | 0 <= i < |t| ensures RingOf(t, i) { assert i != k ==> old(RingOf(rs, i)); }
  }

  method AddHead(queue: Link, item: Link, ghost rs: seq<seq<Link>>, ghost k: nat)
    requires Family(rs) && k < |rs| && rs[k] != [] && rs[k][0] == queue && Nowhere(rs, item)
    modifies item, Nodes(rs[k])
    ensures Family(rs[k := [queue, item] + rs[k][1..]])
  {
    AddAfter(item, queue, rs, k, 0);
    assert Splice(rs[k], 1, item) == [queue, item] + rs[k][1..];
  }

  method AddTail(queue: Link, item: Link, ghost rs: seq<seq<Link>>, ghost k: nat)
    requires Family(rs) && k < |rs| && rs[k] != [] && rs[k][0] == queue && Nowhere(rs, item)
    modifies item, Nodes(rs[k])
    ensures Family(rs[k := rs[k] + [item]])
  {
    AddBefore(item, queue, rs, k, 0);
    assert Splice(rs[k], |rs[k]|, item) == rs[k] + [item];
  }

  method RemoveHead(queue: Link, ghost rs: seq<seq<Link>>, ghost k: nat) returns (item: Link?)
    requires Family(rs) && k < |rs| && rs[k] != [] && rs[k][0] == queue
    modifies Nodes(rs[k])
    ensures item == if |rs[k]| == 1 then null else rs[k][1]
    ensures Family(if |rs[k]| == 1 then rs else Removed(rs, k, 1))
  {
    Others(rs, k);
    assert Joined(rs[k], 0);
    if queue.fwd == queue { return null; }
    item := queue.fwd;
    Remove(item, rs, k, 1);
  }

  method RemoveTail(queue: Link, ghost rs: seq<seq<Link>>, ghost k: nat) returns (item: Link?)
    requires Family(rs) && k < |rs| && rs[k] != [] && rs[k][0] == queue
    modifies Nodes(rs[k])
    ensures item == if |rs[k]| == 1 then null else rs[k][|rs[k]| - 1]
    ensures Family(if |rs[k]| == 1 then rs else Removed(rs, k, |rs[k]| - 1))
  {
    Others(rs, k);
    assert Joined(rs[k], 0);
    if queue.back == queue { return null; }
    item := queue.back;
    Remove(item, rs, k, |rs[k]| - 1);
  }

  /** Leaving one queue out of account leaves a family, of which its links are no part. */
  lemma Forget(rs: seq<seq<Link>>, m: nat)
    requires Family(rs) && m < |rs|
    ensures Family(Cut(rs, m)) && forall x :: x in Nodes(rs[m]) ==> Nowhere(Cut(rs, m), x)
  {
    Others(rs, m);
    var t := Cut(rs, m);
    forall i | 0 <= i < |t| ensures RingOf(t, i) && Nodes(t[i]) !! Nodes(rs[m]) {
      assert RingOf(rs, if i < m then i else i + 1) && t[i] == rs[if i < m then i else i + 1];
    }
    forall i, j | 0 <= i < j < |t| ensures Apart(t[i], t[j]) {
      assert Apart(rs[if i < m then i else i + 1], rs[if j < m then j else j + 1]);
    }
  }

  /** Whatever the destination was, it ends as a queue with the contents of the source, which
      is left empty; moved to itself a queue loses its items. */
  ghost function Moved(rs: seq<seq<Link>>, k: nat, to: Link): (t: seq<seq<Link>>)
    requires k < |rs| && rs[k] != []
  {
    if to == rs[k][0] then rs[k := [to]] else rs[k := [rs[k][0]]] + [[to] + rs[k][1..]]
  }

  method MoveRing(from: Link, to: Link, ghost r: seq<Link>)
    requires Ring(r) && r[0] == from && (to == from || to !in Nodes(r))
    modifies to, Nodes(r)
    ensures Ring([from]) && (to != from ==> Ring([to] + r[1..]))
  {
    assert Joined(r, 0) && Joined(r, Next(0, |r|)) && Joined(r, Prev(0, |r|));
    if from.fwd == from {
      to.fwd := to;
      to.back := to;
      assert r == [from] && [to] + r[1..] == [to];
    } else {
      to.fwd, to.back := from.fwd, from.back;
      to.fwd.back := to;
      to.back.fwd := to;
      from.fwd := from;
      from.back := from;
    }
    ghost var t := [to] + r[1..];
    forall i: nat | i < |t| && to != from ensures Joined(t, i) { assert i > 0 ==> old(Joined(r, i)); }
  }

  /** Move the whole contents of one queue to another, over-writing its header. What was
      there is left out of account. */
  method Move(from: Link, to: Link, ghost rs: seq<seq<Link>>, ghost k: nat)
    requires Family(rs) && k < |rs| && rs[k] != [] && rs[k][0] == from && (to == from || Nowhere(rs, to))
    modifies to, Nodes(rs[k])
    ensures Family(Moved(rs, k, to))
  {
    hide Ring;
    Others(rs, k);
    MoveApart(rs, k, to);
    MoveRing(from, to, rs[k]);
    ghost var t := Moved(rs, k, to);
    forall i: nat | i < |t| ensures RingOf(t, i) { assert i != k && i < |rs| ==> old(RingOf(rs, i)); }
  }

  lemma MoveApart(rs: seq<seq<Link>>, k: nat, to: Link)
    requires Family(rs) && k < |rs| && rs[k] != [] && (to == rs[k][0] || Nowhere(rs, to))
    ensures var t := Moved(rs, k, to); forall i, j :: 0 <= i < j < |t| ==> Apart(t[i], t[j])
    ensures to == rs[k][0] || forall i :: 0 <= i < |rs| && i != k ==> to !in Nodes(rs[i])
  {
    Others(rs, k);
    var t := Moved(rs, k, to);
    assert rs[k][0] in Nodes(rs[k]);
    assert Nodes(t[k]) == {rs[k][0]} by { assert t[k] == [rs[k][0]] && t[k][0] == rs[k][0]; }
    if to != rs[k][0] {
      forall x | x in Nodes(t[|rs|]) ensures x == to || (x in Nodes(rs[k]) && x != rs[k][0]) {
        var i :| 0 <= i < |t[|rs|]| && t[|rs|][i] == x;
        assert i > 0 ==> x == rs[k][i];
      }
    }
    forall i, j | 0 <= i < j < |t| ensures Apart(t[i], t[j]) { assert j < |rs| ==> Apart(rs[i], rs[j]); }
  }

  /** An orphan is on no queue once its own ring is left out of account. */
  lemma OrphanNowhere(rs: seq<seq<Link>>, x: Link)
    requires Family(rs + [[x]])
    ensures Family(rs) && Nowhere(rs, x)
  {
    var t := rs + [[x]];
    assert t[|rs|] == [x];
    forall i | 0 <= i < |rs| ensures RingOf(rs, i) && x !in Nodes(rs[i]) {
      assert RingOf(t, i) && t[i] == rs[i];
      assert Apart(t[i], t[|rs|]);
      assert x in Nodes([x]) by { assert [x][0] == x; }
    }
    forall i, j | 0 <= i < j < |rs| ensures Apart(rs[i], rs[j]) { assert Apart(t[i], t[j]); }
  }

  /** As the scheduler re-queues a task: off whatever queue holds it, if any does, and onto
      the tail of the queue given; every other queue keeps its contents and order. */
  method Requeue(queue: Link, item: Link, ghost rs: seq<seq<Link>>, ghost k: nat, ghost p: nat, ghost m: nat)
    requires Family(rs) && k < |rs| && 0 < p < |rs[k]| && rs[k][p] == item
    requires m < |rs| && rs[m] != [] && rs[m][0] == queue
    modifies Nodes(rs[k]), Nodes(rs[m])
    ensures var off := rs[k := Cut(rs[k], p)]; Family(off[m := off[m] + [item]])
  {
    ghost var off := rs[k := Cut(rs[k], p)];
    Others(rs, k);
    CutNodes(rs[k], p);
    Remove(item, rs, k, p);
    assert Removed(rs, k, p) == off + [[item]];
    OrphanNowhere(off, item);
    assert off[m][0] == queue;
    AddTail(queue, item, off, m);
  }
}
