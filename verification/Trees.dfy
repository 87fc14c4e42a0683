/** The tree operations on linked items, proved against the forest the links thread. */
module Trees {
  import opened TreeShape

  /** The linkage of an item. The tree object is one too: its root and tip words are the
      `next` and `parent` words of an item. */
  class Linkage {
    var next: Linkage?
    var parent: Linkage?

    constructor ()
    {
    }
  }

  type Forest = seq<Cell<Linkage>>

  ghost function Nodes(f: Forest): (r: set<Linkage>) { set i | 0 <= i < |f| :: f[i].item }

  ghost function At(f: Forest, i: nat): (x: Linkage?) { if i < |f| then f[i].item else null }

  /** The links of header `h` thread the forest `f`. */
  ghost predicate Shows(h: Linkage, f: Forest)
    reads h, Nodes(f)
  {
    && Wf(h, f)
    && h.next == At(f, 0) && h.parent == null
    && forall i :: 0 <= i < |f| ==> Linked(f, i)
  }

  ghost predicate Linked(f: Forest, i: nat)
    requires i < |f|
    reads f[i].item
  {
    f[i].item.next == At(f, i + 1) && f[i].item.parent == f[i].parent
  }

  /** The parent words alone. */
  ghost predicate Parented(h: Linkage, f: Forest)
    reads h, Nodes(f)
  {
    Wf(h, f) && h.parent == null && forall i :: 0 <= i < |f| ==> ParentIs(f, i)
  }

  ghost predicate ParentIs(f: Forest, i: nat)
    requires i < |f|
    reads f[i].item
  {
    f[i].item.parent == f[i].parent
  }

  lemma ShowsParents(h: Linkage, f: Forest)
    requires Shows(h, f)
    ensures Parented(h, f)
  {
    forall i | 0 <= i < |f| ensures ParentIs(f, i) { assert Linked(f, i); }
  }

  ghost predicate InTree(h: Linkage, f: Forest, x: Linkage) { x == h || Pos(f, x) < |f| }

  /** First position after `x`. */
  ghost function After(h: Linkage, f: Forest, x: Linkage): (k: nat)
    requires InTree(h, f, x)
    ensures k <= |f|
  {
    if x == h then 0 else Pos(f, x) + 1
  }

  lemma NextIs(h: Linkage, f: Forest, x: Linkage)
    requires Shows(h, f) && InTree(h, f, x)
    ensures x.next == At(f, After(h, f, x))
    ensures x != h ==> x.parent == f[Pos(f, x)].parent
  {
    if x != h { assert Linked(f, Pos(f, x)); }
  }

  /** Children come after their parent. */
  lemma ChildrenAfter(h: Linkage, f: Forest, x: Linkage, i: nat)
    requires Wf(h, f) && InTree(h, f, x) && i < |f| && f[i].parent == x
    ensures After(h, f, x) <= i
  {
    assert ParentBefore(h, f, i);
  }

  method FirstChild(item: Linkage, ghost h: Linkage, ghost f: Forest) returns (c: Linkage?)
    requires Shows(h, f) && InTree(h, f, item)
    ensures Shows(h, f)
    ensures c == At(f, FirstAt(f, item))
  {
    NextIs(h, f, item);
    c := item.next;
    ghost var k := After(h, f, item);
    forall i: nat | i < |f| && f[i].parent == item ensures k <= i { ChildrenAfter(h, f, item, i); }
    while c != null
      invariant k <= FirstAt(f, item) && c == At(f, k)
      decreases |f| - k
    {
      assert Linked(f, k);
      if c.parent == item { break; }
      c := c.next;
      k := k + 1;
    }
  }

  method NextSibling(item: Linkage, ghost h: Linkage, ghost f: Forest) returns (n: Linkage?)
    requires Shows(h, f) && Pos(f, item) < |f|
    ensures Shows(h, f)
    ensures var k := Pos(f, item) + 1; n == if k < RunEnd(f, k - 1) then At(f, k) else null
  {
    ghost var k := Pos(f, item);
    assert Linked(f, k) && (k + 1 < |f| ==> Linked(f, k + 1));
    n := item.next;
    if n != null && n.parent != item.parent { n := null; }
  }

  method FinalSibling(item: Linkage, ghost h: Linkage, ghost f: Forest) returns (s: Linkage)
    requires Shows(h, f) && Pos(f, item) < |f|
    ensures Shows(h, f)
    ensures s == f[RunEnd(f, Pos(f, item)) - 1].item
  {
    ghost var k := Pos(f, item);
    assert Linked(f, k);
    s := item;
    var next := item.next;
    while next != null
      invariant Pos(f, item) <= k < |f| && RunEnd(f, k) == RunEnd(f, Pos(f, item))
      invariant s == f[k].item && next == At(f, k + 1)
      decreases |f| - k
    {
      assert Linked(f, k) && Linked(f, k + 1);
      assert f[k].parent == f[Pos(f, item)].parent;
      if next.parent != item.parent { break; }
      s := next;
      next := s.next;
      k := k + 1;
    }
  }

  /** The previous sibling is the item whose next sibling this is. */
  method PrevSibling(item: Linkage, ghost h: Linkage, ghost f: Forest) returns (p: Linkage?)
    requires Shows(h, f) && Pos(f, item) < |f|
    ensures Shows(h, f)
    ensures p == null <==> forall i :: 0 <= i < Pos(f, item) ==> f[i].parent != f[Pos(f, item)].parent
    ensures p != null ==>
              Pos(f, item) > 0 && p == f[Pos(f, item) - 1].item && RunEnd(f, Pos(f, item) - 1) > Pos(f, item)
  {
    ghost var k := Pos(f, item);
    assert Linked(f, k) && ParentBefore(h, f, k);
    var parent := item.parent;
    p := FirstChild(parent, h, f);
    ghost var a := FirstAt(f, f[k].parent);
    if p == item {
      PosIs(f, a);
      return null;
    }
    PosIs(f, k);
    while p.next != item
      invariant FirstAt(f, f[k].parent) <= a < k && p == f[a].item
      decreases k - a
    {
      assert Linked(f, a);
      p := p.next;
      a := a + 1;
      if a == k { assert false; }
    }
    assert Linked(f, a);
  }

  /** The whole tree is the sub-tree of the tree object. */
  lemma {:induction false} AllUnder(h: Linkage, f: Forest, i: nat)
    requires Wf(h, f) && i < |f|
    ensures f[i].item in Sub(f, {h}) && h in Sub(f, {h})
    decreases i
  {
    SubWithin(f, {h});
    assert ParentBefore(h, f, i);
    if f[i].parent != h { AllUnder(h, f, Pos(f, f[i].parent)); }
    SubStep(h, f, h, i);
  }

  /** Whether an item is in a sub-tree. Asked about the tree object as a sub-tree the answer
      is no for every item of the tree, and asked about an item of another tree it is no. */
  method IsInSubTree(subTree: Linkage, item: Linkage, h: Linkage, ghost f: Forest) returns (r: Linkage?)
    requires Parented(h, f) && InTree(h, f, item)
    ensures Parented(h, f)
    ensures subTree != h ==> r == if item in Sub(f, {subTree}) then subTree else null
    ensures subTree == h ==> r == if item == h then h else null
  {
    ghost var s := Sub(f, {subTree});
    if subTree != h { HeaderOutside(h, f, subTree); }
    r := item;
    while r != subTree
      invariant r == null ==> subTree != h && item !in s
      invariant r != null ==> InTree(h, f, r) && (subTree != h ==> (r in s <==> item in s))
      invariant r == h ==> item == h
      decreases if r == null then 0 else if r == h then 1 else Pos(f, r) + 2
    {
      if r == null { return; }
      if r != h {
        ghost var k := Pos(f, r);
        assert ParentIs(f, k) && ParentBefore(h, f, k);
        if subTree != h { SubStep(h, f, subTree, k); }
      }
      r := r.parent;
      if r == h { return null; }
    }
    SubWithin(f, {subTree});
  }

  /** The tree object is at hand, or nothing but the sub-tree stands from `k` on. */
  ghost predicate Guarded(h: Linkage, f: Forest, root: Linkage, tree: Linkage, k: nat) {
    tree == h || (Pos(f, tree) == |f| && forall i :: k <= i < |f| ==> f[i].item in Sub(f, {root}))
  }

  /** Past the siblings of an item, to the item after them. */
  method SkipFamily(item: Linkage, ghost h: Linkage, ghost f: Forest) returns (n: Linkage?)
    requires Shows(h, f) && Pos(f, item) < |f|
    ensures Shows(h, f)
    ensures n == At(f, RunEnd(f, Pos(f, item)))
  {
    var next: Linkage := item;
    ghost var k := Pos(f, item);
    var jtem := NextSibling(next, h, f);
    while jtem != null
      invariant Shows(h, f)
      invariant k == Pos(f, next) < |f| && RunEnd(f, k) == RunEnd(f, Pos(f, item))
      invariant jtem == if k + 1 < RunEnd(f, k) then At(f, k + 1) else null
      decreases |f| - k
    {
      next := jtem;
      k := k + 1;
      PosIs(f, k);
      jtem := NextSibling(next, h, f);
    }
    assert Linked(f, k);
    n := next.next;
  }

  /** From `item` on, the first item whose way up the tree meets `root`: on meeting the
      tree object instead, the whole family is passed over. */
  method Scan(root: Linkage, item: Linkage, tree: Linkage, ghost h: Linkage, ghost f: Forest) returns (n: Linkage?)
    requires Shows(h, f) && Pos(f, item) < |f| && (root == h || Pos(f, root) < Pos(f, item))
    requires Guarded(h, f, root, tree, Pos(f, item))
    ensures Shows(h, f)
    ensures n == At(f, NextIn(f, Sub(f, {root}), Pos(f, item)))
  {
    hide Sub, Wf, Linked, FirstAt, RunEnd, Guarded;
    ghost var s, k := Sub(f, {root}), Pos(f, item);
    Borders(h, f, root, tree, k);
    Place(h, f, k);
    n := item;
    Climb(h, f, root, k);
    var parent := item.parent;
    while parent != root
      invariant Shows(h, f) && Pos(f, item) <= k < |f| && n == f[k].item && Pos(f, n) == k
      invariant forall m :: Pos(f, item) <= m < k ==> f[m].item !in s
      invariant parent != null && (parent == h || Pos(f, parent) < |f|) && (parent in s <==> n in s)
      decreases |f| - k, if parent == h then 0 else Pos(f, parent) + 1
    {
      if parent == tree {
        SkipOutside(h, f, root, k);
        ghost var e := RunEnd(f, k);
        n := SkipFamily(n, h, f);
        if n == null { return; }
        k := e;
        Place(h, f, k);
        Climb(h, f, root, k);
        parent := n.parent;
      } else {
        Climb(h, f, root, Pos(f, parent));
        parent := parent.parent;
      }
    }
  }

  /** The item after `node` in the sub-tree, or null. `tree` is the tree object, or when
      only the sub-tree follows anything that is not one of its items. */
  method SubTreeNext(root: Linkage, node: Linkage, tree: Linkage, ghost h: Linkage, ghost f: Forest)
    returns (n: Linkage?)
    requires Shows(h, f) && InTree(h, f, root) && InTree(h, f, node) && node in Sub(f, {root})
    requires node == root || Guarded(h, f, root, tree, Pos(f, node) + 1)
    ensures Shows(h, f)
    ensures n == At(f, NextIn(f, Sub(f, {root}), After(h, f, node)))
  {
    if node == root {
      if root == h { FirstOfAll(h, f); } else { FirstIsNext(h, f, root); }
      n := FirstChild(root, h, f);
    } else {
      SubStarts(h, f, root, node);
      NextIs(h, f, node);
      n := node.next;
      if n != null {
        Place(h, f, Pos(f, node) + 1);
        n := Scan(root, n, tree, h, f);
      }
    }
  }

  lemma FirstOfAll(h: Linkage, f: Forest)
    requires Wf(h, f)
    ensures FirstAt(f, h) == NextIn(f, Sub(f, {h}), 0) == 0
  {
    if f != [] {
      assert ParentBefore(h, f, 0);
      AllUnder(h, f, 0);
    }
  }

  /** Only the way up from an item outside the sub-tree passes the tree object. */
  lemma Borders(h: Linkage, f: Forest, root: Linkage, tree: Linkage, k: nat)
    requires Wf(h, f) && (root == h || Pos(f, root) < |f|) && Guarded(h, f, root, tree, k)
    ensures root in Sub(f, {root}) && (root != h ==> h !in Sub(f, {root}))
    ensures tree != h ==> forall i :: 0 <= i < |f| ==> f[i].item != tree
    ensures tree != h || root == h ==> forall i :: k <= i < |f| ==> f[i].item in Sub(f, {root})
  {
    SubWithin(f, {root});
    if root != h {
      HeaderOutside(h, f, root);
    } else {
      forall i | k <= i < |f| ensures f[i].item in Sub(f, {root}) { AllUnder(h, f, i); }
    }
  }

  /** One step up the tree stays in, or out of, the sub-tree. */
  lemma Climb(h: Linkage, f: Forest, root: Linkage, k: nat)
    requires Shows(h, f) && k < |f| && f[k].item != root
    ensures f[k].item.parent == f[k].parent
    ensures f[k].parent == h || Pos(f, f[k].parent) < k
    ensures f[k].parent in Sub(f, {root}) <==> f[k].item in Sub(f, {root})
  {
    assert Linked(f, k) && ParentBefore(h, f, k);
    SubStep(h, f, root, k);
  }

  lemma SkipOutside(h: Linkage, f: Forest, root: Linkage, k: nat)
    requires Shows(h, f) && k < |f| && f[k].item !in Sub(f, {root}) && Pos(f, root) < k
    ensures forall m :: k <= m < RunEnd(f, k) ==> f[m].item !in Sub(f, {root})
  {
    SubWithin(f, {root});
    forall m | k <= m < RunEnd(f, k) ensures f[m].item !in Sub(f, {root}) {
      Climb(h, f, root, k);
      Climb(h, f, root, m);
    }
  }

  /** Iterating from the root visits every item of the sub-tree once, in list order. */
  method VisitAll(root: Linkage, h: Linkage, ghost f: Forest) returns (visited: seq<Linkage>)
    requires Shows(h, f) && Pos(f, root) < |f|
    ensures Shows(h, f)
    ensures visited == Walk(f, Sub(f, {root}))
  {
    ghost var s, k := Sub(f, {root}), Pos(f, root);
    SubWithin(f, {root});
    RankOf(f, s, k);
    FirstInWalk(h, f, root);
    hide Sub, Walk, Wf, Rank;
    ghost var w := Walk(f, s);
    var node: Linkage? := root;
    visited := [];
    while node != null
      invariant Shows(h, f) && k <= |f| && node == At(f, k)
      invariant k < |f| ==> f[k].item in s && |visited| == Rank(f, s, k) < |w|
      invariant k == |f| ==> |visited| == |w|
      invariant |visited| <= |w| && forall i :: 0 <= i < |visited| ==> visited[i] == w[i]
      decreases |f| - k
    {
      RankOf(f, s, k);
      Place(h, f, k);
      NextInWalk(f, s, k);
      visited := visited + [node];
      node := SubTreeNext(root, node, h, h, f);
      k := NextIn(f, s, k + 1);
    }
  }

  lemma FirstInWalk(h: Linkage, f: Forest, root: Linkage)
    requires Wf(h, f) && Pos(f, root) < |f|
    ensures Rank(f, Sub(f, {root}), Pos(f, root)) == 0
  {
    var s := Sub(f, {root});
    forall m | 0 <= m < Pos(f, root) ensures f[m].item !in s {
      PosIs(f, m);
      if f[m].item in s { SubStarts(h, f, root, f[m].item); }
    }
    RankMonotone(f, s, 0, Pos(f, root));
  }
}
