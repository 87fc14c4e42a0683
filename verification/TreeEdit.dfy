/** Adding to and removing from a tree in place. */
module TreeEdit {
  import opened Sequences
  import opened TreeShape
  import opened Trees

  /** The item or header whose `next` leads to position `k`. */
  ghost function Before(h: Linkage, f: Forest, k: nat): (x: Linkage)
    requires k <= |f|
  {
    if k == 0 then h else f[k - 1].item
  }

  lemma BeforeLeads(h: Linkage, f: Forest, k: nat)
    requires Shows(h, f) && k <= |f|
    ensures Before(h, f, k).next == At(f, k)
  {
    if k > 0 { assert Linked(f, k - 1); }
  }

  /** Link `item`, its parent already set, in after `p`. */
  method LinkAfter(item: Linkage, p: Linkage, ghost parent: Linkage, ghost q: nat, ghost h: Linkage, ghost f: Forest)
    requires Shows(h, f) && q <= |f| && p == Before(h, f, q)
    requires item != h && Pos(f, item) == |f| && item.parent == parent && Wf(h, Splice(f, q, Cell(item, parent)))
    modifies item, p
    ensures Shows(h, Splice(f, q, Cell(item, parent)))
  {
    ghost var r := Splice(f, q, Cell(item, parent));
    forall i | 0 <= i < |f| ensures Linked(f, i) && f[i].item != item {}
    item.next := p.next;
    p.next := item;
    forall i | 0 <= i < |r| ensures Linked(r, i) {
      if i < q { assert old(Linked(f, i)); } else if q < i { assert old(Linked(f, i - 1)); }
    }
  }

  /** The item to add a child of `parent` after: its last child, or the end of the list. */
  method FindSlot(item: Linkage, parent: Linkage, ghost h: Linkage, ghost f: Forest) returns (p: Linkage)
    requires Shows(h, f) && InTree(h, f, parent) && item.parent == parent
    ensures p == Before(h, f, Slot(f, parent))
  {
    hide Wf, Linked, RunEnd;
    p := parent;
    ghost var k := After(h, f, parent);
    Starts(h, f, parent);
    BeforeLeads(h, f, k);
    var addBefore := p.next;
    while addBefore != null
      invariant Shows(h, f) && k <= |f| && k <= FirstAt(f, parent)
      invariant p == Before(h, f, k) && addBefore == At(f, k)
      decreases |f| - k
    {
      LinkedParent(h, f, k);
      if addBefore.parent == item.parent {
        Place(h, f, k);
        p := FinalSibling(addBefore, h, f);
        return;
      }
      p := addBefore;
      k := k + 1;
      BeforeLeads(h, f, k);
      addBefore := p.next;
    }
  }

  lemma LinkedParent(h: Linkage, f: Forest, k: nat)
    requires Shows(h, f) && k < |f|
    ensures f[k].item.parent == f[k].parent
  {
    assert Linked(f, k);
  }

  lemma Starts(h: Linkage, f: Forest, x: Linkage)
    requires Wf(h, f) && InTree(h, f, x)
    ensures Before(h, f, After(h, f, x)) == x && After(h, f, x) <= FirstAt(f, x)
  {
    if FirstAt(f, x) < |f| { ChildrenAfter(h, f, x, FirstAt(f, x)); }
  }

  method AddChild(item: Linkage, parent: Linkage, ghost h: Linkage, ghost f: Forest)
    requires Shows(h, f) && InTree(h, f, parent) && item != h && Pos(f, item) == |f|
    modifies item, h, Nodes(f)
    ensures Shows(h, Added(f, parent, item))
  {
    AddedWf(h, f, parent, item);
    item.parent := parent;
    forall i | 0 <= i < |f| ensures Linked(f, i) && f[i].item != item { assert old(Linked(f, i)); }
    var p := FindSlot(item, parent, h, f);
    LinkAfter(item, p, parent, Slot(f, parent), h, f);
  }

  method AddSibling(newSibling: Linkage, sibling: Linkage, ghost h: Linkage, ghost f: Forest)
    requires Shows(h, f) && Pos(f, sibling) < |f| && newSibling != h && Pos(f, newSibling) == |f|
    modifies newSibling, h, Nodes(f)
    ensures Shows(h, Added(f, f[Pos(f, sibling)].parent, newSibling))
  {
    hide Wf, RunEnd, Slot, Added;
    ghost var k := Pos(f, sibling);
    ghost var q, parent := RunEnd(f, k), f[k].parent;
    Formed(h, f);
    SiblingPlace(h, f, k, newSibling);
    var last := FinalSibling(sibling, h, f);
    assert Linked(f, q - 1);
    newSibling.parent := last.parent;
    forall i | 0 <= i < |f| ensures Linked(f, i) && f[i].item != newSibling { assert old(Linked(f, i)); }
    LinkAfter(newSibling, last, parent, q, h, f);
  }

  lemma SiblingPlace(h: Linkage, f: Forest, k: nat, x: Linkage)
    requires Wf(h, f) && k < |f| && x != h && Pos(f, x) == |f|
    ensures var q, parent := RunEnd(f, k), f[k].parent;
      && f[q - 1].parent == parent
      && Added(f, parent, x) == Splice(f, q, Cell(x, parent)) && Wf(h, Added(f, parent, x))
  {
    SlotIs(f, k);
    assert ParentBefore(h, f, k);
    AddedWf(h, f, f[k].parent, x);
  }

  method InitTree(tree: Linkage)
    modifies tree
    ensures Shows(tree, [])
  {
    tree.next := null;
    tree.parent := null;
  }

  /** What removing a leaf leaves. Removing the first item empties the tree. */
  ghost function LeafRemoved(f: Forest, x: Linkage): (r: Forest) { if Pos(f, x) == 0 then [] else Keep(f, {x}) }

  /** So exactly the leaf is removed if and only if it is not the first of several items. */
  lemma {:induction false} LeafRemovedIff(h: Linkage, f: Forest, x: Linkage)
    requires Wf(h, f) && Pos(f, x) < |f|
    ensures LeafRemoved(f, x) == Keep(f, {x}) <==> Pos(f, x) > 0 || |f| == 1
  {
    KeepOne(f, x);
  }

  /** The other item of a pair of siblings is lost. */
  lemma LeafRemovalLoses(h: Linkage, a: Linkage, b: Linkage)
    requires a != b && a != h && b != h
    ensures var f := [Cell(a, h), Cell(b, h)];
      Wf(h, f) && FirstAt(f, a) == |f| && LeafRemoved(f, a) == [] && Keep(f, {a}) == [Cell(b, h)]
  {
    var f := [Cell(a, h), Cell(b, h)];
    assert FirstAt(f[1..], a) == 1;
    assert Keep(f[1..], {a}) == [Cell(b, h)] by { assert f[1..][1..] == []; }
    forall i: nat | i < |f| ensures ParentBefore(h, f, i) {}
  }

  /** Unlink `item`, which stands after `p`. */
  method Unlink(item: Linkage, p: Linkage, ghost h: Linkage, ghost f: Forest)
    requires Shows(h, f) && Pos(f, item) < |f| && FirstAt(f, item) == |f| && p == Before(h, f, Pos(f, item))
    modifies p
    ensures Shows(h, Keep(f, {item}))
  {
    ghost var k, r := Pos(f, item), Keep(f, {item});
    KeepOne(f, item);
    KeepWf(h, f, {item});
    assert Linked(f, k);
    p.next := item.next;
    forall i | 0 <= i < |r| ensures Linked(r, i) {
      if i < k { assert old(Linked(f, i)); } else { assert old(Linked(f, i + 1)); }
    }
  }

  method RemoveLeaf(item: Linkage, tree: Linkage, ghost f: Forest)
    requires Shows(tree, f) && Pos(f, item) < |f| && FirstAt(f, item) == |f|
    modifies tree, Nodes(f)
    ensures Shows(tree, LeafRemoved(f, item))
  {
    hide Wf, Keep;
    ghost var k := Pos(f, item);
    if tree.next == item {
      Place(tree, f, 0);
      InitTree(tree);
      return;
    }
    assert Linked(f, k) && f[k].item == item;
    var jtem := item.parent;
    ParentIn(tree, f, k);
    ghost var a := After(tree, f, f[k].parent);
    Starts(tree, f, f[k].parent);
    while jtem != null
      invariant Shows(tree, f) && a <= k && jtem == Before(tree, f, a)
      decreases k - a
    {
      BeforeLeads(tree, f, a);
      Place(tree, f, a);
      if jtem.next == item {
        Unlink(item, jtem, tree, f);
        return;
      }
      jtem := jtem.next;
      a := a + 1;
    }
  }

  lemma ParentIn(h: Linkage, f: Forest, k: nat)
    requires Wf(h, f) && k < |f|
    ensures InTree(h, f, f[k].parent) && After(h, f, f[k].parent) <= k
  {
    assert ParentBefore(h, f, k);
  }

  /** Walk to the first leaf of the sub-tree and remove it. */
  method RemoveLeafFromSubTree(subTree: Linkage, tree: Linkage, ghost f: Forest) returns (x: Linkage)
    requires Shows(tree, f) && Pos(f, subTree) < |f|
    modifies tree, Nodes(f)
    ensures x in Sub(f, {subTree}) && Pos(f, x) < |f| && FirstAt(f, x) == |f|
    ensures Shows(tree, LeafRemoved(f, x))
  {
    hide Wf, Keep, Sub;
    ghost var s := Sub(f, {subTree});
    SubWithin(f, {subTree});
    x := subTree;
    var child := FirstChild(x, tree, f);
    while child != null
      invariant Shows(tree, f) && Pos(f, x) < |f| && x in s && child == At(f, FirstAt(f, x))
      decreases |f| - Pos(f, x)
    {
      ghost var k := FirstAt(f, x);
      Place(tree, f, Pos(f, x));
      ParentIn(tree, f, k);
      ChildInside(tree, f, subTree, k);
      var next := SubTreeNext(subTree, x, tree, tree, f);
      Place(tree, f, NextIn(f, s, Pos(f, x) + 1));
      x := next;
      child := FirstChild(x, tree, f);
    }
    RemoveLeaf(x, tree, f);
  }

  lemma ChildInside(h: Linkage, f: Forest, root: Linkage, k: nat)
    requires Wf(h, f) && k < |f| && f[k].parent in Sub(f, {root})
    ensures f[k].item in Sub(f, {root})
  {
    SubWithin(f, {root});
    if f[k].item != root { SubStep(h, f, root, k); }
  }

  /** Nothing that is left is a child of something removed earlier. */
  ghost predicate ChildrenFirst(f: Forest, removed: seq<Linkage>) {
    forall i, j :: 0 <= i < j < |removed| && Pos(f, removed[j]) < |f| ==>
      f[Pos(f, removed[j])].parent != removed[i]
  }

  /** The tree while its sub-tree is being emptied. */
  ghost predicate Left(f: Forest, root: Linkage, g: Forest, gone: set<Linkage>) {
    && g == Keep(f, gone) && root !in gone && Pos(g, root) < |g|
    && gone <= Sub(f, {root}) && Sub(g, {root}) == Sub(f, {root}) - gone
    && forall i :: 0 <= i < |g| ==> g[i].parent !in gone
  }

  lemma LeftStart(f: Forest, root: Linkage)
    requires Pos(f, root) < |f|
    ensures Left(f, root, f, {}) && ChildrenFirst(f, [])
  {
    KeepNone(f);
    SubWithin(f, {root});
  }

  /** An item that is left was where it was, under the parent it had. */
  lemma LeftCell(h: Linkage, f: Forest, root: Linkage, g: Forest, gone: set<Linkage>, x: Linkage)
    requires Wf(h, f) && Left(f, root, g, gone) && Pos(g, x) < |g|
    ensures Pos(f, x) < |f| && g[Pos(g, x)] == f[Pos(f, x)] && x !in gone
  {
    var m := KeepFrom(f, gone, Pos(g, x));
    Place(h, f, m);
  }

  lemma NextLeft(h: Linkage, f: Forest, root: Linkage, g: Forest, gone: set<Linkage>, x: Linkage)
    requires Wf(h, f) && Wf(h, g) && Left(f, root, g, gone)
    requires x in Sub(g, {root}) && Pos(g, x) < |g| && FirstAt(g, x) == |g| && x != root
    ensures LeafRemoved(g, x) == Keep(g, {x}) && Left(f, root, Keep(g, {x}), gone + {x})
  {
    SubStarts(h, g, root, x);
    LeftCell(h, f, root, g, gone, x);
    KeepTwice(f, gone, {x});
    SubKeepLeaf(g, {root}, x);
    assert {root} - {x} == {root};
    KeepTo(g, {x}, Pos(g, root));
    var r := Keep(g, {x});
    forall i | 0 <= i < |r| ensures r[i].parent !in gone + {x} {
      var m := KeepFrom(g, {x}, i);
    }
    assert r[|Keep(g[..Pos(g, root)], {x})|].item == root;
  }

  lemma LastLeft(h: Linkage, f: Forest, root: Linkage, g: Forest, gone: set<Linkage>)
    requires Wf(h, f) && Wf(h, g) && Left(f, root, g, gone) && FirstAt(g, root) == |g| && Pos(f, root) < |f|
    ensures gone + {root} == Sub(f, {root})
    ensures LeafRemoved(g, root) == if Pos(f, root) == 0 then [] else Keep(f, Sub(f, {root}))
  {
    OnlyRoot(h, g, root);
    SubWithin(f, {root});
    KeepTwice(f, gone, {root});
    KeepClosed(h, f, root);
    hide Wf, Sub, Keep;
    HeadKept(f, gone);
    Place(h, g, 0);
    Place(h, f, 0);
  }

  lemma OnlyRoot(h: Linkage, g: Forest, root: Linkage)
    requires Wf(h, g) && Pos(g, root) < |g| && FirstAt(g, root) == |g|
    ensures Sub(g, {root}) == {root}
  {
    SubWithin(g, {root});
    forall y | y in Sub(g, {root}) ensures y == root {
      if y != root { FirstDescendant(h, g, root, y); }
    }
  }

  lemma HeadKept(f: Forest, gone: set<Linkage>)
    requires f != [] && f[0].item !in gone
    ensures Keep(f, gone) != [] && Keep(f, gone)[0] == f[0]
  {
  }

  lemma ChildrenFirstMore(h: Linkage, f: Forest, root: Linkage, g: Forest, removed: seq<Linkage>, x: Linkage)
    requires Wf(h, f) && Left(f, root, g, (set y | y in removed)) && Pos(g, x) < |g| && ChildrenFirst(f, removed)
    ensures ChildrenFirst(f, removed + [x])
  {
    LeftCell(h, f, root, g, (set y | y in removed), x);
  }

  /** Removing leaves until the root itself goes removes each item of the sub-tree once,
      always before its parent, and leaves what removing the whole sub-tree would; but
      when the root is the first item of the tree it leaves nothing. */
  method EmptySubTree(root: Linkage, tree: Linkage, ghost f: Forest) returns (removed: seq<Linkage>)
    requires Shows(tree, f) && Pos(f, root) < |f|
    modifies tree, Nodes(f)
    ensures (set x | x in removed) == Sub(f, {root}) && |removed| == |Sub(f, {root})|
    ensures ChildrenFirst(f, removed)
    ensures Shows(tree, if Pos(f, root) == 0 then [] else Keep(f, Sub(f, {root})))
  {
    hide Wf, Keep, Sub, Left, ChildrenFirst, LeafRemoved, Shows;
    removed := [];
    ghost var g, gone: set<Linkage> := f, {};
    Formed(tree, f);
    LeftStart(f, root);
    while true
      invariant Shows(tree, g) && Left(f, root, g, gone) && Nodes(g) <= Nodes(f)
      invariant gone == (set x | x in removed) && |gone| == |removed| && ChildrenFirst(f, removed)
      decreases |g|
    {
      Formed(tree, g);
      Root(f, root, g, gone);
      var x := RemoveLeafFromSubTree(root, tree, g);
      LeftCell(tree, f, root, g, gone, x);
      ChildrenFirstMore(tree, f, root, g, removed, x);
      removed := removed + [x];
      if x == root {
        LastLeft(tree, f, root, g, gone);
        return;
      }
      NextLeft(tree, f, root, g, gone, x);
      KeepNodes(g, x);
      gone := gone + {x};
      g := Keep(g, {x});
    }
  }

  lemma Formed(h: Linkage, f: Forest)
    requires Shows(h, f)
    ensures Wf(h, f) && forall i, j :: 0 <= i < j < |f| ==> f[i].item != f[j].item
  {
  }

  lemma Root(f: Forest, root: Linkage, g: Forest, gone: set<Linkage>)
    requires Left(f, root, g, gone)
    ensures Pos(g, root) < |g|
  {
  }

  lemma KeepNodes(g: Forest, x: Linkage)
    requires Pos(g, x) < |g| && forall i, j :: 0 <= i < j < |g| ==> g[i].item != g[j].item
    ensures Nodes(Keep(g, {x})) <= Nodes(g) && |Keep(g, {x})| < |g|
  {
    hide Keep, Cut;
    var k := Pos(g, x);
    KeepOne(g, x);
    CutFacts(g, k);
    forall i | 0 <= i < |g| - 1 ensures Cut(g, k)[i].item in Nodes(g) {
      assert Cut(g, k)[i] == g[if i < k then i else i + 1];
    }
  }

  // ---- removing a whole sub-tree in one pass ----

  /** Part way through the list: what is kept so far is threaded up to `last`, the rest of
      the list is as it was, and no parent word has changed. */
  ghost predicate Patched(h: Linkage, f: Forest, kept: Forest, last: Linkage, n: nat)
    requires n <= |f|
    reads h, Nodes(f)
  {
    && Parented(h, f) && (forall i :: 0 <= i < |kept| ==> kept[i].item in Nodes(f))
    && last == Before(h, kept, |kept|)
    && (kept != [] ==> h.next == kept[0].item)
    && (forall i :: 0 <= i < |kept| - 1 ==> kept[i].item.next == kept[i + 1].item)
    && forall i :: n <= i < |f| ==> f[i].item.next == At(f, i + 1)
  }

  method FindBefore(item: Linkage, h: Linkage, ghost f: Forest) returns (p: Linkage)
    requires Shows(h, f) && Pos(f, item) < |f|
    ensures Shows(h, f) && p == Before(h, f, Pos(f, item))
  {
    hide Wf;
    ghost var k := Pos(f, item);
    assert Linked(f, k);
    p := item.parent;
    ParentIn(h, f, k);
    ghost var a := After(h, f, p);
    Starts(h, f, p);
    BeforeLeads(h, f, a);
    Place(h, f, a);
    while p.next != item
      invariant Shows(h, f) && a <= k && p == Before(h, f, a) && p.next == At(f, a) && Pos(f, At(f, a)) == a
      decreases k - a
    {
      p := p.next;
      a := a + 1;
      BeforeLeads(h, f, a);
      Place(h, f, a);
    }
  }

  lemma KeptStart(h: Linkage, f: Forest, item: Linkage)
    requires Wf(h, f) && Pos(f, item) < |f|
    ensures var s, k := Sub(f, {item}), Pos(f, item);
      && Keep(f[..k + 1], s) == f[..k]
      && Walk(f[..k + 1], s) != [] && Walk(f[..k + 1], s)[|Walk(f[..k + 1], s)| - 1] == item
  {
    var s, k := Sub(f, {item}), Pos(f, item);
    KeepClosed(h, f, item);
    KeepAll(f[..k], s);
    SubWithin(f, {item});
    PrefixStep(f, s, k);
  }

  lemma PatchStart(h: Linkage, f: Forest, k: nat)
    requires Shows(h, f) && k < |f|
    ensures Patched(h, f, f[..k], Before(h, f, k), k + 1)
  {
    ShowsParents(h, f);
    NextLinks(h, f);
    hide Wf, Parented, Linked;
    forall i | 0 <= i < k ensures f[..k][i].item in Nodes(f) { assert f[..k][i] == f[i]; }
    forall i | 0 <= i < k - 1 ensures f[..k][i].item.next == f[..k][i + 1].item {
      assert f[..k][i] == f[i] && f[..k][i + 1] == f[i + 1];
    }
  }

  lemma NextLinks(h: Linkage, f: Forest)
    requires Shows(h, f)
    ensures forall i :: 0 <= i < |f| ==> f[i].item.next == At(f, i + 1)
  {
    forall i | 0 <= i < |f| ensures f[i].item.next == At(f, i + 1) { assert Linked(f, i); }
  }

  /** Link the next cell that is kept. */
  method Patch(p: Linkage, x: Linkage, ghost n: nat, ghost kept: Forest, ghost s: set<Linkage>,
               ghost h: Linkage, ghost f: Forest)
    requires n < |f| && x == f[n].item && kept == Keep(f[..n], s) && Patched(h, f, kept, p, n)
    modifies p
    ensures Patched(h, f, kept + [f[n]], x, n + 1) && x.next == At(f, n + 1)
  {
    hide Keep, Grouped, ParentBefore;
    PatchApart(h, f, s, n);
    assert forall i :: 0 <= i < |f| ==> ParentIs(f, i);
    p.next := x;
    forall i | 0 <= i < |f| ensures ParentIs(f, i) { assert old(ParentIs(f, i)); }
    ghost var more := kept + [f[n]];
    forall i | 0 <= i < |more| - 1 ensures more[i].item.next == more[i + 1].item {
      if i < |kept| - 1 { assert more[i] == kept[i] && more[i + 1] == kept[i + 1]; }
    }
  }

  /** The cell whose link is patched is the last one kept so far and no other. */
  lemma PatchApart(h: Linkage, f: Forest, s: set<Linkage>, n: nat)
    requires Wf(h, f) && n <= |f|
    ensures var kept := Keep(f[..n], s); var p := Before(h, kept, |kept|);
      && (forall i :: n <= i < |f| ==> f[i].item != p)
      && forall i :: 0 <= i < |kept| - 1 ==> kept[i].item != p
  {
    var last := |Keep(f[..n], s)| - 1;
    if last >= 0 {
      KeptBelow(h, f, s, n, last, last);
      forall i | 0 <= i < last ensures Keep(f[..n], s)[i].item != Keep(f[..n], s)[last].item {
        KeptBelow(h, f, s, n, i, last);
      }
    }
    forall i | n <= i < |f| ensures f[i].item != Before(h, Keep(f[..n], s), last + 1) { Place(h, f, i); }
  }

  /** End the list after what is kept. */
  method Finish(p: Linkage, ghost s: set<Linkage>, ghost h: Linkage, ghost f: Forest)
    requires Patched(h, f, Keep(f, s), p, |f|) && Wf(h, Keep(f, s))
    modifies p
    ensures Shows(h, Keep(f, s))
  {
    ghost var kept := Keep(f, s);
    KeptParents(h, f, s);
    p.next := null;
    forall i | 0 <= i < |kept| ensures Linked(kept, i) { assert old(ParentIs(kept, i)); }
  }

  lemma KeptParents(h: Linkage, f: Forest, s: set<Linkage>)
    requires Parented(h, f)
    ensures forall i :: 0 <= i < |Keep(f, s)| ==> ParentIs(Keep(f, s), i) && Keep(f, s)[i].item != h
  {
    forall i | 0 <= i < |Keep(f, s)| ensures ParentIs(Keep(f, s), i) && Keep(f, s)[i].item != h {
      var m := KeepFrom(f, s, i);
      assert ParentIs(f, m);
    }
  }

  method RemoveSubTree(item: Linkage, tree: Linkage, ghost f: Forest) returns (last: Linkage)
    requires Shows(tree, f) && Pos(f, item) < |f|
    modifies tree, Nodes(f)
    ensures Shows(tree, Keep(f, Sub(f, {item})))
    ensures var w := Walk(f, Sub(f, {item})); w != [] && last == w[|w| - 1]
  {
    hide Wf, Keep, Sub, Walk, Patched, Parented;
    ghost var s, n := Sub(f, {item}), Pos(f, item) + 1;
    KeepClosed(tree, f, item) by { Formed(tree, f); }
    var removeBefore: Linkage := FindBefore(item, tree, f);
    KeptStart(tree, f, item) by { Formed(tree, f); }
    PatchStart(tree, f, n - 1);
    assert Linked(f, n - 1);
    var subItem := item.next;
    last := item;
    while subItem != null
      invariant n <= |f| && subItem == At(f, n) && removeBefore in {tree} + Nodes(f)
      invariant Patched(tree, f, Keep(f[..n], s), removeBefore, n)
      invariant var w := Walk(f[..n], s); w != [] && last == w[|w| - 1]
      decreases |f| - n
    {
      PrefixStep(f, s, n);
      PatchedFacts(tree, f, Keep(f[..n], s), removeBefore, n);
      var inside := IsInSubTree(item, subItem, tree, f);
      if inside == null {
        Patch(removeBefore, subItem, n, Keep(f[..n], s), s, tree, f);
        removeBefore := subItem;
      } else {
        last := subItem;
        PatchedOn(tree, f, Keep(f[..n], s), removeBefore, n);
        assert Keep(f[..n + 1], s) == Keep(f[..n], s);
      }
      n := n + 1;
      subItem := subItem.next;
    }
    assert f[..n] == f;
    Finish(removeBefore, s, tree, f);
  }

  lemma PatchedFacts(h: Linkage, f: Forest, kept: Forest, p: Linkage, n: nat)
    requires n < |f| && Patched(h, f, kept, p, n)
    ensures Parented(h, f) && Pos(f, f[n].item) == n && f[n].item.next == At(f, n + 1)
  {
    Place(h, f, n);
  }

  lemma PatchedOn(h: Linkage, f: Forest, kept: Forest, p: Linkage, n: nat)
    requires n < |f| && Patched(h, f, kept, p, n)
    ensures Patched(h, f, kept, p, n + 1)
  {
  }
}
