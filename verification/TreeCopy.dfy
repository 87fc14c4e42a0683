/** Copying a sub-tree item by item. The right parent in the copy is found by counting:
    as many steps from the root of the copy as the original's parent is from its root. */
module TreeCopy {
  import opened Sequences
  import opened TreeShape
  import opened Trees
  import opened TreeEdit

  ghost function ParentOf(f: Forest, x: Linkage): (p: Linkage)
    requires Pos(f, x) < |f|
  {
    f[Pos(f, x)].parent
  }

  ghost function Source(f: Forest, r: Linkage): (w: seq<Linkage>) { Walk(f, Sub(f, {r})) }

  /** Item `i` of the copy hangs where original `i` hangs: under the copy of its parent; the
      first hangs under `d`. */
  ghost predicate CopiedAt(f: Forest, r: Linkage, d: Linkage, e: Forest, i: nat)
    requires i < |e| <= |Source(f, r)|
  {
    var w := Source(f, r);
    if i == 0 then e[0].parent == d
    else Pos(f, w[i]) < |f| && IndexOf(w, ParentOf(f, w[i])) < i && e[i].parent == e[IndexOf(w, ParentOf(f, w[i]))].item
  }

  /** `e` is a copy, under `d`, of the first items of the sub-tree. */
  ghost predicate Copied(f: Forest, r: Linkage, d: Linkage, e: Forest) {
    |e| <= |Source(f, r)| && forall i: nat :: i < |e| ==> CopiedAt(f, r, d, e, i)
  }

  // ---- what is copied where ----

  /** From the sub-tree of `r` in tree `h` to under `d` in tree `g`, as both were at first. */
  datatype Job = Job(h: Linkage, f: Forest, r: Linkage, g: Linkage, e0: Forest, d: Linkage)

  /** Two trees apart, or one. */
  ghost predicate Sited(j: Job) {
    && Wf(j.h, j.f) && Wf(j.g, j.e0) && Pos(j.f, j.r) < |j.f| && InTree(j.g, j.e0, j.d)
    && if j.h == j.g then j.f == j.e0 else {j.h} + Nodes(j.f) !! {j.g} + Nodes(j.e0)
  }

  /** The destination is outside the sub-tree. */
  ghost predicate Fit(j: Job) { Sited(j) && j.d !in Sub(j.f, {j.r}) }

  /** The destination tree with the items `e` copied: the first at its slot, the rest at the
      end of the list. */
  ghost function Dest(j: Job, e: Forest): (r: Forest) {
    if e == [] then j.e0 else Splice(j.e0, Slot(j.e0, j.d), e[0]) + e[1..]
  }

  /** The source tree by then. */
  ghost function Src(j: Job, e: Forest): (r: Forest) { if j.h == j.g then Dest(j, e) else j.f }

  /** Where copy `i` stands. */
  ghost function Stands(j: Job, i: nat): (k: nat) { if i == 0 then Slot(j.e0, j.d) else |j.e0| + i }

  lemma DestCells(j: Job, e: Forest)
    ensures |Dest(j, e)| == |j.e0| + |e|
    ensures forall i: nat :: i < |e| ==> Dest(j, e)[Stands(j, i)] == e[i]
    ensures forall k :: 0 <= k < Slot(j.e0, j.d) ==> Dest(j, e)[k] == j.e0[k]
    ensures e != [] ==> forall k :: Slot(j.e0, j.d) < k <= |j.e0| ==> Dest(j, e)[k] == j.e0[k - 1]
    ensures e == [] ==> Dest(j, e) == j.e0
  {
    if e != [] { SpliceFacts(j.e0, Slot(j.e0, j.d), e[0]); }
  }

  /** One more copy is one more cell, at its slot or at the end. */
  lemma DestMore(j: Job, e: Forest, c: Cell<Linkage>)
    ensures Dest(j, e + [c]) == Splice(Dest(j, e), Stands(j, |e|), c)
  {
    if e == [] {
      assert ([] + [c])[1..] == [];
    } else {
      assert (e + [c])[0] == e[0] && (e + [c])[1..] == e[1..] + [c];
    }
  }

  // ---- the source ----

  lemma SourceItem(h: Linkage, f: Forest, r: Linkage, i: nat)
    requires Wf(h, f) && Pos(f, r) < |f| && i < |Source(f, r)|
    ensures var x := Source(f, r)[i]; Pos(f, x) < |f| && x in Sub(f, {r}) && Rank(f, Sub(f, {r}), Pos(f, x)) == i
    ensures Source(f, r)[0] == r
  {
    var k := WalkAt(f, Sub(f, {r}), i);
    PosIs(f, k);
    WalkExact(h, f, r, i, i);
  }

  /** Every item but the root comes after its parent in the walk. */
  lemma ParentEarlier(h: Linkage, f: Forest, r: Linkage, i: nat)
    requires Wf(h, f) && Pos(f, r) < |f| && 0 < i < |Source(f, r)|
    ensures Pos(f, Source(f, r)[i]) < |f|
    ensures IndexOf(Source(f, r), ParentOf(f, Source(f, r)[i])) < i
  {
    var s, w := Sub(f, {r}), Source(f, r);
    SourceItem(h, f, r, i);
    SourceItem(h, f, r, 0);
    var k := Pos(f, w[i]);
    WalkExact(h, f, r, 0, i);
    SubStep(h, f, r, k);
    assert ParentBefore(h, f, k);
    HeaderOutside(h, f, r);
    var m := Pos(f, f[k].parent);
    RankOf(f, s, m);
    RankMonotone(f, s, m + 1, k);
  }

  /** A later sibling comes straight after its family in the walk. */
  lemma FamilyTogether(h: Linkage, f: Forest, r: Linkage, i: nat, n: nat)
    requires Wf(h, f) && Pos(f, r) < |f| && 0 < i < n < |Source(f, r)|
    requires Pos(f, Source(f, r)[i]) < |f| && Pos(f, Source(f, r)[n - 1]) < |f| && Pos(f, Source(f, r)[n]) < |f|
    requires ParentOf(f, Source(f, r)[i]) == ParentOf(f, Source(f, r)[n])
    ensures ParentOf(f, Source(f, r)[n - 1]) == ParentOf(f, Source(f, r)[n])
  {
    WalkExact(h, f, r, i, n - 1);
    WalkExact(h, f, r, n - 1, n);
    var w := Source(f, r);
    var a, b, c := Pos(f, w[i]), Pos(f, w[n - 1]), Pos(f, w[n]);
    assert a <= b < c;
  }

  /** The root's own parent is outside the sub-tree. */
  lemma RootNoSibling(h: Linkage, f: Forest, r: Linkage, n: nat)
    requires Wf(h, f) && Pos(f, r) < |f| && 0 < n < |Source(f, r)|
    requires Pos(f, Source(f, r)[n]) < |f|
    ensures ParentOf(f, r) != ParentOf(f, Source(f, r)[n])
  {
    ParentEarlier(h, f, r, n);
    var p := Source(f, r)[IndexOf(Source(f, r), ParentOf(f, Source(f, r)[n]))];
    WalkExact(h, f, r, IndexOf(Source(f, r), p), n);
    assert ParentBefore(h, f, Pos(f, r));
    if p == ParentOf(f, r) {
      HeaderOutside(h, f, r);
      SubStarts(h, f, r, p);
    }
  }

  /** A cell put in outside the sub-tree leaves it, and the walk over it, as they were. */
  lemma SpliceOutside(f: Forest, q: nat, c: Cell<Linkage>, r: Linkage)
    requires q <= |f| && c.parent !in Sub(f, {r}) && c.item !in Sub(f, {r})
    ensures Sub(Splice(f, q, c), {r}) == Sub(f, {r}) && Source(Splice(f, q, c), r) == Source(f, r)
  {
    hide Sub, Walk;
    var a, b, s := f[..q], f[q..], Sub(f, {r});
    assert f == a + b && Splice(f, q, c) == a + ([c] + b);
    SubAppend(a, b, {r});
    SubAppend(a, [c] + b, {r});
    SubAppend([c], b, Sub(a, {r}));
    SubWithin(b, Sub(a, {r}));
    SubOne(c, Sub(a, {r}));
    assert Sub(Splice(f, q, c), {r}) == s;
    WalkAppend(a, b, s);
    WalkAppend(a, [c] + b, s);
    WalkAppend([c], b, s);
    WalkNone([c], s);
    assert [] + Walk(b, s) == Walk(b, s);
  }

  /** ... and every cell that was there. */
  lemma SpliceKeeps(f: Forest, q: nat, c: Cell<Linkage>, b: Cell<Linkage>)
    requires q <= |f| && c.item != b.item && HasCell(f, b)
    requires forall i, j :: 0 <= i < j < |f| ==> f[i].item != f[j].item
    ensures HasCell(Splice(f, q, c), b)
  {
    var x := b.item;
    var k, g := Pos(f, x), Splice(f, q, c);
    SpliceFacts(f, q, c);
    var m := if k < q then k else k + 1;
    assert g[m] == f[k];
    forall i | 0 <= i < m ensures g[i].item != x {
      assert i != q ==> g[i] == f[if i < q then i else i - 1];
    }
    PosIs(g, m);
  }

  /** The source as the copying sees it is the source as it was. */
  ghost predicate Unchanged(j: Job, s: Forest) {
    && Sub(s, {j.r}) == Sub(j.f, {j.r}) && Source(s, j.r) == Source(j.f, j.r) && Pos(s, j.r) < |s|
    && forall i :: 0 <= i < |j.f| ==> HasCell(s, j.f[i])
  }

  ghost predicate HasCell(f: Forest, c: Cell<Linkage>) { Pos(f, c.item) < |f| && ParentOf(f, c.item) == c.parent }

  /** All that was copied so far, on top of what the destination held. */
  ghost predicate Sound(j: Job, e: Forest) {
    && Fit(j) && Copied(j.f, j.r, j.d, e) && Wf(j.g, Dest(j, e)) && Wf(j.h, Src(j, e)) && Unchanged(j, Src(j, e))
    && forall i :: 0 <= i < |e| ==> e[i].item !in {j.h, j.g} + Nodes(j.f) + Nodes(j.e0)
  }

  lemma SoundStart(j: Job)
    requires Fit(j)
    ensures Sound(j, []) && |Source(j.f, j.r)| > 0
  {
    WalkExact(j.h, j.f, j.r, 0, 0);
    assert Dest(j, []) == j.e0;
    Placed(j);
  }

  lemma Placed(j: Job)
    requires Fit(j)
    ensures forall i :: 0 <= i < |j.f| ==> HasCell(j.f, j.f[i])
  {
    forall i | 0 <= i < |j.f| ensures HasCell(j.f, j.f[i]) { Place(j.h, j.f, i); }
  }

  // ---- the copy within the destination ----

  lemma ItemIn(f: Forest, i: nat)
    requires i < |f|
    ensures f[i].item in Nodes(f)
  {
  }

  lemma DestParts(j: Job, e: Forest)
    requires Sound(j, e)
    ensures Wf(j.g, j.e0) && Wf(j.g, Dest(j, e)) && InTree(j.g, j.e0, j.d)
    ensures forall i :: 0 <= i < |e| ==> e[i].item != j.g && e[i].item !in Nodes(j.e0)
  {
  }

  /** Where the copies stand, and that what hangs below the first copy is copies only. */
  lemma {:induction false} OldOutside(j: Job, e: Forest, k: nat)
    requires Sound(j, e) && e != [] && k < |Dest(j, e)| && k <= |j.e0| && k != Slot(j.e0, j.d)
    ensures Dest(j, e)[k].item !in Sub(Dest(j, e), {e[0].item})
    decreases k
  {
    var f, q := Dest(j, e), Slot(j.e0, j.d);
    DestParts(j, e);
    DestCells(j, e);
    hide Sound, Dest, Slot, Grouped, Sub;
    var m := if k < q then k else k - 1;
    assert f[k] == j.e0[m];
    ItemIn(j.e0, m);
    SubStep(j.g, f, e[0].item, k);
    HeaderOutside(j.g, f, e[0].item);
    assert ParentBefore(j.g, j.e0, m);
    if j.e0[m].parent != j.g {
      var n := Pos(j.e0, j.e0[m].parent);
      assert f[if n < q then n else n + 1] == j.e0[n];
      OldOutside(j, e, if n < q then n else n + 1);
    }
  }

  /** The whole of the copy hangs under its first item. */
  lemma {:induction false} CopyWhole(j: Job, e: Forest, i: nat)
    requires Sound(j, e) && i < |e|
    ensures e[i].item in Sub(Dest(j, e), {e[0].item})
    ensures Pos(Dest(j, e), e[i].item) == Stands(j, i) < |Dest(j, e)|
  {
    var f := Dest(j, e);
    DestCells(j, e);
    Place(j.g, f, Stands(j, i));
    SubWithin(f, {e[0].item});
    if i > 0 {
      assert CopiedAt(j.f, j.r, j.d, e, i);
      CopyWhole(j, e, IndexOf(Source(j.f, j.r), ParentOf(j.f, Source(j.f, j.r)[i])));
      Place(j.g, f, Stands(j, 0));
      SubStep(j.g, f, e[0].item, Stands(j, i));
    }
  }

  lemma CopiesDiffer(j: Job, e: Forest, i: nat, k: nat)
    requires Sound(j, e) && i < |e| && k < |e|
    ensures e[i].item == e[k].item <==> i == k
  {
    hide Sound, Dest, Pos;
    CopyWhole(j, e, i);
    CopyWhole(j, e, k);
  }

  /** The copy after copy `i` in the list order of its sub-tree. */
  lemma NextCopy(j: Job, e: Forest, i: nat)
    requires Sound(j, e) && i + 1 < |e|
    ensures var f := Dest(j, e);
      Stands(j, i) < |f| && NextIn(f, Sub(f, {e[0].item}), Stands(j, i) + 1) == Stands(j, i + 1)
  {
    hide Sound, Sub, Dest, Pos, NextIn, Slot;
    var f := Dest(j, e);
    DestCells(j, e);
    CopyWhole(j, e, i);
    CopyWhole(j, e, i + 1);
    forall m | Stands(j, i) < m < Stands(j, i + 1) ensures f[m].item !in Sub(f, {e[0].item}) { OldOutside(j, e, m); }
    NextInIs(f, Sub(f, {e[0].item}), Stands(j, i) + 1, Stands(j, i + 1));
  }

  // ---- walking ----

  /** SubTreeNext as a step along the walk of the source. */
  method StepOn(root: Linkage, node: Linkage, ghost k: nat, tree: Linkage, ghost f: Forest) returns (n: Linkage?)
    requires Shows(tree, f) && Pos(f, root) < |f| && k < |Source(f, root)| && node == Source(f, root)[k]
    ensures Shows(tree, f)
    ensures n == if k + 1 < |Source(f, root)| then Source(f, root)[k + 1] else null
  {
    SourceItem(tree, f, root, k);
    NextInWalk(f, Sub(f, {root}), Pos(f, node));
    n := SubTreeNext(root, node, tree, tree, f);
  }

  /** The same, which leaves the destination alone. */
  method NextOriginal(root: Linkage, node: Linkage, ghost k: nat, tree: Linkage, ghost s: Forest, ghost g: Linkage,
      ghost d: Forest)
      returns (n: Linkage?)
    requires Shows(tree, s) && Shows(g, d) && Pos(s, root) < |s|
    requires k < |Source(s, root)| && node == Source(s, root)[k]
    ensures Shows(tree, s) && Shows(g, d)
    ensures n == if k + 1 < |Source(s, root)| then Source(s, root)[k + 1] else null
  {
    hide Wf, Source;
    n := StepOn(root, node, k, tree, s);
  }

  /** Steps from `root` to `end`, counting only items of the sub-tree. */
  method CountSteps(root: Linkage, end: Linkage, tree: Linkage, ghost f: Forest) returns (steps: int)
    requires Shows(tree, f) && Pos(f, root) < |f| && IndexOf(Source(f, root), end) < |Source(f, root)|
    ensures Shows(tree, f) && steps == IndexOf(Source(f, root), end)
  {
    var next: Linkage? := root;
    SourceItem(tree, f, root, 0) by { WalkExact(tree, f, root, 0, 0); }
    steps := -1;
    while true
      invariant Shows(tree, f) && -1 <= steps < IndexOf(Source(f, root), end) && next == Source(f, root)[steps + 1]
      decreases |Source(f, root)| - steps
    {
      steps := steps + 1;
      if next == end { break; }
      next := StepOn(root, next, steps, tree, f);
      if next == null { break; }
    }
  }

  /** All a step from copy `i` needs, and where it leads. */
  lemma CopyStep(j: Job, e: Forest, i: nat)
    requires Sound(j, e) && i + 1 < |e|
    ensures var f, x := Dest(j, e), e[i].item;
      && InTree(j.g, f, e[0].item) && InTree(j.g, f, x) && x in Sub(f, {e[0].item})
      && (x == e[0].item || Guarded(j.g, f, e[0].item, j.h, Pos(f, x) + 1))
      && At(f, NextIn(f, Sub(f, {e[0].item}), After(j.g, f, x))) == e[i + 1].item
  {
    hide Sound, Dest, Guarded, Sub, Wf, NextIn;
    CopyWhole(j, e, 0);
    CopyWhole(j, e, i);
    NextCopy(j, e, i);
    OnlyCopies(j, e, i);
    DestCells(j, e);
  }

  /** As many steps from the first copy. The walk is given the source tree, not its own, as
      the one to stop at; it does not matter, for it never leaves the copy. */
  method TakeSteps(subRoot: Linkage, steps: nat, sourceTree: Linkage, ghost j: Job, ghost e: Forest)
      returns (a: Linkage)
    requires Sound(j, e) && Shows(j.g, Dest(j, e)) && steps < |e| && subRoot == e[0].item && sourceTree == j.h
    ensures Shows(j.g, Dest(j, e)) && a == e[steps].item
  {
    hide Sound, Dest, Guarded, Sub, Wf, InTree, At, NextIn;
    ghost var f := Dest(j, e);
    a := subRoot;
    for i := 0 to steps
      invariant Shows(j.g, f) && a == e[i].item
    {
      CopyStep(j, e, i);
      var next := SubTreeNext(subRoot, a, sourceTree, j.g, f);
      a := next;
    }
  }

  /** Past any copy but the first only copies follow. */
  lemma OnlyCopies(j: Job, e: Forest, i: nat)
    requires Sound(j, e) && i < |e|
    ensures i == 0 || Guarded(j.g, Dest(j, e), e[0].item, j.h, Stands(j, i) + 1)
    ensures e[i].item != j.g && (i > 0 ==> e[i].item != e[0].item)
  {
    hide Sound, Dest, Sub, Pos, Slot, Wf;
    var f := Dest(j, e);
    DestCells(j, e);
    DestParts(j, e);
    CopiesDiffer(j, e, i, 0);
    if i > 0 {
      forall k | Stands(j, i) < k < |f| ensures f[k].item in Sub(f, {e[0].item}) { CopyWhole(j, e, k - |j.e0|); }
      if j.h != j.g { SourceTreeOutside(j, e); }
    }
  }

  lemma SourceTreeOutside(j: Job, e: Forest)
    requires Sound(j, e) && j.h != j.g
    ensures Pos(Dest(j, e), j.h) == |Dest(j, e)|
  {
    hide Sound, Dest, Pos;
    Apart(j, e);
    Loose(Dest(j, e), j.h);
  }

  // ---- the slot of the next copy ----

  /** The original of the next copy, and of its parent. */
  ghost function ParentIndex(j: Job, n: nat): (m: nat)
    requires n < |Source(j.f, j.r)| && Pos(j.f, Source(j.f, j.r)[n]) < |j.f|
  {
    IndexOf(Source(j.f, j.r), ParentOf(j.f, Source(j.f, j.r)[n]))
  }

  /** The last copy ends its family, and the list. */
  lemma SiblingSlot(j: Job, e: Forest)
    requires Sound(j, e) && 0 < |e| < |Source(j.f, j.r)|
    requires Pos(j.f, Source(j.f, j.r)[|e|]) < |j.f| && Pos(j.f, Source(j.f, j.r)[|e| - 1]) < |j.f|
    requires ParentOf(j.f, Source(j.f, j.r)[|e|]) == ParentOf(j.f, Source(j.f, j.r)[|e| - 1])
    ensures |e| > 1 && Pos(Dest(j, e), e[|e| - 1].item) == |Dest(j, e)| - 1
    ensures Slot(Dest(j, e), e[|e| - 1].parent) == |Dest(j, e)|
    ensures ParentIndex(j, |e|) < |e| && e[|e| - 1].parent == e[ParentIndex(j, |e|)].item
  {
    var n := |e|;
    if n == 1 {
      SourceItem(j.h, j.f, j.r, 0);
      RootNoSibling(j.h, j.f, j.r, 1);
    }
    assert CopiedAt(j.f, j.r, j.d, e, n - 1);
    CopyWhole(j, e, n - 1);
    DestCells(j, e);
    SlotIs(Dest(j, e), Stands(j, n - 1));
  }

  /** A parent that is not the previous item's parent has no copied child yet. */
  lemma ChildSlot(j: Job, e: Forest, m: nat)
    requires Sound(j, e) && 0 < |e| < |Source(j.f, j.r)|
    requires Pos(j.f, Source(j.f, j.r)[|e|]) < |j.f| && Pos(j.f, Source(j.f, j.r)[|e| - 1]) < |j.f|
    requires ParentOf(j.f, Source(j.f, j.r)[|e|]) != ParentOf(j.f, Source(j.f, j.r)[|e| - 1])
    requires m == ParentIndex(j, |e|) < |e|
    ensures Slot(Dest(j, e), e[m].item) == |Dest(j, e)| && InTree(j.g, Dest(j, e), e[m].item)
  {
    CopyWhole(j, e, m);
    DestCells(j, e);
    hide Sound, Dest, Source, Slot;
    forall k | 0 <= k < |Dest(j, e)| ensures Dest(j, e)[k].parent != e[m].item {
      if k == Stands(j, 0) || k > |j.e0| {
        NoChildYet(j, e, m, if k > |j.e0| then k - |j.e0| else 0);
      } else {
        OldParent(j, if k < Stands(j, 0) then k else k - 1);
        NotCopied(j, e, m, Dest(j, e)[k].parent);
      }
    }
    SlotNone(Dest(j, e), e[m].item);
  }

  lemma NoChildYet(j: Job, e: Forest, m: nat, i: nat)
    requires Sound(j, e) && i < |e| < |Source(j.f, j.r)|
    requires Pos(j.f, Source(j.f, j.r)[|e|]) < |j.f| && Pos(j.f, Source(j.f, j.r)[|e| - 1]) < |j.f|
    requires ParentOf(j.f, Source(j.f, j.r)[|e|]) != ParentOf(j.f, Source(j.f, j.r)[|e| - 1])
    requires m == ParentIndex(j, |e|) < |e|
    ensures e[i].parent != e[m].item
  {
    hide Sound, Wf, Unchanged, Sub, Walk, Source, Pos, Dest, Src;
    var n, w := |e|, Source(j.f, j.r);
    Parts(j, e);
    assert CopiedAt(j.f, j.r, j.d, e, i);
    if i == 0 {
      DestParts(j, e);
      NotCopied(j, e, m, j.d);
    } else {
      var l := IndexOf(w, ParentOf(j.f, w[i]));
      CopiesDiffer(j, e, l, m);
      if l == m { FamilyTogether(j.h, j.f, j.r, i, n); }
    }
  }

  lemma OldParent(j: Job, l: nat)
    requires Fit(j) && l < |j.e0|
    ensures InTree(j.g, j.e0, j.e0[l].parent)
  {
    assert ParentBefore(j.g, j.e0, l);
  }

  lemma SlotNone(f: Forest, p: Linkage)
    requires forall k :: 0 <= k < |f| ==> f[k].parent != p
    ensures Slot(f, p) == |f|
  {
  }

  lemma NotCopied(j: Job, e: Forest, m: nat, x: Linkage)
    requires Sound(j, e) && m < |e| && InTree(j.g, j.e0, x)
    ensures e[m].item != x
  {
    if x != j.g { ItemIn(j.e0, Pos(j.e0, x)); }
  }

  lemma CopiedMore(f: Forest, r: Linkage, d: Linkage, e: Forest, c: Cell<Linkage>)
    requires Copied(f, r, d, e) && |e| < |Source(f, r)|
    requires if e == [] then c.parent == d else
      Pos(f, Source(f, r)[|e|]) < |f| && IndexOf(Source(f, r), ParentOf(f, Source(f, r)[|e|])) < |e|
      && c.parent == e[IndexOf(Source(f, r), ParentOf(f, Source(f, r)[|e|]))].item
    ensures Copied(f, r, d, e + [c])
  {
    var more := e + [c];
    forall i: nat | i < |more| ensures CopiedAt(f, r, d, more, i) {
      assert i < |e| ==> CopiedAt(f, r, d, e, i) && more[i] == e[i];
    }
  }

  /** One more copy under parent `p`, at the slot for its children, keeps all that. */
  lemma SoundMore(j: Job, e: Forest, p: Linkage, x: Linkage)
    requires Sound(j, e) && |e| < |Source(j.f, j.r)| && Copied(j.f, j.r, j.d, e + [Cell(x, p)])
    requires x !in {j.h, j.g} + Nodes(j.f) + Nodes(Dest(j, e)) && InTree(j.g, Dest(j, e), p)
    requires Slot(Dest(j, e), p) == Stands(j, |e|) && p !in Sub(j.f, {j.r})
    ensures Sound(j, e + [Cell(x, p)]) && Added(Dest(j, e), p, x) == Dest(j, e + [Cell(x, p)])
  {
    hide Wf, Copied, Sub, Walk, Source, Unchanged, Dest, Src, Slot, Pos, Fit;
    var f, c := Dest(j, e), Cell(x, p);
    Different(j.g, f);
    DestMore(j, e, c);
    Loose(f, x);
    AddedWf(j.g, f, p, x);
    OldNodes(j, e);
    SrcIs(j, e);
    SrcIs(j, e + [c]);
    if j.h == j.g { UnchangedMore(j, f, Stands(j, |e|), c); }
  }

  lemma SrcIs(j: Job, e: Forest)
    ensures Src(j, e) == if j.h == j.g then Dest(j, e) else j.f
  {
  }

  lemma Different(h: Linkage, f: Forest)
    requires Wf(h, f)
    ensures forall a, b :: 0 <= a < b < |f| ==> f[a].item != f[b].item
  {
  }

  lemma Loose(f: Forest, x: Linkage)
    requires x !in Nodes(f)
    ensures Pos(f, x) == |f|
  {
    forall k | 0 <= k < |f| ensures f[k].item != x { ItemIn(f, k); }
    PosNone(f, x);
  }

  lemma OldNodes(j: Job, e: Forest)
    ensures Nodes(j.e0) <= Nodes(Dest(j, e))
    ensures Nodes(Dest(j, e)) == Nodes(j.e0) + Nodes(e)
  {
    var f := Dest(j, e);
    DestCells(j, e);
    forall k | 0 <= k < |j.e0| ensures j.e0[k].item in Nodes(f) {
      var m := if k < Slot(j.e0, j.d) || e == [] then k else k + 1;
      assert f[m] == j.e0[k];
      ItemIn(f, m);
    }
    forall i: nat | i < |e| ensures e[i].item in Nodes(f) { ItemIn(f, Stands(j, i)); }
    forall k | 0 <= k < |f| ensures f[k].item in Nodes(j.e0) + Nodes(e) {
      if e != [] && (k == Slot(j.e0, j.d) || k > |j.e0|) {
        assert f[k] == e[if k > |j.e0| then k - |j.e0| else 0];
      } else {
        assert f[k] == j.e0[if k < Slot(j.e0, j.d) || e == [] then k else k - 1];
      }
    }
  }

  lemma UnchangedMore(j: Job, f: Forest, q: nat, c: Cell<Linkage>)
    requires Unchanged(j, f) && q <= |f| && c.parent !in Sub(j.f, {j.r}) && c.item !in Nodes(j.f)
    requires Fit(j) && (forall a, b :: 0 <= a < b < |f| ==> f[a].item != f[b].item)
    ensures Unchanged(j, Splice(f, q, c))
  {
    var s := Sub(j.f, {j.r});
    SubWithin(j.f, {j.r});
    assert c.item !in s by {
      if c.item in s {
        if c.item != j.r { SubStarts(j.h, j.f, j.r, c.item); }
        ItemIn(j.f, Pos(j.f, c.item));
      }
    }
    SpliceOutside(f, q, c, j.r);
    forall i | 0 <= i < |j.f| ensures HasCell(Splice(f, q, c), j.f[i]) {
      ItemIn(j.f, i);
      SpliceKeeps(f, q, c, j.f[i]);
    }
    Placed(j);
  }

  // ---- the cursor ----

  lemma CopyOutside(j: Job, e: Forest, m: nat)
    requires Sound(j, e) && m < |e|
    ensures e[m].item !in Sub(j.f, {j.r}) && InTree(j.g, Dest(j, e), e[m].item)
  {
    CopyWhole(j, e, m);
    if e[m].item in Sub(j.f, {j.r}) {
      if e[m].item != j.r { SubStarts(j.h, j.f, j.r, e[m].item); }
      ItemIn(j.f, Pos(j.f, e[m].item));
      assert false;
    }
  }

  lemma RootMore(j: Job, x: Linkage)
    requires Sound(j, []) && x !in {j.h, j.g} + Nodes(j.f) + Nodes(j.e0)
    ensures var c := Cell(x, j.d); Sound(j, [c]) && Added(j.e0, j.d, x) == Dest(j, [c]) && InTree(j.g, j.e0, j.d)
    ensures Pos(j.e0, x) == |j.e0| && Dest(j, []) == j.e0
  {
    SoundStart(j);
    Loose(j.e0, x);
    hide Wf, Sub, Unchanged;
    CopiedMore(j.f, j.r, j.d, [], Cell(x, j.d));
    SoundMore(j, [], j.d, x);
    assert [] + [Cell(x, j.d)] == [Cell(x, j.d)];
  }

  /** The parents of the current and the previous original. */
  lemma CurrentParents(j: Job, e: Forest)
    requires Sound(j, e) && Shows(j.h, Src(j, e)) && 0 < |e| < |Source(j.f, j.r)|
    ensures var x, y := Source(j.f, j.r)[|e|], Source(j.f, j.r)[|e| - 1];
      && Pos(j.f, x) < |j.f| && Pos(j.f, y) < |j.f|
      && x.parent == ParentOf(j.f, x) && y.parent == ParentOf(j.f, y)
  {
    OriginalParent(j, e, |e|);
    OriginalParent(j, e, |e| - 1);
  }

  lemma OriginalParent(j: Job, e: Forest, i: nat)
    requires Sound(j, e) && Shows(j.h, Src(j, e)) && i < |Source(j.f, j.r)|
    ensures var x := Source(j.f, j.r)[i]; Pos(j.f, x) < |j.f| && x.parent == ParentOf(j.f, x)
  {
    var x, s := Source(j.f, j.r)[i], Src(j, e);
    SourceItem(j.h, j.f, j.r, i);
    assert HasCell(s, j.f[Pos(j.f, x)]);
    NextIs(j.h, s, x);
  }

  lemma Parts(j: Job, e: Forest)
    requires Sound(j, e)
    ensures Unchanged(j, Src(j, e)) && Source(Src(j, e), j.r) == Source(j.f, j.r) && Pos(Src(j, e), j.r) < |Src(j, e)|
    ensures Wf(j.h, j.f) && Pos(j.f, j.r) < |j.f| && Copied(j.f, j.r, j.d, e)
    ensures j.h != j.g ==> {j.h} + Nodes(j.f) !! {j.g} + Nodes(j.e0)
  {
  }

  /** The source, when it is another tree, has nothing in common with the destination. */
  lemma Apart(j: Job, e: Forest)
    requires Sound(j, e) && j.h != j.g
    ensures {j.h} + Nodes(j.f) !! {j.g} + Nodes(Dest(j, e)) && Src(j, e) == j.f
  {
    OldNodes(j, e);
    hide Wf, Sub, Walk, Dest, Copied, Unchanged;
    forall x | x in Nodes(e) ensures x !in {j.h} + Nodes(j.f) {
      var i :| 0 <= i < |e| && e[i].item == x;
    }
  }

  /** Link an item in; a tree apart from this one is left alone. */
  method AttachChild(item: Linkage, parent: Linkage, ghost g: Linkage, ghost e: Forest,
      ghost h: Linkage, ghost f: Forest)
    requires Shows(g, e) && InTree(g, e, parent) && item != g && Pos(e, item) == |e|
    requires h != g ==> Shows(h, f) && {h} + Nodes(f) !! {item, g} + Nodes(e)
    modifies item, g, Nodes(e)
    ensures Shows(g, Added(e, parent, item)) && (h != g ==> Shows(h, f))
  {
    hide Wf, Added;
    AddChild(item, parent, g, e);
  }

  method AttachSibling(item: Linkage, sibling: Linkage, ghost g: Linkage, ghost e: Forest,
      ghost h: Linkage, ghost f: Forest)
    requires Shows(g, e) && Pos(e, sibling) < |e| && item != g && Pos(e, item) == |e|
    requires h != g ==> Shows(h, f) && {h} + Nodes(f) !! {item, g} + Nodes(e)
    modifies item, g, Nodes(e)
    ensures Shows(g, Added(e, e[Pos(e, sibling)].parent, item)) && (h != g ==> Shows(h, f))
  {
    hide Wf, Added;
    AddSibling(item, sibling, g, e);
  }

  /** One more item copied. */
  ghost predicate Extended(j: Job, e: Forest, c: Cell<Linkage>)
    reads j.h, j.g, Nodes(Src(j, e + [c])), Nodes(Dest(j, e + [c]))
  {
    Sound(j, e + [c]) && Shows(j.h, Src(j, e + [c])) && Shows(j.g, Dest(j, e + [c]))
  }

  class Copier {
    var sourceRoot: Linkage
    var destRoot: Linkage
    var subRoot: Linkage?
    var destCurrent: Linkage
    var sourceCurrent: Linkage?
    var sourcePrev: Linkage?
    var sourceTree: Linkage

    /** `e` copies the first items of the sub-tree, and the cursors stand at the next. */
    ghost predicate Copying(j: Job, e: Forest)
      reads this, j.h, j.g, Nodes(Src(j, e)), Nodes(Dest(j, e))
    {
      && Sound(j, e) && Shows(j.h, Src(j, e)) && Shows(j.g, Dest(j, e))
      && sourceRoot == j.r && destRoot == j.d && sourceTree == j.h
      && (sourceCurrent == if |e| < |Source(j.f, j.r)| then Source(j.f, j.r)[|e|] else null)
      && (sourcePrev == if |e| == 0 then null else Source(j.f, j.r)[|e| - 1])
      && (e != [] ==> subRoot == e[0].item && destCurrent == e[|e| - 1].item)
    }

    constructor (subTree: Linkage, tree: Linkage, destSubTree: Linkage, ghost j: Job)
      requires j.h == tree && j.r == subTree && j.d == destSubTree
      requires Fit(j) && Shows(j.h, j.f) && Shows(j.g, j.e0)
      ensures Copying(j, [])
    {
      sourceRoot, destRoot, subRoot, destCurrent := subTree, destSubTree, null, destSubTree;
      sourceCurrent, sourcePrev, sourceTree := subTree, null, tree;
      new;
      SoundStart(j);
      WalkExact(tree, j.f, subTree, 0, 0);
    }

    /** The parent for the copy of the next item. */
    method FindParent(ghost j: Job, ghost e: Forest) returns (a: Linkage)
      requires Copying(j, e) && 0 < |e| < |Source(j.f, j.r)|
      ensures Copying(j, e)
      ensures Pos(j.f, Source(j.f, j.r)[|e|]) < |j.f|
      ensures ParentIndex(j, |e|) < |e| && a == e[ParentIndex(j, |e|)].item
    {
      Parts(j, e);
      ParentEarlier(j.h, j.f, j.r, |e|);
      OriginalParent(j, e, |e|);
      hide Wf, Sound, Sub, Walk, Source;
      var steps := CountSteps(sourceRoot, sourceCurrent.parent, sourceTree, Src(j, e));
      a := TakeSteps(subRoot, steps, sourceTree, j, e);
    }

    /** The copy of the root. */
    method LinkRoot(looseItem: Linkage, ghost j: Job)
      requires Copying(j, []) && looseItem !in {j.h, j.g} + Nodes(j.f) + Nodes(j.e0)
      modifies this`subRoot, looseItem, j.g, Nodes(Dest(j, []))
      ensures Extended(j, [], Cell(looseItem, j.d)) && subRoot == looseItem
    {
      hide Wf, Sound, Dest, Src, Shows, Added, Unchanged, Source, Copied, InTree, Pos;
      ghost var c := Cell(looseItem, j.d);
      RootMore(j, looseItem);
      assert [] + [c] == [c];
      SrcIs(j, []);
      SrcIs(j, [c]);
      if j.h != j.g { Apart(j, []); }
      subRoot := looseItem;
      AttachChild(looseItem, destRoot, j.g, j.e0, j.h, j.f);
    }

    /** The copy of the previous item's sibling. */
    method LinkSibling(looseItem: Linkage, ghost j: Job, ghost e: Forest) returns (ghost c: Cell<Linkage>)
      requires Copying(j, e) && 0 < |e| < |Source(j.f, j.r)|
      requires looseItem !in {j.h, j.g} + Nodes(j.f) + Nodes(Dest(j, e))
      requires Pos(j.f, Source(j.f, j.r)[|e|]) < |j.f| && Pos(j.f, Source(j.f, j.r)[|e| - 1]) < |j.f|
      requires ParentOf(j.f, Source(j.f, j.r)[|e|]) == ParentOf(j.f, Source(j.f, j.r)[|e| - 1])
      modifies looseItem, j.g, Nodes(Dest(j, e))
      ensures Extended(j, e, c) && c.item == looseItem
    {
      SiblingSlot(j, e);
      NextMore(j, e, ParentIndex(j, |e|), looseItem);
      c := Cell(looseItem, e[|e| - 1].parent);
      DestCells(j, e);
      hide Wf, Sound, Sub, Walk, Copied, Dest, Src, Shows, Added, Unchanged, Source;
      SrcIs(j, e);
      SrcIs(j, e + [c]);
      if j.h != j.g { Apart(j, e); }
      AttachSibling(looseItem, destCurrent, j.g, Dest(j, e), j.h, j.f);
    }

    /** The copy of a first child. */
    method LinkChild(looseItem: Linkage, ghost j: Job, ghost e: Forest) returns (ghost c: Cell<Linkage>)
      requires Copying(j, e) && 0 < |e| < |Source(j.f, j.r)|
      requires looseItem !in {j.h, j.g} + Nodes(j.f) + Nodes(Dest(j, e))
      requires Pos(j.f, Source(j.f, j.r)[|e|]) < |j.f| && Pos(j.f, Source(j.f, j.r)[|e| - 1]) < |j.f|
      requires ParentOf(j.f, Source(j.f, j.r)[|e|]) != ParentOf(j.f, Source(j.f, j.r)[|e| - 1])
      modifies looseItem, j.g, Nodes(Dest(j, e))
      ensures Extended(j, e, c) && c.item == looseItem
    {
      var a := FindParent(j, e);
      ChildSlot(j, e, ParentIndex(j, |e|));
      NextMore(j, e, ParentIndex(j, |e|), looseItem);
      c := Cell(looseItem, a);
      hide Wf, Sound, Sub, Walk, Copied, Dest, Src, Shows, Added, Unchanged, Source;
      SrcIs(j, e);
      SrcIs(j, e + [c]);
      if j.h != j.g { Apart(j, e); }
      AttachChild(looseItem, a, j.g, Dest(j, e), j.h, j.f);
    }

    /** Link `looseItem` in as the copy of the current item. */
    method LinkCopy(looseItem: Linkage, ghost j: Job, ghost e: Forest) returns (ghost c: Cell<Linkage>)
      requires Copying(j, e) && |e| < |Source(j.f, j.r)|
      requires looseItem !in {j.h, j.g} + Nodes(j.f) + Nodes(Dest(j, e))
      modifies this`subRoot, looseItem, j.g, Nodes(Dest(j, e))
      ensures Extended(j, e, c) && c.item == looseItem
      ensures subRoot == if e == [] then looseItem else old(subRoot)
    {
      if sourcePrev == null {
        OldNodes(j, e);
        LinkRoot(looseItem, j);
        c := Cell(looseItem, j.d);
      } else {
        CurrentParents(j, e);
        hide Wf, Sound, Sub, Walk;
        if sourceCurrent.parent == sourcePrev.parent {
          c := LinkSibling(looseItem, j, e);
        } else {
          c := LinkChild(looseItem, j, e);
        }
      }
    }

    /** Link `looseItem` in as the copy of the current item, and move on. */
    method CopyNext(looseItem: Linkage, ghost j: Job, ghost e: Forest) returns (current: Linkage?, ghost e': Forest)
      requires Copying(j, e) && |e| < |Source(j.f, j.r)|
      requires looseItem !in {j.h, j.g} + Nodes(j.f) + Nodes(Dest(j, e))
      modifies this, looseItem, j.g, Nodes(Dest(j, e))
      ensures Copying(j, e') && current == sourceCurrent
      ensures |e'| == |e| + 1 && e'[..|e|] == e && e'[|e|].item == looseItem
    {
      hide Wf, Sub, Walk, Source, Sound, Dest, Src, Copied, Unchanged;
      ghost var c := LinkCopy(looseItem, j, e);
      e' := e + [c];
      Parts(j, e');
      ghost var s, d := Src(j, e'), Dest(j, e');
      current := NextOriginal(sourceRoot, sourceCurrent, |e|, sourceTree, s, j.g, d);
      sourcePrev, sourceCurrent, destCurrent := sourceCurrent, current, looseItem;
      assert Shows(j.g, d) && Shows(j.h, s);
    }
  }

  /** The next copy, under copy `m`, at the end of the list. */
  lemma NextMore(j: Job, e: Forest, m: nat, x: Linkage)
    requires Sound(j, e) && 0 < |e| < |Source(j.f, j.r)| && x !in {j.h, j.g} + Nodes(j.f) + Nodes(Dest(j, e))
    requires Pos(j.f, Source(j.f, j.r)[|e|]) < |j.f| && m == ParentIndex(j, |e|) < |e|
    requires Slot(Dest(j, e), e[m].item) == |Dest(j, e)|
    ensures var c := Cell(x, e[m].item); Sound(j, e + [c]) && Added(Dest(j, e), e[m].item, x) == Dest(j, e + [c])
    ensures Pos(Dest(j, e), x) == |Dest(j, e)| && InTree(j.g, Dest(j, e), e[m].item)
  {
    CopyOutside(j, e, m);
    Loose(Dest(j, e), x);
    DestCells(j, e);
    CopiedMore(j.f, j.r, j.d, e, Cell(x, e[m].item));
    hide Wf, Sub, Unchanged, Copied, Slot;
    SoundMore(j, e, e[m].item, x);
  }

  /** The sub-tree is the same to the destination's tree, but that none of its items are in
      a tree apart. */
  lemma SeenFrom(j: Job)
    requires Sited(j)
    ensures j.r != j.g && (j.d in Sub(j.e0, {j.r}) <==> j.d in Sub(j.f, {j.r}))
  {
    ItemIn(j.f, Pos(j.f, j.r));
    assert j.h == j.g ==> j.r != j.h;
    if j.h != j.g {
      ApartFrom(j.e0, j.r, j.d, j.g);
      ApartFrom(j.f, j.r, j.d, j.h);
    }
  }

  lemma ApartFrom(f: Forest, r: Linkage, d: Linkage, h: Linkage)
    requires Wf(h, f) && (r !in {h} + Nodes(f) || d !in {h} + Nodes(f)) && r != d
    ensures d !in Sub(f, {r})
  {
    if d in Sub(f, {r}) {
      SubStarts(h, f, r, d);
      ItemIn(f, Pos(f, d));
      RootIn(h, f, r, d);
      assert false;
    }
  }

  /** Only an item of the tree has anything below it. */
  lemma {:induction false} RootIn(h: Linkage, f: Forest, r: Linkage, x: Linkage)
    requires Wf(h, f) && x != r && x in Sub(f, {r})
    ensures r in {h} + Nodes(f)
    decreases Pos(f, x)
  {
    SubStarts(h, f, r, x);
    var k := Pos(f, x);
    SubStep(h, f, r, k);
    assert ParentBefore(h, f, k);
    if f[k].parent != h { ItemIn(f, Pos(f, f[k].parent)); }
    if f[k].parent != r {
      if f[k].parent == h {
        HeaderOutside(h, f, r);
        assert false;
      }
      RootIn(h, f, r, f[k].parent);
    }
  }

  /** Prepare to copy: refused exactly when the destination is inside the sub-tree. */
  method InitCopySubTree(subTree: Linkage, tree: Linkage, destSubTree: Linkage, destTree: Linkage, ghost j: Job)
      returns (copier: Copier?)
    requires j.h == tree && j.r == subTree && j.g == destTree && j.d == destSubTree
    requires Sited(j) && Shows(tree, j.f) && Shows(destTree, j.e0)
    ensures copier == null <==> destSubTree in Sub(j.f, {subTree})
    ensures copier != null ==> fresh(copier) && Fit(j) && copier.Copying(j, [])
    ensures Shows(tree, j.f) && Shows(destTree, j.e0)
  {
    SeenFrom(j);
    ShowsParents(destTree, j.e0);
    hide Wf, Sub, Source, Sound, Unchanged, Dest, Src;
    var inside := IsInSubTree(subTree, destSubTree, destTree, j.e0);
    if inside != null { return null; }
    copier := new Copier(subTree, tree, destSubTree, j);
  }

  lemma NothingCopied(j: Job)
    requires Sited(j)
    ensures Dest(j, []) == j.e0 && Src(j, []) == j.f
  {
  }

  /** Copying to exhaustion, into any tree and under any item of it, or elsewhere in the same
      tree, gives an isomorphic sub-tree with a fresh item for each original in the same
      order. The original sub-tree stays as it was, and so does whatever the destination
      held. Into the sub-tree itself nothing is copied. */
  method CopySubTree(subTree: Linkage, tree: Linkage, destSubTree: Linkage, destTree: Linkage, ghost j: Job)
      returns (ok: bool, ghost e: Forest)
    requires j.h == tree && j.r == subTree && j.g == destTree && j.d == destSubTree
    requires Sited(j) && Shows(tree, j.f) && Shows(destTree, j.e0)
    modifies destTree, Nodes(j.e0)
    ensures ok <==> destSubTree !in Sub(j.f, {subTree})
    ensures ok ==> |e| == |Source(j.f, subTree)| && Copied(j.f, subTree, destSubTree, e) && fresh(Nodes(e))
    ensures !ok ==> e == []
    ensures Shows(destTree, Dest(j, e)) && Shows(tree, Src(j, e))
    ensures Source(Src(j, e), subTree) == Source(j.f, subTree)
  {
    hide Wf, Copied, Source, Sound, Fit, Sited, Unchanged, Slot, Pos, Sub;
    e := [];
    NothingCopied(j);
    var copier := InitCopySubTree(subTree, tree, destSubTree, destTree, j);
    if copier == null { return false, []; }
    ok := true;
    var current: Linkage? := copier.sourceCurrent;
    OldNodes(j, e);
    while current != null
      invariant copier.Copying(j, e) && current == copier.sourceCurrent
      invariant fresh(copier) && fresh(Nodes(e)) && |e| <= |Source(j.f, subTree)|
      decreases |Source(j.f, subTree)| - |e|
    {
      var looseItem := new Linkage();
      ghost var before := e;
      OldNodes(j, e);
      current, e := copier.CopyNext(looseItem, j, e);
      assert e == before + [e[|before|]];
      NodesMore(before, e[|before|]);
    }
    Parts(j, e);
  }

  lemma NodesMore(e: Forest, c: Cell<Linkage>)
    ensures Nodes(e + [c]) == Nodes(e) + {c.item}
  {
    var d := e + [c];
    assert d[|e|] == c;
    assert forall i :: 0 <= i < |e| ==> d[i] == e[i];
  }

  /** The k-th copy is a child of the i-th exactly when the k-th original is of the i-th. */
  lemma CopyIsomorphic(j: Job, e: Forest, i: nat, k: nat)
    requires Sound(j, e) && |e| == |Source(j.f, j.r)| && i < |e| && k < |e|
    ensures Pos(j.f, Source(j.f, j.r)[k]) < |j.f|
    ensures e[k].parent == e[i].item <==> ParentOf(j.f, Source(j.f, j.r)[k]) == Source(j.f, j.r)[i]
  {
    var w := Source(j.f, j.r);
    Parts(j, e);
    SourceItem(j.h, j.f, j.r, k);
    SourceItem(j.h, j.f, j.r, 0);
    assert CopiedAt(j.f, j.r, j.d, e, k);
    hide Wf, Sound, Unchanged, Sub, Walk, Source, Pos, Copied;
    if k == 0 {
      NotCopied(j, e, i, j.d);
      RootOutside(j.h, j.f, j.r, i);
    } else {
      var m := IndexOf(w, ParentOf(j.f, w[k]));
      CopiesDiffer(j, e, m, i);
      WalkExact(j.h, j.f, j.r, m, i);
      WalkExact(j.h, j.f, j.r, i, m);
    }
  }

  lemma RootOutside(h: Linkage, f: Forest, r: Linkage, i: nat)
    requires Wf(h, f) && Pos(f, r) < |f| && i < |Source(f, r)|
    ensures ParentOf(f, r) != Source(f, r)[i]
  {
    SourceItem(h, f, r, i);
    assert ParentBefore(h, f, Pos(f, r));
    HeaderOutside(h, f, r);
    if ParentOf(f, r) == Source(f, r)[i] { SubStarts(h, f, r, ParentOf(f, r)); }
  }
}
