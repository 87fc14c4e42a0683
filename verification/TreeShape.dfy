/** Threaded trees as values: a forest is the list its `next` pointers thread, each item
    with its parent. The header `h` stands for the tree object. */
module TreeShape {
  import opened Sequences

  datatype Cell<T> = Cell(item: T, parent: T)

  /** Position of item `x`, or the length of the list. */
  function Pos<T(==)>(f: seq<Cell<T>>, x: T): (k: nat)
    ensures k <= |f|
    ensures k < |f| ==> f[k].item == x
    ensures forall j :: 0 <= j < k ==> f[j].item != x
  {
    if f == [] || f[0].item == x then 0 else
      var k := 1 + Pos(f[1..], x);
      assert forall j :: 1 <= j < k ==> f[j] == f[1..][j - 1];
      k
  }

  predicate ParentBefore<T(==)>(h: T, f: seq<Cell<T>>, i: nat)
    requires i < |f|
  {
    f[i].parent == h || Pos(f, f[i].parent) < i
  }

  predicate Grouped<T(==)>(f: seq<Cell<T>>) {
    forall i, j, k :: 0 <= i < j < k < |f| && f[i].parent == f[k].parent ==> f[j].parent == f[k].parent
  }

  /** Each item once, parents before children, siblings together. */
  predicate Wf<T(==)>(h: T, f: seq<Cell<T>>) {
    && (forall i :: 0 <= i < |f| ==> f[i].item != h)
    && (forall i, j :: 0 <= i < j < |f| ==> f[i].item != f[j].item)
    && (forall i: nat :: i < |f| ==> ParentBefore(h, f, i))
    && Grouped(f)
  }

  lemma PosIs<T>(f: seq<Cell<T>>, i: nat)
    requires i < |f| && forall j :: 0 <= j < i ==> f[j].item != f[i].item
    ensures Pos(f, f[i].item) == i
  {
  }

  lemma Place<T>(h: T, f: seq<Cell<T>>, i: nat)
    requires Wf(h, f) && i < |f|
    ensures Pos(f, f[i].item) == i && f[i].item != h
  {
    PosIs(f, i);
  }

  // ---- sub-trees ----

  /** Everything in `s` or below it, in one pass over the list. */
  function Sub<T(==)>(f: seq<Cell<T>>, s: set<T>): (r: set<T>) {
    if f == [] then s else Sub(f[1..], if f[0].parent in s then s + {f[0].item} else s)
  }

  lemma {:induction false} SubWithin<T>(f: seq<Cell<T>>, s: set<T>)
    ensures s <= Sub(f, s)
    ensures forall x :: x in Sub(f, s) && x !in s ==> Pos(f, x) < |f|
  {
    if f != [] {
      var s' := if f[0].parent in s then s + {f[0].item} else s;
      SubWithin(f[1..], s');
      forall x | x in Sub(f, s) && x !in s ensures Pos(f, x) < |f| {
        if x != f[0].item { assert Pos(f[1..], x) < |f[1..]|; }
      }
    }
  }

  lemma {:induction false} SubAppend<T>(a: seq<Cell<T>>, b: seq<Cell<T>>, s: set<T>)
    ensures Sub(a + b, s) == Sub(b, Sub(a, s))
  {
    if a == [] {
      assert a + b == b;
    } else {
      assert (a + b)[1..] == a[1..] + b;
      SubAppend(a[1..], b, if a[0].parent in s then s + {a[0].item} else s);
    }
  }

  lemma {:induction false} PosPrefix<T>(f: seq<Cell<T>>, i: nat, x: T)
    requires i <= |f|
    ensures Pos(f[..i], x) == if Pos(f, x) < i then Pos(f, x) else i
  {
    if i > 0 && f[0].item != x {
      PosPrefix(f[1..], i - 1, x);
      assert f[..i][1..] == f[1..][..i - 1];
    }
  }

  lemma {:induction false} PosNone<T>(f: seq<Cell<T>>, x: T)
    requires forall k :: 0 <= k < |f| ==> f[k].item != x
    ensures Pos(f, x) == |f|
  {
  }

  /** What stands at or after `i` does not come under `r` by way of the cells before it. */
  lemma SubCut<T>(f: seq<Cell<T>>, i: nat, r: T, x: T)
    requires i <= |f| && x != r && Pos(f, x) >= i
    ensures x !in Sub(f[..i], {r})
  {
    SubWithin(f[..i], {r});
    PosPrefix(f, i, x);
  }

  lemma SubLater<T>(h: T, f: seq<Cell<T>>, i: nat, r: T, x: T)
    requires i <= |f| && (forall a, b :: 0 <= a < b < |f| ==> f[a].item != f[b].item)
    requires x == r || Pos(f, x) < i || Pos(f, x) == |f|
    ensures x in Sub(f, {r}) <==> x in Sub(f[..i], {r})
  {
    assert f == f[..i] + f[i..];
    SubAppend(f[..i], f[i..], {r});
    SubWithin(f[..i], {r});
    SubWithin(f[i..], Sub(f[..i], {r}));
    if x != r {
      assert forall k :: i <= k < |f| ==> f[k].item != x by {
        assert Pos(f, x) < |f| ==> f[Pos(f, x)].item == x;
      }
      PosNone(f[i..], x);
    }
  }

  /** An item other than the root is in the sub-tree exactly when its parent is: so the
      sub-tree is what ancestry says it is. */
  lemma SubStep<T>(h: T, f: seq<Cell<T>>, r: T, i: nat)
    requires Wf(h, f) && i < |f| && f[i].item != r
    ensures f[i].item in Sub(f, {r}) <==> f[i].parent in Sub(f, {r})
  {
    PosIs(f, i);
    ItemEnters(f, i, r);
    SubLater(h, f, i + 1, r, f[i].item);
    assert ParentBefore(h, f, i);
    Header(h, f);
    hide Sub, Grouped;
    SubLater(h, f, i, r, f[i].parent);
  }

  /** Item `i` enters the sub-tree when it is reached, if its parent is already in. */
  lemma ItemEnters<T>(f: seq<Cell<T>>, i: nat, r: T)
    requires i < |f| && f[i].item != r && Pos(f, f[i].item) == i
    ensures f[i].item in Sub(f[..i + 1], {r}) <==> f[i].parent in Sub(f[..i], {r})
  {
    assert f[..i + 1] == f[..i] + [f[i]];
    SubAppend(f[..i], [f[i]], {r});
    SubOne(f[i], Sub(f[..i], {r}));
    SubCut(f, i, r, f[i].item);
  }

  lemma SubOne<T>(c: Cell<T>, s: set<T>)
    ensures Sub([c], s) == if c.parent in s then s + {c.item} else s
  {
  }

  lemma Header<T>(h: T, f: seq<Cell<T>>)
    requires Wf(h, f)
    ensures Pos(f, h) == |f|
  {
  }

  /** Nothing before the root of a sub-tree, and not the header, is in it. */
  lemma SubStarts<T>(h: T, f: seq<Cell<T>>, r: T, x: T)
    requires Wf(h, f) && x != r && x in Sub(f, {r})
    ensures Pos(f, x) < |f| && (Pos(f, r) < |f| ==> Pos(f, r) < Pos(f, x))
    decreases Pos(f, x)
  {
    SubWithin(f, {r});
    var i := Pos(f, x);
    SubStep(h, f, r, i);
    assert ParentBefore(h, f, i);
    Header(h, f);
    if f[i].parent != r { SubStarts(h, f, r, f[i].parent); }
  }

  lemma HeaderOutside<T>(h: T, f: seq<Cell<T>>, r: T)
    requires Wf(h, f) && r != h
    ensures h !in Sub(f, {r})
  {
    Header(h, f);
    SubWithin(f, {r});
  }

  // ---- the order of iteration ----

  /** The items of a set, in list order. */
  function Walk<T(==)>(f: seq<Cell<T>>, s: set<T>): (w: seq<T>)
    ensures |w| <= |f|
  {
    if f == [] then [] else (if f[0].item in s then [f[0].item] else []) + Walk(f[1..], s)
  }

  lemma {:induction false} WalkAppend<T>(a: seq<Cell<T>>, b: seq<Cell<T>>, s: set<T>)
    ensures Walk(a + b, s) == Walk(a, s) + Walk(b, s)
  {
    if a == [] {
      assert a + b == b;
    } else {
      assert (a + b)[1..] == a[1..] + b;
      WalkAppend(a[1..], b, s);
      Associate(if a[0].item in s then [a[0].item] else [], Walk(a[1..], s), Walk(b, s));
    }
  }

  /** Where item `i` comes in the walk. */
  function Rank<T(==)>(f: seq<Cell<T>>, s: set<T>, i: nat): (k: nat)
    requires i <= |f|
  {
    |Walk(f[..i], s)|
  }

  lemma RankOf<T>(f: seq<Cell<T>>, s: set<T>, i: nat)
    requires i < |f| && f[i].item in s
    ensures Rank(f, s, i) < |Walk(f, s)| && Walk(f, s)[Rank(f, s, i)] == f[i].item
    ensures Rank(f, s, i + 1) == Rank(f, s, i) + 1
  {
    assert f == f[..i] + ([f[i]] + f[i + 1..]);
    WalkAppend(f[..i], [f[i]] + f[i + 1..], s);
    assert f[..i + 1] == f[..i] + [f[i]];
    WalkAppend(f[..i], [f[i]], s);
    assert ([f[i]] + f[i + 1..])[1..] == f[i + 1..];
  }

  lemma {:induction false} RankMonotone<T>(f: seq<Cell<T>>, s: set<T>, i: nat, j: nat)
    requires i <= j <= |f|
    ensures Rank(f, s, i) <= Rank(f, s, j) <= |Walk(f, s)|
    ensures (forall m :: i <= m < j ==> f[m].item !in s) ==> Rank(f, s, i) == Rank(f, s, j)
  {
    assert f[..j] == f[..i] + f[i..j];
    WalkAppend(f[..i], f[i..j], s);
    assert f == f[..j] + f[j..];
    WalkAppend(f[..j], f[j..], s);
    if forall m :: i <= m < j ==> f[m].item !in s { WalkNone(f[i..j], s); }
  }

  lemma {:induction false} WalkNone<T>(f: seq<Cell<T>>, s: set<T>)
    requires forall m :: 0 <= m < |f| ==> f[m].item !in s
    ensures Walk(f, s) == []
  {
    if f != [] { WalkNone(f[1..], s); }
  }

  /** The walk in its own right: position `k` holds some item of the set. */
  lemma {:induction false} WalkAt<T>(f: seq<Cell<T>>, s: set<T>, k: nat) returns (i: nat)
    requires k < |Walk(f, s)|
    ensures i < |f| && f[i].item in s && f[i].item == Walk(f, s)[k] && Rank(f, s, i) == k
  {
    if f[0].item in s && k == 0 {
      i := 0;
    } else {
      var j := WalkAt(f[1..], s, if f[0].item in s then k - 1 else k);
      i := j + 1;
      assert f[..i][1..] == f[1..][..j];
    }
  }

  /** A walk over a sub-tree holds each of its items exactly once, in list order, and
      starts with its root. */
  lemma WalkExact<T>(h: T, f: seq<Cell<T>>, r: T, i: nat, j: nat)
    requires Wf(h, f) && Pos(f, r) < |f|
    ensures var w := Walk(f, Sub(f, {r}));
      && w != [] && w[0] == r
      && (i < j < |w| ==> Pos(f, w[i]) < Pos(f, w[j]))
      && (i < |w| ==> w[i] in Sub(f, {r}))
    ensures forall x :: x in Sub(f, {r}) ==> x in Walk(f, Sub(f, {r}))
  {
    var s := Sub(f, {r});
    var w, p := Walk(f, s), Pos(f, r);
    SubWithin(f, {r});
    RankOf(f, s, p);
    forall m | 0 <= m < p ensures f[m].item !in s {
      if f[m].item in s { PosIs(f, m); SubStarts(h, f, r, f[m].item); }
    }
    RankMonotone(f, s, 0, p);
    if i < |w| {
      var a := WalkAt(f, s, i);
      if i < j < |w| {
        var b := WalkAt(f, s, j);
        if b <= a { RankMonotone(f, s, b, a); }
        PosIs(f, a);
        PosIs(f, b);
      }
    }
    forall x | x in s ensures x in w {
      if x != r { SubStarts(h, f, r, x); }
      RankOf(f, s, Pos(f, x));
    }
  }

  /** First position from `k` on that holds an item of the set. */
  function NextIn<T(==)>(f: seq<Cell<T>>, s: set<T>, k: nat): (j: nat)
    requires k <= |f|
    ensures k <= j <= |f|
    ensures j < |f| ==> f[j].item in s
    ensures forall m :: k <= m < j ==> f[m].item !in s
    decreases |f| - k
  {
    if k == |f| || f[k].item in s then k else NextIn(f, s, k + 1)
  }

  /** The item after position `i` of the walk is the next one of the set in the list. */
  lemma NextInWalk<T>(f: seq<Cell<T>>, s: set<T>, i: nat)
    requires i < |f| && f[i].item in s
    ensures var j, k, w := NextIn(f, s, i + 1), Rank(f, s, i) + 1, Walk(f, s);
      if j < |f| then k < |w| && w[k] == f[j].item && Rank(f, s, j) == k else k == |w|
  {
    var j := NextIn(f, s, i + 1);
    RankOf(f, s, i);
    RankMonotone(f, s, i + 1, j);
    if j < |f| { RankOf(f, s, j); } else { assert f[..j] == f; }
  }

  /** The first child of a root is the first of its descendants. */
  lemma FirstDescendant<T>(h: T, f: seq<Cell<T>>, r: T, x: T)
    requires Wf(h, f) && x != r && x in Sub(f, {r}) && Pos(f, r) < |f|
    ensures FirstAt(f, r) <= Pos(f, x) < |f|
    decreases Pos(f, x)
  {
    SubStarts(h, f, r, x);
    var i := Pos(f, x);
    SubStep(h, f, r, i);
    assert ParentBefore(h, f, i);
    HeaderOutside(h, f, r);
    if f[i].parent != r { FirstDescendant(h, f, r, f[i].parent); }
  }

  lemma FirstIsNext<T>(h: T, f: seq<Cell<T>>, r: T)
    requires Wf(h, f) && Pos(f, r) < |f|
    ensures FirstAt(f, r) == NextIn(f, Sub(f, {r}), Pos(f, r) + 1)
  {
    hide Sub, NextIn;
    var s, k := Sub(f, {r}), FirstAt(f, r);
    if k < |f| {
      assert ParentBefore(h, f, k);
      SubWithin(f, {r});
      Place(h, f, k);
      SubStep(h, f, r, k);
    }
    FirstAfter(h, f, r);
    hide Grouped, ParentBefore, FirstAt, Pos;
    forall m | Pos(f, r) < m < k ensures f[m].item !in s {
      Place(h, f, m);
      if f[m].item in s { FirstDescendant(h, f, r, f[m].item); }
    }
    NextInIs(f, s, Pos(f, r) + 1, k);
  }

  lemma FirstAfter<T>(h: T, f: seq<Cell<T>>, r: T)
    requires Wf(h, f) && Pos(f, r) < |f|
    ensures Pos(f, r) < FirstAt(f, r)
  {
    if FirstAt(f, r) < |f| { assert ParentBefore(h, f, FirstAt(f, r)); }
  }

  lemma NextInIs<T>(f: seq<Cell<T>>, s: set<T>, from: nat, k: nat)
    requires from <= k <= |f| && (k < |f| ==> f[k].item in s)
    requires forall m :: from <= m < k ==> f[m].item !in s
    ensures NextIn(f, s, from) == k
  {
  }

  // ---- taking items out ----

  /** What is left without the items of `s`, in the old order. */
  function Keep<T(==)>(f: seq<Cell<T>>, s: set<T>): (r: seq<Cell<T>>)
    ensures |r| <= |f|
  {
    if f == [] then [] else (if f[0].item in s then [] else [f[0]]) + Keep(f[1..], s)
  }

  lemma {:induction false} KeepAppend<T>(a: seq<Cell<T>>, b: seq<Cell<T>>, s: set<T>)
    ensures Keep(a + b, s) == Keep(a, s) + Keep(b, s)
  {
    if a == [] {
      assert a + b == b;
    } else {
      assert (a + b)[1..] == a[1..] + b;
      KeepAppend(a[1..], b, s);
      Associate(if a[0].item in s then [] else [a[0]], Keep(a[1..], s), Keep(b, s));
    }
  }

  /** Cell `i` of what is kept was at a later or the same place before; the order stays. */
  lemma {:induction false} KeepFrom<T>(f: seq<Cell<T>>, s: set<T>, i: nat) returns (m: nat)
    requires i < |Keep(f, s)|
    ensures m < |f| && f[m] == Keep(f, s)[i] && f[m].item !in s && |Keep(f[..m], s)| == i
  {
    if f[0].item !in s && i == 0 {
      m := 0;
    } else {
      var j := KeepFrom(f[1..], s, if f[0].item in s then i else i - 1);
      m := j + 1;
      assert f[..m][1..] == f[1..][..j];
    }
  }

  lemma KeepTo<T>(f: seq<Cell<T>>, s: set<T>, m: nat)
    requires m < |f| && f[m].item !in s
    ensures |Keep(f[..m], s)| < |Keep(f, s)| && Keep(f, s)[|Keep(f[..m], s)|] == f[m]
  {
    assert f == f[..m] + ([f[m]] + f[m + 1..]);
    KeepAppend(f[..m], [f[m]] + f[m + 1..], s);
    assert ([f[m]] + f[m + 1..])[1..] == f[m + 1..];
  }

  lemma KeepMonotone<T>(f: seq<Cell<T>>, s: set<T>, m: nat, n: nat)
    requires m < n <= |f|
    ensures |Keep(f[..m], s)| <= |Keep(f[..n], s)|
    ensures f[m].item !in s ==> |Keep(f[..m], s)| < |Keep(f[..n], s)|
  {
    assert f[..n] == f[..m] + ([f[m]] + f[m + 1..n]);
    KeepAppend(f[..m], [f[m]] + f[m + 1..n], s);
  }

  /** Taking out a set that is closed downwards leaves a tree. */
  lemma KeepWf<T>(h: T, f: seq<Cell<T>>, s: set<T>)
    requires Wf(h, f)
    requires forall i :: 0 <= i < |f| && f[i].parent in s ==> f[i].item in s
    ensures Wf(h, Keep(f, s))
  {
    var r := Keep(f, s);
    forall i | 0 <= i < |r| ensures r[i].item != h { var m := KeepFrom(f, s, i); }
    forall i, j | 0 <= i < j < |r| ensures r[i].item != r[j].item {
      var m := KeepFrom(f, s, i);
      var n := KeepFrom(f, s, j);
    }
    forall i: nat | i < |r| ensures ParentBefore(h, r, i) { KeepParent(h, f, s, i); }
    forall i, j, k | 0 <= i < j < k < |r| && r[i].parent == r[k].parent ensures r[j].parent == r[k].parent {
      KeepGroup(f, s, i, j, k);
    }
  }

  lemma KeepParent<T>(h: T, f: seq<Cell<T>>, s: set<T>, i: nat)
    requires Wf(h, f) && i < |Keep(f, s)|
    requires forall i :: 0 <= i < |f| && f[i].parent in s ==> f[i].item in s
    ensures ParentBefore(h, Keep(f, s), i)
  {
    var m := KeepFrom(f, s, i);
    assert ParentBefore(h, f, m);
    if f[m].parent != h {
      var p := Pos(f, f[m].parent);
      KeepTo(f, s, p);
      KeepMonotone(f, s, p, m);
    }
  }

  lemma KeepGroup<T>(f: seq<Cell<T>>, s: set<T>, i: nat, j: nat, k: nat)
    requires Grouped(f) && i < j < k < |Keep(f, s)| && Keep(f, s)[i].parent == Keep(f, s)[k].parent
    ensures Keep(f, s)[j].parent == Keep(f, s)[k].parent
  {
    var a := KeepFrom(f, s, i);
    var b := KeepFrom(f, s, j);
    var c := KeepFrom(f, s, k);
    if b <= a { if b < a { KeepMonotone(f, s, b, a); } }
    if c <= b { if c < b { KeepMonotone(f, s, c, b); } }
  }

  /** Taking one item out. */
  lemma KeepOne<T>(f: seq<Cell<T>>, x: T)
    requires forall i, j :: 0 <= i < j < |f| ==> f[i].item != f[j].item
    ensures Keep(f, {x}) == if Pos(f, x) < |f| then Cut(f, Pos(f, x)) else f
  {
    hide Keep;
    var k := Pos(f, x);
    if k == |f| {
      KeepAll(f, {x});
    } else {
      var b := f[k + 1..];
      forall i | 0 <= i < |b| ensures b[i].item != x { assert b[i] == f[k + 1 + i]; }
      SplitAt(f, k);
      KeepAround(f[..k], f[k], b, {x});
    }
  }

  lemma SplitAt<T>(s: seq<T>, k: nat)
    requires k < |s|
    ensures s == s[..k] + ([s[k]] + s[k + 1..])
  {
  }

  lemma KeepAround<T>(a: seq<Cell<T>>, c: Cell<T>, b: seq<Cell<T>>, s: set<T>)
    requires c.item in s && forall i :: 0 <= i < |a| ==> a[i].item !in s
    requires forall i :: 0 <= i < |b| ==> b[i].item !in s
    ensures Keep(a + ([c] + b), s) == a + b
  {
    KeepAppend(a, [c] + b, s);
    KeepAll(a, s);
    KeepAppend([c], b, s);
    KeepNothing(c, s);
    KeepAll(b, s);
    assert [] + b == b;
  }

  lemma KeepNothing<T>(c: Cell<T>, s: set<T>)
    requires c.item in s
    ensures Keep([c], s) == []
  {
  }

  lemma {:induction false} KeepNone<T>(f: seq<Cell<T>>)
    ensures Keep(f, {}) == f
  {
    if f != [] { KeepNone(f[1..]); }
  }

  lemma {:induction false} KeepAll<T>(f: seq<Cell<T>>, s: set<T>)
    requires forall i :: 0 <= i < |f| ==> f[i].item !in s
    ensures Keep(f, s) == f
  {
    if f != [] { KeepAll(f[1..], s); }
  }

  lemma PrefixStep<T>(f: seq<Cell<T>>, s: set<T>, n: nat)
    requires n < |f|
    ensures Keep(f[..n + 1], s) == Keep(f[..n], s) + if f[n].item in s then [] else [f[n]]
    ensures Walk(f[..n + 1], s) == Walk(f[..n], s) + if f[n].item in s then [f[n].item] else []
  {
    assert f[..n + 1] == f[..n] + [f[n]];
    KeepAppend(f[..n], [f[n]], s);
    WalkAppend(f[..n], [f[n]], s);
  }

  /** What is kept of the first `n` cells are cells from among them. */
  lemma KeptBelow<T>(h: T, f: seq<Cell<T>>, s: set<T>, n: nat, i: nat, j: nat)
    requires Wf(h, f) && n <= |f| && i <= j < |Keep(f[..n], s)|
    ensures Pos(f, Keep(f[..n], s)[j].item) < n
    ensures i < j ==> Keep(f[..n], s)[i].item != Keep(f[..n], s)[j].item
  {
    var m := KeepFrom(f[..n], s, i);
    var o := KeepFrom(f[..n], s, j);
    Place(h, f, o);
  }

  lemma {:induction false} KeepTwice<T>(f: seq<Cell<T>>, s: set<T>, t: set<T>)
    ensures Keep(Keep(f, s), t) == Keep(f, s + t)
  {
    if f != [] {
      KeepTwice(f[1..], s, t);
      KeepAppend(if f[0].item in s then [] else [f[0]], Keep(f[1..], s), t);
    }
  }

  /** Taking a leaf out takes it out of the sub-trees it was in, and changes no other. */
  lemma {:induction false} SubKeepLeaf<T>(f: seq<Cell<T>>, s: set<T>, x: T)
    requires forall i :: 0 <= i < |f| ==> f[i].parent != x
    ensures Sub(Keep(f, {x}), s - {x}) == Sub(f, s) - {x}
  {
    if f != [] {
      var s' := if f[0].parent in s then s + {f[0].item} else s;
      SubKeepLeaf(f[1..], s', x);
      if f[0].item == x {
        assert s' - {x} == s - {x} && Keep(f, {x}) == Keep(f[1..], {x});
      } else {
        assert Keep(f, {x})[1..] == Keep(f[1..], {x});
        assert s' - {x} == if f[0].parent in s - {x} then s - {x} + {f[0].item} else s - {x};
      }
    }
  }

  lemma KeepClosed<T>(h: T, f: seq<Cell<T>>, r: T)
    requires Wf(h, f) && Pos(f, r) < |f|
    ensures Wf(h, Keep(f, Sub(f, {r})))
    ensures forall i :: 0 <= i < Pos(f, r) ==> f[i].item !in Sub(f, {r})
  {
    forall i | 0 <= i < |f| && f[i].parent in Sub(f, {r}) ensures f[i].item in Sub(f, {r}) {
      SubWithin(f, {r});
      if f[i].item != r { SubStep(h, f, r, i); }
    }
    KeepWf(h, f, Sub(f, {r}));
    forall i | 0 <= i < Pos(f, r) ensures f[i].item !in Sub(f, {r}) {
      PosIs(f, i);
      if f[i].item in Sub(f, {r}) { SubStarts(h, f, r, f[i].item); }
    }
  }

  // ---- putting items in ----

  /** First item with parent `p`, or the length of the list. */
  function FirstAt<T(==)>(f: seq<Cell<T>>, p: T): (k: nat)
    ensures k <= |f|
    ensures k < |f| ==> f[k].parent == p
    ensures forall j :: 0 <= j < k ==> f[j].parent != p
  {
    if f == [] || f[0].parent == p then 0 else
      var k := 1 + FirstAt(f[1..], p);
      assert forall j :: 1 <= j < k ==> f[j] == f[1..][j - 1];
      k
  }

  /** End of the run of siblings that starts at `i`. */
  function RunEnd<T(==)>(f: seq<Cell<T>>, i: nat): (k: nat)
    requires i < |f|
    ensures i < k <= |f|
    ensures forall j :: i <= j < k ==> f[j].parent == f[i].parent
    ensures k < |f| ==> f[k].parent != f[i].parent
    decreases |f| - i
  {
    if i + 1 < |f| && f[i + 1].parent == f[i].parent then RunEnd(f, i + 1) else i + 1
  }

  /** A new child goes after its last sibling, or at the end of the list. */
  function Slot<T(==)>(f: seq<Cell<T>>, p: T): (k: nat)
    ensures k <= |f|
  {
    var i := FirstAt(f, p);
    if i == |f| then |f| else RunEnd(f, i)
  }

  function Added<T(==)>(f: seq<Cell<T>>, p: T, x: T): (r: seq<Cell<T>>)
    ensures |r| == |f| + 1
  {
    Splice(f, Slot(f, p), Cell(x, p))
  }

  /** Any sibling leads to the slot. */
  lemma SlotIs<T>(f: seq<Cell<T>>, i: nat)
    requires Grouped(f) && i < |f|
    ensures RunEnd(f, i) == Slot(f, f[i].parent)
  {
    var a, k, e := FirstAt(f, f[i].parent), RunEnd(f, i), RunEnd(f, FirstAt(f, f[i].parent));
    assert e == |f| || f[e].parent != f[i].parent;
    assert k == |f| || f[k].parent != f[i].parent;
  }

  /** No item of the family stands at the slot or after it. */
  lemma SlotEnds<T>(f: seq<Cell<T>>, p: T)
    requires Grouped(f)
    ensures forall i :: Slot(f, p) <= i < |f| ==> f[i].parent != p
    ensures Slot(f, p) < |f| ==> Slot(f, p) > 0 && f[Slot(f, p) - 1].parent == p
  {
    forall i | Slot(f, p) <= i < |f| ensures f[i].parent != p {
      if f[i].parent == p { SlotIs(f, i); }
    }
  }

  lemma AddedWf<T>(h: T, f: seq<Cell<T>>, p: T, x: T)
    requires Wf(h, f) && x != h && Pos(f, x) == |f| && (p == h || Pos(f, p) < |f|)
    ensures Wf(h, Added(f, p, x))
  {
    var r := Added(f, p, x);
    AddedItems(h, f, p, x);
    forall i: nat | i < |r| ensures ParentBefore(h, r, i) { AddedParent(h, f, p, x, i); }
    forall i, j, k | 0 <= i < j < k < |r| && r[i].parent == r[k].parent ensures r[j].parent == r[k].parent {
      AddedGroup(f, p, x, i, j, k);
    }
  }

  lemma AddedItems<T>(h: T, f: seq<Cell<T>>, p: T, x: T)
    requires Wf(h, f) && x != h && Pos(f, x) == |f|
    ensures var r := Added(f, p, x);
      (forall i :: 0 <= i < |r| ==> r[i].item != h) && forall i, j :: 0 <= i < j < |r| ==> r[i].item != r[j].item
  {
    hide Grouped, ParentBefore;
    AddedCells(f, p, x);
    hide Added, Slot;
    var q, r := Slot(f, p), Added(f, p, x);
    forall i | 0 <= i < |r| ensures r[i].item != h { assert i != q ==> r[i] == f[if i < q then i else i - 1]; }
    forall i, j | 0 <= i < j < |r| ensures r[i].item != r[j].item {
      assert i != q ==> r[i] == f[if i < q then i else i - 1];
      assert j != q ==> r[j] == f[if j < q then j else j - 1];
    }
  }

  lemma PosAtMost<T>(f: seq<Cell<T>>, k: nat, x: T)
    requires k < |f| && f[k].item == x
    ensures Pos(f, x) <= k
  {
  }

  /** A parent in the list comes before the slot for its children. */
  lemma SlotAfter<T>(h: T, f: seq<Cell<T>>, p: T)
    requires Wf(h, f) && p != h && Pos(f, p) < |f|
    ensures Pos(f, p) < Slot(f, p)
  {
    var i := FirstAt(f, p);
    if i < |f| { assert ParentBefore(h, f, i); }
  }

  lemma AddedParent<T>(h: T, f: seq<Cell<T>>, p: T, x: T, i: nat)
    requires Wf(h, f) && x != h && Pos(f, x) == |f| && (p == h || Pos(f, p) < |f|) && i <= |f|
    ensures ParentBefore(h, Added(f, p, x), i)
  {
    var q, m := Slot(f, p), if i < Slot(f, p) then i else i - 1;
    AddedCells(f, p, x);
    if i != q {
      assert ParentBefore(h, f, m);
      if f[m].parent != h { Moved(f, Added(f, p, x), q, f[m].parent); }
    } else if p != h {
      SlotAfter(h, f, p);
      Moved(f, Added(f, p, x), q, p);
    }
  }

  /** Putting one item in at `q` moves another by at most one place. */
  lemma Moved<T>(f: seq<Cell<T>>, r: seq<Cell<T>>, q: nat, y: T)
    requires Pos(f, y) < |f| && |r| == |f| + 1 && q <= |f|
    requires forall i :: 0 <= i < q ==> r[i] == f[i]
    requires forall i :: q < i < |r| ==> r[i] == f[i - 1]
    ensures Pos(r, y) <= if Pos(f, y) < q then Pos(f, y) else Pos(f, y) + 1
  {
    var n := Pos(f, y);
    PosAtMost(r, if n < q then n else n + 1, y);
  }

  lemma AddedGroup<T>(f: seq<Cell<T>>, p: T, x: T, i: nat, j: nat, k: nat)
    requires Grouped(f) && i < j < k <= |f| && Added(f, p, x)[i].parent == Added(f, p, x)[k].parent
    ensures Added(f, p, x)[j].parent == Added(f, p, x)[k].parent
  {
    var q, r := Slot(f, p), Added(f, p, x);
    SlotEnds(f, p);
    AddedCells(f, p, x);
  }

  lemma AddedCells<T>(f: seq<Cell<T>>, p: T, x: T)
    ensures var q, r := Slot(f, p), Added(f, p, x);
      && r[q] == Cell(x, p)
      && (forall i :: 0 <= i < q ==> r[i] == f[i])
      && (forall i :: q < i < |r| ==> r[i] == f[i - 1])
  {
    SpliceFacts(f, Slot(f, p), Cell(x, p));
  }
}
