/** Singly linked lists with a tail word, under mailboxes and pools. The header's `first`
    and an item's link to the next are the same word of the same structure. */
module Lists {
  import opened Sequences

  class Cell {
    var first: Cell?
    var last: Cell?

    constructor ()
    {
    }
  }

  ghost function Nodes(s: seq<Cell>): (r: set<Cell>) { set i | 0 <= i < |s| :: s[i] }

  ghost function At(s: seq<Cell>, i: nat): (c: Cell?) { if i < |s| then s[i] else null }

  ghost predicate Leads(s: seq<Cell>, i: nat)
    requires i < |s|
    reads s[i]
  {
    s[i].first == At(s, i + 1)
  }

  /** The header leads to the items in turn, and its tail word to the last of them. What
      the tail word holds when there are none is left open. */
  ghost predicate Shows(h: Cell, s: seq<Cell>)
    reads h, Nodes(s)
  {
    && h !in Nodes(s) && (forall i, j :: 0 <= i < j < |s| ==> s[i] != s[j])
    && h.first == At(s, 0) && (s != [] ==> h.last == s[|s| - 1])
    && forall i: nat :: i < |s| ==> Leads(s, i)
  }

  method Init(list: Cell)
    modifies list
    ensures Shows(list, []) && list.last == null
  {
    list.first := null;
    list.last := null;
  }

  method Add(list: Cell, item: Cell, ghost s: seq<Cell>)
    requires Shows(list, s) && item !in Nodes(s) + {list}
    modifies list, item, Nodes(s)
    ensures Shows(list, s + [item])
  {
    ghost var t := s + [item];
    forall i: nat | i < |s| ensures Leads(s, i) {}
    if list.first == null {
      list.first := item;
      list.last := item;
    } else {
      list.last.first := item;
      list.last := item;
    }
    item.first := null;
    forall i: nat | i < |t| ensures Leads(t, i) { assert i < |s| ==> old(Leads(s, i)); }
  }

  method AddHead(list: Cell, item: Cell, ghost s: seq<Cell>)
    requires Shows(list, s) && item !in Nodes(s) + {list}
    modifies list, item
    ensures Shows(list, [item] + s)
  {
    ghost var t := [item] + s;
    if list.first == null {
      list.first := item;
      list.last := item;
      item.first := null;
    } else {
      item.first := list.first;
      list.first := item;
    }
    forall i: nat | i < |t| ensures Leads(t, i) { assert i > 0 ==> old(Leads(s, i - 1)); }
  }

  method RemoveHead(list: Cell, ghost s: seq<Cell>) returns (current: Cell?)
    requires Shows(list, s)
    modifies list
    ensures current == At(s, 0)
    ensures Shows(list, if s == [] then s else s[1..])
    ensures |s| == 1 ==> list.last == null
  {
    current := list.first;
    if current != null {
      assert Leads(s, 0);
      list.first := current.first;
      if list.first == null { list.last := null; }
      ghost var t := s[1..];
      forall i: nat | i < |t| ensures Leads(t, i) { assert old(Leads(s, i + 1)); }
    }
  }

  ghost function Removed(s: seq<Cell>, x: Cell): (t: seq<Cell>) {
    var k := IndexOf(s, x);
    if k == |s| then s else Cut(s, k)
  }

  ghost function Before(list: Cell, s: seq<Cell>, k: nat): (c: Cell)
    requires k <= |s|
  {
    if k == 0 then list else s[k - 1]
  }

  /** Unlink the item after `current`. */
  method UnlinkAfter(list: Cell, current: Cell, item: Cell, ghost k: nat, ghost s: seq<Cell>)
    requires Shows(list, s) && k < |s| && s[k] == item && current == Before(list, s, k)
    modifies list, current
    ensures Shows(list, Cut(s, k))
    ensures list.last == if k == |s| - 1 then current else old(list.last)
  {
    assert Leads(s, k);
    ghost var t := Cut(s, k);
    current.first := item.first;
    if list.last == item { list.last := current; }
    forall i: nat | i < |t| ensures Leads(t, i) {
      assert i < k ==> old(Leads(s, i)) && t[i] == s[i];
      assert i >= k ==> old(Leads(s, i + 1)) && t[i] == s[i + 1];
    }
  }

  /** Unlink an item wherever it stands. When it was the only one the tail word is left
      pointing at the header itself. */
  method Remove(list: Cell, item: Cell, ghost s: seq<Cell>)
    requires Shows(list, s)
    modifies list, Nodes(s)
    ensures Shows(list, Removed(s, item))
    ensures s != [] ==> (list.last == list <==> s == [item])
  {
    var current := list;
    ghost var k: nat := 0;
    while current.first != null
      invariant k <= |s| && k <= IndexOf(s, item) && Shows(list, s) && list.last == old(list.last)
      invariant current == Before(list, s, k) && current.first == At(s, k)
      decreases |s| - k
    {
      if current.first == item {
        UnlinkAfter(list, current, item, k, s);
        return;
      }
      assert Leads(s, k);
      current := current.first;
      k := k + 1;
    }
  }

  method Last(list: Cell, ghost s: seq<Cell>) returns (x: Cell?)
    requires Shows(list, s)
    ensures s != [] ==> x == s[|s| - 1]
    ensures x == list.last
  {
    x := list.last;
  }

  /** So asking an empty list for its last item answers null after RemoveHead emptied it,
      and the header after Remove did. */
  method LastOfEmpty(list: Cell, item: Cell, byHead: bool) returns (x: Cell?)
    requires Shows(list, [item])
    modifies list, item
    ensures Shows(list, [])
    ensures x == null <==> byHead
  {
    if byHead {
      var _ := RemoveHead(list, [item]);
      x := Last(list, []);
    } else {
      Remove(list, item, [item]);
      assert Removed([item], item) == [];
      x := Last(list, []);
    }
  }
}
