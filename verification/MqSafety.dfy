/** Every step of host or guest keeps the invariant of the message queue, so
    every interleaving of any length does. */
module MqSafety {
  import opened MqMemory
  import opened Sequences
  import opened MqProtocol

  lemma OwnedOnce(s: State, x: Word16)
    requires Partitioned(s)
    ensures Owned(s)[x] == if x < |s.m.desc| then 1 else 0
  {
  }

  /** Nothing checks for a full ring: the descriptors bound the entries. */
  lemma Occupancy(s: State)
    requires Inv(s)
    ensures |Avail(s)| + |HostHand(s.host)| <= |s.m.desc|
    ensures |Used(s)| + |GuestHand(s.guest)| <= |s.m.desc|
  {
    CellsOfCount(s.m.desc, Avail(s));
    CellsOfCount(s.m.desc, Used(s));
    assert |Owned(s)| == |s.m.desc|;
  }

  lemma ReadySafe(s: State, a: Step)
    requires Inv(s) && Ready(s, a)
    ensures Safe(s, a)
  {
    hide Partitioned, InOrder;
    if s.free != [] { assert FreeAt(s.m.desc, s.free, 0); }
    match a
    case Reap => ReadUsed(s);
    case Take => ReadAvail(s);
    case Return(k, _) => assert ChainOk(s.m.desc, s.held[k]);
    case _ =>
  }

  /** A write to a descriptor that no entry, token or used element names. */
  lemma WriteKeepsEntries(s: State, i: Word16, d: Desc)
    requires LinksOk(s) && i < |s.m.desc|
    requires CellsOf(Avail(s))[i] == 0 && CellsOf(s.held)[i] == 0 && CellsOf(Used(s))[i] == 0
    requires i !in GuestHand(s.guest)
    ensures ChainsOk(WriteDesc(s.m.desc, i, d), Avail(s))
    ensures ChainsOk(WriteDesc(s.m.desc, i, d), s.held)
    ensures ChainsOk(WriteDesc(s.m.desc, i, d), Used(s))
    ensures s.guest.GSlotted? ==> ChainOk(WriteDesc(s.m.desc, i, d), s.guest.c)
  {
    ChainsFrame(s.m.desc, i, d, Avail(s));
    ChainsFrame(s.m.desc, i, d, s.held);
    ChainsFrame(s.m.desc, i, d, Used(s));
    if s.guest.GSlotted? { ChainFrame(s.m.desc, i, d, s.guest.c); }
  }

  lemma PopFree(desc: seq<Desc>, head: Word16, free: seq<Word16>)
    requires FreeList(desc, head, free) && free != [] && |desc| <= MAX_SIZE
    ensures head == free[0] < |desc| && FreeList(desc, desc[head].next, free[1..])
    ensures multiset(free) == multiset([free[0]]) + multiset(free[1..])
  {
    assert FreeAt(desc, free, 0);
    forall i | 0 <= i < |free[1..]| ensures FreeAt(desc, free[1..], i) {
      assert FreeAt(desc, free, i + 1);
    }
    assert free == [free[0]] + free[1..];
  }

  lemma BeginInv(s: State, msgs: seq<Buf>)
    requires Inv(s) && Ready(s, Begin(msgs)) && Safe(s, Begin(msgs))
    ensures Inv(DoBegin(s, msgs))
  {
    hide CellsOf, ChainsOk, AvailRing, UsedRing, GotOk, ReapedOk, AllCells, Bump, Slot, AvailAt, UsedAt, FreeList;
    PopFree(s.m.desc, s.m.freeDescs, s.free);
    var r := DoBegin(s, msgs);
  }

  lemma HandIsPrivate(s: State, i: Word16)
    requires Partitioned(s) && i in HostHand(s.host)
    ensures i < |s.m.desc| && i !in s.free && i !in GuestHand(s.guest)
    ensures multiset(HostHand(s.host))[i] == 1
    ensures CellsOf(Avail(s))[i] == 0 && CellsOf(s.held)[i] == 0 && CellsOf(Used(s))[i] == 0
  {
    OwnedOnce(s, i);
    assert multiset(HostHand(s.host))[i] > 0;
    assert i in s.free ==> multiset(s.free)[i] > 0;
    assert i in GuestHand(s.guest) ==> multiset(GuestHand(s.guest))[i] > 0;
  }

  /** In a sequence with one copy of its last element, no earlier one equals it. */
  lemma LastOnce(a: seq<Word16>)
    requires a != [] && multiset(a)[a[|a| - 1]] == 1
    ensures forall i :: 0 <= i < |a| - 1 ==> a[i] != a[|a| - 1]
  {
    var b, x := a[..|a| - 1], a[|a| - 1];
    assert a == b + [x];
    assert multiset(a) == multiset(b) + multiset{x};
    forall i | 0 <= i < |a| - 1 ensures a[i] != x {
      assert b[i] in multiset(b);
    }
  }

  lemma LinkPartition(s: State)
    requires Partitioned(s) && LinksOk(s) && Safe(s, Link)
    ensures Partitioned(DoLink(s))
  {
    hide CellsOf, ChainsOk;
    var r, cells, x := DoLink(s), s.host.cells, s.m.freeDescs;
    PopFree(s.m.desc, x, s.free);
    assert multiset(cells + [x]) == multiset(cells) + multiset([x]);
  }

  lemma LinkFree(s: State, last: Word16, d: Desc)
    requires LinksOk(s) && s.free != [] && last < |s.m.desc| <= MAX_SIZE && last !in s.free
    ensures s.m.freeDescs < |s.m.desc|
    ensures FreeList(WriteDesc(s.m.desc, last, d), s.m.desc[s.m.freeDescs].next, s.free[1..])
  {
    PopFree(s.m.desc, s.m.freeDescs, s.free);
    FreeFrame(s.m.desc, last, d, s.m.desc[s.m.freeDescs].next, s.free[1..]);
  }

  lemma LinkLinks(s: State)
    requires Partitioned(s) && LinksOk(s) && Safe(s, Link)
    ensures LinksOk(DoLink(s))
  {
    hide CellsOf, FreeList, ChainsOk, ChainOk;
    var HBuild(cells, bufs, rest) := s.host;
    var last, x := cells[|cells| - 1], s.m.freeDescs;
    var d := Unwritten(bufs[|bufs| - 1], s.m.desc[last]).(more := true, next := x);
    HandIsPrivate(s, last);
    LinkFree(s, last, d);
    WriteKeepsEntries(s, last, d);
    PartialLink(s.m.desc, cells, bufs, d, rest[0]);
  }

  /** Writing the last descriptor with a link completes it and starts the next one. */
  lemma PartialLink(desc: seq<Desc>, cells: seq<Word16>, bufs: seq<Buf>, d: Desc, b: Buf)
    requires PartialOk(desc, cells, bufs) && multiset(cells)[cells[|cells| - 1]] == 1
    requires Carries(d, bufs[|bufs| - 1]) && d.more && d.next < |desc|
    ensures PartialOk(WriteDesc(desc, cells[|cells| - 1], d), cells + [d.next], bufs + [b])
  {
    LastOnce(cells);
  }

  lemma LinkInv(s: State)
    requires Inv(s) && Ready(s, Link) && Safe(s, Link)
    ensures Inv(DoLink(s))
  {
    hide Partitioned, LinksOk, AvailRing, UsedRing, GotOk, ReapedOk;
    LinkPartition(s);
    LinkLinks(s);
  }

  lemma FinishLinks(s: State)
    requires Partitioned(s) && LinksOk(s) && Safe(s, Finish)
    ensures LinksOk(DoFinish(s))
  {
    hide CellsOf, ChainsOk, FreeList, PartialOk, Partitioned, Owned;
    var HBuild(cells, bufs, _) := s.host;
    var last := cells[|cells| - 1];
    var d := Unwritten(bufs[|bufs| - 1], s.m.desc[last]);
    HandIsPrivate(s, last);
    FreeFrame(s.m.desc, last, d, s.m.freeDescs, s.free);
    WriteKeepsEntries(s, last, d);
    PartialFinish(s.m.desc, cells, bufs, d);
  }

  lemma PartialFinish(desc: seq<Desc>, cells: seq<Word16>, bufs: seq<Buf>, d: Desc)
    requires PartialOk(desc, cells, bufs) && multiset(cells)[cells[|cells| - 1]] == 1
    requires Carries(d, bufs[|bufs| - 1]) && !d.more
    ensures ChainOk(WriteDesc(desc, cells[|cells| - 1], d), Chain(cells, bufs))
  {
    LastOnce(cells);
  }

  lemma FinishInv(s: State)
    requires Inv(s) && Ready(s, Finish) && Safe(s, Finish)
    ensures Inv(DoFinish(s))
  {
    hide CellsOf, LinksOk, AvailRing, UsedRing, GotOk, ReapedOk;
    FinishLinks(s);
  }

  lemma WriteSlotLinks(s: State)
    requires LinksOk(s) && s.host.HReady? && Safe(s, WriteSlot)
    ensures LinksOk(DoWriteSlot(s))
  {
  }

  lemma WriteSlotPartition(s: State)
    requires Partitioned(s) && Safe(s, WriteSlot)
    ensures Partitioned(DoWriteSlot(s))
  {
  }

  /** The slot written is not one that the guest has yet to read. */
  lemma WriteSlotInv(s: State)
    requires Inv(s) && Ready(s, WriteSlot) && Safe(s, WriteSlot)
    ensures Inv(DoWriteSlot(s))
    ensures forall j :: s.taken <= j < |s.published| ==> Slot(j, |s.m.desc|) != Slot(s.m.availIndex, |s.m.desc|)
  {
    hide Partitioned, LinksOk, AvailRing, UsedRing, GotOk, ReapedOk;
    var n, p := |s.m.desc|, |s.published|;
    WriteSlotLinks(s);
    WriteSlotPartition(s);
    AvailRoom(s);
    SlotOfCount(p, n);
    AvailRingWrite(s.m.availRing, s.published, s.taken, s.host.c.cells[0]);
  }

  /** While the host holds a finished chain, the available ring has room for it. */
  lemma AvailRoom(s: State)
    requires Inv(s) && s.host.HReady?
    ensures |Avail(s)| < |s.m.desc|
  {
    Occupancy(s);
  }

  lemma AvailRingWrite(ring: seq<Word16>, entries: seq<Chain>, done: nat, x: Word16)
    requires AvailRing(ring, entries, done) && done <= |entries| < done + |ring|
    ensures AvailRing(ring[Slot(|entries|, |ring|) := x], entries, done)
    ensures forall j :: done <= j < |entries| ==> Slot(j, |ring|) != Slot(|entries|, |ring|)
  {
    var k := Slot(|entries|, |ring|);
    forall j | done <= j < |entries|
      ensures Slot(j, |ring|) != k && AvailAt(ring[k := x], entries[j], j)
    {
      SlotApart(j, |entries|, |ring|);
      assert AvailAt(ring, entries[j], j);
    }
  }

  lemma UsedRingWrite(ring: seq<Elem>, entries: seq<Chain>, lengths: seq<nat>, done: nat, x: Elem)
    requires UsedRing(ring, entries, lengths, done) && done <= |entries| < done + |ring|
    ensures UsedRing(ring[Slot(|entries|, |ring|) := x], entries, lengths, done)
    ensures forall j :: done <= j < |entries| ==> Slot(j, |ring|) != Slot(|entries|, |ring|)
  {
    var k := Slot(|entries|, |ring|);
    forall j | done <= j < |entries|
      ensures Slot(j, |ring|) != k && UsedAt(ring[k := x], entries[j], lengths[j], j)
    {
      SlotApart(j, |entries|, |ring|);
      assert UsedAt(ring, entries[j], lengths[j], j);
    }
  }

  lemma AvailRingAppend(ring: seq<Word16>, entries: seq<Chain>, done: nat, c: Chain)
    requires AvailRing(ring, entries, done) && AvailAt(ring, c, |entries|)
    ensures AvailRing(ring, entries + [c], done)
  {
  }

  lemma UsedRingAppend(ring: seq<Elem>, entries: seq<Chain>, lengths: seq<nat>, done: nat, c: Chain, l: nat)
    requires UsedRing(ring, entries, lengths, done) && UsedAt(ring, c, l, |entries|)
    ensures UsedRing(ring, entries + [c], lengths + [l], done)
  {
  }

  lemma GotExtend(got: seq<Taken>, entries: seq<Chain>, c: Chain)
    requires GotOk(got, entries)
    ensures GotOk(got, entries + [c])
  {
  }

  lemma ReapedExtend(reaped: seq<Reaped>, entries: seq<Chain>, lengths: seq<nat>, c: Chain, l: nat)
    requires ReapedOk(reaped, entries, lengths)
    ensures ReapedOk(reaped, entries + [c], lengths + [l])
  {
  }

  lemma PublishPartition(s: State)
    requires Partitioned(s) && s.host.HSlotted? && Safe(s, Publish)
    ensures Partitioned(DoPublish(s))
  {
    hide CellsOf, AllCells, Bump;
    var r, c := DoPublish(s), s.host.c;
    assert Avail(r) == Avail(s) + [c];
    CellsOfAppend(Avail(s), c);
    assert Owned(r) == Owned(s);
  }

  lemma PublishLinks(s: State)
    requires LinksOk(s) && s.host.HSlotted? && Safe(s, Publish)
    ensures LinksOk(DoPublish(s))
  {
    assert Avail(DoPublish(s)) == Avail(s) + [s.host.c];
  }

  lemma PublishRings(s: State)
    requires RingsOk(s) && InOrder(s) && s.host.HSlotted? && Safe(s, Publish)
    ensures RingsOk(DoPublish(s)) && InOrder(DoPublish(s))
  {
    AvailRingAppend(s.m.availRing, s.published, s.taken, s.host.c);
    GotExtend(s.got, s.published, s.host.c);
  }

  lemma PublishInv(s: State)
    requires Inv(s) && Ready(s, Publish) && Safe(s, Publish)
    ensures Inv(DoPublish(s))
  {
    hide Partitioned, LinksOk, RingsOk, InOrder;
    PublishPartition(s);
    PublishLinks(s);
    PublishRings(s);
    WrapSucc(|s.published|);
  }

  /** What the host reads at lastUsed is the oldest entry it has not read. */
  lemma ReadUsed(s: State)
    requires Counted(s) && LinksOk(s) && RingsOk(s) && s.collected < |s.returned|
    ensures var c := s.returned[s.collected];
      && c.cells != [] && c.bufs != [] && ChainOk(s.m.desc, c)
      && s.m.usedRing[Slot(s.m.lastUsed, |s.m.desc|)] == Elem(c.cells[0], s.lengths[s.collected])
      && c.cells[0] < |s.m.desc| && Carries(s.m.desc[c.cells[0]], c.bufs[0])
  {
    var k := s.collected;
    SlotOfCount(k, |s.m.desc|);
    assert UsedAt(s.m.usedRing, s.returned[k], s.lengths[k], k);
    assert Used(s)[0] == s.returned[k];
  }

  lemma ReapPartition(s: State)
    requires Partitioned(s) && s.host.HSaw? && Safe(s, Reap)
    ensures Partitioned(DoReap(s))
  {
    hide CellsOf;
    CellsOfHead(s.returned, s.collected);
  }

  lemma CellsOfHead(cs: seq<Chain>, k: nat)
    requires k < |cs|
    ensures CellsOf(cs[k..]) == multiset(cs[k].cells) + CellsOf(cs[k + 1..])
  {
    assert cs[k..][0] == cs[k] && cs[k..][1..] == cs[k + 1..];
  }

  lemma ReapLinks(s: State)
    requires LinksOk(s) && s.host.HSaw? && Safe(s, Reap)
    requires s.returned[s.collected].cells != []
    requires s.m.usedRing[Slot(s.m.lastUsed, |s.m.desc|)].id == s.returned[s.collected].cells[0]
    ensures LinksOk(DoReap(s))
  {
    assert Used(s)[0] == s.returned[s.collected] && Used(s)[1..] == Used(DoReap(s));
  }

  lemma ReapInv(s: State)
    requires Inv(s) && Ready(s, Reap) && Safe(s, Reap)
    ensures Inv(DoReap(s))
  {
    hide Partitioned, LinksOk;
    ReadUsed(s);
    ReapPartition(s);
    ReapLinks(s);
    WrapSucc(s.collected);
  }

  /** Returning a chain keeps its links and threads its end onto the free list. */
  lemma FreeJoin(desc: seq<Desc>, cells: seq<Word16>, head: Word16, free: seq<Word16>, d: Desc)
    requires Delimited(desc, cells) && multiset(cells)[cells[|cells| - 1]] == 1
    requires cells[|cells| - 1] !in free && FreeList(desc, head, free) && d.next == head
    ensures FreeList(WriteDesc(desc, cells[|cells| - 1], d), cells[0], cells + free)
  {
    LastOnce(cells);
    var last, all := cells[|cells| - 1], cells + free;
    FreeFrame(desc, last, d, head, free);
    forall i | 0 <= i < |all| ensures FreeAt(WriteDesc(desc, last, d), all, i) {
      if i < |cells| - 1 {
        assert desc[cells[i]].next == cells[i + 1];
      } else if i >= |cells| {
        assert FreeAt(WriteDesc(desc, last, d), free, i - |cells|);
      }
    }
  }

  lemma FreePartition(s: State)
    requires Partitioned(s) && Safe(s, Free)
    ensures Partitioned(DoFree(s))
  {
    hide CellsOf, AllCells, Linked, Slot, Bump;
    var c, r := s.host.c, DoFree(s);
    assert multiset(c.cells + s.free) == multiset(c.cells) + multiset(s.free);
    assert |r.m.desc| == |s.m.desc| && Owned(r) == Owned(s);
  }

  lemma FreeLinks(s: State)
    requires Partitioned(s) && LinksOk(s) && Safe(s, Free)
    ensures LinksOk(DoFree(s))
  {
    hide CellsOf, ChainsOk, FreeList, Partitioned, Owned;
    var c := s.host.c;
    var last := c.cells[|c.cells| - 1];
    var d := s.m.desc[last].(next := s.m.freeDescs, more := true);
    HandIsPrivate(s, last);
    FreeJoin(s.m.desc, c.cells, s.m.freeDescs, s.free, d);
    WriteKeepsEntries(s, last, d);
  }

  lemma FreeInv(s: State)
    requires Inv(s) && Ready(s, Free) && Safe(s, Free)
    ensures Inv(DoFree(s))
  {
    hide Partitioned, LinksOk, AvailRing, UsedRing, GotOk, ReapedOk;
    FreePartition(s);
    FreeLinks(s);
  }

  /** What the guest reads at lastAvailable is the oldest entry it has not read. */
  lemma ReadAvail(s: State)
    requires Counted(s) && LinksOk(s) && RingsOk(s) && s.taken < |s.published|
    ensures var c := s.published[s.taken];
      && c.cells != [] && c.bufs != [] && ChainOk(s.m.desc, c)
      && s.m.availRing[Slot(s.m.lastAvailable, |s.m.desc|)] == c.cells[0]
      && c.cells[0] < |s.m.desc| && Carries(s.m.desc[c.cells[0]], c.bufs[0])
  {
    var k := s.taken;
    SlotOfCount(k, |s.m.desc|);
    assert AvailAt(s.m.availRing, s.published[k], k);
    assert Avail(s)[0] == s.published[k];
  }

  lemma TakePartition(s: State)
    requires Partitioned(s) && s.guest.GSaw? && Safe(s, Take)
    ensures Partitioned(DoTake(s))
  {
    hide CellsOf;
    CellsOfHead(s.published, s.taken);
    CellsOfAppend(s.held, s.published[s.taken]);
  }

  lemma TakeLinks(s: State)
    requires LinksOk(s) && s.guest.GSaw? && Safe(s, Take)
    ensures LinksOk(DoTake(s))
  {
    assert Avail(s)[0] == s.published[s.taken] && Avail(s)[1..] == Avail(DoTake(s));
  }

  lemma TakeInv(s: State)
    requires Inv(s) && Ready(s, Take) && Safe(s, Take)
    ensures Inv(DoTake(s))
  {
    hide Partitioned, LinksOk;
    ReadAvail(s);
    TakePartition(s);
    TakeLinks(s);
    WrapSucc(s.taken);
  }

  /** The used slot written is not one that the host has yet to read. */
  lemma ReturnInv(s: State, k: nat, length: nat)
    requires Inv(s) && Ready(s, Return(k, length)) && Safe(s, Return(k, length))
    ensures Inv(DoReturn(s, k, length))
    ensures forall j :: s.collected <= j < |s.returned| ==> Slot(j, |s.m.desc|) != Slot(s.m.usedIndex, |s.m.desc|)
  {
    hide Partitioned, LinksOk, AvailRing, UsedRing, GotOk, ReapedOk;
    var n, p := |s.m.desc|, |s.returned|;
    ReturnPartition(s, k, length);
    UsedRoom(s, k);
    SlotOfCount(p, n);
    UsedRingWrite(s.m.usedRing, s.returned, s.lengths, s.collected, Elem(s.held[k].cells[0], length));
  }

  lemma ReturnPartition(s: State, k: nat, length: nat)
    requires Partitioned(s) && LinksOk(s) && Safe(s, Return(k, length)) && s.guest.GIdle?
    ensures Partitioned(DoReturn(s, k, length)) && LinksOk(DoReturn(s, k, length))
  {
    hide CellsOf, FreeList;
    CellsOfCut(s.held, k);
    assert ChainOk(s.m.desc, s.held[k]);
  }

  /** While the guest holds a token, the used ring has room for it. */
  lemma UsedRoom(s: State, k: nat)
    requires Inv(s) && k < |s.held|
    ensures |Used(s)| < |s.m.desc|
  {
    CellsOfCount(s.m.desc, s.held);
    CellsOfCount(s.m.desc, Used(s));
    assert |Owned(s)| == |s.m.desc|;
  }

  lemma PublishUsedPartition(s: State)
    requires Partitioned(s) && Safe(s, PublishUsed)
    ensures Partitioned(DoPublishUsed(s))
  {
    var r, c := DoPublishUsed(s), s.guest.c;
    assert Used(r) == Used(s) + [c];
    CellsOfAppend(Used(s), c);
  }

  lemma PublishUsedLinks(s: State)
    requires LinksOk(s) && Safe(s, PublishUsed)
    ensures LinksOk(DoPublishUsed(s))
  {
    assert Used(DoPublishUsed(s)) == Used(s) + [s.guest.c];
  }

  lemma PublishUsedRings(s: State)
    requires RingsOk(s) && InOrder(s) && Safe(s, PublishUsed)
    ensures RingsOk(DoPublishUsed(s)) && InOrder(DoPublishUsed(s))
  {
    UsedRingAppend(s.m.usedRing, s.returned, s.lengths, s.collected, s.guest.c, s.guest.length);
    ReapedExtend(s.reaped, s.returned, s.lengths, s.guest.c, s.guest.length);
  }

  lemma PublishUsedInv(s: State)
    requires Inv(s) && Ready(s, PublishUsed) && Safe(s, PublishUsed)
    ensures Inv(DoPublishUsed(s))
  {
    hide Partitioned, LinksOk, RingsOk, InOrder;
    PublishUsedPartition(s);
    PublishUsedLinks(s);
    PublishUsedRings(s);
    WrapSucc(|s.returned|);
  }

  /** With at most 65534 entries outstanding, wrapped counters are equal only when the counts are. */
  lemma UnequalMeansMore(s: State)
    requires Inv(s)
    ensures s.taken <= |s.published| && s.collected <= |s.returned|
    ensures s.m.lastAvailable == s.m.availIndex <==> s.taken == |s.published|
    ensures s.m.lastUsed == s.m.usedIndex <==> s.collected == |s.returned|
  {
    Occupancy(s);
    if s.taken < |s.published| { SlotApart(s.taken, |s.published|, COUNTERS); }
    if s.collected < |s.returned| { SlotApart(s.collected, |s.returned|, COUNTERS); }
  }

  lemma PollUsedInv(s: State)
    requires Inv(s) && Ready(s, PollUsed) && Safe(s, PollUsed)
    ensures Inv(DoPollUsed(s))
  {
    hide CellsOf, ChainsOk, FreeList, AvailRing, UsedRing, GotOk, ReapedOk, AllCells, Bump, Slot, Wrap, ChainOk,
      AvailAt, UsedAt;
    UnequalMeansMore(s);
    if s.m.lastUsed != s.m.usedIndex { PollPartition(s); }
    hide Partitioned;
  }

  lemma PollPartition(s: State)
    requires Partitioned(s) && s.host.HIdle?
    ensures Partitioned(s.(host := HSaw))
  {
    assert Owned(s.(host := HSaw)) == Owned(s);
  }

  lemma HostStepInv(s: State, a: Step)
    requires Inv(s) && Ready(s, a) && Safe(s, a)
    requires HostStep(a)
    ensures Inv(Apply(s, a))
  {
    hide Inv, Safe, Ready;
    match a
    case Begin(msgs) => BeginInv(s, msgs);
    case Link => LinkInv(s);
    case Finish => FinishInv(s);
    case WriteSlot => WriteSlotInv(s);
    case Publish => PublishInv(s);
    case Reap => ReapInv(s);
    case Free => FreeInv(s);
    case PollUsed => PollUsedInv(s);
    case Nudge => NudgeInv(s);
  }

  lemma NudgeInv(s: State)
    requires Inv(s) && Ready(s, Nudge) && Safe(s, Nudge)
    ensures Inv(DoNudge(s))
  {
  }

  lemma GuestStepInv(s: State, a: Step)
    requires Inv(s) && Ready(s, a) && Safe(s, a)
    requires !HostStep(a)
    ensures Inv(Apply(s, a))
  {
    hide Inv, Safe, Ready;
    match a
    case Return(k, length) => ReturnInv(s, k, length);
    case Take => TakeInv(s);
    case PublishUsed => PublishUsedInv(s);
    case _ => GuestFlagInv(s, a);
  }

  lemma GuestFlagInv(s: State, a: Step)
    requires Inv(s) && Ready(s, a) && Safe(s, a)
    requires !HostStep(a) && !a.Return? && !a.Take? && !a.PublishUsed?
    ensures Inv(Apply(s, a))
  {
    UnequalMeansMore(s);
  }

  predicate HostStep(a: Step) {
    a.Begin? || a.Link? || a.Finish? || a.WriteSlot? || a.Publish? || a.Nudge? || a.PollUsed? || a.Reap? || a.Free?
  }

  /** Whatever may happen next is memory safe and keeps the invariant. */
  lemma StepInv(s: State, a: Step)
    requires Inv(s) && Ready(s, a)
    ensures Safe(s, a) && Inv(Apply(s, a))
  {
    ReadySafe(s, a);
    if HostStep(a) { HostStepInv(s, a); } else { GuestStepInv(s, a); }
  }

  lemma InitInv(n: nat)
    requires 0 < n <= MAX_SIZE && Fits(n)
    ensures Inv(Init(n))
  {
    var s := Init(n);
    FreshCells(n);
    assert forall i :: 0 <= i < n ==> FreeAt(s.m.desc, s.free, i);
  }

  lemma {:induction false} FreshCells(n: nat)
    requires n <= MAX_SIZE
    ensures multiset(seq(n, i requires 0 <= i < n => i as Word16)) == AllCells(n)
  {
    if n > 0 {
      FreshCells(n - 1);
      assert seq(n, i requires 0 <= i < n => i as Word16) ==
        seq(n - 1, i requires 0 <= i < n - 1 => i as Word16) + [n - 1];
    }
  }
}
