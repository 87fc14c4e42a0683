/** Runs of one message queue: what holds whatever the interleaving. */
module MqRuns {
  import opened MqMemory
  import opened MqProtocol
  import opened MqSafety

  /** A run from the freshly initialised queue. A step that left the tables (were
      there one) could continue anywhere, so nothing here assumes memory safety. */
  ghost predicate IsRun(n: nat, tr: seq<State>, steps: seq<Step>) {
    && 0 < n <= MAX_SIZE && Fits(n)
    && |tr| == |steps| + 1 && tr[0] == Init(n)
    && forall i :: 0 <= i < |steps| ==> Goes(tr[i], steps[i], tr[i + 1])
  }

  ghost predicate Goes(s: State, a: Step, r: State) {
    Ready(s, a) && (Safe(s, a) ==> r == Apply(s, a))
  }

  lemma {:induction false} RunInv(n: nat, tr: seq<State>, steps: seq<Step>, i: nat)
    requires IsRun(n, tr, steps) && i < |tr|
    ensures Inv(tr[i])
    ensures i < |steps| ==> Safe(tr[i], steps[i]) && tr[i + 1] == Apply(tr[i], steps[i])
  {
    hide Inv, Safe, Apply, Ready;
    if i == 0 {
      InitInv(n);
    } else {
      RunInv(n, tr, steps, i - 1);
      StepInv(tr[i - 1], steps[i - 1]);
      assert Goes(tr[i - 1], steps[i - 1], tr[i]);
    }
    if i < |steps| {
      assert Goes(tr[i], steps[i], tr[i + 1]);
      StepInv(tr[i], steps[i]);
    }
  }

  /** Conservation: at every moment each descriptor is in exactly one of the free
      list, the hands of a side, a published, a held and a returned chain. */
  lemma DescriptorsConserved(n: nat, tr: seq<State>, steps: seq<Step>, i: nat, x: Word16)
    requires IsRun(n, tr, steps) && i < |tr|
    ensures var s := tr[i]; s.taken <= |s.published| && s.collected <= |s.returned|
    ensures var s := tr[i];
      multiset(s.free)[x] + multiset(HostHand(s.host))[x] + CellsOf(Avail(s))[x] + CellsOf(s.held)[x]
      + multiset(GuestHand(s.guest))[x] + CellsOf(Used(s))[x] == (if x < n then 1 else 0)
  {
    RunInv(n, tr, steps, i);
    SizeKept(n, tr, steps, i);
    assert Owned(tr[i])[x] == AllCells(n)[x];
  }

  lemma {:induction false} SizeKept(n: nat, tr: seq<State>, steps: seq<Step>, i: nat)
    requires IsRun(n, tr, steps) && i < |tr|
    ensures |tr[i].m.desc| == n
  {
    if i > 0 {
      SizeKept(n, tr, steps, i - 1);
      RunInv(n, tr, steps, i - 1);
      StepSize(tr[i - 1], steps[i - 1]);
    }
  }

  lemma StepSize(s: State, a: Step)
    requires Safe(s, a)
    ensures |Apply(s, a).m.desc| == |s.m.desc|
    ensures s.published <= Apply(s, a).published && s.returned <= Apply(s, a).returned
  {
  }

  /** getFree never hands out a descriptor that some token or entry still names. */
  lemma FreshDescriptor(n: nat, tr: seq<State>, steps: seq<Step>, i: nat)
    requires IsRun(n, tr, steps) && i < |steps| && (steps[i].Begin? || steps[i].Link?)
    ensures var s := tr[i]; var x := s.m.freeDescs;
      && x < n && x !in HostHand(s.host) && x !in GuestHand(s.guest)
      && (forall k :: s.taken <= k < |s.published| ==> x !in s.published[k].cells)
      && (forall k :: 0 <= k < |s.held| ==> x !in s.held[k].cells)
      && (forall k :: s.collected <= k < |s.returned| ==> x !in s.returned[k].cells)
  {
    RunInv(n, tr, steps, i);
    SizeKept(n, tr, steps, i);
    NeverNamed(tr[i], steps[i]);
  }

  lemma NeverNamed(s: State, a: Step)
    requires Inv(s) && Safe(s, a) && (a.Begin? || a.Link?)
    ensures var x := s.m.freeDescs;
      && x < |s.m.desc| && x !in HostHand(s.host) && x !in GuestHand(s.guest)
      && (forall k :: s.taken <= k < |s.published| ==> x !in s.published[k].cells)
      && (forall k :: 0 <= k < |s.held| ==> x !in s.held[k].cells)
      && (forall k :: s.collected <= k < |s.returned| ==> x !in s.returned[k].cells)
  {
    var x := s.m.freeDescs;
    FreeOnce(s, a);
    hide Inv, Safe, CellsOf, HostHand, GuestHand;
    NotInRest(s.published, s.taken, x);
    NotInRest(s.held, 0, x);
    NotInRest(s.returned, s.collected, x);
    assert x in HostHand(s.host) ==> x in multiset(HostHand(s.host));
    assert x in GuestHand(s.guest) ==> x in multiset(GuestHand(s.guest));
  }

  lemma NotInRest(cs: seq<Chain>, done: nat, x: Word16)
    requires done <= |cs| && CellsOf(cs[done..])[x] == 0
    ensures forall k :: done <= k < |cs| ==> x !in cs[k].cells
  {
    hide CellsOf;
    NoMember(cs[done..], x);
    forall k | done <= k < |cs| ensures x !in cs[k].cells { assert cs[done..][k - done] == cs[k]; }
  }

  /** The head of the free list is counted there and nowhere else. */
  lemma FreeOnce(s: State, a: Step)
    requires Inv(s) && Safe(s, a) && (a.Begin? || a.Link?)
    ensures s.taken <= |s.published| && s.collected <= |s.returned|
    ensures var x := s.m.freeDescs;
      && x < |s.m.desc| && multiset(HostHand(s.host))[x] == 0 && multiset(GuestHand(s.guest))[x] == 0
      && CellsOf(s.published[s.taken..])[x] == 0 && CellsOf(s.held[0..])[x] == 0
      && CellsOf(s.returned[s.collected..])[x] == 0
  {
    OwnedOnce(s, s.m.freeDescs);
    assert s.m.freeDescs in multiset(s.free);
    assert s.held[0..] == s.held;
    hide CellsOf, AllCells, HostHand, GuestHand;
  }

  lemma NoMember(cs: seq<Chain>, x: Word16)
    requires CellsOf(cs)[x] == 0
    ensures forall k :: 0 <= k < |cs| ==> x !in cs[k].cells
  {
    forall k | 0 <= k < |cs| ensures x !in cs[k].cells {
      if x in cs[k].cells { CellsOfMember(cs, k, x); }
    }
  }

  /** Both directions are queues, through any number of wraps of the 16-bit counters:
      the tokens and buffers the guest was given are a prefix of those published, and
      the replies the host was given a prefix of those returned. */
  lemma FirstInFirstOut(n: nat, tr: seq<State>, steps: seq<Step>, i: nat)
    requires IsRun(n, tr, steps) && i < |tr|
    ensures var s := tr[i];
      && |s.got| == s.taken <= |s.published|
      && (forall j :: 0 <= j < s.taken ==> GotAt(s.got[j], s.published[j]))
      && |s.reaped| == s.collected <= |s.returned| == |s.lengths|
      && (forall j :: 0 <= j < s.collected ==> ReapedAt(s.reaped[j], s.returned[j], s.lengths[j]))
  {
    RunInv(n, tr, steps, i);
  }

  /** The order of entries is settled when they are published or returned. */
  lemma {:induction false} HistoriesGrow(n: nat, tr: seq<State>, steps: seq<Step>, i: nat, j: nat)
    requires IsRun(n, tr, steps) && i <= j < |tr|
    ensures tr[i].published <= tr[j].published && tr[i].returned <= tr[j].returned
  {
    if i < j {
      HistoriesGrow(n, tr, steps, i, j - 1);
      HistoryStep(n, tr, steps, j - 1);
      hide IsRun;
      Longer(tr[i].published, tr[j - 1].published, tr[j].published);
      Longer(tr[i].returned, tr[j - 1].returned, tr[j].returned);
    }
  }

  lemma HistoryStep(n: nat, tr: seq<State>, steps: seq<Step>, i: nat)
    requires IsRun(n, tr, steps) && i < |steps|
    ensures tr[i].published <= tr[i + 1].published && tr[i].returned <= tr[i + 1].returned
  {
    RunInv(n, tr, steps, i);
    hide Inv, Safe, Apply, Ready;
    StepSize(tr[i], steps[i]);
  }

  lemma Longer<T>(a: seq<T>, b: seq<T>, c: seq<T>)
    requires a <= b <= c
    ensures a <= c
  {
  }

  /** Neither ring is overrun, although no code compares against the size: a slot is
      written only when the entry it held last time round has been read. */
  lemma NoOverrun(n: nat, tr: seq<State>, steps: seq<Step>, i: nat)
    requires IsRun(n, tr, steps) && i < |steps|
    ensures steps[i].WriteSlot? ==> var s := tr[i];
      forall j :: s.taken <= j < |s.published| ==> Slot(j, n) != Slot(s.m.availIndex, n)
    ensures steps[i].Return? ==> var s := tr[i];
      forall j :: s.collected <= j < |s.returned| ==> Slot(j, n) != Slot(s.m.usedIndex, n)
  {
    hide Inv, Safe, Apply;
    RunInv(n, tr, steps, i);
    SizeKept(n, tr, steps, i);
    assert Goes(tr[i], steps[i], tr[i + 1]);
    match steps[i]
    case WriteSlot => WriteSlotInv(tr[i]);
    case Return(k, length) => ReturnInv(tr[i], k, length);
    case _ =>
  }

  /** Although the counters wrap, comparing them tells whether there is an entry: the guest
      sees one if and only if some published entry is not taken, the host if and only if some
      returned entry is not collected. */
  lemma SeesIff(n: nat, tr: seq<State>, steps: seq<Step>, i: nat)
    requires IsRun(n, tr, steps) && i < |steps|
    ensures var s, r := tr[i], tr[i + 1];
      && s.taken <= |s.published| && s.collected <= |s.returned|
      && (steps[i].Poll? || steps[i].Recheck? ==> (r.guest.GSaw? <==> s.taken < |s.published|))
      && (steps[i].Peek? ==> (r.guest.GSawMore? <==> s.taken < |s.published|))
      && (steps[i].PollUsed? ==> (r.host.HSaw? <==> s.collected < |s.returned|))
  {
    RunInv(n, tr, steps, i);
    assert Goes(tr[i], steps[i], tr[i + 1]);
    SeesEntries(tr[i]);
    Compares(tr[i], steps[i]);
    hide Inv, Ready, Apply;
  }

  lemma Compares(s: State, a: Step)
    requires Ready(s, a) && Safe(s, a)
    ensures var r, none, nothing := Apply(s, a), s.m.lastAvailable == s.m.availIndex, s.m.lastUsed == s.m.usedIndex;
      && (a.Poll? || a.Recheck? ==> (r.guest.GSaw? <==> !none))
      && (a.Peek? ==> (r.guest.GSawMore? <==> !none))
      && (a.PollUsed? ==> (r.host.HSaw? <==> !nothing))
  {
    match a
    case Poll =>
    case Recheck =>
    case Peek =>
    case PollUsed =>
    case _ =>
  }

  lemma SeesEntries(s: State)
    requires Inv(s)
    ensures s.taken <= |s.published| && (s.m.lastAvailable == s.m.availIndex <==> s.taken == |s.published|)
    ensures s.collected <= |s.returned| && (s.m.lastUsed == s.m.usedIndex <==> s.collected == |s.returned|)
  {
    Occupancy(s);
    hide Partitioned, LinksOk, RingsOk, InOrder, NoLostKick, Interrupting, Wrap;
    SameCount(s.taken, |s.published|);
    SameCount(s.collected, |s.returned|);
  }

  lemma SameCount(a: nat, b: nat)
    requires a <= b < a + COUNTERS
    ensures Wrap(a) == Wrap(b) <==> a == b
  {
    if a < b { SlotApart(a, b, COUNTERS); }
  }

  /** Asked for no kicks, and not asked for them again since. */
  ghost predicate Hushed(steps: seq<Step>, i: nat)
    requires i <= |steps|
  {
    i > 0 && (steps[i - 1].Suppress? || (!steps[i - 1].Clear? && Hushed(steps, i - 1)))
  }

  /** The host reads NO_NOTIFY set if and only if the guest, seeing more entries, asked for no
      kicks and has not prepared to sleep since. */
  lemma {:induction false} HushedIff(n: nat, tr: seq<State>, steps: seq<Step>, i: nat)
    requires IsRun(n, tr, steps) && i < |tr|
    ensures tr[i].m.noNotify <==> Hushed(steps, i)
  {
    if i > 0 {
      HushedIff(n, tr, steps, i - 1);
      RunInv(n, tr, steps, i - 1);
      FlagStep(tr[i - 1], steps[i - 1]);
      hide Inv, Safe, Apply;
    }
  }

  lemma FlagStep(s: State, a: Step)
    requires Safe(s, a)
    ensures Apply(s, a).m.noNotify == (a.Suppress? || (!a.Clear? && s.m.noNotify))
  {
  }

  /** The host kicks the guest. */
  ghost predicate Kicks(s: State, a: Step) { a.Nudge? && !s.m.noNotify }

  /** No lost kick. The guest's re-read at step i found nothing, and it has not polled
      since. If there is an entry for it now, then either the host kicked it after that
      re-read or the host has yet to look at the NO_NOTIFY flag. */
  lemma NoKickLost(n: nat, tr: seq<State>, steps: seq<Step>, i: nat, j: nat)
    requires IsRun(n, tr, steps) && i < j < |tr|
    requires steps[i].Recheck? && tr[i].m.lastAvailable == tr[i].m.availIndex
    requires forall k :: i < k < j ==> !steps[k].Poll?
    ensures tr[j].taken < |tr[j].published| ==>
      tr[j].host.HNudge? || exists k :: i < k < j && Kicks(tr[k], steps[k])
  {
    SinceRecheck(n, tr, steps, i, j);
    RunInv(n, tr, steps, j);
  }

  lemma {:induction false} SinceRecheck(n: nat, tr: seq<State>, steps: seq<Step>, i: nat, j: nat)
    requires IsRun(n, tr, steps) && i < j < |tr|
    requires steps[i].Recheck? && tr[i].m.lastAvailable == tr[i].m.availIndex
    requires forall k :: i < k < j ==> !steps[k].Poll?
    ensures tr[j].polledEmpty
    ensures tr[j].kicked ==> exists k :: i < k < j && Kicks(tr[k], steps[k])
  {
    RunInv(n, tr, steps, j - 1);
    if j > i + 1 {
      SinceRecheck(n, tr, steps, i, j - 1);
      KickStep(tr[j - 1], steps[j - 1]);
    }
  }

  lemma KickStep(s: State, a: Step)
    requires Inv(s) && Ready(s, a) && Safe(s, a) && s.polledEmpty && !a.Poll?
    ensures Apply(s, a).polledEmpty
    ensures Apply(s, a).kicked ==> s.kicked || Kicks(s, a)
  {
  }

  /** The other direction never goes quiet: one interrupt for each entry returned. */
  lemma EveryReplyInterrupts(n: nat, tr: seq<State>, steps: seq<Step>, i: nat)
    requires IsRun(n, tr, steps) && i < |tr|
    ensures tr[i].interrupts + (if tr[i].guest.GNudge? then 1 else 0) == |tr[i].returned|
  {
    RunInv(n, tr, steps, i);
  }
}
