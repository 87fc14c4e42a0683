/** The message queue functions themselves, over mutable tables. Each statement that
    touches the queue is one step of the protocol, recorded in the ghost field `s`. */
module MqQueue {
  import opened MqMemory
  import opened Sequences
  import opened MqProtocol
  import opened MqSafety

  // ---- one side at work while the other runs on ----

  /** What no step of the guest touches, and what its steps only add to. */
  ghost predicate GuestOnly(s: State, r: State) {
    && r.host == s.host && r.free == s.free && r.published == s.published
    && r.collected == s.collected && r.reaped == s.reaped
    && r.m.desc == s.m.desc && r.m.availRing == s.m.availRing && r.m.availIndex == s.m.availIndex
    && r.m.noInterrupt == s.m.noInterrupt && r.m.freeDescs == s.m.freeDescs && r.m.lastUsed == s.m.lastUsed
    && GuestGrew(s, r)
  }

  ghost predicate GuestGrew(s: State, r: State) {
    s.taken <= r.taken && s.got <= r.got && s.returned <= r.returned && s.lengths <= r.lengths
  }

  /** What no step of the host touches, and what its steps only add to. */
  ghost predicate HostOnly(s: State, r: State) {
    && r.guest == s.guest && r.taken == s.taken && r.held == s.held && r.got == s.got
    && r.returned == s.returned && r.lengths == s.lengths && r.interrupts == s.interrupts
    && r.polledEmpty == s.polledEmpty
    && |r.m.desc| == |s.m.desc|
    && r.m.usedRing == s.m.usedRing && r.m.usedIndex == s.m.usedIndex && r.m.noNotify == s.m.noNotify
    && r.m.lastAvailable == s.m.lastAvailable
    && HostGrew(s, r)
  }

  ghost predicate HostGrew(s: State, r: State) {
    s.published <= r.published && s.collected <= r.collected && s.reaped <= r.reaped
  }

  /** The host's record but for the descriptors it is handling. */
  ghost predicate SoFar(s: State, r: State) {
    && r.published == s.published && r.collected == s.collected && r.reaped == s.reaped
    && r.m.availIndex == s.m.availIndex && r.m.lastUsed == s.m.lastUsed && GuestGrew(s, r)
  }

  /** The guest's record but for where it is in a call. */
  ghost predicate Untaken(s: State, r: State) {
    && r.taken == s.taken && r.held == s.held && r.got == s.got
    && r.returned == s.returned && r.lengths == s.lengths && r.interrupts == s.interrupts
    && r.m.lastAvailable == s.m.lastAvailable && r.m.usedIndex == s.m.usedIndex
  }

  /** The guest has taken the next entry and nothing else. */
  ghost predicate Took(s: State, r: State, token: Word16, address: nat, length: nat) {
    && s.taken < |r.published| && GotAt(Taken(token, address, length), r.published[s.taken])
    && r.taken == s.taken + 1 && r.held == s.held + [r.published[s.taken]]
    && r.got == s.got + [Taken(token, address, length)] && r.m.lastAvailable == Bump(s.m.lastAvailable)
  }

  ghost predicate Collected(s: State, r: State, k: nat) {
    && r.published == s.published && r.collected == s.collected + k
    && |s.reaped| <= |r.reaped| && s.reaped <= r.reaped && r.m.availIndex == s.m.availIndex
  }

  /** Replies whose buffer the host lets go without looking. */
  predicate IsAuto(c: Chain, auto: set<nat>) { c.bufs != [] && c.bufs[0].address in auto }

  predicate AutoOnly(entries: seq<Chain>, i: nat, j: nat, auto: set<nat>) {
    j <= |entries| && forall k :: i <= k < j ==> IsAuto(entries[k], auto)
  }

  /** Every step of one side leaves the other's part alone. */
  lemma HostApart(s: State, a: Step)
    requires Safe(s, a) && HostStep(a)
    ensures HostOnly(s, Apply(s, a))
  {
    hide Slot, Bump, Unwritten, Carries, DoPoll, DoClear, DoRecheck, DoTake, DoPeek, DoSuppress, DoReturn,
      DoPublishUsed, DoNudgeHost;
  }

  lemma GuestApart(s: State, a: Step)
    requires Safe(s, a) && !HostStep(a)
    ensures GuestOnly(s, Apply(s, a))
  {
    hide Slot, Bump, Unwritten, Carries, DoBegin, DoLink, DoFinish, DoWriteSlot, DoPublish, DoNudge, DoPollUsed, DoReap,
      DoFree, WriteDesc;
  }

  /** Steps of one side alone lead from one state to the other. */
  ghost predicate Path(host: bool, s: State, r: State) {
    exists steps :: Leads(s, steps, r) && forall a :: a in steps ==> HostStep(a) == host
  }

  /** However many they are they keep the queue coherent and leave the other side's part alone. */
  lemma PathApart(host: bool, s: State, r: State)
    requires Inv(s) && Path(host, s, r)
    ensures Inv(r) && Only(host, s, r)
  {
    hide Inv;
    var steps :| Leads(s, steps, r) && forall a :: a in steps ==> HostStep(a) == host;
    StepsApart(host, s, steps, r);
  }

  ghost predicate Only(host: bool, s: State, r: State) { if host then HostOnly(s, r) else GuestOnly(s, r) }

  lemma {:induction false} StepsApart(host: bool, s: State, steps: seq<Step>, r: State)
    requires Inv(s) && Leads(s, steps, r) && forall a :: a in steps ==> HostStep(a) == host
    ensures Inv(r) && Only(host, s, r)
    decreases |steps|
  {
    if steps != [] {
      hide Inv, Ready, Safe, Apply, HostStep, Only;
      StepInv(s, steps[0]);
      StepApart(host, s, steps[0]);
      StepsApart(host, Apply(s, steps[0]), steps[1..], r);
      OnlyOn(host, s, Apply(s, steps[0]), r);
    }
  }

  lemma StepApart(host: bool, s: State, a: Step)
    requires Safe(s, a) && HostStep(a) == host
    ensures Only(host, s, Apply(s, a))
  {
    hide Safe, Apply, HostStep, HostOnly, GuestOnly;
    if host { HostApart(s, a); } else { GuestApart(s, a); }
  }

  lemma OnlyOn(host: bool, s: State, t: State, r: State)
    requires Only(host, s, t) && Only(host, t, r)
    ensures Only(host, s, r)
  {
    if host {
      Grows(s.published, t.published, r.published);
      Grows(s.reaped, t.reaped, r.reaped);
    } else {
      Grows(s.got, t.got, r.got);
      Grows(s.returned, t.returned, r.returned);
      Grows(s.lengths, t.lengths, r.lengths);
    }
  }

  lemma Grows<T>(a: seq<T>, b: seq<T>, c: seq<T>)
    requires a <= b <= c
    ensures a <= c
  {
  }

  lemma StaysPut(host: bool, s: State)
    ensures Path(host, s, s)
  {
    assert Leads(s, [], s);
  }

  lemma InRange(s: State)
    requires Inv(s)
    ensures s.collected <= |s.returned| == |s.lengths| && s.taken <= |s.published|
    ensures |s.free| <= |s.m.desc|
  {
    assert |Owned(s)| == |AllCells(|s.m.desc|)|;
  }

  lemma InitOk(n: nat)
    requires n <= MAX_SIZE
    ensures n > 0 && Fits(n) ==> Inv(Init(n))
  {
    if n > 0 && Fits(n) { InitInv(n); }
  }

  class Queue {
    const size: nat
    const desc: array<Desc>
    const availRing: array<Word16>
    const usedRing: array<Elem>
    var availIndex: Word16
    var noInterrupt: bool
    var usedIndex: Word16
    var noNotify: bool
    var freeDescs: Word16
    var lastUsed: Word16
    var lastAvailable: Word16
    ghost var s: State

    ghost function Mem(): (m: Memory)
      reads this, desc, availRing, usedRing
    {
      Memory(desc[..], availRing[..], availIndex, noInterrupt, usedRing[..], usedIndex, noNotify,
             freeDescs, lastUsed, lastAvailable)
    }

    ghost predicate Valid()
      reads this, desc, availRing, usedRing
    {
      desc.Length == size && s.m == Mem() && Inv(s)
    }

    /** Take one protocol step: the tables must already show its effect. */
    ghost method Record(a: Step)
      requires Inv(s) && Ready(s, a) && Safe(s, a) && Mem() == Apply(s, a).m && desc.Length == size
      modifies this`s
      ensures s == Apply(old(s), a) && Valid()
    {
      StepInv(s, a);
      s := Apply(s, a);
    }

    /** The guest runs on while the host is between two accesses: it may take any number of
        steps, none included. A caller learns only that, and what it means for the host. */
    method GuestRuns()
      requires Valid()
      modifies this, desc, availRing, usedRing
      ensures Valid() && Path(false, old(s), s) && GuestOnly(old(s), s)
    {
      StaysPut(false, s);
      PathApart(false, s, s);
    }

    /** The host runs on while the guest is between two accesses. */
    method HostRuns()
      requires Valid()
      modifies this, desc, availRing, usedRing
      ensures Valid() && Path(true, old(s), s) && HostOnly(old(s), s)
    {
      StaysPut(true, s);
      PathApart(true, s, s);
    }

    /** One descriptor for each item of the header pool, up to the cap. */
    constructor InitAll(items: nat)
      ensures fresh(desc) && fresh(availRing) && fresh(usedRing)
      ensures size == (if items > MAX_SIZE then MAX_SIZE else items) && s == Init(size)
      ensures desc.Length == size && s.m == Mem()
      ensures size > 0 && Fits(size) ==> Valid()
    {
      var n := if items > 65534 then 65534 else items;
      size := n;
      desc := new Desc[n](_ => Desc(0, 0, false, false, 0));
      availRing := new Word16[n](_ => 0);
      usedRing := new Elem[n](_ => Elem(0, 0));
      availIndex, noInterrupt, usedIndex, noNotify := 0, false, 0, false;
      freeDescs, lastUsed, lastAvailable := 0, 0, 0;
      s := Init(n);
      new;
      hide Inv, Fits;
      for i := 0 to n
        invariant forall j :: 0 <= j < i ==> desc[j] == Desc(0, 0, false, false, j + 1)
        modifies desc
      {
        desc[i] := Desc(0, 0, false, false, i + 1);
      }
      InitOk(n);
      assert desc[..] == s.m.desc && availRing[..] == s.m.availRing && usedRing[..] == s.m.usedRing;
    }

    /** Unlink the head of the free list. */
    method GetFree() returns (x: Word16)
      requires freeDescs < desc.Length
      modifies this`freeDescs
      ensures x == old(freeDescs) && freeDescs == desc[x].next
    {
      x := freeDescs;
      freeDescs := desc[x].next;
    }

    /** Walk a returned chain to its end and push it onto the free list. The walk stops
        because the chain is NEXT-delimited. */
    method AddFree(index: Word16, ghost cells: seq<Word16>)
      requires Delimited(desc[..], cells) && index == cells[0]
      modifies this`freeDescs, desc
      ensures freeDescs == index
      ensures cells[|cells| - 1] < desc.Length
      ensures var last := cells[|cells| - 1];
        desc[..] == WriteDesc(old(desc[..]), last, old(desc[last]).(next := old(freeDescs), more := true))
    {
      var lastDesc := index;
      ghost var i := 0;
      MoreAt(desc[..], cells, 0);
      while desc[lastDesc].more
        invariant 0 <= i < |cells| && lastDesc == cells[i] && desc[..] == old(desc[..])
        invariant desc[lastDesc].more == (i < |cells| - 1) && freeDescs == old(freeDescs)
        decreases |cells| - i
      {
        lastDesc := desc[lastDesc].next;
        i := i + 1;
        MoreAt(desc[..], cells, i);
      }
      desc[lastDesc] := desc[lastDesc].(next := freeDescs, more := true);
      freeDescs := index;
    }

    // ---- the host publishes ----

    /** Link the descriptor in hand to a new one. */
    method LinkNext(index: Word16, availd: Desc) returns (next: Word16)
      requires Valid() && Ready(s, Link) && index < desc.Length && index == s.host.cells[|s.host.cells| - 1]
      requires s.host.bufs != [] && availd == Unwritten(s.host.bufs[|s.host.bufs| - 1], desc[index])
      modifies this`freeDescs, this`s, desc
      ensures Valid() && next < desc.Length
      ensures var HBuild(cells, bufs, rest) := old(s.host);
        && old(s.free) != [] && next == old(s.free)[0]
        && s == old(s).(m := s.m, free := old(s.free)[1..], host := HBuild(cells + [next], bufs + [rest[0]], rest[1..]))
      ensures s.m.availIndex == old(s.m.availIndex) && s.m.lastUsed == old(s.m.lastUsed)
    {
      hide Inv;
      ReadySafe(s, Link);
      FreeHead(s);
      OtherCell(s);
      ghost var r := DoLink(s);
      next := GetFree();
      desc[index] := availd.(next := next, more := true);
      assert desc[..] == r.m.desc;
      Record(Link);
    }

    /** The host's part of the queue while it builds a chain: `i` buffers are linked. */
    ghost predicate Building(start: State, msgs: seq<Buf>, i: nat, index: Word16)
      reads this, desc, availRing, usedRing
    {
      && 1 <= i <= |msgs| <= |start.free| && Valid() && index < desc.Length && index == start.free[i - 1]
      && s.host == HBuild(start.free[..i], msgs[..i], msgs[i..]) && s.free == start.free[i..]
      && SoFar(start, s)
    }

    /** Take a descriptor for each buffer, fill it and link it to the one before. */
    method BuildChain(msgs: seq<Buf>) returns (first: Word16)
      requires Valid() && s.host.HIdle? && msgs != [] && |msgs| <= |s.free|
      modifies this, desc, availRing, usedRing
      ensures Valid() && SoFar(old(s), s) && first == old(s.free)[0]
      ensures s.free == old(s.free)[|msgs|..] && s.host == HReady(Chain(old(s.free)[..|msgs|], msgs))
    {
      hide Inv, Apply, Valid;
      ghost var start := s;
      first := StartChain(msgs);
      var index := first;
      var availd := Unwritten(msgs[0], desc[index]);
      var i := 1;
      while i < |msgs|
        invariant Building(start, msgs, i, index)
        invariant availd == Unwritten(msgs[i - 1], desc[index])
      {
        index, availd := LinkOne(msgs, i, index, availd, start);
        i := i + 1;
      }
      assert msgs[..i] == msgs;
      FinishChain(index, availd);
    }

    /** One turn of that loop, with the guest running before it. */
    method LinkOne(msgs: seq<Buf>, i: nat, index: Word16, availd: Desc, ghost start: State)
        returns (next: Word16, d: Desc)
      requires Building(start, msgs, i, index) && i < |msgs| && availd == Unwritten(msgs[i - 1], desc[index])
      modifies this, desc, availRing, usedRing
      ensures Building(start, msgs, i + 1, next) && d == Unwritten(msgs[i], desc[next])
    {
      hide Inv;
      GuestRuns();
      next := LinkNext(index, availd);
      d := Unwritten(msgs[i], desc[next]);
      assert start.free[..i] + [next] == start.free[..i + 1] && msgs[..i] + [msgs[i]] == msgs[..i + 1];
    }

    method StartChain(msgs: seq<Buf>) returns (first: Word16)
      requires Valid() && s.host.HIdle? && msgs != [] && |msgs| <= |s.free|
      modifies this`freeDescs, this`s
      ensures Building(old(s), msgs, 1, first)
    {
      hide Inv;
      FreeHead(s);
      ReadySafe(s, Begin(msgs));
      first := GetFree();
      assert [msgs[0]] == msgs[..1];
      Record(Begin(msgs));
    }

    method FinishChain(index: Word16, availd: Desc)
      requires Valid() && Ready(s, Finish) && s.host.cells != [] && s.host.bufs != []
      requires index < desc.Length && index == s.host.cells[|s.host.cells| - 1]
      requires availd == Unwritten(s.host.bufs[|s.host.bufs| - 1], desc[index])
      modifies this`s, desc
      ensures Valid() && SoFar(old(s), s) && s.free == old(s.free)
      ensures s.host == HReady(Chain(old(s.host.cells), old(s.host.bufs)))
    {
      hide Inv;
      ReadySafe(s, Finish);
      ghost var r := DoFinish(s);
      desc[index] := availd;
      assert desc[..] == r.m.desc;
      Record(Finish);
    }

    method BumpAvail()
      requires Valid() && s.host.HSlotted?
      modifies this`availIndex, this`s
      ensures Valid() && availIndex == Bump(old(availIndex))
      ensures s == old(s).(m := s.m, published := old(s.published) + [old(s.host.c)], host := HNudge)
      ensures s.m == old(s.m).(availIndex := availIndex)
    {
      hide Inv;
      availIndex := Bump(availIndex);
      ReadySafe(s, Publish);
      Record(Publish);
    }

    method NudgeGuest() returns (kick: bool)
      requires Valid() && s.host.HNudge?
      modifies this`s
      ensures Valid() && kick == !noNotify
      ensures s == old(s).(kicked := old(s.kicked) || kick, host := HIdle)
    {
      hide Inv;
      kick := !noNotify;
      ReadySafe(s, Nudge);
      Record(Nudge);
    }

    /** Publish one message: one descriptor for each buffer, in order. The flag that says
        whether to kick is read last. */
    method AddAvailable(msgs: seq<Buf>) returns (kick: bool)
      requires Valid() && s.host.HIdle? && msgs != [] && |msgs| <= |s.free|
      modifies this, desc, availRing, usedRing
      ensures Valid() && s.host.HIdle? && GuestGrew(old(s), s)
      ensures s.published == old(s.published) + [Chain(old(s.free)[..|msgs|], msgs)]
      ensures s.free == old(s.free)[|msgs|..] && s.collected == old(s.collected) && s.reaped == old(s.reaped)
      ensures availIndex == Bump(old(availIndex)) && lastUsed == old(lastUsed)
      ensures kick == !noNotify && (kick ==> s.kicked)
    {
      hide Inv, Path, Bump;
      var first := BuildChain(msgs);
      GuestRuns();
      WriteEntry(first);
      GuestRuns();
      BumpAvail();
      GuestRuns();
      kick := NudgeGuest();
    }

    method WriteEntry(first: Word16)
      requires Valid() && s.host.HReady? && s.host.c.cells != [] && first == s.host.c.cells[0]
      modifies this`noInterrupt, this`s, availRing
      ensures Valid() && SoFar(old(s), s) && s.free == old(s.free) && s.host == HSlotted(old(s.host.c))
    {
      hide Inv;
      ReadySafe(s, WriteSlot);
      SlotIsMod(availIndex, size);
      ghost var r := DoWriteSlot(s);
      noInterrupt := false;
      availRing[availIndex % size] := first;
      assert availRing[..] == r.m.availRing;
      Record(WriteSlot);
    }

    // ---- the guest takes ----

    method LookAvail() returns (equal: bool)
      requires Valid() && s.guest.GIdle?
      modifies this`s
      ensures Valid() && equal == (s.taken == |s.published|) && s.taken <= |s.published|
      ensures s == old(s).(polledEmpty := false, guest := if equal then GSawNone else GSaw)
    {
      hide Inv;
      UnequalMeansMore(s);
      equal := lastAvailable == availIndex;
      ReadySafe(s, Poll);
      Record(Poll);
    }

    method ClearNoNotify()
      requires Valid() && s.guest.GSawNone?
      modifies this`noNotify, this`s
      ensures Valid() && !noNotify
      ensures s == old(s).(m := old(s.m).(noNotify := false), guest := GCleared)
    {
      hide Inv;
      noNotify := false;
      ReadySafe(s, Clear);
      Record(Clear);
    }

    method LookAgain() returns (equal: bool)
      requires Valid() && s.guest.GCleared?
      modifies this`s
      ensures Valid() && equal == (s.taken == |s.published|) && s.taken <= |s.published|
      ensures s ==
        if equal then old(s).(polledEmpty := true, kicked := false, guest := GIdle) else old(s).(guest := GSaw)
    {
      hide Inv;
      UnequalMeansMore(s);
      equal := lastAvailable == availIndex;
      ReadySafe(s, Recheck);
      Record(Recheck);
    }

    /** Is there an entry? If not, ask for a kick and look once more: the host may have
        published one in between. */
    method PollAvailable() returns (found: bool)
      requires Valid() && s.guest.GIdle?
      modifies this, desc, availRing, usedRing
      ensures Valid() && HostGrew(old(s), s) && Untaken(old(s), s)
      ensures found ==> s.guest.GSaw? && s.taken < |s.published| && (noNotify ==> old(noNotify))
      ensures !found ==> s.guest.GIdle? && s.taken == |s.published| && s.polledEmpty && !s.kicked && !noNotify
    {
      hide Inv;
      var equal := LookAvail();
      if equal {
        HostRuns();
        ClearNoNotify();
        HostRuns();
        equal := LookAgain();
      }
      found := !equal;
    }

    /** Read the entry that was seen and advance past it. */
    method ReadEntry() returns (token: Word16, address: nat, length: nat)
      requires Valid() && s.guest.GSaw?
      modifies this`lastAvailable, this`s
      ensures Valid() && old(s.taken) < |old(s.published)|
      ensures var c := old(s.published)[old(s.taken)];
        && c.cells != [] && c.bufs != [] && token == c.cells[0] != NO_TOKEN
        && address == c.bufs[0].address && length == c.bufs[0].length
        && s == old(s).(m := old(s.m).(lastAvailable := Bump(old(lastAvailable))), taken := old(s.taken) + 1,
                        held := old(s.held) + [c], got := old(s.got) + [Taken(token, address, length)], guest := GTook)
    {
      hide Inv;
      SawEntry(s);
      ReadySafe(s, Take);
      SlotIsMod(lastAvailable, size);
      token := availRing[lastAvailable % size];
      address, length := desc[token].address, desc[token].length;
      lastAvailable := Bump(lastAvailable);
      Record(Take);
    }

    /** Poll for a message; NO_TOKEN when there is none, and there was none to begin with.
        With more behind the one it takes the guest asks for no kicks. */
    method GetAvailable() returns (token: Word16, address: nat, length: nat)
      requires Valid() && s.guest.GIdle?
      modifies this, desc, availRing, usedRing
      ensures Valid() && s.guest.GIdle? && HostGrew(old(s), s)
      ensures s.returned == old(s.returned) && s.lengths == old(s.lengths) && usedIndex == old(usedIndex)
      ensures token == NO_TOKEN ==> Untaken(old(s), s) && lastAvailable == old(lastAvailable)
      ensures token == NO_TOKEN ==> s.taken == |s.published| && s.polledEmpty && !s.kicked && !noNotify
      ensures token != NO_TOKEN ==> Took(old(s), s, token, address, length)
      ensures token != NO_TOKEN ==> (s.taken < |s.published| ==> noNotify)
      ensures token != NO_TOKEN ==> (noNotify ==> old(noNotify) || s.taken < |s.published|)
    {
      hide Inv;
      token, address, length := NO_TOKEN, 0, 0;
      HostRuns();
      var found := PollAvailable();
      if found {
        HostRuns();
        token, address, length := ReadEntry();
        HostRuns();
        SuppressMore();
      }
    }

    /** With more entries waiting the guest will come back anyway: ask for no kicks. */
    method SuppressMore()
      requires Valid() && s.guest.GTook?
      modifies this, desc, availRing, usedRing
      ensures Valid() && s.guest.GIdle? && HostGrew(old(s), s) && Untaken(old(s), s)
      ensures lastAvailable == old(lastAvailable) && usedIndex == old(usedIndex)
      ensures s.taken < |s.published| ==> noNotify
      ensures noNotify ==> old(noNotify) || s.taken < |s.published|
    {
      hide Inv, Safe, Bump, Path;
      UnequalMeansMore(s);
      var more := lastAvailable != availIndex;
      ReadySafe(s, Peek);
      Record(Peek);
      if more {
        HostRuns();
        noNotify := true;
        ReadySafe(s, Suppress);
        Record(Suppress);
      }
    }

    // ---- the guest returns ----

    /** Hand a message back. The guest names it by its token. */
    method AddUsed(id: Word16, length: nat, ghost k: nat) returns (interrupt: bool)
      requires Valid() && s.guest.GIdle? && k < |s.held| && s.held[k].cells != [] && id == s.held[k].cells[0]
      modifies this, desc, availRing, usedRing
      ensures Valid() && s.guest.GIdle? && interrupt && HostGrew(old(s), s)
      ensures s.held == Cut(old(s.held), k) && s.interrupts == old(s.interrupts) + 1
      ensures s.returned == old(s.returned) + [old(s.held)[k]] && s.lengths == old(s.lengths) + [length]
      ensures s.taken == old(s.taken) && s.got == old(s.got)
      ensures usedIndex == Bump(old(usedIndex)) && lastAvailable == old(lastAvailable) && noNotify == old(noNotify)
    {
      hide Inv;
      HostRuns();
      WriteUsed(id, length, k);
      HostRuns();
      BumpUsed();
      HostRuns();
      interrupt := InterruptHost();
    }

    method BumpUsed()
      requires Valid() && s.guest.GSlotted?
      modifies this`usedIndex, this`s
      ensures Valid() && usedIndex == Bump(old(usedIndex))
      ensures s == old(s).(m := old(s.m).(usedIndex := usedIndex), returned := old(s.returned) + [old(s.guest.c)],
                           lengths := old(s.lengths) + [old(s.guest.length)], guest := GNudge)
    {
      hide Inv;
      usedIndex := Bump(usedIndex);
      ReadySafe(s, PublishUsed);
      Record(PublishUsed);
    }

    method InterruptHost() returns (interrupt: bool)
      requires Valid() && s.guest.GNudge?
      modifies this`s
      ensures Valid() && interrupt
      ensures s == old(s).(interrupts := old(s.interrupts) + 1, guest := GIdle)
    {
      hide Inv;
      ReadySafe(s, NudgeHost);
      NoInterruptClear(s);
      interrupt := !noInterrupt;
      Record(NudgeHost);
    }

    method WriteUsed(id: Word16, length: nat, ghost k: nat)
      requires Valid() && s.guest.GIdle? && k < |s.held| && s.held[k].cells != [] && id == s.held[k].cells[0]
      modifies this`s, usedRing
      ensures Valid()
      ensures s == old(s).(m := s.m, held := Cut(old(s.held), k), guest := GSlotted(old(s.held)[k], length))
    {
      hide Inv;
      ReadySafe(s, Return(k, length));
      SlotIsMod(usedIndex, size);
      ghost var r := DoReturn(s, k, length);
      usedRing[usedIndex % size] := Elem(id, length);
      assert usedRing[..] == r.m.usedRing;
      Record(Return(k, length));
    }

    // ---- the host collects ----

    /** The buffer at the front of the used ring, not yet consumed. */
    method PeekUsed() returns (found: bool, address: nat)
      requires Valid()
      modifies this, desc, availRing, usedRing
      ensures Valid() && GuestOnly(old(s), s)
      ensures !found ==> s.collected == |s.returned|
      ensures found ==>
        s.collected < |s.returned| && s.returned[s.collected].bufs != []
        && address == s.returned[s.collected].bufs[0].address
    {
      hide Inv;
      GuestRuns();
      UnequalMeansMore(s);
      found, address := lastUsed != usedIndex, 0;
      if found {
        GuestRuns();
        SawUsed(s);
        SlotIsMod(lastUsed, size);
        address := desc[usedRing[lastUsed % size].id].address;
      }
    }

    /** Consume one used entry and free its chain. */
    method Collect() returns (address: nat, length: nat)
      requires Valid() && s.host.HIdle? && s.collected < |s.returned|
      modifies this, desc, availRing, usedRing
      ensures Valid() && s.host.HIdle? && Collected(old(s), s, 1) && GuestGrew(old(s), s)
      ensures var k := old(s.collected); var c := old(s.returned)[k];
        && k < |old(s.lengths)| && c.bufs != [] && address == c.bufs[0].address && length == old(s.lengths)[k]
        && s.free == c.cells + old(s.free) && s.reaped == old(s.reaped) + [Reaped(address, length)]
      ensures lastUsed == Bump(old(lastUsed)) && |s.free| > |old(s.free)|
    {
      hide Inv;
      ghost var c := s.returned[s.collected];
      InRange(s);
      SeeUsed();
      GuestRuns();
      var id;
      id, address, length := ReadUsedEntry(c);
      GuestRuns();
      FreeChain(id);
    }

    method SeeUsed()
      requires Valid() && s.host.HIdle? && s.collected < |s.returned|
      modifies this`s
      ensures Valid() && s == old(s).(host := HSaw)
    {
      hide Inv;
      UnequalMeansMore(s);
      ReadySafe(s, PollUsed);
      Record(PollUsed);
    }

    method FreeChain(id: Word16)
      requires Valid() && s.host.HHolds? && id == s.host.id
      modifies this`freeDescs, this`s, desc
      ensures Valid() && old(s.host.c.cells) != []
      ensures s == old(s).(m := s.m, free := old(s.host.c.cells) + old(s.free), host := HIdle)
      ensures s.m.availIndex == old(s.m.availIndex) && s.m.lastUsed == old(s.m.lastUsed)
    {
      hide Inv;
      ReadySafe(s, Free);
      HeldChain(s);
      AddFree(id, s.host.c.cells);
      Record(Free);
    }

    method ReadUsedEntry(ghost c: Chain) returns (id: Word16, address: nat, length: nat)
      requires Valid() && s.host.HSaw? && s.collected < |s.returned| && c == s.returned[s.collected]
      modifies this`lastUsed, this`s
      ensures Valid() && c.bufs != [] && old(s.collected) < |s.lengths|
      ensures address == c.bufs[0].address && length == s.lengths[old(s.collected)]
      ensures s == old(s).(m := old(s.m).(lastUsed := Bump(old(lastUsed))), collected := old(s.collected) + 1,
                           reaped := old(s.reaped) + [Reaped(address, length)], host := HHolds(id, c))
    {
      hide Inv;
      SawUsed(s);
      ReadySafe(s, Reap);
      SlotIsMod(lastUsed, size);
      var elem := usedRing[lastUsed % size];
      lastUsed := Bump(lastUsed);
      id, address, length := elem.id, desc[elem.id].address, elem.length;
      Record(Reap);
    }

    /** Release the used entries at the front whose buffers ask for it, as long as there are
        any, including those that come in meanwhile. */
    method AutoRel(auto: set<nat>)
      requires Valid() && s.host.HIdle?
      modifies this, desc, availRing, usedRing
      ensures Valid() && s.host.HIdle? && GuestGrew(old(s), s)
      ensures old(s.collected) <= s.collected <= |s.returned| && Collected(old(s), s, s.collected - old(s.collected))
      ensures AutoOnly(s.returned, old(s.collected), s.collected, auto)
      ensures s.collected < |s.returned| ==> !IsAuto(s.returned[s.collected], auto)
    {
      hide Inv;
      ghost var start := s;
      var found, address := PeekUsed();
      InRange(s);
      while found && address in auto
        invariant Valid() && s.host.HIdle? && GuestGrew(start, s)
        invariant start.collected <= s.collected <= |s.returned| && Collected(start, s, s.collected - start.collected)
        invariant AutoOnly(s.returned, start.collected, s.collected, auto)
        invariant !found ==> s.collected == |s.returned|
        invariant found ==>
          s.collected < |s.returned| && s.returned[s.collected].bufs != []
          && address == s.returned[s.collected].bufs[0].address
        invariant |s.free| <= size
        decreases size - |s.free|
      {
        var _, _ := Collect();
        found, address := PeekUsed();
        InRange(s);
      }
    }

    /** Collect one reply, then whatever may be released behind it. */
    method GetUsed(auto: set<nat>) returns (ok: bool, address: nat, length: nat)
      requires Valid() && s.host.HIdle?
      modifies this, desc, availRing, usedRing
      ensures Valid() && s.host.HIdle? && GuestGrew(old(s), s)
      ensures !ok ==> GuestOnly(old(s), s) && s.collected == |s.returned|
      ensures ok ==>
        var k := old(s.collected);
        && k < s.collected <= |s.returned| == |s.lengths| && Collected(old(s), s, s.collected - k)
        && s.returned[k].bufs != [] && address == s.returned[k].bufs[0].address && length == s.lengths[k]
        && AutoOnly(s.returned, k + 1, s.collected, auto)
        && (s.collected < |s.returned| ==> !IsAuto(s.returned[s.collected], auto))
    {
      hide Inv;
      GuestRuns();
      UnequalMeansMore(s);
      ok, address, length := lastUsed != usedIndex, 0, 0;
      if ok {
        address, length := Collect();
        AutoRel(auto);
        InRange(s);
      }
    }
  }

  lemma SawEntry(s: State)
    requires Inv(s) && s.guest.GSaw?
    ensures Sized(s.m) && s.taken < |s.published|
    ensures var c := s.published[s.taken];
      && c.cells != [] && c.bufs != [] && c.cells[0] < |s.m.desc|
      && s.m.availRing[Slot(s.m.lastAvailable, |s.m.desc|)] == c.cells[0] && Carries(s.m.desc[c.cells[0]], c.bufs[0])
  {
    ReadAvail(s);
  }

  lemma SawUsed(s: State)
    requires Inv(s) && s.collected < |s.returned|
    ensures Sized(s.m) && |s.lengths| == |s.returned|
    ensures var c := s.returned[s.collected];
      && c.cells != [] && c.bufs != [] && c.cells[0] < |s.m.desc|
      && s.m.usedRing[Slot(s.m.lastUsed, |s.m.desc|)] == Elem(c.cells[0], s.lengths[s.collected])
      && Carries(s.m.desc[c.cells[0]], c.bufs[0])
  {
    ReadUsed(s);
  }

  lemma HeldChain(s: State)
    requires Inv(s) && s.host.HHolds?
    ensures ChainOk(s.m.desc, s.host.c) && s.host.id == s.host.c.cells[0]
  {
  }

  lemma FreeHead(s: State)
    requires Inv(s) && s.free != []
    ensures s.m.freeDescs == s.free[0] < |s.m.desc|
  {
    assert FreeAt(s.m.desc, s.free, 0);
  }

  lemma MoreAt(desc: seq<Desc>, cells: seq<Word16>, i: nat)
    requires Delimited(desc, cells) && i < |cells|
    ensures desc[cells[i]].more <==> i < |cells| - 1
  {
  }

  lemma NoInterruptClear(s: State)
    requires Inv(s)
    ensures !s.m.noInterrupt
  {
  }

  /** The descriptor being linked is not the one just taken from the free list. */
  lemma OtherCell(s: State)
    requires Inv(s) && Ready(s, Link) && Safe(s, Link)
    ensures s.host.cells[|s.host.cells| - 1] != s.m.freeDescs
  {
    HandIsPrivate(s, s.host.cells[|s.host.cells| - 1]);
    PopFree(s.m.desc, s.m.freeDescs, s.free);
  }
}
