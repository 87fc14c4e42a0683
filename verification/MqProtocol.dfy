/** Host and guest of one message queue as two interleaved threads of memory
    accesses (sequentially consistent). A step is one access to a shared word,
    or host-private work on descriptors that no published entry names. */
module MqProtocol {
  import opened MqMemory
  import opened Sequences

  /** Where the host is: in addAvailable, in getUsed, or in neither. */
  datatype Host =
    | HIdle
    | HBuild(cells: seq<Word16>, bufs: seq<Buf>, rest: seq<Buf>)
    | HReady(c: Chain)     // descriptors written, ring slot not
    | HSlotted(c: Chain)   // ring slot written, index not
    | HNudge               // index written, NO_NOTIFY not yet read
    | HSaw                 // an unread used entry was seen
    | HHolds(id: Word16, c: Chain)  // the used entry was read, its chain is not free yet

  /** Where the guest is: in getAvailable, in addUsed, or in neither. */
  datatype Guest =
    | GIdle
    | GSawNone             // indices equal, NO_NOTIFY not yet cleared
    | GCleared             // NO_NOTIFY cleared, index not yet re-read
    | GSaw                 // an entry was seen, its slot not yet read
    | GTook                // slot read, index not yet re-read
    | GSawMore             // more entries seen, NO_NOTIFY not yet set
    | GSlotted(c: Chain, length: nat)  // used slot written, index not
    | GNudge               // used index written, NO_INTERRUPT not yet read

  /** What getAvailable handed to the guest, and getUsed to the host. */
  datatype Taken = Taken(token: Word16, address: nat, length: nat)
  datatype Reaped = Reaped(address: nat, length: nat)

  datatype State = State(
    m: Memory, host: Host, guest: Guest,
    free: seq<Word16>,
    published: seq<Chain>, taken: nat, held: seq<Chain>,
    returned: seq<Chain>, lengths: seq<nat>, collected: nat,
    got: seq<Taken>, reaped: seq<Reaped>,
    polledEmpty: bool, kicked: bool, interrupts: nat)

  datatype Step =
    | Begin(msgs: seq<Buf>) | Link | Finish | WriteSlot | Publish | Nudge
    | PollUsed | Reap | Free
    | Poll | Clear | Recheck | Take | Peek | Suppress
    | Return(k: nat, length: nat) | PublishUsed | NudgeHost

  // ---- the steps ----

  function Unwritten(b: Buf, d: Desc): (r: Desc) {
    Desc(b.address, b.length, false, !b.write, d.next)
  }

  /** Program counters, and what each side owes the queue: the host has a free
      descriptor for every buffer, the guest returns tokens that it holds. */
  ghost predicate Ready(s: State, a: Step) {
    match a
    case Begin(msgs) => s.host.HIdle? && msgs != [] && |msgs| <= |s.free|
    case Link => s.host.HBuild? && s.host.rest != []
    case Finish => s.host.HBuild? && s.host.rest == []
    case WriteSlot => s.host.HReady?
    case Publish => s.host.HSlotted?
    case Nudge => s.host.HNudge?
    case PollUsed => s.host.HIdle?
    case Reap => s.host.HSaw?
    case Free => s.host.HHolds?
    case Poll => s.guest.GIdle?
    case Clear => s.guest.GSawNone?
    case Recheck => s.guest.GCleared?
    case Take => s.guest.GSaw?
    case Peek => s.guest.GTook?
    case Suppress => s.guest.GSawMore?
    case Return(k, _) => s.guest.GIdle? && k < |s.held|
    case PublishUsed => s.guest.GSlotted?
    case NudgeHost => s.guest.GNudge?
  }

  /** Every table access of the step is in range. */
  ghost predicate Safe(s: State, a: Step) {
    var n := |s.m.desc|;
    && Sized(s.m)
    && match a
       case Begin(msgs) => msgs != [] && s.m.freeDescs < n && s.free != []
       case Link =>
         && s.host.HBuild? && s.host.rest != [] && s.m.freeDescs < n && s.free != []
         && s.host.cells != [] && s.host.bufs != [] && s.host.cells[|s.host.cells| - 1] < n
       case Finish =>
         && s.host.HBuild? && s.host.cells != [] && s.host.bufs != []
         && s.host.cells[|s.host.cells| - 1] < n
       case WriteSlot => s.host.HReady? && s.host.c.cells != []
       case Publish => s.host.HSlotted?
       case Reap => s.collected < |s.returned| && s.m.usedRing[Slot(s.m.lastUsed, n)].id < n
       case Free =>
         && s.host.HHolds? && s.host.c.cells != []
         && s.host.c.cells[|s.host.c.cells| - 1] < n
       case Take => s.taken < |s.published| && s.m.availRing[Slot(s.m.lastAvailable, n)] < n
       case Return(k, _) => k < |s.held| && s.held[k].cells != []
       case PublishUsed => s.guest.GSlotted?
       case _ => true
  }

  // addAvailable: take descriptors, fill them, write the slot, bump the index, nudge

  ghost function DoBegin(s: State, msgs: seq<Buf>): (r: State)
    requires Safe(s, Begin(msgs))
  {
    var m := s.m;
    s.(m := m.(freeDescs := m.desc[m.freeDescs].next),
       free := s.free[1..],
       host := HBuild([m.freeDescs], [msgs[0]], msgs[1..]))
  }

  ghost function DoLink(s: State): (r: State)
    requires Safe(s, Link)
  {
    var m := s.m;
    var HBuild(cells, bufs, rest) := s.host;
    var last, x := cells[|cells| - 1], m.freeDescs;
    var d := Unwritten(bufs[|bufs| - 1], m.desc[last]).(more := true, next := x);
    s.(m := m.(freeDescs := m.desc[x].next, desc := WriteDesc(m.desc, last, d)),
       free := s.free[1..],
       host := HBuild(cells + [x], bufs + [rest[0]], rest[1..]))
  }

  ghost function DoFinish(s: State): (r: State)
    requires Safe(s, Finish)
  {
    var m := s.m;
    var HBuild(cells, bufs, _) := s.host;
    var last := cells[|cells| - 1];
    s.(m := m.(desc := WriteDesc(m.desc, last, Unwritten(bufs[|bufs| - 1], m.desc[last]))),
       host := HReady(Chain(cells, bufs)))
  }

  ghost function DoWriteSlot(s: State): (r: State)
    requires Safe(s, WriteSlot)
  {
    var m := s.m;
    var n := |s.m.desc|;
    s.(m := m.(noInterrupt := false, availRing := m.availRing[Slot(m.availIndex, n) := s.host.c.cells[0]]),
       host := HSlotted(s.host.c))
  }

  ghost function DoPublish(s: State): (r: State)
    requires Safe(s, Publish)
  {
    var m := s.m;
    s.(m := m.(availIndex := Bump(m.availIndex)),
       published := s.published + [s.host.c],
       host := HNudge)
  }

  ghost function DoNudge(s: State): (r: State)
    requires Safe(s, Nudge)
  {
    s.(kicked := s.kicked || !s.m.noNotify, host := HIdle)
  }

  // getUsed: compare indices, read the entry, free its chain

  ghost function DoPollUsed(s: State): (r: State)
    requires Safe(s, PollUsed)
  {
    if s.m.lastUsed == s.m.usedIndex then s else s.(host := HSaw)
  }

  ghost function DoReap(s: State): (r: State)
    requires Safe(s, Reap)
  {
    var m := s.m;
    var n := |s.m.desc|;
    var e := m.usedRing[Slot(m.lastUsed, n)];
    s.(m := m.(lastUsed := Bump(m.lastUsed)),
       reaped := s.reaped + [Reaped(m.desc[e.id].address, e.length)],
       host := HHolds(e.id, s.returned[s.collected]),
       collected := s.collected + 1)
  }

  ghost function DoFree(s: State): (r: State)
    requires Safe(s, Free)
  {
    var m := s.m;
    var c := s.host.c;
    var last := c.cells[|c.cells| - 1];
    s.(m := m.(desc := WriteDesc(m.desc, last, m.desc[last].(next := m.freeDescs, more := true)),
               freeDescs := s.host.id),
       free := c.cells + s.free,
       host := HIdle)
  }

  // getAvailable: compare, clear the flag, compare again, read the slot, suppress

  ghost function DoPoll(s: State): (r: State)
    requires Safe(s, Poll)
  {
    var m := s.m;
    s.(polledEmpty := false,
       guest := if m.lastAvailable == m.availIndex then GSawNone else GSaw)
  }

  ghost function DoClear(s: State): (r: State)
    requires Safe(s, Clear)
  {
    s.(m := s.m.(noNotify := false), guest := GCleared)
  }

  ghost function DoRecheck(s: State): (r: State)
    requires Safe(s, Recheck)
  {
    var m := s.m;
    if m.lastAvailable == m.availIndex then s.(polledEmpty := true, kicked := false, guest := GIdle)
    else s.(guest := GSaw)
  }

  ghost function DoTake(s: State): (r: State)
    requires Safe(s, Take)
  {
    var m := s.m;
    var n := |s.m.desc|;
    var t := m.availRing[Slot(m.lastAvailable, n)];
    s.(m := m.(lastAvailable := Bump(m.lastAvailable)),
       got := s.got + [Taken(t, m.desc[t].address, m.desc[t].length)],
       held := s.held + [s.published[s.taken]],
       taken := s.taken + 1,
       guest := GTook)
  }

  ghost function DoPeek(s: State): (r: State)
    requires Safe(s, Peek)
  {
    var m := s.m;
    s.(guest := if m.lastAvailable != m.availIndex then GSawMore else GIdle)
  }

  ghost function DoSuppress(s: State): (r: State)
    requires Safe(s, Suppress)
  {
    s.(m := s.m.(noNotify := true), guest := GIdle)
  }

  // addUsed: write the slot, bump the index, nudge

  ghost function DoReturn(s: State, k: nat, length: nat): (r: State)
    requires Safe(s, Return(k, length))
  {
    var m := s.m;
    var n := |s.m.desc|;
    var c := s.held[k];
    s.(m := m.(usedRing := m.usedRing[Slot(m.usedIndex, n) := Elem(c.cells[0], length)]),
       held := Cut(s.held, k),
       guest := GSlotted(c, length))
  }

  ghost function DoPublishUsed(s: State): (r: State)
    requires Safe(s, PublishUsed)
  {
    var m := s.m;
    s.(m := m.(usedIndex := Bump(m.usedIndex)),
       returned := s.returned + [s.guest.c],
       lengths := s.lengths + [s.guest.length],
       guest := GNudge)
  }

  ghost function DoNudgeHost(s: State): (r: State)
    requires Safe(s, NudgeHost)
  {
    s.(interrupts := s.interrupts + (if s.m.noInterrupt then 0 else 1), guest := GIdle)
  }

  ghost function Apply(s: State, a: Step): (r: State)
    requires Safe(s, a)
  {
    match a
    case Begin(msgs) => DoBegin(s, msgs)
    case Link => DoLink(s)
    case Finish => DoFinish(s)
    case WriteSlot => DoWriteSlot(s)
    case Publish => DoPublish(s)
    case Nudge => DoNudge(s)
    case PollUsed => DoPollUsed(s)
    case Reap => DoReap(s)
    case Free => DoFree(s)
    case Poll => DoPoll(s)
    case Clear => DoClear(s)
    case Recheck => DoRecheck(s)
    case Take => DoTake(s)
    case Peek => DoPeek(s)
    case Suppress => DoSuppress(s)
    case Return(k, length) => DoReturn(s, k, length)
    case PublishUsed => DoPublishUsed(s)
    case NudgeHost => DoNudgeHost(s)
  }

  /** The steps lead from one state to the other, each ready and inside the tables. */
  ghost predicate Leads(s: State, steps: seq<Step>, r: State)
    decreases |steps|
  {
    if steps == [] then s == r
    else Ready(s, steps[0]) && Safe(s, steps[0]) && Leads(Apply(s, steps[0]), steps[1..], r)
  }

  function FreshDescs(n: nat): (r: seq<Desc>)
    requires n <= MAX_SIZE
    ensures |r| == n && forall i :: 0 <= i < n ==> r[i] == Desc(0, 0, false, false, i + 1)
  {
    seq(n, i requires 0 <= i < n => Desc(0, 0, false, false, i + 1))
  }

  /** The queue after initAll on zeroed shared memory: descriptor i points to i + 1. */
  ghost function Init(n: nat): (s: State)
    requires n <= MAX_SIZE
  {
    State(Memory(FreshDescs(n), seq(n, _ => 0), 0, false, seq(n, _ => Elem(0, 0)), 0, false, 0, 0, 0),
          HIdle, GIdle, seq(n, i requires 0 <= i < n => i), [], 0, [], [], [], 0, [], [], false, false, 0)
  }

  // ---- the invariant ----

  ghost function HostHand(h: Host): (r: seq<Word16>) {
    match h
    case HBuild(cells, _, _) => cells
    case HReady(c) => c.cells
    case HSlotted(c) => c.cells
    case HHolds(_, c) => c.cells
    case _ => []
  }

  ghost function GuestHand(g: Guest): (r: seq<Word16>) {
    if g.GSlotted? then g.c.cells else []
  }

  ghost predicate Counted(s: State) {
    && Sized(s.m) && Fits(|s.m.desc|)
    && s.taken <= |s.published| && s.collected <= |s.returned| == |s.lengths|
    && s.m.availIndex == Wrap(|s.published|)
    && s.m.lastAvailable == Wrap(s.taken)
    && s.m.usedIndex == Wrap(|s.returned|)
    && s.m.lastUsed == Wrap(s.collected)
  }

  ghost function Avail(s: State): (r: seq<Chain>) requires s.taken <= |s.published| { s.published[s.taken..] }

  ghost function Used(s: State): (r: seq<Chain>) requires s.collected <= |s.returned| { s.returned[s.collected..] }

  /** Every place a descriptor can be, with multiplicity. */
  ghost function Owned(s: State): (r: multiset<Word16>)
    requires s.taken <= |s.published| && s.collected <= |s.returned|
  {
    multiset(s.free) + multiset(HostHand(s.host)) + CellsOf(Avail(s))
    + CellsOf(s.held) + multiset(GuestHand(s.guest)) + CellsOf(Used(s))
  }

  ghost predicate Partitioned(s: State) {
    && s.taken <= |s.published| && s.collected <= |s.returned| && |s.m.desc| <= MAX_SIZE
    && Owned(s) == AllCells(|s.m.desc|)
  }

  ghost predicate HostOk(desc: seq<Desc>, h: Host, room: nat) {
    match h
    case HBuild(cells, bufs, rest) => PartialOk(desc, cells, bufs) && |rest| <= room
    case HReady(c) => ChainOk(desc, c)
    case HSlotted(c) => ChainOk(desc, c)
    case HHolds(id, c) => ChainOk(desc, c) && id == c.cells[0]
    case _ => true
  }

  ghost predicate LinksOk(s: State) {
    && s.taken <= |s.published| && s.collected <= |s.returned|
    && FreeList(s.m.desc, s.m.freeDescs, s.free)
    && HostOk(s.m.desc, s.host, |s.free|)
    && ChainsOk(s.m.desc, Avail(s)) && ChainsOk(s.m.desc, s.held) && ChainsOk(s.m.desc, Used(s))
    && (s.guest.GSlotted? ==> ChainOk(s.m.desc, s.guest.c))
  }

  /** Slot j of the available ring names entry j, for every entry not yet taken. */
  ghost predicate AvailRing(ring: seq<Word16>, entries: seq<Chain>, done: nat) {
    |ring| > 0 && forall j :: done <= j < |entries| ==> AvailAt(ring, entries[j], j)
  }

  ghost predicate AvailAt(ring: seq<Word16>, c: Chain, j: nat) requires |ring| > 0 {
    c.cells != [] && ring[Slot(j, |ring|)] == c.cells[0]
  }

  ghost predicate UsedRing(ring: seq<Elem>, entries: seq<Chain>, lengths: seq<nat>, done: nat) {
    && |ring| > 0 && |lengths| == |entries|
    && forall j :: done <= j < |entries| ==> UsedAt(ring, entries[j], lengths[j], j)
  }

  ghost predicate UsedAt(ring: seq<Elem>, c: Chain, length: nat, j: nat) requires |ring| > 0 {
    c.cells != [] && ring[Slot(j, |ring|)] == Elem(c.cells[0], length)
  }

  ghost predicate RingsOk(s: State) {
    && AvailRing(s.m.availRing, s.published, s.taken)
    && UsedRing(s.m.usedRing, s.returned, s.lengths, s.collected)
    && (s.host.HSlotted? ==> AvailAt(s.m.availRing, s.host.c, |s.published|))
    && (s.guest.GSlotted? ==> UsedAt(s.m.usedRing, s.guest.c, s.guest.length, |s.returned|))
    && (s.host.HSaw? ==> s.collected < |s.returned|)
    && (s.guest.GSaw? || s.guest.GSawMore? ==> s.taken < |s.published|)
  }

  /** What was handed over so far is what was put in, in the order it was put in. */
  ghost predicate GotOk(got: seq<Taken>, entries: seq<Chain>) {
    |got| <= |entries| && forall j :: 0 <= j < |got| ==> GotAt(got[j], entries[j])
  }

  ghost predicate GotAt(g: Taken, c: Chain) {
    c.cells != [] && c.bufs != [] && g == Taken(c.cells[0], c.bufs[0].address, c.bufs[0].length)
  }

  ghost predicate ReapedOk(reaped: seq<Reaped>, entries: seq<Chain>, lengths: seq<nat>) {
    && |reaped| <= |entries| == |lengths|
    && forall j :: 0 <= j < |reaped| ==> ReapedAt(reaped[j], entries[j], lengths[j])
  }

  ghost predicate ReapedAt(r: Reaped, c: Chain, length: nat) {
    c.bufs != [] && r == Reaped(c.bufs[0].address, length)
  }

  ghost predicate InOrder(s: State) {
    && |s.got| == s.taken && GotOk(s.got, s.published)
    && |s.reaped| == s.collected && ReapedOk(s.reaped, s.returned, s.lengths)
  }

  /** A guest whose last poll came back empty will hear of the next entry. */
  ghost predicate NoLostKick(s: State) {
    && (s.guest.GCleared? ==> !s.m.noNotify)
    && (s.polledEmpty ==> !s.m.noNotify && (s.guest.GIdle? || s.guest.GSlotted? || s.guest.GNudge?))
    && (s.polledEmpty && s.taken < |s.published| ==> s.kicked || s.host.HNudge?)
  }

  ghost predicate Interrupting(s: State) {
    && !s.m.noInterrupt
    && s.interrupts + (if s.guest.GNudge? then 1 else 0) == |s.returned|
  }

  ghost predicate Inv(s: State) {
    && Counted(s) && Partitioned(s) && LinksOk(s) && RingsOk(s)
    && InOrder(s) && NoLostKick(s) && Interrupting(s)
  }
}
