/** What becomes of a queue whose size does not divide 65536: a run in which the host
    overwrites an entry that the guest has not read. */
module MqOverrun {
  import opened Division
  import opened MqMemory
  import opened MqProtocol
  import opened Sequences

  lemma {:induction false} LeadsOn(s: State, a: seq<Step>, r: State, b: seq<Step>, t: State)
    requires Leads(s, a, r) && Leads(r, b, t)
    ensures Leads(s, a + b, t)
    decreases |a|
  {
    if a == [] {
      assert a + b == b;
    } else {
      LeadsOn(Apply(s, a[0]), a[1..], r, b, t);
      assert (a + b)[1..] == a[1..] + b;
    }
  }

  function FreeFrom(n: nat, i: nat): (r: seq<Word16>)
    requires i <= n <= MAX_SIZE
  {
    seq(n - i, x requires 0 <= x < n - i => (x + i) as Word16)
  }

  /** Descriptors from `i` on are free and in order, and both sides are between calls. */
  ghost predicate Resting(s: State, n: nat, i: nat) {
    && 0 < n <= MAX_SIZE && i <= n && Sized(s.m) && |s.m.desc| == n
    && s.m.freeDescs == i && s.free == FreeFrom(n, i)
    && (forall x :: i <= x < n ==> s.m.desc[x].next == x + 1)
    && s.host.HIdle? && s.guest.GIdle?
  }

  /** The guest's and the collecting host's part of the queue. */
  ghost predicate SameElse(s: State, r: State) {
    && r.taken == s.taken && r.held == s.held && r.returned == s.returned && r.lengths == s.lengths
    && r.collected == s.collected
    && r.m.usedRing == s.m.usedRing && r.m.usedIndex == s.m.usedIndex && r.m.lastUsed == s.m.lastUsed
    && r.m.lastAvailable == s.m.lastAvailable
  }

  function Calls(b: Buf): (steps: seq<Step>) { [Begin([b]), Finish, WriteSlot, Publish, Nudge] }

  /** The host publishes a message of one buffer in descriptor `i`. */
  lemma Publishes(s: State, n: nat, i: nat, b: Buf) returns (r: State)
    requires Resting(s, n, i) && i < n
    ensures Leads(s, Calls(b), r) && Resting(r, n, i + 1) && SameElse(s, r)
    ensures r.published == s.published + [Chain([i as Word16], [b])] && r.m.availIndex == Bump(s.m.availIndex)
    ensures r.m.availRing == s.m.availRing[Slot(s.m.availIndex, n) := i]
    ensures r.m.desc[i].next == i + 1 && !r.m.desc[i].more
  {
    var u := Built(s, n, i, b);
    var v := DoWriteSlot(u);
    var w := DoPublish(v);
    r := DoNudge(w);
    hide DoWriteSlot, DoPublish, DoNudge, Resting;
    LeadsThree(u, v, w, r);
    LeadsOn(s, [Begin([b]), Finish], u, [WriteSlot, Publish, Nudge], r);
    assert [Begin([b]), Finish] + [WriteSlot, Publish, Nudge] == Calls(b);
  }

  lemma LeadsThree(u: State, v: State, w: State, r: State)
    requires Safe(u, WriteSlot) && v == DoWriteSlot(u) && Safe(v, Publish) && w == DoPublish(v)
    requires Safe(w, Nudge) && r == DoNudge(w) && w.host.HNudge?
    ensures Leads(u, [WriteSlot, Publish, Nudge], r)
  {
    hide DoWriteSlot, DoPublish, DoNudge;
    assert Leads(w, [Nudge], r) by { assert [Nudge][1..] == []; }
    assert Leads(v, [Publish, Nudge], r) by { assert [Publish, Nudge][1..] == [Nudge]; }
    assert [WriteSlot, Publish, Nudge][1..] == [Publish, Nudge];
  }

  lemma Built(s: State, n: nat, i: nat, b: Buf) returns (u: State)
    requires Resting(s, n, i) && i < n
    ensures Leads(s, [Begin([b]), Finish], u)
    ensures u.host == HReady(Chain([i as Word16], [b])) && u.guest.GIdle?
    ensures SameElse(s, u) && u.published == s.published
    ensures Sized(u.m) && |u.m.desc| == n && u.m.freeDescs == i + 1 && u.free == FreeFrom(n, i + 1)
    ensures u.m.availRing == s.m.availRing && u.m.availIndex == s.m.availIndex
    ensures forall x :: i < x < n ==> u.m.desc[x].next == x + 1
    ensures u.m.desc[i].next == i + 1 && !u.m.desc[i].more
  {
    var t := DoBegin(s, [b]);
    assert FreeFrom(n, i)[1..] == FreeFrom(n, i + 1);
    assert [b][1..] == [];
    u := DoFinish(t);
    assert Leads(t, [Finish], u) by { assert [Finish][1..] == []; }
    assert [Begin([b]), Finish][1..] == [Finish];
  }

  lemma Then(s: State, steps: seq<Step>, r: State, a: Step, t: State)
    requires Leads(s, steps, r) && Ready(r, a) && Safe(r, a) && t == Apply(r, a)
    ensures Leads(s, steps + [a], t)
  {
    hide Ready, Safe, Apply;
    assert Leads(r, [a], t) by { assert [a][1..] == []; }
    LeadsOn(s, steps, r, [a], t);
  }

  /** Everything published was taken, returned and collected: `k` messages. */
  ghost predicate Balanced(s: State, k: nat) {
    && s.taken == |s.published| == k && s.collected == |s.returned| == |s.lengths| == k && s.held == []
    && s.m.availIndex == s.m.lastAvailable == Wrap(k) && s.m.usedIndex == s.m.lastUsed == Wrap(k)
  }

  /** One message in descriptor 0 that the guest has yet to take, to return, or the host to
      collect: its index counters stand at `a`, `b`, `c`, `d`. */
  ghost predicate Travels(s: State, n: nat, a: Word16, b: Word16, c: Word16, d: Word16) {
    && 0 < n <= MAX_SIZE && Sized(s.m) && |s.m.desc| == n && s.host.HIdle? && s.guest.GIdle?
    && s.m.freeDescs == 1 && s.free == FreeFrom(n, 1)
    && (forall x :: 0 <= x < n ==> s.m.desc[x].next == x + 1) && !s.m.desc[0].more
    && s.m.availIndex == a && s.m.lastAvailable == b && s.m.usedIndex == c && s.m.lastUsed == d
  }

  /** The message of a round trip. */
  function One(b: Buf): (c: Chain) { Chain([0], [b]) }

  lemma Takes(s: State, n: nat, w: Word16, b: Buf) returns (steps: seq<Step>, r: State)
    requires Travels(s, n, Bump(w), w, w, w) && s.taken + 1 == |s.published| && s.held == []
    requires s.published[s.taken] == One(b) && s.m.availRing[Slot(w, n)] == 0
    ensures Leads(s, steps, r) && Travels(r, n, Bump(w), Bump(w), w, w) && r.held == [One(b)]
    ensures r.published == s.published && r.taken == s.taken + 1
    ensures r.returned == s.returned && r.lengths == s.lengths && r.collected == s.collected
  {
    var t := DoPoll(s);
    var u := DoTake(t);
    r := DoPeek(u);
    Then(s, [], s, Poll, t);
    Then(s, [] + [Poll], t, Take, u);
    Then(s, [] + [Poll] + [Take], u, Peek, r);
    steps := [] + [Poll] + [Take] + [Peek];
  }

  lemma Returns(s: State, n: nat, w: Word16, b: Buf) returns (steps: seq<Step>, r: State)
    requires Travels(s, n, Bump(w), Bump(w), w, w) && s.held == [One(b)]
    ensures Leads(s, steps, r) && Travels(r, n, Bump(w), Bump(w), Bump(w), w) && r.held == []
    ensures r.published == s.published && r.taken == s.taken && r.m.usedRing[Slot(w, n)].id == 0
    ensures r.returned == s.returned + [One(b)] && r.lengths == s.lengths + [0] && r.collected == s.collected
  {
    var t, u;
    t, u, r := ReturnStates(s, n, w, b);
    hide DoReturn, DoPublishUsed, DoNudgeHost, Travels;
    Then(s, [], s, Return(0, 0), t);
    Then(s, [] + [Return(0, 0)], t, PublishUsed, u);
    Then(s, [] + [Return(0, 0)] + [PublishUsed], u, NudgeHost, r);
    steps := [] + [Return(0, 0)] + [PublishUsed] + [NudgeHost];
  }

  lemma ReturnStates(s: State, n: nat, w: Word16, b: Buf) returns (t: State, u: State, r: State)
    requires Travels(s, n, Bump(w), Bump(w), w, w) && s.held == [One(b)]
    ensures Safe(s, Return(0, 0)) && t == DoReturn(s, 0, 0) && t.guest.GSlotted? && Safe(t, PublishUsed)
    ensures u == DoPublishUsed(t) && u.guest.GNudge? && Safe(u, NudgeHost) && r == DoNudgeHost(u)
    ensures Travels(r, n, Bump(w), Bump(w), Bump(w), w) && r.held == []
    ensures r.published == s.published && r.taken == s.taken && r.m.usedRing[Slot(w, n)].id == 0
    ensures r.returned == s.returned + [One(b)] && r.lengths == s.lengths + [0] && r.collected == s.collected
  {
    t := DoReturn(s, 0, 0);
    u := DoPublishUsed(t);
    r := DoNudgeHost(u);
  }

  lemma Collects(s: State, n: nat, w: Word16, b: Buf) returns (steps: seq<Step>, r: State)
    requires Travels(s, n, Bump(w), Bump(w), Bump(w), w) && s.held == [] && s.m.usedRing[Slot(w, n)].id == 0
    requires s.collected + 1 == |s.returned| && s.returned[s.collected] == One(b)
    ensures Leads(s, steps, r) && Resting(r, n, 0) && r.held == []
    ensures r.published == s.published && r.taken == s.taken && r.collected == s.collected + 1
    ensures r.returned == s.returned && r.lengths == s.lengths
    ensures r.m.availIndex == r.m.lastAvailable == r.m.usedIndex == r.m.lastUsed == Bump(w)
  {
    var t := DoPollUsed(s);
    var u := DoReap(t);
    r := DoFree(u);
    Then(s, [], s, PollUsed, t);
    Then(s, [] + [PollUsed], t, Reap, u);
    Then(s, [] + [PollUsed] + [Reap], u, Free, r);
    steps := [] + [PollUsed] + [Reap] + [Free];
    assert [0] + FreeFrom(n, 1) == FreeFrom(n, 0);
  }

  /** One message there and back leaves the queue as it was, one count on. */
  lemma RoundTrip(s: State, n: nat, k: nat, b: Buf) returns (steps: seq<Step>, r: State)
    requires Resting(s, n, 0) && Balanced(s, k)
    ensures Leads(s, steps, r) && Resting(r, n, 0) && Balanced(r, k + 1)
  {
    hide Leads;
    var w := Wrap(k);
    WrapSucc(k);
    var t := Publishes(s, n, 0, b);
    var a, u := Takes(t, n, w, b);
    var c, v := Returns(u, n, w, b);
    var d, x := Collects(v, n, w, b);
    r, steps := x, Calls(b) + a + c + d;
    LeadsOn(s, Calls(b), t, a, u);
    LeadsOn(s, Calls(b) + a, u, c, v);
    LeadsOn(s, Calls(b) + a + c, v, d, r);
  }

  lemma {:induction false} RoundTrips(n: nat, k: nat, b: Buf) returns (steps: seq<Step>, r: State)
    requires 0 < n <= MAX_SIZE
    ensures Leads(Init(n), steps, r) && Resting(r, n, 0) && Balanced(r, k)
  {
    if k == 0 {
      steps, r := [], Init(n);
      assert Init(n).free == FreeFrom(n, 0);
    } else {
      var a, s := RoundTrips(n, k - 1, b);
      var c, t := RoundTrip(s, n, k - 1, b);
      LeadsOn(Init(n), a, s, c, t);
      steps, r := a + c, t;
    }
  }

  /** Messages published and left lying, one descriptor each. */
  lemma {:induction false} Piles(s: State, n: nat, k: nat, i: nat, b: Buf) returns (steps: seq<Step>, r: State)
    requires Resting(s, n, 0) && Balanced(s, k) && i <= n
    ensures Leads(s, steps, r) && Resting(r, n, i) && SameElse(s, r)
    ensures |r.published| == k + i && r.m.availIndex == Wrap(k + i)
    ensures i > 0 ==> r.published[k] == One(b)
  {
    if i == 0 {
      steps, r := [], s;
    } else {
      var a, t := Piles(s, n, k, i - 1, b);
      hide Resting, Balanced;
      var u := Publishes(t, n, i - 1, b);
      LeadsOn(s, a, t, Calls(b), u);
      WrapSucc(k + i - 1);
      steps, r := a + Calls(b), u;
    }
  }

  /** With any other size the rings do overrun. After enough messages, and with free
      descriptors still at hand, the host writes an entry over one that the guest has not
      read: the guest's next read takes the wrong message, and one message is lost. */
  lemma Overruns(n: nat, b: Buf) returns (steps: seq<Step>, s: State)
    requires 0 < n <= MAX_SIZE && COUNTERS % n != 0
    ensures Leads(Init(n), steps, s) && Sized(s.m) && s.guest.GIdle? && s.taken < |s.published|
    ensures s.published[s.taken].cells != [] && |s.m.desc| == n
    ensures s.m.availRing[Slot(s.m.lastAvailable, n)] != s.published[s.taken].cells[0]
  {
    var rest := COUNTERS % n;
    var k := COUNTERS - rest;
    assert COUNTERS == n * (COUNTERS / n) + rest;
    var a, r := RoundTrips(n, k, b);
    var c, t := Piles(r, n, k, rest, b);
    LeadsOn(Init(n), a, r, c, t);
    var u := Publishes(t, n, rest, b);
    LeadsOn(Init(n), a + c, t, Calls(b), u);
    SlotIsMod(k, n);
    Shift(0, COUNTERS / n, n);
    SlotIsMod(k, COUNTERS);
    SlotIsMod(COUNTERS, COUNTERS);
    hide Leads, Resting;
    steps, s := a + c + Calls(b), u;
  }
}
