/** Mailboxes and pools: a list of items under a semaphore that counts them. */
module Boxes {
  import opened Objects
  import opened Blocking

  /** `put` is everything ever added, in order; `got` everything taken; `out` what has
      been taken and not returned; `nulls` how often a granted taker found no item. */
  datatype Box = Box(s: State, items: seq<nat>, put: seq<nat>, got: seq<nat>, out: multiset<nat>,
    all: multiset<nat>, nulls: nat)

  datatype BoxStep =
    | Put(item: nat)         // into a mailbox
    | Return(item: nat)      // of an item to its pool
    | Take(a: Step)          // a taker's call, retry, non-blocking try or timeout

  predicate ForOne(r: Req) { r.Test? && r.amount == 1 }

  /** Only what was taken is returned. */
  predicate BoxReady(b: Box, a: BoxStep) {
    match a
    case Put(_) => b.s.obj.Sem?
    case Return(item) => b.s.obj.Sem? && item in b.out
    case Take(st) => TakeReady(b.s, st)
  }

  predicate TakeReady(s: State, st: Step) {
    Ready(s, st) && !st.Set? && (st.Call? ==> ForOne(st.c.req)) && (st.Try? ==> ForOne(st.r))
  }

  function Fill(b: Box, item: nat): (r: Box)
    requires b.s.obj.Sem?
  {
    b.(s := Change(b.s, Objects.Set(1)), items := b.items + [item], put := b.put + [item])
  }

  /** A taker that is granted takes the head of the list. */
  function BoxApply(b: Box, a: BoxStep): (r: Box)
    requires BoxReady(b, a)
  {
    match a
    case Put(item) => Fill(b, item).(all := b.all + multiset{item})
    case Return(item) => Fill(b, item).(out := b.out - multiset{item})
    case Take(st) =>
      var t := Apply(b.s, st);
      if t.granted == b.s.granted then b.(s := t)
      else if b.items == [] then b.(s := t, nulls := b.nulls + 1)
      else
        b.(s := t, items := b.items[1..], got := b.got + [b.items[0]], out := b.out + multiset{b.items[0]})
  }

  ghost predicate Ones(q: seq<Caller>) { forall c :: c in q ==> ForOne(c.req) }

  ghost predicate BoxInv(b: Box) {
    && Inv(b.s) && Ones(b.s.waitq) && Ones(b.s.woken)
    && b.s.obj == Sem(|b.items|)
    && b.put == b.got + b.items
    && b.all == multiset(b.items) + b.out
    && b.nulls == 0
  }

  /** A mailbox starts empty, a pool with all its items. */
  function Start(items: seq<nat>): (b: Box) {
    Box(Init(Sem(|items|)), items, items, [], multiset{}, multiset(items), 0)
  }

  /** A granted taker is granted exactly one, and there was one. */
  lemma GrantIsOne(s: State, a: Step)
    requires Inv(s) && Ones(s.waitq) && Ones(s.woken) && s.obj.Sem? && TakeReady(s, a)
    ensures var t := Apply(s, a);
      && Ones(t.waitq) && Ones(t.woken)
      && if t.granted == s.granted then t.obj == s.obj
         else t.granted == s.granted + 1 && s.obj.value >= 1 && t.obj == Sem(s.obj.value - 1)
  {
    match a
    case Call(c) =>
    case Retry(k) => assert s.woken[k] in s.woken;
    case Try(r) =>
    case Timeout(k) => assert s.waitq[k] in s.waitq;
    case Late(k) => assert s.woken[k] in s.woken;
  }

  lemma FillInv(b: Box, item: nat)
    requires BoxInv(b)
    ensures var r := Fill(b, item);
      && Inv(r.s) && Ones(r.s.waitq) && Ones(r.s.woken) && r.s.obj == Sem(|r.items|)
      && r.put == r.got + r.items && multiset(r.items) == multiset(b.items) + multiset{item}
  {
    StepInv(b.s, Step.Set(Objects.Set(1)));
    PassMembers(Sem(|b.items| + 1), b.s.waitq);
  }

  lemma TakeInv(b: Box, st: Step)
    requires BoxInv(b) && BoxReady(b, Take(st))
    ensures BoxInv(BoxApply(b, Take(st)))
  {
    hide Inv, Apply, Ones;
    StepInv(b.s, st);
    GrantIsOne(b.s, st);
    if Apply(b.s, st).granted != b.s.granted { assert b.items == [b.items[0]] + b.items[1..]; }
  }

  lemma BoxStepInv(b: Box, a: BoxStep)
    requires BoxInv(b) && BoxReady(b, a)
    ensures BoxInv(BoxApply(b, a))
  {
    hide Inv, Ones;
    match a
    case Put(item) => FillInv(b, item);
    case Return(item) => FillInv(b, item);
    case Take(st) => TakeInv(b, st);
  }

  ghost predicate IsBoxRun(items: seq<nat>, tr: seq<Box>, steps: seq<BoxStep>) {
    && |tr| == |steps| + 1 && tr[0] == Start(items)
    && forall i :: 0 <= i < |steps| ==> BoxGoes(tr[i], steps[i], tr[i + 1])
  }

  ghost predicate BoxGoes(b: Box, a: BoxStep, r: Box) { BoxReady(b, a) && r == BoxApply(b, a) }

  lemma {:induction false} BoxRunInv(items: seq<nat>, tr: seq<Box>, steps: seq<BoxStep>, i: nat)
    requires IsBoxRun(items, tr, steps) && i < |tr|
    ensures BoxInv(tr[i])
  {
    if i > 0 {
      BoxRunInv(items, tr, steps, i - 1);
      assert BoxGoes(tr[i - 1], steps[i - 1], tr[i]);
      BoxStepInv(tr[i - 1], steps[i - 1]);
    }
  }

  /** A mailbox is a queue: with blocking takers, timeouts and takers at interrupt level,
      items come out in the order they were put; the semaphore counts what is left; and
      a granted taker always gets an item. */
  lemma MailboxIsQueue(tr: seq<Box>, steps: seq<BoxStep>, i: nat)
    requires IsBoxRun([], tr, steps) && i < |tr|
    ensures tr[i].put == tr[i].got + tr[i].items
    ensures tr[i].s.obj == Sem(|tr[i].items|) && tr[i].nulls == 0
  {
    BoxRunInv([], tr, steps, i);
  }

  ghost predicate NoPuts(steps: seq<BoxStep>) { forall i :: 0 <= i < |steps| ==> !steps[i].Put? }

  lemma {:induction false} PoolClosed(items: seq<nat>, tr: seq<Box>, steps: seq<BoxStep>, i: nat)
    requires IsBoxRun(items, tr, steps) && NoPuts(steps) && i < |tr|
    ensures tr[i].all == multiset(items)
  {
    if i > 0 {
      PoolClosed(items, tr, steps, i - 1);
      assert BoxGoes(tr[i - 1], steps[i - 1], tr[i]) && !steps[i - 1].Put?;
    }
  }

  /** A pool is an exact allocator: at every moment each item is free or taken, and not
      both; what a taker is given was free and is not in anyone else's hands. */
  lemma PoolPartition(items: seq<nat>, tr: seq<Box>, steps: seq<BoxStep>, i: nat, x: nat)
    requires IsBoxRun(items, tr, steps) && NoPuts(steps) && i < |tr|
    requires forall j, k :: 0 <= j < k < |items| ==> items[j] != items[k]
    ensures multiset(tr[i].items)[x] + tr[i].out[x] == if x in items then 1 else 0
    ensures tr[i].nulls == 0
    ensures i < |steps| && tr[i + 1].got != tr[i].got ==>
      exists y :: tr[i + 1].got == tr[i].got + [y] && y in items && y !in tr[i].out && y in tr[i + 1].out
  {
    BoxRunInv(items, tr, steps, i);
    PoolClosed(items, tr, steps, i);
    Distinct(items, x);
    if i < |steps| && tr[i + 1].got != tr[i].got {
      assert BoxGoes(tr[i], steps[i], tr[i + 1]);
      var y := tr[i].items[0];
      Distinct(items, y);
      assert y in multiset(tr[i].items);
      assert tr[i + 1].got == tr[i].got + [y];
      assert multiset(tr[i].items)[y] + tr[i].out[y] == multiset(items)[y];
    }
  }

  lemma {:induction false} Distinct(items: seq<nat>, x: nat)
    requires forall j, k :: 0 <= j < k < |items| ==> items[j] != items[k]
    ensures multiset(items)[x] == if x in items then 1 else 0
  {
    if items != [] {
      assert items == [items[0]] + items[1..];
      Distinct(items[1..], x);
      assert multiset(items) == multiset{items[0]} + multiset(items[1..]);
    }
  }

  /** While one task holds an item others may take any steps but return that item. */
  ghost predicate Others(b: Box, steps: seq<BoxStep>, r: Box, item: nat)
    decreases |steps|
  {
    if steps == [] then r == b
    else
      var a := steps[0];
      BoxReady(b, a) && !a.Put? && a != Return(item) && Others(BoxApply(b, a), steps[1..], r, item)
  }

  /** They leave the pool in order, and the item out of it. */
  ghost predicate Ran(b: Box, r: Box, item: nat) { BoxInv(r) && r.all == b.all && item in r.out }

  lemma OneRan(b: Box, a: BoxStep, item: nat)
    requires BoxInv(b) && BoxReady(b, a) && !a.Put? && a != Return(item) && item in b.out
    ensures Ran(b, BoxApply(b, a), item)
  {
    BoxStepInv(b, a);
    hide BoxInv;
  }

  lemma {:induction false} OthersRan(b: Box, steps: seq<BoxStep>, r: Box, item: nat)
    requires BoxInv(b) && item in b.out && Others(b, steps, r, item)
    ensures Ran(b, r, item)
    decreases |steps|
  {
    if steps != [] {
      hide BoxInv, BoxReady, BoxApply;
      OneRan(b, steps[0], item);
      OthersRan(BoxApply(b, steps[0]), steps[1..], r, item);
    }
  }
}
