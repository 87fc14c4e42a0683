/** The code of semaphores, flag clusters, mailboxes and pools, proved to take the steps
    of the model. */
module BlockingKernel {
  import opened Objects
  import opened Blocking
  import opened Boxes
  import opened FlagBits
  import opened Sequences

  datatype Outcome = Granted | GaveUp | Waiting

  /** The wake pass one waiter at a time, from position `k` of a queue partly filtered. */
  lemma PassStep(o: Obj, q: seq<Caller>, k: nat)
    requires k < |q|
    ensures Failing(o, q[k..]) == (if Passes(o, q[k].req) then [] else [q[k]]) + Failing(o, q[k + 1..])
    ensures Passing(o, q[k..]) == (if Passes(o, q[k].req) then [q[k]] else []) + Passing(o, q[k + 1..])
  {
    assert q[k..][1..] == q[k + 1..];
  }

  lemma PassNone(o: Obj)
    ensures Failing(o, []) == [] && Passing(o, []) == []
  {
  }

  lemma ClearIs(f: bv32, r: Req)
    requires r.TestFlags?
    ensures NewFlags(f, r) == if r.clear then f & !r.mask else f
  {
  }

  /** A local object with the queue of tasks that wait on it and those made ready from it. */
  class Local {
    var obj: Obj
    var waitq: seq<Caller>
    var ready: seq<Caller>

    ghost predicate Shows(s: State)
      reads this
    {
      s.obj == obj && s.waitq == waitq && s.woken == ready
    }

    constructor (o: Obj)
      ensures Shows(Init(o))
    {
      obj, waitq, ready := o, [], [];
    }

    /** Walk the wait queue, unlinking and waking every task whose test now passes. */
    method WakePass()
      modifies this`waitq, this`ready
      ensures waitq == Failing(obj, old(waitq))
      ensures ready == old(ready) + Passing(obj, old(waitq))
    {
      hide Passes, Failing, Passing;
      ghost var q, k := waitq, 0;
      var i := 0;
      while i < |waitq|
        invariant i <= |waitq| && k <= |q| && waitq[i..] == q[k..]
        invariant Failing(obj, q) == waitq[..i] + Failing(obj, q[k..])
        invariant old(ready) + Passing(obj, q) == ready + Passing(obj, q[k..])
        decreases |waitq| - i
      {
        var t := waitq[i];
        assert t == waitq[i..][0] == q[k];
        assert waitq[i + 1..] == waitq[i..][1..] == q[k + 1..];
        PassStep(obj, q, k);
        if Passes(obj, t.req) {
          waitq := waitq[..i] + waitq[i + 1..];
          ready := ready + [t];
        } else {
          i := i + 1;
        }
        k := k + 1;
      }
      assert waitq[..i] == waitq && q[k..] == [];
      PassNone(obj);
    }

    /** Increment a semaphore and wake the tasks whose amount is there. */
    method SetSemaphore(increment: nat, ghost s: State)
      requires Shows(s) && obj.Sem?
      modifies this
      ensures Shows(Change(s, Objects.Set(increment)))
    {
      obj := Sem(obj.value + increment);
      WakePass();
    }

    /** Common end of setting and toggling flags. */
    method FlagSchedule(ghost r: Req, ghost s: State)
      requires Passes(s.obj, r) && Notifies(r) && Shows(s.(obj := Effect(s.obj, r)))
      modifies this
      ensures Shows(Change(s, r))
    {
      hide Passes, Effect, Failing, Passing;
      WakePass();
    }

    /** Setting and toggling flags wakes whose test now passes; clearing wakes nobody. */
    method ChangeFlags(r: Req, ghost s: State)
      requires Shows(s) && obj.Flags? && (r.SetFlags? || r.ToggleFlags? || r.ClearFlags?)
      modifies this
      ensures Shows(Change(s, r))
    {
      match r {
        case SetFlags(m) =>
          obj := Flags(obj.flags | m);
          FlagSchedule(r, s);
        case ToggleFlags(m) =>
          obj := Flags(obj.flags ^ m);
          FlagSchedule(r, s);
        case ClearFlags(m) =>
          obj := Flags(obj.flags & !m);
      }
    }

    /** One turn of a waiting test's loop: take, give up, or go onto the wait queue. A flag test
        that is over returns the flags as they were before it cleared any. */
    method TestOnce(c: Caller, ghost s: State) returns (r: Outcome, flags: bv32)
      requires Shows(s) && IsTest(c.req) && Matches(obj, c.req)
      modifies this
      ensures Shows(Attempt(s, c))
      ensures r == if Passes(s.obj, c.req) then Granted else if c.timedOut then GaveUp else Waiting
      ensures r == Granted <==> Available(s.obj, c.req)
      ensures r == Granted ==> Becomes(s.obj, c.req, obj)
      ensures r != Waiting && s.obj.Flags? ==> flags == s.obj.flags
    {
      hide FlgTest, NewFlags, Available, Becomes;
      PassesIff(obj, c.req);
      flags := 0;
      if Passes(obj, c.req) {
        EffectIs(obj, c.req);
        match c.req {
          case Test(n, _) => obj := Sem(obj.value - n);
          case TestFlags(m, _, clear, _) =>
            flags := obj.flags;
            ClearIs(flags, c.req);
            if clear { obj := Flags(obj.flags & !m); }
        }
        r := Granted;
      } else if c.timedOut {
        if obj.Flags? { flags := obj.flags; }
        r := GaveUp;
      } else {
        waitq := waitq + [c];
        r := Waiting;
      }
    }

    /** A task made ready runs on. */
    method RunOn(k: nat) returns (c: Caller)
      requires k < |ready|
      modifies this`ready
      ensures c == old(ready)[k] && ready == Cut(old(ready), k)
    {
      c := ready[k];
      ready := ready[..k] + ready[k + 1..];
    }

    /** A timeout takes the task off the queue and makes it ready. */
    method TimeoutWake(k: nat, ghost s: State)
      requires Shows(s) && k < |waitq|
      modifies this
      ensures Shows(Apply(s, Timeout(k)))
    {
      var t := waitq[k].(timedOut := true);
      waitq := waitq[..k] + waitq[k + 1..];
      ready := ready + [t];
    }
  }

  /** A mailbox or pool: items under a counting semaphore. */
  class Store {
    const sem: Local
    var items: seq<nat>

    ghost predicate Holds(b: Box)
      reads this, sem
    {
      sem.Shows(b.s) && items == b.items
    }

    constructor InitMbox()
      ensures Holds(Start([])) && fresh(sem)
    {
      sem := new Local(Sem(0));
      items := [];
    }

    /** Link all the items of a pool into its free list, in order. */
    constructor InitPool(all: seq<nat>)
      ensures Holds(Start(all)) && fresh(sem)
    {
      sem := new Local(Sem(|all|));
      items := [];
      new;
      for i := 0 to |all|
        invariant items == all[..i] && sem.Shows(Init(Sem(|all|))) && fresh(sem)
      {
        items := items + [all[i]];
      }
    }

    method PutMbox(item: nat, ghost b: Box)
      requires Holds(b) && BoxReady(b, Put(item))
      modifies this, sem
      ensures Holds(BoxApply(b, Put(item)))
    {
      items := items + [item];
      sem.SetSemaphore(1, b.s);
    }

    method ReturnPool(item: nat, ghost b: Box)
      requires Holds(b) && BoxReady(b, Return(item))
      modifies this, sem
      ensures Holds(BoxApply(b, Return(item)))
    {
      items := items + [item];
      sem.SetSemaphore(1, b.s);
    }

    /** The first turn of getting from a mailbox or taking from a pool. */
    method Get(c: Caller, ghost b: Box) returns (r: Outcome, item: nat)
      requires Holds(b) && BoxInv(b) && BoxReady(b, Take(Call(c)))
      modifies this, sem
      ensures Holds(BoxApply(b, Take(Call(c))))
      ensures Got(b, BoxApply(b, Take(Call(c))), r, item)
    {
      var flags;
      r, flags := sem.TestOnce(c, b.s);
      item := Unlink(r);
    }

    /** Each turn after a wake. */
    method GetAgain(k: nat, ghost b: Box) returns (r: Outcome, item: nat)
      requires Holds(b) && BoxInv(b) && k < |sem.ready|
      modifies this, sem
      ensures BoxReady(b, Take(Retry(k))) && Holds(BoxApply(b, Take(Retry(k))))
      ensures Got(b, BoxApply(b, Take(Retry(k))), r, item)
    {
      assert b.s.woken[k] in b.s.woken;
      var c := sem.RunOn(k);
      var flags;
      r, flags := sem.TestOnce(c, b.s.(woken := Cut(b.s.woken, k)));
      item := Unlink(r);
    }

    /** A granted taker gets the head of the list. */
    method Unlink(r: Outcome) returns (item: nat)
      requires r == Granted ==> items != []
      modifies this`items
      ensures r == Granted ==> item == old(items)[0] && items == old(items)[1..]
      ensures r != Granted ==> items == old(items)
    {
      item := 0;
      if r == Granted {
        item := items[0];
        items := items[1..];
      }
    }

    /** Other tasks and interrupts use the pool, in any number of steps; the item held stays
        held. A caller learns only that. */
    method OthersRun(item: nat, ghost b: Box) returns (ghost steps: seq<BoxStep>, ghost r: Box)
      requires Holds(b) && BoxInv(b) && item in b.out
      modifies this, sem
      ensures Holds(r) && Others(b, steps, r, item) && Ran(b, r, item)
    {
      steps, r := [], b;
      OthersRan(b, steps, r, item);
    }

    /** Test a pool by taking an item and returning it. In between anything may happen to the
        pool; the item goes to the tail of what is free by then. */
    method EmptyPool(t: nat, ghost b: Box) returns (empty: bool, ghost mid: Box, ghost after: Box)
      requires Holds(b) && BoxInv(b) && !Inside(b.s, t)
      modifies this, sem
      ensures Holds(after) && BoxInv(after) && after.all == b.all
      ensures empty <==> b.items == []
      ensures empty ==> after.items == [] && after.out == b.out
      ensures !empty ==>
        var item, taken := b.items[0], BoxApply(b, Take(Call(Caller(t, Test(1, true), true))));
        && taken.items == b.items[1..] && Ran(taken, mid, item)
        && after.items == mid.items + [item] && after.out == mid.out - multiset{item}
    {
      var c := Caller(t, Test(1, true), true);
      ghost var taken := BoxApply(b, Take(Call(c)));
      BoxStepInv(b, Take(Call(c)));
      var r, item := Get(c, b);
      empty := r != Granted;
      after, mid := taken, taken;
      if !empty {
        ghost var steps;
        steps, mid := OthersRun(item, taken);
        BoxStepInv(mid, Return(item));
        after := BoxApply(mid, Return(item));
        ReturnPool(item, mid);
      }
    }
  }

  /** A taker's turn: granted exactly when there is an item, and then it is the first. */
  ghost predicate Got(b: Box, r: Box, o: Outcome, item: nat) {
    && (o == Granted <==> b.items != [])
    && (o == Granted ==> item == b.items[0] && r.got == b.got + [item] && r.items == b.items[1..])
    && (o != Granted ==> r.got == b.got && r.items == b.items)
  }
}
