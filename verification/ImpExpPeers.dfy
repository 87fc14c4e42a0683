/** The code of the two ends of an exported object, proved to take the protocol's steps. */
module ImpExpPeers {
  import opened BlockingKernel
  import opened ImpExp
  import opened ImpExpSafety
  import opened Objects
  import B = Blocking

  /** The importing side: the object's wait queue and the tasks made ready from it. */
  class Importer {
    var count: nat
    var queue: seq<Waiter>
    var woken: seq<Woken>
    var up: seq<Request>

    /** This side together with the messages on their way to it. */
    ghost function View(down: seq<Down>): (c: Client)
      reads this
    {
      Client(count, queue, woken, up, down)
    }

    constructor (counter: nat)
      ensures View([]) == Client(counter, [], [], [], [])
    {
      count, queue, woken, up := counter, [], [], [];
    }

    method WaitOnSequence(task: nat, r: Req, par: Word, ghost down: seq<Down>)
      modifies this
      ensures View(down) == Send(old(View(down)), task, r, par)
      ensures queue == old(queue) + [Waiter(task, old(count) % 256, par, r, old(count))] && woken == old(woken)
      ensures up == old(up) + [Request(old(count) % 256, r, par, old(count))] && count == old(count) + 1
    {
      var q := count % 256;
      queue := queue + [Waiter(task, q, par, r, count)];
      up := up + [Request(q, r, par, count)];
      count := count + 1;
    }

    /** Search the queue for the task the ACK belongs to, give it the word the ACK carries
        when that is a result, and wake or park it. */
    method Ack(q: nat, success: bool, r: Req, par: Word, store: bool, ghost down: seq<Down>)
      modifies this
      ensures View(down) == OnAck(old(View(down)), store, q, success, r, par)
    {
      var k := 0;
      while k < |queue|
        invariant k <= |queue| && View(down) == old(View(down))
        invariant forall i :: 0 <= i < k ==> queue[i].p2 != q
      {
        var t := queue[k];
        if t.p2 == q {
          FindIs(queue, q, k);
          if r.TestFlags? || (success && store && r.Test?) { t := t.(p1 := par); }
          if success || !Waits(r) {
            queue := queue[..k] + queue[k + 1..];
            woken := woken + [Wake(t, if success then SUCCESS else FAILED)];
          } else {
            queue := queue[k := t.(p2 := PARKED)];
          }
          return;
        }
        k := k + 1;
      }
      FindIs(queue, q, k);
    }

    /** Take every task off the queue and make it ready with status "failed". */
    method Notify(ghost down: seq<Down>)
      modifies this
      ensures View(down) == OnNotify(old(View(down)))
      ensures queue == [] && up == old(up) && |woken| == |old(woken)| + |old(queue)| && old(woken) <= woken
      ensures forall i :: 0 <= i < |old(queue)| ==>
        woken[|old(woken)| + i].task == old(queue)[i].task && woken[|old(woken)| + i].p2 == FAILED
    {
      ghost var all := WakeAll(queue);
      while queue != []
        invariant count == old(count) && up == old(up)
        invariant |queue| <= |old(queue)| && queue == old(queue)[|old(queue)| - |queue|..]
        invariant woken == old(woken) + all[..|old(queue)| - |queue|]
        decreases |queue|
      {
        var t := queue[0];
        queue := queue[1..];
        woken := woken + [Wake(t, FAILED)];
      }
      assert all[..|all|] == all;
    }
  }

  lemma FindIs(queue: seq<Waiter>, q: nat, k: nat)
    requires k <= |queue| && (k < |queue| ==> queue[k].p2 == q)
    requires forall i :: 0 <= i < k ==> queue[i].p2 != q
    ensures Find(queue, q) == k
  {
  }

  lemma FlagVerdict(o: Obj, r: Req)
    requires r.TestFlags?
    ensures Passes(o, r) <==> o.Flags? && FlgTest(o.flags, r.mask, r.any)
  {
    hide FlgTest;
  }

  /** What serving a flag test does to the server's part. */
  lemma FlagsServed(s: State, i: nat)
    requires i < |s.clients| && s.clients[i].up != [] && s.clients[i].up[0].req.TestFlags?
    ensures var t, call := ServeOne(s, i), s.clients[i].up[0]; var ok := Passes(s.obj, call.req);
      && t.obj == (if ok then Effect(s.obj, call.req) else s.obj) && t.store == s.store && t.items == s.items
      && t.mask == (if ok || !Waits(call.req) then s.mask else s.mask + {i})
      && t.clients == s.clients[i := Respond(s.clients[i], ok, Reply(s, call.req, call.par))]
  {
    hide Passes, Effect, Reply;
  }

  lemma FlagChange(o: Obj, r: Req)
    requires o.Flags? && (r.SetFlags? || r.ToggleFlags? || r.ClearFlags?)
    ensures Passes(o, r) && (Notifies(r) <==> !r.ClearFlags?)
  {
  }

  /** The exporting side: the object with its local waiters, the items of a mailbox or pool,
      the notify mask and the channels. */
  class Exporter {
    const local: Local
    const store: bool
    var items: seq<nat>
    var mask: set<nat>
    var up: seq<seq<Request>>
    var down: seq<seq<Down>>

    constructor (o: Obj, isStore: bool, contents: seq<nat>, clients: nat)
      ensures fresh(local) && local.obj == o && store == isStore && items == contents && mask == {}
      ensures local.Shows(B.Init(o)) && |up| == |down| == clients
      ensures forall i :: 0 <= i < clients ==> up[i] == [] && down[i] == []
    {
      local := new Local(o);
      store, items, mask := isStore, contents, {};
      up, down := seq(clients, _ => []), seq(clients, _ => []);
    }

    /** The server's part of a protocol state. */
    ghost predicate Shows(s: State)
      reads this, local
    {
      && s.obj == local.obj && s.mask == mask && s.store == store && s.items == items
      && |s.clients| == |up| == |down|
      && forall i :: 0 <= i < |up| ==> s.clients[i].up == up[i] && s.clients[i].down == down[i]
    }

    /** The object and its local waiters, with the history left blank. */
    ghost function Here(): (b: B.State)
      reads local
      ensures local.Shows(b)
    {
      B.State(local.obj, local.waitq, local.ready, 0, 0, 0)
    }

    /** Send a NOTIFY to each processor on the mask, processor by processor. */
    method NotifyMasked()
      modifies this
      ensures items == old(items) && mask == {} && up == old(up) && |down| == |old(down)|
      ensures forall i :: 0 <= i < |down| ==>
        down[i] == if i in old(mask) then old(down)[i] + [Down.Notify] else old(down)[i]
    {
      for thread := 0 to |down|
        invariant items == old(items) && mask == old(mask) && up == old(up) && |down| == |old(down)|
        invariant forall i :: 0 <= i < |down| ==>
          down[i] == if i in mask && i < thread then old(down)[i] + [Down.Notify] else old(down)[i]
      {
        if thread in mask { down := down[thread := down[thread] + [Down.Notify]]; }
      }
      mask := {};
    }

    /** Acknowledge client `i`'s oldest request. A zero word is not sent: the request's own
        comes back. */
    method Reply(i: nat, ok: bool, word: Word)
      requires i < |up| == |down| && up[i] != []
      modifies this
      ensures items == old(items) && mask == old(mask)
      ensures up == old(up)[i := old(up)[i][1..]]
      ensures var par := if !ok || word == Value(0) || word == Bits(0) then old(up)[i][0].par else word;
        down == old(down)[i := old(down)[i] + [Down.Ack(old(up)[i][0], ok, par)]]
    {
      var par := up[i][0].par;
      if ok && word != Value(0) && word != Bits(0) { par := word; }
      down := down[i := down[i] + [Down.Ack(up[i][0], ok, par)]];
      up := up[i := up[i][1..]];
    }

    /** A test for one item takes it off the list. */
    method SemTest(i: nat, ghost s: State)
      requires Shows(s) && i < |up| && up[i] != [] && up[i][0].req.Test? && (store ==> up[i][0].req.amount == 1)
      modifies this, local`obj
      ensures Shows(ServeOne(s, i))
    {
      var r := up[i][0].req;
      var testVal := if store then 1 else r.amount;
      if local.obj.Sem? && local.obj.value >= testVal {
        var p := 0;
        if store && items != [] { p, items := items[0], items[1..]; }
        local.obj := Sem(local.obj.value - testVal);
        Reply(i, true, Value(p));
      } else {
        if r.wait { mask := mask + {i}; }
        Reply(i, false, Value(0));
      }
    }

    /** A granted flag test clears what it tested when asked to. */
    method ClearTested(r: Req)
      requires Passes(local.obj, r) && r.TestFlags?
      modifies local`obj
      ensures local.obj == Effect(old(local.obj), r)
    {
      hide FlgTest;
      if r.clear { local.obj := Flags(local.obj.flags & !r.mask); }
    }

    /** The ACK of a flag test carries the flags as they were before any were cleared. */
    method EfcTest(i: nat, ghost s: State)
      requires Shows(s) && i < |up| && up[i] != [] && up[i][0].req.TestFlags?
      modifies this, local`obj
      ensures Shows(ServeOne(s, i))
    {
      hide Passes, Effect, NewFlags, FlgTest, ServeOne;
      var r := up[i][0].req;
      FlagVerdict(local.obj, r);
      FlagsServed(s, i);
      if local.obj.Flags? && FlgTest(local.obj.flags, r.mask, r.any) {
        var flags := local.obj.flags;
        ClearTested(r);
        Reply(i, true, Bits(flags));
      } else {
        if r.wait { mask := mask + {i}; }
        Reply(i, false, Value(0));
      }
    }

    /** The end of every change that may make a test pass. */
    method Tell(ghost r: Req, ghost par: Word, ghost who: (nat, nat), ghost s: State)
      requires Passes(s.obj, r) && Notifies(r) && Shows(Stock(s, r, par, who).(obj := Effect(s.obj, r)))
      modifies this
      ensures Shows(Perform(s, r, par, who)) && up == old(up)
    {
      StockClients(s, r, par, who);
      hide Passes, Effect, Notifies, Stock;
      if mask != {} { NotifyMasked(); }
    }

    /** Increment, wake the local waiters, then tell every interested processor. */
    method SetSemaphore(increment: nat, ghost par: Word, ghost who: (nat, nat), ghost s: State)
      requires Shows(Stock(s, Set(increment), par, who)) && s.obj.Sem?
      modifies this, local
      ensures Shows(Perform(s, Set(increment), par, who)) && up == old(up)
      ensures local.waitq == B.Failing(local.obj, old(local.waitq))
      ensures local.ready == old(local.ready) + B.Passing(local.obj, old(local.waitq))
    {
      local.SetSemaphore(increment, Here());
      Tell(Set(increment), par, who, s);
    }

    /** Put an item into a mailbox or back into a pool. */
    method PutItem(item: nat, ghost who: (nat, nat), ghost s: State)
      requires Shows(s) && store && s.obj.Sem?
      modifies this, local
      ensures Shows(Perform(s, Set(1), Value(item), who)) && up == old(up)
      ensures local.waitq == B.Failing(local.obj, old(local.waitq))
      ensures local.ready == old(local.ready) + B.Passing(local.obj, old(local.waitq))
    {
      items := items + [item];
      SetSemaphore(1, Value(item), who, s);
    }

    /** Setting and toggling wake local waiters and tell the others; clearing does neither. */
    method ChangeFlags(r: Req, ghost par: Word, ghost who: (nat, nat), ghost s: State)
      requires Shows(s) && s.obj.Flags? && (r.SetFlags? || r.ToggleFlags? || r.ClearFlags?)
      modifies this, local
      ensures Shows(Perform(s, r, par, who)) && up == old(up)
      ensures local.waitq == if r.ClearFlags? then old(local.waitq) else B.Failing(local.obj, old(local.waitq))
      ensures local.ready ==
        if r.ClearFlags? then old(local.ready) else old(local.ready) + B.Passing(local.obj, old(local.waitq))
    {
      FlagChange(local.obj, r);
      hide Effect, Passes, Notifies;
      local.ChangeFlags(r, Here());
      if !r.ClearFlags? { Tell(r, par, who, s); }
    }

    method SemSet(i: nat, ghost s: State)
      requires Shows(s) && local.obj.Sem? && i < |up| && up[i] != [] && up[i][0].req.Set?
      requires store ==> up[i][0].req.amount == 1 && up[i][0].par.Value?
      modifies this, local
      ensures Shows(ServeOne(s, i))
      ensures local.waitq == B.Failing(local.obj, old(local.waitq))
      ensures local.ready == old(local.ready) + B.Passing(local.obj, old(local.waitq))
    {
      var call := up[i][0];
      if store {
        PutItem(call.par.n, (i, call.id), s);
      } else {
        SetSemaphore(call.req.amount, call.par, (i, call.id), s);
      }
      Reply(i, true, Value(0));
    }

    method EfcSet(i: nat, ghost s: State)
      requires Shows(s) && local.obj.Flags? && i < |up| && up[i] != []
      requires var r := up[i][0].req; r.SetFlags? || r.ToggleFlags? || r.ClearFlags?
      modifies this, local
      ensures Shows(ServeOne(s, i))
      ensures local.waitq ==
        if old(up)[i][0].req.ClearFlags? then old(local.waitq) else B.Failing(local.obj, old(local.waitq))
      ensures local.ready ==
        old(local.ready) + if old(up)[i][0].req.ClearFlags? then [] else B.Passing(local.obj, old(local.waitq))
    {
      hide Effect, Notifies, FlgTest;
      ChangeFlags(up[i][0].req, up[i][0].par, (i, up[i][0].id), s);
      Reply(i, true, Value(0));
    }
  }
}
