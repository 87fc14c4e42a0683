/** No waiter is stranded: what every step of clients, server, timers and channels keeps. */
module ImpExpSafety {
  import opened ImpExp
  import opened Objects
  import opened Sequences

  // ---- who will wake a parked task ----

  /** A NOTIFY is on its way, or the server has this client on its mask and the test fails. */
  ghost predicate Informed(rest: seq<Down>, bit: bool, o: Obj, r: Req) {
    Notify in rest || (bit && !Passes(o, r))
  }

  ghost predicate FailsWaiting(m: Down) { m.Ack? && !m.ok && Waits(m.call.req) }

  /** Behind every failing ACK of a waiting test the client is, or will be, informed. */
  ghost predicate Covered(down: seq<Down>, bit: bool, o: Obj) {
    forall i :: 0 <= i < |down| && FailsWaiting(down[i]) ==> Informed(down[i + 1..], bit, o, down[i].call.req)
  }

  /** The request a waiter with a number of its own has outstanding. */
  function Own(w: Waiter): (r: Request) { Request(w.p2, w.req, w.p1, w.id) }

  ghost predicate WaiterOk(flight: seq<Request>, down: seq<Down>, w: Waiter, bit: bool, o: Obj) {
    if w.p2 < 256 then Own(w) in flight
    else w.p2 == PARKED && Waits(w.req) && Informed(down, bit, o, w.req)
  }

  ghost predicate Distinct(flight: seq<Request>) {
    && (forall a :: 0 <= a < |flight| ==> flight[a].seqNum < 256)
    && forall a, b :: 0 <= a < b < |flight| ==> flight[a].seqNum != flight[b].seqNum
  }

  ghost predicate QueueOk(flight: seq<Request>, down: seq<Down>, queue: seq<Waiter>, bit: bool, o: Obj) {
    && (forall k :: 0 <= k < |queue| ==> WaiterOk(flight, down, queue[k], bit, o))
    && forall a, b :: 0 <= a < b < |queue| && queue[a].p2 == queue[b].p2 ==> queue[a].p2 == PARKED
  }

  ghost predicate ClientOk(c: Client, bit: bool, o: Obj) {
    && Distinct(Flight(c))
    && QueueOk(Flight(c), c.down, c.queue, bit, o)
    && Covered(c.down, bit, o)
  }

  lemma {:induction false} AckedAppend(down: seq<Down>, m: Down)
    ensures Acked(down + [m]) == Acked(down) + if m.Ack? then [m.call] else []
  {
    if down != [] {
      AckedAppend(down[1..], m);
      assert (down + [m])[1..] == down[1..] + [m];
    }
  }

  lemma InformedAppend(rest: seq<Down>, m: Down, bit: bool, o: Obj, r: Req)
    requires Informed(rest, bit, o, r)
    ensures Informed(rest + [m], bit, o, r)
  {
    assert Notify in rest ==> Notify in rest + [m];
  }

  lemma CoveredAppend(down: seq<Down>, m: Down, bit: bool, o: Obj)
    requires Covered(down, bit, o)
    requires FailsWaiting(m) ==> bit && !Passes(o, m.call.req)
    ensures Covered(down + [m], bit, o)
  {
    var d := down + [m];
    forall i | 0 <= i < |d| && FailsWaiting(d[i]) ensures Informed(d[i + 1..], bit, o, d[i].call.req) {
      if i < |down| {
        assert d[i + 1..] == down[i + 1..] + [m];
        InformedAppend(down[i + 1..], m, bit, o, down[i].call.req);
      }
    }
  }

  /** After a NOTIFY everything before it is covered, whatever happens to mask and object. */
  lemma NotifyCovers(c: Client, bit: bool, bit': bool, o: Obj, o': Obj)
    requires ClientOk(c, bit, o)
    ensures ClientOk(c.(down := c.down + [Notify]), bit', o')
  {
    var d := c.down + [Notify];
    AckedAppend(c.down, Notify);
    assert Flight(c.(down := d)) == Flight(c);
    forall i | 0 <= i < |d| && FailsWaiting(d[i]) ensures Informed(d[i + 1..], bit', o', d[i].call.req) {
      assert d[i + 1..][|c.down| - i - 1] == Notify;
    }
    assert d[|c.down|] == Notify;
    forall k | 0 <= k < |c.queue| ensures WaiterOk(Flight(c), d, c.queue[k], bit', o') {
      assert WaiterOk(Flight(c), c.down, c.queue[k], bit, o);
    }
  }

  /** A response moves the oldest request from one channel to the other. */
  lemma RespondOk(c: Client, ok: bool, par: Word, bit: bool, bit': bool, o: Obj)
    requires ClientOk(c, bit, o) && c.up != [] && (bit ==> bit')
    requires !ok && Waits(c.up[0].req) ==> bit' && !Passes(o, c.up[0].req)
    ensures ClientOk(Respond(c, ok, par), bit', o)
  {
    var d, m := Respond(c, ok, par), Ack(c.up[0], ok, par);
    AnswerFlight(c, ok, par);
    assert Covered(c.down, bit', o);
    CoveredAppend(c.down, m, bit', o);
    forall k | 0 <= k < |d.queue| ensures WaiterOk(Flight(d), d.down, d.queue[k], bit', o) {
      var w := d.queue[k];
      assert WaiterOk(Flight(c), c.down, w, bit, o);
      if w.p2 >= 256 { InformedAppend(c.down, m, bit', o, w.req); }
    }
  }

  lemma AnswerFlight(c: Client, ok: bool, par: Word)
    requires c.up != []
    ensures Flight(Respond(c, ok, par)) == Flight(c)
  {
    AckedAppend(c.down, Ack(c.up[0], ok, par));
    assert c.up == [c.up[0]] + c.up[1..];
  }

  /** Changes that notify nobody leave every client informed. */
  lemma QuietOk(c: Client, bit: bool, o: Obj, r: Req)
    requires ClientOk(c, bit, o) && Passes(o, r) && !Notifies(r)
    ensures ClientOk(c, bit, Effect(o, r))
  {
    hide Passes, Effect, FlgTest, Flight;
    var e := Effect(o, r);
    forall rest, t | Informed(rest, bit, o, t) ensures Informed(rest, bit, e, t) {
      if !Passes(o, t) { QuietChange(o, r, t); }
    }
    forall k | 0 <= k < |c.queue| ensures WaiterOk(Flight(c), c.down, c.queue[k], bit, e) {
      assert WaiterOk(Flight(c), c.down, c.queue[k], bit, o);
    }
  }

  lemma SendOk(c: Client, task: nat, r: Req, par: Word, bit: bool, o: Obj)
    requires ClientOk(c, bit, o) && Fresh(c)
    ensures ClientOk(Send(c, task, r, par), bit, o)
  {
    var d, q := Send(c, task, r, par), SeqOf(c.count);
    SendFlight(c, task, r, par);
    forall k | 0 <= k < |d.queue| ensures WaiterOk(Flight(d), d.down, d.queue[k], bit, o) {
      if k < |c.queue| {
        assert WaiterOk(Flight(c), c.down, c.queue[k], bit, o);
      } else {
        assert Flight(d)[|Flight(c)|] == Own(d.queue[k]);
      }
    }
    forall k | 0 <= k < |c.queue| ensures c.queue[k].p2 != q {
      assert WaiterOk(Flight(c), c.down, c.queue[k], bit, o);
    }
  }

  lemma SendFlight(c: Client, task: nat, r: Req, par: Word)
    ensures Flight(Send(c, task, r, par)) == Flight(c) + [Request(SeqOf(c.count), r, par, c.count)]
  {
  }

  lemma DropOk(c: Client, k: nat, bit: bool, o: Obj)
    requires ClientOk(c, bit, o) && k < |c.queue|
    ensures ClientOk(c.(queue := Cut(c.queue, k)), bit, o)
  {
    CutQueueOk(Flight(c), c.down, c.queue, k, bit, o);
    assert Flight(c.(queue := Cut(c.queue, k))) == Flight(c);
  }

  /** What is left of the channel once its first message is taken. */
  lemma RestCovered(down: seq<Down>, bit: bool, o: Obj)
    requires Covered(down, bit, o) && down != []
    ensures Covered(down[1..], bit, o)
  {
    var rest := down[1..];
    forall i | 0 <= i < |rest| && FailsWaiting(rest[i]) ensures Informed(rest[i + 1..], bit, o, rest[i].call.req) {
      assert rest[i + 1..] == down[i + 2..] && rest[i] == down[i + 1];
    }
  }

  lemma ReceiveOk(c: Client, store: bool, bit: bool, o: Obj)
    requires ClientOk(c, bit, o) && c.down != []
    ensures ClientOk(OnMessage(c, store), bit, o)
  {
    RestCovered(c.down, bit, o);
    if c.down[0].Notify? {
      assert Flight(OnMessage(c, store)) == Flight(c);
    } else {
      AckOk(c, store, bit, o);
    }
  }

  lemma AckOk(c: Client, store: bool, bit: bool, o: Obj)
    requires ClientOk(c, bit, o) && c.down != [] && c.down[0].Ack?
    requires Covered(c.down[1..], bit, o)
    ensures ClientOk(OnMessage(c, store), bit, o)
  {
    hide Distinct, Covered, WaiterOk, Waits, Wake, Told, Flight;
    var m := c.down[0];
    var d, rest, k := OnMessage(c, store), c.down[1..], Find(c.queue, m.call.seqNum);
    AckFlight(c, store);
    DistinctTail(Flight(c));
    forall j | 0 <= j < |c.queue| && j != k ensures WaiterOk(Flight(d), rest, c.queue[j], bit, o) {
      AckSkips(c, bit, o, j);
      assert Flight(c)[1..] == Flight(d);
    }
    if k < |c.queue| {
      OwnAck(c, bit, o, k);
      if m.ok || !Waits(m.call.req) {
        CutQueueOk(Flight(d), rest, c.queue, k, bit, o);
      } else {
        ParkOk(c, store, bit, o, Flight(d), k);
        ParkQueueOk(Flight(d), rest, c.queue, k, d.queue[k], bit, o);
      }
    }
  }

  /** The queue without one waiter. */
  lemma CutQueueOk(flight: seq<Request>, down: seq<Down>, queue: seq<Waiter>, k: nat, bit: bool, o: Obj)
    requires k < |queue| && forall j :: 0 <= j < |queue| && j != k ==> WaiterOk(flight, down, queue[j], bit, o)
    requires forall a, b :: 0 <= a < b < |queue| && queue[a].p2 == queue[b].p2 ==> queue[a].p2 == PARKED
    ensures QueueOk(flight, down, Cut(queue, k), bit, o)
  {
    var q := Cut(queue, k);
    forall j | 0 <= j < |q| ensures WaiterOk(flight, down, q[j], bit, o) {
      assert q[j] == queue[if j < k then j else j + 1];
    }
  }

  lemma ParkQueueOk(flight: seq<Request>, down: seq<Down>, queue: seq<Waiter>, k: nat, w: Waiter, bit: bool, o: Obj)
    requires k < |queue| && forall j :: 0 <= j < |queue| && j != k ==> WaiterOk(flight, down, queue[j], bit, o)
    requires forall a, b :: 0 <= a < b < |queue| && queue[a].p2 == queue[b].p2 ==> queue[a].p2 == PARKED
    requires WaiterOk(flight, down, w, bit, o) && w.p2 == PARKED
    ensures QueueOk(flight, down, queue[k := w], bit, o)
  {
  }

  lemma AckFlight(c: Client, store: bool)
    requires c.down != [] && c.down[0].Ack?
    ensures Flight(c) == [c.down[0].call] + Flight(OnMessage(c, store)) && OnMessage(c, store).down == c.down[1..]
  {
  }

  /** A waiter that parks is informed by what follows its ACK. */
  lemma ParkOk(c: Client, store: bool, bit: bool, o: Obj, flight: seq<Request>, k: nat)
    requires Covered(c.down, bit, o) && c.down != [] && FailsWaiting(c.down[0])
    requires k < |c.queue| && c.queue[k].req == c.down[0].call.req
    ensures var m := c.down[0];
      WaiterOk(flight, c.down[1..], Told(c.queue[k], store, m.call.req, false, m.par).(p2 := PARKED), bit, o)
  {
  }

  lemma DistinctTail(flight: seq<Request>)
    requires Distinct(flight) && flight != []
    ensures Distinct(flight[1..])
  {
  }

  /** An ACK belongs to the waiter that carries its number. */
  lemma OwnAck(c: Client, bit: bool, o: Obj, k: nat)
    requires ClientOk(c, bit, o) && c.down != [] && c.down[0].Ack?
    requires k < |c.queue| && c.queue[k].p2 == c.down[0].call.seqNum
    ensures Own(c.queue[k]) == c.down[0].call && c.queue[k].p2 < 256
  {
    assert WaiterOk(Flight(c), c.down, c.queue[k], bit, o);
    assert Flight(c)[0] == c.down[0].call;
  }

  lemma AckSkips(c: Client, bit: bool, o: Obj, j: nat)
    requires ClientOk(c, bit, o) && c.down != [] && c.down[0].Ack?
    requires j < |c.queue| && j != Find(c.queue, c.down[0].call.seqNum)
    ensures WaiterOk(Flight(c)[1..], c.down[1..], c.queue[j], bit, o)
  {
    var q := c.down[0].call.seqNum;
    var w, k := c.queue[j], Find(c.queue, q);
    assert Flight(c)[0] == c.down[0].call;
    assert WaiterOk(Flight(c), c.down, w, bit, o);
    if w.p2 < 256 {
      assert w.p2 != q by { assert k < j ==> c.queue[k].p2 == q; }
      var i :| 0 <= i < |Flight(c)| && Flight(c)[i] == Own(w);
      assert Flight(c)[1..][i - 1] == Own(w);
    } else if Notify in c.down {
      var i :| 0 <= i < |c.down| && c.down[i] == Notify;
      assert c.down[1..][i - 1] == Notify;
    }
  }

  // ---- every step keeps every client informed ----

  ghost predicate Clients(s: State) {
    forall i :: 0 <= i < |s.clients| ==> ClientOk(s.clients[i], i in s.mask, s.obj)
  }

  lemma PerformOk(s: State, r: Req, par: Word, who: (nat, nat))
    requires Clients(s) && Passes(s.obj, r)
    ensures Clients(Perform(s, r, par, who))
  {
    hide ClientOk, Passes, Effect, Notified, Stock;
    var t := Perform(s, r, par, who);
    forall i | 0 <= i < |t.clients| ensures ClientOk(t.clients[i], i in t.mask, t.obj) {
      if !Notifies(r) {
        StockClients(s, r, par, who);
        QuietOk(s.clients[i], i in s.mask, s.obj, r);
      } else if i in s.mask {
        NotifyCovers(s.clients[i], true, false, s.obj, t.obj);
      } else {
        Unmasked(s.clients[i], s.obj, t.obj);
      }
    }
  }

  lemma StockClients(s: State, r: Req, par: Word, who: (nat, nat))
    ensures var t := Stock(s, r, par, who);
      t == s.(items := t.items, put := t.put, got := t.got, takers := t.takers)
  {
  }

  /** A client that is not on the mask relies on NOTIFYs in flight alone. */
  lemma Unmasked(c: Client, o: Obj, o': Obj)
    requires ClientOk(c, false, o)
    ensures ClientOk(c, false, o')
  {
    forall k | 0 <= k < |c.queue| ensures WaiterOk(Flight(c), c.down, c.queue[k], false, o') {
      assert WaiterOk(Flight(c), c.down, c.queue[k], false, o);
    }
  }

  lemma ServeOk(s: State, i: nat)
    requires Clients(s) && Ready(s, Serve(i))
    ensures Clients(ServeOne(s, i))
  {
    hide ClientOk, Passes, Effect, Notified, Reply, Stock;
    var call, t := s.clients[i].up[0], ServeOne(s, i);
    var par, ok := Reply(s, call.req, call.par), Passes(s.obj, call.req);
    var p := if ok then Perform(s, call.req, call.par, (i, call.id)) else s;
    if ok {
      PerformOk(s, call.req, call.par, (i, call.id));
      PerformUp(s, call.req, call.par, (i, call.id));
    }
    RespondOk(p.clients[i], ok, par, i in p.mask, i in t.mask, p.obj);
  }

  /** Carrying out a request adds nothing but NOTIFYs to the clients. */
  lemma PerformUp(s: State, r: Req, par: Word, who: (nat, nat))
    requires Passes(s.obj, r)
    ensures var t := Perform(s, r, par, who);
      && |t.clients| == |s.clients|
      && forall i :: 0 <= i < |t.clients| ==>
        t.clients[i] ==
          if Notifies(r) && i in s.mask then s.clients[i].(down := s.clients[i].down + [Notify]) else s.clients[i]
  {
    hide Passes, Effect;
  }

  lemma StepOk(s: State, a: Step)
    requires Clients(s) && Ready(s, a)
    ensures Clients(Apply(s, a))
  {
    hide ClientOk, Fresh, Sound, Passes, Effect;
    match a
    case Call(i, task, r, par) => SendOk(s.clients[i], task, r, par, i in s.mask, s.obj);
    case Again(i, k, r, par) =>
      DropOk(s.clients[i], k, i in s.mask, s.obj);
      DropFresh(s.clients[i], k);
      SendOk(s.clients[i].(queue := Cut(s.clients[i].queue, k)), s.clients[i].queue[k].task, r, par,
        i in s.mask, s.obj);
    case Serve(i) => ServeOk(s, i);
    case Local(_, r, par) => PerformOk(s, r, par, (|s.clients|, |s.got|));
    case Receive(i) => ReceiveOk(s.clients[i], s.store, i in s.mask, s.obj);
    case Timeout(i, k) =>
      DropOk(s.clients[i], k, i in s.mask, s.obj);
      WokenOk(s.clients[i].(queue := Cut(s.clients[i].queue, k)), Expire(s.clients[i], k).woken, i in s.mask, s.obj);
    case Late(i, k) =>
      WokenOk(s.clients[i], s.clients[i].woken[k := s.clients[i].woken[k].(timedOut := true)], i in s.mask, s.obj);
    case Resume(i, k) => ResumeOk(s, i, k);
  }

  lemma DropFresh(c: Client, k: nat)
    requires Fresh(c) && k < |c.queue|
    ensures Fresh(c.(queue := Cut(c.queue, k)))
  {
    assert Flight(c.(queue := Cut(c.queue, k))) == Flight(c);
  }

  lemma WokenOk(c: Client, woken: seq<Woken>, bit: bool, o: Obj)
    requires ClientOk(c, bit, o)
    ensures ClientOk(c.(woken := woken), bit, o) && Flight(c.(woken := woken)) == Flight(c)
  {
  }

  lemma ResumeOk(s: State, i: nat, k: nat)
    requires Clients(s) && Ready(s, Resume(i, k))
    ensures Clients(Apply(s, Resume(i, k)))
  {
    hide ClientOk, Flight;
    var c := s.clients[i];
    var w, d := c.woken[k], c.(woken := Cut(c.woken, k));
    WokenOk(c, d.woken, i in s.mask, s.obj);
    if Retries(w) { SendOk(d, w.task, w.req, OwnPar(w.req), i in s.mask, s.obj); }
  }

  lemma StartOk(e: Export, counts: seq<nat>)
    ensures Clients(Start(e, counts))
  {
  }
}
