/** What each request was granted, what each task believes it was, and where the items of
    an exported mailbox or pool went. */
module ImpExpLedger {
  import opened ImpExp
  import opened ImpExpSafety
  import opened ImpExpTokens
  import opened Objects
  import opened Sequences

  // ---- the books of one client ----

  ghost predicate Numbered(flight: seq<Request>, count: nat) {
    && (forall a :: 0 <= a < |flight| ==> flight[a].id < count)
    && forall a, b :: 0 <= a < b < |flight| ==> flight[a].id < flight[b].id
  }

  /** An ACK of success tells of a grant and one of failure of none; for a plain semaphore
      it brings the request's own word back. */
  ghost predicate AckTrue(i: nat, m: Down, store: bool, g: map<(nat, nat), Grant>) {
    m.Ack? ==>
      && (m.ok <==> (i, m.call.id) in g)
      && (m.ok ==> g[(i, m.call.id)] == Grant(m.call.req, m.par))
      && (m.ok && m.call.req.Test? && !store ==> m.par == m.call.par)
  }

  ghost predicate Answered(i: nat, down: seq<Down>, store: bool, g: map<(nat, nat), Grant>) {
    forall j :: 0 <= j < |down| ==> AckTrue(i, down[j], store, g)
  }

  ghost predicate Unanswered(i: nat, up: seq<Request>, g: map<(nat, nat), Grant>) {
    forall j :: 0 <= j < |up| ==> (i, up[j].id) !in g
  }

  /** A parked waiter was refused, and has nothing outstanding. */
  ghost predicate Refused(i: nat, w: Waiter, flight: seq<Request>, g: map<(nat, nat), Grant>) {
    w.p2 >= 256 ==> (i, w.id) !in g && forall j :: 0 <= j < |flight| ==> flight[j].id != w.id
  }

  /** Requests of queued and woken tasks, and those claimed, are all different. */
  ghost predicate Apart(i: nat, queue: seq<Waiter>, woken: seq<Woken>, count: nat, claims: set<(nat, nat)>) {
    && (forall a :: 0 <= a < |queue| ==> queue[a].id < count && (i, queue[a].id) !in claims)
    && (forall a :: 0 <= a < |woken| ==> woken[a].id < count && (i, woken[a].id) !in claims)
    && (forall a, b :: 0 <= a < b < |queue| ==> queue[a].id != queue[b].id)
    && (forall a, b :: 0 <= a < b < |woken| ==> woken[a].id != woken[b].id)
    && (forall a, b :: 0 <= a < |queue| && 0 <= b < |woken| ==> queue[a].id != woken[b].id)
    && forall x :: x in claims && x.0 == i ==> x.1 < count
  }

  ghost predicate Books(i: nat, c: Client, store: bool, g: map<(nat, nat), Grant>, claims: set<(nat, nat)>) {
    && Numbered(Flight(c), c.count)
    && Answered(i, c.down, store, g)
    && Unanswered(i, c.up, g)
    && (forall k :: 0 <= k < |c.queue| ==> Refused(i, c.queue[k], Flight(c), g))
    && Apart(i, c.queue, c.woken, c.count, claims)
    && forall x :: x in g && x.0 == i ==> x.1 < c.count
  }

  ghost predicate LedgerOk(s: State) {
    && (forall i :: 0 <= i < |s.clients| ==> Books(i, s.clients[i], s.store, s.grants, s.claims))
    && (forall x :: x in s.grants ==> x.0 < |s.clients|)
    && forall x :: x in s.claims ==> x.0 < |s.clients|
  }

  // ---- what a woken task believes ----

  /** A task that reports success was granted what it asked for. */
  ghost predicate Backed(i: nat, w: Woken, g: map<(nat, nat), Grant>) {
    w.p2 == SUCCESS ==> (i, w.id) in g && g[(i, w.id)].req == w.req
  }

  /** ... and a test returns the word it was granted with: the item, or the flags. */
  ghost predicate Exact(i: nat, w: Woken, g: map<(nat, nat), Grant>) {
    Backed(i, w, g) && (w.p2 == SUCCESS && IsTest(w.req) ==> g[(i, w.id)].par == w.p1)
  }

  ghost predicate AllBacked(s: State) {
    forall i, k :: 0 <= i < |s.clients| && 0 <= k < |s.clients[i].woken| ==> Backed(i, s.clients[i].woken[k], s.grants)
  }

  ghost predicate AllExact(s: State) {
    forall i, k :: 0 <= i < |s.clients| && 0 <= k < |s.clients[i].woken| ==> Exact(i, s.clients[i].woken[k], s.grants)
  }

  /** A test times out under number 1, which is also the code for success, and no ACK of
      success is on its way to it. */
  ghost predicate Unbacked(s: State, a: Step) {
    UnderOne(s, a) && !Coming(s.clients[a.i].down, SUCCESS)
  }

  /** ... or one is, but carries another word than the test sent. */
  ghost predicate Garbled(s: State, a: Step) {
    UnderOne(s, a) && !ComingWith(s.clients[a.i].down, SUCCESS, s.clients[a.i].queue[a.k].p1)
  }

  ghost predicate UnderOne(s: State, a: Step) {
    a.Timeout? && a.i < |s.clients| && a.k < |s.clients[a.i].queue| && s.clients[a.i].queue[a.k].p2 == SUCCESS
  }

  ghost predicate ComingWith(down: seq<Down>, q: nat, par: Word) {
    exists j :: 0 <= j < |down| && Grants(down[j], q) && down[j].par == par
  }

  // ---- the steps of one client ----

  lemma NumberedTail(flight: seq<Request>, count: nat)
    requires Numbered(flight, count) && flight != []
    ensures Numbered(flight[1..], count) && forall j :: 0 <= j < |flight| - 1 ==> flight[1..][j].id != flight[0].id
  {
  }

  lemma SendBooks(i: nat, c: Client, task: nat, r: Req, par: Word, store: bool, g: map<(nat, nat), Grant>,
      claims: set<(nat, nat)>)
    requires Books(i, c, store, g, claims)
    ensures Books(i, Send(c, task, r, par), store, g, claims)
  {
    SendFlight(c, task, r, par);
  }

  lemma CutBooks(i: nat, c: Client, k: nat, store: bool, g: map<(nat, nat), Grant>, claims: set<(nat, nat)>)
    requires Books(i, c, store, g, claims) && k < |c.queue|
    ensures Books(i, c.(queue := Cut(c.queue, k)), store, g, claims)
    ensures Apart(i, Cut(c.queue, k), c.woken, c.count, claims)
    ensures forall a :: 0 <= a < |c.queue| - 1 ==> Cut(c.queue, k)[a].id != c.queue[k].id
  {
    var d := c.(queue := Cut(c.queue, k));
    assert Flight(d) == Flight(c);
    CutFacts(c.queue, k);
  }

  /** A waiter leaves the queue for the tasks made ready. */
  lemma MoveBooks(i: nat, c: Client, k: nat, w: Woken, store: bool, g: map<(nat, nat), Grant>, claims: set<(nat, nat)>)
    requires Books(i, c, store, g, claims) && k < |c.queue| && w.id == c.queue[k].id
    ensures Books(i, c.(queue := Cut(c.queue, k), woken := c.woken + [w]), store, g, claims)
  {
    var d := c.(queue := Cut(c.queue, k), woken := c.woken + [w]);
    assert Flight(d) == Flight(c);
    CutBooks(i, c, k, store, g, claims);
    hide Cut, Flight, Numbered, Answered, Unanswered, Refused;
  }

  /** The client has taken the oldest message off its channel. */
  lemma TakeBooks(i: nat, c: Client, store: bool, g: map<(nat, nat), Grant>, claims: set<(nat, nat)>)
    requires Books(i, c, store, g, claims) && c.down != []
    ensures Books(i, c.(down := c.down[1..]), store, g, claims)
    ensures c.down[0].Ack? ==> forall j :: 0 <= j < |Flight(c.(down := c.down[1..]))| ==>
      Flight(c.(down := c.down[1..]))[j].id != c.down[0].call.id
    ensures AckTrue(i, c.down[0], store, g)
  {
    var d := c.(down := c.down[1..]);
    TakeFlight(c);
    if c.down[0].Ack? {
      NumberedTail(Flight(c), c.count);
    }
    hide Flight, Numbered, Apart, AckTrue;
    forall k | 0 <= k < |c.queue| ensures Refused(i, c.queue[k], Flight(d), g) {
      assert Refused(i, c.queue[k], Flight(c), g);
    }
    forall j | 0 <= j < |d.down| ensures AckTrue(i, d.down[j], store, g) {
      assert d.down[j] == c.down[j + 1];
    }
  }

  lemma TakeFlight(c: Client)
    requires c.down != []
    ensures var d := c.(down := c.down[1..]);
      if c.down[0].Ack? then
        Flight(c) == [c.down[0].call] + Flight(d) && Flight(d) == Flight(c)[1..]
      else Flight(d) == Flight(c)
  {
    var d := c.(down := c.down[1..]);
    if c.down[0].Ack? {
      assert Flight(c) == [c.down[0].call] + Flight(d);
    }
  }

  lemma AckBooks(i: nat, c: Client, store: bool, bit: bool, o: Obj, g: map<(nat, nat), Grant>, claims: set<(nat, nat)>)
    requires ClientOk(c, bit, o) && Books(i, c, store, g, claims) && c.down != [] && c.down[0].Ack?
    ensures Books(i, OnMessage(c, store), store, g, claims)
    ensures forall j :: |c.woken| <= j < |OnMessage(c, store).woken| ==> Exact(i, OnMessage(c, store).woken[j], g)
  {
    var m, d := c.down[0], c.(down := c.down[1..]);
    var k := Find(c.queue, m.call.seqNum);
    TakeBooks(i, c, store, g, claims);
    if k < |c.queue| {
      OwnAck(c, bit, o, k);
      var w := Told(c.queue[k], store, m.call.req, m.ok, m.par);
      if m.ok || !Waits(m.call.req) {
        MoveBooks(i, d, k, Wake(w, if m.ok then SUCCESS else FAILED), store, g, claims);
      } else {
        ParkBooks(i, d, k, w.(p2 := PARKED), store, g, claims);
      }
    }
  }

  lemma ParkBooks(i: nat, c: Client, k: nat, w: Waiter, store: bool, g: map<(nat, nat), Grant>, claims: set<(nat, nat)>)
    requires Books(i, c, store, g, claims) && k < |c.queue| && w.id == c.queue[k].id && Refused(i, w, Flight(c), g)
    ensures Books(i, c.(queue := c.queue[k := w]), store, g, claims)
  {
    assert Flight(c.(queue := c.queue[k := w])) == Flight(c);
  }

  lemma NotifyBooks(i: nat, c: Client, store: bool, g: map<(nat, nat), Grant>, claims: set<(nat, nat)>)
    requires Books(i, c, store, g, claims) && c.down != [] && c.down[0].Notify?
    ensures Books(i, OnMessage(c, store), store, g, claims)
    ensures forall j :: |c.woken| <= j < |OnMessage(c, store).woken| ==> Exact(i, OnMessage(c, store).woken[j], g)
  {
    var d := c.(down := c.down[1..]);
    TakeBooks(i, c, store, g, claims);
    assert Flight(OnNotify(d)) == Flight(d);
    hide Flight, Numbered, Answered, Unanswered;
  }

  lemma ResumeBooks(i: nat, c: Client, k: nat, store: bool, g: map<(nat, nat), Grant>, claims: set<(nat, nat)>)
    requires Books(i, c, store, g, claims) && k < |c.woken|
    ensures Books(i, OnResume(c, k), store, g,
      if c.woken[k].p2 == SUCCESS then claims + {(i, c.woken[k].id)} else claims)
  {
    var w, d := c.woken[k], c.(woken := Cut(c.woken, k));
    var after := if w.p2 == SUCCESS then claims + {(i, w.id)} else claims;
    assert Flight(d) == Flight(c);
    CutFacts(c.woken, k);
    assert Books(i, d, store, g, after) by { hide Flight, Numbered, Answered, Unanswered, Refused, Cut; }
    if Retries(w) { SendBooks(i, d, w.task, w.req, OwnPar(w.req), store, g, after); }
  }

  /** The answer to a test that times out, if one is on its way, was a grant exactly when
      it is an ACK of success. */
  lemma Verdict(i: nat, c: Client, k: nat, store: bool, bit: bool, o: Obj, g: map<(nat, nat), Grant>,
      claims: set<(nat, nat)>)
    requires ClientOk(c, bit, o) && Books(i, c, store, g, claims) && k < |c.queue| && c.queue[k].p2 < 256
    ensures var w := c.queue[k];
      && ((i, w.id) in g <==> Coming(c.down, w.p2))
      && ((i, w.id) in g ==> g[(i, w.id)].req == w.req)
      && ((i, w.id) in g ==> (g[(i, w.id)].par == w.p1 <==> ComingWith(c.down, w.p2, w.p1)))
  {
    var w := c.queue[k];
    assert WaiterOk(Flight(c), c.down, w, bit, o);
    if Coming(c.down, w.p2) {
      var j := OwnGrant(c, k, bit, o);
      assert AckTrue(i, c.down[j], store, g);
      forall l | 0 <= l < |c.down| && Grants(c.down[l], w.p2) ensures c.down[l].par == c.down[j].par {
        AckInFlight(c, l);
        assert AckTrue(i, c.down[l], store, g);
      }
    } else if (i, w.id) in g {
      if Own(w) in c.up {
        assert false;
      } else {
        var j := AckedFrom(c.down, Own(w));
        assert AckTrue(i, c.down[j], store, g) && Grants(c.down[j], w.p2);
        assert false;
      }
    }
  }

  lemma {:induction false} AckedFrom(down: seq<Down>, r: Request) returns (j: nat)
    requires r in Acked(down)
    ensures j < |down| && down[j].Ack? && down[j].call == r
  {
    if down[0].Ack? && down[0].call == r {
      j := 0;
    } else {
      j := AckedFrom(down[1..], r);
      j := j + 1;
    }
  }

  // ---- the server ----

  /** A grant to one client is nothing to the others. */
  lemma OthersBooks(i: nat, c: Client, store: bool, g: map<(nat, nat), Grant>, claims: set<(nat, nat)>,
      x: (nat, nat), e: Grant)
    requires Books(i, c, store, g, claims) && x.0 != i
    ensures Books(i, c, store, g[x := e], claims)
  {
    hide Flight, Numbered, Apart;
    forall j | 0 <= j < |c.down| ensures AckTrue(i, c.down[j], store, g[x := e]) {
      assert AckTrue(i, c.down[j], store, g);
    }
  }

  lemma NotifiedBooks(i: nat, c: Client, store: bool, g: map<(nat, nat), Grant>, claims: set<(nat, nat)>)
    requires Books(i, c, store, g, claims)
    ensures Books(i, c.(down := c.down + [Notify]), store, g, claims)
  {
    var d := c.(down := c.down + [Notify]);
    AckedAppend(c.down, Notify);
    assert Flight(d) == Flight(c);
    hide Flight, Numbered, Apart;
  }

  lemma RespondBooks(i: nat, c: Client, ok: bool, par: Word, store: bool, g: map<(nat, nat), Grant>,
      claims: set<(nat, nat)>)
    requires Books(i, c, store, g, claims) && c.up != []
    requires ok && c.up[0].req.Test? && !store ==> par == c.up[0].par
    ensures var after := if ok then g[(i, c.up[0].id) := Grant(c.up[0].req, par)] else g;
      Books(i, Respond(c, ok, par), store, after, claims)
  {
    var x, d, m := (i, c.up[0].id), Respond(c, ok, par), Ack(c.up[0], ok, par);
    var after := if ok then g[x := Grant(c.up[0].req, par)] else g;
    AnswerFlight(c, ok, par);
    FirstUnanswered(c);
    hide Flight, Apart;
    forall j | 0 <= j < |d.down| ensures AckTrue(i, d.down[j], store, after) {
      if j < |c.down| {
        assert AckTrue(i, c.down[j], store, g) && c.down[j] == d.down[j];
      }
    }
    forall j | 0 <= j < |d.up| ensures (i, d.up[j].id) !in after {
      assert d.up[j] == c.up[j + 1] && (i, c.up[j + 1].id) !in g;
    }
    forall k | 0 <= k < |d.queue| ensures Refused(i, d.queue[k], Flight(d), after) {
      assert Refused(i, c.queue[k], Flight(c), g);
      assert Flight(c)[|Acked(c.down)|] == c.up[0] by { FlightAt(c); }
    }
  }

  lemma FlightAt(c: Client)
    requires c.up != []
    ensures |Flight(c)| > |Acked(c.down)| && Flight(c)[|Acked(c.down)|] == c.up[0]
  {
  }

  /** Ids of different requests in flight differ. */
  lemma FirstUnanswered(c: Client)
    requires Numbered(Flight(c), c.count) && c.up != []
    ensures c.up[0].id < c.count
    ensures forall j :: 0 <= j < |c.down| && c.down[j].Ack? ==> c.down[j].call.id != c.up[0].id
    ensures forall j :: 1 <= j < |c.up| ==> c.up[j].id != c.up[0].id
  {
    var n, f := |Acked(c.down)|, Flight(c);
    assert f[n] == c.up[0];
    forall j | 0 <= j < |c.down| && c.down[j].Ack? ensures c.down[j].call.id != c.up[0].id {
      AckedHas(c.down, j);
      var a :| 0 <= a < n && Acked(c.down)[a] == c.down[j].call;
      assert f[a] == c.down[j].call;
    }
    forall j | 1 <= j < |c.up| ensures c.up[j].id != c.up[0].id {
      assert f[n + j] == c.up[j];
    }
  }

  lemma PerformBooks(s: State, r: Req, par: Word, who: (nat, nat))
    requires LedgerOk(s) && Passes(s.obj, r)
    ensures LedgerOk(Perform(s, r, par, who))
  {
    hide Passes, Effect, Notified, Books, Stock;
    var t := Perform(s, r, par, who);
    PerformUp(s, r, par, who);
    StockClients(s, r, par, who);
    forall i | 0 <= i < |t.clients| ensures Books(i, t.clients[i], t.store, t.grants, t.claims) {
      NotifiedBooks(i, s.clients[i], s.store, s.grants, s.claims);
    }
  }

  lemma PlainReply(s: State, r: Req, par: Word)
    requires r.Test? && !s.store
    ensures Reply(s, r, par) == par
  {
  }

  lemma ServeBooks(s: State, i: nat)
    requires LedgerOk(s) && Ready(s, Serve(i))
    ensures LedgerOk(ServeOne(s, i))
  {
    hide Passes, Effect, Notified, Books, Stock, Reply;
    var call := s.clients[i].up[0];
    var par, ok := Reply(s, call.req, call.par), Passes(s.obj, call.req);
    var p := if ok then Perform(s, call.req, call.par, (i, call.id)) else s;
    if ok {
      PerformBooks(s, call.req, call.par, (i, call.id));
      PerformUp(s, call.req, call.par, (i, call.id));
      StockClients(s, call.req, call.par, (i, call.id));
    }
    if call.req.Test? && !s.store { PlainReply(s, call.req, call.par); }
    RespondBooks(i, p.clients[i], ok, par, s.store, s.grants, s.claims);
    var t := ServeOne(s, i);
    forall j | 0 <= j < |t.clients| ensures Books(j, t.clients[j], t.store, t.grants, t.claims) {
      if j != i && ok {
        OthersBooks(j, p.clients[j], s.store, s.grants, s.claims, (i, call.id), Grant(call.req, par));
      }
    }
  }

  // ---- every step keeps the books ----

  lemma PutBooks(s: State, i: nat, c: Client, t: State)
    requires LedgerOk(s) && i < |s.clients| && Books(i, c, s.store, s.grants, t.claims)
    requires t.clients == s.clients[i := c] && t.store == s.store && t.grants == s.grants
    requires t.claims == s.claims || exists n :: t.claims == s.claims + {(i, n)}
    ensures LedgerOk(t)
  {
    hide Flight, Numbered, Answered, Unanswered, Refused;
    forall j | 0 <= j < |t.clients| ensures Books(j, t.clients[j], t.store, t.grants, t.claims) {
      if j != i { assert Books(j, s.clients[j], s.store, s.grants, s.claims); }
    }
  }

  lemma StepBooks(s: State, a: Step)
    requires Clients(s) && LedgerOk(s) && Ready(s, a)
    ensures LedgerOk(Apply(s, a))
  {
    hide ClientOk, Fresh, Sound, Passes, Effect, Coming, Books, LedgerOk, Retries;
    var t := Apply(s, a);
    if !a.Serve? && !a.Local? { BooksOf(s, a.i); }
    match a
    case Call(i, task, r, par) =>
      SendBooks(i, s.clients[i], task, r, par, s.store, s.grants, s.claims);
      PutBooks(s, i, Send(s.clients[i], task, r, par), t);
    case Again(i, k, r, par) =>
      var c := s.clients[i];
      CutBooks(i, c, k, s.store, s.grants, s.claims);
      SendBooks(i, c.(queue := Cut(c.queue, k)), c.queue[k].task, r, par, s.store, s.grants, s.claims);
      PutBooks(s, i, Send(c.(queue := Cut(c.queue, k)), c.queue[k].task, r, par), t);
    case Serve(i) => ServeBooks(s, i);
    case Local(_, r, par) =>
      PerformBooks(s, r, par, (|s.clients|, |s.got|));
      SameBooks(Perform(s, r, par, (|s.clients|, |s.got|)), t);
    case Receive(i) =>
      ReceiveBooks(s, i);
      PutBooks(s, i, OnMessage(s.clients[i], s.store), t);
    case Timeout(i, k) =>
      ExpireBooks(s, i, k);
      PutBooks(s, i, Expire(s.clients[i], k), t);
    case Late(i, k) =>
      LateBooks(i, s.clients[i], k, s.store, s.grants, s.claims);
      PutBooks(s, i, t.clients[i], t);
    case Resume(i, k) =>
      ResumeBooks(i, s.clients[i], k, s.store, s.grants, s.claims);
      PutBooks(s, i, OnResume(s.clients[i], k), t);
  }

  lemma BooksOf(s: State, i: nat)
    requires LedgerOk(s) && i < |s.clients|
    ensures Books(i, s.clients[i], s.store, s.grants, s.claims)
  {
  }

  lemma SameBooks(s: State, t: State)
    requires LedgerOk(s) && t.clients == s.clients && t.store == s.store && t.grants == s.grants && t.claims == s.claims
    ensures LedgerOk(t)
  {
  }

  lemma ReceiveBooks(s: State, i: nat)
    requires Clients(s) && LedgerOk(s) && Ready(s, Receive(i))
    ensures Books(i, OnMessage(s.clients[i], s.store), s.store, s.grants, s.claims)
    ensures forall j :: |s.clients[i].woken| <= j < |OnMessage(s.clients[i], s.store).woken| ==>
      Exact(i, OnMessage(s.clients[i], s.store).woken[j], s.grants)
  {
    hide ClientOk, Books, Exact;
    BooksOf(s, i);
    if s.clients[i].down[0].Ack? {
      AckBooks(i, s.clients[i], s.store, i in s.mask, s.obj, s.grants, s.claims);
    } else {
      NotifyBooks(i, s.clients[i], s.store, s.grants, s.claims);
    }
  }

  lemma ExpireBooks(s: State, i: nat, k: nat)
    requires LedgerOk(s) && Ready(s, Timeout(i, k))
    ensures Books(i, Expire(s.clients[i], k), s.store, s.grants, s.claims)
  {
    hide Books;
    BooksOf(s, i);
    var w := s.clients[i].queue[k];
    MoveBooks(i, s.clients[i], k, Woken(w.task, w.p2, w.p1, w.req, w.id, true), s.store, s.grants, s.claims);
  }

  lemma LateBooks(i: nat, c: Client, k: nat, store: bool, g: map<(nat, nat), Grant>, claims: set<(nat, nat)>)
    requires Books(i, c, store, g, claims) && k < |c.woken|
    ensures Books(i, c.(woken := c.woken[k := c.woken[k].(timedOut := true)]), store, g, claims)
  {
    assert Flight(c.(woken := c.woken[k := c.woken[k].(timedOut := true)])) == Flight(c);
    hide Flight, Numbered, Answered, Unanswered, Refused;
  }

  lemma StartBooks(e: Export, counts: seq<nat>)
    ensures LedgerOk(Start(e, counts)) && AllExact(Start(e, counts))
  {
    var s := Start(e, counts);
    forall i | 0 <= i < |s.clients| ensures Books(i, s.clients[i], s.store, s.grants, s.claims) {
      NewBooks(i, s.clients[i].count, s.store);
    }
    hide Books;
  }

  lemma NewBooks(i: nat, count: nat, store: bool)
    ensures Books(i, Client(count, [], [], [], []), store, map[], {})
  {
  }

  // ---- success reported and success granted ----

  ghost predicate Same(w: Woken, v: Woken) { w.p2 == v.p2 && w.p1 == v.p1 && w.req == v.req && w.id == v.id }

  /** Where a woken task comes from: it was there, an ACK or NOTIFY woke it, or it timed out. */
  ghost predicate Origin(s: State, a: Step, i: nat, w: Woken)
    requires i < |s.clients|
  {
    || (exists k :: 0 <= k < |s.clients[i].woken| && Same(w, s.clients[i].woken[k]))
    || (a.Receive? && a.i == i && Exact(i, w, s.grants))
    || (a.Timeout? && a.i == i && a.k < |s.clients[i].queue| && w == Expired(s.clients[i].queue[a.k]))
  }

  function Expired(w: Waiter): (v: Woken) { Woken(w.task, w.p2, w.p1, w.req, w.id, true) }

  lemma WokenFrom(s: State, a: Step, i: nat, k: nat)
    requires Clients(s) && LedgerOk(s) && Ready(s, a) && i < |s.clients|
    requires i < |Apply(s, a).clients| && k < |Apply(s, a).clients[i].woken|
    ensures Origin(s, a, i, Apply(s, a).clients[i].woken[k])
  {
    hide Clients, LedgerOk, Fresh, Sound, Passes, Effect, Coming, Exact, ServeOne, Perform, OnMessage, Send;
    var before, after := s.clients[i].woken, Apply(s, a).clients[i].woken;
    match a
    case Serve(_) => SameWoken(s, a, i);
    case Local(_, _, _) => SameWoken(s, a, i);
    case Receive(j) =>
      if j == i { ReceiveBooks(s, i); ReceiveKeeps(s.clients[i], s.store); } else { assert after == before; }
    case Timeout(j, l) => if j != i || k < |before| { assert after[k] == before[k]; }
    case _ => AskedFrom(s, a, i, k);
  }

  lemma AskedFrom(s: State, a: Step, i: nat, k: nat)
    requires Ready(s, a) && (a.Call? || a.Again? || a.Late? || a.Resume?) && i < |s.clients|
    requires i < |Apply(s, a).clients| && k < |Apply(s, a).clients[i].woken|
    ensures Origin(s, a, i, Apply(s, a).clients[i].woken[k])
  {
    hide Fresh, Sound;
    var before, after := s.clients[i].woken, Apply(s, a).clients[i].woken;
    match a
    case Call(_, _, _, _) => assert after == before;
    case Again(_, _, _, _) => assert after == before;
    case Late(j, l) => assert Same(after[k], before[k]);
    case Resume(j, l) =>
      if j == i { assert after[k] == before[if k < l then k else k + 1]; } else { assert after == before; }
  }

  lemma SameWoken(s: State, a: Step, i: nat)
    requires Ready(s, a) && (a.Serve? || a.Local?) && i < |s.clients|
    ensures |Apply(s, a).clients| == |s.clients| && Apply(s, a).clients[i].woken == s.clients[i].woken
    ensures Apply(s, a).clients[i].queue == s.clients[i].queue
  {
    hide Passes, Effect, Sound, Reply, Perform, Notified;
    match a
    case Serve(j) =>
      var call := s.clients[j].up[0];
      if Passes(s.obj, call.req) { PerformUp(s, call.req, call.par, (j, call.id)); }
    case Local(_, r, par) => PerformUp(s, r, par, (|s.clients|, |s.got|));
  }

  lemma ReceiveKeeps(c: Client, store: bool)
    requires c.down != []
    ensures |OnMessage(c, store).woken| >= |c.woken|
    ensures forall k :: 0 <= k < |c.woken| ==> OnMessage(c, store).woken[k] == c.woken[k]
  {
  }

  /** Grants are only added. */
  lemma GrantsGrow(s: State, a: Step)
    requires LedgerOk(s) && Ready(s, a)
    ensures forall x :: x in s.grants ==> x in Apply(s, a).grants && Apply(s, a).grants[x] == s.grants[x]
    ensures |Apply(s, a).clients| == |s.clients|
  {
    hide Passes, Effect, Sound, Reply, Fresh, Coming, Notified, OnMessage, OnResume, Send, Expire;
    if a.Serve? { assert Books(a.i, s.clients[a.i], s.store, s.grants, s.claims); }
  }

  /** A step keeps all reports of success true unless it is a timeout under number 1 with
      no grant on its way, and that one makes a report false. */
  lemma StepBacked(s: State, a: Step)
    requires Clients(s) && LedgerOk(s) && Ready(s, a)
    ensures AllBacked(s) && !Unbacked(s, a) ==> AllBacked(Apply(s, a))
    ensures AllExact(s) && !Garbled(s, a) ==> AllExact(Apply(s, a))
    ensures Unbacked(s, a) ==> !AllBacked(Apply(s, a))
    ensures Garbled(s, a) ==> !AllExact(Apply(s, a))
  {
    hide Clients, LedgerOk, Ready, Apply, Coming, ComingWith;
    var t := Apply(s, a);
    GrantsGrow(s, a);
    if UnderOne(s, a) { TimeoutBacked(s, a.i, a.k); }
    if AllBacked(s) && !Unbacked(s, a) {
      forall i, k | 0 <= i < |t.clients| && 0 <= k < |t.clients[i].woken|
        ensures Backed(i, t.clients[i].woken[k], t.grants) {
        WokenFrom(s, a, i, k);
      }
    }
    if AllExact(s) && !Garbled(s, a) {
      forall i, k | 0 <= i < |t.clients| && 0 <= k < |t.clients[i].woken|
        ensures Exact(i, t.clients[i].woken[k], t.grants) {
        WokenFrom(s, a, i, k);
      }
    }
  }

  lemma TimeoutBacked(s: State, i: nat, k: nat)
    requires Clients(s) && LedgerOk(s) && Ready(s, Timeout(i, k)) && UnderOne(s, Timeout(i, k))
    ensures var t, w := Apply(s, Timeout(i, k)), Expired(s.clients[i].queue[k]);
      && t.grants == s.grants && i < |t.clients|
      && |t.clients[i].woken| == |s.clients[i].woken| + 1 && t.clients[i].woken[|s.clients[i].woken|] == w
      && (Backed(i, w, s.grants) <==> !Unbacked(s, Timeout(i, k)))
      && (Exact(i, w, s.grants) <==> !Garbled(s, Timeout(i, k)))
  {
    hide ClientOk, Books, Coming, ComingWith;
    var w := s.clients[i].queue[k];
    Verdict(i, s.clients[i], k, s.store, i in s.mask, s.obj, s.grants, s.claims);
    ComingIs(s.clients[i].down, w.p2, w.p1);
  }

  lemma ComingIs(down: seq<Down>, q: nat, par: Word)
    ensures ComingWith(down, q, par) ==> Coming(down, q)
  {
  }

  // ---- mailboxes and pools ----

  predicate ForStore(r: Req) { (r.Test? || r.Set?) && r.amount == 1 }

  /** Every request on the way to a mailbox or pool is for one item, or brings one. */
  ghost predicate Kinds(c: Client) {
    && (forall j :: 0 <= j < |c.up| ==>
      ForStore(c.up[j].req) && (c.up[j].req.Set? ==> c.up[j].par.Value? && c.up[j].par.n > 0))
    && (forall k :: 0 <= k < |c.queue| ==> ForStore(c.queue[k].req))
    && forall k :: 0 <= k < |c.woken| ==> ForStore(c.woken[k].req)
  }

  /** The k-th item taken went to the k-th taker, a client's request that was granted it,
      or the server itself; no request takes twice. */
  ghost predicate TakersOk(n: nat, got: seq<nat>, takers: seq<(nat, nat)>, g: map<(nat, nat), Grant>) {
    && |takers| == |got|
    && (forall k :: 0 <= k < |got| ==> Taker(n, k, got[k], takers[k], g))
    && (forall j, k :: 0 <= j < k < |takers| ==> takers[j] != takers[k])
    && forall x :: x in g && g[x].req.Test? ==> x in takers
  }

  ghost predicate Taker(n: nat, k: nat, item: nat, x: (nat, nat), g: map<(nat, nat), Grant>) {
    if x.0 == n then x.1 == k
    else x.0 < n && x in g && g[x].req.Test? && g[x].par == Value(item)
  }

  ghost predicate StoreOk(s: State) {
    s.store ==>
      && s.obj == Sem(|s.items|)
      && s.put == s.got + s.items
      && (forall k :: 0 <= k < |s.items| ==> s.items[k] > 0)
      && (forall i :: 0 <= i < |s.clients| ==> Kinds(s.clients[i]))
      && TakersOk(|s.clients|, s.got, s.takers, s.grants)
  }

  lemma StockOk(s: State, r: Req, par: Word, who: (nat, nat))
    requires StoreOk(s) && s.store && ForStore(r) && Passes(s.obj, r) && (r.Set? ==> par.Value? && par.n > 0)
    ensures var t := Perform(s, r, par, who);
      && t.store && t.obj == Sem(|t.items|) && t.put == t.got + t.items
      && (forall k :: 0 <= k < |t.items| ==> t.items[k] > 0)
      && (r.Test? ==>
        && s.items != [] && t.got == s.got + [s.items[0]] && t.takers == s.takers + [who]
        && Reply(s, r, par) == Value(s.items[0]))
      && (r.Set? ==> t.got == s.got && t.takers == s.takers)
  {
    hide Kinds, TakersOk, FlgTest, NewFlags;
    if r.Test? { assert s.items == [s.items[0]] + s.items[1..]; }
  }

  lemma TakerAppend(n: nat, got: seq<nat>, takers: seq<(nat, nat)>, g: map<(nat, nat), Grant>, item: nat,
      x: (nat, nat), g': map<(nat, nat), Grant>)
    requires TakersOk(n, got, takers, g)
    requires if x.0 == n then x.1 == |got| && g' == g
      else x.0 < n && x !in g && exists r: Req :: r.Test? && g' == g[x := Grant(r, Value(item))]
    ensures TakersOk(n, got + [item], takers + [x], g')
  {
    var ts := takers + [x];
    forall k | 0 <= k < |got| + 1 ensures Taker(n, k, (got + [item])[k], ts[k], g') {
      if k < |got| { assert Taker(n, k, got[k], takers[k], g); }
    }
    forall j | 0 <= j < |takers| ensures takers[j] != x {
      assert Taker(n, j, got[j], takers[j], g);
    }
    assert ts[|takers|] == x;
  }

  lemma SetGranted(n: nat, got: seq<nat>, takers: seq<(nat, nat)>, g: map<(nat, nat), Grant>, x: (nat, nat), e: Grant)
    requires TakersOk(n, got, takers, g) && x !in g && !e.req.Test?
    ensures TakersOk(n, got, takers, g[x := e])
  {
    forall k | 0 <= k < |got| ensures Taker(n, k, got[k], takers[k], g[x := e]) {
      assert Taker(n, k, got[k], takers[k], g);
    }
  }

  lemma ServeStore(s: State, i: nat)
    requires LedgerOk(s) && StoreOk(s) && s.store && Ready(s, Serve(i))
    ensures StoreOk(ServeOne(s, i))
  {
    hide Passes, Effect, Notified, Stock, Reply;
    var call, t := s.clients[i].up[0], ServeOne(s, i);
    var who := (i, call.id);
    KindsServed(s, i);
    if Passes(s.obj, call.req) {
      StockOk(s, call.req, call.par, who);
      PerformUp(s, call.req, call.par, who);
      StockClients(s, call.req, call.par, who);
      assert who !in s.grants by { assert Books(i, s.clients[i], s.store, s.grants, s.claims); }
      if call.req.Test? {
        assert t.grants == s.grants[who := Grant(call.req, Value(s.items[0]))];
        TakerAppend(|s.clients|, s.got, s.takers, s.grants, s.items[0], who, t.grants);
      } else {
        SetGranted(|s.clients|, s.got, s.takers, s.grants, who, t.grants[who]);
      }
    }
  }

  lemma KindsServed(s: State, i: nat)
    requires (forall j :: 0 <= j < |s.clients| ==> Kinds(s.clients[j])) && Ready(s, Serve(i))
    ensures var t := ServeOne(s, i);
      |t.clients| == |s.clients| && forall j :: 0 <= j < |t.clients| ==> Kinds(t.clients[j])
    ensures ForStore(s.clients[i].up[0].req)
    ensures s.clients[i].up[0].req.Set? ==> s.clients[i].up[0].par.Value? && s.clients[i].up[0].par.n > 0
  {
    hide Passes, Effect, Reply, Perform, Notified;
    var call := s.clients[i].up[0];
    if Passes(s.obj, call.req) { PerformUp(s, call.req, call.par, (i, call.id)); }
    assert Kinds(s.clients[i]);
    forall j | 0 <= j < |s.clients| ensures Kinds(ServeOne(s, i).clients[j]) { assert Kinds(s.clients[j]); }
  }

  lemma LocalStore(s: State, task: nat, r: Req, par: Word)
    requires LedgerOk(s) && StoreOk(s) && s.store && Ready(s, Local(task, r, par))
    ensures StoreOk(Apply(s, Local(task, r, par)))
  {
    hide Passes, Effect, Notified, Stock, Reply;
    var who := (|s.clients|, |s.got|);
    StockOk(s, r, par, who);
    PerformUp(s, r, par, who);
    StockClients(s, r, par, who);
    forall j | 0 <= j < |s.clients| ensures Kinds(Perform(s, r, par, who).clients[j]) { assert Kinds(s.clients[j]); }
    if r.Test? { TakerAppend(|s.clients|, s.got, s.takers, s.grants, s.items[0], who, s.grants); }
  }

  lemma SendKinds(c: Client, task: nat, r: Req, par: Word)
    requires Kinds(c) && ForStore(r) && (r.Set? ==> par.Value? && par.n > 0)
    ensures Kinds(Send(c, task, r, par))
  {
  }

  lemma ReceiveKinds(c: Client, store: bool)
    requires Kinds(c) && c.down != []
    ensures Kinds(OnMessage(c, store))
  {
    hide ForStore, Waits;
  }

  lemma CutKinds(c: Client, k: nat)
    requires Kinds(c)
    ensures k < |c.queue| ==> Kinds(c.(queue := Cut(c.queue, k))) && Kinds(Expire(c, k))
    ensures k < |c.woken| ==> Kinds(c.(woken := Cut(c.woken, k)))
  {
    hide ForStore;
  }

  lemma ClientKinds(s: State, a: Step, i: nat)
    requires Ready(s, a) && !a.Serve? && !a.Local? && i < |s.clients| && Kinds(s.clients[i])
    requires a.Call? || a.Again? ==> ForStore(a.req) && (a.req.Set? ==> a.par.Value? && a.par.n > 0)
    ensures |Apply(s, a).clients| == |s.clients| && Kinds(Apply(s, a).clients[i])
  {
    hide Passes, Effect, Fresh, Coming, Kinds, Send, OnMessage, Expire;
    var c := s.clients[i];
    match a
    case Call(_, task, r, par) => SendKinds(c, task, r, par);
    case Again(j, k, r, par) =>
      if j == i {
        CutKinds(c, k);
        SendKinds(c.(queue := Cut(c.queue, k)), c.queue[k].task, r, par);
      }
    case Receive(j) => if j == i { ReceiveKinds(c, s.store); }
    case Timeout(_, k) => CutKinds(c, k);
    case Late(j, k) => if j == i { LateKinds(c, k); }
    case Resume(j, k) =>
      if j == i {
        CutKinds(c, k);
        WokenKind(c, k);
        if Retries(c.woken[k]) {
          SendKinds(c.(woken := Cut(c.woken, k)), c.woken[k].task, c.woken[k].req, OwnPar(c.woken[k].req));
        }
      }
  }

  lemma LateKinds(c: Client, k: nat)
    requires Kinds(c) && k < |c.woken|
    ensures Kinds(c.(woken := c.woken[k := c.woken[k].(timedOut := true)]))
  {
  }

  lemma WokenKind(c: Client, k: nat)
    requires Kinds(c) && k < |c.woken|
    ensures ForStore(c.woken[k].req)
  {
  }

  lemma StepStore(s: State, a: Step)
    requires LedgerOk(s) && StoreOk(s) && Ready(s, a)
    ensures StoreOk(Apply(s, a))
  {
    hide LedgerOk, Kinds, TakersOk, Passes, Effect, Fresh, Coming, Sound, Notified, Stock,
      Reply, OnMessage, OnResume, Send;
    if s.store {
      match a
      case Serve(i) => ServeStore(s, i);
      case Local(task, r, par) => LocalStore(s, task, r, par);
      case _ =>
        if a.Call? || a.Again? { StoreCalls(s, a); }
        forall i | 0 <= i < |s.clients| ensures |Apply(s, a).clients| == |s.clients| && Kinds(Apply(s, a).clients[i]) {
          ClientKinds(s, a, i);
        }
    } else {
      StorePlain(s, a);
    }
  }

  lemma StoreCalls(s: State, a: Step)
    requires Ready(s, a) && s.store && (a.Call? || a.Again?)
    ensures ForStore(a.req) && (a.req.Set? ==> a.par.Value? && a.par.n > 0)
  {
    hide Fresh;
  }

  lemma StorePlain(s: State, a: Step)
    requires Ready(s, a)
    ensures Apply(s, a).store == s.store
  {
    hide Passes, Effect, Fresh, Coming, Sound, Notified, Reply, OnMessage, OnResume, Send;
  }

  lemma StartStore(e: Export, counts: seq<nat>)
    requires Proper(e)
    ensures StoreOk(Start(e, counts))
  {
  }
}
