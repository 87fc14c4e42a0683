/** Counting tokens across the processors: no grant is spent twice. */
module ImpExpTokens {
  import opened ImpExp
  import opened ImpExpSafety
  import opened Objects
  import opened Sequences

  // ---- sums ----

  function Sum(f: Client -> nat, cs: seq<Client>): (n: nat) {
    if cs == [] then 0 else f(cs[0]) + Sum(f, cs[1..])
  }

  lemma {:induction false} SumUpdate(f: Client -> nat, cs: seq<Client>, i: nat, c: Client)
    requires i < |cs|
    ensures Sum(f, cs[i := c]) + f(cs[i]) == Sum(f, cs) + f(c)
  {
    if i == 0 {
      assert cs[0 := c][1..] == cs[1..];
    } else {
      SumUpdate(f, cs[1..], i - 1, c);
      assert cs[i := c][1..] == cs[1..][i - 1 := c];
    }
  }

  lemma {:induction false} SumSame(f: Client -> nat, cs: seq<Client>, ds: seq<Client>)
    requires |cs| == |ds| && forall i :: 0 <= i < |cs| ==> f(cs[i]) == f(ds[i])
    ensures Sum(f, cs) == Sum(f, ds)
  {
    if cs != [] {
      assert f(cs[0]) == f(ds[0]);
      forall i | 0 <= i < |cs[1..]| ensures f(cs[1..][i]) == f(ds[1..][i]) { assert f(cs[i + 1]) == f(ds[i + 1]); }
      SumSame(f, cs[1..], ds[1..]);
    }
  }

  lemma {:induction false} SumZero(f: Client -> nat, cs: seq<Client>)
    requires forall i :: 0 <= i < |cs| ==> f(cs[i]) == 0
    ensures Sum(f, cs) == 0
  {
    if cs != [] {
      forall i | 0 <= i < |cs[1..]| ensures f(cs[1..][i]) == 0 { assert f(cs[i + 1]) == 0; }
      SumZero(f, cs[1..]);
    }
  }

  /** Somebody on the queue still answers to number `q`. */
  predicate Awaited(queue: seq<Waiter>, q: nat) { exists k :: 0 <= k < |queue| && queue[k].p2 == q }

  function Owed(m: Down, queue: seq<Waiter>): (n: nat) {
    if m.Ack? && m.ok && Awaited(queue, m.call.seqNum) then Amount(m.call.req) else 0
  }

  function OwedSum(down: seq<Down>, queue: seq<Waiter>): (n: nat) {
    if down == [] then 0 else Owed(down[0], queue) + OwedSum(down[1..], queue)
  }

  function WokenSum(woken: seq<Woken>): (n: nat) {
    if woken == [] then 0 else Claim(woken[0].p2, woken[0].req) + WokenSum(woken[1..])
  }

  function SetSum(up: seq<Request>): (n: nat) {
    if up == [] then 0 else SetAmount(up[0].req) + SetSum(up[1..])
  }

  /** Grants on their way to a task that waits for them, or that a task was woken with. */
  function Credit(c: Client): (n: nat) { OwedSum(c.down, c.queue) + WokenSum(c.woken) }

  /** Increments asked for and not yet performed. */
  function Asking(c: Client): (n: nat) { SetSum(c.up) }

  ghost predicate TokensOk(s: State) {
    && (s.obj.Sem? ==> s.obj.value + s.granted == s.initial + s.added)
    && s.claimed + Sum(Credit, s.clients) <= s.granted + s.spurious
    && s.added + Sum(Asking, s.clients) <= s.asked
  }

  lemma {:induction false} OwedAppend(down: seq<Down>, m: Down, queue: seq<Waiter>)
    ensures OwedSum(down + [m], queue) == OwedSum(down, queue) + Owed(m, queue)
  {
    hide Owed;
    if down == [] {
      assert ([] + [m])[1..] == [];
    } else {
      OwedAppend(down[1..], m, queue);
      assert (down + [m])[1..] == down[1..] + [m];
    }
  }

  /** Fewer waiters are owed no more. */
  lemma {:induction false} OwedLess(down: seq<Down>, a: seq<Waiter>, b: seq<Waiter>)
    requires forall j :: 0 <= j < |down| && down[j].Ack? && Awaited(a, down[j].call.seqNum) ==>
      Awaited(b, down[j].call.seqNum)
    ensures OwedSum(down, a) <= OwedSum(down, b)
  {
    hide Awaited;
    if down != [] {
      var rest := down[1..];
      forall j | 0 <= j < |rest| && rest[j].Ack? && Awaited(a, rest[j].call.seqNum)
        ensures Awaited(b, rest[j].call.seqNum) { assert rest[j] == down[j + 1]; }
      OwedLess(rest, a, b);
    }
  }

  /** A waiter that leaves takes with it what it was owed. */
  lemma {:induction false} OwedSpent(down: seq<Down>, a: seq<Waiter>, b: seq<Waiter>, j: nat)
    requires j < |down| && down[j].Ack? && down[j].ok
    requires Awaited(b, down[j].call.seqNum) && !Awaited(a, down[j].call.seqNum)
    requires forall i :: 0 <= i < |down| && down[i].Ack? && Awaited(a, down[i].call.seqNum) ==>
      Awaited(b, down[i].call.seqNum)
    ensures OwedSum(down, a) + Amount(down[j].call.req) <= OwedSum(down, b)
  {
    hide Awaited;
    var rest := down[1..];
    forall i | 0 <= i < |rest| && rest[i].Ack? && Awaited(a, rest[i].call.seqNum)
      ensures Awaited(b, rest[i].call.seqNum) { assert rest[i] == down[i + 1]; }
    if j == 0 { OwedLess(rest, a, b); } else { OwedSpent(rest, a, b, j - 1); }
  }

  lemma {:induction false} NoneOwed(down: seq<Down>)
    ensures OwedSum(down, []) == 0
  {
    if down != [] { NoneOwed(down[1..]); }
  }

  lemma {:induction false} AckedHas(down: seq<Down>, j: nat)
    requires j < |down| && down[j].Ack?
    ensures down[j].call in Acked(down)
  {
    if j > 0 { AckedHas(down[1..], j - 1); }
  }

  /** The request an ACK on its way answers is in flight. */
  lemma AckInFlight(c: Client, j: nat)
    requires j < |c.down| && c.down[j].Ack?
    ensures c.down[j].call in Flight(c)
  {
    AckedHas(c.down, j);
  }

  lemma {:induction false} WokenSumAppend(a: seq<Woken>, w: Woken)
    ensures WokenSum(a + [w]) == WokenSum(a) + Claim(w.p2, w.req)
  {
    if a == [] {
      assert ([] + [w])[1..] == [];
    } else {
      WokenSumAppend(a[1..], w);
      assert (a + [w])[1..] == a[1..] + [w];
    }
  }

  lemma {:induction false} WokenSumCut(a: seq<Woken>, k: nat)
    requires k < |a|
    ensures WokenSum(a) == WokenSum(Cut(a, k)) + Claim(a[k].p2, a[k].req)
  {
    if k == 0 {
      assert Cut(a, 0) == a[1..];
    } else {
      WokenSumCut(a[1..], k - 1);
      assert Cut(a, k)[1..] == Cut(a[1..], k - 1);
    }
  }

  lemma WakeFails(w: Waiter)
    ensures Wake(w, FAILED).p2 == FAILED
  {
  }

  lemma {:induction false} WakeAllSum(a: seq<Woken>, queue: seq<Waiter>)
    ensures WokenSum(a + WakeAll(queue)) == WokenSum(a)
    decreases |queue|
  {
    hide Wake;
    if queue == [] {
      assert a + WakeAll(queue) == a;
    } else {
      var w := Wake(queue[0], FAILED);
      WakeAllSum(a + [w], queue[1..]);
      assert a + WakeAll(queue) == (a + [w]) + WakeAll(queue[1..]);
      WokenSumAppend(a, w);
      assert w.p2 == FAILED by { WakeFails(queue[0]); }
    }
  }

  lemma {:induction false} SetSumAppend(up: seq<Request>, r: Request)
    ensures SetSum(up + [r]) == SetSum(up) + SetAmount(r.req)
  {
    if up != [] {
      SetSumAppend(up[1..], r);
      assert (up + [r])[1..] == up[1..] + [r];
    }
  }

  // ---- one client ----

  lemma SendTokens(c: Client, task: nat, r: Req, par: Word)
    requires Fresh(c)
    ensures Credit(Send(c, task, r, par)) <= Credit(c)
    ensures Asking(Send(c, task, r, par)) == Asking(c) + SetAmount(r)
  {
    var d := Send(c, task, r, par);
    SetSumAppend(c.up, Request(SeqOf(c.count), r, par, c.count));
    forall j | 0 <= j < |c.down| && c.down[j].Ack? && Awaited(d.queue, c.down[j].call.seqNum)
      ensures Awaited(c.queue, c.down[j].call.seqNum)
    {
      AckInFlight(c, j);
      var k :| 0 <= k < |d.queue| && d.queue[k].p2 == c.down[j].call.seqNum;
      assert k < |c.queue| ==> c.queue[k].p2 == c.down[j].call.seqNum;
    }
    OwedLess(c.down, d.queue, c.queue);
  }

  lemma RespondTokens(c: Client, ok: bool, par: Word)
    requires c.up != []
    ensures Credit(Respond(c, ok, par)) <= Credit(c) + if ok then Amount(c.up[0].req) else 0
    ensures Asking(Respond(c, ok, par)) + SetAmount(c.up[0].req) == Asking(c)
  {
    OwedAppend(c.down, Ack(c.up[0], ok, par), c.queue);
  }

  /** Without one waiter, or with one parked, no more is owed. */
  lemma CutAwaited(queue: seq<Waiter>, k: nat, q: nat)
    requires k < |queue| && Awaited(Cut(queue, k), q)
    ensures Awaited(queue, q)
  {
    var j :| 0 <= j < |queue| - 1 && Cut(queue, k)[j].p2 == q;
    assert queue[if j < k then j else j + 1].p2 == q;
  }

  lemma CutTokens(c: Client, k: nat)
    requires k < |c.queue|
    ensures OwedSum(c.down, Cut(c.queue, k)) <= OwedSum(c.down, c.queue)
  {
    forall j | 0 <= j < |c.down| && c.down[j].Ack? && Awaited(Cut(c.queue, k), c.down[j].call.seqNum)
      ensures Awaited(c.queue, c.down[j].call.seqNum) { CutAwaited(c.queue, k, c.down[j].call.seqNum); }
    OwedLess(c.down, Cut(c.queue, k), c.queue);
  }

  lemma ParkTokens(down: seq<Down>, queue: seq<Waiter>, k: nat, w: Waiter)
    requires k < |queue| && w.p2 == PARKED
    requires forall j :: 0 <= j < |down| && down[j].Ack? ==> down[j].call.seqNum != PARKED
    ensures OwedSum(down, queue[k := w]) <= OwedSum(down, queue)
  {
    forall j | 0 <= j < |down| && down[j].Ack? && Awaited(queue[k := w], down[j].call.seqNum)
      ensures Awaited(queue, down[j].call.seqNum)
    {
      var i :| 0 <= i < |queue| && queue[k := w][i].p2 == down[j].call.seqNum;
      assert queue[i].p2 == down[j].call.seqNum;
    }
    OwedLess(down, queue[k := w], queue);
  }

  /** No message turns one grant into two. */
  lemma ReceiveTokens(c: Client, store: bool, bit: bool, o: Obj)
    requires ClientOk(c, bit, o) && c.down != []
    ensures Credit(OnMessage(c, store)) <= Credit(c) && Asking(OnMessage(c, store)) == Asking(c)
  {
    match c.down[0]
    case Notify =>
      NoneOwed(c.down[1..]);
      WakeAllSum(c.woken, c.queue);
    case Ack(call, ok, par) => AckTokens(c, store, bit, o);
  }

  lemma AckTokens(c: Client, store: bool, bit: bool, o: Obj)
    requires ClientOk(c, bit, o) && c.down != [] && c.down[0].Ack?
    ensures Credit(OnMessage(c, store)) <= Credit(c) && Asking(OnMessage(c, store)) == Asking(c)
  {
    var m := c.down[0];
    var k, rest := Find(c.queue, m.call.seqNum), c.down[1..];
    if k < |c.queue| {
      OwnAck(c, bit, o, k);
      assert Awaited(c.queue, m.call.seqNum);
      var w := Told(c.queue[k], store, m.call.req, m.ok, m.par);
      if m.ok || !Waits(m.call.req) {
        CutTokens(c.(down := rest), k);
        WokenSumAppend(c.woken, Wake(w, if m.ok then SUCCESS else FAILED));
      } else {
        forall j | 0 <= j < |rest| && rest[j].Ack? ensures rest[j].call.seqNum != PARKED {
          AckInFlight(c, j + 1);
        }
        ParkTokens(rest, c.queue, k, w.(p2 := PARKED));
      }
    }
  }

  /** A timed out test takes with it the grant on its way, if there is one. */
  lemma ExpireTokens(c: Client, k: nat, bit: bool, o: Obj)
    requires ClientOk(c, bit, o) && k < |c.queue|
    ensures var w := c.queue[k];
      Credit(Expire(c, k)) <= Credit(c) + if Coming(c.down, w.p2) then 0 else Claim(w.p2, w.req)
    ensures Asking(Expire(c, k)) == Asking(c)
  {
    var w := c.queue[k];
    WokenSumAppend(c.woken, Woken(w.task, w.p2, w.p1, w.req, w.id, true));
    if w.p2 == SUCCESS && Coming(c.down, SUCCESS) {
      GrantLeaves(c, k, bit, o);
    } else {
      CutTokens(c, k);
    }
  }

  lemma GrantLeaves(c: Client, k: nat, bit: bool, o: Obj)
    requires ClientOk(c, bit, o) && k < |c.queue| && c.queue[k].p2 < 256 && Coming(c.down, c.queue[k].p2)
    ensures OwedSum(c.down, Cut(c.queue, k)) + Amount(c.queue[k].req) <= OwedSum(c.down, c.queue)
  {
    var q := c.queue[k].p2;
    var j := OwnGrant(c, k, bit, o);
    assert Awaited(c.queue, q);
    forall i | 0 <= i < |c.queue| - 1 ensures Cut(c.queue, k)[i].p2 != q {
      assert Cut(c.queue, k)[i] == c.queue[if i < k then i else i + 1];
    }
    forall i | 0 <= i < |c.down| && c.down[i].Ack? && Awaited(Cut(c.queue, k), c.down[i].call.seqNum)
      ensures Awaited(c.queue, c.down[i].call.seqNum) { CutAwaited(c.queue, k, c.down[i].call.seqNum); }
    OwedSpent(c.down, Cut(c.queue, k), c.queue, j);
  }

  /** A grant on its way under a waiter's number is the answer to that waiter's request. */
  lemma OwnGrant(c: Client, k: nat, bit: bool, o: Obj) returns (j: nat)
    requires ClientOk(c, bit, o) && k < |c.queue| && c.queue[k].p2 < 256 && Coming(c.down, c.queue[k].p2)
    ensures j < |c.down| && Grants(c.down[j], c.queue[k].p2) && c.down[j].call == Own(c.queue[k])
  {
    j :| 0 <= j < |c.down| && Grants(c.down[j], c.queue[k].p2);
    AckInFlight(c, j);
    assert WaiterOk(Flight(c), c.down, c.queue[k], bit, o);
  }

  lemma LateTokens(c: Client, k: nat)
    requires k < |c.woken|
    ensures WokenSum(c.woken[k := c.woken[k].(timedOut := true)]) == WokenSum(c.woken)
  {
    var b := c.woken[k := c.woken[k].(timedOut := true)];
    WokenSumCut(c.woken, k);
    WokenSumCut(b, k);
    assert Cut(b, k) == Cut(c.woken, k);
  }

  lemma ResumeTokens(c: Client, k: nat)
    requires k < |c.woken| && (Retries(c.woken[k]) ==> Fresh(c))
    ensures Credit(OnResume(c, k)) + Claim(c.woken[k].p2, c.woken[k].req) <= Credit(c)
    ensures Asking(OnResume(c, k)) == Asking(c)
  {
    var w, d := c.woken[k], c.(woken := Cut(c.woken, k));
    WokenSumCut(c.woken, k);
    if Retries(w) {
      assert Flight(d) == Flight(c);
      SendTokens(d, w.task, w.req, OwnPar(w.req));
    }
  }

  // ---- every step keeps the counts ----

  /** Replacing one client. */
  lemma PutTokens(s: State, i: nat, c: Client, t: State)
    requires TokensOk(s) && i < |s.clients|
    requires t == s.(clients := s.clients[i := c], asked := t.asked, claimed := t.claimed, spurious := t.spurious,
      claims := t.claims)
    requires t.claimed + s.spurious + Credit(c) <= s.claimed + t.spurious + Credit(s.clients[i])
    requires s.asked + Asking(c) <= t.asked + Asking(s.clients[i])
    ensures TokensOk(t)
  {
    hide Credit, Asking;
    SumUpdate(Credit, s.clients, i, c);
    SumUpdate(Asking, s.clients, i, c);
  }

  lemma NotifyTokens(c: Client)
    ensures Credit(c.(down := c.down + [Notify])) == Credit(c) && Asking(c.(down := c.down + [Notify])) == Asking(c)
  {
    OwedAppend(c.down, Notify, c.queue);
  }

  lemma PerformTokens(s: State, r: Req, par: Word, who: (nat, nat))
    requires Passes(s.obj, r)
    ensures var t := Perform(s, r, par, who);
      && (s.obj.Sem? == t.obj.Sem?) && (s.obj.Sem? ==> t.obj.value + Amount(r) == s.obj.value + SetAmount(r))
      && Sum(Credit, t.clients) == Sum(Credit, s.clients) && Sum(Asking, t.clients) == Sum(Asking, s.clients)
  {
    hide Credit, Asking, Sum, Passes, Effect;
    var t := Perform(s, r, par, who);
    EffectValue(s.obj, r);
    PerformUp(s, r, par, who);
    forall i | 0 <= i < |t.clients|
      ensures Credit(t.clients[i]) == Credit(s.clients[i]) && Asking(t.clients[i]) == Asking(s.clients[i])
    {
      NotifyTokens(s.clients[i]);
    }
    SumSame(Credit, t.clients, s.clients);
    SumSame(Asking, t.clients, s.clients);
  }

  lemma ServeTokens(s: State, i: nat)
    requires TokensOk(s) && Ready(s, Serve(i))
    ensures TokensOk(ServeOne(s, i))
  {
    hide Credit, Asking, Sum, Passes, Effect, Notified, Reply, Stock;
    var call := s.clients[i].up[0];
    var par, ok := Reply(s, call.req, call.par), Passes(s.obj, call.req);
    var p := if ok then Perform(s, call.req, call.par, (i, call.id)) else s;
    if ok {
      PerformTokens(s, call.req, call.par, (i, call.id));
      PerformUp(s, call.req, call.par, (i, call.id));
      StockClients(s, call.req, call.par, (i, call.id));
    }
    RespondTokens(p.clients[i], ok, par);
    SumUpdate(Credit, p.clients, i, Respond(p.clients[i], ok, par));
    SumUpdate(Asking, p.clients, i, Respond(p.clients[i], ok, par));
  }

  lemma StepTokens(s: State, a: Step)
    requires Clients(s) && TokensOk(s) && Ready(s, a)
    ensures TokensOk(Apply(s, a))
  {
    hide ClientOk, Fresh, Credit, Asking, Sum, Sound, Passes, Effect, Coming, TokensOk;
    match a
    case Call(i, task, r, par) =>
      SendTokens(s.clients[i], task, r, par);
      PutTokens(s, i, Send(s.clients[i], task, r, par), Apply(s, a));
    case Again(i, k, r, par) => AgainTokens(s, i, k, r, par);
    case Serve(i) => ServeTokens(s, i);
    case Local(task, r, par) => LocalTokens(s, task, r, par);
    case Receive(i) =>
      ReceiveTokens(s.clients[i], s.store, i in s.mask, s.obj);
      PutTokens(s, i, OnMessage(s.clients[i], s.store), Apply(s, a));
    case Timeout(i, k) =>
      ExpireTokens(s.clients[i], k, i in s.mask, s.obj);
      PutTokens(s, i, Expire(s.clients[i], k), Apply(s, a));
    case Late(i, k) => LateStep(s, i, k);
    case Resume(i, k) =>
      ResumeTokens(s.clients[i], k);
      PutTokens(s, i, OnResume(s.clients[i], k), Apply(s, a));
  }

  lemma AgainTokens(s: State, i: nat, k: nat, r: Req, par: Word)
    requires TokensOk(s) && Ready(s, Again(i, k, r, par))
    ensures TokensOk(Apply(s, Again(i, k, r, par)))
  {
    hide TokensOk, Sound;
    var c := s.clients[i];
    var d := c.(queue := Cut(c.queue, k));
    DropFresh(c, k);
    CutTokens(c, k);
    SendTokens(d, c.queue[k].task, r, par);
    PutTokens(s, i, Send(d, c.queue[k].task, r, par), Apply(s, Again(i, k, r, par)));
  }

  lemma LocalTokens(s: State, task: nat, r: Req, par: Word)
    requires TokensOk(s) && Ready(s, Local(task, r, par))
    ensures TokensOk(Apply(s, Local(task, r, par)))
  {
    hide Credit, Asking, Sum, Passes, Effect, Notified, Stock;
    PerformTokens(s, r, par, (|s.clients|, |s.got|));
    StockClients(s, r, par, (|s.clients|, |s.got|));
  }

  lemma LateStep(s: State, i: nat, k: nat)
    requires TokensOk(s) && Ready(s, Late(i, k))
    ensures TokensOk(Apply(s, Late(i, k)))
  {
    hide TokensOk;
    var c := s.clients[i];
    LateTokens(c, k);
    PutTokens(s, i, c.(woken := c.woken[k := c.woken[k].(timedOut := true)]), Apply(s, Late(i, k)));
  }

  lemma StartTokens(e: Export, counts: seq<nat>)
    ensures TokensOk(Start(e, counts))
  {
    SumZero(Credit, Start(e, counts).clients);
    SumZero(Asking, Start(e, counts).clients);
  }
}
