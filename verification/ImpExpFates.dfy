/** What becomes of the requests of clients in every run: how they are numbered, what they are
    answered, and which tests are sent again. */
module ImpExpFates {
  import opened FlagBits
  import opened ImpExp
  import opened ImpExpLedger
  import opened ImpExpRuns
  import opened ImpExpSafety
  import opened Objects
  import opened Sequences

  // ---- one client ----

  /** The word a test sends: the amount or the mask. */
  predicate Says(par: Word, r: Req) { (r.Test? ==> par == Value(r.amount)) && (r.TestFlags? ==> par == Bits(r.mask)) }

  /** Requests are for an object of their kind, and tests carry their own amount or mask. */
  ghost predicate Carried(c: Client, o: Obj) {
    && (forall j :: 0 <= j < |c.up| ==>
      Matches(o, c.up[j].req) && Says(c.up[j].par, c.up[j].req))
    && (forall k :: 0 <= k < |c.queue| ==> Matches(o, c.queue[k].req))
    && forall k :: 0 <= k < |c.woken| ==> Matches(o, c.woken[k].req)
  }

  /** With the requests whose timeout went off: those, and no other test that waits, have had
      their time. */
  ghost predicate Timely(c: Client, timed: set<nat>) {
    && (forall k :: 0 <= k < |c.woken| ==> (c.woken[k].timedOut <==> !Waits(c.woken[k].req) || c.woken[k].id in timed))
    && (forall k :: 0 <= k < |c.queue| ==> c.queue[k].id !in timed)
    && forall x :: x in timed ==> x < c.count
  }

  /** What is in flight is numbered in turn, up to the last number given out. */
  ghost predicate InTurn(c: Client) {
    var f := Flight(c);
    forall a :: 0 <= a < |f| ==> f[a].id + |f| == c.count + a && f[a].seqNum == f[a].id % 256
  }

  ghost predicate Named(c: Client) {
    && (forall a :: 0 <= a < |c.queue| ==> c.queue[a].id < c.count)
    && (forall a :: 0 <= a < |c.woken| ==> c.woken[a].id < c.count)
    && (forall a, b :: 0 <= a < b < |c.queue| ==> c.queue[a].id != c.queue[b].id)
    && (forall a, b :: 0 <= a < b < |c.woken| ==> c.woken[a].id != c.woken[b].id)
    && forall a, b :: 0 <= a < |c.queue| && 0 <= b < |c.woken| ==> c.queue[a].id != c.woken[b].id
  }

  lemma NamedIs(s: State, i: nat)
    requires LedgerOk(s) && i < |s.clients|
    ensures Named(s.clients[i])
  {
    assert Books(i, s.clients[i], s.store, s.grants, s.claims);
    hide Numbered, Answered, Unanswered, Refused, LedgerOk;
  }

  lemma SendCarried(c: Client, task: nat, r: Req, par: Word, o: Obj)
    requires Carried(c, o) && Matches(o, r) && Says(par, r)
    ensures Carried(Send(c, task, r, par), o)
  {
    hide OwnPar, Matches;
  }

  lemma SendTimely(c: Client, task: nat, r: Req, par: Word, timed: set<nat>)
    requires Timely(c, timed)
    ensures Timely(Send(c, task, r, par), timed)
  {
    hide Waits;
  }

  lemma SendInTurn(c: Client, task: nat, r: Req, par: Word)
    requires InTurn(c)
    ensures InTurn(Send(c, task, r, par))
  {
    SendFlight(c, task, r, par);
    hide Flight;
  }

  lemma CutKeeps(c: Client, k: nat, o: Obj, timed: set<nat>)
    requires Carried(c, o) && Timely(c, timed) && InTurn(c)
    ensures k < |c.queue| ==>
      var d := c.(queue := Cut(c.queue, k)); Carried(d, o) && Timely(d, timed) && InTurn(d)
    ensures k < |c.woken| ==>
      var d := c.(woken := Cut(c.woken, k)); Carried(d, o) && Timely(d, timed) && InTurn(d)
  {
    hide Matches, OwnPar, Waits;
    if k < |c.queue| { assert Flight(c.(queue := Cut(c.queue, k))) == Flight(c); }
    if k < |c.woken| { assert Flight(c.(woken := Cut(c.woken, k))) == Flight(c); }
    hide Flight;
  }

  lemma ExpireKeeps(c: Client, k: nat, o: Obj, timed: set<nat>)
    requires Named(c) && Carried(c, o) && Timely(c, timed) && InTurn(c) && k < |c.queue|
    ensures var d := Expire(c, k); Carried(d, o) && Timely(d, timed + {c.queue[k].id}) && InTurn(d)
  {
    hide Matches, OwnPar, Waits;
    assert Flight(Expire(c, k)) == Flight(c);
    CutFacts(c.queue, k);
    hide Flight, Cut;
  }

  lemma LateKeeps(c: Client, k: nat, o: Obj, timed: set<nat>)
    requires Named(c) && Carried(c, o) && Timely(c, timed) && InTurn(c) && k < |c.woken|
    ensures var d := c.(woken := c.woken[k := c.woken[k].(timedOut := true)]);
      Carried(d, o) && Timely(d, timed + {c.woken[k].id}) && InTurn(d)
  {
    hide Matches, OwnPar, Waits;
    assert Flight(c.(woken := c.woken[k := c.woken[k].(timedOut := true)])) == Flight(c);
    hide Flight;
  }

  lemma ReceiveCarried(c: Client, store: bool, o: Obj)
    requires Carried(c, o) && c.down != []
    ensures Carried(OnMessage(c, store), o)
  {
    hide Matches, OwnPar, Waits;
  }

  lemma ReceiveTimely(c: Client, store: bool, timed: set<nat>)
    requires Timely(c, timed) && c.down != []
    ensures Timely(OnMessage(c, store), timed)
  {
    hide Waits;
  }

  lemma ReceiveInTurn(c: Client, store: bool)
    requires InTurn(c) && c.down != []
    ensures InTurn(OnMessage(c, store))
  {
    TakeFlight(c);
    ReceiveFlight(c, store);
    hide Flight, OnMessage;
  }

  lemma ReceiveFlight(c: Client, store: bool)
    requires c.down != []
    ensures Flight(OnMessage(c, store)) == Flight(c.(down := c.down[1..])) && OnMessage(c, store).count == c.count
  {
    hide Find, WakeAll, Waits;
  }

  lemma NotifiedKeeps(c: Client, o: Obj, timed: set<nat>)
    requires Carried(c, o) && Timely(c, timed) && InTurn(c)
    ensures var d := c.(down := c.down + [Notify]); Carried(d, o) && Timely(d, timed) && InTurn(d)
  {
    AckedAppend(c.down, Notify);
    assert Flight(c.(down := c.down + [Notify])) == Flight(c);
    hide Flight, Matches, OwnPar, Waits;
  }

  lemma RespondKeeps(c: Client, ok: bool, par: Word, o: Obj, timed: set<nat>)
    requires Carried(c, o) && Timely(c, timed) && InTurn(c) && c.up != []
    ensures var d := Respond(c, ok, par); Carried(d, o) && Timely(d, timed) && InTurn(d)
  {
    AnswerFlight(c, ok, par);
    hide Flight, Matches, OwnPar, Waits;
  }

  // ---- every client, in every run ----

  /** The request of client `i` that a step times out. */
  ghost function TimesOut(s: State, a: Step, i: nat): (ids: set<nat>) {
    if i >= |s.clients| then {}
    else if a.Timeout? && a.i == i && a.k < |s.clients[i].queue| then {s.clients[i].queue[a.k].id}
    else if a.Late? && a.i == i && a.k < |s.clients[i].woken| then {s.clients[i].woken[a.k].id}
    else {}
  }

  ghost function Timed(tr: seq<State>, steps: seq<Step>, j: nat, i: nat): (ids: set<nat>)
    requires j <= |steps| < |tr|
  {
    if j == 0 then {} else Timed(tr, steps, j - 1, i) + TimesOut(tr[j - 1], steps[j - 1], i)
  }

  ghost predicate Honest(s: State, i: nat, timed: set<nat>) {
    i < |s.clients| && Carried(s.clients[i], s.obj) && Timely(s.clients[i], timed) && InTurn(s.clients[i])
  }

  lemma StepHonest(s: State, a: Step, i: nat, timed: set<nat>)
    requires LedgerOk(s) && Ready(s, a) && Honest(s, i, timed)
    ensures Honest(Apply(s, a), i, timed + TimesOut(s, a, i))
  {
    StepKind(s, a);
    if a.Serve? || a.Local? {
      ServerHonest(s, a, i, timed);
    } else {
      NamedIs(s, i);
      SameObject(s, a);
      ClientHonest(s, a, i, timed);
    }
  }

  lemma SameObject(s: State, a: Step)
    requires Ready(s, a) && !a.Serve? && !a.Local?
    ensures Apply(s, a).obj == s.obj && |Apply(s, a).clients| == |s.clients|
    ensures forall i :: 0 <= i < |s.clients| && i != a.i ==> Apply(s, a).clients[i] == s.clients[i]
  {
    hide Fresh, OnMessage, OnResume, Send, Expire, Sound, Coming;
  }

  /** The server may notify a client and answer its oldest request. */
  lemma ServerClient(s: State, a: Step, i: nat) returns (b: Client, ok: bool, par: Word)
    requires Ready(s, a) && (a.Serve? || a.Local?) && i < |s.clients|
    ensures |Apply(s, a).clients| == |s.clients|
    ensures b == s.clients[i] || b == s.clients[i].(down := s.clients[i].down + [Notify])
    ensures Apply(s, a).clients[i] == b || (b.up != [] && Apply(s, a).clients[i] == Respond(b, ok, par))
  {
    hide Passes, Effect, Sound, Reply, Perform, Notified, Notifies;
    b, ok, par := s.clients[i], false, Value(0);
    match a
    case Serve(j) =>
      var call := s.clients[j].up[0];
      ok, par := Passes(s.obj, call.req), Reply(s, call.req, call.par);
      if ok {
        PerformUp(s, call.req, call.par, (j, call.id));
        b := Perform(s, call.req, call.par, (j, call.id)).clients[i];
      }
    case Local(_, r, p) =>
      PerformUp(s, r, p, (|s.clients|, |s.got|));
      b := Perform(s, r, p, (|s.clients|, |s.got|)).clients[i];
  }

  lemma ServerHonest(s: State, a: Step, i: nat, timed: set<nat>)
    requires Ready(s, a) && (a.Serve? || a.Local?) && Honest(s, i, timed) && Apply(s, a).obj.Sem? == s.obj.Sem?
    ensures Honest(Apply(s, a), i, timed)
  {
    var b, ok, par := ServerClient(s, a, i);
    var c := s.clients[i];
    SameMatches(b, s.obj, Apply(s, a).obj);
    SameMatches(c, s.obj, Apply(s, a).obj);
    hide Ready, Apply, InTurn, Carried, Timely, Respond;
    NotifiedKeeps(c, Apply(s, a).obj, timed);
    if b.up != [] { RespondKeeps(b, ok, par, Apply(s, a).obj, timed); }
  }

  lemma SameMatches(c: Client, o: Obj, o': Obj)
    requires o.Sem? == o'.Sem?
    ensures Carried(c, o) ==> Carried(c, o')
  {
    hide OwnPar;
  }

  lemma ClientHonest(s: State, a: Step, i: nat, timed: set<nat>)
    requires Ready(s, a) && !a.Serve? && !a.Local? && Honest(s, i, timed) && Named(s.clients[i])
    requires Apply(s, a).obj == s.obj && |Apply(s, a).clients| == |s.clients|
    requires i != a.i ==> Apply(s, a).clients[i] == s.clients[i]
    ensures Honest(Apply(s, a), i, timed + TimesOut(s, a, i))
  {
    hide Fresh, Coming, Send, OnMessage, Expire, Carried, Timely, InTurn, OwnPar, Passes;
    var c := s.clients[i];
    if a.i == i {
      match a
      case Call(_, task, r, par) => SendKeeps(c, task, r, par, s, timed);
      case Again(_, k, r, par) =>
        CutKeeps(c, k, s.obj, timed);
        SendKeeps(c.(queue := Cut(c.queue, k)), c.queue[k].task, r, par, s, timed);
      case Receive(_) =>
        ReceiveCarried(c, s.store, s.obj);
        ReceiveTimely(c, s.store, timed);
        ReceiveInTurn(c, s.store);
      case Timeout(_, k) => ExpireKeeps(c, k, s.obj, timed);
      case Late(_, k) => LateKeeps(c, k, s.obj, timed);
      case Resume(_, k) => ResumeKeeps(c, k, s.obj, timed);
    }
    assert timed + {} == timed;
  }

  lemma SendKeeps(c: Client, task: nat, r: Req, par: Word, s: State, timed: set<nat>)
    requires Carried(c, s.obj) && Timely(c, timed) && InTurn(c) && Sound(s, r, par)
    ensures var d := Send(c, task, r, par); Carried(d, s.obj) && Timely(d, timed) && InTurn(d)
  {
    SendCarried(c, task, r, par, s.obj);
    SendTimely(c, task, r, par, timed);
    SendInTurn(c, task, r, par);
  }

  lemma ResumeKeeps(c: Client, k: nat, o: Obj, timed: set<nat>)
    requires Carried(c, o) && Timely(c, timed) && InTurn(c) && k < |c.woken|
    ensures var d := OnResume(c, k); Carried(d, o) && Timely(d, timed) && InTurn(d)
  {
    assert Matches(o, c.woken[k].req);
    CutKeeps(c, k, o, timed);
    hide Carried, Timely, InTurn, Send, OwnPar;
    var w, d := c.woken[k], c.(woken := Cut(c.woken, k));
    if Retries(w) {
      SendCarried(d, w.task, w.req, OwnPar(w.req), o);
      SendTimely(d, w.task, w.req, OwnPar(w.req), timed);
      SendInTurn(d, w.task, w.req, OwnPar(w.req));
    }
  }

  lemma {:induction false} RunHonest(e: Export, counts: seq<nat>, tr: seq<State>, steps: seq<Step>, j: nat, i: nat)
    requires IsRun(e, counts, tr, steps) && j < |tr| && i < |counts|
    ensures Honest(tr[j], i, Timed(tr, steps, j, i))
  {
    hide Inv, Ready, Apply, TimesOut, Honest, LedgerOk, Clients;
    if j == 0 {
      StartHonest(e, counts, i);
    } else {
      RunHonest(e, counts, tr, steps, j - 1, i);
      RunLedger(e, counts, tr, steps, j - 1);
      assert Goes(tr[j - 1], steps[j - 1], tr[j]);
      StepHonest(tr[j - 1], steps[j - 1], i, Timed(tr, steps, j - 1, i));
    }
  }

  lemma RunLedger(e: Export, counts: seq<nat>, tr: seq<State>, steps: seq<Step>, j: nat)
    requires IsRun(e, counts, tr, steps) && j < |tr|
    ensures LedgerOk(tr[j])
  {
    RunInv(e, counts, tr, steps, j);
    hide LedgerOk, Clients;
  }

  lemma StartHonest(e: Export, counts: seq<nat>, i: nat)
    requires i < |counts|
    ensures Honest(Start(e, counts), i, {})
  {
  }

  // ---- numbers ----

  /** In any run requests are numbered in turn, and the number of the next one is free if and
      only if fewer than 256 requests are outstanding. */
  lemma NumbersFreeIff(e: Export, counts: seq<nat>, tr: seq<State>, steps: seq<Step>, j: nat, i: nat)
    requires IsRun(e, counts, tr, steps) && j < |tr| && i < |tr[j].clients|
    ensures var c := tr[j].clients[i];
      && (Fresh(c) <==> |Flight(c)| < 256)
      && forall a, b :: 0 <= a < b < |Flight(c)| && b == a + 1 ==>
      Flight(c)[b].seqNum == (Flight(c)[a].seqNum + 1) % 256
  {
    SameKind(e, counts, tr, steps, j);
    RunHonest(e, counts, tr, steps, j, i);
    hide InTurn, Fresh, Flight, Carried, Timely, Timed, IsRun;
    FreeIff(tr[j].clients[i]);
    OneMore(tr[j].clients[i]);
  }

  lemma FreeIff(c: Client)
    requires InTurn(c)
    ensures Fresh(c) <==> |Flight(c)| < 256
  {
    hide Flight;
    var f := Flight(c);
    if |f| >= 256 {
      var a := |f| - 256;
      assert f[a].id + 256 == c.count;
    } else {
      forall a | 0 <= a < |f| ensures f[a].seqNum != SeqOf(c.count) { Apart256(f[a].id, c.count); }
    }
  }

  lemma OneMore(c: Client)
    requires InTurn(c)
    ensures forall a, b :: 0 <= a < b < |Flight(c)| && b == a + 1 ==>
      Flight(c)[b].seqNum == (Flight(c)[a].seqNum + 1) % 256
  {
    hide Flight;
    var f := Flight(c);
    forall a, b | 0 <= a < b < |f| && b == a + 1 ensures f[b].seqNum == (f[a].seqNum + 1) % 256 { Next256(f[a].id); }
  }

  lemma Next256(a: nat)
    ensures (a + 1) % 256 == (a % 256 + 1) % 256
  {
  }

  lemma Apart256(a: nat, b: nat)
    requires a < b < a + 256
    ensures a % 256 != b % 256
  {
  }

  // ---- answers ----

  /** The server grants a test if and only if what it waits for is there, and then takes it; it
      carries out every set. It tells the client which, last of all. */
  lemma ServedRight(e: Export, counts: seq<nat>, tr: seq<State>, steps: seq<Step>, j: nat, i: nat)
    requires IsRun(e, counts, tr, steps) && j < |steps| && steps[j] == Serve(i)
    requires i < |tr[j].clients| && tr[j].clients[i].up != []
    ensures var s, t, call := tr[j], tr[j + 1], tr[j].clients[i].up[0];
      && i < |t.clients| && t.clients[i].down != []
      && var m, ok := t.clients[i].down[|t.clients[i].down| - 1], IsTest(call.req) ==> Available(s.obj, call.req);
      && m.Ack? && m.call == call && m.ok == ok && Says(call.par, call.req)
      && if ok then Becomes(s.obj, call.req, t.obj) else t.obj == s.obj
  {
    var s, call := tr[j], tr[j].clients[i].up[0];
    SameKind(e, counts, tr, steps, j);
    RunHonest(e, counts, tr, steps, j, i);
    assert Matches(s.obj, call.req);
    assert Goes(s, steps[j], tr[j + 1]);
    AnswerIs(s, i);
    hide Passes, Effect, Becomes, Available, FlgTest, Ready, Apply;
    if IsTest(call.req) { PassesIff(s.obj, call.req); } else { SetsPass(s.obj, call.req); }
    if Passes(s.obj, call.req) { EffectIs(s.obj, call.req); }
  }

  lemma SetsPass(o: Obj, r: Req)
    requires !IsTest(r) && Matches(o, r)
    ensures Passes(o, r)
  {
  }

  lemma AnswerIs(s: State, i: nat)
    requires Ready(s, Serve(i))
    ensures var t, call := Apply(s, Serve(i)), s.clients[i].up[0]; var ok := Passes(s.obj, call.req);
      && i < |t.clients| && t.clients[i].down != []
      && t.clients[i].down[|t.clients[i].down| - 1] == Ack(call, ok, Reply(s, call.req, call.par))
      && t.obj == if ok then Effect(s.obj, call.req) else s.obj
  {
    hide Passes, Effect, Reply, Notified, Perform;
    var call := s.clients[i].up[0];
    if Passes(s.obj, call.req) {
      PerformUp(s, call.req, call.par, (i, call.id));
      PerformedObj(s, call.req, call.par, (i, call.id));
    }
  }

  lemma PerformedObj(s: State, r: Req, par: Word, who: (nat, nat))
    requires Passes(s.obj, r)
    ensures Perform(s, r, par, who).obj == Effect(s.obj, r)
  {
    hide Passes, Effect, Notified;
  }

  /** A grant is made by serving the request it names. */
  lemma NewGrant(s: State, a: Step, x: (nat, nat))
    requires Ready(s, a) && x !in s.grants && x in Apply(s, a).grants
    ensures a.Serve? && x == (a.i, s.clients[a.i].up[0].id)
    ensures var call := s.clients[a.i].up[0];
      Passes(s.obj, call.req) && Apply(s, a).grants[x] == Grant(call.req, Reply(s, call.req, call.par))
  {
    hide Passes, Effect, Sound, Reply, Fresh, Coming, Notified, OnMessage, OnResume, Send, Expire;
  }

  lemma {:induction false} GrantMade(e: Export, counts: seq<nat>, tr: seq<State>, steps: seq<Step>, j: nat,
      x: (nat, nat)) returns (n: nat)
    requires IsRun(e, counts, tr, steps) && j < |tr| && x in tr[j].grants
    ensures n < j && x !in tr[n].grants && x in tr[n + 1].grants && tr[n + 1].grants[x] == tr[j].grants[x]
    decreases j
  {
    hide Inv, Ready, Apply, LedgerOk, Clients;
    if j > 0 {
      RunLedger(e, counts, tr, steps, j - 1);
      assert Goes(tr[j - 1], steps[j - 1], tr[j]);
      GrantsGrow(tr[j - 1], steps[j - 1]);
      if x in tr[j - 1].grants { n := GrantMade(e, counts, tr, steps, j - 1, x); } else { n := j - 1; }
    }
  }

  /** Unless a timeout garbled it, a client that reports success in a flag test has as result
      the flags of the cluster as they were when the server granted its own request, before any
      were cleared; they held what it waited for. */
  lemma FlagsDelivered(f: bv32, counts: seq<nat>, tr: seq<State>, steps: seq<Step>, j: nat, i: nat, k: nat)
    returns (n: nat)
    requires IsRun(Plain(Flags(f)), counts, tr, steps) && j < |tr| && NoGarbled(tr, steps)
    requires i < |tr[j].clients| && k < |tr[j].clients[i].woken|
    requires var w := tr[j].clients[i].woken[k]; w.p2 == SUCCESS && w.req.TestFlags?
    ensures n < j && steps[n] == Serve(i) && i < |tr[n].clients| && tr[n].clients[i].up != [] && tr[n].obj.Flags?
    ensures var w, call, was := tr[j].clients[i].woken[k], tr[n].clients[i].up[0], tr[n].obj.flags;
      && call.id == w.id && call.req == w.req && Available(tr[n].obj, w.req)
      && w.p1 == Bits(was)
  {
    var e := Plain(Flags(f));
    var w := tr[j].clients[i].woken[k];
    ExactUpTo(e, counts, tr, steps, j);
    assert Exact(i, w, tr[j].grants);
    n := GrantMade(e, counts, tr, steps, j, (i, w.id));
    assert Goes(tr[n], steps[n], tr[n + 1]);
    NewGrant(tr[n], steps[n], (i, w.id));
    SameKind(e, counts, tr, steps, n);
    RunHonest(e, counts, tr, steps, n, i);
    var call := tr[n].clients[i].up[0];
    assert Says(call.par, call.req);
    if tr[n].obj.flags == 0 { NoneForNone(tr[n].obj, call.req); }
    hide Ready, Apply, IsRun, Honest, NoGarbled, Passes, Available, FlgTest;
    PassesIff(tr[n].obj, call.req);
  }

  /** With no flag set only an empty mask passes, and an ACK that brings no word brings that. */
  lemma NoneForNone(o: Obj, r: Req)
    requires Passes(o, r) && r.TestFlags? && o.flags == 0
    ensures r.mask == 0
  {
  }

  // ---- what clients hear ----

  /** A waiter has the number of the ACK of its own request, and no other does. */
  lemma OwnerNumber(i: nat, c: Client, bit: bool, o: Obj, store: bool, g: map<(nat, nat), Grant>,
      claims: set<(nat, nat)>, k: nat)
    requires ClientOk(c, bit, o) && Books(i, c, store, g, claims) && c.down != [] && c.down[0].Ack? && k < |c.queue|
    ensures c.queue[k].id == c.down[0].call.id <==> Find(c.queue, c.down[0].call.seqNum) == k
    ensures c.queue[k].id == c.down[0].call.id ==> Own(c.queue[k]) == c.down[0].call
  {
    var w, call := c.queue[k], c.down[0].call;
    var f, n := Find(c.queue, call.seqNum), Flight(c);
    assert n[0] == call;
    if w.id == call.id {
      assert Refused(i, w, n, g) && WaiterOk(n, c.down, w, bit, o);
      var a :| 0 <= a < |n| && n[a] == Own(w);
      assert a == 0;
      assert f <= k && c.queue[f].p2 == w.p2;
    }
    if f == k { OwnAck(c, bit, o, k); }
  }

  /** An ACK reaches the task whose request it answers, though it carries a number of eight
      bits only. Success wakes it, and so does failure when it does not wait; if it waits it is
      parked. A task that is no longer queued for that request gets nothing, nor does any
      other. */
  lemma AckMeetsOwner(e: Export, counts: seq<nat>, tr: seq<State>, steps: seq<Step>, j: nat, i: nat)
    requires IsRun(e, counts, tr, steps) && j < |steps| && steps[j] == Receive(i)
    requires i < |tr[j].clients| && tr[j].clients[i].down != [] && tr[j].clients[i].down[0].Ack?
    requires i < |tr[j + 1].clients|
    ensures var c, d, m := tr[j].clients[i], tr[j + 1].clients[i], tr[j].clients[i].down[0];
      && d.up == c.up && d.down == c.down[1..]
      && ((forall k :: 0 <= k < |c.queue| ==> c.queue[k].id != m.call.id) ==> d.queue == c.queue && d.woken == c.woken)
      && forall k :: 0 <= k < |c.queue| && c.queue[k].id == m.call.id ==> Met(c, d, m, k, tr[j].store)
  {
    RunInv(e, counts, tr, steps, j);
    assert Goes(tr[j], steps[j], tr[j + 1]);
    var s, c := tr[j], tr[j].clients[i];
    assert ClientOk(c, i in s.mask, s.obj) && Books(i, c, s.store, s.grants, s.claims);
    ReceiveIs(s, i);
    hide Inv, ClientOk, Books, Ready, Apply, Flight;
    AckAt(c, s.store);
    forall k: nat | k < |c.queue|
      ensures c.queue[k].id == c.down[0].call.id <==> Find(c.queue, c.down[0].call.seqNum) == k
      ensures c.queue[k].id == c.down[0].call.id ==> Own(c.queue[k]) == c.down[0].call {
      OwnerNumber(i, c, i in s.mask, s.obj, s.store, s.grants, s.claims, k);
    }
    hide Find, OnMessage, Met;
  }

  lemma ReceiveIs(s: State, i: nat)
    requires Ready(s, Receive(i))
    ensures Apply(s, Receive(i)).clients == s.clients[i := OnMessage(s.clients[i], s.store)]
  {
    hide OnMessage;
  }

  lemma AckAt(c: Client, store: bool)
    requires c.down != [] && c.down[0].Ack?
    ensures var d, m := OnMessage(c, store), c.down[0]; var k := Find(c.queue, m.call.seqNum);
      && d.up == c.up && d.down == c.down[1..]
      && (k == |c.queue| ==> d.queue == c.queue && d.woken == c.woken)
      && (k < |c.queue| && c.queue[k].req == m.call.req ==> Met(c, d, m, k, store))
  {
    hide Find;
  }

  ghost predicate Met(c: Client, d: Client, m: Down, k: nat, store: bool)
    requires k < |c.queue| && m.Ack?
  {
    var w, r := c.queue[k], m.call.req;
    var p1 := if r.TestFlags? || (m.ok && store && r.Test?) then m.par else w.p1;
    && w.req == r
    && if m.ok || !Waits(r) then
         && d.queue == Cut(c.queue, k)
         && d.woken == c.woken + [Woken(w.task, if m.ok then SUCCESS else FAILED, p1, r, w.id, !Waits(r))]
       else d.woken == c.woken && d.queue == c.queue[k := Waiter(w.task, PARKED, p1, r, w.id)]
  }

  /** The request that a step carries out on the object, if it does. */
  ghost predicate Does(s: State, a: Step, r: Req) {
    || (a.Serve? && a.i < |s.clients| && s.clients[a.i].up != [] && s.clients[a.i].up[0].req == r)
    || (a.Local? && a.req == r)
  }

  predicate MayWake(r: Req) { r.Set? || r.SetFlags? || r.ToggleFlags? }

  /** A waiting test of client `i` was refused, and nothing that may make a test pass was done
      to the object since. */
  ghost predicate Owed(tr: seq<State>, steps: seq<Step>, j: nat, i: nat)
    requires j <= |steps| < |tr|
  {
    && j > 0
    && !(exists r :: Does(tr[j - 1], steps[j - 1], r) && MayWake(r))
    && (|| Owed(tr, steps, j - 1, i)
        || (steps[j - 1] == Serve(i)
            && exists r :: Does(tr[j - 1], steps[j - 1], r) && Waits(r) && !Available(tr[j - 1].obj, r)))
  }

  /** The server has a processor on its mask if and only if it owes it a NOTIFY. */
  lemma {:induction false} MaskIsOwed(e: Export, counts: seq<nat>, tr: seq<State>, steps: seq<Step>, j: nat, i: nat)
    requires IsRun(e, counts, tr, steps) && j < |tr| && i < |counts|
    ensures i in tr[j].mask <==> Owed(tr, steps, j, i)
  {
    hide Ready, Apply, Does, Available, MayWake;
    if j > 0 {
      MaskIsOwed(e, counts, tr, steps, j - 1, i);
      SameKind(e, counts, tr, steps, j - 1);
      assert Goes(tr[j - 1], steps[j - 1], tr[j]);
      hide Honest, Timed;
      if steps[j - 1].Serve? {
        var x := steps[j - 1].i;
        ServeInRange(tr[j - 1], x);
        RunHonest(e, counts, tr, steps, j - 1, x);
        ServeMask(tr[j - 1], x, Timed(tr, steps, j - 1, x), i);
      } else {
        OtherMask(tr[j - 1], steps[j - 1], i);
      }
    }
  }

  lemma ServeInRange(s: State, x: nat)
    requires Ready(s, Serve(x))
    ensures x < |s.clients| && s.clients[x].up != []
  {
  }

  lemma ServeMask(s: State, x: nat, timed: set<nat>, i: nat)
    requires Ready(s, Serve(x)) && Honest(s, x, timed) && i < |s.clients|
    ensures i in Apply(s, Serve(x)).mask <==>
      !(exists r :: Does(s, Serve(x), r) && MayWake(r))
      && (i in s.mask || (x == i && exists r :: Does(s, Serve(x), r) && Waits(r) && !Available(s.obj, r)))
  {
    hide Available, Passes, Effect, Reply, Notified, Stock;
    var call := s.clients[x].up[0];
    assert Does(s, Serve(x), call.req);
    assert Matches(s.obj, call.req);
    if IsTest(call.req) { PassesIff(s.obj, call.req); } else { SetsPass(s.obj, call.req); }
    if Passes(s.obj, call.req) { StockClients(s, call.req, call.par, (x, call.id)); }
  }

  lemma OtherMask(s: State, a: Step, i: nat)
    requires Ready(s, a) && !a.Serve?
    ensures i in Apply(s, a).mask <==> !(exists r :: Does(s, a, r) && MayWake(r)) && i in s.mask
  {
    hide Available, Passes, Effect, Reply, Notified, Stock, Fresh, OnMessage, OnResume, Send, Expire, Sound, Coming;
    if a.Local? {
      assert Does(s, a, a.req);
      StockClients(s, a.req, a.par, (|s.clients|, |s.got|));
    }
  }

  /** And what may make a test pass sends a NOTIFY to each processor that is owed one, and to no
      other. */
  lemma OwedNotified(e: Export, counts: seq<nat>, tr: seq<State>, steps: seq<Step>, j: nat, i: nat, r: Req)
    requires IsRun(e, counts, tr, steps) && j < |steps| && i < |counts| && Does(tr[j], steps[j], r) && MayWake(r)
    requires i < |tr[j].clients| && i < |tr[j + 1].clients|
    ensures var was, now := tr[j].clients[i].down, tr[j + 1].clients[i].down;
      was + (if Owed(tr, steps, j, i) then [Notify] else []) ==
        if steps[j] == Serve(i) && now != [] then now[..|now| - 1] else now
  {
    MaskIsOwed(e, counts, tr, steps, j, i);
    assert Goes(tr[j], steps[j], tr[j + 1]);
    SameKind(e, counts, tr, steps, j);
    if steps[j].Serve? { RunHonest(e, counts, tr, steps, j, steps[j].i); }
    hide Owed, Ready, Apply, Timed, IsRun;
    NotifiedIs(tr[j], steps[j], i, r);
  }

  lemma NotifiedIs(s: State, a: Step, i: nat, r: Req)
    requires Ready(s, a) && Does(s, a, r) && MayWake(r) && i < |s.clients| && i < |Apply(s, a).clients|
    requires a.Serve? ==> Matches(s.obj, r)
    ensures var now := Apply(s, a).clients[i].down;
      s.clients[i].down + (if i in s.mask then [Notify] else []) ==
        if a == Serve(i) && now != [] then now[..|now| - 1] else now
  {
    hide Passes, Effect, Reply, Notified, Sound, Perform;
    match a
    case Serve(x) =>
      var call := s.clients[x].up[0];
      SetsPass(s.obj, r);
      PerformUp(s, r, call.par, (x, call.id));
    case Local(_, _, par) => PerformUp(s, r, par, (|s.clients|, |s.got|));
  }

  // ---- timeouts and retries ----

  /** A woken task sends its test again if and only if the test waits, was not acknowledged
      with success, and its timeout has not gone off; otherwise the test is over. */
  lemma ResentIff(e: Export, counts: seq<nat>, tr: seq<State>, steps: seq<Step>, j: nat, i: nat, k: nat)
    requires IsRun(e, counts, tr, steps) && j < |steps| && steps[j] == Resume(i, k)
    requires i < |tr[j].clients| && k < |tr[j].clients[i].woken| && i < |tr[j + 1].clients|
    ensures var c, d, w := tr[j].clients[i], tr[j + 1].clients[i], tr[j].clients[i].woken[k];
      && d.woken == Cut(c.woken, k) && d.down == c.down
      && if Waits(w.req) && w.p2 != SUCCESS && w.id !in Timed(tr, steps, j, i) then
           var par := if w.req.Test? then Value(w.req.amount) else Bits(w.req.mask);
           && d.up == c.up + [Request(c.count % 256, w.req, par, c.count)]
           && d.queue == c.queue + [Waiter(w.task, c.count % 256, par, w.req, c.count)]
         else d.up == c.up && d.queue == c.queue
  {
    SameKind(e, counts, tr, steps, j);
    RunHonest(e, counts, tr, steps, j, i);
    assert Goes(tr[j], steps[j], tr[j + 1]);
    ResumeIs(tr[j], i, k);
    hide Ready, Apply, Carried, InTurn;
  }

  lemma ResumeIs(s: State, i: nat, k: nat)
    requires Ready(s, Resume(i, k))
    ensures Apply(s, Resume(i, k)).clients == s.clients[i := OnResume(s.clients[i], k)]
  {
    hide OnResume, Fresh;
  }

  lemma {:induction false} TimedGrows(tr: seq<State>, steps: seq<Step>, j: nat, n: nat, i: nat)
    requires j <= n <= |steps| < |tr|
    ensures Timed(tr, steps, j, i) <= Timed(tr, steps, n, i)
    decreases n
  {
    hide TimesOut;
    if j < n { TimedGrows(tr, steps, j, n - 1, i); }
  }

  /** A request whose timeout goes off, while it waits or when it was woken already, is on the
      wait queue no more, and when its task runs on nothing is sent for it. */
  lemma TimeoutEnds(e: Export, counts: seq<nat>, tr: seq<State>, steps: seq<Step>, n: nat, j: nat, i: nat, id: nat)
    requires IsRun(e, counts, tr, steps) && n < j < |tr| && i < |tr[j].clients|
    requires id in TimesOut(tr[n], steps[n], i)
    ensures forall k :: 0 <= k < |tr[j].clients[i].queue| ==> tr[j].clients[i].queue[k].id != id
    ensures j < |steps| && steps[j].Resume? && steps[j].i == i && steps[j].k < |tr[j].clients[i].woken| ==>
      tr[j].clients[i].woken[steps[j].k].id == id ==>
        && i < |tr[j + 1].clients| && tr[j + 1].clients[i].up == tr[j].clients[i].up
        && tr[j + 1].clients[i].queue == tr[j].clients[i].queue
  {
    hide Ready, Apply, InTurn, Carried, TimesOut;
    SameKind(e, counts, tr, steps, j);
    RunHonest(e, counts, tr, steps, j, i);
    TimedGrows(tr, steps, n + 1, j, i);
    assert id in Timed(tr, steps, n + 1, i);
    hide Timed;
    if j < |steps| && steps[j].Resume? && steps[j].i == i && steps[j].k < |tr[j].clients[i].woken| {
      SameKind(e, counts, tr, steps, j + 1);
      ResentIff(e, counts, tr, steps, j, i, steps[j].k);
    }
    hide IsRun;
  }
}
