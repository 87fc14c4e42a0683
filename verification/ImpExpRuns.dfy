/** Runs of one exported object: what holds whatever the interleaving of clients,
    server, timers and channels. */
module ImpExpRuns {
  import opened ImpExp
  import opened ImpExpLedger
  import opened ImpExpSafety
  import opened ImpExpTokens
  import opened Objects

  ghost predicate IsRun(e: Export, counts: seq<nat>, tr: seq<State>, steps: seq<Step>) {
    && Proper(e) && |tr| == |steps| + 1 && tr[0] == Start(e, counts)
    && forall i :: 0 <= i < |steps| ==> Goes(tr[i], steps[i], tr[i + 1])
  }

  ghost predicate Goes(s: State, a: Step, t: State) { Ready(s, a) && t == Apply(s, a) }

  ghost predicate Inv(s: State) { Clients(s) && TokensOk(s) && LedgerOk(s) && StoreOk(s) }

  lemma {:induction false} RunInv(e: Export, counts: seq<nat>, tr: seq<State>, steps: seq<Step>, i: nat)
    requires IsRun(e, counts, tr, steps) && i < |tr|
    ensures Inv(tr[i])
  {
    hide Clients, TokensOk, LedgerOk, StoreOk, Ready, Apply;
    if i == 0 {
      StartOk(e, counts);
      StartTokens(e, counts);
      StartBooks(e, counts);
      StartStore(e, counts);
    } else {
      RunInv(e, counts, tr, steps, i - 1);
      assert Goes(tr[i - 1], steps[i - 1], tr[i]);
      StepInv(tr[i - 1], steps[i - 1]);
    }
  }

  lemma StepInv(s: State, a: Step)
    requires Inv(s) && Ready(s, a)
    ensures Inv(Apply(s, a))
  {
    hide Clients, TokensOk, LedgerOk, StoreOk, Ready, Apply;
    StepOk(s, a);
    StepTokens(s, a);
    StepBooks(s, a);
    StepStore(s, a);
  }

  /** What the export is does not change. */
  lemma {:induction false} SameKind(e: Export, counts: seq<nat>, tr: seq<State>, steps: seq<Step>, i: nat)
    requires IsRun(e, counts, tr, steps) && i < |tr|
    ensures tr[i].store == e.Stored? && tr[i].obj.Sem? == (e.Plain? ==> e.obj.Sem?)
    ensures tr[i].initial == match e { case Plain(Sem(v)) => v case Plain(_) => 0 case Stored(items) => |items| }
    ensures |tr[i].clients| == |counts|
  {
    if i > 0 {
      SameKind(e, counts, tr, steps, i - 1);
      assert Goes(tr[i - 1], steps[i - 1], tr[i]);
      StepKind(tr[i - 1], steps[i - 1]);
    }
  }

  lemma StepKind(s: State, a: Step)
    requires Ready(s, a)
    ensures var t := Apply(s, a);
      t.store == s.store && t.obj.Sem? == s.obj.Sem? && t.initial == s.initial && |t.clients| == |s.clients|
  {
    hide Fresh, Find, Notified, OnMessage, OnResume, Send, Expire, Respond, Sound, Reply, Coming;
  }

  // ---- nobody is stranded ----

  /** Every queued task either has its request or its ACK in flight, or it is a waiting
      test parked by a failing ACK: then a NOTIFY is on its way to its processor, or
      the server has that processor on its mask and the test fails as things stand. */
  lemma NoStrandedWaiter(e: Export, counts: seq<nat>, tr: seq<State>, steps: seq<Step>, i: nat, c: nat, k: nat)
    requires IsRun(e, counts, tr, steps) && i < |tr|
    requires c < |tr[i].clients| && k < |tr[i].clients[c].queue|
    ensures var s := tr[i]; var w := s.clients[c].queue[k];
      || Own(w) in Flight(s.clients[c])
      || (w.p2 == PARKED && Waits(w.req)
          && (Notify in s.clients[c].down || (c in s.mask && !Passes(s.obj, w.req))))
  {
    RunInv(e, counts, tr, steps, i);
    var s := tr[i];
    assert ClientOk(s.clients[c], c in s.mask, s.obj);
    assert WaiterOk(Flight(s.clients[c]), s.clients[c].down, s.clients[c].queue[k], c in s.mask, s.obj);
  }

  /** Once a processor's channels are empty, whoever still waits there is waiting
      rightly: its test fails now, and the server will tell it of the next change. */
  lemma QuietMeansWaiting(e: Export, counts: seq<nat>, tr: seq<State>, steps: seq<Step>, i: nat, c: nat, k: nat)
    requires IsRun(e, counts, tr, steps) && i < |tr|
    requires c < |tr[i].clients| && k < |tr[i].clients[c].queue|
    requires tr[i].clients[c].up == [] && tr[i].clients[c].down == []
    ensures c in tr[i].mask && !Passes(tr[i].obj, tr[i].clients[c].queue[k].req)
  {
    NoStrandedWaiter(e, counts, tr, steps, i, c, k);
  }

  /** The change that makes a parked test pass sends its processor a NOTIFY, and the
      NOTIFY wakes it to try again. */
  lemma ChangeWakes(e: Export, counts: seq<nat>, tr: seq<State>, steps: seq<Step>, i: nat, c: nat, k: nat)
    requires IsRun(e, counts, tr, steps) && i < |steps|
    requires c < |tr[i].clients| && k < |tr[i].clients[c].queue| && tr[i].clients[c].queue[k].p2 == PARKED
    requires steps[i].Serve? || steps[i].Local?
    requires Passes(tr[i + 1].obj, tr[i].clients[c].queue[k].req)
    ensures tr[i + 1].clients[c].queue == tr[i].clients[c].queue
    ensures Notify in tr[i + 1].clients[c].down
  {
    assert Goes(tr[i], steps[i], tr[i + 1]);
    SameWoken(tr[i], steps[i], c);
    NoStrandedWaiter(e, counts, tr, steps, i + 1, c, k);
    RunInv(e, counts, tr, steps, i + 1);
    SmallNumbers(tr[i + 1], c);
  }

  lemma SmallNumbers(s: State, c: nat)
    requires Inv(s) && c < |s.clients|
    ensures forall r :: r in Flight(s.clients[c]) ==> r.seqNum < 256
  {
    assert ClientOk(s.clients[c], c in s.mask, s.obj);
  }

  /** A NOTIFY empties the queue, and each test it wakes is sent again. */
  lemma NotifyRetries(c: Client, store: bool, k: nat)
    requires c.down != [] && c.down[0].Notify? && k < |c.queue| && Waits(c.queue[k].req)
    ensures var d := OnMessage(c, store);
      && d.queue == [] && |d.woken| == |c.woken| + |c.queue|
      && Retries(d.woken[|c.woken| + k]) && d.woken[|c.woken| + k].task == c.queue[k].task
  {
  }

  // ---- success reported is success granted ----

  /** No test times out under number 1 without a grant on its way to it. */
  ghost predicate NoUnbacked(tr: seq<State>, steps: seq<Step>) {
    |tr| == |steps| + 1 && forall j :: 0 <= j < |steps| ==> !Unbacked(tr[j], steps[j])
  }

  ghost predicate NoGarbled(tr: seq<State>, steps: seq<Step>) {
    |tr| == |steps| + 1 && forall j :: 0 <= j < |steps| ==> !Garbled(tr[j], steps[j])
  }

  /** In any run, every success that a task has to report was granted to it, at every
      moment, if and only if no test times out under number 1 with no grant on its way. */
  lemma SuccessBackedIff(e: Export, counts: seq<nat>, tr: seq<State>, steps: seq<Step>)
    requires IsRun(e, counts, tr, steps)
    ensures (forall i :: 0 <= i < |tr| ==> AllBacked(tr[i])) <==> NoUnbacked(tr, steps)
  {
    hide AllBacked, Unbacked, Ready, Apply;
    if forall i :: 0 <= i < |tr| ==> AllBacked(tr[i]) {
      forall j | 0 <= j < |steps| ensures !Unbacked(tr[j], steps[j]) { RunBacked(e, counts, tr, steps, j); }
    }
    if NoUnbacked(tr, steps) {
      forall i | 0 <= i < |tr| ensures AllBacked(tr[i]) { BackedUpTo(e, counts, tr, steps, i); }
    }
  }

  /** And every test returns the item, or the flags, that it was granted with, if and only
      if none times out under number 1 unless the ACK on its way carries the very word
      that the test sent. */
  lemma ResultExactIff(e: Export, counts: seq<nat>, tr: seq<State>, steps: seq<Step>)
    requires IsRun(e, counts, tr, steps)
    ensures (forall i :: 0 <= i < |tr| ==> AllExact(tr[i])) <==> NoGarbled(tr, steps)
  {
    hide AllExact, Garbled, Ready, Apply;
    if forall i :: 0 <= i < |tr| ==> AllExact(tr[i]) {
      forall j | 0 <= j < |steps| ensures !Garbled(tr[j], steps[j]) { RunBacked(e, counts, tr, steps, j); }
    }
    if NoGarbled(tr, steps) {
      forall i | 0 <= i < |tr| ensures AllExact(tr[i]) { ExactUpTo(e, counts, tr, steps, i); }
    }
  }

  lemma RunBacked(e: Export, counts: seq<nat>, tr: seq<State>, steps: seq<Step>, j: nat)
    requires IsRun(e, counts, tr, steps) && j < |steps|
    ensures AllBacked(tr[j]) && !Unbacked(tr[j], steps[j]) ==> AllBacked(tr[j + 1])
    ensures AllExact(tr[j]) && !Garbled(tr[j], steps[j]) ==> AllExact(tr[j + 1])
    ensures Unbacked(tr[j], steps[j]) ==> !AllBacked(tr[j + 1])
    ensures Garbled(tr[j], steps[j]) ==> !AllExact(tr[j + 1])
  {
    hide AllBacked, AllExact, Unbacked, Garbled, Ready, Apply;
    RunInv(e, counts, tr, steps, j);
    assert Goes(tr[j], steps[j], tr[j + 1]);
    StepBacked(tr[j], steps[j]);
  }

  lemma {:induction false} BackedUpTo(e: Export, counts: seq<nat>, tr: seq<State>, steps: seq<Step>, i: nat)
    requires IsRun(e, counts, tr, steps) && i < |tr| && NoUnbacked(tr, steps)
    ensures AllBacked(tr[i])
  {
    if i > 0 {
      hide AllBacked, Unbacked, Ready, Apply;
      BackedUpTo(e, counts, tr, steps, i - 1);
      RunBacked(e, counts, tr, steps, i - 1);
    }
  }

  lemma {:induction false} ExactUpTo(e: Export, counts: seq<nat>, tr: seq<State>, steps: seq<Step>, i: nat)
    requires IsRun(e, counts, tr, steps) && i < |tr| && NoGarbled(tr, steps)
    ensures AllExact(tr[i])
  {
    if i > 0 {
      hide AllExact, Garbled, Ready, Apply;
      ExactUpTo(e, counts, tr, steps, i - 1);
      RunBacked(e, counts, tr, steps, i - 1);
    }
  }

  /** A waiting test that times out keeps its words as they stand. It reports success
      exactly when it has number 1, was granted exactly when an ACK of success is on its
      way, and was granted with the word it returns exactly when that ACK carries it. */
  lemma TimeoutVerdict(e: Export, counts: seq<nat>, tr: seq<State>, steps: seq<Step>, i: nat, c: nat, k: nat)
    requires IsRun(e, counts, tr, steps) && i < |steps| && steps[i] == Timeout(c, k)
    requires c < |tr[i].clients| && k < |tr[i].clients[c].queue|
    ensures var s, t := tr[i], tr[i + 1]; var w, x := s.clients[c].queue[k], (c, s.clients[c].queue[k].id);
      && c < |t.clients| && t.clients[c].woken == s.clients[c].woken + [Expired(w)] && t.grants == s.grants
      && (Expired(w).p2 == SUCCESS <==> w.p2 == 1)
      && (w.p2 == PARKED ==> x !in s.grants)
      && (w.p2 != PARKED ==> (x in s.grants <==> Coming(s.clients[c].down, w.p2)))
      && (w.p2 != PARKED && x in s.grants ==>
            (s.grants[x].par == w.p1 <==> ComingWith(s.clients[c].down, w.p2, w.p1)))
  {
    var s := tr[i];
    RunInv(e, counts, tr, steps, i);
    assert Goes(s, steps[i], tr[i + 1]);
    NoStrandedWaiter(e, counts, tr, steps, i, c, k);
    GrantOf(s, c, k);
    hide Inv, Coming, ComingWith, Flight;
  }

  /** Whether a queued request was granted, and with what word. */
  lemma GrantOf(s: State, c: nat, k: nat)
    requires Inv(s) && c < |s.clients| && k < |s.clients[c].queue|
    requires s.clients[c].queue[k].p2 == PARKED || Own(s.clients[c].queue[k]) in Flight(s.clients[c])
    ensures var w, x := s.clients[c].queue[k], (c, s.clients[c].queue[k].id);
      && (w.p2 == PARKED ==> x !in s.grants)
      && (w.p2 != PARKED ==> (x in s.grants <==> Coming(s.clients[c].down, w.p2)))
      && (w.p2 != PARKED && x in s.grants ==>
            (s.grants[x].par == w.p1 <==> ComingWith(s.clients[c].down, w.p2, w.p1)))
  {
    hide Coming, ComingWith, Flight;
    assert ClientOk(s.clients[c], c in s.mask, s.obj);
    SmallNumbers(s, c);
    BooksOf(s, c);
    hide Inv, ClientOk;
    if s.clients[c].queue[k].p2 < 256 {
      Verdict(c, s.clients[c], k, s.store, c in s.mask, s.obj, s.grants, s.claims);
    } else {
      assert Refused(c, s.clients[c].queue[k], Flight(s.clients[c]), s.grants);
    }
  }

  /** No grant is claimed twice; and while reports are true only grants are claimed. */
  lemma ClaimedOnce(e: Export, counts: seq<nat>, tr: seq<State>, steps: seq<Step>, i: nat, c: nat, k: nat)
    requires IsRun(e, counts, tr, steps) && i < |steps| && steps[i] == Resume(c, k)
    requires c < |tr[i].clients| && k < |tr[i].clients[c].woken| && tr[i].clients[c].woken[k].p2 == SUCCESS
    ensures (c, tr[i].clients[c].woken[k].id) !in tr[i].claims
    ensures tr[i + 1].claims == tr[i].claims + {(c, tr[i].clients[c].woken[k].id)}
    ensures NoUnbacked(tr, steps) ==> (c, tr[i].clients[c].woken[k].id) in tr[i].grants
  {
    RunInv(e, counts, tr, steps, i);
    assert Goes(tr[i], steps[i], tr[i + 1]);
    BooksOf(tr[i], c);
    if NoUnbacked(tr, steps) {
      BackedUpTo(e, counts, tr, steps, i);
      assert Backed(c, tr[i].clients[c].woken[k], tr[i].grants);
    }
  }

  // ---- no token is granted twice ----

  /** Value plus grants is the initial value plus the increments performed, and no more
      is claimed than granted, but for tests whose timeout was misread as success. */
  lemma TokensConserved(e: Export, counts: seq<nat>, tr: seq<State>, steps: seq<Step>, i: nat)
    requires IsRun(e, counts, tr, steps) && i < |tr|
    ensures tr[i].obj.Sem? ==> tr[i].obj.value + tr[i].granted == tr[i].initial + tr[i].added
    ensures tr[i].claimed <= tr[i].granted + tr[i].spurious
    ensures tr[i].added <= tr[i].asked
  {
    RunInv(e, counts, tr, steps, i);
  }

  lemma {:induction false} NothingSpurious(e: Export, counts: seq<nat>, tr: seq<State>, steps: seq<Step>, i: nat)
    requires IsRun(e, counts, tr, steps) && i < |tr| && NoUnbacked(tr, steps)
    ensures tr[i].spurious == 0
  {
    hide Ready, Apply, Unbacked;
    if i > 0 {
      NothingSpurious(e, counts, tr, steps, i - 1);
      assert Goes(tr[i - 1], steps[i - 1], tr[i]) && !Unbacked(tr[i - 1], steps[i - 1]);
      StepSpurious(tr[i - 1], steps[i - 1]);
    }
  }

  lemma StepSpurious(s: State, a: Step)
    requires Ready(s, a) && !Unbacked(s, a)
    ensures Apply(s, a).spurious == s.spurious
  {
    hide Fresh, Find, Notified, OnMessage, OnResume, Send, Expire, Respond, Sound, Reply, Coming, Passes, Effect;
  }

  /** Then no more tokens are ever claimed than there were to begin with or were set. */
  lemma NeverDuplicated(e: Export, counts: seq<nat>, tr: seq<State>, steps: seq<Step>, i: nat)
    requires IsRun(e, counts, tr, steps) && i < |tr| && NoUnbacked(tr, steps) && Start(e, counts).obj.Sem?
    ensures tr[i].obj.Sem?
    ensures tr[i].claimed + tr[i].obj.value <= Start(e, counts).obj.value + tr[i].added
  {
    NothingSpurious(e, counts, tr, steps, i);
    TokensConserved(e, counts, tr, steps, i);
    SameKind(e, counts, tr, steps, i);
  }

  /** A client whose next request carries number 1 calls a waiting test for one. */
  function Asked(s: State): (t: State)
    requires Idle(s)
  {
    s.(clients := [Client(2, [Waiter(7, 1, Value(1), Test(1, true), 1)], [],
      [Request(1, Test(1, true), Value(1), 1)], [])])
  }

  predicate Idle(s: State) { s.clients == [Client(1, [], [], [], [])] }

  lemma CallFirst(s: State)
    requires Idle(s) && s.obj.Sem?
    ensures Goes(s, Call(0, 7, Test(1, true), Value(1)), Asked(s))
  {
    var d := Send(s.clients[0], 7, Test(1, true), Value(1));
    assert d == Asked(s).clients[0];
    assert s.clients[0 := d] == [d];
  }

  /** Timed out and resumed while its request is still on the way to the server. */
  lemma MisreadSteps(s: State) returns (t: State, u: State)
    requires Idle(s)
    ensures Goes(Asked(s), Timeout(0, 0), t) && Goes(t, Resume(0, 0), u) && Unbacked(Asked(s), Timeout(0, 0))
    ensures |t.clients| == 1 && t.clients[0].woken == [Woken(7, 1, Value(1), Test(1, true), 1, true)]
    ensures u.granted == s.granted && u.claimed == s.claimed + 1
  {
    t := Apply(Asked(s), Timeout(0, 0));
    u := Apply(t, Resume(0, 0));
  }

  /** If that test times out unanswered, its task claims a token that nobody granted. */
  lemma TimeoutMisread() returns (tr: seq<State>, steps: seq<Step>)
    ensures IsRun(Plain(Sem(0)), [1], tr, steps) && steps != []
    ensures tr[|steps|].granted == 0 && tr[|steps|].claimed == 1
  {
    var s := Start(Plain(Sem(0)), [1]);
    CallFirst(s);
    var t, u := MisreadSteps(s);
    steps := [Call(0, 7, Test(1, true), Value(1)), Timeout(0, 0), Resume(0, 0)];
    tr := ThreeSteps(Plain(Sem(0)), s, Asked(s), t, u, steps);
  }

  /** Served, timed out with the grant on its way, and resumed. */
  lemma GrantedSteps(s: State) returns (r: State, t: State, u: State)
    requires Idle(s) && s.obj == Sem(1) && !s.store
    ensures Goes(Asked(s), Serve(0), r) && Goes(r, Timeout(0, 0), t) && Goes(t, Resume(0, 0), u)
    ensures UnderOne(r, Timeout(0, 0)) && !Unbacked(r, Timeout(0, 0))
    ensures u.granted == s.granted + 1 && u.claimed == s.claimed + 1 && u.spurious == s.spurious
  {
    r := Apply(Asked(s), Serve(0));
    assert r.clients[0].down == [Ack(Request(1, Test(1, true), Value(1), 1), true, Value(1))];
    assert Grants(r.clients[0].down[0], 1);
    t := Apply(r, Timeout(0, 0));
    u := Apply(t, Resume(0, 0));
  }

  /** Number 1 alone does no harm. kernel/lock.c starts a lock at 1, so an imported lock's
      first request has that number; when it times out with its grant on its way, the task
      claims what it was granted. */
  lemma TimeoutGranted() returns (tr: seq<State>, steps: seq<Step>)
    ensures IsRun(Plain(Sem(1)), [1], tr, steps) && |steps| == 4 && UnderOne(tr[2], steps[2])
    ensures NoUnbacked(tr, steps) && tr[4].granted == 1 && tr[4].claimed == 1 && tr[4].spurious == 0
  {
    var s := Start(Plain(Sem(1)), [1]);
    CallFirst(s);
    var r, t, u := GrantedSteps(s);
    hide Ready, Apply, Coming;
    steps := [Call(0, 7, Test(1, true), Value(1)), Serve(0), Timeout(0, 0), Resume(0, 0)];
    tr := [s, Asked(s), r, t, u];
    assert !Unbacked(tr[2], steps[2]);
  }

  // ---- exported mailboxes and pools ----

  /** Across any number of processors a mailbox is a queue: what was put is what was taken
      followed by what it holds, which the semaphore counts. The k-th item went to the k-th
      taker and to no other, and a client that reports success in a get has been given the
      item that its own request took, if no timeout garbled it. */
  lemma StoreIsQueue(items: seq<nat>, counts: seq<nat>, tr: seq<State>, steps: seq<Step>, i: nat)
    requires IsRun(Stored(items), counts, tr, steps) && i < |tr|
    ensures tr[i].put == tr[i].got + tr[i].items && tr[i].obj == Sem(|tr[i].items|)
    ensures |tr[i].takers| == |tr[i].got|
    ensures forall j, k :: 0 <= j < k < |tr[i].takers| ==> tr[i].takers[j] != tr[i].takers[k]
  {
    RunInv(Stored(items), counts, tr, steps, i);
    SameKind(Stored(items), counts, tr, steps, i);
  }

  lemma ItemsDelivered(items: seq<nat>, counts: seq<nat>, tr: seq<State>, steps: seq<Step>, i: nat, c: nat, k: nat)
    returns (n: nat)
    requires IsRun(Stored(items), counts, tr, steps) && i < |tr| && NoGarbled(tr, steps)
    requires c < |tr[i].clients| && k < |tr[i].clients[c].woken|
    requires var w := tr[i].clients[c].woken[k]; w.p2 == SUCCESS && w.req.Test?
    ensures n < |tr[i].got| == |tr[i].takers| && tr[i].takers[n] == (c, tr[i].clients[c].woken[k].id)
    ensures tr[i].clients[c].woken[k].p1 == Value(tr[i].got[n])
  {
    var s := tr[i];
    var w := s.clients[c].woken[k];
    RunInv(Stored(items), counts, tr, steps, i);
    SameKind(Stored(items), counts, tr, steps, i);
    ExactUpTo(Stored(items), counts, tr, steps, i);
    assert Exact(c, w, s.grants) && (c, w.id) in s.takers;
    n :| 0 <= n < |s.takers| && s.takers[n] == (c, w.id);
    assert Taker(|s.clients|, n, s.got[n], s.takers[n], s.grants);
  }

  /** A get from a mailbox that times out under number 1 returns its own parameter in place
      of the item, which is on its way and lost, although the get was granted. */
  lemma ItemLost() returns (tr: seq<State>, steps: seq<Step>)
    ensures IsRun(Stored([40]), [1], tr, steps) && NoUnbacked(tr, steps) && !NoGarbled(tr, steps)
    ensures var s := tr[|steps|];
      && s.got == [40] && s.items == [] && |s.clients| == 1 && |s.clients[0].woken| == 1
      && s.clients[0].woken[0].p2 == SUCCESS && s.clients[0].woken[0].p1 == Value(1)
  {
    var s := Start(Stored([40]), [1]);
    CallFirst(s);
    var r, t := LostSteps(s);
    steps := [Call(0, 7, Test(1, true), Value(1)), Serve(0), Timeout(0, 0)];
    tr := ThreeSteps(Stored([40]), s, Asked(s), r, t, steps);
    hide Unbacked, Garbled, Start, Goes, Asked, IsRun;
    NotTimeouts(s, steps[0]);
    NotTimeouts(Asked(s), steps[1]);
    assert !Unbacked(tr[2], steps[2]);
    assert Garbled(tr[2], steps[2]);
  }

  lemma ThreeSteps(e: Export, s: State, r: State, t: State, u: State, steps: seq<Step>) returns (tr: seq<State>)
    requires Proper(e) && s == Start(e, [1]) && |steps| == 3
    requires Goes(s, steps[0], r) && Goes(r, steps[1], t) && Goes(t, steps[2], u)
    ensures tr == [s, r, t, u] && IsRun(e, [1], tr, steps)
  {
    hide Goes, Start, Proper;
    tr := [s, r, t, u];
  }

  lemma NotTimeouts(s: State, a: Step)
    requires !a.Timeout?
    ensures !Unbacked(s, a)
  {
  }

  lemma LostSteps(s: State) returns (r: State, t: State)
    requires Idle(s) && s.obj == Sem(1) && s.store && s.items == [40] && s.got == []
    ensures Goes(Asked(s), Serve(0), r) && Goes(r, Timeout(0, 0), t)
    ensures !Unbacked(r, Timeout(0, 0)) && Garbled(r, Timeout(0, 0))
    ensures t.got == [40] && t.items == [] && |t.clients| == 1
    ensures t.clients[0].woken == [Woken(7, 1, Value(1), Test(1, true), 1, true)]
  {
    r := Apply(Asked(s), Serve(0));
    assert r.clients[0].down == [Ack(Request(1, Test(1, true), Value(1), 1), true, Value(40))];
    assert Grants(r.clients[0].down[0], 1);
    t := Apply(r, Timeout(0, 0));
  }
}
