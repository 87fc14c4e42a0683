/** An exported lock: a semaphore that starts at one, tested and set by one, and set only
    by a task that holds it. */
module ImpExpLocks {
  import opened ImpExp
  import opened ImpExpLedger
  import opened ImpExpRuns
  import opened ImpExpSafety
  import opened ImpExpTokens
  import opened Objects
  import opened Sequences

  /** The task making a request, by processor and name; the server comes after its clients. */
  ghost function Caller(s: State, a: Step): (x: (nat, nat))
    requires Ready(s, a) && (a.Call? || a.Again? || a.Local? || a.Resume?)
  {
    match a
    case Call(c, task, _, _) => (c, task)
    case Again(c, k, _, _) => (c, s.clients[c].queue[k].task)
    case Local(task, _, _) => (|s.clients|, task)
    case Resume(c, k) => (c, s.clients[c].woken[k].task)
  }

  /** The tasks that hold the lock: those that claimed it and have not asked to unlock it. */
  ghost function After(s: State, a: Step, h: set<(nat, nat)>): (r: set<(nat, nat)>)
    requires Ready(s, a)
  {
    match a
    case Call(_, _, r, _) => if r.Set? then h - {Caller(s, a)} else h
    case Again(_, _, r, _) => if r.Set? then h - {Caller(s, a)} else h
    case Local(_, r, _) => if r.Set? then h - {Caller(s, a)} else h + {Caller(s, a)}
    case Resume(c, k) =>
      var w := s.clients[c].woken[k];
      if w.p2 == SUCCESS && w.req.Test? then h + {Caller(s, a)} else h
    case _ => h
  }

  ghost function Holders(tr: seq<State>, steps: seq<Step>, i: nat): (h: set<(nat, nat)>)
    requires i < |tr| == |steps| + 1
  {
    if i == 0 then {}
    else
      var h := Holders(tr, steps, i - 1);
      if Ready(tr[i - 1], steps[i - 1]) then After(tr[i - 1], steps[i - 1], h) else h
  }

  /** Tests and sets of one, and only a holder unlocks. */
  ghost predicate Proceeds(s: State, a: Step, h: set<(nat, nat)>) {
    Ready(s, a) && (a.Call? || a.Again? || a.Local? ==> ForStore(a.req) && (a.req.Set? ==> Caller(s, a) in h))
  }

  ghost predicate LockRun(tr: seq<State>, steps: seq<Step>) {
    |tr| == |steps| + 1 && forall i :: 0 <= i < |steps| ==> Proceeds(tr[i], steps[i], Holders(tr, steps, i))
  }

  ghost predicate AllKinds(s: State) { forall i :: 0 <= i < |s.clients| ==> Kinds(s.clients[i]) }

  /** Every holder claimed, and every unlock asked for was a holder's. */
  lemma StepHolders(s: State, a: Step, h: set<(nat, nat)>)
    requires Proceeds(s, a, h) && !s.store && AllKinds(s) && |h| + s.asked <= s.claimed
    ensures |After(s, a, h)| + Apply(s, a).asked <= Apply(s, a).claimed
  {
    hide Passes, Effect, Fresh, Coming, Notified, Reply, OnMessage, OnResume, Send, Expire, Respond, Kinds;
    match a
    case Resume(c, k) =>
      WokenKind(s.clients[c], k);
      Joined(h, Caller(s, a));
    case Call(_, _, r, _) => if r.Set? { Left(h, Caller(s, a)); }
    case Again(_, _, r, _) => if r.Set? { Left(h, Caller(s, a)); }
    case Local(_, r, _) => if r.Set? { Left(h, Caller(s, a)); } else { Joined(h, Caller(s, a)); }
    case _ =>
  }

  lemma Joined(h: set<(nat, nat)>, x: (nat, nat))
    ensures |h + {x}| <= |h| + 1
  {
    if x in h { assert h + {x} == h; }
  }

  lemma Left(h: set<(nat, nat)>, x: (nat, nat))
    requires x in h
    ensures |h - {x}| == |h| - 1
  {
  }

  lemma StepKinds(s: State, a: Step, h: set<(nat, nat)>)
    requires Proceeds(s, a, h) && !s.store && AllKinds(s)
    ensures AllKinds(Apply(s, a))
  {
    hide Kinds, Passes, Effect, Fresh, Coming, Notified, Stock, Reply, Apply;
    if a.Serve? {
      KindsServed(s, a.i);
      ServeIs(s, a.i);
    } else if a.Local? {
      LocalKinds(s, a);
    } else {
      if a.Call? || a.Again? { PlainCalls(s, a, h); }
      forall i | 0 <= i < |Apply(s, a).clients| ensures Kinds(Apply(s, a).clients[i]) {
        StepKind(s, a);
        ClientKinds(s, a, i);
      }
    }
  }

  lemma ServeIs(s: State, i: nat)
    requires Ready(s, Serve(i))
    ensures Apply(s, Serve(i)) == ServeOne(s, i)
  {
  }

  lemma PlainCalls(s: State, a: Step, h: set<(nat, nat)>)
    requires Proceeds(s, a, h) && !s.store && (a.Call? || a.Again?)
    ensures ForStore(a.req) && (a.req.Set? ==> a.par.Value? && a.par.n > 0)
  {
    hide Fresh;
  }

  lemma LocalKinds(s: State, a: Step)
    requires Ready(s, a) && a.Local? && AllKinds(s)
    ensures AllKinds(Apply(s, a))
  {
    hide Passes, Effect, Sound, Perform, Notified;
    PerformUp(s, a.req, a.par, (|s.clients|, |s.got|));
    forall i | 0 <= i < |s.clients| ensures Kinds(Apply(s, a).clients[i]) { assert Kinds(s.clients[i]); }
  }

  lemma {:induction false} HoldersCounted(counts: seq<nat>, tr: seq<State>, steps: seq<Step>, i: nat)
    requires IsRun(Plain(Sem(1)), counts, tr, steps) && LockRun(tr, steps) && i < |tr|
    ensures AllKinds(tr[i]) && |Holders(tr, steps, i)| + tr[i].asked <= tr[i].claimed
  {
    if i > 0 {
      hide AllKinds, After, Ready, Apply;
      HoldersCounted(counts, tr, steps, i - 1);
      SameKind(Plain(Sem(1)), counts, tr, steps, i - 1);
      var s, a, h := tr[i - 1], steps[i - 1], Holders(tr, steps, i - 1);
      assert Goes(s, a, tr[i]) && Proceeds(s, a, h);
      StepHolders(s, a, h);
      StepKinds(s, a, h);
    }
  }

  /** Mutual exclusion. In every run on an exported lock in which only holders unlock, with
      any interleaving of processors, messages and timeouts, at every moment at most one
      task holds the lock, and none while it is free; provided no test times out under
      number 1 with no grant on its way to it. */
  lemma MutualExclusion(counts: seq<nat>, tr: seq<State>, steps: seq<Step>, i: nat)
    requires IsRun(Plain(Sem(1)), counts, tr, steps) && LockRun(tr, steps) && NoUnbacked(tr, steps) && i < |tr|
    ensures tr[i].obj.Sem? && |Holders(tr, steps, i)| + tr[i].obj.value <= 1
    ensures forall x, y :: x in Holders(tr, steps, i) && y in Holders(tr, steps, i) ==> x == y
  {
    HoldersCounted(counts, tr, steps, i);
    NeverDuplicated(Plain(Sem(1)), counts, tr, steps, i);
    TokensConserved(Plain(Sem(1)), counts, tr, steps, i);
    var h := Holders(tr, steps, i);
    forall x, y | x in h && y in h ensures x == y {
      if x != y { Left(h, x); Left(h - {x}, y); }
    }
  }

  /** Without that proviso two tasks come to hold it: one on the server, and one whose
      first request was never even served. */
  lemma TwoHolders() returns (tr: seq<State>, steps: seq<Step>)
    ensures IsRun(Plain(Sem(1)), [1], tr, steps) && LockRun(tr, steps)
    ensures |steps| == 4 && |Holders(tr, steps, 4)| == 2
  {
    var h: set<(nat, nat)> := {(1, 5)};
    var s0 := Start(Plain(Sem(1)), [1]);
    var s := LocalFirst(s0);
    CallFirst(s);
    var t, u := MisreadSteps(s);
    Calls(s, h);
    Expires(Asked(s), h);
    Misreads(t, h);
    hide Apply, After, Ready, Start, Asked, Proceeds, Goes;
    tr, steps := FourSteps(s0, Local(5, Test(1, true), Value(1)), s, Call(0, 7, Test(1, true), Value(1)), Asked(s),
      Timeout(0, 0), t, Resume(0, 0), u, h, h + {(0, 7)});
    Pair((1, 5), (0, 7));
  }

  lemma Pair(x: (nat, nat), y: (nat, nat))
    requires x != y
    ensures |{x} + {y}| == 2
  {
  }

  lemma Calls(s: State, h: set<(nat, nat)>)
    requires Ready(s, Call(0, 7, Test(1, true), Value(1)))
    ensures After(s, Call(0, 7, Test(1, true), Value(1)), h) == h && Proceeds(s, Call(0, 7, Test(1, true), Value(1)), h)
  {
    hide Fresh;
  }

  lemma Expires(s: State, h: set<(nat, nat)>)
    requires Ready(s, Timeout(0, 0))
    ensures After(s, Timeout(0, 0), h) == h && Proceeds(s, Timeout(0, 0), h)
  {
  }

  lemma Misreads(s: State, h: set<(nat, nat)>)
    requires |s.clients| == 1 && s.clients[0].woken == [Woken(7, 1, Value(1), Test(1, true), 1, true)]
    ensures Ready(s, Resume(0, 0)) && Proceeds(s, Resume(0, 0), h)
    ensures After(s, Resume(0, 0), h) == h + {(0, 7)}
  {
  }

  lemma FourSteps(s0: State, a0: Step, s1: State, a1: Step, s2: State, a2: Step, s3: State, a3: Step, s4: State,
      h: set<(nat, nat)>, k: set<(nat, nat)>) returns (tr: seq<State>, steps: seq<Step>)
    requires s0 == Start(Plain(Sem(1)), [1])
    requires Goes(s0, a0, s1) && Goes(s1, a1, s2) && Goes(s2, a2, s3) && Goes(s3, a3, s4)
    requires After(s0, a0, {}) == h && After(s1, a1, h) == h && After(s2, a2, h) == h && After(s3, a3, h) == k
    requires Proceeds(s0, a0, {}) && Proceeds(s1, a1, h) && Proceeds(s2, a2, h) && Proceeds(s3, a3, h)
    ensures IsRun(Plain(Sem(1)), [1], tr, steps) && LockRun(tr, steps)
    ensures |steps| == 4 && Holders(tr, steps, 4) == k
  {
    hide Apply, After, Proceeds, Ready, Start;
    tr, steps := [s0, s1, s2, s3, s4], [a0, a1, a2, a3];
    assert Holders(tr, steps, 0) == {};
    assert Holders(tr, steps, 1) == h;
    assert Holders(tr, steps, 2) == h;
    assert Holders(tr, steps, 3) == h;
  }

  lemma LocalFirst(s: State) returns (t: State)
    requires Idle(s) && s.obj == Sem(1) && !s.store
    ensures Goes(s, Local(5, Test(1, true), Value(1)), t) && Idle(t) && t.obj.Sem?
    ensures After(s, Local(5, Test(1, true), Value(1)), {}) == {(1, 5)}
    ensures Proceeds(s, Local(5, Test(1, true), Value(1)), {})
  {
    t := Apply(s, Local(5, Test(1, true), Value(1)));
  }
}
