/** What becomes of a task inside a test, in every run: when it is granted or gives up, what a
    timeout leads to, and in what order those that wait are served. */
module BlockingTurns {
  import opened Blocking
  import opened FlagBits
  import opened Objects
  import opened Sequences

  // ---- a task's turn ----

  /** A task calls a test, or one that was woken tests again; `rest` are the others woken. */
  ghost predicate Turn(s: State, a: Step, c: Caller, rest: seq<Caller>) {
    || (a == Call(c) && rest == s.woken)
    || (a.Retry? && a.k < |s.woken| && s.woken[a.k] == c && rest == Cut(s.woken, a.k))
  }

  /** A task at its test takes what it asks for if and only if that is there; the other flags
      stay as they are, and nobody else moves. Otherwise the object stays as it is, and the
      task goes behind all that wait unless its time is up: then it gives up. */
  ghost predicate TakesItsTurn(s: State, r: State, c: Caller, rest: seq<Caller>) {
    && r.woken == rest
    && if Available(s.obj, c.req) then Becomes(s.obj, c.req, r.obj) && r.waitq == s.waitq
       else r.obj == s.obj && r.waitq == if c.timedOut then s.waitq else s.waitq + [c]
  }

  lemma TurnTaken(o: Obj, tr: seq<State>, steps: seq<Step>, j: nat, c: Caller, rest: seq<Caller>)
    requires IsRun(o, tr, steps) && j < |steps| && Turn(tr[j], steps[j], c, rest)
    ensures TakesItsTurn(tr[j], tr[j + 1], c, rest)
  {
    RunInv(o, tr, steps, j);
    assert Goes(tr[j], steps[j], tr[j + 1]);
    TurnIs(tr[j], steps[j], c, rest);
  }

  lemma TurnIs(s: State, a: Step, c: Caller, rest: seq<Caller>)
    requires Inv(s) && Ready(s, a) && Turn(s, a, c, rest)
    ensures TakesItsTurn(s, Apply(s, a), c, rest)
  {
    hide Passes, Effect, Becomes, Available;
    assert IsTest(c.req);
    PassesIff(s.obj, c.req);
    if Passes(s.obj, c.req) { EffectIs(s.obj, c.req); }
  }

  /** At raised interrupt level a test takes what it asks for or does nothing. */
  lemma TryTaken(o: Obj, tr: seq<State>, steps: seq<Step>, j: nat)
    requires IsRun(o, tr, steps) && j < |steps| && steps[j].Try?
    ensures var s, r := tr[j], tr[j + 1];
      && r.waitq == s.waitq && r.woken == s.woken
      && if Available(s.obj, steps[j].r) then Becomes(s.obj, steps[j].r, r.obj) else r.obj == s.obj
  {
    hide Passes, Effect, Becomes, Available;
    assert Goes(tr[j], steps[j], tr[j + 1]);
    PassesIff(tr[j].obj, steps[j].r);
    if Passes(tr[j].obj, steps[j].r) { EffectIs(tr[j].obj, steps[j].r); }
  }

  // ---- comings and goings ----

  ghost predicate Waits(s: State, t: nat) { exists c :: c in s.waitq && c.task == t }

  /** A task comes inside by calling, and leaves by a turn of its own. */
  lemma OnlyByTurns(o: Obj, tr: seq<State>, steps: seq<Step>, j: nat, t: nat)
    requires IsRun(o, tr, steps) && j < |steps|
    ensures Inside(tr[j], t) && !Inside(tr[j + 1], t) ==>
      steps[j].Retry? && steps[j].k < |tr[j].woken| && tr[j].woken[steps[j].k].task == t
    ensures !Inside(tr[j], t) && Inside(tr[j + 1], t) ==> steps[j].Call? && steps[j].c.task == t
  {
    RunInv(o, tr, steps, j);
    assert Goes(tr[j], steps[j], tr[j + 1]);
    CountInside(tr[j], t);
    CountInside(tr[j + 1], t);
    CountStep(tr[j], steps[j], t);
  }

  lemma CountInside(s: State, t: nat)
    ensures Inside(s, t) <==> Count(s.waitq, t) + Count(s.woken, t) > 0
  {
    CountMember(s.waitq, t);
    CountMember(s.woken, t);
    if c: Caller :| c in s.waitq && c.task == t { assert c in s.waitq + s.woken; }
    if c: Caller :| c in s.woken && c.task == t { assert c in s.waitq + s.woken; }
  }

  lemma SetPasses(o: Obj, r: Req)
    requires !IsTest(r) && Matches(o, r)
    ensures Passes(o, r)
  {
  }

  /** How often a task is inside, before and after a step. */
  lemma CountStep(s: State, a: Step, t: nat)
    requires Inv(s) && Ready(s, a)
    ensures var r, n := Apply(s, a), Count(s.waitq, t) + Count(s.woken, t);
      var m := Count(r.waitq, t) + Count(r.woken, t);
      match a
      case Call(c) => m == n || (c.task == t && m == n + 1)
      case Retry(k) => m == n || (s.woken[k].task == t && m == n - 1)
      case _ => m == n
  {
    hide Passes, Effect, Failing, Passing, Count;
    match a
    case Call(c) => CountOne(s.waitq, c, t);
    case Retry(k) =>
      assert s.woken[k] in s.woken;
      CountCut(s.woken, k, t);
      CountOne(s.waitq, s.woken[k], t);
    case Set(r) =>
      SetPasses(s.obj, r);
      CountChange(s, r, Effect(s.obj, r), t);
    case Try(_) =>
    case Timeout(k) =>
      CountCut(s.waitq, k, t);
      CountOne(s.woken, s.waitq[k].(timedOut := true), t);
    case Late(k) =>
      var woken := s.woken[k := s.woken[k].(timedOut := true)];
      assert Cut(woken, k) == Cut(s.woken, k);
      CountCut(s.woken, k, t);
      CountCut(woken, k, t);
  }

  lemma CountChange(s: State, r: Req, o: Obj, t: nat)
    ensures var u := ChangeTo(s, r, o); Count(u.waitq, t) + Count(u.woken, t) == Count(s.waitq, t) + Count(s.woken, t)
  {
    hide Passes;
    PassSplits(o, s.waitq, t);
    CountAppend(s.woken, Passing(o, s.waitq), t);
  }

  // ---- timeouts ----

  /** A task is not on the wait queue, and if it was woken then with this request and for the
      last time. */
  ghost predicate Ending(s: State, t: nat, r: Req) {
    && (forall c :: c in s.waitq ==> c.task != t)
    && forall c :: c in s.woken && c.task == t ==> c.req == r && c.timedOut
  }

  lemma Changed(q: seq<Caller>, k: nat, c: Caller)
    requires k < |q|
    ensures forall d :: d in q[k := c] ==> d in q || d == c
  {
  }

  lemma EndingStep(s: State, a: Step, t: nat, r: Req)
    requires Inv(s) && Ending(s, t, r) && Ready(s, a) && (a.Call? ==> a.c.task != t)
    ensures Ending(Apply(s, a), t, r)
  {
    hide Passes, Effect;
    match a
    case Call(c) =>
    case Retry(k) => assert s.woken[k] in s.woken;
    case Set(q) =>
      SetPasses(s.obj, q);
      PassMembers(Effect(s.obj, q), s.waitq);
    case Try(_) =>
    case Timeout(k) => assert s.waitq[k] in s.waitq;
    case Late(k) =>
      assert s.woken[k] in s.woken;
      Changed(s.woken, k, s.woken[k].(timedOut := true));
  }

  /** The timeout of a task goes off while it waits, or when it was woken already. */
  ghost predicate TimesOut(s: State, a: Step, c: Caller) {
    || (a.Timeout? && a.k < |s.waitq| && s.waitq[a.k] == c)
    || (a.Late? && a.k < |s.woken| && s.woken[a.k] == c)
  }

  lemma EndingStarts(s: State, a: Step, c: Caller)
    requires Inv(s) && Ready(s, a) && TimesOut(s, a, c)
    ensures Ending(Apply(s, a), c.task, c.req)
  {
    var t := c.task;
    assert Count(s.waitq, t) + Count(s.woken, t) <= 1;
    if a.Timeout? {
      CountCut(s.waitq, a.k, t);
      CountMember(Cut(s.waitq, a.k), t);
      CountMember(s.woken, t);
    } else {
      CountCut(s.woken, a.k, t);
      CountMember(Cut(s.woken, a.k), t);
      CountMember(s.waitq, t);
      OnlyThis(Apply(s, a).woken, s.woken, a.k);
    }
  }

  /** A queue that differs at one place, where alone the task stands. */
  lemma OnlyThis(q: seq<Caller>, was: seq<Caller>, k: nat)
    requires k < |was| == |q| && q == was[k := q[k]] && forall c :: c in Cut(was, k) ==> c.task != q[k].task
    ensures forall c :: c in q && c.task == q[k].task ==> c == q[k]
  {
    forall i | 0 <= i < |q| && i != k ensures q[i] in Cut(was, k) {
      assert Cut(was, k)[if i < k then i else i - 1] == q[i];
    }
  }

  lemma {:induction false} EndingUpTo(o: Obj, tr: seq<State>, steps: seq<Step>, i: nat, j: nat, c: Caller)
    requires IsRun(o, tr, steps) && i < j < |tr| && TimesOut(tr[i], steps[i], c)
    requires forall n :: i < n < j && steps[n].Call? ==> steps[n].c.task != c.task
    ensures Ending(tr[j], c.task, c.req)
    decreases j
  {
    hide Inv, Ready, Apply, Ending, TimesOut;
    if j == i + 1 {
      RunInv(o, tr, steps, i);
      assert Goes(tr[i], steps[i], tr[j]);
      EndingStarts(tr[i], steps[i], c);
    } else {
      EndingUpTo(o, tr, steps, i, j - 1, c);
      RunInv(o, tr, steps, j - 1);
      assert Goes(tr[j - 1], steps[j - 1], tr[j]);
      EndingStep(tr[j - 1], steps[j - 1], c.task, c.req);
    }
  }

  /** A test whose timeout went off ends. Its task is on no later wait queue until it calls
      again, and stays woken until its next turn; then it takes what it asked for if that is
      there, and otherwise leaves the object, and in either case every queue, without it. */
  lemma TimeoutEnds(o: Obj, tr: seq<State>, steps: seq<Step>, i: nat, j: nat, c: Caller)
    requires IsRun(o, tr, steps) && i < j < |tr| && TimesOut(tr[i], steps[i], c)
    requires forall n :: i < n < j && steps[n].Call? ==> steps[n].c.task != c.task
    ensures !Waits(tr[j], c.task)
    ensures j == i + 1 ==> Inside(tr[j], c.task)
    ensures j < |steps| && steps[j].Retry? && steps[j].k < |tr[j].woken| && tr[j].woken[steps[j].k].task == c.task ==>
      var s, r := tr[j], tr[j + 1];
      && r.waitq == s.waitq && r.woken == Cut(s.woken, steps[j].k) && !Inside(r, c.task)
      && if Available(s.obj, c.req) then Becomes(s.obj, c.req, r.obj) else r.obj == s.obj
  {
    hide Inv, Ready, Apply, Available, Becomes;
    EndingUpTo(o, tr, steps, i, j, c);
    if j == i + 1 {
      assert c in tr[i].waitq + tr[i].woken;
      OnlyByTurns(o, tr, steps, i, c.task);
    }
    if j < |steps| && steps[j].Retry? && steps[j].k < |tr[j].woken| && tr[j].woken[steps[j].k].task == c.task {
      var d, rest := tr[j].woken[steps[j].k], Cut(tr[j].woken, steps[j].k);
      assert d in tr[j].woken;
      TurnTaken(o, tr, steps, j, d, rest);
      GoneAfter(o, tr, steps, j);
    }
  }

  /** After its last turn a task is nowhere inside. */
  lemma GoneAfter(o: Obj, tr: seq<State>, steps: seq<Step>, j: nat)
    requires IsRun(o, tr, steps) && j < |steps| && steps[j].Retry? && steps[j].k < |tr[j].woken|
    requires tr[j + 1].waitq == tr[j].waitq && tr[j + 1].woken == Cut(tr[j].woken, steps[j].k)
    ensures !Inside(tr[j + 1], tr[j].woken[steps[j].k].task)
  {
    var t := tr[j].woken[steps[j].k].task;
    RunInv(o, tr, steps, j);
    assert Count(tr[j].waitq, t) + Count(tr[j].woken, t) <= 1;
    CountCut(tr[j].woken, steps[j].k, t);
    CountInside(tr[j + 1], t);
  }

  // ---- in what order ----

  lemma {:induction false} FailingOrder(o: Obj, q: seq<Caller>, a: Caller, b: Caller)
    requires Before(q, a, b) && a in Failing(o, q) && b in Failing(o, q)
    ensures Before(Failing(o, q), a, b)
  {
    hide Passes, Before;
    var more := q[1..];
    BeforeTail(q, a, b);
    PassMembers(o, q);
    PassMembers(o, more);
    if q[0] != a { FailingOrder(o, more, a, b); }
    var first := if Passes(o, q[0].req) then [] else [q[0]];
    assert Failing(o, q) == first + Failing(o, more);
    hide Failing;
    BeforeAppend(first, Failing(o, more), a, b);
  }

  lemma {:induction false} PassingOrder(o: Obj, q: seq<Caller>, a: Caller, b: Caller)
    requires Before(q, a, b) && a in Passing(o, q) && b in Passing(o, q)
    ensures Before(Passing(o, q), a, b)
  {
    hide Passes, Before;
    var more := q[1..];
    BeforeTail(q, a, b);
    PassMembers(o, q);
    PassMembers(o, more);
    if q[0] != a { PassingOrder(o, more, a, b); }
    var first := if Passes(o, q[0].req) then [q[0]] else [];
    assert Passing(o, q) == first + Passing(o, more);
    hide Passing;
    BeforeAppend(first, Passing(o, more), a, b);
  }

  /** Those that go on waiting do so in the order in which they stood. */
  lemma OrderStep(s: State, a: Step, c: Caller, d: Caller)
    requires Inv(s) && Ready(s, a) && Before(s.waitq, c, d) && c in Apply(s, a).waitq && d in Apply(s, a).waitq
    ensures Before(Apply(s, a).waitq, c, d)
  {
    hide Passes, Effect, Before;
    match a
    case Call(x) => BeforeAppend(s.waitq, [x], c, d);
    case Retry(k) => BeforeAppend(s.waitq, [s.woken[k]], c, d);
    case Set(r) =>
      SetPasses(s.obj, r);
      if Notifies(r) { FailingOrder(Effect(s.obj, r), s.waitq, c, d); }
    case Try(_) =>
    case Timeout(k) =>
      NotCut(s, k, c);
      NotCut(s, k, d);
      BeforeCut(s.waitq, k, c, d);
    case Late(_) =>
  }

  lemma NotCut(s: State, k: nat, c: Caller)
    requires Inv(s) && k < |s.waitq| && c in Cut(s.waitq, k)
    ensures s.waitq[k] != c
  {
    var t := s.waitq[k].task;
    CountCut(s.waitq, k, t);
    assert Count(s.waitq, t) + Count(s.woken, t) <= 1;
    CountMember(Cut(s.waitq, k), t);
  }

  /** A task that comes to wait stands behind all that wait already. */
  lemma Joins(s: State, a: Step, c: Caller, d: Caller)
    requires Inv(s) && Ready(s, a) && c in s.waitq && d !in s.waitq && c in Apply(s, a).waitq && d in Apply(s, a).waitq
    ensures Before(Apply(s, a).waitq, c, d)
  {
    hide Passes, Effect, Before;
    match a
    case Call(x) => BeforeAppend(s.waitq, [x], c, d);
    case Retry(k) => BeforeAppend(s.waitq, [s.woken[k]], c, d);
    case Set(r) =>
      SetPasses(s.obj, r);
      PassMembers(Effect(s.obj, r), s.waitq);
    case _ =>
  }

  /** In any run a task that has waited longer than another stands before it. */
  lemma {:induction false} FirstToWait(o: Obj, tr: seq<State>, steps: seq<Step>, i: nat, j: nat, c: Caller, d: Caller)
    requires IsRun(o, tr, steps) && i < j < |tr| && d !in tr[i].waitq && d in tr[j].waitq
    requires forall n :: i <= n <= j ==> c in tr[n].waitq
    ensures Before(tr[j].waitq, c, d)
    decreases j
  {
    hide Inv, Ready, Apply, Before;
    RunInv(o, tr, steps, j - 1);
    assert Goes(tr[j - 1], steps[j - 1], tr[j]);
    if d in tr[j - 1].waitq {
      FirstToWait(o, tr, steps, i, j - 1, c, d);
      OrderStep(tr[j - 1], steps[j - 1], c, d);
    } else {
      Joins(tr[j - 1], steps[j - 1], c, d);
    }
  }

  /** First come, first served: when a set or toggle wakes a task that came later, the one that
      came first is made ready before it, or waits on for what even now is not there. */
  lemma FirstServed(o: Obj, tr: seq<State>, steps: seq<Step>, i: nat, j: nat, c: Caller, d: Caller)
    requires IsRun(o, tr, steps) && i < j < |steps| && d !in tr[i].waitq && d in tr[j].waitq
    requires forall n :: i <= n <= j ==> c in tr[n].waitq
    requires steps[j].Set? && d !in tr[j + 1].waitq
    ensures tr[j].woken <= tr[j + 1].woken && d in tr[j + 1].woken
    ensures if c in tr[j + 1].waitq then !Available(tr[j + 1].obj, c.req)
            else Before(tr[j + 1].woken[|tr[j].woken|..], c, d)
  {
    FirstToWait(o, tr, steps, i, j, c, d);
    RunInv(o, tr, steps, j);
    RunInv(o, tr, steps, j + 1);
    assert Goes(tr[j], steps[j], tr[j + 1]);
    var e := Effect(tr[j].obj, steps[j].r);
    hide Passes, Effect, Before, Available;
    PassMembers(e, tr[j].waitq);
    assert Notifies(steps[j].r);
    if c !in tr[j + 1].waitq { PassingOrder(e, tr[j].waitq, c, d); }
    assert IsTest(c.req);
    PassesIff(e, c.req);
    assert tr[j + 1].woken[|tr[j].woken|..] == Passing(e, tr[j].waitq);
  }

  /** A set adds its amount, and setting, toggling and clearing flags do so to the flags of the
      mask and to no other. */
  lemma SetTaken(o: Obj, tr: seq<State>, steps: seq<Step>, j: nat)
    requires IsRun(o, tr, steps) && j < |steps| && steps[j].Set?
    ensures Becomes(tr[j].obj, steps[j].r, tr[j + 1].obj)
    ensures forall c :: c in tr[j].waitq ==>
      (c in tr[j + 1].waitq <==> !Available(tr[j + 1].obj, c.req)) && (c in tr[j + 1].waitq || c in tr[j + 1].woken)
  {
    RunInv(o, tr, steps, j);
    RunInv(o, tr, steps, j + 1);
    var r := steps[j].r;
    assert Goes(tr[j], steps[j], tr[j + 1]);
    hide FlgTest, Effect, Becomes, Available;
    EffectIs(tr[j].obj, r);
    PassMembers(Effect(tr[j].obj, r), tr[j].waitq);
    forall c | c in tr[j].waitq
      ensures (c in tr[j + 1].waitq <==> !Available(tr[j + 1].obj, c.req))
      ensures c in tr[j + 1].waitq || c in tr[j + 1].woken {
      assert IsTest(c.req);
      PassesIff(tr[j + 1].obj, c.req);
      if !Notifies(r) && Passes(tr[j].obj, r) { QuietChange(tr[j].obj, r, c.req); }
    }
  }
}
