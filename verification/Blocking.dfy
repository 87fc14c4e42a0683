/** A local semaphore or flag cluster and the tasks that block on it. Everything between
    raising and restoring the interrupt level is one step. */
module Blocking {
  import opened FlagBits
  import opened Objects
  import opened Sequences

  /** A task inside a waiting test; timedOut also holds from the start for a test that
      does not wait. */
  datatype Caller = Caller(task: nat, req: Req, timedOut: bool)

  datatype State = State(obj: Obj, waitq: seq<Caller>, woken: seq<Caller>,
    initial: nat, added: nat, granted: nat)

  // ---- one pass over the wait queue ----

  /** The waiters whose test fails, in their order, and those whose test passes. */
  function Failing(o: Obj, q: seq<Caller>): (r: seq<Caller>) {
    if q == [] then [] else (if Passes(o, q[0].req) then [] else [q[0]]) + Failing(o, q[1..])
  }

  function Passing(o: Obj, q: seq<Caller>): (r: seq<Caller>) {
    if q == [] then [] else (if Passes(o, q[0].req) then [q[0]] else []) + Passing(o, q[1..])
  }

  lemma {:induction false} PassMembers(o: Obj, q: seq<Caller>)
    ensures forall c :: c in Failing(o, q) <==> c in q && !Passes(o, c.req)
    ensures forall c :: c in Passing(o, q) <==> c in q && Passes(o, c.req)
  {
    hide Passes;
    if q != [] {
      PassMembers(o, q[1..]);
      assert q == [q[0]] + q[1..];
    }
  }

  /** A change of the object to `o`, waking every waiter whose test now passes when it is
      one that can make a test pass. */
  function ChangeTo(s: State, r: Req, o: Obj): (t: State) {
    var t := s.(obj := o, added := s.added + SetAmount(r), granted := s.granted + Amount(r));
    if Notifies(r) then t.(waitq := Failing(o, s.waitq), woken := s.woken + Passing(o, s.waitq)) else t
  }

  function Change(s: State, r: Req): (t: State)
    requires Passes(s.obj, r)
  {
    ChangeTo(s, r, Effect(s.obj, r))
  }

  /** A task at its test: it takes what it asks for, or gives up, or waits (again). */
  function Attempt(s: State, c: Caller): (t: State) {
    if Passes(s.obj, c.req) then Change(s, c.req)
    else if c.timedOut then s
    else s.(waitq := s.waitq + [c])
  }

  datatype Step =
    | Call(c: Caller)           // a task calls a test
    | Retry(k: nat)             // a woken task runs on and tests again
    | Set(r: Req)               // set, or set, toggle or clear flags
    | Try(r: Req)               // a test at raised interrupt level: it never waits
    | Timeout(k: nat)           // the timeout of a waiting task
    | Late(k: nat)              // ... of a task already woken

  predicate Inside(s: State, t: nat) { exists c :: c in s.waitq + s.woken && c.task == t }

  predicate Ready(s: State, a: Step) {
    match a
    case Call(c) => IsTest(c.req) && Matches(s.obj, c.req) && !Inside(s, c.task)
    case Retry(k) => k < |s.woken|
    case Set(r) => !IsTest(r) && Matches(s.obj, r)
    case Try(r) => IsTest(r) && Matches(s.obj, r)
    case Timeout(k) => k < |s.waitq|
    case Late(k) => k < |s.woken|
  }

  function Apply(s: State, a: Step): (t: State)
    requires Ready(s, a)
  {
    match a
    case Call(c) => Attempt(s, c)
    case Retry(k) => Attempt(s.(woken := Cut(s.woken, k)), s.woken[k])
    case Set(r) => Change(s, r)
    case Try(r) => if Passes(s.obj, r) then Change(s, r) else s
    case Timeout(k) =>
      s.(waitq := Cut(s.waitq, k), woken := s.woken + [s.waitq[k].(timedOut := true)])
    case Late(k) => s.(woken := s.woken[k := s.woken[k].(timedOut := true)])
  }

  // ---- the invariant ----

  ghost predicate AllFail(o: Obj, q: seq<Caller>) { forall c :: c in q ==> !Passes(o, c.req) }

  ghost predicate Testing(o: Obj, q: seq<Caller>) { forall c :: c in q ==> IsTest(c.req) && Matches(o, c.req) }

  /** How often a task is in the queue. */
  function Count(q: seq<Caller>, t: nat): (n: nat) {
    if q == [] then 0 else (if q[0].task == t then 1 else 0) + Count(q[1..], t)
  }

  ghost predicate Once(waitq: seq<Caller>, woken: seq<Caller>) {
    forall t :: Count(waitq, t) + Count(woken, t) <= 1
  }

  ghost predicate Inv(s: State) {
    && AllFail(s.obj, s.waitq)
    && Testing(s.obj, s.waitq) && Testing(s.obj, s.woken)
    && Once(s.waitq, s.woken)
    && (s.obj.Sem? ==> s.obj.value + s.granted == s.initial + s.added)
  }

  lemma {:induction false} CountAppend(a: seq<Caller>, b: seq<Caller>, t: nat)
    ensures Count(a + b, t) == Count(a, t) + Count(b, t)
  {
    if a == [] {
      assert a + b == b;
    } else {
      CountAppend(a[1..], b, t);
      assert (a + b)[1..] == a[1..] + b;
    }
  }

  lemma CountOne(q: seq<Caller>, c: Caller, t: nat)
    ensures Count(q + [c], t) == Count(q, t) + if c.task == t then 1 else 0
  {
    CountAppend(q, [c], t);
    assert [c][1..] == [];
  }

  lemma CountCut(q: seq<Caller>, k: nat, t: nat)
    requires k < |q|
    ensures Count(q, t) == Count(Cut(q, k), t) + if q[k].task == t then 1 else 0
  {
    assert q == q[..k] + q[k..] && q[k..][1..] == q[k + 1..];
    CountAppend(q[..k], q[k..], t);
    CountAppend(q[..k], q[k + 1..], t);
  }

  lemma {:induction false} CountMember(q: seq<Caller>, t: nat)
    ensures Count(q, t) > 0 <==> exists c :: c in q && c.task == t
  {
    if q != [] {
      CountMember(q[1..], t);
      assert q == [q[0]] + q[1..];
    }
  }

  /** The wake pass splits the queue: nobody is lost or doubled. */
  lemma {:induction false} PassSplits(o: Obj, q: seq<Caller>, t: nat)
    ensures Count(q, t) == Count(Failing(o, q), t) + Count(Passing(o, q), t)
  {
    if q != [] {
      hide Passes;
      PassSplits(o, q[1..], t);
      CountAppend([q[0]], Failing(o, q[1..]), t);
      CountAppend([q[0]], Passing(o, q[1..]), t);
      assert [q[0]][1..] == [];
      assert [] + Failing(o, q[1..]) == Failing(o, q[1..]) && [] + Passing(o, q[1..]) == Passing(o, q[1..]);
    }
  }

  lemma {:induction false} ChangeInv(s: State, r: Req, o: Obj)
    requires Inv(s) && o.Sem? == s.obj.Sem? && (Notifies(r) || AllFail(o, s.waitq))
    requires o.Sem? ==> o.value + Amount(r) == s.obj.value + SetAmount(r)
    ensures Inv(ChangeTo(s, r, o))
  {
    hide Passes;
    if Notifies(r) { WakePass(s, o); }
  }

  /** What a passed test or a set does to the object meets those conditions. */
  lemma {:induction false} EffectOk(o: Obj, q: seq<Caller>, r: Req)
    requires AllFail(o, q) && Passes(o, r)
    ensures var e := Effect(o, r);
      && e.Sem? == o.Sem? && (Notifies(r) || AllFail(e, q))
      && (o.Sem? ==> e.value + Amount(r) == o.value + SetAmount(r))
  {
    hide Passes, Effect;
    EffectValue(o, r);
    if !Notifies(r) {
      forall c | c in q ensures !Passes(Effect(o, r), c.req) { QuietChange(o, r, c.req); }
    }
  }

  lemma WakePass(s: State, o: Obj)
    requires Inv(s) && o.Sem? == s.obj.Sem?
    ensures var waitq, woken := Failing(o, s.waitq), s.woken + Passing(o, s.waitq);
      AllFail(o, waitq) && Testing(o, waitq) && Testing(o, woken) && Once(waitq, woken)
  {
    hide Passes;
    PassMembers(o, s.waitq);
    forall t ensures Count(Failing(o, s.waitq), t) + Count(s.woken + Passing(o, s.waitq), t) <= 1 {
      PassSplits(o, s.waitq, t);
      CountAppend(s.woken, Passing(o, s.waitq), t);
      assert Count(s.waitq, t) + Count(s.woken, t) <= 1;
    }
  }

  lemma AttemptInv(s: State, c: Caller)
    requires Inv(s) && IsTest(c.req) && Matches(s.obj, c.req)
    requires Count(s.waitq, c.task) + Count(s.woken, c.task) == 0
    ensures Inv(Attempt(s, c))
  {
    if Passes(s.obj, c.req) {
      EffectOk(s.obj, s.waitq, c.req);
      ChangeInv(s, c.req, Effect(s.obj, c.req));
    } else if !c.timedOut {
      forall t ensures Count(s.waitq + [c], t) + Count(s.woken, t) <= 1 {
        CountOne(s.waitq, c, t);
        assert Count(s.waitq, t) + Count(s.woken, t) <= 1;
      }
    }
  }

  lemma CallInv(s: State, c: Caller)
    requires Inv(s) && Ready(s, Call(c))
    ensures Inv(Attempt(s, c))
  {
    CountMember(s.waitq, c.task);
    CountMember(s.woken, c.task);
    AttemptInv(s, c);
  }

  lemma RetryInv(s: State, k: nat)
    requires Inv(s) && k < |s.woken|
    ensures Inv(Attempt(s.(woken := Cut(s.woken, k)), s.woken[k]))
  {
    var off := s.(woken := Cut(s.woken, k));
    forall t ensures Count(s.waitq, t) + Count(off.woken, t) <= if t == s.woken[k].task then 0 else 1 {
      CountCut(s.woken, k, t);
      assert Count(s.waitq, t) + Count(s.woken, t) <= 1;
    }
    AttemptInv(off, s.woken[k]);
  }

  lemma TimeoutInv(s: State, k: nat)
    requires Inv(s) && k < |s.waitq|
    ensures Inv(Apply(s, Timeout(k)))
  {
    var c := s.waitq[k].(timedOut := true);
    forall t ensures Count(Cut(s.waitq, k), t) + Count(s.woken + [c], t) <= 1 {
      CountCut(s.waitq, k, t);
      CountOne(s.woken, c, t);
      assert Count(s.waitq, t) + Count(s.woken, t) <= 1;
    }
  }

  lemma LateInv(s: State, k: nat)
    requires Inv(s) && k < |s.woken|
    ensures Inv(Apply(s, Late(k)))
  {
    var woken := s.woken[k := s.woken[k].(timedOut := true)];
    assert Cut(woken, k) == Cut(s.woken, k);
    forall t ensures Count(s.waitq, t) + Count(woken, t) <= 1 {
      CountCut(s.woken, k, t);
      CountCut(woken, k, t);
      assert Count(s.waitq, t) + Count(s.woken, t) <= 1;
    }
  }

  lemma StepInv(s: State, a: Step)
    requires Inv(s) && Ready(s, a)
    ensures Inv(Apply(s, a))
  {
    hide AllFail, Testing, Once, Attempt, ChangeTo;
    match a
    case Call(c) => CallInv(s, c);
    case Retry(k) => RetryInv(s, k);
    case Set(r) =>
      EffectOk(s.obj, s.waitq, r);
      ChangeInv(s, r, Effect(s.obj, r));
    case Try(r) =>
      if Passes(s.obj, r) {
        EffectOk(s.obj, s.waitq, r);
        ChangeInv(s, r, Effect(s.obj, r));
      }
    case Timeout(k) => TimeoutInv(s, k);
    case Late(k) => LateInv(s, k);
  }

  function Init(o: Obj): (s: State) { State(o, [], [], if o.Sem? then o.value else 0, 0, 0) }

  // ---- runs ----

  ghost predicate IsRun(o: Obj, tr: seq<State>, steps: seq<Step>) {
    && |tr| == |steps| + 1 && tr[0] == Init(o)
    && forall i :: 0 <= i < |steps| ==> Goes(tr[i], steps[i], tr[i + 1])
  }

  ghost predicate Goes(s: State, a: Step, t: State) { Ready(s, a) && t == Apply(s, a) }

  lemma {:induction false} RunInv(o: Obj, tr: seq<State>, steps: seq<Step>, i: nat)
    requires IsRun(o, tr, steps) && i < |tr|
    ensures Inv(tr[i]) && tr[i].initial == if o.Sem? then o.value else 0
  {
    if i > 0 {
      RunInv(o, tr, steps, i - 1);
      assert Goes(tr[i - 1], steps[i - 1], tr[i]);
      hide Inv;
      StepInv(tr[i - 1], steps[i - 1]);
    }
  }

  /** No lost wake-up: whenever the interrupt level is down, every task on the wait queue
      waits for something that is not there: more than the value; a flag of its mask when
      none of them is set; or all of them when one is not. */
  lemma NoLostWakeUp(o: Obj, tr: seq<State>, steps: seq<Step>, i: nat, k: nat)
    requires IsRun(o, tr, steps) && i < |tr| && k < |tr[i].waitq|
    ensures var r := tr[i].waitq[k].req;
      match tr[i].obj
      case Sem(v) => r.Test? && r.amount > v
      case Flags(f) =>
        r.TestFlags? && if r.any then forall b: nat :: b < 32 && HasBit(f, b) ==> !HasBit(r.mask, b)
                        else exists b: nat :: b < 32 && HasBit(r.mask, b) && !HasBit(f, b)
  {
    RunInv(o, tr, steps, i);
    var c := tr[i].waitq[k];
    assert c in tr[i].waitq;
    hide HasBit, FlgTest;
    PassesIff(tr[i].obj, c.req);
  }

  /** Conservation: what there was and what was set is there or was granted. */
  lemma TokensConserved(o: Obj, tr: seq<State>, steps: seq<Step>, i: nat)
    requires IsRun(o, tr, steps) && i < |tr| && tr[i].obj.Sem? && o.Sem?
    ensures tr[i].obj.value + tr[i].granted == o.value + tr[i].added
  {
    RunInv(o, tr, steps, i);
  }

  /** A task inside a test is on the wait queue or woken, in one place and once. */
  lemma CallersKept(o: Obj, tr: seq<State>, steps: seq<Step>, i: nat, t: nat)
    requires IsRun(o, tr, steps) && i < |tr|
    ensures var s := tr[i]; Count(s.waitq, t) + Count(s.woken, t) == if Inside(s, t) then 1 else 0
  {
    RunInv(o, tr, steps, i);
    CountMember(tr[i].waitq, t);
    CountMember(tr[i].woken, t);
    assert Count(tr[i].waitq, t) + Count(tr[i].woken, t) <= 1;
  }
}
