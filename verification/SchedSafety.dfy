/** No task is lost or duplicated, the flags never hide a ready task, and priorities and
    turns are respected, in every run of the scheduler. */
module SchedSafety {
  import opened Sched

  ghost predicate NoDup(q: seq<nat>) { forall i, j :: 0 <= i < j < |q| ==> q[i] != q[j] }

  ghost predicate On(queues: map<Hold, seq<nat>>, x: Hold, t: nat) { t in Q(queues, x) }

  /** Every queued task but the running one is on the queue its holdQueue word names. */
  ghost predicate Placed(tasks: map<nat, Task>, queues: map<Hold, seq<nat>>, current: Option<nat>) {
    forall x, t :: On(queues, x, t) ==>
      t in tasks && x != Nowhere && (current != Some(t) ==> tasks[t].hold == x)
  }

  /** No queue holds a task twice, and no two queues hold the running task. */
  ghost predicate Once(queues: map<Hold, seq<nat>>, current: Option<nat>) {
    && (forall x :: NoDup(Q(queues, x)))
    && forall x, y, t :: current == Some(t) && On(queues, x, t) && On(queues, y, t) ==> x == y
  }

  /** Every live task but the running one is on its queue. */
  ghost predicate Kept(tasks: map<nat, Task>, queues: map<Hold, seq<nat>>, current: Option<nat>) {
    forall t :: t in tasks && current != Some(t) && tasks[t].hold != Nowhere ==> On(queues, tasks[t].hold, t)
  }

  ghost predicate Ranked(tasks: map<nat, Task>, maxPri: nat) {
    forall t :: t in tasks ==> tasks[t].pri <= maxPri && (tasks[t].hold.Pri? ==> tasks[t].hold.p == tasks[t].pri)
  }

  /** A ready queue that holds a task, or will get the running one back, is flagged. */
  ghost predicate Flags(tasks: map<nat, Task>, queues: map<Hold, seq<nat>>, flags: seq<bool>, current: Option<nat>) {
    && (forall p: nat, t :: On(queues, Pri(p), t) ==> p < |flags| && flags[p])
    && forall t :: current == Some(t) && t in tasks && tasks[t].hold.Pri? ==>
      tasks[t].hold.p < |flags| && flags[tasks[t].hold.p]
  }

  ghost predicate Inv(s: State) {
    && s.maxPri > 0 && |s.flags| > s.maxPri
    && (s.current.Some? ==> s.current.value in s.tasks) && (s.idle.Some? ==> s.idle.value in s.tasks)
    && Placed(s.tasks, s.queues, s.current)
    && Once(s.queues, s.current)
    && Kept(s.tasks, s.queues, s.current)
    && Ranked(s.tasks, s.maxPri)
    && Flags(s.tasks, s.queues, s.flags, s.current)
  }

  // ---- queues ----

  lemma {:induction false} DropFacts(q: seq<nat>, t: nat)
    ensures forall u :: u in Drop(q, t) <==> u in q && u != t
    ensures NoDup(q) ==> NoDup(Drop(q, t))
    ensures t !in q ==> Drop(q, t) == q
  {
    if q != [] {
      DropFacts(q[1..], t);
      assert q == [q[0]] + q[1..];
      if NoDup(q) {
        assert NoDup(q[1..]) by { assert forall i :: 0 <= i < |q| - 1 ==> q[1..][i] == q[i + 1]; }
        assert q[0] !in q[1..];
      }
    }
  }

  lemma UnlinkFacts(queues: map<Hold, seq<nat>>, t: nat)
    ensures forall x :: Q(Unlink(queues, t), x) == Drop(Q(queues, x), t)
    ensures forall x, u :: On(Unlink(queues, t), x, u) <==> On(queues, x, u) && u != t
    ensures (forall x :: NoDup(Q(queues, x))) ==> forall x :: NoDup(Q(Unlink(queues, t), x))
  {
    forall x ensures Q(Unlink(queues, t), x) == Drop(Q(queues, x), t) {}
    forall x, u ensures On(Unlink(queues, t), x, u) <==> On(queues, x, u) && u != t {
      DropFacts(Q(queues, x), t);
    }
    if forall x :: NoDup(Q(queues, x)) {
      forall x ensures NoDup(Q(Unlink(queues, t), x)) { DropFacts(Q(queues, x), t); }
    }
  }

  lemma TailFacts(queues: map<Hold, seq<nat>>, x: Hold, t: nat)
    ensures forall y, u :: On(Tail(queues, x, t), y, u) <==> On(queues, y, u) || (y == x && u == t)
    ensures (forall y :: NoDup(Q(queues, y))) && !On(queues, x, t) ==> forall y :: NoDup(Q(Tail(queues, x, t), y))
  {
    assert forall y :: Q(Tail(queues, x, t), y) == if y == x then Q(queues, x) + [t] else Q(queues, y);
  }

  lemma HeadFacts(queues: map<Hold, seq<nat>>, x: Hold, t: nat)
    ensures forall y, u :: On(Head(queues, x, t), y, u) <==> On(queues, y, u) || (y == x && u == t)
    ensures (forall y :: NoDup(Q(queues, y))) && !On(queues, x, t) ==> forall y :: NoDup(Q(Head(queues, x, t), y))
  {
    assert forall y :: Q(Head(queues, x, t), y) == if y == x then [t] + Q(queues, x) else Q(queues, y);
  }

  // ---- the scheduler ----

  lemma {:induction false} FlaggedIsHighest(queues: map<Hold, seq<nat>>, flags: seq<bool>, n: nat)
    requires forall p: nat, t :: On(queues, Pri(p), t) ==> p < |flags| && flags[p]
    ensures Flagged(queues, flags, n) == Highest(queues, n)
  {
    if n > 0 {
      if Q(queues, Pri(n - 1)) != [] { assert On(queues, Pri(n - 1), Q(queues, Pri(n - 1))[0]); }
      FlaggedIsHighest(queues, flags, n - 1);
    }
  }

  lemma PutBackOn(s: State, t: nat)
    requires t in s.tasks && forall x :: NoDup(Q(s.queues, x))
    ensures var x, queues := s.tasks[t].hold, PutBack(s, t);
      && (forall y, u :: On(queues, y, u) <==> (On(s.queues, y, u) && u != t) || (y == x && u == t && x != Nowhere))
      && forall y :: NoDup(Q(queues, y))
  {
    var x, off := s.tasks[t].hold, Unlink(s.queues, t);
    UnlinkFacts(s.queues, t);
    TailFacts(off, x, t);
    HeadFacts(off, x, t);
    hide Drop, Unlink, Tail, Head, NoDup, Q;
  }

  /** Put back, the outgoing task is where every other task is: on its queue only. */
  lemma PutBackInv(s: State)
    requires Inv(s) && s.current.Some?
    ensures var queues := PutBack(s, s.current.value);
      Placed(s.tasks, queues, None) && Once(queues, None) && Kept(s.tasks, queues, None)
      && Flags(s.tasks, queues, s.flags, None)
  {
    PutBackOn(s, s.current.value);
    hide PutBack, NoDup, Q, On;
  }

  /** Taking the head of a ready queue to run. */
  lemma TakeInv(tasks: map<nat, Task>, queues: map<Hold, seq<nat>>, p: nat)
    requires Placed(tasks, queues, None) && Once(queues, None) && Kept(tasks, queues, None)
    requires Q(queues, Pri(p)) != []
    ensures var t, r := Q(queues, Pri(p))[0], queues[Pri(p) := Q(queues, Pri(p))[1..]];
      && t in tasks && tasks[t].hold == Pri(p)
      && Placed(tasks, r, Some(t)) && Once(r, Some(t)) && Kept(tasks, r, Some(t))
      && (forall x :: !On(r, x, t)) && (forall x, u :: On(r, x, u) ==> On(queues, x, u))
  {
    var q := Q(queues, Pri(p));
    var t, r := q[0], queues[Pri(p) := q[1..]];
    assert q == [t] + q[1..];
    assert On(queues, Pri(p), t) && NoDup(q);
    assert forall x :: Q(r, x) == if x == Pri(p) then q[1..] else Q(queues, x);
    forall x, u ensures On(r, x, u) <==> On(queues, x, u) && u != t {
      assert forall i :: 0 <= i < |q[1..]| ==> q[1..][i] == q[i + 1];
      assert On(queues, x, t) ==> x == Pri(p);
    }
    forall x ensures NoDup(Q(r, x)) { assert NoDup(Q(queues, x)); }
  }

  lemma CalmInv(s: State, queues: map<Hold, seq<nat>>, current: Option<nat>, t: Option<nat>)
    requires Placed(s.tasks, queues, current) && Kept(s.tasks, queues, current) && Ranked(s.tasks, s.maxPri)
    ensures var tasks := Calm(s.tasks, t);
      && Placed(tasks, queues, current) && Kept(tasks, queues, current) && Ranked(tasks, s.maxPri)
      && tasks.Keys == s.tasks.Keys
      && forall u :: u in tasks ==> tasks[u].hold == s.tasks[u].hold && tasks[u].pri == s.tasks[u].pri
  {
  }

  lemma ScheduleInv(s: State)
    requires Inv(s)
    ensures Inv(Schedule(s)) && Settled(Schedule(s)) && Outranked(Schedule(s))
  {
    var queues := if s.current.Some? then PutBack(s, s.current.value) else s.queues;
    if s.current.Some? { PutBackInv(s); }
    FlaggedIsHighest(queues, s.flags, |s.flags|);
    var p := Flagged(queues, s.flags, |s.flags|);
    if p < 0 {
      forall m: nat, t ensures !On(queues, Pri(m), t) {}
    } else {
      TakeInv(s.tasks, queues, p);
      var r := Schedule(s);
      CalmInv(s, r.queues, r.current, if s.current.Some? then s.current else s.idle);
      forall m: nat, t | On(r.queues, Pri(m), t) ensures m < |r.flags| && r.flags[m] {
        assert On(queues, Pri(m), t);
      }
    }
  }

  lemma SwitchInv(s: State, t: nat)
    requires Inv(s) && Ready(s, SwitchTo(t))
    ensures Inv(ScheduleTo(s, t))
  {
    if s.current.Some? { PutBackInv(s); }
    var r := ScheduleTo(s, t);
    hide PutBack;
    CalmInv(s, r.queues, if s.current.Some? then None else s.current, if s.current.Some? then s.current else s.idle);
  }

  /** At a scheduler boundary the running task is ready and on no queue. */
  ghost predicate Settled(s: State) {
    forall t :: s.current == Some(t) ==>
      t in s.tasks && s.tasks[t].hold == Pri(s.tasks[t].pri) && forall x :: !On(s.queues, x, t)
  }

  /** Nothing that is ready outranks what runs. */
  ghost predicate Outranked(s: State) {
    forall p: nat, t :: On(s.queues, Pri(p), t) ==>
      s.current.Some? && s.current.value in s.tasks && p <= s.tasks[s.current.value].pri
  }

  // ---- the other steps ----

  lemma WakeInv(s: State, t: nat)
    requires Inv(s) && t in s.tasks
    ensures Inv(WakeTask(s, t))
  {
    UnlinkFacts(s.queues, t);
    TailFacts(Unlink(s.queues, t), Pri(s.tasks[t].pri), t);
  }

  lemma StartInv(s: State, t: nat, priority: int)
    requires Inv(s) && Ready(s, Start(t, priority))
    ensures Inv(Apply(s, Start(t, priority)))
  {
    var k := Task(FirstPri(s, t, priority), Nowhere, Other);
    var r := s.(tasks := s.tasks[t := k]);
    assert Inv(r);
    WakeInv(r, t);
  }

  lemma PriorityInv(s: State, t: nat, priority: int)
    requires Inv(s) && Ready(s, Priority(t, priority))
    ensures Inv(Apply(s, Priority(t, priority)))
  {
    var k := s.tasks[t];
    if k.hold == Pri(k.pri) && s.current != Some(t) && t != s.timer { MoveInv(s, t, Clamp(priority, s.maxPri)); }
  }

  /** A ready task that is not running is woken again at its new rank. */
  lemma MoveInv(s: State, t: nat, p: nat)
    requires Inv(s) && t in s.tasks && s.current != Some(t) && p < s.maxPri
    ensures Inv(s.(tasks := s.tasks[t := s.tasks[t].(pri := p, hold := Pri(p))],
                   queues := Tail(Unlink(s.queues, t), Pri(p), t), flags := Mark(s.flags, p)))
  {
    hide Placed, Once, Kept, Ranked, Flags;
    var r := Detached(s, t, p);
    DetachInv(s, t, p);
    WakeInv(r, t);
    UnlinkTwice(s.queues, t);
    assert s.tasks[t := r.tasks[t].(hold := Pri(p))] == r.tasks[t := r.tasks[t].(hold := Pri(p))];
  }

  function Detached(s: State, t: nat, p: nat): (r: State)
    requires t in s.tasks
  {
    s.(tasks := s.tasks[t := s.tasks[t].(pri := p, hold := Nowhere)], queues := Unlink(s.queues, t))
  }

  lemma DetachInv(s: State, t: nat, p: nat)
    requires Inv(s) && t in s.tasks && s.current != Some(t) && p < s.maxPri
    ensures Inv(Detached(s, t, p))
  {
    UnlinkFacts(s.queues, t);
  }

  lemma UnlinkTwice(queues: map<Hold, seq<nat>>, t: nat)
    ensures Unlink(Unlink(queues, t), t) == Unlink(queues, t)
  {
    UnlinkFacts(queues, t);
    forall x | x in queues ensures Drop(Drop(queues[x], t), t) == Drop(queues[x], t) {
      DropFacts(queues[x], t);
      DropFacts(Drop(queues[x], t), t);
    }
  }

  lemma RunningInv(s: State, a: Step)
    requires Inv(s) && Ready(s, a) && (a.Hibernate? || a.Enqueue? || a.Yield? || a.Exit?)
    ensures Inv(Apply(s, a))
  {
    var t := s.current.value;
    if a.Enqueue? {
      UnlinkFacts(s.queues, t);
      TailFacts(Unlink(s.queues, t), Wait(a.q), t);
    }
  }

  lemma StepInv(s: State, a: Step)
    requires Inv(s) && Ready(s, a)
    ensures Inv(Apply(s, a))
  {
    hide Placed, Once, Kept, Ranked, Flags;
    match a
    case Reschedule => ScheduleInv(s);
    case SwitchTo(t) => SwitchInv(s, t);
    case Start(t, priority) => StartInv(s, t, priority);
    case Wake(t) => WakeInv(s, t);
    case Priority(t, priority) => PriorityInv(s, t, priority);
    case _ => RunningInv(s, a);
  }

  lemma BootInv(maxPri: nat, t: nat, timer: nat)
    requires maxPri > 0
    ensures Inv(Boot(maxPri, t, timer))
  {
  }

  // ---- runs ----

  ghost predicate IsRun(maxPri: nat, first: nat, timer: nat, tr: seq<State>, steps: seq<Step>) {
    && maxPri > 0 && first != timer && |tr| == |steps| + 1 && tr[0] == Boot(maxPri, first, timer)
    && forall i :: 0 <= i < |steps| ==> Goes(tr[i], steps[i], tr[i + 1])
  }

  ghost predicate Goes(s: State, a: Step, r: State) { Ready(s, a) && r == Apply(s, a) }

  lemma {:induction false} RunInv(maxPri: nat, first: nat, timer: nat, tr: seq<State>, steps: seq<Step>, i: nat)
    requires IsRun(maxPri, first, timer, tr, steps) && i < |tr|
    ensures Inv(tr[i])
  {
    hide Inv, Ready, Apply;
    if i == 0 {
      BootInv(maxPri, first, timer);
    } else {
      RunInv(maxPri, first, timer, tr, steps, i - 1);
      assert Goes(tr[i - 1], steps[i - 1], tr[i]);
      StepInv(tr[i - 1], steps[i - 1]);
    }
  }

  /** Where a task is at a scheduler boundary: running and on no queue; ready, on the queue
      of its own priority; waiting, on the queue it names; or ended. Never on two queues,
      nor twice on one. */
  ghost predicate Somewhere(s: State, t: nat)
    requires t in s.tasks
  {
    var k := s.tasks[t];
    && (forall x :: On(s.queues, x, t) <==> s.current != Some(t) && k.hold != Nowhere && x == k.hold)
    && (forall x :: NoDup(Q(s.queues, x)))
    && (k.hold.Pri? ==> k.hold.p == k.pri)
    && (s.current == Some(t) ==> k.hold == Pri(k.pri))
  }

  /** Whatever was started, woken, blocked, re-ranked or ended in between: after every
      pass of the scheduler each task is in exactly one place, nothing ready outranks what
      runs, and the processor idles only when nothing is ready. */
  lemma TasksConserved(maxPri: nat, first: nat, timer: nat, tr: seq<State>, steps: seq<Step>, i: nat, t: nat)
    requires IsRun(maxPri, first, timer, tr, steps) && i < |steps| && steps[i] == Reschedule
    ensures tr[i + 1].tasks.Keys == tr[i].tasks.Keys
    ensures t in tr[i].tasks ==> Somewhere(tr[i + 1], t)
    ensures Outranked(tr[i + 1])
  {
    RunInv(maxPri, first, timer, tr, steps, i);
    assert Goes(tr[i], steps[i], tr[i + 1]);
    ScheduleInv(tr[i]);
    var s := tr[i + 1];
    if t in s.tasks {
      assert Settled(s);
    }
  }

  /** The search by flags, stale though they may be, finds what a plain scan of all ready
      queues would. */
  lemma SearchIsScan(maxPri: nat, first: nat, timer: nat, tr: seq<State>, steps: seq<Step>, i: nat)
    requires IsRun(maxPri, first, timer, tr, steps) && i < |steps| && steps[i] == Reschedule
    ensures var s := tr[i];
      && (s.current.Some? ==> s.current.value in s.tasks)
      && var queues := if s.current.Some? then PutBack(s, s.current.value) else s.queues;
        var p := Highest(queues, |s.flags|);
        && tr[i + 1].current == (if p < 0 then None else Some(Q(queues, Pri(p))[0]))
        && tr[i + 1].queues == (if p < 0 then queues else queues[Pri(p) := Q(queues, Pri(p))[1..]])
  {
    var s := tr[i];
    RunInv(maxPri, first, timer, tr, steps, i);
    assert Goes(s, steps[i], tr[i + 1]);
    var queues := if s.current.Some? then PutBack(s, s.current.value) else s.queues;
    if s.current.Some? { PutBackInv(s); }
    FlaggedIsHighest(queues, s.flags, |s.flags|);
  }
}
