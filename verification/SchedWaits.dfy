/** Where tasks stand when they block, yield, are interrupted, woken or re-ranked, in every run
    of the scheduler; and that wait queues are first in, first out. */
module SchedWaits {
  import opened Sched
  import opened SchedSafety
  import opened SchedTurns
  import opened Sequences

  ghost predicate Last(queues: map<Hold, seq<nat>>, x: Hold, t: nat) {
    Q(queues, x) != [] && Q(queues, x)[|Q(queues, x)| - 1] == t
  }

  predicate Passes(a: Step) { a == Reschedule || a.SwitchTo? }

  // ---- wait queues ----

  lemma {:induction false} DropOrder(q: seq<nat>, t: nat, u: nat, v: nat)
    requires Before(q, u, v) && u != t && v != t
    ensures Before(Drop(q, t), u, v)
  {
    assert q != [];
    hide Before;
    var more := q[1..];
    BeforeTail(q, u, v);
    DropFacts(more, t);
    if q[0] != u { DropOrder(more, t, u, v); }
    BeforeAppend([q[0]], Drop(more, t), u, v);
    assert [] + Drop(more, t) == Drop(more, t);
  }

  /** What a step may do to a wait queue: take a task off it, and put the running one behind
      the rest. */
  ghost predicate Moves(q: seq<nat>, r: seq<nat>, current: Option<nat>) {
    || r == q
    || (exists t :: r == Drop(q, t))
    || (current.Some? && r == Drop(q, current.value) + [current.value])
  }

  lemma PutBackWaits(s: State, q: nat)
    requires Inv(s) && s.current.Some?
    ensures var t := s.current.value;
      Q(PutBack(s, t), Wait(q)) ==
        if s.tasks[t].hold == Wait(q) then Drop(Q(s.queues, Wait(q)), t) + [t] else Drop(Q(s.queues, Wait(q)), t)
  {
    UnlinkFacts(s.queues, s.current.value);
    hide Drop, Unlink;
  }

  lemma PassMoves(s: State, a: Step, q: nat)
    requires Inv(s) && Ready(s, a) && Passes(a)
    ensures Q(Apply(s, a).queues, Wait(q)) ==
      if s.current.Some? then Q(PutBack(s, s.current.value), Wait(q)) else Q(s.queues, Wait(q))
  {
    hide PutBack, Cleared, Calm, Flagged, Inv;
  }

  lemma WaitMoves(s: State, a: Step, q: nat)
    requires Inv(s) && Ready(s, a)
    ensures Moves(Q(s.queues, Wait(q)), Q(Apply(s, a).queues, Wait(q)), s.current)
  {
    var was, r := Q(s.queues, Wait(q)), Q(Apply(s, a).queues, Wait(q));
    if Passes(a) {
      PassMoves(s, a, q);
      if s.current.Some? {
        PutBackWaits(s, q);
        assert s.tasks[s.current.value].hold != Wait(q) ==> r == Drop(was, s.current.value);
      }
    } else {
      hide Drop, Unlink, Inv;
      match a
      case Start(t, _) => UnlinkFacts(s.queues, t); assert r == Drop(was, t);
      case Wake(t) => UnlinkFacts(s.queues, t); assert r == Drop(was, t);
      case Priority(t, _) => UnlinkFacts(s.queues, t); assert r == was || r == Drop(was, t);
      case Enqueue(x) =>
        UnlinkFacts(s.queues, s.current.value);
        assert x != q ==> r == Drop(was, s.current.value);
      case _ =>
    }
  }

  /** Of two tasks that stay on a wait queue and are off the processor the first stays first;
      and one that comes stands behind all that are there. */
  lemma OrderKept(s: State, a: Step, q: nat, u: nat, v: nat)
    requires Inv(s) && Ready(s, a)
    requires On(s.queues, Wait(q), u) && s.current != Some(u) && u != v
    requires On(Apply(s, a).queues, Wait(q), u) && On(Apply(s, a).queues, Wait(q), v)
    requires On(s.queues, Wait(q), v) ==> Before(Q(s.queues, Wait(q)), u, v)
    ensures Before(Q(Apply(s, a).queues, Wait(q)), u, v)
  {
    WaitMoves(s, a, q);
    hide Inv, Ready, Apply;
    MovedOrder(Q(s.queues, Wait(q)), Q(Apply(s, a).queues, Wait(q)), s.current, u, v);
  }

  lemma MovedOrder(q: seq<nat>, r: seq<nat>, current: Option<nat>, u: nat, v: nat)
    requires Moves(q, r, current) && u in q && u in r && v in r && current != Some(u) && u != v
    requires v in q ==> Before(q, u, v)
    ensures Before(r, u, v)
  {
    hide Before;
    if r != q {
      if t :| r == Drop(q, t) {
        DropFacts(q, t);
        DropOrder(q, t, u, v);
      } else {
        var t := current.value;
        DropFacts(q, t);
        if v != t { DropOrder(q, t, u, v); }
        BeforeAppend(Drop(q, t), [t], u, v);
      }
    }
  }

  lemma Sorted(q: seq<nat>, u: nat, v: nat)
    requires NoDup(q) && u in q && v in q && u != v
    ensures Before(q, u, v) != Before(q, v, u)
  {
    var i :| 0 <= i < |q| && q[i] == u;
    var j :| 0 <= j < |q| && q[j] == v;
  }

  /** Whoever stands before a task that goes on waiting stood there before the step. */
  lemma StoodBefore(s: State, a: Step, q: nat, u: nat, v: nat)
    requires Inv(s) && Ready(s, a) && Before(Q(Apply(s, a).queues, Wait(q)), u, v)
    requires On(s.queues, Wait(q), v) && s.current != Some(v)
    ensures Before(Q(s.queues, Wait(q)), u, v)
  {
    StepInv(s, a);
    var w, r := Q(s.queues, Wait(q)), Q(Apply(s, a).queues, Wait(q));
    assert NoDup(w) && NoDup(r);
    assert u in r && v in r && u != v;
    Sorted(r, u, v);
    hide Inv, Ready, Apply, Before;
    if u in w { Sorted(w, u, v); }
    if !Before(w, u, v) { OrderKept(s, a, q, v, u); }
  }

  /** A blocked task that leaves the processor stands behind every task on the queue it waits
      on, and those stay as they were. */
  lemma BlocksLast(maxPri: nat, first: nat, timer: nat, tr: seq<State>, steps: seq<Step>, j: nat, t: nat, q: nat)
    requires IsRun(maxPri, first, timer, tr, steps) && j < |steps| && Passes(steps[j])
    requires tr[j].current == Some(t) && t in tr[j].tasks && tr[j].tasks[t].hold == Wait(q)
    ensures Last(tr[j + 1].queues, Wait(q), t)
    ensures forall u :: u != t ==> (On(tr[j + 1].queues, Wait(q), u) <==> On(tr[j].queues, Wait(q), u))
    ensures !On(tr[j].queues, Wait(q), t) ==> Q(tr[j + 1].queues, Wait(q)) == Q(tr[j].queues, Wait(q)) + [t]
  {
    RunInv(maxPri, first, timer, tr, steps, j);
    assert Goes(tr[j], steps[j], tr[j + 1]);
    PassMoves(tr[j], steps[j], q);
    PutBackWaits(tr[j], q);
    DropFacts(Q(tr[j].queues, Wait(q)), t);
    hide Inv, Ready, Apply, PutBack, Drop;
  }

  /** Wait queues are first in, first out. The task at the head, which a wake takes, has waited
      longest: at every moment since another on the queue came off the processor to wait, it
      was there, and stood before that one. */
  lemma {:induction false} LongestWaits(maxPri: nat, first: nat, timer: nat, tr: seq<State>, steps: seq<Step>,
      i: nat, j: nat, q: nat, h: nat, v: nat)
    requires IsRun(maxPri, first, timer, tr, steps) && i <= j < |tr|
    requires Q(tr[j].queues, Wait(q)) != [] && Q(tr[j].queues, Wait(q))[0] == h && h != v
    requires forall n :: i <= n <= j ==> On(tr[n].queues, Wait(q), v) && tr[n].current != Some(v)
    ensures forall n :: i <= n <= j ==> Before(Q(tr[n].queues, Wait(q)), h, v)
  {
    var w := Q(tr[j].queues, Wait(q));
    assert On(tr[j].queues, Wait(q), v);
    var k :| 0 <= k < |w| && w[k] == v;
    assert w[0] == h && w[k] == v;
    StoodSince(maxPri, first, timer, tr, steps, i, j, q, h, v);
  }

  lemma {:induction false} StoodSince(maxPri: nat, first: nat, timer: nat, tr: seq<State>, steps: seq<Step>,
      i: nat, j: nat, q: nat, u: nat, v: nat)
    requires IsRun(maxPri, first, timer, tr, steps) && i <= j < |tr| && Before(Q(tr[j].queues, Wait(q)), u, v)
    requires forall n :: i <= n <= j ==> On(tr[n].queues, Wait(q), v) && tr[n].current != Some(v)
    ensures forall n :: i <= n <= j ==> Before(Q(tr[n].queues, Wait(q)), u, v)
    decreases j
  {
    hide Inv, Ready, Apply, Before, On;
    if i < j {
      RunInv(maxPri, first, timer, tr, steps, j - 1);
      assert Goes(tr[j - 1], steps[j - 1], tr[j]);
      StoodBefore(tr[j - 1], steps[j - 1], q, u, v);
      StoodSince(maxPri, first, timer, tr, steps, i, j - 1, q, u, v);
    }
  }

  /** The running task goes on: no pass of the scheduler, and it neither blocks nor ends. */
  predicate RunsOn(a: Step) { !Passes(a) && !a.Hibernate? && !a.Enqueue? && !a.Exit? }

  /** From the step in which a task names a queue to wait on, unless it is woken before it
      leaves the processor, it is bound for the tail of that queue. */
  lemma BlockedLast(maxPri: nat, first: nat, timer: nat, tr: seq<State>, steps: seq<Step>, i: nat, j: nat, t: nat,
      q: nat)
    requires IsRun(maxPri, first, timer, tr, steps) && i < j < |steps| && Passes(steps[j])
    requires (steps[i] == Hibernate(q) || steps[i] == Enqueue(q)) && tr[i].current == Some(t)
    requires forall n :: i < n < j ==> RunsOn(steps[n]) && steps[n] != Wake(t)
    ensures Last(tr[j + 1].queues, Wait(q), t)
    ensures forall u :: u != t ==> (On(tr[j + 1].queues, Wait(q), u) <==> On(tr[j].queues, Wait(q), u))
  {
    Names(maxPri, first, timer, tr, steps, i, j, t, q);
    BlocksLast(maxPri, first, timer, tr, steps, j, t, q);
  }

  lemma {:induction false} Names(maxPri: nat, first: nat, timer: nat, tr: seq<State>, steps: seq<Step>, i: nat,
      j: nat, t: nat, q: nat)
    requires IsRun(maxPri, first, timer, tr, steps) && i < j < |tr|
    requires (steps[i] == Hibernate(q) || steps[i] == Enqueue(q)) && tr[i].current == Some(t)
    requires forall n :: i < n < j ==> RunsOn(steps[n]) && steps[n] != Wake(t)
    ensures tr[j].current == Some(t) && t in tr[j].tasks && tr[j].tasks[t].hold == Wait(q)
    decreases j
  {
    assert Goes(tr[j - 1], steps[j - 1], tr[j]);
    if i < j - 1 { Names(maxPri, first, timer, tr, steps, i, j - 1, t, q); }
    hide Unlink, Tail;
  }

  // ---- yielding and being interrupted ----

  /** Only the running task, or one whose descheduling was put off, may have a reason left. */
  ghost predicate Calmed(s: State) {
    && (s.current.Some? ==> s.idle.None?)
    && forall t :: t in s.tasks && s.current != Some(t) && s.idle != Some(t) ==> s.tasks[t].reason == Other
  }

  lemma CalmedStep(s: State, a: Step)
    requires Ready(s, a) && Calmed(s)
    ensures Calmed(Apply(s, a))
    ensures var r := Apply(s, a);
      Passes(a) && r.current.Some? && r.current.value in r.tasks ==> r.tasks[r.current.value].reason == Other
  {
    hide PutBack, Flagged, Cleared, Unlink, Tail, Mark;
  }

  lemma {:induction false} RunCalmed(maxPri: nat, first: nat, timer: nat, tr: seq<State>, steps: seq<Step>, i: nat)
    requires IsRun(maxPri, first, timer, tr, steps) && i < |tr|
    ensures Calmed(tr[i])
  {
    if i > 0 {
      hide Ready, Apply, Calmed;
      RunCalmed(maxPri, first, timer, tr, steps, i - 1);
      assert Goes(tr[i - 1], steps[i - 1], tr[i]);
      CalmedStep(tr[i - 1], steps[i - 1]);
    }
  }

  /** Why the running task last asked to be descheduled, among the steps after `i` and before
      `j`, if it did. */
  function LastYield(steps: seq<Step>, i: nat, j: nat): (r: Reason)
    requires i < j <= |steps|
    decreases j
  {
    if j == i + 1 then Other else if steps[j - 1].Yield? then steps[j - 1].reason else LastYield(steps, i, j - 1)
  }

  /** A pass puts a task on the processor, and it goes on until `j`. */
  ghost predicate Turn(tr: seq<State>, steps: seq<Step>, i: nat, j: nat, c: nat) {
    && i < j <= |steps| < |tr| && Passes(steps[i])
    && tr[i + 1].current == Some(c) && c in tr[i + 1].tasks && Own(tr[i + 1].tasks[c])
    && forall n :: i < n < j ==> RunsOn(steps[n])
  }

  predicate Own(k: Task) { k.hold == Pri(k.pri) }

  lemma OnTask(s: State, a: Step, c: nat)
    requires Ready(s, a) && RunsOn(a) && s.current == Some(c) && c in s.tasks && Own(s.tasks[c])
    ensures var r := Apply(s, a);
      && r.current == Some(c) && c in r.tasks && Own(r.tasks[c])
      && r.tasks[c].reason == if a.Yield? then a.reason else s.tasks[c].reason
  {
    hide Unlink, Tail, Mark;
  }

  lemma {:induction false} ReasonIs(maxPri: nat, first: nat, timer: nat, tr: seq<State>, steps: seq<Step>, i: nat,
      j: nat, c: nat)
    requires IsRun(maxPri, first, timer, tr, steps) && Turn(tr, steps, i, j, c)
    ensures tr[j].current == Some(c) && c in tr[j].tasks && Own(tr[j].tasks[c])
    ensures tr[j].tasks[c].reason == LastYield(steps, i, j)
    decreases j
  {
    hide Ready, Apply, Calmed, Own;
    assert Goes(tr[j - 1], steps[j - 1], tr[j]);
    if j == i + 1 {
      RunCalmed(maxPri, first, timer, tr, steps, i);
      CalmedStep(tr[i], steps[i]);
    } else {
      ReasonIs(maxPri, first, timer, tr, steps, i, j - 1, c);
      OnTask(tr[j - 1], steps[j - 1], c);
    }
  }

  /** A task that has not asked to be descheduled in its turn goes back to the head of its
      queue, runs on at once or before any peer does, until it is disturbed. */
  lemma InterruptedResumes(maxPri: nat, first: nat, timer: nat, tr: seq<State>, steps: seq<Step>, i: nat, j: nat,
      k: nat, c: nat)
    requires IsRun(maxPri, first, timer, tr, steps) && Turn(tr, steps, i, j, c) && j < k < |tr|
    requires LastYield(steps, i, j) == Other && Preempts(tr[j], steps[j], c) && c in tr[j].tasks
    requires Undisturbed(tr, steps, j + 1, k, c, tr[j].tasks[c].pri) && NotRun(tr, j + 1, k, c)
    ensures Waiting(tr[k], c, tr[j].tasks[c].pri)
  {
    hide Waiting, Preempts, Undisturbed, NotRun;
    ReasonIs(maxPri, first, timer, tr, steps, i, j, c);
    PreemptedResumes(maxPri, first, timer, tr, steps, j, k, c);
  }

  /** A task that did ask, to release the processor or because its slice was over, goes behind
      all its peers, or runs on when none outranks it or shares its level. */
  lemma YieldedLast(maxPri: nat, first: nat, timer: nat, tr: seq<State>, steps: seq<Step>, i: nat, j: nat, c: nat)
    requires IsRun(maxPri, first, timer, tr, steps) && Turn(tr, steps, i, j, c) && j < |steps| && Passes(steps[j])
    requires LastYield(steps, i, j) != Other && c in tr[j].tasks
    ensures var p, r := tr[j].tasks[c].pri, tr[j + 1];
      if r.current == Some(c) then steps[j] == SwitchTo(c) || forall u :: u != c ==> !On(r.queues, Pri(p), u)
      else Last(r.queues, Pri(p), c)
  {
    ReasonIs(maxPri, first, timer, tr, steps, i, j, c);
    RunInv(maxPri, first, timer, tr, steps, j);
    assert Goes(tr[j], steps[j], tr[j + 1]);
    GoesLast(tr[j], steps[j], c);
  }

  lemma GoesLast(s: State, a: Step, c: nat)
    requires Inv(s) && Ready(s, a) && Passes(a)
    requires s.current == Some(c) && Own(s.tasks[c]) && s.tasks[c].reason != Other
    ensures var p, r := s.tasks[c].pri, Apply(s, a);
      if r.current == Some(c) then a == SwitchTo(c) || forall u :: u != c ==> !On(r.queues, Pri(p), u)
      else Last(r.queues, Pri(p), c)
  {
    var p := s.tasks[c].pri;
    UnlinkFacts(s.queues, c);
    var q := Q(PutBack(s, c), Pri(p));
    assert q == Drop(Q(s.queues, Pri(p)), c) + [c];
    if a == Reschedule {
      var h := Picks(s, p);
      DropFacts(Q(s.queues, Pri(p)), c);
      PutBackInv(s);
      hide Inv, PutBack, Drop, Unlink;
      IsSchedule(s);
      var r := Schedule(s);
      if h == p {
        assert r.queues == PutBack(s, c)[Pri(p) := q[1..]];
      }
    }
  }

  ghost predicate Gone(s: State, t: nat) { t in s.tasks && s.tasks[t].hold == Nowhere }

  lemma GoneStep(s: State, a: Step, t: nat)
    requires Inv(s) && Ready(s, a) && Gone(s, t) && (s.current != Some(t) || Passes(a) || RunsOn(a))
    ensures Gone(Apply(s, a), t)
    ensures s.current != Some(t) || Passes(a) ==> Apply(s, a).current != Some(t)
  {
    if a == Reschedule {
      ScheduleInv(s);
      SameHold(s, t);
    }
    hide PutBack, Flagged, Cleared, Unlink, Tail, Mark, Inv;
  }

  /** A task that ends is run no more, and is on no queue, from the next pass on. */
  lemma {:induction false} EndedNeverRuns(maxPri: nat, first: nat, timer: nat, tr: seq<State>, steps: seq<Step>, i: nat,
      j: nat, k: nat, t: nat)
    requires IsRun(maxPri, first, timer, tr, steps) && i < j < k < |tr| && Passes(steps[j])
    requires steps[i] == Exit && tr[i].current == Some(t) && forall n :: i < n < j ==> RunsOn(steps[n])
    ensures tr[k].current != Some(t) && forall x :: !On(tr[k].queues, x, t)
  {
    GoneUpTo(maxPri, first, timer, tr, steps, i, j, k, t);
    RunInv(maxPri, first, timer, tr, steps, k);
  }

  lemma {:induction false} GoneUpTo(maxPri: nat, first: nat, timer: nat, tr: seq<State>, steps: seq<Step>, i: nat,
      j: nat, k: nat, t: nat)
    requires IsRun(maxPri, first, timer, tr, steps) && i < j <= |steps| && i < k < |tr|
    requires j < |steps| ==> Passes(steps[j])
    requires steps[i] == Exit && tr[i].current == Some(t) && forall n :: i < n < j ==> RunsOn(steps[n])
    ensures Gone(tr[k], t) && (k > j ==> tr[k].current != Some(t))
    decreases k
  {
    hide Ready, Apply, Inv, Gone;
    RunInv(maxPri, first, timer, tr, steps, k - 1);
    assert Goes(tr[k - 1], steps[k - 1], tr[k]);
    if k == i + 1 {
      Exits(tr[i], t);
    } else {
      GoneUpTo(maxPri, first, timer, tr, steps, i, j, k - 1, t);
      GoneStep(tr[k - 1], steps[k - 1], t);
    }
  }

  lemma Exits(s: State, t: nat)
    requires Ready(s, Exit) && s.current == Some(t)
    ensures Gone(Apply(s, Exit), t)
  {
  }

  // ---- ready queues and ranks ----

  /** A task that is started, woken or re-ranked while it is ready stands behind all others of
      its level; a priority change moves no task that waits. */
  lemma MadeReady(maxPri: nat, first: nat, timer: nat, tr: seq<State>, steps: seq<Step>, j: nat, t: nat)
    requires IsRun(maxPri, first, timer, tr, steps) && j < |steps|
    ensures t in tr[j + 1].tasks && (steps[j] == Wake(t) || (steps[j].Start? && steps[j].t == t)) ==>
      Own(tr[j + 1].tasks[t]) && Last(tr[j + 1].queues, Pri(tr[j + 1].tasks[t].pri), t)
    ensures steps[j].Priority? && steps[j].t == t && t in tr[j].tasks && t != timer ==>
      var s, r := tr[j], tr[j + 1];
      && t in r.tasks
      && (Own(s.tasks[t]) ==> Own(r.tasks[t]))
      && (Own(s.tasks[t]) && s.current != Some(t) ==> Last(r.queues, Pri(r.tasks[t].pri), t))
      && (s.tasks[t].hold.Wait? ==> r.tasks[t].hold == s.tasks[t].hold && r.queues == s.queues)
  {
    RunTimer(maxPri, first, timer, tr, steps, j);
    assert Goes(tr[j], steps[j], tr[j + 1]);
    hide Unlink, Mark;
  }

  /** The priority `p` is the one asked for when that is in range, else the nearest that is. */
  predicate Nearest(p: nat, priority: int, maxPri: nat) {
    if priority < 0 then p == 0 else if priority >= maxPri then p + 1 == maxPri else p == priority
  }

  /** The priority of a task is the last that was asked for it, or the nearest in range. */
  lemma {:induction false} RankIs(maxPri: nat, first: nat, timer: nat, tr: seq<State>, steps: seq<Step>, i: nat,
      j: nat, t: nat, x: int)
    requires IsRun(maxPri, first, timer, tr, steps) && i < j < |tr| && t != timer
    requires steps[i] == Start(t, x) || steps[i] == Priority(t, x)
    requires forall n :: i < n < j && steps[n].Priority? ==> steps[n].t != t
    ensures t in tr[j].tasks && Nearest(tr[j].tasks[t].pri, x, maxPri)
    decreases j
  {
    RunTimer(maxPri, first, timer, tr, steps, j - 1);
    assert Goes(tr[j - 1], steps[j - 1], tr[j]);
    if i < j - 1 {
      RankIs(maxPri, first, timer, tr, steps, i, j - 1, t, x);
      SameRank(tr[j - 1], steps[j - 1], t);
    }
  }

  lemma SameRank(s: State, a: Step, t: nat)
    requires Ready(s, a) && t in s.tasks && (a.Priority? ==> a.t != t)
    ensures t in Apply(s, a).tasks && Apply(s, a).tasks[t].pri == s.tasks[t].pri
  {
    hide PutBack, Flagged, Cleared, Unlink, Tail, Mark;
  }
}
