/** Who runs next: the timer task first, a preempted task before its peers, and peers in
    turn, in every run of the scheduler. */
module SchedTurns {
  import opened Division
  import opened Sched
  import opened SchedSafety

  // ---- the timer task ----

  ghost predicate TimerAlone(s: State) {
    forall t :: t in s.tasks ==> (s.tasks[t].pri == s.maxPri <==> t == s.timer)
  }

  lemma StepTimer(s: State, a: Step)
    requires Inv(s) && TimerAlone(s) && Ready(s, a)
    ensures TimerAlone(Apply(s, a)) && Apply(s, a).timer == s.timer && Apply(s, a).maxPri == s.maxPri
  {
    hide Placed, Once, Kept, Ranked, Flags, PutBack, Unlink, Tail, Flagged;
  }

  lemma {:induction false} RunTimer(maxPri: nat, first: nat, timer: nat, tr: seq<State>, steps: seq<Step>, i: nat)
    requires IsRun(maxPri, first, timer, tr, steps) && i < |tr|
    ensures TimerAlone(tr[i]) && tr[i].timer == timer && tr[i].maxPri == maxPri
  {
    hide Inv, TimerAlone, Ready, Apply;
    if i == 0 {
      BootTimer(maxPri, first, timer);
    } else {
      RunTimer(maxPri, first, timer, tr, steps, i - 1);
      RunInv(maxPri, first, timer, tr, steps, i - 1);
      assert Goes(tr[i - 1], steps[i - 1], tr[i]);
      StepTimer(tr[i - 1], steps[i - 1]);
    }
  }

  lemma BootTimer(maxPri: nat, first: nat, timer: nat)
    requires maxPri > 0 && first != timer
    ensures TimerAlone(Boot(maxPri, first, timer))
  {
  }

  /** Timers are delivered at once: whenever the scheduler runs and the timer task is
      ready, it is the one to run, and no priority change takes that from it. */
  lemma TimerFirst(maxPri: nat, first: nat, timer: nat, tr: seq<State>, steps: seq<Step>, i: nat)
    requires IsRun(maxPri, first, timer, tr, steps) && i < |steps| && steps[i] == Reschedule
    requires timer in tr[i].tasks && tr[i].tasks[timer].hold == Pri(maxPri)
    ensures tr[i + 1].current == Some(timer)
  {
    var t := tr[i + 1];
    TasksConserved(maxPri, first, timer, tr, steps, i, timer);
    RunTimer(maxPri, first, timer, tr, steps, i);
    RunTimer(maxPri, first, timer, tr, steps, i + 1);
    RunInv(maxPri, first, timer, tr, steps, i + 1);
    assert Goes(tr[i], steps[i], t);
    SameHold(tr[i], timer);
    assert t.current != Some(timer) ==> On(t.queues, Pri(maxPri), timer);
  }

  lemma SameHold(s: State, t: nat)
    requires Ready(s, Reschedule) && t in s.tasks
    ensures t in Schedule(s).tasks && Schedule(s).tasks[t].hold == s.tasks[t].hold
    ensures Schedule(s).tasks[t].pri == s.tasks[t].pri
  {
    hide PutBack, Flagged, Cleared;
  }

  // ---- preemption ----

  /** Task `c` heads the queue of its level `p`, and what runs is of another level. */
  ghost predicate Waiting(s: State, c: nat, p: nat) {
    && Inv(s) && c in s.tasks && s.tasks[c].pri == p && s.tasks[c].hold == Pri(p)
    && s.current.Some? && s.current != Some(c) && s.tasks[s.current.value].pri != p
    && Q(s.queues, Pri(p)) != [] && Q(s.queues, Pri(p))[0] == c
  }

  /** What takes its place from a waiting task: to be woken, resumed or timed out again, or
      re-ranked, unless it is alone at its level and stays there; the running task lowered
      or raised to its level; a peer handed to the scheduler. */
  ghost predicate Disturbs(s: State, a: Step, c: nat, p: nat)
    requires s.maxPri > 0
  {
    match a
    case Wake(t) => t == c && |Q(s.queues, Pri(p))| > 1
    case Priority(t, x) =>
      && t != s.timer
      && if t == c then Clamp(x, s.maxPri) != p || |Q(s.queues, Pri(p))| > 1
         else s.current == Some(t) && Clamp(x, s.maxPri) == p
    case SwitchTo(t) => t in s.tasks && s.tasks[t].pri == p
    case _ => false
  }

  /** A waiting task keeps its place until it runs, if and only if nothing of that kind
      happens. */
  lemma WaitingStep(s: State, a: Step, c: nat, p: nat)
    requires Waiting(s, c, p) && Ready(s, a) && Apply(s, a).current != Some(c)
    ensures Waiting(Apply(s, a), c, p) <==> !Disturbs(s, a, c, p)
  {
    hide Inv;
    StepInv(s, a);
    match a
    case Reschedule => WaitingSchedule(s, c, p);
    case SwitchTo(t) => WaitingSwitch(s, t, c, p);
    case Start(t, x) => WaitingStart(s, t, x, c, p);
    case Wake(t) => WaitingWake(s, t, c, p);
    case Priority(t, x) => WaitingPriority(s, t, x, c, p);
    case _ => WaitingRunning(s, a, c, p);
  }

  lemma {:induction false} DropHead(q: seq<nat>, t: nat)
    requires q != []
    ensures q[0] != t ==> Drop(q, t) != [] && Drop(q, t)[0] == q[0]
    ensures q[0] == t && NoDup(q) ==> Drop(q, t) == q[1..]
  {
    if q[0] == t && NoDup(q) {
      assert t !in q[1..] by { assert forall i :: 0 <= i < |q[1..]| ==> q[1..][i] == q[i + 1]; }
      DropFacts(q[1..], t);
    }
  }

  /** Taking another task off its queue and putting it on one leaves the head. */
  lemma MovedHead(queues: map<Hold, seq<nat>>, x: Hold, t: nat, y: Hold, c: nat)
    requires Q(queues, y) != [] && Q(queues, y)[0] == c && c != t
    ensures var r := Tail(Unlink(queues, t), x, t); Q(r, y) != [] && Q(r, y)[0] == c
    ensures var r := Unlink(queues, t); Q(r, y) != [] && Q(r, y)[0] == c
    ensures x != y ==> var r := Head(Unlink(queues, t), x, t); Q(r, y) != [] && Q(r, y)[0] == c
  {
    UnlinkFacts(queues, t);
    DropHead(Q(queues, y), t);
  }

  lemma WaitingSchedule(s: State, c: nat, p: nat)
    requires Waiting(s, c, p) && Ready(s, Reschedule) && Schedule(s).current != Some(c) && Inv(Schedule(s))
    ensures Waiting(Schedule(s), c, p)
  {
    BackBehind(s, c, p);
    var h := Picks(s, p);
    SameHold(s, c);
    hide Inv, PutBack, Drop;
  }

  lemma BackBehind(s: State, c: nat, p: nat)
    requires Waiting(s, c, p)
    ensures Q(PutBack(s, s.current.value), Pri(p)) != [] && Q(PutBack(s, s.current.value), Pri(p))[0] == c
  {
    var u := s.current.value;
    MovedHead(s.queues, s.tasks[u].hold, u, Pri(p), c);
    NotItsLevel(s, u, p);
    hide Inv, Unlink, Head, Tail;
  }

  lemma NotItsLevel(s: State, u: nat, p: nat)
    requires Inv(s) && u in s.tasks && s.tasks[u].pri != p
    ensures s.tasks[u].hold != Pri(p)
  {
  }

  lemma LevelOf(s: State, queues: map<Hold, seq<nat>>, h: nat)
    requires Inv(s) && Placed(s.tasks, queues, None) && Q(queues, Pri(h)) != []
    ensures var t := Q(queues, Pri(h))[0]; t in s.tasks && s.tasks[t].pri == h && s.tasks[t].hold == Pri(h)
  {
    assert On(queues, Pri(h), Q(queues, Pri(h))[0]);
  }

  lemma WaitingSwitch(s: State, t: nat, c: nat, p: nat)
    requires Waiting(s, c, p) && Ready(s, SwitchTo(t)) && t != c && Inv(ScheduleTo(s, t))
    ensures Waiting(ScheduleTo(s, t), c, p) <==> s.tasks[t].pri != p
  {
    var u := s.current.value;
    MovedHead(s.queues, s.tasks[u].hold, u, Pri(p), c);
    NotItsLevel(s, u, p);
    hide Inv, Unlink, Head, Tail;
  }

  lemma WaitingStart(s: State, t: nat, x: int, c: nat, p: nat)
    requires Waiting(s, c, p) && Ready(s, Start(t, x)) && Inv(Apply(s, Start(t, x)))
    ensures Waiting(Apply(s, Start(t, x)), c, p)
  {
    MovedHead(s.queues, Pri(FirstPri(s, t, x)), t, Pri(p), c);
    hide Inv, Unlink, Tail;
  }

  lemma WaitingWake(s: State, t: nat, c: nat, p: nat)
    requires Waiting(s, c, p) && Ready(s, Wake(t)) && Inv(WakeTask(s, t))
    ensures Waiting(WakeTask(s, t), c, p) <==> t != c || |Q(s.queues, Pri(p))| == 1
    ensures t == c ==> Q(WakeTask(s, t).queues, Pri(p)) == Q(s.queues, Pri(p))[1..] + [c]
  {
    if t == c { ToTheTail(s, c, p); } else { MovedHead(s.queues, Pri(s.tasks[t].pri), t, Pri(p), c); }
    hide Inv, Unlink;
  }

  lemma ToTheTail(s: State, c: nat, p: nat)
    requires Waiting(s, c, p)
    ensures Q(Tail(Unlink(s.queues, c), Pri(p), c), Pri(p)) == Q(s.queues, Pri(p))[1..] + [c]
    ensures |Q(s.queues, Pri(p))| > 1 ==> Q(s.queues, Pri(p))[1] != c
  {
    assert NoDup(Q(s.queues, Pri(p)));
    DropHead(Q(s.queues, Pri(p)), c);
    UnlinkFacts(s.queues, c);
  }

  lemma WaitingPriority(s: State, t: nat, x: int, c: nat, p: nat)
    requires Waiting(s, c, p) && Ready(s, Priority(t, x)) && Inv(Apply(s, Priority(t, x)))
    ensures Waiting(Apply(s, Priority(t, x)), c, p) <==> !Disturbs(s, Priority(t, x), c, p)
  {
    ToTheTail(s, c, p);
    if t != c { MovedHead(s.queues, Pri(Clamp(x, s.maxPri)), t, Pri(p), c); }
    hide Inv, Unlink;
  }

  lemma WaitingRunning(s: State, a: Step, c: nat, p: nat)
    requires Waiting(s, c, p) && Ready(s, a) && (a.Hibernate? || a.Enqueue? || a.Yield? || a.Exit?)
    requires Inv(Apply(s, a))
    ensures Waiting(Apply(s, a), c, p)
  {
    if a.Enqueue? { MovedHead(s.queues, Wait(a.q), s.current.value, Pri(p), c); }
    hide Inv, Unlink, Tail;
  }

  /** What the scheduler picks when level `p` has a task ready. */
  lemma Picks(s: State, p: nat) returns (h: nat)
    requires Inv(s) && s.current.Some? && Q(PutBack(s, s.current.value), Pri(p)) != []
    ensures var queues, r := PutBack(s, s.current.value), Schedule(s);
      && h >= p && Q(queues, Pri(h)) != [] && r.current == Some(Q(queues, Pri(h))[0])
      && r.queues == queues[Pri(h) := Q(queues, Pri(h))[1..]]
      && Q(queues, Pri(h))[0] in r.tasks && r.tasks[Q(queues, Pri(h))[0]].pri == h
      && r.tasks[Q(queues, Pri(h))[0]].hold == Pri(h)
  {
    var queues := PutBack(s, s.current.value);
    h := HighestReady(s, queues, p);
    PutBackInv(s);
    LevelOf(s, queues, h);
    hide PutBack, Inv, Placed, Once, Kept, Flags, Ranked, Schedule, Flagged, Highest;
    ScheduleAt(s, h);
    SameHold(s, Q(queues, Pri(h))[0]);
  }

  lemma HighestReady(s: State, queues: map<Hold, seq<nat>>, p: nat) returns (h: nat)
    requires Inv(s) && s.current.Some? && queues == PutBack(s, s.current.value) && Q(queues, Pri(p)) != []
    ensures h >= p && Q(queues, Pri(h)) != [] && Flagged(queues, s.flags, |s.flags|) == h
  {
    PutBackInv(s);
    hide PutBack, Inv, Placed, Once, Kept, Ranked;
    FlaggedIsHighest(queues, s.flags, |s.flags|);
    assert On(queues, Pri(p), Q(queues, Pri(p))[0]);
    h := Highest(queues, |s.flags|);
  }

  lemma ScheduleAt(s: State, h: nat)
    requires s.current.Some? && s.current.value in s.tasks
    requires Flagged(PutBack(s, s.current.value), s.flags, |s.flags|) == h
    ensures var queues, r := PutBack(s, s.current.value), Schedule(s);
      && Q(queues, Pri(h)) != [] && r.current == Some(Q(queues, Pri(h))[0])
      && r.queues == queues[Pri(h) := Q(queues, Pri(h))[1..]]
  {
    hide PutBack, Flagged, Cleared, Calm;
  }

  /** Back on its queue an interrupted task is the first. */
  lemma BackFirst(s: State, c: nat)
    requires Inv(s) && s.current == Some(c) && Preemptable(s.tasks[c])
    ensures Q(PutBack(s, c), Pri(s.tasks[c].pri)) == [c] + Drop(Q(s.queues, Pri(s.tasks[c].pri)), c)
  {
    UnlinkFacts(s.queues, c);
  }

  /** A task that is interrupted goes to the head of its queue, wherever it was queued. */
  lemma PreemptedFirst(s: State, c: nat)
    requires Inv(s) && s.current == Some(c) && Preemptable(s.tasks[c])
    ensures var p, r := s.tasks[c].pri, Schedule(s);
      r.current == Some(c) || (Waiting(r, c, p) && Q(r.queues, Pri(p)) == [c] + Drop(Q(s.queues, Pri(p)), c))
  {
    BackFirst(s, c);
    ScheduleInv(s);
    var h := Picks(s, s.tasks[c].pri);
    SameHold(s, c);
    hide Inv, PutBack, Drop, Settled, Outranked;
  }

  /** The scheduler looks for a task to run, or is handed one of another level. */
  predicate Preempts(s: State, a: Step, c: nat) {
    a == Reschedule || (a.SwitchTo? && c in s.tasks && a.t in s.tasks && s.tasks[a.t].pri != s.tasks[c].pri)
  }

  lemma SwitchedFirst(s: State, t: nat, c: nat)
    requires Inv(s) && s.current == Some(c) && Preemptable(s.tasks[c]) && Ready(s, SwitchTo(t))
    requires s.tasks[t].pri != s.tasks[c].pri
    ensures Waiting(ScheduleTo(s, t), c, s.tasks[c].pri)
  {
    BackFirst(s, c);
    SwitchInv(s, t);
    hide Inv, PutBack, Drop;
  }

  lemma PreemptedStep(s: State, a: Step, c: nat)
    requires Inv(s) && Ready(s, a) && s.current == Some(c) && Preemptable(s.tasks[c]) && Preempts(s, a, c)
    ensures Apply(s, a).current == Some(c) || Waiting(Apply(s, a), c, s.tasks[c].pri)
  {
    hide Inv, Schedule, ScheduleTo, Waiting;
    if a == Reschedule { PreemptedFirst(s, c); } else { SwitchedFirst(s, a.t, c); }
  }

  /** It neither blocked nor yielded nor ended. */
  predicate Preemptable(k: Task) { k.hold == Pri(k.pri) && k.reason == Other }

  ghost predicate Undisturbed(tr: seq<State>, steps: seq<Step>, i: nat, j: nat, c: nat, p: nat)
    requires i <= j <= |steps| < |tr|
  {
    forall k :: i <= k < j ==> tr[k].maxPri > 0 && !Disturbs(tr[k], steps[k], c, p)
  }

  ghost predicate NotRun(tr: seq<State>, i: nat, j: nat, c: nat)
    requires i <= j < |tr|
  {
    forall k :: i <= k <= j ==> tr[k].current != Some(c)
  }

  /** A preempted task resumes before its equal-priority peers: from the pass that preempts
      it on, whether that one searches or is handed a task, until it runs again, no task of
      its level runs and it heads its queue, whatever else is started, woken, blocked,
      re-ranked, yields or ends. */
  lemma {:induction false} PreemptedResumes(maxPri: nat, first: nat, timer: nat, tr: seq<State>, steps: seq<Step>,
      i: nat, j: nat, c: nat)
    requires IsRun(maxPri, first, timer, tr, steps) && i < j < |tr| && Preempts(tr[i], steps[i], c)
    requires tr[i].current == Some(c) && c in tr[i].tasks && Preemptable(tr[i].tasks[c])
    requires Undisturbed(tr, steps, i + 1, j, c, tr[i].tasks[c].pri) && NotRun(tr, i + 1, j, c)
    ensures Waiting(tr[j], c, tr[i].tasks[c].pri)
    decreases j
  {
    hide Inv, Ready, Apply, Disturbs, Waiting;
    var p := tr[i].tasks[c].pri;
    if j == i + 1 {
      RunInv(maxPri, first, timer, tr, steps, i);
      assert Goes(tr[i], steps[i], tr[i + 1]);
      PreemptedStep(tr[i], steps[i], c);
    } else {
      PreemptedResumes(maxPri, first, timer, tr, steps, i, j - 1, c);
      assert Goes(tr[j - 1], steps[j - 1], tr[j]);
      WaitingStep(tr[j - 1], steps[j - 1], c, p);
    }
  }

  lemma IsSchedule(s: State)
    requires Ready(s, Reschedule)
    ensures Apply(s, Reschedule) == Schedule(s)
  {
  }

  /** Then a pass of the scheduler that finds nothing of a higher level ready runs it. */
  lemma ResumesNext(s: State, c: nat, p: nat)
    requires Waiting(s, c, p) && Ready(s, Reschedule)
    requires forall m: nat, t :: m > p ==> !On(PutBack(s, s.current.value), Pri(m), t)
    ensures Schedule(s).current == Some(c)
  {
    BackBehind(s, c, p);
    var h := Picks(s, p);
    var queues := PutBack(s, s.current.value);
    assert On(queues, Pri(h), Q(queues, Pri(h))[0]);
    hide Inv, PutBack, Drop;
  }

  /** The property fails where the condition does. A preempted task that is woken again, say
      by a timeout that was still pending, goes behind its peers ... */
  lemma WokenGoesLast(s: State, c: nat, d: nat, p: nat)
    requires Waiting(s, c, p) && Q(s.queues, Pri(p)) == [c, d]
    ensures Ready(s, Wake(c)) && Q(Apply(s, Wake(c)).queues, Pri(p)) == [d, c]
  {
    StepInv(s, Wake(c));
    WaitingWake(s, c, c, p);
  }

  /** ... and a running task that is lowered to its level goes before it when the scheduler
      runs. */
  lemma LoweredGoesFirst(s: State, c: nat, p: nat)
    requires Waiting(s, c, p) && p < s.maxPri && s.current.value != s.timer
    requires Preemptable(s.tasks[s.current.value])
    ensures var u := s.current.value;
      && Ready(s, Priority(u, p)) && Ready(Apply(s, Priority(u, p)), Reschedule)
      && var queues := PutBack(Apply(s, Priority(u, p)), u);
        |Q(queues, Pri(p))| > 1 && Q(queues, Pri(p))[0] == u && Q(queues, Pri(p))[1] == c
  {
    var u := s.current.value;
    var t := Apply(s, Priority(u, p));
    MovedHead(t.queues, Pri(p), u, Pri(p), c);
    UnlinkFacts(t.queues, u);
  }

  // ---- round robin ----

  ghost predicate Runs(s: State, p: nat) {
    s.current.Some? && s.current.value in s.tasks && s.tasks[s.current.value].pri == p
  }

  /** The tasks of level `p` as a ring: the one that runs, settled, and its queue behind it;
      or the queue alone while a task of another level runs. */
  ghost predicate Level(s: State, p: nat, ring: seq<nat>) {
    && Inv(s) && ring != [] && s.current.Some?
    && if Runs(s, p) then
         && s.current == Some(ring[0]) && s.tasks[ring[0]].hold == Pri(p) && ring[1..] == Q(s.queues, Pri(p))
         && forall x :: !On(s.queues, x, ring[0])
       else ring == Q(s.queues, Pri(p)) && !On(s.queues, Pri(p), s.current.value)
  }

  /** Steps that leave the tasks of level `p` to take turns: tasks of other levels do as they
      please and preempt at any moment, and its own only release the processor or are
      sliced. */
  ghost predicate Leaves(s: State, a: Step, p: nat)
    requires s.maxPri > 0
  {
    match a
    case Reschedule => true
    case Yield(_) => true
    case SwitchTo(t) => t in s.tasks && s.tasks[t].pri != p
    case Wake(t) => t in s.tasks && s.tasks[t].pri != p
    case Start(t, x) => FirstPri(s, t, x) != p
    case Priority(t, x) => t in s.tasks && s.tasks[t].pri != p && Clamp(x, s.maxPri) != p
    case _ => !Runs(s, p)
  }

  /** The scheduler runs while a task of level `p` has yielded or used up its slice. */
  ghost predicate Switches(s: State, a: Step, p: nat) {
    (a == Reschedule || a.SwitchTo?) && Runs(s, p) && s.tasks[s.current.value].reason != Other
  }

  function Turned(ring: seq<nat>): (r: seq<nat>)
    requires ring != []
    ensures |r| == |ring|
  {
    ring[1..] + [ring[0]]
  }

  ghost function Next(s: State, a: Step, p: nat, ring: seq<nat>): (r: seq<nat>)
    requires ring != []
    ensures |r| == |ring|
  {
    if Switches(s, a, p) then Turned(ring) else ring
  }

  /** The outgoing task goes before or behind its own level, or elsewhere. */
  lemma BackOn(s: State, p: nat, ring: seq<nat>)
    requires Level(s, p, ring)
    ensures Q(PutBack(s, s.current.value), Pri(p)) == Next(s, Reschedule, p, ring)
  {
    var u := s.current.value;
    UnlinkFacts(s.queues, u);
    assert !On(s.queues, Pri(p), u);
    DropFacts(Q(s.queues, Pri(p)), u);
    if !Runs(s, p) { NotItsLevel(s, u, p); }
  }

  lemma LevelSchedule(s: State, p: nat, ring: seq<nat>)
    requires Level(s, p, ring)
    ensures Level(Schedule(s), p, Next(s, Reschedule, p, ring))
  {
    var next := Next(s, Reschedule, p, ring);
    BackOn(s, p, ring);
    ScheduleInv(s);
    var h := Picks(s, p);
    NowhereElse(Schedule(s));
    hide Inv, PutBack, Outranked, Switches;
    if h == p { assert Q(Schedule(s).queues, Pri(p)) == next[1..]; }
  }

  lemma NowhereElse(s: State)
    requires Settled(s) && s.current.Some?
    ensures forall x :: !On(s.queues, x, s.current.value)
  {
  }

  lemma LevelSwitch(s: State, t: nat, p: nat, ring: seq<nat>)
    requires Level(s, p, ring) && Ready(s, SwitchTo(t)) && s.tasks[t].pri != p
    ensures Level(ScheduleTo(s, t), p, Next(s, SwitchTo(t), p, ring))
  {
    BackOn(s, p, ring);
    SwitchInv(s, t);
    PutBackInv(s);
    NotItsLevel(s, t, p);
    assert !On(PutBack(s, s.current.value), Pri(p), t);
    hide Inv, PutBack, Once, Kept, Ranked, Flags;
  }

  /** A task of another level that moves to a queue of another level. */
  lemma Elsewhere(s: State, t: nat, x: Hold, p: nat, ring: seq<nat>)
    requires Level(s, p, ring) && x != Pri(p) && (t in s.tasks ==> s.tasks[t].pri != p)
    ensures var queues := Tail(Unlink(s.queues, t), x, t);
      && Q(queues, Pri(p)) == Q(s.queues, Pri(p))
      && (Runs(s, p) ==> forall y :: !On(queues, y, ring[0]))
      && (!Runs(s, p) ==> !On(queues, Pri(p), s.current.value))
  {
    UnlinkFacts(s.queues, t);
    TailFacts(Unlink(s.queues, t), x, t);
    if t in s.tasks { NotItsLevel(s, t, p); }
    assert !On(s.queues, Pri(p), t);
    DropFacts(Q(s.queues, Pri(p)), t);
  }

  lemma LevelWake(s: State, t: nat, p: nat, ring: seq<nat>)
    requires Level(s, p, ring) && Ready(s, Wake(t)) && s.tasks[t].pri != p
    ensures Level(WakeTask(s, t), p, ring)
  {
    WakeInv(s, t);
    Elsewhere(s, t, Pri(s.tasks[t].pri), p, ring);
    hide Inv, Unlink, Tail;
  }

  lemma LevelStart(s: State, t: nat, x: int, p: nat, ring: seq<nat>)
    requires Level(s, p, ring) && Ready(s, Start(t, x)) && FirstPri(s, t, x) != p
    ensures Level(Apply(s, Start(t, x)), p, ring)
  {
    StartInv(s, t, x);
    Elsewhere(s, t, Pri(FirstPri(s, t, x)), p, ring);
    hide Inv, Unlink, Tail;
  }

  lemma LevelPriority(s: State, t: nat, x: int, p: nat, ring: seq<nat>)
    requires Level(s, p, ring) && Ready(s, Priority(t, x)) && s.tasks[t].pri != p && Clamp(x, s.maxPri) != p
    ensures Level(Apply(s, Priority(t, x)), p, ring)
  {
    PriorityInv(s, t, x);
    Elsewhere(s, t, Pri(Clamp(x, s.maxPri)), p, ring);
    hide Inv, Unlink, Tail;
  }

  lemma LevelRunning(s: State, a: Step, p: nat, ring: seq<nat>)
    requires Level(s, p, ring) && Ready(s, a) && (a.Hibernate? || a.Enqueue? || a.Yield? || a.Exit?) && Leaves(s, a, p)
    ensures Level(Apply(s, a), p, ring)
  {
    RunningInv(s, a);
    if a.Enqueue? { Elsewhere(s, s.current.value, Wait(a.q), p, ring); }
    hide Inv, Unlink, Tail;
  }

  lemma LevelStep(s: State, a: Step, p: nat, ring: seq<nat>)
    requires Level(s, p, ring) && Ready(s, a) && Leaves(s, a, p)
    ensures Level(Apply(s, a), p, Next(s, a, p, ring))
  {
    hide Level, Switches;
    match a
    case Reschedule => LevelSchedule(s, p, ring);
    case SwitchTo(t) => LevelSwitch(s, t, p, ring);
    case Start(t, x) => LevelStart(s, t, x, p, ring); NoSwitch(s, a, p);
    case Wake(t) => LevelWake(s, t, p, ring); NoSwitch(s, a, p);
    case Priority(t, x) => LevelPriority(s, t, x, p, ring); NoSwitch(s, a, p);
    case _ => LevelRunning(s, a, p, ring); NoSwitch(s, a, p);
  }

  lemma NoSwitch(s: State, a: Step, p: nat)
    requires a != Reschedule && !a.SwitchTo?
    ensures !Switches(s, a, p)
  {
  }

  /** Switches from a task of level `p` among the steps from `i` up to `j`. */
  ghost function Count(tr: seq<State>, steps: seq<Step>, i: nat, j: nat, p: nat): (n: nat)
    requires i <= j <= |steps| < |tr|
    decreases j
  {
    if i == j then 0 else Count(tr, steps, i, j - 1, p) + if Switches(tr[j - 1], steps[j - 1], p) then 1 else 0
  }

  /** The ring from its n-th task on. */
  function From(ring: seq<nat>, n: nat): (r: seq<nat>)
    requires ring != []
    ensures |r| == |ring| && r[0] == ring[n % |ring|]
  {
    ring[n % |ring|..] + ring[..n % |ring|]
  }

  lemma TurnedFrom(ring: seq<nat>, n: nat)
    requires ring != []
    ensures From(ring, n + 1) == Turned(From(ring, n))
  {
    var k := |ring|;
    if n % k + 1 < k {
      assert (n + 1) % k == n % k + 1 by { NextIndex(n, k); }
    } else {
      assert (n + 1) % k == 0 by { NextIndex(n, k); }
    }
  }

  lemma NextIndex(n: nat, k: nat)
    requires k > 0
    ensures (n + 1) % k == if n % k + 1 < k then n % k + 1 else 0
  {
    var q, r := n / k, n % k;
    Split(n, k);
    assert k * (q + 1) == k * q + k;
    if r + 1 < k { Quotient(n + 1, q, r + 1, k); } else { Quotient(n + 1, q + 1, 0, k); }
  }

  lemma {:induction false} LevelRun(maxPri: nat, first: nat, timer: nat, tr: seq<State>, steps: seq<Step>,
      i: nat, j: nat, p: nat, ring: seq<nat>)
    requires IsRun(maxPri, first, timer, tr, steps) && i <= j < |tr|
    requires forall k :: i <= k < j ==> tr[k].maxPri > 0 && Leaves(tr[k], steps[k], p)
    requires ring != [] && Level(tr[i], p, ring)
    ensures Level(tr[j], p, From(ring, Count(tr, steps, i, j, p)))
    decreases j
  {
    hide Level, Ready, Apply, Leaves, Switches, From;
    if i == j {
      FromStart(ring);
    } else {
      LevelRun(maxPri, first, timer, tr, steps, i, j - 1, p, ring);
      assert Goes(tr[j - 1], steps[j - 1], tr[j]);
      LevelStep(tr[j - 1], steps[j - 1], p, From(ring, Count(tr, steps, i, j - 1, p)));
      TurnedFrom(ring, Count(tr, steps, i, j - 1, p));
    }
  }

  lemma FromStart(ring: seq<nat>)
    requires ring != []
    ensures From(ring, 0) == ring
  {
    assert 0 % |ring| == 0;
  }

  /** Round robin. Let a task run that shares its level with k - 1 others, and let the tasks
      of that level only yield or be sliced, each for its own reason and at its own time,
      while tasks of other levels start, wake, block, end and preempt as they please. After
      the n-th of those switches whatever task of the level runs is the one n places on in
      the ring; so in k consecutive switches each of the k has its turn once, and in the
      order in which they were queued. */
  lemma RoundRobin(maxPri: nat, first: nat, timer: nat, tr: seq<State>, steps: seq<Step>, i: nat, j: nat, c: nat)
    requires IsRun(maxPri, first, timer, tr, steps) && i <= j < |tr|
    requires tr[i].current == Some(c) && c in tr[i].tasks && Settled(tr[i])
    requires forall k :: i <= k < j ==> tr[k].maxPri > 0 && Leaves(tr[k], steps[k], tr[i].tasks[c].pri)
    ensures var p := tr[i].tasks[c].pri;
      var ring, n := [c] + Q(tr[i].queues, Pri(p)), Count(tr, steps, i, j, p);
      && NoDup(ring)
      && (Runs(tr[j], p) ==> tr[j].current == Some(ring[n % |ring|]) && Q(tr[j].queues, Pri(p)) == From(ring, n)[1..])
      && (!Runs(tr[j], p) ==> Q(tr[j].queues, Pri(p)) == From(ring, n))
  {
    var p := tr[i].tasks[c].pri;
    var ring := [c] + Q(tr[i].queues, Pri(p));
    RunInv(maxPri, first, timer, tr, steps, i);
    assert !On(tr[i].queues, Pri(p), c) && NoDup(Q(tr[i].queues, Pri(p)));
    LevelRun(maxPri, first, timer, tr, steps, i, j, p, ring);
  }

  /** In k consecutive switches the k places are all different. */
  lemma EachOnce(ring: seq<nat>, n: nat, a: nat, b: nat)
    requires NoDup(ring) && a < b < |ring|
    ensures ring[(n + a) % |ring|] != ring[(n + b) % |ring|]
  {
    var k := |ring|;
    var x, y := (n + a) / k, (n + b) / k;
    Split(n + a, k);
    Split(n + b, k);
    assert k * (y - x) == k * y - k * x;
    if (n + a) % k == (n + b) % k {
      Multiple(k, y - x);
      assert false;
    }
  }
}
