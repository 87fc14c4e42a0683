/** The task scheduler: ready queues by priority, wait queues, and the flags that say
    which ready queues may be in use. */
module Sched {
  /** The queue a task's holdQueue word names. */
  datatype Hold = Pri(p: nat) | Wait(q: nat) | Nowhere

  datatype Reason = Other | Released | Sliced | Dead

  datatype Task = Task(pri: nat, hold: Hold, reason: Reason)

  datatype Option<T> = None | Some(value: T)

  /** `idle` is the task whose descheduling was deferred when nothing could run; `timer` is
      the task that delivers timers, alone at the highest priority. */
  datatype State = State(maxPri: nat, timer: nat, tasks: map<nat, Task>, queues: map<Hold, seq<nat>>, flags: seq<bool>,
    current: Option<nat>, idle: Option<nat>)

  function Q(queues: map<Hold, seq<nat>>, x: Hold): (q: seq<nat>) { if x in queues then queues[x] else [] }

  function Drop(q: seq<nat>, t: nat): (r: seq<nat>) {
    if q == [] then [] else (if q[0] == t then [] else [q[0]]) + Drop(q[1..], t)
  }

  /** Take a task off whatever queue it is on. */
  function Unlink(queues: map<Hold, seq<nat>>, t: nat): (r: map<Hold, seq<nat>>) {
    map x | x in queues :: Drop(queues[x], t)
  }

  function Tail(queues: map<Hold, seq<nat>>, x: Hold, t: nat): (r: map<Hold, seq<nat>>) {
    queues[x := Q(queues, x) + [t]]
  }

  function Head(queues: map<Hold, seq<nat>>, x: Hold, t: nat): (r: map<Hold, seq<nat>>) {
    queues[x := [t] + Q(queues, x)]
  }

  /** The outgoing task goes where holdQueue says: to the head of its own ready queue when
      it was interrupted there, else to the tail; nowhere when it has ended. */
  function PutBack(s: State, t: nat): (r: map<Hold, seq<nat>>)
    requires t in s.tasks
  {
    var k, off := s.tasks[t], Unlink(s.queues, t);
    if k.hold == Nowhere then off
    else if k.hold == Pri(k.pri) && k.reason == Other then Head(off, k.hold, t)
    else Tail(off, k.hold, t)
  }

  /** Highest priority below `n` whose queue is flagged and holds a task, or -1. */
  function Flagged(queues: map<Hold, seq<nat>>, flags: seq<bool>, n: nat): (p: int)
    ensures -1 <= p < n
    ensures p >= 0 ==> p < |flags| && flags[p] && Q(queues, Pri(p)) != []
  {
    if n == 0 then -1
    else if n - 1 < |flags| && flags[n - 1] && Q(queues, Pri(n - 1)) != [] then n - 1
    else Flagged(queues, flags, n - 1)
  }

  /** Highest priority below `n` that has a task ready, or -1: a plain scan. */
  function Highest(queues: map<Hold, seq<nat>>, n: nat): (p: int)
    ensures -1 <= p < n
    ensures p >= 0 ==> Q(queues, Pri(p)) != []
    ensures forall m :: p < m < n ==> Q(queues, Pri(m)) == []
  {
    if n == 0 then -1 else if Q(queues, Pri(n - 1)) != [] then n - 1 else Highest(queues, n - 1)
  }

  /** The flags above the queue found are all cleared on the way. */
  function Cleared(flags: seq<bool>, p: int): (r: seq<bool>)
    ensures |r| == |flags|
    ensures forall i :: 0 <= i < |r| ==> r[i] == (flags[i] && i <= p)
  {
    seq(|flags|, i requires 0 <= i < |flags| => flags[i] && i <= p)
  }

  function Calm(tasks: map<nat, Task>, t: Option<nat>): (r: map<nat, Task>) {
    if t.Some? && t.value in tasks then tasks[t.value := tasks[t.value].(reason := Other)] else tasks
  }

  function Schedule(s: State): (r: State)
    requires s.current.Some? ==> s.current.value in s.tasks
  {
    var queues := if s.current.Some? then PutBack(s, s.current.value) else s.queues;
    var p := Flagged(queues, s.flags, |s.flags|);
    var flags := Cleared(s.flags, p);
    if p < 0 then
      s.(queues := queues, flags := flags, current := None, idle := if s.current.Some? then s.current else s.idle)
    else
      var q := Q(queues, Pri(p));
      s.(queues := queues[Pri(p) := q[1..]], flags := flags, current := Some(q[0]), idle := None,
         tasks := Calm(s.tasks, if s.current.Some? then s.current else s.idle))
  }

  /** A task handed to the scheduler runs whatever else is ready. */
  function ScheduleTo(s: State, t: nat): (r: State)
    requires s.current.Some? ==> s.current.value in s.tasks
  {
    s.(queues := if s.current.Some? then PutBack(s, s.current.value) else s.queues, current := Some(t), idle := None,
       tasks := Calm(s.tasks, if s.current.Some? then s.current else s.idle))
  }

  /** Make a task ready at the tail of its own queue. */
  function WakeTask(s: State, t: nat): (r: State)
    requires t in s.tasks
  {
    var p := s.tasks[t].pri;
    s.(tasks := s.tasks[t := s.tasks[t].(hold := Pri(p))],
       queues := Tail(Unlink(s.queues, t), Pri(p), t),
       flags := Mark(s.flags, p))
  }

  function Mark(flags: seq<bool>, p: nat): (r: seq<bool>)
    ensures |r| == |flags|
    ensures forall i :: 0 <= i < |r| ==> r[i] == (flags[i] || i == p)
  {
    if p < |flags| then flags[p := true] else flags
  }

  function Clamp(priority: int, maxPri: nat): (p: nat)
    requires maxPri > 0
    ensures p < maxPri && (0 <= priority < maxPri ==> p == priority)
    ensures (priority < 0 ==> p == 0) && (priority >= maxPri ==> p == maxPri - 1)
  {
    if priority < 0 then 0 else if priority > maxPri - 1 then maxPri - 1 else priority
  }

  /** The priority a new task gets: the highest is the timer task's. */
  function FirstPri(s: State, t: nat, priority: int): (p: nat)
    requires s.maxPri > 0
    ensures p <= s.maxPri && (p == s.maxPri <==> t == s.timer)
  {
    if t == s.timer then s.maxPri else Clamp(priority, s.maxPri)
  }

  /** The timer task keeps its priority. */
  function SetPriority(s: State, t: nat, priority: int): (r: State)
    requires t in s.tasks && s.maxPri > 0
  {
    var k, p := s.tasks[t], Clamp(priority, s.maxPri);
    var ready := k.hold == Pri(k.pri);
    if t == s.timer then s
    else s.(tasks := s.tasks[t := k.(pri := p, hold := if ready then Pri(p) else k.hold)],
       queues := if ready && s.current != Some(t) then Tail(Unlink(s.queues, t), Pri(p), t) else s.queues,
       flags := Mark(s.flags, p))
  }

  datatype Step =
    | Reschedule
    | SwitchTo(t: nat)                     // the scheduler is handed the task to run
    | Start(t: nat, priority: int)         // a new task
    | Hibernate(q: nat)                    // the running task names a queue to wait on
    | Enqueue(q: nat)                      // ... and goes onto it at once
    | Wake(t: nat)                         // wake, resume or timeout
    | Priority(t: nat, priority: int)
    | Yield(reason: Reason)                // release, or the end of a time slice
    | Exit                                 // the running task ends

  /** Only live tasks are woken. */
  predicate Ready(s: State, a: Step) {
    && s.maxPri > 0 && (s.current.Some? ==> s.current.value in s.tasks)
    && match a
       case Reschedule => true
       case SwitchTo(t) => t in s.tasks && s.tasks[t].hold != Nowhere
       case Start(t, _) => t !in s.tasks
       case Hibernate(_) => s.current.Some?
       case Enqueue(_) => s.current.Some?
       case Wake(t) => t in s.tasks && s.tasks[t].hold != Nowhere
       case Priority(t, _) => t in s.tasks
       case Yield(r) => s.current.Some? && (r == Released || r == Sliced)
       case Exit => s.current.Some?
  }

  function Apply(s: State, a: Step): (r: State)
    requires Ready(s, a)
  {
    match a
    case Reschedule => Schedule(s)
    case SwitchTo(t) => ScheduleTo(s, t)
    case Start(t, priority) =>
      WakeTask(s.(tasks := s.tasks[t := Task(FirstPri(s, t, priority), Nowhere, Other)]), t)
    case Hibernate(q) =>
      var t := s.current.value;
      s.(tasks := s.tasks[t := s.tasks[t].(hold := Wait(q))])
    case Enqueue(q) =>
      var t := s.current.value;
      s.(tasks := s.tasks[t := s.tasks[t].(hold := Wait(q))], queues := Tail(Unlink(s.queues, t), Wait(q), t))
    case Wake(t) => WakeTask(s, t)
    case Priority(t, priority) => SetPriority(s, t, priority)
    case Yield(reason) =>
      var t := s.current.value;
      s.(tasks := s.tasks[t := s.tasks[t].(reason := reason)])
    case Exit =>
      var t := s.current.value;
      s.(tasks := s.tasks[t := s.tasks[t].(hold := Nowhere, reason := Dead)])
  }

  /** The first task, running before anything else is started. */
  function Boot(maxPri: nat, t: nat, timer: nat): (s: State) {
    State(maxPri, timer, map[t := Task(0, Pri(0), Other)], map[], seq((maxPri / 32 + 1) * 32, i => i == 0),
      Some(t), None)
  }
}
