/** Runs in which a preempted task does not resume before its equal-priority peers. */
module SchedOvertaken {
  import opened Sched
  import opened SchedSafety
  import opened SchedTurns

  /** Four levels, task `c` running and on no queue, and the ready queues from level 0 up. */
  ghost predicate Line(s: State, c: nat, ls: seq<seq<nat>>) {
    && Inv(s) && s.maxPri == 3 && s.timer == 9 && s.current == Some(c)
    && Queues(s.queues, ls) && forall q :: q in ls ==> c !in q
  }

  ghost predicate Queues(queues: map<Hold, seq<nat>>, ls: seq<seq<nat>>) {
    |ls| == 4 && forall i: nat :: i < 4 ==> Q(queues, Pri(i)) == ls[i]
  }

  function Levels(l0: seq<nat>, l1: seq<nat>, l2: seq<nat>): (ls: seq<seq<nat>>) { [l0, l1, l2, []] }

  lemma Starts(s: State, t: nat, p: nat, c: nat, ls: seq<seq<nat>>) returns (r: State)
    requires Line(s, c, ls) && t !in s.tasks && p < 3 && t != 9
    ensures Goes(s, Start(t, p), r) && Line(r, c, ls[p := ls[p] + [t]])
    ensures r.tasks == s.tasks[t := Task(p, Pri(p), Other)]
  {
    hide Drop;
    r := Apply(s, Start(t, p));
    StepInv(s, Start(t, p));
    forall x ensures Q(Unlink(s.queues, t), x) == Q(s.queues, x) {
      assert !On(s.queues, x, t);
      DropFacts(Q(s.queues, x), t);
      UnlinkFacts(s.queues, t);
    }
    hide Inv, Unlink;
  }

  /** The scheduler runs, with the running task back on the queues `back`. */
  lemma Schedules(s: State, c: nat, ls: seq<seq<nat>>, back: seq<seq<nat>>, h: nat) returns (r: State)
    requires Line(s, c, ls) && Queues(PutBack(s, c), back) && h < 4 && back[h] != []
    requires forall m :: h < m < 4 ==> back[m] == []
    requires forall q :: q in back[h := back[h][1..]] ==> back[h][0] !in q
    ensures Goes(s, Reschedule, r) && Line(r, back[h][0], back[h := back[h][1..]])
    ensures r.tasks == s.tasks[c := s.tasks[c].(reason := Other)]
  {
    hide PutBack, Placed, Once, Kept, Ranked, Flags, Schedule, Flagged, Highest, Drop;
    r := Apply(s, Reschedule);
    StepInv(s, Reschedule);
    IsSchedule(s);
    var k := HighestReady(s, PutBack(s, c), h);
    InLevels(s, c, k);
    ScheduleAt(s, k);
    SchedulesTasks(s);
  }

  lemma InLevels(s: State, c: nat, k: nat)
    requires Inv(s) && s.current == Some(c) && Q(PutBack(s, c), Pri(k)) != []
    ensures k <= s.maxPri
  {
    PutBackInv(s);
    LevelOf(s, PutBack(s, c), k);
  }

  lemma SchedulesTasks(s: State)
    requires s.current.Some? && s.current.value in s.tasks
    ensures Schedule(s).current.Some? ==> Schedule(s).tasks == Calm(s.tasks, s.current)
    ensures Schedule(s).maxPri == s.maxPri && Schedule(s).timer == s.timer
  {
    hide PutBack, Flagged, Cleared;
  }

  /** A task that is preempted goes to the head of its queue. */
  lemma BackHead(s: State, c: nat, ls: seq<seq<nat>>, p: nat)
    requires Line(s, c, ls) && p < 4 && s.tasks[c] == Task(p, Pri(p), Other)
    ensures Queues(PutBack(s, c), ls[p := [c] + ls[p]])
  {
    hide Inv, Drop;
    UnlinkFacts(s.queues, c);
    forall i: nat | i < 4 ensures Drop(ls[i], c) == ls[i] {
      assert ls[i] in ls;
      DropFacts(ls[i], c);
    }
  }

  /** One that has ended goes nowhere. */
  lemma BackNowhere(s: State, c: nat, ls: seq<seq<nat>>)
    requires Line(s, c, ls) && s.tasks[c].hold == Nowhere
    ensures Queues(PutBack(s, c), ls)
  {
    hide Inv, Drop;
    UnlinkFacts(s.queues, c);
    forall i: nat | i < 4 ensures Drop(ls[i], c) == ls[i] {
      assert ls[i] in ls;
      DropFacts(ls[i], c);
    }
  }

  lemma Wakes(s: State, c: nat, ls: seq<seq<nat>>, t: nat, d: nat) returns (r: State)
    requires Line(s, c, ls) && t in s.tasks && s.tasks[t] == Task(1, Pri(1), Other)
    requires ls[1] == [t, d] && t != d && t != c
    ensures Goes(s, Wake(t), r) && Line(r, c, ls[1 := [d, t]]) && r.tasks == s.tasks
  {
    r := Apply(s, Wake(t));
    StepInv(s, Wake(t));
    WokenLast(s, ls, t, d);
    assert c in ls[1] <==> c in [d, t];
    hide Inv, Drop, Unlink;
  }

  lemma WokenLast(s: State, ls: seq<seq<nat>>, t: nat, d: nat)
    requires Inv(s) && Queues(s.queues, ls) && t in s.tasks && s.tasks[t].hold == Pri(1) && s.current != Some(t)
    requires ls[1] == [t, d] && t != d
    ensures Queues(Tail(Unlink(s.queues, t), Pri(1), t), ls[1 := [d, t]])
  {
    UnlinkFacts(s.queues, t);
    assert [t, d][1..] == [d] && [d][1..] == [] && Drop([d], t) == [d];
    forall i: nat | i < 4 && i != 1 ensures Drop(ls[i], t) == ls[i] {
      assert t in ls[i] ==> On(s.queues, Pri(i), t);
      DropFacts(ls[i], t);
    }
    hide Inv, Drop, Unlink;
  }

  lemma Ends(s: State, c: nat, ls: seq<seq<nat>>) returns (r: State)
    requires Line(s, c, ls)
    ensures Goes(s, Exit, r) && Line(r, c, ls) && r.tasks == s.tasks[c := s.tasks[c].(hold := Nowhere, reason := Dead)]
  {
    r := Apply(s, Exit);
    StepInv(s, Exit);
    hide Inv;
  }

  lemma Lowers(s: State, c: nat, ls: seq<seq<nat>>, p: nat, x: nat) returns (r: State)
    requires Line(s, c, ls) && s.tasks[c] == Task(p, Pri(p), Other) && x < 3 && c != 9
    ensures Goes(s, Priority(c, x), r) && Line(r, c, ls) && r.tasks == s.tasks[c := Task(x, Pri(x), Other)]
  {
    r := Apply(s, Priority(c, x));
    StepInv(s, Priority(c, x));
    hide Inv;
  }

  /** Tasks 1 and 2 share level 1, and task 1 runs. */
  lemma Shared() returns (tr: seq<State>, steps: seq<Step>)
    ensures IsRun(3, 0, 9, tr, steps) && steps == [Start(1, 1), Start(2, 1), Reschedule]
    ensures Line(tr[3], 1, Levels([0], [2], []))
    ensures tr[3].tasks == map[0 := Task(0, Pri(0), Other), 1 := Task(1, Pri(1), Other), 2 := Task(1, Pri(1), Other)]
  {
    hide Inv, Apply, Ready, PutBack;
    assert [] + [1] == [1] && [1] + [2] == [1, 2] && [0] + [] == [0];
    var a := Booted();
    var b := Starts(a, 1, 1, 0, Levels([], [], []));
    assert Levels([], [], [])[1 := [1]] == Levels([], [1], []);
    var c := Starts(b, 2, 1, 0, Levels([], [1], []));
    assert Levels([], [1], [])[1 := [1, 2]] == Levels([], [1, 2], []);
    BackHead(c, 0, Levels([], [1, 2], []), 0);
    assert Levels([], [1, 2], [])[0 := [0]] == Levels([0], [1, 2], []);
    assert Levels([0], [1, 2], [])[1 := [1, 2][1..]] == Levels([0], [2], []);
    var d := Schedules(c, 0, Levels([], [1, 2], []), Levels([0], [1, 2], []), 1);
    tr, steps := [a, b, c, d], [Start(1, 1), Start(2, 1), Reschedule];
  }

  /** Then task 1 is preempted by task 3 of level 2. */
  lemma Preempted() returns (tr: seq<State>, steps: seq<Step>)
    ensures IsRun(3, 0, 9, tr, steps) && |steps| == 5 && steps[4] == Reschedule
    ensures tr[4].current == Some(1) && tr[4].tasks == tr[5].tasks && Line(tr[5], 3, Levels([0], [1, 2], []))
    ensures tr[5].tasks == map[0 := Task(0, Pri(0), Other), 1 := Task(1, Pri(1), Other),
                               2 := Task(1, Pri(1), Other), 3 := Task(2, Pri(2), Other)]
  {
    hide Inv, Apply, Ready, PutBack, Goes;
    assert [] + [3] == [3] && [1] + [2] == [1, 2] && [3][1..] == [];
    var before, done := Shared();
    var d := before[3];
    var e := Starts(d, 3, 2, 1, Levels([0], [2], []));
    assert Levels([0], [2], [])[2 := [3]] == Levels([0], [2], [3]);
    BackHead(e, 1, Levels([0], [2], [3]), 1);
    assert Levels([0], [2], [3])[1 := [1, 2]] == Levels([0], [1, 2], [3]);
    assert Levels([0], [1, 2], [3])[2 := [3][1..]] == Levels([0], [1, 2], []);
    var f := Schedules(e, 1, Levels([0], [2], [3]), Levels([0], [1, 2], [3]), 2);
    tr, steps := before + [e, f], done + [Start(3, 2), Reschedule];
    Extended(before, done, tr, steps);
  }

  lemma Booted() returns (s: State)
    ensures s == Boot(3, 0, 9) && Line(s, 0, Levels([], [], [])) && s.tasks == map[0 := Task(0, Pri(0), Other)]
  {
    BootInv(3, 0, 9);
    s := Boot(3, 0, 9);
    hide Inv;
  }

  /** ... and then woken again, as by a timeout that was pending: when task 3 ends it is task 2
      that runs, though task 1 was preempted. */
  lemma WokenLoses() returns (tr: seq<State>, steps: seq<Step>)
    ensures IsRun(3, 0, 9, tr, steps) && |steps| == 8 && steps[4..] == [Reschedule, Wake(1), Exit, Reschedule]
    ensures tr[4].current == Some(1) && 1 in tr[4].tasks && Preemptable(tr[4].tasks[1])
    ensures tr[8].current == Some(2) && 2 in tr[4].tasks && tr[4].tasks[2].pri == tr[4].tasks[1].pri
  {
    hide Inv, Apply, Ready, PutBack, Drop;
    var before, done := Preempted();
    var f := before[5];
    var g := Wakes(f, 3, Levels([0], [1, 2], []), 1, 2);
    assert Levels([0], [1, 2], [])[1 := [2, 1]] == Levels([0], [2, 1], []);
    var h := Ends(g, 3, Levels([0], [2, 1], []));
    BackNowhere(h, 3, Levels([0], [2, 1], []));
    assert Levels([0], [2, 1], [])[1 := [2, 1][1..]] == Levels([0], [1], []);
    var i := Schedules(h, 3, Levels([0], [2, 1], []), Levels([0], [2, 1], []), 1);
    tr, steps := before + [g, h, i], done + [Wake(1), Exit, Reschedule];
    Extended(before, done, tr, steps);
  }

  /** ... or the running task is lowered to its level: then that one runs on before it. */
  lemma LoweredWins() returns (tr: seq<State>, steps: seq<Step>)
    ensures IsRun(3, 0, 9, tr, steps) && |steps| == 7 && steps[4..] == [Reschedule, Priority(3, 1), Reschedule]
    ensures tr[4].current == Some(1) && 1 in tr[4].tasks && Preemptable(tr[4].tasks[1])
    ensures tr[7].current == Some(3) && 3 in tr[7].tasks && tr[7].tasks[3].pri == tr[4].tasks[1].pri
    ensures Q(tr[7].queues, Pri(1)) == [1, 2]
  {
    hide Inv, Apply, Ready, PutBack, Drop;
    var before, done := Preempted();
    var f := before[5];
    var g := Lowers(f, 3, Levels([0], [1, 2], []), 2, 1);
    BackHead(g, 3, Levels([0], [1, 2], []), 1);
    assert [3] + [1, 2] == [3, 1, 2];
    assert Levels([0], [1, 2], [])[1 := [3, 1, 2]] == Levels([0], [3, 1, 2], []);
    assert Levels([0], [3, 1, 2], [])[1 := [3, 1, 2][1..]] == Levels([0], [1, 2], []);
    var h := Schedules(g, 3, Levels([0], [1, 2], []), Levels([0], [3, 1, 2], []), 1);
    tr, steps := before + [g, h], done + [Priority(3, 1), Reschedule];
    Extended(before, done, tr, steps);
  }

  lemma Extended(before: seq<State>, done: seq<Step>, tr: seq<State>, steps: seq<Step>)
    requires IsRun(3, 0, 9, before, done) && before <= tr && done <= steps && |tr| == |steps| + 1
    requires forall i :: |done| <= i < |steps| ==> Goes(tr[i], steps[i], tr[i + 1])
    ensures IsRun(3, 0, 9, tr, steps)
  {
    hide Goes;
    forall i | 0 <= i < |steps| ensures Goes(tr[i], steps[i], tr[i + 1]) {
      if i < |done| { assert Goes(before[i], done[i], before[i + 1]); }
    }
  }
}
