/** What becomes of each timer that is set, and of each time slice, in the caller's own terms:
    true times, and delays as numbers of ticks at the clock's speed. */
module TimerFates {
  import opened Sequences
  import opened TimerOrder
  import opened TimerQueue
  import opened TimerRuns

  // ---- timers ----

  /** Timer `t` stands at some place with deadline `due`. */
  ghost predicate At(timers: seq<nat>, dues: seq<int>, t: nat, due: int) {
    |timers| == |dues| && exists p :: 0 <= p < |timers| && timers[p] == t && dues[p] == due
  }

  ghost predicate Pending(w: World, t: nat, due: int) { At(Timers(w.s.queue), Dues(w.s.queue, w.last), t, due) }

  /** Delivered after it was due, as the n-th or a later one. */
  ghost predicate Delivered(w: World, n: nat, t: nat, due: int) {
    exists k :: n <= k < |w.log| && k < |w.s.mailbox|
      && w.s.mailbox[k] == t && w.log[k].timer == t && w.log[k].due == due < w.log[k].at
  }

  ghost predicate Fate(w: World, n: nat, t: nat, due: int) { Pending(w, t, due) || Delivered(w, n, t, due) }

  predicate Concerns(a: Step, t: nat) { (a.Set? && a.t == t) || (a.Cancel? && a.t == t) }

  lemma SpliceAt(timers: seq<nat>, dues: seq<int>, p: nat, u: nat, g: int, t: nat, due: int)
    requires |timers| == |dues| && p <= |timers| && (At(timers, dues, t, due) || (u == t && g == due))
    ensures At(Splice(timers, p, u), Splice(dues, p, g), t, due)
  {
    hide Splice;
    SpliceFacts(timers, p, u);
    SpliceFacts(dues, p, g);
    if At(timers, dues, t, due) {
      var i :| 0 <= i < |timers| && timers[i] == t && dues[i] == due;
      var k := if i < p then i else i + 1;
      assert Splice(timers, p, u)[k] == t && Splice(dues, p, g)[k] == due;
    }
  }

  lemma CutAt(timers: seq<nat>, dues: seq<int>, k: nat, t: nat, due: int)
    requires At(timers, dues, t, due) && k < |timers| && timers[k] != t
    ensures At(Cut(timers, k), Cut(dues, k), t, due)
  {
    hide Cut;
    CutFacts(timers, k);
    CutFacts(dues, k);
    var i :| 0 <= i < |timers| && timers[i] == t && dues[i] == due;
    var x := if i < k then i else i - 1;
    assert Cut(timers, k)[x] == t && Cut(dues, k)[x] == due;
  }

  /** A set puts one timer with the deadline it is granted among the others. */
  lemma SetIs(w: World, a: Step)
    requires Inv(w) && Ready(w, a) && a.Set? && a.delay > 0
    ensures var q, dj := w.s.queue, Ticks(w.s, a.delay, a.clockSpeed, U32(w.clock));
      var r, p, g := Apply(w, a), Position(q, dj), Granted(q, w.last, dj, ToleranceTicks(a.tolerance, a.clockSpeed));
      && r.last == w.last && r.s.mailbox == w.s.mailbox && r.log == w.log
      && Timers(r.s.queue) == Splice(Timers(q), p, a.t)
      && Dues(r.s.queue, r.last) == Splice(Dues(q, w.last), p, Due(g, w.last))
  {
    hide Deadlines, Timers, Insert, Granted, Position, U32, Alarm, Inv, Unstarved, Slice, Ticks, Splice, DelayTicks,
      Due, Far, ToleranceTicks, Rash, Prompt;
    var q, dj := w.s.queue, Ticks(w.s, a.delay, a.clockSpeed, U32(w.clock));
    var tol := ToleranceTicks(a.tolerance, a.clockSpeed);
    InsertMeaning(q, a.t, dj, tol, w.last);
    DuesSplice(q, Insert(q, a.t, dj, tol), w.last, Position(q, dj), Granted(q, w.last, dj, tol));
  }

  lemma DuesSplice(q: seq<Entry>, r: seq<Entry>, last: int, p: nat, g: int)
    requires p <= |q| && Deadlines(r, last) == Splice(Deadlines(q, last), p, g)
    ensures Dues(r, last) == Splice(Dues(q, last), p, Due(g, last))
  {
    hide Deadlines, Due, Splice;
    SpliceFacts(Deadlines(q, last), p, g);
    SpliceFacts(Dues(q, last), p, Due(g, last));
    assert |r| == |Deadlines(r, last)|;
  }

  lemma DuesCut(q: seq<Entry>, r: seq<Entry>, last: int, k: nat)
    requires k < |q| && Deadlines(r, last) == Cut(Deadlines(q, last), k)
    ensures Dues(r, last) == Cut(Dues(q, last), k)
  {
    hide Deadlines, Due, Cut;
    CutFacts(Deadlines(q, last), k);
    CutFacts(Dues(q, last), k);
    assert |r| == |Deadlines(r, last)|;
  }

  /** The timer set is queued, and is due as it was granted. */
  lemma SetPending(w: World, a: Step) returns (due: int)
    requires Inv(w) && Ready(w, a) && a.Set? && a.delay > 0
    ensures Pending(Apply(w, a), a.t, due)
    ensures due == Due(Granted(w.s.queue, w.last, Ticks(w.s, a.delay, a.clockSpeed, U32(w.clock)),
                               ToleranceTicks(a.tolerance, a.clockSpeed)), w.last)
  {
    SetIs(w, a);
    hide Inv, Ready, Apply, Granted, Position, Ticks, Splice, Due, At;
    var q, dj := w.s.queue, Ticks(w.s, a.delay, a.clockSpeed, U32(w.clock));
    due := Due(Granted(q, w.last, dj, ToleranceTicks(a.tolerance, a.clockSpeed)), w.last);
    SpliceAt(Timers(q), Dues(q, w.last), Position(q, dj), a.t, due, a.t, due);
  }

  /** Due no earlier than asked, and later by less than the tolerance if at all. */
  lemma GrantedDue(w: World, a: Step, due: int)
    requires Inv(w) && Ready(w, a) && a.Set? && a.delay > 0 && a.delay * a.clockSpeed < TWO31
    requires 0 <= a.tolerance * a.clockSpeed < TWO31
    requires due == Due(Granted(w.s.queue, w.last, Ticks(w.s, a.delay, a.clockSpeed, U32(w.clock)),
                                ToleranceTicks(a.tolerance, a.clockSpeed)), w.last)
    ensures var asked := w.clock + a.delay * a.clockSpeed;
      asked <= due && (due == asked || due < asked + a.tolerance * a.clockSpeed)
  {
    var dj, tol := Ticks(w.s, a.delay, a.clockSpeed, U32(w.clock)), ToleranceTicks(a.tolerance, a.clockSpeed);
    Products(a.delay, a.tolerance, a.clockSpeed);
    TicksAre(w, a.delay, a.clockSpeed);
    GrantedWithinTolerance(w.s.queue, w.last, dj, tol);
    if Rash(w, a.delay, a.tolerance, a.clockSpeed) { RashOnlyIf(w, a.delay, a.tolerance, a.clockSpeed); }
    hide Deadlines, Granted, Ticks, ToleranceTicks, U32, S32, Inv, Ready, DelayTicks;
  }

  lemma Products(delay: int, tolerance: int, speed: nat)
    requires 0 < delay && delay * speed < TWO31 && 0 <= tolerance * speed < TWO31
    ensures DelayTicks(delay, speed) == delay * speed
    ensures ToleranceTicks(tolerance, speed) == tolerance * speed == S32(tolerance * speed)
  {
    assert delay * speed >= 0;
    Small(delay * speed);
    Small(tolerance * speed);
    hide U32, S32, U64;
  }

  lemma Small(x: int)
    requires 0 <= x < TWO31
    ensures U32(x) == x && S32(x) == x && U64(x) == x
  {
  }

  /** No step but its own moves the deadline of a pending timer or takes it off the queue before
      it is delivered; and what is delivered stays delivered. */
  lemma FateStep(w: World, a: Step, n: nat, t: nat, due: int)
    requires Inv(w) && Ready(w, a) && Fate(w, n, t, due) && n <= |w.log| && !Concerns(a, t)
    ensures Fate(Apply(w, a), n, t, due) && n <= |Apply(w, a).log|
  {
    LogGrows(w, a);
    hide Inv, Ready, Apply, Delivered, Pending;
    if Delivered(w, n, t, due) {
      StaysDelivered(w, a, n, t, due);
    } else {
      match a
      case Set(_, _, _, _, _) => SetLeaves(w, a, t, due);
      case Cancel(_, _) => CancelLeaves(w, a, t, due);
      case Isr(lag) => IsrServes(w, lag, n, t, due);
      case _ => OthersLeave(w, a, t, due);
    }
  }

  lemma LogGrows(w: World, a: Step)
    requires Inv(w) && Ready(w, a)
    ensures var r := Apply(w, a); w.log <= r.log && w.s.mailbox <= r.s.mailbox
    ensures |w.log| == |w.s.mailbox| && |Apply(w, a).log| == |Apply(w, a).s.mailbox|
  {
    StepInv(w, a);
    ActLogs(w, a);
    LogIs(w);
    LogIs(Apply(w, a));
    hide Inv, Ready, Apply, Act;
    ActGrows(w, a);
  }

  lemma ActGrows(w: World, a: Step)
    requires w.last <= w.clock
    ensures w.log <= Act(w, a).log && w.s.mailbox <= Act(w, a).s.mailbox
  {
    hide Deadlines, Timers, Insert, Position, U32, Ticks, DelayTicks, Rash, Fired, Remove, Dues, TimerRuns.Delivered,
      Rebased, ToleranceTicks, Due, Index;
  }

  lemma LogIs(w: World)
    requires Inv(w)
    ensures |w.log| == |w.s.mailbox|
  {
    hide Deadlines, Queued, Promised, Watching, AlarmOk;
  }

  lemma StaysDelivered(w: World, a: Step, n: nat, t: nat, due: int)
    requires Delivered(w, n, t, due)
    requires w.last <= w.clock && w.log <= Apply(w, a).log && w.s.mailbox <= Apply(w, a).s.mailbox
    ensures Delivered(Apply(w, a), n, t, due)
  {
    hide Apply;
  }

  lemma OthersLeave(w: World, a: Step, t: nat, due: int)
    requires Inv(w) && Ready(w, a) && Pending(w, t, due) && (a.Tick? || a.TimeSlice? || a.Dispatch?)
    ensures Pending(Apply(w, a), t, due)
  {
    SameTimers(w, a);
    hide Inv, Ready, Apply, Timers, Dues;
  }

  lemma SetLeaves(w: World, a: Step, t: nat, due: int)
    requires Inv(w) && Ready(w, a) && Pending(w, t, due) && a.Set?
    ensures Pending(Apply(w, a), t, due)
  {
    if a.delay <= 0 {
      AtOnceIs(w, a);
      hide Inv, Ready, Apply, Dues, Timers;
    } else {
      SetIs(w, a);
      hide Inv, Ready, Apply, Granted, Position, Ticks, Splice, Due, At;
      var q, dj := w.s.queue, Ticks(w.s, a.delay, a.clockSpeed, U32(w.clock));
      var g := Due(Granted(q, w.last, dj, ToleranceTicks(a.tolerance, a.clockSpeed)), w.last);
      SpliceAt(Timers(q), Dues(q, w.last), Position(q, dj), a.t, g, t, due);
    }
  }

  lemma AtOnceIs(w: World, a: Step)
    requires Inv(w) && Ready(w, a) && a.Set? && a.delay <= 0
    ensures var r := Apply(w, a);
      && r.s.mailbox == (if a.delay == 0 then w.s.mailbox + [a.t] else w.s.mailbox)
      && r.s.queue == w.s.queue && r.s.active == w.s.active && r.last == w.last && r.h == w.h
  {
    hide Deadlines, Timers, Insert, Granted, Position, U32, Alarm, Inv, Ticks, DelayTicks;
    assert w.s.active - {a.t} == w.s.active;
  }

  lemma CancelLeaves(w: World, a: Step, t: nat, due: int)
    requires Inv(w) && Ready(w, a) && Pending(w, t, due) && a.Cancel? && a.t != t
    ensures Pending(Apply(w, a), t, due)
  {
    CancelIs(w, a.t, a.lag);
    hide Cut, Inv, Ready, Apply, Index, At;
    if a.t in Timers(w.s.queue) { CutAt(Timers(w.s.queue), Dues(w.s.queue, w.last), Index(w.s.queue, a.t), t, due); }
  }

  /** A cancel takes a pending timer off the queue with its deadline and no other, and does
      nothing to one that is not pending. */
  lemma CancelIs(w: World, t: nat, lag: nat)
    requires Inv(w) && Ready(w, Cancel(t, lag))
    ensures var r, k := Apply(w, Cancel(t, lag)), Index(w.s.queue, t);
      && r.last == w.last && r.s.mailbox == w.s.mailbox
      && if t in Timers(w.s.queue) then
           && k < |w.s.queue| && Timers(w.s.queue)[k] == t
           && Timers(r.s.queue) == Cut(Timers(w.s.queue), k)
           && Dues(r.s.queue, r.last) == Cut(Dues(w.s.queue, w.last), k)
           && r.cancelled == w.cancelled + multiset{t}
           && (r.s.queue != [] ==> r.expire == Dues(r.s.queue, r.last)[0])
         else r.s.queue == w.s.queue && r.cancelled == w.cancelled && r.h == w.h
  {
    hide Deadlines, U32, Alarm, Promised, LogOk, Watching, Far, Remove, Cut, Index, Timers, AlarmOk, Due, Dues;
    var q, k, r := w.s.queue, Index(w.s.queue, t), Apply(w, Cancel(t, lag));
    if t in Timers(q) {
      TimerAt(q, t);
      RemoveMeaning(q, k, w.last);
      CutFacts(Timers(q), k);
      DuesCut(q, Remove(q, k), w.last, k);
      assert |Remove(q, k)| == |Timers(Remove(q, k))| < |q|;
      assert r.s.queue == Remove(q, k);
      if r.s.queue != [] { FirstDeadline(r.s.queue, w.last); }
    }
  }

  /** Of the first `m` or among the rest. */
  lemma SplitAt(timers: seq<nat>, dues: seq<int>, m: nat, t: nat, due: int) returns (i: nat)
    requires At(timers, dues, t, due) && m <= |timers|
    ensures i < |timers| && timers[i] == t && dues[i] == due && (m <= i ==> At(timers[m..], dues[m..], t, due))
  {
    i :| 0 <= i < |timers| && timers[i] == t && dues[i] == due;
    if m <= i { assert timers[m..][i - m] == t && dues[m..][i - m] == due; }
  }

  lemma IsrServes(w: World, lag: nat, n: nat, t: nat, due: int)
    requires Inv(w) && Ready(w, Isr(lag)) && Pending(w, t, due) && n <= |w.log| == |w.s.mailbox|
    ensures Fate(Apply(w, Isr(lag)), n, t, due)
  {
    IsrMoves(w, lag);
    IsrLogs(w, lag);
    hide Deadlines, Inv, Ready, Apply, Fired, Due, At, Far;
    var q, dues, m := Timers(w.s.queue), Dues(w.s.queue, w.last), Fired(w.s.queue, w.last, w.clock);
    var r := Apply(w, Isr(lag));
    hide Timers, Dues;
    var i := SplitAt(q, dues, m, t, due);
    if i < m {
      var k := |w.log| + i;
      assert r.s.mailbox[k] == q[..m][i];
      assert r.log[k].timer == t;
    }
  }

  lemma IsrLogs(w: World, lag: nat)
    requires Inv(w) && Ready(w, Isr(lag))
    ensures var r, m, due := Apply(w, Isr(lag)), Fired(w.s.queue, w.last, w.clock), Dues(w.s.queue, w.last);
      && |r.log| == |w.log| + m
      && forall i :: 0 <= i < m ==>
        var e := r.log[|w.log| + i]; e.timer == Timers(w.s.queue)[i] && e.due == due[i] && e.at == w.clock
  {
    IsrLog(w, lag);
    hide Inv, Ready, Apply, Deadlines, Due, Fired, Dues, TimerRuns.Delivered, Timers;
    var q, r, m := w.s.queue, Apply(w, Isr(lag)), Fired(w.s.queue, w.last, w.clock);
    var due := Dues(q, w.last);
    var d := TimerRuns.Delivered(q, due, m, w.asked, w.clock);
    forall i | 0 <= i < m
      ensures var e := r.log[|w.log| + i]; e.timer == Timers(q)[i] && e.due == due[i] && e.at == w.clock {
      assert r.log[|w.log| + i] == d[i];
    }
  }

  /** A timer set for so many ticks is from then on pending or delivered with one and the same
      deadline, which no other timer moves: that many ticks after it was set, or later by less
      than its tolerance. It is delivered after that deadline. */
  lemma SetTimerDue(start: nat, tr: seq<World>, steps: seq<Step>, i: nat, m: nat) returns (due: int)
    requires IsRun(start, tr, steps) && i < m < |tr| && steps[i].Set?
    requires var a := steps[i];
      0 < a.delay && a.delay * a.clockSpeed < TWO31 && 0 <= a.tolerance * a.clockSpeed < TWO31
    requires forall k :: i < k < m ==> !Concerns(steps[k], steps[i].t)
    ensures var a, asked := steps[i], tr[i].clock + steps[i].delay * steps[i].clockSpeed;
      asked <= due && (due == asked || due < asked + a.tolerance * a.clockSpeed)
    ensures forall j :: i < j <= m ==> Fate(tr[j], |tr[i].log|, steps[i].t, due)
  {
    RunInv(start, tr, steps, i);
    assert Goes(tr[i], steps[i], tr[i + 1]);
    due := SetPending(tr[i], steps[i]);
    GrantedDue(tr[i], steps[i], due);
    LogGrows(tr[i], steps[i]);
    hide Inv, Ready, Apply, Fate;
    FatesUpTo(start, tr, steps, i + 1, m, |tr[i].log|, steps[i].t, due);
  }

  /** Counts that do not fit in 32 bits wrap. Set without tolerance, a timer is due when it was
      asked for if and only if they fit, and else sooner. */
  lemma DelayKeptIff(start: nat, tr: seq<World>, steps: seq<Step>, i: nat) returns (due: int)
    requires IsRun(start, tr, steps) && i < |steps| && steps[i].Set? && steps[i].delay > 0 && steps[i].tolerance == 0
    ensures Pending(tr[i + 1], steps[i].t, due)
    ensures var asked := tr[i].clock + steps[i].delay * steps[i].clockSpeed;
      due <= asked && (due == asked <==> steps[i].delay * steps[i].clockSpeed < TWO32)
  {
    var w, a := tr[i], steps[i];
    RunInv(start, tr, steps, i);
    assert Goes(w, a, tr[i + 1]);
    due := SetPending(w, a);
    NoTolerance(a.clockSpeed);
    TicksAre(w, a.delay, a.clockSpeed);
    Fit(a.delay * a.clockSpeed);
    var dj := Ticks(w.s, a.delay, a.clockSpeed, U32(w.clock));
    GrantedWithinTolerance(w.s.queue, w.last, dj, 0);
    hide Pending, Deadlines, Granted, Ticks, ToleranceTicks, U32, S32, Inv, Apply;
  }

  lemma NoTolerance(speed: nat)
    ensures ToleranceTicks(0, speed) == 0
  {
    assert 0 * speed == 0;
  }

  lemma Fit(x: int)
    requires x >= 0
    ensures U32(x) <= x && (U32(x) == x <==> x < TWO32)
  {
  }

  lemma {:induction false} FatesUpTo(start: nat, tr: seq<World>, steps: seq<Step>, i: nat, m: nat, n: nat, t: nat,
      due: int)
    requires IsRun(start, tr, steps) && i <= m < |tr| && Fate(tr[i], n, t, due) && n <= |tr[i].log|
    requires forall k :: i <= k < m ==> !Concerns(steps[k], t)
    ensures n <= |tr[m].log| && forall j :: i <= j <= m ==> Fate(tr[j], n, t, due)
    decreases m
  {
    hide Inv, Ready, Apply, Fate, Concerns;
    if i < m {
      FatesUpTo(start, tr, steps, i, m - 1, n, t, due);
      RunInv(start, tr, steps, m - 1);
      assert Goes(tr[m - 1], steps[m - 1], tr[m]);
      FateStep(tr[m - 1], steps[m - 1], n, t, due);
    }
  }

  /** A timer set for no time is delivered at once, and one for less than that not at all. */
  lemma SetAtOnce(start: nat, tr: seq<World>, steps: seq<Step>, i: nat)
    requires IsRun(start, tr, steps) && i < |steps| && steps[i].Set? && steps[i].delay <= 0
    ensures var w, r := tr[i], tr[i + 1];
      && r.s.mailbox == (if steps[i].delay == 0 then w.s.mailbox + [steps[i].t] else w.s.mailbox)
      && r.s.queue == w.s.queue && r.s.active == w.s.active && r.last == w.last && r.h == w.h
  {
    RunInv(start, tr, steps, i);
    assert Goes(tr[i], steps[i], tr[i + 1]);
    AtOnceIs(tr[i], steps[i]);
  }

  // ---- cancelling ----

  ghost predicate Silent(w: World, t: nat, n: nat) { t !in Timers(w.s.queue) && multiset(w.s.mailbox)[t] == n }

  /** A timer that is cancelled while it is pending is not delivered unless it is set again. */
  lemma Cancelled(start: nat, tr: seq<World>, steps: seq<Step>, i: nat, j: nat)
    requires IsRun(start, tr, steps) && i < j < |tr| && steps[i].Cancel?
    requires forall k :: i < k < j ==> !Concerns(steps[k], steps[i].t)
    ensures steps[i].t !in Timers(tr[j].s.queue)
    ensures multiset(tr[j].s.mailbox)[steps[i].t] == multiset(tr[i].s.mailbox)[steps[i].t]
    ensures tr[i + 1].cancelled ==
      tr[i].cancelled + if steps[i].t in Timers(tr[i].s.queue) then multiset{steps[i].t} else multiset{}
  {
    RunInv(start, tr, steps, i);
    assert Goes(tr[i], steps[i], tr[i + 1]);
    CancelIs(tr[i], steps[i].t, steps[i].lag);
    CutAway(tr[i], steps[i].t);
    hide Inv, Ready, Apply, Silent, Timers;
    SilentUpTo(start, tr, steps, i + 1, j, steps[i].t, multiset(tr[i].s.mailbox)[steps[i].t]);
  }

  lemma CutAway(w: World, t: nat)
    requires Inv(w)
    ensures var q, k := w.s.queue, Index(w.s.queue, t); k < |q| && Timers(q)[k] == t ==> t !in Cut(Timers(q), k)
  {
    hide Deadlines, U32, Alarm, Promised, LogOk, Watching, Index, Timers, Cut;
    var q, k := w.s.queue, Index(w.s.queue, t);
    if k < |q| && Timers(q)[k] == t {
      CutFacts(Timers(q), k);
      forall x | 0 <= x < |q| - 1 ensures Cut(Timers(q), k)[x] != t {
        assert Timers(q)[if x < k then x else x + 1] != Timers(q)[k];
      }
    }
  }

  lemma {:induction false} SilentUpTo(start: nat, tr: seq<World>, steps: seq<Step>, i: nat, j: nat, t: nat, n: nat)
    requires IsRun(start, tr, steps) && i <= j < |tr| && Silent(tr[i], t, n)
    requires forall k :: i <= k < j ==> !Concerns(steps[k], t)
    ensures Silent(tr[j], t, n)
    decreases j
  {
    hide Inv, Ready, Apply, Silent, Concerns;
    if i < j {
      SilentUpTo(start, tr, steps, i, j - 1, t, n);
      RunInv(start, tr, steps, j - 1);
      assert Goes(tr[j - 1], steps[j - 1], tr[j]);
      SilentStep(tr[j - 1], steps[j - 1], t, n);
    }
  }

  lemma SilentStep(w: World, a: Step, t: nat, n: nat)
    requires Inv(w) && Ready(w, a) && Silent(w, t, n) && !Concerns(a, t)
    ensures Silent(Apply(w, a), t, n)
  {
    hide Inv, Ready, Apply, Timers;
    match a
    case Set(_, _, _, _, _) => SilentSet(w, a, t, n);
    case Cancel(u, lag) => SilentCancel(w, u, lag, t, n);
    case Isr(lag) => SilentIsr(w, lag, t, n);
    case _ => SameTimers(w, a);
  }

  lemma SameTimers(w: World, a: Step)
    requires Inv(w) && Ready(w, a) && (a.Tick? || a.TimeSlice? || a.Dispatch?)
    ensures Apply(w, a).s == w.s && Apply(w, a).last == w.last
  {
    hide Inv, Alarm, U32;
  }

  lemma SilentCancel(w: World, u: nat, lag: nat, t: nat, n: nat)
    requires Inv(w) && Ready(w, Cancel(u, lag)) && Silent(w, t, n)
    ensures Silent(Apply(w, Cancel(u, lag)), t, n)
  {
    CancelIs(w, u, lag);
    hide Inv, Ready, Apply, Timers, Cut, Index;
    var q, k := Timers(w.s.queue), Index(w.s.queue, u);
    if u in q {
      CutFacts(q, k);
      assert t in Cut(q, k) <==> t in multiset(Cut(q, k));
      assert t in q <==> t in multiset(q);
    }
  }

  lemma SilentIsr(w: World, lag: nat, t: nat, n: nat)
    requires Inv(w) && Ready(w, Isr(lag)) && Silent(w, t, n)
    ensures Silent(Apply(w, Isr(lag)), t, n)
  {
    IsrMoves(w, lag);
    hide Inv, Ready, Apply, Deadlines, Dues;
    var q, m := Timers(w.s.queue), Fired(w.s.queue, w.last, w.clock);
    hide Timers, Fired;
    Parts(q, m, t);
  }

  lemma Parts(q: seq<nat>, m: nat, t: nat)
    requires m <= |q| && t !in q
    ensures t !in q[m..] && multiset(q[..m])[t] == 0
  {
    assert t !in multiset(q[..m]);
  }

  lemma SilentSet(w: World, a: Step, t: nat, n: nat)
    requires Inv(w) && Ready(w, a) && Silent(w, t, n) && a.Set? && a.t != t
    ensures Silent(Apply(w, a), t, n)
  {
    if a.delay <= 0 {
      AtOnceIs(w, a);
      hide Inv, Ready, Apply, Timers;
    } else {
      SetIs(w, a);
      hide Inv, Ready, Apply, Deadlines, Timers, Granted, Position, Ticks, Splice;
      var q, dj, r := w.s.queue, Ticks(w.s, a.delay, a.clockSpeed, U32(w.clock)), Timers(Apply(w, a).s.queue);
      SpliceFacts(Timers(q), Position(q, dj), a.t);
      assert t in r <==> t in multiset(r);
      assert t in Timers(q) <==> t in multiset(Timers(q));
    }
  }

  // ---- time slices ----

  /** A slice length that was set, and no other since. */
  ghost predicate SliceSet(tr: seq<World>, steps: seq<Step>, i: nat, j: nat) {
    && i < j < |tr| == |steps| + 1 && steps[i].TimeSlice? && steps[i].ticks != 0
    && -TWO31 <= steps[i].ticks * steps[i].clockSpeed < TWO31
    && forall k :: i < k < j && steps[k].TimeSlice? ==> steps[k].ticks == 0
  }

  /** Slices are so many ticks long until another length is set. */
  lemma {:induction false} SliceLength(start: nat, tr: seq<World>, steps: seq<Step>, i: nat, j: nat)
    requires IsRun(start, tr, steps) && SliceSet(tr, steps, i, j)
    ensures tr[j].h.timeSlice == steps[i].ticks * steps[i].clockSpeed
    decreases j
  {
    hide Ready, Inv, Apply;
    RunInv(start, tr, steps, j - 1);
    assert Goes(tr[j - 1], steps[j - 1], tr[j]);
    SliceStep(tr[j - 1], steps[j - 1]);
    if i < j - 1 {
      SliceLength(start, tr, steps, i, j - 1);
    } else {
      Signed(steps[i].ticks * steps[i].clockSpeed);
    }
  }

  lemma Signed(x: int)
    requires -TWO31 <= x < TWO31
    ensures S32(x) == x
  {
  }

  lemma SliceStep(w: World, a: Step)
    requires Inv(w) && Ready(w, a)
    ensures var r := Apply(w, a);
      match a
      case TimeSlice(ticks, speed, _) =>
        && r.h.timeSlice == (if ticks == 0 then w.h.timeSlice else S32(ticks * speed))
        && (ticks != 0 ==> r.sliceAt == w.clock + r.h.timeSlice)
      case Dispatch(swap, _) =>
        && r.h.timeSlice == w.h.timeSlice
        && r.sliceAt == if swap && w.h.timeSlice > 0 then w.clock + w.h.timeSlice else w.sliceAt
      case Isr(_) => r.h.timeSlice == w.h.timeSlice
      case _ => r.h.timeSlice == w.h.timeSlice && r.sliceAt == w.sliceAt
  {
    hide Act, Alarm, U32, Soonest, S32, Inv, SliceOver;
    assert w.last <= w.clock by { LastIs(w); }
  }

  lemma LastIs(w: World)
    requires Inv(w)
    ensures w.last <= w.clock
  {
    hide Deadlines, Queued, Promised, LogOk, Watching, AlarmOk;
  }

  /** A task that is switched in has that many ticks from then until its slice is over, and so
      has the one that runs when the length is set. No timer call changes that. */
  lemma SliceBegins(start: nat, tr: seq<World>, steps: seq<Step>, i: nat, j: nat)
    requires IsRun(start, tr, steps) && SliceSet(tr, steps, i, j) && steps[i].ticks > 0
    ensures tr[i + 1].sliceAt == tr[i].clock + steps[i].ticks * steps[i].clockSpeed
    ensures j < |steps| && steps[j].Dispatch? && steps[i].clockSpeed > 0 ==>
      tr[j + 1].sliceAt == if steps[j].swap then tr[j].clock + steps[i].ticks * steps[i].clockSpeed else tr[j].sliceAt
    ensures j < |steps| && (steps[j].Tick? || steps[j].Set? || steps[j].Cancel?) ==> tr[j + 1].sliceAt == tr[j].sliceAt
  {
    hide Ready, Inv, Apply;
    SliceLength(start, tr, steps, i, j);
    RunInv(start, tr, steps, i);
    assert Goes(tr[i], steps[i], tr[i + 1]);
    SliceStep(tr[i], steps[i]);
    Signed(steps[i].ticks * steps[i].clockSpeed);
    if steps[i].clockSpeed > 0 { Positive(steps[i].ticks, steps[i].clockSpeed); }
    if j < |steps| {
      RunInv(start, tr, steps, j);
      assert Goes(tr[j], steps[j], tr[j + 1]);
      SliceStep(tr[j], steps[j]);
    }
  }

  lemma Positive(x: int, y: int)
    requires x > 0 && y > 0
    ensures x * y > 0
  {
  }

  // ---- the next expiry ----

  /** The register of the next expiry holds no less than it must: after an interrupt, or a
      cancel that leaves timers, exactly when the first is due; and after a set at the head of
      the queue, when that timer was asked for. */
  lemma ExpiryIs(start: nat, tr: seq<World>, steps: seq<Step>, i: nat)
    requires IsRun(start, tr, steps) && i < |steps|
    ensures var w, r, a := tr[i], tr[i + 1], steps[i];
      && (a.Isr? ==> r.expire == if r.s.queue != [] then Dues(r.s.queue, r.last)[0] else w.clock + INT32_MAX / 2)
      && (a.Cancel? && a.t in Timers(w.s.queue) && r.s.queue != [] ==> r.expire == Dues(r.s.queue, r.last)[0])
      && (a.Set? && a.delay > 0 && a.delay * a.clockSpeed < TWO31 ==>
            if Timers(r.s.queue)[..1] == [a.t] then r.expire == w.clock + a.delay * a.clockSpeed
            else r.expire == w.expire)
  {
    RunInv(start, tr, steps, i);
    var w, r, a := tr[i], tr[i + 1], steps[i];
    assert Goes(w, a, r);
    hide Inv, Ready, Apply, Dues, Timers;
    match a
    case Set(_, _, _, _, _) => if a.delay > 0 && a.delay * a.clockSpeed < TWO31 { HeadSet(w, a); }
    case Cancel(t, lag) => CancelIs(w, t, lag);
    case Isr(lag) => IsrExpiry(w, lag);
    case _ =>
  }

  lemma IsrExpiry(w: World, lag: nat)
    requires Inv(w) && Ready(w, Isr(lag))
    ensures var r := Apply(w, Isr(lag));
      r.expire == if r.s.queue != [] then Dues(r.s.queue, r.last)[0] else w.clock + INT32_MAX / 2
  {
    IsrMoves(w, lag);
    ActExpires(w, Isr(lag));
    hide Inv, Ready, Apply, Deadlines, Interrupt, U32, Due, Fired, TimerRuns.Delivered;
    var r, m, due := Apply(w, Isr(lag)), Fired(w.s.queue, w.last, w.clock), Dues(w.s.queue, w.last);
    assert |r.s.queue| == |Dues(r.s.queue, r.last)| == |due| - m;
  }

  lemma ActExpires(w: World, a: Step)
    requires Inv(w)
    ensures w.last <= w.clock && Apply(w, a).expire == Act(w, a).expire
  {
    hide Act, Slice, Alarm, U32, Soonest, Deadlines, Queued, Promised, LogOk, Watching, AlarmOk;
  }

  lemma HeadSet(w: World, a: Step)
    requires Inv(w) && Ready(w, a) && a.Set? && a.delay > 0 && a.delay * a.clockSpeed < TWO31
    ensures var r := Apply(w, a);
      if Timers(r.s.queue)[..1] == [a.t] then r.expire == w.clock + a.delay * a.clockSpeed else r.expire == w.expire
  {
    SetIs(w, a);
    ActExpires(w, a);
    Products(a.delay, 0, a.clockSpeed);
    NotPending(w, a.t);
    hide Inv, Ready, Apply, Dues, Timers, Granted, Position, Ticks, Insert, Rash, Due, U32, Splice;
    var q, p := Timers(w.s.queue), Position(w.s.queue, Ticks(w.s, a.delay, a.clockSpeed, U32(w.clock)));
    SpliceFacts(q, p, a.t);
    if p > 0 { assert Splice(q, p, a.t)[0] == q[0] != a.t; }
  }

  lemma NotPending(w: World, t: nat)
    requires Inv(w) && t !in w.s.active
    ensures t !in Timers(w.s.queue)
  {
    hide Deadlines, Promised, LogOk, Watching, AlarmOk;
  }
}
