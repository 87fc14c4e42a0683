/** Timers set between a wrap of the counter and the next interrupt: when all are still served
    in order, and what becomes of them when they are not. */
module TimerOrder {
  import opened Sequences
  import opened TimerQueue
  import opened TimerRuns

  /** A timer is set across a wrap while one set in time is due later; or set in time while
      one set across a wrap is due earlier. */
  predicate Disorders(w: World, a: Step) {
    match a
    case Set(_, delay, tolerance, speed, _) =>
      var q, dj := w.s.queue, Ticks(w.s, delay, speed, U32(w.clock));
      var g := Granted(q, w.last, dj, ToleranceTicks(tolerance, speed));
      delay > 0 && Crosses(q, w.last, g)
    case _ => false
  }

  predicate Crosses(q: seq<Entry>, last: int, g: int) {
    exists i :: 0 <= i < |q| && Far(Deadlines(q, last)[i], last) != Far(g, last)
      && if Far(g, last) then Due(g, last) < Dues(q, last)[i] else Dues(q, last)[i] < Due(g, last)
  }

  lemma StepOrder(w: World, a: Step)
    requires Inv(w) && Ready(w, a) && Ordered(Dues(w.s.queue, w.last))
    ensures var r := Apply(w, a); Ordered(Dues(r.s.queue, r.last)) <==> !Disorders(w, a)
  {
    hide Deadlines, Timers, Insert, Granted, Position, U32, Alarm, Queued, Promised, LogOk, Watching, Unstarved, Rash,
      Delivered, Slice, Crosses, Interrupt, Remove;
    match a
    case Set(t, delay, tolerance, speed, _) => if delay > 0 { SetOrder(w, a); }
    case Cancel(t, lag) => CancelOrder(w, t, lag);
    case Isr(lag) => IsrMoves(w, lag);
    case _ =>
  }

  lemma SetOrder(w: World, a: Step)
    requires Inv(w) && Ready(w, a) && Ordered(Dues(w.s.queue, w.last)) && a.Set? && a.delay > 0
    ensures var r := Apply(w, a); Ordered(Dues(r.s.queue, r.last)) <==> !Disorders(w, a)
  {
    hide Deadlines, Timers, Insert, Granted, Position, U32, Alarm, Queued, Promised, LogOk, Watching, Unstarved, Rash,
      Slice, Crosses, Ticks, Splice;
    var q, dj := w.s.queue, Ticks(w.s, a.delay, a.clockSpeed, U32(w.clock));
    var tol := ToleranceTicks(a.tolerance, a.clockSpeed);
    InsertMeaning(q, a.t, dj, tol, w.last);
    SplicedOrder(q, Insert(q, a.t, dj, tol), w.last, dj, tol);
    assert Apply(w, a).s.queue == Insert(q, a.t, dj, tol) && Apply(w, a).last == w.last;
  }

  /** Insertion keeps deadlines in order unless it is behind a later one or before an earlier. */
  lemma SplicedOrder(q: seq<Entry>, r: seq<Entry>, last: int, dj: nat, tol: nat)
    requires Ordered(Dues(q, last))
    requires var p, g := Position(q, dj), Granted(q, last, dj, tol);
      Deadlines(r, last) == Splice(Deadlines(q, last), p, g)
    ensures Ordered(Dues(r, last)) <==> !Crosses(q, last, Granted(q, last, dj, tol))
  {
    hide Deadlines, Granted, Position, Splice, Crosses, Ordered, Due;
    var p, g, d, due, e := Position(q, dj), Granted(q, last, dj, tol), Deadlines(q, last), Dues(q, last), Dues(r, last);
    SpliceFacts(d, p, g);
    assert |r| == |Deadlines(r, last)|;
    assert e[p] == Due(g, last);
    assert forall i :: 0 <= i < p ==> e[i] == due[i];
    assert forall i :: p < i <= |q| ==> e[i] == due[i - 1];
    OrderedSplice(due, e, p, Due(g, last));
    CrossesWhere(q, last, dj, tol);
  }

  /** Near deadlines stand before far ones. */
  lemma CrossesWhere(q: seq<Entry>, last: int, dj: nat, tol: nat)
    ensures var p, g, due := Position(q, dj), Granted(q, last, dj, tol), Dues(q, last);
      Crosses(q, last, g) <==> !((forall i :: 0 <= i < p ==> due[i] <= Due(g, last))
                                 && forall i :: p <= i < |q| ==> Due(g, last) <= due[i])
  {
    var p, g, d, due := Position(q, dj), Granted(q, last, dj, tol), Deadlines(q, last), Dues(q, last);
    PositionMeaning(q, dj, last);
    GrantedWithinTolerance(q, last, dj, tol);
    InOrder(q, last);
    forall i | p <= i < |q| ensures g <= d[i] { assert d[p] <= d[i]; }
    hide Deadlines, Granted, Position;
    if Crosses(q, last, g) {
      var i :| 0 <= i < |q| && Far(d[i], last) != Far(g, last)
        && if Far(g, last) then Due(g, last) < due[i] else due[i] < Due(g, last);
      assert i < p <==> Far(g, last);
    }
  }

  lemma OrderedSplice(s: seq<int>, e: seq<int>, p: nat, x: int)
    requires Ordered(s) && p <= |s| && |e| == |s| + 1 && e[p] == x
    requires (forall i :: 0 <= i < p ==> e[i] == s[i]) && forall i :: p < i <= |s| ==> e[i] == s[i - 1]
    ensures Ordered(e) <==> (forall i :: 0 <= i < p ==> s[i] <= x) && forall i :: p <= i < |s| ==> x <= s[i]
  {
    if Ordered(e) {
      forall i | p <= i < |s| ensures x <= s[i] { assert e[p] <= e[i + 1]; }
    }
  }

  lemma CancelOrder(w: World, t: nat, lag: nat)
    requires Inv(w) && Ordered(Dues(w.s.queue, w.last))
    ensures var r := Apply(w, Cancel(t, lag)); Ordered(Dues(r.s.queue, r.last))
  {
    hide Deadlines, Timers, U32, Alarm, Queued, Promised, LogOk, Watching, Far, Remove, Cut, Index;
    var q, k := w.s.queue, Index(w.s.queue, t);
    if t in w.s.active && k < |q| {
      RemoveMeaning(q, k, w.last);
      CutFacts(Deadlines(q, w.last), k);
      var r := Apply(w, Cancel(t, lag));
      assert r.s.queue == Remove(q, k) && |r.s.queue| == |Deadlines(r.s.queue, w.last)|;
      forall i | 0 <= i < |r.s.queue|
        ensures Dues(r.s.queue, w.last)[i] == Dues(q, w.last)[if i < k then i else i + 1] {}
    }
  }

  /** In any run the timers stand in the order of their deadlines at every moment if and only
      if no step breaks it. Then no timer is ever blocked, and the alarm covers them all. */
  lemma OrderedIff(start: nat, tr: seq<World>, steps: seq<Step>)
    requires IsRun(start, tr, steps)
    ensures (forall i :: 0 <= i < |tr| ==> Ordered(Dues(tr[i].s.queue, tr[i].last)))
      <==> forall i :: 0 <= i < |steps| ==> !Disorders(tr[i], steps[i])
  {
    hide Ordered, Disorders, Ready, Apply, Dues;
    if forall i :: 0 <= i < |tr| ==> Ordered(Dues(tr[i].s.queue, tr[i].last)) {
      forall i | 0 <= i < |steps| ensures !Disorders(tr[i], steps[i]) { RunOrder(start, tr, steps, i); }
    }
    if forall i :: 0 <= i < |steps| ==> !Disorders(tr[i], steps[i]) {
      forall i | 0 <= i < |tr| ensures Ordered(Dues(tr[i].s.queue, tr[i].last)) { OrderedUpTo(start, tr, steps, i); }
    }
  }

  lemma RunOrder(start: nat, tr: seq<World>, steps: seq<Step>, i: nat)
    requires IsRun(start, tr, steps) && i < |steps| && Ordered(Dues(tr[i].s.queue, tr[i].last))
    ensures Ordered(Dues(tr[i + 1].s.queue, tr[i + 1].last)) <==> !Disorders(tr[i], steps[i])
  {
    hide Ordered, Disorders, Ready, Apply, Dues, Inv;
    RunInv(start, tr, steps, i);
    assert Goes(tr[i], steps[i], tr[i + 1]);
    StepOrder(tr[i], steps[i]);
  }

  lemma {:induction false} OrderedUpTo(start: nat, tr: seq<World>, steps: seq<Step>, i: nat)
    requires IsRun(start, tr, steps) && i < |tr| && forall k :: 0 <= k < i ==> !Disorders(tr[k], steps[k])
    ensures Ordered(Dues(tr[i].s.queue, tr[i].last))
  {
    if i > 0 {
      hide Ordered, Disorders, Ready, Apply, Dues;
      OrderedUpTo(start, tr, steps, i - 1);
      RunOrder(start, tr, steps, i - 1);
    }
  }

  // ---- promises ----

  /** Every timer pending or delivered is due when it was asked for or within its tolerance
      after. */
  ghost predicate AllKept(w: World) {
    && (forall i :: 0 <= i < |w.s.queue| ==> Kept(AskOf(w.asked, Timers(w.s.queue)[i]), Dues(w.s.queue, w.last)[i]))
    && forall i :: 0 <= i < |w.log| ==> Kept(w.log[i].ask, w.log[i].due)
  }

  predicate Breaks(w: World, a: Step) { a.Set? && a.delay > 0 && Rash(w, a.delay, a.tolerance, a.clockSpeed) }

  lemma PromisesKept(w: World)
    requires Inv(w) && !w.rash
    ensures AllKept(w)
  {
    hide Kept, Watching, Queued, U32;
    forall i | 0 <= i < |w.s.queue| ensures Kept(AskOf(w.asked, Timers(w.s.queue)[i]), Dues(w.s.queue, w.last)[i]) {
      assert PromiseOk(AskOf(w.asked, Timers(w.s.queue)[i]), Deadlines(w.s.queue, w.last)[i], w.last, w.rash);
    }
  }

  /** A timer made to wait for one that is due sooner is due too soon itself. */
  lemma BreaksOne(w: World, a: Step)
    requires Inv(w) && Ready(w, a) && Breaks(w, a)
    ensures !AllKept(Apply(w, a))
  {
    hide Deadlines, Timers, Insert, Granted, Position, U32, Alarm, Queued, Promised, LogOk, Watching, Unstarved, Slice,
      Ticks, Splice, DelayTicks, Due, Far, ToleranceTicks;
    var q, dj := w.s.queue, Ticks(w.s, a.delay, a.clockSpeed, U32(w.clock));
    var p, r := Position(q, dj), Apply(w, a);
    InsertMeaning(q, a.t, dj, ToleranceTicks(a.tolerance, a.clockSpeed), w.last);
    SpliceFacts(Timers(q), p, a.t);
    SpliceFacts(Deadlines(q, w.last), p, Granted(q, w.last, dj, ToleranceTicks(a.tolerance, a.clockSpeed)));
    assert r.s.queue == Insert(q, a.t, dj, ToleranceTicks(a.tolerance, a.clockSpeed)) && r.last == w.last;
    assert |r.s.queue| == |Timers(r.s.queue)|;
    assert Timers(r.s.queue)[p] == a.t && AskOf(r.asked, a.t).due == w.clock + DelayTicks(a.delay, a.clockSpeed);
    assert !Kept(AskOf(r.asked, Timers(r.s.queue)[p]), Dues(r.s.queue, r.last)[p]);
  }

  lemma RashGrows(w: World, a: Step)
    requires w.last <= w.clock
    ensures Apply(w, a).rash <==> w.rash || Breaks(w, a)
  {
    hide Deadlines, Timers, Insert, Granted, Position, U32, Alarm, Slice, Ticks, DelayTicks, Rash, SetSoftTimer,
      CancelTimer, Interrupt, Delivered, Fired;
  }

  /** In any run every promise is kept at every moment if and only if no timer is ever made to
      wait for one that is due sooner. */
  lemma PromisesIff(start: nat, tr: seq<World>, steps: seq<Step>)
    requires IsRun(start, tr, steps)
    ensures (forall i :: 0 <= i < |tr| ==> AllKept(tr[i]))
      <==> forall i :: 0 <= i < |steps| ==> !Breaks(tr[i], steps[i])
  {
    hide AllKept, Breaks, Ready, Apply, Inv;
    if forall i :: 0 <= i < |tr| ==> AllKept(tr[i]) {
      forall i | 0 <= i < |steps| ensures !Breaks(tr[i], steps[i]) {
        RunInv(start, tr, steps, i);
        assert Goes(tr[i], steps[i], tr[i + 1]) && AllKept(tr[i + 1]);
        if Breaks(tr[i], steps[i]) { BreaksOne(tr[i], steps[i]); }
      }
    }
    if forall i :: 0 <= i < |steps| ==> !Breaks(tr[i], steps[i]) {
      forall i | 0 <= i < |tr| ensures AllKept(tr[i]) {
        RunInv(start, tr, steps, i);
        NotRash(start, tr, steps, i);
        PromisesKept(tr[i]);
      }
    }
  }

  lemma {:induction false} NotRash(start: nat, tr: seq<World>, steps: seq<Step>, i: nat)
    requires IsRun(start, tr, steps) && i < |tr| && forall k :: 0 <= k < i ==> !Breaks(tr[k], steps[k])
    ensures !tr[i].rash
  {
    if i > 0 {
      hide Breaks, Ready, Apply;
      NotRash(start, tr, steps, i - 1);
      assert Goes(tr[i - 1], steps[i - 1], tr[i]);
      RashGrows(tr[i - 1], steps[i - 1]);
    }
  }

  // ---- when every timer is set in time ----

  predicate Across(w: World, a: Step) { a.Set? && a.delay > 0 && U32(w.clock) < w.s.lastTimer }

  ghost predicate AllNear(w: World) {
    w.last <= w.expire && forall i :: 0 <= i < |w.s.queue| ==> !Far(Deadlines(w.s.queue, w.last)[i], w.last)
  }

  lemma NearOrder(w: World)
    requires AllNear(w)
    ensures Dues(w.s.queue, w.last) == Deadlines(w.s.queue, w.last) && Ordered(Dues(w.s.queue, w.last))
  {
    InOrder(w.s.queue, w.last);
  }

  /** Then nothing can be starved: steps wait for no more than interrupts that come in time. */
  lemma NearPrompt(w: World, lag: nat)
    requires AllNear(w)
    ensures Unstarved(w, lag) && (Prompt(w, lag) <==> w.clock + lag - w.last < TWO31)
  {
  }

  lemma NearSet(w: World, a: Step)
    requires Inv(w) && Ready(w, a) && AllNear(w) && !Across(w, a) && a.Set? && a.delay > 0
    ensures AllNear(Apply(w, a)) && !Breaks(w, a)
  {
    hide Deadlines, Timers, Insert, Position, U32, Alarm, Queued, Promised, LogOk, Watching, Unstarved, Slice, Ticks,
      Splice, DelayTicks, ToleranceTicks;
    var q, dj := w.s.queue, Ticks(w.s, a.delay, a.clockSpeed, U32(w.clock));
    var tol := ToleranceTicks(a.tolerance, a.clockSpeed);
    TicksAre(w, a.delay, a.clockSpeed);
    InsertMeaning(q, a.t, dj, tol, w.last);
    SpliceFacts(Deadlines(q, w.last), Position(q, dj), Granted(q, w.last, dj, tol));
    var r := Apply(w, a);
    assert r.s.queue == Insert(q, a.t, dj, tol) && r.last == w.last && |r.s.queue| == |Deadlines(r.s.queue, w.last)|;
    NearGranted(q, w.last, dj, tol);
    hide Far, Granted;
    forall i | 0 <= i < |r.s.queue| ensures !Far(Deadlines(r.s.queue, w.last)[i], w.last) {
      var p := Position(q, dj);
      if i != p {
        assert Deadlines(r.s.queue, w.last)[i] == Deadlines(q, w.last)[if i < p then i else i - 1];
      }
    }
  }

  lemma NearGranted(q: seq<Entry>, last: int, dj: nat, tol: nat)
    requires dj < TWO31 && forall i :: 0 <= i < |q| ==> !Far(Deadlines(q, last)[i], last)
    ensures !Far(Granted(q, last, dj, tol), last)
  {
    hide Deadlines, Position;
  }

  lemma NearStep(w: World, a: Step)
    requires Inv(w) && Ready(w, a) && AllNear(w) && !Across(w, a)
    ensures AllNear(Apply(w, a)) && !Breaks(w, a)
  {
    hide Deadlines, Timers, U32, Alarm, Queued, Promised, LogOk, Watching, Unstarved, Rash, Delivered, Slice, Ticks,
      Position;
    match a
    case Set(_, delay, _, _, _) => if delay > 0 { NearSet(w, a); }
    case Cancel(t, lag) => NearCancel(w, t, lag);
    case Isr(lag) => NearIsr(w, lag);
    case _ =>
  }

  lemma NearCancel(w: World, t: nat, lag: nat)
    requires Inv(w) && AllNear(w)
    ensures AllNear(Apply(w, Cancel(t, lag)))
  {
    hide Deadlines, Timers, U32, Alarm, Queued, Promised, LogOk, Watching, Far, Remove, Cut, Index;
    var q, k := w.s.queue, Index(w.s.queue, t);
    if t in w.s.active && k < |q| {
      RemoveMeaning(q, k, w.last);
      CutFacts(Deadlines(q, w.last), k);
      var r := Apply(w, Cancel(t, lag));
      assert r.s.queue == Remove(q, k) && |r.s.queue| == |Deadlines(r.s.queue, w.last)|;
      forall i | 0 <= i < |r.s.queue| ensures !Far(Deadlines(r.s.queue, w.last)[i], w.last) {
        assert Deadlines(r.s.queue, w.last)[i] == Deadlines(q, w.last)[if i < k then i else i + 1];
      }
      if r.s.queue != [] { FirstDeadline(r.s.queue, w.last); }
    }
  }

  lemma NearIsr(w: World, lag: nat)
    requires Inv(w) && Ready(w, Isr(lag)) && AllNear(w)
    ensures AllNear(Apply(w, Isr(lag)))
  {
    hide Deadlines, Timers, Fired, Rebased, Interrupt, U32, Queued, Promised, LogOk, Watching, Far, Due, Unstarved,
      Alarm, Delivered, SliceOver;
    var n, r := Fired(w.s.queue, w.last, w.clock), Apply(w, Isr(lag));
    IsrMoves(w, lag);
    IsrFires(w, lag);
    assert |r.s.queue| == |Deadlines(r.s.queue, w.clock)|;
    forall i | 0 <= i < |r.s.queue| ensures !Far(Deadlines(r.s.queue, w.clock)[i], w.clock) {
      assert Deadlines(r.s.queue, w.clock)[i] == Deadlines(w.s.queue, w.last)[i + n];
    }
  }

  /** In a run in which no timer is set across a wrap the deadlines that stand in the queue are
      the true ones, in order, and no promise is broken. */
  lemma {:induction false} InTime(start: nat, tr: seq<World>, steps: seq<Step>, i: nat)
    requires IsRun(start, tr, steps) && i < |tr| && forall k :: 0 <= k < i ==> !Across(tr[k], steps[k])
    ensures AllNear(tr[i]) && !tr[i].rash
    ensures var due := Dues(tr[i].s.queue, tr[i].last); due == Deadlines(tr[i].s.queue, tr[i].last) && Ordered(due)
  {
    if i > 0 {
      hide AllNear, Across, Breaks, Ready, Apply, Inv, Ordered, Dues;
      InTime(start, tr, steps, i - 1);
      RunInv(start, tr, steps, i - 1);
      assert Goes(tr[i - 1], steps[i - 1], tr[i]);
      NearStep(tr[i - 1], steps[i - 1]);
      RashGrows(tr[i - 1], steps[i - 1]);
    }
    NearOrder(tr[i]);
  }

  // ---- runs ----

  lemma SetAlone(w: World, t: nat, delay: nat) returns (r: World)
    requires Inv(w) && w.s.queue == [] && !w.rash && Ready(w, Set(t, delay, 0, 1, 0)) && 0 < delay < TWO31
    ensures Goes(w, Set(t, delay, 0, 1, 0), r) && Inv(r) && !r.rash
    ensures var g := w.clock + delay + if U32(w.clock) < w.s.lastTimer then FAR else 0;
      && Deadlines(r.s.queue, r.last) == [g] && Timers(r.s.queue) == [t] && r.s.active == w.s.active + {t}
      && r.clock == w.clock && r.last == w.last && r.s.mailbox == w.s.mailbox && r.log == w.log
      && r.expire == w.clock + delay && r.asked == w.asked[t := Ask(w.clock + delay, 0)]
      && r.alarmAt == Soonest(w.clock + delay, w.h.timeSlice > 0, w.sliceAt, w.clock) && r.h.timeSlice == w.h.timeSlice
  {
    hide Alarm, Watching, Queued, LogOk, Promised, U32, U64, S32, Soonest;
    r := Apply(w, Set(t, delay, 0, 1, 0));
    StepInv(w, Set(t, delay, 0, 1, 0));
    Unit(delay);
    TicksAre(w, delay, 1);
    InsertMeaning([], t, Ticks(w.s, delay, 1, U32(w.clock)), 0, w.last);
  }

  lemma Unit(delay: nat)
    requires delay < TWO31
    ensures DelayTicks(delay, 1) == delay && ToleranceTicks(0, 1) == 0
  {
  }

  /** A timer set across a wrap goes behind one set in time, however late that one is due. */
  lemma SetAcross(w: World, t: nat, delay: nat, u: nat, due: nat) returns (r: World)
    requires Inv(w) && !w.rash && Ready(w, Set(t, delay, 0, 1, 0)) && 0 < delay < TWO31 && U32(w.clock) < w.s.lastTimer
    requires Timers(w.s.queue) == [u] && Deadlines(w.s.queue, w.last) == [due] && due < w.last + TWO31
    ensures Goes(w, Set(t, delay, 0, 1, 0), r) && Inv(r) && !r.rash
    ensures Timers(r.s.queue) == [u, t] && Deadlines(r.s.queue, r.last) == [due, w.clock + delay + FAR]
    ensures r.clock == w.clock && r.last == w.last && r.s.mailbox == w.s.mailbox && r.log == w.log
    ensures r.alarmAt == w.alarmAt && r.expire == w.expire && r.asked == w.asked[t := Ask(w.clock + delay, 0)]
  {
    hide Deadlines, Timers, Alarm, Inv, U32, U64, S32, Soonest, Insert, Granted, Ticks, Position, Splice, Rash,
      Prompt, Due;
    var dj := Ticks(w.s, delay, 1, U32(w.clock));
    Unit(delay);
    LastTimerIs(w);
    TicksAre(w, delay, 1);
    Behind(w.s.queue, w.last, t, dj, u, due);
    RashIs(w, delay, 0, 1);
    StepInv(w, Set(t, delay, 0, 1, 0));
    r := Apply(w, Set(t, delay, 0, 1, 0));
    assert r.s.queue == Insert(w.s.queue, t, dj, 0);
    RashNot(w, delay, 1, dj);
  }

  lemma LastTimerIs(w: World)
    requires Inv(w)
    ensures w.s.lastTimer == U32(w.last) && w.last <= w.clock
  {
  }

  lemma RashNot(w: World, delay: int, speed: nat, dj: nat)
    requires dj == Ticks(w.s, delay, speed, U32(w.clock)) && Far(w.last + dj, w.last)
    ensures forall tolerance :: !Rash(w, delay, tolerance, speed)
  {
  }

  lemma Behind(q: seq<Entry>, last: int, t: nat, dj: nat, u: nat, due: int)
    requires Timers(q) == [u] && Deadlines(q, last) == [due] && due < last + dj
    ensures Position(q, dj) == 1 && Timers(Insert(q, t, dj, 0)) == [u, t]
    ensures Deadlines(Insert(q, t, dj, 0), last) == [due, last + dj]
  {
    hide Insert, Granted, Timers;
    assert |q| == |Timers(q)| == 1;
    PositionMeaning(q, dj, last);
    InsertMeaning(q, t, dj, 0, last);
    assert Deadlines(q, last)[0] == due;
    AtEnd(q, last, dj, 0);
    assert Splice([u], 1, t) == [u, t] && Splice([due], 1, last + dj) == [due, last + dj];
  }

  lemma AtEnd(q: seq<Entry>, last: int, dj: nat, tol: nat)
    requires Position(q, dj) == |q|
    ensures Granted(q, last, dj, tol) == last + dj
  {
  }

  lemma Wait(w: World, n: nat) returns (r: World)
    requires Inv(w)
    ensures Goes(w, Tick(n), r) && r == w.(clock := w.clock + n) && Inv(r)
  {
    hide Deadlines, Timers, Queued, Promised, LogOk, Watching, U32;
    StepInv(w, Tick(n));
    r := Apply(w, Tick(n));
  }

  /** An interrupt that finds none or all of the timers due. */
  lemma ServeNone(w: World) returns (r: World)
    requires Inv(w) && Ready(w, Isr(0)) && w.s.queue != [] && w.clock <= Dues(w.s.queue, w.last)[0]
    ensures Goes(w, Isr(0), r) && Inv(r) && r.s.mailbox == w.s.mailbox && r.clock == r.last == w.clock
    ensures Timers(r.s.queue) == Timers(w.s.queue) && Dues(r.s.queue, r.last) == Dues(w.s.queue, w.last)
    ensures Deadlines(r.s.queue, r.last) == Deadlines(w.s.queue, w.last)
    ensures r.log == w.log && r.asked == w.asked && r.rash == w.rash && r.s.active == w.s.active
    ensures r.expire == Dues(w.s.queue, w.last)[0]
  {
    r := Apply(w, Isr(0));
    StepInv(w, Isr(0));
    IsrMoves(w, 0);
    hide Deadlines, Timers, Queued, Promised, LogOk, Watching, U32, Alarm, Rebased, Due;
    assert Fired(w.s.queue, w.last, w.clock) == 0;
    assert Dues(w.s.queue, w.last)[0..] == Dues(w.s.queue, w.last);
    assert Deadlines(w.s.queue, w.last)[0..] == Deadlines(w.s.queue, w.last);
    assert w.log + [] == w.log;
    assert Timers(w.s.queue)[..0] == [];
  }

  lemma ServeAll(w: World) returns (r: World)
    requires Inv(w) && Ready(w, Isr(0)) && forall i :: 0 <= i < |w.s.queue| ==> Dues(w.s.queue, w.last)[i] < w.clock
    ensures Goes(w, Isr(0), r) && r.s.mailbox == w.s.mailbox + Timers(w.s.queue) && r.rash == w.rash
    ensures |r.log| == |w.log| + |w.s.queue|
    ensures forall i :: 0 <= i < |w.s.queue| ==>
      var t := Timers(w.s.queue)[i];
      r.log[|w.log| + i] == Delivery(t, AskOf(w.asked, t), Dues(w.s.queue, w.last)[i], w.clock)
  {
    r := Apply(w, Isr(0));
    IsrMoves(w, 0);
    IsrLog(w, 0);
    hide Inv, Ready, Apply, Deadlines, Fired, Dues, Due;
    var q := w.s.queue;
    assert Fired(q, w.last, w.clock) == |q|;
    assert Timers(q)[..|q|] == Timers(q);
  }

  lemma ActLogs(w: World, a: Step)
    requires Inv(w)
    ensures w.last <= w.clock && Apply(w, a).log == Act(w, a).log && Apply(w, a).s == Act(w, a).s
    ensures Apply(w, a).rash == Act(w, a).rash
  {
    hide Act, Slice, Alarm, U32, Soonest, Deadlines, Queued, Promised, LogOk, Watching, AlarmOk;
  }

  /** What an interrupt delivers, it logs. */
  lemma IsrLog(w: World, lag: nat)
    requires Inv(w)
    ensures var r, m, due := Apply(w, Isr(lag)), Fired(w.s.queue, w.last, w.clock), Dues(w.s.queue, w.last);
      r.log == w.log + Delivered(w.s.queue, due, m, w.asked, w.clock) && r.rash == w.rash
  {
    ActLogs(w, Isr(lag));
    hide Inv, Apply, Deadlines, Interrupt, U32, Due, Fired, Dues, Delivered;
  }

  lemma SetReady(w: World, t: nat, delay: nat, tolerance: int)
    requires t !in w.s.active && 0 <= w.clock - w.last && w.clock - w.last + delay < TWO31 && w.clock - w.expire < TWO31
    requires forall i :: 0 <= i < |w.s.queue| ==> w.clock - Dues(w.s.queue, w.last)[i] < TWO31
    ensures Ready(w, Set(t, delay, tolerance, 1, 0))
  {
    Unit(delay);
  }

  lemma IsrReady(w: World)
    requires w.clock - w.last < TWO31
    requires forall i :: 0 <= i < |w.s.queue| ==> w.clock - Dues(w.s.queue, w.last)[i] < TWO31
    ensures Ready(w, Isr(0))
  {
  }

  /** The words of clock readings around the first wrap. */
  lemma Word(x: nat)
    requires x < 2 * TWO32
    ensures U32(x) == if x < TWO32 then x else x - TWO32
  {
  }

  lemma DuesOf(q: seq<Entry>, last: int, d: seq<int>)
    requires Deadlines(q, last) == d
    ensures |q| == |d| && forall i :: 0 <= i < |q| ==> Dues(q, last)[i] == Due(d[i], last)
  {
    assert |q| == |Deadlines(q, last)|;
  }

  /** A timer is set for 1000 ticks just after the counter wraps, with no tolerance, while one
      set before the wrap is due later. It is put behind that one; the alarm is not set for
      it, an interrupt that comes after it is due leaves it, and it is delivered 1851 late. */
  lemma LateAcrossWrap() returns (tr: seq<World>, steps: seq<Step>)
    ensures var start := 0xffff_ff9c;
      && IsRun(start, tr, steps) && |steps| == 7 && !tr[7].rash
      && steps[2] == Set(8, 1000, 0, 1, 0) && tr[3].asked == tr[2].asked[8 := Ask(start + 1150, 0)]
      && tr[3].alarmAt == start + 3000
      && steps[4].Isr? && tr[4].clock == start + 1151 && tr[5].s.mailbox == []
      && tr[7].s.mailbox == [7, 8] && |tr[7].log| == 2
      && tr[7].log[1] == Delivery(8, Ask(start + 1150, 0), start + 1150, start + 3001)
  {
    hide Apply, Ready, Inv, Deadlines, Timers, U32;
    var start := 0xffff_ff9c;
    Word(start);
    Word(start + 150);
    var a := Started(start);
    SetReady(a, 7, 3000, 0);
    var b := SetAlone(a, 7, 3000);
    var c := Wait(b, 150);
    DuesOf(c.s.queue, start, [start + 3000]);
    LastTimerIs(c);
    SetReady(c, 8, 1000, 0);
    var d := SetAcross(c, 8, 1000, 7, start + 3000);
    var e := Wait(d, 1001);
    DuesOf(e.s.queue, start, [start + 3000, start + 1150 + FAR]);
    IsrReady(e);
    var f := ServeNone(e);
    var g := Wait(f, 1850);
    IsrReady(g);
    var h := ServeAll(g);
    assert Timers(g.s.queue)[1] == 8;
    steps := [Set(7, 3000, 0, 1, 0), Tick(150), Set(8, 1000, 0, 1, 0), Tick(1001), Isr(0), Tick(1850), Isr(0)];
    tr := [a, b, c, d, e, f, g, h];
  }

  /** A negative tolerance reaches any timer set across a wrap, though that one is due sooner. */
  lemma SetRash(w: World, t: nat, delay: nat, u: nat, due: nat) returns (r: World)
    requires Inv(w) && Ready(w, Set(t, delay, -1, 1, 0)) && 0 < delay < TWO31 && w.s.lastTimer <= U32(w.clock)
    requires Timers(w.s.queue) == [u] && Deadlines(w.s.queue, w.last) == [due + FAR]
    requires w.last <= due < w.clock + delay
    ensures Goes(w, Set(t, delay, -1, 1, 0), r) && Inv(r) && r.rash
    ensures Timers(r.s.queue) == [t, u] && Deadlines(r.s.queue, r.last) == [due + FAR, due + FAR]
    ensures r.clock == w.clock && r.last == w.last && r.s.mailbox == w.s.mailbox && r.log == w.log
    ensures r.asked == w.asked[t := Ask(w.clock + delay, TWO64 - 1)]
  {
    hide Deadlines, Timers, Alarm, Inv, U32, U64, S32, Soonest, Insert, Granted, Ticks, Position, Splice, Prompt, Due;
    var dj := Ticks(w.s, delay, 1, U32(w.clock));
    Unit(delay);
    Endless();
    LastTimerIs(w);
    TicksAre(w, delay, 1);
    Before(w.s.queue, w.last, t, dj, u, due + FAR);
    IsRash(w, delay, due);
    StepInv(w, Set(t, delay, -1, 1, 0));
    r := Apply(w, Set(t, delay, -1, 1, 0));
    assert r.s.queue == Insert(w.s.queue, t, dj, TWO64 - 1);
  }

  lemma IsRash(w: World, delay: nat, due: nat)
    requires ToleranceTicks(-1, 1) == TWO64 - 1 && DelayTicks(delay, 1) == delay
    requires w.last <= due < w.clock + delay && Ticks(w.s, delay, 1, U32(w.clock)) < TWO31
    requires Granted(w.s.queue, w.last, Ticks(w.s, delay, 1, U32(w.clock)), TWO64 - 1) == due + FAR
    ensures Rash(w, delay, -1, 1)
  {
    hide Granted, Ticks, U32, ToleranceTicks;
  }

  lemma Endless()
    ensures ToleranceTicks(-1, 1) == TWO64 - 1
  {
  }

  lemma Before(q: seq<Entry>, last: int, t: nat, dj: nat, u: nat, far: int)
    requires Timers(q) == [u] && Deadlines(q, last) == [far] && last + dj <= far < last + dj + TWO64 - 1
    ensures Position(q, dj) == 0 && Timers(Insert(q, t, dj, TWO64 - 1)) == [t, u]
    ensures Granted(q, last, dj, TWO64 - 1) == far && Deadlines(Insert(q, t, dj, TWO64 - 1), last) == [far, far]
  {
    hide Insert, Timers;
    assert |q| == |Timers(q)| == 1;
    assert Deadlines(q, last)[0] == far;
    PositionMeaning(q, dj, last);
    InsertMeaning(q, t, dj, TWO64 - 1, last);
    assert Splice([u], 0, t) == [t, u] && Splice([far], 0, far) == [far, far];
  }

  lemma FarDue(due: nat, last: nat)
    requires last <= due
    ensures Due(due + FAR, last) == due
  {
  }

  /** A timer set for 5000 ticks with a negative tolerance while one set across a wrap is
      pending is delivered with that one, 3999 ticks early. */
  lemma EarlyByTolerance() returns (tr: seq<World>, steps: seq<Step>)
    ensures var start := 0xffff_ff9c;
      && IsRun(start, tr, steps) && |steps| == 6 && steps[3] == Set(2, 5000, -1, 1, 0) && tr[3].clock == start + 150
      && tr[6].s.mailbox == [2, 1] && |tr[6].log| == 2
      && tr[6].log[0] == Delivery(2, Ask(start + 5150, TWO64 - 1), start + 1150, start + 1151)
  {
    hide Apply, Ready, Inv, Deadlines, Timers, U32, Due, Far;
    var start := 0xffff_ff9c;
    Word(start);
    Word(start + 150);
    FarDue(start + 1150, start);
    FarDue(start + 1150, start + 150);
    var a := Started(start);
    var b := Wait(a, 150);
    LastTimerIs(b);
    SetReady(b, 1, 1000, 0);
    var c := SetAlone(b, 1, 1000);
    DuesOf(c.s.queue, start, [start + 1150 + FAR]);
    IsrReady(c);
    var d := ServeNone(c);
    LastTimerIs(d);
    DuesOf(d.s.queue, start + 150, [start + 1150 + FAR]);
    SetReady(d, 2, 5000, -1);
    var e := SetRash(d, 2, 5000, 1, start + 1150);
    var f := Wait(e, 1001);
    DuesOf(f.s.queue, start + 150, [start + 1150 + FAR, start + 1150 + FAR]);
    IsrReady(f);
    var g := ServeAll(f);
    assert Timers(f.s.queue)[0] == 2;
    steps := [Tick(150), Set(1, 1000, 0, 1, 0), Isr(0), Set(2, 5000, -1, 1, 0), Tick(1001), Isr(0)];
    tr := [a, b, c, d, e, f, g];
  }

  /** Only a negative tolerance, and only beside a timer set across a wrap, does that. */
  lemma RashOnlyIf(w: World, delay: int, tolerance: int, speed: nat)
    requires Inv(w) && Rash(w, delay, tolerance, speed)
    ensures S32(tolerance * speed) < 0
    ensures exists i :: 0 <= i < |w.s.queue| && Far(Deadlines(w.s.queue, w.last)[i], w.last)
  {
    hide Deadlines, Ticks, Timers;
    var q, dj, tol := w.s.queue, Ticks(w.s, delay, speed, U32(w.clock)), ToleranceTicks(tolerance, speed);
    GrantedWithinTolerance(q, w.last, dj, tol);
    var p := Position(q, dj);
    assert p < |q| && Far(Deadlines(q, w.last)[p], w.last);
    FarGap(w, p, dj);
  }

  lemma FarGap(w: World, p: nat, dj: nat)
    requires Inv(w) && p < |w.s.queue| && Far(Deadlines(w.s.queue, w.last)[p], w.last) && !Far(w.last + dj, w.last)
    ensures Deadlines(w.s.queue, w.last)[p] - (w.last + dj) >= TWO31
  {
  }
}
