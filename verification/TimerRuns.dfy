/** The kernel's timer registers step by step, and what holds in every run of sets,
    cancels and interrupts against a true clock the registers see modulo 2^32. */
module TimerRuns {
  import opened Sequences
  import opened TimerQueue

  datatype Regs = Regs(lastTimer: int, timerExpire: int, queue: seq<Entry>, active: set<nat>, mailbox: seq<nat>)

  function DelayTicks(delay: int, clockSpeed: nat): (r: nat) { U32(delay * clockSpeed) }

  function ToleranceTicks(tolerance: int, clockSpeed: nat): (r: nat) { U64(S32(tolerance * clockSpeed)) }

  /** The delta asked for by a timer set at clock reading `now`. */
  function Ticks(s: Regs, delay: int, clockSpeed: nat, now: int): (dj: nat) {
    U64(now - s.lastTimer + DelayTicks(delay, clockSpeed))
  }

  /** A negative delay sets nothing, none expires at once, any other is queued. */
  function SetSoftTimer(s: Regs, t: nat, delay: int, tolerance: int, clockSpeed: nat, now: int): (r: Regs) {
    var off := s.(active := s.active - {t});
    if delay < 0 then off
    else if delay == 0 then off.(mailbox := s.mailbox + [t])
    else
      var delayj := DelayTicks(delay, clockSpeed);
      var dj := Ticks(s, delay, clockSpeed, now);
      s.(active := s.active + {t},
         queue := Insert(s.queue, t, dj, ToleranceTicks(tolerance, clockSpeed)),
         timerExpire := if Position(s.queue, dj) == 0 then U32(now + delayj) else s.timerExpire)
  }

  function Index(q: seq<Entry>, t: nat): (k: nat)
    ensures k <= |q|
    ensures k < |q| ==> q[k].timer == t
    ensures k == |q| ==> t !in Timers(q)
  {
    if q == [] || q[0].timer == t then 0 else
      var k := 1 + Index(q[1..], t);
      assert forall i :: 1 <= i < |q| ==> Timers(q)[i] == Timers(q[1..])[i - 1];
      k
  }

  /** Only an active timer is unlinked. */
  function CancelTimer(s: Regs, t: nat): (r: Regs) {
    var k := Index(s.queue, t);
    if t !in s.active || k == |s.queue| then s else
      var q := Remove(s.queue, k);
      s.(active := s.active - {t}, queue := q,
         timerExpire := if q != [] then U32(s.lastTimer + q[0].delta) else s.timerExpire)
  }

  function Interrupt(s: Regs, now: int): (r: Regs) {
    var w := Widened(now, s.lastTimer);
    var n := Fired(s.queue, s.lastTimer, w);
    var gone := Timers(s.queue)[..n];
    Regs(U32(w),
         if n < |s.queue| then U32(Deadlines(s.queue, s.lastTimer)[n]) else U32(w + INT32_MAX / 2),
         Rebased(s.queue, s.lastTimer, w),
         s.active - (set t | t in gone),
         s.mailbox + gone)
  }

  // ---- runs ----

  datatype Ask = Ask(due: nat, tolerance: nat)
  datatype Delivery = Delivery(timer: nat, ask: Ask, due: int, at: nat)

  /** The words of time slicing, and the time the hardware timer was last set to. */
  datatype Slicer = Slicer(timeSlice: int, sliceExpire: int, alarm: int)

  /** The registers, and beside them the true times and the history they stand for; `rash`
      says that some timer was made to wait for one that is due sooner. */
  datatype World = World(s: Regs, h: Slicer, clock: nat, last: nat, expire: int, sliceAt: int, alarmAt: int,
    asked: map<nat, Ask>, log: seq<Delivery>, sets: multiset<nat>, cancelled: multiset<nat>, rash: bool)

  /** `lag` is the time from the clock reading that dates a step to the one that sets the
      alarm. */
  datatype Step =
    | Tick(n: nat)
    | Set(t: nat, delay: int, tolerance: int, clockSpeed: nat, lag: nat)
    | Cancel(t: nat, lag: nat)
    | Isr(lag: nat)
    | TimeSlice(ticks: int, clockSpeed: nat, lag: nat)  // a new slice length, or none
    | Dispatch(swap: bool, lag: nat)                   // the scheduler swaps tasks, or not

  function AskOf(asked: map<nat, Ask>, t: nat): (a: Ask) { if t in asked then asked[t] else Ask(0, 0) }

  /** No timer set across a wrap is overdue by half the counter's range. One set otherwise
      cannot be, nor can the register of the next expiry, while interrupts come in time. */
  predicate Unstarved(w: World, lag: nat) {
    forall i :: 0 <= i < |w.s.queue| && Far(Deadlines(w.s.queue, w.last)[i], w.last) ==>
      w.clock + lag - Dues(w.s.queue, w.last)[i] < TWO31
  }

  predicate Prompt(w: World, lag: nat) {
    w.clock + lag - w.last < TWO31 && w.clock + lag - w.expire < TWO31 && Unstarved(w, lag)
  }

  /** A timer must not be queued already when it is set; interrupts are not held off, nor
      deadlines ahead, by half the range of the counter. */
  predicate Ready(w: World, a: Step) {
    match a
    case Tick(n) => true
    case Set(t, delay, tolerance, speed, lag) =>
      && t !in w.s.active && Prompt(w, lag)
      && (delay > 0 ==> w.clock - w.last + DelayTicks(delay, speed) < TWO31)
    case Cancel(t, lag) => Prompt(w, lag)
    case Isr(lag) => w.clock - w.last < TWO31 && lag < TWO31 && Unstarved(w, lag)
    case TimeSlice(_, _, lag) => Prompt(w, lag)
    case Dispatch(_, lag) => Prompt(w, lag)
  }

  /** A timer set in time is made to wait, by its tolerance, for one set across a wrap that is
      due sooner. */
  predicate Rash(w: World, delay: int, tolerance: int, speed: nat) {
    var dj := Ticks(w.s, delay, speed, U32(w.clock));
    var g := Granted(w.s.queue, w.last, dj, ToleranceTicks(tolerance, speed));
    !Far(w.last + dj, w.last) && Far(g, w.last) && Due(g, w.last) < w.clock + DelayTicks(delay, speed)
  }

  function Delivered(q: seq<Entry>, d: seq<int>, n: nat, asked: map<nat, Ask>, at: nat): (r: seq<Delivery>)
    requires n <= |q| == |d|
    ensures |r| == n
    ensures forall i :: 0 <= i < n ==> r[i] == Delivery(q[i].timer, AskOf(asked, q[i].timer), d[i], at)
  {
    seq(n, i requires 0 <= i < n => Delivery(q[i].timer, AskOf(asked, q[i].timer), d[i], at))
  }

  /** What a step does to the timers. */
  function Act(w: World, a: Step): (r: World)
    requires w.last <= w.clock
  {
    match a
    case Tick(n) => w.(clock := w.clock + n)
    case Set(t, delay, tolerance, speed, _) =>
      var r := w.(s := SetSoftTimer(w.s, t, delay, tolerance, speed, U32(w.clock)));
      if delay < 0 then r
      else if delay == 0 then
        r.(sets := w.sets + multiset{t}, log := w.log + [Delivery(t, Ask(w.clock, 0), w.clock, w.clock)])
      else
        var delayj := DelayTicks(delay, speed);
        r.(sets := w.sets + multiset{t},
           asked := w.asked[t := Ask(w.clock + delayj, ToleranceTicks(tolerance, speed))],
           expire :=
             if Position(w.s.queue, Ticks(w.s, delay, speed, U32(w.clock))) == 0 then w.clock + delayj else w.expire,
           rash := w.rash || Rash(w, delay, tolerance, speed))
    case Cancel(t, _) =>
      var s := CancelTimer(w.s, t);
      if s == w.s then w
      else w.(s := s, cancelled := w.cancelled + multiset{t},
              expire := if s.queue != [] then Due(w.last + s.queue[0].delta, w.last) else w.expire)
    case Isr(_) =>
      var n := Fired(w.s.queue, w.last, w.clock);
      var d := Dues(w.s.queue, w.last);
      w.(s := Interrupt(w.s, U32(w.clock)), last := w.clock,
         expire := if n < |d| then d[n] else w.clock + INT32_MAX / 2,
         log := w.log + Delivered(w.s.queue, d, n, w.asked, w.clock))
    case _ => w
  }

  /** The interrupt's test for the end of the time slice. */
  predicate SliceOver(h: Slicer, now: int, lastTimer: int) {
    h.timeSlice > 0 && Widened(now, lastTimer) > h.sliceExpire
  }

  function SetTimeSlice(h: Slicer, ticks: int, clockSpeed: nat, now: int): (r: Slicer) {
    if ticks == 0 then h.(sliceExpire := U32(now + INT32_MAX))
    else
      var slice := S32(ticks * clockSpeed);
      h.(timeSlice := slice, sliceExpire := U32(now + slice))
  }

  /** What it does to the time slice. */
  function Slice(w: World, a: Step): (r: World) {
    match a
    case Isr(_) =>
      if SliceOver(w.h, U32(w.clock), w.s.lastTimer) then
        w.(h := w.h.(sliceExpire := U32(U32(w.clock) + INT32_MAX)), sliceAt := w.clock + INT32_MAX)
      else w
    case TimeSlice(ticks, speed, _) =>
      var h := SetTimeSlice(w.h, ticks, speed, U32(w.clock));
      w.(h := h, sliceAt := w.clock + if ticks == 0 then INT32_MAX else h.timeSlice)
    case Dispatch(swap, _) =>
      if swap && w.h.timeSlice > 0 then
        w.(h := w.h.(sliceExpire := U32(U32(w.clock) + w.h.timeSlice)), sliceAt := w.clock + w.h.timeSlice)
      else w
    case _ => w
  }

  /** When it sets the alarm anew: a timer at the head of the queue, one cancelled while
      others wait, an interrupt, a change of slice. */
  predicate Resets(w: World, a: Step) {
    match a
    case Tick(_) => false
    case Set(_, delay, _, speed, _) =>
      delay > 0 && Position(w.s.queue, Ticks(w.s, delay, speed, U32(w.clock))) == 0
    case Cancel(t, _) => CancelTimer(w.s, t) != w.s && CancelTimer(w.s, t).queue != []
    case Dispatch(_, _) => w.h.timeSlice > 0
    case _ => true
  }

  /** The clock moves on by `lag`, and the alarm is set if need be. */
  function Program(w: World, resets: bool, lag: nat): (r: World) {
    var later := w.clock + lag;
    if !resets then w.(clock := later)
    else
      var slicing := w.h.timeSlice > 0;
      w.(clock := later, h := w.h.(alarm := Alarm(w.s.timerExpire, slicing, w.h.sliceExpire, U32(later))),
         alarmAt := Soonest(w.expire, slicing, w.sliceAt, later))
  }

  function Lag(a: Step): (n: nat) { if a.Tick? then 0 else a.lag }

  function Apply(w: World, a: Step): (r: World)
    requires w.last <= w.clock
  {
    var u, v := Act(w, a), Slice(w, a);
    Program(u.(h := v.h, sliceAt := v.sliceAt), Resets(w, a), Lag(a))
  }

  // ---- the invariant ----

  /** Never early, and late by less than the tolerance. */
  predicate Kept(a: Ask, due: int) { a.due <= due && (due == a.due || due < a.due + a.tolerance) }

  ghost predicate Queued(q: seq<Entry>, active: set<nat>) {
    && (forall t :: t in active <==> t in Timers(q))
    && forall i, j :: 0 <= i < j < |q| ==> Timers(q)[i] != Timers(q)[j]
  }

  /** A pending timer is due when it was asked for or within its tolerance after. */
  ghost predicate PromiseOk(a: Ask, d: int, last: nat, rash: bool) {
    last - TWO31 < Due(d, last) < last + TWO31 && (!rash ==> Kept(a, Due(d, last)))
  }

  ghost predicate Promised(q: seq<Entry>, d: seq<int>, asked: map<nat, Ask>, last: nat, rash: bool) {
    |d| == |q| && forall i :: 0 <= i < |q| ==> PromiseOk(AskOf(asked, Timers(q)[i]), d[i], last, rash)
  }

  ghost predicate LogOk(log: seq<Delivery>, mailbox: seq<nat>, rash: bool) {
    && |log| == |mailbox|
    && forall i :: 0 <= i < |log| ==>
      log[i].timer == mailbox[i] && (!rash ==> Kept(log[i].ask, log[i].due)) && log[i].due <= log[i].at
  }

  ghost predicate Watching(d: seq<int>, last: nat, expire: int, rash: bool) {
    last - TWO31 < expire < last + TWO31 && (!rash && d != [] ==> expire <= Due(d[0], last))
  }

  ghost predicate TimersOk(w: World) {
    var d := Deadlines(w.s.queue, w.last);
    && w.s.lastTimer == U32(w.last) && w.last <= w.clock
    && w.s.timerExpire == U32(w.expire)
    && Queued(w.s.queue, w.s.active)
    && Promised(w.s.queue, d, w.asked, w.last, w.rash)
    && Watching(d, w.last, w.expire, w.rash)
    && LogOk(w.log, w.s.mailbox, w.rash)
    && w.sets == multiset(Timers(w.s.queue)) + multiset(w.s.mailbox) + w.cancelled
  }

  /** The slice ends after the last interrupt and within half the range; the alarm is set no
      later than the earliest deadline and the end of the slice. */
  ghost predicate AlarmOk(w: World) {
    && w.h.sliceExpire == U32(w.sliceAt) && w.h.timeSlice < TWO31
    && (w.h.timeSlice > 0 ==> w.last <= w.sliceAt < w.clock + TWO31 && w.alarmAt <= w.sliceAt)
    && (!w.rash && w.s.queue != [] ==> w.alarmAt <= Dues(w.s.queue, w.last)[0])
    && (w.h.timeSlice > 0 || w.s.queue != [] ==> w.h.alarm == U32(w.alarmAt))
  }

  ghost predicate Inv(w: World) { TimersOk(w) && AlarmOk(w) }

  /** Time slicing is off to begin with. */
  function Init(clock: nat): (w: World) {
    World(Regs(U32(clock), U32(clock), [], {}, []), Slicer(-1, 0, 0), clock, clock, clock, 0, 0,
      map[], [], multiset{}, multiset{}, false)
  }

  lemma {:induction false} ShiftBase(q: seq<Entry>, b: int, c: int, now: int)
    ensures forall i :: 0 <= i < |q| ==> Deadlines(q, b)[i] - b == Deadlines(q, c)[i] - c
    ensures Fired(q, b, b + now) == Fired(q, c, c + now)
  {
    if q != [] { ShiftBase(q[1..], b + q[0].delta, c + q[0].delta, now - q[0].delta); }
  }

  lemma SetInv(w: World, t: nat, delay: int, tolerance: int, speed: nat, lag: nat)
    requires TimersOk(w) && Ready(w, Set(t, delay, tolerance, speed, lag))
    ensures TimersOk(Act(w, Set(t, delay, tolerance, speed, lag)))
  {
    hide TimersOk, Ready, Act;
    if delay > 0 {
      QueuedInv(w, t, delay, tolerance, speed, lag);
    } else {
      AtOnceInv(w, t, delay, tolerance, speed, lag);
    }
  }

  lemma AtOnceInv(w: World, t: nat, delay: int, tolerance: int, speed: nat, lag: nat)
    requires TimersOk(w) && Ready(w, Set(t, delay, tolerance, speed, lag)) && delay <= 0
    ensures TimersOk(Act(w, Set(t, delay, tolerance, speed, lag)))
  {
    hide Deadlines, Timers, Queued, Promised, Watching, Insert, Position, Ticks, Rash, Granted, Prompt, U64, S32, U32,
      DelayTicks, ToleranceTicks, Due, LogOk;
    assert w.s.active - {t} == w.s.active;
    if delay == 0 { LogOne(w.log, w.s.mailbox, w.rash, t, w.clock); }
  }

  lemma LogOne(log: seq<Delivery>, mailbox: seq<nat>, rash: bool, t: nat, now: nat)
    requires LogOk(log, mailbox, rash)
    ensures LogOk(log + [Delivery(t, Ask(now, 0), now, now)], mailbox + [t], rash)
  {
  }

  lemma QueuedSplice(q: seq<Entry>, r: seq<Entry>, active: set<nat>, t: nat, p: nat)
    requires Queued(q, active) && t !in active && p <= |q| && Timers(r) == Splice(Timers(q), p, t)
    ensures Queued(r, active + {t})
  {
    hide Splice;
    SpliceFacts(Timers(q), p, t);
    assert |r| == |Timers(r)|;
    forall x ensures x in active + {t} <==> x in Timers(r) {
      assert x in Timers(r) <==> x in multiset(Timers(r));
      assert x in Timers(q) <==> x in multiset(Timers(q));
    }
  }

  lemma PromisedSplice(q: seq<Entry>, d: seq<int>, r: seq<Entry>, e: seq<int>, asked: map<nat, Ask>, last: nat,
                       t: nat, a: Ask, p: nat, g: int, was: bool, rash: bool)
    requires Promised(q, d, asked, last, was) && p <= |q| && t !in Timers(q) && (was ==> rash)
    requires Timers(r) == Splice(Timers(q), p, t) && e == Splice(d, p, g)
    requires PromiseOk(a, g, last, rash)
    ensures Promised(r, e, asked[t := a], last, rash)
  {
    hide Splice, Kept, Due, Far;
    SpliceFacts(Timers(q), p, t);
    SpliceFacts(d, p, g);
    assert |r| == |Timers(r)|;
    forall i | 0 <= i < |r| ensures PromiseOk(AskOf(asked[t := a], Timers(r)[i]), e[i], last, rash) {
      if i != p {
        var j := if i < p then i else i - 1;
        assert Timers(r)[i] == Timers(q)[j] && e[i] == d[j];
      }
    }
  }

  /** The delta of a timer set in time, or across a wrap. */
  lemma TicksAre(w: World, delay: int, speed: nat)
    requires w.s.lastTimer == U32(w.last) && w.last <= w.clock && w.clock - w.last + DelayTicks(delay, speed) < TWO31
    ensures var e := w.clock - w.last + DelayTicks(delay, speed);
      Ticks(w.s, delay, speed, U32(w.clock)) == if U32(w.clock) < w.s.lastTimer then e + FAR else e
  {
    hide DelayTicks, U32, U64;
    MeasuredTime(w.clock, w.last, DelayTicks(delay, speed));
  }

  lemma QueuedInv(w: World, t: nat, delay: int, tolerance: int, speed: nat, lag: nat)
    requires TimersOk(w) && Ready(w, Set(t, delay, tolerance, speed, lag)) && delay > 0
    ensures TimersOk(Act(w, Set(t, delay, tolerance, speed, lag)))
  {
    hide Deadlines, Timers, Insert, Position, Splice, Granted, U32, U64, S32, Queued, Promised, LogOk, Kept, DelayTicks,
      Far, Due, Ticks, Unstarved, Rash;
    var q, base, r := w.s.queue, w.last, Act(w, Set(t, delay, tolerance, speed, lag));
    var delayj, tol := DelayTicks(delay, speed), ToleranceTicks(tolerance, speed);
    var dj, rash := Ticks(w.s, delay, speed, U32(w.clock)), w.rash || Rash(w, delay, tolerance, speed);
    TicksAre(w, delay, speed);
    InsertMeaning(q, t, dj, tol, base);
    var p, d, g, a := Position(q, dj), Deadlines(q, base), Granted(q, base, dj, tol), Ask(w.clock + delayj, tol);
    assert r.s.queue == Insert(q, t, dj, tol);
    RashIs(w, delay, tolerance, speed);
    GrantedSoon(q, base, dj, a, w.asked, w.rash, rash);
    QueuedSplice(q, r.s.queue, w.s.active, t, p);
    NotQueued(q, w.s.active, t);
    PromisedSplice(q, d, r.s.queue, Deadlines(r.s.queue, base), w.asked, base, t, a, p, g, w.rash, rash);
    SpliceFacts(d, p, g);
    SpliceFacts(Timers(q), p, t);
    WrapSum(w.clock, delayj);
    LogLater(w.log, w.s.mailbox, w.rash, rash);
  }

  lemma LogLater(log: seq<Delivery>, mailbox: seq<nat>, was: bool, rash: bool)
    requires LogOk(log, mailbox, was) && (was ==> rash)
    ensures LogOk(log, mailbox, rash)
  {
  }

  lemma NotQueued(q: seq<Entry>, active: set<nat>, t: nat)
    requires Queued(q, active) && t !in active
    ensures t !in Timers(q)
  {
  }

  /** The deadline granted is in time, and within half the range as the others are. */
  lemma GrantedSoon(q: seq<Entry>, base: nat, dj: nat, a: Ask, asked: map<nat, Ask>, was: bool, rash: bool)
    requires Promised(q, Deadlines(q, base), asked, base, was) && base <= a.due < base + TWO31
    requires base + dj == a.due || base + dj == a.due + FAR
    requires var g := Granted(q, base, dj, a.tolerance);
      rash || Far(g, base) == Far(base + dj, base) || (Far(g, base) && a.due <= Due(g, base))
    ensures PromiseOk(a, Granted(q, base, dj, a.tolerance), base, rash)
    ensures !rash ==> a.due <= Due(Granted(q, base, dj, a.tolerance), base)
  {
    hide Timers, Deadlines;
    GrantedWithinTolerance(q, base, dj, a.tolerance);
    var p, g := Position(q, dj), Granted(q, base, dj, a.tolerance);
    if g != base + dj {
      assert PromiseOk(AskOf(asked, Timers(q)[p]), Deadlines(q, base)[p], base, was);
    }
  }

  /** The granted deadline is far when the one asked for is; it never comes before it. */
  lemma RashIs(w: World, delay: int, tolerance: int, speed: nat)
    ensures var dj := Ticks(w.s, delay, speed, U32(w.clock));
      var g := Granted(w.s.queue, w.last, dj, ToleranceTicks(tolerance, speed));
      && (Far(w.last + dj, w.last) ==> Far(g, w.last))
      && (Rash(w, delay, tolerance, speed) || Far(g, w.last) == Far(w.last + dj, w.last)
          || w.clock + DelayTicks(delay, speed) <= Due(g, w.last))
  {
    hide Ticks, Granted, U64, S32, DelayTicks;
    var dj := Ticks(w.s, delay, speed, U32(w.clock));
    GrantedWithinTolerance(w.s.queue, w.last, dj, ToleranceTicks(tolerance, speed));
  }

  lemma CancelInv(w: World, t: nat, lag: nat)
    requires TimersOk(w) && Ready(w, Cancel(t, lag))
    ensures TimersOk(Act(w, Cancel(t, lag)))
  {
    hide Deadlines, Timers, Remove, Cut, U32, Queued, Promised, LogOk, Index, Due, Unstarved, Watching;
    var q, k := w.s.queue, Index(w.s.queue, t);
    if t in w.s.active && k < |q| {
      RemoveMeaning(q, k, w.last);
      CutFacts(Timers(q), k);
      TimerAt(q, t);
      QueuedCut(q, Remove(q, k), w.s.active, k);
      PromisedCut(q, Deadlines(q, w.last), Remove(q, k), Deadlines(Remove(q, k), w.last), w.asked, w.last, k, w.rash);
      assert w.s != CancelTimer(w.s, t);
      NextWatched(w, Remove(q, k));
    }
  }

  /** The register holds when the first of what is left is due. */
  lemma NextWatched(w: World, r: seq<Entry>)
    requires w.s.lastTimer == U32(w.last) && Promised(r, Deadlines(r, w.last), w.asked, w.last, w.rash)
    requires Watching(Deadlines(w.s.queue, w.last), w.last, w.expire, w.rash)
    ensures var e := if r != [] then Due(w.last + r[0].delta, w.last) else w.expire;
      && Watching(Deadlines(r, w.last), w.last, e, w.rash)
      && (r != [] ==> U32(w.s.lastTimer + r[0].delta) == U32(e))
  {
    hide Timers, U32, Promised, Due;
    if r != [] {
      PromisedSoon(r, Deadlines(r, w.last), w.asked, w.last, w.rash, 0);
      DueWraps(w.last + r[0].delta, w.last);
      WrapSum(w.last, r[0].delta);
    }
  }

  lemma PromisedSoon(q: seq<Entry>, d: seq<int>, asked: map<nat, Ask>, last: nat, rash: bool, i: nat)
    requires Promised(q, d, asked, last, rash) && i < |q|
    ensures |d| == |q| && last - TWO31 < Due(d[i], last) < last + TWO31
  {
    hide Kept, Due;
    assert PromiseOk(AskOf(asked, Timers(q)[i]), d[i], last, rash);
  }

  lemma TimerAt(q: seq<Entry>, t: nat)
    requires Index(q, t) < |q|
    ensures Timers(q)[Index(q, t)] == t
  {
  }

  lemma FirstDeadline(q: seq<Entry>, base: int)
    requires q != []
    ensures Deadlines(q, base)[0] == base + q[0].delta
  {
  }

  lemma QueuedCut(q: seq<Entry>, r: seq<Entry>, active: set<nat>, k: nat)
    requires Queued(q, active) && k < |q| && Timers(r) == Cut(Timers(q), k)
    ensures Queued(r, active - {Timers(q)[k]})
  {
    hide Cut;
    CutFacts(Timers(q), k);
    assert |r| == |Timers(r)|;
    forall x ensures x in active - {Timers(q)[k]} <==> x in Timers(r) {
      if x in Timers(q) && x != Timers(q)[k] {
        var i :| 0 <= i < |q| && Timers(q)[i] == x;
        assert Timers(r)[if i < k then i else i - 1] == x;
      }
      if x in Timers(r) {
        var i :| 0 <= i < |r| && Timers(r)[i] == x;
        assert Timers(q)[if i < k then i else i + 1] == x;
      }
    }
  }

  lemma PromisedCut(q: seq<Entry>, d: seq<int>, r: seq<Entry>, e: seq<int>, asked: map<nat, Ask>, last: nat, k: nat,
                    rash: bool)
    requires Promised(q, d, asked, last, rash) && k < |q|
    requires Timers(r) == Cut(Timers(q), k) && e == Cut(d, k)
    ensures Promised(r, e, asked, last, rash)
  {
    hide Cut, PromiseOk;
    CutFacts(Timers(q), k);
    CutFacts(d, k);
    assert |r| == |Timers(r)|;
    forall i | 0 <= i < |r| ensures PromiseOk(AskOf(asked, Timers(r)[i]), e[i], last, rash) {
      var j := if i < k then i else i + 1;
      assert Timers(r)[i] == Timers(q)[j] && e[i] == d[j];
    }
  }

  /** The interrupt's 32-bit arithmetic gives what true times would. */
  lemma InterruptTrue(s: Regs, clock: nat, last: nat)
    requires s.lastTimer == U32(last) && last <= clock < last + TWO32
    ensures var n, d := Fired(s.queue, last, clock), Deadlines(s.queue, last);
      Interrupt(s, U32(clock)) == Regs(U32(clock),
        if n < |d| then U32(d[n]) else U32(clock + INT32_MAX / 2),
        Rebased(s.queue, last, clock),
        s.active - (set t | t in Timers(s.queue)[..n]),
        s.mailbox + Timers(s.queue)[..n])
  {
    hide Deadlines, Fired, Timers;
    var w := Widened(U32(clock), U32(last));
    MeasuredTime(clock, last, 0);
    assert w == U32(last) + (clock - last);
    ShiftBase(s.queue, U32(last), last, clock - last);
    assert clock == w + TWO32 * (last / TWO32);
    WholeTurns(w, last / TWO32);
    WholeTurns(w + INT32_MAX / 2, last / TWO32);
    var n := Fired(s.queue, last, clock);
    if n < |s.queue| { WholeTurns(Deadlines(s.queue, U32(last))[n], last / TWO32); }
  }

  /** Deadlines not yet passed stay as they are, near or far, when they are counted from now. */
  lemma StillFar(d: int, last: int, now: int)
    requires last - TWO31 < Due(d, last) < last + TWO31 && last <= now < last + TWO31
    requires if Far(d, last) then now - Due(d, last) < TWO31 else now <= d
    ensures Due(d, now) == Due(d, last) && (Far(d, now) <==> Far(d, last)) && now <= d < now + TWO64
  {
  }

  /** Which timers the interrupt delivers, near ones and far. */
  lemma IsrFires(w: World, lag: nat)
    requires TimersOk(w) && Ready(w, Isr(lag))
    ensures var n, d, due := Fired(w.s.queue, w.last, w.clock), Deadlines(w.s.queue, w.last), Dues(w.s.queue, w.last);
      && (forall i :: 0 <= i < n ==> due[i] < w.clock)
      && (n < |due| ==> w.clock <= due[n])
      && (forall i :: 0 <= i < |d| && !Far(d[i], w.last) ==> (i < n <==> due[i] < w.clock))
      && (forall i :: n <= i < |d| ==> w.clock <= d[i] < w.clock + TWO64 && w.clock - TWO31 < due[i])
      && (forall i :: n <= i < |d| ==> Due(d[i], w.clock) == due[i] && (Far(d[i], w.clock) <==> Far(d[i], w.last)))
  {
    hide Deadlines, Timers, Fired, Queued, LogOk, Watching, Kept, U32;
    var q, now := w.s.queue, w.clock;
    var n, d, due := Fired(q, w.last, now), Deadlines(q, w.last), Dues(q, w.last);
    InOrder(q, w.last);
    forall i | 0 <= i < |q| ensures now - TWO31 < due[i] <= now + TWO31 && due[i] < w.last + TWO31 {
      PromisedSoon(q, d, w.asked, w.last, w.rash, i);
    }
    FiredDues(q, w.last, now);
    forall i | 0 <= i < |d| && !Far(d[i], w.last) ensures i < n <==> due[i] < now {
      if n <= i { assert d[n] <= d[i]; }
    }
    forall i | n <= i < |d|
      ensures now <= d[i] < now + TWO64 && now - TWO31 < due[i]
      ensures Due(d[i], now) == due[i] && (Far(d[i], now) <==> Far(d[i], w.last))
    {
      PromisedSoon(q, d, w.asked, w.last, w.rash, i);
      StillFar(d[i], w.last, now);
    }
  }

  lemma IsrInv(w: World, lag: nat)
    requires TimersOk(w) && Ready(w, Isr(lag))
    ensures TimersOk(Act(w, Isr(lag)))
  {
    hide Deadlines, Timers, Fired, Rebased, U32, Queued, Promised, LogOk, Kept, Interrupt, Due, Far, Unstarved,
      Watching, Delivered;
    var q, r, n := w.s.queue, Act(w, Isr(lag)), Fired(w.s.queue, w.last, w.clock);
    InterruptTrue(w.s, w.clock, w.last);
    IsrFires(w, lag);
    RebaseMeaning(q, w.last, w.clock);
    QueuedRest(q, r.s.queue, w.s.active, n);
    PromisedRest(w, r.s.queue, n);
    LogRest(w, n);
    IsrWatched(w, lag, n);
    assert Timers(q) == Timers(q)[..n] + Timers(q)[n..];
  }

  /** The register holds when the first timer left is due. */
  lemma IsrWatched(w: World, lag: nat, n: nat)
    requires TimersOk(w) && Ready(w, Isr(lag)) && n == Fired(w.s.queue, w.last, w.clock)
    ensures var d, due := Deadlines(w.s.queue, w.last), Dues(w.s.queue, w.last);
      var e := if n < |d| then due[n] else w.clock + INT32_MAX / 2;
      Watching(d[n..], w.clock, e, w.rash) && (n < |d| ==> U32(e) == U32(d[n]))
  {
    hide Timers, Fired, U32, Queued, Promised, LogOk, Unstarved, Due, Deadlines;
    var d := Deadlines(w.s.queue, w.last);
    IsrFires(w, lag);
    if n < |d| {
      DueWraps(d[n], w.last);
      PromisedSoon(w.s.queue, d, w.asked, w.last, w.rash, n);
    }
  }

  lemma QueuedRest(q: seq<Entry>, r: seq<Entry>, active: set<nat>, n: nat)
    requires Queued(q, active) && n <= |q| && Timers(r) == Timers(q)[n..]
    ensures Queued(r, active - (set t | t in Timers(q)[..n]))
  {
    assert |r| == |Timers(r)|;
    var gone := set t | t in Timers(q)[..n];
    forall i: nat | i < n ensures Timers(q)[i] in Timers(q)[..n] { Member(Timers(q), n, i); }
    forall x ensures x in active - gone <==> x in Timers(r) {
      if x in Timers(r) {
        var i :| n <= i < |q| && Timers(q)[i] == x;
        forall j | 0 <= j < n ensures Timers(q)[..n][j] != x {}
      }
      if x in active - gone {
        var i :| 0 <= i < |q| && Timers(q)[i] == x;
        if n <= i { assert Timers(r)[i - n] == x; }
      }
    }
  }

  lemma Member(s: seq<nat>, n: nat, i: nat)
    requires i < n <= |s|
    ensures s[i] in s[..n]
  {
    assert s[..n][i] == s[i];
  }

  /** What stays queued keeps its promises, counted from now. */
  lemma PromisedRest(w: World, r: seq<Entry>, n: nat)
    requires Promised(w.s.queue, Deadlines(w.s.queue, w.last), w.asked, w.last, w.rash) && n <= |w.s.queue|
    requires Timers(r) == Timers(w.s.queue)[n..] && w.last <= w.clock
    requires var d := Deadlines(w.s.queue, w.last);
      forall i :: n <= i < |d| ==> Due(d[i], w.clock) == Due(d[i], w.last) > w.clock - TWO31
    ensures Promised(r, Deadlines(w.s.queue, w.last)[n..], w.asked, w.clock, w.rash)
  {
    hide Kept, Due, Deadlines;
    var d := Deadlines(w.s.queue, w.last);
    assert |r| == |Timers(r)|;
    forall i | 0 <= i < |r| ensures PromiseOk(AskOf(w.asked, Timers(r)[i]), d[n..][i], w.clock, w.rash) {
      assert Timers(r)[i] == Timers(w.s.queue)[i + n];
      assert PromiseOk(AskOf(w.asked, Timers(w.s.queue)[i + n]), d[i + n], w.last, w.rash);
    }
  }

  lemma LogRest(w: World, n: nat)
    requires Promised(w.s.queue, Deadlines(w.s.queue, w.last), w.asked, w.last, w.rash) && n <= |w.s.queue|
    requires (forall i :: 0 <= i < n ==> Dues(w.s.queue, w.last)[i] < w.clock) && LogOk(w.log, w.s.mailbox, w.rash)
    ensures var more := Delivered(w.s.queue, Dues(w.s.queue, w.last), n, w.asked, w.clock);
      LogOk(w.log + more, w.s.mailbox + Timers(w.s.queue)[..n], w.rash)
  {
    hide Kept, Deadlines;
    var q, due := w.s.queue, Dues(w.s.queue, w.last);
    forall i | 0 <= i < n ensures !w.rash ==> Kept(AskOf(w.asked, q[i].timer), due[i]) {
      assert PromiseOk(AskOf(w.asked, Timers(q)[i]), Deadlines(q, w.last)[i], w.last, w.rash);
      assert Timers(q)[i] == q[i].timer;
    }
  }

  lemma ActInv(w: World, a: Step)
    requires TimersOk(w) && Ready(w, a)
    ensures TimersOk(Act(w, a))
  {
    hide Deadlines, Queued, Promised, LogOk, Watching;
    match a
    case Set(t, delay, tolerance, speed, lag) => SetInv(w, t, delay, tolerance, speed, lag);
    case Cancel(t, lag) => CancelInv(w, t, lag);
    case Isr(lag) => IsrInv(w, lag);
    case _ =>
  }

  // ---- the alarm ----

  /** Once the clock has moved on and the alarm is set, it covers timer and slice. */
  lemma ProgramOk(w: World, lag: nat)
    requires TimersOk(w) && w.clock + lag - w.last < TWO31 && w.clock + lag - w.expire < TWO31
    requires w.h.sliceExpire == U32(w.sliceAt) && w.h.timeSlice < TWO31
    requires w.h.timeSlice > 0 ==> w.last <= w.sliceAt < w.clock + TWO31
    ensures Inv(Program(w, true, lag))
  {
    hide Deadlines, Queued, Promised, LogOk, Kept, U32, Alarm;
    AlarmIsMinimum(w.expire, w.h.timeSlice > 0, w.sliceAt, w.clock + lag);
  }

  /** The alarm is left alone when nothing before it has changed. */
  lemma ResetsWhenNeeded(w: World, a: Step)
    requires Inv(w) && Ready(w, a) && !Resets(w, a)
    ensures var u := Act(w, a);
      u.s.queue != [] ==> w.s.queue != [] && Deadlines(u.s.queue, u.last)[0] == Deadlines(w.s.queue, w.last)[0]
    ensures w.rash ==> Act(w, a).rash
  {
    match a
    case Set(t, delay, tolerance, speed, lag) => if delay > 0 { BehindTheHead(w, t, delay, tolerance, speed, lag); }
    case _ =>
  }

  lemma BehindTheHead(w: World, t: nat, delay: int, tolerance: int, speed: nat, lag: nat)
    requires Inv(w) && Ready(w, Set(t, delay, tolerance, speed, lag)) && delay > 0
    requires !Resets(w, Set(t, delay, tolerance, speed, lag))
    ensures var u := Act(w, Set(t, delay, tolerance, speed, lag));
      w.s.queue != [] && u.s.queue != [] && Deadlines(u.s.queue, w.last)[0] == Deadlines(w.s.queue, w.last)[0]
  {
    hide Deadlines, Timers, Insert, Splice, U64, DelayTicks, Queued, Promised, LogOk, Kept, Ticks, Rash, Unstarved;
    var q, dj := w.s.queue, Ticks(w.s, delay, speed, U32(w.clock));
    InsertMeaning(q, t, dj, ToleranceTicks(tolerance, speed), w.last);
    SpliceFacts(Deadlines(q, w.last), Position(q, dj), Granted(q, w.last, dj, ToleranceTicks(tolerance, speed)));
    hide Granted;
    HeadPosition(q, dj);
  }

  lemma HeadPosition(q: seq<Entry>, dj: nat)
    ensures q == [] ==> Position(q, dj) == 0
  {
  }

  /** The interrupt ends a slice that is over. It ends one that is not when the slice would
      end after the next wrap of the counter, and only then. */
  lemma SliceEnds(w: World)
    requires Inv(w) && w.clock - w.last < TWO31 && w.h.timeSlice > 0
    ensures SliceOver(w.h, U32(w.clock), w.s.lastTimer) <==> w.sliceAt < w.clock || w.last / TWO32 < w.sliceAt / TWO32
  {
    hide Deadlines, Queued, Promised, Watching, LogOk;
    MeasuredTime(w.clock, w.last, 0);
    var i, j := w.last / TWO32, w.sliceAt / TWO32;
    assert w.last == TWO32 * i + U32(w.last) && w.sliceAt == TWO32 * j + U32(w.sliceAt);
  }

  lemma SliceInv(w: World, a: Step)
    requires Inv(w) && Ready(w, a)
    ensures var u, v := Act(w, a), Slice(w, a);
      && v.h.sliceExpire == U32(v.sliceAt) && v.h.timeSlice < TWO31 && v.h.alarm == w.h.alarm
      && (v.h.timeSlice > 0 ==> u.last <= v.sliceAt < u.clock + TWO31)
      && (!Resets(w, a) ==> v.h == w.h && v.sliceAt == w.sliceAt)
  {
    hide Deadlines, Timers, Queued, Promised, LogOk, Watching, U32, Interrupt, SetSoftTimer, CancelTimer,
      Fired, Widened, Delivered;
    match a
    case Isr(lag) =>
      if w.h.timeSlice > 0 { SliceEnds(w); }
      WrapSum(w.clock, INT32_MAX);
    case TimeSlice(ticks, speed, _) =>
      WrapSum(w.clock, INT32_MAX);
      WrapSum(w.clock, S32(ticks * speed));
    case Dispatch(_, _) => WrapSum(w.clock, w.h.timeSlice);
    case _ =>
  }

  lemma StepInv(w: World, a: Step)
    requires Inv(w) && Ready(w, a)
    ensures Inv(Apply(w, a))
  {
    hide Deadlines, Queued, Promised, LogOk, Resets, Act, Slice, Alarm, U32;
    var u, v := Act(w, a), Slice(w, a);
    ActInv(w, a);
    SliceInv(w, a);
    ActTimes(w, a);
    var x := u.(h := v.h, sliceAt := v.sliceAt);
    if Resets(w, a) { ProgramOk(x, Lag(a)); } else { ResetsWhenNeeded(w, a); }
  }

  lemma ActTimes(w: World, a: Step)
    requires Inv(w) && Ready(w, a)
    ensures var u := Act(w, a);
      && u.clock >= w.clock && u.alarmAt == w.alarmAt && (u.last == w.last || Resets(w, a))
      && (!a.Tick? ==> u.clock == w.clock && u.clock + Lag(a) - u.last < TWO31 && u.clock + Lag(a) - u.expire < TWO31)
      && (a.Tick? ==> !Resets(w, a))
  {
    hide Deadlines, SetSoftTimer, Interrupt, Fired, Position, Due, Far, Ticks, Rash, Queued, LogOk, Promised, Unstarved;
    match a
    case Cancel(t, lag) => CancelTimes(w, t, lag);
    case Isr(lag) =>
      hide CancelTimer;
      IsrFires(w, lag);
    case _ => hide CancelTimer;
  }

  lemma CancelTimes(w: World, t: nat, lag: nat)
    requires Inv(w) && Ready(w, Cancel(t, lag))
    ensures w.clock + lag - Act(w, Cancel(t, lag)).expire < TWO31
  {
    hide Deadlines, Timers, Remove, Cut, U32, Queued, Promised, LogOk, Index, Due, Far;
    var q, k := w.s.queue, Index(w.s.queue, t);
    if t in w.s.active && k < |q| && Remove(q, k) != [] {
      RemoveMeaning(q, k, w.last);
      CutFacts(Deadlines(q, w.last), k);
      FirstDeadline(Remove(q, k), w.last);
      InOrder(q, w.last);
      var i := if k == 0 then 1 else 0;
      assert |Deadlines(Remove(q, k), w.last)| > 0;
      assert Deadlines(Remove(q, k), w.last)[0] == Deadlines(q, w.last)[i];
      NearOrTimely(w, i, lag);
    }
  }

  lemma NearOrTimely(w: World, i: nat, lag: nat)
    requires Prompt(w, lag) && i < |w.s.queue|
    ensures w.clock + lag - Due(Deadlines(w.s.queue, w.last)[i], w.last) < TWO31
  {
    InOrder(w.s.queue, w.last);
  }

  // ---- what holds in every run ----

  ghost predicate IsRun(start: nat, tr: seq<World>, steps: seq<Step>) {
    && |tr| == |steps| + 1 && tr[0] == Init(start)
    && forall i :: 0 <= i < |steps| ==> Goes(tr[i], steps[i], tr[i + 1])
  }

  ghost predicate Goes(w: World, a: Step, r: World) { w.last <= w.clock && Ready(w, a) && r == Apply(w, a) }

  lemma {:induction false} RunInv(start: nat, tr: seq<World>, steps: seq<Step>, i: nat)
    requires IsRun(start, tr, steps) && i < |tr|
    ensures Inv(tr[i])
  {
    if i > 0 {
      hide Inv, Ready, Apply;
      RunInv(start, tr, steps, i - 1);
      assert Goes(tr[i - 1], steps[i - 1], tr[i]);
      StepInv(tr[i - 1], steps[i - 1]);
    }
  }

  /** Every timer delivered so far was delivered no earlier than it was due, which was no
      earlier than asked and late by less than its tolerance, unless some timer was rashly
      made to wait for another; and the deliveries are the mailbox in order. */
  lemma NeverEarly(start: nat, tr: seq<World>, steps: seq<Step>, i: nat, j: nat)
    requires IsRun(start, tr, steps) && i < |tr| && j < |tr[i].log|
    ensures var e := tr[i].log[j];
      && e.due <= e.at && j < |tr[i].s.mailbox| && tr[i].s.mailbox[j] == e.timer
      && (!tr[i].rash ==> e.ask.due <= e.due && (e.due == e.ask.due || e.due < e.ask.due + e.ask.tolerance))
  {
    RunInv(start, tr, steps, i);
  }

  /** Each interrupt delivers timers from the head that were due strictly before now, up to
      the first that was not, and moves no other deadline. Timers set in time it delivers
      exactly when they are due; all timers, if and only if none is overdue behind one that
      is not. */
  lemma InterruptExact(start: nat, tr: seq<World>, steps: seq<Step>, i: nat)
    requires IsRun(start, tr, steps) && i < |steps| && steps[i].Isr?
    ensures var w, r, n := tr[i], tr[i + 1], |tr[i + 1].s.mailbox| - |tr[i].s.mailbox|;
      var d, due := Deadlines(w.s.queue, w.last), Dues(w.s.queue, w.last);
      && 0 <= n <= |w.s.queue|
      && r.s.mailbox == w.s.mailbox + Timers(w.s.queue)[..n]
      && Timers(r.s.queue) == Timers(w.s.queue)[n..] && Dues(r.s.queue, r.last) == due[n..]
      && (forall k :: 0 <= k < n ==> due[k] < w.clock)
      && (n < |due| ==> w.clock <= due[n])
      && (forall k :: 0 <= k < |d| && !Far(d[k], w.last) ==> (k < n <==> due[k] < w.clock))
      && ((forall k :: 0 <= k < |due| ==> (k < n <==> due[k] < w.clock)) <==> !Blocked(due, w.clock))
  {
    RunInv(start, tr, steps, i);
    assert Goes(tr[i], steps[i], tr[i + 1]);
    IsrMoves(tr[i], steps[i].lag);
    Exact(Dues(tr[i].s.queue, tr[i].last), Fired(tr[i].s.queue, tr[i].last, tr[i].clock), tr[i].clock);
  }

  lemma Exact(due: seq<int>, n: nat, now: int)
    requires n <= |due| && (forall k :: 0 <= k < n ==> due[k] < now) && (n < |due| ==> now <= due[n])
    ensures (forall k :: 0 <= k < |due| ==> (k < n <==> due[k] < now)) <==> !Blocked(due, now)
  {
    if !Blocked(due, now) {
      forall k | n <= k < |due| ensures now <= due[k] {}
    }
  }

  /** The interrupt's step, on the timers with their true deadlines. */
  lemma IsrMoves(w: World, lag: nat)
    requires Inv(w) && Ready(w, Isr(lag))
    ensures var r, n, due := Apply(w, Isr(lag)), Fired(w.s.queue, w.last, w.clock), Dues(w.s.queue, w.last);
      && r.s.mailbox == w.s.mailbox + Timers(w.s.queue)[..n]
      && Timers(r.s.queue) == Timers(w.s.queue)[n..] && Dues(r.s.queue, r.last) == due[n..]
      && Deadlines(r.s.queue, r.last) == Deadlines(w.s.queue, w.last)[n..]
      && (forall k :: 0 <= k < n ==> due[k] < w.clock)
      && (n < |due| ==> w.clock <= due[n])
      && (forall k :: 0 <= k < |due| && !Far(Deadlines(w.s.queue, w.last)[k], w.last) ==> (k < n <==> due[k] < w.clock))
  {
    hide Deadlines, Timers, Fired, Rebased, Interrupt, U32, Queued, Promised, LogOk, Watching, Far, Due, Unstarved,
      Alarm, Delivered, SliceOver;
    var n, due, r := Fired(w.s.queue, w.last, w.clock), Dues(w.s.queue, w.last), Apply(w, Isr(lag));
    InterruptTrue(w.s, w.clock, w.last);
    IsrFires(w, lag);
    RebaseMeaning(w.s.queue, w.last, w.clock);
    assert |r.s.queue| == |Deadlines(r.s.queue, w.clock)| == |due| - n;
    forall i | 0 <= i < |due| - n ensures Dues(r.s.queue, w.clock)[i] == due[n..][i] {
      assert Deadlines(r.s.queue, w.clock)[i] == Deadlines(w.s.queue, w.last)[n..][i];
    }
  }

  /** Conservation: every timer set is pending, delivered or cancelled, as often as set. */
  lemma TimersConserved(start: nat, tr: seq<World>, steps: seq<Step>, i: nat)
    requires IsRun(start, tr, steps) && i < |tr|
    ensures tr[i].sets == multiset(Timers(tr[i].s.queue)) + multiset(tr[i].s.mailbox) + tr[i].cancelled
    ensures forall t :: t in tr[i].s.active <==> t in Timers(tr[i].s.queue)
  {
    RunInv(start, tr, steps, i);
  }

  /** At every moment of every run the alarm as it was last set goes off no later than the
      first timer in the queue is due, and so than any is when they are in order; nor, with
      time slicing on, than the end of the slice. */
  lemma AlarmCovers(start: nat, tr: seq<World>, steps: seq<Step>, i: nat)
    requires IsRun(start, tr, steps) && i < |tr|
    ensures var w := tr[i]; var due := Dues(w.s.queue, w.last);
      && (due != [] ==> w.h.alarm == U32(w.alarmAt) && (!w.rash ==> w.alarmAt <= due[0]))
      && (!w.rash && Ordered(due) ==> forall k :: 0 <= k < |due| ==> w.alarmAt <= due[k])
      && (w.h.timeSlice > 0 ==>
            w.h.alarm == U32(w.alarmAt) && w.alarmAt <= w.sliceAt && w.h.sliceExpire == U32(w.sliceAt))
  {
    RunInv(start, tr, steps, i);
    var due := Dues(tr[i].s.queue, tr[i].last);
    if Ordered(due) { OrderedServes(due, 0); }
  }

  /** And whenever it is set it is the earliest of the register's timer expiry, the end of
      the slice and a quarter of the counter's range from then. */
  lemma AlarmSet(start: nat, tr: seq<World>, steps: seq<Step>, i: nat)
    requires IsRun(start, tr, steps) && i < |steps| && Resets(tr[i], steps[i])
    ensures var r := tr[i + 1];
      && r.h.alarm == U32(r.alarmAt) && r.s.timerExpire == U32(r.expire)
      && r.alarmAt <= r.expire && r.alarmAt <= r.clock + INT32_MAX / 2 && (r.h.timeSlice > 0 ==> r.alarmAt <= r.sliceAt)
      && (r.alarmAt == r.expire || r.alarmAt == r.clock + INT32_MAX / 2
          || (r.h.timeSlice > 0 && r.alarmAt == r.sliceAt))
  {
    RunInv(start, tr, steps, i);
    assert Goes(tr[i], steps[i], tr[i + 1]);
    StepSets(tr[i], steps[i]);
    hide Inv, Ready, Apply, Resets;
  }

  lemma StepSets(w: World, a: Step)
    requires Inv(w) && Ready(w, a) && Resets(w, a)
    ensures var r := Apply(w, a);
      && r.h.alarm == U32(r.alarmAt) && r.s.timerExpire == U32(r.expire)
      && r.alarmAt == Soonest(r.expire, r.h.timeSlice > 0, r.sliceAt, r.clock)
  {
    hide Deadlines, Queued, Promised, LogOk, Resets, Act, Slice, Alarm, U32, Soonest;
    var u, v := Act(w, a), Slice(w, a);
    ActInv(w, a);
    SliceInv(w, a);
    ActTimes(w, a);
    var later := u.clock + Lag(a);
    assert -TWO31 <= u.expire - later < TWO31;
    assert v.h.timeSlice > 0 ==> -TWO31 <= v.sliceAt - later < TWO31;
    AlarmIsMinimum(u.expire, v.h.timeSlice > 0, v.sliceAt, later);
  }

  /** Each interrupt ends the running task's slice if it is over, but also one that would
      end after the next wrap of the counter, however much of it is left. */
  lemma SliceVerdict(start: nat, tr: seq<World>, steps: seq<Step>, i: nat)
    requires IsRun(start, tr, steps) && i < |steps| && steps[i].Isr? && tr[i].h.timeSlice > 0
    ensures var w := tr[i]; var ends := w.sliceAt < w.clock || w.last / TWO32 < w.sliceAt / TWO32;
      && (SliceOver(w.h, U32(w.clock), w.s.lastTimer) <==> ends)
      && tr[i + 1].sliceAt == if ends then w.clock + INT32_MAX else w.sliceAt
  {
    RunInv(start, tr, steps, i);
    assert Goes(tr[i], steps[i], tr[i + 1]);
    SliceEnds(tr[i]);
    hide Inv, Deadlines, Interrupt, Fired, Delivered, Alarm, U32;
  }

  lemma Started(start: nat) returns (w: World)
    ensures w == Init(start) && Inv(w) && w.s == Regs(U32(start), U32(start), [], {}, [])
    ensures w.clock == w.last == w.expire == start
  {
    w := Init(start);
  }

  /** Setting a slice when there are no timers. */
  lemma Sliced(w: World, ticks: int, speed: nat) returns (u: World)
    requires Inv(w) && w.s.queue == [] && w.clock == w.last == w.expire && 0 < ticks * speed < TWO31
    ensures Goes(w, TimeSlice(ticks, speed, 0), u)
    ensures u.s == w.s && u.h.timeSlice == ticks * speed && u.h.sliceExpire == U32(w.clock + ticks * speed)
    ensures u.clock == u.last == u.expire == w.clock && u.sliceAt == w.clock + ticks * speed
  {
    hide Alarm, U32, Soonest;
    u := Apply(w, TimeSlice(ticks, speed, 0));
    Word(ticks * speed);
    WrapSum(w.clock, ticks * speed);
  }

  lemma Word(x: int)
    requires 0 <= x < TWO31
    ensures S32(x) == x
  {
  }

  lemma TicksOn(w: World, n: nat) returns (r: World)
    requires w.last <= w.clock
    ensures Goes(w, Tick(n), r) && r == w.(clock := w.clock + n)
  {
    r := Apply(w, Tick(n));
  }

  lemma CutsShort(w: World)
    requires w.s.queue == [] && w.s.lastTimer == U32(w.last) && w.last == 0xffff_ff00 && w.clock == w.last + 1
    requires w.h.timeSlice == 512 && w.h.sliceExpire == U32(w.last + 512)
    ensures Ready(w, Isr(0)) && SliceOver(w.h, U32(w.clock), w.s.lastTimer)
  {
  }

  /** So a slice of 512 ticks begun 256 before the wrap ends one tick later. */
  lemma SliceCutShort() returns (tr: seq<World>, steps: seq<Step>)
    ensures IsRun(0xffff_ff00, tr, steps) && |steps| == 3 && steps[2].Isr?
    ensures var w := tr[2];
      SliceOver(w.h, U32(w.clock), w.s.lastTimer) && w.sliceAt == 0xffff_ff00 + 512 && w.clock == 0xffff_ff00 + 1
  {
    hide Apply, Ready, Inv, U32, SliceOver, Init;
    var w := Started(0xffff_ff00);
    var u := Sliced(w, 1, 512);
    var v := TicksOn(u, 1);
    CutsShort(v);
    steps := [TimeSlice(1, 512, 0), Tick(1), Isr(0)];
    tr := [w, u, v, Apply(v, Isr(0))];
  }

  /** Setting a slice of zero leaves the running slice as it was if and only if slicing is off
      or the slice was to end INT32_MAX from now; otherwise it ends later than it would. */
  lemma ZeroChangesIff(start: nat, tr: seq<World>, steps: seq<Step>, i: nat)
    requires IsRun(start, tr, steps) && i < |steps| && steps[i].TimeSlice? && steps[i].ticks == 0
    ensures var w, r := tr[i], tr[i + 1];
      && r.h.timeSlice == w.h.timeSlice
      && (w.h.timeSlice > 0 ==> w.sliceAt <= r.sliceAt)
      && ((w.h.timeSlice > 0 ==> r.sliceAt == w.sliceAt) <==> w.h.timeSlice <= 0 || w.sliceAt == w.clock + INT32_MAX)
  {
    hide Deadlines, Alarm, U32, Queued, Promised, LogOk, Watching;
    RunInv(start, tr, steps, i);
    assert Goes(tr[i], steps[i], tr[i + 1]);
  }

  /** A slice of 512 ticks, just begun, is made one of INT32_MAX by setting zero. */
  lemma ZeroStretches() returns (tr: seq<World>, steps: seq<Step>)
    ensures IsRun(0, tr, steps) && steps == [TimeSlice(512, 1, 0), TimeSlice(0, 1, 0)]
    ensures tr[1].h.timeSlice == tr[2].h.timeSlice == 512 && tr[1].sliceAt == 512 && tr[2].sliceAt == INT32_MAX
  {
    hide Alarm, Soonest, U32, Inv, Init;
    var w := Started(0);
    var u := Sliced(w, 512, 1);
    steps := [TimeSlice(512, 1, 0), TimeSlice(0, 1, 0)];
    tr := [w, u, Apply(u, steps[1])];
  }
}
