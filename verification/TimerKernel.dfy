/** The kernel's timer calls and timer interrupt, updating the registers in place. */
module TimerKernel {
  import opened Division
  import opened Sequences
  import opened TimerQueue
  import opened TimerRuns

  /** Changing an entry and linking another in before it, as one rewrite of the tail. */
  lemma LinkBefore<T>(s: seq<T>, p: nat, x: T, y: T)
    requires p < |s|
    ensures var r := s[p := y]; r[..p] + [x] + r[p..] == s[..p] + ([x] + ([y] + s[p..][1..]))
  {
  }

  function OldTicks(timeSlice: int, clockSpeed: nat): (r: int)
    requires clockSpeed > 0
  {
    S32(U32(timeSlice) / clockSpeed)
  }

  /** The length reported is the one that was set if and only if the clock runs at the rate
      of ticks, or the length was not negative and its clock counts fit in 32 bits. */
  lemma OldTicksIff(ticks: int, clockSpeed: nat)
    requires clockSpeed > 0 && -TWO31 <= ticks < TWO31
    ensures OldTicks(S32(ticks * clockSpeed), clockSpeed) == ticks
      <==> clockSpeed == 1 || 0 <= ticks * clockSpeed < TWO32
  {
    hide S32, U32;
    var x := ticks * clockSpeed;
    var u := U32(x);
    var q := u / clockSpeed;
    SameWord(x);
    Split(u, clockSpeed);
    InRange(ticks);
    if clockSpeed == 1 {
      assert q == u;
    } else if 0 <= x < TWO32 {
      Quotient(x, ticks, 0, clockSpeed);
    } else {
      Smaller(ticks, clockSpeed, x, u, q);
      SmallWord(q);
    }
  }

  lemma SameWord(x: int)
    ensures U32(S32(x)) == U32(x) && S32(U32(x)) == S32(x) && (0 <= x < TWO32 ==> U32(x) == x)
  {
  }

  lemma InRange(x: int)
    requires -TWO31 <= x < TWO31
    ensures S32(x) == x
  {
  }

  lemma SmallWord(x: int)
    requires 0 <= x < TWO31
    ensures S32(x) == x
  {
  }

  /** Of a product out of range the quotient is too small, or not negative as it should be. */
  lemma Smaller(ticks: int, k: nat, x: int, u: nat, q: int)
    requires k > 1 && x == ticks * k && u < TWO32 && u == k * q + u % k && (x < 0 || TWO32 <= x) && ticks < TWO31
    ensures 0 <= q < TWO31 && q != ticks
  {
    if q < 0 { Gap(k, 0, q); }
    if q >= TWO31 { Gap(k, q, TWO31 - 1); }
  }

  /** The walk to a timer's place passes an entry that is due earlier, and stops at the first
      that is not. */
  lemma StepOver(q: seq<Entry>, p: nat, t: nat, dj: nat, tolerance: nat)
    requires p < |q| && q[p].delta < dj
    ensures Position(q[p..], dj) == 1 + Position(q[p + 1..], dj - q[p].delta)
    ensures q[..p] + Insert(q[p..], t, dj, tolerance) == q[..p + 1] + Insert(q[p + 1..], t, dj - q[p].delta, tolerance)
  {
    hide Insert, Position, Granted;
    assert q[p..] == [q[p]] + q[p + 1..] && q[..p + 1] == q[..p] + [q[p]];
    LaterGranted(q[p], q[p + 1..], t, 0, dj, tolerance);
    Associate(q[..p], [q[p]], Insert(q[p + 1..], t, dj - q[p].delta, tolerance));
  }

  lemma StopAt(q: seq<Entry>, p: nat, dj: nat)
    requires p <= |q| && (p < |q| ==> dj <= q[p].delta)
    ensures Position(q[p..], dj) == 0
  {
  }

  /** Unlinking an entry when its ticks have gone to the next. */
  lemma Unlinked(q: seq<Entry>, k: nat)
    requires k < |q|
    ensures Remove(q, k) ==
      if k + 1 < |q| then
        var r := q[k + 1 := q[k + 1].(delta := q[k + 1].delta + q[k].delta)];
        r[..k] + r[k + 1..]
      else q[..k] + q[k + 1..]
  {
  }

  lemma Unsliced(w: World, t: nat, lag: nat)
    ensures Slice(w, Cancel(t, lag)) == w
  {
  }

  class Kernel {
    var lastTimer: int
    var timerExpire: int
    var queue: seq<Entry>
    var active: set<nat>
    var mailbox: seq<nat>
    var timeSlice: int
    var sliceExpire: int
    /** The time the hardware timer was last set to. */
    var alarm: int

    ghost function View(): (s: Regs)
      reads this
    {
      Regs(lastTimer, timerExpire, queue, active, mailbox)
    }

    /** The registers are those of a world of the model. */
    ghost predicate Shows(w: World)
      reads this
    {
      w.last <= w.clock && w.s == View() && w.h == Slicer(timeSlice, sliceExpire, alarm)
    }

    constructor (now: nat)
      requires now < TWO32
      ensures Shows(Init(now))
    {
      lastTimer, timerExpire, queue, active, mailbox := now, now, [], {}, [];
      timeSlice, sliceExpire, alarm := -1, 0, 0;
    }

    /** Program the earliest of the cap, the timer expiry and the slice expiry. */
    method SetExpiry(now: int)
      modifies this`alarm
      ensures alarm == Alarm(timerExpire, timeSlice > 0, sliceExpire, now)
    {
      var delta := INT32_MAX / 2;
      var expire := U32(now + delta);
      var timerDelta := S32(timerExpire - now);
      if timerDelta < delta { delta, expire := timerDelta, timerExpire; }
      if timeSlice > 0 {
        var sliceDelta := S32(sliceExpire - now);
        if sliceDelta < delta { delta, expire := sliceDelta, sliceExpire; }
      }
      alarm := expire;
    }

    /** A new length for time slices; zero stretches the one that runs, and a negative one
        turns slicing off. The old length is divided by the clock speed as unsigned words. */
    method SetTimeSlice(ticks: int, clockSpeed: nat, now: int, later: int, ghost w: World, ghost lag: nat)
        returns (oldTicks: int)
      requires clockSpeed > 0 && Shows(w) && now == U32(w.clock) && later == U32(w.clock + lag)
      modifies this
      ensures Shows(Apply(w, TimeSlice(ticks, clockSpeed, lag)))
      ensures oldTicks == OldTicks(old(timeSlice), clockSpeed)
    {
      oldTicks := S32(U32(timeSlice) / clockSpeed);
      if ticks != 0 {
        timeSlice := S32(ticks * clockSpeed);
        sliceExpire := U32(now + timeSlice);
      } else {
        sliceExpire := U32(now + INT32_MAX);
      }
      SetExpiry(later);
    }

    /** What the scheduler does about the slice of the task it dispatches. */
    method DispatchSlice(swap: bool, now: int, later: int, ghost w: World, ghost lag: nat)
      requires Shows(w) && now == U32(w.clock) && later == U32(w.clock + lag)
      modifies this
      ensures Shows(Apply(w, Dispatch(swap, lag)))
    {
      if timeSlice > 0 {
        if swap { sliceExpire := U32(now + timeSlice); }
        SetExpiry(later);
      }
    }

    /** Link a timer in before entry `p`, taking its ticks from that entry, and wait for
        the entry if it is not much later. */
    method LinkAt(p: nat, t: nat, dj: nat, tolerance: nat)
      requires p <= |queue| && (p < |queue| ==> dj <= queue[p].delta)
      modifies this`queue
      ensures queue == old(queue)[..p] + Insert(old(queue)[p..], t, dj, tolerance)
    {
      var timer := Entry(t, dj);
      if p < |queue| {
        var gap := queue[p].delta - dj;
        if gap < tolerance { timer, gap := timer.(delta := dj + gap), 0; }
        LinkBefore(queue, p, timer, queue[p].(delta := gap));
        queue := queue[p := queue[p].(delta := gap)];
      }
      queue := queue[..p] + [timer] + queue[p..];
    }

    /** Walk to the place of a timer due in `ticks`, and link it in there. */
    method Link(t: nat, ticks: nat, tolerance: nat) returns (p: nat)
      modifies this`queue
      ensures queue == Insert(old(queue), t, ticks, tolerance)
      ensures p == Position(old(queue), ticks)
    {
      hide Insert, Position;
      var dj: nat := ticks;
      p := 0;
      while p < |queue| && queue[p].delta < dj
        invariant p <= |queue| && queue == old(queue)
        invariant Position(queue, ticks) == p + Position(queue[p..], dj)
        invariant Insert(queue, t, ticks, tolerance) == queue[..p] + Insert(queue[p..], t, dj, tolerance)
      {
        StepOver(queue, p, t, dj, tolerance);
        dj := dj - queue[p].delta;
        p := p + 1;
      }
      StopAt(queue, p, dj);
      LinkAt(p, t, dj, tolerance);
    }

    /** `now` is the reading that dates the timer, `later` the one that sets the alarm. */
    method SetSoft(t: nat, delay: int, tolerance: int, clockSpeed: nat, now: int, later: int,
        ghost w: World, ghost lag: nat)
      requires Shows(w) && now == U32(w.clock) && later == U32(w.clock + lag)
      modifies this
      ensures Shows(Apply(w, Set(t, delay, tolerance, clockSpeed, lag)))
    {
      active := active - {t};
      if delay < 0 { return; }
      if delay == 0 {
        mailbox := mailbox + [t];
        return;
      }
      var delayj := U32(delay * clockSpeed);
      active := active + {t};
      var p := Link(t, U64(now - lastTimer + delayj), U64(S32(tolerance * clockSpeed)));
      if p == 0 {
        timerExpire := U32(now + delayj);
        SetExpiry(later);
      }
    }

    /** Take a queued timer off the queue; the next one gets its unexpired ticks. */
    method Unlink(t: nat)
      requires t in Timers(queue)
      modifies this`queue, this`active
      ensures Index(old(queue), t) < |old(queue)| && queue == Remove(old(queue), Index(old(queue), t))
      ensures active == old(active) - {t}
    {
      hide Remove, Timers;
      var k := Index(queue, t);
      Unlinked(queue, k);
      if k + 1 < |queue| {
        queue := queue[k + 1 := queue[k + 1].(delta := queue[k + 1].delta + queue[k].delta)];
      }
      queue := queue[..k] + queue[k + 1..];
      active := active - {t};
    }

    method CancelSoft(t: nat, later: int, ghost w: World, ghost lag: nat) returns (ok: bool)
      requires Shows(w) && later == U32(w.clock + lag) && (t in active ==> t in Timers(queue))
      modifies this
      ensures Shows(Apply(w, Cancel(t, lag))) && ok == (t in old(active))
    {
      hide Alarm, Deadlines, U32, U64, S32, Due, Soonest, Remove, Slice, Timers, Index;
      ok := t in active;
      Unsliced(w, t, lag);
      if ok {
        Unlink(t);
        assert t !in active;
        if queue != [] {
          timerExpire := U32(lastTimer + queue[0].delta);
          SetExpiry(later);
        }
      }
    }

    /** Deliver timers from the head while their deadline is before `w`. */
    method Deliver(w: int) returns (next: int, ghost n: nat)
      modifies this`queue, this`active, this`mailbox
      ensures n == Fired(old(queue), lastTimer, w) && queue == old(queue)[n..]
      ensures mailbox == old(mailbox) + Timers(old(queue))[..n]
      ensures active == old(active) - (set t | t in Timers(old(queue))[..n])
      ensures n < |old(queue)| ==> next + queue[0].delta == Deadlines(old(queue), lastTimer)[n]
    {
      hide U32, S32;
      ghost var q, d := queue, Deadlines(queue, lastTimer);
      next, n := lastTimer, 0;
      while queue != [] && S32(w - (next + queue[0].delta)) > 0
        invariant n <= |q| && queue == q[n..] && Fired(q, lastTimer, w) == n + Fired(queue, next, w)
        invariant Deadlines(queue, next) == d[n..]
        invariant mailbox == old(mailbox) + Timers(q)[..n]
        invariant active == old(active) - (set t | t in Timers(q)[..n])
        decreases |queue|
      {
        next := next + queue[0].delta;
        assert Timers(q)[..n + 1] == Timers(q)[..n] + [queue[0].timer];
        assert d[n..][1..] == d[n + 1..];
        active := active - {queue[0].timer};
        mailbox := mailbox + [queue[0].timer];
        queue := queue[1..];
        n := n + 1;
      }
      assert queue != [] ==> d[n] == d[n..][0];
    }

    /** Deliver what has expired, count from now, and see whether the time slice is over. */
    method Isr(now: int, later: int, ghost w: World, ghost lag: nat) returns (slice: bool)
      requires Shows(w) && now == U32(w.clock) && later == U32(w.clock + lag)
      modifies this
      ensures Shows(Apply(w, TimerRuns.Step.Isr(lag)))
      ensures slice == SliceOver(w.h, now, w.s.lastTimer)
    {
      hide Deadlines, Timers, Fired, Alarm, U32, Due, Dues, Far, Soonest;
      var wide := if now < lastTimer then now + TWO32 else now;
      var next, n := Deliver(wide);
      if queue != [] {
        next := next + queue[0].delta;
        queue := queue[0 := queue[0].(delta := U64(next - wide))];
        timerExpire := U32(next);
      } else {
        timerExpire := U32(wide + INT32_MAX / 2);
      }
      assert queue == Rebased(old(queue), lastTimer, wide);
      lastTimer := U32(wide);
      slice := timeSlice > 0 && wide > sliceExpire;
      if slice { sliceExpire := U32(now + INT32_MAX); }
      SetExpiry(later);
    }
  }
}
