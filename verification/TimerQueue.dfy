/** The delta queue of pending timers: each entry holds its distance from the one before.
    Its meaning is the list of absolute deadlines. */
module TimerQueue {
  import opened Sequences

  const TWO31 := 0x8000_0000
  const TWO32 := 0x1_0000_0000
  const TWO64 := 0x1_0000_0000_0000_0000
  const INT32_MAX := 0x7fff_ffff
  const FAR := TWO64 - TWO32

  /** The machine's conversions to 32-bit signed and 32- and 64-bit unsigned integers. */
  function U32(x: int): (r: int) ensures 0 <= r < TWO32 { x % TWO32 }
  function U64(x: int): (r: nat) ensures r < TWO64 { x % TWO64 }
  function S32(x: int): (r: int) ensures -TWO31 <= r < TWO31 { if U32(x) < TWO31 then U32(x) else U32(x) - TWO32 }

  datatype Entry = Entry(timer: nat, delta: nat)

  /** Absolute deadlines, with `base` the time the first delta counts from. */
  function Deadlines(q: seq<Entry>, base: int): (d: seq<int>)
    ensures |d| == |q|
  {
    if q == [] then [] else
      var next := base + q[0].delta;
      [next] + Deadlines(q[1..], next)
  }

  lemma {:induction false} InOrder(q: seq<Entry>, base: int)
    ensures forall i :: 0 <= i < |q| ==> base <= Deadlines(q, base)[i]
    ensures forall i, j :: 0 <= i <= j < |q| ==> Deadlines(q, base)[i] <= Deadlines(q, base)[j]
  {
    if q != [] {
      var next := base + q[0].delta;
      InOrder(q[1..], next);
      assert Deadlines(q, base)[1..] == Deadlines(q[1..], next);
      forall i | 1 <= i < |q| ensures Deadlines(q, base)[i] == Deadlines(q[1..], next)[i - 1] {}
    }
  }

  function Timers(q: seq<Entry>): (t: seq<nat>)
    ensures |t| == |q|
    ensures forall i :: 0 <= i < |t| ==> t[i] == q[i].timer
  {
    seq(|q|, i requires 0 <= i < |q| => q[i].timer)
  }

  /** A delta queue is its timers and their deadlines, nothing more. */
  lemma {:induction false} DeadlinesDetermine(p: seq<Entry>, q: seq<Entry>, base: int)
    requires Timers(p) == Timers(q) && Deadlines(p, base) == Deadlines(q, base)
    ensures p == q
  {
    assert |p| == |Timers(p)| == |q|;
    if p != [] {
      assert p == [p[0]] + p[1..] && q == [q[0]] + q[1..];
      Cons(p[0], p[1..], base);
      Cons(q[0], q[1..], base);
      var a, b := base + p[0].delta, base + q[0].delta;
      SameTail(a, Deadlines(p[1..], a), b, Deadlines(q[1..], b));
      SameTail(p[0].timer, Timers(p[1..]), q[0].timer, Timers(q[1..]));
      DeadlinesDetermine(p[1..], q[1..], base + p[0].delta);
    }
  }

  lemma SameTail<T>(x: T, s: seq<T>, y: T, t: seq<T>)
    requires [x] + s == [y] + t
    ensures x == y && s == t
  {
    assert ([x] + s)[0] == ([y] + t)[0] && ([x] + s)[1..] == s && ([y] + t)[1..] == t;
  }

  lemma Cons(e: Entry, q: seq<Entry>, base: int)
    ensures Deadlines([e] + q, base) == [base + e.delta] + Deadlines(q, base + e.delta)
    ensures Timers([e] + q) == [e.timer] + Timers(q)
  {
    assert ([e] + q)[1..] == q;
  }

  // ---- insertion ----

  /** Before which entry a timer due in `dj` goes: the first that is not due earlier. */
  function Position(q: seq<Entry>, dj: nat): (p: nat)
    ensures p <= |q|
  {
    if q == [] || q[0].delta >= dj then 0 else 1 + Position(q[1..], dj - q[0].delta)
  }

  /** Insert before the first entry that is not due earlier, and wait for that entry if
      it is less than `tolerance` later. */
  function Insert(q: seq<Entry>, t: nat, dj: nat, tolerance: nat): (r: seq<Entry>) {
    if q == [] then [Entry(t, dj)]
    else if q[0].delta < dj then [q[0]] + Insert(q[1..], t, dj - q[0].delta, tolerance)
    else if q[0].delta - dj < tolerance then [Entry(t, q[0].delta)] + ([q[0].(delta := 0)] + q[1..])
    else [Entry(t, dj)] + ([q[0].(delta := q[0].delta - dj)] + q[1..])
  }

  /** The deadline a timer asked for at `due` gets: that of the next entry when it is less
      than the tolerance away, else the one asked for. */
  function Granted(q: seq<Entry>, base: int, dj: nat, tolerance: nat): (d: int) {
    var p := Position(q, dj);
    if p < |q| && Deadlines(q, base)[p] - (base + dj) < tolerance then Deadlines(q, base)[p] else base + dj
  }

  /** Insertion adds one timer, after every earlier deadline and before the rest, and
      moves no other deadline. */
  lemma {:induction false} InsertMeaning(q: seq<Entry>, t: nat, dj: nat, tolerance: nat, base: int)
    ensures var p, d, r := Position(q, dj), Deadlines(q, base), Insert(q, t, dj, tolerance);
      && Timers(r) == Splice(Timers(q), p, t)
      && Deadlines(r, base) == Splice(d, p, Granted(q, base, dj, tolerance))
  {
    if q == [] || q[0].delta >= dj {
      InsertHere(q, t, dj, tolerance, base);
    } else {
      InsertMeaning(q[1..], t, dj - q[0].delta, tolerance, base + q[0].delta);
      InsertLater(q[0], q[1..], t, dj, tolerance, base);
      assert q == [q[0]] + q[1..];
    }
  }

  lemma InsertLater(e: Entry, q: seq<Entry>, t: nat, dj: nat, tolerance: nat, base: int)
    requires e.delta < dj
    requires var p, next := Position(q, dj - e.delta), base + e.delta;
      var g := Granted(q, next, dj - e.delta, tolerance);
      && Timers(Insert(q, t, dj - e.delta, tolerance)) == Splice(Timers(q), p, t)
      && Deadlines(Insert(q, t, dj - e.delta, tolerance), next) == Splice(Deadlines(q, next), p, g)
    ensures var p, s := Position([e] + q, dj), [e] + q;
      && Timers(Insert(s, t, dj, tolerance)) == Splice(Timers(s), p, t)
      && Deadlines(Insert(s, t, dj, tolerance), base) == Splice(Deadlines(s, base), p, Granted(s, base, dj, tolerance))
  {
    var rest, p := Insert(q, t, dj - e.delta, tolerance), Position(q, dj - e.delta);
    hide Deadlines, Timers, Splice, Granted, Insert, Position;
    LaterGranted(e, q, t, base, dj, tolerance);
    Cons(e, q, base);
    Cons(e, rest, base);
    SpliceCons(base + e.delta, Deadlines(q, base + e.delta), p, Granted(q, base + e.delta, dj - e.delta, tolerance));
    SpliceCons(e.timer, Timers(q), p, t);
  }

  lemma LaterGranted(e: Entry, q: seq<Entry>, t: nat, base: int, dj: nat, tolerance: nat)
    requires e.delta < dj
    ensures Position([e] + q, dj) == Position(q, dj - e.delta) + 1
    ensures Insert([e] + q, t, dj, tolerance) == [e] + Insert(q, t, dj - e.delta, tolerance)
    ensures Granted([e] + q, base, dj, tolerance) == Granted(q, base + e.delta, dj - e.delta, tolerance)
  {
    assert ([e] + q)[1..] == q;
    Cons(e, q, base);
  }

  lemma InsertHere(q: seq<Entry>, t: nat, dj: nat, tolerance: nat, base: int)
    requires Position(q, dj) == 0
    ensures Timers(Insert(q, t, dj, tolerance)) == [t] + Timers(q)
    ensures Deadlines(Insert(q, t, dj, tolerance), base) == [Granted(q, base, dj, tolerance)] + Deadlines(q, base)
  {
    if q == [] {
      Cons(Entry(t, dj), [], base);
      assert Insert(q, t, dj, tolerance) == [Entry(t, dj)] + [];
    } else {
      assert q == [q[0]] + q[1..];
      InsertBefore(q[0], q[1..], t, dj, tolerance, base);
    }
  }

  lemma InsertBefore(e: Entry, rest: seq<Entry>, t: nat, dj: nat, tolerance: nat, base: int)
    requires e.delta >= dj
    ensures var q := [e] + rest;
      && Timers(Insert(q, t, dj, tolerance)) == [t] + Timers(q)
      && Deadlines(Insert(q, t, dj, tolerance), base) == [Granted(q, base, dj, tolerance)] + Deadlines(q, base)
  {
    hide Deadlines, Timers;
    var q := [e] + rest;
    assert q[1..] == rest;
    Cons(e, rest, base);
    var g := Granted(q, base, dj, tolerance);
    var d := e.(delta := base + e.delta - g);
    assert Insert(q, t, dj, tolerance) == [Entry(t, g - base)] + ([d] + rest);
    hide Insert, Granted, Position;
    Cons(d, rest, g);
    Cons(Entry(t, g - base), [d] + rest, base);
  }

  lemma {:induction false} PositionMeaning(q: seq<Entry>, dj: nat, base: int)
    ensures forall i :: 0 <= i < Position(q, dj) ==> Deadlines(q, base)[i] < base + dj
    ensures forall i :: Position(q, dj) <= i < |q| ==> base + dj <= Deadlines(q, base)[i]
  {
    if q != [] && q[0].delta < dj {
      PositionMeaning(q[1..], dj - q[0].delta, base + q[0].delta);
      Cons(q[0], q[1..], base);
      assert q == [q[0]] + q[1..];
    } else if q != [] {
      InOrder(q, base);
      assert Deadlines(q, base)[0] == base + q[0].delta;
    }
  }

  /** The granted deadline is never early and is late by less than the tolerance. */
  lemma GrantedWithinTolerance(q: seq<Entry>, base: int, dj: nat, tolerance: nat)
    ensures var g := Granted(q, base, dj, tolerance);
      base + dj <= g && (g == base + dj || g < base + dj + tolerance)
  {
    PositionMeaning(q, dj, base);
  }

  // ---- cancellation ----

  /** Unlink entry `k`; the next one gets its unexpired ticks. */
  function Remove(q: seq<Entry>, k: nat): (r: seq<Entry>)
    requires k < |q|
  {
    if k + 1 < |q| then q[..k] + [q[k + 1].(delta := q[k + 1].delta + q[k].delta)] + q[k + 2..] else q[..k]
  }

  lemma {:induction false} RemoveMeaning(q: seq<Entry>, k: nat, base: int)
    requires k < |q|
    ensures Timers(Remove(q, k)) == Cut(Timers(q), k)
    ensures Deadlines(Remove(q, k), base) == Cut(Deadlines(q, base), k)
  {
    hide Deadlines, Timers, Remove;
    if k == 0 {
      RemoveHead(q, base);
    } else {
      RemoveMeaning(q[1..], k - 1, base + q[0].delta);
      assert q == [q[0]] + q[1..];
      RemoveLater(q[0], q[1..], k - 1, base);
    }
  }

  lemma RemoveLater(e: Entry, q: seq<Entry>, k: nat, base: int)
    requires k < |q| && Timers(Remove(q, k)) == Cut(Timers(q), k)
    requires Deadlines(Remove(q, k), base + e.delta) == Cut(Deadlines(q, base + e.delta), k)
    ensures var s := [e] + q;
      && Timers(Remove(s, k + 1)) == Cut(Timers(s), k + 1)
      && Deadlines(Remove(s, k + 1), base) == Cut(Deadlines(s, base), k + 1)
  {
    hide Deadlines, Timers, Cut, Remove;
    RemoveCons(e, q, k);
    Cons(e, q, base);
    Cons(e, Remove(q, k), base);
    CutCons(base + e.delta, Deadlines(q, base + e.delta), k);
    CutCons(e.timer, Timers(q), k);
  }

  lemma RemoveCons(e: Entry, q: seq<Entry>, k: nat)
    requires k < |q|
    ensures Remove([e] + q, k + 1) == [e] + Remove(q, k)
  {
  }

  lemma RemoveHead(q: seq<Entry>, base: int)
    requires q != []
    ensures Timers(Remove(q, 0)) == Timers(q)[1..] && Deadlines(Remove(q, 0), base) == Deadlines(q, base)[1..]
  {
    if |q| > 1 {
      assert q == [q[0]] + ([q[1]] + q[2..]);
      RemoveFirst(q[0], q[1], q[2..], base);
    }
  }

  lemma RemoveFirst(c: Entry, d: Entry, rest: seq<Entry>, base: int)
    ensures var q := [c] + ([d] + rest);
      Timers(Remove(q, 0)) == Timers(q)[1..] && Deadlines(Remove(q, 0), base) == Deadlines(q, base)[1..]
  {
    hide Deadlines, Timers;
    var e := d.(delta := d.delta + c.delta);
    assert Remove([c] + ([d] + rest), 0) == [e] + rest;
    hide Remove;
    Cons(c, [d] + rest, base);
    Cons(d, rest, base + c.delta);
    Cons(e, rest, base);
  }

  /** Setting and then cancelling a timer restores every delta. */
  lemma {:induction false} CancelUndoesSet(q: seq<Entry>, t: nat, dj: nat, tolerance: nat)
    ensures Position(q, dj) < |Insert(q, t, dj, tolerance)|
    ensures Remove(Insert(q, t, dj, tolerance), Position(q, dj)) == q
  {
    hide Deadlines, Timers, Remove, Insert, Splice, Cut;
    var p, r := Position(q, dj), Insert(q, t, dj, tolerance);
    InsertMeaning(q, t, dj, tolerance, 0);
    CutSplice(Timers(q), p, t);
    CutSplice(Deadlines(q, 0), p, Granted(q, 0, dj, tolerance));
    assert |r| == |Timers(r)|;
    RemoveMeaning(r, p, 0);
    DeadlinesDetermine(Remove(r, p), q, 0);
  }

  // ---- the interrupt ----

  /** The interrupt's test for a deadline before now. */
  predicate Passed(now: int, d: int) { S32(now - d) > 0 }

  /** How many timers the interrupt at `now` delivers, comparing 32-bit differences. */
  function Fired(q: seq<Entry>, last: int, now: int): (n: nat)
    ensures n <= |q|
  {
    if q == [] || !Passed(now, last + q[0].delta) then 0
    else 1 + Fired(q[1..], last + q[0].delta, now)
  }

  /** What stays queued, counting from `now`. */
  function Rebased(q: seq<Entry>, last: int, now: int): (r: seq<Entry>) {
    var n := Fired(q, last, now);
    if n == |q| then [] else [q[n].(delta := U64(Deadlines(q, last)[n] - now))] + q[n + 1..]
  }

  lemma {:induction false} FiredStops(q: seq<Entry>, last: int, now: int)
    ensures var n, d := Fired(q, last, now), Deadlines(q, last);
      && (forall i :: 0 <= i < n ==> Passed(now, d[i]))
      && (n < |q| ==> !Passed(now, d[n]))
  {
    if q != [] {
      var next := last + q[0].delta;
      assert Deadlines(q, last) == [next] + Deadlines(q[1..], next);
      if Passed(now, next) { FiredStops(q[1..], next, now); }
    }
  }

  /** The interrupt delivers exactly the timers due strictly before `now`. */
  ghost predicate FiresExactly(q: seq<Entry>, last: int, now: int) {
    forall i :: 0 <= i < |q| ==> (i < Fired(q, last, now) <==> Deadlines(q, last)[i] < now)
  }

  predicate InReach(now: int, d: int) {
    if d < now then 0 < U32(now - d) < TWO31 else U32(d - now) <= TWO31
  }

  /** The deadlines that decide: those expired and the first that has not. */
  predicate Decisive(d: seq<int>, now: int, i: nat)
    requires i < |d|
  {
    d[i] < now || i == 0 || d[i - 1] < now
  }

  /** Every deadline that decides is within reach of the 32-bit comparison. */
  ghost predicate WithinReach(q: seq<Entry>, last: int, now: int) {
    var d := Deadlines(q, last);
    forall i: nat :: i < |q| && Decisive(d, now, i) ==> InReach(now, d[i])
  }

  lemma ReachOfOne(now: int, d: int)
    ensures InReach(now, d) <==> (Passed(now, d) <==> d < now)
  {
    Negated(now - d);
  }

  lemma Negated(x: int)
    ensures U32(-x) == if U32(x) == 0 then 0 else TWO32 - U32(x)
  {
    var k, m := x / TWO32, x % TWO32;
    assert x == TWO32 * k + m;
    assert -x == TWO32 * (-k) - m == TWO32 * (-k - 1) + (TWO32 - m);
  }

  lemma DeliversExactlyIff(q: seq<Entry>, last: int, now: int)
    ensures FiresExactly(q, last, now) <==> WithinReach(q, last, now)
  {
    var d := Deadlines(q, last);
    if FiresExactly(q, last, now) {
      forall i: nat | i < |q| && Decisive(d, now, i) ensures InReach(now, d[i]) {
        ExactIsInReach(q, last, now, i);
      }
    }
    if WithinReach(q, last, now) {
      forall i | 0 <= i < |q| ensures i < Fired(q, last, now) <==> d[i] < now { ReachIsExact(q, last, now, i); }
    }
  }

  lemma ExactIsInReach(q: seq<Entry>, last: int, now: int, i: nat)
    requires FiresExactly(q, last, now) && i < |q|
    ensures Decisive(Deadlines(q, last), now, i) ==> InReach(now, Deadlines(q, last)[i])
  {
    FiredStops(q, last, now);
    ReachOfOne(now, Deadlines(q, last)[i]);
    assert i > 0 && Deadlines(q, last)[i - 1] < now ==> i - 1 < Fired(q, last, now);
  }

  lemma ReachIsExact(q: seq<Entry>, last: int, now: int, i: nat)
    requires WithinReach(q, last, now) && i < |q|
    ensures i < Fired(q, last, now) <==> Deadlines(q, last)[i] < now
  {
    var n, d := Fired(q, last, now), Deadlines(q, last);
    FiredStops(q, last, now);
    InOrder(q, last);
    if n < |q| && d[n] < now {
      assert Decisive(d, now, n);
      ReachOfOne(now, d[n]);
    }
    if i < n && now <= d[i] {
      var j := FirstLate(d, now, i);
      ReachOfOne(now, d[j]);
    }
  }

  /** If deadline `i` has not passed, some deadline up to it is the first that has not. */
  lemma {:induction false} FirstLate(d: seq<int>, now: int, i: nat) returns (j: nat)
    requires i < |d| && now <= d[i]
    ensures j <= i && now <= d[j] && Decisive(d, now, j)
  {
    if Decisive(d, now, i) { j := i; } else { j := FirstLate(d, now, i - 1); }
  }

  /** A timer more than half the counter range ahead is delivered early. */
  lemma EarlyDelivery(q: seq<Entry>, last: int, now: int)
    requires q != [] && TWO31 < last + q[0].delta - now < TWO32
    ensures Fired(q, last, now) > 0 && now < Deadlines(q, last)[0]
  {
    ReachOfOne(now, last + q[0].delta);
  }

  /** When it delivers exactly, the first deadline left has not passed. */
  lemma StillDue(q: seq<Entry>, last: int, now: int)
    requires FiresExactly(q, last, now)
    ensures var n := Fired(q, last, now); n < |q| ==> now <= Deadlines(q, last)[n]
  {
  }

  /** When the first deadline left has not passed, re-basing moves no pending deadline. */
  lemma RebaseMeaning(q: seq<Entry>, last: int, now: int)
    requires var n := Fired(q, last, now); n < |q| ==> now <= Deadlines(q, last)[n] < now + TWO64
    ensures var n := Fired(q, last, now);
      && Timers(Rebased(q, last, now)) == Timers(q)[n..]
      && Deadlines(Rebased(q, last, now), now) == Deadlines(q, last)[n..]
  {
    hide Deadlines, Timers, Fired, Rebased;
    var n := Fired(q, last, now);
    if n < |q| {
      RebasedIs(q, last, now, n);
      RestOf(q, last, n);
      Rebase(q, n, Deadlines(q, last)[n] - now, now);
    } else {
      NothingLeft(q, last, now);
      NoEntries(now);
    }
  }

  lemma NothingLeft(q: seq<Entry>, last: int, now: int)
    requires Fired(q, last, now) == |q|
    ensures Rebased(q, last, now) == [] && Timers(q)[|q|..] == [] && Deadlines(q, last)[|q|..] == []
  {
    hide Deadlines, Fired;
  }

  lemma RebasedIs(q: seq<Entry>, last: int, now: int, n: nat)
    requires n == Fired(q, last, now) < |q| && now <= Deadlines(q, last)[n] < now + TWO64
    ensures Rebased(q, last, now) == [q[n].(delta := Deadlines(q, last)[n] - now)] + q[n + 1..]
  {
    hide Deadlines, Fired;
  }

  lemma NoEntries(base: int)
    ensures Deadlines([], base) == [] && Timers([]) == []
  {
  }

  lemma Rebase(q: seq<Entry>, n: nat, delta: nat, now: int)
    requires n < |q|
    ensures var r := [q[n].(delta := delta)] + q[n + 1..];
      && Timers(r) == Timers(q)[n..]
      && Deadlines(r, now) == [now + delta] + Deadlines(q[n + 1..], now + delta)
  {
    Cons(q[n].(delta := delta), q[n + 1..], now);
  }

  /** The deadlines from entry `n` on do not depend on those before, given its own. */
  lemma {:induction false} RestOf(q: seq<Entry>, last: int, n: nat)
    requires n < |q|
    ensures var d := Deadlines(q, last); d[n..] == [d[n]] + Deadlines(q[n + 1..], d[n])
  {
    if n > 0 {
      RestOf(q[1..], last + q[0].delta, n - 1);
      assert q[1..][n..] == q[n + 1..];
    }
  }

  // ---- programming the alarm ----

  /** The earliest of the cap, the timer expiry and, when slicing, the slice expiry. */
  function Alarm(timerExpire: int, slicing: bool, sliceExpire: int, now: int): (r: int) {
    var cap := INT32_MAX / 2;
    var d := S32(timerExpire - now);
    var delta, expire := if d < cap then d else cap, if d < cap then timerExpire else U32(now + cap);
    if slicing && S32(sliceExpire - now) < delta then sliceExpire else expire
  }

  function Min(a: int, b: int): (m: int) { if a < b then a else b }

  /** The true time that is meant. */
  function Soonest(timer: int, slicing: bool, slice: int, now: int): (at: int)
    ensures at <= timer && at <= now + INT32_MAX / 2 && (slicing ==> at <= slice)
    ensures at == timer || at == now + INT32_MAX / 2 || (slicing && at == slice)
  {
    var due := Min(timer, now + INT32_MAX / 2);
    if slicing then Min(due, slice) else due
  }

  /** With the true times within half the counter range of now, that is their minimum. */
  lemma AlarmIsMinimum(timer: int, slicing: bool, slice: int, now: int)
    requires -TWO31 <= timer - now < TWO31 && (slicing ==> -TWO31 <= slice - now < TWO31)
    ensures Alarm(U32(timer), slicing, U32(slice), U32(now)) == U32(Soonest(timer, slicing, slice, now))
  {
    hide U32, S32;
    Difference(timer, now);
    if slicing { Difference(slice, now); }
    WrapSum(now, INT32_MAX / 2);
  }

  lemma WrapSum(a: int, b: int)
    ensures U32(U32(a) + b) == U32(a + b)
  {
    assert a == TWO32 * (a / TWO32) + U32(a);
  }

  lemma Difference(a: int, b: int)
    requires -TWO31 <= a - b < TWO31
    ensures S32(U32(a) - U32(b)) == a - b
  {
    var i, j := a / TWO32, b / TWO32;
    assert U32(a) - U32(b) == (a - b) + TWO32 * (j - i);
  }

  // ---- distances across the wrap of the counter ----

  /** The current time widened as the interrupt does it. */
  function Widened(now: int, last: int): (r: int) { if now < last then now + TWO32 else now }

  /** The interrupt measures time right across a wrap; setting a timer does so exactly
      when the counter has not wrapped since the last interrupt, and otherwise gets 2^32 too
      little, modulo 2^64. */
  lemma MeasuredTime(clock: nat, last: nat, delayj: nat)
    requires last <= clock < last + TWO32 && delayj < TWO32
    ensures Widened(U32(clock), U32(last)) - U32(last) == clock - last
    ensures var ticks := U64(U32(clock) - U32(last) + delayj);
      && (ticks == clock - last + delayj <==> U32(last) <= U32(clock))
      && (clock - last + delayj < TWO32 && U32(clock) < U32(last) ==> ticks == clock - last + delayj + FAR)
  {
    var i, j := clock / TWO32, last / TWO32;
    assert clock == TWO32 * i + U32(clock) && last == TWO32 * j + U32(last);
    assert i == j || i == j + 1;
  }

  lemma WholeTurns(x: int, k: int)
    ensures U32(x + TWO32 * k) == U32(x)
  {
    assert x + TWO32 * k == TWO32 * (x / TWO32 + k) + U32(x);
  }

  // ---- timers set across a wrap of the counter ----

  /** The deadline of a timer set across a wrap stands in the queue FAR too late. */
  predicate Far(d: int, last: int) { d - last >= FAR / 2 }

  function Due(d: int, last: int): (due: int) { if Far(d, last) then d - FAR else d }

  /** When each timer is due in truth, which is what the interrupt compares. */
  function Dues(q: seq<Entry>, last: int): (due: seq<int>)
    ensures |due| == |q|
    ensures forall i :: 0 <= i < |q| ==> due[i] == Due(Deadlines(q, last)[i], last)
  {
    seq(|q|, i requires 0 <= i < |q| => Due(Deadlines(q, last)[i], last))
  }

  lemma DueWraps(d: int, last: int)
    ensures U32(Due(d, last)) == U32(d)
    ensures forall now :: Passed(now, d) <==> Passed(now, Due(d, last))
  {
    hide U32;
    WholeTurns(d, 1 - TWO32);
    forall now ensures Passed(now, d) <==> Passed(now, Due(d, last)) { WholeTurns(now - d, TWO32 - 1); }
  }

  /** The interrupt delivers timers as long as they were due, and stops at the first that
      is not. */
  lemma FiredDues(q: seq<Entry>, last: int, now: int)
    requires forall i :: 0 <= i < |q| ==> now - TWO31 < Dues(q, last)[i] <= now + TWO31
    ensures var n, due := Fired(q, last, now), Dues(q, last);
      && (forall i :: 0 <= i < n ==> due[i] < now)
      && (n < |q| ==> now <= due[n])
  {
    hide Passed, Due, Far, U32;
    var n, due := Fired(q, last, now), Dues(q, last);
    forall i: nat | i < n ensures due[i] < now {
      FiredAt(q, last, now, i);
      NearPassed(now, due[i]);
    }
    if n < |q| {
      FiredAt(q, last, now, n);
      NearPassed(now, due[n]);
    }
  }

  lemma FiredAt(q: seq<Entry>, last: int, now: int, i: nat)
    requires i < |q| && i <= Fired(q, last, now)
    ensures Passed(now, Dues(q, last)[i]) <==> i < Fired(q, last, now)
  {
    hide Passed;
    FiredStops(q, last, now);
    DueWraps(Deadlines(q, last)[i], last);
    assert i < Fired(q, last, now) ==> Passed(now, Deadlines(q, last)[i]);
  }

  lemma NearPassed(now: int, due: int)
    requires now - TWO31 < due <= now + TWO31
    ensures Passed(now, due) <==> due < now
  {
    ReachOfOne(now, due);
  }

  ghost predicate Ordered(due: seq<int>) { forall i, k :: 0 <= i <= k < |due| ==> due[i] <= due[k] }

  /** A timer is overdue behind one that is not. */
  ghost predicate Blocked(due: seq<int>, now: int) { exists i, k :: 0 <= i < k < |due| && due[k] < now <= due[i] }

  lemma OrderedServes(due: seq<int>, now: int)
    requires Ordered(due)
    ensures !Blocked(due, now) && (due != [] ==> forall k :: 0 <= k < |due| ==> due[0] <= due[k])
  {
  }
}
