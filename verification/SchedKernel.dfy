/** The scheduler's code over its array of 32-bit flag words, proved to take the steps of
    the model. */
module SchedKernel {
  import opened Sched
  import opened SchedSafety

  /** Bit `b` of a word, and the word with that bit set (`|= 1 << b`) or inverted (`^= 1 << b`). */
  predicate Bit(w: nat, b: nat) { if b == 0 then w % 2 == 1 else Bit(w / 2, b - 1) }

  function SetBit(w: nat, b: nat): (r: nat) {
    if b == 0 then w - w % 2 + 1 else 2 * SetBit(w / 2, b - 1) + w % 2
  }

  function Flip(w: nat, b: nat): (r: nat) {
    if b == 0 then w + 1 - 2 * (w % 2) else 2 * Flip(w / 2, b - 1) + w % 2
  }

  function Pow2(n: nat): (r: nat)
    ensures r > 0
  {
    if n == 0 then 1 else 2 * Pow2(n - 1)
  }

  /** Leading zeros of a word of `n` bits. */
  function Clz(w: nat, n: nat): (z: nat)
    ensures z <= n
  {
    if n == 0 || w >= Pow2(n - 1) then 0 else 1 + Clz(w, n - 1)
  }

  /** The number of the most significant bit. */
  function Uffb(w: nat): (b: int) { 31 - Clz(w, 32) }

  lemma {:induction false} SetBits(w: nat, b: nat, i: nat)
    ensures Bit(SetBit(w, b), i) <==> i == b || Bit(w, i)
  {
    if b > 0 && i > 0 { SetBits(w / 2, b - 1, i - 1); }
  }

  lemma {:induction false} FlippedBits(w: nat, b: nat, i: nat)
    ensures Bit(Flip(w, b), i) <==> (i == b) != Bit(w, i)
  {
    if b > 0 && i > 0 { FlippedBits(w / 2, b - 1, i - 1); }
  }

  /** Setting a bit below `n` keeps a word of `n` bits one; so does clearing one, and it
      makes the word smaller. */
  lemma {:induction false} BitRange(w: nat, b: nat, n: nat)
    requires b < n && w < Pow2(n)
    ensures SetBit(w, b) < Pow2(n)
    ensures Bit(w, b) ==> Flip(w, b) < w
  {
    if b > 0 { BitRange(w / 2, b - 1, n - 1); }
  }

  /** In a word of `n` bits the bits from `n` on are clear. */
  lemma {:induction false} HighClear(w: nat, n: nat, i: nat)
    requires w < Pow2(n) && n <= i
    ensures !Bit(w, i)
  {
    if i > 0 { HighClear(w / 2, if n > 0 then n - 1 else 0, i - 1); }
  }

  lemma {:induction false} TopSet(w: nat, n: nat)
    requires Pow2(n) <= w < Pow2(n + 1)
    ensures Bit(w, n)
  {
    if n > 0 { TopSet(w / 2, n - 1); }
  }

  lemma {:induction false} LeadingBit(w: nat, n: nat)
    requires 0 < w < Pow2(n)
    ensures Clz(w, n) < n && Pow2(n - 1 - Clz(w, n)) <= w < Pow2(n - Clz(w, n))
  {
    if w < Pow2(n - 1) { LeadingBit(w, n - 1); }
  }

  /** It is the position of the highest bit that is set. */
  lemma UffbIsHighest(w: nat)
    requires 0 < w < Pow2(32)
    ensures 0 <= Uffb(w) < 32 && Bit(w, Uffb(w))
    ensures forall i: nat :: i > Uffb(w) ==> !Bit(w, i)
  {
    LeadingBit(w, 32);
    TopSet(w, Uffb(w));
    forall i: nat | i > Uffb(w) ensures !Bit(w, i) { HighClear(w, Uffb(w) + 1, i); }
  }

  /** The flags, priority by priority. */
  function Bits(words: seq<nat>): (r: seq<bool>)
    ensures |r| == 32 * |words|
    ensures forall p :: 0 <= p < |r| ==> r[p] == Bit(words[p / 32], p % 32)
  {
    seq(32 * |words|, p requires 0 <= p < 32 * |words| => Bit(words[p / 32], p % 32))
  }

  ghost predicate Words(words: seq<nat>) {
    forall i :: 0 <= i < |words| ==> words[i] < Pow2(32)
  }

  /** The highest bit of the highest word in use is the highest flag. */
  lemma HighestFlag(words: seq<nat>, i: nat)
    requires Words(words) && i < |words| && words[i] != 0 && forall k :: i < k < |words| ==> words[k] == 0
    ensures 0 <= Uffb(words[i]) < 32
    ensures var n := 32 * i + Uffb(words[i]);
      n < 32 * |words| && Bits(words)[n] && forall p :: n < p < 32 * |words| ==> !Bits(words)[p]
  {
    hide Pow2, Uffb, Bit;
    UffbIsHighest(words[i]);
    var n := 32 * i + Uffb(words[i]);
    forall p | n < p < 32 * |words| ensures !Bits(words)[p] {
      assert p / 32 >= i;
      if p / 32 == i { assert p % 32 > Uffb(words[i]); } else { ZeroBits(p % 32); }
    }
  }

  lemma {:induction false} ZeroBits(i: nat)
    ensures !Bit(0, i)
  {
    if i > 0 { ZeroBits(i - 1); }
  }

  lemma FlipBits(words: seq<nat>, i: nat, b: nat)
    requires Words(words) && i < |words| && b < 32 && Bit(words[i], b)
    ensures Bits(words[i := Flip(words[i], b)]) == Bits(words)[32 * i + b := false]
    ensures Flip(words[i], b) < words[i]
  {
    hide Bit, Flip, Pow2;
    BitRange(words[i], b, 32);
    var after := Bits(words[i := Flip(words[i], b)]);
    forall p | 0 <= p < |after| ensures after[p] == Bits(words)[32 * i + b := false][p] {
      assert p / 32 == i && p % 32 == b <==> p == 32 * i + b;
      FlippedBits(words[i], b, p % 32);
    }
  }

  lemma EmptyWords(words: seq<nat>, i: nat)
    requires i <= |words| && forall k :: i <= k < |words| ==> words[k] == 0
    ensures forall p :: 32 * i <= p < 32 * |words| ==> !Bits(words)[p]
  {
    hide Bit;
    forall p | 32 * i <= p < 32 * |words| ensures !Bits(words)[p] { ZeroBits(p % 32); }
  }

  /** With no flag from `n` on, the search may start below it. */
  lemma {:induction false} SkipClear(queues: map<Hold, seq<nat>>, flags: seq<bool>, n: nat, m: nat)
    requires n <= m && forall p :: n <= p < m && p < |flags| ==> !flags[p]
    ensures Flagged(queues, flags, m) == Flagged(queues, flags, n)
  {
    if n < m { SkipClear(queues, flags, n, m - 1); }
  }

  /** A flag of an empty queue makes no difference to the search. */
  lemma {:induction false} StaleFlag(queues: map<Hold, seq<nat>>, flags: seq<bool>, b: nat, n: nat)
    requires b < |flags| && Q(queues, Pri(b)) == []
    ensures Flagged(queues, flags[b := false], n) == Flagged(queues, flags, n)
  {
    if n > 0 { StaleFlag(queues, flags, b, n - 1); }
  }

  /** Part way through the search: the words above `i` are clear, and so are exactly the
      flags above `top`; what the search is to find has not changed. */
  ghost predicate Searching(ws: seq<nat>, flags: seq<bool>, queues: map<Hold, seq<nat>>, i: int, top: int) {
    && Words(ws) && -1 <= i < |ws| && -1 <= top < 32 * |ws|
    && (forall k :: i < k < |ws| ==> ws[k] == 0)
    && Bits(ws) == Cleared(flags, top)
    && Flagged(queues, Bits(ws), 32 * |ws|) == Flagged(queues, flags, 32 * |ws|)
  }

  lemma Begin(ws: seq<nat>, queues: map<Hold, seq<nat>>)
    requires Words(ws)
    ensures Searching(ws, Bits(ws), queues, |ws| - 1, 32 * |ws| - 1)
  {
    assert Cleared(Bits(ws), 32 * |ws| - 1) == Bits(ws);
  }

  lemma Found(ws: seq<nat>, flags: seq<bool>, queues: map<Hold, seq<nat>>, i: nat, top: int)
    requires Searching(ws, flags, queues, i, top) && ws[i] != 0
    ensures 0 <= Uffb(ws[i]) < 32
    ensures var n := 32 * i + Uffb(ws[i]);
      && n < 32 * |ws| && Bits(ws) == Cleared(flags, n)
      && (Q(queues, Pri(n)) != [] ==> Flagged(queues, flags, 32 * |ws|) == n)
  {
    var n := 32 * i + Uffb(ws[i]);
    HighestFlag(ws, i);
    ClearTo(flags, n, top, Bits(ws));
    SkipClear(queues, Bits(ws), n + 1, 32 * |ws|);
  }

  lemma Stale(ws: seq<nat>, flags: seq<bool>, queues: map<Hold, seq<nat>>, i: nat, top: int)
    requires Searching(ws, flags, queues, i, top) && ws[i] != 0 && 0 <= Uffb(ws[i]) < 32
    requires Q(queues, Pri(32 * i + Uffb(ws[i]))) == []
    ensures var b := Uffb(ws[i]);
      Searching(ws[i := Flip(ws[i], b)], flags, queues, i, 32 * i + b - 1) && Flip(ws[i], b) < ws[i]
  {
    var b := Uffb(ws[i]);
    Found(ws, flags, queues, i, top);
    UffbIsHighest(ws[i]);
    hide Bit, Uffb, Flip, Pow2;
    FlipBits(ws, i, b);
    StaleFlag(queues, Bits(ws), 32 * i + b, 32 * |ws|);
    assert Cleared(flags, 32 * i + b)[32 * i + b := false] == Cleared(flags, 32 * i + b - 1);
  }

  lemma Exhausted(ws: seq<nat>, flags: seq<bool>, queues: map<Hold, seq<nat>>, top: int)
    requires Searching(ws, flags, queues, -1, top)
    ensures Flagged(queues, flags, 32 * |ws|) == -1 && Bits(ws) == Cleared(flags, -1)
  {
    EmptyWords(ws, 0);
    SkipClear(queues, Bits(ws), 0, 32 * |ws|);
    ClearTo(flags, -1, top, Bits(ws));
  }

  lemma ClearTo(flags: seq<bool>, n: int, top: int, now: seq<bool>)
    requires now == Cleared(flags, top) && -1 <= n <= top && forall p :: n < p < |now| ==> !now[p]
    ensures Cleared(flags, n) == Cleared(flags, top)
  {
  }

  class Kernel {
    const maxPri: nat
    const timer: nat
    var words: array<nat>
    var tasks: map<nat, Task>
    var queues: map<Hold, seq<nat>>
    var current: Option<nat>
    var idle: Option<nat>
    /** Words of the tasks and of time slicing that the scheduler passes on. */
    var testResult: map<nat, nat>
    var timedOut: set<nat>
    var timeSlice: int
    var sliceExpire: nat

    ghost predicate Valid()
      reads this, words
    {
      words.Length == maxPri / 32 + 1 && Words(words[..]) && Inv(View())
    }

    ghost function View(): (s: State)
      reads this, words
    {
      State(maxPri, timer, tasks, queues, Bits(words[..]), current, idle)
    }

    constructor (maxPriority: nat, startup: nat, timerTask: nat)
      requires maxPriority > 0
      ensures Valid() && View() == Boot(maxPriority, startup, timerTask) && timeSlice == -1
    {
      maxPri, timer := maxPriority, timerTask;
      words := new nat[maxPriority / 32 + 1](i => if i == 0 then 1 else 0);
      tasks, queues := map[startup := Task(0, Pri(0), Other)], map[];
      current, idle := Some(startup), None;
      testResult, timedOut, timeSlice, sliceExpire := map[], {}, -1, 0;
      new;
      FirstFlag(words[..]);
      assert Bits(words[..]) == Boot(maxPriority, startup, timerTask).flags;
      BootInv(maxPriority, startup, timerTask);
    }

    method MarkActive(p: nat)
      requires p / 32 < words.Length && Words(words[..])
      modifies words
      ensures Bits(words[..]) == Mark(old(Bits(words[..])), p) && Words(words[..])
    {
      hide Bit, SetBit, Pow2;
      BitRange(words[p / 32], p % 32, 32);
      ghost var before := words[..];
      words[p / 32] := SetBit(words[p / 32], p % 32);
      forall q | 0 <= q < 32 * words.Length ensures Bits(words[..])[q] == (Bits(before)[q] || q == p) {
        assert q / 32 == p / 32 && q % 32 == p % 32 <==> q == p;
        SetBits(before[p / 32], p % 32, q % 32);
      }
    }

    /** Find the highest ready task by the flags, clearing those found out of date. */
    method Search() returns (n: int)
      requires Words(words[..])
      modifies words
      ensures n == Flagged(queues, old(Bits(words[..])), 32 * words.Length)
      ensures Bits(words[..]) == Cleared(old(Bits(words[..])), n) && Words(words[..])
    {
      hide Bits, Flagged, Uffb, Flip, Cleared, Words, Q;
      ghost var flags, top := Bits(words[..]), 32 * words.Length - 1;
      Begin(words[..], queues);
      var i := words.Length - 1;
      while i >= 0
        invariant -1 <= i < words.Length && Searching(words[..], flags, queues, i, top)
        decreases i + 1, if i >= 0 then words[i] else 0
      {
        if words[i] != 0 {
          Found(words[..], flags, queues, i, top);
          n := Uffb(words[i]) + 32 * i;
          if Q(queues, Pri(n)) != [] { return; }
          Stale(words[..], flags, queues, i, top);
          words[i] := Flip(words[i], n % 32);
          top := n - 1;
        } else {
          i := i - 1;
        }
      }
      n := -1;
      Exhausted(words[..], flags, queues, top);
    }

    /** Queue the outgoing task where its holdQueue word says. */
    method Deschedule()
      requires current.Some? && current.value in tasks
      modifies this`queues
      ensures queues == PutBack(old(View()), current.value)
    {
      hide Unlink, Head, Tail, Bits;
      var t := current.value;
      var queue := tasks[t].hold;
      queues := Unlink(queues, t);
      if queue != Nowhere {
        if queue == Pri(tasks[t].pri) && tasks[t].reason == Other {
          queues := Head(queues, queue, t);
        } else {
          queues := Tail(queues, queue, t);
        }
      }
    }

    /** Swap to the task given, or without one go idle. A task that was not running, or had
        used up its slice, gets a whole one. */
    method Swap(newTask: Option<nat>, now: nat)
      modifies this`tasks, this`current, this`idle, this`sliceExpire
      ensures var out := if old(current).Some? then old(current) else old(idle);
        if newTask.None? then tasks == old(tasks) && current == None && idle == out
        else current == newTask && idle == None && tasks == Calm(old(tasks), out)
      ensures sliceExpire ==
        if timeSlice > 0 && newTask.Some? && (newTask != old(current) || UsedUp(old(tasks), newTask.value))
        then (now + timeSlice) % 0x1_0000_0000 else old(sliceExpire)
    {
      hide Bits;
      if newTask.Some? {
        if timeSlice > 0 && (current != newTask || (newTask.value in tasks && tasks[newTask.value].reason == Sliced)) {
          sliceExpire := (now + timeSlice) % 0x1_0000_0000;
        }
        var out := if current.Some? then current else idle;
        if out.Some? && out.value in tasks { tasks := tasks[out.value := tasks[out.value].(reason := Other)]; }
        idle, current := None, newTask;
      } else {
        idle, current := if current.Some? then current else idle, None;
      }
    }

    /** Take the highest ready task off its queue, if there is one. */
    method TakeHighest() returns (t: Option<nat>)
      requires Words(words[..])
      modifies this`queues, words
      ensures Words(words[..])
      ensures var p := Flagged(old(queues), old(Bits(words[..])), 32 * words.Length);
        && Bits(words[..]) == Cleared(old(Bits(words[..])), p)
        && t == (if p < 0 then None else Some(Q(old(queues), Pri(p))[0]))
        && queues == if p < 0 then old(queues) else old(queues)[Pri(p) := Q(old(queues), Pri(p))[1..]]
    {
      hide Bits, Flagged, Cleared, Words;
      var n := Search();
      t := None;
      if n >= 0 {
        t := Some(Q(queues, Pri(n))[0]);
        queues := queues[Pri(n) := Q(queues, Pri(n))[1..]];
      }
    }

    /** Put the outgoing task back and find the one to run, unless one was given. */
    method Choose(newTask: Option<nat>) returns (t: Option<nat>)
      requires Words(words[..]) && (current.Some? ==> current.value in tasks)
      modifies this`queues, words
      ensures Words(words[..])
      ensures var r := Scheduled(old(View()), newTask);
        queues == r.queues && Bits(words[..]) == r.flags && t == r.current
    {
      hide Bits, Flagged, PutBack, Cleared, Words, Q, Calm;
      if current.Some? { Deschedule(); }
      t := newTask;
      if t.None? { t := TakeHighest(); }
    }

    /** The core of the scheduler, which may be handed the task to run. */
    method ScheduleTaskCore(newTask: Option<nat>, now: nat)
      requires Valid() && (newTask.Some? ==> Ready(View(), SwitchTo(newTask.value)))
      modifies this, words
      ensures Valid() && words == old(words) && timeSlice == old(timeSlice)
      ensures View() == Scheduled(old(View()), newTask)
      ensures sliceExpire ==
        if timeSlice > 0 && current.Some? && (current != old(current) || UsedUp(old(tasks), current.value))
        then (now + timeSlice) % 0x1_0000_0000 else old(sliceExpire)
    {
      hide Inv, Bits, Words, Calm, Scheduled, Ready;
      ghost var s := View();
      CurrentLives(s);
      ScheduledInv(s, newTask);
      var t := Choose(newTask);
      Swap(t, now);
    }

    /** The result says whether the scheduler must run: the task outranks the running one. */
    method WakeTaskUp(t: nat) returns (sched: bool)
      requires Valid() && t in tasks
      modifies this`tasks, this`queues, words
      ensures Valid() && View() == WakeTask(old(View()), t)
      ensures sched <==> Outranks(old(View()), t)
    {
      WakeInv(View(), t);
      InRange(View(), t, 0);
      var currPri := if current.Some? then tasks[current.value].pri else -1;
      sched := tasks[t].pri > currPri;
      hide Inv, Bits, Words, Unlink, Tail, Mark;
      var p := tasks[t].pri;
      queues := Unlink(queues, t);
      tasks := tasks[t := tasks[t].(hold := Pri(p))];
      queues := Tail(queues, Pri(p), t);
      MarkActive(p);
    }

    method ChangePriority(t: nat, priority: int) returns (oldPri: int)
      requires Valid() && t in tasks
      modifies this`tasks, this`queues, words
      ensures Valid() && View() == SetPriority(old(View()), t, priority)
      ensures oldPri == if t == timer then -1 else old(tasks)[t].pri
    {
      if t == timer { return -1; }
      ghost var s := View();
      InRange(s, t, Clamp(priority, maxPri));
      PriorityInv(s, t, priority);
      hide Inv, Bits, Words, Unlink, Tail, Mark, SetPriority;
      var p := if priority < 0 then 0 else if priority > maxPri - 1 then maxPri - 1 else priority;
      oldPri := tasks[t].pri;
      Requeue(t, p);
      tasks := tasks[t := tasks[t].(pri := p)];
      MarkActive(p);
      PriorityIs(s, t, priority, View());
    }

    /** A runnable task changes its hold queue, and its queue if it is not running. */
    method Requeue(t: nat, p: nat)
      requires t in tasks
      modifies this`tasks, this`queues
      ensures tasks == if Runnable(old(tasks)[t]) then old(tasks)[t := old(tasks)[t].(hold := Pri(p))] else old(tasks)
      ensures queues ==
        if Runnable(old(tasks)[t]) && current != Some(t) then Tail(Unlink(old(queues), t), Pri(p), t) else old(queues)
    {
      hide Unlink, Tail;
      if tasks[t].hold == Pri(tasks[t].pri) {
        tasks := tasks[t := tasks[t].(hold := Pri(p))];
        if current != Some(t) {
          queues := Unlink(queues, t);
          queues := Tail(queues, Pri(p), t);
        }
      }
    }

    /** The timer task starts at the highest priority, every other below it. */
    method StartTask(t: nat, priority: int)
      requires Valid() && t !in tasks
      modifies this`tasks, this`queues, words
      ensures Valid() && View() == Apply(old(View()), Start(t, priority))
    {
      SchedSafety.StartInv(View(), t, priority);
      var p := maxPri;
      if t != timer {
        p := if priority < 0 then 0 else if priority > maxPri - 1 then maxPri - 1 else priority;
      }
      StartIs(View(), t, priority, p);
      hide Inv, Bits, Words, Unlink, Tail, Mark, Clamp, FirstPri, Apply;
      tasks := tasks[t := Task(p, Pri(p), Other)];
      queues := Tail(queues, Pri(p), t);
      MarkActive(p);
    }

    /** Wake the task at the head of a wait queue, if there is one, and hand it a value. */
    method WakeOne(q: nat, value: nat) returns (t: Option<nat>, sched: bool)
      requires Valid()
      modifies this`tasks, this`queues, this`testResult, words
      ensures Valid()
      ensures var w := Q(old(queues), Wait(q)); t == if w == [] then None else Some(w[0])
      ensures View() == WakeEach(old(View()), if t.None? then [] else [t.value])
      ensures t.Some? ==> Q(queues, Wait(q)) == Q(old(queues), Wait(q))[1..]
      ensures testResult == if t.None? then old(testResult) else old(testResult)[t.value := value]
      ensures sched <==> t.Some? && Outranks(old(View()), t.value)
    {
      hide Inv, Bits, Words, WakeTask, Outranks;
      t, sched := None, false;
      if Q(queues, Wait(q)) != [] {
        t := Some(Q(queues, Wait(q))[0]);
        WaitHead(View(), q);
        sched := WakeTaskUp(t.value);
        testResult := testResult[t.value := value];
      }
    }

    /** Wake every task on a wait queue, in order, before any of them can run. */
    method WakeAll(q: nat) returns (sched: bool)
      requires Valid()
      modifies this`tasks, this`queues, words
      ensures Valid()
      ensures View() == WakeEach(old(View()), Q(old(queues), Wait(q))) && Q(queues, Wait(q)) == []
      ensures sched <==> exists t :: t in Q(old(queues), Wait(q)) && Outranks(old(View()), t)
    {
      hide Inv, Bits, Words, Q, WakeTask, Outranks;
      ghost var s, w, k := View(), Q(queues, Wait(q)), 0;
      sched := false;
      while Q(queues, Wait(q)) != []
        invariant Valid() && k <= |w| && Q(queues, Wait(q)) == w[k..]
        invariant WakeEach(View(), w[k..]) == WakeEach(s, w)
        invariant SameRanks(s, View())
        invariant sched <==> exists t :: t in w[..k] && Outranks(s, t)
        decreases |Q(queues, Wait(q))|
      {
        var t := Q(queues, Wait(q))[0];
        WakeNext(View(), s, q, w, k);
        var outranks := WakeTaskUp(t);
        sched := sched || outranks;
        k := k + 1;
      }
      assert w[..k] == w;
    }

    /** Resume a task wherever it waits, and hand it a value. */
    method ResumeWithValue(t: nat, value: nat) returns (sched: bool)
      requires Valid() && t in tasks
      modifies this`tasks, this`queues, this`testResult, words
      ensures Valid() && View() == WakeTask(old(View()), t) && testResult == old(testResult)[t := value]
      ensures sched <==> Outranks(old(View()), t)
    {
      testResult := testResult[t := value];
      sched := WakeTaskUp(t);
    }

    /** A timeout; the timer task that runs it lets the scheduler run when it blocks. */
    method TimeoutWake(t: nat)
      requires Valid() && t in tasks
      modifies this`tasks, this`queues, this`timedOut, words
      ensures Valid() && View() == WakeTask(old(View()), t) && timedOut == old(timedOut) + {t}
    {
      timedOut := timedOut + {t};
      var _ := WakeTaskUp(t);
    }
  }

  /** A task has used up its slice. */
  predicate UsedUp(tasks: map<nat, Task>, t: nat) { t in tasks && tasks[t].reason == Sliced }

  lemma FirstFlag(words: seq<nat>)
    requires |words| > 0 && forall i :: 0 <= i < |words| ==> words[i] == if i == 0 then 1 else 0
    ensures Words(words) && forall p :: 0 <= p < 32 * |words| ==> Bits(words)[p] == (p == 0)
  {
    hide Pow2;
    assert 1 < Pow2(32) by { BitRange(0, 0, 32); }
    forall p | 0 <= p < 32 * |words| ensures Bits(words)[p] == (p == 0) {
      ZeroBits(p % 32);
      if p % 32 > 0 { ZeroBits(p % 32 - 1); }
    }
  }

  /** A task outranks what runs, or nothing runs. */
  ghost predicate Outranks(s: State, t: nat) {
    t in s.tasks && (s.current.Some? && s.current.value in s.tasks ==> s.tasks[t].pri > s.tasks[s.current.value].pri)
  }

  ghost predicate SameRanks(s: State, r: State) {
    s.current == r.current && s.tasks.Keys == r.tasks.Keys
    && forall t :: t in s.tasks ==> s.tasks[t].pri == r.tasks[t].pri
  }

  /** The result of waking says when the scheduler must run: with the highest ready task
      running, waking another leaves it so if and only if the other does not outrank it. */
  lemma MustSchedule(s: State, t: nat)
    requires Inv(s) && SchedSafety.Outranked(s) && t in s.tasks
    ensures SchedSafety.Outranked(WakeTask(s, t)) <==> !Outranks(s, t)
  {
    var p := s.tasks[t].pri;
    UnlinkFacts(s.queues, t);
    TailFacts(Unlink(s.queues, t), Pri(p), t);
    assert On(WakeTask(s, t).queues, Pri(p), t);
  }

  /** A pass of the scheduler, to find the task to run or with one given. */
  function Scheduled(s: State, newTask: Option<nat>): (r: State)
    requires s.current.Some? ==> s.current.value in s.tasks
  {
    if newTask.None? then Schedule(s) else ScheduleTo(s, newTask.value)
  }

  lemma CurrentLives(s: State)
    requires Inv(s)
    ensures s.current.Some? ==> s.current.value in s.tasks
  {
  }

  lemma ScheduledInv(s: State, newTask: Option<nat>)
    requires Inv(s) && (newTask.Some? ==> Ready(s, SwitchTo(newTask.value)))
    ensures Inv(Scheduled(s, newTask))
    ensures var r, out := Scheduled(s, newTask), if s.current.Some? then s.current else s.idle;
      r == s.(queues := r.queues, flags := r.flags, current := r.current,
        tasks := if r.current.None? then s.tasks else Calm(s.tasks, out), idle := if r.current.None? then out else None)
  {
    if newTask.None? { ScheduleInv(s); } else { SwitchInv(s, newTask.value); }
    hide Inv, PutBack, Flagged, Cleared, Calm;
  }

  lemma StartIs(s: State, t: nat, priority: int, p: nat)
    requires Inv(s) && t !in s.tasks && p == FirstPri(s, t, priority)
    ensures p / 32 < s.maxPri / 32 + 1 && Ready(s, Start(t, priority))
    ensures Apply(s, Start(t, priority)) ==
      s.(tasks := s.tasks[t := Task(p, Pri(p), Other)], queues := Tail(s.queues, Pri(p), t), flags := Mark(s.flags, p))
  {
    NotQueued(s, t);
    assert s.tasks[t := Task(p, Nowhere, Other)][t := Task(p, Pri(p), Other)] == s.tasks[t := Task(p, Pri(p), Other)];
    hide Inv, Unlink, Tail, Mark;
  }

  predicate Runnable(k: Task) { k.hold == Pri(k.pri) }

  lemma PriorityIs(s: State, t: nat, priority: int, r: State)
    requires s.maxPri > 0 && t in s.tasks && t != s.timer && t in r.tasks
    requires var p, k := Clamp(priority, s.maxPri), s.tasks[t];
      r == s.(
        tasks := (if Runnable(k) then s.tasks[t := k.(hold := Pri(p))] else s.tasks)[t := r.tasks[t]],
        queues := if Runnable(k) && s.current != Some(t) then Tail(Unlink(s.queues, t), Pri(p), t) else s.queues,
        flags := Mark(s.flags, p))
      && r.tasks[t] == k.(pri := p, hold := if Runnable(k) then Pri(p) else k.hold)
    ensures r == SetPriority(s, t, priority)
  {
    hide Unlink, Tail, Mark;
    assert r.tasks == s.tasks[t := r.tasks[t]];
  }

  lemma InRange(s: State, t: nat, p: nat)
    requires Inv(s) && t in s.tasks && p <= s.maxPri
    ensures p / 32 < s.maxPri / 32 + 1 && s.tasks[t].pri <= s.maxPri && s.tasks[t].pri / 32 < s.maxPri / 32 + 1
  {
  }

  /** Wake the listed tasks one after the other. */
  function WakeEach(s: State, ts: seq<nat>): (r: State)
    decreases |ts|
  {
    if ts == [] || ts[0] !in s.tasks then s else WakeEach(WakeTask(s, ts[0]), ts[1..])
  }

  lemma WaitHead(s: State, q: nat)
    requires Inv(s) && Q(s.queues, Wait(q)) != []
    ensures var t := Q(s.queues, Wait(q))[0];
      t in s.tasks && Q(WakeTask(s, t).queues, Wait(q)) == Q(s.queues, Wait(q))[1..]
  {
    var w := Q(s.queues, Wait(q));
    assert On(s.queues, Wait(q), w[0]);
    UnlinkFacts(s.queues, w[0]);
    assert NoDup(w);
    DropFacts(w[1..], w[0]);
  }

  /** One more of the tasks on a wait queue is woken. */
  lemma WakeNext(r: State, s: State, q: nat, w: seq<nat>, k: nat)
    requires Inv(r) && SameRanks(s, r) && k < |w| && Q(r.queues, Wait(q)) == w[k..]
    ensures w[k..][0] in r.tasks && SameRanks(s, WakeTask(r, w[k]))
    ensures Q(WakeTask(r, w[k]).queues, Wait(q)) == w[k + 1..]
    ensures WakeEach(r, w[k..]) == WakeEach(WakeTask(r, w[k]), w[k + 1..])
    ensures Outranks(r, w[k]) <==> Outranks(s, w[k])
    ensures forall t :: t in w[..k + 1] <==> t in w[..k] || t == w[k]
  {
    WaitHead(r, q);
    assert w[k..][1..] == w[k + 1..] && w[..k + 1] == w[..k] + [w[k]];
    hide Inv, Tail, Unlink;
  }

  lemma NotQueued(s: State, t: nat)
    requires Inv(s) && t !in s.tasks
    ensures Unlink(s.queues, t) == s.queues
  {
    forall x | x in s.queues ensures Drop(s.queues[x], t) == s.queues[x] {
      assert !On(s.queues, x, t);
      DropFacts(s.queues[x], t);
    }
  }
}
