/** Semaphores and event flags as values: what a test asks and what each request does. */
module Objects {
  /** A semaphore (or lock, mailbox or pool count), or an event flag cluster. */
  datatype Obj = Sem(value: nat) | Flags(flags: bv32)

  datatype Req =
    | Test(amount: nat, wait: bool)
    | TestFlags(mask: bv32, any: bool, clear: bool, wait: bool)
    | Set(amount: nat)
    | SetFlags(mask: bv32) | ToggleFlags(mask: bv32) | ClearFlags(mask: bv32)

  predicate IsTest(r: Req) { r.Test? || r.TestFlags? }

  predicate Waits(r: Req) { IsTest(r) && r.wait }

  predicate Matches(o: Obj, r: Req) { o.Sem? <==> r.Test? || r.Set? }

  predicate FlgTest(flags: bv32, mask: bv32, any: bool) {
    if any then flags & mask != 0 else flags & mask == mask
  }

  /** A request for an object of the other kind fails (the source answers NACK, a design error). */
  predicate Passes(o: Obj, r: Req) {
    && Matches(o, r)
    && (r.Test? ==> o.value >= r.amount)
    && (r.TestFlags? ==> FlgTest(o.flags, r.mask, r.any))
  }

  /** The flags after a request; a test clears what it tested when asked to. */
  function NewFlags(f: bv32, r: Req): (g: bv32) {
    match r
    case TestFlags(m, _, clear, _) => if clear then f & !m else f
    case SetFlags(m) => f | m
    case ToggleFlags(m) => f ^ m
    case ClearFlags(m) => f & !m
    case _ => f
  }

  /** The object after a passed test or a set. */
  function Effect(o: Obj, r: Req): (e: Obj)
    requires Passes(o, r)
  {
    match (o, r)
    case (Sem(v), Test(n, _)) => Sem(v - n)
    case (Sem(v), Set(n)) => Sem(v + n)
    case (Flags(f), _) => Flags(NewFlags(f, r))
  }

  /** Clearing flags tells nobody; every other change that is not a test does. */
  predicate Notifies(r: Req) { r.Set? || r.SetFlags? || r.ToggleFlags? }

  /** A change that tells nobody never makes a failing test pass. */
  lemma QuietChange(o: Obj, r: Req, t: Req)
    requires Passes(o, r) && !Notifies(r) && !Passes(o, t)
    ensures !Passes(Effect(o, r), t)
  {
    match r
    case Test(_, _) =>
    case ClearFlags(m) => if t.TestFlags? { ClearQuiet(o.flags, m, t.mask, t.any); }
    case TestFlags(m, _, clear, _) => if t.TestFlags? { ClearQuiet(o.flags, m, t.mask, t.any); }
  }

  /** The flag test never comes true by clearing. */
  lemma ClearQuiet(flags: bv32, cleared: bv32, mask: bv32, any: bool)
    ensures FlgTest(flags & !cleared, mask, any) ==> FlgTest(flags, mask, any)
  {
  }

  function Amount(r: Req): (n: nat) { if r.Test? then r.amount else 0 }
  function SetAmount(r: Req): (n: nat) { if r.Set? then r.amount else 0 }

  lemma EffectValue(o: Obj, r: Req)
    requires Passes(o, r)
    ensures Effect(o, r).Sem? == o.Sem?
    ensures o.Sem? ==> Effect(o, r).value + Amount(r) == o.value + SetAmount(r)
  {
    hide NewFlags, FlgTest;
  }
}
