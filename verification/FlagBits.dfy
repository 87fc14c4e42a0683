/** What each request asks of an object and makes of it, bit by bit. */
module FlagBits {
  import opened Objects

  predicate Low(w: bv32) { w & 1 == 1 }

  function Half(w: bv32): (h: bv32) { w >> 1 }

  predicate HasBit(w: bv32, b: nat) { if b == 0 then Low(w) else HasBit(Half(w), b - 1) }

  // ---- words and their bits ----

  lemma AndHalves(v: bv32, w: bv32)
    ensures Half(v & w) == Half(v) & Half(w)
    ensures Low(v & w) <==> Low(v) && Low(w)
  {
  }

  lemma {:induction false} AndBit(v: bv32, w: bv32, b: nat)
    ensures HasBit(v & w, b) <==> HasBit(v, b) && HasBit(w, b)
    decreases b
  {
    AndHalves(v, w);
    hide Low, Half;
    if b > 0 { AndBit(Half(v), Half(w), b - 1); }
  }

  lemma OrHalves(v: bv32, w: bv32)
    ensures Half(v | w) == Half(v) | Half(w)
    ensures Low(v | w) <==> Low(v) || Low(w)
  {
  }

  lemma {:induction false} OrBit(v: bv32, w: bv32, b: nat)
    ensures HasBit(v | w, b) <==> HasBit(v, b) || HasBit(w, b)
    decreases b
  {
    OrHalves(v, w);
    hide Low, Half;
    if b > 0 { OrBit(Half(v), Half(w), b - 1); }
  }

  lemma XorHalves(v: bv32, w: bv32)
    ensures Half(v ^ w) == Half(v) ^ Half(w)
    ensures Low(v ^ w) <==> Low(v) != Low(w)
  {
  }

  lemma {:induction false} XorBit(v: bv32, w: bv32, b: nat)
    ensures HasBit(v ^ w, b) <==> HasBit(v, b) != HasBit(w, b)
    decreases b
  {
    XorHalves(v, w);
    hide Low, Half;
    if b > 0 { XorBit(Half(v), Half(w), b - 1); }
  }

  lemma LessHalves(v: bv32, w: bv32)
    ensures Half(v & !w) == Half(v) & !Half(w)
    ensures Low(v & !w) <==> Low(v) && !Low(w)
  {
  }

  lemma {:induction false} LessBit(v: bv32, w: bv32, b: nat)
    ensures HasBit(v & !w, b) <==> HasBit(v, b) && !HasBit(w, b)
    decreases b
  {
    LessHalves(v, w);
    hide Low, Half;
    if b > 0 { LessBit(Half(v), Half(w), b - 1); }
  }

  /** The word is zero after `n` shifts. */
  predicate Fits(w: bv32, n: nat) { if n == 0 then w == 0 else Fits(Half(w), n - 1) }

  lemma AllFit(w: bv32)
    ensures Fits(w, 32)
  {
    Nothing(w);
    FitsMore(w >> 24, 0);
    FitsMore(w >> 16, 8);
    FitsMore(w >> 8, 16);
    FitsMore(w, 24);
  }

  lemma Nothing(w: bv32)
    ensures (w >> 24) >> 8 == 0 && (w >> 16) >> 8 == w >> 24 && (w >> 8) >> 8 == w >> 16
  {
  }

  lemma FitsMore(w: bv32, n: nat)
    requires Fits(w >> 8, n)
    ensures Fits(w, n + 8)
  {
    Eight(w);
    hide Half;
    assert Fits(w >> 7, n + 1) && Fits(w >> 6, n + 2) && Fits(w >> 5, n + 3) && Fits(w >> 4, n + 4);
    assert Fits(w >> 3, n + 5) && Fits(w >> 2, n + 6) && Fits(w >> 1, n + 7);
  }

  lemma Eight(w: bv32)
    ensures w >> 8 == Half(w >> 7) && w >> 7 == Half(w >> 6) && w >> 6 == Half(w >> 5) && w >> 5 == Half(w >> 4)
    ensures w >> 4 == Half(w >> 3) && w >> 3 == Half(w >> 2) && w >> 2 == Half(w >> 1) && w >> 1 == Half(w)
  {
  }

  /** A word that is not zero has a bit, at one of its 32 places. */
  lemma {:induction false} SomeBit(w: bv32, n: nat) returns (b: nat)
    requires w != 0 && Fits(w, n)
    ensures b < n && HasBit(w, b)
  {
    if Low(w) {
      b := 0;
    } else {
      Shifted(w);
      hide Low, Half;
      b := SomeBit(Half(w), n - 1);
      b := b + 1;
    }
  }

  lemma Shifted(w: bv32)
    requires !Low(w) && w != 0
    ensures Half(w) != 0
  {
  }

  lemma {:induction false} NoBits(w: bv32, b: nat)
    requires w == 0
    ensures !HasBit(w, b)
    decreases b
  {
    if b > 0 { NoBits(Half(w), b - 1); }
  }

  ghost predicate Some(w: bv32) { exists b: nat :: b < 32 && HasBit(w, b) }

  lemma NotZero(w: bv32)
    ensures w != 0 <==> Some(w)
  {
    hide HasBit, Fits;
    if w != 0 {
      AllFit(w);
      var b := SomeBit(w, 32);
    } else {
      forall b: nat | b < 32 ensures !HasBit(w, b) { NoBits(w, b); }
    }
  }

  // ---- requests ----

  ghost predicate Common(v: bv32, w: bv32) { exists b: nat :: b < 32 && HasBit(v, b) && HasBit(w, b) }

  ghost predicate Within(v: bv32, w: bv32) { forall b: nat :: b < 32 && HasBit(v, b) ==> HasBit(w, b) }

  /** What a test waits for: the amount, any of the flags in the mask, or all of them. */
  ghost predicate Available(o: Obj, r: Req) {
    match r
    case Test(n, _) => o.Sem? && n <= o.value
    case TestFlags(m, any, _, _) =>
      o.Flags? && if any then Common(o.flags, m) else Within(m, o.flags)
    case _ => false
  }

  /** What becomes of one flag. */
  predicate FlagAfter(r: Req, was: bool, masked: bool) {
    match r
    case TestFlags(_, _, clear, _) => was && !(clear && masked)
    case SetFlags(_) => was || masked
    case ToggleFlags(_) => was != masked
    case ClearFlags(_) => was && !masked
    case _ => was
  }

  /** `e` is what the request makes of `o`. */
  ghost predicate Becomes(o: Obj, r: Req, e: Obj) {
    match r
    case Test(n, _) => o.Sem? && e.Sem? && e.value + n == o.value
    case Set(n) => o.Sem? && e.Sem? && e.value == o.value + n
    case _ =>
      o.Flags? && e.Flags? && forall b: nat :: b < 32 ==>
        (HasBit(e.flags, b) <==> FlagAfter(r, HasBit(o.flags, b), HasBit(r.mask, b)))
  }

  lemma CommonIff(v: bv32, w: bv32)
    ensures v & w != 0 <==> Common(v, w)
  {
    hide HasBit;
    NotZero(v & w);
    if v & w != 0 {
      var b: nat :| b < 32 && HasBit(v & w, b);
      AndBit(v, w, b);
      assert HasBit(v, b) && HasBit(w, b);
    } else {
      forall b: nat | b < 32 ensures !(HasBit(v, b) && HasBit(w, b)) {
        AndBit(v, w, b);
        assert !HasBit(v & w, b);
      }
    }
  }

  lemma WithinIff(v: bv32, w: bv32)
    ensures v & !w == 0 <==> Within(v, w)
  {
    hide HasBit;
    NotZero(v & !w);
    if v & !w != 0 {
      var b: nat :| b < 32 && HasBit(v & !w, b);
      LessBit(v, w, b);
      assert HasBit(v, b) && !HasBit(w, b);
    } else {
      forall b: nat | b < 32 && HasBit(v, b) ensures HasBit(w, b) {
        LessBit(v, w, b);
        assert !HasBit(v & !w, b);
      }
    }
  }

  lemma AnyOrAll(flags: bv32, mask: bv32, any: bool)
    ensures FlgTest(flags, mask, any) <==> if any then Common(flags, mask) else Within(mask, flags)
  {
    hide Common, Within;
    CommonIff(flags, mask);
    WithinIff(mask, flags);
    if flags & mask == mask { Covered(flags, mask); }
    if mask & !flags == 0 { Covers(flags, mask); }
  }

  lemma Covered(flags: bv32, mask: bv32)
    requires flags & mask == mask
    ensures mask & !flags == 0
  {
  }

  lemma Covers(flags: bv32, mask: bv32)
    requires mask & !flags == 0
    ensures flags & mask == mask
  {
  }

  /** A test passes if and only if what it waits for is there. */
  lemma PassesIff(o: Obj, r: Req)
    requires IsTest(r)
    ensures Passes(o, r) <==> Available(o, r)
  {
    hide FlgTest, Common, Within;
    if o.Flags? && r.TestFlags? { AnyOrAll(o.flags, r.mask, r.any); }
  }

  lemma NewBit(f: bv32, r: Req, b: nat)
    requires r.TestFlags? || r.SetFlags? || r.ToggleFlags? || r.ClearFlags?
    ensures HasBit(NewFlags(f, r), b) <==> FlagAfter(r, HasBit(f, b), HasBit(r.mask, b))
  {
    hide HasBit, NewFlags;
    match r
    case TestFlags(m, any, clear, wait) => TestedBit(f, m, any, clear, wait, b);
    case SetFlags(m) => SetBit(f, m, b);
    case ToggleFlags(m) => ToggledBit(f, m, b);
    case ClearFlags(m) => ClearedBit(f, m, b);
  }

  lemma TestedBit(f: bv32, m: bv32, any: bool, clear: bool, wait: bool, b: nat)
    ensures HasBit(NewFlags(f, TestFlags(m, any, clear, wait)), b) <==> HasBit(f, b) && !(clear && HasBit(m, b))
  {
    hide HasBit;
    LessBit(f, m, b);
  }

  lemma SetBit(f: bv32, m: bv32, b: nat)
    ensures HasBit(NewFlags(f, SetFlags(m)), b) <==> HasBit(f, b) || HasBit(m, b)
  {
    hide HasBit;
    OrBit(f, m, b);
  }

  lemma ToggledBit(f: bv32, m: bv32, b: nat)
    ensures HasBit(NewFlags(f, ToggleFlags(m)), b) <==> HasBit(f, b) != HasBit(m, b)
  {
    hide HasBit;
    XorBit(f, m, b);
  }

  lemma ClearedBit(f: bv32, m: bv32, b: nat)
    ensures HasBit(NewFlags(f, ClearFlags(m)), b) <==> HasBit(f, b) && !HasBit(m, b)
  {
    hide HasBit;
    LessBit(f, m, b);
  }

  /** Tests clear what they tested when asked to; the other requests set, toggle or clear the
      flags of their mask and touch no other. */
  lemma EffectIs(o: Obj, r: Req)
    requires Passes(o, r)
    ensures Becomes(o, r, Effect(o, r))
  {
    hide HasBit, FlgTest, NewFlags, FlagAfter;
    if o.Flags? {
      forall b: nat | b < 32
        ensures HasBit(NewFlags(o.flags, r), b) <==> FlagAfter(r, HasBit(o.flags, b), HasBit(r.mask, b)) {
        NewBit(o.flags, r, b);
      }
    }
  }
}
