/** The shared memory of one message queue: the descriptor table, the available
    ring and the used ring of a split virtqueue (section 2.4 of OASIS VIRTIO
    1.0), together with the private words that host and guest keep beside it. */
module MqMemory {
  import opened Division
  import opened Sequences

  type Word16 = n: nat | n < 0x1_0000

  const COUNTERS: nat := 0x1_0000
  const NO_TOKEN: Word16 := 0xffff
  /** Queue sizes are capped so that 0xffff can mean "no token". */
  const MAX_SIZE: nat := 65534

  /** One buffer of a message, as the host hands it over. */
  datatype Buf = Buf(address: nat, length: nat, write: bool)

  /** `more` and `writable` are the flag bits MQ_DESC_F_NEXT and MQ_DESC_F_WRITE. */
  datatype Desc = Desc(address: nat, length: nat, more: bool, writable: bool, next: Word16)

  datatype Elem = Elem(id: Word16, length: nat)

  datatype Memory = Memory(
    desc: seq<Desc>,
    availRing: seq<Word16>, availIndex: Word16, noInterrupt: bool,
    usedRing: seq<Elem>, usedIndex: Word16, noNotify: bool,
    freeDescs: Word16, lastUsed: Word16, lastAvailable: Word16)

  /** A message in flight: the descriptors it occupies and the buffers they carry. */
  datatype Chain = Chain(cells: seq<Word16>, bufs: seq<Buf>)

  ghost predicate Sized(m: Memory) {
    && 0 < |m.desc| <= MAX_SIZE
    && |m.availRing| == |m.usedRing| == |m.desc|
  }

  /** Ring position addressed by a counter: the remainder modulo the ring size. */
  function Slot(counter: nat, size: nat): (r: nat)
    requires size > 0
    ensures r < size
  {
    if counter < size then counter else Slot(counter - size, size)
  }

  /** The 16-bit counter after `n` increments from zero. */
  function Wrap(n: nat): (r: Word16) { Slot(n, COUNTERS) }

  /** `counter++` on a uint16_t. */
  function Bump(counter: Word16): (r: Word16) { if counter == 0xffff then 0 else counter + 1 }

  /** The ring size divides 65536; sizes that VIRTIO allows, powers of two, do. */
  predicate Fits(size: nat) { 0 < size && Slot(COUNTERS, size) == 0 }

  // ---- descriptor chains and the free list ----

  /** What a descriptor holding buffer `b` says about it. */
  predicate Carries(d: Desc, b: Buf) {
    d.address == b.address && d.length == b.length && d.writable == !b.write
  }

  /** Every descriptor of `cells` but the last is linked to its successor. */
  ghost predicate Linked(desc: seq<Desc>, cells: seq<Word16>) {
    && (forall i :: 0 <= i < |cells| ==> cells[i] < |desc|)
    && (forall i :: 0 <= i < |cells| - 1 ==> desc[cells[i]].more && desc[cells[i]].next == cells[i + 1])
  }

  /** `cells` is the path that following MQ_DESC_F_NEXT takes from its first cell. */
  ghost predicate Delimited(desc: seq<Desc>, cells: seq<Word16>) {
    && cells != []
    && Linked(desc, cells)
    && !desc[cells[|cells| - 1]].more
  }

  ghost predicate ChainOk(desc: seq<Desc>, c: Chain) {
    && Delimited(desc, c.cells)
    && |c.bufs| == |c.cells|
    && forall i :: 0 <= i < |c.cells| ==> Carries(desc[c.cells[i]], c.bufs[i])
  }

  ghost predicate ChainsOk(desc: seq<Desc>, cs: seq<Chain>) {
    forall k :: 0 <= k < |cs| ==> ChainOk(desc, cs[k])
  }

  /** A chain under construction: its last descriptor is not written yet. */
  ghost predicate PartialOk(desc: seq<Desc>, cells: seq<Word16>, bufs: seq<Buf>) {
    && cells != []
    && |bufs| == |cells|
    && Linked(desc, cells)
    && forall i :: 0 <= i < |cells| - 1 ==> Carries(desc[cells[i]], bufs[i])
  }

  ghost predicate FreeAt(desc: seq<Desc>, free: seq<Word16>, i: nat)
    requires i < |free|
  {
    && free[i] < |desc|
    && desc[free[i]].next == (if i + 1 < |free| then free[i + 1] else |desc|)
  }

  /** The free list is threaded through `next` alone and ends at index |desc|. */
  ghost predicate FreeList(desc: seq<Desc>, head: Word16, free: seq<Word16>) {
    && head == (if free == [] then |desc| else free[0])
    && forall i :: 0 <= i < |free| ==> FreeAt(desc, free, i)
  }

  /** The NEXT flags determine the path: a token names one chain only. */
  lemma {:induction false} DelimitedUnique(desc: seq<Desc>, a: seq<Word16>, b: seq<Word16>)
    requires Delimited(desc, a) && Delimited(desc, b) && a[0] == b[0]
    ensures a == b
  {
    if |a| == 1 {
      assert !desc[a[0]].more;
      assert |b| == 1;
    } else {
      assert desc[a[0]].more;
      assert |b| > 1;
      assert a[1] == b[1];
      DelimitedTail(desc, a);
      DelimitedTail(desc, b);
      DelimitedUnique(desc, a[1..], b[1..]);
      assert a == [a[0]] + a[1..];
      assert b == [b[0]] + b[1..];
    }
  }

  lemma DelimitedTail(desc: seq<Desc>, a: seq<Word16>)
    requires Delimited(desc, a) && |a| > 1
    ensures Delimited(desc, a[1..])
  {
    var t := a[1..];
    forall i | 0 <= i < |t| - 1
      ensures desc[t[i]].more && desc[t[i]].next == t[i + 1]
    {
      assert t[i] == a[i + 1] && t[i + 1] == a[i + 2];
    }
  }

  // ---- writes ----

  function WriteDesc(desc: seq<Desc>, i: nat, d: Desc): (r: seq<Desc>)
    requires i < |desc|
  {
    desc[i := d]
  }

  lemma ChainFrame(desc: seq<Desc>, i: nat, d: Desc, c: Chain)
    requires ChainOk(desc, c) && i < |desc| && i !in c.cells
    ensures ChainOk(WriteDesc(desc, i, d), c)
  {
  }

  lemma FreeFrame(desc: seq<Desc>, i: Word16, d: Desc, head: Word16, free: seq<Word16>)
    requires FreeList(desc, head, free) && i < |desc| && i !in free
    ensures FreeList(WriteDesc(desc, i, d), head, free)
  {
    forall k | 0 <= k < |free| ensures FreeAt(WriteDesc(desc, i, d), free, k) {
      assert FreeAt(desc, free, k) && free[k] in free;
    }
  }

  // ---- who owns which descriptor ----

  /** All descriptor indices of a table of `n` entries, each once. */
  ghost function AllCells(n: nat): (r: multiset<Word16>)
    requires n <= MAX_SIZE
    ensures |r| == n
    ensures forall x: Word16 :: r[x] == if x < n then 1 else 0
  {
    if n == 0 then multiset{} else AllCells(n - 1) + multiset{n - 1}
  }

  ghost function CellsOf(cs: seq<Chain>): (r: multiset<Word16>) {
    if cs == [] then multiset{} else multiset(cs[0].cells) + CellsOf(cs[1..])
  }

  lemma {:induction false} CellsOfAppend(cs: seq<Chain>, c: Chain)
    ensures CellsOf(cs + [c]) == CellsOf(cs) + multiset(c.cells)
  {
    if cs == [] {
      assert (cs + [c])[1..] == [];
    } else {
      CellsOfAppend(cs[1..], c);
      assert (cs + [c])[1..] == cs[1..] + [c];
    }
  }

  lemma {:induction false} CellsOfCut(cs: seq<Chain>, k: nat)
    requires k < |cs|
    ensures CellsOf(cs) == CellsOf(Cut(cs, k)) + multiset(cs[k].cells)
  {
    if k == 0 {
      assert Cut(cs, 0) == cs[1..];
    } else {
      var r := Cut(cs, k);
      CellsOfCut(cs[1..], k - 1);
      assert r[0] == cs[0] && r[1..] == Cut(cs[1..], k - 1);
      assert cs[1..][k - 1] == cs[k];
      assert CellsOf(r) == multiset(cs[0].cells) + CellsOf(r[1..]);
    }
  }

  lemma CellsOfMember(cs: seq<Chain>, k: nat, x: Word16)
    requires k < |cs| && x in cs[k].cells
    ensures CellsOf(cs)[x] > 0
  {
    CellsOfCut(cs, k);
    assert x in multiset(cs[k].cells);
  }

  lemma ChainsFrame(desc: seq<Desc>, i: Word16, d: Desc, cs: seq<Chain>)
    requires ChainsOk(desc, cs) && i < |desc| && CellsOf(cs)[i] == 0
    ensures ChainsOk(WriteDesc(desc, i, d), cs)
  {
    forall k | 0 <= k < |cs| ensures ChainOk(WriteDesc(desc, i, d), cs[k]) {
      if i in cs[k].cells { CellsOfMember(cs, k, i); }
      ChainFrame(desc, i, d, cs[k]);
    }
  }

  /** Chains are never empty, so their number is bounded by their descriptors. */
  lemma {:induction false} CellsOfCount(desc: seq<Desc>, cs: seq<Chain>)
    requires ChainsOk(desc, cs)
    ensures |cs| <= |CellsOf(cs)|
  {
    if cs != [] {
      assert ChainOk(desc, cs[0]);
      CellsOfCount(desc, cs[1..]);
    }
  }

  // ---- 16-bit counters ----

  lemma {:induction false} SlotIsMod(counter: nat, size: nat)
    requires size > 0
    ensures Slot(counter, size) == counter % size
    decreases counter
  {
    if counter >= size {
      SlotIsMod(counter - size, size);
      Shift(counter - size, 1, size);
    } else {
      Quotient(counter, 0, counter, size);
    }
  }

  /** Slots move by one and start again at the ring size. */
  lemma {:induction false} SlotSucc(n: nat, size: nat)
    requires size > 0
    ensures Slot(n + 1, size) == if Slot(n, size) + 1 == size then 0 else Slot(n, size) + 1
    decreases n
  {
    if n >= size {
      SlotSucc(n - size, size);
    }
  }

  lemma WrapSucc(n: nat)
    ensures Wrap(n + 1) == Bump(Wrap(n))
  {
    SlotSucc(n, COUNTERS);
  }

  /** Fewer than `size` apart, different numbers use different slots. */
  lemma {:induction false} SlotApart(a: nat, b: nat, size: nat)
    requires 0 < size && a < b < a + size
    ensures Slot(a, size) != Slot(b, size)
    decreases a
  {
    if a >= size {
      SlotApart(a - size, b - size, size);
    }
  }

  /** A counter that wraps at 65536 still names the slot of the count when size divides 65536. */
  lemma {:induction false} SlotOfCount(n: nat, size: nat)
    requires Fits(size)
    ensures Slot(Wrap(n), size) == Slot(n, size)
    decreases n
  {
    if n >= COUNTERS {
      SlotOfCount(n - COUNTERS, size);
      SlotPeriod(n - COUNTERS, size);
    }
  }

  lemma {:induction false} SlotPeriod(n: nat, size: nat)
    requires Fits(size)
    ensures Slot(n + COUNTERS, size) == Slot(n, size)
    decreases n
  {
    if n > 0 {
      SlotPeriod(n - 1, size);
      SlotSucc(n - 1, size);
      SlotSucc(n - 1 + COUNTERS, size);
    }
  }

  ghost predicate SlotsApart(size: nat)
    requires size > 0
  {
    forall a: nat, b: nat :: a < b < a + size ==> Slot(Wrap(a), size) != Slot(Wrap(b), size)
  }

  /** Any `size` consecutive entries land in different slots, for ever, exactly when
      size divides 65536. */
  lemma SlotsApartIff(size: nat)
    requires 0 < size <= MAX_SIZE
    ensures SlotsApart(size) <==> COUNTERS % size == 0
  {
    SlotIsMod(COUNTERS, size);
    if COUNTERS % size == 0 {
      forall a: nat, b: nat | a < b < a + size
        ensures Slot(Wrap(a), size) != Slot(Wrap(b), size)
      {
        SlotOfCount(a, size);
        SlotOfCount(b, size);
        SlotApart(a, b, size);
      }
    } else {
      var r, k := COUNTERS % size, COUNTERS / size;
      var a := COUNTERS - r;
      assert COUNTERS == size * k + r;
      Shift(0, k, size);
      SlotIsMod(a, size);
      assert Slot(Wrap(a), size) == 0 == Slot(Wrap(COUNTERS), size);
      assert a < COUNTERS < a + size;
      assert !SlotsApart(size);
    }
  }

  /** The 24-entry queues of support/1/librproc/rproc.c do not meet that condition: entry
      65536 uses the slot of entry 65520 again, 16 entries later. */
  lemma TwentyFour()
    ensures !SlotsApart(24) && Slot(Wrap(65520), 24) == Slot(Wrap(65536), 24)
  {
    SlotIsMod(65520, 24);
    SlotIsMod(65536, COUNTERS);
    SlotIsMod(65520, COUNTERS);
    assert Wrap(65520) == 65520 && Wrap(65536) == 0;
  }
}
