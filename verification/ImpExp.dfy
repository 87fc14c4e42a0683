/** One exported object and the processors that import it: TEST and SET requests,
    ACKs and asynchronous NOTIFYs over one FIFO channel pair for each client. */
module ImpExp {
  import opened Objects
  import opened Sequences

  /** The word p64a of a message and p1 of a task: a number or address, or flags. */
  datatype Word = Value(n: nat) | Bits(f: bv32)

  /** `id` numbers a client's requests without wrapping. It is kept for what is stated
      about runs: no branch reads it, nor the request word `par` once it is answered. */
  datatype Request = Request(seqNum: nat, req: Req, par: Word, id: nat)
  datatype Down = Ack(call: Request, ok: bool, par: Word) | Notify

  /** `p2` is the union of sequence number and ACK status in the task control block, `p1`
      the union of test parameter and test result. */
  datatype Waiter = Waiter(task: nat, p2: nat, p1: Word, req: Req, id: nat)
  datatype Woken = Woken(task: nat, p2: nat, p1: Word, req: Req, id: nat, timedOut: bool)

  const FAILED: nat := 0
  const SUCCESS: nat := 1
  const PARKED: nat := 0xffff_ffff

  /** `count` is the word of the imported object that supplies sequence numbers. */
  datatype Client = Client(count: nat, queue: seq<Waiter>, woken: seq<Woken>, up: seq<Request>, down: seq<Down>)

  /** A request that was carried out, and the word its ACK carries. */
  datatype Grant = Grant(req: Req, par: Word)

  /** `store` says that the object is a mailbox or a pool, `items` what it holds. The rest
      is history: what was put and taken and by whom, in order; what each request, named
      by its client and id, was granted; which grants were claimed; and token counts. */
  datatype State = State(obj: Obj, mask: set<nat>, clients: seq<Client>, store: bool, items: seq<nat>,
    put: seq<nat>, got: seq<nat>, takers: seq<(nat, nat)>,
    grants: map<(nat, nat), Grant>, claims: set<(nat, nat)>,
    initial: nat, added: nat, granted: nat, asked: nat, claimed: nat, spurious: nat)

  // ---- the client ----

  function SeqOf(count: nat): (n: nat) ensures n < 256 { count % 256 }

  /** What a request sends in p64a: amount or mask, but for an item put into a store. */
  function OwnPar(r: Req): (w: Word) {
    match r
    case Test(n, _) => Value(n)
    case Set(n) => Value(n)
    case _ => Bits(r.mask)
  }

  /** Park the calling task under a new sequence number and send its request. */
  function Send(c: Client, task: nat, r: Req, par: Word): (d: Client) {
    var q := SeqOf(c.count);
    c.(count := c.count + 1, queue := c.queue + [Waiter(task, q, par, r, c.count)],
       up := c.up + [Request(q, r, par, c.count)])
  }

  /** Position of the first waiter whose status word equals the sequence number. */
  function Find(queue: seq<Waiter>, q: nat): (k: nat)
    ensures k <= |queue|
    ensures forall i :: 0 <= i < k ==> queue[i].p2 != q
    ensures k < |queue| ==> queue[k].p2 == q
  {
    if queue == [] || queue[0].p2 == q then 0
    else
      var k := 1 + Find(queue[1..], q);
      assert forall i :: 1 <= i < k ==> queue[i] == queue[1..][i - 1];
      k
  }

  function Wake(w: Waiter, status: nat): (k: Woken) { Woken(w.task, status, w.p1, w.req, w.id, !Waits(w.req)) }

  function WakeAll(queue: seq<Waiter>): (r: seq<Woken>)
    ensures |r| == |queue|
    ensures forall i :: 0 <= i < |r| ==> r[i] == Wake(queue[i], FAILED)
  {
    if queue == [] then [] else [Wake(queue[0], FAILED)] + WakeAll(queue[1..])
  }

  /** An ACK carries a result for a flag test, and for a granted get or take. */
  predicate Carries(store: bool, r: Req, ok: bool) { r.TestFlags? || (ok && store && r.Test?) }

  function Told(w: Waiter, store: bool, r: Req, ok: bool, par: Word): (v: Waiter) {
    if Carries(store, r, ok) then w.(p1 := par) else w
  }

  /** An ACK wakes the task it belongs to, unless the test failed and the task waits:
      then the task stays, out of reach of later ACKs, for a NOTIFY to wake. */
  function OnAck(c: Client, store: bool, q: nat, ok: bool, r: Req, par: Word): (d: Client) {
    var k := Find(c.queue, q);
    if k == |c.queue| then c
    else
      var w := Told(c.queue[k], store, r, ok, par);
      if ok || !Waits(r) then
        c.(queue := Cut(c.queue, k), woken := c.woken + [Wake(w, if ok then SUCCESS else FAILED)])
      else c.(queue := c.queue[k := w.(p2 := PARKED)])
  }

  function OnNotify(c: Client): (d: Client) {
    c.(queue := [], woken := c.woken + WakeAll(c.queue))
  }

  function OnMessage(c: Client, store: bool): (d: Client)
    requires c.down != []
  {
    var d := c.(down := c.down[1..]);
    match c.down[0]
    case Notify => OnNotify(d)
    case Ack(call, ok, par) => OnAck(d, store, call.seqNum, ok, call.req, par)
  }

  /** A timeout takes the task off the queue with its words as they stand. */
  function Expire(c: Client, k: nat): (d: Client)
    requires k < |c.queue|
  {
    var w := c.queue[k];
    c.(queue := Cut(c.queue, k), woken := c.woken + [Woken(w.task, w.p2, w.p1, w.req, w.id, true)])
  }

  /** A test that was neither acknowledged with success nor timed out is tried again. */
  predicate Retries(w: Woken) { IsTest(w.req) && w.p2 != SUCCESS && !w.timedOut }

  function OnResume(c: Client, k: nat): (d: Client)
    requires k < |c.woken|
  {
    var w, d := c.woken[k], c.(woken := Cut(c.woken, k));
    if Retries(w) then Send(d, w.task, w.req, OwnPar(w.req)) else d
  }

  // ---- the server ----

  /** The word an ACK carries: the flags before the test, or the item, unless that is zero;
      otherwise the request's own word comes back. */
  function Reply(s: State, r: Req, par: Word): (w: Word) {
    if !Passes(s.obj, r) then par
    else if r.TestFlags? && s.obj.flags != 0 then Bits(s.obj.flags)
    else if s.store && r.Test? && s.items != [] && s.items[0] != 0 then Value(s.items[0])
    else par
  }

  function Respond(c: Client, ok: bool, par: Word): (d: Client)
    requires c.up != []
  {
    c.(up := c.up[1..], down := c.down + [Ack(c.up[0], ok, par)])
  }

  function Notified(cs: seq<Client>, mask: set<nat>): (r: seq<Client>)
    ensures |r| == |cs|
    ensures forall i :: 0 <= i < |r| ==> r[i] == if i in mask then cs[i].(down := cs[i].down + [Notify]) else cs[i]
  {
    seq(|cs|, i requires 0 <= i < |cs| => if i in mask then cs[i].(down := cs[i].down + [Notify]) else cs[i])
  }

  /** What becomes of the items of a mailbox or pool; `who` is the request that takes. */
  function Stock(s: State, r: Req, par: Word, who: (nat, nat)): (t: State) {
    if s.store && r.Set? && par.Value? then s.(items := s.items + [par.n], put := s.put + [par.n])
    else if s.store && r.Test? && s.items != [] then
      s.(items := s.items[1..], got := s.got + [s.items[0]], takers := s.takers + [who])
    else s
  }

  /** Carry out a request that succeeds; sets that matter notify every interested client. */
  function Perform(s: State, r: Req, par: Word, who: (nat, nat)): (t: State)
    requires Passes(s.obj, r)
  {
    var t := Stock(s, r, par, who).(obj := Effect(s.obj, r), granted := s.granted + Amount(r),
      added := s.added + SetAmount(r));
    if Notifies(r) then t.(clients := Notified(s.clients, s.mask), mask := {}) else t
  }

  function ServeOne(s: State, i: nat): (t: State)
    requires i < |s.clients| && s.clients[i].up != []
  {
    var call := s.clients[i].up[0];
    var par := Reply(s, call.req, call.par);
    if Passes(s.obj, call.req) then
      var t := Perform(s, call.req, call.par, (i, call.id));
      t.(clients := t.clients[i := Respond(t.clients[i], true, par)],
         grants := s.grants[(i, call.id) := Grant(call.req, par)])
    else
      s.(clients := s.clients[i := Respond(s.clients[i], false, par)],
         mask := if Waits(call.req) then s.mask + {i} else s.mask)
  }

  // ---- steps ----

  datatype Step =
    | Call(i: nat, task: nat, req: Req, par: Word)  // a client task starts a test or a set
    | Again(i: nat, k: nat, req: Req, par: Word)    // a set returned before its ACK came: its task calls again
    | Serve(i: nat)                         // the server handles client i's oldest request
    | Local(task: nat, req: Req, par: Word) // a task on the server tests or sets
    | Receive(i: nat)                       // client i handles its oldest message
    | Timeout(i: nat, k: nat)               // a waiting test's timer goes off, still queued
    | Late(i: nat, k: nat)                  // ... or already woken but not yet running
    | Resume(i: nat, k: nat)                // a woken task runs on

  /** Requests sent and not yet acknowledged to the client, oldest first. */
  function Flight(c: Client): (r: seq<Request>) { Acked(c.down) + c.up }

  function Acked(down: seq<Down>): (r: seq<Request>) {
    if down == [] then []
    else if down[0].Ack? then [down[0].call] + Acked(down[1..])
    else Acked(down[1..])
  }

  /** Outstanding sequence numbers are distinct (fewer than 256 are outstanding). */
  predicate Fresh(c: Client) {
    forall k :: 0 <= k < |Flight(c)| ==> Flight(c)[k].seqNum != SeqOf(c.count)
  }

  /** Gets and takes are tests for one, puts and returns set one and carry the item's
      address; every other request carries its own amount or mask. */
  predicate Sound(s: State, r: Req, par: Word) {
    && Matches(s.obj, r)
    && (s.store ==> (r.Test? || r.Set?) && r.amount == 1)
    && if s.store && r.Set? then par.Value? && par.n > 0 else par == OwnPar(r)
  }

  predicate Ready(s: State, a: Step) {
    match a
    case Call(i, _, r, par) => i < |s.clients| && Sound(s, r, par) && Fresh(s.clients[i])
    case Again(i, k, r, par) =>
      && i < |s.clients| && k < |s.clients[i].queue| && !IsTest(s.clients[i].queue[k].req)
      && Sound(s, r, par) && Fresh(s.clients[i])
    case Serve(i) => i < |s.clients| && s.clients[i].up != []
    case Local(_, r, par) => Sound(s, r, par) && Passes(s.obj, r)
    case Receive(i) => i < |s.clients| && s.clients[i].down != []
    case Timeout(i, k) => i < |s.clients| && k < |s.clients[i].queue| && Waits(s.clients[i].queue[k].req)
    case Late(i, k) => i < |s.clients| && k < |s.clients[i].woken|
    case Resume(i, k) =>
      && i < |s.clients| && k < |s.clients[i].woken|
      && (Retries(s.clients[i].woken[k]) ==> Fresh(s.clients[i]))
  }

  function Put(s: State, i: nat, c: Client): (t: State)
    requires i < |s.clients|
  {
    s.(clients := s.clients[i := c])
  }

  function Apply(s: State, a: Step): (t: State)
    requires Ready(s, a)
  {
    match a
    case Call(i, task, r, par) => Put(s, i, Send(s.clients[i], task, r, par)).(asked := s.asked + SetAmount(r))
    case Again(i, k, r, par) =>
      var c := s.clients[i];
      Put(s, i, Send(c.(queue := Cut(c.queue, k)), c.queue[k].task, r, par)).(asked := s.asked + SetAmount(r))
    case Serve(i) => ServeOne(s, i)
    case Local(_, r, par) =>
      Perform(s, r, par, (|s.clients|, |s.got|)).(asked := s.asked + SetAmount(r), claimed := s.claimed + Amount(r))
    case Receive(i) => Put(s, i, OnMessage(s.clients[i], s.store))
    case Timeout(i, k) =>
      var c := s.clients[i];
      Put(s, i, Expire(c, k)).(
        spurious := s.spurious + if Coming(c.down, c.queue[k].p2) then 0 else Claim(c.queue[k].p2, c.queue[k].req))
    case Late(i, k) =>
      var c := s.clients[i];
      Put(s, i, c.(woken := c.woken[k := c.woken[k].(timedOut := true)]))
    case Resume(i, k) =>
      var w := s.clients[i].woken[k];
      Put(s, i, OnResume(s.clients[i], k)).(claimed := s.claimed + Claim(w.p2, w.req),
        claims := if w.p2 == SUCCESS then s.claims + {(i, w.id)} else s.claims)
  }

  /** What a task that resumes with status `p2` believes it was granted. */
  function Claim(p2: nat, r: Req): (n: nat) { if p2 == SUCCESS then Amount(r) else 0 }

  /** An ACK of success under number `q` is on its way. */
  predicate Coming(down: seq<Down>, q: nat) { exists j :: 0 <= j < |down| && Grants(down[j], q) }

  predicate Grants(m: Down, q: nat) { m.Ack? && m.ok && m.call.seqNum == q }

  /** What is exported: a semaphore, lock or flag cluster, or a mailbox or pool. */
  datatype Export = Plain(obj: Obj) | Stored(items: seq<nat>)

  predicate Proper(e: Export) { e.Stored? ==> forall k :: 0 <= k < |e.items| ==> e.items[k] > 0 }

  function Start(e: Export, counts: seq<nat>): (s: State) {
    var o := if e.Plain? then e.obj else Sem(|e.items|);
    var items := if e.Plain? then [] else e.items;
    State(o, {}, seq(|counts|, i requires 0 <= i < |counts| => Client(counts[i], [], [], [], [])),
          e.Stored?, items, items, [], [], map[], {}, if o.Sem? then o.value else 0, 0, 0, 0, 0, 0)
  }
}
