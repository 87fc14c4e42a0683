# MEOS kernel: a verified model

MEOS is a small real-time kernel. This project models its parts that carry unbounded
properties and proves those properties, for every input, run or reachable state.
`dafny verify dfyconfig.toml` checks it.

Each part has a model on values (a state, its steps, an invariant, and theorems about
whole runs) and, where the kernel updates structures in place, classes whose methods keep
the kernel's loops and branches and are proved to take the model's steps.

- `MqMemory`, `MqProtocol`, `MqSafety`, `MqRuns`, `MqQueue`: the message queue, a
  two-party shared-memory ring in the layout of section 2.4 of OASIS VIRTIO 1.0. Host and
  guest interleave one memory access at a time. A run assumes no memory safety; safety is
  a theorem. Assumed: one host and one guest thread, sequential consistency, a size that
  divides 65536, a host that has a free descriptor for each buffer it sends, and a guest
  that returns tokens it holds. `MqQueue` is the code of both sides; between any two
  accesses of one side the other may take any number of steps.
- `MqOverrun`: what happens when the size does not divide 65536.
- `Objects`, `FlagBits`, `Blocking`, `BlockingTurns`, `Boxes`, `BlockingKernel`: local
  semaphores, event flags, mailboxes and pools, with the tasks that block on them. What
  happens between raising and restoring the interrupt level is one step.
- `ImpExp`, `ImpExpSafety`, `ImpExpTokens`, `ImpExpLedger`, `ImpExpRuns`, `ImpExpFates`,
  `ImpExpLocks`, `ImpExpPeers`: one exported semaphore, lock, flag cluster, mailbox or pool
  and any number of importing processors, over FIFO channels. A ledger records which request
  was granted and with what word. Assumed: outstanding sequence numbers of a client are
  distinct, which is to say that fewer than 256 of its requests are outstanding
  (`ImpExpFates.NumbersFreeIff`).
- `TimerQueue`, `TimerRuns`, `TimerOrder`, `TimerFates`, `TimerKernel`: the delta queue of
  timers, soft-timer coalescing, the timer interrupt, time slices and the alarm, on 32-bit
  registers beside a true clock, with timers set across a wrap of the counter.
- `Sched`, `SchedSafety`, `SchedTurns`, `SchedOvertaken`, `SchedWaits`, `SchedKernel`: the
  scheduler with its multi-word flag array, who runs next, and who waits behind whom.
- `TreeShape`, `Trees`, `TreeEdit`, `TreeCopy`: threaded trees on linked items.
- `Queues`, `Lists`: the circular doubly linked queues and the singly linked lists
  underneath. `Sequences` cuts and splices, and `Division` divides, for all of them.

What the proofs showed to be false of the code, with the exact condition under which it
holds:

- A queue whose size does not divide 65536 reuses a ring slot too early when its 16-bit
  counter wraps (`MqMemory.SlotsApartIff`). For each such size there is a run in which an
  entry is overwritten unread (`MqOverrun.Overruns`); the 24 entries of
  support/1/librproc/rproc.c:100 are one (`MqMemory.TwentyFour`).
- The sequence number of a remote request shares a word with its status, and the status of
  success is 1. A test that times out under number 1 therefore reports success. The report
  is true if and only if an ACK of success is on its way to it at that moment
  (`ImpExpRuns.TimeoutVerdict`); so in a run every report of success is true if and only if
  no test times out under number 1 without one (`ImpExpRuns.SuccessBackedIff`). Then no
  token is duplicated and a lock has one holder at most; otherwise it may have two
  (`ImpExpRuns.TimeoutMisread`, `ImpExpLocks.TwoHolders`). Number 1 is common: a lock starts
  at 1 (kernel/lock.c:55), so its first imported request has it. The comment at
  kernel/sem.c:312-316 does not foresee any of this; the model follows the code.
- Even when the report is true, the task returns its own request word in place of what the
  ACK brings. Results are exact if and only if each such ACK carries that very word
  (`ImpExpRuns.ResultExactIff`), which one from a mailbox or pool does only when the item's
  address is that number; the item is lost (`ImpExpRuns.ItemLost`).
- A preempted task does not always resume before its equal-priority peers. It keeps its
  place if and only if it is not woken, resumed, timed out or re-ranked meanwhile, the task
  that runs is not re-ranked to its level, and no peer is handed to the scheduler
  (`SchedTurns.WaitingStep`). Two runs in which a peer goes first:
  `SchedOvertaken.WokenLoses`, `SchedOvertaken.LoweredWins`.
- A timer whose deadline is more than half the 32-bit range ahead is delivered early
  (`TimerQueue.DeliversExactlyIff`, `TimerQueue.EarlyDelivery`), and so is one whose delay is
  2^32 counts or more (`TimerFates.DelayKeptIff`).
- A timer set between a wrap of the counter and the next interrupt goes behind every timer
  set in time (`TimerQueue.MeasuredTime`). The timers stand in the order of their
  deadlines if and only if none of those is due later than it, nor any set in time afterwards
  (`TimerOrder.OrderedIff`); an overdue timer is left waiting if and only if it stands behind
  one that is not due (`TimerRuns.InterruptExact`, `TimerOrder.LateAcrossWrap`). A negative
  tolerance makes a timer wait for such a one, and be early if and only if that is due sooner
  (`TimerOrder.PromisesIff`, `TimerOrder.EarlyByTolerance`).
- A time slice that would end after the next wrap of the counter is ended by the next timer
  interrupt, however much of it is left (`TimerRuns.SliceVerdict`,
  `TimerRuns.SliceCutShort`). Setting a slice of zero, documented as no change at
  kernel/krn.xml:1359, stretches the running slice unless slicing is off or that slice was to
  end INT32_MAX from then (`TimerRuns.ZeroChangesIff`, `TimerRuns.ZeroStretches`). Setting a
  slice returns the old length rightly if and only if a tick is one count, or the length was
  not negative and its counts fit in 32 bits (`TimerKernel.OldTicksIff`).
- Removing the first item of a tree as a leaf drops every other item
  (`TreeEdit.LeafRemovedIff`, `TreeEdit.LeafRemovalLoses`). The documentation of
  trees/isinsub.c allows the tree object as sub-tree; the code then answers NULL for every
  item (`Trees.IsInSubTree`).
- Moving a queue to itself empties it (`Queues.Move`), and unlinking the only item of a list
  leaves the tail word at the header (`Lists.LastOfEmpty`).

One note on the model: the documentation of trees/remlsub.c says that an empty sub-tree gives
NULL, but the code has no such branch and always removes and returns an item, the root last
(`TreeEdit.EmptySubTree`); the model follows the code.

## Model

| member | source | states |
|---|---|---|
| MqSafety.ReadySafe | mq/mq_template.h:188-236 | with the invariant, no step of host or guest indexes a descriptor table or ring out of range, and getFree always finds a free descriptor |
| MqSafety.StepInv | mq/mq_template.h:93-121 | every memory access of either side, in any interleaving, keeps the partition of the descriptors, the chain links, both rings, the order of entries, and the kick and interrupt records |
| MqSafety.InitInv | mq/mq_template.h:563-570 | the descriptor chain that initialisation builds is the free list of all descriptors and starts the invariant |
| MqSafety.Occupancy | mq/mq_template.h:220-229 | the entries in flight in either direction never exceed the queue size, because each owns a descriptor |
| MqRuns.RunInv | mq/mq_template.h:418-439 | every run of both sides, assuming no memory safety, stays within the invariant and each of its steps is memory safe |
| MqRuns.DescriptorsConserved | mq/mq_template.h:93-121 | at every moment each descriptor index below the size is in exactly one of: the free list, a side's hands, a published, a held or a returned chain; no other index is anywhere |
| MqRuns.FreshDescriptor | mq/mq_template.h:111-121 | getFree never hands out a descriptor that a published, held or returned chain still names |
| MqRuns.FirstInFirstOut | mq/mq_template.h:346-384 | through any number of wraps of the 16-bit counters the tokens and buffers the guest was given are a prefix of those published, and the replies the host was given a prefix of those returned |
| MqRuns.HistoriesGrow | mq/mq_template.h:229-230 | the order of published and returned entries is settled once and for all when they are added |
| MqRuns.NoOverrun | mq/mq_template.h:220-226 | a ring slot is written only when the entry it held last time round has been read, though nothing compares against the size |
| MqRuns.NoKickLost | mq/mq_template.h:74-90 | after a poll that re-read the index and found nothing, an entry that is there now was either announced by a kick after that re-read or the host has yet to look at NO_NOTIFY |
| MqRuns.EveryReplyInterrupts | mq/mq_template.h:418-439 | the guest raises exactly one interrupt for each entry it returns |
| MqRuns.SeesIff | mq/mq_template.h:346-384 | although the 16-bit counters wrap, comparing them tells guest and host whether there is an unread entry, at every look of every run |
| MqRuns.HushedIff | mq/mq_template.h:346-384 | in every run NO_NOTIFY reads set if and only if the guest saw more entries behind the one it took and has not prepared to sleep since |
| MqMemory.SlotsApartIff | mq/mq_template.h:220-222 | consecutive entries use different slots for ever if and only if the queue size divides 65536 |
| MqMemory.TwentyFour | support/1/librproc/rproc.c:100 | a 24-entry queue uses a slot again after 16 entries when the counter wraps |
| MqOverrun.Overruns | mq/mq_template.h:220-230 | for every size that does not divide 65536 there is a run from the initial state, each step ready and inside the tables, that ends with an unread entry overwritten by a later one |
| MqQueue.PathApart | mq/mq_template.h:93-121 | any number of steps of one side alone keep the queue coherent and leave the part of the other side as it was, which is what a call may rely on between two of its accesses |
| MqMemory.DelimitedUnique | mq/mq_template.h:93-109 | a chain is determined by its first descriptor and the NEXT flags, so the walk that frees it finds exactly the cells that were linked |
| MqQueue.Queue.InitAll | mq/mq_template.h:563-570 | for any number of items the loop leaves the tables in the initial state of the protocol, which is a valid queue whenever the size divides 65536 |
| MqQueue.Queue.GetFree | mq/mq_template.h:111-121 | returns the head of the free list and moves the head on |
| MqQueue.Queue.AddFree | mq/mq_template.h:93-109 | walks the chain to its end and joins the whole of it to the free list as one protocol step |
| MqQueue.Queue.BuildChain | mq/mq_template.h:188-218 | the loop over the message list writes one linked descriptor for each buffer, in order, taken from the front of the free list, whatever the guest does meanwhile |
| MqQueue.Queue.AddAvailable | mq/mq_template.h:188-236 | publishes the chain of the message as the newest entry and kicks exactly when NO_NOTIFY is clear at the end, whatever the guest does between the accesses |
| MqQueue.Queue.GetAvailable | mq/mq_template.h:346-384 | takes the next unread entry, its token and first buffer, found at the first or the second look; or reports none, and then there is none after NO_NOTIFY was cleared; NO_NOTIFY is set when more is waiting; whatever the host does between the accesses |
| MqQueue.Queue.AddUsed | mq/mq_template.h:418-439 | returns a held token with its length as the newest reply and then interrupts, whatever the host does between the accesses |
| MqQueue.Queue.PeekUsed | mq/mq_template.h:124-146 | reports the buffer address of the oldest uncollected reply and takes nothing; reports none only when there is none |
| MqQueue.Queue.Collect | mq/mq_template.h:441-469 | takes the oldest reply, gives its buffer and length, and puts its whole chain back at the front of the free list |
| MqQueue.Queue.AutoRel | mq/mq_template.h:472-498 | collects exactly the leading replies whose buffers are marked for automatic release, including those that come in meanwhile |
| MqQueue.Queue.GetUsed | mq/mq_template.h:441-469 | collects the oldest reply and the releasable ones behind it and returns its buffer and length, or reports that there is none |
| Objects.QuietChange | kernel/efc.c:316-321 | a granted test and a clearing of flags never make a failing test pass, so neither needs a wake pass |
| Objects.ClearQuiet | kernel/efc.c:61-67 | the flag test, for any or for all of a mask, never comes true by clearing flags |
| Objects.EffectValue | kernel/sem.c:138-139 | a set adds exactly its increment and a granted test takes exactly its amount |
| FlagBits.AnyOrAll | kernel/efc.c:61-67 | the flag test for any passes exactly when some bit below 32 is set in both words, and the one for all exactly when every bit set in the mask is set in the flags |
| FlagBits.PassesIff | kernel/efc.c:61-67 | a test passes exactly when its amount is there, or any or all of the flags it names, bit by bit |
| FlagBits.EffectIs | kernel/efc.c:240-326 | bit by bit: setting, toggling and clearing do so to each flag of the mask, a granted test clears those when asked to, and no other flag changes |
| Blocking.PassSplits | kernel/sem.c:150-161 | the wake pass splits the wait queue into those left and those woken, nobody lost or doubled |
| Blocking.PassMembers | kernel/efc.c:361-373 | the wake pass leaves exactly the waiters whose test fails and wakes exactly those whose test passes |
| Blocking.StepInv | kernel/sem.c:219-278 | every call, retry, set, clear, try and timeout keeps: waiters all fail their test, callers are in one place once, and value plus grants is initial plus added |
| Blocking.NoLostWakeUp | kernel/sem.c:251-274 | whenever the interrupt level is down every semaphore waiter asks for more than the value, and of a flag waiter that asks for any no bit of its mask is set, of one that asks for all some bit is not |
| Blocking.TokensConserved | kernel/sem.c:270-275 | initial value plus sets is value plus grants, in every run |
| Blocking.CallersKept | kernel/sem.c:251-274 | a task inside a test is on the wait queue or woken, in one place and once |
| BlockingTurns.TurnTaken | kernel/sem.c:251-275 | in every run a task at its test takes what it asks for, bit by bit, exactly when that is there; otherwise it goes behind all that wait, or gives up when its time is up, and nobody else moves |
| BlockingTurns.TryTaken | kernel/sem.c:225-239 | at raised interrupt level a test takes what it asks for exactly when that is there, and otherwise does nothing |
| BlockingTurns.SetTaken | kernel/efc.c:240-326 | in every run each set, toggle and clear does what it says to each flag or the value, and leaves waiting exactly those whose test is not met, bit by bit |
| BlockingTurns.OnlyByTurns | kernel/sem.c:251-275 | in every run a task comes inside a test by calling and leaves by a turn of its own, and no step loses it |
| BlockingTurns.TimeoutEnds | kernel/timeout.c:47-62 | in every run a task whose timeout went off, waiting or just woken, is on no later wait queue until it calls again; at its next turn it takes what it asked for if that is there, else it leaves object and queues without it |
| BlockingTurns.FirstToWait | kernel/sem.c:257-262 | in every run a task that has waited longer than another on a local object stands before it |
| BlockingTurns.FirstServed | kernel/sem.c:150-161 | in every run a set that wakes a task that came later makes the one that came first ready before it, or that one waits for what even now is not there |
| BlockingKernel.Local.WakePass | kernel/sem.c:150-161 | the loop that unlinks while it walks leaves the failing waiters in their order and wakes the passing ones in theirs |
| BlockingKernel.Local.SetSemaphore | kernel/sem.c:138-161 | setting a local semaphore takes the model's step |
| BlockingKernel.Local.FlagSchedule | kernel/efc.c:336-373 | the common end of setting and toggling wakes by the new flags |
| BlockingKernel.Local.ChangeFlags | kernel/efc.c:240-326 | set, toggle and clear take the model's steps; clear wakes nobody |
| BlockingKernel.Local.TestOnce | kernel/efc.c:152-179 | one turn of a waiting test takes what it asks for, bit by bit, exactly when that is there, gives up after its timeout, or joins the tail of the wait queue; a flag test that is over returns the flags as they were before any were cleared |
| BlockingKernel.Local.TimeoutWake | kernel/timeout.c:47-62 | a timeout takes the task off the wait queue and makes it ready with timedOut set |
| BlockingKernel.Local.RunOn | kernel/sem.c:265-271 | a task made ready leaves the ready list and nothing else changes |
| Boxes.GrantIsOne | kernel/mailbox.c:108-133 | a granted taker was granted exactly one, and the count was at least one |
| Boxes.BoxStepInv | kernel/mailbox.c:70-133 | put, return, take, retry and timeout keep the semaphore equal to the list length, the order of items and the partition of a pool |
| Boxes.MailboxIsQueue | kernel/mailbox.c:70-133 | with blocking takers, timeouts and takers at interrupt level, items come out in the order they were put, the semaphore counts what is left, and a granted taker never gets NULL |
| Boxes.PoolPartition | kernel/pools.c:126-217 | each item of a pool is free or taken and never both; what a taker is given was free and in nobody's hands |
| Boxes.OthersRan | kernel/pools.c:99-117 | whatever others do to a pool in any number of steps while one task holds an item, short of returning that item, it stays out and the pool in order |
| BlockingKernel.Store.InitMbox | kernel/mailbox.c:49-61 | a mailbox starts empty with count zero |
| BlockingKernel.Store.InitPool | kernel/pools.c:56-89 | the initialisation loop links all items into the free list in order, with the count to match |
| BlockingKernel.Store.PutMbox | kernel/mailbox.c:70-92 | adds at the tail and counts it, waking takers |
| BlockingKernel.Store.ReturnPool | kernel/pools.c:161-199 | puts a taken item back at the tail of the free list and counts it |
| BlockingKernel.Store.Get | kernel/mailbox.c:108-133 | the first turn of a taker is granted exactly when there is an item, and then it takes the head of the list; otherwise it gives up or waits |
| BlockingKernel.Store.GetAgain | kernel/mailbox.c:108-133 | each turn after a wake or a timeout is granted exactly when there is an item by then, and takes the head of the list |
| BlockingKernel.Store.EmptyPool | kernel/pools.c:99-117 | answers whether the pool was empty and returns the item it tried to the tail of the free list, with any use of the pool by others in between |
| ImpExpSafety.RespondOk | kernel/impexp.c:950-974 | answering a request moves it from one channel to the other and keeps every waiter informed |
| ImpExpSafety.NotifyCovers | kernel/impexp.c:374-402 | a NOTIFY behind everything on its way covers every waiter, whatever happens to mask and object |
| ImpExpSafety.ReceiveOk | kernel/impexp.c:495-568 | handling an ACK or a NOTIFY leaves no waiter uninformed |
| ImpExpTokens.ReceiveTokens | kernel/impexp.c:531-561 | no message turns one grant into two |
| ImpExpTokens.ExpireTokens | kernel/timeout.c:47-62 | a timeout adds to what is claimed only under number 1 with no grant on its way |
| ImpExpSafety.ServeOk | kernel/impexp.c:664-711 | serving a request, granted or refused, leaves every waiter of every client informed |
| ImpExpSafety.StepOk | kernel/impexp.c:495-655 | every call, repeated call, service, local use, receipt, timeout and resumption leaves every waiter informed |
| ImpExpLedger.Verdict | kernel/impexp.c:664-711 | a queued request with a number of its own was granted if and only if an ACK of success under that number is on its way, and with the word it sent if and only if that ACK carries it |
| ImpExpLedger.StepBacked | kernel/sem.c:310-323 | every step but a timeout under number 1 with no grant on its way keeps all reports of success true, and that one makes a report false |
| ImpExpRuns.RunInv | kernel/impexp.c:495-655 | every run keeps waiters informed, the token sums, the ledger of requests and grants, and the order of a store |
| ImpExpRuns.NoStrandedWaiter | kernel/impexp.c:531-561 | in every run each queued task has its request or ACK in flight, or is parked with a NOTIFY on its way or its processor on the mask and its test failing now |
| ImpExpRuns.QuietMeansWaiting | kernel/impexp.c:686-694 | once a processor's channels are empty, whoever waits there fails its test now and is on the mask |
| ImpExpRuns.ChangeWakes | kernel/sem.c:163-176 | a change on the server that makes a parked test pass has a NOTIFY on its way to it |
| ImpExpRuns.NotifyRetries | kernel/impexp.c:636-648 | a NOTIFY empties the queue and each waiting test it wakes is sent again |
| ImpExpRuns.SuccessBackedIff | kernel/sem.c:310-323 | in any run every success a task has to report was granted to it, at every moment, if and only if no test times out under number 1 with no ACK of success on its way |
| ImpExpRuns.ResultExactIff | kernel/impexp.c:537-543 | every test returns the item or flags it was granted with if and only if none times out under number 1 unless the ACK on its way carries the very word the test sent |
| ImpExpRuns.TokensConserved | kernel/impexp.c:674-704 | value plus grants is initial plus added; no more is claimed than granted, but for misread timeouts; no more is added than was asked |
| ImpExpRuns.NeverDuplicated | kernel/impexp.c:531-561 | if no test times out under number 1 with no grant on its way, claims plus value never exceed the initial value plus sets |
| ImpExpRuns.TimeoutVerdict | kernel/sem.c:310-323 | a timed-out test reports success exactly when it has number 1, was granted exactly when an ACK of success is on its way, and with the word it returns exactly when that ACK carries it |
| ImpExpRuns.ClaimedOnce | kernel/impexp.c:531-561 | no granted request is claimed twice, and while reports are true only granted ones are claimed |
| ImpExpRuns.TimeoutMisread | kernel/sem.c:315-323 | a run of three steps in which a task claims a token that was never granted |
| ImpExpRuns.TimeoutGranted | kernel/lock.c:50-65 | a run in which the first request on a lock, number 1, times out with its grant on its way, and claims just what it was granted |
| ImpExpLocks.MutualExclusion | kernel/lock.c:75-100 | in every run on an exported lock in which only holders unlock, at most one task holds it, and none while it is free, if no test times out under number 1 with no grant on its way |
| ImpExpLocks.TwoHolders | kernel/sem.c:315-323 | without that condition there is a run of four steps that ends with two holders |
| ImpExpRuns.StoreIsQueue | kernel/impexp.c:664-746 | an exported mailbox or pool is a queue across all processors: what was put is what was taken followed by what it holds, which the semaphore counts, and no request takes twice |
| ImpExpRuns.ItemsDelivered | kernel/mailbox.c:116-122 | a client that reports success in a get has the item that its own request took, if no timeout garbled a result |
| ImpExpRuns.ItemLost | kernel/mailbox.c:116-122 | a run in which a granted get that timed out under number 1 returns its own parameter in place of the item, which is lost |
| ImpExpFates.FlagsDelivered | kernel/impexp.c:840-845 | a client that reports success in a flag test has as result the flags of the cluster as they were when the server granted its own request, before any were cleared, and they held what it waited for, if no timeout garbled it |
| ImpExpFates.ServedRight | kernel/impexp.c:664-711 | in every run the server grants a test exactly when what it waits for is there, bit by bit, and then takes just that; it carries out every set; and it tells the client which |
| ImpExpFates.AckMeetsOwner | kernel/impexp.c:531-561 | in every run an ACK, though its number has eight bits, reaches the task whose request it answers: success or no wait wakes it, a refused test that waits is parked, and if that task has gone nobody is touched |
| ImpExpFates.NumbersFreeIff | kernel/krn.xml:2250-2263 | in every run requests are numbered in turn modulo 256, and the next number is free if and only if fewer than 256 requests are outstanding |
| ImpExpFates.ResentIff | kernel/sem.c:301-323 | in every run a woken task sends its test again, under the next number with its own amount or mask, if and only if the test waits, was not acknowledged with success and has not timed out |
| ImpExpFates.TimeoutEnds | kernel/sem.c:317-322 | in every run a request whose timeout went off is on the wait queue no more, and nothing is sent for it when its task runs on |
| ImpExpFates.MaskIsOwed | kernel/impexp.c:696-702 | in every run a processor is on the notify mask if and only if a waiting test of it was refused and nothing that may make a test pass was done since |
| ImpExpFates.OwedNotified | kernel/impexp.c:374-402 | in every run what may make a test pass sends one NOTIFY to each processor that is owed one and to no other |
| ImpExpPeers.Importer.WaitOnSequence | kernel/krn.xml:2250-2263 | parks the caller at the tail under the next number modulo 256 and sends its request |
| ImpExpPeers.Importer.Ack | kernel/impexp.c:526-563 | the search loop gives the owner of the ACK the word it carries when that is a result, and wakes it, or parks it out of reach of later ACKs when a waiting test failed |
| ImpExpPeers.Importer.Notify | kernel/impexp.c:637-648 | the loop drains the whole wait queue in order, each with status failed |
| ImpExpPeers.Exporter.NotifyMasked | kernel/impexp.c:374-402 | the loop over processors sends one NOTIFY to each on the mask and to no other |
| ImpExpPeers.Exporter.SetSemaphore | kernel/sem.c:138-177 | the wake pass over local waiters and the NOTIFYs to other processors, as one change of the protocol |
| ImpExpPeers.Exporter.ChangeFlags | kernel/efc.c:240-326 | setting and toggling wake local waiters by the new flags and notify the others; clearing does neither |
| ImpExpPeers.Exporter.SemTest | kernel/impexp.c:664-711 | grants, decrements and takes the item of a mailbox or pool, which the ACK carries, or refuses and masks a waiting client, as the step of the protocol |
| ImpExpPeers.Exporter.EfcTest | kernel/impexp.c:818-860 | tests flags, clears them when asked and acknowledges with the flags as they were, or refuses and masks a waiting client, as the step of the protocol |
| ImpExpPeers.Exporter.SemSet | kernel/impexp.c:721-746 | increments, or puts the item into its mailbox or pool, wakes local waiters, notifies and acknowledges, as the step of the protocol |
| ImpExpPeers.Exporter.EfcSet | kernel/impexp.c:869-898 | sets, toggles or clears flags, wakes local waiters, notifies and acknowledges, as the step of the protocol |
| TimerQueue.DeadlinesDetermine | kernel/timer.c:75-77 | a delta queue is its timers with their absolute deadlines and nothing more |
| TimerQueue.InsertMeaning | kernel/timer.c:79-104 | insertion adds the timer at its place and moves no other deadline, coalesced or not |
| TimerQueue.PositionMeaning | kernel/timer.c:89-92 | the walk stops behind every earlier deadline and before every deadline not earlier |
| TimerQueue.GrantedWithinTolerance | kernel/timer.c:97-103 | a soft timer's deadline is never earlier than asked and is late by less than its tolerance |
| TimerQueue.RemoveMeaning | kernel/timer.c:139-142 | cancelling removes one deadline and moves no other |
| TimerQueue.CancelUndoesSet | kernel/timer.c:137-150 | setting and then cancelling a timer restores every delta exactly |
| TimerQueue.DeliversExactlyIff | kernel/timtask.c:108-123 | the interrupt delivers exactly the timers due strictly before now if and only if each deadline that decides lies within reach of the 32-bit comparison |
| TimerQueue.EarlyDelivery | kernel/timtask.c:115-115 | a first deadline more than half the counter range ahead is delivered early |
| TimerQueue.RebaseMeaning | kernel/timtask.c:123-130 | counting the remaining deltas from now moves no pending deadline |
| TimerQueue.AlarmIsMinimum | kernel/timtask.c:58-80 | the wrapping signed comparison programs the true minimum of timer, slice and cap when they lie within half the counter range |
| TimerQueue.MeasuredTime | kernel/timer.c:79-86 | the interrupt measures elapsed time right across a wrap; setting a timer does so if and only if the counter has not wrapped since the last interrupt, and otherwise gets a delta 2^64 less 2^32 too large |
| TimerQueue.FiredDues | kernel/timtask.c:108-123 | near or far in the queue, the interrupt compares true deadlines: it delivers timers that were due and stops at the first that is not |
| TimerRuns.InterruptTrue | kernel/timtask.c:109-130 | on 32-bit registers the interrupt does what it would on true times |
| TimerRuns.StepInv | kernel/timer.c:51-156 | ticks, sets, cancels, interrupts and slice changes keep: one entry for each active timer, deadlines as promised, conservation, and the alarm no later than the earliest deadline and the end of the slice |
| TimerRuns.NeverEarly | kernel/timtask.c:108-123 | in every run, timers set across a wrap included, a timer is delivered no earlier than asked and within its tolerance, and the mailbox holds the deliveries in order, if no timer was made to wait for one due sooner |
| TimerRuns.InterruptExact | kernel/timtask.c:108-130 | in every run each interrupt delivers from the head the timers due before now up to the first that is not, and moves no other deadline; timers set in time exactly when due; all timers if and only if none is overdue behind one that is not |
| TimerRuns.TimersConserved | kernel/timer.c:51-156 | every timer set is pending, delivered or cancelled, as often as it was set, and active means pending |
| TimerRuns.AlarmCovers | kernel/timer.c:105-108 | at every moment of every run the alarm as it was last set goes off no later than the first timer in the queue is due, than any is when they are in order, and, with slicing on, than the end of the slice |
| TimerOrder.OrderedIff | kernel/timer.c:79-104 | in every run the timers stand in the order of their deadlines at every moment if and only if none is set across a wrap while one set in time is due later, or in time while one set across a wrap is due earlier |
| TimerOrder.PromisesIff | kernel/timer.c:97-103 | in every run all timers pending and delivered are due as promised at every moment if and only if none is made to wait for one due sooner |
| TimerOrder.RashOnlyIf | kernel/timer.c:85-103 | that takes a negative tolerance and a pending timer that was set across a wrap |
| TimerOrder.InTime | kernel/timer.c:79-104 | in a run in which no timer is set across a wrap the deadlines that stand in the queue are the true ones, in order, and no promise is broken |
| TimerOrder.LateAcrossWrap | kernel/timer.c:79-86 | a run in which a timer of no tolerance set just after a wrap is not covered by the alarm, not delivered by an interrupt after it was due, and at last delivered 1851 ticks late |
| TimerOrder.EarlyByTolerance | kernel/timer.c:97-103 | a run in which a timer set with a negative tolerance beside one set across a wrap is delivered 3999 ticks early |
| TimerRuns.AlarmSet | kernel/timtask.c:58-80 | whenever the alarm is set it is no later than the timer expiry, the end of the slice and the cap, and equals one of them |
| TimerFates.SetTimerDue | kernel/timer.c:79-107 | in every run a timer set for delay ticks is from then on pending or delivered with one and the same true deadline, delay times clock speed after the set, or later by less than tolerance times clock speed, whatever other timers do; it is delivered after that deadline |
| TimerFates.DelayKeptIff | kernel/timer.c:83-84 | a timer set without tolerance is due when asked for if and only if its counts fit in 32 bits, and else sooner |
| TimerFates.SetAtOnce | kernel/timer.c:109-112 | in every run a timer set for no time is delivered at once and one set for less than that not at all |
| TimerFates.Cancelled | kernel/timer.c:137-150 | in every run a timer that is cancelled is not pending and not delivered until it is set again |
| TimerFates.ExpiryIs | kernel/timer.c:105-107 | the next-expiry register holds exactly when the first timer is due after an interrupt or a cancel, and what was asked for after a set at the head, so no alarm is set too soon |
| TimerFates.SliceLength | kernel/timeslice.c:55-60 | in every run slices are ticks times clock speed long until another length is set |
| TimerFates.SliceBegins | kernel/sched.c:541-547 | in every run a task that is switched in has that many counts until its slice is over, and no timer call changes that |
| TimerRuns.SliceVerdict | kernel/timtask.c:133-138 | an interrupt ends the running slice if and only if it is over or would end after the next wrap of the counter |
| TimerRuns.SliceCutShort | kernel/timtask.c:133-138 | a run in which a slice of 512 ticks begun 256 before the wrap is ended one tick later |
| TimerRuns.ZeroChangesIff | kernel/timeslice.c:56-62 | in every run setting a slice of zero leaves the running slice as it was if and only if slicing is off or the slice was to end INT32_MAX from now, and otherwise makes it end later |
| TimerRuns.ZeroStretches | kernel/timeslice.c:60-62 | a run in which setting zero turns a slice of 512 ticks into one of INT32_MAX |
| TimerKernel.Kernel.SetExpiry | kernel/timtask.c:58-80 | the branches compute the programmed time of the specification |
| TimerKernel.Kernel.SetTimeSlice | kernel/timeslice.c:48-66 | a new slice length, zero or a negative one takes the step of the model, sets the alarm and returns the old length by unsigned division |
| TimerKernel.Kernel.DispatchSlice | kernel/sched.c:541-547 | the part of the scheduler that starts a slice takes the step of the model |
| TimerKernel.OldTicksIff | kernel/timeslice.c:65 | for any 32-bit length the one returned is the one that was set if and only if the clock runs at the rate of ticks, or the length was not negative and its clock counts fit in 32 bits |
| TimerKernel.Kernel.Link | kernel/timer.c:89-104 | the loop finds the place and links the timer in, taking its ticks from the entry after it |
| TimerKernel.Kernel.SetSoft | kernel/timer.c:51-115 | a negative delay does nothing, zero expires at once, any other is queued, and the alarm is set when the timer becomes the first, as the step of the model |
| TimerKernel.Kernel.Unlink | kernel/timer.c:139-143 | takes a queued timer off the queue and gives its ticks to the next |
| TimerKernel.Kernel.CancelSoft | kernel/timer.c:125-156 | unlinks an active timer, gives its ticks to the next and sets the alarm, as the step of the model, or reports failure |
| TimerKernel.Kernel.Deliver | kernel/timtask.c:114-122 | the loop delivers expired timers from the head and stops at the first that is not |
| TimerKernel.Kernel.Isr | kernel/timtask.c:94-141 | delivers, counts from now, ends the slice when its test says so and sets the alarm, as the step of the model |
| SchedSafety.FlaggedIsHighest | kernel/sched.c:518-533 | given that a queue with a task is flagged, the search by flags finds what a plain scan of the queues finds |
| SchedSafety.PutBackInv | kernel/sched.c:489-508 | the outgoing task ends up on the queue its holdQueue word names and nowhere else, wherever it was |
| SchedSafety.ScheduleInv | kernel/sched.c:489-533 | a pass of the scheduler keeps the invariant, leaves the running task on no queue, and nothing ready above it |
| SchedSafety.StepInv | kernel/sched.c:408-422 | start, block, wake, resume, timeout, priority change, yield, exit and dispatch of a given task keep every task on one queue and every queue in use flagged |
| SchedSafety.TasksConserved | kernel/sched.c:489-533 | after every pass of the scheduler each task is in exactly one place, nothing ready outranks what runs, and the processor idles only when nothing is ready |
| SchedSafety.SearchIsScan | kernel/sched.c:518-533 | in every run the stale flags make no difference: the task chosen is the head of the highest ready queue |
| SchedTurns.TimerFirst | kernel/sched.c:489-533 | in every run whenever the scheduler runs and the timer task is ready it is the one to run |
| SchedTurns.PreemptedResumes | kernel/sched.c:494-502 | in every run a task that a pass of the scheduler preempts, searching or handed a task of another level, heads its queue, and no task of its level runs, until it runs again, provided nothing disturbs it: a wake, a priority change into or at its level, or a peer given to the scheduler |
| SchedTurns.WaitingStep | kernel/sched.c:489-533 | for every step and state: a waiting task that does not get to run keeps its place if and only if the step is none of those |
| SchedTurns.ResumesNext | kernel/sched.c:518-533 | a pass that finds nothing ready above its level runs it |
| SchedTurns.WokenGoesLast | kernel/timeout.c:55-58 | a preempted task that is woken again, as a pending timeout does, goes behind its peer |
| SchedTurns.LoweredGoesFirst | kernel/priority.c:68-90 | a running task lowered to the level of a preempted one is queued before it |
| SchedOvertaken.WokenLoses | kernel/timeout.c:55-58 | a run of eight steps in which a preempted task is woken again and its peer of the same priority runs before it |
| SchedOvertaken.LoweredWins | kernel/priority.c:68-90 | a run of seven steps in which the running task is lowered to the level of a preempted one and runs on before it |
| SchedTurns.RoundRobin | kernel/sched.c:494-506 | in every run, of k tasks sharing a level that only yield or are sliced, each for its own reason, while tasks of other levels do as they please, the one to run after n such switches is the n-th in the ring |
| SchedTurns.EachOnce | kernel/sched.c:541-607 | so in any k consecutive switches each of the k has its turn once |
| SchedWaits.BlockedLast | kernel/sched.c:489-508 | in every run a task that names a wait queue, unless it is woken first, is last on that queue once it leaves the processor, and all others on it stay |
| SchedWaits.LongestWaits | kernel/sched.c:495-505 | in every run wait queues are first in, first out: whoever heads one has stood before each other task on it ever since that one came to wait |
| SchedWaits.InterruptedResumes | kernel/sched.c:494-502 | in every run a task that did not ask to be descheduled in its turn heads its queue from the pass that interrupts it until it runs again, unless it is disturbed |
| SchedWaits.YieldedLast | kernel/sched.c:502-505 | in every run a task that asked to be descheduled in its turn is last of its level after the next pass, or runs on with no peer ready |
| SchedWaits.ReasonIs | kernel/sched.c:541-607 | in every run the reason that the scheduler finds is why the running task last asked to be descheduled since it was given the processor, or that it did not |
| SchedWaits.EndedNeverRuns | kernel/sched.c:489-508 | in every run a task that ended is on no queue and never runs from the next pass on |
| SchedWaits.MadeReady | kernel/krn.xml:2125-2144 | in every run a task that is started, woken, or re-ranked while ready is last of its level, and a priority change moves no task that waits |
| SchedWaits.RankIs | kernel/priority.c:60-83 | in every run the priority of a task is the last asked for it, or 0 or the one below the highest when that is out of range |
| SchedKernel.UffbIsHighest | kernel/sched.c:100-103 | 31 less the leading zeros of a non-zero 32-bit word is the position of its highest bit |
| SchedKernel.Kernel.Search | kernel/sched.c:519-533 | the loop over 32-bit flag words ends, finds the highest flagged queue with a task, and clears exactly the flags above it |
| SchedKernel.Kernel.Deschedule | kernel/sched.c:489-508 | queues the outgoing task at head, tail or nowhere as its reason and holdQueue say |
| SchedKernel.Kernel.Swap | kernel/sched.c:535-648 | swaps to the task or goes idle; a task that was not running or had used up its slice gets a whole slice, and only then |
| SchedKernel.Kernel.ScheduleTaskCore | kernel/sched.c:455-648 | the code of the scheduler, with or without a task given, takes the step of the model, keeps the flag words valid and renews the slice when it should |
| SchedKernel.Kernel.WakeTaskUp | kernel/krn.xml:2125-2144 | makes a task ready at the tail of its own queue, marks the queue in use, and tells whether the task outranks the running one |
| SchedKernel.MustSchedule | kernel/krn.xml:2140-2143 | with the highest ready task running, waking another leaves it so if and only if the other does not outrank it |
| SchedKernel.Kernel.ChangePriority | kernel/priority.c:46-92 | refuses the timer task with -1; otherwise clamps the priority, re-queues a ready task that is not running, marks the new queue in use and returns the old priority |
| SchedKernel.Kernel.StartTask | kernel/sched.c:344-422 | a new task is ready at the tail of the queue of its priority, which is the maximum for the timer task and clamped below it for any other |
| SchedKernel.Kernel.WakeOne | kernel/wake.c:46-68 | wakes the head of a wait queue, if there is one, hands it the value, and tells whether it outranks the running task |
| SchedKernel.Kernel.WakeAll | kernel/wake.c:77-99 | wakes every task of a wait queue in order, leaves the queue empty, and tells whether one of them outranks the running task |
| SchedKernel.Kernel.ResumeWithValue | kernel/wake.c:108-129 | takes a task from wherever it waits, makes it ready and hands it the value |
| SchedKernel.Kernel.TimeoutWake | kernel/timeout.c:47-62 | takes a task from wherever it waits, marks it timed out and makes it ready |
| TreeShape.SubStep | trees/isinsub.c:55-67 | an item other than the root is in a sub-tree exactly when its parent is |
| TreeShape.SubStarts | trees/subnext.c:48-84 | nothing that stands before the root of a sub-tree is in it |
| TreeShape.WalkExact | trees/subnext.c:48-84 | the walk over a sub-tree holds each of its items exactly once, in list order, root first |
| TreeShape.NextInWalk | trees/subnext.c:56-83 | the next item of the sub-tree in the list is the next of the walk |
| TreeShape.FirstIsNext | trees/subnext.c:54-55 | the first child of a root is the first of its descendants in the list |
| TreeShape.KeepWf | trees/remsub.c:61-85 | taking out a set closed downwards leaves parents before children and siblings together |
| TreeShape.KeepFrom | trees/remsub.c:61-85 | each item that is kept stood in the list outside the set, in the same order |
| TreeShape.KeepTo | trees/remsub.c:61-85 | each item outside the set is kept, with its parent |
| TreeShape.AddedWf | trees/addchild.c:63-79 | adding a child keeps parents before children and siblings together |
| TreeShape.SlotIs | trees/addsib.c:62-70 | the end of the family is the same from any sibling |
| TreeShape.SlotEnds | trees/addchild.c:63-79 | no item of the family stands at its end or after, and one stands just before unless there is none |
| Trees.FirstChild | trees/firstchild.c:56-72 | returns the first item with this parent, or null when there is none |
| Trees.NextSibling | trees/nextsib.c:49-60 | returns the next item when it has the same parent, else null |
| Trees.FinalSibling | trees/finalsib.c:56-71 | returns the last of the run of siblings |
| Trees.PrevSibling | trees/prevsib.c:49-64 | returns the item whose next sibling this is, or null for the first of a family |
| Trees.IsInSubTree | trees/isinsub.c:55-67 | the climb answers membership of the sub-tree of any item, of this tree or not; asked about the tree object as sub-tree the answer is NULL for every item |
| Trees.Scan | trees/subnext.c:62-83 | the nested climb and sibling-skip loops end at the next item of the sub-tree |
| Trees.SubTreeNext | trees/subnext.c:48-84 | returns the next item of the sub-tree, or of the whole tree when the root is the tree object, in list order, or null at its end |
| Trees.VisitAll | trees/subnext.c:48-84 | iterating from the root visits every item of the sub-tree once, in list order |
| TreeEdit.AddChild | trees/addchild.c:57-84 | links the item after the last child of its parent, or at the end of the list, and nothing else moves |
| TreeEdit.AddSibling | trees/addsib.c:57-76 | links the item at the end of the sibling's family |
| TreeEdit.RemoveLeaf | trees/remleaf.c:54-84 | unlinks a leaf; when it is the first item of the tree the tree is emptied |
| TreeEdit.LeafRemovedIff | trees/remleaf.c:60-66 | exactly the leaf is removed if and only if it is not the first of several items |
| TreeEdit.LeafRemovalLoses | trees/remleaf.c:60-66 | removing the first of two roots loses the other |
| TreeEdit.RemoveLeafFromSubTree | trees/remlsub.c:55-80 | finds and removes a leaf of the sub-tree and returns it |
| TreeEdit.EmptySubTree | trees/remlsub.c:55-80 | removing leaves until the root goes removes each item of the sub-tree once, children first, and leaves what removing the sub-tree would, but nothing when the root is the first item |
| TreeEdit.RemoveSubTree | trees/remsub.c:55-86 | the one-pass patching of links leaves exactly the items outside the sub-tree in their old order and returns the last removed |
| TreeCopy.ParentEarlier | trees/copysub.c:112-120 | every item but the root comes after its parent in the walk |
| TreeCopy.FamilyTogether | trees/copysub.c:94-96 | a later sibling comes straight after its family in the walk |
| TreeCopy.CountSteps | trees/copysub.c:113-122 | the counting loop returns the position of the parent in the walk of the source |
| TreeCopy.TakeSteps | trees/copysub.c:123-126 | as many steps in the copy reach the copy of that item, whatever tree object is passed |
| TreeCopy.InitCopySubTree | trees/copysub.c:57-76 | refuses exactly the destinations inside the sub-tree, and otherwise starts an empty copy |
| TreeCopy.Copier.FindParent | trees/copysub.c:97-126 | counting steps in the source finds the copy of the current item's parent |
| TreeCopy.Copier.CopyNext | trees/copysub.c:85-143 | links the loose item in as the copy of the current one, under the copy of its original's parent, and moves the cursors on |
| TreeCopy.CopySubTree | trees/copysub.c:57-143 | copying to exhaustion under any item of any tree, or elsewhere in the same tree, copies every item once and leaves the sub-tree and all that the destination held as they were |
| TreeCopy.CopyIsomorphic | trees/copysub.c:57-143 | the k-th copy is a child of the j-th exactly when the k-th original is a child of the j-th |
| Queues.Empty | dqueues/dq.c:138-141 | true exactly when the ring is the header alone |
| Queues.First | dqueues/dq.c:143-148 | the first item, or null |
| Queues.Last | dqueues/dq.c:152-157 | the last item, or null |
| Queues.Remove | dqueues/dq.c:171-184 | takes the item out of whichever queue holds it, leaves an orphan alone, and touches no other queue |
| Queues.AddAfter | dqueues/dq.c:248-260 | links the item in after the given one, in its queue, and touches no other queue |
| Queues.AddBefore | dqueues/dq.c:234-246 | links the item in before the given one; before the header is at the tail |
| Queues.AddHead | dqueues/dq.c:110-122 | the queue becomes the item followed by its old contents |
| Queues.AddTail | dqueues/dq.c:124-136 | the queue becomes its old contents followed by the item |
| Queues.RemoveHead | dqueues/dq.c:186-208 | removes and returns the first item, or null from an empty queue |
| Queues.RemoveTail | dqueues/dq.c:210-232 | removes and returns the last item, or null from an empty queue |
| Queues.Move | dqueues/dq.c:262-277 | the whole contents move in order into any destination, whose old contents are forgotten, and the old queue is empty; a queue moved to itself is emptied |
| Queues.Forget | dqueues/dq.xml:138-158 | leaving one queue out of account leaves the others a family that none of its links is in, which is how a destination that holds items is overwritten |
| Queues.Requeue | kernel/priority.c:72-78 | removing an item from wherever it is and adding it to a queue leaves every other queue's contents and order |
| Lists.Add | lists/lst.c:106-123 | appends the item |
| Lists.AddHead | lists/lst.c:125-142 | puts the item first |
| Lists.RemoveHead | lists/lst.c:168-182 | removes and returns the first item, or null from an empty list |
| Lists.Remove | lists/lst.c:184-204 | removes the item wherever it stands; the tail word ends up at the header exactly when it was the only one |
| Lists.LastOfEmpty | lists/lst.c:156-159 | the last item of an emptied list reads as null if and only if it was emptied from the head |

## Left out

- MqQueue.Queue.InitAll: the shared rings and flags are taken to start at zero, as nothing in the function clears them; locating the tables and installing the interrupt handler are left out.
- MqRuns.NoKickLost: weak memory order is left out; barriers are taken as sequential consistency.
- MqQueue.Queue.GetAvailable: of the reading side only this call is modelled, not getFirstAvailable, getMoreAvailable, getNextAvailable and chainAvailable, whose suppression write-back re-reads instead of writing.
- MqQueue.Queue.GetUsed: the automatic release stands for a set of buffer addresses; returning the buffer to its pool is not joined to the pool model.
- remainingAvailable and remainingUsed, whose subtraction is not taken modulo 65536, and the take, send and receive loops.
- ImpExpRuns.NeverDuplicated: exact conservation does not hold on the importing side, because a NOTIFY wakes tasks whose ACK is still on its way and a granted token can be dropped; what holds is that none is duplicated.
- ImpExpPeers.Exporter.NotifyMasked: the notify mask is a set of processors, not a 32-bit word, and there is no message structure.
- ImpExpPeers.Exporter.SemTest: NACKs of mismatched objects, work queues, barriers, memory announcements and import probes are left out.
- Blocking.TokensConserved: values are unbounded; 32-bit overflow of a semaphore is left out.
- BlockingKernel.Local.TestOnce: the loop around it, with the scheduler between its turns, is the model's call and retry steps.
- TimerRuns.NeverEarly: for timers not already queued and due within half the counter range, for interrupts within half the range of each other, and while no timer set across a wrap is overdue by half the range.
- TimerRuns.AlarmCovers: for slices shorter than half the counter range.
- TimerKernel.Kernel.SetSoft: the queue is a sequence of entries; its links are those of `Queues`. The callback and its parameter are left out, and delivery is to the mailbox.
- SchedKernel.Kernel.ScheduleTaskCore: context switching and the tasks' schedIn and schedOut hooks are left out, as is the test whether the interrupt level allows scheduling; setting the alarm for a new slice is in `TimerKernel.Kernel.DispatchSlice`.
- SchedSafety.StepInv: a task ends itself by losing its queue; removing another task is left out, as kernel/remove.c:82 assigns where it should compare.
- TreeCopy.CopySubTree: the two trees are one or have no item in common, and the loose items are new.
- Paranoia checks, tracing, profiling, stack checks, cache flushes, address translation, hardware timers and interrupts: no effect on what is proved.
- kernel/sync.c, kernel/wq.c and rings/ring.c.
