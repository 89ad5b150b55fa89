# A verified model of Liquorice

Liquorice is a small real-time kernel with a network stack.  This project models its hardest parts in Dafny and proves
what they promise: the scheduler with its priority-ceiling locks, the reader/writer lock, the heap, the PPP framing and
link control code, the data phase of TCP, the ARP cache, the routing list and the Internet checksum.

`dafny verify dfyconfig.toml` checks everything.

| file | models |
|---|---|
| `contexts.dfy` | scheduling state and the context, lock, sleep and wake operations, as functions |
| `ceiling.dfy` | the scheduler invariant and its preservation by every operation |
| `ceiling_theorems.dfy` | what follows for whole runs: priority ceiling, turn taking, urgent waiters first |
| `inversion.dfy` | bounded priority inversion over whole runs |
| `effects.dfy`, `handover.dfy` | what every operation brings about: who wakes and why, who holds what, who takes over |
| `kernel.dfy`, `kernel_runs.dfy` | the same operations in place, proved against the functions; the kernel object under the invariant |
| `rwlock.dfy` | reader/writer locks |
| `collections.dfy`, `bits.dfy` | optional values; sizes of sequences and sets; bits of numbers |
| `heap.dfy`, `heap_runs.dfy` | hole lists, best fit, coalescing; allocation runs and the heap in place |
| `fcs.dfy`, `ahdlc.dfy`, `ahdlc_line.dfy` | the PPP frame check sequence; asynchronous framing, both directions; frames on the line |
| `lcp.dfy`, `lcp_conduct.dfy` | the link control automaton; its table against RFC 1661 and what every input makes it send |
| `lcp_options.dfy`, `lcp_accm.dfy` | answering a Configure-Request; the control character map |
| `rtt.dfy`, `tcp.dfy` | round-trip estimation and back-off; one socket |
| `tcp_stream.dfy`, `tcp_progress.dfy` | two sockets over a bad channel: safety over every run; what can still be delivered |
| `tcp_timing.dfy` | timers, round-trip samples and acknowledgements of a socket over whole runs |
| `arp.dfy`, `route.dfy`, `ipcsum.dfy` | ARP cache, routing list, Internet checksum |

## Main results

- **Priority ceiling.**  In every run of callers that obey the lock discipline no debug trap is reached, every lock that
  is asked for is free and the running context is the most urgent.  For as long as a context stays runnable, whoever holds
  it up is one and the same context, which has been inside one outermost critical section all along.  The discipline is
  needed: a holder that yields breaks this exactly when an equal is ready, and then the equal's own request traps.
- **Sleeping and waking.**  A context that went to sleep runs again only after one operation that names it woke it; it is
  told whether that was a signal or an interruption, and holds exactly the lock it went to sleep with.
- **Two TCP endpoints.**  Over a channel that loses, repeats and reorders segments, each client receives a prefix of what
  the other sent, and the window is one segment.  From every state that a connection reaches, everything sent so far can
  still be delivered while the peer's client is silent if and only if the connection is not blocked by an empty buffer.
- **TCP timing.**  Until a segment is acknowledged its timeout doubles with every repetition; its first acknowledgement
  is one sample for Van Jacobson's estimator if it was never repeated, and by Karn's rule none otherwise.
- **Heap.**  Holes are a canonical form of the free memory: they depend only on what was added and what is allocated.
- **Framing.**  Decoding the concatenated encodings of any packets gives back exactly the payloads that fit, and no byte
  that the control character map keeps off the line appears on it.
- **Link control.**  The table is that of RFC 1661, cell by cell.  Over all sequences of inputs the timer, the phase, the
  identifiers and the state agree, and the link opens only after a Configure-Ack was taken since our latest request and we
  acknowledged the peer's.  That Configure-Ack answers the request itself if and only if the number of Echo-Requests in
  between is a multiple of 256.
- **Answering options.**  The one-pass rewriting reply is the worst answer over all options, with exactly the options
  that deserve it.
- **ARP cache.**  Eight stamped slots behave as a least-recently-used list over all histories of up to n operations if
  and only if n is at most 2^32.

## Where the code and its promise part

Each of these is stated exactly, with a lemma that shows the failure.

- The reader count is a byte: exclusion holds exactly for at most 255 contexts (`RwLocks.ExclusionExactly`), and, of the
  runs that reach no debug trap, exactly for at most 256 (`RwLocks.ExclusionUntilTrapExactly`).
- Releasing write access never clears the writer count: the lock is dead afterwards exactly when nobody waits
  (`RwLocks.UnlockWriteKillsExactly`).
- The PPP receiver joins the conditions for delivering a frame with "or", so a damaged frame with a usual header is
  delivered (`Ahdlc.AcceptedExactly`, `Ahdlc.DamagedFrameIsDelivered`), and so is one of fewer than four bytes, with a size
  that has wrapped (`Ahdlc.DeliveredSizeFitsExactly`, `Ahdlc.LoneByteIsDelivered`).
- A Terminate-Request is stamped before the identifier advances, so a Terminate-Ack is one behind: it is taken exactly when
  255 Echo-Requests, or 256 more, and so on, arrived in between (`Lcp.TerminateAckIsRecognised`,
  `Lcp.TerminateAckIsIgnored`).
- An Echo-Request advances the identifier that a Configure-Ack is compared with, so the link can open on a Configure-Ack
  for a request that was never sent (`Lcp.OpenedMeansAgreed`, `Lcp.OpensWithoutAnswer`).
- The network layers are told when the link opens and never when it goes down: they hear up and down alternately exactly in
  the runs that open the link at most once (`Lcp.OnlyUpsAreTold`, `Lcp.ToldUpTwice`).
- An Echo-Reply carries our own identifier: it is the one asked with exactly when the two are equal
  (`LcpConduct.EchoReplyMatchesExactly`).  An unknown code is never answered (`LcpConduct.UnknownCodeConduct`), and a closed
  link answers a Configure-Request as if it negotiated (`LcpConduct.ConfReqConduct`), where RFC 1661 asks for a Code-Reject
  and a Terminate-Ack.
- How often a silent peer is asked depends on the phase: twice to close a link exactly if it was open or its phase still
  says that it terminates (`LcpConduct.TerminateTries`, `LcpConduct.ClosedWhileNegotiating`), and ten times to open one
  exactly if it does not (`LcpConduct.ConfigureTries`).
- A request that a timeout repeats carries the identifier of the first exactly when the number of Echo-Requests in between
  is a multiple of 256 (`LcpConduct.RepeatKeepsIdentifier`).
- An option of the wrong length is answered with a proposal of the same wrong length: a peer that follows a Configure-Nak is
  acknowledged exactly when it asked for no such option (`LcpOptions.NakedOptionsAreAgreeable`,
  `LcpOptions.WrongLengthIsNakedAgain`).
- An acknowledgement that ends a segment which crossed the end of the sequence space is discarded
  (`TcpStream.FullAckEndsTheWaitUnlessWrapped`, `TcpStream.LastByteWraps`), and the socket never sends another byte
  (`TcpStream.WrappedForever`).
- An empty buffer is acknowledged only by chance, by a segment that the peer has another reason to send or that is still on
  its way.  `TcpProgress.Blocked` says when there is none; `TcpProgress.DeliverableExactly` shows that exactly then nothing
  more is delivered while the peer's client is silent, and `TcpProgress.EmptyFirstIsBlocked` that it happens.
- A timeout backed off often enough loses all its bits to the 32-bit shift (`RoundTrip.BackOffIsDoubling`,
  `RoundTrip.BackOffCanVanish`).
- Repetitions are counted in sixteen bits, so Karn's rule is kept exactly when their number is no multiple of 65536
  (`TcpTiming.KarnsRuleExactly`); and a repetition of an earlier acknowledgement is measured as if it were for the segment
  (`TcpTiming.RepetitionIsMeasured`).
- The receiver takes a checksum of zero for none: damage to one word is refused exactly unless the checksum came out as zero
  or one form of zero became the other (`InternetChecksum.DamageInTransit`, `InternetChecksum.ZeroChecksumIsNone`).
- The ARP cache's stamp wraps: a history of 2^32 + 1 operations throws out the address touched last but one
  (`Arp.LeastRecentlyUsedExactly`, `Arp.WrapThrowsOutNewest`).  A lookup of address zero succeeds while a slot is unused
  (`Arp.ZeroIsFoundUnlessFull`).
- The range test on a requested MRU joins its bounds with "or" and is always true: the MRU is in range exactly when the last
  one asked for is (`LcpOptions.MruInRangeExactly`, `LcpOptions.TinyMruIsAcknowledged`).
- The size of an allocation plus its header wraps: the block has room for what was asked exactly when that sum fits an
  address (`HeapRuns.AllocFitsExactly`, `HeapRuns.HugeRequestIsGranted`).  In a debug build such a request is trapped
  first.
- Routes are ordered by the numeric value of their netmasks: the route found lies within another that matches exactly when
  it is a host or its netmask has all the bits of the other's, as prefixes always do (`Routing.FoundIsWithinExactly`,
  `Routing.OddMasksDoNotNest`).
- The AVR checksum adds 256 words too many exactly when the number of words is a multiple of 256 other than zero
  (`InternetChecksum.AvrAgreesExactly`, `InternetChecksum.AvrSumsTooFar`).

## Model

| member | source | states |
|---|---|---|
| `Contexts.Insert` | src/lib/context/context.c:61-79 | inserting keeps every queued context and adds the new one |
| `Contexts.Low8IsRemainder` | src/lib/context/context.c:302-302 | what a wrapping byte counter shows is the true count modulo 256 |
| `Contexts.CounterSteps` | src/lib/context/context.c:302-302 | one wrapping increment or decrement of such a counter follows the true count by one |
| `PriorityCeiling.HeadFindsLockFree` | doc/architecture/context.txt:23-63 | a context at the head of the run queue that may take a lock finds it free |
| `PriorityCeiling.HolderIsBehindHead` | doc/architecture/context.txt:23-63 | whoever is at the head was created more urgent than the ceiling of any lock held further back |
| `PriorityCeiling.TakeKeepsInv` | src/lib/context/spinlock.c:69-113 | taking a lock keeps the scheduler invariant |
| `PriorityCeiling.UnlockKeepsInv` | src/lib/context/spinlock.c:185-254 | releasing a lock, with or without a switch, keeps the invariant |
| `PriorityCeiling.ReleaseKeepsOrder` | src/lib/context/spinlock.c:232-251 | the re-insertion behind strictly more urgent contexts keeps the run queue safe even if other locks are still held |
| `PriorityCeiling.DispatchEstablishesInv` | src/lib/context/isr_context_switch.c:44-62 | switching to the head of a safe queue restores the full invariant; a woken waiter finds its lock free |
| `PriorityCeiling.WaitKeepsInv` | src/lib/context/context.c:140-209 | going to sleep hands the lock over and keeps the invariant |
| `PriorityCeiling.WakeKeepsCore` | src/lib/context/context.c:298-305 | waking a sleeper keeps the invariant of the queue and of every context and lock |
| `PriorityCeiling.WakeKeepsHead` | src/lib/context/context.c:298-305 | waking leaves the head in place exactly when the sleeper is not more urgent |
| `PriorityCeiling.BroadcastIsRepeatedSignal` | src/lib/context/context.c:355-377 | a broadcast is a signal repeated until the queue is empty |
| `PriorityCeiling.YieldKeepsInv` | src/lib/context/context.c:108-117 | yielding without locks keeps the invariant |
| `PriorityCeiling.CreateKeepsInv` | src/lib/context/context.c:449-488 | creating a context, and switching to it if it is more urgent, keeps the invariant |
| `PriorityCeiling.ExitKeepsInv` | src/lib/context/context.c:89-102 | leaving for good keeps the invariant |
| `PriorityCeiling.StepKeepsInv` | doc/architecture/context.txt:23-63 | every operation of a disciplined caller keeps the invariant |
| `PriorityCeiling.NeverStuck` | src/lib/context/context.c:89-102 | a disciplined caller can always take its step: somebody else is ready whenever it leaves the run queue |
| `CeilingTheorems.RunKeepsInv` | doc/architecture/context.txt:23-63 | the invariant holds at every point of every disciplined run |
| `CeilingTheorems.DisciplinedRunsNeverMeetALock` | doc/architecture/context.txt:23-63 | in every disciplined run no trap is reached and every lock asked for is free |
| `CeilingTheorems.OneHolder` | src/lib/context/spinlock.c:96-110 | no two contexts hold the same lock |
| `CeilingTheorems.MostUrgentRuns` | src/lib/context/context.c:61-79 | the running context is at least as urgent as every runnable one |
| `CeilingTheorems.AtMostOneInversion` | doc/architecture/context.txt:23-63 | at any moment at most one of the contexts ahead of a runnable context was created less urgent than it |
| `CeilingTheorems.InsertPlace` | src/lib/context/context.c:61-79 | insertion places a context behind exactly those its scan passes |
| `CeilingTheorems.UnlockQueue` | src/lib/context/spinlock.c:232-251 | whether or not it switches, a release leaves the queue with the former holder re-inserted |
| `CeilingTheorems.PreemptedStaysAhead` | src/lib/context/spinlock.c:241-244 | a context that releases a lock stays ahead of its equals |
| `CeilingTheorems.YieldingGoesBehind` | src/lib/context/context.c:108-117 | a context that yields goes behind its equals |
| `CeilingTheorems.SignalKeepsSignallerAtHead` | src/lib/context/context.c:298-305 | the signaller keeps running exactly when it is at least as urgent as the sleeper |
| `CeilingTheorems.YieldWhileHolding` | src/lib/context/context.c:108-117 | yielding with locks held keeps the queue safe exactly when no ready context equals the boosted priority |
| `CeilingTheorems.YieldWhileHoldingTraps` | src/lib/context/spinlock.c:97-107 | otherwise the equal's own disciplined request meets the held lock and traps |
| `CeilingTheorems.RoundRobin` | src/lib/context/context.c:108-117 | n yields give each of n equals one turn, in order, and restore the queue |
| `CeilingTheorems.StepLeaves` | src/lib/context/context.c:196-209 | a step disturbs only who ran and who runs next, who sees the reason it was woken with |
| `CeilingTheorems.StepKeepsMostUrgentFirst` | src/lib/context/context.c:267-292 | every step that joins a queue only through the priority-ordered wait keeps it ordered by urgency |
| `CeilingTheorems.RunKeepsMostUrgentFirst` | src/lib/context/context.c:267-292 | so does every run from start-up |
| `CeilingTheorems.SignalWakesMostUrgent` | src/lib/context/context.c:327-347 | in every run, signalling such a queue wakes a waiter at least as urgent as all the others |
| `PriorityInversion.AheadMeansHoldsUp` | doc/architecture/context.txt:23-63 | a context created less urgent stands ahead of another if and only if it holds a lock that raises it to the other's level |
| `PriorityInversion.NoNewDelay` | src/lib/context/spinlock.c:69-254 | whoever holds a runnable context up after a step did so before it, in the same outermost critical section |
| `PriorityInversion.HeldUpByOneSection` | doc/architecture/context.txt:23-63 | over any stretch of a disciplined run in which a context stays runnable, it is held up by one context only, which is inside one outermost critical section from the start of the stretch to the last moment it holds the other up |
| `PriorityInversion.OnlySectionsDelay` | doc/architecture/context.txt:23-63 | whoever runs while a context is runnable was created at least as urgent, or holds it up |
| `SchedulerEffects.SignalWakes` | src/lib/context/context.c:298-305 | a context that sleeps is ready, stands in the run queue behind its equals and is counted, and nothing else changes; for any other context nothing changes at all |
| `SchedulerEffects.InterruptWakes` | src/lib/context/context.c:383-390 | the same, with the interrupted state |
| `SchedulerEffects.SignalFirstWakes` | src/lib/context/context.c:327-347 | the same for the first waiter of a queue, which it leaves |
| `SchedulerEffects.InterruptOnWakes` | src/lib/context/context.c:414-439 | the same for a given waiter, wherever it stands, with the interrupted state; if it is not queued nothing changes |
| `SchedulerEffects.BroadcastWakes` | src/lib/context/context.c:355-377 | every waiter is ready and in the run queue, the queue is empty, and nobody else is touched |
| `SchedulerEffects.SleeperStep` | src/lib/context/context.c:298-439 | of all operations, only a wake that names or reaches a sleeper changes its record, and then only its state, to that wake's own reason |
| `SchedulerEffects.RunsAgainAsWoken` | src/lib/context/context.c:196-209 | over every run, a context that fell asleep runs again only after one such operation, is told its reason, and holds exactly the lock it fell asleep with |
| `SchedulerHandOver.DispatchTakesOver` | src/lib/context/isr_context_switch.c:44-62 | the head of the queue runs, is told the state it was in and re-takes the lock it waits with, at its ceiling; nothing else changes |
| `SchedulerHandOver.TakeHolds` | src/lib/context/spinlock.c:31-113 | a lock asked for is held on top of the others, at its ceiling, or at priority zero by an interrupt handler |
| `SchedulerHandOver.ReleaseRestores` | src/lib/context/spinlock.c:185-254 | a release frees the lock, restores the priority and puts the caller behind exactly those strictly more urgent, the first of whom takes over |
| `SchedulerHandOver.TakeThenRelease` | src/lib/context/spinlock.c:69-254 | a lock taken and released at once leaves everything as it was |
| `SchedulerHandOver.WaitHandsOver` | src/lib/context/context.c:140-292 | a waiter hands its lock over, sleeps at the priority it was created with, stands in the sleep queue where it should, and the next one takes over |
| `SchedulerHandOver.YieldHandsOver` | src/lib/context/context.c:108-117 | a yielding context stands behind its equals, and whoever is the head then runs |
| `SchedulerHandOver.CreateHandsOver` | src/lib/context/context.c:449-488 | a new context stands behind its equals and runs at once if and only if it is strictly more urgent |
| `SchedulerHandOver.ExitHandsOver` | src/lib/context/context.c:89-102 | a context that exits is gone from the run queue, and the next one takes over |
| `SchedulerHandOver.TakeTrapsExactly` | src/lib/context/spinlock.c:31-113 | the debug traps in taking a lock catch exactly the requests that break the discipline |
| `SchedulerHandOver.BadReleaseTraps` | src/lib/context/spinlock.c:194-225 | releasing a free lock, or to a more urgent priority, is trapped |
| `SchedulerHandOver.BadWaitTraps` | src/lib/context/context.c:140-195 | going to sleep with a free lock, or with other locks held, is trapped |
| `KernelModule.Kernel.constructor` | src/lib/context/context.c:449-488 | start-up state: one running context, free locks, empty queues |
| `KernelModule.ScanPast` | src/lib/context/context.c:61-79 | the scan of every insertion stops where the insertion function puts the newcomer |
| `KernelModule.FindWaiter` | src/lib/context/context.c:414-439 | the search finds the first place of a waiter, or the end exactly when it is not queued |
| `KernelModule.Kernel.ContextReady` | src/lib/context/context.c:61-79 | in place, the scan inserts exactly where the insertion function does |
| `KernelModule.Kernel.Boost` | src/lib/context/spinlock.c:92-110 | saves and raises the priority, counts and marks the lock, traps if it was held |
| `KernelModule.Kernel.Unboost` | src/lib/context/spinlock.c:194-225 | restores the priority, counts and frees the lock, traps if it was free |
| `KernelModule.Kernel.ContextSwitch` | src/lib/context/isr_context_switch.c:44-62 | in place, switches as the dispatch function does |
| `KernelModule.Kernel.SpinlockLock` | src/lib/context/spinlock.c:69-113 | in place, takes a lock as the lock operation does |
| `KernelModule.Kernel.IsrSpinlockLock` | src/lib/context/spinlock.c:31-63 | in place, takes a lock with ceiling zero for an interrupt handler |
| `KernelModule.Kernel.Reinsert` | src/lib/context/spinlock.c:236-247 | the scan puts the caller back in front of its equals |
| `KernelModule.Kernel.SpinlockUnlock` | src/lib/context/spinlock.c:185-254 | in place, releases and gives way as the unlock operation does |
| `KernelModule.Kernel.ContextWait` | src/lib/context/context.c:140-209 | in place, hands over the lock and sleeps as the wait operation does |
| `KernelModule.Kernel.ContextWaitQueue` | src/lib/context/context.c:246-261 | joins the front of a sleep queue and sleeps |
| `KernelModule.Kernel.ContextWaitPriQueue` | src/lib/context/context.c:267-292 | joins behind the waiters that are at least as urgent and sleeps |
| `KernelModule.Kernel.ContextSignal` | src/lib/context/context.c:298-305 | wakes a sleeping context and nobody else |
| `KernelModule.Kernel.ContextInterrupt` | src/lib/context/context.c:383-390 | wakes a sleeping context as interrupted |
| `KernelModule.Kernel.ContextSignalQueue` | src/lib/context/context.c:327-347 | wakes the first waiter and returns how many were woken |
| `KernelModule.Kernel.ContextBroadcastQueue` | src/lib/context/context.c:355-377 | wakes every waiter in order and returns the count as a byte |
| `KernelModule.Kernel.ContextInterruptQueue` | src/lib/context/context.c:414-439 | unlinks and wakes a given waiter if it is queued |
| `KernelModule.Kernel.ContextYield` | src/lib/context/context.c:108-117 | in place, moves the caller behind its equals and switches |
| `KernelModule.Kernel.ContextInit` | src/lib/context/context.c:449-488 | in place, creates a context and switches if it is more urgent |
| `KernelModule.Kernel.ContextExit` | src/lib/context/context.c:89-102 | in place, takes the caller off the run queue for good |
| `KernelRuns.Start` | src/lib/context/context.c:449-488 | a kernel object at start-up satisfies the scheduler invariant |
| `KernelRuns.Perform` | src/lib/context/context.c:89-488 | in place, every operation of a disciplined caller is a step of a run, keeps the invariant and does not trap |
| `RwLocks.StepKeepsInv` | src/lib/rwlock/rwlock.c:36-181 | every operation keeps the counters, the queues and exclusion consistent |
| `RwLocks.AskerIsServed` | src/lib/rwlock/rwlock.c:36-92 | who asks has access at once or stands in its queue, and nobody else is touched |
| `RwLocks.ReaderLeaves` | src/lib/rwlock/rwlock.c:97-121 | the last reader hands over to the first waiting writer alone, or frees the lock; any other reader just leaves |
| `RwLocks.WriterLeaves` | src/lib/rwlock/rwlock.c:126-151 | a writer hands over to the first waiting writer alone, and only without one to all waiting readers |
| `RwLocks.WaiterLeaves` | src/lib/rwlock/rwlock.c:157-170 | an interrupted waiter leaves its queue without access, and nobody else is touched |
| `RwLocks.ExclusionExactly` | src/lib/rwlock/rwlock.c:36-92 | exclusion holds over every run of a set of contexts if and only if there are at most 255 |
| `RwLocks.ExclusionUntilTrapExactly` | src/lib/rwlock/rwlock.c:36-151 | exclusion holds over every run that reaches no debug trap if and only if there are at most 256 contexts |
| `RwLocks.TooManyReaders` | src/lib/rwlock/rwlock.c:97-118 | 256 readers show zero: past the debug trap, one leaves uncounted and is given write access beside the others |
| `RwLocks.UnlockWriteKillsExactly` | src/lib/rwlock/rwlock.c:126-151 | giving up write access leaves the lock dead if and only if nobody is waiting |
| `RwLocks.DeadForever` | src/lib/rwlock/rwlock.c:36-92 | on a dead lock nobody is ever given access again |
| `RwLocks.OneWriteKills` | src/lib/rwlock/rwlock.c:71-151 | one uncontended write access is enough to reach a dead lock |
| `RwLocks.RwLock.constructor` | src/lib/rwlock/rwlock.c:175-181 | a new lock, in cleared memory |
| `RwLocks.RwLock.AcquireRead` | src/lib/rwlock/rwlock.c:36-61 | in place; says whether access was given or the caller sleeps |
| `RwLocks.RwLock.AcquireWrite` | src/lib/rwlock/rwlock.c:71-92 | in place; says whether access was given or the caller sleeps |
| `RwLocks.RwLock.ReleaseRead` | src/lib/rwlock/rwlock.c:97-121 | the last reader hands over to the first waiting writer |
| `RwLocks.RwLock.ReleaseWrite` | src/lib/rwlock/rwlock.c:126-151 | hands over to the first waiting writer, or to all waiting readers |
| `RwLocks.RwLock.BroadcastReaders` | src/lib/context/context.c:355-377 | gives access to every waiting reader and counts them in a byte |
| `RwLocks.RwLock.InterruptWaiter` | src/lib/rwlock/rwlock.c:157-170 | takes a context off whichever queue it waits on, without access |
| `HeapModel.CanonicalIsUnique` | src/lib/heap/heap.c:199-204 | an ordered hole list without touching holes is determined by the addresses it covers |
| `HeapModel.ReleaseIsCanonical` | src/lib/heap/heap.c:205-235 | releasing adds exactly the released addresses and keeps the list ordered and merged |
| `HeapModel.BestFit` | src/lib/heap/heap.c:94-110 | the hole chosen is the first of the smallest that suffice |
| `HeapModel.BestFitIsUnique` | src/lib/heap/heap.c:94-110 | that choice is determined |
| `HeapModel.CarveIsExact` | src/lib/heap/heap.c:118-144 | carving removes exactly the block's addresses, keeps the list canonical and wastes at most the slack |
| `HeapModel.FreeUndoesAlloc` | src/lib/heap/heap.c:205-235 | freeing a block just allocated restores the hole list exactly |
| `HeapModel.FreeOrderIsIrrelevant` | src/lib/heap/heap.c:205-235 | freeing the same blocks in any order gives the same hole list |
| `HeapRuns.AllocKeepsInv` | src/lib/heap/heap.c:50-157 | allocation keeps holes, blocks and the free counter consistent |
| `HeapRuns.FreeKeepsInv` | src/lib/heap/heap.c:163-238 | so does freeing |
| `HeapRuns.AddKeepsInv` | src/lib/heap/heap.c:287-301 | so does adding memory |
| `HeapRuns.NewBlockInv` | src/lib/heap/heap.c:279-301 | forging a block in new memory is as good as having allocated it |
| `HeapRuns.RunKeepsHeapInv` | src/lib/heap/heap.c:50-301 | the invariant holds after every run of allocations, frees and additions |
| `HeapRuns.HolesAreDetermined` | src/lib/heap/heap.c:199-204 | the hole list depends only on what was added and what is allocated |
| `HeapRuns.FreeUndoesAllocation` | src/lib/heap/heap.c:50-238 | an allocation freed at once leaves the heap as it was |
| `HeapRuns.AllocSucceeds` | src/lib/heap/heap.c:82-144 | allocation succeeds if and only if some hole is as large as required; the new block starts at the best fit and exceeds what is required by at most the slack |
| `HeapRuns.BlockSizeExactly` | src/lib/heap/heap.c:82-144 | the size of a new block, and when what is left of its hole becomes a hole of its own |
| `HeapRuns.AllocFitsExactly` | src/lib/heap/heap.c:82-85 | a block has room for the bytes asked for if and only if their number and the header fit an address |
| `HeapRuns.HugeRequestIsGranted` | src/lib/heap/heap.c:82-85 | past the debug trap, a heap of 100 bytes grants a request for 0xffffffff |
| `HeapRuns.Heap.constructor` | src/lib/heap/heap.c:36-44 | the heap starts without memory |
| `HeapRuns.Heap.FindHole` | src/lib/heap/heap.c:94-110 | the scan with its early exit finds the best fit |
| `HeapRuns.Heap.Alloc` | src/lib/heap/heap.c:50-157 | in place, allocates as the function does |
| `HeapRuns.Heap.Coalesce` | src/lib/heap/heap.c:205-235 | the walk with its merges is the release function |
| `HeapRuns.Heap.Free` | src/lib/heap/heap.c:163-238 | in place, frees the block that was returned |
| `HeapRuns.Heap.Add` | src/lib/heap/heap.c:287-301 | in place, adds a region |
| `HeapRuns.Heap.GetFree` | src/lib/heap/heap.c:244-253 | the counter is exactly the memory in the holes |
| `Fcs.EntryIsEightShifts` | src/lib/ppp_ahdlc/ppp_ahdlc.c:412-424 | each table entry is eight bit-serial steps of its index |
| `Fcs.TableIsBitwise` | src/lib/ppp_ahdlc/ppp_ahdlc.c:58-61 | the table-driven check sequence is the bit-serial one |
| `Fcs.ResidueIsGood` | src/lib/ppp_ahdlc/ppp_ahdlc.c:227-245 | any data followed by its complemented check sequence leaves the good residue |
| `Fcs.OneBadByteIsSeen` | src/lib/ppp_ahdlc/ppp_ahdlc.c:58-61 | changing any one byte of a good frame destroys the good residue |
| `Ahdlc.BuildTable` | src/lib/ppp_ahdlc/ppp_ahdlc.c:412-424 | the loop fills the table with the closed form |
| `Ahdlc.UpdateByTable` | src/lib/ppp_ahdlc/ppp_ahdlc.c:58-61 | the look-up computes the update |
| `Ahdlc.ReceiveConcat` | src/lib/ppp_ahdlc/ppp_ahdlc.c:66-142 | receiving a stream in two pieces is receiving it whole |
| `Ahdlc.ReceiveStuffed` | src/lib/ppp_ahdlc/ppp_ahdlc.c:147-172 | escaped bytes arrive as the bytes they stand for |
| `Ahdlc.ReceiveEncoded` | src/lib/ppp_ahdlc/ppp_ahdlc.c:66-142 | an encoded packet is delivered intact if and only if its payload is at most MRU - 5 bytes |
| `Ahdlc.StreamRoundTrip` | src/lib/ppp_ahdlc/ppp_ahdlc.c:66-245 | the concatenated encodings of any packets, under any control character maps, deliver exactly the payloads that fit, in order |
| `Ahdlc.AcceptedExactly` | src/lib/ppp_ahdlc/ppp_ahdlc.c:66-142 | which bodies between two flags, of every length, are delivered, both directions; a one-byte body is judged on a byte left over in the buffer |
| `Ahdlc.DeliveredSizeFitsExactly` | src/lib/ppp_ahdlc/ppp_ahdlc.c:94-96 | the size handed upwards lies within the buffer if and only if the body has at least four bytes |
| `Ahdlc.LoneByteIsDelivered` | src/lib/ppp_ahdlc/ppp_ahdlc.c:77-96 | a lone address byte between flags is delivered with the size 0xfffffffd |
| `Ahdlc.DamagedFrameIsDelivered` | src/lib/ppp_ahdlc/ppp_ahdlc.c:66-142 | a frame damaged in one byte fails the check sequence and is delivered all the same |
| `AhdlcLine.EscapedExactly` | src/lib/ppp_ahdlc/ppp_ahdlc.c:151-153 | a byte is escaped if and only if it is a flag, an escape, or below 0x20 with its bit set in the map |
| `AhdlcLine.StuffIsClean` | src/lib/ppp_ahdlc/ppp_ahdlc.c:147-172 | no flag and no byte of the map appears among escaped bytes, whose number grows by exactly the bytes that must be escaped |
| `AhdlcLine.UnstuffUndoesStuff` | src/lib/ppp_ahdlc/ppp_ahdlc.c:147-172 | under any map, undoing the escapes gives back the bytes |
| `AhdlcLine.FrameOnLine` | src/lib/ppp_ahdlc/ppp_ahdlc.c:221-245 | between its two flags a frame is clean in this sense, as long as its escapes make it, and holds header, payload and the complement of the bit-serial check sequence |
| `AhdlcLine.NoiseBeforeFrames` | src/lib/ppp_ahdlc/ppp_ahdlc.c:66-142 | whatever arrives before the first flag, the frames behind it are delivered |
| `AhdlcLine.DoubleEscapeAborts` | src/lib/ppp_ahdlc/ppp_ahdlc.c:119-123 | two escapes in a row discard a frame |
| `Ahdlc.Sender.SendU8` | src/lib/ppp_ahdlc/ppp_ahdlc.c:147-159 | one byte, escaped where the map asks for it |
| `Ahdlc.Sender.SendSequence` | src/lib/ppp_ahdlc/ppp_ahdlc.c:164-172 | a run of bytes, with the check sequence brought forward |
| `Ahdlc.Sender.SendFrame` | src/lib/ppp_ahdlc/ppp_ahdlc.c:227-245 | the bytes put on the line are the encoding of the packet |
| `Ahdlc.Deframer.constructor` | src/lib/ppp_ahdlc/ppp_ahdlc.c:426-436 | a new receiver ignores everything up to the first flag |
| `Ahdlc.Deframer.RecvU8` | src/lib/ppp_ahdlc/ppp_ahdlc.c:66-142 | in place, handles one byte as the function does |
| `Lcp.TableLayers` | src/lib/ppp/ppp.c:147-388 | the table raises the layer exactly on entering the opened state and lowers it exactly on leaving |
| `Lcp.TableTimer` | src/lib/ppp/ppp.c:147-388 | every entry into a waiting state keeps or starts the timer |
| `Lcp.TableAgreed` | src/lib/ppp/ppp.c:147-388 | the states that claim an agreement are entered only by the packets that make it |
| `Lcp.StepKeepsSound` | src/lib/ppp/ppp.c:422-720 | every input keeps timer, phase, counter, identifier and agreement consistent with the state |
| `Lcp.TimerAndPhaseFollowState` | src/lib/ppp/ppp.c:707-713 | over all inputs the timer is attached exactly in the five waiting states, and the network phase is exactly the opened state |
| `Lcp.OpenedMeansAgreed` | src/lib/ppp/ppp.c:977-985 | over all inputs, with the peer's acknowledgement in hand or the link opened, a Configure-Ack was taken since our latest request, with its identifier plus the Echo-Requests in between, modulo 256; it is the request's own if and only if their number is a multiple of 256; and the link is opened only if our latest answer was an acknowledgement |
| `Lcp.OpensWithoutAnswer` | src/lib/ppp/ppp.c:977-985 | five inputs that open the link on a Configure-Ack for a request that was never sent |
| `Lcp.UpAndDownAlternate` | src/lib/ppp/ppp.c:520-553 | the layer-up and layer-down actions alternate, and the layer is up exactly while opened |
| `Lcp.OnlyUpsAreTold` | src/lib/ppp/ppp.c:520-553 | over all inputs the network layers are told up once for each time the link opens and never down; they hear the two alternately if and only if it opens at most once |
| `Lcp.ToldUpTwice` | src/lib/ppp/ppp.c:520-553 | a peer that negotiates again makes them hear up twice running |
| `Lcp.RenegotiationAsks` | src/lib/ppp/ppp.c:573-588 | leaving the opened state to negotiate again always sends one request and starts the timer |
| `Lcp.SilentPeerGivesUp` | src/lib/ppp/ppp.c:422-434 | with the counter at n exactly n more requests are sent, and timeout n + 1, at most the eleventh, ends the wait |
| `Lcp.ConfigureAckIsRecognised` | src/lib/ppp/ppp.c:977-988 | a Configure-Ack takes effect if and only if it carries the identifier of the last request plus the number of Echo-Requests since, modulo 256 |
| `Lcp.TerminateAckIsRecognised` | src/lib/ppp/ppp.c:600-619 | a Terminate-Ack takes effect if and only if it carries one more than that; the answer to our own request does if and only if 255 Echo-Requests, modulo 256, arrived since |
| `Lcp.TerminateAckIsIgnored` | src/lib/ppp/ppp.c:600-619 | opened and closed at once, an instance ignores the answer to its Terminate-Request |
| `LcpConduct.TableIsRfc1661` | src/lib/ppp/ppp.c:147-388 | every cell of the table has the actions and the next state of section 4.1 of RFC 1661, and nothing happens where the RFC has a dash |
| `LcpConduct.DoIsInOrder` | src/lib/ppp/ppp.c:622-690 | a compound action does what it consists of, in order |
| `LcpConduct.ConfReqConduct` | src/lib/ppp/ppp.c:964-975 | a Configure-Request is answered once, with a Configure-Ack if and only if it is acceptable; what is sent before and the state afterwards, from every state |
| `LcpConduct.ConfAckConduct` | src/lib/ppp/ppp.c:977-986 | what a Configure-Ack leads to in every state of a negotiation, and that a wrong identifier leads to nothing |
| `LcpConduct.ConfNakConduct` | src/lib/ppp/ppp.c:988-1002 | a Configure-Nak or -Reject with the right identifier makes us ask again once; any other is ignored |
| `LcpConduct.TermReqConduct` | src/lib/ppp/ppp.c:1004-1015 | a Terminate-Request is answered with one Terminate-Ack that carries its identifier, except before the link is up; an opened link goes down and waits, any other negotiation starts again |
| `LcpConduct.TermAckConduct` | src/lib/ppp/ppp.c:1017-1025 | what a Terminate-Ack leads to in every state |
| `LcpConduct.RejectConduct` | src/lib/ppp/ppp.c:1027-1059 | a rejection of what LCP needs takes an opened link down and ends any other negotiation; others do no harm |
| `LcpConduct.EchoConduct` | src/lib/ppp/ppp.c:1061-1076 | an Echo-Request is answered once, by an opened link only, and advances our identifier |
| `LcpConduct.EchoReplyMatchesExactly` | src/lib/ppp/ppp.c:1061-1076 | the reply carries the identifier asked with if and only if it is equal to ours |
| `LcpConduct.UnknownCodeConduct` | src/lib/ppp/ppp.c:1087-1088 | an unknown code is never answered |
| `LcpConduct.OpenConduct` | src/lib/ppp/ppp.c:697-720 | opening sends one request if the lower layer is up, and none otherwise |
| `LcpConduct.UpConduct` | src/lib/ppp/ppp.c:697-720 | so does the lower layer coming up if the link is to be open |
| `LcpConduct.CloseConduct` | src/lib/ppp/ppp.c:697-720 | closing sends one Terminate-Request from every state of a negotiation and none from any other |
| `LcpConduct.DownConduct` | src/lib/ppp/ppp.c:697-720 | the lower layer going down leads to the initial state if the link was closed or closing, and otherwise to the starting one |
| `LcpConduct.TimerConduct` | src/lib/ppp/ppp.c:422-434 | a timeout repeats the request that waits, or ends the wait |
| `LcpConduct.RepeatKeepsIdentifier` | src/lib/ppp/ppp.c:430-430 | over every run, what it repeats carries the identifier of the first plus the Echo-Requests in between |
| `LcpConduct.TerminateTries` | src/lib/ppp/ppp.c:563-565 | how often a silent peer is asked to close: twice if and only if the link was open or its phase says so, else ten times |
| `LcpConduct.ConfigureTries` | src/lib/ppp/ppp.c:563-565 | how often to open: ten times if and only if the phase does not say that the link terminates |
| `LcpConduct.ClosedWhileNegotiating` | src/lib/ppp/ppp.c:563-565 | closed while it negotiates, an instance asks ten times |
| `Lcp.PppInstance.constructor` | src/lib/ppp/ppp.c:1305-1340 | a new instance has been brought up and opened |
| `Lcp.PppInstance.HandleAction` | src/lib/ppp/ppp.c:514-691 | compound actions do their parts in order |
| `Lcp.PppInstance.HandleEvent` | src/lib/ppp/ppp.c:697-720 | in place, takes the transition of the table |
| `Lcp.PppInstance.TickTimeout` | src/lib/ppp/ppp.c:422-434 | in place, a timeout |
| `Lcp.PppInstance.RecvPacket` | src/lib/ppp/ppp.c:938-1081 | in place, a received packet, with the identifier checks |
| `Lcp.PppInstance.Accept` | src/lib/ppp/ppp.c:422-1081 | in place, any input keeps timer, phase, counter, identifier and agreement consistent with the state |
| `LcpOptions.OnePassIsTwoPass` | src/lib/ppp/ppp.c:725-774 | the one-pass rewriting gives the worst answer, with exactly the options that deserve it, in order |
| `LcpOptions.ReplyIsWorstAnswer` | src/lib/ppp/ppp.c:780-850 | acknowledged if and only if every option is agreeable, rejected if and only if one must be |
| `LcpOptions.AckRepeatsRequest` | src/lib/ppp/ppp.c:764-774 | a Configure-Ack repeats the request byte for byte, but for a lone last byte |
| `LcpOptions.RejectListsUnknown` | src/lib/ppp/ppp.c:725-738 | a Configure-Reject lists exactly the unknown options, unchanged and in order |
| `LcpOptions.ReplyFits` | src/lib/ppp/ppp.c:847-849 | a reply is never longer than its request |
| `LcpOptions.NakedOptionsAreAgreeable` | src/lib/ppp/ppp.c:803-837 | a peer that asks again with what a Configure-Nak proposed is acknowledged if and only if every option it was Naked for had the length of its kind |
| `LcpOptions.WrongLengthIsNakedAgain` | src/lib/ppp/ppp.c:803-819 | an MRU in three bytes is answered with a Configure-Nak, and so is what that proposes |
| `LcpOptions.MruTestIsLength` | src/lib/ppp/ppp.c:808-815 | the range test lets every two-byte MRU through and nothing else |
| `LcpOptions.MruInRangeExactly` | src/lib/ppp/ppp.c:803-819 | after a request the MRU is between 64 and 1500 if and only if the last one asked for in two bytes is, or none is asked for and it was before |
| `LcpOptions.TinyMruIsAcknowledged` | src/lib/ppp/ppp.c:803-819 | a request for an MRU of one byte is acknowledged and takes effect |
| `LcpOptions.MruProposal` | src/lib/ppp/ppp.c:803-819 | an MRU of the wrong length is answered with the one in force |
| `LcpOptions.CodeIsUnderstood` | src/lib/ppp/ppp.c:725-774 | the code of a reply is that of RFC 1661 for its kind |
| `LcpAccm.AccmAgreeableExactly` | src/lib/ppp/ppp.c:826-832 | a map is acknowledged if and only if it has four bytes and every bit of 0xff0f0f0f is set in it |
| `LcpAccm.AccmProposal` | src/lib/ppp/ppp.c:821-837 | any other map of four bytes is answered with a proposal of ff 0f 0f 0f |
| `LcpAccm.AccmInForce` | src/lib/ppp/ppp.c:826-832 | after a request the map is the last one asked for with all those bits, or the old one |
| `LcpAccm.NegotiationKeepsNeeded` | src/lib/ppp/ppp.c:821-837 | whatever is asked for and however often, those bits stay set |
| `LcpAccm.Ask` | src/lib/ppp/ppp.c:780-850 | in place, one request keeps them set |
| `LcpOptions.Negotiator.constructor` | src/lib/ppp/ppp.c:491-506 | the default values |
| `LcpOptions.Negotiator.FrameRej` | src/lib/ppp/ppp.c:725-738 | restarts the reply unless it is a reject already, and appends |
| `LcpOptions.Negotiator.FrameNak` | src/lib/ppp/ppp.c:743-759 | restarts an acknowledgement, and appends unless the reply is a reject |
| `LcpOptions.Negotiator.FrameAck` | src/lib/ppp/ppp.c:764-774 | appends while the reply is an acknowledgement |
| `LcpOptions.Negotiator.StampLength` | src/lib/ppp/ppp.c:847-849 | the length goes into the header and the rest stays |
| `LcpOptions.Negotiator.CheckOption` | src/lib/ppp/ppp.c:802-841 | one option: its answer is added and an agreeable value takes effect |
| `LcpOptions.Negotiator.CheckRequest` | src/lib/ppp/ppp.c:780-850 | the buffer holds code, identifier, length and exactly the options of the worst answer |
| `RoundTrip.SampleIsExact` | src/lib/tcp/tcp.c:463-513 | after the first sample no 32-bit operation overflows |
| `RoundTrip.SampleIsJacobson` | src/lib/tcp/tcp.c:484-505 | the 32-bit update is Van Jacobson's over the integers: mean, deviation and timeout |
| `RoundTrip.RunBounds` | src/lib/tcp/tcp.c:463-513 | after any run of samples between two bounds, mean, deviation and timeout are bounded by them |
| `RoundTrip.ConstantSamples` | src/lib/tcp/tcp.c:463-513 | a constant round trip keeps the mean and shrinks the deviation |
| `RoundTrip.Converges` | src/lib/tcp/tcp.c:463-513 | repeating the first sample brings the timeout to within 3 ticks of it |
| `RoundTrip.BackOffIsDoubling` | src/lib/tcp/tcp.c:311-371 | k retransmissions double the timeout k times, up to the cap, if and only if the timeout is zero or is not a multiple of two to the 32 - k, with k below 32 |
| `RoundTrip.BackOffIsSafe` | src/lib/tcp/tcp.c:311-371 | seventeen retransmissions are safe with any timeout the estimator can produce |
| `RoundTrip.BackOffCanVanish` | src/lib/tcp/tcp.c:311-371 | the initial timeout backed off thirty times wraps to zero |
| `Tcp.TcpSocket.constructor` | src/lib/tcp/tcp.c:60-100 | a socket whose connection has just been established |
| `Tcp.TcpSocket.StartTiming` | src/lib/tcp/tcp.c:1911-1914 | a segment is timed from now, with the estimator's timeout and no retransmissions so far |
| `Tcp.TcpSocket.SendNetbufNow` | src/lib/tcp/tcp.c:1894-1923 | in place, drops a deferred acknowledgement, starts timing a segment and sends it |
| `Tcp.TcpSocket.SendNetbuf` | src/lib/tcp/tcp.c:1928-1989 | in place, sends at once or queues behind the segment being timed |
| `Tcp.TcpSocket.BuildAndSendAck` | src/lib/tcp/tcp.c:1559-1605 | defers the first acknowledgement and sends the second |
| `Tcp.TcpSocket.TickDeferredAck` | src/lib/tcp/tcp.c:269-305 | sends an acknowledgement that was deferred |
| `Tcp.TcpSocket.TickRetransmit` | src/lib/tcp/tcp.c:311-371 | sets the backed-off timeout and, unless the buffer is still being sent, sends the segment being timed again and counts it |
| `Tcp.TcpSocket.CalcRoundTrip` | src/lib/tcp/tcp.c:463-513 | learns from the first acknowledgement only |
| `Tcp.TcpSocket.ProcessAck` | src/lib/tcp/tcp.c:790-894 | moves the window and starts the next waiting buffer |
| `Tcp.TcpSocket.RecvSegment` | src/lib/tcp/tcp.c:790-894 | in place, one received segment |
| `TcpStream.SendFlow` | src/lib/tcp/tcp.c:1928-1989 | handing over a buffer extends the stream and keeps the stop-and-wait invariant |
| `TcpStream.TakeAckFlow` | src/lib/tcp/tcp.c:790-894 | an acknowledgement moves the window by the whole segment or not at all |
| `TcpStream.TakeDataFlow` | src/lib/tcp/tcp.c:790-894 | data that arrives in order is the current segment, and the receiver draws level |
| `TcpStream.StepKeepsLinked` | src/lib/tcp/tcp.c:269-371 | every step of either endpoint keeps the invariants of both directions |
| `TcpStream.DeliveredIsPrefix` | src/lib/tcp/tcp.c:790-894 | over any run each client receives a prefix of what the other sent |
| `TcpStream.WindowIsOneSegment` | src/lib/tcp/tcp.c:1928-1989 | at most one segment is unacknowledged, buffers wait only behind one, and the peer is at one end of the window or the other |
| `TcpStream.NothingIsLost` | src/lib/tcp/tcp.c:1928-1989 | acknowledged, in-flight and waiting bytes together are the stream |
| `TcpStream.AcksAreForSentBytes` | src/lib/tcp/tcp.c:790-894 | no acknowledgement on the wire is for bytes never sent |
| `TcpStream.FullAckEndsTheWaitUnlessWrapped` | src/lib/tcp/tcp.c:790-894 | a complete acknowledgement ends the wait if and only if the segment did not cross the end of the sequence space |
| `TcpStream.WrappedForever` | src/lib/tcp/tcp.c:269-894 | from then on no event of any kind ends the wait, and all that the client hands over waits behind it |
| `TcpStream.LastByteWraps` | src/lib/tcp/tcp.c:1894-1923 | one byte sent with the last sequence number leads there |
| `TcpStream.Perform` | src/lib/tcp/tcp.c:269-894 | in place, one event at one of two connected sockets keeps the invariants of both directions, and what its client has received is a prefix of what was sent |
| `TcpTiming.SendStartsTiming` | src/lib/tcp/tcp.c:1894-1923 | a buffer that goes out at once is timed from now, unrepeated, with the estimator's timeout |
| `TcpTiming.AnswerStartsTiming` | src/lib/tcp/tcp.c:845-872 | so is a waiting buffer that a complete acknowledgement lets out |
| `TcpTiming.WaitingRun` | src/lib/tcp/tcp.c:311-371 | over any run until its acknowledgement, the repetitions of a segment are counted in sixteen bits and its timeout is shifted once for each before the timer last ran out |
| `TcpTiming.TimeoutDoubles` | src/lib/tcp/tcp.c:336-343 | up to seventeen repetitions this is doubling, up to the cap |
| `TcpTiming.KarnsRule` | src/lib/tcp/tcp.c:473-479 | after one to seventeen repetitions the first acknowledgement leaves mean and deviation alone and keeps the backed-off timeout |
| `TcpTiming.OneSample` | src/lib/tcp/tcp.c:480-505 | after none it is one sample of the time since the segment was sent, at least one tick |
| `TcpTiming.OnlyFirstAnswerTeaches` | src/lib/tcp/tcp.c:467-469 | nothing else ever changes the estimator |
| `TcpTiming.KarnsRuleExactly` | src/lib/tcp/tcp.c:473-479 | Karn's rule is kept if and only if the number of repetitions is no multiple of 65536 |
| `TcpTiming.RepetitionIsMeasured` | src/lib/tcp/tcp.c:844-847 | a repetition of an earlier acknowledgement is measured instead of the segment's own |
| `TcpTiming.AcknowledgedOrDue` | src/lib/tcp/tcp.c:1559-1605 | over any run the peer has been told of everything received, or an acknowledgement waits for its timer |
| `TcpTiming.DueIsSent` | src/lib/tcp/tcp.c:269-305 | which then sends it |
| `TcpTiming.EverySecondIsAcknowledged` | src/lib/tcp/tcp.c:1559-1605 | of data that arrives in order every second segment is acknowledged at once, and the others are not |
| `TcpProgress.Exchange` | src/lib/tcp/tcp.c:311-371 | one exchange of repeated segments moves the window on |
| `TcpProgress.NeverStuck` | src/lib/tcp/tcp.c:311-371 | from every state reached without empty buffers some further run delivers everything sent so far |
| `TcpProgress.BlockedForever` | src/lib/tcp/tcp.c:874-892 | while the peer's client is silent a blocked connection stays blocked and delivers nothing |
| `TcpProgress.DeliverUnlessBlocked` | src/lib/tcp/tcp.c:311-371 | a connection that is not blocked can deliver everything sent so far, empty buffers or not |
| `TcpProgress.DeliverableExactly` | src/lib/tcp/tcp.c:269-894 | in every state reached everything sent so far can still be delivered while the peer's client is silent if and only if the connection is not blocked |
| `TcpProgress.EmptyFirstIsBlocked` | src/lib/tcp/tcp.c:874-892 | an empty buffer sent first, with data behind it, blocks the connection |
| `Arp.ScanFinds` | src/lib/ethernet_ip/ethernet_ip.c:74-82 | the slot written to is the address's own, or one with the lowest stamp |
| `Arp.AddRefines` | src/lib/ethernet_ip/ethernet_ip.c:63-89 | stamping the slot that the scan finds is adding to a list of eight, most recent first |
| `Arp.FindRefines` | src/lib/ethernet_ip/ethernet_ip.c:97-126 | a lookup answers as the list does and moves the address to its front |
| `Arp.LookupIsLeastRecentlyUsed` | src/lib/ethernet_ip/ethernet_ip.c:63-126 | after any history of at most 2^32 operations a lookup answers if and only if the address is among the eight most recently touched, with the hardware address last added for it |
| `Arp.LeastRecentlyUsedExactly` | src/lib/ethernet_ip/ethernet_ip.c:63-126 | this holds over all histories of length at most n if and only if n is at most 2^32 |
| `Arp.NoAddressTwice` | src/lib/ethernet_ip/ethernet_ip.c:74-86 | after any history, however long, no address is in two slots |
| `Arp.ZeroIsFoundUnlessFull` | src/lib/ethernet_ip/ethernet_ip.c:525-533 | a lookup of address zero succeeds if and only if a slot is unused |
| `Arp.WrapThrowsOutNewest` | src/lib/ethernet_ip/ethernet_ip.c:86-86 | a history of 2^32 + 1 operations after which the address touched last but one is no longer found |
| `Arp.ArpCache.constructor` | src/lib/ethernet_ip/ethernet_ip.c:522-533 | the cleared cache |
| `Arp.ArpCache.CacheAdd` | src/lib/ethernet_ip/ethernet_ip.c:63-89 | in place, the scan and the write |
| `Arp.ArpCache.CacheFind` | src/lib/ethernet_ip/ethernet_ip.c:97-126 | in place, the search and the new stamp |
| `Routing.InsertKeepsLayers` | src/lib/ethernet_ip/ethernet_ip.c:302-346 | hosts stay first and netmasks never rise |
| `Routing.FindAfterInsert` | src/lib/ethernet_ip/ethernet_ip.c:302-379 | when a new route is found instead of an old one |
| `Routing.FirstMatchIsBest` | src/lib/ethernet_ip/ethernet_ip.c:352-379 | the first match is the best of all routes added: hosts, then the greatest netmask, then the newest; there is none if and only if nothing matches |
| `Routing.BestIsFound` | src/lib/ethernet_ip/ethernet_ip.c:352-379 | conversely the best of all routes added, which is unique, is the one found |
| `Routing.CoveredExactly` | src/lib/ethernet_ip/ethernet_ip.c:352-379 | of two networks that match one address, one lies within the other if and only if its netmask has all the other's bits |
| `Routing.FoundIsWithinExactly` | src/lib/ethernet_ip/ethernet_ip.c:327-379 | the route found lies within any other that matches if and only if it is a host or its netmask has all the other's bits |
| `Routing.FoundIsMostSpecific` | src/lib/ethernet_ip/ethernet_ip.c:327-336 | with prefix netmasks it therefore lies within every other that matches |
| `Routing.OddMasksDoNotNest` | src/lib/ethernet_ip/ethernet_ip.c:333-336 | with other netmasks it need not: two routes and an address |
| `Routing.MatchesExactly` | src/lib/ethernet_ip/ethernet_ip.c:363-372 | a host route matches its own address, a network route those that agree with it bit by bit under its mask |
| `Routing.MatchesSomethingExactly` | src/lib/ethernet_ip/ethernet_ip.c:363-366 | a network route matches anything at all if and only if its address has no bit outside its mask |
| `Routing.RouteList.Add` | src/lib/ethernet_ip/ethernet_ip.c:302-346 | in place, the two scans insert where the function does |
| `Routing.RouteList.Lookup` | src/lib/ethernet_ip/ethernet_ip.c:352-379 | the search returns the first match |
| `InternetChecksum.PartialIsFold` | src/lib/ipcsum/i386/ipcsum.c:33-78 | the loop with end-around carry is the one's complement sum of the words |
| `InternetChecksum.FoldIsRemainder` | src/lib/ipcsum/i386/ipcsum.c:42-50 | that sum in closed form: zero only for zero, otherwise a remainder |
| `InternetChecksum.PartialChains` | src/lib/ipcsum/i386/ipcsum.c:33-78 | chunks of even length can be summed one after the other |
| `InternetChecksum.SumIsInNetworkOrder` | src/lib/ipcsum/i386/ipcsum.c:26-28 | summing low byte first gives the network-order sum with its bytes exchanged |
| `InternetChecksum.StampedIsAccepted` | src/lib/tcp/tcp.c:1539-1549 | what one end stamps the other end accepts, addresses exchanged |
| `InternetChecksum.StampIsRfc793` | src/lib/tcp/tcp.c:1527-1554 | the checksum sent is, in network byte order, the complement of the one's complement sum of addresses, protocol, length, header and data |
| `InternetChecksum.DamageInTransit` | src/lib/tcp/tcp.c:1437-1442 | what one end stamps and the line damages in one word is refused if and only if the checksum is not zero and it is not one zero for the other |
| `InternetChecksum.ZeroChecksumIsNone` | src/lib/tcp/tcp.c:1437-1437 | a segment with checksum zero that is accepted damaged |
| `InternetChecksum.AcceptedIsMultiple` | src/lib/tcp/tcp.c:1437-1442 | a checked segment is accepted if and only if its whole sum is a multiple of 0xffff |
| `InternetChecksum.DamagedWordIsNoticed` | src/lib/tcp/tcp.c:1437-1442 | damage to one word of the data is noticed, except between the two forms of zero |
| `InternetChecksum.IpcsumPartial` | src/lib/ipcsum/i386/ipcsum.c:33-78 | the word loop and the odd byte compute the sum |
| `InternetChecksum.AvrAgreesExactly` | src/lib/ipcsum/avr/ipcsum.c:33-79 | the AVR routine computes the sum of its buffer, whatever lies behind it, if and only if the number of words is zero or not a multiple of 256 |
| `InternetChecksum.AvrSumsTooFar` | src/lib/ipcsum/avr/ipcsum.c:33-79 | for a buffer of 512 bytes it does not |
| `InternetChecksum.AvrIpcsumPartial` | src/lib/ipcsum/avr/ipcsum.c:33-79 | the loop over a two-byte counter computes the sum of the words it does add |
| `InternetChecksum.CompleteHeader` | src/lib/tcp/tcp.c:1527-1554 | in place, fills the checksum in |
| `InternetChecksum.CheckSegment` | src/lib/tcp/tcp.c:1437-1442 | the receiver's verdict |

## Left out

- The context switch itself, interrupt entry and exit, timers, drivers, start-up code and, but for the checksum
  loops, everything in assembler.
- Memory as bytes: context, lock and queue structures are records in tables keyed by their address, so that links between
  them are sequences and two structures never overlap.
- The switch counter of a context, the idle context's change of priority, and the stack-depth checks.
- `isr_spinlock_unlock`, which repeats `spinlock_unlock`, and the `isr_` forms of signal, interrupt and wait.
- Heap addresses are unbounded numbers, but for the number of bytes asked for, which wraps; the magic values of the
  debug build appear only through the sizes they add.
- Semaphores, reference counting of membufs and netbufs, one-shot timers, SLIP, PPP's IP layer, UDP, ICMP and the IP layer.
- TCP connection set-up, close and reset, options, the advertised window and the time-wait state: sockets are in
  ESTABLISHED and segments carry neither SYN, FIN nor RST.
- TcpStream.DeliveredIsPrefix: holds within one turn of the sequence space.  The model's channel keeps segments for ever,
  and after a full turn an old one could pass for new; the code itself stops when a segment crosses the end of the
  sequence space, as WrappedForever says.
- TcpProgress.DeliverableExactly: says that some behaviour of the channel and the timers delivers everything, not that every
  behaviour does; the channel may lose every segment.
- TcpProgress.NeverStuck: the same.
- Arp.LookupIsLeastRecentlyUsed: for addresses other than zero, which marks an unused slot.
- Arp.ZeroIsFoundUnlessFull: for histories of at most 2^32 operations.
- RoundTrip.BackOffIsDoubling: shifting by 32 or more is taken to shift everything out; C leaves it undefined, and the i386
  shifts by the count modulo 32.
- Lcp.PppInstance.HandleAction: raising the layer also puts the agreed options into force and lowering it sets them back to
  their defaults; the automaton keeps no options, which lcp_options.dfy models by themselves.
- RwLocks.ExclusionExactly: the lock is taken to lie in cleared memory, because `rwlock_init` does not set the writer count.
- RwLocks.RwLock.AcquireWrite: the place that its priority gives a writer among those that wait is a parameter.
- RwLocks.TooManyReaders: the debug trap it passes is modelled apart, in ExclusionUntilTrapExactly.
- HeapRuns.HugeRequestIsGranted: the debug trap on large sizes is not modelled.
- Lcp: the contents of the reply buffer are a label; after a Configure-Ack or Configure-Reject in the closed or stopped
  state the code sends the buffer left over from an earlier packet, whose storage the model does not follow.
- LcpOptions.Negotiator.CheckRequest: for requests that fit the 1500-byte reply buffer; the bytes that follow a proposed
  value in memory, copied when an option has the wrong length, are a parameter.  A packet whose length field is less than
  four is not modelled.
- Parsing of Configure-Ack and Configure-Reject options.
- Clocks, jiffies and the fresh buffer a frame is received into are parameters.
