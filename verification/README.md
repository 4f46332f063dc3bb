# Actor runtime: a verified model

An in-process actor runtime: every actor owns a mailbox, a scheduler drains it in batches on one goroutine at a
time, a supervision policy restarts actors that panic, and stop requests travel through the mailbox like any other
message. The hard part is a stack of concurrent state machines. Each is modelled here as a step relation in which
every atomic load, store, add, compare-and-swap and lock region is one step (Go's atomics are sequentially
consistent, so interleaving semantics is faithful), and theorems are about every state of every run.

| files | what they model |
|---|---|
| `Bits` | powers of two, `bits.Len64`, bitwise and, masking of absolute cursors |
| `RingMachine`, `RingTheorems` | the growable multi-producer, single-consumer ring buffer under every interleaving |
| `RingBuffer` | the same code as an object over an array, with its loops |
| `InboxMachine`, `InboxProgress`, `InboxLimits` | the idle/running/stopped scheduler on top of the concurrent ring buffer |
| `Pids`, `Lifecycle`, `LifecycleInv`, `CascadeInv`, `LifecycleTheorems`, `ChildSets` | poison, shutdown and cascade over a tree of actors |
| `LifecycleProgress` | internal steps of that machine run out, and then every waiter is cancelled |
| `LifecycleHistory` | what a run's labels say of its states: mailboxes, starts, closes |
| `LifecycleLimits` | reachable states that mark where those guarantees end |
| `Supervision`, `SupervisionLog`, `SupervisionEvents`, `Process` | the recursion Start / invokeMsg / tryRestart / Shutdown under an arbitrary panic oracle, and Invoke |
| `DeadLetters` | sendMessage / sendMiss / broadcast over a registry that changes between lookups |
| `Requests` | request, reply and timeout |
| `Wrappers`, `Sums` | small shared types and lemmas |

How the layers meet. `RingMachine` assumes one consumer; `InboxMachine` allows any number of processor goroutines
inside PopN and proves (`RefinesRing`) that its own protocol supplies the one consumer. `Lifecycle` uses mailboxes
as FIFO sequences from which batches are taken in order, which is what `DeliveredInOrder` proves of the inbox.
`Supervision` treats what happens inside one actor while `Lifecycle` treats an actor's restarts as invisible.

History fields record what a run did so that theorems can speak of it. In the machines they are marked in the
datatypes and read by no step (`popped` and `pushed` of the ring, `delivered` of the inbox; `got`, `cut`, `stopAt`,
`gaveUp`, `recorded`, `late` and `stops` of the lifecycle, whose `pushed`, `popped` and `walk` are the mailbox itself).
In `Supervision` the length of `log` also numbers the deliveries for the panic oracle.

## Where code and documentation differ

The model follows the code. Each of these is carried by a run or input that shows the difference and by a theorem that
says exactly when the promise holds.

- `actor/lifecycle.go:41-43` says Stopped is delivered after the PID has left the registry. The code delivers it first
  and unregisters after (`actor/process.go:249-251`): over every run of the lifecycle machine each Stopped finds its PID
  registered, and the PID leaves only after that (`LifecycleTheorems.StoppedWhileRegistered`). Under an arbitrary panic
  oracle the PID resolves at that moment if and only if Started had been delivered
  (`Supervision.StoppedWhileRegistered`); `StoppedNeverRegistered` is the other case.
- `actor/lifecycle.go:41` says Stopped is the last message. Two families fail it: after a give-up the rest of the batch
  is still delivered (`DeliveredAfterStopped`), and a Stopped handler that panics with a restart left is followed by a
  new incarnation's Initialized and Started (`RestartedAfterStopped`). For every oracle `StoppedLastIff`, and for every
  cutting into batches `StoppedLastInMailbox`, say exactly when it is the last: an actor that gave up did so in the last
  message handed out (or in its first Start) with no Start left to finish, or a pill came and the Stopped handler did not
  panic with a restart left. With lifecycle handlers that do not panic this is `StoppedLastCalm`.
- `actor/lifecycle.go:12-14` says a crashed incarnation has received Stopped before its successor starts. For every
  oracle it has if and only if that Stopped is the delivery right before the successor's Initialized, that is, if the
  panic was in the Stopped handler (`PredecessorStoppedIff`, `PredecessorInMailbox`). `RestartedAfterStopped` meets the
  promise, `RestartedWithoutStopped` fails it.
- `actor/inbox.go:16-19` and `111-116` say at most one processor goroutine is ever alive. `TwoAlive` is a run with two.
  Two are alive only while one is between its park and its reclaim, and in a running inbox exactly then
  (`AliveTogether`); at most one ever owns the buffer (`OneProcessor`).
- `actor/process.go:217-220` and `actor/engine.go:186-188` say the context is cancelled when the actor is gone. A refused
  waiter may be woken while the actor still resolves (`RefusedWakesEarly`). A woken waiter finds the actor gone if and
  only if that actor is not in the middle of its Shutdown, which an accepted waiter never sees (`DoneMeansGone`,
  `RefusedMeansGone`).
- The cascade (`actor/process.go:108-131`) is not part of every stop. It hangs on a pill being reached
  (`CascadeIffPill`): then, also if the actor had given up earlier in the same batch, every recorded child is
  stopped (`ChildrenFirst`). An actor that exhausts its restarts and reaches no pill leaves its children running
  (`GiveUpLeavesChildren`).
- `actor/process.go:241-242` says a parent does not keep entries for dead children. It does for a child that dies before
  SpawnChild records it (`LateChildStaysListed`), and, while the parent resolves, for no other (`LeftBehindIffLate`).
- A panic in Initialized can leave a stopped actor registered (`StoppedYetRegistered`); `RegisteredAfterStop` says
  exactly when.

## Model

| member | source | states |
|---|---|---|
| `Bits.RoundUpPow2` | ringbuffer/ringbuffer.go:249-260 | for every int64: a power of two in [2, 2^62], not below the size unless clamped, and the least such |
| `Bits.ClearLowestBit` | ringbuffer/ringbuffer.go:256-258 | `size & (size-1) == 0` accepts exactly the powers of two |
| `Bits.LenBounds` | ringbuffer/ringbuffer.go:259 | `bits.Len64` brackets its argument between consecutive powers of two |
| `Bits.MaskIsRemainder` | ringbuffer/ringbuffer.go:213-218 | masking with a power of two minus one is the remainder |
| `Bits.WindowInjective` | ringbuffer/ringbuffer.go:213-218 | any window of at most capacity cursors occupies distinct slots |
| `Bits.WindowCovers` | ringbuffer/ringbuffer.go:213-218 | a window of exactly capacity cursors reaches every slot |
| `Bits.WrappedIndex` | ringbuffer/ringbuffer.go:162-169 | the contiguous-then-wrapped index of PopN is the masked absolute cursor, at every wrap position |
| `Bits.Doubled` | ringbuffer/ringbuffer.go:213-215 | doubling keeps the capacity a power of two |
| `RingMachine.CStepKeeps` | ringbuffer/ringbuffer.go:144-176 | every consumer step, handshake included, keeps the ring invariant, whatever the mutex holder is doing |
| `RingMachine.PStepKeeps` | ringbuffer/ringbuffer.go:93-107 | every producer step, growth included, keeps the ring invariant, whatever the consumer is doing |
| `RingMachine.ClearKeeps` | ringbuffer/ringbuffer.go:165-170 | clearing a slot moves the live window by one and touches no item a producer has just written |
| `RingMachine.CopyKeeps` | ringbuffer/ringbuffer.go:216-218 | each copied cursor finds its item in the bigger array under the new mask, zero values elsewhere |
| `RingMachine.WriteKeeps` | ringbuffer/ringbuffer.go:96-100 | the write decided on a possibly stale head lands outside the live window |
| `RingTheorems.Safety` | ringbuffer/ringbuffer.go:79-245 | the invariant holds in every state of every run from New(size), for every size |
| `RingTheorems.RefinesFifo` | ringbuffer/ringbuffer.go:93-222 | each step leaves the abstract queue alone, appends the item of the Push that stores tail, or hands the consumer a non-empty prefix |
| `RingTheorems.PushLinearizes` | ringbuffer/ringbuffer.go:93-107 | each Push appends its own item at exactly one step between its call and its return |
| `RingTheorems.SlotContents` | ringbuffer/ringbuffer.go:93-222 | in every state, mid-batch and mid-push included: uncleared cursors find the i-th item pushed, popped items are the first `head` pushed, every slot outside the window is zero |
| `RingTheorems.EmptyMeansDrained` | ringbuffer/ringbuffer.go:148-151 | PopN reports empty only if any stored item belongs to a Push that has not returned |
| `RingTheorems.PopNTakes` | ringbuffer/ringbuffer.go:144-176 | at every step of one call PopN(want) it is bound to min(want, the length it read) items, from the head it found |
| `RingTheorems.PopNReturns` | ringbuffer/ringbuffer.go:144-176 | it returns exactly that many, the oldest not yet popped, in order, and head has moved past exactly those |
| `RingTheorems.NoSlotRace` | ringbuffer/ringbuffer.go:93-176 | growth never overlaps the critical section, and a producer's write never meets a slot of the batch |
| `RingTheorems.NoMutualWait` | ringbuffer/ringbuffer.go:199-245 | grow and the consumer never wait for each other's flag at once |
| `RingTheorems.GrowIsReleased` | ringbuffer/ringbuffer.go:202-204 | while grow waits the consumer can step, and every step of it strictly nears the release |
| `RingTheorems.ConsumerIsReleased` | ringbuffer/ringbuffer.go:228-239 | while the consumer waits the grower can step, and every step of it strictly nears the release |
| `RingTheorems.CountingConserved` | ringbuffer/ringbuffer.go:100-172 | tail - head is length plus what either side has in flight; length is never negative; a batch size read early stays available |
| `RingTheorems.CostOfRun` | ringbuffer/ringbuffer.go:93-222 | in every state, mid-copy included: capacity at most max(initial, twice an occupancy really reached); slots copied are capacity minus initial plus those of a copy under way, below twice the pushes |
| `RingTheorems.DoublesWhenFull` | ringbuffer/ringbuffer.go:199-222 | the array is replaced only when exactly full, by one of twice the capacity, with the same queue |
| `RingTheorems.GrowsIffFull` | ringbuffer/ringbuffer.go:95-99 | a Push turns to growth if and only if the head it reads shows the array full |
| `RingBuffer.PopNIsPops` | ringbuffer/ringbuffer.go:114-176 | PopN(n) is min(n, queued) Pops in result, cursors, length and every slot; nothing for n not positive |
| `RingBuffer.PopsRuns` | ringbuffer/ringbuffer.go:162-170 | k successive Pops take and clear the two runs PopN takes and clears, wherever the window wraps |
| `RingBuffer.PopManyFilled` | ringbuffer/ringbuffer.go:144-176 | a batch is the front of the queue, and slots outside the live window stay zero |
| `RingBuffer.PopOneFilled` | ringbuffer/ringbuffer.go:114-134 | Pop takes the oldest item and leaves its slot zero |
| `RingBuffer.PushFilled` | ringbuffer/ringbuffer.go:97-104 | a push with room extends the queue and disturbs no live item |
| `RingBuffer.RingBuffer.constructor` | ringbuffer/ringbuffer.go:79-84 | an empty queue over an array of the rounded capacity |
| `RingBuffer.RingBuffer.Grow` | ringbuffer/ringbuffer.go:199-222 | the same array if there is room, else twice the array; same queue, zero values outside the window |
| `RingBuffer.RingBuffer.Push` | ringbuffer/ringbuffer.go:93-107 | appends the item; the array doubles exactly when it was full |
| `RingBuffer.RingBuffer.Pop` | ringbuffer/ringbuffer.go:114-134 | removes the front item, or reports false and the zero value |
| `RingBuffer.RingBuffer.PopN` | ringbuffer/ringbuffer.go:144-176 | removes the first min(n, queued) items in order; false exactly when n is not positive or the queue is empty |
| `RingBuffer.RingBuffer.Drain` | ringbuffer/ringbuffer.go:165-169 | copies one run and clears exactly that run |
| `RingBuffer.RingBuffer.Len` | ringbuffer/ringbuffer.go:183-185 | the number of queued items |
| `InboxMachine.OwnershipKeeps` | actor/inbox.go:117-158 | every step keeps: at most one owner, exactly one while running, none while idle |
| `InboxMachine.RefinesRing` | actor/inbox.go:131-184 | every step is a step of the one-consumer ring buffer or leaves it alone |
| `InboxMachine.WakeupKeeps` | actor/inbox.go:88-158 | idle with a non-empty buffer means a sender has yet to CAS or a processor is between park and reclaim |
| `InboxMachine.InboxSafety` | actor/inbox.go:88-184 | the whole inbox invariant in every state of every run |
| `InboxMachine.DeliveredInOrder` | actor/inbox.go:172-184 | the batches handed to Invoke concatenate to a prefix of the push order, each of 1 to throughput messages |
| `InboxMachine.BatchIsFull` | actor/inbox.go:172-184 | every batch handed to Invoke holds min(throughput, the length its PopN read) messages, the oldest not yet popped, in order; an empty one is not handed over |
| `InboxMachine.NothingStranded` | actor/inbox.go:117-158 | not stopped, no pending sender, no live processor: everything pushed has been delivered |
| `InboxMachine.OneProcessor` | actor/inbox.go:106-184 | no two goroutines are in run() or about to park at once |
| `InboxMachine.AliveTogether` | actor/inbox.go:111-158 | two goroutines are alive only while one is in the park window; in a running inbox at most one is alive if and only if nobody is in it |
| `InboxLimits.TwoAlive` | actor/inbox.go:131-158 | for every size and throughput, a run with one processor parked and about to look again and the next already started |
| `InboxMachine.StopIsFinal` | actor/inbox.go:106-184 | stopped is absorbing, and at most one Invoke begins afterwards |
| `InboxMachine.StopStops` | actor/inbox.go:99-109 | from the step that is a Stop on the inbox is stopped and at most one more Invoke begins; nothing else stops it |
| `InboxMachine.StopAtRest` | actor/inbox.go:99-121 | with nobody inside PopN at the Stop not one more Invoke begins, whatever is sent |
| `InboxMachine.ParksWhenDrained` | actor/inbox.go:131-184 | a processor parks only after PopN told it the queue is empty, or after a Stop |
| `InboxProgress.InboxNeverStuck` | actor/inbox.go:88-184 | in every reachable state with a sender or processor left, somebody can step other than by spinning; a not stopped inbox with an undelivered message has one left |
| `InboxProgress.InboxLowers` | actor/inbox.go:88-184 | every step but a new Send, a Stop or a turn of a spin loop lowers a rank, growths, handshakes, parks and reclaims included |
| `InboxProgress.EverythingDelivered` | actor/inbox.go:123-158 | from every reachable state internal steps lead to rest, and a not stopped inbox has then delivered everything ever pushed |
| `Pids.Pid.Equals` | actor/pid.go:36-44 | decides equality of address and ID, nil included |
| `Pids.ChildExtends` | actor/context.go:110-115 | a child's ID strictly extends its parent's, for every kind and name |
| `Pids.ChildNamed` | actor/pid.go:47-62 | a child has its parent's address, and parent ID, separator and name can be read off its ID; nil and empty parents included |
| `Pids.ChildIdReads` | actor/context.go:114-115 | a child's ID reads parent, kind, name |
| `Pids.ChildrenDiffer` | actor/pid.go:47-62 | children of one parent share an ID only if they share a name |
| `Pids.ChildComposes` | actor/pid.go:47-62 | a child's child is the descendant under the joined name |
| `LifecycleInv.LocalsKeep` | actor/process.go:170-257 | every step keeps each actor's mailbox position, stop flag, registration, inbox and Stopped in the prescribed order |
| `LifecycleInv.WaitersKeep` | actor/engine.go:236-253 | every step keeps every waiter accounted for, with a pill on the way while an actor holds it |
| `CascadeInv.TreeKeeps` | actor/process.go:116-131 | every step keeps: children extend their parent, and are recorded, snapshotted and waited for |
| `CascadeInv.OrderKeeps` | actor/process.go:186-257 | every step keeps the global order of Stopped deliveries bottom-up |
| `LifecycleTheorems.SysSafety` | actor/process.go:116-257 | the whole lifecycle invariant in every state of every run |
| `LifecycleTheorems.DeliveredUpToPill` | actor/process.go:170-192 | what Invoke delivers is the mailbox up to the first pill; between batches, without a pill, it is all of what was taken; a pill starts teardown after exactly that, and Stopped follows at that point |
| `LifecycleTheorems.NothingBehindPill` | actor/process.go:170-178 | after a pill has been reached nothing more is ever delivered |
| `LifecycleHistory.MailboxFromSends` | actor/engine.go:319-326 | a mailbox holds exactly the user messages sent to it, each once, in the order of the Sends |
| `LifecycleHistory.PillsFromPoisons` | actor/engine.go:236-253 | each pill in it belongs to an accepted Poison of that actor, and is there once |
| `LifecycleHistory.PoisonStaysAimed` | actor/engine.go:205-209 | a Poison stays aimed at the actor it was called on |
| `LifecycleHistory.SettledAlready` | actor/process.go:180-192 | when handlePoison cancels its own waiter, Shutdown has cancelled it already |
| `LifecycleHistory.StartsFirst` | actor/process.go:133-152 | an actor past its start took the step out of Started, with nothing delivered before |
| `LifecycleHistory.SpawnRecords` | actor/context.go:118-122 | SpawnChild returns only after the child's start, and records it if and only if the parent still resolves |
| `LifecycleHistory.ClosedTakesNothing` | actor/inbox.go:172-184 | once its inbox is stopped an actor takes no further batch |
| `LifecycleTheorems.WaiterInOnePlace` | actor/engine.go:236-253 | a waiter is with its caller, in `cancels` with the flag clear, in Shutdown's snapshot or cancelled, exactly one of these; while in `cancels` its pill is coming |
| `LifecycleTheorems.DoneMeansGone` | actor/process.go:213-257 | a cancelled waiter on a known actor finds it gone (Stopped, unregistered, inbox stopped) if and only if it is not in the middle of its Shutdown; an accepted waiter always does |
| `LifecycleTheorems.RefusedMeansGone` | actor/engine.go:241-250 | the same for a refused call, from the moment it is about to cancel its own waiter |
| `LifecycleTheorems.StoppedWhileRegistered` | actor/process.go:249-251 | every step that delivers Stopped has the PID registered before and after, and a PID leaves the registry only after its Stopped |
| `LifecycleTheorems.NoWaiterLost` | actor/process.go:203-257 | at quiescence every waiter has been cancelled |
| `LifecycleTheorems.BottomUp` | actor/process.go:116-131 | Stopped reaches an actor at most once, and on the poison path after every snapshot child that accepted was stopped and unregistered |
| `LifecycleTheorems.ChildrenFirst` | actor/process.go:186-192 | once a pill's wait is over, given up before or not, every child ever recorded has claimed its stop |
| `LifecycleTheorems.CascadeIffPill` | actor/process.go:170-192 | an actor snapshots and waits for its children if and only if it reaches a pill; one stopped without giving up has |
| `LifecycleTheorems.SubtreeStopped` | actor/process.go:108-131 | the same down any line of descent in which nobody in between gave up without reaching a pill, descendants spawned during the cascade included |
| `LifecycleTheorems.SubtreeBottomUp` | actor/process.go:108-131 | down any line of accepted cascade waiters the last actor is gone and was handed Stopped before the first |
| `LifecycleTheorems.WaitsAreAcyclic` | actor/process.go:108-131 | along any chain of waits the IDs strictly extend one another |
| `LifecycleProgress.InternalLowers` | actor/process.go:116-257 | every internal step, give-ups included, strictly lowers a rank of the whole system, new Poison calls of a cascade included |
| `LifecycleProgress.EveryRunSettles` | actor/process.go:112-115 | with no new message, spawn or Poison every run is bounded, whatever gives up, and where it can go no further every waiter is cancelled |
| `LifecycleProgress.CanSettle` | actor/process.go:112-115 | from every reachable state such an end is within reach |
| `LifecycleTheorems.NeverStuck` | actor/process.go:112-115 | every reachable state is quiescent or has an internal step: no deadlock |
| `ChildSets.StepEntries` | actor/process.go:239-246 | every step keeps each child set in agreement with who has left it |
| `ChildSets.LeftBehindIffLate` | actor/process.go:239-246 | while the parent resolves, a child past its removal is still listed if and only if it was past it before SpawnChild recorded it |
| `LifecycleLimits.RefusedWakesEarly` | actor/engine.go:246-250 | a run in which a refused waiter wakes while the actor is registered and has not seen Stopped |
| `LifecycleLimits.GiveUpLeavesChildren` | actor/process.go:290-311 | a run in which a given-up parent that reached no pill is gone and a recorded child is still registered and running |
| `LifecycleLimits.LateChildStaysListed` | actor/context.go:118-122 | a run in which a child dies before SpawnChild records it, and its running parent lists it |
| `Supervision.InvokeMsg` | actor/process.go:268-280 | terminates for every oracle; log and counters only grow; the inbox is closed exactly with the stop flag |
| `Supervision.InvokeLedger` | actor/process.go:268-280 | restart and Producer counts follow the number of panics, through any nesting |
| `Supervision.RestartLedger` | actor/process.go:287-335 | the same for tryRestart, which gives up exactly on the panic beyond the budget |
| `Supervision.StartLedger` | actor/process.go:137-152 | the same for Start |
| `Supervision.ShutdownLedger` | actor/process.go:228-257 | the same for Shutdown, which delivers Stopped exactly when the flag was clear |
| `Supervision.LifeLedger` | actor/process.go:137-335 | for every oracle: the Producer ran 1 + min(MaxRestarts, panics) times, and Stopped once if and only if a pill came or panics exceeded MaxRestarts |
| `Supervision.FeedUsers` | actor/process.go:259-267 | for every oracle the batch loop delivers each message once and in order |
| `Supervision.RegisteredAfterStop` | actor/process.go:137-152 | a given-up actor is still registered if and only if some Start was between Initialized and registration when Stopped was delivered; never when Initialized does not panic |
| `Supervision.StartSettled` | actor/process.go:137-152 | the same through any nesting of Start, relative to the calls of Start already open |
| `Supervision.StoppedYetRegistered` | actor/process.go:145-148 | the failing family is not empty |
| `Supervision.StoppedWhileRegistered` | actor/process.go:249-251 | for every oracle, when Stopped is delivered the PID resolves if and only if Started had been delivered |
| `Supervision.StoppedNeverRegistered` | actor/process.go:145-148 | the log of an actor that gives up in its first Initialized: Stopped before it was ever registered |
| `Supervision.LifecycleLog` | actor/process.go:170-178 | when lifecycle handlers do not panic, the exact delivery log of one walk, with receiver and registration of each delivery, for every pattern of user panics, with and without a final pill |
| `SupervisionLog.StoppedLastIff` | actor/process.go:137-335 | for every oracle, Stopped is the last delivery of a life if and only if: after a give-up, it came in the last message with no Start open; else a pill came and the Stopped handler did not panic with a restart left |
| `SupervisionLog.StoppedLastCalm` | actor/process.go:170-178 | when lifecycle handlers do not panic: a pill delivered it or the fatal message was the last |
| `SupervisionLog.DeliveredAfterStopped` | actor/process.go:170-178 | a log in which a message follows Stopped |
| `SupervisionLog.RestartedAfterStopped` | actor/process.go:249-335 | a log in which a pill's Stopped panics and a new incarnation follows it |
| `SupervisionLog.PredecessorStoppedIff` | actor/process.go:287-335 | for every oracle, a new incarnation's predecessor has received Stopped if and only if Stopped is the delivery right before |
| `SupervisionLog.RestartedWithoutStopped` | actor/process.go:312-334 | a log in which a restart follows no Stopped |
| `SupervisionEvents.EventLedger` | actor/process.go:137-335 | for every oracle, each incarnation is announced initialized and started once, each but the first restarted, and the stop once if and only if the actor stopped |
| `SupervisionEvents.RestartsNumbered` | actor/process.go:312-327 | for every oracle, restarts are announced as number 1, 2, 3 and so on |
| `SupervisionEvents.LifecycleEvents` | actor/process.go:137-335 | when lifecycle handlers do not panic, the exact broadcasts, each after the delivery it reports and with the registration it finds |
| `Process.FirstPill` | actor/process.go:170-178 | the position of the first pill, or the end of the batch |
| `Process.BatchBoundaries` | actor/process.go:170-178 | two batches have the effect of their concatenation |
| `Process.BatchingInvisible` | actor/inbox.go:172-184 | any cutting of the mailbox into batches has the effect of one batch |
| `Process.GracefulStop` | actor/process.go:160-192 | for every oracle and every cutting, the user messages delivered are exactly those before the first pill |
| `Process.MailboxLog` | actor/inbox.go:172-184 | when lifecycle handlers do not panic, the exact delivery log of every mailbox and every cutting into batches, and which batch is the last to be handed out |
| `Process.MailboxIsLife` | actor/inbox.go:172-184 | for every oracle and cutting a mailbox has the effect of one life, so that all proved of lives holds of mailboxes |
| `Process.StoppedLastInMailbox` | actor/inbox.go:172-184 | for every oracle and cutting, exactly when Stopped is the last delivery |
| `Process.StoppedLastInCalmMailbox` | actor/inbox.go:172-184 | the same in terms of the messages, when lifecycle handlers do not panic |
| `Process.PredecessorInMailbox` | actor/process.go:287-335 | the predecessor condition for every oracle and cutting |
| `Process.Process.constructor` | actor/process.go:59-72 | a process not yet started |
| `Process.Process.InvokeMsg` | actor/process.go:268-280 | refines its functional form; whoever sets the stop flag in it cancels every held waiter once, each finding Stopped delivered, the PID unregistered and the inbox closed, and leaves the parent's child set right before Stopped |
| `Process.Process.TryRestart` | actor/process.go:287-335 | as above |
| `Process.Process.Start` | actor/process.go:137-152 | as above |
| `Process.Process.Shutdown` | actor/process.go:228-257 | as above, the stopped event included; a second call changes nothing |
| `Process.Process.Claim` | actor/process.go:234-247 | takes the stop and the waiters, then leaves the parent's set if the parent resolves |
| `Process.Process.Depart` | actor/process.go:250-256 | broadcast, registry, inbox, and the waiters last, in that state |
| `Process.Process.CancelAll` | actor/process.go:254-256 | cancels each waiter taken, in order |
| `Process.Process.ShutdownChildren` | actor/process.go:116-131 | poisons every child in the set, each once, as the process stands |
| `Process.Process.HandlePoison` | actor/process.go:186-192 | poisons every child before the stop is taken, shuts down, and cancels the pill's own waiter last |
| `Process.Process.Invoke` | actor/process.go:170-178 | everything before the first pill is delivered, then the pill is handled; nothing behind it is touched |
| `Process.Process.Walk` | actor/process.go:171-177 | the loop: each envelope in turn up to the first pill |
| `DeadLetters.SiftOne` | actor/eventstream.go:51-57 | one lookup of the pruning loop keeps: subscribers that their own lookup found live are listed once, the others are gone |
| `DeadLetters.Engine.Snapshot` | actor/eventstream.go:49-58 | one lookup per subscriber, each at its own moment under the lock; exactly those it found live are kept and listed, once each |
| `DeadLetters.Engine.Subscribe` | actor/eventstream.go:22-29 | adds or replaces that ID only; nil changes nothing |
| `DeadLetters.Engine.Unsubscribe` | actor/eventstream.go:31-38 | removes that ID only; nil changes nothing |
| `DeadLetters.Engine.SendMessage` | actor/engine.go:312-327 | a hit pushes exactly that envelope; an ordinary miss causes exactly one announcement and its fan-out; a silent miss causes nothing |
| `DeadLetters.Engine.SendMiss` | actor/engine.go:334-346 | no event for the dead-letter actor or for a DeadLetterEvent; otherwise one event naming target, message and sender, pushed to exactly the subscribers that the lookup of their own send found live |
| `DeadLetters.Engine.Broadcast` | actor/eventstream.go:48-63 | exactly the subscribers that their own lookup found live are sent to, once each; the message is pushed to exactly those that the lookup of the send found live, in order, and each other send is one announced miss (none for a DeadLetterEvent); the table left is those kept and what others did to it meanwhile |
| `DeadLetters.Engine.SendOne` | actor/engine.go:140-142 | one send: pushed if its lookup finds the address live, else one miss unless silent |
| `DeadLetters.Engine.SendAll` | actor/eventstream.go:60-62 | one send per listed address, in order, each by a lookup of its own; pushed posts are exactly the hits and announced ones exactly the misses; terminates although each may miss and broadcast |
| `Requests.StepKeeps` | actor/engine.go:160-184 | the reply channel and the outcome only ever hold the first reply; registered reply addresses are the live ones |
| `Requests.ResolvesOnce` | actor/response.go:13-56 | a Response resolves to the first reply handled or to the timeout, and never changes |
| `Requests.ToldByLabels` | actor/engine.go:160-184 | every state is told by what happened: replies in order, the outcome of the first take or timeout, alive until the teardown, open until the close |
| `Requests.TimedOutOnlyByTimeout` | actor/response.go:47-53 | a timeout is reported only if one fired; without one a resolved Response holds the first reply handled |
| `Requests.RequestNeverStuck` | actor/response.go:47-56 | an open request always has a step of its own, and each of them brings it nearer its close |
| `Requests.NothingLeaks` | actor/response.go:47-56 | once all are closed each has an outcome and the registry holds no reply address |

## Left out

- Real time: RestartDelay, PoisonAfter, SendAfter, SendRepeat and request timeouts; a timer is a step that may happen at any moment.
- Fairness and scheduling: theorems are safety, freedom from deadlock, and strictly decreasing measures for the handshake, the inbox and the lifecycle's internal steps; nothing is said about how long a goroutine waits to be scheduled.
- Integer width: cursors, lengths and counters are unbounded except in RoundUpPow2; a negative MaxRestarts, which the code treats as no restarts, is not represented.
- User code: a delivery through Receive and the middleware is an oracle that panics or not; sends it makes are the free steps of the machines, and it returns. A panic in the Producer or while the middleware chain is built happens outside the recovery of invokeMsg and is not represented.
- Logging, stack traces, event timestamps, option functions, accessors and shortName.
- Custom Processer implementations, SpawnProc and engines without a registry.
- What the broadcasts of lifecycle events inside Start, tryRestart and Shutdown do to the subscribers: Supervision records that they are made, DeadLetters.Engine.Broadcast what one does.
- Start overlapping a first Invoke: the code registers before Started is delivered, so a message may be handled beside Started; Lifecycle lets the mailbox fill during Started but begins Invoke after it.
- Duplicate explicit IDs: the check and the insertion in spawnProc can race; spawned IDs are taken to be fresh.
- Children spawned from Initialized or Stopped: the parent is not in the registry then or is leaving it, and the code does not record them for the cascade.
- Restarts inside Lifecycle: a panic within the budget is invisible there, since the mailbox, registration and waiters do not change; lifecycle handlers do not panic there. Supervision covers both.
- Lifecycle takes a mailbox as a FIFO sequence; that the inbox provides it is proved in InboxMachine and not composed step by step. One step covers Initialized plus registration, and one covers a lookup of the parent plus the change of its child set.
- InboxMachine starts the processor goroutine in the same step as the CAS that claims it.
- The machine form of Pop: RingMachine has PopN, and Pop is its path with a request of one.
- RingBuffer.RingBuffer.Grow: the flags and spin loops of the handshake are in RingMachine only.
- Process.Process.ShutdownChildren: does not wait for the children it poisons; Lifecycle has the wait.
- Process.Process.HandlePoison: the same, through ShutdownChildren.
- DeadLetters.Engine.Broadcast: others change the table between the sends of a fan-out and between a lookup that missed and the fan-out, and the registry at any lookup; the order in which goroutines get the lock is not represented beyond that.
- Requests.ResolvesOnce: the poison that await waits for is one teardown step, and nobody else poisons the reply address.
