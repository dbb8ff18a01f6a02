# Model of a library of lock-free and futex-based primitives

The library offers a reference-counted pointer with weak handles, a ring buffer, a channel with many
senders and one receiver, two mutexes, a semaphore, a condition variable and a reader-writer lock.
Each is a few shared words driven by atomic instructions. What they promise is safety over all
interleavings of any number of threads, so every primitive is modelled as a state machine whose moves
are single atomic accesses, an inductive invariant is proved for it, and the theorems speak about
every state of every run.

## How it is organised

| file | modules | models |
|---|---|---|
| `Machine.dfy` | `Machine`, `Counting`, `Runs`, `Wakes`, `Witnesses` | machine words that wrap, counting the entries of a finite map, runs of a transition system and laws about flags and counters along them, what a futex's wake must do |
| `Arc.dfy` | `Arcs` | `Arc` and `Weak`: two counters, the sentinel, the window of `get_mut` and `into_inner`, two-phase destruction |
| `RingBuffer.dfy` | `Masks`, `RingBuffers` | masks and remainders; the ring buffer as an array used by one caller at a time |
| `SharedRing.dfy`, `RingLimits.dfy` | `SharedRings`, `RingLimits` | the ring buffer shared by any number of threads, and runs in which its pops go wrong |
| `Ledger.dfy` | `Ledgers` | book-keeping of messages: held, accepted or refused |
| `Channel.dfy`, `ChannelLimits.dfy` | `Channels`, `ChannelLimits` | the channel on top of the shared ring buffer, and runs in which its receiver overlooks a message |
| `MutexV2.dfy` | `MutexV2` | any number of three-state futex mutexes with their thread-local id sets |
| `MutexV1.dfy`, `MutexV1Limits.dfy` | `MutexV1`, `MutexV1Limits` | the mutex with a queue of parked threads, and runs in which parking goes wrong |
| `Semaphore.dfy` | `Semaphores` | the semaphore |
| `Condvar.dfy` | `Condvars` | the condition variable, together with a mutex and a predicate it protects |
| `RwLock.dfy`, `RwLockLimits.dfy` | `RwLocks`, `RwLockLimits` | the reader-writer lock, the number of threads at which it breaks, and runs in which a call gets stuck |

Each concurrent primitive has a second file whose name ends in `Calls`, with one module of that name
(`ArcCalls.dfy`, `RingCalls.dfy`, `ChannelCalls.dfy`, `MutexV2Calls.dfy`, `MutexV1Calls.dfy`,
`SemaphoreCalls.dfy`, `CondvarCalls.dfy`, `RwLockCalls.dfy`). The first kind proves what every access
keeps; the second proves what single calls answer and do: for every access of every run exactly when it
succeeds, refuses or sleeps, in terms of handles, guards, senders or earlier moves; what an
undisturbed call does from its first access to its return; and which threads it wakes.

In each module a `State` holds the shared words and, for every thread, its position in the code with
its local variables (`Pc`). `Step` executes the next atomic access of one call. The class of the module
has the shared words as fields; each of its methods is one operation of the source and changes the
fields in place. It is proved to do exactly what `Step` says, to keep the module's invariant, and to
return only results that are true of the state (`Truthful`, or spelled out). Fields named as history record what
happened (permits taken, payloads dropped, messages given) so that theorems can speak of it; no access
tests them.

## Assumptions

* Accesses interleave in one order that all threads agree on (sequential consistency).
* A futex wait sleeps atomically iff the word has the expected value, and may return without a wake;
  `wake_one` wakes some sleeper if there is one, `wake_all` wakes all.
* Thread ids are positive and identify threads. `Arc` and lock handles obey Rust's ownership: a
  handle is consumed, cloned or mutably borrowed only while no other call borrows it; guards stay with
  their thread; one thread at a time uses the `Receiver`.
* `usize` has 64 bits. Arithmetic on atomics wraps. Where an invariant needs counters not to wrap,
  the bound is a hypothesis about the run and is named in the table. Clones of an `Arc` beyond
  `MAX_REF_COUNT` abort in the model as in the source.
* Every weak compare-exchange may fail spuriously, in pushes and in pops.
* Values read from the shared ring buffer are stated for runs in which a slot is read only once its
  producer has written it (`NextPublished`). The code does not ensure this; see below.

## Where the code and what it promises differ

Each of these comes with a statement of exactly when it happens, and all but the wrapping of ids with a
run or an input that shows it.

* The ring buffer moves `head` before it writes the slot, so a pop can return a slot nobody has written
  (`RingLimits.PopReturnsUnwrittenSlot`). A read is right iff its ticket's producer is done
  (`SharedRings.ReadIsRightIffPublished`).
* A pop copies the value out before its compare-exchange. If that fails the copy is dropped although the
  value stays in the buffer, so the same value can be dropped and then returned
  (`RingLimits.ValueThrownAwayAndReturned`). With one consumer this happens iff the exchange fails
  spuriously (`SharedRings.DiscardsIffSpurious`).
* The ring buffer's constructor tests for an even size, `README.md:34` asks for a power of two. The
  consumer's mask agrees with the producer's remainder exactly for powers of two
  (`Masks.MaskAgreesIffPow2`), and 6 already fails (`Masks.EvenIsNotEnough`).
* `recv` can return Disconnected with a message left (`ChannelLimits.RecvMissesAMessage`), iff the
  compare-exchange of its last `try_pop` failed spuriously (`Channels.DisconnectWrongIffExchangeFailed`).
* `try_recv` can return Disconnected with a message left (`ChannelLimits.TryRecvMissesAMessage`), iff one
  was accepted after it looked into the buffer or its exchange failed (`Channels.TryRecvMissesIff`). A
  caller who has dropped all senders before the call is safe from the first
  (`Channels.TryRecvRightWithoutSenders`).
* A blocked `recv` can sleep next to a message (`ChannelLimits.ReceiverSleepsOnAMessage`), iff it was in
  the buffer when that `recv` stored to `receiver_state` (`Channels.SleepsOnMessageIff`). It never sleeps
  on a later one without a notification under way (`Channels.SleepingReceiverIsNotified`).
* `RwLock::read` and `RwLock::write` have branches that never load the word again: they never return
  (`RwLocks.StuckForever`). A call gets there iff it copies the write-lock value, or an odd value, at its
  first look or in a failed compare-exchange (`RwLocks.WhoGetsStuck`, `RwLockLimits.ReadStuckInExchange`,
  `RwLockLimits.WriteStuckInExchange`).
* `CondVar::wait` falls asleep on an overtaken counter (`Condvars.WrapAroundLosesTheWakeup`) iff the
  number of notifications since it loaded it is a positive multiple of 2^32 (`Condvars.MissesItsWakeupIff`).
* No waiter marks a futex mutex it did not get, so LOCKED_HAS_WAITERS is there iff the owner came through
  the slow loop (`MutexV2Calls.MarkedIffTakenSlowly`). Until then waiters do not sleep: an undisturbed
  `lock` of an owned mutex falls asleep iff the mark is there and otherwise keeps looping
  (`MutexV2Calls.LockAloneSleepsIff`).
* Mutex ids are distinct exactly until 2^64 mutexes have been created (`MutexV2.IdsDistinctIffNoWrap`).
* `park` may return spuriously, which the first mutex does not expect: one such return leaves a wakeup
  for a thread that does not park (`MutexV1Limits.SpuriousReturnHappens`), and without one the count is
  exact (`MutexV1.OneWakeupPerParkedThread`).
* The first mutex enqueues and parks without looking at its word again, so a thread can stay parked
  beside a free mutex (`MutexV1Limits.ParksBesideAFreeMutex`); those left parked are exactly those in the
  queue (`MutexV1.StaysParkedIffQueued`).
* With 2^31 threads the reader-writer lock's encoding collides with its write-lock value
  (`RwLockLimits.TooManyThreadsBreakIt`). With fewer it never does (`RwLocks.AdditionsAreExact`).

## Model

| member | source | states |
|---|---|---|
| `Arcs.StepKeepsInv` | src/arc.rs:32-189 | every atomic access of every call keeps the global invariant: exact counters, one window at most, payload and block alive as long as anything refers to them |
| `Arcs.CountersAreExact` | src/arc.rs:32-107 | while the block is allocated, `strong_count` is the number of strong handles (plus clones about to abort); `ref_count` is `usize::MAX` iff exactly one thread is in the window, and otherwise the weak handles plus one for the implicit weak |
| `Arcs.WindowExcludesWeaks` | src/arc.rs:67-98 | while one thread is in the window of `get_mut` or `into_inner`, no other is, no weak handle exists and nobody is upgrading one |
| `Arcs.DroppedOnceFreedOnce` | src/arc.rs:130-143 | in every run the payload is dropped or moved out at most once, the block is freed at most once, and not before the payload is gone |
| `Arcs.NothingOutlivesTheBlock` | src/arc.rs:178-189 | once the block is freed there is no handle and no running call that could touch it |
| `Arcs.PayloadIsThere` | src/arc.rs:123-143 | whoever reads, borrows, moves out or drops the payload finds it alive in an allocated block |
| `Arcs.NoLeak` | src/arc.rs:130-189 | when the last handle is gone and all calls have returned, the payload was released exactly once and the block freed exactly once |
| `Arcs.BorrowerIsAlone` | src/arc.rs:67-84 | while `get_mut`'s borrow lasts, the borrower's handle is the only handle of either kind and no other thread has any move, although the sentinel is already gone |
| `Arcs.UniqueIsAlone` | src/arc.rs:73-79 | reading `strong_count == 1` under the sentinel proves that there is no other handle and no other running call |
| `Arcs.IntoInnerWinsOnce` | src/arc.rs:86-107 | of any number of concurrent `into_inner` calls at most one gets to the payload |
| `Arcs.NoResurrection` | src/arc.rs:153-175 | once the payload is gone it stays gone, and no upgrade creates a handle any more |
| `Arcs.ArcInner.constructor` | src/arc.rs:19-30 | a new allocation satisfies the invariant with one strong handle |
| `Arcs.ArcInner.Deref` | src/arc.rs:123-128 | the accesses of a read of the payload, keeping the invariant |
| `Arcs.ArcInner.Clone` | src/arc.rs:56-65 | the accesses of `clone`, with the abort on too many handles; it returns a strong handle that did not exist before |
| `Arcs.ArcInner.Downgrade` | src/arc.rs:32-51 | the accesses of `downgrade`: spin on the sentinel, then compare-exchange; it returns a new weak handle, or panics on a count above the maximum without making one |
| `Arcs.ArcInner.Upgrade` | src/arc.rs:153-175 | the accesses of `upgrade`: Some comes with a new strong handle, None only with a strong count of 0, a panic only with one above the maximum |
| `Arcs.ArcInner.GetMut` | src/arc.rs:67-84 | the accesses of `get_mut`: it refuses at once only if a weak handle exists or another thread is in a window; in the window it finds itself unique iff its handle is the only one; when it has returned Some the payload is alive and the handle still the only one; None changes no handle |
| `Arcs.ArcInner.IntoInner` | src/arc.rs:86-107 | the accesses of `into_inner`: it gets to the payload iff its handle is the only one when it looks; Some leaves nothing behind, with the payload gone and the block freed exactly once; losing drops the handle |
| `Arcs.ArcInner.DropArc` | src/arc.rs:130-143 | the accesses of dropping a strong handle in its two phases, keeping the invariant |
| `Arcs.ArcInner.DropWeak` | src/arc.rs:178-189 | the accesses of dropping a weak handle, keeping the invariant |
| `ArcCalls.GetMutRefusedIff` | src/arc.rs:67-84 | `get_mut` refuses at its exchange iff a weak handle exists or some thread is in a window; inside its window it finds itself unique iff its handle is the only one of either kind; it then lends the payload iff it did |
| `ArcCalls.GetMutAlone` | src/arc.rs:67-84 | undisturbed and with nobody in its way, it takes three accesses and returns Some iff its handle is the only one |
| `ArcCalls.SoleOwnerBorrows` | src/arc.rs:67-84 | so the owner of the only handle, with no other call running, gets to the living payload |
| `ArcCalls.IntoInnerFailsIff` | src/arc.rs:86-107 | `into_inner` gives up at once iff a weak handle exists or some thread is in a window, and in its window iff there is another handle; it moves the payload out and frees the block otherwise |
| `ArcCalls.SoleOwnerTakesPayload` | src/arc.rs:86-107 | so the owner of the only handle, with no other call running, gets Some after four accesses, and nothing is left |
| `ArcCalls.CloneAbortsIff` | src/arc.rs:56-65 | `clone` aborts iff more than MAX_REF_COUNT strong handles and aborting clones are counted, and otherwise makes its handle |
| `ArcCalls.UpgradeFailsIff` | src/arc.rs:153-175 | `upgrade` returns None iff no strong handle is left, panics iff too many are counted, and succeeds at its exchange iff the count is what it saw |
| `ArcCalls.UpgradeAlone` | src/arc.rs:153-175 | undisturbed beside a strong handle it returns a new one after two accesses |
| `ArcCalls.DowngradeWaitsIff` | src/arc.rs:32-51 | `downgrade` keeps looking iff some thread is in a window, panics iff there are MAX_REF_COUNT weak handles, and succeeds at its exchange iff the count is what it saw |
| `ArcCalls.DowngradeAlone` | src/arc.rs:32-51 | undisturbed with no window open it returns a new weak handle after two accesses |
| `ArcCalls.LastDropIff` | src/arc.rs:130-143 | dropping a strong handle removes it, and goes on to drop the payload iff no strong handle is left |
| `ArcCalls.LastWeakIff` | src/arc.rs:178-189 | dropping a weak handle removes it, and goes on to free the block iff it was the last, no strong handle is counted and no drop of the payload is under way |
| `ArcCalls.PayloadFate` | src/arc.rs:86-143 | the payload is dropped by the drop that got that far, moved out by the `into_inner` that got that far, and touched by no other access |
| `ArcCalls.DerefLends` | src/arc.rs:123-128 | a shared borrow of the payload lasts from one access to the next |
| `Masks.MaskAgreesIffPow2` | src/utils/ring_buffer.rs:19-74 | `i & (N - 1)` equals `i % N` for all `i` iff `N` is a power of two |
| `Masks.EvenIsNotEnough` | src/utils/ring_buffer.rs:19 | an even size that passes the constructor's test and for which writer and reader use different slots |
| `Masks.DistinctSlots` | src/utils/ring_buffer.rs:38-49 | tickets less than `N` apart use different slots |
| `RingBuffers.RingBuffer.constructor` | src/utils/ring_buffer.rs:18-26 | an empty buffer |
| `RingBuffers.RingBuffer.Push` | src/utils/ring_buffer.rs:29-53 | fails iff the queue holds `N` values, giving the value back and changing nothing; otherwise appends it, however often the weak compare-exchange fails |
| `RingBuffers.RingBuffer.StoreAtHead` | src/utils/ring_buffer.rs:38-49 | claiming and writing a slot appends to the queue and overwrites nothing in it |
| `RingBuffers.RingBuffer.TryPush` | src/utils/ring_buffer.rs:79-102 | the same with one attempt, which a spurious failure also makes fail |
| `RingBuffers.RingBuffer.Pop` | src/utils/ring_buffer.rs:55-77 | None iff the queue is empty, otherwise its first value, read through the mask; one copy of it is thrown away for each time the weak compare-exchange fails |
| `RingBuffers.RingBuffer.TryPop` | src/utils/ring_buffer.rs:104-124 | through the remainder, with one attempt: None iff the queue is empty or the exchange fails spuriously, which throws a copy away |
| `RingBuffers.RingBuffer.TakeFirst` | src/utils/ring_buffer.rs:65-71 | winning the tail removes the first value |
| `RingBuffers.RingBuffer.Drop` | src/utils/ring_buffer.rs:127-138 | releases exactly the values pushed and not popped, each once, oldest first |
| `SharedRings.StepKeepsSafe` | src/utils/ring_buffer.rs:29-124 | every access, by any number of producers and consumers, with any spurious failures, keeps the indices and all stale copies of them consistent (fewer than 2^64 pushes) |
| `SharedRings.IndicesNeverCross` | src/utils/ring_buffer.rs:30-47 | in every run `tail <= head <= tail + N`, the stale subtraction never underflows, each ticket goes to one push and to one pop |
| `SharedRings.NoneMeansEmpty` | src/utils/ring_buffer.rs:56-61 | a pop that returns None from its comparison saw an empty buffer at its load of `head`, and only then |
| `SharedRings.StepKeepsFifo` | src/utils/ring_buffer.rs:29-124 | with one consumer and published reads, every access keeps each written unconsumed ticket's value in its slot |
| `SharedRings.RefinesBoundedQueue` | src/utils/ring_buffer.rs:29-124 | such runs refine an atomic bounded queue: winning `head` appends to a queue that is not full, winning `tail` removes and returns the first value, nothing else touches it |
| `SharedRings.PoppedInClaimOrder` | src/utils/ring_buffer.rs:55-77 | what pops return is the beginning of what pushes claimed, ticket by ticket, and every written ticket in the buffer finds its value at its index modulo `N` |
| `SharedRings.WritesNeverCollide` | src/utils/ring_buffer.rs:38-49 | an in-flight write lands in the live range and on no other ticket's slot |
| `SharedRings.ReadIsRightIffPublished` | src/utils/ring_buffer.rs:63-74 | the next read obtains its own ticket's value iff that ticket's producer has written it |
| `SharedRings.DiscardsIffSpurious` | src/utils/ring_buffer.rs:63-74 | in such runs a pop throws a copy away iff its exchange fails spuriously, and the copy is of the value at the front of the queue, which stays there |
| `SharedRings.NothingIsDiscarded` | src/utils/ring_buffer.rs:55-124 | without such failures every value leaves the buffer by being returned once |
| `SharedRings.SharedRing.constructor` | src/utils/ring_buffer.rs:18-26 | an empty shared buffer |
| `SharedRings.SharedRing.Push` | src/utils/ring_buffer.rs:29-102 | the accesses of `push` and `try_push` on the array, keeping the indices safe; refused iff a whole buffer lies between the copy of the tail and the head, or a single attempt finds the head moved or fails spuriously (fewer than 2^64 pushes) |
| `SharedRings.SharedRing.Pop` | src/utils/ring_buffer.rs:55-124 | the accesses of `pop` (mask) and `try_pop` (remainder), with weak compare-exchanges, keeping the indices safe |
| `RingLimits.PopReturnsUnwrittenSlot` | src/utils/ring_buffer.rs:38-74 | a run in which a pop overtakes the push and returns a slot that nobody has written |
| `RingLimits.ValueThrownAwayAndReturned` | src/utils/ring_buffer.rs:63-74 | a run in which one value is thrown away by a failed exchange and then returned |
| `RingCalls.PushRefusedIff` | src/utils/ring_buffer.rs:29-102 | in every bounded run a push is refused at its load of `head` iff a whole buffer lies between its copy of `tail` and `head`, which with a current copy means iff the queue is full; at its exchange `try_push` is refused iff the head has moved or the failure is spurious, and `push` starts over |
| `RingCalls.PushAloneRefusedIffFull` | src/utils/ring_buffer.rs:29-37 | an undisturbed push is refused, at its second access, iff the buffer is full |
| `RingCalls.PushAloneAppends` | src/utils/ring_buffer.rs:29-53 | and otherwise has appended its value after four |
| `RingCalls.PopTakesIff` | src/utils/ring_buffer.rs:65-75 | a pop wins its exchange iff the tail has not moved and it does not fail spuriously; otherwise `try_pop` returns None and `pop` goes on with the tail it was told |
| `RingCalls.PopAloneNothingIffEmpty` | src/utils/ring_buffer.rs:55-62 | an undisturbed pop finds nothing, at its second access, iff the buffer is empty |
| `RingCalls.PopAloneRemoves` | src/utils/ring_buffer.rs:55-77 | and otherwise has removed the first value after four |
| `Ledgers.GiveConserves` | src/channel.rs:43-44 | a new message enters the books in one place only |
| `Ledgers.AcceptConserves` | src/channel.rs:50-61 | accepting a message moves it and no other |
| `Ledgers.AcceptKeepsOrder` | src/channel.rs:50-61 | a thread's accepted messages stay in the order in which it gave them |
| `Ledgers.RefuseConserves` | src/channel.rs:46-48 | handing a message back moves it and no other |
| `Channels.StepKeepsInv` | src/channel.rs:43-172 | every access of every call keeps the channel's invariant: calls and ring buffer in step, one receiver, counted senders, delivery, disconnection, notification, balanced books |
| `Channels.RingNeverBlocks` | src/channel.rs:50-156 | a call inside the ring buffer can always make its next access there |
| `Channels.DisconnectIsFinal` | src/channel.rs:123-131 | after a `recv` has returned Disconnected there is never again a sender or a send in progress and nothing more is accepted (fewer than 2^63 - 1 failed clones); if besides no `recv`'s last exchange failed, the buffer stays empty and there was one receive for each message ever accepted (fewer than 2^64 pushes) |
| `Channels.DisconnectReturnedEverything` | src/channel.rs:123-131 | under the same conditions, with published reads, those receives returned exactly the accepted messages, in order |
| `Channels.DisconnectWrongIffExchangeFailed` | src/utils/ring_buffer.rs:113-123 | a `recv` that returns Disconnected leaves a message behind iff it had read one and its exchange failed, which takes a spurious failure |
| `Channels.TryRecvMissesIff` | src/channel.rs:153-165 | a `try_recv` that found nothing answers with a message in the buffer iff one was accepted after its look, or its exchange failed spuriously |
| `Channels.TryRecvRightWithoutSenders` | src/channel.rs:153-165 | if no sender was left when the call began, the buffer is empty when it answers, unless its exchange failed spuriously |
| `Channels.TryRecvAnswers` | src/channel.rs:155-161 | its last access answers Disconnected iff it reads a count of 0, and then no sender is left |
| `Channels.EveryMessageInOnePlace` | src/channel.rs:43-165 | at every moment a message is in exactly one place if it was given to `send` or `try_send`, else in none: held by one call, in the buffer, popped once, or handed back |
| `Channels.NoCopyIsDiscarded` | src/utils/ring_buffer.rs:55-124 | if no exchange of a pop fails spuriously, no receive drops a copy of a message |
| `Channels.ReceivedInAcceptOrder` | src/channel.rs:123-165 | receives return the accepted messages in order and without gaps, except for one that a `recv` may be about to return |
| `Channels.SenderOrder` | src/channel.rs:43-85 | messages of one thread are received in the order in which it sent them |
| `Channels.RealTimeOrder` | src/channel.rs:43-85 | a message whose send began after another one was accepted is received after it, whichever threads and senders were used |
| `Channels.SendFailsIffReceiverGone` | src/channel.rs:46-48 | the check at the start of a call and of every round of `send` hands the message back iff the receiver was dropped |
| `Channels.AnswersAreTrue` | src/channel.rs:43-165 | an error comes with the call's own message and only for its reason, BufferFull only from a push that failed for one of its reasons; a received slot is the next one recorded; Disconnected and BufferEmpty follow the sender count |
| `Channels.SleepingReceiverIsNotified` | src/channel.rs:50-61 | while the receiver sleeps, any message accepted since it stored `receiver_state` 2 has a sender that is still to look at that word, or about to wake it: the compare-exchange that gates the wake loses nobody |
| `Channels.SleepsOnMessageIff` | src/channel.rs:144-147 | when a `recv` sleeps and all other calls have returned, the buffer holds a message iff it held one when that `recv` stored 2 |
| `ChannelLimits.ReceiverSleepsOnAMessage` | src/channel.rs:132-147 | a run in which it did: a message is sent between the receiver's look into the buffer and that store |
| `ChannelLimits.TryRecvMissesAMessage` | src/channel.rs:153-165 | a run in which `try_recv` returns Disconnected with a message in the buffer, because it reads `senders_count` after popping |
| `ChannelLimits.RecvMissesAMessage` | src/utils/ring_buffer.rs:113-123 | a run in which `recv` does, because its last exchange fails spuriously |
| `Channels.StepKeepsCounted` | src/channel.rs:87-115 | `senders_count` is the number of live senders plus failed clones, and once `recv` has read 0 there is no sender |
| `Channels.Channel.constructor` | src/channel.rs:17-35 | a new channel with one sender and an empty buffer |
| `Channels.Channel.Send` | src/channel.rs:43-85 | the accesses of `send` and `try_send`, keeping the invariant; the result is Ok after acceptance, or an error with the call's own message, which was refused, for its reason |
| `Channels.Channel.Recv` | src/channel.rs:123-151 | the accesses of `recv`, keeping the invariant; the result is the next message recorded, or Disconnected |
| `Channels.Channel.TryRecv` | src/channel.rs:153-165 | the accesses of `try_recv`, keeping the invariant; the result is the next message recorded, Disconnected on a count of 0, or BufferEmpty |
| `Channels.Channel.CloneSender` | src/channel.rs:105-115 | counts the new sender, or panics iff there were too many, leaving the count raised |
| `Channels.Channel.DropSender` | src/channel.rs:98-103 | uncounts a sender |
| `Channels.Channel.DropReceiver` | src/channel.rs:168-172 | marks the receiver gone |
| `ChannelCalls.RingRun` | src/channel.rs:43-165 | what a run of the channel does to its buffer is a run of the shared ring buffer, ending with the same accesses, so all laws of the buffer carry over |
| `ChannelCalls.SendAloneRefusedIffFull` | src/channel.rs:43-85 | an undisturbed send knows after three accesses whether the buffer is full: `try_send` then answers BufferFull with its message and `send` prepares to sleep, and neither does otherwise |
| `ChannelCalls.SendAloneAppends` | src/channel.rs:43-85 | unless it is full, the message is last in the buffer after five |
| `ChannelCalls.SendStartsOver` | src/channel.rs:45-49 | a new round of `send` to a receiver that is there goes back into the buffer with the same message |
| `ChannelCalls.SendNotifiesIff` | src/channel.rs:50-58 | a send with its message in the buffer is done iff the receiver is not declared asleep; else it declares it awake and wakes it, changing no other thread |
| `ChannelCalls.RetryLoads` | src/channel.rs:59-63 | a refused `send` waits with the value of `sender_wait_num` it loads then |
| `ChannelCalls.SenderSleepsIff` | src/channel.rs:59-64 | it falls asleep iff the number of messages `recv` has taken since that load is a multiple of 2^32, and otherwise tries again |
| `ChannelCalls.RecvGivesUpIff` | src/channel.rs:126-131 | `recv` starts its last attempt iff no sender and no panicked clone is counted |
| `ChannelCalls.RecvSleepsIff` | src/channel.rs:144-148 | with the buffer empty it declares itself asleep, and falls asleep iff nobody has declared it awake since |
| `ChannelCalls.RecvWakesOne` | src/channel.rs:133-142 | with a message in hand it wakes exactly one sleeping sender, if there is one, and returns that message |
| `ChannelCalls.RecvAloneSleeps` | src/channel.rs:123-150 | an undisturbed `recv` beside a sender is asleep after five accesses if the buffer is empty |
| `ChannelCalls.RecvAloneTakes` | src/channel.rs:123-143 | and otherwise takes the first message and returns it with the seventh |
| `ChannelCalls.RecvAloneDisconnects` | src/channel.rs:125-131 | without senders it answers Disconnected after three iff the buffer is empty, and otherwise returns the first message |
| `ChannelCalls.TryRecvAlone` | src/channel.rs:153-165 | an undisturbed `try_recv` returns the first message, and goes on to look for senders iff there is none |
| `ChannelCalls.SpuriousWakeResumes` | src/channel.rs:59-64 | a sleeper the futex lets go for no reason starts over, like one that was woken |
| `ChannelCalls.SendersAreCounted` | src/channel.rs:87-115 | in all runs `senders_count` is the number of live senders and panicked clones, modulo 2^64 |
| `ChannelCalls.ClonePanicsIff` | src/channel.rs:105-115 | cloning a sender panics iff that number is above MAX_SENDER_COUNT, and otherwise makes the new sender |
| `ChannelCalls.DropsRemove` | src/channel.rs:98-172 | dropping a sender or the receiver removes it and touches nothing else |
| `MutexV2.StepKeepsInv` | src/mutex_v2.rs:29-155 | every access of every call on any of the mutexes keeps exclusion, the id sets and the wakeup invariant |
| `MutexV2.MutualExclusion` | src/mutex_v2.rs:38-93 | per mutex at most one thread owns it, and the word is nonzero iff one does |
| `MutexV2.NoLostWakeup` | src/mutex_v2.rs:40-68 | behind every sleeper there is LOCKED_HAS_WAITERS, an unlocker about to wake, or an awake thread in the slow loop of that mutex |
| `MutexV2.SleepersHaveAnOwner` | src/mutex_v2.rs:146-155 | if nobody is awake or about to wake, a sleeper's mutex has an owner, and its unlock leads to `wake_one` |
| `MutexV2.IdInSetIffHeld` | src/mutex_v2.rs:113-129 | the id of a mutex is in a thread's set iff the thread holds that mutex's guard, and the sets hold no other ids (at most 2^64 mutexes) |
| `MutexV2.RefusedIffHeld` | src/mutex_v2.rs:113-129 | `lock` and `try_lock` return WouldBlock at once iff the calling thread holds that very mutex, changing nothing else (at most 2^64 mutexes) |
| `MutexV2.IdsDistinctIffNoWrap` | src/mutex_v2.rs:29-36 | ids are pairwise distinct iff at most 2^64 mutexes were created |
| `MutexV2.Mutexes.NewMutex` | src/mutex_v2.rs:29-36 | adds a free mutex with the next id |
| `MutexV2.Mutexes.Lock` | src/mutex_v2.rs:38-76 | the accesses of `lock`: check, fast path, spin and slow path, keeping the invariant; a result with a guard says whether the mutex is poisoned and makes the caller its owner, WouldBlock means that it was already |
| `MutexV2.Mutexes.TryLock` | src/mutex_v2.rs:78-94 | the accesses of `try_lock`, likewise; WouldBlock changes nothing and comes only to a holder, or with an owner at the exchange or a spurious failure of it |
| `MutexV2.Mutexes.DropGuard` | src/mutex_v2.rs:146-155 | the accesses of dropping a guard, keeping the invariant; the mutex is poisoned afterwards iff it was before or the drop starts in a panicking thread |
| `MutexV2Calls.PoisonedIffPanicked` | src/mutex_v2.rs:96-150 | from the moves alone: a mutex is poisoned iff a guard of it was dropped in a panicking thread and no `clear_poison` of it came after |
| `MutexV2Calls.MarkedIffTakenSlowly` | src/mutex_v2.rs:55-68 | from the moves alone: the word is LOCKED_HAS_WAITERS iff the exchange of the slow loop took it and no swap came after |
| `MutexV2Calls.TryLockRefusedIff` | src/mutex_v2.rs:78-94 | past the check of its own guards `try_lock` answers WouldBlock iff the mutex has an owner or the exchange failed spuriously |
| `MutexV2Calls.LockTakesIff` | src/mutex_v2.rs:40-67 | each exchange of `lock` takes the mutex iff nobody owns it, unless the first, weak one fails spuriously; which wait follows a failure |
| `MutexV2Calls.LockAlone` | src/mutex_v2.rs:38-77 | an undisturbed `lock` of a free mutex returns with the guard after three accesses, in a poison error iff it is poisoned |
| `MutexV2Calls.TryLockAlone` | src/mutex_v2.rs:78-94 | so does `try_lock` |
| `MutexV2Calls.SpinEndsIff` | src/mutex_v2.rs:45-49 | spinning stops iff the mutex is seen free or the limit is reached |
| `MutexV2Calls.LockAloneSleepsIff` | src/mutex_v2.rs:38-67 | an undisturbed `lock` of a mutex another thread owns is, 106 accesses later, asleep iff the word says LOCKED_HAS_WAITERS, and otherwise at the head of its slow loop |
| `MutexV2Calls.DropFrees` | src/mutex_v2.rs:152-154 | the swap frees the mutex, and is followed by a wake iff it found LOCKED_HAS_WAITERS |
| `MutexV2Calls.DropWakesOne` | src/mutex_v2.rs:152-154 | that wakes exactly one of the threads asleep on this mutex, if there are any, and changes nobody else |
| `MutexV2Calls.SpuriousWakeTriesAgain` | src/mutex_v2.rs:55-66 | a thread the futex lets go for no reason is back at the head of its slow loop |
| `MutexV1.StepKeepsInv` | src/mutex_v1.rs:30-177 | every access of every call keeps exclusion, the queue's exclusion and the wakeup count |
| `MutexV1.MutualExclusion` | src/mutex_v1.rs:30-89 | the word is the id of the only thread with a guard, or 0 if there is none |
| `MutexV1.RefusedIffHeld` | src/mutex_v1.rs:30-35 | `lock` and `try_lock` return WouldBlock at once iff the caller holds the guard |
| `MutexV1.WordChangesHands` | src/mutex_v1.rs:170-177 | the word only goes from free to the taker or from the holder to free |
| `MutexV1.PoisonIsGuarded` | src/mutex_v1.rs:170-174 | only the one holder of the guard, when it drops it panicking, and `clear_poison` change the non-atomic poison flag |
| `MutexV1.OneWakeupPerParkedThread` | src/mutex_v1.rs:107-153 | queue entries plus dequeuers about to unpark it plus its token make exactly one wakeup for a thread between `push_back` and the return of `park`, none otherwise; each spurious return or foreign unpark adds at most one |
| `MutexV1.StaysParkedIffQueued` | src/mutex_v1.rs:107-153 | when all calls have returned or parked, an undisturbed thread cannot go on iff it is in the queue |
| `MutexV1.SpuriousReturnBreaksTheLaw` | src/mutex_v1.rs:107-126 | from any such parked thread, a spurious return of `park` leaves one wakeup for a thread that is not parking |
| `MutexV1Limits.SpuriousReturnHappens` | src/mutex_v1.rs:107-126 | a run that parks an undisturbed thread and then does so |
| `MutexV1Limits.ParksBesideAFreeMutex` | src/mutex_v1.rs:56-62 | a run that ends with a parked thread beside a free mutex and nobody else in a call |
| `MutexV1.QueueIsFifo` | src/mutex_v1.rs:107-153 | the queue is accessed by one thread at a time and threads leave it in the order they entered |
| `MutexV1.Mutex.Lock` | src/mutex_v1.rs:30-69 | the accesses of `lock`, keeping the invariant; a guard is handed out only to a free mutex and says whether it is poisoned, WouldBlock only to the holder |
| `MutexV1.Mutex.EnqueueThread` | src/mutex_v1.rs:107-126 | the accesses of `enqueue_thread`, keeping the invariant |
| `MutexV1.Mutex.TryLock` | src/mutex_v1.rs:71-89 | the accesses of `try_lock`, likewise; WouldBlock means that somebody holds the mutex |
| `MutexV1.Mutex.DropGuard` | src/mutex_v1.rs:170-177 | poisons the mutex if panicking and frees it, keeping the invariant |
| `MutexV1.Mutex.DequeueThread` | src/mutex_v1.rs:128-153 | the accesses of `dequeue_thread`, keeping the invariant |
| `MutexV1.Mutex.ClearPoison` | src/mutex_v1.rs:94-96 | clears the poison flag |
| `MutexV1Calls.PoisonedIffPanicked` | src/mutex_v1.rs:91-174 | from the moves alone: the mutex is poisoned iff its guard was dropped in a panicking thread and no `clear_poison` came after |
| `MutexV1Calls.TryLockRefusedIff` | src/mutex_v1.rs:77-89 | `try_lock` by a thread without the guard answers WouldBlock iff some thread has it |
| `MutexV1Calls.LockTakesIff` | src/mutex_v1.rs:41-54 | the exchange of `lock` gets the guard iff nobody has it and it does not fail spuriously |
| `MutexV1Calls.LockAlone` | src/mutex_v1.rs:30-69 | an undisturbed `lock` of a free mutex returns with the guard after three accesses, telling whether it is poisoned |
| `MutexV1Calls.LockAloneParks` | src/mutex_v1.rs:36-126 | an undisturbed `lock` of a mutex another thread has is last in the queue and parked after 105 accesses |
| `MutexV1Calls.SpinEndsIff` | src/mutex_v1.rs:37-61 | a spinning thread tries for the mutex iff it sees it free, and goes to the queue after 100 looks |
| `MutexV1Calls.QueueEnteredIff` | src/mutex_v1.rs:107-136 | the exchange on the queue's flag succeeds iff no thread is in the section and it does not fail spuriously |
| `MutexV1Calls.QueueAwaited` | src/mutex_v1.rs:107-136 | the flag is loaded until it is free, and again after a failed exchange |
| `MutexV1Calls.DropUnparksFirst` | src/mutex_v1.rs:128-177 | a drop frees the mutex; in the section it takes out the first thread iff the queue is not empty, gives the queue back, and sets exactly that thread's token |
| `MutexV1Calls.DropAloneUnparks` | src/mutex_v1.rs:128-177 | an undisturbed drop beside a non-empty queue is done after seven accesses, with the mutex free and the first thread unparked |
| `MutexV1Calls.DropAloneEmpty` | src/mutex_v1.rs:128-177 | with nobody queued it is done after five and unparks nobody |
| `MutexV1Calls.ParkEnds` | src/mutex_v1.rs:118-121 | when `park` returns, with or without a token, the thread spins anew |
| `Semaphores.StepKeepsInv` | src/semaphore.rs:18-64 | every access keeps the counters exact and sleepers backed by somebody awake or signalling |
| `Semaphores.NoLostWakeup` | src/semaphore.rs:18-35 | if any thread sleeps, `count` is at most the awake waiters in the loop plus the signalers before their wake |
| `Semaphores.SleepersMeanNoPermits` | src/semaphore.rs:59-64 | once all others are outside, a sleeper proves that `count` is 0, although `signal` skips its wake when it reads `num_waiting == 0` |
| `Semaphores.Accounting` | src/semaphore.rs:18-64 | `num_waiting` is exactly the threads between increment and decrement; `count` is initial plus signals minus acquisitions iff that fits 32 bits |
| `Semaphores.AtMostInitialInside` | src/semaphore.rs:18-64 | if signals only give back, at most the initial number of permits is ever out and the rest is in `count` |
| `Semaphores.Semaphore.constructor` | src/semaphore.rs:11-16 | a new semaphore |
| `Semaphores.Semaphore.Wait` | src/semaphore.rs:18-35 | the accesses of `wait`, keeping the invariant |
| `Semaphores.Semaphore.TryWait` | src/semaphore.rs:37-46 | the accesses of `try_wait`; true iff it took a permit |
| `Semaphores.Semaphore.Signal` | src/semaphore.rs:59-64 | the accesses of `signal`, keeping the invariant |
| `SemaphoreCalls.HistoryCountsMoves` | src/semaphore.rs:18-64 | the numbers of signals and acquisitions in `Semaphores.Accounting` are the numbers of such moves in the run |
| `SemaphoreCalls.TryWaitFailsIff` | src/semaphore.rs:37-46 | `try_wait` returns false iff there was no permit when it looked, or the count changed before its exchange, or that failed spuriously |
| `SemaphoreCalls.WaitAlone` | src/semaphore.rs:18-33 | an undisturbed `wait` takes a permit if there is one, and otherwise falls asleep |
| `SemaphoreCalls.WaitTakesIff` | src/semaphore.rs:25-33 | the exchange of `wait` takes a permit iff the count is what it loaded and it does not fail spuriously |
| `SemaphoreCalls.WaitReturns` | src/semaphore.rs:28-32 | having taken it, `wait` returns and is no longer counted |
| `SemaphoreCalls.SignalAlone` | src/semaphore.rs:59-64 | `signal` adds a permit and is then done iff nobody is inside `wait` |
| `SemaphoreCalls.SignalWakesOne` | src/semaphore.rs:61-63 | otherwise it wakes exactly one sleeper, if there is one, and changes nobody else |
| `SemaphoreCalls.SpuriousWakeLooksAgain` | src/semaphore.rs:20-24 | a thread the futex lets go for no reason looks for a permit again |
| `Condvars.StepKeepsInv` | src/condvar.rs:19-42 | every access keeps the invariant relating snapshots, the counter, `waiting` and sleepers, however many notifications there are |
| `Condvars.NotifyAllLeavesNoStaleSleeper` | src/condvar.rs:37-42 | from the return of a `notify_all` on, every sleeper fell asleep after its increment, even if it read `waiting == 0`; one whose snapshot is older fell asleep a positive multiple of 2^32 notifications after it |
| `Condvars.SleepsIffMultiple` | src/condvar.rs:23-27 | at its futex wait a thread falls asleep iff the number of notifications since its snapshot is a multiple of 2^32 |
| `Condvars.MissesItsWakeupIff` | src/condvar.rs:23-27 | it falls asleep although notified iff that number is a positive multiple |
| `Condvars.WaitersNeverMissThePredicate` | src/condvar.rs:19-42 | once the predicate was set under the mutex and a later `notify_all` has returned, nobody who saw it false is asleep, unless 2^32 notifications came between its snapshot and its falling asleep |
| `Condvars.WrapAroundLosesTheWakeup` | src/condvar.rs:19-42 | a run in which exactly 2^32 completed `notify_all`s let a stale waiter fall asleep |
| `Condvars.MutexProjects` | src/mutex_v1.rs:30-177 | every access of the first mutex's code does to its word what `Lock` or `Unlock` of this model does, or nothing |
| `Condvars.MutexRunsProject` | src/mutex_v1.rs:30-177 | every run of that code has a run of `Lock` and `Unlock` here that ends with the same word |
| `Condvars.CondVar.Wait` | src/condvar.rs:19-30 | the accesses of `wait` up to relocking, with the unlock as one access on the mutex's word, keeping the invariant |
| `Condvars.CondVar.NotifyOne` | src/condvar.rs:32-35 | the accesses of `notify_one`, keeping the invariant; the last one wakes exactly one sleeper, if there is one, and changes no other thread but its own |
| `Condvars.CondVar.NotifyAll` | src/condvar.rs:37-42 | the accesses of `notify_all`, keeping the invariant |
| `CondvarCalls.CounterCountsNotifications` | src/condvar.rs:32-38 | the counter is the number of increments by `notify_one` and `notify_all` in the run, modulo 2^32 |
| `CondvarCalls.NotifyOneWakesOne` | src/condvar.rs:32-35 | the last access of `notify_one` wakes exactly one sleeper, if there is one, so that there is one fewer, and changes no other thread but its own |
| `CondvarCalls.NotifyOneAlone` | src/condvar.rs:32-35 | so an undisturbed `notify_one` leaves one sleeper fewer, if there was one |
| `CondvarCalls.NotifyAllSkipsIff` | src/condvar.rs:37-42 | `notify_all` is done without a wake iff no thread is between the two updates of `waiting` |
| `CondvarCalls.NotifyAllWakesAll` | src/condvar.rs:37-42 | otherwise its last access wakes all sleepers and changes nobody else |
| `CondvarCalls.NotifyAllAlone` | src/condvar.rs:37-42 | an undisturbed `notify_all` beside a counted waiter leaves no sleeper |
| `CondvarCalls.WaitAlone` | src/condvar.rs:19-27 | an undisturbed `wait` is counted, gives the mutex back and falls asleep |
| `CondvarCalls.WaitReturns` | src/condvar.rs:28-29 | a woken `wait` stops being counted and returns with the mutex as soon as that is free |
| `CondvarCalls.WaitGoesOn` | src/condvar.rs:23-29 | the accesses of `wait` come in their order, and a thread let go for no reason leaves like any other |
| `CondvarCalls.SleepsIffMultipleOfNotifications` | src/condvar.rs:23-27 | from the moves alone: a thread falls asleep iff the number of notifications of either kind since it loaded the counter is a multiple of 2^32, so not on one that any notification has overtaken, short of 2^32 of them |
| `RwLocks.StepKeepsInv` | src/rwlock.rs:38-263 | every access of every call keeps the encoding and one guard per thread |
| `RwLocks.WordCountsGuards` | src/rwlock.rs:38-163 | the word is `u32::MAX` iff there is one write guard and no read guard; otherwise half of it is the number of read guards (fewer than 2^31 threads) |
| `RwLocks.WriterExcludesAll` | src/rwlock.rs:73-136 | while a thread has a write guard no other thread has a guard |
| `RwLocks.RefusedIffHeld` | src/rwlock.rs:180-197 | holding any guard makes all four calls return WouldBlock at once; `read` and `write` refuse nobody else |
| `RwLocks.AdditionsAreExact` | src/rwlock.rs:46-66 | no `+ 1` or `+ 2` wraps or reaches `u32::MAX`, so TooManyReaders is never returned |
| `RwLocks.PoisonIsGuarded` | src/rwlock.rs:214-218 | while a thread holds a guard, no other thread but one calling `clear_poison` changes the non-atomic poison flag |
| `RwLockLimits.TooManyThreadsBreakIt` | src/rwlock.rs:88-104 | with 2^31 threads, all but one reading, a waiting writer turns the word into the write-lock value; the bound is sharp |
| `RwLocks.FlagStays` | src/rwlock.rs:214-228 | a set low bit survives every access until the word becomes the write lock, and the word never grows |
| `RwLocks.WritersGoFirst` | src/rwlock.rs:77-104 | over whole runs, once the low bit is set the number of readers never grows until a writer gets the lock |
| `RwLocks.WhoGetsStuck` | src/rwlock.rs:46-114 | in any run, a move takes a thread into a branch that never reloads iff it is an access of its own `read` or `write` that copies the write-lock value, or an odd value, at the first look or in a failed compare-exchange |
| `RwLocks.StuckForever` | src/rwlock.rs:77-114 | a call in such a branch never returns, whatever the others do |
| `RwLockLimits.ReadStuckInExchange` | src/rwlock.rs:52-70 | a run in which a `read` that found the lock free gets stuck because a writer wins first |
| `RwLockLimits.WriteStuckInExchange` | src/rwlock.rs:91-108 | a run in which a `write` that set the low bit itself wakes early and gets stuck |
| `RwLocks.RwLock.Read` | src/rwlock.rs:38-71 | the accesses of `read`, keeping the invariant; its result is a read guard with the poison flag, or WouldBlock for a holder |
| `RwLocks.RwLock.TryRead` | src/rwlock.rs:139-163 | the accesses of `try_read`, likewise; WouldBlock changes neither word nor guards, and comes only to a holder, or with a write guard out or the low bit set at the load, or with the word changed at the exchange |
| `RwLocks.RwLock.Write` | src/rwlock.rs:73-116 | the accesses of `write` with its waiting-writer guard, keeping the invariant; its result is the write guard with the poison flag, or WouldBlock for a holder |
| `RwLocks.RwLock.TryWrite` | src/rwlock.rs:118-136 | the accesses of `try_write`, likewise; WouldBlock changes neither word nor guards, and comes only to a holder, or with any guard out at the load, or with the word changed at the exchange |
| `RwLocks.RwLock.DropReadGuard` | src/rwlock.rs:256-263 | the accesses of dropping a read guard, keeping the invariant |
| `RwLocks.RwLock.DropWriteGuard` | src/rwlock.rs:214-228 | the accesses of dropping a write guard, which poisons the lock if panicking, keeping the invariant |
| `RwLocks.RwLock.ClearPoison` | src/rwlock.rs:176-178 | clears the poison flag |
| `RwLockCalls.PoisonedIffPanicked` | src/rwlock.rs:173-218 | from the moves alone: the lock is poisoned iff a write guard was dropped in a panicking thread and no `clear_poison` came after |
| `RwLockCalls.LowBitIffWriter` | src/rwlock.rs:73-228 | from the moves alone: the low bit is set iff some writer has set it or got the lock and no write guard has ended since |
| `RwLockCalls.TryReadRefusedIff` | src/rwlock.rs:139-163 | `try_read` is refused at its load iff the caller holds a guard, a write guard is out or the low bit is set, and at its exchange iff the word has changed |
| `RwLockCalls.TryWriteRefusedIff` | src/rwlock.rs:118-137 | `try_write` is refused at its load iff any guard is out, and at its exchange iff the word has changed |
| `RwLockCalls.ReadWaitsIff` | src/rwlock.rs:38-71 | `read` waits for the write lock iff a write guard is out, for the low bit iff only that is set, and otherwise gets a guard iff the word does not change; it falls asleep iff the word still is what it waits on |
| `RwLockCalls.WriteWaitsIff` | src/rwlock.rs:73-116 | `write` goes for the lock iff no guard is out and gets it iff the word does not change; otherwise it makes sure of the low bit, is counted and waits |
| `RwLockCalls.ReadAlone` | src/rwlock.rs:38-71 | an undisturbed `read` with the low bit clear, even beside readers, returns with a guard after three accesses |
| `RwLockCalls.TryReadAlone` | src/rwlock.rs:139-163 | so does `try_read` |
| `RwLockCalls.WriteAlone` | src/rwlock.rs:73-136 | an undisturbed `write` or `try_write` does so while no guard is out |
| `RwLockCalls.WaitingWritersIsExact` | src/rwlock.rs:274-289 | `waiting_writers` is the number of threads between its increment and decrement |
| `RwLockCalls.DropReadStarts` | src/rwlock.rs:256-258 | dropping a read guard first lets its thread lock again |
| `RwLockCalls.DropReadWakesIff` | src/rwlock.rs:259-261 | giving a read guard back is followed by a wake iff it was the last one and the low bit is set |
| `RwLockCalls.DropWriteWakesIff` | src/rwlock.rs:214-227 | giving the write guard back bumps the counter, frees the word, and wakes a writer iff one is counted as waiting, else all readers |
| `RwLockCalls.DropsWake` | src/rwlock.rs:222-261 | waking a writer wakes exactly one, if one sleeps, waking the readers all of them, and neither changes anybody else |
| `RwLockCalls.SpuriousWakeResumes` | src/rwlock.rs:50-114 | a sleeper the futex lets go for no reason goes on like one that was woken |
| `RwLockCalls.WriterSleepsIff` | src/rwlock.rs:110-113 | from the moves alone: a writer falls asleep iff the number of write guards given back since it loaded `writers_number` is a multiple of 2^32 |

## Left out

- Weak memory: all accesses are sequentially consistent; the Acquire, Release and Relaxed annotations are not modelled.
- What several consumers get from the shared ring buffer: the slot is read before the exchange, so a value can be copied twice. Index safety covers several consumers, statements on values one.
- A concurrent push that returns Err need not have seen a full buffer, because its copy of the tail may be stale: what is claimed is when it is refused given that copy, and that with a current copy it is refused iff the buffer is full.
- Sizes that are not powers of two, beyond the statement that mask and remainder disagree for them.
- Runs with 2^64 pushes or more.
- Progress: no call of the first mutex, the reader-writer lock or the channel is claimed to return.
- `CondVar::wait` panics on relocking a poisoned mutex; the mutex under a condition variable is modelled without poisoning.
- `try_wait_duration`, which depends on a clock.
- `src/spinlock.rs`, whose argument is part of that for the first mutex.
- `Weak` handles that are not attached to an allocation, `Deref` on guards, `into_inner` and `get_mut` of the locks, comparison, printing and padding.
- Panics inside a payload's own `Drop`.
- Message values: the shared ring buffer and the channel carry numbers that stand for distinct messages.
