# MyNetworkLib core: a Dafny model

MyNetworkLib is a C++ server library over IOCP. This project models the four parts of it whose correctness does
not show in any one function, and proves what they promise for every input or for every state of every finite
run with any number of threads.

**Job serializers.** Any thread may push jobs to any serializer; an atomic counter, incremented before the enqueue
and decremented by whole batches, decides who executes them, and ownership may travel through the global worker
queue. Reserved jobs wait in a timer queue and can be cancelled. `JobModel` is the transition system: one
transition per atomic operation or locked region, and a thread is a real call stack, so that a running job may push,
enter `DoJobs` or check the timer again, to any depth. `JobOwnership`, `JobOrder`, `JobThreads`, `ReservedJobs`,
`TimerOrder` and `JobDrain` prove the invariants and what follows from them. `StackCount` counts frames over all call
stacks. `JobExamples` holds runs that show a late cancellation, a hand-off, a nested execution and a destroyed owner.

**Locks.** `RWLock` is the re-entrant spin lock at the grain of single loads, exchanges, additions and stores on the
packed flag, with the plain `_writeCount++` split into a read and a write. `LockQueue` runs on that lock, step by step,
and is shown to refine an atomic FIFO queue, including `Clear(popped)` with its nested `Pop`s; that queue is given by
what each operation promises, not by how it is done. `LockExamples` and `QueueExamples` hold runs that leave the safe use
of the lock, or share it.

**Packets.** `Framing` is the wire format and the receive loop. `SendBuffers` is the per-thread buffer that packets are
serialized into. `SendPath` is `Send`, `Flush`, `_send` and `_register_send` as a transition system that ends in
the log of WSASend calls, with a session that may be connected, disconnected and cleared at any time. `SendOrder` says
exactly when everything leaves in order and, with the receive loop, gives the end-to-end theorem. `SendExamples` holds
runs that reorder, lose or stop.

**Pools.** `PoolTable` is the size-class table and the constructor that fills it. `PoolAllocator` is concurrent allocation
and release over that table, with free lists, headers and 32-bit counters. `PoolRelease` follows a block through its
release, and `PoolExamples` is a run in which another thread takes it before the release is over.

Threads interleave sequentially consistently, as the default ordering of every `std::atomic` operation in the
library prescribes. State spaces are values and runs are sequences of states, because the claims are about all
interleavings; code that one thread runs on its own memory (`Memory`, `SendBuffer`, the receive and extraction loops)
is written as classes and methods that update in place. Histories (`enqueued`, `ran`, `tests`, `freed`, `inHand`,
`handed`, `picked`, `pushed`, `accepted`, `taken`, `locked`, `alive`, the number of a buffer, `created`, `bigMade`,
`bigReturned`, a block's `request`) are extra state that no step branches on. A block's `place` is a history too, except that it also carries one hypothesis: only live blocks are
released.

## What the code does differently from what it says

Each of these is proved, with its exact condition and, where it is a state of a run, with a run that gets there.

- The pool table is filled for allocation sizes 0 to 7712 only (0 to 3872 without `USE_BIG_MEMORY_BLOCK`), while
  `Allocate` looks up every size up to `MAX_ALLOC_SIZE` = 8192 (4096). `pos` carries over between sections and
  overshoots the section ends (`PoolTable.Memory.Big`, `PoolTable.Memory.Small`, `PoolAllocator.BuiltConfig`). An
  allocation goes through an entry that was never written if and only if its size is in that gap
  (`PoolAllocator.AllocationIsExclusive`, `PoolAllocator.UncoveredSizeGoesWild`).
- The repository's README.md:136 says that a reserved job can be cancelled as long as it has not been executed. In
  the code the flag is read once, when the timer pushes the job to its owner; a cancellation has an effect if and
  only if it comes before that test (`TimerOrder.CancelWorksIffBeforeTest`). A job that is cancelled while it waits in
  its owner's queue runs (`JobExamples.CanceledJobRuns`).
- `LockQueue::Clear(popped)` stops at the first null element and drops it; it takes everything if and only if there is
  none (`LockQueue.ClearTakesEverythingIff`).
- `WriteUnlock` tests the read count before the depth, so a thread that unlocks a nested write guard while it holds a
  read guard below it trips the assertion; that is the only way to trip it (`RWLock.WriteUnlockCrashesIff`,
  `LockExamples.InnerUnlockCrashes`).
- The lock keeps its invariant exactly as long as there are at most 65535 read holds and no thread nests more than 65535 write holds
  (`RWLock.KeptIffBounded`). A 65536th read hold carries into the upper half of the flag
  (`RWLock.TooManyReadersForgeAWriter`), and thread 1 then gets the write lock while another thread is reading
  (`LockExamples.ReadersLetAWriterIn`), or a rightful read unlock trips its assertion
  (`LockExamples.ReadUnlockCrashes`). Thread ids from 65536 on are not what the flag says
  (`RWLock.WriteFlagNamesItsThread`).
- A job that enters `DoJobs` executes a second serializer inside the first (`JobExamples.JobsCanNest`); if no job does,
  no thread ever nests executions (`JobThreads.NoNestedExecution`).
- A thread that asks for the write lock while it holds only read guards spins until the timeout
  (`RWLock.UpgradeNeverSucceeds`, `LockExamples.ReaderWaitsForWrite`).
- Packets leave in the order of `Send` if and only if no flush queues its list while another thread still has an
  earlier one in hand (`SendOrder.LockedInOrderIff`); two flushing threads can do that
  (`SendExamples.TwoFlushersCanReorder`), one cannot (`SendOrder.OneFlusherNeverOvertakes`).
- `_clear` empties the send queue without the send lock. Nothing is lost if and only if it always finds it empty
  (`SendPath.NothingLostIff`); otherwise later packets can leave without the earlier ones
  (`SendExamples.ClearCanLeaveAGap`).
- The early return of `_register_send` on a disconnected session leaves `_sending` set, and nothing is submitted ever
  after, even on a session that is connected later (`SendPath.WedgedSubmitsNothing`, `SendPath.WedgedIffLeftEarly`,
  `SendExamples.FlushedTooEarly`).
- The 16-bit size field is right if and only if the payload has at most 65531 bytes (`Framing.SizeFieldExact`).
  Beyond that, and with a popped buffer that is too full, because nothing resets `_usedSize`, serializing writes past
  the end of the buffer (`SendBuffers.OverrunsIff`). Three packets and a buffer that comes back from the pool are enough
  (`SendBuffers.RecycledBufferOverruns`).
- The receive loop returns if and only if the bytes are framed to the end; else it reads past them or spins
  (`Framing.OnRecv`, `Framing.BadInputs`). Bytes in whole packets, all of which it handles, are exactly those that some
  sender could have sent (`Framing.SentIffWhole`).

## Model

| member | source | states |
|---|---|---|
| `JobOwnership.StepInv` | MyNetworkLib/JobSerializer.cpp:3-74 | Every transition of the whole job system keeps: count = queued + announced + taken but not yet subtracted, one ownership token per serializer if and only if its count is positive, at most one batch in hand, and enqueued = ran ++ rest of batch ++ queue |
| `JobOwnership.Reachable` | MyNetworkLib/JobSerializer.cpp:3-74 | That invariant holds in every state of every run |
| `JobOwnership.AtMostOneExecutor` | MyNetworkLib/JobSerializer.cpp:3-47 | Two calls that execute jobs of one serializer are the same call of the same thread, whether started by a push, by `DoJobs`, by the timer or after a handoff, and also when nested in one thread |
| `JobOwnership.JobsRunInOrder` | MyNetworkLib/JobSerializer.cpp:10-23 | Executed jobs, then the rest of the batch in hand, then the queue, are exactly the jobs enqueued, in that order |
| `JobOwnership.CountPositiveIffOwned` | MyNetworkLib/JobSerializer.cpp:23-72 | Owning calls plus worker-queue entries of a serializer are 1 if its count is positive and 0 otherwise |
| `JobOwnership.CountZeroMeansAllRan` | MyNetworkLib/JobSerializer.cpp:23-30 | Count 0 means that everything enqueued has run, the queue is empty and no push stands between its counter step and its queue step |
| `JobOwnership.DestroyLosesNothing` | MyNetworkLib/JobSerializer.cpp:38-70 | A serializer without references in calls or in the worker queue has count 0 and nothing left to run |
| `JobOrder.Reachable` | MyNetworkLib/JobSerializer.cpp:49-74 | In every state of every run, the jobs of one thread on one serializer are enqueued in the order it pushed them, and no job is enqueued twice or on two serializers |
| `JobOrder.RunInProgramOrder` | MyNetworkLib/JobSerializer.cpp:49-57 | Jobs that one thread pushed to one serializer run in the order it pushed them |
| `JobOrder.NoJobRunsTwice` | MyNetworkLib/JobSerializer.cpp:10-19 | No job occurs in two places of the executed sequences, of one serializer or of two |
| `JobDrain.EverythingCanDrain` | MyNetworkLib/JobWorker.cpp:4-16 | From every state of every run with a thread, a finite schedule without new pushes, reservations or checks reaches a state in which all calls have returned, all counters and queues are empty and every enqueued job has run: no work is stranded |
| `JobThreads.NoNestedExecution` | MyNetworkLib/JobSerializer.cpp:59-72 | In every run in which no job enters `DoJobs`, no call stack holds two calls that execute serializers: a push from a running job leaves the other serializer to the worker queue |
| `JobThreads.CurrentIffExecuting` | MyNetworkLib/JobSerializer.cpp:5-46 | In the same runs, `TLS_CurrentJobSerializer` is k if and only if the thread has an execution of k under way |
| `JobThreads.PickedInOrder` | MyNetworkLib/JobWorker.h:50-107 | In every run, serializers are picked up from the worker queue in the order they were handed to it, each as often as it was |
| `JobThreads.ExecutorSlice` | MyNetworkLib/JobSerializer.cpp:32-43 | With more to do, an executor goes on with the same serializer if there is time, and otherwise hands it on and returns |
| `JobThreads.WorkerSlice` | MyNetworkLib/JobWorker.cpp:4-16 | A worker executes the front of the queue if there is time and something in it, and otherwise returns and takes nothing |
| `JobThreads.DestroyedStaysUntouched` | MyNetworkLib/ReservableJob.cpp:9-12 | In every run, nothing is counted, enqueued or executed on a serializer once it is destroyed |
| `JobExamples.PushFromJobHandsOff` | MyNetworkLib/JobSerializer.cpp:67-71 | A run in which a job pushes to an idle serializer, which ends up in the worker queue with nothing executed |
| `JobExamples.JobsCanNest` | MyNetworkLib/JobWorker.cpp:4-16 | A run in which that job enters `DoJobs` and two calls of one stack execute serializers |
| `ReservedJobs.ExtractDue` | MyNetworkLib/JobWorker.cpp:22-39 | The locked loop takes out exactly the waiting jobs with tick at most `nowTick`, each once, in nondecreasing tick order, and leaves exactly the others |
| `ReservedJobs.ExtractionExists` | MyNetworkLib/JobWorker.cpp:22-39 | For every timer queue and tick there is such an extraction, so the transition of the model is never blocked |
| `ReservedJobs.Reachable` | MyNetworkLib/JobWorker.cpp:18-48 | In every state of every run, at most one check is past the flag, extracted, tested and released jobs are disjoint from the waiting ones and free of duplicates, and reserved jobs enqueued or being pushed are exactly those let through, in the order of their tests |
| `JobThreads.LetThroughIff` | MyNetworkLib/ReservableJob.cpp:7-13 | In every run, a push test lets a job through if and only if, in the state of the test, the job is not cancelled and its owner is alive; then, and only then, a push to the owner begins |
| `JobExamples.DestroyedOwnerGetsNothing` | MyNetworkLib/ReservableJob.cpp:9-15 | A run in which the owner is destroyed before its reserved job is due, and the job is dropped |
| `TimerOrder.ReservedEnqueuedOnce` | MyNetworkLib/ReservableJob.cpp:3-16 | A reserved job is enqueued at most once in a whole run, on one serializer |
| `TimerOrder.ReservedNotEarly` | MyNetworkLib/JobWorker.cpp:27-46 | A reserved job reaches only its own owner, and through a check whose `nowTick` is at least its tick |
| `TimerOrder.DataReleasedOnce` | MyNetworkLib/ReservableJob.cpp:5-15 | `JobData` is released at most once per reservation and after its test; no waiting or extracted job has lost its data |
| `TimerOrder.StaysAhead` | MyNetworkLib/JobWorker.cpp:27-39 | Of two jobs that wait together, the one with the smaller tick leaves the timer queue first in every continuation, even across different checks |
| `TimerOrder.SmallerTickEnqueuedFirst` | MyNetworkLib/ReservableJob.h:80-86 | Two jobs of one owner wait together: the one with the smaller tick, if uncancelled and its owner alive, is enqueued before the other |
| `TimerOrder.SmallerTickRunsFirst` | MyNetworkLib/JobWorker.cpp:18-48 | And it has run before the other |
| `TimerOrder.CancelWorksIffBeforeTest` | MyNetworkLib/ReservableJob.h:53-56 | For a job cancelled at some point of a run and every later state: it is enqueued, or a push under way carries it, if and only if its push test came before the cancellation |
| `JobExamples.CanceledJobRuns` | MyNetworkLib/ReservableJob.cpp:7-13 | A run in which a job is let through, enqueued behind a running batch, cancelled, and then executed |
| `RWLock.StepKeeps` | MyNetworkLib/RWLock.cpp:4-111 | Every atomic step keeps the lock invariant, and a step crashes if and only if it is a write unlock over a read hold of the same thread |
| `RWLock.Reachable` | MyNetworkLib/RWLock.cpp:4-111 | The lock invariant holds in every state of every run with distinct nonzero 16-bit thread ids and at most 65535 holds |
| `RWLock.KeptIffBounded` | MyNetworkLib/RWLock.h:39-50 | A run of any length and any nesting keeps the invariant exactly as long as neither 16-bit counter overflows |
| `RWLock.WriterExcludesAll` | MyNetworkLib/RWLock.h:26-50 | While a thread holds the write lock no other thread holds anything, the high half of the flag is its id and the low half the number of read holds |
| `RWLock.NoWriterMeansReadersOnly` | MyNetworkLib/RWLock.h:26-50 | Without a writer the flag is the number of read holds and `_writeCount` is 0 |
| `RWLock.OnlyWriterTouchesCount` | MyNetworkLib/RWLock.h:46-50 | Only the thread whose id is in the flag is ever at a point that reads or writes `_writeCount`, and it is alone there |
| `RWLock.NestedGuardsNeverCrash` | MyNetworkLib/RWLock.cpp:46-111 | If every hold stack has shape write\* read\*, no unlock assertion is reached in the whole run |
| `RWLock.WriteUnlockCrashesIff` | MyNetworkLib/RWLock.cpp:51-54 | A write unlock trips its assertion if and only if the caller has a read hold |
| `LockExamples.InnerUnlockCrashes` | MyNetworkLib/RWLock.cpp:46-54 | A run of one thread alone, write, read, write, unlock, that trips it |
| `RWLock.StoreErasesNothing` | MyNetworkLib/RWLock.cpp:57-63 | When the flag is about to be stored empty, the storing thread has exactly one write guard and no other thread holds or is entering |
| `RWLock.StoreIffOutermost` | MyNetworkLib/RWLock.cpp:57-63 | A write unlock goes on to that store if and only if it releases the last guard |
| `RWLock.AllReleasedMeansEmpty` | MyNetworkLib/RWLock.cpp:46-111 | With all guards released, flag and `_writeCount` are 0 |
| `RWLock.UpgradeNeverSucceeds` | MyNetworkLib/RWLock.cpp:19-33 | The exchange of a thread that holds a read guard and waits for the write lock changes nothing, in any state of any run |
| `LockExamples.ReaderWaitsForWrite` | MyNetworkLib/RWLock.cpp:4-33 | A run at whose end a thread with a read hold is at that exchange |
| `RWLock.TooManyReadersForgeAWriter` | MyNetworkLib/RWLock.cpp:83-88 | The read hold after the 65535th leaves a flag that names thread 1 as the writer, with no writer inside |
| `LockExamples.ReadMany` | MyNetworkLib/RWLock.cpp:66-90 | For every k up to 65536 a run in which one thread has k read holds |
| `LockExamples.ReadersLetAWriterIn` | MyNetworkLib/RWLock.cpp:6-12 | A run at whose end thread 1 holds the write lock while thread 2 holds 65536 read locks |
| `LockExamples.ReadUnlockCrashes` | MyNetworkLib/RWLock.cpp:102-110 | A run in which 65536 read holds are followed by a read unlock that trips its assertion |
| `RWLock.WriteFlagNamesItsThread` | MyNetworkLib/RWLock.h:26-33 | Decoding the encoded writer id gives the id back if and only if it is below 65536 |
| `LockQueue.StepRefines` | MyNetworkLib/LockQueue.h:13-112 | Every step of the queue over the step-level lock is a step of the atomic queue, which is given by the relation between call, queue before, answer and queue after, or changes nothing there |
| `LockQueue.RefinesAtomicQueue` | MyNetworkLib/LockQueue.h:13-112 | So over every run, which starts in the initial state of the atomic queue and never reaches an unlock assertion |
| `LockQueue.AnswersUnique` | MyNetworkLib/LockQueue.h:13-112 | That relation leaves an operation one answer and one queue |
| `LockQueue.FirstInFirstOut` | MyNetworkLib/LockQueue.h:13-55 | In every state of every run, the elements taken out so far, then those in the queue, are the elements pushed, in that order |
| `LockQueue.EffectsAreFifo` | MyNetworkLib/LockQueue.h:13-73 | When a call takes effect, `Pop`, `TryPop` and `Front` answer with the oldest element not yet taken, and the first two take it; `TryPop` fails, and changes nothing, if and only if there is none |
| `LockQueue.ClearEffectIsFifo` | MyNetworkLib/LockQueue.h:108-112 | The end of a `Clear` takes out what it has popped, all of it non-null, and then either nothing is left or a null element was dropped |
| `LockQueue.QueueNeverRaced` | MyNetworkLib/LockQueue.h:13-112 | In every run, two threads are in bodies of queue operations together only if both are in `Front` |
| `QueueExamples.FrontsOverlap` | MyNetworkLib/LockQueue.h:62-73 | A run in which two threads are in `Front` together |
| `LockQueue.LastPopRefines` | MyNetworkLib/LockQueue.h:108-112 | The last nested `Pop` is the point where `Clear(popped)` takes effect as a whole: all elements before the first null, in order |
| `LockQueue.EarlierPopStutters` | MyNetworkLib/LockQueue.h:108-112 | The nested `Pop`s before it are invisible to the other threads |
| `LockQueue.ClearTakesEverythingIff` | MyNetworkLib/LockQueue.h:108-112 | `Clear(popped)` empties the queue into `popped` if and only if no element is null |
| `LockQueue.AlwaysBounded` | MyNetworkLib/LockQueue.h:13-112 | The guards of the queue operations never exceed the bounds that the lock needs |
| `Framing.OnRecv` | MyNetworkLib/PacketSession.cpp:70-98 | On any bytes: the loop returns if and only if they are framed to the end, otherwise it reads a header past the end or spins on a size of 0, whichever comes first; and the dispatches on the way are those that the headers determine |
| `Framing.RoundTrip` | MyNetworkLib/PacketWrapper.h:10-57 | For every list of packets that fit, receiving their bytes ends at exactly the full length and dispatches exactly the ids and payload offsets, in order |
| `Framing.DispatchesPointAtPayloads` | MyNetworkLib/PacketSession.cpp:77-95 | The i-th dispatch has the i-th id, and the bytes at its offset are the i-th payload |
| `Framing.WireInjective` | MyNetworkLib/PacketWrapper.h:37-57 | Different lists of packets that fit have different bytes |
| `Framing.SentIffWhole` | MyNetworkLib/PacketSession.cpp:70-98 | Bytes are the serialization of some list of packets that fit if and only if they are in whole packets: whole headers, sizes of at least 4, and an exact end |
| `Framing.BadInputs` | MyNetworkLib/PacketSession.cpp:77-95 | Four zero bytes make the loop spin, a single byte makes it read past the end |
| `Framing.SizeFieldExact` | MyNetworkLib/PacketWrapper.h:39-46 | The 16-bit size is the true size if and only if the payload has at most 65531 bytes |
| `Framing.WireExample` | MyNetworkLib/PacketWrapper.h:10-20 | The bytes of two packets: total size, then id, low byte first, then the payload |
| `SendBuffers.SendBuffer.Reserve` | MyNetworkLib/SendBuffer.cpp:15-30 | Zero-fills exactly the next `size` bytes and hands out their start; more than a whole buffer crashes and changes nothing; more than the free size overruns |
| `SendBuffers.WritePacket` | MyNetworkLib/PacketWrapper.h:37-57 | The buffer afterwards is the old one with exactly the encoded packet written over the reserved range |
| `SendBuffers.WriteBeside` | MyNetworkLib/PacketWrapper.h:37-57 | Unless the buffer is overrun, the new packet reads back as written, every packet of any log that was intact still is, and those in the same buffer lie below it |
| `SendBuffers.Sender.Switch` | MyNetworkLib/SendBufferManager.h:40-44 | Taking a popped buffer, new or used before, leaves every earlier packet intact |
| `SendBuffers.Sender.Append` | MyNetworkLib/PacketWrapper.h:45-56 | Adds one packet to the log of intact packets, and moves the used mark exactly past it; all packets of this and any other thread still read as written, this thread's in pairwise disjoint ranges; says exactly when it crashes, which changes nothing, or overruns |
| `SendBuffers.Sender.Serialize` | MyNetworkLib/SendBufferManager.h:38-46 | The same over buffer changes and buffers recycled from any thread: no reservation, zero-fill or copy that stays in its buffer ever alters a packet serialized before; the buffer changes exactly when the packet does not fit, and the buffer that does not become the current one is untouched |
| `SendBuffers.OverrunsIff` | MyNetworkLib/PacketWrapper.h:37-49 | Serializing overruns if and only if the 16-bit size wraps or the popped buffer has too little room, and crashes if and only if a packet with a true size exceeds 4096 bytes |
| `SendBuffers.RecycledBufferOverruns` | MyNetworkLib/SendBuffer.cpp:22-29 | Two packets of 4000 bytes, a buffer popped again, and a packet of 100 bytes: the third write leaves its buffer |
| `SendPath.Reachable` | MyNetworkLib/Session.cpp:34-159 | The invariant of the send path holds in every state of every run, with connections, disconnections and clears at any time |
| `SendPath.SendHandover` | MyNetworkLib/Session.cpp:123-159 | At most one thread registers, the segment list is empty whenever `_sending` is false, and submitted batches ++ unsubmitted segments ++ `_sendQueue` are the buffers in the order their callers took the send lock, without those that `_clear` dropped |
| `SendPath.NothingLostIff` | MyNetworkLib/Session.cpp:80-96 | They are all of them if and only if every `_clear` so far found the queue empty |
| `SendPath.ReservedBytesAreTheirLength` | MyNetworkLib/PacketSession.cpp:30-41 | `_reservedSendBytes` is the total length of `_reserved` modulo 2^32 in every state of every run |
| `SendPath.FlushDecides` | MyNetworkLib/PacketSession.cpp:46-48 | In every run, a flush called dt ticks after the last one goes on if and only if dt is at least 1000 or the reserved buffers have at least 128 bytes (modulo 2^32), and otherwise changes nothing |
| `SendPath.FlushTakes` | MyNetworkLib/PacketSession.cpp:50-65 | Its next step takes exactly the whole reserve, in order, if there is any, and does nothing else |
| `SendPath.SendQueues` | MyNetworkLib/Session.cpp:34-43 | In every run, `_send` ignores an empty list and otherwise appends exactly its list, under the lock |
| `SendPath.SendLockExcludes` | MyNetworkLib/Session.cpp:38-49 | While a thread holds the send lock, no other takes or drops it or changes the queue, except through `_clear` |
| `SendPath.WedgedSubmitsNothing` | MyNetworkLib/Session.cpp:123-132 | With `_sending` set and nobody registering, nothing is submitted in any continuation, connected or not |
| `SendPath.OnlyDisconnectionWedges` | MyNetworkLib/Session.cpp:126-132 | A step leads into that state if and only if it is the disconnected branch |
| `SendPath.WedgedIffLeftEarly` | MyNetworkLib/Session.cpp:126-132 | A state of a run is wedged if and only if some registration before it left through that branch |
| `SendExamples.FlushedTooEarly` | MyNetworkLib/Session.cpp:19-51 | A run with a flush before `_set_connected`: afterwards the session is connected, two packets are queued, nobody is inside a call, and nothing is or ever will be submitted |
| `SendOrder.Reachable` | MyNetworkLib/PacketSession.cpp:30-68 | With any number of flushers, what was taken from the reserve and what is left there are the packets given to `Send`, in order, and each taken packet is in exactly one place, in the hands of one flush or once among the locked buffers |
| `SendOrder.AppendInOrderIff` | MyNetworkLib/PacketSession.cpp:50-67 | While order is kept, queueing a list keeps it if and only if no other thread has an earlier list in hand |
| `SendOrder.LockedInOrderIff` | MyNetworkLib/PacketSession.cpp:43-68 | Over every run with any number of flushers, the locked buffers are a prefix of those taken if and only if no flush has overtaken another |
| `SendOrder.CompleteAndInOrderIff` | MyNetworkLib/Session.cpp:34-159 | Everything locked leaves in the order of `Send` if and only if no flush has overtaken another and no `_clear` has found anything |
| `SendOrder.SubmittedIsAPrefixOfSent` | MyNetworkLib/PacketSession.cpp:30-98 | As long as that holds, the bytes submitted so far are those of the first n packets given to `Send`, and receiving them dispatches exactly those packets |
| `SendOrder.OneFlusherNeverOvertakes` | MyNetworkLib/PacketSession.cpp:43-68 | With one flusher, and any number of senders, no flush overtakes another |
| `SendExamples.TwoFlushersCanReorder` | MyNetworkLib/PacketSession.cpp:50-67 | A run in which two flushers submit the second packet and not the first |
| `SendExamples.ClearCanLeaveAGap` | MyNetworkLib/Session.cpp:80-96 | A run in which `_clear` drops the first packet after the connection test, and the second one is submitted |
| `PoolTable.Memory.AddPool` | MyNetworkLib/Memory.cpp:98-105 | A new largest pool takes exactly the keys that the smaller ones leave uncovered |
| `PoolTable.Memory.InitMemoryPool` | MyNetworkLib/Memory.cpp:94-107 | For every carried key and position, every section end and every positive step: the covered keys are exactly 0 to the last pool size, each mapped to the smallest pool that fits; the new pools start at `pos` and are one step apart up to the end; nothing else in the table changes |
| `PoolTable.Memory.Big` | MyNetworkLib/Memory.cpp:15-26 | The default constructor covers exactly the keys 0 to 7712 of 0 to 8192, with pools from 32 up in the steps of their sections |
| `PoolTable.Memory.Small` | MyNetworkLib/Memory.cpp:15-28 | The other build covers exactly the keys 0 to 3872 of 0 to 4096 |
| `PoolTable.ServedBySmallest` | MyNetworkLib/Memory.cpp:94-107 | A pool can hold a covered key if and only if it is the one the table gives, or a later one |
| `PoolTable.TableIsDetermined` | MyNetworkLib/Memory.cpp:94-107 | The pools determine the table on every covered key |
| `PoolTable.SlackBelowStep` | MyNetworkLib/Memory.cpp:94-107 | Above the smallest class, the slack is less than the step to the class |
| `PoolTable.CoveredIffSomePoolFits` | MyNetworkLib/Memory.cpp:94-107 | A key is covered if and only if some pool can hold it |
| `PoolAllocator.BuiltConfig` | MyNetworkLib/Memory.cpp:15-62 | The constructor's table is one the allocator theorems apply to, and an allocation size has a pool if and only if it is at most 7712 |
| `PoolAllocator.Reachable` | MyNetworkLib/MemoryPool.cpp:20-62 | The invariant of blocks, free lists and calls holds in every state of every run, for allocations of any size |
| `PoolAllocator.FreeBlocksAreFree` | MyNetworkLib/MemoryPool.cpp:20-62 | A free block is in one place of one list, has exactly that pool's size and a header of 0, and is neither live nor in a call's hands |
| `PoolAllocator.LiveBlocksFit` | MyNetworkLib/Memory.cpp:40-62 | A live block is at least as large as its request, exactly as large on the big path, and carries it in its header |
| `PoolAllocator.AllocationIsExclusive` | MyNetworkLib/Memory.cpp:40-62 | An allocation goes through an unwritten table entry if and only if its size is between the last pool and the limit; otherwise it takes a block that nobody has, and a new one if and only if the size is over the limit or its pool has no free block |
| `PoolAllocator.UncoveredSizeGoesWild` | MyNetworkLib/Memory.cpp:44-58 | For every such size, a run that gets there |
| `PoolAllocator.ReleaseGoesHome` | MyNetworkLib/Memory.cpp:64-82 | The header sends a released block back to the pool, or the big path, that it came from |
| `PoolRelease.LiveOnlyByAllocation` | MyNetworkLib/Memory.cpp:40-82 | In every run, a block that is live and was not before has been handed out by an allocation in between |
| `PoolRelease.ReleaseEndsLife` | MyNetworkLib/Memory.cpp:64-82 | In particular a block whose release has begun is live again only if an allocation has handed it out again |
| `PoolRelease.ReleaseCompletes` | MyNetworkLib/Memory.cpp:64-92 | Once the releasing thread is outside of all calls, the block is on the free list of its pool or, for the big path, gone, unless an allocation has already taken it |
| `PoolExamples.ReleasedBlockIsTakenAgain` | MyNetworkLib/MemoryPool.cpp:27-42 | A run of that exception: between the list step and the counter steps of a release another thread takes the block |
| `PoolRelease.BigBlocksAreAccountedFor` | MyNetworkLib/Memory.cpp:84-92 | In every state, the big-path blocks that exist are those made without those whose release is complete |
| `PoolRelease.FreeListIsAStack` | MyNetworkLib/MemoryPool.cpp:20-42 | In every run, a free list changes only by a release that puts its block in front or an allocation that takes the front |
| `PoolAllocator.CountersLag` | MyNetworkLib/MemoryPool.cpp:20-62 | In every state each counter is the true total corrected by the operations between their list step and their counter step, modulo 2^32 |
| `PoolAllocator.QuiescentCountersExact` | MyNetworkLib/MemoryPool.cpp:20-62 | With no operation under way, `_poolCount` is the free-list length, `_useCount` the number of live blocks, and together they are the blocks ever created |

## Left out

- SendBuffers.Sender.Serialize: promises nothing about memory once a write has left its buffer; that no other thread uses the current buffer meanwhile, and that buffers do not share memory, is assumed.
- SendPath.Reachable: `Send` is given packets that fit the size field; `_clear` empties the queue in one transition, while the code does so without the lock, possibly during another thread's append.
- SendOrder.SubmittedIsAPrefixOfSent: `_send` is called by flushes only.
- RWLock.Reachable: thread ids are nonzero and below 65536, as MyNetworkLib/TaskManager.cpp:5-7 demands; the bound on the holds is exact (`RWLock.KeptIffBounded`).
- PoolAllocator.Reachable: only live blocks are released, and a run ends with the first lookup of a table entry that was never written.
- JobDrain.EverythingCanDrain: the schedule is shown to exist; fairness of the operating system's scheduler is not modelled.
- `_queuedCount` and ticks are unbounded integers; neither 32-bit wrap-around of the job counter nor 64-bit wrap-around of ticks is modelled, nor `int32` overflow of a request size in `Allocate`.
- The flag masks and shifts of the lock are division and remainder by 65536.
- Spin counts, timeouts and yielding of the lock, and the time slices of `ExecuteJobs` and `DoJobs`, are free choices of the model; a timeout crash ends a run.
- The cancelled flag and the owner's weak pointer are read in one transition of `PushJobToSerializer`: a cancellation between the two reads has the outcome of one after both, and a destruction between them that of one before both.
- Job bodies are calls into the library in any order; what else they compute is not modelled.
- `ClearJobs` and `ClearReservedJobs`, which drop work on purpose.
- Progress of the send path: a buffer queued between the move and the clearing of `_sending` waits for the next `_send`.
- `SendRaw`, the completion side of sends, and `Session` connection handling beyond the connected flag and the send queue.
- `LockQueue::TryPeek`, the plain `Clear()` and `SetNew`: one locked region each.
- The internals of `std::priority_queue`, the interlocked list and `shared_ptr`: a set with a least element, a stack, and reachability from calls and queues.
- IOCP, Winsock, `Listener`, `Connector`, services, address and socket utilities: foreign calls.
- `RecvBuffer`, `LockStack`, `LockPriorityQueue`, FlatBuffers code, logging and error maps: easy or generated.
- Weak memory effects and C++ object lifetime beyond the release of `JobData` and of serializers.
