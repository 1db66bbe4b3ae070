# opends: verified models

This project models the parts of opends that carry its correctness and proves what they
promise. opends moves file data between NVMe devices and GPU memory; its aisio backend
drives the device itself, orders the work against GPU streams, and falls back to bounced
transfers for ranges the device cannot address.

The project is plain Dafny; `dafny verify dfyconfig.toml` checks all of it.

## Parts

**The gate protocol** (`Words`, `Gate*`). Submitting threads, I/O workers with their rings,
the device and in-order GPU streams form a step system: each step is one atomic access or
one command of one party, and any enabled step may come next. Counters are kept unbounded
and the code sees only their 32-bit words, so a test that goes wrong after a wrap-around
goes wrong in the model. Fields called history record what happened and are never tested by
a step. `GateInvariant` states the inductive invariant, `GateRing` to `GateWorkers` prove
that every step keeps it, `GateQueue` does the books of each worker's device queue,
`GateRuns` draws the conclusions for every reachable state, `GateTail` to `GateTailRuns`
follow a stream's single bounce buffer and copy descriptor, what a read leaves there
measured against a record of its commands (`GateOutcomes`, `GateCommands`). `GateShutdown`
says what a shutdown leaves behind, `GateRank` to `GateDrain` show that nothing else is ever
stuck, and `GateClaims`, `GateExits` and `GateDelivery` draw the ends of it: a submission
finds a ring, the workers leave, and every tail arrives. `GateLimits` and `GateStrands` hold
concrete runs that show where the promises end.

One assumption is made, and it is shown to be needed. No stream ever has more than
BURN_BUDGET (2^30 - 15 * 1024 - 2) numbers lost to failed enqueues still ahead of its gate,
because a lost number is not given back (`BurnedNumbersOpenTheGate`); numbers the gate has
passed, and numbers lost on other streams, do not count. `LetThroughEarly` says exactly when
a worker's poll is wrong.

The tail copy is a finding. `include/opends.h:37-41` promises that submission may run
concurrently from several threads, but a stream read's copy is enqueued after the lock is
dropped, so with two readers on one stream the first copy can take the second read's tail
(`TwoSubmittersMixTails`). The theorems say for any number of threads what a copy takes
(`CopyTakes`), exactly when that is its own read's tail (`CopyIsRightIff`), and a condition a
submitter could look at before it enqueues the copy (`TimelyCopyIsRight`); with one thread at a
time submitting reads on a stream, and writes from any, every copy meets it
(`CopyTakesItsOwnTail`).

A shutdown is not an assumption but a finding. A worker loads its ring's head before it
looks at the stop flag, and leaves ops behind exactly when it has found nothing to come
back for while the head has moved (`ExitLeavesBehind`). So a future handed in before the
driver is stopped may never be completed (`StrandedByShutdown`); and a stream op left behind
holds up the later ops of its stream, so that the worker of one of those never leaves and
the join of the shutdown never returns (`ShutdownHangs`). Everything else can be finished,
shutdown or not (`NoStuckState`, `SeenOpsCanFinish`), and what cannot never is
(`NeverFinished`).

**The read engine** (`ReadPlan`, `ReadBounds`, `ReadState`, `ReadEngine`, `BounceKernel`).
`ReadPlan` says, as a function, how a request is cut over an extent list, and proves that an
accepted plan moves exactly the mapped bytes. `ReadEngine` is the code: a class with the
op's counters, error, bounce slots and descriptor, whose methods submit, poll and complete
against a device that completes commands in any order, fails them, or turns submissions away
finitely often. LBA arithmetic (shift, mask and product in the code) is written recursively
in the plan; `LbasIsQuotient` and `BytesIsProduct` connect the two, and the LBA size may be
any positive number.

**Direct I/O** (`PosixFile`, `DirectIo`, `RefBackend`). The read-modify-write of unaligned
ranges over a file that only takes aligned transfers, against plain pread and pwrite on a
byte sequence, and the agreement of the aisio read with the reference backend.

`read_block` zero-fills whatever its single pread does not deliver, so a read cut short
before the end of the file loses old bytes (`CutReadLosesBytes`). `ImageIsPosixWrite` states
exactly when a direct write is a pwrite; reads that are not cut short satisfy the condition.
The file keeps a history of the errors its calls report, together with those of the
allocation, the reopening and the copy around them; a transfer fails exactly when it grows.

**The stream map and registration** (`StreamMap`, `StreamMapReader`, `Registry`) and **the
batch layer** (`Batch`), each against a finite map or a multiset of cookies, with other
threads interfering at every load.

Where a method needs something of the outside world (whether an allocation succeeds, which
command completes next, whether a deadline has passed) the model leaves the choice open. A
field `patience` bounds how often the outside world may put the program off, so that loops
that wait for it end.

## Model

| member | source | states |
|---|---|---|
| Words.CyclicTestExact | src/opends_aisio.c:803-816 | the signed 32-bit comparison of a gate word with a target word, for every distance up to 2^32: it says "not reached" exactly when the gate trails by 1 to 2^31, so it is wrong beyond |
| Words.CyclicAgrees | src/opends_aisio.c:803-816 | within half the number circle, comparing words is comparing the unbounded counts, across any number of wraps |
| Words.WordMask | src/opends_aisio.c:841-842 | a ring index computed from the wrapped counter is the index computed from the count |
| GateWorkers.StepKept | src/opends_aisio.c:691-873 | every step of submitters, workers, device and GPU streams keeps the invariant (rings, streams, lock, homes, futures) while the sequence window holds |
| GateQueue.QueueKept | src/opends_aisio.c:409-456 | every step keeps each worker's free command contexts plus those held by commands on the device equal to the queue's depth |
| GateQueue.FullQueueHasWork | src/opends_aisio.c:435-440 | a worker that gets no command context has a command outstanding on that queue |
| GateRuns.WindowFromBudget | src/opends_aisio.c:1128-1132 | unreleased ops sit in distinct ring slots of at most 15 workers, so with at most BURN_BUDGET lost numbers ahead of a gate the window of half the number circle holds |
| GateRuns.ReachableInv | src/opends_aisio.c:1549-1607 | the invariant and the window hold in every state of every run on which no gate has more than BURN_BUDGET lost numbers ahead of it, whatever the interleaving and however many were lost before |
| GateRuns.FewFailuresKeepBudget | src/opends_aisio.c:1564-1603 | a run with at most BURN_BUDGET failed enqueues keeps that budget; a gate never falls back, so numbers behind it do not count |
| GateRuns.WindowLostFirst | src/opends_aisio.c:803-816 | a run of any kind breaks the invariant only after a state in which the numbers ahead of some gate span more than half the number circle |
| GateRuns.LetThroughEarly | src/opends_aisio.c:803-816 | the worker's poll lets an op through before its stream has arrived at it if and only if the gate trails the arrival value by more than 2^31 |
| GateRuns.OneDispatchedPerStream | src/opends_aisio.c:803-819 | across all workers at most one op of a stream is between dispatch and release, and the gate then stands at exactly 2q |
| GateRuns.DispatchInSeqOrder | src/opends_aisio.c:1549-1607 | ops of a stream are dispatched in the order of their sequence numbers, on whichever workers they are |
| GateRuns.SeqNumbersDistinct | src/opends_aisio.c:1550-1607 | two unreleased ops of a stream, reads or writes, never share a sequence number, also after failed enqueues |
| GateRuns.CyclicTestsAgree | src/opends_aisio.c:697-709 | in every reachable state the worker's poll and the stream's wait, made on words, say what the unbounded counters say |
| GateRuns.GateMovesForward | src/opends_aisio.c:691-709 | a gate changes only by an arrival, forward to an even value, or by a release, from 2q to 2q + 1 |
| GateRuns.RingSafety | src/opends_aisio.c:1121-1139 | head - tail never exceeds 1024 on the wrapped counters, everything outside the window is FREE, and a claim lands on a slot no op and no queued host callback refers to |
| GateClaims.EveryWorkerIsAsked | src/opends_aisio.c:1115-1119 | wherever the round-robin cursor stands, every worker is asked within two turns of the workers, and within one unless the cursor's word wraps around in it |
| GateClaims.AskRound | src/opends_aisio.c:1121-1139 | if any ring has room, fewer than two turns of attempts, all turned away before, lead an undisturbed submitter to a ring with room, where any op may be claimed |
| GateClaims.AttemptsGoRound | src/opends_aisio.c:1115-1119 | along every run the cursor moves by exactly the number of attempts made, turned away or not |
| GateClaims.RoomComes | src/opends_aisio.c:1121-1139 | from every state reached without a shutdown request, however full the rings, a run without new work leads to a state in which any op may be claimed |
| GateRuns.CallbackSeesItsOp | src/opends_aisio.c:697-709 | a host callback at the front of its stream reads from its slot the op it was launched for |
| GateRuns.ExactlyOnce | src/opends_aisio.c:722-778 | every future handed in is completed once, or waits in exactly one slot, or is being submitted; every published stream op whose gate has not passed is in its slot |
| GateCommands.ReleasedWhenComplete | src/opends_aisio.c:780-801 | a read, of a stream or not, is released only with nothing left to issue or on the device; and then an error is noted exactly if a command of it failed, and without one every command it planned has been issued and has called back |
| GateOutcomes.StepOutcomes | src/opends_aisio.c:409-481 | every step keeps the account of failed reads: a read in flight has its error noted exactly if a command of it failed or could not be issued, a released one of which one did has left nothing to its copy, any other exactly the tail it requested |
| GateRuns.ExitDrainsObserved | src/opends_aisio.c:836-873 | a worker that has left its loop has finished every op below the head it last loaded; what remains was published later |
| GateShutdown.ExitLeavesBehind | src/opends_aisio.c:836-873 | a worker that looks at the stop flag leaves its loop with ops in its ring if and only if it found nothing to come back for and the head differs from the one it loaded |
| GateShutdown.LeftBehindForever | src/opends_aisio.c:872-873 | no run changes the ops in the ring of a worker that has left its loop |
| GateShutdown.StrandedForever | src/opends_aisio.c:803-819 | a stream parked on an op left behind never moves again, so none of its later ops is ever let through |
| GateShutdown.SeenKept | src/opends_aisio.c:836-873 | an op below the head its worker has loaded stays there until it is finished |
| GateLimits.BurnedNumbersOpenTheGate | src/opends_aisio.c:1564-1603 | a run with 2^30 failed enqueues after which an op is dispatched before its stream has reached it: the budget is needed |
| GateTail.StepTail | src/opends_aisio.c:534-550 | whoever submits, every step keeps the account of what a read in flight has put into its stream's descriptor and buffer, and that a copy stands behind its own read's gate commands |
| GateDescriptor.StepDesc | src/opends_aisio.c:727-737 | whoever submits, the descriptor and the bounce buffer hold the tail of the read released last, except where a read in flight has begun to replace it |
| GateCopies.CopyTakes | src/ds_bounce_kernel_cuda.cu:17-26 | in every reachable state, with any number of submitters, a copy that runs takes what the last released read left if no read of the stream is in flight; else the tail of a read found complete, or its predecessor's length of whatever is in the buffer, to the destination of the read in flight |
| GateCopies.CopyIsRightIff | src/opends_aisio.c:1607-1618 | while no read in flight has begun to replace it, a copy takes its own read's tail if and only if its read and the last released one left the same |
| GateCopies.ReadLeavesItsDue | src/opends_aisio.c:722-737 | in every reachable state a released read of which a command failed has left nothing to its copy, and any other exactly the tail it requested |
| GateCopies.RightKept | src/opends_aisio.c:1609-1618 | no step of any number of submitters, workers, the device or the streams makes a copy wrong that was enqueued in time |
| GateCopies.TimelyCopyIsRight | src/opends_aisio.c:1609-1618 | a copy enqueued before any later read of the stream has put its gate commands there takes, in every continuation, exactly the tail its own read requested, or nothing if a command of the read failed |
| GateTailRuns.CopyTakesItsOwnTail | src/opends_aisio.c:727-737 | with one thread at a time submitting reads on a stream, and writes from any thread, the copy of read k takes exactly the tail read k requested, nothing if a command of read k failed, never a byte of another read |
| GateTailRuns.DescriptorStable | src/opends_aisio.c:534-550 | from the release of a read until a later read arrives no step of anybody changes the stream's descriptor or bounce buffer |
| GateTailRuns.KernelFindsItsRead | src/opends_aisio.c:1609-1618 | with one thread at a time submitting reads, the copy that reaches the front of its stream finds its own read completed and in the descriptor exactly the tail that read requested, or nothing if it failed |
| GateLimits.TwoSubmittersMixTails | src/opends_aisio.c:1607-1618 | a run with two threads submitting reads on one stream, as the header allows, in which the first copy takes the second read's tail |
| GateStrands.StrandedByShutdown | src/opends_aisio.c:836-873 | a run in which a future is published before the stop request and its worker leaves without it: no continuation ever completes it |
| GateStrands.ShutdownHangs | src/opends_aisio.c:987-994 | a run with two workers and two writes of one stream after which the second worker never leaves its loop, so the join of the shutdown never returns |
| GateRank.SwapWorker | src/opends_aisio.c:821-899 | replacing one worker changes the two sums of the rank by that worker's share only |
| GateProgress.BlockedFront | src/opends_aisio.c:803-819 | a gated op's stream has a command at its front; if that cannot run, the stream is parked on a published op whose turn has come |
| GateProgress.LoopServes | src/opends_aisio.c:830-873 | a worker's next step in its loop takes some op further, or brings the worker on, or is its last; it never spins in place |
| GateProgress.IssueLowers | src/opends_aisio.c:432-465 | inside start_read_op, with no command context left, or turned away (EBUSY) while other commands are outstanding, some outstanding command can complete in the poke, and the rank goes down |
| GateDrain.NoStuckState | src/opends_aisio.c:821-873 | every state with an op that can be served has an enabled step that lowers a well-founded rank: rings full of gated ops, device queues full, commands turned away, a shutdown under way and workers gone included |
| GateDrain.PresentIsMovable | src/opends_aisio.c:821-873 | while no worker has left its loop, every unfinished op makes such a state |
| GateDrain.SeenIsMovable | src/opends_aisio.c:836-873 | so does every unfinished op its worker has seen, shutdown or not, unless its stream waits for one left behind |
| GateDrain.OnlyLeftBehind | src/opends_aisio.c:836-873 | in any other state every unfinished op is in the ring of a worker that has left, or behind such an op on its stream |
| GateDrain.NeverFinished | src/opends_aisio.c:836-873 | and no run, not even with new submissions, ever finishes it |
| GateDrain.NeverLeaves | src/opends_aisio.c:987-994 | a worker that has seen such an op never leaves its loop |
| GateDrain.SeenOpsCanFinish | src/opends_aisio.c:836-873 | from every reachable state, a shutdown under way or not, a run without new submissions finishes every op its worker has seen, except on streams that wait for one left behind, and leaves nothing that could still be served |
| GateDrain.EveryOpCanFinish | src/opends_aisio.c:836-873 | from every state reached without a shutdown request that run finishes everything accepted: all futures completed, all gates passed |
| GateDrain.EmptyMeansDone | src/opends_aisio.c:1466-1478 | with empty rings every future handed in is completed and every published stream op has let its gate go |
| GateDrain.StaysRunning | src/opends_aisio.c:872-873 | no worker leaves its loop in a run without a shutdown request |
| GateDrain.TurnedAwayIsNoDetour | src/opends_aisio.c:448-453 | a run in which commands are turned away any number of times reaches what the same run without those attempts reaches |
| GateExits.WorkersLeave | src/opends_aisio.c:834-873 | after a shutdown request, with nothing left to do, all workers leave their loops, by their own steps alone, at most eight for each |
| GateExits.OrderlyShutdown | src/opends_aisio.c:987-994 | from every state reached without a shutdown request, the accepted work can be finished, the shutdown requested and every worker be gone, with all futures done and all gates let go |
| GateDelivery.CopiesAreCarried | src/opends_aisio.c:1607-1618 | in every reachable state the copy of every published read is owed by its thread, queued on its stream, done, or could not be enqueued; in aligned-only mode no tail is requested and no copy exists |
| GateDelivery.EveryTailIsCopied | src/opends_aisio.c:1607-1618 | from every state reached without a shutdown request, with any number of submitters, a run without new submissions ends with all streams idle and the copy of every published read done, but for those that could not be enqueued before |
| GateDelivery.EveryTailArrives | src/opends_aisio.c:1549-1618 | with one thread at a time submitting reads on a stream that run delivers to every published read, but for those copies, exactly the tail it requested, or nothing if a command of it failed |
| ReadPlan.PlanIsTheFileMap | src/opends_aisio.c:611-689 | the commands of an accepted plan move exactly the mapped bytes of the request, each from its place on the device, and their lengths add up to the number of mapped bytes |
| ReadPlan.MiddlePartition | src/opends_aisio.c:423-471 | the chunks of a middle follow each other without gap or overlap and cover it exactly |
| ReadPlan.MiddleChunks | src/opends_aisio.c:430-445 | every chunk has 1 to min(MDTS LBAs, 65536) LBAs, its zero-based count fits 16 bits, and source and destination advance together |
| ReadPlan.MiddleIsShort | src/opends_aisio.c:430-445 | a middle is cut into no more chunks than the smaller of MDTS and 65536 LBAs makes necessary |
| ReadPlan.SpanPieces | src/opends_aisio.c:635-685 | head, middle and tail of a span are contiguous and take each byte from its place in the extent; a rejected span stops at a prefix |
| ReadPlan.LbasIsQuotient | src/opends_aisio.c:624-660 | the recursive LBA count and offset of the plan are the quotient and remainder by the LBA size |
| ReadPlan.BytesIsProduct | src/opends_aisio.c:443-445 | the byte count of the plan is the product with the LBA size |
| ReadBounds.SlotsSuffice | src/opends_aisio.c:490-542 | with whole-LBA extents (but the last) a read uses at most two bounces, a stream read at most one, no slot-exhaustion exit is taken, and an unrestricted read is rejected exactly when the extent it starts in refuses its head |
| ReadBounds.RejectedIff | src/opends_aisio.c:490-689 | on any sorted extents, exactly when a request is rejected and with which code: the extent it starts in refuses its head, or it covers more LBAs in part than the mode can bounce (none aligned-only, one for a stream, else two) |
| ReadBounds.AlignedOnlyRejects | src/opends_aisio.c:567-583 | in aligned-only mode a request is rejected, with INVALID_VALUE, if and only if it starts or ends off an LBA boundary in some extent, and it never bounces |
| ReadBounds.ChunksDwordAligned | src/opends_aisio.c:645-653 | a chunk's destination is dword aligned if and only if the request starts dword aligned or the chunk lies in the extent the request starts in |
| ReadBounds.UnalignedChunkExists | src/opends_aisio.c:645-653 | a request that crosses into a second extent two bytes after its start is accepted and has an unaligned chunk |
| ReadState.ChunkDoneKept | src/opends_aisio.c:409-421 | a chunk completion, good or bad, keeps the engine invariant: counters equal outstanding commands, arrived data in place, nothing else written |
| ReadState.BounceDoneKept | src/opends_aisio.c:473-481 | a bounce completion keeps the engine invariant, the slot it fills holds its block |
| ReadState.ChunkSentKept | src/opends_aisio.c:441-465 | an accepted chunk keeps the engine invariant |
| ReadState.BounceSentKept | src/opends_aisio.c:499-530 | an accepted bounced command keeps the engine invariant, with its slot described and its bytes counted at once |
| ReadState.LandedStays | src/opends_aisio.c:448-453 | a command's data never destroys what another command has put in place |
| ReadState.EveryRunCounts | src/opends_aisio.c:409-481 | along every run of a read, from dispatch on, whatever the device accepts, turns away, fails and completes, chunks_remaining and bounces_outstanding are the commands outstanding on the device |
| ReadState.CountersTell | src/opends_aisio.c:796-801 | in every state a run reaches, both counters are zero if and only if the device has no command of the read; and then, without an error, every command's bytes have arrived and bytes_acc counts them |
| ReadState.SettledFacts | src/opends_aisio.c:796-801 | with both counters at zero nothing is on the device, everything issued has arrived, and only mapped destination bytes were written |
| ReadState.CompletesWell | src/opends_aisio.c:722-745 | completing an errorless read copies the bounces so that the destination holds the file's bytes, and bytes_acc is their number |
| ReadState.StreamTail | src/opends_aisio.c:727-737 | completing an errorless stream read leaves in the descriptor exactly what the copy kernel needs to finish it |
| ReadState.AllCopied | src/opends_aisio.c:711-745 | with every command of an accepted plan in place, each mapped destination byte is the device byte of its file offset |
| ReadEngine.ReadOp.IssueChunk | src/opends_aisio.c:432-465 | one attempt: taken and counted, turned away with everything as before, or failed with the error noted |
| ReadEngine.ReadOp.SubmitReadMiddle | src/opends_aisio.c:423-471 | issues exactly the chunks of the plan for every finite EBUSY pattern; if it fails, a prefix of them and an error |
| ReadEngine.ReadOp.SubmitBounceRead | src/opends_aisio.c:483-531 | issues the one bounced command, with the slot and range checks and their error |
| ReadEngine.ReadOp.SubmitStreamBounce | src/opends_aisio.c:533-550 | the stream's one bounce: refused when its slot is taken, else issued with its destination in the descriptor |
| ReadEngine.ReadOp.SubmitHostBounce | src/opends_aisio.c:552-565 | allocates the host slots once and issues the bounce; a failed allocation is an error |
| ReadEngine.ReadOp.SubmitPartial | src/opends_aisio.c:567-583 | carries out what the plan says for a partial block in each mode, with the plan's error when refused |
| ReadEngine.ReadOp.StartReadOp | src/opends_aisio.c:585-689 | carries out the request's plan; without a fault outside the program exactly up to the plan's own error |
| ReadEngine.ReadOp.Poke | src/opends_aisio.c:410-481 | any outstanding commands complete in any order; an error once noted is never cleared |
| ReadEngine.ReadOp.CompleteAsync | src/opends_aisio.c:722-745 | result and destination of an async read; negative exactly when an error was noted, then that error, or a copy failed, then DEVICE_DRIVER_ERROR |
| ReadEngine.ReadOp.CompleteStream | src/opends_aisio.c:726-738 | result and descriptor of a stream read; a failed one leaves the kernel nothing to copy |
| ReadEngine.ReadOp.AsyncRead | src/opends_aisio.c:780-801 | the whole async read refines the byte-by-byte read through the extents: errorless exactly when the extents allow the request in its mode (see RejectedIff) and nothing failed, then every mapped byte right, the count exact, all other bytes untouched, nothing left on the device |
| ReadEngine.ReadOp.StreamRead | src/opends_aisio.c:780-801 | the same for a stream read, up to the tail left to the copy kernel; a failed one leaves it nothing |
| ReadEngine.ReadOp.RunKernel | src/opends_aisio.c:1609-1618 | the copy kernel, in every interleaving of its threads, run on the descriptor completes the stream read |
| BounceKernel.CopyKernel | src/ds_bounce_kernel_cuda.cu:17-26 | for every interleaving of the 128 threads the destination ends up holding the source, nothing else changes, and zero bytes is a no-op |
| PosixFile.WriteInPieces | src/opends_common.c:147-163 | writing a buffer in two consecutive pieces leaves the file that writing it at once leaves |
| DirectIo.ReadBlock | src/opends_common.c:63-75 | one edge block: the bytes its pread delivered, zeros behind them, the rest of the buffer untouched; all of the block that exists unless the pread was cut short; an error exactly if the pread failed, and then its errno |
| DirectIo.RmwFill | src/opends_common.c:77-100 | the edges of the bounce buffer are filled from the first and the last block, each read once, and fully unless a pread was cut short |
| DirectIo.WriteAll | src/opends_common.c:146-163 | for every pattern of short writes and interruptions the file is the old one with a prefix of the buffer written, all of it unless a pwrite failed or wrote nothing, whose error is the result |
| DirectIo.ImageIsPosixWrite | src/opends_common.c:102-176 | the file a direct write leaves equals what pwrite leaves if and only if the edge reads missed no non-zero byte the write keeps |
| DirectIo.FullReadMissesNothing | src/opends_common.c:63-75 | edge reads that are not cut short before the end of the file miss nothing |
| DirectIo.CutReadLosesBytes | src/opends_common.c:71-74 | a concrete write after a short edge read that loses an old byte |
| DirectIo.EveryPrefixKeeps | src/opends_common.c:146-163 | at every iteration of the write loop each old byte outside the range has its old value, if the edge reads missed nothing |
| DirectIo.WrittenIsImage | src/opends_common.c:124-170 | writing out the whole bounce buffer and cutting back to trunc_to leaves exactly the image of the write, with the right length |
| DirectIo.DirectPwrite | src/opends_common.c:102-176 | fails exactly if an allocation, the reopening, the copy or a call on the file failed, with that error; success leaves exactly pwrite's result unless a pread was cut short, and then if and only if the edge reads missed nothing the write keeps; without a cut pread no exit, a failed ftruncate included, has lost an old byte outside the range; a negative offset changes nothing |
| DirectIo.ReadAll | src/opends_common.c:193-206 | for every pattern of short reads and interruptions the loop collects exactly the bytes of the span that exist, unless a pread failed, whose errno is the result |
| DirectIo.DirectPread | src/opends_common.c:178-220 | fails exactly if the allocation or a pread failed, with that error; else returns min(size, max(0, file size - off)) with exactly those bytes; touches no other byte of the destination, and none on failure |
| DirectIo.ReadBack | src/opends_common.c:102-220 | reading back the range just written returns the source, whatever the edge reads delivered |
| DirectIo.WriteThenRead | src/opends_common.c:102-220 | a direct write followed by a direct read returns the source, unless a call failed |
| RefBackend.RefRead | src/opends_ref.c:187-216 | the reference read: what pread delivers if address, size or offset is off the alignment, failing exactly if a call failed; with all three aligned the same if and only if its one pread was not cut short, else a prefix, failing also if that pread was interrupted |
| RefBackend.AgreesWithPread | src/opends_ref.c:197-211 | on a hole-free file an errorless read of the engine delivers the count and the bytes of pread and touches nothing else |
| RefBackend.ReadBoth | src/opends_ref.c:187-216 | the engine and the reference run on one file give the same count and bytes on the bounced branch, and on the aligned branch if and only if its pread was not cut short |
| RefBackend.CutAlignedReadDiffers | src/opends_ref.c:207-208 | a file of one block and a pread that delivers half of it: the engine reads the whole block, the reference half |
| StreamMap.ProbeIsMasked | src/ds_stream_map.h:37-51 | the probe position is the masked sum of hash and step |
| StreamMap.PutAdds | src/ds_stream_map.h:66-85 | filling the first empty slot of a key's path adds exactly that key to the map the table stands for |
| StreamMap.MissMeansAbsent | src/ds_stream_map.h:52-64 | a path passed up to an empty slot, or to the end, shows that the key is absent |
| StreamMap.SomeSlotIsEmpty | src/ds_stream_map.h:70-85 | a table with fewer keys than slots has an empty slot on every key's path |
| StreamMap.Get | src/ds_stream_map.h:48-64 | the lookup loop answers what the finite map holds, -1 if nothing |
| StreamMap.Put | src/ds_stream_map.h:70-85 | the insert loop adds the key, and fails exactly when there are as many keys as slots |
| StreamMapReader.ReturnsWhatTheMapHolds | src/ds_stream_map.h:40-64 | at the step at which an unsynchronized lookup returns, its result is the map's answer, and the map only grows |
| StreamMapReader.LookupIsLinearizable | src/ds_stream_map.h:40-85 | a whole lookup interleaved with any puts answers the map at a moment during it; a key put before it starts is always found with its idx |
| Registry.Driver.Register | src/opends_aisio.c:1642-1691 | re-registering changes nothing, a new stream gets the next index with its own gate word, and the map never refuses it |
| Registry.Driver.GatesDistinct | src/opends_aisio.c:1667-1673 | two registered streams have distinct indices below n_streams and distinct gate words |
| Registry.Driver.ProbeEnds | src/ds_stream_map.h:16-20 | with at most 8192 keys in 16384 slots every probe meets an empty slot |
| Batch.AsyncBatch.EntryTake | src/opends_batch_async.c:44-54 | takes a delivered slot, blanked, or the next one, and never leaves the array |
| Batch.AsyncBatch.Submit | src/opends_batch_async.c:77-112 | all operations or none: each gets a free slot of its own with its cookie, marked failed exactly if the backend refused it; all other entries go on; inflight and the submitted cookies grow by exactly them |
| Batch.AsyncBatch.CountReady | src/opends_batch_async.c:114-123 | the count lies between what could be delivered at its start and at its end, while other threads set done flags |
| Batch.AsyncBatch.WaitReady | src/opends_batch_async.c:148-162 | the wait ends with min_nr deliverable entries, or with the deadline passed |
| Batch.AsyncBatch.GetStatus | src/opends_batch_async.c:125-188 | nr events or all that was deliverable at the call, at least min_nr unless the timeout has gone by, each the report of another undelivered entry in order (canceled, failed for a refused operation or a negative result, else complete with its count); those entries are free again, the others go on; every cookie reported leaves the batch, none twice |
| Batch.AsyncBatch.Cancel | src/opends_batch_async.c:190-209 | everything outstanding is waited for, every undelivered entry is marked canceled, and nothing else is changed |
| Batch.AsyncBatch.Destroy | src/opends_batch_async.c:211-225 | no future of the batch is pending when its memory goes |
| Batch.ExpiredIff | src/opends_batch_async.c:137-160 | the deadline, a pair of seconds and nanoseconds with a carry, has passed exactly when the timeout has gone by since the start |
| Batch.DeliverKept | src/opends_batch_async.c:163-184 | handing out an entry moves its cookie from the undelivered to the delivered ones and lowers inflight by one |
| Batch.TakeKept | src/opends_batch_async.c:92-109 | taking a slot for an operation adds its cookie to the undelivered ones and raises inflight by one |
| Batch.AllReady | src/opends_batch_async.c:114-123 | when every entry is done, exactly inflight many can be delivered |

## Left out

- The gate protocol is modelled on values, not as objects: its parties run interleaved, and a step system is the form in which their steps can be ordered freely. The read engine, direct I/O, the map, registration and the batch layer are imperative.
- Weak memory: each acquire or release access of the protocol and of the map is one atomic step.
- `src/opends_gds.c`, the CUDA, HOMI and xNVMe calls, device open, teardown and signal handling are foreign calls; only their contracts appear (a read returns device bytes, callbacks run inside a poke, streams run in order).
- `resolve_extents` and its ESTALE retries: a sorted list of disjoint extents, or a failure, is given. Extents beyond 2^64 and arithmetic overflow of device addresses are not modelled.
- In the step system a read is a number of commands and at most one tail; its geometry is the read engine's part. A chunk of the read engine's data reaches memory when its completion runs, not gradually before; in the step system the device may write a stream's bounce buffer at any moment before the completion.
- A write in the step system takes effect between dispatch and release; its bytes are the direct I/O part. `pwrite_op`'s call to mark the device dirty is not modelled.
- GateRuns.ExitDrainsObserved: does not promise more than the code does; what a worker leaves behind is the subject of `GateShutdown`.
- GateDrain.NoStuckState: fairness between threads is not modelled; the lemma says that a helpful step exists and how far it leads, not that the scheduler takes it. A device that turns commands away with nothing else outstanding is taken to do so finitely often; each time changes nothing.
- DirectIo.DirectPwrite: O_APPEND and concurrent writers are not modelled, nor is the overflow of an offset past the largest `off_t`.
- Batch.AsyncBatch.Submit: the operations themselves are the backend's part; here a submission is accepted or refused. Null-pointer checks of the entry points are not modelled.
- Environment parsing, CPU pinning, idle spinning, buffer and handle registration, error strings, `src/opends_sync_async.c` and `python/` would add only easy members.
