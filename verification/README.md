# Verified models of COPRTHR's hard parts

This project models four parts of the COPRTHR SDK in Dafny and proves what they promise. `dafny verify
dfyconfig.toml` checks all of it. `Basics.dfy` holds stock facts; every other file belongs to one of the parts below.
Automatic induction is switched off on every lemma, so that a proof is exactly what its body says.

**Command queue** (`Queue*.dfy`). One worker thread runs `cmdqx1`; any number of clients create the queue, enqueue,
finish, wait for an event, poll, release events and release the queue. The whole protocol is a transition system: a
program counter per thread that stands for a source line, the owner of every mutex, and the wait sets of the condition
variables (the threads whose counter is at a sleep). A signal wakes one sleeper of the client's choice if there is
one; spurious wakeups are steps of their own. A run is any list of enabled steps. `QueueCore.CommandQueue` is the same
data as an object whose fields are updated in place, with one method per stretch under the queue mutex, proved against
the histories of enqueues, calls and completions; the clients' methods may come between any two of the worker's.

- The unlinking of an event (`cmdsched.c:104`) and its entry into the submitted slot (`cmdsched.c:105`) are two steps.
  An unlocked poll answers wrongly only if its second read falls between them, and then exactly when that event was
  enqueued before its first read and its last read comes before the event's call has returned. `PollZeroMeansExecuted`
  is the first half, `LastReadWrongIff` the second, `PollWrongIffWindow` the case of both reads at once, and
  `PollOverlooksEvent` a run. With the two writes as one step every poll would be right (`PollRightWithoutWindow`), and
  a poll that nobody disturbs is right both ways (`PollAloneIff`).
- `pthread_cond_signal` wakes one thread. The worker's signal before it sleeps leaves no finisher behind exactly when at
  most one was asleep (`SignalClearsBlocked`), and its signal of a completion leaves no waiter for that event behind
  exactly when at most one was (`SignalClearsWaiters`). `NoLostWakeup` and `NoLostCompletion` carry this through all
  runs on which those signals find at most one sleeper, and on such runs a queue with work always has a worker that can
  take a step or that others will let go on (`WorkMeansSomeoneRuns`). `TwoFinishersLoseCommand` and
  `TwoWaitersLeaveOne` are runs with two sleepers that end with one left for ever and nobody able to move.
- The worker does not look at `qstat` again before it sleeps. `ReleaseHeardIff` says that a release is heard exactly
  when no command is in a slot and its signal goes to a worker that sleeps; `ReleaseOfBusyQueueHangs` is a run in which
  it never returns.
- What `event.c:40` assumes of its caller is a precondition of the call: an event is released only when it is on the
  complete list, by one client. That it is still there when the client has the mutex is then proved (`ClientsStep`). An
  event is enqueued once, and waited for only after that.

**CLETE** (`Clete*.dfy`). An assignment of an expression over arrays is evaluated either by nested host loops or by a
generated kernel. The tree, its one fold `ForEach` and the combiners are as in the source. The generated text is an
abstract syntax tree over names; compiling it resolves names to positions and fails when a name is not an identifier, is
declared twice or is not declared. The launched kernel runs as work items that load their temporaries one at a time and
then store; the schedule is any sequence of their steps, and a read or write outside an array is a fault. Everything is
stated for any rank from 1; the source has ranks 2 to 4 for `clmulti_array` and rank 1 for `clvector`. Elements are an
uninterpreted type, operators arbitrary functions on it, and `Op::strexpr` is taken to be the operator it prints.

- A name is the number after `a` or `tmp`. Parameter and temporary names go through `int`, expression and store names
  through `intptr_t`: `CompilesIff` gives the exact condition under which the text compiles. When it does not compile,
  `evaluate` does nothing, silently.
- `~c` applied to an address that has all the bits of `c` is a subtraction (`ClearIsSubtract`), which is why masking
  keeps distinct objects distinct.
- The comparison passed to `list::sort` is "at most". Any sorting algorithm leads to the same list of addresses
  (`IncreasingIsUnique`), so an insertion sort stands for it.
- The compiled kernel is kept in a static, one per expression type, and so are its arguments. A set that is refused,
  because the position is past the last parameter or the width is wrong, leaves the earlier value, and the return code
  is not looked at; for a memory parameter the value is first followed as a pointer (`ocl_kernel.c:462`), which is a
  crash for a scalar or a size (`CrashIff`).
- For the same address pattern reuse is right for all values but for the guard (`CachedKernelIff`). Under another
  pattern the kept kernel makes the rebound assignment, in which the k-th object stands where the k-th stood when the
  kernel was generated; objects too many are refused by the size parameters, which then keep the sizes of an earlier
  call. `OneShapeKernelIff` says exactly when that is right for arrays of one shape, whatever the pattern, the number
  of objects, the operators and the values: there are enough objects, the rebound assignment leaves the same arrays,
  and the size that the guard then sees lets the right cells through. `KeptKernelIff` is the same for any shapes that
  fit the places they are bound to, with as many objects as parameters. `ReusedKernelIff` adds that the pattern must be
  the same if no other arrangement of the objects gives the first cell its value; for a plain copy that only asks that
  the first cell changes (`CopyTells`). `SwappedReuseOverwrites` is a short failing input: the kernel of `y = x`,
  reused for `x = y`, overwrites y.
- Preconditions: each array object has storage of its own, one address is one object, array leaves have rank at least
  1, sizes fit in `int`, and the assignment operator is plain assignment, which is all the kernel path can do.

**MD5** (`Md5*.dfy`). `Md5Spec` is the algorithm of RFC 1321 over bytes and 32-bit words; `Md5Transform` and `Md5` are
the program's in-place version on the little-endian build. Words are 32-bit vectors. The two counter words are numbers
below 2^32 whose additions, shifts and masks are written out as arithmetic modulo 2^32. `Md5Words` says what words and
their sums are as numbers and bytes, and `Md5Vectors` evaluates the specification round by round on two test vectors of
the RFC, which fixes its constants.

- `clelf_md5` passes its `size_t` length on as `unsigned`; for longer inputs it digests the part that remains, and its
  contract says so. It has no `return` statement; its result is not part of this model.
- The comment on the final `memset` promises a cleared context. `sizeof(ctx)` is the size of a pointer, so only the
  first two words are cleared; the contract of `MD5Final` states both halves.
- In the unrolled transform the two summands of a step's data argument are passed separately, and the 64 statements are
  spread over eight methods of eight.

**Kernel arguments and CLRPC** (`KernelArgs.dfy`, `RpcPayload.dfy`, `RpcCodec.dfy`). A kernel's argument buffer is an
array with slots at prefix sums; `coprthr_dexec` fills it and queues a copy. For clWaitForEvents the server
concatenates the buffers of the events and the client splits the reply by its own sizes. The marshalling code that
`event_rpcgen.py` emits is modelled over lists of tagged items with the payload kinds of evtag.

- `SafeListIff`: a wait delivers to every event its own bytes, whatever they are, exactly when every transfer in its
  list is neither a map that failed on the server, for which the client still expects bytes, nor preceded by a blocking
  read, whose buffer the server registers and the client does not. `DeliversIff` is the general form: offsets and sizes
  must agree, which is also all that `WaitForEvents` asks.
- A null value writes a whole `size_t` into its slot; `StaysInSlotIff` says when that stays inside, and `LocalRequest`
  that it is the size asked for, also for a slot that was declared smaller. `CodeIff` has the return codes.
- `UnmarshalIff` describes the result of unmarshalling tag by tag, without the loop; the round trip follows from it.
  What is accepted has the declared types (`AcceptedTyped`), nested structs and all.

## Model

| member | source | states |
|---|---|---|
| `QueueCore.UnlinkKeepsDistinct` | src/libcoprthr/cmdsched.c:104 | unlinking from a list without repetitions removes that entry, all of it, and nothing else |
| `QueueCore.PhasesMoveHead` | src/libcoprthr/cmdsched.c:92-168 | the three phases together move the head of the queue to the end of the complete list, with status complete and both slots empty |
| `QueueCore.CommandQueue.constructor` | src/libcoprthr/coprthr_sched.h:86-94 | the empty queue in the running state |
| `QueueCore.CommandQueue.EnqueueCmd` | src/libcoprthr/command_queue.c:119-129 | whatever is in a slot, the event comes last in the order of service and what is served, called and completed stays as it was |
| `QueueCore.CommandQueue.ReleaseEvent` | src/libcoprthr/event.c:36-52 | whatever is in a slot, that one entry leaves the complete list, the others keep their order, and no history changes |
| `QueueCore.CommandQueue.SubmitHead` | src/libcoprthr/cmdsched.c:92-108 | the oldest event that is not finished enters the submitted slot |
| `QueueCore.CommandQueue.CallCommand` | src/libcoprthr/cmdsched.c:113 | commands are called in the order of their enqueue |
| `QueueCore.CommandQueue.RunSubmitted` | src/libcoprthr/cmdsched.c:134-137 | the event being served moves to the running slot and stays the only one |
| `QueueCore.CommandQueue.CompleteRunning` | src/libcoprthr/cmdsched.c:155-158 | the running event is the next to finish, and every call made so far has then been completed |
| `QueueCore.CommandQueue.ServeHead` | src/libcoprthr/cmdsched.c:92-166 | one turn serves the oldest event: its call is made once and it ends up complete |
| `QueueCore.CommandQueue.Drain` | src/libcoprthr/cmdsched.c:92-168 | with no further enqueues every event ever enqueued has been called once and completed, in the order of the enqueues |
| `QueueInvariants.InitInv` | src/libcoprthr/coprthr_sched.h:86-94 | the initial state has all the invariants |
| `QueueInvariants.LockStep` | src/libcoprthr/cmdsched.c:71-179 | every step of every thread keeps: a mutex is owned exactly by the thread whose position says so |
| `QueueInvariants.ServiceStep` | src/libcoprthr/cmdsched.c:88-168 | every step keeps the order of service, the meaning of the slots, the meaning of the statuses and the complete list |
| `QueueInvariants.ClientsStep` | src/libcoprthr/command_queue.c:108-159 | every step keeps what each client in the middle of a call may rely on |
| `QueueInvariants.InvStep` | src/libcoprthr/cmdsched.c:71-179 | the invariants together are inductive |
| `QueueInvariants.InvExec` | src/libcoprthr/cmdsched.c:71-179 | so they hold after every run |
| `QueueInvariants.HeldFreezes` | src/libcoprthr/command_queue.c:119-129 | while a client holds the queue mutex nobody else changes the enqueued or the finished list |
| `QueueInvariants.CompleteMeansFinished` | src/libcoprthr/event.c:536-540 | an enqueued event whose status reads complete has been finished |
| `QueueTheorems.FifoOrder` | src/libcoprthr/cmdsched.c:88-168 | with the queue mutex free, all events ever enqueued are the finished ones, then the one in a slot, then the queued ones, in order, none in two places |
| `QueueTheorems.CallsInOrder` | src/libcoprthr/cmdsched.c:101-119 | at every moment calls have begun and returned once per event, in enqueue order, one at a time |
| `QueueTheorems.StatusIsPlace` | src/libcoprthr/coprthr_sched.h:103-107 | the status of an enqueued event says where it is, in both directions |
| `QueueTheorems.WaitMeansExecuted` | src/libcoprthr/event.c:530-545 | a wait gets past its loop only when the event's call has returned |
| `QueueTheorems.FinishMeansEmpty` | src/libcoprthr/command_queue.c:142-157 | when finish last holds the mutex every event enqueued so far is complete and executed |
| `QueueTheorems.FinishCoversCall` | src/libcoprthr/command_queue.c:138-159 | a finish that has returned covers everything enqueued before it was called, over any run in between |
| `QueueTheorems.PollZeroMeansExecuted` | src/libcoprthr/event.c:548-567 | a poll that reads outside the hand-off window answers 0 only if every event enqueued before its first read has been executed |
| `QueueTheorems.PollInWindowIsWrong` | src/libcoprthr/cmdsched.c:104-105 | from the window, two reads in a row answer 0 while an event's call has not begun |
| `QueueTheorems.PollWrongIffWindow` | src/libcoprthr/event.c:551-556 | the run of the last two reads with nobody in between ends with a wrong 0 exactly from that window |
| `QueueTheorems.LastReadWrongIff` | src/libcoprthr/event.c:551-556 | the run of the last read alone ends with a wrong 0 exactly while the worker is before the return of the call of the last of the k events |
| `QueueTheorems.LastReadEnds` | src/libcoprthr/event.c:555-556 | the last read answers 0 exactly when nothing is in the running slot |
| `QueueTheorems.PollAloneIff` | src/libcoprthr/event.c:548-567 | a poll that is called with the queue mutex free and makes its three reads in a row answers 0 exactly when every event ever enqueued is finished |
| `QueueTheorems.PollRightWithoutWindow` | src/libcoprthr/cmdsched.c:104-105 | over any run in which nothing comes between the two writes every poll that answers 0 is right |
| `QueueTheorems.StatusStep` | src/libcoprthr/cmdsched.c:106-158 | each worker phase lowers the status of one event by one; no other step changes the status of an enqueued event |
| `QueueTheorems.RemainingRun` | src/libcoprthr/cmdsched.c:92-168 | over any run the sum of all statuses grows by 3 per enqueue and shrinks by 1 per phase |
| `QueueTheorems.DrainPhases` | src/libcoprthr/cmdsched.c:92-168 | n queued events drain in exactly 3n phases |
| `QueueTheorems.OnlyWorkerHoldsTwo` | src/libcoprthr/cmdsched.c:101-164 | only the worker ever holds two mutexes |
| `QueueTheorems.NoMutexCycle` | src/libcoprthr/event.c:36-52 | no reachable state has a cycle of threads blocked on mutexes |
| `QueueTheorems.BlockedMeansSomeoneRuns` | src/libcoprthr/cmdsched.c:101-164 | behind a blocked thread there is always a thread with a step it can take now, at most two mutexes away |
| `QueueWakeups.EnqueueWakesWorker` | src/libcoprthr/command_queue.c:127 | with the worker asleep in its run loop the signal of an enqueue wakes the worker and nobody else |
| `QueueWakeups.SignalClearsBlocked` | src/libcoprthr/cmdsched.c:170-171 | the worker's signal leaves no finisher asleep exactly when at most one was |
| `QueueWakeups.WakeStep` | src/libcoprthr/cmdsched.c:170-175 | every step keeps the wakeup invariant, if the worker signals only when at most one finisher is asleep |
| `QueueWakeups.NoLostWakeup` | src/libcoprthr/cmdsched.c:170-175 | over a run of such steps a worker asleep in its run loop has empty slots, no finisher beside it, and nothing queued unless the enqueuer is about to signal |
| `QueueWakeups.LifeStep` | src/libcoprthr/command_queue.c:48-77 | every step keeps the life cycle of the queue state: 0, then 1, then 2 for good |
| `QueueWakeups.ReleaseHeardIff` | src/libcoprthr/command_queue.c:75-94 | the worker will act on a release exactly when no command is in a slot at the signal and, if it sleeps, it is the one woken |
| `QueueWakeups.ReleaseReaches` | src/libcoprthr/command_queue.c:75-94 | which a sleeping worker is, on runs on which it signals at most one blocked finisher |
| `QueueWakeups.ReleaseHeard` | src/libcoprthr/command_queue.c:75-100 | then over the rest of any run no command is begun again and the worker is on its way out |
| `QueueWakeups.HeardStep` | src/libcoprthr/cmdsched.c:170-179 | and each of its steps brings it nearer to its exit |
| `QueueWakeups.ReleaseLost` | src/libcoprthr/cmdsched.c:170-177 | otherwise the worker does not exit, over any run that does not wake it |
| `QueueProgress.ExitStep` | src/libcoprthr/cmdsched.c:75-88 | every step keeps: the worker is past its idle loop only after the creation and out of its run loop only after the release |
| `QueueProgress.WorkMeansSomeoneRuns` | src/libcoprthr/cmdsched.c:88-179 | over such a run, while a queue in use has anything queued or in a slot, the worker has a step it can take now, or waits for a mutex whose owner, or the owner's blocker, has one, or sleeps while a client that will signal it has one |
| `QueueWaiters.SignalClearsWaiters` | src/libcoprthr/cmdsched.c:162 | the signal of a completion leaves no waiter for the event asleep exactly when at most one was |
| `QueueWaiters.WaitersStep` | src/libcoprthr/event.c:530-545 | while completions are signalled to at most one waiter, every step keeps: nobody falls asleep on a complete event, and a sleeper's event is complete only until the signal |
| `QueueWaiters.NoLostCompletion` | src/libcoprthr/event.c:530-545 | over such a run a client asleep on a complete event is about to be signalled |
| `QueueReleases.ReturnsStep` | src/libcoprthr/event.c:36-52 | every step keeps: past its unlinking a released event is finished and off the complete list, and past the join of a queue release the worker has exited |
| `QueueReleases.ReleasedIsOff` | src/libcoprthr/event.c:36-52 | an event release that returns, over any run, leaves its event finished and off the complete list |
| `QueueReleases.ReleaseJoins` | src/libcoprthr/command_queue.c:75-100 | a queue release that returns, over any run, returns only after the worker has exited |
| `QueueRuns.TwoFinishersLoseCommand` | src/libcoprthr/cmdsched.c:170-175 | a run with two blocked finishers after which an event is queued and nobody can move |
| `QueueRuns.TwoWaitersLeaveOne` | src/libcoprthr/cmdsched.c:162 | a run with two waiters for one event after which it is complete, one of them sleeps and nobody can move |
| `QueueRuns.PollOverlooksEvent` | src/libcoprthr/event.c:548-567 | a run in which a poll answers 0 before the only event's call has begun |
| `QueueRuns.ReleaseOfBusyQueueHangs` | src/libcoprthr/cmdsched.c:170-177 | a run in which a release waits for a worker that nobody will wake |
| `CleteIndex.CoordOfFlat` | src/CLETE/clmulti_array_CLETE.h:1130-1134 | the row-major position determines the coordinates |
| `CleteIndex.FlatOfCoord` | src/CLETE/clmulti_array_CLETE.h:1033 | the coordinates of a position lie in the shape and lead back to it |
| `CleteIndex.DivLastFirst` | src/CLETE/clmulti_array_CLETE.h:1034-1036 | the order of the divisions does not matter |
| `CleteIndex.LeadingCoordinates` | src/CLETE/clmulti_array_CLETE.h:1033-1050 | dividing a position by the trailing sizes, leftmost first, gives the position of the leading coordinates |
| `CleteTree.FoldAgrees` | src/CLETE/ForEach.h:72-142 | a fold sees its leaf functor only at the leaves |
| `CleteTree.FoldOfMap` | src/CLETE/Combiners.h:198-236 | folding a tree with rewritten leaves is folding the original with the composed functor |
| `CleteTree.MapsAgree` | src/CLETE/Combiners.h:198-236 | trees of one type whose leaves are rewritten to the same things become equal |
| `CleteTree.LeavesOfMap` | src/CLETE/Combiners.h:460-501 | the list combiner visits the leaves of a rewritten tree in the same order |
| `CleteTree.AndOverLeaves` | src/CLETE/Combiners.h:295-309 | the boolean fold holds exactly when every leaf satisfies the question |
| `CleteTree.AnyLeafSpreads` | src/CLETE/Combiners.h:127-139 | what one leaf has and the combiner keeps from either side, the fold has |
| `CleteTree.ConformsMeans` | src/CLETE/clmulti_array_CLETE.h:235-345 | the size fold accepts exactly the trees whose arrays have a prefix of the left-hand shape |
| `CleteHost.ReadsAreInside` | src/CLETE/clmulti_array_CLETE.h:188-231 | every conforming leaf is read inside its array, and the left-hand array only at the cell being written |
| `CleteHost.OwnCellOnly` | src/CLETE/clmulti_array_CLETE.h:1130-1135 | so a cell's value does not depend on the other cells of the left-hand side, even when it occurs on the right |
| `CleteHost.AssignCell` | src/CLETE/clmulti_array_CLETE.h:1134 | one assignment of the loop in place |
| `CleteHost.HostLoop1` | src/CLETE/clvector_CLETE.h:400-402 | the loop leaves in every cell the expression on the values before the assignment |
| `CleteHost.HostLoop2` | src/CLETE/clmulti_array_CLETE.h:791-794 | the same for rank 2 |
| `CleteHost.HostLoop3` | src/CLETE/clmulti_array_CLETE.h:958-962 | the same for rank 3 |
| `CleteHost.HostLoop4` | src/CLETE/clmulti_array_CLETE.h:1130-1135 | the same for rank 4 |
| `CleteNames.CommonIff` | src/CLETE/Combiners.h:398-412 | the bit fold has exactly the bits that every leaf's address has |
| `CleteNames.ClearIsSubtract` | src/CLETE/clmulti_array_CLETE.h:991 | clearing bits that an address has subtracts them |
| `CleteNames.MaskIsInjective` | src/CLETE/clmulti_array_CLETE.h:991 | masking keeps the addresses of leaves and left-hand side distinct |
| `CleteNames.NarrowingIsExact` | src/CLETE/Functors.h:628-710 | a small masked address has one name on all paths; a large one has an expression name that no parameter has |
| `CleteLists.SortUniqueMeans` | src/CLETE/clmulti_array_CLETE.h:995-1009 | after sort and unique the list is strictly increasing and has exactly the addresses that went in |
| `CleteLists.IncreasingIsUnique` | src/CLETE/PETE.h:75-79 | there is one such list, whatever the sorting algorithm |
| `CleteKernel.RefListIs` | src/CLETE/clmulti_array_CLETE.h:376-391 | the reference list is the leaves in order under their narrowed names |
| `CleteKernel.ReadsAre` | src/CLETE/clmulti_array_CLETE.h:993-996 | the list of temporaries is the leaves in address order, each once |
| `CleteKernel.ParamsAre` | src/CLETE/clmulti_array_CLETE.h:998-1009 | the list of parameters is that and the left-hand side, which stands once even when it is a leaf |
| `CleteKernel.RoundUp` | src/CLETE/clmulti_array_CLETE.h:1016-1017 | the launch size is the next multiple of 256 |
| `CleteCompile.CompilesIff` | src/CLETE/clmulti_array_CLETE.h:1021-1069 | the generated text compiles exactly when all masked leaves are below 2^31 and the masked left-hand address is below 2^63 |
| `CleteCompile.FarApartDoesNotCompile` | src/CLETE/Functors.h:710 | with two objects 2^40 bytes apart the text does not compile |
| `CleteCompile.ResolvesToCanonical` | src/CLETE/clmulti_array_CLETE.h:1025-1056 | parameter, temporary, expression and store names all lead to the objects they were made from |
| `CletePattern.SameRanks` | src/CLETE/clmulti_array_CLETE.h:995-1009 | lists that compare alike put corresponding addresses at the same position |
| `CletePattern.SamePatternSameProgram` | src/CLETE/clmulti_array_CLETE.h:1019-1067 | assignments of one type with the same address pattern get the same program |
| `CleteLaunch.BoundSizes` | src/CLETE/clmulti_array_CLETE.h:1093-1096 | the sizes follow the objects in the argument list in the order in which the text declares them |
| `CleteTheorems.ArgOfObject` | src/CLETE/clmulti_array_CLETE.h:1073-1091 | an object is bound at the position of its own parameter: arrays as memory, scalars by value |
| `CleteTheorems.IndexIsHostIndex` | src/CLETE/clmulti_array_CLETE.h:1033-1050 | the generated index selects the cell of a lower-rank array that the host loop reads |
| `CleteTheorems.LoadIsExpected` | src/CLETE/clmulti_array_CLETE.h:1040-1050 | while its cell has the old value, a work item's load gives what the host loop would read, without a fault |
| `CleteTheorems.BodyIsHost` | src/CLETE/clmulti_array_CLETE.h:1053-1056 | the printed expression over the temporaries gives the host's value |
| `CleteTheorems.TickKeeps` | src/CLETE/clmulti_array_CLETE.h:1032-1060 | every step of every work item succeeds and keeps the launch invariant |
| `CleteTheorems.RunKeeps` | src/CLETE/clmulti_array_CLETE.h:1069-1099 | so does every schedule |
| `CleteTheorems.LaunchAgrees` | src/CLETE/clmulti_array_CLETE.h:1069-1135 | when all items of any schedule have returned, storage is what the host loop leaves and each cell was stored to exactly once |
| `CleteTheorems.EnoughTurnsComplete` | src/CLETE/clmulti_array_CLETE.h:1099 | a launch is over as soon as every work item has had one step per temporary and one more |
| `CleteTheorems.FreshKernelIsHostLoop` | src/CLETE/clmulti_array_CLETE.h:975-1144 | the same for the kernel as generated, compiled and bound by one call |
| `CleteCache.ProgramIffPattern` | src/CLETE/clmulti_array_CLETE.h:1019-1067 | assignments of one type share a program exactly when their addresses have the same pattern |
| `CleteCache.CachedKernelIff` | src/CLETE/clmulti_array_CLETE.h:1017-1099 | a kernel reused for the same pattern never faults, and always agrees with the host loop, exactly when it has the guard or the new size needs no padding |
| `CleteArgs.CrashIff` | src/libcoprthr_opencl/ocl_kernel.c:454-472 | setting the arguments crashes exactly when a memory parameter is given a scalar or a size |
| `CleteArgs.SetFirstMeans` | src/libcoprthr_opencl/ocl_kernel.c:157-180 | each slot is set once, from its own earlier value, and positions past the last are refused |
| `CleteArgs.SlotByWidth` | src/libcoprthr/kernel.c:100-127 | a scalar or size parameter keeps its earlier value exactly when it is offered nothing or something of another width; otherwise it takes the argument, as a value of its own kind |
| `CleteArgs.KindsKept` | src/libcoprthr/kernel.c:100-127 | what a slot holds is always of its parameter's kind |
| `CleteArgs.MatchingTaken` | src/libcoprthr/kernel.c:100-127 | arguments of the right kinds are all taken |
| `CleteArgs.SlotsIff` | src/CLETE/clmulti_array_CLETE.h:1073-1096 | with matching kinds the call crashes exactly when there are fewer objects than parameters |
| `CleteArgs.SizesKept` | src/libcoprthr/kernel.c:106-107 | a size parameter that is offered an array keeps its earlier value |
| `CleteReuse.SamePatternBinds` | src/CLETE/clmulti_array_CLETE.h:1073-1096 | under the same pattern every set is taken |
| `CleteReuse.FoldTells` | src/CLETE/ForEach.h:72-142 | with injective operators equal folds of trees of one type have equal leaves, one by one |
| `CleteReuse.FirstRun` | src/CLETE/clmulti_array_CLETE.h:1032-1060 | for any program and arguments, whatever the schedule, work item 0 loads what the arrays held before the launch and its cell is its own |
| `CleteReuse.CompletedTellsFirstCell` | src/CLETE/clmulti_array_CLETE.h:1012-1099 | whatever the values and the sizes, a completed launch of a kept kernel on the new objects leaves what the host loop leaves only if the rebound expression has the host's first value, or another array was the target and the first cell needed no change |
| `CleteReuse.CopyTells` | src/CLETE/clmulti_array_CLETE.h:1012-1099 | the values of a plain copy tell its objects apart exactly when there is a first cell and it changes |
| `CleteReuse.InjectiveTells` | src/CLETE/ForEach.h:72-142 | with injective operators distinct first cells and a change are enough |
| `CleteReuse.CompletedTellsPattern` | src/CLETE/clmulti_array_CLETE.h:1012-1099 | when no other arrangement of the objects gives the first cell its value, a completed launch of a kept kernel leaves what the host loop leaves only under the pattern it was generated for |
| `CleteReuse.ReusedKernelIff` | src/CLETE/clmulti_array_CLETE.h:1012-1099 | on such values a kept kernel agrees with the host loop under every schedule exactly when the patterns are the same and it has the guard or the new size needs no padding |
| `CleteRebind.PatternIffRebound` | src/CLETE/clmulti_array_CLETE.h:1073-1091 | the patterns are the same exactly when the rebound assignment is the new one |
| `CleteRebind.ReboundBind` | src/CLETE/clmulti_array_CLETE.h:1073-1096 | the rebound assignment's own arguments are the first objects and the sizes |
| `CleteRebind.ReboundIff` | src/CLETE/clmulti_array_CLETE.h:1012-1099 | on these a launch never faults, agrees with the host loop if the rebound assignment leaves the same arrays, and when completed only then |
| `CleteRebind.KeptKernelIff` | src/CLETE/clmulti_array_CLETE.h:1012-1099 | with as many objects as parameters, of any shapes that fit, a kept kernel agrees with the host loop under every schedule exactly when the rebound assignment leaves the same arrays and it has the guard or the new size needs no padding |
| `CleteSizes.SameRun` | src/CLETE/clvector_CLETE.h:318-332 | programs on arrays of the full rank use no size but the first, and that only in the guard |
| `CleteSizes.GuardStops` | src/CLETE/clvector_CLETE.h:320 | under every schedule a cell that the guard's size stops is not stored |
| `CleteSizes.NeverDone` | src/CLETE/clvector_CLETE.h:329-330 | an item that passes beyond the end of the target never returns |
| `CleteSizes.CompletedIff` | src/CLETE/clvector_CLETE.h:300-369 | a completed launch on arrays of one shape agrees with the host loop exactly when the rebound assignment leaves the same arrays and the kernel's size fits |
| `CleteSizes.SlotsOverfull` | src/CLETE/clvector_CLETE.h:347-366 | on arrays of one shape the sets crash exactly when objects are missing; with objects too many the first size is an earlier call's |
| `CleteSizes.OneShapeKernelIff` | src/CLETE/clvector_CLETE.h:300-369 | so for the whole call and all schedules, whatever the pattern, the number of objects, the operators and the values |
| `CleteReuse.SwappedReuseOverwrites` | src/CLETE/clmulti_array_CLETE.h:1012-1099 | the kernel of one copy, reused for the copy the other way, overwrites the source |
| `CleteEvaluate.Evaluate.SetArguments` | src/CLETE/clvector_CLETE.h:347-366 | the loop of sets on the kernel's own slots, refusals ignored |
| `CleteEvaluate.Evaluate.Call` | src/CLETE/clmulti_array_CLETE.h:975-1144 | the whole call with its static kernel and arguments: exit on a shape mismatch, nothing when the text does not compile, a crash exactly when the sets crash; agreement with the host loop for fresh kernels and for reuse under the same pattern; for arrays of one shape agreement of completed launches exactly when the rebound assignment leaves the same arrays and the kernel's size fits |
| `Md5Spec.WordOfBytes` | src/libclelf/clelf_md5.c:62-63 | reading back the bytes of a word gives the word |
| `Md5Words.WordIsNumber` | src/libclelf/clelf_md5.c:123 | a word is the number that its four bytes spell, low-order byte first |
| `Md5Words.BytesOfWords` | src/libclelf/clelf_md5.c:135 | byte j of word k of a block is byte 4k + j of the block |
| `Md5Words.WordsOfRegBytes` | src/libclelf/clelf_md5.c:187 | registers written out as bytes and read back as words are the registers, in their order |
| `Md5Words.CounterIsNumber` | src/libclelf/clelf_md5.c:182-183 | the four bytes of a counter word spell its number |
| `Md5Words.PlusIsModular` | src/libclelf/clelf_md5.c:288-291 | addition of words is addition of their numbers modulo 2^32 |
| `Md5Vectors.EmptyDigest` | src/libclelf/clelf_md5.c:295-308 | the first test vector of RFC 1321, appendix A.5: the digest of the empty message is d41d8cd98f00b204e9800998ecf8427e |
| `Md5Vectors.AbcDigest` | src/libclelf/clelf_md5.c:295-308 | the third: the digest of "abc" is 900150983cd24fb0d6963f7d28e17f72 |
| `Md5Spec.Pass1Rows` | src/libclelf/clelf_md5.c:220-235 | the first pass takes the words in order with shifts 7, 12, 17, 22 |
| `Md5Spec.Pass2Rows` | src/libclelf/clelf_md5.c:237-252 | the second pass takes every fifth word from 1 on with shifts 5, 9, 14, 20 |
| `Md5Spec.Pass3Rows` | src/libclelf/clelf_md5.c:254-269 | the third pass takes every third word from 5 on with shifts 4, 11, 16, 23 |
| `Md5Spec.Pass4Rows` | src/libclelf/clelf_md5.c:271-286 | the fourth pass takes every seventh word with shifts 6, 10, 15, 21 |
| `Md5Spec.ChainOfPrefix` | src/libclelf/clelf_md5.c:133-139 | the chaining state of whole blocks does not depend on what follows |
| `Md5Spec.BitsOfLength` | src/libclelf/clelf_md5.c:108-111 | the two counter words together are 8 times the length modulo 2^64 |
| `Md5Spec.PadLengthIsLeast` | src/libclelf/clelf_md5.c:164-179 | the padding brings the length to 56 modulo 64 |
| `Md5Transform.CoreFunctions` | src/libclelf/clelf_md5.c:195-199 | the optimised first function, the third and the fourth are F, H and I |
| `Md5Transform.SecondFunction` | src/libclelf/clelf_md5.c:197 | the second, derived from the first, is G |
| `Md5Transform.ShiftOr` | src/libclelf/clelf_md5.c:203 | two shifts and an or rotate |
| `Md5Transform.StepIsMix` | src/libclelf/clelf_md5.c:202-203 | the step macro is the RFC's operation |
| `Md5Transform.Step` | src/libclelf/clelf_md5.c:202-286 | a step with the table's operands advances the RFC's register history by one |
| `Md5Transform.AllSteps` | src/libclelf/clelf_md5.c:215-286 | the 64 unrolled steps are the RFC's 64 rounds, for every state and block |
| `Md5Transform.MD5Transform` | src/libclelf/clelf_md5.c:210-292 | the transform in place is the compression of one block |
| `Md5.CarryIsExact` | src/libclelf/clelf_md5.c:108-111 | carry and the top three bits of the length keep the two-word counter exact |
| `Md5.InBufferIsTail` | src/libclelf/clelf_md5.c:113 | the low counter word gives the number of waiting bytes |
| `Md5.OneBlock` | src/libclelf/clelf_md5.c:176-184 | the padded tail when the length fits the same block |
| `Md5.TwoBlocks` | src/libclelf/clelf_md5.c:168-175 | and when it takes another block |
| `Md5.MD5Context.constructor` | src/libclelf/clelf_md5.c:85-95 | a new context has absorbed the empty message |
| `Md5.MD5Context.Count` | src/libclelf/clelf_md5.c:106-113 | the counter after an update and the bytes waiting before it |
| `Md5.MD5Context.Absorb` | src/libclelf/clelf_md5.c:125-136 | filling the buffer and transforming absorbs the next block of the whole message |
| `Md5.MD5Context.AddToBlock` | src/libclelf/clelf_md5.c:121-124 | a short piece joins the waiting block |
| `Md5.MD5Context.CompleteBlock` | src/libclelf/clelf_md5.c:117-130 | a longer one first completes it |
| `Md5.MD5Context.Chunks` | src/libclelf/clelf_md5.c:131-139 | the chunk loop absorbs all whole blocks |
| `Md5.MD5Context.Tail` | src/libclelf/clelf_md5.c:141-143 | the rest is kept for later |
| `Md5.MD5Context.MD5Update` | src/libclelf/clelf_md5.c:101-144 | a context that has absorbed m has absorbed m followed by the data: chaining state, live bytes and both counter words |
| `Md5.MD5Context.Pad` | src/libclelf/clelf_md5.c:156-179 | both padding branches leave the last block but for the length |
| `Md5.MD5Context.WriteLength` | src/libclelf/clelf_md5.c:182-184 | the counter words complete it |
| `Md5.MD5Context.MD5Final` | src/libclelf/clelf_md5.c:150-190 | the RFC 1321 digest of the absorbed message; only half of the chaining state is cleared |
| `Md5.clelf_md5` | src/libclelf/clelf_md5.c:295-308 | the RFC 1321 digest for every input below 2^32 bytes, and of the part that remains for longer ones |
| `Md5.SplitsAgree` | src/libclelf/clelf_md5.c:101-144 | however a message is cut up, contexts that absorbed it agree in chaining state, counter and live bytes |
| `Md5.AnySplit` | src/libclelf/clelf_md5.c:101-144 | successive updates absorb the concatenation of their pieces |
| `KernelArgs.SlotsAreDisjoint` | src/libcoprthr/kernel.c:59-66 | argument slots start at 0 and follow one another without overlap and without a gap |
| `KernelArgs.StaysInSlotIff` | src/libcoprthr/kernel.c:87-141 | what one call stores stays in its slot exactly when the value is not null, the slot is empty, or it holds a machine word |
| `KernelArgs.LocalRequest` | src/libcoprthr/kernel.c:87-141 | a null value with a size always succeeds and stores the size asked for, or the declared one if none is |
| `KernelArgs.CodeIff` | src/libcoprthr/kernel.c:94-190 | for every other call each return code comes under its own condition on kind, declared size, size and value, and bytes are stored only on success, for the kinds that are copied |
| `KernelArgs.LittleEndianAt` | src/libcoprthr/kernel.c:141 | byte j of a stored size is its j-th digit to base 256 |
| `KernelArgs.LittleEndianRoundTrip` | src/libcoprthr/kernel.c:141 | a size stored through the slot reads back |
| `KernelArgs.SlotAfter` | src/libcoprthr/event.c:747-750 | after all arguments a slot holds what its own argument put there, then the kernel's earlier bytes |
| `KernelArgs.SlotIsGivenValue` | src/libcoprthr/event.c:747-750 | values and memory objects of the declared size determine their slots alone |
| `KernelArgs.SlotIsLocalSize` | src/libcoprthr/event.c:747-750 | a null argument's slot reads the size that the program declares for it |
| `KernelArgs.FillOffsets` | src/libcoprthr/kernel.c:59-66 | the running-sum loop computes the offsets |
| `KernelArgs.Kernel.constructor` | src/libcoprthr/kernel.c:34-68 | a kernel with its offsets and buffer, none without arguments |
| `KernelArgs.Kernel.SetArg` | src/libcoprthr/kernel.c:71-195 | a request for local memory stores the size asked for; for every other call each code has its condition, a copied value stands in its slot on success, and the rest of the buffer is unchanged |
| `KernelArgs.Kernel.SetMemory` | src/libcoprthr/kernel.c:115-163 | the part that global and constant memory share |
| `KernelArgs.SetAll` | src/libcoprthr/event.c:747-750 | the loop over the arguments, return codes ignored |
| `KernelArgs.Launches.DExec` | src/libcoprthr/event.c:739-774 | the launch is queued with a fresh copy of exactly these bytes; earlier launches keep theirs |
| `KernelArgs.Launches.RunHead` | src/libcoprthr/event.c:453-457 | the oldest launch runs with the bytes of its own call, whatever was set since |
| `RpcPayload.ConcatAt` | src/libclrpc/clrpcd.c:1946-1955 | in the concatenation each event's bytes stand at the sum of the sizes before it |
| `RpcPayload.DeliversIff` | src/libclrpc/libclrpc.c:2299-2309 | every event gets its own bytes, for all contents, exactly when offsets and sizes agree |
| `RpcPayload.OffsetsDiffer` | src/libclrpc/clrpcd.c:785-801 | behind maps that succeed the client's offset is never above the server's, and equal exactly up to the first blocking read |
| `RpcPayload.SafeListIff` | src/libclrpc/libclrpc.c:1437-1444 | a wait is safe for all contents exactly when every transfer is neither a failed map nor preceded by a blocking read |
| `RpcPayload.CopyAll` | src/libclrpc/clrpcd.c:1946-1955 | the copying loop with its advancing pointer: behind the bytes of the events before it stand the first bytes of each event's buffer, in order |
| `RpcPayload.Gather` | src/libclrpc/clrpcd.c:1928-1958 | no bytes when the sizes sum to 0, otherwise the concatenation followed by whatever the block held |
| `RpcPayload.Scatter` | src/libclrpc/libclrpc.c:2298-2309 | each destination gets its cut of the reply in its first bytes and keeps the others |
| `RpcPayload.WaitForEvents` | src/libclrpc/libclrpc.c:2275-2320 | with agreeing offsets and sizes and disjoint destinations, the first bytes of each destination become those of its own event's buffer and the others stay |
| `RpcCodec.Struct.AddEntry` | third-party/event_rpcgen.py:1392-1411 | an entry is taken exactly when it verifies and its tag is new; tags stay distinct |
| `RpcCodec.StepMeans` | third-party/event_rpcgen.py:257-279 | a turn of the unmarshal loop changes the field of its tag and no other |
| `RpcCodec.UnmarshalIff` | third-party/event_rpcgen.py:248-308 | unmarshalling yields a message exactly when all tags are known, each field holds its tag's decoded values in order, at most one unless it is an array, and no field that is not optional is without an item |
| `RpcCodec.MarshalledTag` | third-party/event_rpcgen.py:227-246 | a field's items are found in the marshalled form under its tag |
| `RpcCodec.MarshalledInOrder` | third-party/event_rpcgen.py:231-244 | the items of an earlier field stand before those of a later one |
| `RpcCodec.ValueRoundTrip` | third-party/event_rpcgen.py:311-346 | decoding an encoded value gives the value, nested structs included |
| `RpcCodec.RoundTrip` | third-party/event_rpcgen.py:227-346 | unmarshalling the marshalled form of a complete message into a new struct gives the same message |
| `RpcCodec.ScalarIff` | third-party/event_rpcgen.py:565-736 | apart from structs a payload is read exactly when it is the written form of a value of the field's type |
| `RpcCodec.AcceptedTyped` | third-party/event_rpcgen.py:248-287 | whatever the items, a message that is accepted has the fields' types, nested structs included |
| `RpcCodec.UnmarshalLoop` | third-party/event_rpcgen.py:249-287 | the loop computes that result, and succeeds under the condition of `UnmarshalIff` |
| `RpcCodec.GrowArray.Expand` | third-party/event_rpcgen.py:1144-1158 | one element, then doubling; the contents are kept |
| `RpcCodec.GrowArray.Add` | third-party/event_rpcgen.py:1160-1180 | the element is appended, or without memory nothing changes; the length never exceeds what is allocated |
| `RpcCodec.GrowArray.Append` | third-party/event_rpcgen.py:1207-1229 | the same for the unmarshalling of an array element |

## Left out

- QueueWakeups.ReleaseHeard: does not claim that the release returns, because that needs a fair scheduler; `HeardStep`
  bounds the worker's remaining steps instead.
- QueueTheorems.WaitMeansExecuted: states safety only; that a waiter is signalled is `NoLostCompletion`, and that it
  then returns needs a fair scheduler.
- QueueCore.CommandQueue.ServeHead: composes the worker's stretches with no client in between; the transition system has
  the interleavings.
- QueueCore.CommandQueue.Drain: the same, over the whole inner loop.
- CleteRebind.KeptKernelIff: leaves out objects that do not fit, such as an array of another rank, and with them other
  numbers of objects unless all are arrays of one shape (`OneShapeKernelIff`).
- CleteReuse.ReusedKernelIff: leaves out a scalar parameter that is given an array or a size; it then holds an earlier
  scalar or the bytes of a pointer or an int, which `SetOne` models.
- The bytes of a scalar read as a negative size.
- `__do_exec_cmd_1`, which runs a command without the queue: such an event never joins the complete list.
- Timestamps, CPU affinity, logging and failures of `pthread_create`.
- The command call itself is an opaque effect of which only beginning and return are seen.
- CLETE's element types, `Promote` and the type tables: all elements have one type.
- CLETE's `int` overflow of sizes and of the padded launch size: sizes are assumed to fit.
- The rank-1 `clmulti_array` path, which leaves out an argument of `Ref`; rank 1 is `clvector`.
- The order in which the device synchronises memory (`clmattach`, `clmsync`, `clwait`): the launch is taken to see the
  arrays as they are and to be complete when `evaluate` returns.
- Kernel text as characters: names are numbers, operators are tags.
- The sine function behind MD5's table of constants; the 64 constants are listed.
- The big-endian build of MD5.
- `coprthr_dexec` with more arguments than the kernel has, or with pointers that do not cover their slot; the caller
  vouches for both.
- Work dimensions of a launch, and launches of several kernels in one event.
- RpcPayload.Scatter: the reply is taken to be as long as the client expects; the source reads past the end of a shorter
  one.
- The diagnostic print in the server's wait callback, which reads ten integers from every buffer.
- RPC transport, object handles, and failures of memory allocation outside the growing arrays.
- RpcCodec.RoundTrip: an entry that is required but not set is marshalled from its initial value; such messages are not
  complete and are excluded, as the unmarshaller refuses them.
- RpcCodec.Decode: a payload is decoded only by the evtag call of its own kind; how evtag would read another kind's
  bytes is not part of this model.
- `RpcCodec` names, comments and the parser of the schema language.
