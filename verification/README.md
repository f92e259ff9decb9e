# Verification of the deterministic supervisor and of image flattening

A Dafny model of two parts of the runtime and proofs about it.

**The ptrace supervisor** (`src/runtime/supervisor.rs`) runs a multi-threaded workload one thread at a time, parks futex
waiters itself, replaces randomness and time, and writes a numbered trace. It is modelled twice:

* `Machine.dfy`: a pure state machine. A state is the supervisor's tables, its trace, its generator and clock; a step
  handles one waitpid status. Registers, futex words and clone arguments arrive with the status that reports a stop.
  Three things the source only has implicitly are explicit: the activations of `await_attach` still waiting
  (`frames`), the kernel's view of every task (`task`: a tracee can be resumed only while it is stopped, otherwise
  the call fails with ESRCH and the run ends with a ptrace error), and a log of what was done to the guest (`acts`:
  turns, resumes, writes, skipped calls, returned values, parks, wakes, deaths) with threads named by their virtual
  ids.
* `Supervisor.dfy`: the object itself, with the source's fields and methods updating them in place, `dispatch` and
  `await_attach` calling each other, and the statuses still to come read one by one from a `Host`. `Supervise` is
  proved to return the outcome and write the trace of the machine's run for every init, seed and status stream, so
  what is proved of `Machine.Run` is proved of it.

Two sets of kernel rules are used. `Invariants.Legal` admits every workload: threads and fork children, signals,
deaths at any moment, attach stops before or after clone events, pids reused once nothing mentions them. The safety
results hold for all of these. `Threads.ThreadsOnly` admits the workloads the single-runner scheduler is for: every task is a
thread of the init, threads die by their own exit or by an exit_group, the leader last. The results about waiting,
deadlock and reproducibility are for these.

* `Invariants.dfy`: what every reachable state satisfies. `Trace.dfy`, `Ledger.dfy`, `Futexes.dfy`, `Replay.dfy`: the
  trace and the log of every run, each read by an independent automaton that knows nothing of the supervisor.
* `Renaming.dfy`, `Freshness.dfy`, `Confluence.dfy`, `Teardown.dfy`, `Determinism.dfy`: pids do not matter, the order of attach
  stop and clone event does not matter, the order of deaths under exit_group does not matter, and together: two
  runs of the same deterministic guest with the same seed write the same trace. A guest is any function from what
  was done to it so far to its next stop. `Attained.dfy`: the run they are compared with exists.
* `Threads.dfy`, `Fairness.dfy`: no ESRCH, exact deadlock verdict, exactly when a wait can hang; bounded waiting and
  strict rotation.
* `Limits.dfy`, `Deaths.dfy`, `KillOrder.dfy`, `Nesting.dfy`, `StaleFlags.dfy`: what the code keeps only under a condition,
  with the exact condition, for every workload. `ConcreteRuns.dfy`: for each of them a legal run from the start in
  which it fails.
* `Calls.dfy`, `FutexCalls.dfy`, `Stops.dfy`: what each call and each other status does in every reachable state, in the
  numbers of the x86-64 ABI and without the machine's own definitions. `Joins.dfy`: from a clone call to the join it
  promises. `Signals.dfy`: which signals resumes carry. `Readings.dfy`: the clocks of every run.
* `Prng.dfy`, `Recorder.dfy`, `Clock.dfy`: the generator (on exact 64-bit words), buffer filling and hex, the clock.
  `KnownAnswers.dfy`: the first draws, bytes and recorded text of seed 1.

**Image flattening** (`src/oci/image.rs`) is in `Image.dfy`: `sanitize_path`, the fold of entries and whiteouts over a tree held in
a mutable `Disk`, and the worklist that normalises metadata. A tree maps relative paths to files and directories.
`Flattening.dfy` proves what the fold comes to, `Whiteouts.dfy` tells it from the paths of the entries.

## Where the code does not do what it or its documentation says

* A fork child's exit_group sets `group_exiting` for the whole supervisor (src/runtime/supervisor.rs:570-573): when the
  running thread dies after that nobody is scheduled any more. If anybody is left in line after such a death it gets a
  turn if and only if no exit_group was called by anyone (`Deaths.NextServedExactly`); `ConcreteRuns.ForkChildExitsFirst`
  is a run in which the init is left, and would have been served without the exit_group.
* src/runtime/supervisor.rs:7-12 says a parked futex waiter can never stall the scheduler, and none does. Something else
  can: a leader that exits before its threads is waited for, and cannot be reaped before them.
  `Threads.HangsExactly` says that, when all tasks are threads, of all waits the supervisor itself enters this is the one
  in which the kernel has nothing to report; `ConcreteRuns.LeaderExitsFirst` is a run. (A resumed thread that blocks in the kernel, in a read
  or a futex command that is passed through, keeps the scheduler waiting as well: see below.)
* The source promises a trace that does not depend on the kernel's kill order for exit_group only
  (src/runtime/supervisor.rs:502-505), and keeps that (`Teardown.TeardownOrderBlind`). Without an exit_group the order
  in which the running thread and another are reaped shows if and only if it changes who is served next
  (`KillOrder.KillOrderExactly`); with a non-empty queue, if and only if the other is its head (`KillOrder.HeadDecides`).
  `ConcreteRuns.KillOrderShows` is a pair of runs.
* If the running thread is reaped with no exit_group in flight and the next in line has had its exit event, the resume of
  the latter fails and the run ends with an error of ptrace instead of 128 + the signal, if and only if so
  (`Deaths.DeathFailsExactly`); `ConcreteRuns.KillTurnsError` is a run.
* `await_attach` tests `pending_start` once, before its loop (src/runtime/supervisor.rs:376-380): an outer activation whose
  attach stop is consumed by an inner one never returns. The outermost activation can still return if and only if the
  attach stop of every activation is outstanding and every parent but the outermost is alive
  (`Nesting.OutermostReturnsExactly`); `ConcreteRuns.NestedWaitNeverEnds` is a run in which the init never leaves its fork.
* `on_thread_exit` wakes before it forgets the dying pid (src/runtime/supervisor.rs:506-527): a thread that dies parked at
  the head of the queue of its own tid word swallows its join wake (`Limits.JoinWakesExactly`);
  `ConcreteRuns.JoinWakeLost` is a run.
* What a clone call left in `clone_pending` stays when the call fails (src/runtime/supervisor.rs:583-591), and fork and
  vfork leave nothing there: a process forked after a failed clone is registered with the old flags, as a thread if
  and only if they have CLONE_THREAD (`StaleFlags.LeftOverFlags`); `ConcreteRuns.ForkTakenForThread` is a run.
* src/oci/image.rs:87-88 says an opaque marker clears a directory; the code removes it, with what the same archive put
  there before (`Flattening.OpaqueRemoves`; `Flattening.OpaqueShows` is an archive). At the root it removes the
  destination, and flattening fails (`Flattening.RootOpaqueFails`, `Flattening.WalkFailsExactly`).

## Model

| member | source | states |
|---|---|---|
| Prng.AdvanceBijective | src/runtime/supervisor.rs:57-62 | the xorshift update of the generator word is a bijection on 64-bit words: an explicit inverse undoes it from both sides |
| Prng.NeverZero | src/runtime/supervisor.rs:53-64 | whatever the seed, the generator word is never zero after any number of draws |
| Prng.OutputInjective | src/runtime/supervisor.rs:63 | the wrapping multiplication loses nothing: different words give different outputs |
| Prng.DrawsSeparate | src/runtime/supervisor.rs:53-64 | for every k the k-th draws of two seeds are equal if and only if the seeds are equal or are 0 and 1 |
| Recorder.Generator.constructor | src/runtime/supervisor.rs:53-55 | the generator stands at the start of its seed's stream, and its word is not zero |
| Recorder.Generator.NextU64 | src/runtime/supervisor.rs:57-64 | after k draws, made by calls or by fills, a call returns number k + 1 of the seed's stream, and the word is never zero |
| Recorder.Generator.Fill | src/runtime/supervisor.rs:66-71 | filling a buffer of n bytes in place takes ceil(n/8) draws and leaves the n bytes of the seed's stream that follow the draws made before |
| Recorder.FillDecodes | src/runtime/supervisor.rs:66-71 | every complete chunk of a fill decodes to the number drawn for it |
| Recorder.FillContinues | src/runtime/supervisor.rs:66-71 | a fill after a fill, for any two lengths: both are cut out of one stream, the second at the next whole draw; they are one longer fill when the first ends on a chunk boundary |
| Recorder.SeedsChangeBytes | src/runtime/supervisor.rs:53-71 | after any equal number of draws, seeds that do not coincide disagree on every complete chunk of the next fill |
| KnownAnswers.FirstDraws | src/runtime/supervisor.rs:53-64 | the first two numbers drawn from seed 1, and from seed 0 |
| KnownAnswers.DrawTellsWord | src/runtime/supervisor.rs:57-64 | a draw is of the updated word: times the inverse multiplier modulo 2^64 it is that word |
| KnownAnswers.FirstRecord | src/runtime/supervisor.rs:66-71 | the text recorded for the first 16 bytes under seed 1 |
| KnownAnswers.DigitsInOrder | src/runtime/supervisor.rs:105-113 | all sixteen digits |
| Recorder.HexBytes | src/runtime/supervisor.rs:105-113 | the loop writes two digits a byte, high nibble first |
| Recorder.UnhexHex | src/runtime/supervisor.rs:105-113 | decoding the recorded text gives the bytes back |
| Recorder.HexUnhex | src/runtime/supervisor.rs:105-113 | any text that decodes is the record of what it decodes to |
| Clock.KthReading | src/runtime/supervisor.rs:761-774 | over any mix of earlier reads the k-th read of the clocks 1, 6 and 7 denotes k milliseconds if and only if that many nanoseconds fit 64 bits; every other clock reads 1704067200 seconds and does not tick |
| Clock.ReadingsIncrease | src/runtime/supervisor.rs:761-774 | later readings of the clocks 1, 6 and 7 are strictly later, whichever of them are read |
| Readings.ClocksOfRun | src/runtime/supervisor.rs:716-774 | over every run: the k-th reading of the clocks 1, 6 and 7 in the trace is k milliseconds if and only if that many nanoseconds fit 64 bits, every other clock reads 1704067200.0 and gettimeofday 1704067200 |
| Readings.ReadingsOfRunIncrease | src/runtime/supervisor.rs:716-774 | over every run later readings of these clocks are later |
| Calls.OrdinaryCall | src/runtime/supervisor.rs:559-581 | from every reachable state a call that is none of 56, 96, 202, 228, 231, 318, 403 and 435 leaves one record with its own number and its caller goes on, nothing else changes |
| Calls.ExitGroupCall | src/runtime/supervisor.rs:570-573 | 231: the group is exiting from now on, the caller goes on |
| Calls.CloneCall | src/runtime/supervisor.rs:593-613 | 56 and 435: flags and child_tid are kept for the caller's next clone event, from rdi and r10 or from clone_args, zeros if those cannot be read |
| Calls.GetRandomCall | src/runtime/supervisor.rs:689-713 | 318: min(n, 2^20) bytes of the stream for ceil(n/8) draws are written, n is owed, the text is recorded; an unwritable buffer ends the run |
| Calls.ClockCall | src/runtime/supervisor.rs:715-774 | 228 and 403: which clocks tick, what is read, written, owed and recorded, in numbers |
| Calls.TimeOfDayCall | src/runtime/supervisor.rs:739-757 | 96: 1704067200 and 0 are written and recorded, 0 is owed |
| Calls.ThreadReturns | src/runtime/supervisor.rs:274-278 | the exit stop of a thread's call: a value owed is returned once and recorded, the thread goes to the back of the line, the head has its turn |
| Calls.ChildReturns | src/runtime/supervisor.rs:249-263 | the exit stop of a fork child's call: a value owed is returned, the child goes on |
| FutexCalls.FutexWait | src/runtime/supervisor.rs:629-648 | commands 0 and 9 under whatever flags: the caller is parked at the end of the word's line, owed 0, and the next thread served, if and only if it is a thread with company and the word read equals the low 32 bits of rdx; else the call passes and the caller goes on |
| FutexCalls.FutexWake | src/runtime/supervisor.rs:649-654 | commands 1 and 10: a thread with company wakes the oldest of the word in rdi, as many as rdx says as a signed number, and is owed their count |
| FutexCalls.FutexRequeue | src/runtime/supervisor.rs:655-672 | commands 3 and 4: as many as rdx and r10 together say, for 4 only if the word read equals the low 32 bits of r9 |
| FutexCalls.FutexOther | src/runtime/supervisor.rs:673-677 | every other command passes |
| Joins.ChildAsAsked | src/runtime/supervisor.rs:283-291 | from every reachable state, whatever happens between a clone or clone3 call and the caller's next clone event: the child has the flags and the tid word asked for, the next virtual id, and is scheduled if and only if bit 16 is set |
| Joins.DeathWakesJoiner | src/runtime/supervisor.rs:506-527 | a death, from every reachable state: the dead leaves every table, and of those parked only the oldest waiter on its tid word is freed, and only for bit 21 and a word that is not 0 |
| Joins.JoinAsAsked | src/runtime/supervisor.rs:506-613 | across a clone or clone3 call, the clone event, the child's life and its death: the oldest waiter on the word asked for is freed if and only if bit 21 was asked for, the word is not 0 and the waiter is not the child; nobody else is |
| Signals.SignalDelivered | src/runtime/supervisor.rs:336-347 | from every reachable state a signal stop, of the running thread or of a fork child, is answered at once by a resume with that signal, and nothing else happens |
| Signals.RunDelivers | src/runtime/supervisor.rs:315-347 | over every run the signals carried by resumes are the signals tasks stopped with, each once, in order, to the one that stopped, as a postman sees who knows the statuses only; no other resume carries one |
| Signals.SignalKept | src/runtime/supervisor.rs:339-340 | in every state a signal for a thread that is not current is kept and the thread stays stopped |
| Signals.KeptUntilResumed | src/runtime/supervisor.rs:458-462 | in every state, whatever is reported next, a kept signal is kept on until a resume of its thread carries it, once |
| Stops.Starts | src/runtime/supervisor.rs:144-175 | the state in which a run first waits |
| Stops.OtherStop | src/runtime/supervisor.rs:307-313 | any other event: the stopped thread or process goes on, nothing else |
| Stops.SilentStop | src/runtime/supervisor.rs:279-280 | a syscall stop without information: the stopped thread or process goes on |
| Stops.ExitStopLets | src/runtime/supervisor.rs:301-306 | an exit event: the thread or process is let go to die and keeps its place in the tables |
| Stops.ChildJoins | src/runtime/supervisor.rs:283-300 | from every reachable state clone event and attach stop together: a thread stands at the back of the queue, a process runs, the parent goes on; with the scheduler idle the new thread has its turn at once |
| Stops.StrayAttach | src/runtime/supervisor.rs:326-331 | from every reachable state the attach stop of a child that is not the one awaited lets the child in and nobody else goes on |
| Stops.InitEnds | src/runtime/supervisor.rs:349-356 | in every state the init's end ends the run with its status, or with 128 and the signal, and is recorded |
| Stops.RunCode | src/runtime/supervisor.rs:219-233 | over every run: it ends with a code if and only if the init exits with it, or is killed by the signal that is it less 128, while the run goes on |
| Invariants.WakeTakesPrefix | src/runtime/supervisor.rs:537-557 | a wake takes exactly min(max(val as i64, 0), queue length) threads, the oldest first, appends them in order to the runnable queue and touches no other address |
| Invariants.StepKeeps | src/runtime/supervisor.rs:219-399 | one status, in whichever loop it is read, keeps the invariant |
| Invariants.RunSound | src/runtime/supervisor.rs:187-215 | in every reachable state of every workload scheduled threads are partitioned among current, runnable, blocked and pending_start, the waiting queues are exactly the blocked threads, each with a pending 0, and at most one scheduled thread runs, which is current |
| Trace.RunReads | src/runtime/supervisor.rs:789-797 | every run's trace is accepted by a reader that checks numbers, thread ids, schedule events, exits and futex events against each other |
| Trace.Numbered | src/runtime/supervisor.rs:789-797 | records are numbered 1, 2, 3, … |
| Trace.CreatedInOrder | src/runtime/supervisor.rs:473-498 | thread_create ids are 1, 2, 3, … without reuse |
| Trace.SchedulesChain | src/runtime/supervisor.rs:422-428 | each schedule event starts from the previous one's thread and moves; a thread_exit names the thread scheduled last |
| Trace.ExitedStaysOut | src/runtime/supervisor.rs:502-517 | an exited thread is never scheduled, never exits and never calls futex again |
| Trace.StepGrows | src/runtime/supervisor.rs:789-797 | no status takes a record back |
| Ledger.RunAudited | src/runtime/supervisor.rs:506-557 | replayed by a book-keeper, every run's log is first-in first-out on each futex word, parked threads leave only by a wake on their word or their death, a skipped call returns once with the value fixed at entry, and parked = woken + died parked + still parked |
| Ledger.InjectionsBalance | src/runtime/supervisor.rs:583-591 | over every run, calls skipped = results injected + results pending + results dropped by a death |
| Futexes.WakesAddUp | src/runtime/supervisor.rs:537-557 | for all counts waking m and then n threads of a word is waking m + n: same threads, same order, same queues |
| Futexes.RequeueIsOneWake | src/runtime/supervisor.rs:655-671 | for all counts a requeue is answered as one wake of its two counts together |
| Futexes.RunSettles | src/runtime/supervisor.rs:646-671 | over every run the threads woken are exactly the values returned to futex callers plus the joins woken by deaths, receipt by receipt |
| Replay.RunPlays | src/runtime/supervisor.rs:691-774 | over every run the seed alone predicts each getrandom, clock_gettime and gettimeofday event of the trace, and the data written and values returned for them, in order |
| Renaming.StepRen | src/runtime/supervisor.rs:88-92 | a step commutes with every injective renaming of pids |
| Renaming.RunRen | src/runtime/supervisor.rs:88-92 | so does every run; trace, log and outcome are the very same |
| Freshness.RedirectWorks | src/runtime/supervisor.rs:283-291 | a renaming can be redirected to any fresh pid the host picks without disturbing the state renamed so far |
| Confluence.AttachRaceConfluent | src/runtime/supervisor.rs:283-333 | from every reachable state attach stop then clone event and clone event then attach stop end in the same state, trace and log included |
| Teardown.TeardownOrderBlind | src/runtime/supervisor.rs:349-364 | after the running thread's exit_group, whatever the order of exit events and deaths, nobody is scheduled, only dying threads are resumed, and the trace grows by the issuer's exit and the init's end and nothing else |
| Determinism.FollowStep | src/runtime/supervisor.rs:245-399 | each status of any run of a guest is followed by a canonical run under some renaming |
| Determinism.Track | src/runtime/supervisor.rs:219-233 | every run of a guest follows the canonical run |
| Determinism.Reproducible | src/runtime/supervisor.rs:7-12 | same seed and same guest: whatever pids, attach orders and reap orders, one trace is a prefix of the other, a finished run has written all there is, and finished runs agree on trace and outcome |
| Attained.CanonAttained | src/runtime/supervisor.rs:7-12 | the canonical run every run follows is itself a run of the guest, so what all runs agree on is reached |
| Threads.RunWaits | src/runtime/supervisor.rs:193-215 | for all-thread workloads no call on a tracee fails with ESRCH, and while the run goes on one thread runs or dies, or one child attaches, or an exit_group is in flight |
| Threads.DeadlockExact | src/runtime/supervisor.rs:401-416 | a run is declared deadlocked if and only if every live thread is parked on a futex and no exit_group is in flight |
| Threads.HangsExactly | src/runtime/supervisor.rs:224-241 | taking every resumed thread to reach its next stop, while the run goes on a status can still come if and only if the supervisor is not waiting for a leader that exited before its threads |
| Threads.LeaderExitHangs | src/runtime/supervisor.rs:301-306 | the exit of the running leader of a multi-threaded workload always ends in such a wait, the others left in the queue |
| Fairness.StepMoves | src/runtime/supervisor.rs:406-443 | one status gives at most one turn, to the head of the queue, which otherwise only loses the dead and grows at its end |
| Fairness.BoundedWait | src/runtime/supervisor.rs:406-433 | a runnable thread with k in front that stays alive is served within the next k + 1 turns, whatever the workload does |
| Fairness.StrictRotation | src/runtime/supervisor.rs:435-443 | the turns of two threads that stay ready strictly alternate |
| Deaths.NextServedExactly | src/runtime/supervisor.rs:355-364 | from every reachable state, exactly what the running thread's death leads to: with an exit_group in flight nobody has a turn; otherwise the head of the queue, or with an empty queue the joiner the death wakes, has one turn; with nobody left the run waits or is declared deadlocked; outcome and trace are given |
| Deaths.DeathFailsExactly | src/runtime/supervisor.rs:357-364 | that death ends the run with an error of ptrace if and only if no exit_group is in flight and the next in line has already had its exit event |
| Deaths.ForkChildStalls | src/runtime/supervisor.rs:570-573 | the same death with and without a fork child's exit_group before it: without it whoever is in line has a turn, with it the queue stays as it is and the scheduler is stalled |
| Limits.StalledForever | src/runtime/supervisor.rs:355-364 | from a stalled state no scheduled thread ever gets a turn again |
| KillOrder.KillOrderExactly | src/runtime/supervisor.rs:502-517 | from every reachable state the running thread and any other task killed in either order leave the same trace if and only if an exit_group is in flight, or the same thread is next in either order, or nobody is and the scheduler goes on waiting |
| KillOrder.HeadDecides | src/runtime/supervisor.rs:406-433 | with a non-empty queue that is: an exit_group is in flight or the other is not its head |
| KillOrder.OthersHidden | src/runtime/supervisor.rs:502-517 | two deaths while a third thread runs leave no trace in either order |
| Nesting.RunNested | src/runtime/supervisor.rs:376-399 | in every reachable state the waiting activations have distinct parents and children, no parent runs, and a parent that is a thread is the current one |
| Nesting.OutermostReturnsExactly | src/runtime/supervisor.rs:376-399 | from every reachable state inside `await_attach` some continuation lets every activation return if and only if every awaited attach stop is outstanding and every parent but the outermost is alive; otherwise the outermost never returns |
| StaleFlags.StepStash | src/runtime/supervisor.rs:570-591 | the flags kept for a thread's next clone event change with its own clone and clone3 calls and clone events only |
| StaleFlags.LeftOverFlags | src/runtime/supervisor.rs:283-291 | from every reachable state, whatever happens in between: a clone event of a thread that made no clone or clone3 call since enters its child with what was kept then, as a thread if and only if that has CLONE_THREAD |
| Limits.JoinWakesExactly | src/runtime/supervisor.rs:506-527 | a death wakes the oldest waiter on its tid word if and only if that is not the dying thread itself; else nobody |
| ConcreteRuns.LeaderExitsFirst | src/runtime/supervisor.rs:301-306 | a concrete run: clone a thread, exit the leader; the thread waits for ever |
| ConcreteRuns.ForkChildExitsFirst | src/runtime/supervisor.rs:570-573 | a concrete run: a fork child exits, then the running thread; the init, next in line, never runs again, and runs at once when the fork child does not exit |
| ConcreteRuns.KillOrderShows | src/runtime/supervisor.rs:502-517 | two concrete runs that differ in the order of two deaths only, with different traces |
| ConcreteRuns.KillTurnsError | src/runtime/supervisor.rs:357-364 | a concrete run: a fatal signal to three threads ends in an error of ptrace |
| ConcreteRuns.NestedWaitNeverEnds | src/runtime/supervisor.rs:376-399 | a concrete run: while the init awaits a second fork child the first one forks, and the stop the init waits for is consumed; in no continuation does the init's wait return |
| ConcreteRuns.JoinWakeLost | src/runtime/supervisor.rs:506-527 | a concrete run: a thread parked on its own tid word is killed and the init, parked behind it, stays parked |
| ConcreteRuns.ForkTakenForThread | src/runtime/supervisor.rs:583-591 | a concrete run: clone fails, fork follows, the process is registered as a thread |
| Supervisor.Host.WaitPid | src/runtime/supervisor.rs:235-241 | waiting reports the next status, or fails when there is none |
| Supervisor.Supervisor.constructor | src/runtime/supervisor.rs:144-175 | the tables `supervise` starts with |
| Supervisor.Supervisor.TraceJson | src/runtime/supervisor.rs:789-797 | one record with the next number; refines the machine's `Emit` |
| Supervisor.Supervisor.PtraceSyscall | src/runtime/supervisor.rs:458-462 | resumes a stopped tracee, fails on any other |
| Supervisor.Supervisor.ResumeThread | src/runtime/supervisor.rs:458-462 | delivers the pending signal; refines the machine's operation |
| Supervisor.Supervisor.ResumeCurrent | src/runtime/supervisor.rs:445-450 | resumes only the current thread |
| Supervisor.Supervisor.ScheduleNext | src/runtime/supervisor.rs:406-433 | the loop refines the recursive definition: skips dead and blocked entries, picks the first live one, else tells waiting from deadlock |
| Supervisor.Supervisor.SwitchTo | src/runtime/supervisor.rs:422-431 | the switch to a picked thread |
| Supervisor.Supervisor.YieldCurrent | src/runtime/supervisor.rs:437-443 | the current thread goes to the back of the queue |
| Supervisor.Supervisor.Block | src/runtime/supervisor.rs:530-533 | parks at the back of the word's queue |
| Supervisor.Supervisor.Release | src/runtime/supervisor.rs:546-552 | the wake loop over a detached queue refines the recursive definition |
| Supervisor.Supervisor.Wake | src/runtime/supervisor.rs:537-557 | refines the machine's wake and returns its count |
| Supervisor.Supervisor.RegisterThread | src/runtime/supervisor.rs:469-500 | refines the machine's registration, with the child let in or left to start |
| Supervisor.Supervisor.OnThreadExit | src/runtime/supervisor.rs:506-527 | refines the machine's exit: the join wake first, then the record, then the pid leaves every table |
| Supervisor.Supervisor.SkipSyscall | src/runtime/supervisor.rs:681-687 | the result is kept for the exit stop |
| Supervisor.Supervisor.InterceptGetRandom | src/runtime/supervisor.rs:691-713 | fills a buffer from the generator, writes, skips and records it |
| Supervisor.Supervisor.VirtualClock | src/runtime/supervisor.rs:761-774 | clocks 1, 6 and 7 read the count of milliseconds and tick, with 64-bit wrap-around, every other clock reads 1704067200 |
| Supervisor.Supervisor.InterceptClockGettime | src/runtime/supervisor.rs:716-737 | writes, skips and records one clock reading |
| Supervisor.Supervisor.InterceptGetTimeOfDay | src/runtime/supervisor.rs:740-757 | writes, skips and records the frozen wall clock |
| Supervisor.Supervisor.StashClone | src/runtime/supervisor.rs:595-613 | keeps flags and child_tid for the clone event, zeros when clone_args cannot be read |
| Supervisor.Supervisor.InterceptFutex | src/runtime/supervisor.rs:622-678 | decides between passing through, parking, waking and requeueing, and says whether the caller parks |
| Supervisor.Supervisor.OnSyscallEntry | src/runtime/supervisor.rs:559-581 | refines the machine's entry for every syscall number |
| Supervisor.Supervisor.OnSyscallExit | src/runtime/supervisor.rs:583-591 | injects the kept result, once |
| Supervisor.Supervisor.OnSyscallStop | src/runtime/supervisor.rs:247-281 | the syscall arm, for threads and for fork children |
| Supervisor.Supervisor.OnClone | src/runtime/supervisor.rs:283-300 | the clone arm, which reads on until the child's attach stop, is the machine's run of all the statuses read |
| Supervisor.Supervisor.OnSignalStop | src/runtime/supervisor.rs:315-348 | the signal arm |
| Supervisor.Supervisor.OnDeath | src/runtime/supervisor.rs:357-364 | the arm for the death of a thread other than the init |
| Supervisor.Supervisor.AwaitAttach | src/runtime/supervisor.rs:376-399 | however many statuses it handles meanwhile, it returns with the child let in exactly when the machine's innermost activation does |
| Supervisor.Supervisor.Dispatch | src/runtime/supervisor.rs:245-368 | one call, nested calls included, is the machine's run of the status and of every status read meanwhile |
| Supervisor.Supervisor.Run | src/runtime/supervisor.rs:219-233 | the loop ends in the state, and with the code or error, of the machine's run of the whole stream |
| Supervisor.Supervise | src/runtime/supervisor.rs:144-175 | for every init, seed and stream the returned outcome and the trace are those of the machine's run |
| Image.SanitizePath | src/oci/image.rs:173-190 | accepts exactly the paths of names and `.` with at least one name, and returns the names |
| Image.SanitizedStaysInside | src/oci/image.rs:171-190 | an accepted path, walked from the destination, never leaves it and ends at the returned path |
| Image.UnpackedCloses | src/oci/image.rs:69-108 | whatever the archive, every live path hangs below live directories |
| Flattening.LastEffectWins | src/oci/image.rs:69-108 | a path is live in the end if and only if some create at or below it, or its initial presence, has no later whiteout at or above it |
| Flattening.LastCreateWins | src/oci/image.rs:69-108 | what a live path holds is what the last create naming it wrote |
| Flattening.OtherwiseUntouched | src/oci/image.rs:69-108 | a live path no surviving create names is what it was, or a directory made on the way |
| Flattening.OpaqueRemoves | src/oci/image.rs:87-96 | after an opaque marker its directory is live if and only if a later entry makes it again |
| Flattening.OpaqueShows | src/oci/image.rs:87-96 | a concrete archive: a directory, then its opaque marker; nothing is left |
| Flattening.RootOpaqueFails | src/oci/image.rs:90-96 | an opaque marker at the root removes the destination: flattening fails at the next thing created, or in the walk if there is none |
| Flattening.WalkFailsExactly | src/oci/image.rs:115-131 | for every archive the walk fails if and only if such a marker was reached and nothing was to be created after it |
| Image.Disk.NormalizeMeta | src/oci/image.rs:134-169 | mode 755 for directories and executables, 644 otherwise, mtime 0, owner 0:0 |
| Image.NormalizeTree | src/oci/image.rs:115-131 | for every directory order the walk visits each descendant exactly once, not the root, and normalises each |
| Image.UnpackEntry | src/oci/image.rs:69-108 | one entry, skipped, a whiteout or created, whether or not the destination is still there |
| Image.UnpackReader | src/oci/image.rs:66-111 | the entries in archive order, then the walk; the first entry that cannot be unpacked ends it, and so does a walk without a destination |
| Whiteouts.WhiteoutEntry | src/oci/image.rs:97-102 | `dir/.wh.name` takes `dir/name` and everything below it, and nothing else, for every name but "", ".", ".." and ".wh..opq" |
| Whiteouts.OpaqueEntry | src/oci/image.rs:90-96 | `dir/.wh..wh..opq` takes `dir` and everything below it; a file of that name stays |
| Whiteouts.CreateEntry | src/oci/image.rs:105-107 | a path whose last name does not start with `.wh.` is put there with the directories missing above it, everything else stays; it fails if and only if something stands in the way |
| Whiteouts.SkippedEntry | src/oci/image.rs:69-85 | an entry that cannot be read, or whose path is not accepted, changes nothing |
| Whiteouts.ArchiveLeaves | src/oci/image.rs:69-108 | last effect wins, told from the entries of the archive: a path is there if and only if it was and no entry deletes it, or an entry brings it and no later one deletes it |
| Whiteouts.ArchiveHolds | src/oci/image.rs:69-108 | and holds what the last entry naming it says |
| Whiteouts.WhiteoutHolds | src/oci/image.rs:97-102 | what a whiteout names, and everything below it, is gone unless a later entry brings it again |
| Whiteouts.WhiteoutShows | src/oci/image.rs:97-102 | a concrete archive: `etc/passwd`, then `etc/.wh.passwd` |
| Whiteouts.FlatNode | src/oci/image.rs:134-169 | modes 755 and 644 by the three execute bits, times and owners 0, contents kept |
| Flattening.MetadataVanishes | src/oci/image.rs:41-46 | destinations and streams that differ only in host metadata flatten to the same tree, or fail in the same way |
| Flattening.ArchivesAgree | src/oci/image.rs:41-46 | so do two archives over one destination |

## Left out

- Supervisor.Supervisor.TraceJson: does not model the JSON text or the file it goes to; events carry syscall numbers and futex commands where the source writes their names, which is finer; `seq` and `vtid_next` do not wrap at 64 bits.
- Supervisor.Supervisor.PtraceSyscall: fails only with ESRCH, on a tracee that is not stopped; other errors of ptrace, of reading registers and of `/proc/<pid>/mem` are not modelled beyond an unreadable futex word, unreadable clone_args and an unwritable result buffer.
- Invariants.RunSound: genuine SIGSTOPs and job control are not among the statuses; a SIGSTOP is always a new task's attach stop.
- Signals.RunDelivers: a task reports a signal stop only while it runs, so over these runs no signal is ever kept back; what becomes of one that is kept is said for every state instead.
- Determinism.Reproducible: for workloads whose tasks are all threads of the init; outside signals reach the guest only as part of what the guest itself does; of clone events nested inside a wait for an attach stop only safety is proved.
- Threads.HangsExactly: a resumed thread is taken to reach its next stop; one that blocks in the kernel (a read of an empty pipe, a futex command that is passed through) stalls the scheduler as long as it blocks, which is not modelled.
- Threads.RunWaits: a leader that exits before its threads is admitted up to the point where it stalls; execve from a multi-threaded group is not modelled; a fatal signal ends only single-threaded runs.
- Image.UnpackEntry: files and directories only, no links or devices; conflicts between a file and a directory fail, and so does everything unpacked once the destination is gone, which is what the tar library does; nothing is said of an archive from a whiteout of the name "." or ".." on.
- Image.UnpackReader: as for UnpackEntry, nothing is said of an archive from a whiteout of the name "." or ".." on; the destination exists at first, since `flatten` creates it.
- Image.Disk.NormalizeMeta: setting mode, owner and times always succeeds; symbolic links are not followed because there are none.
- Unknown futex commands, timed waits and bitset masks are passed through or ignored, as in the source.
- stdout and stderr events, which carry no number and are appended after the run.
- Container set-up, namespaces, cgroups, networking, configuration checks and the command line: process plumbing and field checks that would only add easy members.
- gzip detection and tar decoding: library behaviour.
