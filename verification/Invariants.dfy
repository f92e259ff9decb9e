/** What every reachable state satisfies, for every workload: threads and fork children, signals,
    deaths at any moment, attach stops and clone events in either order.  The kernel rules a status
    stream must obey are in `Legal`. */
module Invariants {
  import opened Base
  import opened Machine
  import Clock
  import Prng
  import Recorder

  // ----- the kernel's rules

  /** A pid nothing in the supervisor or the kernel names: what a new task may be given.
      A dead task's pid may be used again once it is fresh. */
  ghost predicate Fresh(s: State, p: Pid) {
    && p != s.reg.init && s.focus.current != Some(p)
    && p !in s.reg.threads && p !in s.kern.task
    && p !in s.q.runnable && p !in s.q.blocked && p !in s.q.pendingStart && p !in s.q.stoppedPending
    && p !in s.calls.pending && p !in s.calls.sigPending && p !in s.calls.clonePending
    && (forall a :: a in s.q.waiting ==> p !in s.q.waiting[a])
    && (forall f :: f in s.focus.frames ==> f.parent != p && f.child != p)
  }

  ghost predicate IsTask(s: State, p: Pid, t: Task) { p in s.kern.task && s.kern.task[p] == t }

  /** A status the kernel may report. Only a resumed task stops; a new task reports its attach stop
      once, before or after its parent's clone event; a task may die at any time; the syscall stop
      after a skipped syscall is its exit stop. Job-control SIGSTOPs are not modelled. */
  ghost predicate Legal(s: State, st: Status) {
    match st
    case SyscallStop(p, op) => IsTask(s, p, Resumed) && (op.Entry? ==> p !in s.calls.pending)
    case OtherEvent(p) => IsTask(s, p, Resumed)
    case SignalStop(p, sig) => if sig == SIGSTOP then IsTask(s, p, Attaching) || Fresh(s, p) else IsTask(s, p, Resumed)
    case CloneEvent(p, c) => IsTask(s, p, Resumed) && p != c && (Fresh(s, c) || c in s.q.stoppedPending)
    case ExitEvent(p) => p in s.kern.task && !s.kern.task[p].ExitStop? && !s.kern.task[p].Dying?
    case Exited(p, _) => p in s.kern.task
    case Killed(p, _) => p in s.kern.task
    case Idle => true
  }

  ghost predicate LegalRun(s: State, sts: seq<Status>) {
    forall i :: 0 <= i < |sts| ==> Legal(Run(s, sts[..i]), sts[i])
  }

  // ----- the tables

  /** `blocked` is exactly the disjoint, duplicate-free union of the non-empty waiting queues. */
  ghost predicate QueuesMatch(waiting: map<Addr, seq<Pid>>, blocked: set<Pid>) {
    && (forall a :: a in waiting ==> waiting[a] != [] && NoDup(waiting[a]))
    && (forall a, p :: a in waiting && p in waiting[a] ==> p in blocked)
    && (forall p :: p in blocked ==> exists a :: a in waiting && p in waiting[a])
    && (forall a, b, p :: a in waiting && b in waiting && p in waiting[a] && p in waiting[b] ==> a == b)
  }

  /** Every live scheduled thread is in exactly one of {current}, runnable, blocked, pendingStart. */
  ghost predicate PartitionOf(threads: map<Pid, Thread>, q: Queues, current: Option<Pid>) {
    && NoDup(q.runnable)
    && (forall p :: p in q.runnable ==>
          ScheduledIn(threads, p) && p !in q.blocked && p !in q.pendingStart && current != Some(p))
    && (forall p :: p in q.blocked ==> ScheduledIn(threads, p) && p !in q.pendingStart && current != Some(p))
    && (forall p :: p in q.pendingStart ==> p in threads && current != Some(p))
    && (forall p :: ScheduledIn(threads, p) ==>
          current == Some(p) || p in q.runnable || p in q.blocked || p in q.pendingStart)
  }

  ghost predicate Partition(s: State) { PartitionOf(s.reg.threads, s.q, s.focus.current) }

  /** Each parked thread has its futex return value of 0 waiting for it. */
  ghost predicate ParkedOf(waiting: map<Addr, seq<Pid>>, blocked: set<Pid>, pending: map<Pid, Inject>) {
    && QueuesMatch(waiting, blocked)
    && (forall p :: p in blocked ==> p in pending && pending[p] == Inject(SYS_FUTEX, 0))
  }

  ghost predicate Parked(s: State) { ParkedOf(s.q.waiting, s.q.blocked, s.calls.pending) }

  ghost predicate IdentityOf(reg: Registry, stoppedPending: set<Pid>, focus: Focus, pending: map<Pid, Inject>) {
    && ScheduledIn(reg.threads, reg.init) && reg.threads[reg.init].vtid == 0
    && (forall p :: p in reg.threads ==> reg.threads[p].vtid < reg.vtidNext)
    && (forall p, q :: p in reg.threads && q in reg.threads && reg.threads[p].vtid == reg.threads[q].vtid ==> p == q)
    && stoppedPending !! reg.threads.Keys
    && (forall p :: p in pending ==> p in reg.threads)
    && (focus.current.Some? ==> focus.current.value !in stoppedPending)
    && (focus.current.Some? && focus.current.value in reg.threads ==>
          ScheduledIn(reg.threads, focus.current.value) && focus.lastVtid == VtidIn(reg.threads, focus.current.value))
  }

  ghost predicate Identity(s: State) { IdentityOf(s.reg, s.q.stoppedPending, s.focus, s.calls.pending) }

  ghost predicate Tables(s: State) { Partition(s) && Parked(s) && Identity(s) }

  /** `current` is live, except after a group exit. */
  ghost predicate CurrentLive(s: State) {
    s.focus.current.Some? && s.focus.current.value !in s.reg.threads ==> s.focus.groupExiting
  }

  // ----- the kernel

  ghost predicate KernelOf(task: map<Pid, Task>, threads: map<Pid, Thread>, stopped: set<Pid>, starting: set<Pid>) {
    && task.Keys == threads.Keys + stopped
    && (forall p :: p in starting ==> p in task && (task[p].Attaching? || task[p].ExitStop? || task[p].Dying?))
    && (forall p :: p in task && task[p].Attaching? ==> p in starting)
    && (forall p :: p in stopped && p in task ==> !task[p].Resumed?)
  }

  /** Activations of `await_attach` never name a task parked in `stoppedPending`, nor a parent that is
      itself still attaching. */
  ghost predicate FramesOf(frames: seq<Frame>, stopped: set<Pid>, starting: set<Pid>) {
    forall f :: f in frames ==> f.parent !in stopped && f.parent !in starting && f.child !in stopped
  }

  ghost predicate KernelView(s: State) {
    && KernelOf(s.kern.task, s.reg.threads, s.q.stoppedPending, s.q.pendingStart)
    && FramesOf(s.focus.frames, s.q.stoppedPending, s.q.pendingStart)
  }

  ghost predicate RunsAmong(threads: map<Pid, Thread>, task: map<Pid, Task>, p: Pid) {
    ScheduledIn(threads, p) && p in task && task[p] == Resumed
  }

  /** At most one scheduled thread runs, and it is `current`. */
  ghost predicate SingleRunner(s: State) {
    forall p :: RunsAmong(s.reg.threads, s.kern.task, p) ==> s.focus.current == Some(p)
  }

  /** No scheduled thread runs. */
  ghost predicate Quiet(s: State) {
    forall p :: !RunsAmong(s.reg.threads, s.kern.task, p)
  }

  /** While the run goes on, nobody is left waiting in the queue of an idle scheduler. */
  ghost predicate Settled(s: State) {
    s.outcome.InProgress? && s.focus.frames == [] && s.focus.current == None ==> s.q.runnable == []
  }

  ghost predicate Inv(s: State) {
    Tables(s) && CurrentLive(s) && KernelView(s) && SingleRunner(s) && Settled(s)
  }

  // ----- the scheduler keeps them

  lemma ScheduleNextHead(s: State)
    requires Partition(s) && s.q.runnable != []
    ensures s.q.runnable[0] in s.reg.threads
    ensures ScheduleNext(s) == Pick(PopRunnable(s), s.q.runnable[0])
  {
    assert s.q.runnable[0] in s.q.runnable;
    assert IsScheduled(s, s.q.runnable[0]);
  }

  /** What a resume may change. */
  ghost predicate ResumesOnly(s: State, t: State, p: Pid) {
    && t.reg == s.reg && t.q == s.q && t.focus == s.focus && t.dev == s.dev
    && t.calls.pending == s.calls.pending && t.calls.clonePending == s.calls.clonePending
    && (t.outcome == s.outcome || (t.outcome == Failed(Ptrace) && t.kern == s.kern))
    && (t.kern == s.kern
        || (IsTask(s, p, Held) && t.kern.task == s.kern.task[p := Resumed])
        || (IsTask(s, p, ExitStop) && t.kern.task == s.kern.task[p := Dying]))
  }

  lemma ResumeEffect(s: State, p: Pid)
    ensures ResumesOnly(s, ResumeThread(s, p), p)
  {
  }

  lemma PickEffect(s: State, tid: Pid)
    requires tid in s.reg.threads
    ensures ResumesOnly(s.(focus := s.focus.(lastVtid := VtidOf(s, tid), current := Some(tid))), Pick(s, tid), tid)
  {
    hide ResumeThread;
    var to := s.reg.threads[tid].vtid;
    var s1 := if s.focus.lastVtid != Some(to) then Emit(s, Schedule(s.focus.lastVtid, to)) else s;
    ResumeEffect(Did(s1.(focus := s1.focus.(lastVtid := Some(to), current := Some(tid))), Turn(to)), tid);
  }

  lemma PickTables(s: State)
    requires Tables(s) && s.focus.current == None && s.q.runnable != []
    ensures s.q.runnable[0] in s.reg.threads && Tables(Pick(PopRunnable(s), s.q.runnable[0]))
  {
    hide Pick;
    var tid := s.q.runnable[0];
    assert tid in s.q.runnable;
    PickEffect(PopRunnable(s), tid);
    var t := Pick(PopRunnable(s), tid);
    assert forall p :: p in s.q.runnable <==> p == tid || p in t.q.runnable;
  }

  lemma PickKernel(s: State)
    requires Tables(s) && KernelView(s) && Quiet(s) && s.focus.current == None && s.q.runnable != []
    ensures s.q.runnable[0] in s.reg.threads
    ensures var t := Pick(PopRunnable(s), s.q.runnable[0]);
            KernelView(t) && SingleRunner(t) && t.focus.current == Some(s.q.runnable[0]) && CurrentLive(t)
  {
    hide Pick;
    assert s.q.runnable[0] in s.q.runnable;
    PickEffect(PopRunnable(s), s.q.runnable[0]);
    var t := Pick(PopRunnable(s), s.q.runnable[0]);
    forall p | RunsAmong(t.reg.threads, t.kern.task, p) ensures t.focus.current == Some(p) {
      assert !RunsAmong(s.reg.threads, s.kern.task, p);
    }
  }

  /** Scheduling from an idle state keeps everything and settles. */
  lemma ScheduleNextKeeps(s: State)
    requires Tables(s) && KernelView(s) && Quiet(s) && s.focus.current == None
    ensures Inv(ScheduleNext(s))
  {
    hide Pick;
    if s.q.runnable != [] {
      ScheduleNextHead(s);
      PickTables(s);
      PickKernel(s);
    }
  }

  // ----- resuming one task

  /** `Inv` between the arms of `dispatch` and the tail of the loop. */
  ghost predicate MidInv(s: State) {
    Tables(s) && CurrentLive(s) && KernelView(s) && SingleRunner(s)
  }

  lemma ResumedKeeps(s: State, t: State, p: Pid)
    requires MidInv(s) && ResumesOnly(s, t, p)
    requires !IsScheduled(s, p) || s.focus.current == Some(p) || IsTask(s, p, ExitStop)
    requires IsTask(s, p, Held) ==> p !in s.q.stoppedPending
    ensures MidInv(t)
  {
  }

  lemma ResumeKeeps(s: State, p: Pid)
    requires MidInv(s)
    requires !IsScheduled(s, p) || s.focus.current == Some(p) || IsTask(s, p, ExitStop)
    requires IsTask(s, p, Held) ==> p !in s.q.stoppedPending
    ensures MidInv(ResumeThread(s, p))
  {
    hide ResumeThread, MidInv;
    ResumeEffect(s, p);
    ResumedKeeps(s, ResumeThread(s, p), p);
  }

  lemma ContinueKeeps(s: State, p: Pid)
    requires MidInv(s)
    requires IsTask(s, p, Held) ==> p !in s.q.stoppedPending
    ensures MidInv(Continue(s, p))
  {
    hide ResumeThread;
    if !IsScheduled(s, p) || s.focus.current == Some(p) {
      ResumeKeeps(s, p);
    }
  }

  lemma TailKeeps(s: State)
    requires MidInv(s)
    ensures Inv(Tail(s))
  {
    hide ScheduleNext;
    if s.outcome.InProgress? && s.focus.frames == [] && s.focus.current == None {
      ScheduleNextKeeps(s);
    }
  }

  // ----- waking

  function Min(a: nat, b: nat): nat { if a < b then a else b }

  lemma {:induction false} WakeLoopPrefix(parked: seq<Pid>, blocked: set<Pid>, cap: nat)
    requires NoDup(parked) && forall p :: p in parked ==> p in blocked
    ensures var n := Min(cap, |parked|); WakeLoop(parked, blocked, cap) == Split(parked[..n], parked[n..])
  {
    if cap != 0 && parked != [] {
      var n := Min(cap, |parked|);
      WakeLoopPrefix(parked[1..], blocked - {parked[0]}, cap - 1);
      assert parked[..n] == [parked[0]] + parked[1..][..n - 1];
      assert parked[n..] == parked[1..][n - 1..];
    }
  }

  function QueueAt(s: State, addr: Addr): seq<Pid> { if addr in s.q.waiting then s.q.waiting[addr] else [] }

  /** `wake(addr, val)` takes exactly min(max(val as i64, 0), queue length) threads, the oldest first,
      appends them in that order to `runnable` and leaves every other address alone. */
  lemma WakeTakesPrefix(s: State, names: map<Pid, Thread>, addr: Addr, val: u64)
    requires Parked(s)
    ensures var queue := QueueAt(s, addr); var n := Min(Cap(val), |queue|); var t := Wake(s, names, addr, val);
            && WakeCount(s, addr, val) == n
            && t.q == s.q.(runnable := s.q.runnable + queue[..n],
                           blocked := s.q.blocked - Elems(queue[..n]),
                           waiting := if n == 0 then s.q.waiting else SetQueue(s.q.waiting, addr, queue[n..]))
            && t.log.acts == s.log.acts + Unparks(names, queue[..n], addr)
            && t == s.(q := t.q, log := s.log.(acts := t.log.acts))
  {
    var queue := QueueAt(s, addr);
    if Cap(val) == 0 || addr !in s.q.waiting {
      assert queue[..0] == [] && Unparks(names, [], addr) == [];
      assert s.log.acts + [] == s.log.acts && s.q.runnable + [] == s.q.runnable && s.q.blocked - Elems([]) == s.q.blocked;
    } else {
      WakeLoopPrefix(queue, s.q.blocked, Cap(val));
    }
  }

  lemma ElemsIn(queue: seq<Pid>, n: nat)
    requires n <= |queue| && NoDup(queue)
    ensures forall p :: p in queue <==> p in queue[..n] || p in queue[n..]
    ensures forall p :: !(p in queue[..n] && p in queue[n..])
    ensures NoDup(queue[..n]) && NoDup(queue[n..])
  {
    assert queue == queue[..n] + queue[n..];
  }

  lemma WakeKeepsParked(s: State, names: map<Pid, Thread>, addr: Addr, val: u64)
    requires Parked(s)
    ensures Parked(Wake(s, names, addr, val))
  {
    hide Wake;
    WakeTakesPrefix(s, names, addr, val);
    var queue := QueueAt(s, addr);
    var n := Min(Cap(val), |queue|);
    if n == 0 {
      assert Elems(queue[..0]) == {};
    } else {
      ElemsIn(queue, n);
      TakenKeepsMatch(s.q.waiting, s.q.blocked, addr, n);
    }
  }

  lemma TakenKeepsMatch(waiting: map<Addr, seq<Pid>>, blocked: set<Pid>, addr: Addr, n: nat)
    requires QueuesMatch(waiting, blocked) && addr in waiting && n <= |waiting[addr]|
    ensures QueuesMatch(SetQueue(waiting, addr, waiting[addr][n..]), blocked - Elems(waiting[addr][..n]))
  {
    var queue := waiting[addr];
    ElemsIn(queue, n);
    var w := SetQueue(waiting, addr, queue[n..]);
    forall p | p in blocked - Elems(queue[..n]) ensures exists a :: a in w && p in w[a] {
      var a :| a in waiting && p in waiting[a];
      assert a in w && p in w[a];
    }
  }

  lemma WakeKeepsPartition(s: State, names: map<Pid, Thread>, addr: Addr, val: u64)
    requires Partition(s) && Parked(s)
    ensures Partition(Wake(s, names, addr, val))
  {
    hide Wake;
    WakeTakesPrefix(s, names, addr, val);
    var queue := QueueAt(s, addr);
    var n := Min(Cap(val), |queue|);
    if n == 0 {
      assert Elems(queue[..0]) == {} && s.q.runnable + queue[..0] == s.q.runnable;
    } else {
      ElemsIn(queue, n);
      assert forall p :: p in queue[..n] ==> p in s.q.blocked;
      NoDupAppend(s.q.runnable, queue[..n]);
    }
  }

  lemma NoDupAppend(a: seq<Pid>, b: seq<Pid>)
    requires NoDup(a) && NoDup(b) && forall p :: p in b ==> p !in a
    ensures NoDup(a + b)
  {
    forall i, j | 0 <= i < j < |a + b| ensures (a + b)[i] != (a + b)[j] {
      if i < |a| && j >= |a| {
        assert b[j - |a|] in b;
      }
    }
  }

  // ----- system calls

  /** What intercepting a syscall of `p` may change when it does not touch the futex queues. */
  ghost predicate CallsOnly(s: State, t: State, p: Pid) {
    && t.reg == s.reg && t.q == s.q && t.kern.task == s.kern.task
    && (t.focus == s.focus || t.focus == s.focus.(groupExiting := true))
    && (t.calls.pending == s.calls.pending - {p}
        || (p in t.calls.pending && t.calls.pending == s.calls.pending[p := t.calls.pending[p]])
        || t.calls.pending == s.calls.pending)
  }

  lemma CallsKeep(s: State, t: State, p: Pid)
    requires MidInv(s) && CallsOnly(s, t, p) && p in s.reg.threads && p !in s.q.blocked
    ensures MidInv(t)
  {
  }

  lemma GetRandomEffect(s: State, p: Pid, regs: Regs, mem: Memory)
    ensures CallsOnly(s, InterceptGetRandom(s, p, regs, mem), p)
  {
    hide Recorder.Filled, Recorder.Hex, Prng.WordAfter;
    assert SkipSyscall(s, p, 0, 0).calls.pending == s.calls.pending[p := Inject(0, 0)];
  }

  lemma ClockEffect(s: State, p: Pid, regs: Regs, mem: Memory)
    ensures CallsOnly(s, InterceptClockGettime(s, p, regs, mem), p)
    ensures CallsOnly(s, InterceptGetTimeOfDay(s, p, regs, mem), p)
  {
    hide Clock.Read, Clock.NextTick;
  }

  lemma EntryEffect(s: State, p: Pid, regs: Regs, mem: Memory)
    requires regs.origRax == SYS_FUTEX ==> PlanFutex(s, p, regs, mem).PassThrough?
    ensures CallsOnly(s, OnSyscallEntry(s, p, regs, mem), p)
  {
    hide PlanFutex, InterceptGetRandom, InterceptClockGettime, InterceptGetTimeOfDay;
    GetRandomEffect(s, p, regs, mem);
    ClockEffect(s, p, regs, mem);
  }

  lemma ExitStopEffect(s: State, p: Pid)
    ensures CallsOnly(s, OnSyscallExit(s, p), p)
    ensures OnSyscallExit(s, p).outcome == s.outcome && OnSyscallExit(s, p).focus == s.focus
  {
  }

  lemma AppendKeepsMatch(waiting: map<Addr, seq<Pid>>, blocked: set<Pid>, addr: Addr, p: Pid)
    requires QueuesMatch(waiting, blocked) && p !in blocked
    ensures QueuesMatch(waiting[addr := (if addr in waiting then waiting[addr] else []) + [p]], blocked + {p})
  {
    var w := waiting[addr := (if addr in waiting then waiting[addr] else []) + [p]];
    forall r | r in blocked + {p} ensures exists a :: a in w && r in w[a] {
      if r == p {
        assert p in w[addr];
      } else {
        var a :| a in waiting && r in waiting[a];
        assert r in w[a];
      }
    }
  }

  lemma ParkEffect(s: State, p: Pid, addr: Addr, cmd: nat)
    ensures var t := TraceFutex(Block(SkipSyscall(s, p, SYS_FUTEX, 0), p, addr), p, cmd, FutexParked);
            && t.reg == s.reg && t.focus == s.focus && t.kern == s.kern && t.outcome == s.outcome
            && t.q == s.q.(blocked := s.q.blocked + {p}, waiting := s.q.waiting[addr := QueueAt(s, addr) + [p]])
            && t.calls.pending == s.calls.pending[p := Inject(SYS_FUTEX, 0)]
  {
  }

  lemma ParkPartition(threads: map<Pid, Thread>, q: Queues, p: Pid, r: Queues)
    requires PartitionOf(threads, q, Some(p)) && ScheduledIn(threads, p)
    requires r.runnable == q.runnable && r.pendingStart == q.pendingStart && r.blocked == q.blocked + {p}
    ensures PartitionOf(threads, r, None) && p !in q.blocked
  {
  }

  lemma ParkParked(s: State, p: Pid, addr: Addr)
    requires Parked(s) && p !in s.q.blocked
    ensures ParkedOf(s.q.waiting[addr := QueueAt(s, addr) + [p]], s.q.blocked + {p}, s.calls.pending[p := Inject(SYS_FUTEX, 0)])
  {
    AppendKeepsMatch(s.q.waiting, s.q.blocked, addr, p);
    hide QueuesMatch;
  }

  lemma ParkRest(s: State, u: State, p: Pid)
    requires MidInv(s) && Quiet(s) && p in s.reg.threads && u.reg == s.reg && u.kern == s.kern && u.focus == s.focus.(current := None)
    requires u.q.pendingStart == s.q.pendingStart && u.q.stoppedPending == s.q.stoppedPending
    requires p in u.calls.pending && u.calls.pending == s.calls.pending[p := u.calls.pending[p]]
    ensures Identity(u) && CurrentLive(u) && KernelView(u) && SingleRunner(u)
  {
    hide PartitionOf, ParkedOf, KernelOf, FramesOf, RunsAmong;
  }

  lemma MidParts(s: State)
    requires MidInv(s)
    ensures Partition(s) && Parked(s) && Identity(s)
  {
    hide PartitionOf, ParkedOf, IdentityOf, KernelOf, FramesOf, RunsAmong;
  }

  lemma MidWhole(s: State)
    requires Partition(s) && Parked(s) && Identity(s) && CurrentLive(s) && KernelView(s) && SingleRunner(s)
    ensures MidInv(s)
  {
    hide PartitionOf, ParkedOf, IdentityOf, KernelOf, FramesOf, RunsAmong;
  }

  /** Parking the current thread moves it from `current` to its queue. */
  lemma ParkKeeps(s: State, p: Pid, addr: Addr, cmd: nat)
    requires MidInv(s) && s.focus.current == Some(p) && IsScheduled(s, p) && Quiet(s)
    ensures var t := TraceFutex(Block(SkipSyscall(s, p, SYS_FUTEX, 0), p, addr), p, cmd, FutexParked);
            MidInv(SetCurrent(t, None)) && t.kern == s.kern && t.reg == s.reg && t.outcome == s.outcome
  {
    hide TraceFutex, Block, SkipSyscall, MidInv, PartitionOf, ParkedOf, Identity, CurrentLive, KernelView, SingleRunner, Quiet;
    ParkEffect(s, p, addr, cmd);
    MidParts(s);
    var t := TraceFutex(Block(SkipSyscall(s, p, SYS_FUTEX, 0), p, addr), p, cmd, FutexParked);
    var u := SetCurrent(t, None);
    ParkPartition(s.reg.threads, s.q, p, u.q);
    ParkParked(s, p, addr);
    ParkRest(s, u, p);
    MidWhole(u);
  }

  lemma WakeKeeps(s: State, addr: Addr, val: u64)
    requires MidInv(s)
    ensures MidInv(Wake(s, s.reg.threads, addr, val))
    ensures Wake(s, s.reg.threads, addr, val).kern == s.kern
    ensures Wake(s, s.reg.threads, addr, val).focus == s.focus
    ensures Wake(s, s.reg.threads, addr, val).reg == s.reg
    ensures Wake(s, s.reg.threads, addr, val).outcome == s.outcome
    ensures Wake(s, s.reg.threads, addr, val).q.blocked <= s.q.blocked
  {
    WakeTakesPrefix(s, s.reg.threads, addr, val);
    WakeKeepsParked(s, s.reg.threads, addr, val);
    WakeKeepsPartition(s, s.reg.threads, addr, val);
    hide Wake, WakeCount, ParkedOf, PartitionOf;
  }

  /** Every arm of `on_syscall_entry` for the current thread, including the park. */
  lemma ScheduledEntryKeeps(s: State, p: Pid, regs: Regs, mem: Memory)
    requires MidInv(s) && s.focus.current == Some(p) && IsScheduled(s, p) && Quiet(s)
    ensures var t := OnSyscallEntry(s, p, regs, mem);
            && t.kern.task == s.kern.task && t.reg == s.reg
            && (if Parks(s, p, regs, mem) then MidInv(SetCurrent(t, None)) && t.outcome == s.outcome
                else MidInv(t) && t.focus.current == s.focus.current)
  {
    if regs.origRax != SYS_FUTEX || PlanFutex(s, p, regs, mem).PassThrough? {
      EntryEffect(s, p, regs, mem);
      hide OnSyscallEntry, PlanFutex;
      CallsKeep(s, OnSyscallEntry(s, p, regs, mem), p);
    } else {
      FutexKeeps(s, p, regs, mem);
    }
  }

  lemma CurrentNotBlocked(s: State, p: Pid)
    requires MidInv(s) && s.focus.current == Some(p)
    ensures p !in s.q.blocked
  {
  }

  lemma AnswerKeeps(s: State, p: Pid, n: nat, cmd: nat)
    requires MidInv(s) && p in s.reg.threads && p !in s.q.blocked
    ensures var t := TraceFutex(SkipSyscall(s, p, SYS_FUTEX, n), p, cmd, FutexWoke);
            MidInv(t) && t.kern == s.kern && t.reg == s.reg && t.outcome == s.outcome && t.focus == s.focus
  {
    CallsKeep(s, TraceFutex(SkipSyscall(s, p, SYS_FUTEX, n), p, cmd, FutexWoke), p);
  }

  lemma FutexKeeps(s: State, p: Pid, regs: Regs, mem: Memory)
    requires MidInv(s) && s.focus.current == Some(p) && IsScheduled(s, p) && Quiet(s)
    requires !PlanFutex(s, p, regs, mem).PassThrough?
    ensures var t := InterceptFutex(s, p, regs, mem);
            && t.kern == s.kern && t.reg == s.reg && t.outcome == s.outcome
            && (if PlanFutex(s, p, regs, mem).ParkOn? then MidInv(SetCurrent(t, None))
                else MidInv(t) && t.focus.current == s.focus.current)
  {
    hide Wake, WakeCount, MidInv, PlanFutex, TraceFutex, SkipSyscall;
    var plan := PlanFutex(s, p, regs, mem);
    var cmd := FutexCmd(regs);
    if plan.ParkOn? {
      ParkKeeps(s, p, plan.addr, cmd);
    } else {
      CurrentNotBlocked(s, p);
      WakeKeeps(s, plan.addr, plan.val);
      var t := Wake(s, s.reg.threads, plan.addr, plan.val);
      var n := WakeCount(s, plan.addr, plan.val);
      if plan.WakeOn? {
        AnswerKeeps(t, p, n, cmd);
      } else {
        WakeKeeps(t, plan.addr, plan.val2);
        AnswerKeeps(Wake(t, t.reg.threads, plan.addr, plan.val2), p, n + WakeCount(t, plan.addr, plan.val2), cmd);
      }
    }
  }

  // ----- deaths

  lemma PurgeKeepsMatch(waiting: map<Addr, seq<Pid>>, blocked: set<Pid>, p: Pid)
    requires QueuesMatch(waiting, blocked)
    ensures QueuesMatch(Purge(waiting, p), blocked - {p})
  {
    var w := Purge(waiting, p);
    forall r | r in blocked - {p} ensures exists a :: a in w && r in w[a] {
      var a :| a in waiting && r in waiting[a];
      assert r in Without(waiting[a], p);
      assert a in w && r in w[a];
    }
  }

  /** The tables after the join wake of a dying thread, before its pid is forgotten. */
  function AfterJoinWake(s: State, p: Pid): State {
    if p in s.reg.threads && s.reg.threads[p].childTid != 0 && HasClearTid(s.reg.threads[p].flags) then
      Wake(s, s.reg.threads, s.reg.threads[p].childTid, 1)
    else s
  }

  lemma AfterJoinWakeKeeps(s: State, p: Pid)
    requires Partition(s) && Parked(s)
    ensures var w := AfterJoinWake(s, p);
            && Partition(w) && Parked(w) && w == s.(q := w.q, log := w.log)
            && w.q.pendingStart == s.q.pendingStart && w.q.stoppedPending == s.q.stoppedPending
  {
    if p in s.reg.threads {
      var addr := s.reg.threads[p].childTid;
      WakeTakesPrefix(s, s.reg.threads, addr, 1);
      WakeKeepsParked(s, s.reg.threads, addr, 1);
      WakeKeepsPartition(s, s.reg.threads, addr, 1);
      hide Wake, PartitionOf, ParkedOf;
    }
  }

  lemma ExitEffect(s: State, p: Pid, record: bool)
    requires Identity(s)
    ensures var t := OnThreadExit(s, p, record); var q := AfterJoinWake(s, p).q;
            && t.reg == s.reg.(threads := s.reg.threads - {p})
            && t.q == Queues(Without(q.runnable, p), q.pendingStart - {p}, q.stoppedPending - {p}, q.blocked - {p}, Purge(q.waiting, p))
            && t.focus == s.focus && t.kern == s.kern && t.dev == s.dev && t.outcome == s.outcome
            && t.calls.pending == s.calls.pending - {p} && t.calls.clonePending == s.calls.clonePending
  {
    hide WakeSplit, Purge, Without, Unparks, SetQueue;
    if p in s.reg.threads {
      WakeIgnoresRegistry(s, p, s.reg.threads[p].childTid);
    } else {
      assert s.reg.threads - {p} == s.reg.threads;
      assert s.calls.pending - {p} == s.calls.pending;
    }
  }

  lemma WakeIgnoresRegistry(s: State, p: Pid, addr: Addr)
    ensures var reg := s.reg.(threads := s.reg.threads - {p});
            Wake(s.(reg := reg), s.reg.threads, addr, 1) == Wake(s, s.reg.threads, addr, 1).(reg := reg)
  {
    hide Unparks, SetQueue, Elems;
  }

  function ForgetIn(q: Queues, p: Pid): Queues {
    Queues(Without(q.runnable, p), q.pendingStart - {p}, q.stoppedPending - {p}, q.blocked - {p}, Purge(q.waiting, p))
  }

  lemma ForgetKeepsPartition(threads: map<Pid, Thread>, q: Queues, current: Option<Pid>, p: Pid)
    requires PartitionOf(threads, q, current)
    ensures PartitionOf(threads - {p}, ForgetIn(q, p), current)
  {
  }

  lemma ForgetKeepsParked(q: Queues, pending: map<Pid, Inject>, p: Pid)
    requires ParkedOf(q.waiting, q.blocked, pending)
    ensures ParkedOf(ForgetIn(q, p).waiting, ForgetIn(q, p).blocked, pending - {p})
  {
    PurgeKeepsMatch(q.waiting, q.blocked, p);
    hide QueuesMatch, Purge;
  }

  lemma ForgetKeepsIdentity(reg: Registry, stopped: set<Pid>, focus: Focus, pending: map<Pid, Inject>, p: Pid)
    requires IdentityOf(reg, stopped, focus, pending) && p != reg.init
    ensures IdentityOf(reg.(threads := reg.threads - {p}), stopped - {p}, focus, pending - {p})
  {
  }

  lemma ForgetKeepsKernel(task: map<Pid, Task>, threads: map<Pid, Thread>, stopped: set<Pid>, starting: set<Pid>, p: Pid)
    requires KernelOf(task, threads, stopped, starting)
    ensures KernelOf(task - {p}, threads - {p}, stopped - {p}, starting - {p})
  {
  }

  /** Forgetting a pid everywhere keeps the tables of everybody else. */
  lemma ExitKeepsTables(s: State, p: Pid, record: bool)
    requires Tables(s) && p != s.reg.init
    ensures Tables(OnThreadExit(s, p, record))
  {
    ExitEffect(s, p, record);
    AfterJoinWakeKeeps(s, p);
    var w := AfterJoinWake(s, p);
    ForgetKeepsPartition(w.reg.threads, w.q, w.focus.current, p);
    ForgetKeepsParked(w.q, w.calls.pending, p);
    ForgetKeepsIdentity(s.reg, s.q.stoppedPending, s.focus, s.calls.pending, p);
    hide OnThreadExit, AfterJoinWake, PartitionOf, ParkedOf, IdentityOf, Without, Purge;
  }

  lemma ExitKeepsKernel(s: State, p: Pid, record: bool)
    requires MidInv(s) && p in s.kern.task
    ensures var t := OnThreadExit(s.(kern := s.kern.(task := s.kern.task - {p})), p, record);
            KernelView(t) && SingleRunner(t) && (s.focus.current == Some(p) ==> Quiet(t))
  {
    var d := s.(kern := s.kern.(task := s.kern.task - {p}));
    ExitEffect(d, p, record);
    AfterJoinWakeKeeps(d, p);
    ForgetKeepsKernel(s.kern.task, s.reg.threads, s.q.stoppedPending, s.q.pendingStart, p);
    hide OnThreadExit, AfterJoinWake, PartitionOf, ParkedOf, IdentityOf, KernelOf, Without, Purge;
    var t := OnThreadExit(d, p, record);
    forall r | RunsAmong(t.reg.threads, t.kern.task, r) ensures t.focus.current == Some(r) && r != p {
      assert RunsAmong(s.reg.threads, s.kern.task, r);
    }
  }

  lemma DeathKeeps(s: State, p: Pid)
    requires MidInv(s) && p in s.kern.task && p != s.reg.init
    ensures MidInv(HandleDeath(s.(kern := s.kern.(task := s.kern.task - {p})), p))
  {
    var d := s.(kern := s.kern.(task := s.kern.task - {p}));
    var wasCurrent := s.focus.current == Some(p);
    ExitKeepsTables(d, p, wasCurrent);
    ExitKeepsKernel(s, p, wasCurrent);
    ExitEffect(d, p, wasCurrent);
    var t := OnThreadExit(d, p, wasCurrent);
    hide OnThreadExit, ScheduleNext, AfterJoinWake;
    if wasCurrent && !t.focus.groupExiting {
      IdleAfterDeath(t, p);
      ScheduleNextKeeps(SetCurrent(t, None));
    } else {
      assert t.focus.current.Some? && t.focus.current.value !in t.reg.threads ==> t.focus.groupExiting;
    }
  }

  lemma IdleAfterDeath(t: State, p: Pid)
    requires Tables(t) && t.focus.current == Some(p) && p !in t.reg.threads
    ensures Tables(SetCurrent(t, None))
  {
  }

  // ----- the arms of dispatch

  /** A resumed task that stops: what `wait()` leaves for the arm that handles it. */
  ghost predicate Stopped(d: State, p: Pid) {
    && MidInv(d) && IsTask(d, p, Held) && p in d.reg.threads && p !in d.q.stoppedPending && p !in d.q.blocked
    && p !in d.q.pendingStart && (IsScheduled(d, p) ==> d.focus.current == Some(p) && Quiet(d))
  }

  lemma StopKeeps(s: State, p: Pid)
    requires MidInv(s) && IsTask(s, p, Resumed)
    ensures Stopped(SetTask(s, p, Held), p)
  {
    var d := SetTask(s, p, Held);
    assert p in s.reg.threads && p !in s.q.stoppedPending;
    forall r | RunsAmong(d.reg.threads, d.kern.task, r) ensures d.focus.current == Some(r) && !IsScheduled(d, p) {
      assert RunsAmong(s.reg.threads, s.kern.task, r);
      assert IsScheduled(s, p) ==> RunsAmong(s.reg.threads, s.kern.task, p);
    }
    if IsScheduled(s, p) {
      assert RunsAmong(s.reg.threads, s.kern.task, p);
    }
  }

  lemma ConcurrentSyscallKeeps(d: State, p: Pid, op: SyscallOp)
    requires Stopped(d, p) && !IsScheduled(d, p)
    ensures MidInv(HandleSyscall(d, p, op))
  {
    var t := match op
             case Entry(regs, mem) => OnSyscallEntry(d, p, regs, mem)
             case Exit => OnSyscallExit(d, p)
             case NoInfo => d;
    assert CallsOnly(d, t, p) by {
      match op {
        case Entry(regs, mem) => EntryEffect(d, p, regs, mem);
        case Exit => ExitStopEffect(d, p);
        case NoInfo =>
      }
    }
    hide OnSyscallEntry, OnSyscallExit;
    CallsKeep(d, t, p);
    if t.outcome.InProgress? {
      ResumeKeeps(t, p);
    }
    hide ResumeThread, MidInv;
  }

  lemma YieldKeeps(s: State, p: Pid)
    requires Stopped(s, p) && IsScheduled(s, p)
    ensures MidInv(YieldCurrent(s, p))
  {
    var t := PushRunnable(SetCurrent(s, None), p);
    assert Tables(t) by {
      NoDupAppend(s.q.runnable, [p]);
    }
    ScheduleNextKeeps(t);
    hide ScheduleNext;
  }

  lemma ScheduledSyscallKeeps(d: State, p: Pid, op: SyscallOp)
    requires Stopped(d, p) && IsScheduled(d, p) && d.outcome.InProgress?
    ensures MidInv(HandleSyscall(d, p, op))
  {
    match op {
      case Entry(regs, mem) =>
        ScheduledEntryKeeps(d, p, regs, mem);
        var t := OnSyscallEntry(d, p, regs, mem);
        hide OnSyscallEntry, MidInv, Stopped, ResumeThread, Parks;
        if t.outcome.InProgress? && !Parks(d, p, regs, mem) {
          CurrentHeld(d, t, p);
          ResumeKeeps(t, p);
        } else if !t.outcome.InProgress? {
          FailedEntryKeeps(d, p, regs, mem);
        }
      case Exit =>
        ExitStopEffect(d, p);
        var t := OnSyscallExit(d, p);
        CallsKeep(d, t, p);
        hide OnSyscallExit, YieldCurrent;
        YieldKeeps(t, p);
      case NoInfo =>
        ResumeKeeps(d, p);
        hide ResumeThread, MidInv;
    }
  }

  lemma CurrentHeld(d: State, t: State, p: Pid)
    requires Stopped(d, p) && IsScheduled(d, p) && MidInv(t) && t.kern.task == d.kern.task && t.reg == d.reg
    requires t.focus.current == d.focus.current
    ensures t.focus.current == Some(p) && (IsTask(t, p, Held) ==> p !in t.q.stoppedPending)
  {
  }

  lemma FailedEntryKeeps(d: State, p: Pid, regs: Regs, mem: Memory)
    requires Stopped(d, p) && IsScheduled(d, p) && d.outcome.InProgress?
    ensures !OnSyscallEntry(d, p, regs, mem).outcome.InProgress? ==> MidInv(OnSyscallEntry(d, p, regs, mem))
  {
    ScheduledEntryKeeps(d, p, regs, mem);
    hide OnSyscallEntry, MidInv;
  }

  // ----- new tasks

  /** The tables right after a child is entered in `threads`, with `q` the queues it joins. */
  function Enrolled(s: State, c: Pid, info: CloneInfo, q: Queues): State {
    s.(reg := s.reg.(vtidNext := s.reg.vtidNext + 1,
                     threads := s.reg.threads[c := Thread(s.reg.vtidNext, info.childTid, info.flags, HasCloneThread(info.flags))]),
       q := q)
  }

  lemma EnrolledIdentity(s: State, c: Pid, info: CloneInfo, q: Queues)
    requires Identity(s) && c !in s.reg.threads && q.stoppedPending == s.q.stoppedPending - {c}
    requires s.focus.current != Some(c)
    ensures Identity(Enrolled(s, c, info, q))
  {
  }

  /** Clone event first: the child waits in `pendingStart` for its attach stop. */
  lemma StartingKeeps(s: State, d: State, c: Pid, info: CloneInfo)
    requires MidInv(s) && Fresh(s, c) && d == SetTask(s, c, Attaching)
    ensures MidInv(Enrolled(d, c, info, d.q.(pendingStart := d.q.pendingStart + {c})))
  {
    var q := d.q.(pendingStart := d.q.pendingStart + {c});
    var t := Enrolled(d, c, info, q);
    assert q.stoppedPending == d.q.stoppedPending - {c};
    EnrolledIdentity(d, c, info, q);
    hide IdentityOf;
    forall r | RunsAmong(t.reg.threads, t.kern.task, r) ensures t.focus.current == Some(r) {
      assert RunsAmong(s.reg.threads, s.kern.task, r);
    }
  }

  function Unstopped(q: Queues, c: Pid, thread: bool): Queues {
    q.(stoppedPending := q.stoppedPending - {c}, runnable := if thread then q.runnable + [c] else q.runnable)
  }

  lemma EnlistKeepsPartition(s: State, c: Pid, info: CloneInfo)
    requires Partition(s) && Identity(s) && c in s.q.stoppedPending
    ensures Partition(Enrolled(s, c, info, Unstopped(s.q, c, HasCloneThread(info.flags))))
  {
    assert c !in s.reg.threads;
    hide IdentityOf;
    NoDupAppend(s.q.runnable, [c]);
  }

  /** Attach stop first: the child leaves `stoppedPending`, a thread for the back of `runnable`. */
  lemma EnlistKeeps(s: State, c: Pid, info: CloneInfo)
    requires MidInv(s) && c in s.q.stoppedPending
    ensures MidInv(Enrolled(s, c, info, Unstopped(s.q, c, HasCloneThread(info.flags))))
  {
    var q := Unstopped(s.q, c, HasCloneThread(info.flags));
    var t := Enrolled(s, c, info, q);
    assert c !in s.reg.threads;
    EnrolledIdentity(s, c, info, q);
    EnlistKeepsPartition(s, c, info);
    hide IdentityOf, PartitionOf;
    forall r | RunsAmong(t.reg.threads, t.kern.task, r) ensures t.focus.current == Some(r) {
      assert RunsAmong(s.reg.threads, s.kern.task, r);
    }
  }

  lemma MidInvLog(s: State, t: State)
    requires MidInv(s) && t.reg == s.reg && t.q == s.q && t.focus == s.focus && t.kern == s.kern
    requires t.calls.pending == s.calls.pending
    ensures MidInv(t)
  {
    hide PartitionOf, ParkedOf, IdentityOf, KernelOf, FramesOf, RunsAmong;
  }

  lemma RegisterKeepsFresh(s: State, c: Pid, info: CloneInfo)
    requires MidInv(s) && Fresh(s, c) && s.outcome.InProgress?
    ensures var t := Register(SetTask(s, c, Attaching), c, info);
            && MidInv(t) && t.outcome.InProgress? && c in t.q.pendingStart && t.focus == s.focus
            && t.q.stoppedPending == s.q.stoppedPending && t.q.pendingStart == s.q.pendingStart + {c}
            && t.kern == SetTask(s, c, Attaching).kern && t.reg.threads.Keys == s.reg.threads.Keys + {c}
  {
    var d := SetTask(s, c, Attaching);
    StartingKeeps(s, d, c, info);
    var t := Enrolled(d, c, info, d.q.(pendingStart := d.q.pendingStart + {c}));
    MidInvLog(t, Emit(t, ThreadCreate(s.reg.vtidNext, HasCloneThread(info.flags))));
    hide MidInv;
  }

  lemma RegisterKeepsStopped(s: State, c: Pid, info: CloneInfo)
    requires MidInv(s) && c in s.q.stoppedPending && s.outcome.InProgress?
    ensures var t := Register(s, c, info);
            && MidInv(t) && c !in t.q.pendingStart && t.focus == s.focus
            && t.q.stoppedPending == s.q.stoppedPending - {c} && t.q.pendingStart == s.q.pendingStart
  {
    assert c !in s.reg.threads && c !in s.q.pendingStart;
    EnlistKeeps(s, c, info);
    hide MidInv;
    var q := s.q.(stoppedPending := s.q.stoppedPending - {c});
    var t := Enrolled(s, c, info, q);
    if HasCloneThread(info.flags) {
      var u := PushRunnable(t, c);
      assert Register(s, c, info) == Emit(u, ThreadCreate(s.reg.vtidNext, true));
      MidInvLog(u, Emit(u, ThreadCreate(s.reg.vtidNext, true)));
    } else {
      ResumeKeeps(t, c);
      ResumeEffect(t, c);
      var u := ResumeThread(t, c);
      hide ResumeThread;
      assert Register(s, c, info) == if u.outcome.InProgress? then Emit(u, ThreadCreate(s.reg.vtidNext, false)) else u;
      MidInvLog(u, Emit(u, ThreadCreate(s.reg.vtidNext, false)));
    }
  }

  lemma PushFrameKeeps(s: State, p: Pid, c: Pid)
    requires MidInv(s) && p !in s.q.stoppedPending && p !in s.q.pendingStart && c !in s.q.stoppedPending
    ensures MidInv(s.(focus := s.focus.(frames := s.focus.frames + [Frame(p, c)])))
  {
    hide PartitionOf, ParkedOf, KernelOf, RunsAmong;
  }

  lemma CloneKeeps(s: State, p: Pid, c: Pid)
    requires MidInv(s) && s.outcome.InProgress? && Legal(s, CloneEvent(p, c))
    ensures MidInv(HandleClone(Deliver(s, CloneEvent(p, c)), p, c))
  {
    StopKeeps(s, p);
    var d := SetTask(s, p, Held);
    var info := if p in d.calls.clonePending then d.calls.clonePending[p] else CloneInfo(0, 0);
    var e := d.(calls := d.calls.(clonePending := d.calls.clonePending - {p}));
    MidInvLog(d, e);
    if c in s.q.stoppedPending {
      assert c in s.kern.task;
      assert Deliver(s, CloneEvent(p, c)) == d;
      RegisterKeepsStopped(e, c, info);
      var t := Register(e, c, info);
      hide Register, Continue, MidInv;
      if t.outcome.InProgress? {
        ParentNotStopped(d, p);
        ContinueKeeps(t, p);
      }
    } else {
      FreshAfterStop(s, d, e, p, c);
      RegisterKeepsFresh(e, c, info);
      hide Register, Continue;
      ParentNotStopped(d, p);
      PushFrameKeeps(Register(SetTask(e, c, Attaching), c, info), p, c);
      hide MidInv, Fresh;
    }
  }

  lemma ParentNotStopped(d: State, p: Pid)
    requires Stopped(d, p)
    ensures p !in d.q.stoppedPending && p !in d.q.pendingStart
  {
  }

  lemma FreshAfterStop(s: State, d: State, e: State, p: Pid, c: Pid)
    requires Fresh(s, c) && p != c && d == SetTask(s, p, Held)
    requires e == d.(calls := d.calls.(clonePending := d.calls.clonePending - {p}))
    ensures Fresh(e, c)
  {
  }

  lemma StartingFacts(s: State, c: Pid)
    requires MidInv(s) && c in s.q.pendingStart
    ensures c in s.reg.threads && c !in s.q.stoppedPending && c !in s.q.runnable && c !in s.q.blocked && s.focus.current != Some(c)
  {
    hide ParkedOf, FramesOf, RunsAmong;
  }

  /** Its stop seen and no longer to start: for the moment the child is in no queue. */
  lemma UnstartedRest(s: State, c: Pid, e: State)
    requires MidInv(s) && c in s.q.pendingStart
    requires e == var d := SetTask(s, c, Held); d.(q := d.q.(pendingStart := d.q.pendingStart - {c}))
    ensures Parked(e) && Identity(e) && CurrentLive(e) && KernelView(e) && SingleRunner(e)
    ensures e.focus == s.focus && e.reg == s.reg && e.q == s.q.(pendingStart := s.q.pendingStart - {c})
  {
    forall r | RunsAmong(e.reg.threads, e.kern.task, r) ensures e.focus.current == Some(r) {
      assert RunsAmong(s.reg.threads, s.kern.task, r);
    }
    hide PartitionOf, ParkedOf;
  }

  lemma UnstartedPartition(threads: map<Pid, Thread>, q: Queues, current: Option<Pid>, c: Pid)
    requires PartitionOf(threads, q, current) && c in q.pendingStart && c !in q.runnable
    ensures ScheduledIn(threads, c) ==>
              PartitionOf(threads, q.(pendingStart := q.pendingStart - {c}, runnable := q.runnable + [c]), current)
    ensures !ScheduledIn(threads, c) ==> PartitionOf(threads, q.(pendingStart := q.pendingStart - {c}), current)
  {
    NoDupAppend(q.runnable, [c]);
  }

  lemma PushRest(e: State, c: Pid)
    ensures var t := PushRunnable(e, c);
            && t.reg == e.reg && t.focus == e.focus && t.q == e.q.(runnable := e.q.runnable + [c])
            && (Parked(e) && Identity(e) && CurrentLive(e) && KernelView(e) && SingleRunner(e)
                ==> Parked(t) && Identity(t) && CurrentLive(t) && KernelView(t) && SingleRunner(t))
  {
    hide ParkedOf, IdentityOf, KernelOf, FramesOf, RunsAmong;
  }

  lemma ReleaseIs(e: State, c: Pid)
    ensures Release(e, c) == if IsScheduled(e, c) then PushRunnable(e, c) else ResumeThread(e, c)
  {
    hide ResumeThread, PushRunnable;
  }

  lemma PartitionNamed(s: State)
    ensures Partition(s) <==> PartitionOf(s.reg.threads, s.q, s.focus.current)
    ensures forall p :: IsScheduled(s, p) <==> ScheduledIn(s.reg.threads, p)
  {
  }

  /** A released child: pushed to the back of the queue, or set running when it is a process. */
  lemma ReleaseKeeps(s: State, c: Pid)
    requires MidInv(s) && c in s.q.pendingStart
    ensures var d := SetTask(s, c, Held);
            var t := Release(d.(q := d.q.(pendingStart := d.q.pendingStart - {c})), c);
            MidInv(t) && t.focus == s.focus && t.q.stoppedPending == s.q.stoppedPending
  {
    hide *;
    var d := SetTask(s, c, Held);
    var e := d.(q := d.q.(pendingStart := d.q.pendingStart - {c}));
    StartingFacts(s, c);
    UnstartedRest(s, c, e);
    MidParts(s);
    PartitionNamed(s);
    PartitionNamed(e);
    UnstartedPartition(s.reg.threads, s.q, s.focus.current, c);
    ReleaseIs(e, c);
    if IsScheduled(e, c) {
      PushRest(e, c);
      PartitionNamed(PushRunnable(e, c));
      MidWhole(PushRunnable(e, c));
    } else {
      MidWhole(e);
      ResumeKeeps(e, c);
      ResumeFrame(e, c);
    }
  }

  lemma ResumeFrame(e: State, c: Pid)
    ensures ResumeThread(e, c).focus == e.focus && ResumeThread(e, c).q == e.q && ResumeThread(e, c).reg == e.reg
  {
    ResumeEffect(e, c);
    hide ResumeThread;
  }

  function PopFrame(s: State): State
    requires s.focus.frames != []
  {
    s.(focus := s.focus.(frames := s.focus.frames[..|s.focus.frames| - 1]))
  }

  lemma PopFrameKeeps(s: State)
    requires MidInv(s) && s.focus.frames != []
    ensures MidInv(PopFrame(s))
  {
    hide PartitionOf, ParkedOf, KernelOf, RunsAmong;
  }

  lemma AwaitedIsStarting(s: State, st: Status)
    requires MidInv(s) && Legal(s, st) && Awaited(s, st)
    ensures var f := s.focus.frames[|s.focus.frames| - 1];
            f.child in s.q.pendingStart && f.parent !in s.q.stoppedPending
  {
    var f := s.focus.frames[|s.focus.frames| - 1];
    assert f in s.focus.frames;
  }

  lemma FinishKeeps(s: State, st: Status)
    requires MidInv(s) && Legal(s, st) && Awaited(s, st)
    ensures MidInv(FinishAwait(Deliver(s, st)))
  {
    var f := s.focus.frames[|s.focus.frames| - 1];
    AwaitedIsStarting(s, st);
    ReleaseKeeps(s, f.child);
    var d := SetTask(s, f.child, Held);
    var t := Release(d.(q := d.q.(pendingStart := d.q.pendingStart - {f.child})), f.child);
    hide Release, Continue, MidInv, Legal;
    if t.outcome.InProgress? {
      PopFrameKeeps(t);
      ContinueKeeps(PopFrame(t), f.parent);
    }
  }

  lemma AttachFirstKeeps(s: State, c: Pid)
    requires MidInv(s) && Fresh(s, c)
    ensures MidInv(HandleSignalStop(SetTask(s, c, Held), c, SIGSTOP))
  {
    var d := SetTask(s, c, Held);
    var t := HandleSignalStop(d, c, SIGSTOP);
    assert t == d.(q := d.q.(stoppedPending := d.q.stoppedPending + {c}));
    forall r | RunsAmong(t.reg.threads, t.kern.task, r) ensures t.focus.current == Some(r) {
      assert RunsAmong(s.reg.threads, s.kern.task, r);
    }
  }

  lemma PtraceEffect(s: State, p: Pid, sig: Option<Signal>)
    ensures ResumesOnly(s, PtraceSyscall(s, p, sig), p)
  {
  }

  lemma SignalKeeps(s: State, p: Pid, sig: Signal)
    requires MidInv(s) && Legal(s, SignalStop(p, sig))
    ensures MidInv(HandleSignalStop(SetTask(s, p, Held), p, sig))
  {
    if sig == SIGSTOP {
      if IsTask(s, p, Attaching) {
        assert p in s.q.pendingStart && s.focus.current != Some(p);
        ReleaseKeeps(s, p);
        hide Release, MidInv;
      } else {
        AttachFirstKeeps(s, p);
        hide HandleSignalStop, MidInv;
      }
    } else {
      StopKeeps(s, p);
      var d := SetTask(s, p, Held);
      assert p in d.reg.threads && (IsScheduled(d, p) ==> d.focus.current == Some(p));
      PtraceEffect(d, p, Some(sig));
      ResumedKeeps(d, PtraceSyscall(d, p, Some(sig)), p);
      hide PtraceSyscall, MidInv;
    }
  }

  lemma ExitStopKeeps(s: State, p: Pid)
    requires MidInv(s) && Legal(s, ExitEvent(p))
    ensures MidInv(ResumeThread(SetTask(s, p, ExitStop), p))
  {
    var d := SetTask(s, p, ExitStop);
    forall r | RunsAmong(d.reg.threads, d.kern.task, r) ensures d.focus.current == Some(r) {
      assert RunsAmong(s.reg.threads, s.kern.task, r);
    }
    assert MidInv(d) by { hide RunsAmong; }
    ResumeKeeps(d, p);
    hide ResumeThread, MidInv;
  }

  /** The status that ends the run. */
  predicate InitDies(s: State, st: Status) { (st.Exited? || st.Killed?) && st.pid == s.reg.init }

  lemma InnerCases(s: State, st: Status)
    ensures if Awaited(s, st) then s.focus.frames != [] && Inner(s, st) == FinishAwait(Deliver(s, st))
            else
              match st
              case SyscallStop(p, op) => Inner(s, st) == HandleSyscall(SetTask(s, p, Held), p, op)
              case OtherEvent(p) => Inner(s, st) == Continue(SetTask(s, p, Held), p)
              case SignalStop(p, sig) => Inner(s, st) == HandleSignalStop(SetTask(s, p, Held), p, sig)
              case CloneEvent(p, c) => Inner(s, st) == HandleClone(Deliver(s, st), p, c)
              case ExitEvent(p) => Inner(s, st) == ResumeThread(SetTask(s, p, ExitStop), p)
              case Exited(p, _) =>
                if p == s.reg.init then Inner(s, st).outcome.Done?
                else Inner(s, st) == HandleDeath(s.(kern := s.kern.(task := s.kern.task - {p})), p)
              case Killed(p, _) =>
                if p == s.reg.init then Inner(s, st).outcome.Done?
                else Inner(s, st) == HandleDeath(s.(kern := s.kern.(task := s.kern.task - {p})), p)
              case Idle => Inner(s, st) == s
  {
    hide HandleSyscall, Continue, HandleSignalStop, HandleClone, ResumeThread, HandleDeath, FinishAwait;
  }

  lemma LegalMeans(s: State, st: Status)
    requires Legal(s, st)
    ensures st.SyscallStop? || st.OtherEvent? || st.CloneEvent? ==> IsTask(s, st.pid, Resumed)
    ensures st.Exited? || st.Killed? ==> st.pid in s.kern.task
    ensures InitDies(s, st) <==> (st.Exited? || st.Killed?) && st.pid == s.reg.init
  {
    hide Fresh;
  }

  /** Whatever loop is waiting, whatever status arrives. */
  lemma InnerKeeps(s: State, st: Status)
    requires MidInv(s) && s.outcome.InProgress? && Legal(s, st)
    ensures if InitDies(s, st) then Inner(s, st).outcome.Done? else MidInv(Inner(s, st))
  {
    hide *;
    InnerCases(s, st);
    LegalMeans(s, st);
    if Awaited(s, st) {
      FinishKeeps(s, st);
      AwaitedIsNoDeath(s, st);
    } else {
      match st {
        case SyscallStop(p, op) => SyscallKeeps(s, p, op);
        case OtherEvent(p) =>
          StopKeeps(s, p);
          ParentNotStopped(SetTask(s, p, Held), p);
          StoppedMid(SetTask(s, p, Held), p);
          ContinueKeeps(SetTask(s, p, Held), p);
        case SignalStop(p, sig) => SignalKeeps(s, p, sig);
        case CloneEvent(p, c) => CloneKeeps(s, p, c);
        case ExitEvent(p) => ExitStopKeeps(s, p);
        case Exited(p, _) => if p != s.reg.init { DeathKeeps(s, p); }
        case Killed(p, _) => if p != s.reg.init { DeathKeeps(s, p); }
        case Idle =>
      }
    }
  }

  lemma AwaitedIsNoDeath(s: State, st: Status)
    requires Awaited(s, st)
    ensures !InitDies(s, st)
  {
  }

  lemma StoppedMid(d: State, p: Pid)
    requires Stopped(d, p)
    ensures MidInv(d)
  {
    hide MidInv;
  }

  lemma SyscallKeeps(s: State, p: Pid, op: SyscallOp)
    requires MidInv(s) && s.outcome.InProgress? && IsTask(s, p, Resumed)
    ensures MidInv(HandleSyscall(SetTask(s, p, Held), p, op))
  {
    StopKeeps(s, p);
    var d := SetTask(s, p, Held);
    hide MidInv, HandleSyscall, Stopped;
    if IsScheduled(d, p) { ScheduledSyscallKeeps(d, p, op); } else { ConcurrentSyscallKeeps(d, p, op); }
  }

  // ----- whole runs

  /** The invariant, and after the init's death, which changes no table, still the tables. */
  ghost predicate Sound(s: State) { if s.outcome.Done? then Tables(s) else Inv(s) }

  lemma StepKeeps(s: State, st: Status)
    requires Sound(s) && (s.outcome.InProgress? ==> Legal(s, st))
    ensures Sound(Step(s, st))
  {
    hide *;
    if !s.outcome.InProgress? {
      StepOver(s, st);
    } else {
      SoundParts(s);
      InnerKeeps(s, st);
      StepIs(s, st);
      if InitDies(s, st) {
        EndTables(s, st);
        TailOnDone(Inner(s, st));
        EndSound(Inner(s, st));
      } else {
        TailKeeps(Inner(s, st));
        InvSound(Tail(Inner(s, st)));
      }
    }
  }

  lemma SoundParts(s: State)
    requires Sound(s) && s.outcome.InProgress?
    ensures Inv(s) && MidInv(s)
  {
    hide Tables, CurrentLive, KernelView, SingleRunner;
  }

  lemma InvSound(s: State)
    requires Inv(s)
    ensures Sound(s)
  {
    hide Tables, CurrentLive, KernelView, SingleRunner;
  }

  lemma EndSound(s: State)
    requires s.outcome.Done? && Tables(s)
    ensures Sound(s)
  {
    hide Tables;
  }

  lemma EndTables(s: State, st: Status)
    requires InitDies(s, st) && MidInv(s)
    ensures Tables(Inner(s, st))
  {
    var u := Inner(s, st);
    assert u.reg == s.reg && u.q == s.q && u.focus == s.focus && u.calls == s.calls;
    hide Inner, PartitionOf, ParkedOf, IdentityOf, KernelOf, FramesOf, RunsAmong;
  }

  /** Only the init's death ends a run well. */
  lemma StepKeepsInv(s: State, st: Status)
    requires Inv(s) && s.outcome.InProgress? && Legal(s, st) && !InitDies(s, st)
    ensures Inv(Step(s, st))
  {
    InnerKeeps(s, st);
    TailKeeps(Inner(s, st));
    hide Inner, Tail, Inv;
  }

  lemma TailOnDone(s: State)
    requires s.outcome.Done?
    ensures Tail(s) == s
  {
  }

  lemma StartSound(init: Pid, seed: u64)
    ensures Inv(Start(init, seed))
  {
    var b := Boot(init, seed);
    assert b.q.runnable == [init];
    assert Tables(b) && KernelView(b) && Quiet(b);
    ScheduleNextKeeps(b);
    hide ScheduleNext;
  }

  /** Single runner, partition and parked threads, for every workload the kernel's rules allow: in
      every state reached from the start, the last one included, scheduled threads are partitioned among `current`, `runnable`,
      `blocked` and `pendingStart`, the waiting queues are exactly the blocked threads, and at most one
      scheduled thread runs, which is `current`. */
  lemma {:induction false} RunSound(init: Pid, seed: u64, sts: seq<Status>)
    requires LegalRun(Start(init, seed), sts)
    ensures Sound(Run(Start(init, seed), sts))
  {
    hide Step, Inv, Start, Legal;
    var s := Start(init, seed);
    if sts == [] {
      StartSound(init, seed);
      InvSound(s);
    } else {
      var pre := sts[..|sts| - 1];
      assert forall i :: 0 <= i < |pre| ==> pre[..i] == sts[..i];
      RunSound(init, seed, pre);
      assert Legal(Run(s, sts[..|sts| - 1]), sts[|sts| - 1]);
      StepKeeps(Run(s, pre), sts[|sts| - 1]);
    }
  }
}
