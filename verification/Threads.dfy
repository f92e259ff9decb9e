/** Workloads in which every task is a thread of the init and no signal comes from outside: no call on the
    kernel fails with ESRCH, the deadlock verdict is exact, and it is known exactly when a wait can hang
    (src/runtime/supervisor.rs:193-215, 219-241, 376-433). */
module Threads {
  import opened Base
  import opened Machine
  import opened Invariants
  import Clock
  import Prng
  import Recorder

  // ----- the kernel's rules for such workloads

  /** Thread `p` is inside a clone call that makes a thread. */
  ghost predicate MidClone(s: State, p: Pid) {
    p in s.calls.clonePending && HasCloneThread(s.calls.clonePending[p].flags)
  }

  ghost predicate IsCurrent(s: State, p: Pid) { s.focus.current == Some(p) }

  /** On top of `Legal`: clone events are for threads; a child's attach stop comes while its parent is inside
      the clone call, and the parent's next stop is then the clone event; a thread dies by its own exit, the
      leader last; after an exit_group only deaths are reported, the leader's last. */
  ghost predicate ThreadsOnly(s: State, st: Status) {
    && Legal(s, st)
    && (s.focus.groupExiting ==> st.ExitEvent? || st.Exited? || st.Killed? || st.Idle?)
    && (s.q.stoppedPending != {} ==> st.Idle? || (st.CloneEvent? && st.child in s.q.stoppedPending))
    && match st
       case CloneEvent(p, c) => MidClone(s, p)
       case SignalStop(c, sig) =>
         sig == SIGSTOP && Fresh(s, c) ==>
           s.focus.current.Some? && IsTask(s, s.focus.current.value, Resumed) && MidClone(s, s.focus.current.value)
       case ExitEvent(p) => s.focus.groupExiting || (IsCurrent(s, p) && IsTask(s, p, Resumed))
       case Exited(p, _) => (s.focus.groupExiting || (IsCurrent(s, p) && IsTask(s, p, Dying)))
                            && (p == s.reg.init ==> s.reg.threads.Keys == {p})
       case Killed(p, _) => (s.focus.groupExiting || (IsCurrent(s, p) && s.reg.threads.Keys == {p}))
                            && (p == s.reg.init ==> s.reg.threads.Keys == {p})
       case _ => true
  }

  ghost predicate ThreadsRun(s: State, sts: seq<Status>) {
    forall i :: 0 <= i < |sts| ==> ThreadsOnly(Run(s, sts[..i]), sts[i])
  }

  // ----- what such a run looks like while it waits

  ghost predicate AllScheduled(threads: map<Pid, Thread>) { forall p :: p in threads ==> threads[p].scheduled }

  ghost predicate OthersHeld(task: map<Pid, Task>, a: Pid, b: Pid) {
    forall p :: p in task && p != a && p != b ==> task[p].Held?
  }

  /** One thread is running or dying, everybody else is stopped. */
  ghost predicate OneRunning(s: State) {
    && s.focus.frames == [] && s.q.pendingStart == {} && s.focus.current.Some?
    && var p := s.focus.current.value;
       && p in s.reg.threads && (IsTask(s, p, Resumed) || IsTask(s, p, Dying))
       && OthersHeld(s.kern.task, p, p)
       && (s.q.stoppedPending != {} ==> IsTask(s, p, Resumed) && MidClone(s, p))
       && |s.q.stoppedPending| <= 1
  }

  /** The current thread has reported its clone event, its child is about to report its attach stop. */
  ghost predicate OneAttaching(s: State) {
    && |s.focus.frames| == 1 && s.focus.current == Some(s.focus.frames[0].parent) && s.q.stoppedPending == {}
    && var p, c := s.focus.frames[0].parent, s.focus.frames[0].child;
       && p in s.reg.threads && IsTask(s, p, Held) && p != c
       && s.q.pendingStart == {c} && IsTask(s, c, Attaching) && c in s.reg.threads
       && OthersHeld(s.kern.task, c, c)
  }

  /** An exit_group is in flight. */
  ghost predicate TearingDown(s: State) {
    && s.focus.groupExiting && s.focus.frames == [] && s.q.pendingStart == {} && s.q.stoppedPending == {}
    && s.focus.current.Some?
    && (forall p :: p in s.kern.task ==> s.kern.task[p].Held? || s.kern.task[p].Resumed? || s.kern.task[p].Dying?)
  }

  ghost predicate Waiting(s: State) {
    && AllScheduled(s.reg.threads)
    && if s.focus.groupExiting then TearingDown(s) else OneRunning(s) || OneAttaching(s)
  }

  ghost predicate Deadlocked(s: State) { !s.focus.groupExiting && s.reg.threads.Keys == s.q.blocked }

  /** How a step of such a run can leave the supervisor: never with ESRCH. */
  ghost predicate Verdict(s: State) {
    match s.outcome
    case InProgress => Waiting(s)
    case Done(_) => true
    case Failed(Ptrace) => false
    case Failed(Io) => true
    case Failed(Deadlock) => Deadlocked(s)
  }

  // ----- scheduling from a standstill

  /** Nobody runs and nobody is about to stop. */
  ghost predicate Standstill(s: State) {
    && AllScheduled(s.reg.threads) && !s.focus.groupExiting && s.focus.frames == []
    && s.q.pendingStart == {} && s.q.stoppedPending == {}
    && (forall p :: p in s.kern.task ==> s.kern.task[p].Held?)
  }

  lemma PickWaits(s: State, tid: Pid)
    requires Standstill(s) && s.outcome.InProgress? && tid in s.reg.threads && tid in s.kern.task
    ensures Pick(s, tid).outcome.InProgress? && Waiting(Pick(s, tid))
  {
    PickEffect(s, tid);
    PickSucceeds(s, tid);
    hide Pick;
  }

  lemma PickSucceeds(s: State, tid: Pid)
    requires tid in s.reg.threads && IsTask(s, tid, Held)
    ensures Pick(s, tid).outcome == s.outcome && Pick(s, tid).kern.task == s.kern.task[tid := Resumed]
    ensures Pick(s, tid).calls.clonePending == s.calls.clonePending
  {
  }

  /** When nobody can be picked, everybody is parked. */
  lemma AllParked(s: State)
    requires Partition(s) && AllScheduled(s.reg.threads) && s.q.runnable == [] && s.q.pendingStart == {} && s.focus.current == None
    ensures s.reg.threads.Keys == s.q.blocked
  {
    forall p | p in s.reg.threads ensures p in s.q.blocked {
      assert ScheduledIn(s.reg.threads, p);
    }
    forall p | p in s.q.blocked ensures p in s.reg.threads.Keys {
      assert ScheduledIn(s.reg.threads, p);
    }
  }

  lemma ScheduleFromStandstill(s: State)
    requires Tables(s) && KernelView(s) && Standstill(s) && s.focus.current == None && s.outcome.InProgress?
    ensures Verdict(ScheduleNext(s))
    ensures ScheduleNext(s).outcome.InProgress? || ScheduleNext(s).outcome == Failed(Deadlock)
  {
    if s.q.runnable != [] {
      ScheduleNextHead(s);
      var tid := s.q.runnable[0];
      assert tid in s.q.runnable && tid in s.reg.threads && tid in s.kern.task;
      hide PartitionOf, ParkedOf, IdentityOf, KernelOf, FramesOf, Pick;
      PickWaits(PopRunnable(s), tid);
      hide Waiting;
    } else {
      AllParked(s);
      hide PartitionOf, ParkedOf, IdentityOf, KernelOf, FramesOf;
    }
  }

  // ----- the arms of dispatch while no exit_group is in flight

  /** The current thread has stopped and nobody else runs. */
  ghost predicate Paused(d: State, p: Pid) {
    && AllScheduled(d.reg.threads) && !d.focus.groupExiting && d.focus.frames == []
    && d.q.pendingStart == {} && d.q.stoppedPending == {} && d.focus.current == Some(p) && p in d.reg.threads
    && (forall r :: r in d.kern.task ==> d.kern.task[r].Held?) && p in d.kern.task
  }

  lemma ResumedIsCurrent(s: State, p: Pid)
    requires Inv(s) && Waiting(s) && !s.focus.groupExiting && IsTask(s, p, Resumed)
    ensures OneRunning(s) && s.focus.current == Some(p)
  {
  }

  lemma PausedAfterStop(s: State, p: Pid)
    requires Inv(s) && Waiting(s) && !s.focus.groupExiting && IsTask(s, p, Resumed) && s.q.stoppedPending == {}
    ensures Paused(SetTask(s, p, Held), p) && Stopped(SetTask(s, p, Held), p)
  {
    ResumedIsCurrent(s, p);
    StopKeeps(s, p);
    hide MidInv, Inv;
  }

  /** Letting the paused thread go on is one running thread again. */
  lemma ResumePaused(d: State, p: Pid, t: State, u: State)
    requires Paused(d, p) && t.outcome.InProgress? && t.reg == d.reg && t.kern.task == d.kern.task
    requires t.focus == d.focus || t.focus == d.focus.(groupExiting := true)
    requires t.q.pendingStart == d.q.pendingStart && t.q.stoppedPending == d.q.stoppedPending
    requires u == ResumeThread(t, p) || exists sig :: u == PtraceSyscall(t, p, sig)
    ensures u.outcome.InProgress? && Waiting(u)
  {
    ResumeSucceeds(t, p);
    if u != ResumeThread(t, p) {
      var sig :| u == PtraceSyscall(t, p, sig);
      PtraceSucceeds(t, p, sig);
    }
    hide ResumeThread, PtraceSyscall;
  }

  lemma PtraceSucceeds(t: State, p: Pid, sig: Option<Signal>)
    requires IsTask(t, p, Held)
    ensures var u := PtraceSyscall(t, p, sig);
            && u.outcome == t.outcome && u.kern.task == t.kern.task[p := Resumed] && u.reg == t.reg && u.q == t.q
            && u.focus == t.focus && u.calls == t.calls
  {
  }

  lemma ResumeSucceeds(t: State, p: Pid)
    requires IsTask(t, p, Held)
    ensures var u := ResumeThread(t, p);
            && u.outcome == t.outcome && u.kern.task == t.kern.task[p := Resumed] && u.reg == t.reg && u.q == t.q
            && u.focus == t.focus && u.calls.clonePending == t.calls.clonePending
  {
  }

  /** A syscall entry ends in one of two ways and leaves starts and frames alone. */
  ghost predicate EntryLike(d: State, t: State) {
    && t.reg == d.reg && t.kern.task == d.kern.task
    && (t.focus == d.focus || t.focus == d.focus.(groupExiting := true))
    && t.q.pendingStart == d.q.pendingStart && t.q.stoppedPending == d.q.stoppedPending
    && (t.outcome == d.outcome || t.outcome == Failed(Io))
  }

  lemma WakeLike(s: State, addr: Addr, val: u64)
    ensures EntryLike(s, WakeAt(s, addr, val)) && WakeAt(s, addr, val).outcome == s.outcome
    ensures WakeAt(s, addr, val).focus == s.focus
  {
  }

  lemma EntryShape(d: State, p: Pid, regs: Regs, mem: Memory)
    ensures EntryLike(d, OnSyscallEntry(d, p, regs, mem))
    ensures Parks(d, p, regs, mem) ==>
              OnSyscallEntry(d, p, regs, mem).focus == d.focus && OnSyscallEntry(d, p, regs, mem).outcome == d.outcome
  {
    if regs.origRax == SYS_FUTEX {
      CarryOutShape(d, p, FutexCmd(regs), PlanFutex(d, p, regs, mem));
      hide CarryOut, PlanFutex;
    } else {
      hide Recorder.Filled, Recorder.Hex, Prng.WordAfter, Clock.Read, Clock.NextTick, PlanFutex, InterceptFutex;
    }
  }

  lemma CarryOutShape(d: State, p: Pid, cmd: nat, plan: FutexPlan)
    ensures var t := CarryOut(d, p, cmd, plan); EntryLike(d, t) && t.focus == d.focus && t.outcome == d.outcome
  {
    hide WakeAt, WakeCount;
    if plan.WakeOn? || plan.RequeueOn? {
      WakeLike(d, plan.addr, plan.val);
      if plan.RequeueOn? {
        WakeLike(WakeAt(d, plan.addr, plan.val), plan.addr, plan.val2);
      }
    }
  }

  lemma TailWaits(s: State)
    requires Verdict(s)
    ensures Tail(s) == s
  {
  }

  lemma SyscallWaits(s: State, p: Pid, op: SyscallOp)
    requires Inv(s) && Waiting(s) && s.outcome.InProgress? && !s.focus.groupExiting
    requires ThreadsOnly(s, SyscallStop(p, op))
    ensures Verdict(Step(s, SyscallStop(p, op)))
  {
    PausedAfterStop(s, p);
    var d := SetTask(s, p, Held);
    assert !Awaited(s, SyscallStop(p, op));
    assert Inner(s, SyscallStop(p, op)) == HandleSyscall(d, p, op);
    hide Inv, Waiting, ThreadsOnly, Inner, Tail;
    match op {
      case Entry(regs, mem) => EntryWaits(d, p, regs, mem);
      case Exit => YieldWaits(d, p);
      case NoInfo =>
        ResumePaused(d, p, d, ResumeThread(d, p));
        hide ResumeThread, Waiting;
    }
    PausedScheduled(d, p);
    hide Paused, Stopped, ScheduledEntry, YieldCurrent, OnSyscallExit;
    if op.NoInfo? { TailWaits(ResumeThread(d, p)); }
    if op.Exit? { TailWaits(YieldCurrent(OnSyscallExit(d, p), p)); }
  }

  lemma PausedScheduled(d: State, p: Pid)
    requires Paused(d, p)
    ensures IsScheduled(d, p) && d.focus.current == Some(p)
  {
  }

  lemma EntryWaits(d: State, p: Pid, regs: Regs, mem: Memory)
    requires Paused(d, p) && Stopped(d, p) && d.outcome.InProgress?
    ensures Verdict(Tail(ScheduledEntry(d, p, regs, mem)))
  {
    var t := OnSyscallEntry(d, p, regs, mem);
    EntryShape(d, p, regs, mem);
    PausedScheduled(d, p);
    ScheduledEntryKeeps(d, p, regs, mem);
    hide OnSyscallEntry, Parks, Stopped, ScheduleNext;
    if t.outcome.InProgress? {
      if Parks(d, p, regs, mem) {
        hide ResumeThread, PartitionOf, ParkedOf, IdentityOf, KernelOf, FramesOf;
        ScheduleFromStandstill(SetCurrent(t, None));
      } else {
        ResumePaused(d, p, t, ResumeThread(t, p));
        hide ResumeThread, MidInv;
        TailWaits(ResumeThread(t, p));
      }
    }
  }

  lemma YieldWaits(d: State, p: Pid)
    requires Paused(d, p) && Stopped(d, p) && d.outcome.InProgress?
    ensures Verdict(YieldCurrent(OnSyscallExit(d, p), p))
  {
    var t := OnSyscallExit(d, p);
    ExitStopEffect(d, p);
    CallsKeep(d, t, p);
    var u := PushRunnable(SetCurrent(t, None), p);
    hide OnSyscallExit, ScheduleNext, RunsAmong;
    assert Tables(u) by {
      NoDupAppend(t.q.runnable, [p]);
    }
    hide PartitionOf, ParkedOf, IdentityOf, KernelOf;
    assert KernelView(u);
    ScheduleFromStandstill(u);
  }

  lemma AttachFirstWaits(s: State, c: Pid)
    requires OneRunning(s) && AllScheduled(s.reg.threads) && !s.focus.groupExiting && s.outcome.InProgress? && Fresh(s, c)
    requires s.q.stoppedPending == {} && IsTask(s, s.focus.current.value, Resumed) && MidClone(s, s.focus.current.value)
    ensures Verdict(Step(s, SignalStop(c, SIGSTOP)))
  {
    var t := s.(kern := s.kern.(task := s.kern.task[c := Held]), q := s.q.(stoppedPending := s.q.stoppedPending + {c}));
    assert Inner(s, SignalStop(c, SIGSTOP)) == t;
    assert t.q.stoppedPending == {c};
    hide Inner, Fresh;
    TailWaits(t);
  }

  lemma SignalWaits(s: State, p: Pid, sig: Signal)
    requires Inv(s) && Waiting(s) && s.outcome.InProgress? && !s.focus.groupExiting && s.focus.frames == []
    requires ThreadsOnly(s, SignalStop(p, sig))
    ensures Verdict(Step(s, SignalStop(p, sig)))
  {
    if sig == SIGSTOP {
      assert OneRunning(s) && Fresh(s, p);
      hide Fresh, Inv, Step;
      AttachFirstWaits(s, p);
    } else {
      PausedAfterStop(s, p);
      var d := SetTask(s, p, Held);
      assert Inner(s, SignalStop(p, sig)) == PtraceSyscall(d, p, Some(sig));
      hide Inv, ThreadsOnly, Inner;
      ResumePaused(d, p, d, PtraceSyscall(d, p, Some(sig)));
      hide Waiting;
      TailWaits(PtraceSyscall(d, p, Some(sig)));
    }
  }

  lemma EventWaits(s: State, p: Pid)
    requires Inv(s) && Waiting(s) && s.outcome.InProgress? && !s.focus.groupExiting
    requires ThreadsOnly(s, OtherEvent(p))
    ensures Verdict(Step(s, OtherEvent(p)))
  {
    PausedAfterStop(s, p);
    var d := SetTask(s, p, Held);
    PausedScheduled(d, p);
    assert Inner(s, OtherEvent(p)) == ResumeThread(d, p);
    hide Inv, ThreadsOnly, Inner, Waiting;
    ResumePaused(d, p, d, ResumeThread(d, p));
    TailWaits(ResumeThread(d, p));
  }

  /** A thread's own exit event: it is let go and stays current until it is reaped. */
  lemma ExitEventWaits(s: State, p: Pid)
    requires Inv(s) && Waiting(s) && s.outcome.InProgress? && !s.focus.groupExiting
    requires ThreadsOnly(s, ExitEvent(p))
    ensures Verdict(Step(s, ExitEvent(p)))
  {
    ResumedIsCurrent(s, p);
    var d := SetTask(s, p, ExitStop);
    var t := ResumeThread(d, p);
    assert t.outcome == s.outcome && t.kern.task == s.kern.task[p := Dying] && t.reg == s.reg && t.q == s.q && t.focus == s.focus;
    assert Inner(s, ExitEvent(p)) == t;
    hide Inv, ThreadsOnly, Inner, ResumeThread;
    TailWaits(t);
  }

  lemma SecondCloneFacts(s: State, p: Pid, c: Pid)
    requires Inv(s) && Waiting(s) && !s.focus.groupExiting && ThreadsOnly(s, CloneEvent(p, c)) && c in s.q.stoppedPending
    ensures OneRunning(s) && AllScheduled(s.reg.threads) && s.focus.current == Some(p) && p in s.reg.threads && p != c
    ensures IsTask(s, p, Resumed) && MidClone(s, p) && s.q.stoppedPending == {c}
    ensures c in s.kern.task && c !in s.reg.threads && c !in s.q.pendingStart && IsTask(s, c, Held)
  {
    ResumedIsCurrent(s, p);
    SingletonSet(s.q.stoppedPending, c);
  }

  /** The arm of `dispatch` for a clone event after the attach stop. */
  lemma SecondCloneInner(s: State, p: Pid, c: Pid) returns (t: State)
    requires s.outcome.InProgress? && p != c && c in s.q.stoppedPending && c !in s.reg.threads && c !in s.q.pendingStart
    requires MidClone(s, p) && c in s.kern.task
    ensures Inner(s, CloneEvent(p, c)) == Continue(t, p) && t.outcome.InProgress?
    ensures t.kern.task == s.kern.task[p := Held] && t.focus == s.focus
    ensures t.q == s.q.(stoppedPending := s.q.stoppedPending - {c}, runnable := s.q.runnable + [c])
    ensures exists thread: Thread :: thread.scheduled && t.reg.threads == s.reg.threads[c := thread]
  {
    var info := s.calls.clonePending[p];
    var d := SetTask(s, p, Held);
    var e := d.(calls := d.calls.(clonePending := d.calls.clonePending - {p}));
    RegisterStopped(e, c, info);
    t := Register(e, c, info);
    var thread := Thread(e.reg.vtidNext, info.childTid, info.flags, true);
    assert thread.scheduled && t.reg.threads == s.reg.threads[c := thread];
    hide Register, Continue;
  }

  lemma OneRunningAgain(s: State, u: State, p: Pid, c: Pid)
    requires OneRunning(s) && AllScheduled(s.reg.threads) && s.focus.current == Some(p) && s.q.stoppedPending == {c}
    requires IsTask(s, p, Resumed) && p != c && u.kern.task == s.kern.task[p := Held][p := Resumed] && u.focus == s.focus
    requires u.q.pendingStart == s.q.pendingStart && u.q.stoppedPending == s.q.stoppedPending - {c}
    requires exists thread: Thread :: thread.scheduled && u.reg.threads == s.reg.threads[c := thread]
    ensures OneRunning(u) && AllScheduled(u.reg.threads) && u.q.stoppedPending == {}
  {
  }

  lemma ContinueCurrent(t: State, p: Pid)
    requires t.focus.current == Some(p)
    ensures Continue(t, p) == ResumeThread(t, p)
  {
    hide ResumeThread;
  }

  /** The clone event after the attach stop: the child goes to the back of the queue, the parent runs on. */
  lemma SecondCloneShape(s: State, p: Pid, c: Pid)
    requires Inv(s) && Waiting(s) && s.outcome.InProgress? && !s.focus.groupExiting
    requires ThreadsOnly(s, CloneEvent(p, c)) && c in s.q.stoppedPending
    ensures var u := Inner(s, CloneEvent(p, c));
            && u.outcome.InProgress? && OneRunning(u) && AllScheduled(u.reg.threads) && u.q.stoppedPending == {}
            && u.focus == s.focus
  {
    hide *;
    SecondCloneFacts(s, p, c);
    var t := SecondCloneInner(s, p, c);
    ContinueCurrent(t, p);
    HeldAfter(s, t, p);
    ResumeSucceeds(t, p);
    OneRunningAgain(s, ResumeThread(t, p), p, c);
  }

  lemma HeldAfter(s: State, t: State, p: Pid)
    requires t.kern.task == s.kern.task[p := Held]
    ensures IsTask(t, p, Held)
  {
  }

  lemma OneRunningWaits(u: State)
    requires u.outcome.InProgress? && OneRunning(u) && AllScheduled(u.reg.threads) && !u.focus.groupExiting
    ensures Waiting(u) && Verdict(u) && Tail(u) == u
  {
    hide OthersHeld, AllScheduled, ScheduleNext;
  }

  lemma SecondCloneWaits(s: State, p: Pid, c: Pid)
    requires Inv(s) && Waiting(s) && s.outcome.InProgress? && !s.focus.groupExiting
    requires ThreadsOnly(s, CloneEvent(p, c)) && c in s.q.stoppedPending
    ensures Verdict(Step(s, CloneEvent(p, c)))
  {
    hide *;
    SecondCloneShape(s, p, c);
    OneRunningWaits(Inner(s, CloneEvent(p, c)));
    StepIs(s, CloneEvent(p, c));
  }

  lemma SingletonSet(s: set<Pid>, c: Pid)
    requires c in s && |s| <= 1
    ensures s == {c}
  {
    SubsetSize({c}, s);
    if exists x :: x in s && x != c {
      var x :| x in s && x != c;
      SubsetSize({c, x}, s);
    }
  }

  lemma RegisterStopped(e: State, c: Pid, info: CloneInfo)
    requires c in e.q.stoppedPending && c !in e.reg.threads && c !in e.q.pendingStart
    requires HasCloneThread(info.flags) && e.outcome.InProgress?
    ensures var t := Register(e, c, info);
            && t.outcome.InProgress? && c !in t.q.pendingStart && t.kern == e.kern && t.focus == e.focus && t.calls == e.calls
            && t.q == e.q.(stoppedPending := e.q.stoppedPending - {c}, runnable := e.q.runnable + [c])
            && t.reg.threads == e.reg.threads[c := Thread(e.reg.vtidNext, info.childTid, info.flags, true)]
  {
  }

  lemma RegisterFresh(e: State, c: Pid, info: CloneInfo)
    requires c !in e.q.stoppedPending && c !in e.reg.threads && HasCloneThread(info.flags) && e.outcome.InProgress?
    ensures var t := Register(e, c, info);
            && t.outcome.InProgress? && c in t.q.pendingStart && t.kern == e.kern && t.focus == e.focus && t.calls == e.calls
            && t.q == e.q.(pendingStart := e.q.pendingStart + {c})
            && t.reg.threads == e.reg.threads[c := Thread(e.reg.vtidNext, info.childTid, info.flags, true)]
  {
  }

  lemma FreshClone(s: State, p: Pid, c: Pid) returns (t: State)
    requires s.outcome.InProgress? && Fresh(s, c) && MidClone(s, p) && p != c && s.focus.frames == []
    ensures Inner(s, CloneEvent(p, c)) == t && t.outcome.InProgress?
    ensures t.focus == s.focus.(frames := [Frame(p, c)]) && t.q == s.q.(pendingStart := s.q.pendingStart + {c})
    ensures t.kern.task == s.kern.task[p := Held][c := Attaching]
    ensures exists thread: Thread :: thread.scheduled && t.reg.threads == s.reg.threads[c := thread]
  {
    var info := s.calls.clonePending[p];
    var d := SetTask(SetTask(s, p, Held), c, Attaching);
    var e := d.(calls := d.calls.(clonePending := d.calls.clonePending - {p}));
    RegisterFresh(e, c, info);
    var r := Register(e, c, info);
    hide Register;
    t := r.(focus := r.focus.(frames := r.focus.frames + [Frame(p, c)]));
    var thread := Thread(e.reg.vtidNext, info.childTid, info.flags, true);
    assert thread.scheduled && t.reg.threads == s.reg.threads[c := thread];
  }

  lemma FirstCloneFacts(s: State, p: Pid, c: Pid)
    requires Inv(s) && Waiting(s) && !s.focus.groupExiting && ThreadsOnly(s, CloneEvent(p, c)) && c !in s.q.stoppedPending
    ensures OneRunning(s) && AllScheduled(s.reg.threads) && s.focus.current == Some(p) && p in s.reg.threads && p != c
    ensures MidClone(s, p) && s.q.stoppedPending == {} && Fresh(s, c) && s.focus.frames == []
  {
    ResumedIsCurrent(s, p);
    hide Fresh, Inv;
  }

  lemma AttachingNow(s: State, t: State, p: Pid, c: Pid)
    requires OneRunning(s) && AllScheduled(s.reg.threads) && s.focus.current == Some(p) && p in s.reg.threads && p != c
    requires s.q.stoppedPending == {} && t.outcome.InProgress? && !s.focus.groupExiting
    requires t.focus == s.focus.(frames := [Frame(p, c)]) && t.q == s.q.(pendingStart := s.q.pendingStart + {c})
    requires t.kern.task == s.kern.task[p := Held][c := Attaching]
    requires exists thread: Thread :: thread.scheduled && t.reg.threads == s.reg.threads[c := thread]
    ensures Verdict(t)
  {
    var thread: Thread :| thread.scheduled && t.reg.threads == s.reg.threads[c := thread];
    assert t.q.pendingStart == {c};
    assert OneAttaching(t);
  }

  /** The clone event first: the supervisor starts waiting for the child's attach stop. */
  lemma FirstCloneWaits(s: State, p: Pid, c: Pid)
    requires Inv(s) && Waiting(s) && s.outcome.InProgress? && !s.focus.groupExiting
    requires ThreadsOnly(s, CloneEvent(p, c)) && c !in s.q.stoppedPending
    ensures Verdict(Step(s, CloneEvent(p, c)))
  {
    hide *;
    FirstCloneFacts(s, p, c);
    var t := FreshClone(s, p, c);
    AttachingNow(s, t, p, c);
    TailWaits(t);
    StepIs(s, CloneEvent(p, c));
  }

  lemma AwaitedShape(s: State, p: Pid, c: Pid)
    requires AllScheduled(s.reg.threads) && p in s.reg.threads && c in s.reg.threads && s.focus.frames == [Frame(p, c)]
    requires s.focus.current == Some(p) && IsTask(s, p, Held) && p != c && s.outcome.InProgress?
    ensures var u := Inner(s, SignalStop(c, SIGSTOP));
            && u.outcome == s.outcome && u.reg == s.reg && u.focus == s.focus.(frames := [])
            && u.q == s.q.(pendingStart := s.q.pendingStart - {c}, runnable := s.q.runnable + [c])
            && u.kern.task == s.kern.task[c := Held][p := Resumed]
  {
    var d := SetTask(s, c, Held);
    var e := PushRunnable(d.(q := d.q.(pendingStart := d.q.pendingStart - {c})), c);
    var t := e.(focus := e.focus.(frames := []));
    ScheduledMember(s.reg.threads, c);
    ScheduledMember(s.reg.threads, p);
    assert FinishAwait(d) == Continue(t, p) by { assert s.focus.frames[..0] == []; }
    hide FinishAwait;
    ResumeSucceeds(t, p);
    assert Continue(t, p) == ResumeThread(t, p);
    hide ResumeThread, Continue;
  }

  /** While an attach stop is awaited nothing else can be reported. */
  lemma OnlyAttachArrives(s: State, st: Status)
    requires Waiting(s) && !s.focus.groupExiting && ThreadsOnly(s, st) && s.focus.frames != [] && !st.Idle?
    ensures st == SignalStop(s.focus.frames[0].child, SIGSTOP)
  {
    assert OneAttaching(s);
    assert forall r :: !IsTask(s, r, Resumed) && !IsTask(s, r, Dying);
  }

  /** The awaited attach stop: the same ending as the other order. */
  lemma AttachWaits(s: State, st: Status)
    requires Inv(s) && Waiting(s) && s.outcome.InProgress? && !s.focus.groupExiting
    requires ThreadsOnly(s, st) && s.focus.frames != [] && !st.Idle?
    ensures Awaited(s, st) && Verdict(Step(s, st))
  {
    var p, c := s.focus.frames[0].parent, s.focus.frames[0].child;
    OnlyAttachArrives(s, st);
    assert s.focus.frames == [Frame(p, c)];
    AwaitedShape(s, p, c);
    hide Inv, ThreadsOnly, Inner;
    assert OneRunning(Inner(s, st));
    TailWaits(Inner(s, st));
  }

  lemma ScheduledMember(threads: map<Pid, Thread>, p: Pid)
    requires AllScheduled(threads) && p in threads
    ensures ScheduledIn(threads, p)
  {
  }

  // ----- deaths

  lemma EndWaits(s: State, st: Status)
    requires s.outcome.InProgress? && (st.Exited? || st.Killed?) && st.pid == s.reg.init
    ensures Step(s, st).outcome.Done?
  {
  }

  lemma ExitedFacts(s: State, st: Status)
    requires Inv(s) && Waiting(s) && s.outcome.InProgress? && !s.focus.groupExiting && ThreadsOnly(s, st)
    requires (st.Exited? || st.Killed?) && st.pid != s.reg.init
    ensures var p := st.pid;
            && OneRunning(s) && AllScheduled(s.reg.threads) && s.focus.current == Some(p) && p in s.kern.task
            && s.q.stoppedPending == {} && s.q.pendingStart == {} && s.focus.frames == [] && OthersHeld(s.kern.task, p, p)
    ensures Tables(s) && Identity(s) && MidInv(s)
  {
    hide PartitionOf, ParkedOf;
    assert st.Exited? && IsTask(s, st.pid, Dying);
    assert OneRunning(s);
  }

  lemma ExitedInner(s: State, st: Status)
    requires Inv(s) && Waiting(s) && s.outcome.InProgress? && !s.focus.groupExiting && ThreadsOnly(s, st)
    requires (st.Exited? || st.Killed?) && st.pid != s.reg.init
    ensures var p := st.pid; var d := s.(kern := s.kern.(task := s.kern.task - {p})); var t := OnThreadExit(d, p, true);
            Tables(d) && Identity(d) && (t.focus == s.focus ==> Inner(s, st) == ScheduleNext(SetCurrent(t, None)))
  {
    ExitedFacts(s, st);
    hide PartitionOf, ParkedOf, IdentityOf, KernelOf, FramesOf, RunsAmong, OnThreadExit, ScheduleNext, ThreadsOnly;
  }

  lemma StandsStill(s: State, p: Pid, u: State)
    requires AllScheduled(s.reg.threads) && !s.focus.groupExiting && s.focus.frames == [] && OthersHeld(s.kern.task, p, p)
    requires u.reg.threads == s.reg.threads - {p} && u.focus == s.focus.(current := None) && u.kern.task == s.kern.task - {p}
    requires u.q.pendingStart == {} && u.q.stoppedPending == {}
    ensures Standstill(u)
  {
  }

  lemma ExitedWaits(s: State, p: Pid, st: Status)
    requires Inv(s) && Waiting(s) && s.outcome.InProgress? && !s.focus.groupExiting && p != s.reg.init
    requires ThreadsOnly(s, st) && (st.Exited? || st.Killed?) && st.pid == p
    ensures Verdict(Step(s, st))
  {
    hide *;
    ExitedFacts(s, st);
    ExitedInner(s, st);
    var d := s.(kern := s.kern.(task := s.kern.task - {p}));
    var t := OnThreadExit(d, p, true);
    ExitKeepsTables(d, p, true);
    ExitKeepsKernel(s, p, true);
    ExitEffect(d, p, true);
    PartitionAndParked(d);
    AfterJoinWakeKeeps(d, p);
    IdleAfterDeath(t, p);
    var u := SetCurrent(t, None);
    IdleKernel(t, u);
    StandsStill(s, p, u);
    ScheduleFromStandstill(u);
    TailWaits(Inner(s, st));
    StepIs(s, st);
  }

  lemma PartitionAndParked(s: State)
    requires Tables(s)
    ensures Partition(s) && Parked(s) && Identity(s)
  {
    hide PartitionOf, ParkedOf, IdentityOf;
  }

  lemma IdleKernel(t: State, u: State)
    requires KernelView(t) && u == SetCurrent(t, None)
    ensures KernelView(u) && u.focus == t.focus.(current := None) && u.reg == t.reg && u.q == t.q && u.kern == t.kern
    ensures u.outcome == t.outcome && u.focus.current == None
  {
    hide KernelOf, FramesOf;
  }

  /** Letting a thread go during a teardown. */
  lemma LetGoWaits(s: State, p: Pid)
    requires TearingDown(s) && AllScheduled(s.reg.threads) && s.outcome.InProgress?
    ensures Verdict(Step(s, ExitEvent(p)))
  {
    var t := ResumeThread(SetTask(s, p, ExitStop), p);
    assert t.outcome == s.outcome && t.kern.task == s.kern.task[p := Dying] && t.reg == s.reg && t.q == s.q && t.focus == s.focus;
    assert Inner(s, ExitEvent(p)) == t;
    hide Inner, ResumeThread;
    TailWaits(t);
  }

  lemma ReapedWaits(s: State, p: Pid, t: State)
    requires TearingDown(s) && AllScheduled(s.reg.threads) && t.outcome.InProgress? && t.focus == s.focus
    requires t.reg.threads == s.reg.threads - {p} && t.kern.task == s.kern.task - {p}
    requires t.q.pendingStart == s.q.pendingStart - {p} && t.q.stoppedPending == s.q.stoppedPending - {p}
    ensures Verdict(t)
  {
  }

  lemma ReapInner(s: State, st: Status)
    requires Inv(s) && TearingDown(s) && s.outcome.InProgress? && (st.Exited? || st.Killed?) && st.pid != s.reg.init
    ensures var p := st.pid; var d := s.(kern := s.kern.(task := s.kern.task - {p}));
            var t := OnThreadExit(d, p, s.focus.current == Some(p));
            Tables(d) && Identity(d) && (t.focus == s.focus ==> Inner(s, st) == t)
  {
    hide PartitionOf, ParkedOf, IdentityOf, KernelOf, FramesOf, RunsAmong, OnThreadExit, ScheduleNext;
  }

  /** After an exit_group every death is only recorded: nobody is scheduled. */
  lemma TeardownWaits(s: State, st: Status)
    requires Inv(s) && TearingDown(s) && AllScheduled(s.reg.threads) && s.outcome.InProgress?
    requires ThreadsOnly(s, st) && !st.Idle? && (st.pid == s.reg.init ==> st.ExitEvent?)
    ensures Verdict(Step(s, st))
  {
    TeardownStatus(s, st);
    hide *;
    var p := st.pid;
    if st.ExitEvent? {
      LetGoWaits(s, p);
    } else {
      ReapInner(s, st);
      var d := s.(kern := s.kern.(task := s.kern.task - {p}));
      var record := s.focus.current == Some(p);
      ExitEffect(d, p, record);
      PartitionAndParked(d);
      AfterJoinWakeKeeps(d, p);
      var t := OnThreadExit(d, p, record);
      ReapedWaits(s, p, t);
      TailWaits(t);
      StepIs(s, st);
    }
  }

  lemma TeardownStatus(s: State, st: Status)
    requires TearingDown(s) && ThreadsOnly(s, st) && !st.Idle?
    ensures st.ExitEvent? || st.Exited? || st.Killed?
  {
    hide Legal;
  }

  lemma StepWaits(s: State, st: Status)
    requires Inv(s) && Waiting(s) && s.outcome.InProgress? && ThreadsOnly(s, st)
    ensures Verdict(Step(s, st))
  {
    hide Step;
    if st.Idle? {
      IdleWaits(s);
    } else if (st.Exited? || st.Killed?) && st.pid == s.reg.init {
      EndWaits(s, st);
    } else if s.focus.groupExiting {
      TeardownWaits(s, st);
    } else if s.focus.frames != [] {
      AttachWaits(s, st);
    } else {
      hide Inv, Waiting, Verdict;
      match st {
        case SyscallStop(p, op) => SyscallWaits(s, p, op);
        case OtherEvent(p) => EventWaits(s, p);
        case SignalStop(p, sig) => SignalWaits(s, p, sig);
        case ExitEvent(p) => ExitEventWaits(s, p);
        case Exited(p, _) => ExitedWaits(s, p, st);
        case Killed(p, _) => ExitedWaits(s, p, st);
        case CloneEvent(p, c) =>
          if c in s.q.stoppedPending { SecondCloneWaits(s, p, c); } else { FirstCloneWaits(s, p, c); }
      }
    }
  }

  lemma IdleWaits(s: State)
    requires Waiting(s) && s.outcome.InProgress?
    ensures Step(s, Idle) == s
  {
  }

  lemma StartWaits(init: Pid, seed: u64)
    ensures Verdict(Start(init, seed))
  {
    var b := Boot(init, seed);
    assert Tables(b) && KernelView(b) && Standstill(b);
    ScheduleFromStandstill(b);
    hide ScheduleNext;
  }

  lemma ThreadsAreLegal(s: State, sts: seq<Status>)
    requires ThreadsRun(s, sts)
    ensures LegalRun(s, sts)
  {
    hide Run, Legal;
    forall i | 0 <= i < |sts| ensures Legal(Run(s, sts[..i]), sts[i]) {
      assert ThreadsOnly(Run(s, sts[..i]), sts[i]);
    }
  }

  /** Over every run of such a workload: no call on the kernel fails with ESRCH, a Deadlock verdict comes
      only when every live thread is parked and no stop is outstanding, and while the run goes on exactly one
      thread is running or dying, or one child is attaching, or an exit_group is in flight. */
  lemma {:induction false} RunWaits(init: Pid, seed: u64, sts: seq<Status>)
    requires ThreadsRun(Start(init, seed), sts)
    ensures Verdict(Run(Start(init, seed), sts)) && Sound(Run(Start(init, seed), sts))
  {
    hide Step, Inv, Start, ThreadsOnly, Verdict, Waiting;
    var s := Start(init, seed);
    ThreadsAreLegal(s, sts);
    RunSound(init, seed, sts);
    if sts == [] {
      StartWaits(init, seed);
    } else {
      var pre := sts[..|sts| - 1];
      assert forall i :: 0 <= i < |pre| ==> pre[..i] == sts[..i];
      RunWaits(init, seed, pre);
      assert ThreadsOnly(Run(s, sts[..|sts| - 1]), sts[|sts| - 1]);
      LastStepWaits(Run(s, pre), sts[|sts| - 1]);
    }
  }

  lemma LastStepWaits(s: State, st: Status)
    requires Verdict(s) && Sound(s) && ThreadsOnly(s, st)
    ensures Verdict(Step(s, st))
  {
    hide Inv, ThreadsOnly, Waiting, Inner, Tail;
    if s.outcome.InProgress? {
      StepWaits(s, st);
    }
  }

  // ----- the verdict is exact, and when a wait can hang

  /** The Deadlock verdict is exact: a run is declared deadlocked if and only if, with no exit_group in
      flight, every live thread is parked on a futex. */
  lemma DeadlockExact(init: Pid, seed: u64, sts: seq<Status>)
    requires ThreadsRun(Start(init, seed), sts)
    ensures var t := Run(Start(init, seed), sts);
            !t.outcome.Done? && t.outcome != Failed(Io) ==> (t.outcome == Failed(Deadlock) <==> Deadlocked(t))
  {
    hide Run, Start, ThreadsOnly;
    RunWaits(init, seed, sts);
    var t := Run(Start(init, seed), sts);
    if t.outcome.InProgress? && !t.focus.groupExiting {
      assert t.focus.current.Some? && t.focus.current.value in t.reg.threads && t.focus.current.value !in t.q.blocked;
    }
  }

  /** The leader has exited before its threads: the kernel reports its death only after theirs, and they are
      all stopped. */
  ghost predicate LeaderGone(s: State) {
    && !s.focus.groupExiting && s.focus.current == Some(s.reg.init) && IsTask(s, s.reg.init, Dying)
    && s.reg.threads.Keys != {s.reg.init}
  }

  lemma SomethingReports(s: State) returns (st: Status)
    requires Inv(s) && Waiting(s) && !LeaderGone(s)
    ensures ThreadsOnly(s, st) && !st.Idle?
  {
    if s.focus.groupExiting {
      if q :| q in s.reg.threads && q != s.reg.init {
        assert q in s.kern.task;
        st := Exited(q, 0);
      } else {
        assert forall q :: q in s.reg.threads.Keys <==> q in {s.reg.init};
        assert s.reg.init in s.kern.task && s.reg.threads.Keys == {s.reg.init};
        st := Exited(s.reg.init, 0);
      }
    } else if OneAttaching(s) {
      st := SignalStop(s.focus.frames[0].child, SIGSTOP);
      assert !Fresh(s, st.pid);
    } else {
      var p := s.focus.current.value;
      if IsTask(s, p, Dying) {
        st := Exited(p, 0);
      } else if c :| c in s.q.stoppedPending {
        st := CloneEvent(p, c);
        assert p != c;
      } else {
        assert forall c :: c !in s.q.stoppedPending;
        assert s.q.stoppedPending == {};
        st := OtherEvent(p);
      }
    }
  }

  lemma NothingReports(s: State, st: Status)
    requires Inv(s) && Waiting(s) && LeaderGone(s) && ThreadsOnly(s, st)
    ensures st.Idle?
  {
    assert OneRunning(s);
    assert forall r :: !IsTask(s, r, Resumed) && !IsTask(s, r, Attaching);
  }

  /** The supervisor itself never waits in vain, with one exception: while the run goes on, the kernel can have a status
      to report if and only if the supervisor is not waiting for a leader that exited before its threads. A resumed
      thread is taken to reach its next stop: one that blocks in the kernel, in a read of an empty pipe or a futex
      command that is passed through, keeps the scheduler waiting as long as it blocks. */
  lemma HangsExactly(init: Pid, seed: u64, sts: seq<Status>)
    requires ThreadsRun(Start(init, seed), sts) && Run(Start(init, seed), sts).outcome.InProgress?
    ensures var s := Run(Start(init, seed), sts);
            (exists st :: ThreadsOnly(s, st) && !st.Idle?) <==> !LeaderGone(s)
  {
    hide Run, Start;
    RunWaits(init, seed, sts);
    var s := Run(Start(init, seed), sts);
    hide ThreadsOnly, Inv, Waiting, LeaderGone;
    if LeaderGone(s) {
      forall st | ThreadsOnly(s, st) ensures st.Idle? { NothingReports(s, st); }
    } else {
      var st := SomethingReports(s);
    }
  }

  /** It does happen: whenever the running leader of a multi-threaded workload exits, every other thread is left
      stopped, the runnable ones with their place in the queue. */
  lemma LeaderExitHangs(s: State)
    requires Inv(s) && Waiting(s) && s.outcome.InProgress? && !s.focus.groupExiting && s.q.stoppedPending == {}
    requires s.focus.current == Some(s.reg.init) && IsTask(s, s.reg.init, Resumed) && s.reg.threads.Keys != {s.reg.init}
    ensures var st := ExitEvent(s.reg.init); var t := Step(s, st);
            ThreadsOnly(s, st) && t.outcome.InProgress? && LeaderGone(t) && t.q.runnable == s.q.runnable
  {
    var p := s.reg.init;
    ResumedIsCurrent(s, p);
    var t := ResumeThread(SetTask(s, p, ExitStop), p);
    assert t.outcome == s.outcome && t.kern.task == s.kern.task[p := Dying] && t.reg == s.reg && t.q == s.q && t.focus == s.focus;
    assert Inner(s, ExitEvent(p)) == t;
    hide Inv, Inner, ResumeThread;
  }
}
