/** Nested waits for attach stops: exactly when the outermost activation of `await_attach` can still return
    (src/runtime/supervisor.rs:283-300, 316-333, 376-399). */
module Nesting {
  import opened Base
  import opened Machine
  import opened Invariants
  import opened Fairness
  import Threads

  // ----- what the nested activations look like

  /** No parent or child waits twice. */
  ghost predicate Distinct(frames: seq<Frame>) {
    forall i, j :: 0 <= i < j < |frames| ==> frames[i].parent != frames[j].parent && frames[i].child != frames[j].child
  }

  /** A parent inside its clone event: it does not run, and if it is a thread it is the current one. */
  ghost predicate Pausing(s: State, p: Pid) {
    !IsTask(s, p, Resumed) && (IsScheduled(s, p) ==> s.focus.current == Some(p))
  }

  ghost predicate WellNested(s: State) {
    Distinct(s.focus.frames) && forall i :: 0 <= i < |s.focus.frames| ==> Pausing(s, s.focus.frames[i].parent)
  }

  /** Dead or dying: it can never be resumed. */
  ghost predicate Gone(s: State, p: Pid) { p !in s.kern.task || s.kern.task[p].Dying? }

  // ----- what a step leaves alone

  /** Nothing happened to `p` but its death: it was not resumed, and as a thread it is as current as before. */
  ghost predicate Leaves(s: State, u: State, p: Pid) {
    && (IsTask(u, p, Resumed) ==> IsTask(s, p, Resumed))
    && (IsScheduled(u, p) ==> IsScheduled(s, p) && u.focus.current == s.focus.current)
    && (Gone(s, p) ==> Gone(u, p))
  }

  /** No task starts attaching. */
  ghost predicate NoneAttach(s: State, u: State) { forall p :: IsTask(u, p, Attaching) ==> IsTask(s, p, Attaching) }

  /** What an arm of `dispatch` does to the activations: nothing, or one more for `c`. */
  ghost predicate Pushes(s: State, u: State, p: Pid, c: Pid) {
    u.focus.frames == s.focus.frames || u.focus.frames == s.focus.frames + [Frame(p, c)]
  }

  lemma LeavesChain(s: State, t: State, u: State, p: Pid)
    requires Leaves(s, t, p) && Leaves(t, u, p)
    ensures Leaves(s, u, p)
  {
  }

  lemma AttachChain(s: State, t: State, u: State)
    requires NoneAttach(s, t) && NoneAttach(t, u)
    ensures NoneAttach(s, u)
  {
    hide IsTask;
  }

  lemma ResumeLeaves(s: State, r: Pid)
    ensures var u := ResumeThread(s, r); u.focus == s.focus && NoneAttach(s, u) && forall p :: p != r ==> Leaves(s, u, p)
    ensures var u := Continue(s, r); u.focus == s.focus && NoneAttach(s, u) && forall p :: p != r ==> Leaves(s, u, p)
    ensures var u := ResumeCurrent(s, r); u.focus == s.focus && NoneAttach(s, u) && forall p :: p != r ==> Leaves(s, u, p)
  {
    ResumeEffect(s, r);
    hide ResumeThread;
  }

  lemma PtraceLeaves(s: State, r: Pid, sig: Option<Signal>)
    ensures var u := PtraceSyscall(s, r, sig); u.focus == s.focus && NoneAttach(s, u) && forall p :: p != r ==> Leaves(s, u, p)
  {
    PtraceEffect(s, r, sig);
    hide PtraceSyscall;
  }

  lemma ReleaseLeaves(s: State, c: Pid)
    ensures var u := Release(s, c); u.focus == s.focus && NoneAttach(s, u) && forall p :: p != c ==> Leaves(s, u, p)
  {
    ResumeLeaves(s, c);
    hide ResumeThread;
  }

  /** Changes that leave tasks, threads and focus alone. */
  lemma SameLeaves(s: State, u: State)
    requires u.kern.task == s.kern.task && u.reg == s.reg && u.focus.current == s.focus.current
    ensures NoneAttach(s, u) && forall p :: Leaves(s, u, p)
  {
  }

  lemma {:induction false} ScheduleLeaves(s: State)
    ensures var u := ScheduleNext(s);
            && u.focus.frames == s.focus.frames && NoneAttach(s, u)
            && forall p :: p !in s.q.runnable && !IsScheduled(s, p) ==> Leaves(s, u, p)
    decreases |s.q.runnable|
  {
    if s.q.runnable != [] {
      var tid := s.q.runnable[0];
      assert tid in s.q.runnable;
      if tid !in s.reg.threads || tid in s.q.blocked {
        ScheduleLeaves(PopRunnable(s));
        assert forall p :: p in PopRunnable(s).q.runnable ==> p in s.q.runnable;
        hide Pick;
      } else {
        PickEffect(PopRunnable(s), tid);
        hide Pick;
      }
    }
  }

  // ----- the arms of dispatch

  lemma InterceptedLeaves(d: State, r: Pid, op: SyscallOp)
    ensures var u := Intercepted(d, r, op);
            && u.kern.task == d.kern.task && u.reg == d.reg && u.focus.current == d.focus.current
            && u.focus.frames == d.focus.frames && (!op.Entry? ==> u.q == d.q)
  {
    if op.Entry? { Threads.EntryShape(d, r, op.regs, op.mem); EntryTasks(d, r, op.regs, op.mem); }
    ExitStopEffect(d, r);
    hide OnSyscallEntry, OnSyscallExit;
  }

  lemma EntryTasks(d: State, r: Pid, regs: Regs, mem: Memory)
    ensures OnSyscallEntry(d, r, regs, mem).reg == d.reg
  {
    EntryNames(d, r, regs, mem);
    hide OnSyscallEntry;
  }

  lemma SyscallLeaves(d: State, r: Pid, op: SyscallOp, p: Pid)
    requires p != r && (IsScheduled(d, r) ==> !IsScheduled(d, p) && p !in d.q.runnable)
    ensures var u := HandleSyscall(d, r, op); u.focus.frames == d.focus.frames && NoneAttach(d, u) && Leaves(d, u, p)
  {
    hide *;
    InterceptedLeaves(d, r, op);
    var t := Intercepted(d, r, op);
    SameLeaves(d, t);
    ResumeLeaves(t, r);
    SameTasks(d, t);
    HandleSyscallCases(d, r, op);
    ResumedAfter(d, t, r, p);
    if IsScheduled(d, r) {
      if op.Exit? { YieldLeaves(d, t, r, p); }
      ParkLeaves(d, t, p);
    }
  }

  lemma SameTasks(d: State, t: State)
    requires t.kern.task == d.kern.task && t.reg == d.reg
    ensures forall p :: IsScheduled(t, p) == IsScheduled(d, p)
  {
  }

  lemma ResumedAfter(d: State, t: State, r: Pid, p: Pid)
    requires Leaves(d, t, p) && NoneAttach(d, t) && p != r && t.focus.frames == d.focus.frames
    ensures var u := ResumeThread(t, r); u.focus.frames == d.focus.frames && NoneAttach(d, u) && Leaves(d, u, p)
    ensures var u := ResumeCurrent(t, r); u.focus.frames == d.focus.frames && NoneAttach(d, u) && Leaves(d, u, p)
  {
    hide *;
    ResumeLeaves(t, r);
    LeavesChain(d, t, ResumeThread(t, r), p);
    LeavesChain(d, t, ResumeCurrent(t, r), p);
    AttachChain(d, t, ResumeThread(t, r));
    AttachChain(d, t, ResumeCurrent(t, r));
  }

  lemma YieldLeaves(d: State, t: State, r: Pid, p: Pid)
    requires t.kern.task == d.kern.task && t.reg == d.reg && t.focus.frames == d.focus.frames && t.q == d.q
    requires p != r && !IsScheduled(d, p) && p !in d.q.runnable
    ensures var u := YieldCurrent(t, r); u.focus.frames == d.focus.frames && NoneAttach(d, u) && Leaves(d, u, p)
  {
    var e := if t.focus.current == Some(r) then PushRunnable(SetCurrent(t, None), r) else t;
    assert p !in e.q.runnable;
    ScheduleLeaves(e);
    hide ScheduleNext;
  }

  lemma ParkLeaves(d: State, t: State, p: Pid)
    requires t.kern.task == d.kern.task && t.reg == d.reg && t.focus.frames == d.focus.frames && !IsScheduled(d, p)
    ensures var u := SetCurrent(t, None); u.focus.frames == d.focus.frames && NoneAttach(d, u) && Leaves(d, u, p)
  {
  }

  lemma AdmitLeaves(n: State, c: Pid, p: Pid)
    requires p != c
    ensures var u := Admit(n, c); u.focus == n.focus && NoneAttach(n, u) && Leaves(n, u, p)
  {
    var m := n.(q := n.q.(stoppedPending := n.q.stoppedPending - {c}));
    SameLeaves(n, m);
    ReleaseLeaves(m, c);
    LeavesChain(n, m, Release(m, c), p);
    AttachChain(n, m, Release(m, c));
    var w := n.(q := n.q.(pendingStart := n.q.pendingStart + {c}));
    SameLeaves(n, w);
    hide Release, NoneAttach, Leaves;
  }

  lemma EnrolLeaves(s: State, c: Pid, thread: Thread, p: Pid)
    requires p != c
    ensures var n := Enrol(s, c, thread); n.focus == s.focus && NoneAttach(s, n) && Leaves(s, n, p)
  {
  }

  lemma EmitLeaves(s: State, e: Event, p: Pid)
    ensures var n := Emit(s, e); n.focus == s.focus && NoneAttach(s, n) && Leaves(s, n, p)
  {
  }

  lemma RegisterLeaves(s: State, c: Pid, info: CloneInfo, p: Pid)
    requires p != c
    ensures var u := Register(s, c, info); u.focus == s.focus && NoneAttach(s, u) && Leaves(s, u, p)
  {
    SameLeaves(s, s);
    var thread := Thread(s.reg.vtidNext, info.childTid, info.flags, HasCloneThread(info.flags));
    var n := Enrol(s, c, thread);
    EnrolLeaves(s, c, thread, p);
    AdmitLeaves(n, c, p);
    var t := Admit(n, c);
    EmitLeaves(t, ThreadCreate(thread.vtid, thread.scheduled), p);
    var e := Emit(t, ThreadCreate(thread.vtid, thread.scheduled));
    hide Enrol, Admit, Emit, NoneAttach, Leaves, HasCloneThread;
    LeavesChain(s, n, t, p);
    AttachChain(s, n, t);
    LeavesChain(s, t, e, p);
    AttachChain(s, t, e);
  }

  lemma PushLeaves(t: State, frames: seq<Frame>, p: Pid)
    ensures var u := t.(focus := t.focus.(frames := frames)); NoneAttach(t, u) && Leaves(t, u, p)
  {
  }

  lemma CloneLeaves(d: State, r: Pid, c: Pid, p: Pid)
    requires p != r && p != c
    ensures var u := HandleClone(d, r, c); Pushes(d, u, r, c) && NoneAttach(d, u) && Leaves(d, u, p)
  {
    hide *;
    var e, info := HandleCloneCases(d, r, c);
    StashLeaves(d, e, r);
    RegisterLeaves(e, c, info, p);
    var t := Register(e, c, info);
    LeavesChain(d, e, t, p);
    AttachChain(d, e, t);
    ResumeLeaves(t, r);
    LeavesChain(d, t, Continue(t, r), p);
    AttachChain(d, t, Continue(t, r));
    var u := t.(focus := t.focus.(frames := t.focus.frames + [Frame(r, c)]));
    PushLeaves(t, t.focus.frames + [Frame(r, c)], p);
    LeavesChain(d, t, u, p);
    AttachChain(d, t, u);
    PushesIs(d, t, r, c);
    PushesIs(d, Continue(t, r), r, c);
    PushesIs(d, u, r, c);
  }

  lemma StashLeaves(d: State, e: State, r: Pid)
    requires e == d.(calls := d.calls.(clonePending := d.calls.clonePending - {r}))
    ensures e.focus == d.focus && NoneAttach(d, e) && forall p :: Leaves(d, e, p)
  {
  }

  lemma PushesIs(d: State, u: State, r: Pid, c: Pid)
    ensures Pushes(d, u, r, c) <==> u.focus.frames == d.focus.frames || u.focus.frames == d.focus.frames + [Frame(r, c)]
  {
  }

  lemma SignalLeaves(d: State, r: Pid, sig: Signal, p: Pid)
    requires p != r
    ensures var u := HandleSignalStop(d, r, sig); u.focus == d.focus && NoneAttach(d, u) && Leaves(d, u, p)
  {
    SameLeaves(d, d);
    ResumeLeaves(d, r);
    var e := d.(q := d.q.(pendingStart := d.q.pendingStart - {r}));
    SameLeaves(d, e);
    ReleaseLeaves(e, r);
    LeavesChain(d, e, Release(e, r), p);
    AttachChain(d, e, Release(e, r));
    PtraceLeaves(d, r, Some(sig));
    var f := d.(q := d.q.(stoppedPending := d.q.stoppedPending + {r}));
    SameLeaves(d, f);
    var g := d.(calls := d.calls.(sigPending := d.calls.sigPending[r := sig]));
    SameLeaves(d, g);
    hide ResumeThread, Release, PtraceSyscall, NoneAttach, Leaves;
  }

  lemma DeathLeaves(d: State, r: Pid, p: Pid)
    requires Tables(d) && (p == r ==> p !in d.kern.task) && (IsScheduled(d, p) ==> d.focus.current == Some(p))
    ensures var u := HandleDeath(d, r); u.focus.frames == d.focus.frames && NoneAttach(d, u) && Leaves(d, u, p)
  {
    hide *;
    DeathParts(d, r);
    var record := d.focus.current == Some(r);
    var t := OnThreadExit(d, r, record);
    ExitEffect(d, r, record);
    AfterJoinWakeKeeps(d, r);
    ExitLeaves(d, t, r, p);
    HandleDeathIs(d, r);
    if record && !t.focus.groupExiting {
      UnscheduledAfter(d, t, r, p);
      var u := SetCurrent(t, None);
      ScheduleLeaves(u);
      IdleLeaves(d, t, u, p);
      LeavesChain(d, u, ScheduleNext(u), p);
      AttachChain(d, u, ScheduleNext(u));
    }
  }

  lemma DeathParts(d: State, r: Pid)
    requires Tables(d)
    ensures Partition(d) && Parked(d) && Identity(d)
  {
    hide PartitionOf, ParkedOf, IdentityOf;
  }

  lemma HandleDeathIs(d: State, r: Pid)
    ensures var t := OnThreadExit(d, r, d.focus.current == Some(r));
            HandleDeath(d, r) == if d.focus.current == Some(r) && !t.focus.groupExiting then ScheduleNext(SetCurrent(t, None)) else t
  {
    hide OnThreadExit, ScheduleNext;
  }

  lemma ExitLeaves(d: State, t: State, r: Pid, p: Pid)
    requires t.reg.threads == d.reg.threads - {r} && t.focus == d.focus && t.kern == d.kern
    ensures t.focus.frames == d.focus.frames && NoneAttach(d, t) && Leaves(d, t, p)
  {
  }

  lemma UnscheduledAfter(d: State, t: State, r: Pid, p: Pid)
    requires d.focus.current == Some(r) && (IsScheduled(d, p) ==> d.focus.current == Some(p))
    requires t.reg.threads == d.reg.threads - {r}
    requires Partition(AfterJoinWake(d, r)) && AfterJoinWake(d, r).reg == d.reg
    requires t.q.runnable == Without(AfterJoinWake(d, r).q.runnable, r)
    ensures !IsScheduled(t, p) && p !in t.q.runnable
  {
    hide AfterJoinWake;
  }

  lemma IdleLeaves(d: State, t: State, u: State, p: Pid)
    requires u == SetCurrent(t, None) && Leaves(d, t, p) && NoneAttach(d, t) && !IsScheduled(t, p) && p !in t.q.runnable
    ensures Leaves(d, u, p) && NoneAttach(d, u) && !IsScheduled(u, p) && p !in u.q.runnable && u.focus.frames == t.focus.frames
  {
  }

  // ----- one status

  /** A task an activation names: known, stopped inside its clone event, neither attaching nor unregistered. */
  ghost predicate Inside(s: State, p: Pid) {
    Pausing(s, p) && !Fresh(s, p) && p !in s.q.stoppedPending && p !in s.q.pendingStart
  }

  lemma ParentsInside(s: State, i: nat)
    requires Inv(s) && WellNested(s) && i < |s.focus.frames|
    ensures Inside(s, s.focus.frames[i].parent) && !Fresh(s, s.focus.frames[i].child)
  {
    var f := s.focus.frames[i];
    assert f in s.focus.frames;
    hide PartitionOf, ParkedOf, IdentityOf, KernelOf, RunsAmong, Distinct, Pausing;
  }

  /** What waitpid changes for a task inside its clone event: only its own death can concern it. */
  lemma DeliverLeaves(s: State, st: Status, p: Pid)
    requires Inv(s) && Legal(s, st) && Inside(s, p)
    ensures var d := Deliver(s, st); d.focus == s.focus && d.q == s.q && d.reg == s.reg && Leaves(s, d, p)
    ensures !st.Idle? && !st.ExitEvent? && !st.Exited? && !st.Killed? ==> st.pid != p
    ensures st.CloneEvent? ==> st.child != p
    ensures st.ExitEvent? && st.pid == p ==> IsTask(Deliver(s, st), p, ExitStop)
    ensures (st.Exited? || st.Killed?) && st.pid == p ==> p !in Deliver(s, st).kern.task
  {
    hide PartitionOf, ParkedOf, IdentityOf, FramesOf, RunsAmong;
  }

  lemma DeliverAttaches(s: State, st: Status, x: Pid)
    requires Inv(s) && Legal(s, st) && !Fresh(s, x) && IsTask(Deliver(s, st), x, Attaching)
    ensures IsTask(s, x, Attaching)
  {
    hide PartitionOf, ParkedOf, IdentityOf, FramesOf, RunsAmong, Fresh;
  }

  /** Its own exit event: it is let go. */
  lemma LetGoLeaves(d: State, p: Pid)
    requires IsTask(d, p, ExitStop)
    ensures Leaves(d, ResumeThread(d, p), p)
  {
    ResumeEffect(d, p);
    hide ResumeThread;
  }

  /** A syscall stop is of the running thread or of a fork child, never of a thread inside its clone event. */
  lemma StopElsewhere(s: State, r: Pid, p: Pid)
    requires Inv(s) && IsTask(s, r, Resumed) && Inside(s, p) && p != r
    ensures IsScheduled(s, r) ==> !IsScheduled(s, p) && p !in s.q.runnable
  {
    assert IsScheduled(s, r) ==> RunsAmong(s.reg.threads, s.kern.task, r);
    hide ParkedOf, IdentityOf, KernelOf, FramesOf;
  }

  lemma DeliverSame(s: State, st: Status)
    ensures var d := Deliver(s, st); d.q == s.q && d.reg == s.reg && d.focus == s.focus
    ensures forall p :: IsScheduled(Deliver(s, st), p) == IsScheduled(s, p)
  {
  }

  lemma DeliverTables(s: State, st: Status)
    requires Inv(s)
    ensures Tables(Deliver(s, st))
  {
    hide PartitionOf, ParkedOf, IdentityOf, KernelOf, FramesOf, RunsAmong;
  }

  lemma HandleIs(s: State, st: Status)
    requires !Awaited(s, st)
    ensures Inner(s, st) == Handle(Deliver(s, st), st)
  {
    hide Handle, Deliver, FinishAwait;
  }

  lemma HandleCases(d: State, st: Status)
    ensures match st
            case SyscallStop(r, op) => Handle(d, st) == HandleSyscall(d, r, op)
            case OtherEvent(r) => Handle(d, st) == Continue(d, r)
            case SignalStop(r, sig) => Handle(d, st) == HandleSignalStop(d, r, sig)
            case CloneEvent(r, c) => Handle(d, st) == HandleClone(d, r, c)
            case ExitEvent(r) => Handle(d, st) == ResumeThread(d, r)
            case Exited(r, _) => r != d.reg.init ==> Handle(d, st) == HandleDeath(d, r)
            case Killed(r, _) => r != d.reg.init ==> Handle(d, st) == HandleDeath(d, r)
            case Idle => Handle(d, st) == d
  {
    hide HandleSyscall, Continue, HandleSignalStop, HandleClone, ResumeThread, HandleDeath;
  }

  ghost predicate FramesKept(d: State, u: State, st: Status) {
    if st.CloneEvent? then Pushes(d, u, st.pid, st.child) else u.focus.frames == d.focus.frames
  }

  lemma FramesKeptIs(d: State, u: State, st: Status)
    ensures FramesKept(d, u, st) <==> (u.focus.frames == d.focus.frames
                                       || (st.CloneEvent? && u.focus.frames == d.focus.frames + [Frame(st.pid, st.child)]))
  {
  }

  /** Every arm of `dispatch` leaves a task inside its clone event alone. */
  lemma HandleLeaves(s: State, st: Status, p: Pid)
    requires Inv(s) && Legal(s, st) && Inside(s, p) && !InitDies(s, st)
    ensures var d := Deliver(s, st); var u := Handle(d, st); FramesKept(d, u, st) && NoneAttach(d, u) && Leaves(d, u, p)
  {
    hide *;
    var d := Deliver(s, st);
    var u := Handle(d, st);
    DeliverLeaves(s, st, p);
    DeliverSame(s, st);
    DeliverTables(s, st);
    LegalMeans(s, st);
    HandleCases(d, st);
    SameLeaves(d, d);
    FramesKeptIs(d, u, st);
    InsideMeans(s, p);
    match st {
      case SyscallStop(r, op) => StopElsewhere(s, r, p); SyscallLeaves(d, r, op, p);
      case OtherEvent(r) => ResumeLeaves(d, r);
      case SignalStop(r, sig) => SignalLeaves(d, r, sig, p);
      case CloneEvent(r, c) => CloneLeaves(d, r, c, p); PushesIs(d, u, r, c);
      case ExitEvent(r) =>
        ResumeLeaves(d, r);
        if r == p { LetGoLeaves(d, p); }
      case Exited(r, _) => DeathLeaves(d, r, p);
      case Killed(r, _) => DeathLeaves(d, r, p);
      case Idle =>
    }
  }

  lemma InsideMeans(s: State, p: Pid)
    requires Inside(s, p)
    ensures Pausing(s, p) && (IsScheduled(s, p) ==> s.focus.current == Some(p)) && !Fresh(s, p)
  {
    hide Fresh, IsScheduled, IsTask;
  }

  lemma PausingAfter(s: State, u: State, p: Pid)
    requires Pausing(s, p) && Leaves(s, u, p)
    ensures Pausing(u, p)
  {
  }

  // ----- the frames stay well nested

  lemma NewFrame(s: State, r: Pid, c: Pid, i: nat)
    requires Inv(s) && WellNested(s) && Legal(s, CloneEvent(r, c)) && c !in s.q.stoppedPending && i < |s.focus.frames|
    ensures s.focus.frames[i].parent != r && s.focus.frames[i].child != c
  {
    assert s.focus.frames[i] in s.focus.frames;
    assert Pausing(s, s.focus.frames[i].parent);
    hide Inv, Distinct;
  }

  /** A clone event that makes the supervisor wait leaves its parent paused. */
  lemma NewParent(s: State, r: Pid, c: Pid)
    requires Inv(s) && s.outcome.InProgress? && Legal(s, CloneEvent(r, c))
    requires HandleClone(Deliver(s, CloneEvent(r, c)), r, c).focus.frames != s.focus.frames
    ensures c !in s.q.stoppedPending && Pausing(HandleClone(Deliver(s, CloneEvent(r, c)), r, c), r)
  {
    var d := Deliver(s, CloneEvent(r, c));
    ParentHeld(s, r, c);
    var e, info := HandleCloneCases(d, r, c);
    var t := Register(e, c, info);
    hide *;
    StashLeaves(d, e, r);
    RegisterLeaves(e, c, info, r);
    LeavesChain(d, e, t, r);
    ResumeLeaves(t, r);
    var u := t.(focus := t.focus.(frames := t.focus.frames + [Frame(r, c)]));
    PushLeaves(t, t.focus.frames + [Frame(r, c)], r);
    LeavesChain(d, t, u, r);
    PausingAfter(d, u, r);
    StoppedNotStarting(s, e, c, info);
  }

  lemma ParentHeld(s: State, r: Pid, c: Pid)
    requires Inv(s) && Legal(s, CloneEvent(r, c))
    ensures var d := Deliver(s, CloneEvent(r, c)); Pausing(d, r) && d.focus == s.focus && r != c && d.q == s.q && d.reg == s.reg
  {
    hide PartitionOf, ParkedOf, IdentityOf, KernelOf, FramesOf, Fresh;
    assert IsScheduled(s, r) ==> RunsAmong(s.reg.threads, s.kern.task, r);
  }

  lemma StoppedNotStarting(s: State, e: State, c: Pid, info: CloneInfo)
    requires Inv(s) && e.q == s.q && e.reg == s.reg
    ensures c in s.q.stoppedPending ==> c !in Register(e, c, info).q.pendingStart
  {
    if c in s.q.stoppedPending {
      assert c !in s.q.pendingStart && c !in s.reg.threads by { hide ParkedOf, FramesOf, RunsAmong; }
      var n := Enrol(e, c, Thread(e.reg.vtidNext, info.childTid, info.flags, HasCloneThread(info.flags)));
      ReleaseStarts(n.(q := n.q.(stoppedPending := n.q.stoppedPending - {c})), c);
      hide Release, Inv;
    }
  }

  lemma ReleaseStarts(n: State, c: Pid)
    ensures Release(n, c).q.pendingStart == n.q.pendingStart
  {
    ResumeEffect(n, c);
    hide ResumeThread;
  }

  lemma NestedFrame(s: State, i: nat)
    requires WellNested(s) && i < |s.focus.frames|
    ensures Pausing(s, s.focus.frames[i].parent) && Distinct(s.focus.frames)
  {
    hide Distinct, Pausing;
  }

  lemma NestedFrom(u: State)
    requires Distinct(u.focus.frames) && forall i :: 0 <= i < |u.focus.frames| ==> Pausing(u, u.focus.frames[i].parent)
    ensures WellNested(u)
  {
    hide Distinct, Pausing;
  }

  lemma DistinctPush(frames: seq<Frame>, f: Frame)
    requires Distinct(frames) && forall i :: 0 <= i < |frames| ==> frames[i].parent != f.parent && frames[i].child != f.child
    ensures Distinct(frames + [f])
  {
  }

  lemma DistinctPop(frames: seq<Frame>)
    requires Distinct(frames) && frames != []
    ensures Distinct(frames[..|frames| - 1])
  {
  }

  /** An arm of `dispatch` keeps the nesting. */
  lemma HandleNested(s: State, st: Status)
    requires Inv(s) && WellNested(s) && s.outcome.InProgress? && Legal(s, st) && !InitDies(s, st)
    ensures WellNested(Handle(Deliver(s, st), st))
    ensures var u := Handle(Deliver(s, st), st);
            |u.focus.frames| >= |s.focus.frames| && u.focus.frames[..|s.focus.frames|] == s.focus.frames
  {
    hide *;
    var d := Deliver(s, st);
    var u := Handle(d, st);
    var n := |s.focus.frames|;
    DeliverSame(s, st);
    FramesKeptIs(d, u, st);
    HandleFrames(s, st);
    forall i | 0 <= i < n ensures Pausing(u, s.focus.frames[i].parent) {
      ParentsInside(s, i);
      NestedFrame(s, i);
      DeliverLeaves(s, st, s.focus.frames[i].parent);
      HandleLeaves(s, st, s.focus.frames[i].parent);
      LeavesChain(s, d, u, s.focus.frames[i].parent);
      PausingAfter(s, u, s.focus.frames[i].parent);
    }
    NestedDistinct(s);
    if u.focus.frames != s.focus.frames {
      var r, c := st.pid, st.child;
      HandleCases(d, st);
      NewParent(s, r, c);
      forall i | 0 <= i < n ensures s.focus.frames[i].parent != r && s.focus.frames[i].child != c {
        NewFrame(s, r, c, i);
      }
      DistinctPush(s.focus.frames, Frame(r, c));
    }
    NestedFrom(u);
  }

  lemma NestedDistinct(s: State)
    requires WellNested(s)
    ensures Distinct(s.focus.frames)
  {
    hide Distinct, Pausing;
  }

  lemma HandleFrames(s: State, st: Status)
    requires Inv(s) && Legal(s, st) && s.outcome.InProgress? && !InitDies(s, st)
    ensures var d := Deliver(s, st); FramesKept(d, Handle(d, st), st)
  {
    hide *;
    var d := Deliver(s, st);
    HandleCases(d, st);
    FramesKeptIs(d, Handle(d, st), st);
    DeliverTables(s, st);
    LegalMeans(s, st);
    DeliverSame(s, st);
    match st {
      case SyscallStop(r, op) => SyscallFrames(d, r, op);
      case OtherEvent(r) => ResumeLeaves(d, r);
      case SignalStop(r, sig) => SignalLeaves(d, r, sig, r + 1);
      case CloneEvent(r, c) => CloneLeaves(d, r, c, Neither(r, c)); PushesIs(d, Handle(d, st), r, c);
      case ExitEvent(r) => ResumeLeaves(d, r);
      case Exited(r, _) => DeathFrames(d, r);
      case Killed(r, _) => DeathFrames(d, r);
      case Idle =>
    }
  }

  function Neither(r: Pid, c: Pid): (p: Pid)
    ensures p != r && p != c
  {
    if r < c then c + 1 else r + 1
  }

  lemma SyscallFrames(d: State, r: Pid, op: SyscallOp)
    ensures HandleSyscall(d, r, op).focus.frames == d.focus.frames
  {
    hide *;
    InterceptedLeaves(d, r, op);
    var t := Intercepted(d, r, op);
    ResumeLeaves(t, r);
    HandleSyscallCases(d, r, op);
    YieldFrames(t, r);
  }

  lemma YieldFrames(t: State, r: Pid)
    ensures YieldCurrent(t, r).focus.frames == t.focus.frames && SetCurrent(t, None).focus.frames == t.focus.frames
  {
    ScheduleLeaves(if t.focus.current == Some(r) then PushRunnable(SetCurrent(t, None), r) else t);
    hide ScheduleNext;
  }

  lemma DeathFrames(d: State, r: Pid)
    requires Tables(d)
    ensures HandleDeath(d, r).focus.frames == d.focus.frames
  {
    hide *;
    DeathParts(d, r);
    var record := d.focus.current == Some(r);
    ExitEffect(d, r, record);
    HandleDeathIs(d, r);
    var u := SetCurrent(OnThreadExit(d, r, record), None);
    ScheduleLeaves(u);
    YieldFrames(OnThreadExit(d, r, record), r);
  }

  // ----- an attach stop arrives

  lemma AwaitedFacts(s: State, st: Status)
    requires Inv(s) && Legal(s, st) && Awaited(s, st)
    ensures var f := s.focus.frames[|s.focus.frames| - 1];
            && s.focus.frames != [] && st == SignalStop(f.child, SIGSTOP) && IsTask(s, f.child, Attaching)
            && f.child in s.q.pendingStart && f.parent != f.child
  {
    var f := s.focus.frames[|s.focus.frames| - 1];
    assert f in s.focus.frames;
    hide PartitionOf, ParkedOf, IdentityOf, RunsAmong;
  }

  /** The end of the innermost wait: the child is let in, the frame is gone, and the parent goes on if it can. */
  lemma FinishIs(s: State, st: Status) returns (t: State)
    requires Inv(s) && Legal(s, st) && Awaited(s, st) && s.outcome.InProgress?
    ensures s.focus.frames != []
    ensures var f := s.focus.frames[|s.focus.frames| - 1];
            && Inner(s, st) == Continue(t, f.parent) && t.outcome.InProgress?
            && t.focus == s.focus.(frames := s.focus.frames[..|s.focus.frames| - 1])
            && NoneAttach(s, t) && !IsTask(t, f.child, Attaching) && forall p :: p != f.child ==> Leaves(s, t, p)
    ensures t.reg == s.reg && t.kern.task.Keys == s.kern.task.Keys
    ensures forall p :: p in s.kern.task && p != s.focus.frames[|s.focus.frames| - 1].child ==> t.kern.task[p] == s.kern.task[p]
  {
    var f := s.focus.frames[|s.focus.frames| - 1];
    AwaitedFacts(s, st);
    var d := SetTask(s, f.child, Held);
    var e := d.(q := d.q.(pendingStart := d.q.pendingStart - {f.child}));
    var r := Release(e, f.child);
    ReleaseHeld(e, f.child);
    t := r.(focus := r.focus.(frames := r.focus.frames[..|r.focus.frames| - 1]));
    hide Release, Continue, Inv, Legal;
    assert FinishAwait(d) == Continue(t, f.parent);
  }

  lemma ReleaseHeld(e: State, c: Pid)
    requires IsTask(e, c, Held)
    ensures var r := Release(e, c);
            && r.outcome == e.outcome && r.focus == e.focus && r.reg == e.reg
            && (r.kern.task == e.kern.task || r.kern.task == e.kern.task[c := Resumed])
  {
  }

  lemma ContinueTask(t: State, p: Pid)
    requires Pausing(t, p)
    ensures var u := Continue(t, p); u.focus == t.focus && (Gone(t, p) ==> u.outcome == Failed(Ptrace))
    ensures !Gone(t, p) && !IsTask(t, p, Attaching) ==> Continue(t, p).outcome == t.outcome
  {
  }

  /** The nesting survives the end of its innermost wait. */
  lemma FinishNested(s: State, st: Status)
    requires Inv(s) && WellNested(s) && Legal(s, st) && Awaited(s, st) && s.outcome.InProgress?
    ensures WellNested(Inner(s, st)) && s.focus.frames != []
    ensures Inner(s, st).focus.frames == s.focus.frames[..|s.focus.frames| - 1]
    ensures Inner(s, st).outcome == (if Gone(s, s.focus.frames[|s.focus.frames| - 1].parent) then Failed(Ptrace) else InProgress)
  {
    hide *;
    AwaitedFacts(s, st);
    var k := |s.focus.frames| - 1;
    var f := s.focus.frames[k];
    ParentsInside(s, k);
    var t := FinishIs(s, st);
    ResumeLeaves(t, f.parent);
    var u := Continue(t, f.parent);
    NestedFrame(s, k);
    PausingAfter(s, t, f.parent);
    GoneSame(s, t, f.parent);
    ContinueTask(t, f.parent);
    NotAttaching(s, t, f.parent);
    DistinctPop(s.focus.frames);
    forall i | 0 <= i < k ensures Pausing(u, s.focus.frames[i].parent) {
      ParentsInside(s, i);
      NestedFrame(s, i);
      DistinctFrames(s.focus.frames, i, k);
      InsideStarted(s, s.focus.frames[i].parent, f.child);
      LeavesChain(s, t, u, s.focus.frames[i].parent);
      PausingAfter(s, u, s.focus.frames[i].parent);
    }
    NestedFrom(u);
  }

  lemma DistinctFrames(frames: seq<Frame>, i: nat, j: nat)
    requires Distinct(frames) && i < j < |frames|
    ensures frames[i].parent != frames[j].parent && frames[i].child != frames[j].child
  {
  }

  lemma InsideStarted(s: State, p: Pid, c: Pid)
    requires Inside(s, p) && c in s.q.pendingStart
    ensures p != c
  {
  }

  lemma GoneSame(s: State, t: State, p: Pid)
    requires t.kern.task.Keys == s.kern.task.Keys && (p in s.kern.task ==> t.kern.task[p] == s.kern.task[p])
    ensures Gone(t, p) <==> Gone(s, p)
  {
    assert p in t.kern.task.Keys <==> p in s.kern.task.Keys;
  }

  lemma NotAttaching(s: State, t: State, p: Pid)
    requires Inv(s) && Inside(s, p) && NoneAttach(s, t)
    ensures !IsTask(t, p, Attaching)
  {
    hide PartitionOf, ParkedOf, IdentityOf, FramesOf, RunsAmong;
  }

  // ----- every run

  lemma InitNested(s: State, st: Status)
    requires Inv(s) && WellNested(s) && InitDies(s, st)
    ensures WellNested(Inner(s, st)) && Inner(s, st).focus == s.focus
  {
    var u := Inner(s, st);
    assert u.focus == s.focus && u.reg == s.reg && u.kern.task == s.kern.task - {st.pid};
    hide Inner, Inv, Distinct;
  }

  lemma TailFrames(u: State)
    ensures Tail(u).focus.frames == u.focus.frames && (u.focus.frames != [] ==> Tail(u) == u)
  {
    ScheduleLeaves(u);
    hide ScheduleNext;
  }

  lemma EmptyNested(u: State)
    requires u.focus.frames == []
    ensures WellNested(u)
  {
  }

  lemma InnerNested(s: State, st: Status)
    requires Inv(s) && WellNested(s) && s.outcome.InProgress? && Legal(s, st)
    ensures WellNested(Inner(s, st))
  {
    hide *;
    if InitDies(s, st) {
      InitNested(s, st);
    } else if Awaited(s, st) {
      FinishNested(s, st);
    } else {
      HandleIs(s, st);
      HandleNested(s, st);
    }
  }

  lemma StepNested(s: State, st: Status)
    requires Inv(s) && WellNested(s) && s.outcome.InProgress? && Legal(s, st)
    ensures WellNested(Step(s, st))
  {
    hide *;
    InnerNested(s, st);
    StepIs(s, st);
    TailFrames(Inner(s, st));
    if Inner(s, st).focus.frames == [] { EmptyNested(Step(s, st)); }
  }

  lemma StartNested(init: Pid, seed: u64)
    ensures WellNested(Start(init, seed))
  {
    ScheduleLeaves(Boot(init, seed));
    hide ScheduleNext;
  }

  /** In every reachable state the waiting activations belong to distinct parents and children, no parent runs, and a
      parent that is a thread is the current one. */
  lemma {:induction false} RunNested(init: Pid, seed: u64, sts: seq<Status>)
    requires LegalRun(Start(init, seed), sts)
    ensures WellNested(Run(Start(init, seed), sts))
  {
    hide *;
    var s := Start(init, seed);
    if sts == [] {
      RunEmpty(s);
      StartNested(init, seed);
    } else {
      LegalParts(s, sts);
      RunLast(s, sts);
      var pre, st := sts[..|sts| - 1], sts[|sts| - 1];
      RunNested(init, seed, pre);
      RunSound(init, seed, pre);
      var t := Run(s, pre);
      if t.outcome.InProgress? {
        SoundParts(t);
        StepNested(t, st);
      } else {
        StepOver(t, st);
      }
    }
  }

  // ----- when the outermost wait can end

  /** Every awaited attach stop is outstanding, and every parent but the outermost is alive to go on. */
  ghost predicate CanUnwind(s: State) {
    forall i :: 0 <= i < |s.focus.frames| ==>
      IsTask(s, s.focus.frames[i].child, Attaching) && (i > 0 ==> !Gone(s, s.focus.frames[i].parent))
  }

  lemma UnwindAt(s: State, i: nat)
    requires CanUnwind(s) && i < |s.focus.frames|
    ensures IsTask(s, s.focus.frames[i].child, Attaching) && (i > 0 ==> !Gone(s, s.focus.frames[i].parent))
  {
    hide IsTask, Gone;
  }

  /** The innermost attach stop arrives: what was due is still due. */
  lemma UnwindStep(s: State)
    requires Inv(s) && WellNested(s) && s.outcome.InProgress? && CanUnwind(s) && |s.focus.frames| > 1
    ensures var st := SignalStop(s.focus.frames[|s.focus.frames| - 1].child, SIGSTOP); var u := Step(s, st);
            && Legal(s, st) && Inv(u) && WellNested(u) && u.outcome.InProgress? && CanUnwind(u)
            && u.focus.frames == s.focus.frames[..|s.focus.frames| - 1]
  {
    hide *;
    var k := |s.focus.frames| - 1;
    var f := s.focus.frames[k];
    var st := SignalStop(f.child, SIGSTOP);
    UnwindAt(s, k);
    AttachAwaited(s, k);
    FinishNested(s, st);
    var u := Inner(s, st);
    StepIs(s, st);
    TailFrames(u);
    AttachNoEnd(s, f.child);
    StepKeepsInv(s, st);
    var t := FinishIs(s, st);
    forall i | 0 <= i < k
      ensures IsTask(u, s.focus.frames[i].child, Attaching) && (i > 0 ==> !Gone(u, s.focus.frames[i].parent))
    {
      UnwindAt(s, i);
      NestedFrame(s, i);
      DistinctFrames(s.focus.frames, i, k);
      ParentsInside(s, i);
      ParentsInside(s, k);
      AwaitedFacts(s, st);
      StillDue(s, t, u, f, s.focus.frames[i]);
    }
    UnwindFrom(u);
  }

  lemma UnwindFrom(u: State)
    requires forall i :: 0 <= i < |u.focus.frames| ==>
               IsTask(u, u.focus.frames[i].child, Attaching) && (i > 0 ==> !Gone(u, u.focus.frames[i].parent))
    ensures CanUnwind(u)
  {
    hide IsTask, Gone;
  }

  lemma AttachAwaited(s: State, k: nat)
    requires k + 1 == |s.focus.frames| && IsTask(s, s.focus.frames[k].child, Attaching)
    ensures var st := SignalStop(s.focus.frames[k].child, SIGSTOP); Legal(s, st) && Awaited(s, st)
  {
  }

  lemma AttachNoEnd(s: State, c: Pid)
    ensures !InitDies(s, SignalStop(c, SIGSTOP))
  {
  }

  lemma StillDue(s: State, t: State, u: State, f: Frame, g: Frame)
    requires Inv(s) && Inside(s, f.parent) && Inside(s, g.parent) && f.child in s.q.pendingStart
    requires f.parent != g.parent && f.child != g.child && u == Continue(t, f.parent)
    requires IsTask(s, g.child, Attaching) && t.kern.task.Keys == s.kern.task.Keys
    requires forall p :: p in s.kern.task && p != f.child ==> t.kern.task[p] == s.kern.task[p]
    ensures IsTask(u, g.child, Attaching) && (!Gone(s, g.parent) ==> !Gone(u, g.parent))
  {
    assert g.child in t.kern.task.Keys && g.child in s.q.pendingStart;
    assert g.parent in s.kern.task.Keys <==> g.parent in t.kern.task.Keys;
    ResumeEffect(t, f.parent);
    hide ResumeThread, PartitionOf, ParkedOf, IdentityOf, FramesOf, RunsAmong;
  }

  /** The attach stops, innermost first, end every wait. */
  lemma {:induction false} Unwinds(s: State) returns (sts: seq<Status>)
    requires Inv(s) && WellNested(s) && s.outcome.InProgress? && s.focus.frames != [] && CanUnwind(s)
    ensures LegalRun(s, sts) && Run(s, sts).focus.frames == []
    decreases |s.focus.frames|
  {
    hide *;
    var k := |s.focus.frames| - 1;
    var st := SignalStop(s.focus.frames[k].child, SIGSTOP);
    UnwindAt(s, k);
    AttachAwaited(s, k);
    if k == 0 {
      FinishNested(s, st);
      StepIs(s, st);
      TailFrames(Inner(s, st));
      sts := [st];
      OneStatus(s, st);
    } else {
      UnwindStep(s);
      var rest := Unwinds(Step(s, st));
      sts := [st] + rest;
      OneStatus(s, st);
      LegalAppend(s, [st], rest);
      RunConcat(s, [st], rest);
    }
  }

  lemma OneStatus(s: State, st: Status)
    requires Legal(s, st)
    ensures LegalRun(s, [st]) && Run(s, [st]) == Step(s, st)
  {
    assert [st][..0] == [];
    assert Run(s, []) == s;
    hide Step, Legal;
  }

  lemma LegalAppend(s: State, a: seq<Status>, b: seq<Status>)
    requires LegalRun(s, a) && LegalRun(Run(s, a), b)
    ensures LegalRun(s, a + b)
  {
    hide Run, Legal;
    forall i | 0 <= i < |a + b| ensures Legal(Run(s, (a + b)[..i]), (a + b)[i]) {
      if i < |a| {
        assert (a + b)[..i] == a[..i];
        assert Legal(Run(s, a[..i]), a[i]);
      } else {
        assert (a + b)[..i] == a + b[..i - |a|];
        RunConcat(s, a, b[..i - |a|]);
        assert Legal(Run(Run(s, a), b[..i - |a|]), b[i - |a|]);
      }
    }
  }

  // ----- and when it cannot

  /** What is not due never becomes due. */
  lemma NotDueStays(s: State, st: Status, i: nat, u: State)
    requires Inv(s) && WellNested(s) && s.outcome.InProgress? && Legal(s, st) && !Awaited(s, st) && !InitDies(s, st)
    requires i < |s.focus.frames| && u == Handle(Deliver(s, st), st)
    ensures IsTask(u, s.focus.frames[i].child, Attaching) ==> IsTask(s, s.focus.frames[i].child, Attaching)
    ensures Gone(s, s.focus.frames[i].parent) ==> Gone(u, s.focus.frames[i].parent)
  {
    hide *;
    var f := s.focus.frames[i];
    var d := Deliver(s, st);
    ParentsInside(s, i);
    DeliverLeaves(s, st, f.parent);
    HandleLeaves(s, st, f.parent);
    LeavesChain(s, d, u, f.parent);
    LeavesMeans(s, u, f.parent);
    AttachMeans(d, u, f.child);
    if IsTask(d, f.child, Attaching) { DeliverAttaches(s, st, f.child); }
  }

  lemma LeavesMeans(s: State, u: State, p: Pid)
    requires Leaves(s, u, p)
    ensures Gone(s, p) ==> Gone(u, p)
  {
    hide Gone;
  }

  lemma AttachMeans(s: State, u: State, p: Pid)
    requires NoneAttach(s, u)
    ensures IsTask(u, p, Attaching) ==> IsTask(s, p, Attaching)
  {
    hide IsTask;
  }

  /** The outermost wait is the same, and the run is over or it still cannot end. */
  ghost predicate Stranded(f: Frame, t: State) {
    t.focus.frames != [] && t.focus.frames[0] == f && (t.outcome.InProgress? ==> !CanUnwind(t))
  }

  lemma StrandedStep(s: State, st: Status)
    requires Inv(s) && WellNested(s) && s.outcome.InProgress? && Legal(s, st) && s.focus.frames != [] && !CanUnwind(s)
    ensures Stranded(s.focus.frames[0], Step(s, st))
  {
    hide *;
    var i := NotDue(s);
    StepIs(s, st);
    var u := Inner(s, st);
    TailFrames(u);
    if InitDies(s, st) {
      InitNested(s, st);
      InnerCases(s, st);
      LegalMeans(s, st);
      NoAwaitedDeath(s, st);
      StrandedEnd(s.focus.frames[0], u);
    } else if Awaited(s, st) {
      AwaitedFacts(s, st);
      FinishNested(s, st);
      var k := |s.focus.frames| - 1;
      if i == k {
        StrandedEnd(s.focus.frames[0], u);
      } else {
        var t := FinishIs(s, st);
        FinishKeepsStuck(s, st, t, i);
        StrandedAt(s.focus.frames[0], u, i);
      }
    } else {
      HandleIs(s, st);
      HandleNested(s, st);
      NotDueStays(s, st, i, u);
      assert u.focus.frames[i] == u.focus.frames[..|s.focus.frames|][i];
      assert u.focus.frames[0] == u.focus.frames[..|s.focus.frames|][0];
      StrandedAt(s.focus.frames[0], u, i);
    }
  }

  lemma NoAwaitedDeath(s: State, st: Status)
    requires InitDies(s, st)
    ensures !Awaited(s, st)
  {
  }

  lemma NotDue(s: State) returns (i: nat)
    requires !CanUnwind(s)
    ensures i < |s.focus.frames|
    ensures !IsTask(s, s.focus.frames[i].child, Attaching) || (i > 0 && Gone(s, s.focus.frames[i].parent))
  {
    hide IsTask, Gone;
    i :| 0 <= i < |s.focus.frames|
         && !(IsTask(s, s.focus.frames[i].child, Attaching) && (i > 0 ==> !Gone(s, s.focus.frames[i].parent)));
  }

  lemma StrandedEnd(f: Frame, u: State)
    requires u.focus.frames != [] && u.focus.frames[0] == f && !u.outcome.InProgress?
    ensures Stranded(f, u)
  {
    hide CanUnwind;
  }

  lemma StrandedAt(f: Frame, u: State, i: nat)
    requires u.focus.frames != [] && u.focus.frames[0] == f && i < |u.focus.frames|
    requires !IsTask(u, u.focus.frames[i].child, Attaching) || (i > 0 && Gone(u, u.focus.frames[i].parent))
    ensures Stranded(f, u)
  {
    hide IsTask, Gone;
  }

  lemma FinishKeepsStuck(s: State, st: Status, t: State, i: nat)
    requires Inv(s) && WellNested(s) && s.outcome.InProgress? && Legal(s, st) && Awaited(s, st) && i + 1 < |s.focus.frames|
    requires var f := s.focus.frames[|s.focus.frames| - 1];
             && Inner(s, st) == Continue(t, f.parent) && NoneAttach(s, t) && forall p :: p != f.child ==> Leaves(s, t, p)
    ensures var u := Inner(s, st); var g := s.focus.frames[i];
            && (IsTask(u, g.child, Attaching) ==> IsTask(s, g.child, Attaching))
            && (Gone(s, g.parent) ==> Gone(u, g.parent))
  {
    hide *;
    var k := |s.focus.frames| - 1;
    var f, g := s.focus.frames[k], s.focus.frames[i];
    NestedDistinct(s);
    DistinctFrames(s.focus.frames, i, k);
    ParentsInside(s, i);
    AwaitedFacts(s, st);
    InsideStarted(s, g.parent, f.child);
    ResumeLeaves(t, f.parent);
    LeavesChain(s, t, Continue(t, f.parent), g.parent);
    AttachChain(s, t, Continue(t, f.parent));
    LeavesMeans(s, Continue(t, f.parent), g.parent);
    AttachMeans(s, Continue(t, f.parent), g.child);
  }

  /** Once it cannot unwind, the outermost activation never returns, whatever happens. */
  lemma {:induction false} NeverUnwinds(s: State, sts: seq<Status>)
    requires Inv(s) && WellNested(s) && s.outcome.InProgress? && s.focus.frames != [] && !CanUnwind(s) && LegalRun(s, sts)
    ensures Stranded(s.focus.frames[0], Run(s, sts))
    ensures Run(s, sts).outcome.InProgress? ==> Inv(Run(s, sts)) && WellNested(Run(s, sts))
  {
    hide *;
    if sts == [] {
      RunEmpty(s);
      StrandedNow(s);
    } else {
      LegalParts(s, sts);
      RunLast(s, sts);
      var t, st := Run(s, sts[..|sts| - 1]), sts[|sts| - 1];
      NeverUnwinds(s, sts[..|sts| - 1]);
      StrandedMeans(s.focus.frames[0], t);
      if !t.outcome.InProgress? {
        StepOver(t, st);
      } else {
        StrandedStep(t, st);
        StepNested(t, st);
        if Step(t, st).outcome.InProgress? { StepAlive(t, st); }
      }
    }
  }

  lemma StrandedNow(s: State)
    requires s.focus.frames != [] && !CanUnwind(s)
    ensures Stranded(s.focus.frames[0], s)
  {
    hide CanUnwind;
  }

  lemma StrandedMeans(f: Frame, t: State)
    requires Stranded(f, t)
    ensures t.focus.frames != [] && t.focus.frames[0] == f && (t.outcome.InProgress? ==> !CanUnwind(t))
  {
    hide CanUnwind;
  }

  /** Exactly when a wait can end: over every run, while it goes on inside `await_attach`, there is a continuation in
      which all activations return if and only if every awaited attach stop is still outstanding and every parent
      but the outermost is alive to go on. Otherwise the outermost one never returns, whatever happens. */
  lemma OutermostReturnsExactly(init: Pid, seed: u64, sts: seq<Status>)
    requires LegalRun(Start(init, seed), sts)
    requires var t := Run(Start(init, seed), sts); t.outcome.InProgress? && t.focus.frames != []
    ensures var t := Run(Start(init, seed), sts);
            && ((exists more :: LegalRun(t, more) && Run(t, more).focus.frames == []) <==> CanUnwind(t))
            && (!CanUnwind(t) ==> forall more :: LegalRun(t, more) ==> Stranded(t.focus.frames[0], Run(t, more)))
  {
    hide *;
    var t := Run(Start(init, seed), sts);
    RunSound(init, seed, sts);
    SoundParts(t);
    RunNested(init, seed, sts);
    if CanUnwind(t) {
      var more := Unwinds(t);
    } else {
      forall more | LegalRun(t, more) ensures Stranded(t.focus.frames[0], Run(t, more)) && Run(t, more).focus.frames != [] {
        NeverUnwinds(t, more);
        StrandedMeans(t.focus.frames[0], Run(t, more));
      }
    }
  }
}
