/** An exit_group in flight stalls the scheduler once the running thread is gone, and which death wakes its joiner
    (src/runtime/supervisor.rs:355-364, 502-527, 570-573). */
module Limits {
  import opened Base
  import opened Machine
  import opened Invariants
  import opened Fairness
  import Threads
  import Trace

  // ----- exit_group by a fork child

  /** An exit_group is in flight and `current` names a thread that is gone. */
  ghost predicate Stalled(s: State) {
    s.focus.groupExiting && s.focus.current.Some? && s.focus.current.value !in s.reg.threads
  }

  /** The scheduler's part of the state after a step that scheduled nobody. */
  ghost predicate NobodyServed(s: State, t: State) {
    && t.focus.current == s.focus.current && (s.focus.groupExiting ==> t.focus.groupExiting)
    && Turns(t.log.acts) == Turns(s.log.acts)
  }

  /** Once stalled, no scheduled thread can report anything. */
  lemma StalledQuiet(s: State, p: Pid)
    requires Inv(s) && Stalled(s)
    ensures s.focus.current == Some(p) ==> p !in s.kern.task && !Fresh(s, p) && p !in s.q.stoppedPending
    ensures IsTask(s, p, Resumed) ==> !IsScheduled(s, p)
  {
    assert IsTask(s, p, Resumed) && IsScheduled(s, p) ==> RunsAmong(s.reg.threads, s.kern.task, p);
  }

  lemma InterceptedServesNobody(d: State, p: Pid, op: SyscallOp)
    requires !IsScheduled(d, p)
    ensures NobodyServed(d, Intercepted(d, p, op)) && Intercepted(d, p, op).reg == d.reg
  {
    if op.Entry? {
      EntryStill(d, p, op.regs, op.mem);
      EntryEffect(d, p, op.regs, op.mem);
    }
    ExitStill(d, p);
    ExitStopEffect(d, p);
    hide OnSyscallEntry, OnSyscallExit, Turns;
  }

  /** Resuming a task serves nobody. */
  lemma ResumeServesNobody(t: State, p: Pid)
    ensures NobodyServed(t, ResumeThread(t, p)) && ResumeThread(t, p).reg == t.reg
    ensures NobodyServed(t, Continue(t, p)) && Continue(t, p).reg == t.reg
  {
    ResumeStill(t, p);
    ResumeEffect(t, p);
    hide ResumeThread, Turns;
  }

  lemma ServedChain(s: State, t: State, u: State)
    requires NobodyServed(s, t) && NobodyServed(t, u)
    ensures NobodyServed(s, u)
  {
    hide Turns;
  }

  lemma ConcurrentServesNobody(d: State, p: Pid, op: SyscallOp)
    requires !IsScheduled(d, p)
    ensures NobodyServed(d, HandleSyscall(d, p, op)) && HandleSyscall(d, p, op).reg == d.reg
  {
    hide *;
    InterceptedServesNobody(d, p, op);
    var t := Intercepted(d, p, op);
    ResumeServesNobody(t, p);
    ServedChain(d, t, ResumeThread(t, p));
    HandleSyscallCases(d, p, op);
  }

  lemma SignalServesNobody(d: State, p: Pid, sig: Signal)
    ensures NobodyServed(d, HandleSignalStop(d, p, sig)) && HandleSignalStop(d, p, sig).reg == d.reg
  {
    ResumeServesNobody(d, p);
    var e := d.(q := d.q.(pendingStart := d.q.pendingStart - {p}));
    ReleaseServesNobody(e, p);
    PtraceStill(d, p, Some(sig));
    PtraceEffect(d, p, Some(sig));
    hide ResumeThread, Release, PtraceSyscall, Turns;
  }

  lemma ReleaseServesNobody(d: State, p: Pid)
    ensures NobodyServed(d, Release(d, p)) && Release(d, p).reg == d.reg && Release(d, p).focus == d.focus
  {
    ReleaseStill(d, p);
    FinishFrames(d, p);
    hide Release, Turns;
  }

  lemma OthersServeNobody(d: State, st: Status)
    requires st.OtherEvent? || st.ExitEvent? || st.SignalStop?
    ensures NobodyServed(d, Handle(d, st)) && Handle(d, st).reg == d.reg
  {
    if st.SignalStop? { SignalServesNobody(d, st.pid, st.sig); } else { ResumeServesNobody(d, st.pid); }
    hide HandleSignalStop, ResumeThread, Continue, Turns, NobodyServed;
  }

  lemma RegisterServesNobody(s: State, c: Pid, info: CloneInfo)
    ensures NobodyServed(s, Register(s, c, info))
    ensures Register(s, c, info).reg.threads.Keys <= s.reg.threads.Keys + {c}
  {
    var n := Enrol(s, c, Thread(s.reg.vtidNext, info.childTid, info.flags, HasCloneThread(info.flags)));
    ReleaseServesNobody(n.(q := n.q.(stoppedPending := n.q.stoppedPending - {c})), c);
    hide Release, Turns;
  }

  lemma CloneServesNobody(d: State, p: Pid, c: Pid)
    ensures NobodyServed(d, HandleClone(d, p, c))
    ensures HandleClone(d, p, c).reg.threads.Keys <= d.reg.threads.Keys + {c}
  {
    var e, info := HandleCloneCases(d, p, c);
    RegisterServesNobody(e, c, info);
    var t := Register(e, c, info);
    ResumeServesNobody(t, p);
    hide Register, Continue, HandleClone, Turns;
  }

  lemma StartInvisible(s: State, starting: set<Pid>, frames: seq<Frame>)
    ensures NobodyServed(s, s.(q := s.q.(pendingStart := starting)))
    ensures NobodyServed(s, s.(focus := s.focus.(frames := frames)))
  {
    hide Turns;
  }

  lemma FinishCases(d: State, e: State, t: State)
    requires d.focus.frames != [] && e == d.(q := d.q.(pendingStart := d.q.pendingStart - {d.focus.frames[|d.focus.frames| - 1].child}))
    requires t == Release(e, d.focus.frames[|d.focus.frames| - 1].child) && t.focus == d.focus
    ensures FinishAwait(d) ==
            if t.outcome.InProgress? then
              Continue(t.(focus := t.focus.(frames := t.focus.frames[..|t.focus.frames| - 1])), d.focus.frames[|d.focus.frames| - 1].parent)
            else t
  {
    hide Release, Continue;
  }

  lemma FinishServesNobody(d: State)
    requires d.focus.frames != []
    ensures NobodyServed(d, FinishAwait(d)) && FinishAwait(d).reg == d.reg
  {
    hide *;
    var f := d.focus.frames[|d.focus.frames| - 1];
    var e := d.(q := d.q.(pendingStart := d.q.pendingStart - {f.child}));
    StartInvisible(d, d.q.pendingStart - {f.child}, []);
    ReleaseServesNobody(e, f.child);
    var t := Release(e, f.child);
    ServedChain(d, e, t);
    FinishCases(d, e, t);
    var u := t.(focus := t.focus.(frames := t.focus.frames[..|t.focus.frames| - 1]));
    StartInvisible(t, {}, t.focus.frames[..|t.focus.frames| - 1]);
    ServedChain(d, t, u);
    ResumeServesNobody(u, f.parent);
    ServedChain(d, u, Continue(u, f.parent));
  }

  lemma DeathServesNobody(d: State, p: Pid)
    requires Identity(d) && (d.focus.current != Some(p) || d.focus.groupExiting)
    ensures NobodyServed(d, HandleDeath(d, p)) && HandleDeath(d, p).reg.threads == d.reg.threads - {p}
  {
    var record := d.focus.current == Some(p);
    ExitEffect(d, p, record);
    DeathStill(d, p, record);
    hide OnThreadExit, AfterJoinWake, Turns, Without;
  }

  lemma StalledStep(s: State, st: Status)
    requires Inv(s) && s.outcome.InProgress? && Legal(s, st) && Stalled(s) && !InitDies(s, st)
    ensures Stalled(Step(s, st)) && NobodyServed(s, Step(s, st))
  {
    var d := Deliver(s, st);
    DeliverStill(s, st);
    if !st.Idle? { StalledQuiet(s, st.pid); }
    if st.CloneEvent? { StalledQuiet(s, st.child); }
    assert Identity(d) by { hide PartitionOf, ParkedOf, KernelOf, FramesOf, RunsAmong; }
    hide Turns, Inv, Stalled;
    var u := Inner(s, st);
    assert NobodyServed(s, u) && u.reg.threads.Keys <= s.reg.threads.Keys + (if st.CloneEvent? then {st.child} else {}) by {
      if Awaited(s, st) {
        FinishServesNobody(d);
        hide FinishAwait, Deliver, Legal;
      } else {
        match st {
          case SyscallStop(p, op) => ConcurrentServesNobody(d, p, op); hide HandleSyscall, Deliver;
          case CloneEvent(p, c) => CloneServesNobody(d, p, c); hide HandleClone, Deliver, Legal;
          case Exited(p, _) => DeathServesNobody(d, p); hide HandleDeath, Deliver, Legal;
          case Killed(p, _) => DeathServesNobody(d, p); hide HandleDeath, Deliver, Legal;
          case ExitEvent(_) => OthersServeNobody(d, st); hide Handle, Deliver, Legal;
          case OtherEvent(_) => OthersServeNobody(d, st); hide Handle, Deliver, Legal;
          case SignalStop(_, _) => OthersServeNobody(d, st); hide Handle, Deliver, Legal;
          case Idle =>
        }
      }
    }
    hide Inner;
    StalledAfter(s, u, st);
  }

  lemma StalledAfter(s: State, u: State, st: Status)
    requires Stalled(s) && NobodyServed(s, u) && Legal(s, st)
    requires u.reg.threads.Keys <= s.reg.threads.Keys + (if st.CloneEvent? then {st.child} else {})
    requires st.CloneEvent? ==> (s.focus.current == Some(st.child) ==> !Fresh(s, st.child) && st.child !in s.q.stoppedPending)
    ensures Tail(u) == u && Stalled(u)
  {
    hide Turns, ScheduleNext, Fresh;
    assert forall p :: p in u.reg.threads.Keys <==> p in u.reg.threads;
  }

  /** From a stalled state no thread of the init is ever scheduled again, whatever fork children still do. */
  lemma {:induction false} StalledForever(s: State, sts: seq<Status>)
    requires Inv(s) && s.outcome.InProgress? && Stalled(s) && LegalRun(s, sts)
    ensures Turns(Run(s, sts).log.acts) == Turns(s.log.acts)
    ensures Run(s, sts).outcome.Done? || (Stalled(Run(s, sts)) && Inv(Run(s, sts)))
  {
    hide Step, Inv, Legal, Turns;
    if sts != [] {
      LegalParts(s, sts);
      RunLast(s, sts);
      var t, st := Run(s, sts[..|sts| - 1]), sts[|sts| - 1];
      StalledForever(s, sts[..|sts| - 1]);
      hide Run, Stalled;
      if !t.outcome.InProgress? {
        StepOver(t, st);
      } else {
        if InitDies(t, st) { InitDeathEnds(t, st); } else {
          StalledStep(t, st);
          StepKeepsInv(t, st);
        }
      }
    }
  }

  lemma InitDeathEnds(t: State, st: Status)
    requires t.outcome.InProgress? && InitDies(t, st)
    ensures Step(t, st).outcome.Done? && Step(t, st).log.acts == t.log.acts
  {
  }

  // ----- the join wake

  /** The thread's death wakes a joiner: it was cloned with CLONE_CHILD_CLEARTID and a tid word. */
  predicate Joinable(s: State, p: Pid) {
    p in s.reg.threads && s.reg.threads[p].childTid != 0 && HasClearTid(s.reg.threads[p].flags)
  }

  /** The oldest waiter on the tid word is woken if and only if it is not the dying thread itself; if it is, its own
      death swallows the wake and every other waiter stays parked. */
  lemma JoinWakesExactly(s: State, p: Pid, record: bool)
    requires Tables(s) && Joinable(s, p) && s.reg.threads[p].childTid in s.q.waiting
    ensures var queue := s.q.waiting[s.reg.threads[p].childTid]; var t := OnThreadExit(s, p, record);
            && queue != []
            && if queue[0] != p then queue[0] !in t.q.blocked && queue[0] in t.q.runnable
               else t.q.blocked == s.q.blocked - {p} && t.q.runnable == s.q.runnable
  {
    var addr := s.reg.threads[p].childTid;
    var queue := s.q.waiting[addr];
    ExitEffect(s, p, record);
    WakeTakesPrefix(s, s.reg.threads, addr, 1);
    assert queue != [] && queue[..1] == [queue[0]] && queue[0] in queue;
    var q := AfterJoinWake(s, p).q;
    assert q.runnable == s.q.runnable + [queue[0]] && q.blocked == s.q.blocked - Elems([queue[0]]);
    hide OnThreadExit, Wake, WakeCount, Purge, IdentityOf;
    if queue[0] == p {
      WithoutConcat(s.q.runnable, [p], p);
      WithoutAbsent(s.q.runnable, p);
      assert Without([p], p) == [];
      assert Elems([p]) == {p};
    }
  }
}
