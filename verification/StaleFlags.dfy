/** Which flags a clone event is read with: those of the parent's last clone or clone3 call that no clone event has used
    up. A failed call leaves its flags behind, and fork and vfork keep none (src/runtime/supervisor.rs:286-288, 475,
    570-591, 595-613). */
module StaleFlags {
  import opened Base
  import opened Machine
  import opened Invariants
  import opened Confluence
  import opened Fairness
  import Recorder
  import Clock
  import Prng

  /** The status makes a thread's kept flags new, or uses them up. */
  predicate Restashes(st: Status, p: Pid) {
    || (st.CloneEvent? && st.pid == p)
    || (st.SyscallStop? && st.pid == p && st.op.Entry? && st.op.regs.origRax in {SYS_CLONE, SYS_CLONE3})
  }

  function Kept(s: State): map<Pid, CloneInfo> { s.calls.clonePending }

  lemma WakeStash(s: State, names: map<Pid, Thread>, addr: Addr, val: u64)
    ensures Wake(s, names, addr, val).calls == s.calls
  {
    hide SplitUpTo, SetQueue, Unparks, Elems;
  }

  lemma ResumeStash(s: State, p: Pid)
    ensures Kept(ResumeThread(s, p)) == Kept(ResumeCurrent(s, p)) == Kept(Continue(s, p)) == Kept(Release(s, p)) == Kept(s)
  {
    ResumeEffect(s, p);
    hide ResumeThread;
  }

  lemma {:induction false} ScheduleStash(s: State)
    ensures Kept(ScheduleNext(s)) == Kept(s) && ScheduleNext(s).reg == s.reg
    decreases |s.q.runnable|
  {
    if s.q.runnable != [] {
      var tid := s.q.runnable[0];
      ScheduleStash(PopRunnable(s));
      if tid in s.reg.threads { PickEffect(PopRunnable(s), tid); }
      hide Pick;
    }
  }

  lemma CarryOutStash(s: State, p: Pid, cmd: nat, plan: FutexPlan)
    ensures Kept(CarryOut(s, p, cmd, plan)) == Kept(s)
  {
    match plan {
      case PassThrough =>
      case ParkOn(addr) =>
      case WakeOn(addr, val) => WakeStash(s, s.reg.threads, addr, val); hide Wake, WakeCount;
      case RequeueOn(addr, val, val2) =>
        WakeStash(s, s.reg.threads, addr, val);
        var u := WakeAt(s, addr, val);
        WakeStash(u, u.reg.threads, addr, val2);
        hide Wake, WakeCount;
    }
  }

  lemma DevicesStash(s: State, p: Pid, regs: Regs, mem: Memory)
    ensures Kept(InterceptGetRandom(s, p, regs, mem)) == Kept(s)
    ensures Kept(InterceptClockGettime(s, p, regs, mem)) == Kept(s)
    ensures Kept(InterceptGetTimeOfDay(s, p, regs, mem)) == Kept(s)
  {
    hide Recorder.Filled, Recorder.Hex, Prng.WordAfter, Recorder.DrawsFor, Clock.Read, Clock.NextTick, AsI32;
  }

  lemma EntryStash(s: State, r: Pid, regs: Regs, mem: Memory, p: Pid)
    requires r != p || regs.origRax !in {SYS_CLONE, SYS_CLONE3}
    ensures Stash(OnSyscallEntry(s, r, regs, mem), p) == Stash(s, p)
  {
    CarryOutStash(s, r, FutexCmd(regs), PlanFutex(s, r, regs, mem));
    DevicesStash(s, r, regs, mem);
    hide CarryOut, PlanFutex, InterceptGetRandom, InterceptClockGettime, InterceptGetTimeOfDay;
  }

  lemma SyscallStash(s: State, r: Pid, op: SyscallOp, p: Pid)
    requires !Restashes(SyscallStop(r, op), p)
    ensures Stash(HandleSyscall(s, r, op), p) == Stash(s, p)
  {
    if op.Entry? { EntryStash(s, r, op.regs, op.mem, p); }
    HandleSyscallCases(s, r, op);
    var t := Intercepted(s, r, op);
    assert Stash(t, p) == Stash(s, p) by { hide OnSyscallEntry; }
    hide HandleSyscall, Intercepted, ScheduleNext, Parks;
    ResumeStash(t, r);
    var u := if t.focus.current == Some(r) then PushRunnable(SetCurrent(t, None), r) else t;
    ScheduleStash(u);
    hide ResumeThread, ResumeCurrent;
  }

  lemma RegisterStash(s: State, c: Pid, info: CloneInfo)
    ensures Kept(Register(s, c, info)) == Kept(s)
  {
    var e := Enrol(s, c, Thread(s.reg.vtidNext, info.childTid, info.flags, HasCloneThread(info.flags)));
    ResumeStash(e.(q := e.q.(stoppedPending := e.q.stoppedPending - {c})), c);
    hide Release;
  }

  lemma CloneStash(s: State, r: Pid, c: Pid, p: Pid)
    requires r != p
    ensures Stash(HandleClone(s, r, c), p) == Stash(s, p)
  {
    var info := Stash(s, r);
    var e := s.(calls := s.calls.(clonePending := s.calls.clonePending - {r}));
    RegisterStash(e, c, info);
    ResumeStash(Register(e, c, info), r);
    hide Register, Continue;
  }

  lemma SignalStash(s: State, r: Pid, sig: Signal)
    ensures Kept(HandleSignalStop(s, r, sig)) == Kept(s)
  {
    ResumeStash(s, r);
    ResumeStash(s.(q := s.q.(pendingStart := s.q.pendingStart - {r})), r);
    hide ResumeThread, Release;
  }

  lemma DeathStash(s: State, r: Pid)
    ensures Kept(HandleDeath(s, r)) == Kept(s)
  {
    var record := s.focus.current == Some(r);
    RetireStash(s, r, record);
    var t := OnThreadExit(s, r, record);
    assert Kept(t) == Kept(s) by { hide Retire, Purge, Without; }
    ScheduleStash(SetCurrent(t, None));
    hide OnThreadExit, ScheduleNext;
  }

  lemma RetireStash(s: State, r: Pid, record: bool)
    ensures Kept(Retire(s, r, record)) == Kept(s)
  {
    if r in s.reg.threads {
      WakeStash(s.(reg := s.reg.(threads := s.reg.threads - {r})), s.reg.threads, s.reg.threads[r].childTid, 1);
    }
    hide Wake, HasClearTid;
  }

  lemma FinishStash(s: State)
    requires s.focus.frames != []
    ensures Kept(FinishAwait(s)) == Kept(s)
  {
    var f := s.focus.frames[|s.focus.frames| - 1];
    var e := s.(q := s.q.(pendingStart := s.q.pendingStart - {f.child}));
    ResumeStash(e, f.child);
    var t := Release(e, f.child);
    assert t.focus == s.focus;
    ResumeStash(t.(focus := t.focus.(frames := t.focus.frames[..|t.focus.frames| - 1])), f.parent);
    hide Release, Continue;
  }

  /** What a thread's next clone event will be read with changes with its own clone and clone3 calls and its own clone
      events only: neither with the end of a call, failed or not, nor with any other call. */
  lemma StepStash(s: State, st: Status, p: Pid)
    requires !Restashes(st, p)
    ensures Stash(Step(s, st), p) == Stash(s, p)
  {
    hide *;
    StashIs(s, p);
    if !s.outcome.InProgress? {
      StepOver(s, st);
    } else {
      StepIs(s, st);
      InnerStash(s, st, p);
      TailStash(Inner(s, st), p);
    }
  }

  lemma StashIs(s: State, p: Pid)
    ensures Stash(s, p) == if p in Kept(s) then Kept(s)[p] else CloneInfo(0, 0)
  {
  }

  lemma SameStash(s: State, t: State, p: Pid)
    requires Kept(t) == Kept(s)
    ensures Stash(t, p) == Stash(s, p)
  {
  }

  lemma DoneStash(s: State, st: Status)
    requires !Awaited(s, st) && (st.Exited? || st.Killed?) && st.pid == s.reg.init
    ensures Kept(Inner(s, st)) == Kept(s)
  {
    hide Awaited;
  }

  lemma InnerStash(s: State, st: Status, p: Pid)
    requires !Restashes(st, p)
    ensures Stash(Inner(s, st), p) == Stash(s, p)
  {
    InnerCases(s, st);
    var d := Deliver(s, st);
    assert Stash(d, p) == Stash(s, p) && Kept(d) == Kept(s) && d.focus == s.focus && d.reg == s.reg;
    var t := Inner(s, st);
    hide *;
    if Awaited(s, st) {
      FinishStash(d);
      SameStash(d, t, p);
    } else {
      match st {
        case SyscallStop(r, op) => SyscallStash(SetTask(s, r, Held), r, op, p); TaskStash(s, r, Held, p);
        case OtherEvent(r) => ResumeStash(SetTask(s, r, Held), r); TaskStash(s, r, Held, p); SameStash(s, t, p);
        case SignalStop(r, sig) => SignalStash(SetTask(s, r, Held), r, sig); TaskStash(s, r, Held, p); SameStash(s, t, p);
        case CloneEvent(r, c) => NotOwn(r, c, p); CloneStash(d, r, c, p);
        case ExitEvent(r) => ResumeStash(SetTask(s, r, ExitStop), r); TaskStash(s, r, ExitStop, p); SameStash(s, t, p);
        case Exited(r, _) => DeadStash(s, st, p);
        case Killed(r, _) => DeadStash(s, st, p);
        case Idle =>
      }
    }
  }

  lemma TaskStash(s: State, r: Pid, task: Task, p: Pid)
    ensures Stash(SetTask(s, r, task), p) == Stash(s, p) && Kept(SetTask(s, r, task)) == Kept(s)
  {
  }

  lemma NotOwn(r: Pid, c: Pid, p: Pid)
    requires !Restashes(CloneEvent(r, c), p)
    ensures r != p
  {
  }

  lemma DeadStash(s: State, st: Status, p: Pid)
    requires !Awaited(s, st) && (st.Exited? || st.Killed?)
    ensures Stash(Inner(s, st), p) == Stash(s, p)
  {
    InnerCases(s, st);
    if st.pid == s.reg.init {
      DoneStash(s, st);
    } else {
      DeathStash(s.(kern := s.kern.(task := s.kern.task - {st.pid})), st.pid);
    }
    hide Inner, HandleDeath, Awaited;
  }

  lemma TailStash(t: State, p: Pid)
    ensures Stash(Tail(t), p) == Stash(t, p) && Tail(t).reg == t.reg
  {
    ScheduleStash(t);
    hide ScheduleNext;
  }

  lemma {:induction false} RunStash(s: State, sts: seq<Status>, p: Pid)
    requires forall i :: 0 <= i < |sts| ==> !Restashes(sts[i], p)
    ensures Stash(Run(s, sts), p) == Stash(s, p)
  {
    hide Step, Stash, Restashes;
    if sts != [] {
      RunStash(s, sts[..|sts| - 1], p);
      StepStash(Run(s, sts[..|sts| - 1]), sts[|sts| - 1], p);
    }
  }

  /** A clone event enters its child as a thread if and only if the flags kept for the parent say CLONE_THREAD. */
  lemma EventReads(s: State, p: Pid, c: Pid)
    requires Inv(s) && s.outcome.InProgress? && Legal(s, CloneEvent(p, c))
    ensures var t := Step(s, CloneEvent(p, c)); c in t.reg.threads && t.reg.threads[c] == ChildOf(s, p)
    ensures Stash(Step(s, CloneEvent(p, c)), p) == CloneInfo(0, 0)
  {
    assert c !in s.reg.threads by { ChildIsNew(s, p, c); }
    var st := CloneEvent(p, c);
    StepIs(s, st);
    InnerCases(s, st);
    assert !Awaited(s, st);
    var d := Deliver(s, st);
    assert d.reg == s.reg && Kept(d) == Kept(s) && Stash(d, p) == Stash(s, p);
    hide Inner, HandleClone, Deliver, Tail, Step, Legal;
    CloneEnters(d, p, c);
    TailStash(Inner(s, st), p);
  }

  lemma ChildIsNew(s: State, p: Pid, c: Pid)
    requires Inv(s) && s.outcome.InProgress? && Legal(s, CloneEvent(p, c))
    ensures c !in s.reg.threads
  {
  }

  lemma CloneEnters(d: State, p: Pid, c: Pid)
    requires c !in d.reg.threads
    ensures var t := HandleClone(d, p, c); c in t.reg.threads && t.reg.threads[c] == ChildOf(d, p) && p !in Kept(t)
  {
    var info := Stash(d, p);
    var e := d.(calls := d.calls.(clonePending := d.calls.clonePending - {p}));
    RegisterStash(e, c, info);
    RegisterEnters(e, c, info);
    var t := Register(e, c, info);
    ResumeStash(t, p);
    ResumeEffect(t, p);
    hide Register, ResumeThread;
  }

  lemma RegisterEnters(e: State, c: Pid, info: CloneInfo)
    requires c !in e.reg.threads
    ensures var t := Register(e, c, info);
            c in t.reg.threads && t.reg.threads[c] == Thread(e.reg.vtidNext, info.childTid, info.flags, HasCloneThread(info.flags))
  {
    var u := Enrol(e, c, Thread(e.reg.vtidNext, info.childTid, info.flags, HasCloneThread(info.flags)));
    ResumeEffect(u.(q := u.q.(stoppedPending := u.q.stoppedPending - {c})), c);
    hide ResumeThread, HasCloneThread;
  }

  lemma {:induction false} SoundAlong(s: State, sts: seq<Status>)
    requires Sound(s) && LegalRun(s, sts)
    ensures Sound(Run(s, sts))
  {
    hide Step, Sound, Legal;
    if sts != [] {
      LegalParts(s, sts);
      SoundAlong(s, sts[..|sts| - 1]);
      StepKeeps(Run(s, sts[..|sts| - 1]), sts[|sts| - 1]);
    }
  }

  /** From any reachable state, whatever happens in between: a clone event of a thread that has made no clone or clone3
      call since enters its child with what was kept for the thread in that state. A forked process is taken for a
      thread if and only if the flags left there have CLONE_THREAD. */
  lemma LeftOverFlags(s: State, sts: seq<Status>, p: Pid, c: Pid)
    requires Inv(s) && LegalRun(s, sts) && (forall i :: 0 <= i < |sts| ==> !Restashes(sts[i], p))
    requires var t := Run(s, sts); t.outcome.InProgress? && Legal(t, CloneEvent(p, c))
    ensures var u := Step(Run(s, sts), CloneEvent(p, c));
            && c in u.reg.threads && u.reg.threads[c].flags == Stash(s, p).flags && u.reg.threads[c].childTid == Stash(s, p).childTid
            && (IsScheduled(u, c) <==> HasCloneThread(Stash(s, p).flags))
  {
    hide Step, Inv, Sound, Legal, LegalRun, Restashes;
    RunStash(s, sts, p);
    InvSound(s);
    SoundAlong(s, sts);
    SoundParts(Run(s, sts));
    EventReads(Run(s, sts), p, c);
  }
}
