/** Which signals a resume delivers (src/runtime/supervisor.rs:315-348, 406-433, 445-462). */
module Signals {
  import opened Base
  import opened Machine
  import opened Invariants
  import opened Fairness
  import Calls
  import Recorder
  import Prng
  import Clock
  import Joins
  import Confluence

  // ----- a postman, who sees the statuses and the deliveries only

  datatype Letter = Letter(addressee: Option<Vtid>, sig: Signal)

  /** The names of the live tasks, and the next one to give. */
  datatype Directory = Directory(names: map<Pid, Vtid>, next: Vtid)

  /** Children are named in the order of their clone events, the dead are struck out. */
  function Learn(d: Directory, st: Status): Directory {
    match st
    case CloneEvent(_, c) => Directory(d.names[c := d.next], d.next + 1)
    case Exited(p, _) => d.(names := d.names - {p})
    case Killed(p, _) => d.(names := d.names - {p})
    case _ => d
  }

  function Known(init: Pid, sts: seq<Status>): Directory {
    if sts == [] then Directory(map[init := 0], 1) else Learn(Known(init, sts[..|sts| - 1]), sts[|sts| - 1])
  }

  /** The letter a status posts: a signal stop, but for signal 19, which is how a new task attaches. */
  function Posted(d: Directory, st: Status): seq<Letter> {
    if st.SignalStop? && st.sig != 19 then
      [Letter(if st.pid in d.names then Some(d.names[st.pid]) else None, st.sig)]
    else []
  }

  function Letters(init: Pid, sts: seq<Status>): seq<Letter> {
    if sts == [] then []
    else Letters(init, sts[..|sts| - 1]) + Posted(Known(init, sts[..|sts| - 1]), sts[|sts| - 1])
  }

  /** The resumes that carried a signal, in order. */
  function Delivered(acts: seq<Act>): seq<Letter> {
    if acts == [] then []
    else
      var rest, last := Delivered(acts[..|acts| - 1]), acts[|acts| - 1];
      if last.Resume? && last.delivered.Some? then rest + [Letter(last.tid, last.delivered.value)] else rest
  }

  lemma DeliveredPush(acts: seq<Act>, act: Act)
    ensures Delivered(acts + [act])
         == if act.Resume? && act.delivered.Some? then Delivered(acts) + [Letter(act.tid, act.delivered.value)] else Delivered(acts)
  {
    assert (acts + [act])[..|acts|] == acts;
  }

  lemma {:induction false} DeliveredWoken(acts: seq<Act>, more: seq<Act>)
    requires forall i :: 0 <= i < |more| ==> more[i].Unpark?
    ensures Delivered(acts + more) == Delivered(acts)
  {
    if more == [] {
      assert acts + more == acts;
    } else {
      var k := |more| - 1;
      assert acts + more == acts + more[..k] + [more[k]];
      DeliveredWoken(acts, more[..k]);
      DeliveredPush(acts + more[..k], more[k]);
    }
  }

  // ----- a signal stop

  /** A signal stop of a task, the running thread or a fork child, in every reachable state: it is resumed at once
      with that signal, and nothing else happens. */
  lemma SignalDelivered(s: State, p: Pid, sig: Signal)
    requires Inv(s) && s.outcome.InProgress? && IsTask(s, p, Resumed) && sig != 19
    ensures p in s.reg.threads
    ensures Step(s, SignalStop(p, sig))
         == s.(log := s.log.(acts := s.log.acts + [Resume(Some(s.reg.threads[p].vtid), Some(sig))]))
  {
    var st := SignalStop(p, sig);
    Calls.CallerFacts(s, p);
    StepIs(s, st);
    InnerCases(s, st);
    assert !Awaited(s, st);
    assert s.kern.task[p := Held][p := Resumed] == s.kern.task by { assert s.kern.task[p] == Resumed; }
    hide Inv, Step, Inner;
  }

  // ----- nobody else carries a signal

  /** No signal is kept, and none was delivered. */
  ghost predicate Unsigned(s: State, t: State) {
    t.calls.sigPending == map[] && Delivered(t.log.acts) == Delivered(s.log.acts)
  }

  ghost predicate NothingKept(s: State) { s.calls.sigPending == map[] }

  lemma ResumeUnsigned(s: State, p: Pid)
    requires NothingKept(s)
    ensures Unsigned(s, ResumeThread(s, p)) && Unsigned(s, ResumeCurrent(s, p))
    ensures Unsigned(s, Continue(s, p)) && Unsigned(s, Release(s, p))
  {
    assert s.calls.sigPending - {p} == map[];
    DeliveredPush(s.log.acts, Resume(VtidOf(s, p), None));
    hide Delivered;
  }

  lemma PickUnsigned(s: State, tid: Pid)
    requires NothingKept(s) && tid in s.reg.threads
    ensures Unsigned(s, Pick(s, tid))
  {
    var to := s.reg.threads[tid].vtid;
    var s1 := if s.focus.lastVtid != Some(to) then Emit(s, Schedule(s.focus.lastVtid, to)) else s;
    var s2 := Did(s1.(focus := s1.focus.(lastVtid := Some(to), current := Some(tid))), Turn(to));
    DeliveredPush(s.log.acts, Turn(to));
    ResumeUnsigned(s2, tid);
    hide ResumeThread, Delivered;
  }

  lemma {:induction false} ScheduleUnsigned(s: State)
    requires NothingKept(s)
    ensures Unsigned(s, ScheduleNext(s))
    decreases |s.q.runnable|
  {
    if s.q.runnable != [] {
      var tid := s.q.runnable[0];
      ScheduleUnsigned(PopRunnable(s));
      if tid in s.reg.threads { PickUnsigned(PopRunnable(s), tid); }
      hide Pick, Delivered;
    }
  }

  lemma WakeUnsigned(s: State, names: map<Pid, Thread>, addr: Addr, val: u64)
    requires NothingKept(s)
    ensures Unsigned(s, Wake(s, names, addr, val))
  {
    var woken := WakeSplit(s, addr, val).woken;
    DeliveredWoken(s.log.acts, Unparks(names, woken, addr));
    hide SplitUpTo, SetQueue, Elems, Delivered;
  }

  lemma AnswerUnsigned(s: State, p: Pid, cmd: nat, n: nat)
    requires NothingKept(s)
    ensures Unsigned(s, AnswerWake(s, p, cmd, n))
  {
    DeliveredPush(s.log.acts, Skip(VtidOf(s, p), SYS_FUTEX, n));
    hide Delivered;
  }

  lemma CarryOutUnsigned(s: State, p: Pid, cmd: nat, plan: FutexPlan)
    requires NothingKept(s)
    ensures Unsigned(s, CarryOut(s, p, cmd, plan))
  {
    match plan {
      case PassThrough =>
      case ParkOn(addr) =>
        DeliveredPush(s.log.acts, Skip(VtidOf(s, p), SYS_FUTEX, 0));
        DeliveredPush(s.log.acts + [Skip(VtidOf(s, p), SYS_FUTEX, 0)], Park(VtidOf(s, p), addr));
        hide Delivered;
      case WakeOn(addr, val) =>
        hide Wake, WakeCount, AnswerWake, Delivered;
        WakeUnsigned(s, s.reg.threads, addr, val);
        AnswerUnsigned(WakeAt(s, addr, val), p, cmd, WakeCount(s, addr, val));
      case RequeueOn(addr, val, val2) =>
        hide Wake, WakeCount, AnswerWake, Delivered;
        WakeUnsigned(s, s.reg.threads, addr, val);
        var u := WakeAt(s, addr, val);
        WakeUnsigned(u, u.reg.threads, addr, val2);
        AnswerUnsigned(WakeAt(u, addr, val2), p, cmd, WakeCount(s, addr, val) + WakeCount(u, addr, val2));
    }
  }

  lemma WriteUnsigned(s: State, p: Pid, addr: Addr, data: Data, writable: bool)
    requires NothingKept(s)
    ensures Unsigned(s, WriteMem(s, p, addr, data, writable))
  {
    DeliveredPush(s.log.acts, Write(VtidOf(s, p), addr, data));
    hide Delivered;
  }

  lemma SkipUnsigned(s: State, p: Pid, syscall: nat, retval: nat)
    requires NothingKept(s)
    ensures Unsigned(s, SkipSyscall(s, p, syscall, retval))
  {
    DeliveredPush(s.log.acts, Skip(VtidOf(s, p), syscall, retval));
    hide Delivered;
  }

  lemma GetRandomUnsigned(s: State, p: Pid, regs: Regs, mem: Memory)
    requires NothingKept(s)
    ensures Unsigned(s, InterceptGetRandom(s, p, regs, mem))
  {
    hide Recorder.Filled, Recorder.Hex, Prng.WordAfter, Recorder.DrawsFor, Delivered;
    var buflen := if regs.rsi < GETRANDOM_MAX then regs.rsi else GETRANDOM_MAX;
    var bytes := Recorder.Filled(s.dev.rng, buflen);
    var s1 := s.(dev := s.dev.(rng := Prng.WordAfter(s.dev.rng, Recorder.DrawsFor(buflen))));
    var s2 := if buflen > 0 then WriteMem(s1, p, regs.rdi, Random(bytes), mem.writable) else s1;
    WriteUnsigned(s1, p, regs.rdi, Random(bytes), mem.writable);
    SkipUnsigned(s2, p, SYS_GETRANDOM, buflen);
    hide WriteMem, SkipSyscall;
  }

  lemma ClockUnsigned(s: State, p: Pid, regs: Regs, mem: Memory)
    requires NothingKept(s)
    ensures Unsigned(s, InterceptClockGettime(s, p, regs, mem)) && Unsigned(s, InterceptGetTimeOfDay(s, p, regs, mem))
  {
    hide Clock.Read, Clock.NextTick, Delivered;
    var clk := AsI32(regs.rdi);
    var r := Clock.Read(s.dev.tick, clk);
    var u := s.(dev := s.dev.(tick := Clock.NextTick(s.dev.tick, clk)));
    WriteUnsigned(u, p, regs.rsi, Time(r.sec, r.nsec), mem.writable);
    SkipUnsigned(WriteMem(u, p, regs.rsi, Time(r.sec, r.nsec), mem.writable), p, SYS_CLOCK_GETTIME, 0);
    var w := Clock.Read(s.dev.tick, Clock.CLOCK_REALTIME);
    WriteUnsigned(s, p, regs.rdi, Time(w.sec, w.nsec / 1_000), mem.writable);
    SkipUnsigned(WriteMem(s, p, regs.rdi, Time(w.sec, w.nsec / 1_000), mem.writable), p, SYS_GETTIMEOFDAY, 0);
    hide WriteMem, SkipSyscall;
  }

  /** The state after the interception is one of these. */
  lemma EntryCases(s: State, p: Pid, regs: Regs, mem: Memory) returns (passed: State)
    ensures var t := OnSyscallEntry(s, p, regs, mem);
            || t == InterceptGetRandom(s, p, regs, mem) || t == InterceptClockGettime(s, p, regs, mem)
            || t == InterceptGetTimeOfDay(s, p, regs, mem) || t == CarryOut(s, p, FutexCmd(regs), PlanFutex(s, p, regs, mem))
            || t == passed
    ensures passed.calls.sigPending == s.calls.sigPending && passed.log.acts == s.log.acts && passed.reg == s.reg
    ensures passed.outcome == s.outcome
  {
    hide InterceptGetRandom, InterceptClockGettime, InterceptGetTimeOfDay, CarryOut, PlanFutex;
    var nr := regs.origRax;
    passed := if nr == SYS_EXIT_GROUP || nr == SYS_CLONE || nr == SYS_CLONE3 then OnSyscallEntry(s, p, regs, mem)
              else Emit(s, Syscall(nr, Pass));
  }

  lemma InterceptedIs(s: State, p: Pid, op: SyscallOp)
    ensures op.Entry? ==> Intercepted(s, p, op) == OnSyscallEntry(s, p, op.regs, op.mem)
    ensures op.Exit? ==> Intercepted(s, p, op) == OnSyscallExit(s, p)
    ensures op.NoInfo? ==> Intercepted(s, p, op) == s
  {
    hide OnSyscallEntry, OnSyscallExit;
  }

  lemma PassedUnsigned(s: State, passed: State)
    requires NothingKept(s) && passed.calls.sigPending == s.calls.sigPending && passed.log.acts == s.log.acts
    ensures Unsigned(s, passed)
  {
    hide Delivered;
  }

  lemma ReturnUnsigned(s: State, p: Pid)
    requires NothingKept(s)
    ensures Unsigned(s, OnSyscallExit(s, p)) && Unsigned(s, s)
  {
    if p in s.calls.pending {
      DeliveredPush(s.log.acts, Return(VtidOf(s, p), s.calls.pending[p].syscall, s.calls.pending[p].retval));
    }
    hide Delivered;
  }

  lemma InterceptedUnsigned(s: State, p: Pid, op: SyscallOp)
    requires NothingKept(s)
    ensures Unsigned(s, Intercepted(s, p, op))
  {
    hide *;
    InterceptedIs(s, p, op);
    ReturnUnsigned(s, p);
    if op.Entry? {
      var regs, mem := op.regs, op.mem;
      var passed := EntryCases(s, p, regs, mem);
      PassedUnsigned(s, passed);
      CarryOutUnsigned(s, p, FutexCmd(regs), PlanFutex(s, p, regs, mem));
      GetRandomUnsigned(s, p, regs, mem);
      ClockUnsigned(s, p, regs, mem);
    }
  }

  lemma SyscallUnsigned(s: State, p: Pid, op: SyscallOp)
    requires NothingKept(s)
    ensures Unsigned(s, HandleSyscall(s, p, op))
  {
    HandleSyscallCases(s, p, op);
    InterceptedUnsigned(s, p, op);
    var t := Intercepted(s, p, op);
    hide HandleSyscall, Intercepted, ScheduleNext, Parks, Delivered;
    ResumeUnsigned(t, p);
    ScheduleUnsigned(if t.focus.current == Some(p) then PushRunnable(SetCurrent(t, None), p) else t);
    hide ResumeThread, ResumeCurrent;
  }

  lemma RegisterUnsigned(s: State, c: Pid, info: CloneInfo)
    requires NothingKept(s)
    ensures Unsigned(s, Register(s, c, info))
  {
    var e := Enrol(s, c, Thread(s.reg.vtidNext, info.childTid, info.flags, HasCloneThread(info.flags)));
    ResumeUnsigned(e.(q := e.q.(stoppedPending := e.q.stoppedPending - {c})), c);
    hide Release, Delivered, HasCloneThread;
  }

  lemma CloneUnsigned(s: State, p: Pid, c: Pid)
    requires NothingKept(s)
    ensures Unsigned(s, HandleClone(s, p, c))
  {
    var e, info := HandleCloneCases(s, p, c);
    RegisterUnsigned(e, c, info);
    ResumeUnsigned(Register(e, c, info), p);
    hide Register, Continue, HandleClone, Delivered;
  }

  lemma DeathUnsigned(s: State, p: Pid)
    requires NothingKept(s)
    ensures Unsigned(s, HandleDeath(s, p))
  {
    var record := s.focus.current == Some(p);
    RetireUnsigned(s, p, record);
    var t := OnThreadExit(s, p, record);
    assert Unsigned(s, t) by {
      assert s.calls.sigPending - {p} == map[];
      hide Retire, Purge, Without, Delivered;
    }
    ScheduleUnsigned(SetCurrent(t, None));
    hide OnThreadExit, ScheduleNext, Delivered;
  }

  lemma RetireUnsigned(s: State, p: Pid, record: bool)
    requires NothingKept(s)
    ensures Unsigned(s, Retire(s, p, record))
  {
    if p in s.reg.threads {
      var t := s.reg.threads[p];
      var s1 := s.(reg := s.reg.(threads := s.reg.threads - {p}));
      WakeUnsigned(s1, s.reg.threads, t.childTid, 1);
      var s2 := if t.childTid != 0 && HasClearTid(t.flags) then Wake(s1, s.reg.threads, t.childTid, 1) else s1;
      DeliveredPush(s2.log.acts, Died(t.vtid));
    }
    hide Wake, HasClearTid, Delivered;
  }

  lemma FinishUnsigned(s: State)
    requires NothingKept(s) && s.focus.frames != []
    ensures Unsigned(s, FinishAwait(s))
  {
    var f := s.focus.frames[|s.focus.frames| - 1];
    var e := s.(q := s.q.(pendingStart := s.q.pendingStart - {f.child}));
    ResumeUnsigned(e, f.child);
    var t := Release(e, f.child);
    assert t.focus == s.focus;
    ResumeUnsigned(t.(focus := t.focus.(frames := t.focus.frames[..|t.focus.frames| - 1])), f.parent);
    hide Release, Continue, Delivered;
  }

  lemma AttachUnsigned(s: State, p: Pid)
    requires NothingKept(s)
    ensures Unsigned(s, HandleSignalStop(s, p, 19))
  {
    ResumeUnsigned(s, p);
    ResumeUnsigned(s.(q := s.q.(pendingStart := s.q.pendingStart - {p})), p);
    hide ResumeThread, Release, Delivered;
  }

  lemma DeliverUnsigned(s: State, st: Status)
    requires NothingKept(s)
    ensures var d := Deliver(s, st); NothingKept(d) && d.log == s.log && d.focus == s.focus
  {
  }

  lemma TaskUnsigned(s: State, r: Pid, task: Task)
    requires NothingKept(s)
    ensures var d := SetTask(s, r, task); NothingKept(d) && d.log == s.log
  {
  }

  lemma SameLog(s: State, d: State, t: State)
    requires d.log == s.log && Unsigned(d, t)
    ensures Unsigned(s, t)
  {
    hide Delivered;
  }

  lemma EndUnsigned(s: State, st: Status)
    requires NothingKept(s) && !Awaited(s, st) && (st.Exited? || st.Killed?) && st.pid == s.reg.init
    ensures Unsigned(s, Inner(s, st))
  {
    hide Awaited, Delivered;
  }

  lemma InnerUnsigned(s: State, st: Status)
    requires NothingKept(s) && !(st.SignalStop? && st.sig != 19)
    ensures Unsigned(s, Inner(s, st))
  {
    InnerCases(s, st);
    var d := Deliver(s, st);
    DeliverUnsigned(s, st);
    var t := Inner(s, st);
    if st == Idle { assert Unsigned(s, s); }
    hide *;
    if Awaited(s, st) {
      FinishUnsigned(d);
      SameLog(s, d, t);
    } else {
      match st {
        case SyscallStop(r, op) => d := SetTask(s, r, Held); TaskUnsigned(s, r, Held); SyscallUnsigned(d, r, op); SameLog(s, d, t);
        case OtherEvent(r) => d := SetTask(s, r, Held); TaskUnsigned(s, r, Held); ResumeUnsigned(d, r); SameLog(s, d, t);
        case SignalStop(r, sig) => d := SetTask(s, r, Held); TaskUnsigned(s, r, Held); AttachUnsigned(d, r); SameLog(s, d, t);
        case CloneEvent(r, c) => CloneUnsigned(d, r, c); SameLog(s, d, t);
        case ExitEvent(r) => d := SetTask(s, r, ExitStop); TaskUnsigned(s, r, ExitStop); ResumeUnsigned(d, r); SameLog(s, d, t);
        case Exited(r, _) => DeadUnsigned(s, st);
        case Killed(r, _) => DeadUnsigned(s, st);
        case Idle =>
      }
    }
  }

  lemma DeadUnsigned(s: State, st: Status)
    requires NothingKept(s) && !Awaited(s, st) && (st.Exited? || st.Killed?)
    ensures Unsigned(s, Inner(s, st))
  {
    InnerCases(s, st);
    if st.pid == s.reg.init {
      EndUnsigned(s, st);
    } else {
      var d := s.(kern := s.kern.(task := s.kern.task - {st.pid}));
      DeathUnsigned(d, st.pid);
      SameLog(s, d, HandleDeath(d, st.pid));
    }
    hide Inner, HandleDeath, Awaited, Delivered;
  }

  lemma StepUnsigned(s: State, st: Status)
    requires NothingKept(s) && s.outcome.InProgress? && !(st.SignalStop? && st.sig != 19)
    ensures Unsigned(s, Step(s, st))
  {
    InnerUnsigned(s, st);
    var t := Inner(s, st);
    ScheduleUnsigned(t);
    hide Inner, ScheduleNext, Delivered;
  }

  // ----- the directory

  function Named(reg: Registry): Directory { Directory(map p | p in reg.threads :: reg.threads[p].vtid, reg.vtidNext) }

  lemma StepLearns(s: State, st: Status)
    requires Inv(s) && s.outcome.InProgress? && Legal(s, st) && !InitDies(s, st)
    ensures Named(Step(s, st).reg) == Learn(Named(s.reg), st)
  {
    hide *;
    match st {
      case CloneEvent(p, c) =>
        Joins.NextId(s, p, c);
        ChildNamed(s, p);
        CloneLearns(s.reg, Step(s, st).reg, st, Confluence.ChildOf(s, p));
      case Exited(p, _) => DeathsSpare(s, st);
      case Killed(p, _) => DeathsSpare(s, st);
      case _ => Joins.RegistryStays(s, st); NothingLearnt(s.reg, st);
    }
  }

  lemma ChildNamed(s: State, p: Pid)
    ensures Confluence.ChildOf(s, p).vtid == s.reg.vtidNext
  {
  }

  lemma CloneLearns(reg: Registry, next: Registry, st: Status, thread: Thread)
    requires st.CloneEvent? && thread.vtid == reg.vtidNext
    requires next == reg.(threads := reg.threads[st.child := thread], vtidNext := reg.vtidNext + 1)
    ensures Named(next) == Learn(Named(reg), st)
  {
    assert Named(next).names == Named(reg).names[st.child := reg.vtidNext];
  }

  lemma DeathLearns(reg: Registry, next: Registry, st: Status)
    requires (st.Exited? || st.Killed?) && next == reg.(threads := reg.threads - {st.pid})
    ensures Named(next) == Learn(Named(reg), st)
  {
    assert Named(next).names == Named(reg).names - {st.pid};
  }

  lemma NothingLearnt(reg: Registry, st: Status)
    requires !st.CloneEvent? && !st.Exited? && !st.Killed?
    ensures Named(reg) == Learn(Named(reg), st)
  {
    hide Named;
  }

  lemma DeathsSpare(s: State, st: Status)
    requires Inv(s) && s.outcome.InProgress? && Legal(s, st) && (st.Exited? || st.Killed?) && !InitDies(s, st)
    ensures Named(Step(s, st).reg) == Learn(Named(s.reg), st)
  {
    Joins.DeathWakesJoiner(s, st);
    DeathLearns(s.reg, Step(s, st).reg, st);
    hide Step, Inv, Legal, Joins.Forgotten, Joins.Joiner, Named, Learn;
  }

  // ----- over every run

  lemma StepDelivers(s: State, st: Status)
    requires Inv(s) && NothingKept(s) && s.outcome.InProgress? && Legal(s, st)
    ensures var t := Step(s, st); NothingKept(t) && Delivered(t.log.acts) == Delivered(s.log.acts) + Posted(Named(s.reg), st)
  {
    if st.SignalStop? && st.sig != 19 {
      var p := st.pid;
      SignalDelivered(s, p, st.sig);
      DeliveredPush(s.log.acts, Resume(Some(s.reg.threads[p].vtid), Some(st.sig)));
      hide Step, Inv, Delivered;
    } else {
      StepUnsigned(s, st);
      hide Step, Inv, Delivered;
      assert Delivered(s.log.acts) + [] == Delivered(s.log.acts);
    }
  }

  lemma StartDelivers(init: Pid, seed: u64)
    ensures var s := Start(init, seed); NothingKept(s) && Delivered(s.log.acts) == [] && Named(s.reg) == Directory(map[init := 0], 1)
  {
    var b := Boot(init, seed);
    ScheduleUnsigned(b);
    Joins.ScheduleRegistry(b);
    hide ScheduleNext, Prng.Seeded;
    assert Named(b.reg).names == map[init := 0];
  }

  /** Over every run: the signals resumes carried are the signals tasks stopped with, each once, in order, each to the
      one that stopped. No other resume carries one, and none is kept back. */
  lemma {:induction false} RunDelivers(init: Pid, seed: u64, sts: seq<Status>)
    requires LegalRun(Start(init, seed), sts)
    requires sts != [] ==> Run(Start(init, seed), sts[..|sts| - 1]).outcome.InProgress?
    ensures var t := Run(Start(init, seed), sts);
            && Delivered(t.log.acts) == Letters(init, sts) && NothingKept(t)
            && (t.outcome.InProgress? ==> Named(t.reg) == Known(init, sts))
  {
    hide Start, Step, Inv, Legal, Delivered, Posted, Learn, Named, NothingKept, Sound;
    var s := Start(init, seed);
    if sts == [] {
      StartDelivers(init, seed);
    } else {
      LegalParts(s, sts);
      var pre, st := sts[..|sts| - 1], sts[|sts| - 1];
      if pre != [] { StillGoing(s, pre); }
      RunDelivers(init, seed, pre);
      RunSound(init, seed, pre);
      SoundParts(Run(s, pre));
      StepDelivers(Run(s, pre), st);
      if InitDies(Run(s, pre), st) {
        Joins.EndsRun(Run(s, pre), st);
      } else {
        StepLearns(Run(s, pre), st);
      }
    }
  }

  lemma StillGoing(s: State, sts: seq<Status>)
    requires sts != [] && Run(s, sts).outcome.InProgress?
    ensures Run(s, sts[..|sts| - 1]).outcome.InProgress?
  {
    var t, last := Run(s, sts[..|sts| - 1]), sts[|sts| - 1];
    RunLast(s, sts);
    if !t.outcome.InProgress? { StepOver(t, last); }
    hide Step, Run;
  }

  // ----- a signal for a thread that is not current

  /** A signal stop of a thread that is not the current one, in every state: the thread stays stopped and the signal is
      kept, in place of any kept before; the scheduler goes on only if it was idle. */
  lemma SignalKept(s: State, p: Pid, sig: Signal)
    requires s.outcome.InProgress? && IsScheduled(s, p) && s.focus.current != Some(p) && sig != 19
    ensures var kept := s.(kern := s.kern.(task := s.kern.task[p := Held]), calls := s.calls.(sigPending := s.calls.sigPending[p := sig]));
            Step(s, SignalStop(p, sig)) == if s.focus.current == None && s.focus.frames == [] then ScheduleNext(kept) else kept
  {
    var st := SignalStop(p, sig);
    StepIs(s, st);
    InnerCases(s, st);
    assert !Awaited(s, st);
    hide Step, Inner, ScheduleNext;
  }

  /** From `s` to `t` the signal kept for `p` is kept on, or a resume of `p` carries it and it is no longer kept, or the run
      fails; no signal comes to be kept for `p`, and the run does not end well. */
  ghost predicate Carries(s: State, t: State, p: Pid) {
    && s.log.acts <= t.log.acts && VtidOf(t, p) == VtidOf(s, p) && (p in s.reg.threads ==> p in t.reg.threads)
    && (s.outcome.Failed? ==> t.outcome.Failed?) && (t.outcome.Done? ==> s.outcome.Done?)
    && (p !in s.calls.sigPending ==> p !in t.calls.sigPending)
    && (p in s.calls.sigPending ==>
          || t.outcome.Failed?
          || (p in t.calls.sigPending && t.calls.sigPending[p] == s.calls.sigPending[p])
          || (p !in t.calls.sigPending && Sent(s.log.acts, t.log.acts, VtidOf(s, p), s.calls.sigPending[p])))
  }

  /** Among the acts added is a resume of `tid` with the signal. */
  ghost predicate Sent(before: seq<Act>, after: seq<Act>, tid: Option<Vtid>, sig: Signal) {
    exists i :: |before| <= i < |after| && after[i] == Resume(tid, Some(sig))
  }

  lemma CarriesChain(s: State, t: State, u: State, p: Pid)
    requires Carries(s, t, p) && Carries(t, u, p)
    ensures Carries(s, u, p)
  {
    if p in s.calls.sigPending {
      var tid, sig := VtidOf(s, p), s.calls.sigPending[p];
      hide VtidOf;
      if Sent(s.log.acts, t.log.acts, tid, sig) {
        var i :| |s.log.acts| <= i < |t.log.acts| && t.log.acts[i] == Resume(tid, Some(sig));
        assert u.log.acts[i] == t.log.acts[i];
      }
      if Sent(t.log.acts, u.log.acts, tid, sig) {
        var i :| |t.log.acts| <= i < |u.log.acts| && u.log.acts[i] == Resume(tid, Some(sig));
        assert |s.log.acts| <= i;
      }
    }
  }

  /** Nothing about signals changed. */
  ghost predicate Untouched(s: State, t: State, p: Pid) {
    && s.log.acts <= t.log.acts && VtidOf(t, p) == VtidOf(s, p) && (p in s.reg.threads ==> p in t.reg.threads)
    && (s.outcome.Failed? ==> t.outcome.Failed?) && (t.outcome.Done? ==> s.outcome.Done?)
    && (p in t.calls.sigPending <==> p in s.calls.sigPending)
    && (p in s.calls.sigPending ==> t.calls.sigPending[p] == s.calls.sigPending[p])
  }

  lemma UntouchedCarries(s: State, t: State, p: Pid)
    requires Untouched(s, t, p)
    ensures Carries(s, t, p)
  {
    hide VtidOf, Sent;
  }

  lemma ResumeCarries(s: State, r: Pid, p: Pid)
    ensures Carries(s, ResumeThread(s, r), p) && Carries(s, ResumeCurrent(s, r), p)
    ensures Carries(s, Continue(s, r), p) && Carries(s, Release(s, r), p)
  {
    var t := ResumeThread(s, r);
    if r == p && p in s.calls.sigPending && !t.outcome.Failed? {
      assert t.log.acts == s.log.acts + [Resume(VtidOf(s, p), Some(s.calls.sigPending[p]))];
      assert t.log.acts[|s.log.acts|] == Resume(VtidOf(s, p), Some(s.calls.sigPending[p]));
      assert Sent(s.log.acts, t.log.acts, VtidOf(s, p), s.calls.sigPending[p]);
    }
    assert Carries(s, t, p);
    hide ResumeThread, Sent;
  }

  lemma PickCarries(s: State, tid: Pid, p: Pid)
    requires tid in s.reg.threads
    ensures Carries(s, Pick(s, tid), p)
  {
    var to := s.reg.threads[tid].vtid;
    var s1 := if s.focus.lastVtid != Some(to) then Emit(s, Schedule(s.focus.lastVtid, to)) else s;
    var s2 := Did(s1.(focus := s1.focus.(lastVtid := Some(to), current := Some(tid))), Turn(to));
    ResumeCarries(s2, tid, p);
    hide ResumeThread, Carries;
    UntouchedCarries(s, s2, p);
    CarriesChain(s, s2, ResumeThread(s2, tid), p);
  }

  lemma {:induction false} ScheduleCarries(s: State, p: Pid)
    ensures Carries(s, ScheduleNext(s), p)
    decreases |s.q.runnable|
  {
    if s.q.runnable == [] {
      UntouchedCarries(s, ScheduleNext(s), p);
      hide ScheduleNext;
    } else {
      var tid := s.q.runnable[0];
      var s1 := PopRunnable(s);
      UntouchedCarries(s, s1, p);
      ScheduleCarries(s1, p);
      if tid in s.reg.threads { PickCarries(s1, tid, p); }
      hide Pick, Carries;
      CarriesChain(s, s1, ScheduleNext(s), p);
    }
  }

  lemma CarryOutUntouched(s: State, r: Pid, cmd: nat, plan: FutexPlan, p: Pid)
    ensures Untouched(s, CarryOut(s, r, cmd, plan), p)
  {
    match plan {
      case PassThrough =>
      case ParkOn(addr) =>
      case WakeOn(addr, val) => WakeUntouched(s, s.reg.threads, addr, val); hide Wake, WakeCount;
      case RequeueOn(addr, val, val2) =>
        WakeUntouched(s, s.reg.threads, addr, val);
        var u := WakeAt(s, addr, val);
        WakeUntouched(u, u.reg.threads, addr, val2);
        hide Wake, WakeCount;
    }
  }

  lemma WakeUntouched(s: State, names: map<Pid, Thread>, addr: Addr, val: u64)
    ensures var t := Wake(s, names, addr, val);
            t.calls == s.calls && t.reg == s.reg && t.outcome == s.outcome && s.log.acts <= t.log.acts
  {
    hide SplitUpTo, SetQueue, Elems;
  }

  lemma InterceptedUntouched(s: State, r: Pid, op: SyscallOp, p: Pid)
    ensures Untouched(s, Intercepted(s, r, op), p)
  {
    hide *;
    InterceptedIs(s, r, op);
    ReturnUntouched(s, r, p);
    if op.Entry? {
      var passed := EntryCases(s, r, op.regs, op.mem);
      PassedUntouched(s, passed, p);
      CarryOutUntouched(s, r, FutexCmd(op.regs), PlanFutex(s, r, op.regs, op.mem), p);
      GetRandomUntouched(s, r, op.regs, op.mem, p);
      ClockUntouched(s, r, op.regs, op.mem, p);
    }
  }

  lemma PassedUntouched(s: State, passed: State, p: Pid)
    requires passed.calls.sigPending == s.calls.sigPending && passed.log.acts == s.log.acts && passed.reg == s.reg
    requires passed.outcome == s.outcome
    ensures Untouched(s, passed, p)
  {
  }

  lemma ReturnUntouched(s: State, r: Pid, p: Pid)
    ensures Untouched(s, OnSyscallExit(s, r), p) && Untouched(s, s, p)
  {
  }

  lemma GetRandomUntouched(s: State, r: Pid, regs: Regs, mem: Memory, p: Pid)
    ensures Untouched(s, InterceptGetRandom(s, r, regs, mem), p)
  {
    hide Recorder.Filled, Recorder.Hex, Prng.WordAfter, Recorder.DrawsFor;
  }

  lemma ClockUntouched(s: State, r: Pid, regs: Regs, mem: Memory, p: Pid)
    ensures Untouched(s, InterceptClockGettime(s, r, regs, mem), p) && Untouched(s, InterceptGetTimeOfDay(s, r, regs, mem), p)
  {
    hide Clock.Read, Clock.NextTick, AsI32;
  }

  lemma SyscallCarries(s: State, r: Pid, op: SyscallOp, p: Pid)
    ensures Carries(s, HandleSyscall(s, r, op), p)
  {
    HandleSyscallCases(s, r, op);
    InterceptedUntouched(s, r, op, p);
    var t := Intercepted(s, r, op);
    UntouchedCarries(s, t, p);
    hide HandleSyscall, Intercepted, ScheduleNext, Parks;
    ResumeCarries(t, r, p);
    var u := if t.focus.current == Some(r) then PushRunnable(SetCurrent(t, None), r) else t;
    ScheduleCarries(u, p);
    UntouchedCarries(t, u, p);
    UntouchedCarries(t, SetCurrent(t, None), p);
    hide ResumeThread, ResumeCurrent, Carries, Untouched;
    CarriesChain(s, t, ResumeThread(t, r), p);
    CarriesChain(s, t, ResumeCurrent(t, r), p);
    CarriesChain(s, t, u, p);
    CarriesChain(s, u, ScheduleNext(u), p);
    CarriesChain(s, t, SetCurrent(t, None), p);
  }

  lemma RegisterCarries(s: State, c: Pid, info: CloneInfo, p: Pid)
    requires p in s.reg.threads
    ensures Carries(s, Register(s, c, info), p)
  {
    if c !in s.reg.threads {
      var thread := Thread(s.reg.vtidNext, info.childTid, info.flags, HasCloneThread(info.flags));
      var e := Enrol(s, c, thread);
      var f := e.(q := e.q.(stoppedPending := e.q.stoppedPending - {c}));
      UntouchedCarries(s, f, p);
      ResumeCarries(f, c, p);
      hide Release, HasCloneThread;
      var t := Admit(e, c);
      assert Carries(s, t, p) by {
        if c in e.q.stoppedPending { hide Carries; CarriesChain(s, f, Release(f, c), p); } else { UntouchedCarries(s, t, p); }
      }
      UntouchedCarries(t, Emit(t, ThreadCreate(thread.vtid, thread.scheduled)), p);
      hide Admit, Carries;
      CarriesChain(s, t, Emit(t, ThreadCreate(thread.vtid, thread.scheduled)), p);
    } else {
      UntouchedCarries(s, s, p);
    }
  }

  lemma CloneCarries(s: State, r: Pid, c: Pid, p: Pid)
    requires p in s.reg.threads
    ensures Carries(s, HandleClone(s, r, c), p)
  {
    var e, info := HandleCloneCases(s, r, c);
    UntouchedCarries(s, e, p);
    RegisterCarries(e, c, info, p);
    var t := Register(e, c, info);
    ResumeCarries(t, r, p);
    var u := t.(focus := t.focus.(frames := t.focus.frames + [Frame(r, c)]));
    UntouchedCarries(t, u, p);
    hide Register, Continue, HandleClone, Carries;
    CarriesChain(s, e, t, p);
    CarriesChain(s, t, Continue(t, r), p);
    CarriesChain(s, t, u, p);
  }

  lemma DeathCarries(s: State, r: Pid, p: Pid)
    requires p in s.reg.threads && r != p
    ensures Carries(s, HandleDeath(s, r), p)
  {
    var record := s.focus.current == Some(r);
    RetireUntouched(s, r, record, p);
    var t := OnThreadExit(s, r, record);
    assert Untouched(s, t, p) by { hide Retire, Purge, Without; }
    var u := SetCurrent(t, None);
    UntouchedCarries(s, t, p);
    UntouchedCarries(s, u, p);
    ScheduleCarries(u, p);
    hide OnThreadExit, ScheduleNext, Carries, Untouched;
    CarriesChain(s, u, ScheduleNext(u), p);
  }

  lemma RetireUntouched(s: State, r: Pid, record: bool, p: Pid)
    requires p in s.reg.threads && r != p
    ensures Untouched(s, Retire(s, r, record), p)
  {
    if r in s.reg.threads {
      WakeUntouched(s.(reg := s.reg.(threads := s.reg.threads - {r})), s.reg.threads, s.reg.threads[r].childTid, 1);
    }
    hide Wake, HasClearTid;
  }

  lemma FinishCarries(s: State, p: Pid)
    requires s.focus.frames != []
    ensures Carries(s, FinishAwait(s), p)
  {
    var f := s.focus.frames[|s.focus.frames| - 1];
    var e := s.(q := s.q.(pendingStart := s.q.pendingStart - {f.child}));
    UntouchedCarries(s, e, p);
    ResumeCarries(e, f.child, p);
    var t := Release(e, f.child);
    assert t.focus == s.focus;
    var u := t.(focus := t.focus.(frames := t.focus.frames[..|t.focus.frames| - 1]));
    UntouchedCarries(t, u, p);
    ResumeCarries(u, f.parent, p);
    hide Release, Continue, Carries;
    CarriesChain(s, e, t, p);
    CarriesChain(s, t, u, p);
    CarriesChain(s, u, Continue(u, f.parent), p);
  }

  lemma SignalCarries(s: State, r: Pid, sig: Signal, p: Pid)
    requires r != p || sig == 19
    ensures Carries(s, HandleSignalStop(s, r, sig), p)
  {
    ResumeCarries(s, r, p);
    var e := s.(q := s.q.(pendingStart := s.q.pendingStart - {r}));
    UntouchedCarries(s, e, p);
    ResumeCarries(e, r, p);
    CarriesChain(s, e, Release(e, r), p);
    var t := HandleSignalStop(s, r, sig);
    if sig != 19 || (s.focus.current != Some(r) && r !in s.q.pendingStart) {
      assert Untouched(s, t, p) by { hide ResumeThread, Release; }
      UntouchedCarries(s, t, p);
    }
    hide ResumeThread, Release, Carries;
  }

  lemma DeliverUntouched(s: State, st: Status, p: Pid)
    ensures var d := Deliver(s, st); Untouched(s, d, p) && d.focus == s.focus && d.reg == s.reg
  {
  }

  lemma TaskUntouched(s: State, r: Pid, task: Task, p: Pid)
    ensures Untouched(s, SetTask(s, r, task), p) && SetTask(s, r, task).reg == s.reg
  {
  }

  lemma DyingUntouched(s: State, r: Pid, p: Pid)
    ensures Untouched(s, s.(kern := s.kern.(task := s.kern.task - {r})), p)
  {
  }

  lemma InnerCarries(s: State, st: Status, p: Pid)
    requires p in s.reg.threads
    requires !(st.SignalStop? && st.pid == p && st.sig != 19) && !((st.Exited? || st.Killed?) && st.pid in {p, s.reg.init})
    ensures Carries(s, Inner(s, st), p)
  {
    InnerCases(s, st);
    var d := Deliver(s, st);
    DeliverUntouched(s, st, p);
    if st == Idle { assert Untouched(s, s, p); }
    hide *;
    if Awaited(s, st) {
      FinishCarries(d, p);
      UntouchedCarries(s, d, p);
      CarriesChain(s, d, Inner(s, st), p);
    } else {
      match st {
        case SyscallStop(r, op) => d := SetTask(s, r, Held); TaskUntouched(s, r, Held, p); SyscallCarries(d, r, op, p);
        case OtherEvent(r) => d := SetTask(s, r, Held); TaskUntouched(s, r, Held, p); ResumeCarries(d, r, p);
        case SignalStop(r, sig) => d := SetTask(s, r, Held); TaskUntouched(s, r, Held, p); SignalCarries(d, r, sig, p);
        case CloneEvent(r, c) => CloneCarries(d, r, c, p);
        case ExitEvent(r) => d := SetTask(s, r, ExitStop); TaskUntouched(s, r, ExitStop, p); ResumeCarries(d, r, p);
        case Exited(r, _) => DeadCarries(s, st, p); d := s; UntouchedSelf(s, p);
        case Killed(r, _) => DeadCarries(s, st, p); d := s; UntouchedSelf(s, p);
        case Idle => d := s; UntouchedCarries(s, s, p);
      }
      UntouchedCarries(s, d, p);
      CarriesChain(s, d, Inner(s, st), p);
    }
  }

  lemma UntouchedSelf(s: State, p: Pid)
    ensures Untouched(s, s, p)
  {
  }

  lemma DeadCarries(s: State, st: Status, p: Pid)
    requires p in s.reg.threads && !Awaited(s, st) && (st.Exited? || st.Killed?) && st.pid !in {p, s.reg.init}
    ensures Carries(s, Inner(s, st), p)
  {
    InnerCases(s, st);
    var d := s.(kern := s.kern.(task := s.kern.task - {st.pid}));
    DyingUntouched(s, st.pid, p);
    UntouchedCarries(s, d, p);
    DeathCarries(d, st.pid, p);
    CarriesChain(s, d, HandleDeath(d, st.pid), p);
    hide Inner, HandleDeath, Awaited, Carries, Untouched;
  }

  /** In every state, whatever is reported next but another signal stop or the death of the thread, or the end of the run:
      a kept signal is kept on until a resume of its thread, and that resume carries it, once. */
  lemma KeptUntilResumed(s: State, st: Status, p: Pid)
    requires s.outcome.InProgress? && p in s.reg.threads
    requires !(st.SignalStop? && st.pid == p && st.sig != 19) && !((st.Exited? || st.Killed?) && st.pid in {p, s.reg.init})
    ensures Carries(s, Step(s, st), p)
  {
    InnerCarries(s, st, p);
    var t := Inner(s, st);
    ScheduleCarries(t, p);
    hide Inner, ScheduleNext, Carries;
    if Tail(t) != t { CarriesChain(s, t, ScheduleNext(t), p); }
  }
}
