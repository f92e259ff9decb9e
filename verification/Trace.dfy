/** The trace every run writes, as the language of a small automaton: numbers, thread ids, schedule
    events, exits and futex events all fit together (src/runtime/supervisor.rs:422-428, 473-498, 506-517, 776-797). */
module Trace {
  import opened Base
  import opened Machine
  import opened Invariants
  import Clock
  import Prng
  import Recorder

  /** What a reader of the trace knows after a prefix of it. */
  datatype Summary = Summary(
    number: nat,           // the number of the last record
    created: nat,          // thread_create events so far
    threads: set<Vtid>,    // ids created as scheduled threads, and the init's
    lastTo: Option<Vtid>,  // the last `schedule.to`
    exited: set<Vtid>,     // ids of thread_exit events
    ended: bool)

  const Beginning := Summary(0, 0, {0}, None, {}, false)

  /** Whether `rec` may come next. */
  function Read(sum: Summary, rec: Record): Option<Summary> {
    if sum.ended || rec.number != sum.number + 1 then None
    else
      var next := sum.(number := rec.number);
      match rec.event
      case Schedule(from, to) =>
        if from == sum.lastTo && from != Some(to) && to in sum.threads && to !in sum.exited
        then Some(next.(lastTo := Some(to))) else None
      case ThreadCreate(tid, scheduled) =>
        if tid == sum.created + 1
        then Some(next.(created := tid, threads := if scheduled then sum.threads + {tid} else sum.threads)) else None
      case ThreadExit(tid) =>
        if sum.lastTo == Some(tid) && tid !in sum.exited then Some(next.(exited := sum.exited + {tid})) else None
      case Futex(_, _, caller) =>
        if caller.Some? && caller.value <= sum.created && caller.value !in sum.exited
           && (caller.value in sum.threads ==> caller == sum.lastTo)
        then Some(next) else None
      case RunExit(_) => Some(next.(ended := true))
      case RunSignal(_) => Some(next.(ended := true))
      case _ => Some(next)
  }

  function Scan(trace: seq<Record>): Option<Summary> {
    if trace == [] then Some(Beginning)
    else
      match Scan(trace[..|trace| - 1])
      case None => None
      case Some(sum) => Read(sum, trace[|trace| - 1])
  }

  /** The reader's knowledge is the supervisor's. */
  ghost predicate Knows(sum: Summary, number: nat, reg: Registry, lastVtid: Option<Vtid>) {
    && sum.number == number && sum.created + 1 == reg.vtidNext && sum.lastTo == lastVtid && !sum.ended
    && (forall p :: p in reg.threads ==>
          var t := reg.threads[p];
          t.vtid <= sum.created && t.vtid !in sum.exited && (t.scheduled <==> t.vtid in sum.threads))
    && (forall v :: v in sum.threads || v in sum.exited ==> v <= sum.created)
    && (sum.lastTo.Some? ==> sum.lastTo.value in sum.threads)
  }

  ghost predicate ReadSoFar(trace: seq<Record>, number: nat, reg: Registry, lastVtid: Option<Vtid>) {
    var sum := Scan(trace);
    sum.Some? && Knows(sum.value, number, reg, lastVtid)
  }

  ghost predicate UpToDate(s: State) { ReadSoFar(s.log.trace, s.log.lastNumber, s.reg, s.focus.lastVtid) }

  /** The trace is well formed, and while the run goes on its reader is up to date. */
  ghost predicate Readable(s: State) {
    Scan(s.log.trace).Some? && (s.outcome.InProgress? ==> UpToDate(s))
  }

  // ----- what one event does to the reader

  lemma ScanEmit(s: State, e: Event)
    requires Scan(s.log.trace).Some?
    ensures Scan(Emit(s, e).log.trace) == Read(Scan(s.log.trace).value, Record(s.log.lastNumber + 1, e))
  {
    var t := Emit(s, e).log.trace;
    assert t[..|t| - 1] == s.log.trace;
  }

  /** Events that tell the reader nothing but their number. */
  predicate Plain(e: Event) {
    e.Syscall? || e.GetRandom? || e.ClockGettime? || e.GetTimeOfDay?
  }

  lemma EmitPlain(s: State, e: Event)
    requires UpToDate(s) && Plain(e)
    ensures UpToDate(Emit(s, e))
  {
    ScanEmit(s, e);
  }

  /** A futex event names a live thread, and a scheduled one only if it is the last one scheduled. */
  lemma EmitFutex(s: State, p: Pid, cmd: nat, kind: FutexKind)
    requires UpToDate(s) && p in s.reg.threads
    requires IsScheduled(s, p) ==> s.focus.lastVtid == VtidOf(s, p)
    ensures UpToDate(TraceFutex(s, p, cmd, kind))
  {
    var e := Futex(cmd, kind, VtidOf(s, p));
    hide Scan, Read, Knows, VtidIn;
    ScanEmit(s, e);
    ReadFutex(Scan(s.log.trace).value, s.log.lastNumber, s.reg, s.focus.lastVtid, p, cmd, kind);
  }

  lemma ReadFutex(sum: Summary, number: nat, reg: Registry, lastVtid: Option<Vtid>, p: Pid, cmd: nat, kind: FutexKind)
    requires Knows(sum, number, reg, lastVtid) && p in reg.threads
    requires reg.threads[p].scheduled ==> lastVtid == VtidIn(reg.threads, p)
    ensures var r := Read(sum, Record(number + 1, Futex(cmd, kind, VtidIn(reg.threads, p))));
            r.Some? && Knows(r.value, number + 1, reg, lastVtid)
  {
  }

  lemma PickReads(s: State, tid: Pid)
    requires UpToDate(s) && IsScheduled(s, tid)
    ensures UpToDate(Pick(s, tid))
  {
    ScanEmit(s, Schedule(s.focus.lastVtid, s.reg.threads[tid].vtid));
  }

  lemma ScheduleNextReads(s: State)
    requires UpToDate(s) && Partition(s)
    ensures UpToDate(ScheduleNext(s))
  {
    hide Pick, ReadSoFar;
    if s.q.runnable != [] {
      assert s.q.runnable[0] in s.q.runnable;
      ScheduleNextHead(s);
      PickReads(PopRunnable(s), s.q.runnable[0]);
    }
  }

  /** Nothing a reader of the trace could notice. */
  ghost predicate Silent(s: State, t: State) {
    && t.reg == s.reg && t.focus.lastVtid == s.focus.lastVtid
    && t.log.trace == s.log.trace && t.log.lastNumber == s.log.lastNumber
  }

  lemma ReleaseSilent(s: State, c: Pid)
    ensures Silent(s, Release(s, c)) && Release(s, c).focus == s.focus
  {
  }

  lemma ContinueSilent(s: State, p: Pid)
    ensures Silent(s, Continue(s, p))
  {
  }

  /** `t` is `s` with a child enrolled as `thread`, before its thread_create is written. */
  ghost predicate Enrols(s: State, t: State, c: Pid, thread: Thread) {
    && t.reg == s.reg.(vtidNext := s.reg.vtidNext + 1, threads := s.reg.threads[c := thread])
    && t.log.trace == s.log.trace && t.log.lastNumber == s.log.lastNumber && t.focus.lastVtid == s.focus.lastVtid
  }

  lemma EmitCreate(s: State, t: State, c: Pid, thread: Thread)
    requires UpToDate(s) && c !in s.reg.threads && thread.vtid == s.reg.vtidNext && Enrols(s, t, c, thread)
    ensures UpToDate(Emit(t, ThreadCreate(thread.vtid, thread.scheduled)))
  {
    ScanEmit(t, ThreadCreate(thread.vtid, thread.scheduled));
  }

  lemma RegisterShape(s: State, c: Pid, info: CloneInfo, thread: Thread) returns (t: State)
    requires c !in s.reg.threads
    requires thread == Thread(s.reg.vtidNext, info.childTid, info.flags, HasCloneThread(info.flags))
    ensures Enrols(s, t, c, thread)
    ensures Register(s, c, info) == if t.outcome.InProgress? then Emit(t, ThreadCreate(thread.vtid, thread.scheduled)) else t
  {
    var s1 := s.(reg := s.reg.(vtidNext := s.reg.vtidNext + 1, threads := s.reg.threads[c := thread]));
    var e := s1.(q := s1.q.(stoppedPending := s1.q.stoppedPending - {c}));
    ReleaseSilent(e, c);
    hide Release;
    t := if c in s1.q.stoppedPending then Release(e, c) else s1.(q := s1.q.(pendingStart := s1.q.pendingStart + {c}));
  }

  lemma RegisterReads(s: State, c: Pid, info: CloneInfo)
    requires UpToDate(s)
    ensures Readable(Register(s, c, info))
  {
    UpToDateScans(s);
    if c !in s.reg.threads {
      var thread := Thread(s.reg.vtidNext, info.childTid, info.flags, HasCloneThread(info.flags));
      var t := RegisterShape(s, c, info, thread);
      hide Register, ReadSoFar, Scan;
      EmitCreate(s, t, c, thread);
      UpToDateScans(Emit(t, ThreadCreate(thread.vtid, thread.scheduled)));
    }
  }

  /** What a reader sees of a death: the trace as it was, or with the thread's exit. */
  lemma ExitShape(s: State, p: Pid, record: bool)
    requires Identity(s) && p in s.reg.threads
    ensures var t := OnThreadExit(s, p, record); var l := if record then Emit(s, ThreadExit(s.reg.threads[p].vtid)).log else s.log;
            && t.reg == s.reg.(threads := s.reg.threads - {p}) && t.focus == s.focus
            && t.log.trace == l.trace && t.log.lastNumber == l.lastNumber
  {
    ExitEffect(s, p, record);
    WakeSilent(s.(reg := s.reg.(threads := s.reg.threads - {p})), s.reg.threads, s.reg.threads[p].childTid, 1);
    hide Wake, AfterJoinWake, Purge, Without;
  }

  lemma ReadExit(s: State, reg: Registry, p: Pid)
    requires UpToDate(s) && Identity(s) && p in s.reg.threads && s.focus.lastVtid == VtidOf(s, p)
    requires reg == s.reg.(threads := s.reg.threads - {p})
    ensures var l := Emit(s, ThreadExit(s.reg.threads[p].vtid)).log; ReadSoFar(l.trace, l.lastNumber, reg, s.focus.lastVtid)
  {
    ScanEmit(s, ThreadExit(s.reg.threads[p].vtid));
  }

  lemma ReadSilentExit(s: State, reg: Registry, p: Pid)
    requires UpToDate(s) && reg == s.reg.(threads := s.reg.threads - {p})
    ensures ReadSoFar(s.log.trace, s.log.lastNumber, reg, s.focus.lastVtid)
  {
  }

  lemma ExitReads(s: State, p: Pid, record: bool)
    requires UpToDate(s) && Identity(s)
    requires record && p in s.reg.threads ==> s.focus.lastVtid == VtidOf(s, p)
    ensures UpToDate(OnThreadExit(s, p, record))
  {
    hide ReadSoFar, OnThreadExit, Emit, IdentityOf;
    if p in s.reg.threads {
      ExitShape(s, p, record);
      if record { ReadExit(s, OnThreadExit(s, p, record).reg, p); } else { ReadSilentExit(s, OnThreadExit(s, p, record).reg, p); }
    } else {
      StrangerExit(s, p, record);
    }
  }

  lemma StrangerExit(s: State, p: Pid, record: bool)
    requires p !in s.reg.threads
    ensures var t := OnThreadExit(s, p, record); t.reg == s.reg && t.focus == s.focus && t.log == s.log
  {
  }

  lemma WakeSilent(s: State, names: map<Pid, Thread>, addr: Addr, val: u64)
    ensures var t := Wake(s, names, addr, val);
            t.log.trace == s.log.trace && t.log.lastNumber == s.log.lastNumber && t.reg == s.reg && t.focus == s.focus
            && t.outcome == s.outcome && t.calls == s.calls && t.kern == s.kern
  {
  }

  /** `t` is `s` after writing at most one plain event and doing things the trace does not show. */
  ghost predicate WritesPlain(s: State, t: State) {
    && t.reg == s.reg && t.focus.lastVtid == s.focus.lastVtid
    && ((t.log.trace == s.log.trace && t.log.lastNumber == s.log.lastNumber)
        || exists e :: Plain(e) && t.log.trace == Emit(s, e).log.trace && t.log.lastNumber == s.log.lastNumber + 1)
  }

  lemma WritesPlainReads(s: State, t: State)
    requires UpToDate(s) && WritesPlain(s, t)
    ensures UpToDate(t)
  {
    hide ReadSoFar;
    if t.log.trace != s.log.trace {
      var e :| Plain(e) && t.log.trace == Emit(s, e).log.trace && t.log.lastNumber == s.log.lastNumber + 1;
      EmitPlain(s, e);
    }
  }

  lemma GetRandomWrites(s: State, p: Pid, regs: Regs, mem: Memory)
    ensures WritesPlain(s, InterceptGetRandom(s, p, regs, mem))
  {
    hide Recorder.Filled, Recorder.Hex, Prng.WordAfter;
    var buflen := if regs.rsi < GETRANDOM_MAX then regs.rsi else GETRANDOM_MAX;
    assert Plain(GetRandom(buflen, Recorder.Hex(Recorder.Filled(s.dev.rng, buflen))));
  }

  lemma ClockWrites(s: State, p: Pid, regs: Regs, mem: Memory)
    ensures WritesPlain(s, InterceptClockGettime(s, p, regs, mem))
    ensures WritesPlain(s, InterceptGetTimeOfDay(s, p, regs, mem))
  {
    hide Clock.Read, Clock.NextTick;
    var clk := AsI32(regs.rdi);
    var r, w := Clock.Read(s.dev.tick, clk), Clock.Read(s.dev.tick, Clock.CLOCK_REALTIME);
    assert Plain(ClockGettime(clk, r.sec, r.nsec)) && Plain(GetTimeOfDay(w.sec, w.nsec / 1_000));
  }

  lemma EntryWrites(s: State, p: Pid, regs: Regs, mem: Memory)
    requires regs.origRax != SYS_FUTEX
    ensures WritesPlain(s, OnSyscallEntry(s, p, regs, mem))
  {
    GetRandomWrites(s, p, regs, mem);
    ClockWrites(s, p, regs, mem);
    hide InterceptGetRandom, InterceptClockGettime, InterceptGetTimeOfDay;
    assert Plain(Syscall(regs.origRax, Pass));
  }

  lemma FutexReads(s: State, p: Pid, regs: Regs, mem: Memory)
    requires UpToDate(s) && p in s.reg.threads
    requires IsScheduled(s, p) ==> s.focus.lastVtid == VtidOf(s, p)
    ensures UpToDate(InterceptFutex(s, p, regs, mem))
  {
    var cmd := FutexCmd(regs);
    var plan := PlanFutex(s, p, regs, mem);
    hide ReadSoFar, Wake, WakeCount, PlanFutex, TraceFutex;
    match plan {
      case PassThrough => EmitFutex(s, p, cmd, FutexPass);
      case ParkOn(addr) => EmitFutex(Block(SkipSyscall(s, p, SYS_FUTEX, 0), p, addr), p, cmd, FutexParked);
      case WakeOn(addr, val) =>
        WakeSilent(s, s.reg.threads, addr, val);
        EmitFutex(SkipSyscall(Wake(s, s.reg.threads, addr, val), p, SYS_FUTEX, WakeCount(s, addr, val)), p, cmd, FutexWoke);
      case RequeueOn(addr, val, val2) =>
        var s1 := Wake(s, s.reg.threads, addr, val);
        WakeSilent(s, s.reg.threads, addr, val);
        WakeSilent(s1, s1.reg.threads, addr, val2);
        var n := WakeCount(s, addr, val) + WakeCount(s1, addr, val2);
        EmitFutex(SkipSyscall(Wake(s1, s1.reg.threads, addr, val2), p, SYS_FUTEX, n), p, cmd, FutexWoke);
    }
  }

  lemma EntryReads(s: State, p: Pid, regs: Regs, mem: Memory)
    requires UpToDate(s) && p in s.reg.threads
    requires IsScheduled(s, p) ==> s.focus.lastVtid == VtidOf(s, p)
    ensures UpToDate(OnSyscallEntry(s, p, regs, mem))
  {
    if regs.origRax == SYS_FUTEX {
      FutexReads(s, p, regs, mem);
      hide InterceptFutex, UpToDate;
    } else {
      EntryWrites(s, p, regs, mem);
      hide OnSyscallEntry, UpToDate, WritesPlain;
      WritesPlainReads(s, OnSyscallEntry(s, p, regs, mem));
    }
  }

  lemma ExitStopReads(s: State, p: Pid)
    requires UpToDate(s)
    ensures UpToDate(OnSyscallExit(s, p))
  {
    if p in s.calls.pending {
      assert Plain(Syscall(s.calls.pending[p].syscall, Injected));
      WritesPlainReads(s, OnSyscallExit(s, p));
    }
    hide UpToDate;
  }

  // ----- the arms of dispatch

  lemma SyscallReads(d: State, p: Pid, op: SyscallOp)
    requires Stopped(d, p) && UpToDate(d) && d.outcome.InProgress?
    ensures UpToDate(HandleSyscall(d, p, op))
  {
    assert IsScheduled(d, p) ==> d.focus.lastVtid == VtidOf(d, p);
    hide OnSyscallEntry, OnSyscallExit, ScheduleNext, Parks, ReadSoFar;
    match op {
      case Entry(regs, mem) =>
        EntryReads(d, p, regs, mem);
        hide Stopped;
      case Exit =>
        ExitStopReads(d, p);
        var t := OnSyscallExit(d, p);
        ExitStopEffect(d, p);
        if IsScheduled(d, p) {
          YieldReads(d, t, p);
        }
        hide Stopped;
      case NoInfo =>
        hide Stopped;
    }
  }

  lemma YieldReads(d: State, t: State, p: Pid)
    requires Stopped(d, p) && IsScheduled(d, p) && CallsOnly(d, t, p) && UpToDate(t) && t.focus == d.focus
    ensures UpToDate(YieldCurrent(t, p))
  {
    var u := PushRunnable(SetCurrent(t, None), p);
    hide ReadSoFar, ScheduleNext;
    assert Partition(u) by {
      NoDupAppend(t.q.runnable, [p]);
    }
    ScheduleNextReads(u);
  }

  lemma CloneReads(d: State, p: Pid, c: Pid)
    requires UpToDate(d)
    ensures Readable(HandleClone(d, p, c))
  {
    var info := if p in d.calls.clonePending then d.calls.clonePending[p] else CloneInfo(0, 0);
    var e := d.(calls := d.calls.(clonePending := d.calls.clonePending - {p}));
    RegisterReads(e, c, info);
    ContinueSilent(Register(e, c, info), p);
    hide ReadSoFar, Scan, Register, Continue;
  }

  lemma DeathReads(s: State, p: Pid)
    requires MidInv(s) && UpToDate(s) && p in s.kern.task && p != s.reg.init
    ensures UpToDate(HandleDeath(s.(kern := s.kern.(task := s.kern.task - {p})), p))
  {
    var d := s.(kern := s.kern.(task := s.kern.task - {p}));
    var wasCurrent := s.focus.current == Some(p);
    assert wasCurrent && p in s.reg.threads ==> s.focus.lastVtid == VtidOf(s, p);
    ExitReads(d, p, wasCurrent);
    ExitKeepsTables(d, p, wasCurrent);
    ExitEffect(d, p, wasCurrent);
    var t := OnThreadExit(d, p, wasCurrent);
    hide OnThreadExit, ScheduleNext, AfterJoinWake, ReadSoFar;
    if wasCurrent && !t.focus.groupExiting {
      IdleAfterDeath(t, p);
      hide ParkedOf, IdentityOf;
      ScheduleNextReads(SetCurrent(t, None));
    }
  }

  /** The last event of a run: the init's exit. */
  lemma EndReads(s: State, e: Event)
    requires UpToDate(s) && (e.RunExit? || e.RunSignal?)
    ensures Scan(Emit(s, e).log.trace).Some? && Scan(Emit(s, e).log.trace).value.ended
  {
    var sum := Scan(s.log.trace).value;
    assert !sum.ended && sum.number == s.log.lastNumber;
    ScanEmit(s, e);
    hide Scan, ReadSoFar;
  }

  lemma EndInner(s: State, st: Status)
    requires (st.Exited? || st.Killed?) && st.pid == s.reg.init
    ensures var u := Inner(s, st); var e := if st.Exited? then RunExit(st.code) else RunSignal(st.sig);
            u.outcome.Done? && u.log == Emit(s, e).log
  {
  }

  lemma ReadableEnd(u: State)
    requires u.outcome.Done? && Scan(u.log.trace).Some?
    ensures Readable(u)
  {
    hide Scan, UpToDate;
  }

  lemma ReadableOn(u: State)
    requires UpToDate(u)
    ensures Readable(u)
  {
    UpToDateScans(u);
    hide Scan, UpToDate;
  }

  lemma EndOrDeathReads(s: State, st: Status)
    requires MidInv(s) && UpToDate(s) && s.outcome.InProgress? && Legal(s, st) && (st.Exited? || st.Killed?)
    ensures Readable(Inner(s, st))
  {
    hide *;
    LegalMeans(s, st);
    InnerCases(s, st);
    NotAwaitedDeath(s, st);
    if st.pid == s.reg.init {
      EndInner(s, st);
      EndReads(s, if st.Exited? then RunExit(st.code) else RunSignal(st.sig));
      ReadableEnd(Inner(s, st));
    } else {
      DeathReads(s, st.pid);
      ReadableOn(Inner(s, st));
    }
  }

  lemma NotAwaitedDeath(s: State, st: Status)
    requires st.Exited? || st.Killed?
    ensures !Awaited(s, st)
  {
  }

  lemma QuietInner(s: State, st: Status)
    requires Awaited(s, st) || st.OtherEvent? || st.SignalStop? || st.ExitEvent? || st.Idle?
    ensures Silent(s, Inner(s, st))
  {
    if Awaited(s, st) {
      var f := s.focus.frames[|s.focus.frames| - 1];
      var d := SetTask(s, f.child, Held);
      var e := d.(q := d.q.(pendingStart := d.q.pendingStart - {f.child}));
      ReleaseSilent(e, f.child);
      var t := Release(e, f.child);
      hide Release, Continue;
      if t.outcome.InProgress? {
        ContinueSilent(PopFrame(t), f.parent);
      }
    } else {
      var d := Deliver(s, st);
      if st.OtherEvent? {
        ContinueSilent(d, st.pid);
      } else if st.SignalStop? {
        SignalSilent(d, st.pid, st.sig);
        hide HandleSignalStop;
      }
    }
  }

  lemma SignalSilent(d: State, p: Pid, sig: Signal)
    ensures Silent(d, HandleSignalStop(d, p, sig))
  {
    ReleaseSilent(d.(q := d.q.(pendingStart := d.q.pendingStart - {p})), p);
    hide Release;
  }

  lemma InnerReads(s: State, st: Status)
    requires MidInv(s) && UpToDate(s) && s.outcome.InProgress? && Legal(s, st)
    ensures Readable(Inner(s, st))
  {
    hide ReadSoFar, Scan;
    UpToDateScans(s);
    if Awaited(s, st) || st.OtherEvent? || st.SignalStop? || st.ExitEvent? || st.Idle? {
      QuietInner(s, st);
      hide Inner, Legal, MidInv;
    } else if st.SyscallStop? {
      StopKeeps(s, st.pid);
      SyscallReads(SetTask(s, st.pid, Held), st.pid, st.op);
      hide HandleSyscall, Stopped, MidInv, Legal;
      UpToDateScans(HandleSyscall(SetTask(s, st.pid, Held), st.pid, st.op));
    } else if st.CloneEvent? {
      hide Legal, MidInv;
      CloneReads(Deliver(s, st), st.pid, st.child);
      hide HandleClone;
    } else {
      hide MidInv, Legal;
      EndOrDeathReads(s, st);
    }
  }

  lemma UpToDateScans(s: State)
    ensures UpToDate(s) ==> Scan(s.log.trace).Some?
  {
  }

  lemma StepReads(s: State, st: Status)
    requires Sound(s) && Readable(s) && (s.outcome.InProgress? ==> Legal(s, st))
    ensures Readable(Step(s, st))
  {
    hide Inner, Legal, ReadSoFar, Scan;
    if s.outcome.InProgress? {
      InnerReads(s, st);
      var t := Inner(s, st);
      if t.outcome.InProgress? {
        InnerKeeps(s, st);
        hide ParkedOf, IdentityOf, KernelOf;
        ScheduleNextReads(t);
        UpToDateScans(ScheduleNext(t));
      }
    }
  }

  /** Every run writes a well-formed trace. */
  lemma {:induction false} RunReads(init: Pid, seed: u64, sts: seq<Status>)
    requires LegalRun(Start(init, seed), sts)
    ensures Readable(Run(Start(init, seed), sts))
  {
    var s := Start(init, seed);
    if sts == [] {
      StartReads(init, seed);
    } else {
      hide Step, Inv, Start, Legal;
      var pre := sts[..|sts| - 1];
      assert forall i :: 0 <= i < |pre| ==> pre[..i] == sts[..i];
      RunReads(init, seed, pre);
      RunSound(init, seed, pre);
      assert Legal(Run(s, sts[..|sts| - 1]), sts[|sts| - 1]);
      StepReads(Run(s, pre), sts[|sts| - 1]);
    }
  }

  lemma StartReads(init: Pid, seed: u64)
    ensures Readable(Start(init, seed))
  {
    var b := Boot(init, seed);
    assert UpToDate(b) && Partition(b);
    ScheduleNextReads(b);
    UpToDateScans(Start(init, seed));
    hide ScheduleNext;
  }

  // ----- what being readable means for the records themselves

  lemma {:induction false} ScanPrefix(trace: seq<Record>, i: nat)
    requires Scan(trace).Some? && i <= |trace|
    ensures Scan(trace[..i]).Some?
  {
    if i < |trace| {
      ScanPrefix(trace[..|trace| - 1], i);
      assert trace[..|trace| - 1][..i] == trace[..i];
    } else {
      assert trace[..i] == trace;
    }
  }

  /** Records are numbered 1, 2, 3, … */
  lemma {:induction false} Numbered(trace: seq<Record>)
    requires Scan(trace).Some?
    ensures Scan(trace).value.number == |trace|
    ensures forall i :: 0 <= i < |trace| ==> trace[i].number == i + 1
  {
    if trace != [] {
      Numbered(trace[..|trace| - 1]);
    }
  }

  /** The thread ids of the thread_create events, in order. */
  function CreatedIds(trace: seq<Record>): seq<Vtid> {
    if trace == [] then []
    else
      var rest := CreatedIds(trace[..|trace| - 1]);
      match trace[|trace| - 1].event
      case ThreadCreate(tid, _) => rest + [tid]
      case _ => rest
  }

  /** Thread ids are handed out as 1, 2, 3, … and never again. */
  lemma {:induction false} CreatedInOrder(trace: seq<Record>)
    requires Scan(trace).Some?
    ensures var ids := CreatedIds(trace);
            |ids| == Scan(trace).value.created && forall k :: 0 <= k < |ids| ==> ids[k] == k + 1
  {
    if trace != [] {
      CreatedInOrder(trace[..|trace| - 1]);
    }
  }

  /** The target of the last schedule event. */
  function LastTo(trace: seq<Record>): Option<Vtid> {
    if trace == [] then None
    else
      match trace[|trace| - 1].event
      case Schedule(_, to) => Some(to)
      case _ => LastTo(trace[..|trace| - 1])
  }

  lemma {:induction false} ScanLastTo(trace: seq<Record>)
    requires Scan(trace).Some?
    ensures Scan(trace).value.lastTo == LastTo(trace)
  {
    if trace != [] {
      ScanLastTo(trace[..|trace| - 1]);
    }
  }

  /** Each schedule event starts where the previous one ended and moves; a thread_exit names the thread
      scheduled last. */
  lemma SchedulesChain(trace: seq<Record>, i: nat)
    requires Scan(trace).Some? && i < |trace|
    ensures match trace[i].event
            case Schedule(from, to) => from == LastTo(trace[..i]) && from != Some(to)
            case ThreadExit(tid) => LastTo(trace[..i]) == Some(tid)
            case _ => true
  {
    ScanPrefix(trace, i + 1);
    ScanPrefix(trace, i);
    assert trace[..i + 1][..i] == trace[..i];
    ScanLastTo(trace[..i]);
  }

  lemma {:induction false} ExitedGrows(trace: seq<Record>, i: nat)
    requires Scan(trace).Some? && i <= |trace|
    ensures Scan(trace[..i]).Some? && Scan(trace[..i]).value.exited <= Scan(trace).value.exited
  {
    if i < |trace| {
      ExitedGrows(trace[..|trace| - 1], i);
      assert trace[..|trace| - 1][..i] == trace[..i];
    } else {
      assert trace[..i] == trace;
    }
  }

  /** A thread that exited is never scheduled, never exits and never calls futex again. */
  lemma ExitedStaysOut(trace: seq<Record>, i: nat, j: nat, tid: Vtid)
    requires Scan(trace).Some? && i < j < |trace| && trace[i].event == ThreadExit(tid)
    ensures match trace[j].event
            case Schedule(_, to) => to != tid
            case ThreadExit(other) => other != tid
            case Futex(_, _, caller) => caller != Some(tid)
            case _ => true
  {
    ScanPrefix(trace, j + 1);
    ScanPrefix(trace, j);
    assert trace[..j + 1][..j] == trace[..j];
    ScanPrefix(trace, i + 1);
    assert trace[..i + 1][..i] == trace[..i];
    ScanPrefix(trace, i);
    ExitedGrows(trace[..j], i + 1);
    assert trace[..j][..i + 1] == trace[..i + 1];
  }

  // ----- the trace only grows

  ghost predicate Grows(s: State, t: State) { s.log.trace <= t.log.trace }

  lemma {:induction false} ScheduleNextGrows(s: State)
    ensures Grows(s, ScheduleNext(s))
    decreases |s.q.runnable|
  {
    if s.q.runnable != [] {
      var tid := s.q.runnable[0];
      if tid !in s.reg.threads || tid in s.q.blocked {
        ScheduleNextGrows(PopRunnable(s));
      } else {
        PickGrows(PopRunnable(s), tid);
        hide Pick;
      }
    }
  }

  lemma PickGrows(s: State, tid: Pid)
    requires tid in s.reg.threads
    ensures Grows(s, Pick(s, tid))
  {
  }

  lemma CarryOutGrows(s: State, p: Pid, cmd: nat, plan: FutexPlan)
    ensures Grows(s, CarryOut(s, p, cmd, plan))
  {
    hide WakeCount, Wake;
    if plan.WakeOn? || plan.RequeueOn? {
      WakeSilent(s, s.reg.threads, plan.addr, plan.val);
      if plan.RequeueOn? {
        var s1 := WakeAt(s, plan.addr, plan.val);
        WakeSilent(s1, s1.reg.threads, plan.addr, plan.val2);
      }
    }
  }

  lemma EntryGrows(s: State, p: Pid, regs: Regs, mem: Memory)
    ensures Grows(s, OnSyscallEntry(s, p, regs, mem))
  {
    if regs.origRax == SYS_FUTEX {
      hide CarryOut, PlanFutex;
      CarryOutGrows(s, p, FutexCmd(regs), PlanFutex(s, p, regs, mem));
    } else {
      EntryWrites(s, p, regs, mem);
      hide OnSyscallEntry;
    }
  }

  lemma InterceptedGrows(s: State, p: Pid, op: SyscallOp)
    ensures Grows(s, Intercepted(s, p, op))
  {
    if op.Entry? { EntryGrows(s, p, op.regs, op.mem); }
    assert Grows(s, OnSyscallExit(s, p));
    hide OnSyscallEntry, OnSyscallExit;
  }

  lemma YieldGrows(s: State, t: State, p: Pid)
    requires Grows(s, t)
    ensures Grows(s, YieldCurrent(t, p)) && Grows(s, SetCurrent(t, None))
  {
    ScheduleNextGrows(if t.focus.current == Some(p) then PushRunnable(SetCurrent(t, None), p) else t);
    hide ScheduleNext;
  }

  lemma ResumeGrows(s: State, t: State, p: Pid)
    requires Grows(s, t)
    ensures Grows(s, ResumeThread(t, p)) && Grows(s, ResumeCurrent(t, p))
  {
    ResumeSilent(t, p);
    hide ResumeThread;
  }

  lemma SyscallGrows(s: State, p: Pid, op: SyscallOp)
    ensures Grows(s, HandleSyscall(s, p, op))
  {
    hide *;
    InterceptedGrows(s, p, op);
    YieldGrows(s, Intercepted(s, p, op), p);
    ResumeGrows(s, Intercepted(s, p, op), p);
    HandleSyscallCases(s, p, op);
  }

  lemma ResumeSilent(s: State, p: Pid)
    ensures Silent(s, ResumeThread(s, p))
  {
  }

  lemma CloneGrows(s: State, p: Pid, c: Pid)
    ensures Grows(s, HandleClone(s, p, c))
  {
    var info := if p in s.calls.clonePending then s.calls.clonePending[p] else CloneInfo(0, 0);
    var e := s.(calls := s.calls.(clonePending := s.calls.clonePending - {p}));
    ContinueSilent(Register(e, c, info), p);
    if c !in e.reg.threads {
      var t := RegisterShape(e, c, info, Thread(e.reg.vtidNext, info.childTid, info.flags, HasCloneThread(info.flags)));
    }
    hide Register, Continue;
  }

  lemma ExitGrows(s: State, p: Pid, record: bool)
    ensures Grows(s, OnThreadExit(s, p, record))
  {
    hide Wake;
    if p in s.reg.threads {
      WakeSilent(s.(reg := s.reg.(threads := s.reg.threads - {p})), s.reg.threads, s.reg.threads[p].childTid, 1);
    }
  }

  lemma DeathGrows(s: State, p: Pid)
    ensures Grows(s, HandleDeath(s, p))
  {
    var wasCurrent := s.focus.current == Some(p);
    ExitGrows(s, p, wasCurrent);
    hide OnThreadExit, ScheduleNext;
    ScheduleNextGrows(SetCurrent(OnThreadExit(s, p, wasCurrent), None));
  }

  /** No status ever takes a record back. */
  lemma StepGrows(s: State, st: Status)
    ensures Grows(s, Step(s, st))
  {
    var t := Inner(s, st);
    var d := Deliver(s, st);
    if Awaited(s, st) || st.OtherEvent? || st.SignalStop? || st.ExitEvent? || st.Idle? {
      QuietInner(s, st);
      hide Inner;
    } else if st.SyscallStop? {
      SyscallGrows(d, st.pid, st.op);
      hide HandleSyscall;
    } else if st.CloneEvent? {
      CloneGrows(d, st.pid, st.child);
      hide HandleClone;
    } else {
      DeathGrows(d, st.pid);
      hide HandleDeath;
    }
    hide Inner, ScheduleNext;
    ScheduleNextGrows(t);
  }
}
