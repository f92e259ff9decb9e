/** What a futex caller is told: the number returned by a wake or a requeue is the number of threads it woke, and
    two wakes are one bigger wake (src/runtime/supervisor.rs:506-557, 646-671). */
module Futexes {
  import opened Base
  import opened Machine
  import opened Invariants
  import Clock
  import Prng
  import Recorder

  // ----- wakes add up

  lemma {:induction false} WakeLoopSplits(parked: seq<Pid>, blocked: set<Pid>, m: nat, n: nat)
    ensures var r := WakeLoop(parked, blocked, m); var t := WakeLoop(r.left, blocked - Elems(r.woken), n);
            WakeLoop(parked, blocked, m + n) == Split(r.woken + t.woken, t.left)
  {
    if m == 0 || parked == [] {
      assert blocked - Elems([]) == blocked;
    } else if parked[0] in blocked {
      WakeLoopSplits(parked[1..], blocked - {parked[0]}, m - 1, n);
      var r := WakeLoop(parked[1..], blocked - {parked[0]}, m - 1);
      assert blocked - Elems([parked[0]] + r.woken) == blocked - {parked[0]} - Elems(r.woken);
    } else {
      WakeLoopSplits(parked[1..], blocked, m, n);
    }
  }

  lemma UnparksConcat(names: map<Pid, Thread>, a: seq<Pid>, b: seq<Pid>, addr: Addr)
    ensures Unparks(names, a + b, addr) == Unparks(names, a, addr) + Unparks(names, b, addr)
  {
  }

  lemma ElemsConcat(a: seq<Pid>, b: seq<Pid>)
    ensures Elems(a + b) == Elems(a) + Elems(b)
  {
  }

  /** An address without a queue wakes nobody; an address whose queue was woken to the end has none. */
  lemma NobodyLeft(s: State, names: map<Pid, Thread>, addr: Addr, cap: nat)
    requires addr !in s.q.waiting
    ensures WakeUpTo(s, names, addr, cap) == s && CountUpTo(s, addr, cap) == 0
  {
  }

  lemma {:induction false} WakeLoopTakes(parked: seq<Pid>, blocked: set<Pid>, cap: nat)
    ensures |WakeLoop(parked, blocked, cap).woken| <= cap
    ensures WakeLoop([], blocked, cap) == Split([], [])
  {
    if cap != 0 && parked != [] {
      WakeLoopTakes(parked[1..], blocked - {parked[0]}, cap - 1);
      WakeLoopTakes(parked[1..], blocked, cap);
    }
  }

  function CountUpTo(s: State, addr: Addr, cap: nat): nat { |SplitUpTo(s, addr, cap).woken| }

  /** Waking m and then n of the threads on one word is waking m + n of them: same threads in the same order, same
      queues, same log — which is why a requeue may be answered by two wakes. */
  lemma WakesAddUp(s: State, names: map<Pid, Thread>, addr: Addr, m: nat, n: nat)
    ensures WakeUpTo(WakeUpTo(s, names, addr, m), names, addr, n) == WakeUpTo(s, names, addr, m + n)
    ensures CountUpTo(s, addr, m) + CountUpTo(WakeUpTo(s, names, addr, m), addr, n) == CountUpTo(s, addr, m + n)
  {
    if addr in s.q.waiting && m > 0 && n > 0 {
      WakeSome(s, names, addr, m, n);
    } else {
      hide SetQueue, Unparks, Elems;
    }
  }

  lemma WakeSome(s: State, names: map<Pid, Thread>, addr: Addr, m: nat, n: nat)
    requires addr in s.q.waiting && m > 0 && n > 0
    ensures WakeUpTo(WakeUpTo(s, names, addr, m), names, addr, n) == WakeUpTo(s, names, addr, m + n)
    ensures CountUpTo(s, addr, m) + CountUpTo(WakeUpTo(s, names, addr, m), addr, n) == CountUpTo(s, addr, m + n)
  {
    WakeLoopSplits(s.q.waiting[addr], s.q.blocked, m, n);
    var r := SplitUpTo(s, addr, m);
    var u := WakeUpTo(s, names, addr, m);
    WakeLoopTakes(r.left, u.q.blocked, n);
    hide WakeLoop;
    if r.left == [] {
      assert addr !in u.q.waiting;
      NobodyLeft(u, names, addr, n);
      assert SplitUpTo(s, addr, m + n) == Split(r.woken + [], []);
      assert r.woken + [] == r.woken;
    } else {
      assert u.q.waiting[addr] == r.left && u.q.blocked == s.q.blocked - Elems(r.woken);
      var t := SplitUpTo(u, addr, n);
      assert SplitUpTo(s, addr, m + n) == Split(r.woken + t.woken, t.left);
      UnparksConcat(names, r.woken, t.woken, addr);
      ElemsConcat(r.woken, t.woken);
      hide SplitUpTo, Unparks, Elems;
      assert SetQueue(SetQueue(s.q.waiting, addr, r.left), addr, t.left) == SetQueue(s.q.waiting, addr, t.left);
      assert s.q.runnable + r.woken + t.woken == s.q.runnable + (r.woken + t.woken);
      assert s.q.blocked - Elems(r.woken) - Elems(t.woken) == s.q.blocked - (Elems(r.woken) + Elems(t.woken));
    }
  }

  /** A requeue is answered as one wake of its two counts together. */
  lemma RequeueIsOneWake(s: State, p: Pid, cmd: nat, addr: Addr, val: u64, val2: u64)
    ensures var cap := Cap(val) + Cap(val2);
            CarryOut(s, p, cmd, RequeueOn(addr, val, val2))
            == AnswerWake(WakeUpTo(s, s.reg.threads, addr, cap), p, cmd, CountUpTo(s, addr, cap))
  {
    WakesAddUp(s, s.reg.threads, addr, Cap(val), Cap(val2));
    assert WakeAt(s, addr, val).reg == s.reg;
    hide WakeUpTo, SplitUpTo, AnswerWake, Cap;
  }

  // ----- receipts

  /** `due` counts the threads woken since the last receipt. */
  datatype Tally = Tally(woken: nat, answered: nat, joins: nat, due: nat)

  /** A futex call is answered with exactly the number of threads just woken, a death accounts for at most one,
      and nothing else happens between a wake and its receipt. */
  function Count(t: Tally, act: Act): Option<Tally> {
    match act
    case Unpark(_, _) => Some(t.(woken := t.woken + 1, due := t.due + 1))
    case Skip(_, syscall, retval) =>
      if syscall == SYS_FUTEX then
        if retval == t.due then Some(t.(answered := t.answered + retval, due := 0)) else None
      else if t.due == 0 then Some(t) else None
    case Died(_) => if t.due <= 1 then Some(t.(joins := t.joins + t.due, due := 0)) else None
    case _ => if t.due == 0 then Some(t) else None
  }

  function Counted(acts: seq<Act>): Option<Tally> {
    if acts == [] then Some(Tally(0, 0, 0, 0))
    else
      match Counted(acts[..|acts| - 1])
      case None => None
      case Some(t) => Count(t, acts[|acts| - 1])
  }

  ghost predicate Due(acts: seq<Act>, n: nat) { Counted(acts).Some? && Counted(acts).value.due == n }

  /** Every wake so far has its receipt. */
  ghost predicate Answered(s: State) { Due(s.log.acts, 0) }

  lemma CountedPush(acts: seq<Act>, act: Act)
    requires Counted(acts).Some?
    ensures Counted(acts + [act]) == Count(Counted(acts).value, act)
  {
    assert (acts + [act])[..|acts|] == acts;
  }

  lemma PushOther(acts: seq<Act>, act: Act)
    requires Due(acts, 0) && !act.Unpark? && (act.Skip? && act.syscall == SYS_FUTEX ==> act.retval == 0)
    ensures Due(acts + [act], 0)
  {
    CountedPush(acts, act);
  }

  lemma PushReceipt(acts: seq<Act>, act: Act, n: nat)
    requires Due(acts, n) && ((act.Died? && n <= 1) || (act.Skip? && act.syscall == SYS_FUTEX && act.retval == n))
    ensures Due(acts + [act], 0)
  {
    CountedPush(acts, act);
  }

  lemma {:induction false} PushWoken(acts: seq<Act>, more: seq<Act>, n: nat)
    requires Due(acts, n) && forall i :: 0 <= i < |more| ==> more[i].Unpark?
    ensures Due(acts + more, n + |more|)
  {
    if more == [] {
      assert acts + more == acts;
    } else {
      var k := |more| - 1;
      PushWoken(acts, more[..k], n);
      assert acts + more == acts + more[..k] + [more[k]];
      CountedPush(acts + more[..k], more[k]);
    }
  }

  lemma WakeDue(s: State, names: map<Pid, Thread>, addr: Addr, val: u64, n: nat)
    requires Due(s.log.acts, n)
    ensures Due(Wake(s, names, addr, val).log.acts, n + WakeCount(s, addr, val))
    ensures WakeCount(s, addr, val) <= Cap(val)
  {
    var woken := WakeSplit(s, addr, val).woken;
    if addr in s.q.waiting { WakeLoopTakes(s.q.waiting[addr], s.q.blocked, Cap(val)); }
    hide WakeLoop, SetQueue, Due;
    PushWoken(s.log.acts, Unparks(names, woken, addr), n);
    assert s.log.acts + [] == s.log.acts;
  }

  lemma AnswerSettles(s: State, p: Pid, cmd: nat, n: nat)
    requires Due(s.log.acts, n)
    ensures Answered(AnswerWake(s, p, cmd, n))
  {
    PushReceipt(s.log.acts, Skip(VtidOf(s, p), SYS_FUTEX, n), n);
    hide Due;
  }

  lemma ParkSettles(s: State, p: Pid, cmd: nat, addr: Addr)
    requires Answered(s)
    ensures Answered(ParkThread(s, p, cmd, addr))
  {
    PushOther(s.log.acts, Skip(VtidOf(s, p), SYS_FUTEX, 0));
    PushOther(s.log.acts + [Skip(VtidOf(s, p), SYS_FUTEX, 0)], Park(VtidOf(s, p), addr));
    hide Due;
  }

  lemma CarryOutSettles(s: State, p: Pid, cmd: nat, plan: FutexPlan)
    requires Answered(s)
    ensures Answered(CarryOut(s, p, cmd, plan))
  {
    match plan {
      case PassThrough =>
      case ParkOn(addr) => ParkSettles(s, p, cmd, addr); hide ParkThread, Due;
      case WakeOn(addr, val) =>
        hide AnswerWake, WakeCount, Wake, Due;
        WakeDue(s, s.reg.threads, addr, val, 0);
        AnswerSettles(WakeAt(s, addr, val), p, cmd, WakeCount(s, addr, val));
      case RequeueOn(addr, val, val2) => RequeueSettles(s, p, cmd, addr, val, val2); hide CarryOut, Due;
    }
  }

  lemma RequeueSettles(s: State, p: Pid, cmd: nat, addr: Addr, val: u64, val2: u64)
    requires Answered(s)
    ensures Answered(CarryOut(s, p, cmd, RequeueOn(addr, val, val2)))
  {
    var u := WakeAt(s, addr, val);
    assert CarryOut(s, p, cmd, RequeueOn(addr, val, val2))
        == AnswerWake(WakeAt(u, addr, val2), p, cmd, WakeCount(s, addr, val) + WakeCount(u, addr, val2));
    hide AnswerWake, WakeCount, Wake, Due, CarryOut;
    WakeDue(s, s.reg.threads, addr, val, 0);
    WakeDue(u, u.reg.threads, addr, val2, WakeCount(s, addr, val));
    AnswerSettles(WakeAt(u, addr, val2), p, cmd, WakeCount(s, addr, val) + WakeCount(u, addr, val2));
  }

  lemma WriteSettles(s: State, p: Pid, addr: Addr, data: Data, writable: bool)
    requires Answered(s)
    ensures Answered(WriteMem(s, p, addr, data, writable))
  {
    PushOther(s.log.acts, Write(VtidOf(s, p), addr, data));
    hide Due;
  }

  lemma SkipSettles(s: State, p: Pid, syscall: nat, retval: nat)
    requires Answered(s) && syscall != SYS_FUTEX
    ensures Answered(SkipSyscall(s, p, syscall, retval))
  {
    PushOther(s.log.acts, Skip(VtidOf(s, p), syscall, retval));
    hide Due;
  }

  lemma GetRandomSettles(s: State, p: Pid, regs: Regs, mem: Memory)
    requires Answered(s)
    ensures Answered(InterceptGetRandom(s, p, regs, mem))
  {
    var buflen := if regs.rsi < GETRANDOM_MAX then regs.rsi else GETRANDOM_MAX;
    var bytes := Recorder.Filled(s.dev.rng, buflen);
    var s1 := s.(dev := s.dev.(rng := Prng.WordAfter(s.dev.rng, Recorder.DrawsFor(buflen))));
    var s2 := if buflen > 0 then WriteMem(s1, p, regs.rdi, Random(bytes), mem.writable) else s1;
    hide Recorder.Filled, Recorder.Hex, Prng.WordAfter, Recorder.DrawsFor, Due;
    WriteSettles(s1, p, regs.rdi, Random(bytes), mem.writable);
    SkipSettles(s2, p, SYS_GETRANDOM, buflen);
    hide WriteMem, SkipSyscall;
  }

  lemma ClockSettles(s: State, p: Pid, regs: Regs, mem: Memory)
    requires Answered(s)
    ensures Answered(InterceptClockGettime(s, p, regs, mem)) && Answered(InterceptGetTimeOfDay(s, p, regs, mem))
  {
    hide Clock.Read, Clock.NextTick, Due;
    var clk := AsI32(regs.rdi);
    var r := Clock.Read(s.dev.tick, clk);
    var u := s.(dev := s.dev.(tick := Clock.NextTick(s.dev.tick, clk)));
    WriteSettles(u, p, regs.rsi, Time(r.sec, r.nsec), mem.writable);
    SkipSettles(WriteMem(u, p, regs.rsi, Time(r.sec, r.nsec), mem.writable), p, SYS_CLOCK_GETTIME, 0);
    var w := Clock.Read(s.dev.tick, Clock.CLOCK_REALTIME);
    WriteSettles(s, p, regs.rdi, Time(w.sec, w.nsec / 1_000), mem.writable);
    SkipSettles(WriteMem(s, p, regs.rdi, Time(w.sec, w.nsec / 1_000), mem.writable), p, SYS_GETTIMEOFDAY, 0);
    hide WriteMem, SkipSyscall;
  }

  lemma StashSettles(s: State, p: Pid, regs: Regs, mem: Memory)
    requires Answered(s)
    ensures Answered(StashClone(s, p, regs.origRax, regs, mem))
  {
  }

  lemma EntrySettles(s: State, p: Pid, regs: Regs, mem: Memory)
    requires Answered(s)
    ensures Answered(OnSyscallEntry(s, p, regs, mem))
  {
    hide CarryOut, PlanFutex, InterceptGetRandom, InterceptClockGettime, InterceptGetTimeOfDay, StashClone, Due;
    CarryOutSettles(s, p, FutexCmd(regs), PlanFutex(s, p, regs, mem));
    StashSettles(s, p, regs, mem);
    GetRandomSettles(s, p, regs, mem);
    ClockSettles(s, p, regs, mem);
  }

  lemma ReturnSettles(s: State, p: Pid)
    requires Answered(s)
    ensures Answered(OnSyscallExit(s, p))
  {
    if p in s.calls.pending {
      PushOther(s.log.acts, Return(VtidOf(s, p), s.calls.pending[p].syscall, s.calls.pending[p].retval));
    }
    hide Due;
  }

  lemma PtraceSettles(s: State, p: Pid, sig: Option<Signal>)
    requires Answered(s)
    ensures Answered(PtraceSyscall(s, p, sig))
  {
    PushOther(s.log.acts, Resume(VtidOf(s, p), sig));
    hide Due;
  }

  lemma ResumeSettles(s: State, p: Pid)
    requires Answered(s)
    ensures Answered(ResumeThread(s, p)) && Answered(ResumeCurrent(s, p)) && Answered(Continue(s, p))
  {
    PtraceSettles(s.(calls := s.calls.(sigPending := s.calls.sigPending - {p})), p, SignalFor(s, p));
    hide PtraceSyscall, Due;
  }

  lemma ReleaseSettles(s: State, p: Pid)
    requires Answered(s)
    ensures Answered(Release(s, p))
  {
    ResumeSettles(s, p);
    hide ResumeThread, Due;
  }

  lemma PickSettles(s: State, tid: Pid)
    requires Answered(s) && tid in s.reg.threads
    ensures Answered(Pick(s, tid))
  {
    var to := s.reg.threads[tid].vtid;
    var s1 := if s.focus.lastVtid != Some(to) then Emit(s, Schedule(s.focus.lastVtid, to)) else s;
    PushOther(s.log.acts, Turn(to));
    ResumeSettles(Did(s1.(focus := s1.focus.(lastVtid := Some(to), current := Some(tid))), Turn(to)), tid);
    hide ResumeThread, Due;
  }

  lemma {:induction false} ScheduleSettles(s: State)
    requires Answered(s)
    ensures Answered(ScheduleNext(s))
    decreases |s.q.runnable|
  {
    hide Pick, Due;
    if s.q.runnable != [] {
      var tid := s.q.runnable[0];
      if tid !in s.reg.threads || tid in s.q.blocked {
        ScheduleSettles(PopRunnable(s));
      } else {
        PickSettles(PopRunnable(s), tid);
      }
    }
  }

  lemma ExitSettles(s: State, p: Pid, record: bool)
    requires Answered(s)
    ensures Answered(OnThreadExit(s, p, record))
  {
    if p in s.reg.threads {
      var t := s.reg.threads[p];
      var s1 := s.(reg := s.reg.(threads := s.reg.threads - {p}));
      WakeDue(s1, s.reg.threads, t.childTid, 1, 0);
      var joins := t.childTid != 0 && HasClearTid(t.flags);
      var s2 := if joins then Wake(s1, s.reg.threads, t.childTid, 1) else s1;
      PushReceipt(s2.log.acts, Died(t.vtid), if joins then WakeCount(s1, t.childTid, 1) else 0);
      hide Wake, WakeCount, Due, Without, Purge;
    }
    hide Due, Without, Purge;
  }

  lemma DeathSettles(s: State, p: Pid)
    requires Answered(s)
    ensures Answered(HandleDeath(s, p))
  {
    var record := s.focus.current == Some(p);
    ExitSettles(s, p, record);
    ScheduleSettles(SetCurrent(OnThreadExit(s, p, record), None));
    hide OnThreadExit, ScheduleNext, Due;
  }

  lemma CloneSettles(s: State, p: Pid, c: Pid)
    requires Answered(s)
    ensures Answered(HandleClone(s, p, c))
  {
    var info := if p in s.calls.clonePending then s.calls.clonePending[p] else CloneInfo(0, 0);
    var e := s.(calls := s.calls.(clonePending := s.calls.clonePending - {p}));
    var n := Enrol(e, c, Thread(e.reg.vtidNext, info.childTid, info.flags, HasCloneThread(info.flags)));
    ReleaseSettles(n.(q := n.q.(stoppedPending := n.q.stoppedPending - {c})), c);
    hide Release, Due;
    var t := Register(e, c, info);
    assert Answered(t);
    ResumeSettles(t, p);
    hide Continue, Register;
  }

  lemma SignalSettles(s: State, p: Pid, sig: Signal)
    requires Answered(s)
    ensures Answered(HandleSignalStop(s, p, sig))
  {
    ResumeSettles(s, p);
    ReleaseSettles(s.(q := s.q.(pendingStart := s.q.pendingStart - {p})), p);
    PtraceSettles(s, p, Some(sig));
    hide ResumeThread, Release, PtraceSyscall, Due;
  }

  lemma InterceptedSettles(s: State, p: Pid, op: SyscallOp)
    requires Answered(s)
    ensures Answered(Intercepted(s, p, op))
  {
    if op.Entry? { EntrySettles(s, p, op.regs, op.mem); }
    ReturnSettles(s, p);
    hide OnSyscallEntry, OnSyscallExit, Due;
  }

  lemma YieldSettles(t: State, p: Pid)
    requires Answered(t)
    ensures Answered(YieldCurrent(t, p)) && Answered(SetCurrent(t, None))
  {
    ScheduleSettles(if t.focus.current == Some(p) then PushRunnable(SetCurrent(t, None), p) else t);
    hide ScheduleNext, Due;
  }

  lemma SyscallSettles(s: State, p: Pid, op: SyscallOp)
    requires Answered(s)
    ensures Answered(HandleSyscall(s, p, op))
  {
    hide *;
    InterceptedSettles(s, p, op);
    ResumeSettles(Intercepted(s, p, op), p);
    YieldSettles(Intercepted(s, p, op), p);
    HandleSyscallCases(s, p, op);
  }

  lemma FinishSettles(s: State)
    requires Answered(s) && s.focus.frames != []
    ensures Answered(FinishAwait(s))
  {
    var f := s.focus.frames[|s.focus.frames| - 1];
    var e := s.(q := s.q.(pendingStart := s.q.pendingStart - {f.child}));
    ReleaseSettles(e, f.child);
    var t := Release(e, f.child);
    assert t.focus == s.focus;
    hide Release, Due;
    if t.outcome.InProgress? {
      ResumeSettles(t.(focus := t.focus.(frames := t.focus.frames[..|t.focus.frames| - 1])), f.parent);
    }
    hide Continue;
  }

  lemma StepSettles(s: State, st: Status)
    requires Answered(s)
    ensures Answered(Step(s, st))
  {
    if s.outcome.InProgress? {
      var d := Deliver(s, st);
      assert d.log == s.log && d.focus == s.focus;
      hide Deliver;
      InnerSettles(s, d, st);
      ScheduleSettles(Inner(s, st));
      hide Inner, ScheduleNext, Due;
    }
  }

  lemma InnerSettles(s: State, d: State, st: Status)
    requires Answered(d) && d == Deliver(s, st) && d.focus == s.focus
    ensures Answered(Inner(s, st))
  {
    hide Deliver, Due;
    if Awaited(s, st) {
      FinishSettles(d);
      hide FinishAwait;
    } else {
      hide FinishAwait;
      match st {
        case SyscallStop(p, op) => SyscallSettles(d, p, op); hide HandleSyscall;
        case CloneEvent(p, c) => CloneSettles(d, p, c); hide HandleClone;
        case ExitEvent(p) => ResumeSettles(d, p); hide ResumeThread;
        case OtherEvent(p) => ResumeSettles(d, p); hide Continue;
        case SignalStop(p, sig) => SignalSettles(d, p, sig); hide HandleSignalStop;
        case Exited(p, _) => DeathSettles(d, p); hide HandleDeath;
        case Killed(p, _) => DeathSettles(d, p); hide HandleDeath;
        case Idle =>
      }
    }
  }

  lemma {:induction false} CountsAddUp(acts: seq<Act>)
    requires Counted(acts).Some?
    ensures var t := Counted(acts).value; t.woken == t.answered + t.joins + t.due
  {
    if acts != [] {
      CountsAddUp(acts[..|acts| - 1]);
    }
  }

  /** Conservation over every run, legal or not: the threads ever woken are exactly the sum of the values returned
      to futex callers plus the joins woken by dying threads. */
  lemma {:induction false} RunSettles(init: Pid, seed: u64, sts: seq<Status>)
    ensures var t := Counted(Run(Start(init, seed), sts).log.acts);
            t.Some? && t.value.due == 0 && t.value.woken == t.value.answered + t.value.joins
  {
    hide Step;
    AllSettle(init, seed, sts);
    CountsAddUp(Run(Start(init, seed), sts).log.acts);
    hide Start, Run;
  }

  lemma {:induction false} AllSettle(init: Pid, seed: u64, sts: seq<Status>)
    ensures Answered(Run(Start(init, seed), sts))
  {
    if sts == [] {
      assert Answered(Boot(init, seed));
      ScheduleSettles(Boot(init, seed));
      hide ScheduleNext, Boot, Due;
    } else {
      hide Step, Start, Due;
      AllSettle(init, seed, sts[..|sts| - 1]);
      StepSettles(Run(Start(init, seed), sts[..|sts| - 1]), sts[|sts| - 1]);
    }
  }
}
