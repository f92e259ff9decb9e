/** FIFO round robin (src/runtime/supervisor.rs:7-9, 406-443, 518, 549): nobody overtakes a waiting thread, and
    threads that stay ready take turns strictly. For every workload the kernel's rules allow. */
module Fairness {
  import opened Base
  import opened Machine
  import opened Invariants
  import Clock
  import Prng
  import Recorder

  /** The turns given in a log, oldest first. */
  function Turns(acts: seq<Act>): seq<Vtid> {
    if acts == [] then []
    else
      var rest := Turns(acts[..|acts| - 1]);
      var last := acts[|acts| - 1];
      if last.Turn? then rest + [last.who] else rest
  }

  lemma TurnsPush(acts: seq<Act>, act: Act)
    ensures Turns(acts + [act]) == if act.Turn? then Turns(acts) + [act.who] else Turns(acts)
  {
    assert (acts + [act])[..|acts|] == acts;
  }

  lemma {:induction false} TurnsQuiet(acts: seq<Act>, more: seq<Act>)
    requires forall i :: 0 <= i < |more| ==> !more[i].Turn?
    ensures Turns(acts + more) == Turns(acts)
  {
    if more == [] {
      assert acts + more == acts;
    } else {
      var k := |more| - 1;
      TurnsQuiet(acts, more[..k]);
      assert acts + more == acts + more[..k] + [more[k]];
      TurnsPush(acts + more[..k], more[k]);
    }
  }

  // ----- one step of the queue

  /** The part of a state fairness is about. */
  datatype Line = Line(queue: seq<Pid>, turns: seq<Vtid>, current: Option<Pid>)

  ghost function LineOf(s: State): Line { Line(s.q.runnable, Turns(s.log.acts), s.focus.current) }

  /** Nobody got a turn: the queue can only have grown at its end. */
  ghost predicate Still(a: Line, b: Line) {
    a.queue <= b.queue && b.turns == a.turns && (b.current == a.current || b.current == None)
  }

  /** The head of the queue got a turn. */
  ghost predicate Served(a: Line, b: Line, threads: map<Pid, Thread>) {
    && a.queue != [] && a.queue[0] in threads && b.queue == a.queue[1..]
    && b.turns == a.turns + [threads[a.queue[0]].vtid] && b.current == Some(a.queue[0])
  }

  /** At most one turn is given, and to the head of the queue. */
  ghost predicate Moves(a: Line, b: Line, threads: map<Pid, Thread>) {
    Still(a, b) || exists m :: Still(a, m) && Served(m, b, threads)
  }

  lemma StillMoves(a: Line, b: Line, c: Line, threads: map<Pid, Thread>)
    requires Still(a, b) && Moves(b, c, threads)
    ensures Moves(a, c, threads)
  {
    if !Still(b, c) {
      var m :| Still(b, m) && Served(m, c, threads);
      assert Still(a, m);
    }
  }

  lemma ScheduleMoves(s: State)
    requires Partition(s)
    ensures Moves(LineOf(s), LineOf(ScheduleNext(s)), s.reg.threads) && ScheduleNext(s).reg == s.reg
    ensures s.q.runnable == [] ==> Still(LineOf(s), LineOf(ScheduleNext(s)))
  {
    if s.q.runnable != [] {
      ScheduleNextHead(s);
      var tid := s.q.runnable[0];
      PickServes(PopRunnable(s), tid);
      hide Pick, ScheduleNext, PartitionOf;
      assert Served(LineOf(s), LineOf(ScheduleNext(s)), s.reg.threads);
      assert Still(LineOf(s), LineOf(s));
    }
  }

  lemma PickServes(s: State, tid: Pid)
    requires tid in s.reg.threads
    ensures var t := Pick(s, tid);
            && t.q == s.q && t.reg == s.reg && t.focus.current == Some(tid)
            && Turns(t.log.acts) == Turns(s.log.acts) + [s.reg.threads[tid].vtid]
  {
    var to := s.reg.threads[tid].vtid;
    var s1 := if s.focus.lastVtid != Some(to) then Emit(s, Schedule(s.focus.lastVtid, to)) else s;
    var s2 := Did(s1.(focus := s1.focus.(lastVtid := Some(to), current := Some(tid))), Turn(to));
    TurnsPush(s.log.acts, Turn(to));
    ResumeStill(s2, tid);
    hide ResumeThread, Turns;
  }

  lemma PtraceStill(s: State, p: Pid, sig: Option<Signal>)
    ensures LineOf(PtraceSyscall(s, p, sig)) == LineOf(s) && PtraceSyscall(s, p, sig).reg == s.reg
  {
    TurnsPush(s.log.acts, Resume(VtidOf(s, p), sig));
    hide Turns;
  }

  lemma ResumeStill(s: State, p: Pid)
    ensures LineOf(ResumeThread(s, p)) == LineOf(s) && ResumeThread(s, p).reg == s.reg
    ensures LineOf(ResumeCurrent(s, p)) == LineOf(s) && ResumeCurrent(s, p).reg == s.reg
    ensures LineOf(Continue(s, p)) == LineOf(s) && Continue(s, p).reg == s.reg
  {
    PtraceStill(s.(calls := s.calls.(sigPending := s.calls.sigPending - {p})), p, SignalFor(s, p));
    hide PtraceSyscall, Turns;
  }

  lemma ReleaseStill(s: State, p: Pid)
    ensures Still(LineOf(s), LineOf(Release(s, p))) && Release(s, p).reg == s.reg
  {
    ResumeStill(s, p);
    hide ResumeThread, Turns;
  }

  lemma WakeStill(s: State, names: map<Pid, Thread>, addr: Addr, val: u64)
    ensures Still(LineOf(s), LineOf(Wake(s, names, addr, val))) && Wake(s, names, addr, val).focus == s.focus
    ensures Wake(s, names, addr, val).reg == s.reg && Wake(s, names, addr, val).calls == s.calls
  {
    TurnsQuiet(s.log.acts, Unparks(names, WakeSplit(s, addr, val).woken, addr));
    hide WakeSplit, SetQueue, Turns;
  }

  lemma SkipStill(s: State, p: Pid, syscall: nat, retval: nat)
    ensures LineOf(SkipSyscall(s, p, syscall, retval)) == LineOf(s)
  {
    TurnsPush(s.log.acts, Skip(VtidOf(s, p), syscall, retval));
    hide Turns;
  }

  lemma BlockStill(s: State, p: Pid, addr: Addr)
    ensures LineOf(Block(s, p, addr)) == LineOf(s)
  {
    TurnsPush(s.log.acts, Park(VtidOf(s, p), addr));
    hide Turns;
  }

  lemma WriteStill(s: State, p: Pid, addr: Addr, data: Data, writable: bool)
    ensures LineOf(WriteMem(s, p, addr, data, writable)) == LineOf(s)
  {
    TurnsPush(s.log.acts, Write(VtidOf(s, p), addr, data));
    hide Turns;
  }

  lemma CarryOutStill(s: State, p: Pid, cmd: nat, plan: FutexPlan)
    ensures Still(LineOf(s), LineOf(CarryOut(s, p, cmd, plan)))
  {
    match plan {
      case PassThrough =>
      case ParkOn(addr) =>
        SkipStill(s, p, SYS_FUTEX, 0);
        BlockStill(SkipSyscall(s, p, SYS_FUTEX, 0), p, addr);
        hide SkipSyscall, Block, Turns;
      case WakeOn(addr, val) =>
        WakeStill(s, s.reg.threads, addr, val);
        SkipStill(WakeAt(s, addr, val), p, SYS_FUTEX, WakeCount(s, addr, val));
        hide SkipSyscall, WakeAt, WakeCount, Turns;
      case RequeueOn(addr, val, val2) =>
        WakeStill(s, s.reg.threads, addr, val);
        var u := WakeAt(s, addr, val);
        WakeStill(u, u.reg.threads, addr, val2);
        SkipStill(WakeAt(u, addr, val2), p, SYS_FUTEX, WakeCount(s, addr, val) + WakeCount(u, addr, val2));
        hide SkipSyscall, WakeAt, WakeCount, Turns;
    }
  }

  lemma GetRandomStill(s: State, p: Pid, regs: Regs, mem: Memory)
    ensures LineOf(InterceptGetRandom(s, p, regs, mem)) == LineOf(s)
  {
    var buflen := if regs.rsi < GETRANDOM_MAX then regs.rsi else GETRANDOM_MAX;
    var bytes := Recorder.Filled(s.dev.rng, buflen);
    var word := Prng.WordAfter(s.dev.rng, Recorder.DrawsFor(buflen));
    hide Recorder.Filled, Recorder.Hex, Prng.WordAfter, Recorder.DrawsFor, WriteMem, SkipSyscall, Turns;
    var s1 := s.(dev := s.dev.(rng := word));
    assert LineOf(s1) == LineOf(s);
    WriteStill(s1, p, regs.rdi, Random(bytes), mem.writable);
    var s2 := if buflen > 0 then WriteMem(s1, p, regs.rdi, Random(bytes), mem.writable) else s1;
    SkipStill(s2, p, SYS_GETRANDOM, buflen);
    var s3 := SkipSyscall(s2, p, SYS_GETRANDOM, buflen);
    var event := GetRandom(buflen, Recorder.Hex(bytes));
    assert InterceptGetRandom(s, p, regs, mem) == if s2.outcome.InProgress? then Emit(s3, event) else s2;
    hide InterceptGetRandom, GETRANDOM_MAX;
    EmitStill(s3, event);
  }

  lemma EmitStill(s: State, e: Event)
    ensures LineOf(Emit(s, e)) == LineOf(s)
  {
    hide Turns;
  }

  lemma ClockStill(s: State, p: Pid, regs: Regs, mem: Memory)
    ensures LineOf(InterceptClockGettime(s, p, regs, mem)) == LineOf(s)
    ensures LineOf(InterceptGetTimeOfDay(s, p, regs, mem)) == LineOf(s)
  {
    hide Clock.Read, Clock.NextTick;
    var clk := AsI32(regs.rdi);
    var r := Clock.Read(s.dev.tick, clk);
    var u := s.(dev := s.dev.(tick := Clock.NextTick(s.dev.tick, clk)));
    WriteStill(u, p, regs.rsi, Time(r.sec, r.nsec), mem.writable);
    SkipStill(WriteMem(u, p, regs.rsi, Time(r.sec, r.nsec), mem.writable), p, SYS_CLOCK_GETTIME, 0);
    var w := Clock.Read(s.dev.tick, Clock.CLOCK_REALTIME);
    WriteStill(s, p, regs.rdi, Time(w.sec, w.nsec / 1_000), mem.writable);
    SkipStill(WriteMem(s, p, regs.rdi, Time(w.sec, w.nsec / 1_000), mem.writable), p, SYS_GETTIMEOFDAY, 0);
    hide WriteMem, SkipSyscall, Turns;
  }

  lemma EntryStill(s: State, p: Pid, regs: Regs, mem: Memory)
    ensures Still(LineOf(s), LineOf(OnSyscallEntry(s, p, regs, mem)))
  {
    CarryOutStill(s, p, FutexCmd(regs), PlanFutex(s, p, regs, mem));
    GetRandomStill(s, p, regs, mem);
    ClockStill(s, p, regs, mem);
    hide CarryOut, PlanFutex, InterceptGetRandom, InterceptClockGettime, InterceptGetTimeOfDay, Turns;
  }

  lemma ExitStill(s: State, p: Pid)
    ensures LineOf(OnSyscallExit(s, p)) == LineOf(s)
  {
    if p in s.calls.pending {
      TurnsPush(s.log.acts, Return(VtidOf(s, p), s.calls.pending[p].syscall, s.calls.pending[p].retval));
    }
    hide Turns;
  }

  lemma AdmitStill(s: State, c: Pid)
    ensures Still(LineOf(s), LineOf(Admit(s, c))) && Admit(s, c).reg == s.reg
  {
    ReleaseStill(s.(q := s.q.(stoppedPending := s.q.stoppedPending - {c})), c);
    hide Release, Turns;
  }

  lemma RegisterStill(s: State, c: Pid, info: CloneInfo)
    ensures Still(LineOf(s), LineOf(Register(s, c, info)))
    ensures forall r :: r in s.reg.threads ==>
              r in Register(s, c, info).reg.threads && Register(s, c, info).reg.threads[r] == s.reg.threads[r]
  {
    AdmitStill(Enrol(s, c, Thread(s.reg.vtidNext, info.childTid, info.flags, HasCloneThread(info.flags))), c);
    hide Admit, Turns;
  }

  lemma HandleCloneCases(s: State, p: Pid, c: Pid) returns (e: State, info: CloneInfo)
    ensures e == s.(calls := s.calls.(clonePending := s.calls.clonePending - {p}))
    ensures var t := Register(e, c, info);
            HandleClone(s, p, c) ==
            if !t.outcome.InProgress? then t
            else if c in t.q.pendingStart then t.(focus := t.focus.(frames := t.focus.frames + [Frame(p, c)]))
            else Continue(t, p)
  {
    info := if p in s.calls.clonePending then s.calls.clonePending[p] else CloneInfo(0, 0);
    e := s.(calls := s.calls.(clonePending := s.calls.clonePending - {p}));
    hide Register, Continue;
  }

  lemma FramesInvisible(a: Line, t: State, frames: seq<Frame>)
    requires Still(a, LineOf(t))
    ensures Still(a, LineOf(t.(focus := t.focus.(frames := frames))))
  {
    hide Turns;
  }

  lemma StashInvisible(s: State, stash: map<Pid, CloneInfo>)
    ensures LineOf(s.(calls := s.calls.(clonePending := stash))) == LineOf(s)
  {
    hide Turns;
  }

  lemma CloneStill(s: State, p: Pid, c: Pid)
    ensures Still(LineOf(s), LineOf(HandleClone(s, p, c)))
  {
    hide *;
    var e, info := HandleCloneCases(s, p, c);
    StashInvisible(s, e.calls.clonePending);
    RegisterStill(e, c, info);
    var t := Register(e, c, info);
    ResumeStill(t, p);
    FramesInvisible(LineOf(s), t, t.focus.frames + [Frame(p, c)]);
  }

  lemma FinishStill(s: State)
    requires s.focus.frames != []
    ensures Still(LineOf(s), LineOf(FinishAwait(s)))
  {
    var f := s.focus.frames[|s.focus.frames| - 1];
    var e := s.(q := s.q.(pendingStart := s.q.pendingStart - {f.child}));
    ReleaseStill(e, f.child);
    var t := Release(e, f.child);
    hide Release, Turns;
    if t.outcome.InProgress? && t.focus.frames != [] {
      ResumeStill(t.(focus := t.focus.(frames := t.focus.frames[..|t.focus.frames| - 1])), f.parent);
    }
    FinishFrames(e, f.child);
    hide Continue;
  }

  lemma FinishFrames(s: State, c: Pid)
    ensures Release(s, c).focus == s.focus
  {
  }

  lemma SignalStill(s: State, p: Pid, sig: Signal)
    ensures Still(LineOf(s), LineOf(HandleSignalStop(s, p, sig)))
  {
    ResumeStill(s, p);
    ReleaseStill(s.(q := s.q.(pendingStart := s.q.pendingStart - {p})), p);
    PtraceStill(s, p, Some(sig));
    hide ResumeThread, Release, PtraceSyscall, Turns;
  }

  /** A dying thread leaves the line, whoever its death wakes joins the end. */
  lemma DeathStill(s: State, p: Pid, record: bool)
    ensures var l := LineOf(s);
            Still(l.(queue := Without(l.queue, p)), LineOf(OnThreadExit(s, p, record)))
  {
    if p in s.reg.threads {
      var t := s.reg.threads[p];
      var s1 := s.(reg := s.reg.(threads := s.reg.threads - {p}));
      WakeStill(s1, s.reg.threads, t.childTid, 1);
      var s2 := if t.childTid != 0 && HasClearTid(t.flags) then Wake(s1, s.reg.threads, t.childTid, 1) else s1;
      TurnsPush(s2.log.acts, Died(t.vtid));
      WithoutConcat(s.q.runnable, s2.q.runnable[|s.q.runnable|..], p);
      assert s2.q.runnable == s.q.runnable + s2.q.runnable[|s.q.runnable|..];
      hide Wake, Turns, Without, Purge;
    }
    hide Turns, Without, Purge;
  }

  // ----- one status

  /** A death other than the init's takes its thread out of the line. */
  ghost function Leaving(s: State, l: Line, st: Status): Line {
    if (st.Exited? || st.Killed?) && st.pid != s.reg.init then l.(queue := Without(l.queue, st.pid)) else l
  }

  lemma YieldMoves(d: State, p: Pid)
    requires Stopped(d, p) && IsScheduled(d, p)
    ensures Moves(LineOf(d), LineOf(YieldCurrent(d, p)), YieldCurrent(d, p).reg.threads)
  {
    var u := PushRunnable(SetCurrent(d, None), p);
    NoDupAppend(d.q.runnable, [p]);
    assert Partition(u);
    hide ParkedOf, IdentityOf, KernelOf, FramesOf, RunsAmong, Turns;
    ScheduleMoves(u);
    hide PartitionOf, ScheduleNext;
    StillMoves(LineOf(d), LineOf(u), LineOf(ScheduleNext(u)), u.reg.threads);
  }

  lemma SyscallMoves(s: State, p: Pid, op: SyscallOp)
    requires Inv(s) && s.outcome.InProgress? && Legal(s, SyscallStop(p, op))
    ensures var d := SetTask(s, p, Held); Moves(LineOf(s), LineOf(HandleSyscall(d, p, op)), HandleSyscall(d, p, op).reg.threads)
  {
    StopKeeps(s, p);
    var d := SetTask(s, p, Held);
    assert LineOf(d) == LineOf(s);
    hide Inv, Legal, SetTask, Turns;
    if IsScheduled(d, p) && op.Exit? {
      var t := OnSyscallExit(d, p);
      ExitStill(d, p);
      StoppedAfterExit(d, p);
      hide OnSyscallExit, Stopped, YieldCurrent;
      YieldMoves(t, p);
    } else {
      hide Stopped, YieldCurrent;
      HandleStill(d, p, op);
    }
  }

  lemma StoppedAfterExit(d: State, p: Pid)
    requires Stopped(d, p) && IsScheduled(d, p)
    ensures Stopped(OnSyscallExit(d, p), p) && IsScheduled(OnSyscallExit(d, p), p)
  {
    var t := OnSyscallExit(d, p);
    ExitStopEffect(d, p);
    CallsKeep(d, t, p);
    hide OnSyscallExit, PartitionOf, ParkedOf, IdentityOf, KernelOf, FramesOf;
    forall r ensures !RunsAmong(t.reg.threads, t.kern.task, r) {
      assert !RunsAmong(d.reg.threads, d.kern.task, r);
    }
  }

  lemma InterceptedStill(d: State, p: Pid, op: SyscallOp)
    ensures Still(LineOf(d), LineOf(Intercepted(d, p, op)))
  {
    if op.Entry? { EntryStill(d, p, op.regs, op.mem); }
    ExitStill(d, p);
    hide OnSyscallEntry, OnSyscallExit, Turns;
  }

  lemma HandleStill(d: State, p: Pid, op: SyscallOp)
    requires !(IsScheduled(d, p) && op.Exit?)
    ensures Still(LineOf(d), LineOf(HandleSyscall(d, p, op)))
  {
    hide *;
    InterceptedStill(d, p, op);
    var t := Intercepted(d, p, op);
    ResumeStill(t, p);
    HandleSyscallCases(d, p, op);
    StillAlone(LineOf(d), t);
  }

  lemma StillAlone(a: Line, t: State)
    requires Still(a, LineOf(t))
    ensures Still(a, LineOf(SetCurrent(t, None)))
  {
    hide Turns;
  }

  lemma DeathMoves(s: State, p: Pid)
    requires Inv(s) && p in s.kern.task && p != s.reg.init
    ensures var d := s.(kern := s.kern.(task := s.kern.task - {p})); var l := LineOf(s);
            Moves(l.(queue := Without(l.queue, p)), LineOf(HandleDeath(d, p)), HandleDeath(d, p).reg.threads)
  {
    var d := s.(kern := s.kern.(task := s.kern.task - {p}));
    var record := s.focus.current == Some(p);
    ExitKeepsTables(d, p, record);
    ExitEffect(d, p, record);
    DeathStill(d, p, record);
    var t := OnThreadExit(d, p, record);
    hide OnThreadExit, ScheduleNext, AfterJoinWake, Turns, Without, Purge;
    var l := LineOf(s);
    if record && !t.focus.groupExiting {
      IdleAfterDeath(t, p);
      var u := SetCurrent(t, None);
      hide PartitionOf, ParkedOf, IdentityOf, KernelOf, FramesOf, RunsAmong;
      ScheduleMoves(u);
      StillMoves(l.(queue := Without(l.queue, p)), LineOf(u), LineOf(ScheduleNext(u)), u.reg.threads);
    }
  }

  lemma DeliverStill(s: State, st: Status)
    ensures LineOf(Deliver(s, st)) == LineOf(s) && Deliver(s, st).reg == s.reg && Deliver(s, st).focus == s.focus
  {
    hide Turns;
  }

  lemma InnerMoves(s: State, st: Status)
    requires Inv(s) && s.outcome.InProgress? && Legal(s, st)
    ensures Moves(Leaving(s, LineOf(s), st), LineOf(Inner(s, st)), Inner(s, st).reg.threads)
  {
    var d := Deliver(s, st);
    DeliverStill(s, st);
    hide Turns, Without;
    if Awaited(s, st) {
      FinishStill(d);
      hide FinishAwait, Deliver, Inv, Legal;
    } else {
      match st {
        case SyscallStop(p, op) => SyscallMoves(s, p, op); hide HandleSyscall, Inv, Legal;
        case CloneEvent(p, c) => CloneStill(d, p, c); hide HandleClone, Deliver, Inv, Legal;
        case ExitEvent(p) => ResumeStill(d, p); hide ResumeThread, Deliver, Inv, Legal;
        case OtherEvent(p) => ResumeStill(d, p); hide Continue, Deliver, Inv, Legal;
        case SignalStop(p, sig) => SignalStill(d, p, sig); hide HandleSignalStop, Deliver, Inv, Legal;
        case Exited(p, _) => if p != s.reg.init { DeathMoves(s, p); } hide HandleDeath, Inv;
        case Killed(p, _) => if p != s.reg.init { DeathMoves(s, p); } hide HandleDeath, Inv;
        case Idle => hide Inv, Legal;
      }
    }
  }

  lemma TailMoves(a: Line, u: State)
    requires Moves(a, LineOf(u), u.reg.threads) && (u.outcome.InProgress? ==> Partition(u))
    ensures Moves(a, LineOf(Tail(u)), Tail(u).reg.threads)
  {
    hide PartitionOf, ScheduleNext, Turns;
    if u.outcome.InProgress? && u.focus.frames == [] && u.focus.current == None {
      ScheduleMoves(u);
      assert Still(a, LineOf(u));
      StillMoves(a, LineOf(u), LineOf(ScheduleNext(u)), u.reg.threads);
    }
  }

  /** One status gives at most one turn, to the head of the queue; the queue otherwise only loses the dead and
      grows at its end. */
  lemma StepMoves(s: State, st: Status)
    requires Inv(s) && s.outcome.InProgress? && Legal(s, st)
    ensures Moves(Leaving(s, LineOf(s), st), LineOf(Step(s, st)), Step(s, st).reg.threads)
  {
    InnerMoves(s, st);
    InnerKeeps(s, st);
    hide Inner, Tail, Moves, Leaving, Legal, Turns, PartitionOf, ParkedOf, IdentityOf, KernelOf, FramesOf;
    TailMoves(Leaving(s, LineOf(s), st), Inner(s, st));
  }

  // ----- waiting in line

  /** How many are in front of `p`. */
  function Ahead(q: seq<Pid>, p: Pid): nat { if q == [] || q[0] == p then 0 else 1 + Ahead(q[1..], p) }

  lemma {:induction false} AheadAppend(q: seq<Pid>, more: seq<Pid>, p: Pid)
    ensures p in q ==> Ahead(q + more, p) == Ahead(q, p)
    ensures p !in q ==> Ahead(q + more, p) == |q| + Ahead(more, p)
    ensures Ahead(q, p) <= |q|
  {
    if q == [] {
      assert q + more == more;
    } else {
      assert (q + more)[1..] == q[1..] + more;
      AheadAppend(q[1..], more, p);
    }
  }

  lemma {:induction false} AheadWithout(q: seq<Pid>, x: Pid, p: Pid, r: Pid)
    requires x != p && x != r
    ensures Ahead(Without(q, x), p) <= Ahead(q, p)
    ensures Ahead(q, p) < Ahead(q, r) && p in q ==> Ahead(Without(q, x), p) < Ahead(Without(q, x), r)
  {
    if q != [] {
      AheadWithout(q[1..], x, p, r);
    }
  }

  /** A waiting thread that stays alive keeps its place, moves up, or is served. */
  lemma PlaceAfter(a: Line, b: Line, threads: map<Pid, Thread>, p: Pid)
    requires p in a.queue && Moves(a, b, threads)
    ensures Still(a, b) ==> p in b.queue && Ahead(b.queue, p) == Ahead(a.queue, p)
    ensures !Still(a, b) ==>
              exists h :: h in threads && b.turns == a.turns + [threads[h].vtid] && b.current == Some(h)
                          && (h == p || (Ahead(a.queue, p) > 0 && p in b.queue && Ahead(b.queue, p) == Ahead(a.queue, p) - 1))
  {
    hide Without;
    if Still(a, b) {
      assert b.queue == a.queue + b.queue[|a.queue|..];
      AheadAppend(a.queue, b.queue[|a.queue|..], p);
    } else {
      var m :| Still(a, m) && Served(m, b, threads);
      assert m.queue == a.queue + m.queue[|a.queue|..];
      AheadAppend(a.queue, m.queue[|a.queue|..], p);
      var h := m.queue[0];
      assert h in threads && b.turns == a.turns + [threads[h].vtid];
    }
  }

  /** A thread that survives a step keeps its record; a dead thread is off the books. */
  lemma StepNames(s: State, st: Status, p: Pid)
    requires Inv(s) && s.outcome.InProgress? && Legal(s, st) && p in s.reg.threads && p in Step(s, st).reg.threads
    ensures Step(s, st).reg.threads[p] == s.reg.threads[p]
    ensures (st.Exited? || st.Killed?) && st.pid == p ==> p == s.reg.init
  {
    TailNames(s, st);
    hide *;
    InnerNames(s, st, p);
  }

  lemma {:induction false} ScheduleNames(s: State)
    ensures ScheduleNext(s).reg == s.reg
    decreases |s.q.runnable|
  {
    if s.q.runnable != [] {
      var tid := s.q.runnable[0];
      if tid !in s.reg.threads || tid in s.q.blocked {
        ScheduleNames(PopRunnable(s));
      } else {
        PickServes(PopRunnable(s), tid);
        hide Pick;
      }
    }
  }

  lemma TailNames(s: State, st: Status)
    requires s.outcome.InProgress?
    ensures Step(s, st).reg == Inner(s, st).reg
  {
    ScheduleNames(Inner(s, st));
    hide Inner, ScheduleNext;
  }

  lemma EntryNames(s: State, p: Pid, regs: Regs, mem: Memory)
    ensures OnSyscallEntry(s, p, regs, mem).reg == s.reg
  {
    if regs.origRax == SYS_FUTEX {
      CarryOutNames(s, p, FutexCmd(regs), PlanFutex(s, p, regs, mem));
      hide CarryOut, PlanFutex;
    } else {
      hide Recorder.Filled, Recorder.Hex, Prng.WordAfter, Clock.Read, Clock.NextTick, PlanFutex, InterceptFutex;
    }
  }

  lemma CarryOutNames(s: State, p: Pid, cmd: nat, plan: FutexPlan)
    ensures CarryOut(s, p, cmd, plan).reg == s.reg
  {
    hide WakeCount, Wake;
    if plan.WakeOn? || plan.RequeueOn? {
      WakeStill(s, s.reg.threads, plan.addr, plan.val);
      if plan.RequeueOn? {
        var u := WakeAt(s, plan.addr, plan.val);
        WakeStill(u, u.reg.threads, plan.addr, plan.val2);
      }
    }
  }

  lemma DeathNames(d: State, p: Pid)
    requires Identity(d)
    ensures HandleDeath(d, p).reg == d.reg.(threads := d.reg.threads - {p})
  {
    var record := d.focus.current == Some(p);
    ExitEffect(d, p, record);
    ScheduleNames(SetCurrent(OnThreadExit(d, p, record), None));
    hide OnThreadExit, ScheduleNext, AfterJoinWake;
  }

  lemma CloneNames(s: State, p: Pid, c: Pid, r: Pid)
    requires r in s.reg.threads
    ensures r in HandleClone(s, p, c).reg.threads && HandleClone(s, p, c).reg.threads[r] == s.reg.threads[r]
  {
    hide *;
    var e, info := HandleCloneCases(s, p, c);
    RegisterStill(e, c, info);
    ResumeStill(Register(e, c, info), p);
  }

  lemma InterceptedNames(d: State, p: Pid, op: SyscallOp)
    ensures Intercepted(d, p, op).reg == d.reg
  {
    if op.Entry? { EntryNames(d, p, op.regs, op.mem); }
    assert OnSyscallExit(d, p).reg == d.reg;
    hide OnSyscallEntry, OnSyscallExit;
  }

  lemma YieldNames(t: State, p: Pid)
    ensures YieldCurrent(t, p).reg == t.reg && SetCurrent(t, None).reg == t.reg
  {
    ScheduleNames(if t.focus.current == Some(p) then PushRunnable(SetCurrent(t, None), p) else t);
    hide ScheduleNext;
  }

  lemma SyscallNames(d: State, p: Pid, op: SyscallOp)
    ensures HandleSyscall(d, p, op).reg == d.reg
  {
    hide *;
    InterceptedNames(d, p, op);
    ResumeStill(Intercepted(d, p, op), p);
    YieldNames(Intercepted(d, p, op), p);
    HandleSyscallCases(d, p, op);
  }

  lemma InnerNames(s: State, st: Status, p: Pid)
    requires Inv(s) && Legal(s, st) && p in s.reg.threads && p in Inner(s, st).reg.threads
    ensures Inner(s, st).reg.threads[p] == s.reg.threads[p]
    ensures (st.Exited? || st.Killed?) && st.pid == p ==> p == s.reg.init
  {
    var d := Deliver(s, st);
    DeliverStill(s, st);
    if Awaited(s, st) {
      var f := d.focus.frames[|d.focus.frames| - 1];
      var e := d.(q := d.q.(pendingStart := d.q.pendingStart - {f.child}));
      ReleaseStill(e, f.child);
      FinishFrames(e, f.child);
      var t := Release(e, f.child);
      hide Release, Continue, Deliver, Inv, Legal;
      if t.outcome.InProgress? {
        ResumeStill(t.(focus := t.focus.(frames := t.focus.frames[..|t.focus.frames| - 1])), f.parent);
      }
    } else {
      hide FinishAwait;
      match st {
        case SyscallStop(r, op) => SyscallNames(d, r, op); hide HandleSyscall, Deliver, Inv, Legal;
        case CloneEvent(r, c) => CloneNames(d, r, c, p); hide HandleClone, Deliver, Inv, Legal;
        case ExitEvent(r) => ResumeStill(d, r); hide ResumeThread, Deliver, Inv, Legal;
        case OtherEvent(r) => ResumeStill(d, r); hide Continue, Deliver, Inv, Legal;
        case SignalStop(r, sig) =>
          ResumeStill(d, r);
          ReleaseStill(d.(q := d.q.(pendingStart := d.q.pendingStart - {r})), r);
          PtraceStill(d, r, Some(sig));
          hide ResumeThread, Release, PtraceSyscall, Deliver, Inv, Legal;
        case Exited(r, _) => DeathNames(d, r); hide HandleDeath, Inv;
        case Killed(r, _) => DeathNames(d, r); hide HandleDeath, Inv;
        case Idle => hide Inv, Legal;
      }
    }
  }

  // ----- bounded waiting

  ghost predicate Alive(s: State, sts: seq<Status>, p: Pid) {
    forall i :: 0 <= i <= |sts| ==> p in Run(s, sts[..i]).reg.threads
  }

  /** The turns given since `s`. */
  ghost function Given(s: State, t: State): seq<Vtid>
    requires Turns(s.log.acts) <= Turns(t.log.acts)
  {
    Turns(t.log.acts)[|Turns(s.log.acts)|..]
  }

  /** With `k` threads in front at `s`: served among the first k + 1 turns, or still waiting and the turns
      given so far and the threads still in front are at most k. */
  ghost predicate ServedInTime(s: State, t: State, p: Pid, v: Vtid, k: nat) {
    && Turns(s.log.acts) <= Turns(t.log.acts)
    && ((exists i :: 0 <= i <= k && i < |Given(s, t)| && Given(s, t)[i] == v)
        || (p in t.q.runnable && |Given(s, t)| + Ahead(t.q.runnable, p) <= k))
  }

  /** One step of the line, seen from a thread `p` waiting in it. */
  lemma LineInTime(s: State, t: State, u: State, a: Line, p: Pid, v: Vtid, k: nat)
    requires Turns(s.log.acts) <= Turns(t.log.acts) && a.turns == Turns(t.log.acts) && Moves(a, LineOf(u), u.reg.threads)
    requires p in a.queue && |Given(s, t)| + Ahead(a.queue, p) <= k && p in u.reg.threads && u.reg.threads[p].vtid == v
    ensures ServedInTime(s, u, p, v, k)
  {
    hide Turns, Ahead;
    MovesTurns(a, LineOf(u), u.reg.threads);
    PlaceAfter(a, LineOf(u), u.reg.threads, p);
    hide Moves;
    if !Still(a, LineOf(u)) {
      var h :| h in u.reg.threads && LineOf(u).turns == a.turns + [u.reg.threads[h].vtid]
               && (h == p || (Ahead(a.queue, p) > 0 && p in u.q.runnable && Ahead(u.q.runnable, p) == Ahead(a.queue, p) - 1));
      if h == p {
        assert Given(s, u)[|Given(s, t)|] == v;
      }
    }
  }

  /** Once served, always served. */
  lemma ServedStays(s: State, t: State, u: State, p: Pid, v: Vtid, k: nat)
    requires Turns(s.log.acts) <= Turns(t.log.acts) <= Turns(u.log.acts)
    requires exists i :: 0 <= i <= k && i < |Given(s, t)| && Given(s, t)[i] == v
    ensures ServedInTime(s, u, p, v, k)
  {
    hide Turns, Ahead;
    var i :| 0 <= i <= k && i < |Given(s, t)| && Given(s, t)[i] == v;
    assert Given(s, u)[i] == v;
  }

  lemma LeavingPlace(t: State, st: Status, p: Pid)
    requires p in t.q.runnable && ((st.Exited? || st.Killed?) && st.pid == p ==> p == t.reg.init)
    ensures var a := Leaving(t, LineOf(t), st); p in a.queue && Ahead(a.queue, p) <= Ahead(t.q.runnable, p)
  {
    hide Turns, Without, Ahead;
    if (st.Exited? || st.Killed?) && st.pid != t.reg.init {
      AheadWithout(t.q.runnable, st.pid, p, p);
    }
  }

  lemma InTimeCases(s: State, t: State, p: Pid, v: Vtid, k: nat)
    requires ServedInTime(s, t, p, v, k)
    ensures Turns(s.log.acts) <= Turns(t.log.acts)
    ensures (exists i :: 0 <= i <= k && i < |Given(s, t)| && Given(s, t)[i] == v)
            || (p in t.q.runnable && |Given(s, t)| + Ahead(t.q.runnable, p) <= k)
  {
    hide Turns, Ahead;
  }

  lemma StepInTime(s: State, t: State, st: Status, p: Pid, v: Vtid, k: nat)
    requires ServedInTime(s, t, p, v, k) && Inv(t) && t.outcome.InProgress? && Legal(t, st)
    requires p in t.reg.threads && t.reg.threads[p].vtid == v && p in Step(t, st).reg.threads
    ensures ServedInTime(s, Step(t, st), p, v, k)
  {
    hide *;
    var u := Step(t, st);
    InTimeCases(s, t, p, v, k);
    StepMoves(t, st);
    StepNames(t, st, p);
    var a := Leaving(t, LineOf(t), st);
    LeavingTurns(t, st);
    MovesTurns(a, LineOf(u), u.reg.threads);
    LineTurns(u);
    if exists i :: 0 <= i <= k && i < |Given(s, t)| && Given(s, t)[i] == v {
      ServedStays(s, t, u, p, v, k);
    } else {
      LeavingPlace(t, st, p);
      LineInTime(s, t, u, a, p, v, k);
    }
  }

  lemma LineTurns(u: State)
    ensures LineOf(u).turns == Turns(u.log.acts)
  {
    hide Turns;
  }

  lemma MovesTurns(a: Line, b: Line, threads: map<Pid, Thread>)
    requires Moves(a, b, threads)
    ensures a.turns <= b.turns
  {
  }

  /** No starvation: from every reachable state, a runnable thread with k threads in front of it that stays alive
      gets its turn after at most k turns of others, whatever the workload does. */
  lemma {:induction false} BoundedWait(s: State, sts: seq<Status>, p: Pid)
    requires Inv(s) && LegalRun(s, sts) && p in s.q.runnable && Alive(s, sts, p)
    ensures p in s.reg.threads && p in Run(s, sts).reg.threads && Run(s, sts).reg.threads[p] == s.reg.threads[p] && Sound(Run(s, sts))
    ensures ServedInTime(s, Run(s, sts), p, s.reg.threads[p].vtid, Ahead(s.q.runnable, p))
  {
    hide Step, Inv, Legal;
    assert p in Run(s, sts[..0]).reg.threads;
    if sts == [] {
      assert Run(s, sts) == s;
      InvSound(s);
      assert Given(s, s) == [];
    } else {
      var k := |sts| - 1;
      var pre, st := sts[..k], sts[k];
      RunParts(s, sts, p);
      BoundedWait(s, pre, p);
      var t := Run(s, pre);
      hide ServedInTime;
      StepKeeps(t, st);
      if t.outcome.InProgress? {
        StepInTime(s, t, st, p, s.reg.threads[p].vtid, Ahead(s.q.runnable, p));
        StepNames(t, st, p);
      } else {
        StepOver(t, st);
      }
    }
  }

  lemma RunParts(s: State, sts: seq<Status>, p: Pid)
    requires LegalRun(s, sts) && sts != [] && Alive(s, sts, p)
    ensures var k := |sts| - 1;
            && LegalRun(s, sts[..k]) && Alive(s, sts[..k], p) && Legal(Run(s, sts[..k]), sts[k])
            && Run(s, sts) == Step(Run(s, sts[..k]), sts[k])
            && p in Run(s, sts[..k]).reg.threads && p in Run(s, sts).reg.threads
  {
    hide *;
    LegalParts(s, sts);
    AliveParts(s, sts, p);
    RunLast(s, sts);
  }

  lemma LegalParts(s: State, sts: seq<Status>)
    requires LegalRun(s, sts) && sts != []
    ensures LegalRun(s, sts[..|sts| - 1]) && Legal(Run(s, sts[..|sts| - 1]), sts[|sts| - 1])
  {
    hide Run, Legal;
    var pre := sts[..|sts| - 1];
    forall i | 0 <= i < |pre| ensures Legal(Run(s, pre[..i]), pre[i]) {
      assert pre[..i] == sts[..i];
      assert Legal(Run(s, sts[..i]), sts[i]);
    }
  }

  lemma AliveParts(s: State, sts: seq<Status>, p: Pid)
    requires Alive(s, sts, p) && sts != []
    ensures Alive(s, sts[..|sts| - 1], p) && p in Run(s, sts[..|sts| - 1]).reg.threads && p in Run(s, sts).reg.threads
  {
    hide Run;
    var pre := sts[..|sts| - 1];
    forall i | 0 <= i <= |pre| ensures p in Run(s, pre[..i]).reg.threads {
      assert pre[..i] == sts[..i];
      assert p in Run(s, sts[..i]).reg.threads;
    }
    assert sts[..|sts|] == sts;
    assert p in Run(s, sts[..|sts|]).reg.threads && p in Run(s, sts[..|pre|]).reg.threads;
  }

  // ----- strict alternation

  /** In line or running: neither parked nor gone. */
  ghost predicate InLine(s: State, p: Pid) { p in s.q.runnable || s.focus.current == Some(p) }

  /** `b` is to be served before `a` is served again. */
  ghost predicate Before(l: Line, b: Pid, a: Pid) {
    && b in l.queue && l.current != Some(b)
    && ((l.current == Some(a) && a !in l.queue) || (a in l.queue && Ahead(l.queue, b) < Ahead(l.queue, a)))
  }

  /** The turns of two threads out of all turns. */
  function Duel(turns: seq<Vtid>, v: Vtid, w: Vtid): seq<Vtid> {
    if turns == [] then []
    else
      var rest := Duel(turns[..|turns| - 1], v, w);
      var last := turns[|turns| - 1];
      if last == v || last == w then rest + [last] else rest
  }

  ghost predicate Alternates(turns: seq<Vtid>) { forall i :: 0 < i < |turns| ==> turns[i] != turns[i - 1] }

  lemma DuelPush(turns: seq<Vtid>, last: Vtid, v: Vtid, w: Vtid)
    ensures Duel(turns + [last], v, w) == if last == v || last == w then Duel(turns, v, w) + [last] else Duel(turns, v, w)
  {
    assert (turns + [last])[..|turns|] == turns;
  }

  /** The next turn of the two is the one's that is before the other. */
  lemma BeforeAfter(a: Line, b: Line, threads: map<Pid, Thread>, p: Pid, q: Pid)
    requires Before(a, p, q) && p != q && Moves(a, b, threads)
    requires (p in b.queue || b.current == Some(p)) && (q in b.queue || b.current == Some(q))
    requires forall x :: x in b.queue ==> b.current != Some(x)
    ensures (b.turns == a.turns && Before(b, p, q))
            || exists h :: h in threads && b.turns == a.turns + [threads[h].vtid]
                           && if h == p then Before(b, q, p) else h != q && Before(b, p, q)
  {
    hide Without;
    if Still(a, b) {
      StillBefore(a, b, p, q);
    } else {
      var m :| Still(a, m) && Served(m, b, threads);
      var h := m.queue[0];
      assert h in threads && b.turns == a.turns + [threads[h].vtid];
      FrontOrder(a, m.queue, p, q);
      hide Still, Before, Moves, Ahead;
      ServedOrder(m.queue, b, p, q);
    }
  }

  lemma FrontOrder(a: Line, queue: seq<Pid>, p: Pid, q: Pid)
    requires Before(a, p, q) && a.queue <= queue
    ensures p in queue && Ahead(queue, p) < Ahead(queue, q)
  {
    assert queue == a.queue + queue[|a.queue|..];
    AheadAppend(a.queue, queue[|a.queue|..], p);
    AheadAppend(a.queue, queue[|a.queue|..], q);
    AheadIn(a.queue, p);
  }

  lemma {:induction false} AheadIn(q: seq<Pid>, p: Pid)
    requires p in q
    ensures Ahead(q, p) < |q|
  {
    if q[0] != p { AheadIn(q[1..], p); }
  }

  lemma ServedOrder(queue: seq<Pid>, b: Line, p: Pid, q: Pid)
    requires queue != [] && p in queue && Ahead(queue, p) < Ahead(queue, q) && b.queue == queue[1..] && b.current == Some(queue[0])
    requires (q in b.queue || b.current == Some(q)) && forall x :: x in b.queue ==> b.current != Some(x)
    ensures queue[0] != q && if queue[0] == p then Before(b, q, p) else Before(b, p, q)
  {
  }

  lemma StillBefore(a: Line, b: Line, p: Pid, q: Pid)
    requires Before(a, p, q) && p != q && Still(a, b) && (q in b.queue || b.current == Some(q))
    requires forall x :: x in b.queue ==> b.current != Some(x)
    ensures Before(b, p, q)
  {
    FrontOrder(a, b.queue, p, q);
    hide Ahead;
  }

  /** Turns so far alternate, and the thread served last, if any, waits behind the other. */
  ghost predicate InTurn(s: State, t: State, p: Pid, q: Pid, v: Vtid, w: Vtid) {
    && Turns(s.log.acts) <= Turns(t.log.acts)
    && var d := Duel(Given(s, t), v, w);
       && Alternates(d)
       && (Before(LineOf(t), p, q) || Before(LineOf(t), q, p))
       && (d != [] && d[|d| - 1] == v ==> Before(LineOf(t), q, p))
       && (d != [] && d[|d| - 1] == w ==> Before(LineOf(t), p, q))
  }

  lemma LeavingBefore(t: State, st: Status, p: Pid, q: Pid)
    requires Before(LineOf(t), p, q) && (st.Exited? || st.Killed? ==> (st.pid != p && st.pid != q) || st.pid == t.reg.init)
    ensures Before(Leaving(t, LineOf(t), st), p, q)
  {
    hide Turns;
    if (st.Exited? || st.Killed?) && st.pid != t.reg.init {
      AheadWithout(t.q.runnable, st.pid, p, q);
    }
  }

  lemma OneTurn(s: State, t: State, u: State, p: Pid, q: Pid, v: Vtid, w: Vtid, a: Line)
    requires InTurn(s, t, p, q, v, w) && Before(a, p, q) && p != q && v != w && a.turns == Turns(t.log.acts) && Before(LineOf(t), p, q)
    requires Moves(a, LineOf(u), u.reg.threads) && InLine(u, p) && InLine(u, q)
    requires forall x :: x in u.q.runnable ==> u.focus.current != Some(x)
    requires forall h :: h in u.reg.threads ==> (u.reg.threads[h].vtid == v <==> h == p) && (u.reg.threads[h].vtid == w <==> h == q)
    ensures InTurn(s, u, p, q, v, w) || InTurn(s, u, q, p, w, v)
  {
    hide Turns, Duel, Ahead, Without;
    BeforeAfter(a, LineOf(u), u.reg.threads, p, q);
    hide Moves;
    NotBoth(LineOf(t), p, q);
    var given := Given(s, t);
    if LineOf(u).turns == a.turns && Before(LineOf(u), p, q) {
      assert Given(s, u) == given;
    } else {
      var h :| h in u.reg.threads && LineOf(u).turns == a.turns + [u.reg.threads[h].vtid]
               && if h == p then Before(LineOf(u), q, p) else h != q && Before(LineOf(u), p, q);
      assert Given(s, u) == given + [u.reg.threads[h].vtid];
      DuelPush(given, u.reg.threads[h].vtid, v, w);
    }
  }

  lemma NotBoth(l: Line, p: Pid, q: Pid)
    requires Before(l, p, q)
    ensures !Before(l, q, p)
  {
  }

  lemma {:induction false} DuelSymmetric(turns: seq<Vtid>, v: Vtid, w: Vtid)
    ensures Duel(turns, v, w) == Duel(turns, w, v)
  {
    if turns != [] {
      DuelSymmetric(turns[..|turns| - 1], v, w);
    }
  }

  lemma InTurnSymmetric(s: State, t: State, p: Pid, q: Pid, v: Vtid, w: Vtid)
    requires InTurn(s, t, p, q, v, w)
    ensures InTurn(s, t, q, p, w, v)
  {
    DuelSymmetric(Given(s, t), v, w);
    hide Turns, Duel, Ahead, Before;
  }

  lemma StepInTurn(s: State, t: State, st: Status, p: Pid, q: Pid, v: Vtid, w: Vtid)
    requires InTurn(s, t, p, q, v, w) && p != q && Inv(t) && t.outcome.InProgress? && Legal(t, st) && Inv(Step(t, st))
    requires p in t.reg.threads && t.reg.threads[p].vtid == v && q in t.reg.threads && t.reg.threads[q].vtid == w
    requires InLine(Step(t, st), p) && InLine(Step(t, st), q) && p in Step(t, st).reg.threads && q in Step(t, st).reg.threads
    ensures InTurn(s, Step(t, st), p, q, v, w)
  {
    hide *;
    var u := Step(t, st);
    StepMoves(t, st);
    StepNames(t, st, p);
    StepNames(t, st, q);
    Unique(u, p, q);
    Unique(t, p, q);
    var a := Leaving(t, LineOf(t), st);
    LeavingTurns(t, st);
    if Before(LineOf(t), p, q) {
      LeavingBefore(t, st, p, q);
      OneTurn(s, t, u, p, q, v, w, a);
    } else {
      InTurnBefore(s, t, p, q, v, w);
      InTurnSymmetric(s, t, p, q, v, w);
      LeavingBefore(t, st, q, p);
      OneTurn(s, t, u, q, p, w, v, a);
    }
    if InTurn(s, u, q, p, w, v) { InTurnSymmetric(s, u, q, p, w, v); }
  }

  lemma InTurnBefore(s: State, t: State, p: Pid, q: Pid, v: Vtid, w: Vtid)
    requires InTurn(s, t, p, q, v, w)
    ensures Before(LineOf(t), p, q) || Before(LineOf(t), q, p)
  {
    hide Turns, Duel, Ahead, Before;
  }

  lemma LeavingTurns(t: State, st: Status)
    ensures Leaving(t, LineOf(t), st).turns == Turns(t.log.acts)
  {
    hide Turns, Without;
  }

  /** Virtual ids tell threads apart, and the running thread is not in line. */
  lemma Unique(u: State, p: Pid, q: Pid)
    requires Inv(u) && p in u.reg.threads && q in u.reg.threads
    ensures forall x :: x in u.q.runnable ==> u.focus.current != Some(x)
    ensures forall h :: h in u.reg.threads ==> (u.reg.threads[h].vtid == u.reg.threads[p].vtid <==> h == p)
                                               && (u.reg.threads[h].vtid == u.reg.threads[q].vtid <==> h == q)
    ensures p != q ==> u.reg.threads[p].vtid != u.reg.threads[q].vtid
  {
    hide ParkedOf, KernelOf, FramesOf, RunsAmong;
  }

  lemma LineOrder(s: State, p: Pid, q: Pid)
    requires Inv(s) && InLine(s, p) && InLine(s, q) && p != q
    ensures Before(LineOf(s), p, q) || Before(LineOf(s), q, p)
  {
    hide ParkedOf, KernelOf, FramesOf, RunsAmong, IdentityOf, Turns;
    if p in s.q.runnable && q in s.q.runnable {
      AheadDistinct(s.q.runnable, p, q);
    }
  }

  lemma {:induction false} AheadDistinct(q: seq<Pid>, a: Pid, b: Pid)
    requires a in q && b in q && a != b
    ensures Ahead(q, a) != Ahead(q, b)
  {
    if q[0] != a && q[0] != b {
      AheadDistinct(q[1..], a, b);
    }
  }

  ghost predicate StaysInLine(s: State, sts: seq<Status>, p: Pid) {
    forall i :: 0 <= i <= |sts| ==> InLine(Run(s, sts[..i]), p)
  }

  /** Round robin: as long as two threads stay ready, their turns strictly alternate — between two turns of the
      one lies exactly one turn of the other. */
  lemma {:induction false} StrictRotation(s: State, sts: seq<Status>, p: Pid, q: Pid)
    requires Inv(s) && LegalRun(s, sts) && p != q && Run(s, sts).outcome.InProgress?
    requires Alive(s, sts, p) && Alive(s, sts, q) && StaysInLine(s, sts, p) && StaysInLine(s, sts, q)
    ensures p in s.reg.threads && q in s.reg.threads && Turns(s.log.acts) <= Turns(Run(s, sts).log.acts)
    ensures Alternates(Duel(Given(s, Run(s, sts)), s.reg.threads[p].vtid, s.reg.threads[q].vtid))
  {
    hide *;
    InTurnThroughout(s, sts, p, q);
    InTurnAlternates(s, Run(s, sts), p, q, s.reg.threads[p].vtid, s.reg.threads[q].vtid);
  }

  lemma InTurnAlternates(s: State, t: State, p: Pid, q: Pid, v: Vtid, w: Vtid)
    requires InTurn(s, t, p, q, v, w)
    ensures Turns(s.log.acts) <= Turns(t.log.acts) && Alternates(Duel(Given(s, t), v, w))
  {
    hide Turns, Duel, Before;
  }

  lemma InTurnStart(s: State, p: Pid, q: Pid, v: Vtid, w: Vtid)
    requires Before(LineOf(s), p, q) || Before(LineOf(s), q, p)
    ensures InTurn(s, s, p, q, v, w)
  {
    hide Turns, Before;
    assert Given(s, s) == [];
  }

  lemma StaysParts(s: State, sts: seq<Status>, p: Pid)
    requires StaysInLine(s, sts, p)
    ensures InLine(Run(s, sts), p) && (sts != [] ==> StaysInLine(s, sts[..|sts| - 1], p))
  {
    hide Run, InLine;
    assert sts[..|sts|] == sts;
    assert InLine(Run(s, sts[..|sts|]), p);
    if sts != [] {
      var pre := sts[..|sts| - 1];
      forall i | 0 <= i <= |pre| ensures InLine(Run(s, pre[..i]), p) {
        assert pre[..i] == sts[..i];
        assert InLine(Run(s, sts[..i]), p);
      }
    }
  }

  lemma AliveNow(s: State, sts: seq<Status>, p: Pid)
    requires Alive(s, sts, p)
    ensures p in s.reg.threads && p in Run(s, sts).reg.threads
  {
    hide Step;
    assert sts[..|sts|] == sts;
    assert p in Run(s, sts[..|sts|]).reg.threads && p in Run(s, sts[..0]).reg.threads;
  }

  lemma {:induction false} InTurnThroughout(s: State, sts: seq<Status>, p: Pid, q: Pid)
    requires Inv(s) && LegalRun(s, sts) && p != q && Run(s, sts).outcome.InProgress?
    requires Alive(s, sts, p) && Alive(s, sts, q) && StaysInLine(s, sts, p) && StaysInLine(s, sts, q)
    ensures p in s.reg.threads && q in s.reg.threads && p in Run(s, sts).reg.threads && q in Run(s, sts).reg.threads
    ensures Run(s, sts).reg.threads[p] == s.reg.threads[p] && Run(s, sts).reg.threads[q] == s.reg.threads[q]
    ensures InTurn(s, Run(s, sts), p, q, s.reg.threads[p].vtid, s.reg.threads[q].vtid) && Inv(Run(s, sts))
  {
    hide *;
    AliveNow(s, sts, p);
    AliveNow(s, sts, q);
    StaysParts(s, sts, p);
    StaysParts(s, sts, q);
    var v, w := s.reg.threads[p].vtid, s.reg.threads[q].vtid;
    if sts == [] {
      RunEmpty(s);
      LineOrder(s, p, q);
      InTurnStart(s, p, q, v, w);
    } else {
      RunParts(s, sts, p);
      RunParts(s, sts, q);
      var pre, st := sts[..|sts| - 1], sts[|sts| - 1];
      var t := Run(s, pre);
      if !t.outcome.InProgress? { StepOver(t, st); }
      InTurnThroughout(s, pre, p, q);
      StepAlive(t, st);
      StepNames(t, st, p);
      StepNames(t, st, q);
      StepInTurn(s, t, st, p, q, v, w);
    }
  }

  lemma StepAlive(t: State, st: Status)
    requires Inv(t) && t.outcome.InProgress? && Legal(t, st) && Step(t, st).outcome.InProgress?
    ensures Inv(Step(t, st))
  {
    hide Step, Inv, Legal;
    StepKeeps(t, st);
  }

}
