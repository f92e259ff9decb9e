/** The supervisor as the object it is in the source (src/runtime/supervisor.rs:140-798): a record of tables that its
    methods update in place, `dispatch` and `await_attach` calling each other. Every method is proved against the
    machine of `Machine`, so everything proved there of all runs holds of what `Supervise` writes and returns. */
module Supervisor {
  import opened Base
  import opened Machine
  import opened Recorder
  import Clock
  import Prng

  /** How a call that only touches the tables and the tracees returns. */
  datatype Try = Fine | Erred(error: Error)

  /** How `dispatch` and `await_attach` return: `Ok(None)`, `Ok(Some(code))`, or an error of either kind. */
  datatype Flow = Going | Ended(code: int) | Stopped(error: Error) | WaitFailed

  function FlowOf(try: Try): Flow {
    match try
    case Fine => Going
    case Erred(error) => Stopped(error)
  }

  function OutcomeOf(try: Try): Outcome {
    match try
    case Fine => InProgress
    case Erred(error) => Failed(error)
  }

  /** waitpid: the statuses the host will report, in order. It fails when no tracee is left to wait for. */
  class Host {
    const statuses: seq<Status>
    var reported: nat

    ghost predicate Valid() reads this { reported <= |statuses| }

    constructor (statuses: seq<Status>)
      ensures Valid() && this.statuses == statuses && reported == 0
    {
      this.statuses := statuses;
      reported := 0;
    }

    method WaitPid() returns (st: Option<Status>)
      requires Valid()
      modifies this
      ensures Valid()
      ensures old(reported) < |statuses| ==> st == Some(statuses[old(reported)]) && reported == old(reported) + 1
      ensures old(reported) == |statuses| ==> st == None && reported == old(reported)
    {
      if reported == |statuses| {
        return None;
      }
      st := Some(statuses[reported]);
      reported := reported + 1;
    }
  }

  class Supervisor {
    const init: Pid
    const rng: Generator
    const host: Host
    var tick: u64
    var pending: map<Pid, Inject>
    var seqNo: nat
    var trace: seq<Record>

    var threads: map<Pid, Thread>
    var vtidNext: Vtid
    var runnable: seq<Pid>
    var pendingStart: set<Pid>
    var stoppedPending: set<Pid>
    var blocked: set<Pid>
    var waiting: map<Addr, seq<Pid>>
    var current: Option<Pid>
    var lastVtid: Option<Vtid>
    var sigPending: map<Pid, Signal>
    var clonePending: map<Pid, CloneInfo>
    var groupExiting: bool

    // The tracees, as the kernel keeps them.
    var tasks: map<Pid, Task>
    var groupStatus: int

    // What the calls on the tracees amounted to, and which activations of AwaitAttach are waiting.
    ghost var acts: seq<Act>
    ghost var frames: seq<Frame>

    /** The machine state these fields are. */
    ghost function View(outcome: Outcome): State
      reads this, rng
    {
      State(Registry(init, threads, vtidNext), Queues(runnable, pendingStart, stoppedPending, blocked, waiting),
            Focus(current, lastVtid, groupExiting, frames), Calls(pending, sigPending, clonePending),
            Devices(rng.word, tick), Log(seqNo, trace, acts), Kernel(tasks, groupStatus), outcome)
    }

    ghost function Now(): State
      reads this, rng
    {
      View(InProgress)
    }

    constructor (init: Pid, seed: u64, host: Host)
      ensures this.init == init && this.host == host && fresh(rng) && rng.Valid() && rng.seed == seed && Now() == Boot(init, seed)
    {
      this.init := init;
      this.host := host;
      rng := new Generator(seed);
      tick, pending, seqNo, trace := 0, map[], 0, [];
      threads, vtidNext := map[init := Thread(0, 0, 0, true)], 1;
      runnable, pendingStart, stoppedPending, blocked, waiting := [init], {}, {}, {}, map[];
      current, lastVtid, sigPending, clonePending, groupExiting := None, None, map[], map[], false;
      tasks, groupStatus := map[init := Held], 0;
      acts, frames := [], [];
    }

    // ----- tracing and calls on tracees

    method TraceJson(event: Event)
      modifies `seqNo, `trace
      ensures Now() == Emit(old(Now()), event)
    {
      seqNo := seqNo + 1;
      trace := trace + [Record(seqNo, event)];
    }

    method PtraceSyscall(p: Pid, sig: Option<Signal>) returns (try: Try)
      modifies this
      ensures frames == old(frames)
      ensures View(OutcomeOf(try)) == Machine.PtraceSyscall(old(Now()), p, sig)
    {
      if p !in tasks || !(tasks[p].Held? || tasks[p].ExitStop?) {
        return Erred(Ptrace);
      }
      tasks := tasks[p := if tasks[p].Held? then Resumed else Dying];
      acts := acts + [Resume(VtidIn(threads, p), sig)];
      try := Fine;
    }

    method ResumeThread(p: Pid) returns (try: Try)
      modifies this
      ensures frames == old(frames)
      ensures View(OutcomeOf(try)) == Machine.ResumeThread(old(Now()), p)
    {
      var sig := if p in sigPending then Some(sigPending[p]) else None;
      sigPending := sigPending - {p};
      try := PtraceSyscall(p, sig);
    }

    method ResumeCurrent(p: Pid) returns (try: Try)
      modifies this
      ensures frames == old(frames)
      ensures View(OutcomeOf(try)) == Machine.ResumeCurrent(old(Now()), p)
    {
      try := Fine;
      if current == Some(p) {
        try := ResumeThread(p);
      }
    }

    // ----- the scheduler

    method SetCurrent(tid: Pid, vtid: Vtid)
      modifies `lastVtid, `current, `acts
      ensures var s := old(Now()); Now() == Did(s.(focus := s.focus.(lastVtid := Some(vtid), current := Some(tid))), Turn(vtid))
    {
      lastVtid := Some(vtid);
      current := Some(tid);
      acts := acts + [Turn(vtid)];
    }

    /** Make `tid` the running thread. */
    method SwitchTo(tid: Pid) returns (try: Try)
      requires tid in threads
      modifies this
      ensures frames == old(frames)
      ensures View(OutcomeOf(try)) == Pick(old(Now()), tid)
    {
      var to := threads[tid].vtid;
      var moves := lastVtid != Some(to);
      ghost var before := Now();
      assert before.reg.threads[tid].vtid == to && moves == (before.focus.lastVtid != Some(to)) && lastVtid == before.focus.lastVtid;
      hide Machine.ResumeThread, Did, Emit, Now;
      if moves {
        TraceJson(Schedule(lastVtid, to));
      }
      SetCurrent(tid, to);
      try := ResumeThread(tid);
    }

    method ScheduleNext() returns (try: Try)
      modifies this
      ensures frames == old(frames)
      ensures View(OutcomeOf(try)) == Machine.ScheduleNext(old(Now()))
    {
      hide Machine.ScheduleNext, Pick;
      while runnable != []
        invariant Machine.ScheduleNext(Now()) == Machine.ScheduleNext(old(Now())) && frames == old(frames)
        decreases |runnable|
      {
        ScheduleUnfolds(Now());
        ghost var before := Now();
        var tid := runnable[0];
        runnable := runnable[1..];
        assert Now() == PopRunnable(before);
        if tid !in threads || tid in blocked {
          continue;
        }
        try := SwitchTo(tid);
        return;
      }
      ScheduleUnfolds(Now());
      if pendingStart != {} || exists p | p in threads :: !threads[p].scheduled {
        return Fine;
      }
      try := Erred(Deadlock);
    }

    method YieldCurrent(p: Pid) returns (try: Try)
      modifies this
      ensures frames == old(frames)
      ensures View(OutcomeOf(try)) == Machine.YieldCurrent(old(Now()), p)
    {
      hide Machine.ScheduleNext;
      if current == Some(p) {
        current := None;
        runnable := runnable + [p];
      }
      try := ScheduleNext();
    }

    // ----- simulated futexes

    method Block(p: Pid, addr: Addr)
      modifies this
      ensures frames == old(frames)
      ensures Now() == Machine.Block(old(Now()), p, addr)
    {
      blocked := blocked + {p};
      waiting := waiting[addr := (if addr in waiting then waiting[addr] else []) + [p]];
      acts := acts + [Park(VtidIn(threads, p), addr)];
    }

    /** Move threads from the front of `parked` to `runnable` until `cap` of them were still blocked. */
    method Release(parked: seq<Pid>, cap: nat) returns (woken: nat, left: seq<Pid>)
      modifies `blocked, `runnable
      ensures var split := WakeLoop(parked, old(blocked), cap);
              && woken == |split.woken| && left == split.left
              && runnable == old(runnable) + split.woken && blocked == old(blocked) - Elems(split.woken)
    {
      hide WakeLoop, Elems;
      ghost var split := WakeLoop(parked, blocked, cap);
      ghost var done: seq<Pid> := [];
      left, woken := parked, 0;
      NobodyWoken(blocked);
      while woken < cap && left != []
        invariant woken == |done| <= cap
        invariant blocked == old(blocked) - Elems(done) && runnable == old(runnable) + done
        invariant WakeRest(split, done, WakeLoop(left, blocked, cap - woken))
        decreases |left|
      {
        WakeLoopUnfolds(left, blocked, cap - woken, done);
        var t := left[0];
        left := left[1..];
        if t in blocked {
          blocked := blocked - {t};
          runnable := runnable + [t];
          woken := woken + 1;
          done := done + [t];
        }
      }
      WakeLoopEnds(left, blocked, cap - woken);
      assert done + [] == done;
    }

    /** The queue of `addr`, detached. */
    method Detach(addr: Addr) returns (parked: seq<Pid>)
      requires addr in waiting
      modifies `waiting
      ensures parked == old(waiting)[addr] && waiting == old(waiting) - {addr}
    {
      parked := waiting[addr];
      waiting := waiting - {addr};
    }

    method Reattach(addr: Addr, parked: seq<Pid>)
      requires addr !in waiting
      modifies `waiting
      ensures waiting == SetQueue(old(waiting), addr, parked)
    {
      if parked != [] {
        waiting := waiting[addr := parked];
      }
    }

    method Wake(addr: Addr, val: u64, ghost names: map<Pid, Thread>) returns (woken: nat)
      modifies `waiting, `blocked, `runnable, `acts
      ensures Now() == Machine.Wake(old(Now()), names, addr, val) && woken == WakeCount(old(Now()), addr, val)
    {
      hide WakeLoop, Elems, Unparks, Machine.Wake, WakeCount, SetQueue;
      var cap := if val < I64_LIMIT then val else 0;
      ghost var before := Now();
      if cap == 0 || addr !in waiting {
        WakeNothing(before, names, addr, val);
        return 0;
      }
      ghost var split := WakeLoop(waiting[addr], blocked, cap);
      var parked := Detach(addr);
      woken, parked := Release(parked, cap);
      Reattach(addr, parked);
      acts := acts + Unparks(names, split.woken, addr);
      PutBack(before.q.waiting, addr, parked);
      WakeIs(before, names, addr, val, split);
    }

    // ----- thread life cycle

    /** The child's attach stop is known: a thread joins the queue, a process is set running. */
    method LetIn(p: Pid) returns (try: Try)
      modifies this
      ensures frames == old(frames)
      ensures View(OutcomeOf(try)) == Machine.Release(old(Now()), p)
    {
      hide Machine.ResumeThread;
      try := Fine;
      if p in threads && threads[p].scheduled {
        runnable := runnable + [p];
      } else {
        try := ResumeThread(p);
      }
    }

    /** Let a registered child in if its attach stop came first, otherwise let it wait for the stop. */
    method Admit(p: Pid) returns (try: Try)
      modifies this
      ensures frames == old(frames)
      ensures View(OutcomeOf(try)) == Machine.Admit(old(Now()), p)
    {
      hide Machine.Release;
      try := Fine;
      if p in stoppedPending {
        stoppedPending := stoppedPending - {p};
        try := LetIn(p);
      } else {
        pendingStart := pendingStart + {p};
      }
    }

    method RegisterThread(p: Pid, info: CloneInfo) returns (try: Try)
      modifies this
      ensures frames == old(frames)
      ensures View(OutcomeOf(try)) == Register(old(Now()), p, info)
    {
      if p in threads {
        return Fine;
      }
      hide Machine.Admit, Emit, HasCloneThread;
      ghost var before := Now();
      var thread := Thread(vtidNext, info.childTid, info.flags, HasCloneThread(info.flags));
      vtidNext := vtidNext + 1;
      threads := threads[p := thread];
      assert Now() == Enrol(before, p, thread);
      hide Enrol;
      try := Admit(p);
      if try.Fine? {
        TraceJson(ThreadCreate(thread.vtid, thread.scheduled));
      }
    }

    method OnThreadExit(p: Pid, record: bool)
      modifies this
      ensures frames == old(frames)
      ensures Now() == Machine.OnThreadExit(old(Now()), p, record)
    {
      hide Retire, Without, Purge;
      ghost var before := Now();
      if p in threads {
        Remove(p, record);
      } else {
        RetireNobody(before, p, record);
      }
      ForgetPid(p);
    }

    /** The kernel clears the dead thread's tid word and wakes one waiter on it. */
    method JoinWake(t: Thread, ghost names: map<Pid, Thread>)
      modifies `waiting, `blocked, `runnable, `acts
      ensures Now() == if t.childTid != 0 && HasClearTid(t.flags) then Machine.Wake(old(Now()), names, t.childTid, 1) else old(Now())
    {
      hide Machine.Wake, HasClearTid;
      if t.childTid != 0 && HasClearTid(t.flags) {
        var _ := Wake(t.childTid, 1, names);
      }
    }

    method Settle(p: Pid, vtid: Vtid)
      modifies `pending, `acts
      ensures Now() == Did(var s := old(Now()); s.(calls := s.calls.(pending := s.calls.pending - {p})), Died(vtid))
    {
      pending := pending - {p};
      acts := acts + [Died(vtid)];
    }

    /** The first half of OnThreadExit, for a thread on the books. */
    method Remove(p: Pid, record: bool)
      requires p in threads
      modifies `threads, `waiting, `blocked, `runnable, `acts, `seqNo, `trace, `pending
      ensures Now() == Retire(old(Now()), p, record)
    {
      hide Machine.Wake, Emit, HasClearTid, Did;
      ghost var before := Now();
      var t := threads[p];
      threads := threads - {p};
      assert Now() == before.(reg := before.reg.(threads := before.reg.threads - {p}));
      hide Now;
      JoinWake(t, before.reg.threads);
      if record {
        TraceJson(ThreadExit(t.vtid));
      }
      Settle(p, t.vtid);
    }

    /** The second half: the pid leaves every table. */
    method ForgetPid(p: Pid)
      modifies `runnable, `blocked, `waiting, `sigPending, `pendingStart, `stoppedPending
      ensures runnable == Without(old(runnable), p) && blocked == old(blocked) - {p} && waiting == Purge(old(waiting), p)
      ensures sigPending == old(sigPending) - {p} && pendingStart == old(pendingStart) - {p}
      ensures stoppedPending == old(stoppedPending) - {p}
    {
      hide Without, Purge;
      runnable := Without(runnable, p);
      blocked := blocked - {p};
      waiting := Purge(waiting, p);
      sigPending := sigPending - {p};
      pendingStart := pendingStart - {p};
      stoppedPending := stoppedPending - {p};
    }

    // ----- system calls

    method SkipSyscall(p: Pid, syscall: nat, retval: nat)
      modifies this
      ensures frames == old(frames)
      ensures Now() == Machine.SkipSyscall(old(Now()), p, syscall, retval)
    {
      pending := pending[p := Inject(syscall, retval)];
      acts := acts + [Skip(VtidIn(threads, p), syscall, retval)];
    }

    method WriteMem(p: Pid, addr: Addr, data: Data, writable: bool) returns (try: Try)
      modifies this
      ensures frames == old(frames)
      ensures View(OutcomeOf(try)) == Machine.WriteMem(old(Now()), p, addr, data, writable)
    {
      if !writable {
        return Erred(Io);
      }
      acts := acts + [Write(VtidIn(threads, p), addr, data)];
      try := Fine;
    }

    method InterceptGetRandom(p: Pid, regs: Regs, mem: Memory) returns (try: Try)
      requires rng.Valid()
      modifies this, rng
      ensures rng.Valid()
      ensures frames == old(frames)
      ensures View(OutcomeOf(try)) == Machine.InterceptGetRandom(old(Now()), p, regs, mem)
    {
      hide Machine.WriteMem, Machine.SkipSyscall, Emit, Filled, Hex, Prng.WordAfter, DrawsFor;
      var buflen := if regs.rsi < GETRANDOM_MAX then regs.rsi else GETRANDOM_MAX;
      var out := new Byte[buflen];
      rng.Fill(out);
      var bytes := out[..];
      try := Fine;
      if buflen > 0 {
        try := WriteMem(p, regs.rdi, Random(bytes), mem.writable);
      }
      if try.Fine? {
        SkipSyscall(p, SYS_GETRANDOM, buflen);
        var text := HexBytes(bytes);
        TraceJson(GetRandom(buflen, text));
      }
    }

    method VirtualClock(clk: int) returns (sec: nat, nsec: nat)
      modifies `tick
      ensures Clock.Reading(sec, nsec) == Clock.Read(old(tick), clk) && tick == Clock.NextTick(old(tick), clk)
      ensures if clk in {1, 6, 7} then
                && sec * 1_000_000_000 + nsec == old(tick) * 1_000_000 % 0x1_0000_0000_0000_0000 && nsec < 1_000_000_000
                && tick == (old(tick) + 1) % 0x1_0000_0000_0000_0000
              else sec == 1_704_067_200 && nsec == 0 && tick == old(tick)
    {
      if clk == Clock.CLOCK_MONOTONIC || clk == Clock.CLOCK_MONOTONIC_COARSE || clk == Clock.CLOCK_BOOTTIME {
        var t := tick;
        tick := (tick + 1) % U64;
        var ns := t * Clock.MONO_STEP_NS % U64;
        return ns / 1_000_000_000, ns % 1_000_000_000;
      }
      return Clock.VIRTUAL_EPOCH, 0;
    }

    method InterceptClockGettime(p: Pid, regs: Regs, mem: Memory) returns (try: Try)
      modifies this
      ensures frames == old(frames)
      ensures View(OutcomeOf(try)) == Machine.InterceptClockGettime(old(Now()), p, regs, mem)
    {
      hide Machine.WriteMem, Machine.SkipSyscall, Emit, Clock.Read, Clock.NextTick, AsI32;
      var clk := AsI32(regs.rdi);
      var sec, nsec := VirtualClock(clk);
      try := WriteMem(p, regs.rsi, Time(sec, nsec), mem.writable);
      if try.Fine? {
        SkipSyscall(p, SYS_CLOCK_GETTIME, 0);
        TraceJson(ClockGettime(clk, sec, nsec));
      }
    }

    method InterceptGetTimeOfDay(p: Pid, regs: Regs, mem: Memory) returns (try: Try)
      modifies this
      ensures frames == old(frames)
      ensures View(OutcomeOf(try)) == Machine.InterceptGetTimeOfDay(old(Now()), p, regs, mem)
    {
      hide Machine.WriteMem, Machine.SkipSyscall, Emit;
      var sec, nsec := VirtualClock(Clock.CLOCK_REALTIME);
      try := WriteMem(p, regs.rdi, Time(sec, nsec / 1_000), mem.writable);
      if try.Fine? {
        SkipSyscall(p, SYS_GETTIMEOFDAY, 0);
        TraceJson(GetTimeOfDay(sec, nsec / 1_000));
      }
    }

    method StashClone(p: Pid, nr: nat, regs: Regs, mem: Memory)
      modifies this
      ensures frames == old(frames)
      ensures Now() == Machine.StashClone(old(Now()), p, nr, regs, mem)
      ensures clonePending == old(clonePending)[p :=
                if nr != 435 then CloneInfo(regs.rdi, regs.r10)
                else if mem.cloneArgs.Some? then CloneInfo(mem.cloneArgs.value.flags, mem.cloneArgs.value.childTid)
                else CloneInfo(0, 0)]
    {
      var info := CloneInfo(regs.rdi, regs.r10);
      if nr == SYS_CLONE3 {
        match mem.cloneArgs {
          case Some(args) => info := args;
          case None => info := CloneInfo(0, 0);
        }
      }
      clonePending := clonePending[p := info];
    }

    method TraceFutex(p: Pid, cmd: nat, effect: FutexKind)
      modifies this
      ensures frames == old(frames)
      ensures Now() == Machine.TraceFutex(old(Now()), p, cmd, effect)
    {
      TraceJson(Futex(cmd, effect, VtidIn(threads, p)));
    }

    /** Answer the call as decided. */
    method CarryOut(p: Pid, cmd: nat, plan: FutexPlan)
      modifies this
      ensures frames == old(frames)
      ensures Now() == Machine.CarryOut(old(Now()), p, cmd, plan)
    {
      ghost var before := Now();
      ghost var names := threads;
      assert names == before.reg.threads;
      hide Machine.Wake, Machine.Block, Machine.SkipSyscall, Machine.TraceFutex, WakeCount, Now;
      match plan {
        case PassThrough => TraceFutex(p, cmd, FutexPass);
        case ParkOn(addr) =>
          SkipSyscall(p, SYS_FUTEX, 0);
          Block(p, addr);
          TraceFutex(p, cmd, FutexParked);
        case WakeOn(addr, val) =>
          var n := Wake(addr, val, names);
          SkipSyscall(p, SYS_FUTEX, n);
          TraceFutex(p, cmd, FutexWoke);
        case RequeueOn(addr, val, val2) =>
          var n := Wake(addr, val, names);
          WakeNames(before, names, addr, val);
          var m := Wake(addr, val2, names);
          SkipSyscall(p, SYS_FUTEX, n + m);
          TraceFutex(p, cmd, FutexWoke);
      }
    }

    method CountScheduled() returns (n: nat)
      ensures n == |ScheduledPids(Now())|
    {
      var scheduled := set q | q in threads && threads[q].scheduled;
      assert scheduled == ScheduledPids(Now());
      n := |scheduled|;
    }

    /** `parks` is whether the caller is parked and somebody else must run. */
    method InterceptFutex(p: Pid, regs: Regs, mem: Memory) returns (parks: bool)
      modifies this
      ensures frames == old(frames)
      ensures Now() == Machine.InterceptFutex(old(Now()), p, regs, mem)
      ensures parks == PlanFutex(old(Now()), p, regs, mem).ParkOn?
    {
      hide Machine.CarryOut, ScheduledPids, FutexCmd, IsWait, IsWake, IsRequeue;
      var uaddr, val, cmd := regs.rdi, regs.rdx, FutexCmd(regs);
      var plan := PassThrough;
      var n := CountScheduled();
      if p in threads && threads[p].scheduled && n > 1 {
        if IsWait(cmd) {
          if mem.word == Some(val % U32) { plan := ParkOn(uaddr); }
        } else if IsWake(cmd) {
          plan := WakeOn(uaddr, val);
        } else if IsRequeue(cmd) {
          if cmd != FUTEX_CMP_REQUEUE || mem.word == Some(regs.r9 % U32) { plan := RequeueOn(uaddr, val, regs.r10); }
        }
      }
      assert plan == PlanFutex(Now(), p, regs, mem);
      hide PlanFutex;
      CarryOut(p, cmd, plan);
      parks := plan.ParkOn?;
    }

    method OnSyscallEntry(p: Pid, regs: Regs, mem: Memory) returns (try: Try, parks: bool)
      requires rng.Valid()
      modifies this, rng
      ensures rng.Valid()
      ensures frames == old(frames)
      ensures View(OutcomeOf(try)) == Machine.OnSyscallEntry(old(Now()), p, regs, mem)
      ensures parks == Parks(old(Now()), p, regs, mem)
    {
      hide Machine.InterceptGetRandom, Machine.InterceptClockGettime, Machine.InterceptGetTimeOfDay, Machine.InterceptFutex,
        Machine.StashClone, Emit, PlanFutex;
      var nr := regs.origRax;
      try, parks := Fine, false;
      if nr == SYS_GETRANDOM {
        try := InterceptGetRandom(p, regs, mem);
      } else if nr == SYS_CLOCK_GETTIME || nr == SYS_CLOCK_GETTIME64 {
        try := InterceptClockGettime(p, regs, mem);
      } else if nr == SYS_GETTIMEOFDAY {
        try := InterceptGetTimeOfDay(p, regs, mem);
      } else if nr == SYS_FUTEX {
        parks := InterceptFutex(p, regs, mem);
      } else if nr == SYS_EXIT_GROUP {
        groupExiting := true;
        groupStatus := regs.rdi % 256;
        TraceJson(Syscall(nr, Pass));
      } else if nr == SYS_CLONE || nr == SYS_CLONE3 {
        StashClone(p, nr, regs, mem);
        TraceJson(Syscall(nr, Pass));
      } else {
        TraceJson(Syscall(nr, Pass));
      }
    }

    method OnSyscallExit(p: Pid)
      modifies this
      ensures frames == old(frames)
      ensures Now() == Machine.OnSyscallExit(old(Now()), p)
    {
      hide Emit;
      if p in pending {
        var inject := pending[p];
        pending := pending - {p};
        acts := acts + [Return(VtidIn(threads, p), inject.syscall, inject.retval)];
        TraceJson(Syscall(inject.syscall, Injected));
      }
    }

    // ----- the arms of dispatch

    /** What waitpid itself changes: the kernel's view of the reported tasks. */
    method Observe(st: Status)
      modifies this
      ensures frames == old(frames)
      ensures Now() == Deliver(old(Now()), st)
    {
      match st {
        case SyscallStop(p, _) => tasks := tasks[p := Held];
        case OtherEvent(p) => tasks := tasks[p := Held];
        case SignalStop(p, _) => tasks := tasks[p := Held];
        case CloneEvent(p, c) =>
          tasks := tasks[p := Held];
          if c !in tasks {
            tasks := tasks[c := Attaching];
          }
        case ExitEvent(p) => tasks := tasks[p := ExitStop];
        case Exited(p, _) => tasks := tasks - {p};
        case Killed(p, _) => tasks := tasks - {p};
        case Idle =>
      }
    }

    method OnSyscallStop(p: Pid, op: SyscallOp) returns (try: Try)
      requires rng.Valid()
      modifies this, rng
      ensures rng.Valid()
      ensures frames == old(frames)
      ensures View(OutcomeOf(try)) == HandleSyscall(old(Now()), p, op)
    {
      hide Machine.OnSyscallEntry, Machine.OnSyscallExit, Parks, Machine.ResumeThread, Machine.YieldCurrent;
      var scheduled := p in threads && threads[p].scheduled;
      var parks := false;
      try := Fine;
      match op {
        case Entry(regs, mem) => try, parks := OnSyscallEntry(p, regs, mem);
        case Exit => OnSyscallExit(p);
        case NoInfo =>
      }
      if try.Erred? {
        return;
      }
      if !scheduled {
        try := ResumeThread(p);
      } else if parks {
        current := None;
      } else if op.Exit? {
        try := YieldCurrent(p);
      } else {
        try := ResumeCurrent(p);
      }
    }

    method Continue(p: Pid) returns (try: Try)
      modifies this
      ensures frames == old(frames)
      ensures View(OutcomeOf(try)) == Machine.Continue(old(Now()), p)
    {
      hide Machine.ResumeThread, Machine.ResumeCurrent;
      if p in threads && threads[p].scheduled {
        try := ResumeCurrent(p);
      } else {
        try := ResumeThread(p);
      }
    }

    method OnSignalStop(p: Pid, sig: Signal) returns (try: Try)
      modifies this
      ensures frames == old(frames)
      ensures View(OutcomeOf(try)) == HandleSignalStop(old(Now()), p, sig)
    {
      hide Machine.ResumeThread, Machine.Release, Machine.PtraceSyscall;
      try := Fine;
      if sig == SIGSTOP {
        if current == Some(p) {
          try := ResumeThread(p);
        } else if p in pendingStart {
          pendingStart := pendingStart - {p};
          try := LetIn(p);
        } else if p !in threads {
          stoppedPending := stoppedPending + {p};
        }
      } else if current == Some(p) {
        try := PtraceSyscall(p, Some(sig));
      } else if p in threads && threads[p].scheduled {
        sigPending := sigPending[p := sig];
      } else if p in threads {
        try := PtraceSyscall(p, Some(sig));
      }
    }

    method OnDeath(p: Pid) returns (try: Try)
      modifies this
      ensures frames == old(frames)
      ensures View(OutcomeOf(try)) == HandleDeath(old(Now()), p)
    {
      hide Machine.OnThreadExit, Machine.ScheduleNext;
      var wasCurrent := current == Some(p);
      OnThreadExit(p, wasCurrent);
      try := Fine;
      if wasCurrent && !groupExiting {
        current := None;
        try := ScheduleNext();
      }
    }

    // ----- dispatch, await_attach and the loop

    /** The supervisor is where the machine is after `sts`, up to what the loop of `Run` does next. */
    ghost predicate Ran(flow: Flow, s: State, sts: seq<Status>)
      reads this, rng, host
    {
      match flow
      case Going => frames == s.focus.frames && Tail(Now()) == Machine.Run(s, sts)
      case Ended(code) => View(Done(code)) == Machine.Run(s, sts)
      case Stopped(error) => View(Failed(error)) == Machine.Run(s, sts)
      case WaitFailed => Now() == Machine.Run(s, sts) && host.reported == |host.statuses|
    }

    /** An arm that reads no further status is one step of the machine. */
    lemma ArmRan(try: Try, before: State, st: Status)
      requires before.outcome.InProgress? && !Awaited(before, st) && frames == before.focus.frames
      requires View(OutcomeOf(try)) == Handle(Deliver(before, st), st)
      ensures Ran(FlowOf(try), before, [st])
    {
      OneStep(before, st);
      hide Handle, Deliver, Awaited, Machine.Run, Machine.ScheduleNext;
    }

    lemma EndRan(before: State, st: Status, code: int)
      requires before.outcome.InProgress? && !Awaited(before, st) && View(Done(code)) == Handle(Deliver(before, st), st)
      ensures Ran(Ended(code), before, [st])
    {
      OneStep(before, st);
      hide Handle, Deliver, Awaited, Machine.Run, Machine.ScheduleNext;
    }

    /** A status other than a clone event. */
    method OnStatus(st: Status, ghost before: State) returns (flow: Flow)
      requires !st.CloneEvent? && before.outcome.InProgress? && Now() == Deliver(before, st) && !Awaited(before, st)
      requires rng.Valid()
      modifies this, rng
      ensures rng.Valid()
      ensures Ran(flow, before, [st])
    {
      DeliverKeeps(before, st);
      hide HandleSyscall, HandleSignalStop, HandleDeath, Machine.Continue, Machine.ResumeThread, Emit, Deliver, Awaited, Ran;
      var try := Fine;
      match st {
        case Exited(p, code) =>
          if p == init {
            TraceJson(RunExit(code));
            EndRan(before, st, code);
            return Ended(code);
          }
          try := OnDeath(p);
        case Killed(p, sig) =>
          if p == init {
            TraceJson(RunSignal(sig));
            EndRan(before, st, 128 + sig);
            return Ended(128 + sig);
          }
          try := OnDeath(p);
        case SyscallStop(p, op) => try := OnSyscallStop(p, op);
        case ExitEvent(p) => try := ResumeThread(p);
        case OtherEvent(p) => try := Continue(p);
        case SignalStop(p, sig) => try := OnSignalStop(p, sig);
        case Idle =>
      }
      ArmRan(try, before, st);
      flow := FlowOf(try);
    }

    method OnClone(p: Pid, c: Pid, ghost before: State) returns (flow: Flow)
      requires host.Valid() && rng.Valid() && before.outcome.InProgress? && Now() == Deliver(before, CloneEvent(p, c))
      modifies this, rng, host
      ensures host.Valid() && rng.Valid() && old(host.reported) <= host.reported
      ensures Ran(flow, before, [CloneEvent(p, c)] + host.statuses[old(host.reported)..host.reported])
      decreases |host.statuses| - host.reported, 2
    {
      hide Register, Machine.Continue, Deliver, Machine.Run, Machine.ScheduleNext, Awaited, Returned;
      ghost var st := CloneEvent(p, c);
      DeliverKeeps(before, st);
      var info := if p in clonePending then clonePending[p] else CloneInfo(0, 0);
      clonePending := clonePending - {p};
      var try := RegisterThread(c, info);
      ghost var registered := View(OutcomeOf(try));
      CloneRuns(before, p, c, registered);
      assert [st] + host.statuses[host.reported..host.reported] == [st];
      if try.Erred? {
        return FlowOf(try);
      }
      ghost var waits := c in pendingStart;
      flow := AwaitAttach(c, p);
      ghost var read := host.statuses[old(host.reported)..host.reported];
      ghost var waiting := registered.(focus := registered.focus.(frames := registered.focus.frames + [Frame(p, c)]));
      if waits {
        RunConcat(before, [st], read);
        assert Machine.Run(before, [st] + read) == Machine.Run(waiting, read);
      }
      if !flow.Going? {
        return;
      }
      ghost var back := Now();
      try := Continue(p);
      if waits { AwaitRuns(waiting, read, back, Frame(p, c)); }
      flow := FlowOf(try);
    }

    /** How `await_attach` ends, `s` being the state in which it starts to wait: with the child let in, or as the
        status that ended or failed the run left it. */
    ghost predicate Awoke(flow: Flow, s: State, sts: seq<Status>)
      reads this, rng, host
    {
      match flow
      case Going =>
        && sts != []
        && var t := Machine.Run(s, sts[..|sts| - 1]); var last := sts[|sts| - 1];
           && t.outcome.InProgress? && t.focus.frames == s.focus.frames && Awaited(t, last) && Now() == Returned(Deliver(t, last))
      case _ => Ran(flow, s, sts)
    }

    method AwaitAttach(child: Pid, ghost parent: Pid) returns (flow: Flow)
      requires host.Valid() && rng.Valid()
      modifies this, rng, host
      ensures host.Valid() && rng.Valid() && old(host.reported) <= host.reported
      ensures child !in old(pendingStart) ==> flow == Going && Now() == old(Now()) && host.reported == old(host.reported)
      ensures child in old(pendingStart) ==>
                var s := old(Now());
                Awoke(flow, s.(focus := s.focus.(frames := s.focus.frames + [Frame(parent, child)])),
                      host.statuses[old(host.reported)..host.reported])
      ensures flow.Going? ==> frames == old(frames)
      decreases |host.statuses| - host.reported, 1
    {
      if child !in pendingStart {
        return Going;
      }
      hide Machine.Run, Tail, Awoke, Returned, Awaited;
      frames := frames + [Frame(parent, child)];
      ghost var start := Now();
      ghost var from := host.reported;
      RunEmpty(start);
      var done := false;
      flow := Going;
      while !done
        invariant host.Valid() && rng.Valid() && from <= host.reported
        invariant !done ==> flow.Going? && frames == start.focus.frames
        invariant !done ==> Now() == Machine.Run(start, host.statuses[from..host.reported])
        invariant done ==> Awoke(flow, start, host.statuses[from..host.reported])
        invariant done && flow.Going? ==> frames == old(frames)
        decreases |host.statuses| - host.reported, !done
      {
        flow, done := AwaitOne(child, start, from);
      }
    }

    /** One round of the loop of `AwaitAttach`, which started in `start` with `from` statuses reported. */
    method AwaitOne(child: Pid, ghost start: State, ghost from: nat) returns (flow: Flow, done: bool)
      requires host.Valid() && rng.Valid() && from <= host.reported
      requires start.focus.frames != [] && start.focus.frames[|start.focus.frames| - 1].child == child
      requires frames == start.focus.frames && Now() == Machine.Run(start, host.statuses[from..host.reported])
      modifies this, rng, host
      ensures host.Valid() && rng.Valid() && old(host.reported) <= host.reported
      ensures !done ==> old(host.reported) < host.reported && flow.Going? && frames == start.focus.frames
      ensures !done ==> Now() == Machine.Run(start, host.statuses[from..host.reported])
      ensures done ==> Awoke(flow, start, host.statuses[from..host.reported])
      ensures done && flow.Going? ==> frames == start.focus.frames[..|start.focus.frames| - 1]
      decreases |host.statuses| - host.reported, 0
    {
      hide Machine.Run, Returned, Deliver, Machine.ScheduleNext, FinishAwait, Handle;
      ghost var read := host.statuses[from..host.reported];
      ghost var before := Now();
      var st := host.WaitPid();
      if st.None? {
        return WaitFailed, true;
      }
      assert host.statuses[from..host.reported] == read + [st.value];
      Observe(st.value);
      if st.value == SignalStop(child, SIGSTOP) {
        RunMore(start, read, st.value);
        flow := Attached(child, before);
        return flow, true;
      }
      ghost var seen := host.reported;
      flow := Dispatch(st.value, before);
      ghost var more := [st.value] + host.statuses[seen..host.reported];
      RunConcat(start, read, more);
      assert host.statuses[from..host.reported] == read + more;
      done := !flow.Going?;
    }

    /** The awaited attach stop. */
    method Attached(child: Pid, ghost before: State) returns (flow: Flow)
      requires before.outcome.InProgress? && Awaited(before, SignalStop(child, SIGSTOP))
      requires Now() == Deliver(before, SignalStop(child, SIGSTOP))
      modifies this
      ensures var st := SignalStop(child, SIGSTOP);
              match flow
              case Going => Now() == Returned(Deliver(before, st)) && frames == before.focus.frames[..|before.focus.frames| - 1]
              case Stopped(error) => View(Failed(error)) == Step(before, st)
              case _ => false
    {
      hide Machine.ResumeThread, Machine.Release, Deliver, Machine.ScheduleNext, Machine.Continue;
      DeliverKeeps(before, SignalStop(child, SIGSTOP));
      pendingStart := pendingStart - {child};
      var try := LetIn(child);
      if try.Fine? {
        frames := frames[..|frames| - 1];
      }
      flow := FlowOf(try);
    }

    /** Handle one status, `before` being the state in which it was reported. */
    method Dispatch(st: Status, ghost before: State) returns (flow: Flow)
      requires host.Valid() && rng.Valid() && before.outcome.InProgress? && Now() == Deliver(before, st) && !Awaited(before, st)
      modifies this, rng, host
      ensures host.Valid() && rng.Valid() && old(host.reported) <= host.reported
      ensures Ran(flow, before, [st] + host.statuses[old(host.reported)..host.reported])
      decreases |host.statuses| - host.reported, 3
    {
      hide Ran, Deliver, Awaited, Machine.Run;
      if st.CloneEvent? {
        flow := OnClone(st.pid, st.child, before);
      } else {
        flow := OnStatus(st, before);
        assert [st] + host.statuses[host.reported..host.reported] == [st];
      }
    }

    /** The loop: schedule the init, then handle statuses until its death, an error, or nothing left to wait for. */
    method Run(ghost seed: u64) returns (flow: Flow)
      requires host.Valid() && rng.Valid() && host.reported == 0 && Now() == Boot(init, seed)
      modifies this, rng, host
      ensures rng.Valid()
      ensures !flow.Going? && View(EndOf(flow)) == Machine.Run(Start(init, seed), host.statuses)
    {
      hide Machine.Run, Deliver, Awaited, Boot;
      ghost var start := Start(init, seed);
      BootFrames(init, seed);
      hide Start;
      RunEmpty(start);
      var try := ScheduleNext();
      flow := FlowOf(try);
      while flow.Going?
        invariant host.Valid() && rng.Valid()
        invariant frames == [] || !flow.Going?
        invariant flow.WaitFailed? ==> host.reported == |host.statuses|
        invariant View(EndOf(flow)) == Machine.Run(start, host.statuses[..host.reported])
        decreases |host.statuses| - host.reported, flow.Going?
      {
        flow := RunOne(start);
      }
      assert host.statuses[..host.reported] + host.statuses[host.reported..] == host.statuses;
      RunConcat(start, host.statuses[..host.reported], host.statuses[host.reported..]);
      if flow.WaitFailed? {
        RunEmpty(Now());
      } else {
        RunOver(View(EndOf(flow)), host.statuses[host.reported..]);
      }
    }

    /** One round of the loop of `Run`. */
    method RunOne(ghost start: State) returns (flow: Flow)
      requires host.Valid() && rng.Valid() && frames == [] && Now() == Machine.Run(start, host.statuses[..host.reported])
      modifies this, rng, host
      ensures host.Valid() && rng.Valid() && old(host.reported) <= host.reported && (frames == [] || !flow.Going?)
      ensures flow.WaitFailed? ==> host.reported == |host.statuses|
      ensures flow.Going? ==> old(host.reported) < host.reported
      ensures View(EndOf(flow)) == Machine.Run(start, host.statuses[..host.reported])
    {
      hide Machine.Run, Deliver, Machine.ScheduleNext;
      ghost var read := host.statuses[..host.reported];
      ghost var before := Now();
      var st := host.WaitPid();
      if st.None? {
        return WaitFailed;
      }
      Observe(st.value);
      ghost var seen := host.reported;
      flow := Dispatch(st.value, before);
      ghost var more := [st.value] + host.statuses[seen..host.reported];
      assert host.statuses[..host.reported] == read + more;
      RunConcat(start, read, more);
      if flow.Going? && current == None {
        var try := ScheduleNext();
        flow := FlowOf(try);
      }
    }
  }

  function EndOf(flow: Flow): Outcome {
    match flow
    case Ended(code) => Done(code)
    case Stopped(error) => Failed(error)
    case _ => InProgress
  }

  lemma BootFrames(init: Pid, seed: u64)
    ensures Boot(init, seed).focus.frames == []
    ensures Machine.ScheduleNext(Boot(init, seed)) == Start(init, seed)
  {
    hide Machine.ScheduleNext;
  }

  lemma {:induction false} RunOver(s: State, sts: seq<Status>)
    requires !s.outcome.InProgress?
    ensures Machine.Run(s, sts) == s
  {
    if sts != [] {
      RunOver(s, sts[..|sts| - 1]);
    }
    hide Inner, Tail;
  }

  /** `supervise`: for every init, seed and stream of statuses, the code or error returned and the trace written are
      those of the machine's run. */
  method Supervise(init: Pid, seed: u64, statuses: seq<Status>) returns (flow: Flow, trace: seq<Record>)
    ensures var t := Machine.Run(Start(init, seed), statuses); EndOf(flow) == t.outcome && trace == t.log.trace && !flow.Going?
  {
    hide Machine.Run, Start, Boot;
    var host := new Host(statuses);
    var sv := new Supervisor(init, seed, host);
    flow := sv.Run(seed);
    trace := sv.trace;
  }

  /** The state in which `await_attach` returns, the child let in. */
  ghost function Returned(d: State): State
    requires d.focus.frames != []
  {
    var f := d.focus.frames[|d.focus.frames| - 1];
    var s := Machine.Release(d.(q := d.q.(pendingStart := d.q.pendingStart - {f.child})), f.child);
    if s.focus.frames == [] then s else s.(focus := s.focus.(frames := s.focus.frames[..|s.focus.frames| - 1]))
  }

  lemma RunMore(s: State, sts: seq<Status>, st: Status)
    ensures Machine.Run(s, sts + [st]) == Step(Machine.Run(s, sts), st) && (sts + [st])[..|sts + [st]| - 1] == sts
  {
    hide Step;
    assert (sts + [st])[..|sts|] == sts;
  }

  /** The clone arm up to where it returns or starts to wait. */
  lemma CloneRuns(before: State, p: Pid, c: Pid, registered: State)
    requires before.outcome.InProgress?
    requires var d := Deliver(before, CloneEvent(p, c));
             var info := if p in d.calls.clonePending then d.calls.clonePending[p] else CloneInfo(0, 0);
             registered == Register(d.(calls := d.calls.(clonePending := d.calls.clonePending - {p})), c, info)
    ensures var run := Machine.Run(before, [CloneEvent(p, c)]);
            if !registered.outcome.InProgress? then run == registered
            else if c in registered.q.pendingStart then
              run == registered.(focus := registered.focus.(frames := registered.focus.frames + [Frame(p, c)]))
            else run == Tail(Machine.Continue(registered, p))
  {
    hide Register, Deliver, Machine.Run, Machine.Continue, Machine.ScheduleNext;
    OneStep(before, CloneEvent(p, c));
  }

  /** The end of the clone arm of the waiting caller is the step of the awaited status. */
  lemma AwaitRuns(s: State, sts: seq<Status>, back: State, f: Frame)
    requires sts != [] && s.focus.frames != [] && s.focus.frames[|s.focus.frames| - 1] == f && back.outcome.InProgress?
    requires var t := Machine.Run(s, sts[..|sts| - 1]); var last := sts[|sts| - 1];
             && t.outcome.InProgress? && t.focus.frames == s.focus.frames && Awaited(t, last) && back == Returned(Deliver(t, last))
    ensures Machine.Run(s, sts) == Tail(Machine.Continue(back, f.parent))
  {
    var t, last := Machine.Run(s, sts[..|sts| - 1]), sts[|sts| - 1];
    DeliverKeeps(t, last);
    var d := Deliver(t, last);
    ReleaseFocus(d.(q := d.q.(pendingStart := d.q.pendingStart - {f.child})), f.child);
    hide Deliver, Machine.Release, Machine.Continue, Machine.ScheduleNext, Handle, Machine.Run;
    assert FinishAwait(d) == Machine.Continue(back, f.parent);
    hide FinishAwait;
    RunLast(s, sts);
  }

  lemma ReleaseFocus(s: State, p: Pid)
    ensures Machine.Release(s, p).focus == s.focus
  {
  }

  /** One status, outside `await_attach` or not the awaited one. */
  lemma OneStep(before: State, st: Status)
    requires before.outcome.InProgress? && !Awaited(before, st)
    ensures Machine.Run(before, [st]) == Tail(Handle(Deliver(before, st), st))
  {
    hide Handle, Deliver, Awaited, Tail, FinishAwait;
    assert [st][..0] == [];
    assert Machine.Run(before, []) == before;
    assert Machine.Run(before, [st]) == Step(before, st);
  }

  lemma DeliverKeeps(s: State, st: Status)
    ensures var d := Deliver(s, st); d.focus == s.focus && d.reg == s.reg && d.q == s.q && d.outcome == s.outcome
  {
  }

  lemma WakeNames(s: State, names: map<Pid, Thread>, addr: Addr, val: u64)
    ensures Machine.Wake(s, names, addr, val).reg == s.reg
  {
  }

  lemma RetireNobody(s: State, p: Pid, record: bool)
    requires p !in s.reg.threads
    ensures Retire(s, p, record) == s
  {
  }

  lemma PutBack(waiting: map<Addr, seq<Pid>>, addr: Addr, q: seq<Pid>)
    ensures SetQueue(waiting, addr, q) == SetQueue(waiting - {addr}, addr, q)
  {
    assert waiting - {addr} - {addr} == waiting - {addr};
  }

  lemma WakeNothing(s: State, names: map<Pid, Thread>, addr: Addr, val: u64)
    requires Cap(val) == 0 || addr !in s.q.waiting
    ensures Machine.Wake(s, names, addr, val) == s && WakeCount(s, addr, val) == 0
  {
  }

  lemma ScheduleUnfolds(s: State)
    ensures Machine.ScheduleNext(s) ==
            if s.q.runnable == [] then
              if s.q.pendingStart != {} || AnyConcurrent(s) then s else s.(outcome := Failed(Deadlock))
            else if s.q.runnable[0] !in s.reg.threads || s.q.runnable[0] in s.q.blocked then Machine.ScheduleNext(PopRunnable(s))
            else Pick(PopRunnable(s), s.q.runnable[0])
  {
    hide Pick;
  }

  /** What is left to wake, after `done`. */
  ghost predicate WakeRest(all: Split, done: seq<Pid>, rest: Split) { all == Split(done + rest.woken, rest.left) }

  lemma NobodyWoken(blocked: set<Pid>)
    ensures blocked - Elems([]) == blocked && forall split: Split {:trigger WakeRest(split, [], split)} :: WakeRest(split, [], split)
  {
    forall split: Split ensures WakeRest(split, [], split) {
      assert [] + split.woken == split.woken;
    }
  }

  lemma WakeLoopUnfolds(parked: seq<Pid>, blocked: set<Pid>, cap: nat, done: seq<Pid>)
    requires parked != [] && cap > 0
    ensures var t := parked[0];
            if t in blocked then
              && (forall all: Split :: WakeRest(all, done, WakeLoop(parked, blocked, cap)) ==>
                                         WakeRest(all, done + [t], WakeLoop(parked[1..], blocked - {t}, cap - 1)))
              && (forall b: set<Pid> :: b - Elems(done) - {t} == b - Elems(done + [t]))
            else WakeLoop(parked, blocked, cap) == WakeLoop(parked[1..], blocked, cap)
  {
    var t := parked[0];
    if t in blocked {
      var r := WakeLoop(parked[1..], blocked - {t}, cap - 1);
      assert done + ([t] + r.woken) == done + [t] + r.woken;
    }
  }

  lemma WakeLoopEnds(parked: seq<Pid>, blocked: set<Pid>, cap: nat)
    requires parked == [] || cap == 0
    ensures WakeLoop(parked, blocked, cap) == Split([], parked)
  {
  }

  lemma WakeIs(s: State, names: map<Pid, Thread>, addr: Addr, val: u64, split: Split)
    requires Cap(val) != 0 && addr in s.q.waiting && split == WakeLoop(s.q.waiting[addr], s.q.blocked, Cap(val))
    ensures Machine.Wake(s, names, addr, val)
         == s.(q := s.q.(blocked := s.q.blocked - Elems(split.woken), runnable := s.q.runnable + split.woken,
                         waiting := SetQueue(s.q.waiting, addr, split.left)),
               log := s.log.(acts := s.log.acts + Unparks(names, split.woken, addr)))
    ensures WakeCount(s, addr, val) == |split.woken|
  {
    hide WakeLoop, SetQueue, Unparks, Elems;
  }
}
