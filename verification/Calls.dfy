/** What one system call of a traced task does, in every reachable state and in the numbers of the x86-64 ABI, told without
    the supervisor's own definitions (src/runtime/supervisor.rs:247-281, 559-613, 681-774). */
module Calls {
  import opened Base
  import opened Machine
  import opened Invariants
  import Recorder
  import Prng
  import Clock

  /** A task that is running and owes no return value enters a call. */
  ghost predicate Enters(s: State, p: Pid) {
    Inv(s) && s.outcome.InProgress? && IsTask(s, p, Resumed) && p !in s.calls.pending
  }

  /** `t` is `s` after `p` was let go on: same threads, same tasks, one record more. */
  ghost predicate Continues(s: State, t: State, p: Pid, event: Event) {
    && t.outcome.InProgress? && t.reg == s.reg && t.focus.current == s.focus.current
    && t.focus.frames == s.focus.frames && t.kern.task == s.kern.task && IsTask(t, p, Resumed)
    && t.log.trace == s.log.trace + [Record(s.log.lastNumber + 1, event)] && t.log.lastNumber == s.log.lastNumber + 1
  }

  /** The queues are the same as well. */
  ghost predicate GoesOn(s: State, t: State, p: Pid, event: Event) { Continues(s, t, p, event) && t.q == s.q }

  /** What was done to the guest: `acts`, then `p` was let go with the signal kept for it, if any. */
  ghost predicate Does(s: State, t: State, p: Pid, acts: seq<Act>) {
    && p in s.reg.threads
    && t.log.acts == s.log.acts + acts
         + [Resume(Some(s.reg.threads[p].vtid), if p in s.calls.sigPending then Some(s.calls.sigPending[p]) else None)]
  }

  /** The call left no mark but on the devices and on the value `p` is owed. */
  ghost predicate SameGroup(s: State, t: State) {
    t.focus == s.focus && t.kern == s.kern && t.calls.clonePending == s.calls.clonePending
  }

  /** `p` will be told `value` at the exit stop of its call, everybody else what they were owed before. */
  ghost predicate Owes(s: State, t: State, p: Pid, nr: nat, value: nat) {
    t.calls.pending == s.calls.pending[p := Inject(nr, value)]
  }

  // ----- the frame of a call that does not park

  lemma CallerFacts(s: State, p: Pid)
    requires Inv(s) && s.outcome.InProgress? && IsTask(s, p, Resumed)
    ensures p in s.reg.threads && (s.reg.threads[p].scheduled ==> s.focus.current == Some(p))
    ensures !s.reg.threads[p].scheduled ==> s.focus.current != Some(p)
    ensures !s.reg.threads[p].scheduled && s.focus.current == None && s.focus.frames == [] ==> s.q.runnable == [] && AnyConcurrent(s)
  {
    assert s.reg.threads[p].scheduled ==> RunsAmong(s.reg.threads, s.kern.task, p);
  }

  /** The state after the interception, and the resume that follows it. */
  lemma Onward(s: State, p: Pid, op: SyscallOp, u: State)
    requires Inv(s) && s.outcome.InProgress? && IsTask(s, p, Resumed) && !op.Exit?
    requires var d := SetTask(s, p, Held); u == Intercepted(d, p, op) && (op.Entry? ==> !IsScheduled(d, p) || !Parks(d, p, op.regs, op.mem))
    requires u.outcome.InProgress? && u.kern.task == s.kern.task[p := Held] && u.focus.current == s.focus.current
    requires u.focus.frames == s.focus.frames && u.reg == s.reg && u.calls.sigPending == s.calls.sigPending
    requires (s.focus.current == None && s.focus.frames == []) ==> u.q == s.q
    ensures var t := Step(s, SyscallStop(p, op));
            && t.outcome.InProgress? && t.reg == s.reg && t.q == u.q && t.focus == u.focus && t.dev == u.dev
            && t.calls == u.calls.(sigPending := s.calls.sigPending - {p})
            && t.kern == u.kern.(task := s.kern.task) && t.log.trace == u.log.trace && t.log.lastNumber == u.log.lastNumber
            && t.log.acts == u.log.acts + [Resume(VtidOf(s, p), SignalFor(s, p))]
  {
    var st := SyscallStop(p, op);
    var d := SetTask(s, p, Held);
    CallerFacts(s, p);
    var scheduled := IsScheduled(s, p);
    StepIs(s, st);
    InnerCases(s, st);
    HandleSyscallCases(d, p, op);
    assert IsScheduled(d, p) == scheduled && !Awaited(s, st);
    hide Inner, HandleSyscall, Intercepted, Parks, Inv, Step, AnyConcurrent, Awaited;
    var t := ResumeThread(u, p);
    assert t == Did(SetTask(u.(calls := u.calls.(sigPending := u.calls.sigPending - {p})), p, Resumed), Resume(VtidOf(s, p), SignalFor(s, p)));
    assert s.kern.task[p := Held][p := Resumed] == s.kern.task by { assert s.kern.task[p] == Resumed; }
    hide ResumeThread;
    assert Inner(s, st) == t;
    assert Tail(t) == t by { TailIdle(s, t, p, scheduled); }
  }

  lemma TailIdle(s: State, t: State, p: Pid, scheduled: bool)
    requires t.outcome.InProgress? && t.focus.current == s.focus.current && t.focus.frames == s.focus.frames && t.reg == s.reg
    requires scheduled ==> s.focus.current == Some(p)
    requires s.focus.current == None && s.focus.frames == [] ==> s.q.runnable == [] && t.q == s.q && AnyConcurrent(s)
    ensures Tail(t) == t
  {
  }

  // ----- calls that are passed through

  /** A call that is none of clone (56), gettimeofday (96), futex (202), clock_gettime (228 and 403), exit_group (231),
      getrandom (318) and clone3 (435) is passed through: one record with its own number, nothing else. */
  lemma OrdinaryCall(s: State, p: Pid, regs: Regs, mem: Memory)
    requires Enters(s, p) && regs.origRax !in {56, 96, 202, 228, 231, 318, 403, 435}
    ensures var t := Step(s, SyscallStop(p, Entry(regs, mem)));
            && GoesOn(s, t, p, Syscall(regs.origRax, Pass)) && SameGroup(s, t) && t.dev == s.dev
            && t.calls.pending == s.calls.pending && Does(s, t, p, [])
  {
    CallerFacts(s, p);
    var u := Emit(SetTask(s, p, Held), Syscall(regs.origRax, Pass));
    assert u == OnSyscallEntry(SetTask(s, p, Held), p, regs, mem);
    assert s.log.acts + [] == s.log.acts;
    hide OnSyscallEntry, Inv, Step;
    Onward(s, p, Entry(regs, mem), u);
  }

  /** exit_group (231) is passed through; from now on the group is exiting, with the low byte of its argument. */
  lemma ExitGroupCall(s: State, p: Pid, regs: Regs, mem: Memory)
    requires Enters(s, p) && regs.origRax == 231
    ensures var t := Step(s, SyscallStop(p, Entry(regs, mem)));
            && GoesOn(s, t, p, Syscall(231, Pass)) && t.focus == s.focus.(groupExiting := true) && t.dev == s.dev
            && t.kern.groupStatus == regs.rdi % 256
            && t.calls.pending == s.calls.pending && t.calls.clonePending == s.calls.clonePending && Does(s, t, p, [])
  {
    CallerFacts(s, p);
    var d := SetTask(s, p, Held);
    var u := Emit(d.(focus := d.focus.(groupExiting := true), kern := d.kern.(groupStatus := regs.rdi % 256)), Syscall(231, Pass));
    assert u == OnSyscallEntry(d, p, regs, mem);
    assert s.log.acts + [] == s.log.acts;
    hide OnSyscallEntry, Inv, Step;
    Onward(s, p, Entry(regs, mem), u);
  }

  /** clone (56) and clone3 (435) are passed through; what they ask for is kept for the caller's next clone event: flags
      and child_tid from rdi and r10, or from clone_args, zeros if those cannot be read. */
  lemma CloneCall(s: State, p: Pid, regs: Regs, mem: Memory)
    requires Enters(s, p) && regs.origRax in {56, 435}
    ensures var t := Step(s, SyscallStop(p, Entry(regs, mem)));
            && GoesOn(s, t, p, Syscall(regs.origRax, Pass)) && t.focus == s.focus && t.kern == s.kern && t.dev == s.dev
            && t.calls.pending == s.calls.pending && Does(s, t, p, [])
            && t.calls.clonePending == s.calls.clonePending[p :=
                 if regs.origRax == 56 then CloneInfo(regs.rdi, regs.r10)
                 else if mem.cloneArgs.Some? then CloneInfo(mem.cloneArgs.value.flags, mem.cloneArgs.value.childTid)
                 else CloneInfo(0, 0)]
  {
    CallerFacts(s, p);
    var d := SetTask(s, p, Held);
    var u := Emit(StashClone(d, p, regs.origRax, regs, mem), Syscall(regs.origRax, Pass));
    assert u == OnSyscallEntry(d, p, regs, mem);
    assert s.log.acts + [] == s.log.acts;
    hide OnSyscallEntry, Inv, Step;
    Onward(s, p, Entry(regs, mem), u);
  }

  // ----- calls that are answered

  /** getrandom (318) for n bytes, at most 2^20, takes ceil(n / 8) draws; the n bytes are written to the buffer, the call
      is skipped and will return n, and the bytes are recorded. A buffer that cannot be written ends the run. */
  lemma GetRandomCall(s: State, p: Pid, regs: Regs, mem: Memory)
    requires Enters(s, p) && regs.origRax == 318
    ensures var t := Step(s, SyscallStop(p, Entry(regs, mem)));
            var n := if regs.rsi < 1_048_576 then regs.rsi else 1_048_576;
            var bytes := Recorder.Filled(s.dev.rng, n);
            t.dev == s.dev.(rng := Prng.WordAfter(s.dev.rng, (n + 7) / 8))
            && if n > 0 && !mem.writable then t.outcome == Failed(Io)
               else
                 var who := VtidOf(s, p);
                 && GoesOn(s, t, p, GetRandom(n, Recorder.Hex(bytes))) && SameGroup(s, t) && Owes(s, t, p, 318, n)
                 && Does(s, t, p, (if n > 0 then [Write(who, regs.rdi, Random(bytes))] else []) + [Skip(who, 318, n)])
  {
    hide *;
    EntersMeans(s, p);
    CallerFacts(s, p);
    var d := SetTask(s, p, Held);
    var n := if regs.rsi < 1_048_576 then regs.rsi else 1_048_576;
    var bytes := Recorder.Filled(s.dev.rng, n);
    var who := VtidOf(s, p);
    var u := GetRandomIs(s, p, regs, mem);
    if n > 0 && !mem.writable {
      FailedEntry(s, p, regs, mem, u);
    } else {
      Onward(s, p, Entry(regs, mem), u);
      GoesOnIs(s, Step(s, SyscallStop(p, Entry(regs, mem))), p, GetRandom(n, Recorder.Hex(bytes)),
               (if n > 0 then [Write(who, regs.rdi, Random(bytes))] else []) + [Skip(who, 318, n)], 318, n);
    }
  }

  lemma EntersMeans(s: State, p: Pid)
    requires Enters(s, p)
    ensures Inv(s) && s.outcome.InProgress? && IsTask(s, p, Resumed)
  {
    hide Inv;
  }

  lemma GetRandomIs(s: State, p: Pid, regs: Regs, mem: Memory) returns (u: State)
    requires s.outcome.InProgress? && regs.origRax == 318
    ensures var n := if regs.rsi < 1_048_576 then regs.rsi else 1_048_576;
            var bytes := Recorder.Filled(s.dev.rng, n); var who := VtidOf(s, p); var d := SetTask(s, p, Held);
            && u == OnSyscallEntry(d, p, regs, mem) == Intercepted(d, p, Entry(regs, mem)) && !Parks(d, p, regs, mem)
            && u.dev == s.dev.(rng := Prng.WordAfter(s.dev.rng, (n + 7) / 8))
            && if n > 0 && !mem.writable then u.outcome == Failed(Io)
               else
                 && u.outcome == InProgress && u.reg == s.reg && u.q == s.q && u.focus == s.focus
                 && u.kern == s.kern.(task := s.kern.task[p := Held])
                 && u.calls == s.calls.(pending := s.calls.pending[p := Inject(318, n)])
                 && u.log == Log(s.log.lastNumber + 1, s.log.trace + [Record(s.log.lastNumber + 1, GetRandom(n, Recorder.Hex(bytes)))],
                                 s.log.acts + ((if n > 0 then [Write(who, regs.rdi, Random(bytes))] else []) + [Skip(who, 318, n)]))
  {
    hide Recorder.Filled, Prng.WordAfter, Recorder.Hex;
    var d := SetTask(s, p, Held);
    u := InterceptGetRandom(d, p, regs, mem);
    assert u == OnSyscallEntry(d, p, regs, mem) && !Parks(d, p, regs, mem);
  }

  /** An answered call, put together. */
  lemma GoesOnIs(s: State, t: State, p: Pid, event: Event, acts: seq<Act>, nr: nat, value: nat)
    requires p in s.reg.threads && IsTask(s, p, Resumed) && t.outcome.InProgress? && t.reg == s.reg && t.q == s.q && t.focus == s.focus
    requires t.kern == s.kern && t.calls == s.calls.(pending := s.calls.pending[p := Inject(nr, value)], sigPending := s.calls.sigPending - {p})
    requires t.log.trace == s.log.trace + [Record(s.log.lastNumber + 1, event)] && t.log.lastNumber == s.log.lastNumber + 1
    requires t.log.acts == s.log.acts + acts + [Resume(VtidOf(s, p), SignalFor(s, p))]
    ensures GoesOn(s, t, p, event) && SameGroup(s, t) && Owes(s, t, p, nr, value) && Does(s, t, p, acts)
  {
  }

  lemma FailedEntry(s: State, p: Pid, regs: Regs, mem: Memory, u: State)
    requires s.outcome.InProgress? && u == OnSyscallEntry(SetTask(s, p, Held), p, regs, mem) && u.outcome.Failed?
    ensures Step(s, SyscallStop(p, Entry(regs, mem))) == u
  {
    HandleSyscallCases(SetTask(s, p, Held), p, Entry(regs, mem));
    hide OnSyscallEntry, HandleSyscall;
  }

  /** The register as a signed 32-bit number. */
  function Signed(x: u64): int {
    var low := x % 4_294_967_296;
    if low < 2_147_483_648 then low else low - 4_294_967_296
  }

  /** clock_gettime (228, 403): the clocks 1, 6 and 7 read one millisecond more at each read, on a 64-bit count of
      nanoseconds, every other clock reads 1704067200 seconds and leaves the count alone. The reading is written to the
      second argument, the call is skipped and will return 0, and the reading is recorded. */
  lemma ClockCall(s: State, p: Pid, regs: Regs, mem: Memory)
    requires Enters(s, p) && regs.origRax in {228, 403}
    ensures var t := Step(s, SyscallStop(p, Entry(regs, mem)));
            var clk := Signed(regs.rdi); var ns := s.dev.tick * 1_000_000 % 0x1_0000_0000_0000_0000;
            var sec := if clk in {1, 6, 7} then ns / 1_000_000_000 else 1_704_067_200;
            var nsec := if clk in {1, 6, 7} then ns % 1_000_000_000 else 0;
            t.dev == s.dev.(tick := if clk in {1, 6, 7} then (s.dev.tick + 1) % 0x1_0000_0000_0000_0000 else s.dev.tick)
            && if !mem.writable then t.outcome == Failed(Io)
               else
                 && GoesOn(s, t, p, ClockGettime(clk, sec, nsec)) && SameGroup(s, t) && Owes(s, t, p, 228, 0)
                 && Does(s, t, p, [Write(VtidOf(s, p), regs.rsi, Time(sec, nsec)), Skip(VtidOf(s, p), 228, 0)])
  {
    hide *;
    EntersMeans(s, p);
    CallerFacts(s, p);
    var clk := Signed(regs.rdi);
    var ns := s.dev.tick * 1_000_000 % 0x1_0000_0000_0000_0000;
    var sec := if clk in {1, 6, 7} then ns / 1_000_000_000 else 1_704_067_200;
    var nsec := if clk in {1, 6, 7} then ns % 1_000_000_000 else 0;
    var u := ClockIs(s, p, regs, mem);
    if !mem.writable {
      FailedEntry(s, p, regs, mem, u);
    } else {
      Onward(s, p, Entry(regs, mem), u);
      GoesOnIs(s, Step(s, SyscallStop(p, Entry(regs, mem))), p, ClockGettime(clk, sec, nsec),
               [Write(VtidOf(s, p), regs.rsi, Time(sec, nsec)), Skip(VtidOf(s, p), 228, 0)], 228, 0);
    }
  }

  lemma ClockIs(s: State, p: Pid, regs: Regs, mem: Memory) returns (u: State)
    requires s.outcome.InProgress? && regs.origRax in {228, 403}
    ensures var clk := Signed(regs.rdi); var ns := s.dev.tick * 1_000_000 % 0x1_0000_0000_0000_0000;
            var sec := if clk in {1, 6, 7} then ns / 1_000_000_000 else 1_704_067_200;
            var nsec := if clk in {1, 6, 7} then ns % 1_000_000_000 else 0;
            var d := SetTask(s, p, Held);
            && u == OnSyscallEntry(d, p, regs, mem) == Intercepted(d, p, Entry(regs, mem)) && !Parks(d, p, regs, mem)
            && u.dev == s.dev.(tick := if clk in {1, 6, 7} then (s.dev.tick + 1) % 0x1_0000_0000_0000_0000 else s.dev.tick)
            && if !mem.writable then u.outcome == Failed(Io)
               else
                 && u.outcome == InProgress && u.reg == s.reg && u.q == s.q && u.focus == s.focus
                 && u.kern == s.kern.(task := s.kern.task[p := Held])
                 && u.calls == s.calls.(pending := s.calls.pending[p := Inject(228, 0)])
                 && u.log == Log(s.log.lastNumber + 1, s.log.trace + [Record(s.log.lastNumber + 1, ClockGettime(clk, sec, nsec))],
                                 s.log.acts + [Write(VtidOf(s, p), regs.rsi, Time(sec, nsec)), Skip(VtidOf(s, p), 228, 0)])
  {
    var d := SetTask(s, p, Held);
    u := InterceptClockGettime(d, p, regs, mem);
    assert u == OnSyscallEntry(d, p, regs, mem) && !Parks(d, p, regs, mem);
    var clk := Signed(regs.rdi);
    var ns := s.dev.tick * 1_000_000 % 0x1_0000_0000_0000_0000;
    assert Clock.Ticks(clk) <==> clk in {1, 6, 7};
    var sec := if clk in {1, 6, 7} then ns / 1_000_000_000 else 1_704_067_200;
    var nsec := if clk in {1, 6, 7} then ns % 1_000_000_000 else 0;
    assert AsI32(regs.rdi) == clk && Clock.Read(s.dev.tick, clk) == Clock.Reading(sec, nsec);
    assert Clock.NextTick(s.dev.tick, clk) == if clk in {1, 6, 7} then (s.dev.tick + 1) % 0x1_0000_0000_0000_0000 else s.dev.tick;
    hide Clock.Read, Clock.NextTick, AsI32, OnSyscallEntry, Parks, Signed;
  }

  /** gettimeofday (96): 1704067200 seconds and no microseconds, whenever it is called. */
  lemma TimeOfDayCall(s: State, p: Pid, regs: Regs, mem: Memory)
    requires Enters(s, p) && regs.origRax == 96
    ensures var t := Step(s, SyscallStop(p, Entry(regs, mem)));
            t.dev == s.dev
            && if !mem.writable then t.outcome == Failed(Io)
               else
                 && GoesOn(s, t, p, GetTimeOfDay(1_704_067_200, 0)) && SameGroup(s, t) && Owes(s, t, p, 96, 0)
                 && Does(s, t, p, [Write(VtidOf(s, p), regs.rdi, Time(1_704_067_200, 0)), Skip(VtidOf(s, p), 96, 0)])
  {
    CallerFacts(s, p);
    var d := SetTask(s, p, Held);
    var u := InterceptGetTimeOfDay(d, p, regs, mem);
    assert u == OnSyscallEntry(d, p, regs, mem) && !Parks(d, p, regs, mem);
    assert u.dev == s.dev;
    if !mem.writable {
      hide OnSyscallEntry, Inv, Parks;
      FailedEntry(s, p, regs, mem, u);
    } else {
      assert u.log.acts == s.log.acts + [Write(VtidOf(s, p), regs.rdi, Time(1_704_067_200, 0)), Skip(VtidOf(s, p), 96, 0)];
      hide OnSyscallEntry, Inv, Step, Parks;
      Onward(s, p, Entry(regs, mem), u);
    }
  }

  // ----- the exit stop

  /** What is recorded and done at the exit stop of a call: a value owed is returned, once. */
  function Told(s: State, p: Pid): seq<Record> {
    if p in s.calls.pending then [Record(s.log.lastNumber + 1, Syscall(s.calls.pending[p].syscall, Injected))] else []
  }

  function Answers(s: State, p: Pid): seq<Act>
    requires p in s.reg.threads
  {
    if p in s.calls.pending then
      [Return(Some(s.reg.threads[p].vtid), s.calls.pending[p].syscall, s.calls.pending[p].retval)]
    else []
  }

  lemma ReturnedIs(s: State, p: Pid) returns (u: State)
    requires p in s.reg.threads
    ensures u == OnSyscallExit(SetTask(s, p, Held), p)
    ensures u == s.(kern := s.kern.(task := s.kern.task[p := Held]), calls := s.calls.(pending := s.calls.pending - {p}), log := u.log)
    ensures u.log.trace == s.log.trace + Told(s, p) && u.log.acts == s.log.acts + Answers(s, p)
    ensures u.log.lastNumber == s.log.lastNumber + |Told(s, p)|
  {
    u := OnSyscallExit(SetTask(s, p, Held), p);
    if p !in s.calls.pending {
      assert s.calls.pending - {p} == s.calls.pending;
      assert s.log.trace + [] == s.log.trace && s.log.acts + [] == s.log.acts;
    }
  }

  /** A thread's call ends: it goes to the back of the line and the head of the line has its turn, recorded if it is
      another thread's. */
  lemma ThreadReturns(s: State, p: Pid)
    requires Inv(s) && s.outcome.InProgress? && IsTask(s, p, Resumed) && IsScheduled(s, p)
    ensures var t := Step(s, SyscallStop(p, Exit)); var line := s.q.runnable + [p]; var head := line[0];
            && head in s.reg.threads && t.reg == s.reg && t.dev == s.dev && t.calls.clonePending == s.calls.clonePending
            && t.q == s.q.(runnable := line[1..])
            && t.focus == s.focus.(current := Some(head), lastVtid := Some(s.reg.threads[head].vtid))
            && (t.outcome == if head == p || IsTask(s, head, Held) || IsTask(s, head, ExitStop) then InProgress else Failed(Ptrace))
            && (t.outcome.InProgress? && !IsTask(s, head, ExitStop) ==>
                  && t.kern.task == s.kern.task[p := Held][head := Resumed] && t.calls.pending == s.calls.pending - {p}
                  && t.log.trace == s.log.trace + Told(s, p) + (if head == p then []
                       else [Record(s.log.lastNumber + |Told(s, p)| + 1, Schedule(VtidOf(s, p), s.reg.threads[head].vtid))])
                  && t.log.acts == s.log.acts + Answers(s, p) + [Turn(s.reg.threads[head].vtid), Resume(VtidOf(s, head),
                       if head in s.calls.sigPending then Some(s.calls.sigPending[head]) else None)])
  {
    CallerFacts(s, p);
    var st := SyscallStop(p, Exit);
    var d := SetTask(s, p, Held);
    var u := ReturnedIs(s, p);
    var line := s.q.runnable + [p];
    var head := line[0];
    HeadFacts(s, p);
    StepIs(s, st);
    InnerCases(s, st);
    HandleSyscallCases(d, p, Exit);
    var v := PushRunnable(SetCurrent(u, None), p);
    assert YieldCurrent(u, p) == ScheduleNext(v) && IsScheduled(d, p) && !Awaited(s, st);
    assert v.q.runnable == line && head in v.reg.threads && head !in v.q.blocked;
    hide Inv, OnSyscallExit, Inner, HandleSyscall, YieldCurrent, Step, Awaited;
    assert ScheduleNext(v) == Pick(PopRunnable(v), head);
    hide ScheduleNext;
    assert Inner(s, st) == Pick(PopRunnable(v), head);
    PickIs(v, head);
    assert Tail(Pick(PopRunnable(v), head)) == Pick(PopRunnable(v), head) by { hide Pick; }
    hide Pick, Tail;
  }

  lemma HeadFacts(s: State, p: Pid)
    requires Inv(s) && s.focus.current == Some(p) && IsScheduled(s, p)
    ensures var head := (s.q.runnable + [p])[0]; head in s.reg.threads && head !in s.q.blocked
    ensures s.focus.lastVtid == VtidOf(s, p)
    ensures s.q.runnable != [] ==> s.reg.threads[s.q.runnable[0]].vtid != s.reg.threads[p].vtid && s.q.runnable[0] != p
  {
    if s.q.runnable != [] { assert s.q.runnable[0] in s.q.runnable; }
  }

  /** The switch to a thread. */
  lemma PickIs(v: State, tid: Pid)
    requires v.q.runnable != [] && tid in v.reg.threads
    ensures var t := Pick(PopRunnable(v), tid); var to := v.reg.threads[tid].vtid;
            && t.reg == v.reg && t.dev == v.dev && t.q == v.q.(runnable := v.q.runnable[1..])
            && t.calls.pending == v.calls.pending && t.calls.clonePending == v.calls.clonePending
            && t.focus == v.focus.(current := Some(tid), lastVtid := Some(to))
            && (t.outcome == if IsTask(v, tid, Held) || IsTask(v, tid, ExitStop) then v.outcome else Failed(Ptrace))
            && (IsTask(v, tid, Held) ==> t.kern.task == v.kern.task[tid := Resumed])
            && t.log.trace == v.log.trace
                 + (if v.focus.lastVtid == Some(to) then [] else [Record(v.log.lastNumber + 1, Schedule(v.focus.lastVtid, to))])
            && (IsTask(v, tid, Held) || IsTask(v, tid, ExitStop) ==>
                  t.log.acts == v.log.acts + [Turn(to), Resume(Some(to), SignalFor(v, tid))])
  {
  }

  /** A fork child's call ends: it goes on. */
  lemma ChildReturns(s: State, p: Pid)
    requires Inv(s) && s.outcome.InProgress? && IsTask(s, p, Resumed) && !IsScheduled(s, p)
    ensures var t := Step(s, SyscallStop(p, Exit));
            && t.outcome.InProgress? && t.reg == s.reg && t.q == s.q && t.focus == s.focus && t.dev == s.dev
            && t.kern == s.kern && t.calls.clonePending == s.calls.clonePending && t.calls.pending == s.calls.pending - {p}
            && t.log.trace == s.log.trace + Told(s, p) && Does(s, t, p, Answers(s, p))
  {
    CallerFacts(s, p);
    var st := SyscallStop(p, Exit);
    var d := SetTask(s, p, Held);
    var u := ReturnedIs(s, p);
    StepIs(s, st);
    InnerCases(s, st);
    HandleSyscallCases(d, p, Exit);
    assert !IsScheduled(d, p) && !Awaited(s, st);
    hide Inv, OnSyscallExit, Inner, HandleSyscall, Step, Awaited, AnyConcurrent;
    var t := ResumeThread(u, p);
    assert t == Did(SetTask(u.(calls := u.calls.(sigPending := u.calls.sigPending - {p})), p, Resumed), Resume(VtidOf(s, p), SignalFor(s, p)));
    assert s.kern.task[p := Held][p := Resumed] == s.kern.task by { assert s.kern.task[p] == Resumed; }
    hide ResumeThread;
    assert Inner(s, st) == t;
    assert Tail(t) == t by { TailIdle(s, t, p, false); }
  }
}
