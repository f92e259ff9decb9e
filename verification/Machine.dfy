/** The supervisor as a pure state machine over waitpid statuses (src/runtime/supervisor.rs:74-798).

    A state holds the supervisor's tables, the trace it has written, and two things the source
    only has implicitly: the activations of `await_attach` that are waiting for an attach stop
    (`frames`, the nested calls of the source), and the kernel's view of every task (`task`).
    Registers, futex words and clone arguments arrive with the status that reports a stop. */
module Machine {
  import opened Base
  import opened Recorder
  import Prng
  import Clock

  type Pid = int
  type Vtid = nat
  type Addr = u64
  type Signal = int

  const SIGSTOP: Signal := 19

  const SYS_CLONE := 56
  const SYS_GETTIMEOFDAY := 96
  const SYS_FUTEX := 202
  const SYS_CLOCK_GETTIME := 228
  const SYS_EXIT_GROUP := 231
  const SYS_GETRANDOM := 318
  const SYS_CLOCK_GETTIME64 := 403
  const SYS_CLONE3 := 435

  const FUTEX_WAIT := 0
  const FUTEX_WAKE := 1
  const FUTEX_REQUEUE := 3
  const FUTEX_CMP_REQUEUE := 4
  const FUTEX_WAIT_BITSET := 9
  const FUTEX_WAKE_BITSET := 10

  const GETRANDOM_MAX := 0x10_0000

  predicate HasCloneThread(flags: u64) { flags / 0x1_0000 % 2 == 1 }
  predicate HasClearTid(flags: u64) { flags / 0x20_0000 % 2 == 1 }

  datatype Thread = Thread(vtid: Vtid, childTid: u64, flags: u64, scheduled: bool)
  datatype CloneInfo = CloneInfo(flags: u64, childTid: u64)
  datatype Inject = Inject(syscall: nat, retval: nat)

  // ----- what the kernel reports

  datatype Regs = Regs(origRax: u64, rdi: u64, rsi: u64, rdx: u64, r10: u64, r9: u64)

  /** What the supervisor's reads and writes of tracee memory would find at this stop: the futex word,
      the flags and child_tid of a `clone_args`, and whether the output buffer can be written. */
  datatype Memory = Memory(word: Option<nat>, cloneArgs: Option<CloneInfo>, writable: bool)

  datatype SyscallOp = Entry(regs: Regs, mem: Memory) | Exit | NoInfo

  datatype Status =
    | SyscallStop(pid: Pid, op: SyscallOp)
    | CloneEvent(pid: Pid, child: Pid)
    | ExitEvent(pid: Pid)
    | OtherEvent(pid: Pid)
    | SignalStop(pid: Pid, sig: Signal)
    | Exited(pid: Pid, code: int)
    | Killed(pid: Pid, sig: Signal)
    | Idle

  // ----- what the supervisor records and does

  datatype FutexKind = FutexPass | FutexParked | FutexWoke
  datatype SyscallKind = Pass | Injected

  datatype Event =
    | Schedule(from: Option<Vtid>, to: Vtid)
    | ThreadCreate(created: Vtid, scheduled: bool)
    | ThreadExit(exited: Vtid)
    | Futex(cmd: nat, effect: FutexKind, caller: Option<Vtid>)
    | Syscall(nr: nat, kind: SyscallKind)
    | GetRandom(nbytes: nat, hex: string)
    | ClockGettime(clock: int, sec: nat, nsec: nat)
    | GetTimeOfDay(sec: nat, usec: nat)
    | RunExit(code: int)
    | RunSignal(sig: Signal)

  datatype Record = Record(number: nat, event: Event)

  datatype Data = Random(bytes: seq<Byte>) | Time(hi: nat, lo: nat)

  /** Everything done to the guest, in order, naming threads by their virtual ids: what a guest can
      see of the supervisor. Scheduling turns, parks, wakes and deaths are logged as well. */
  datatype Act =
    | Turn(who: Vtid)
    | Resume(tid: Option<Vtid>, delivered: Option<Signal>)
    | Skip(skipper: Option<Vtid>, syscall: nat, retval: nat)
    | Return(returner: Option<Vtid>, syscall: nat, retval: nat)
    | Write(writer: Option<Vtid>, addr: Addr, data: Data)
    | Park(parked: Option<Vtid>, word: Addr)
    | Unpark(woken: Option<Vtid>, word: Addr)
    | Died(dead: Vtid)

  /** A task as the kernel sees it. */
  datatype Task =
    | Attaching   // created, its attach stop not reported yet
    | Held        // stopped, waiting for ptrace::syscall
    | Resumed     // running until its next stop
    | ExitStop    // stopped at PTRACE_EVENT_EXIT
    | Dying       // let go after PTRACE_EVENT_EXIT

  datatype Frame = Frame(parent: Pid, child: Pid)

  datatype Error = Ptrace | Io | Deadlock
  datatype Outcome = InProgress | Done(code: int) | Failed(error: Error)

  datatype Registry = Registry(init: Pid, threads: map<Pid, Thread>, vtidNext: Vtid)

  datatype Queues = Queues(
    runnable: seq<Pid>, pendingStart: set<Pid>, stoppedPending: set<Pid>, blocked: set<Pid>, waiting: map<Addr, seq<Pid>>)

  /** `frames` are the nested activations of `await_attach`. */
  datatype Focus = Focus(current: Option<Pid>, lastVtid: Option<Vtid>, groupExiting: bool, frames: seq<Frame>)

  datatype Calls = Calls(pending: map<Pid, Inject>, sigPending: map<Pid, Signal>, clonePending: map<Pid, CloneInfo>)

  datatype Devices = Devices(rng: Prng.Word, tick: u64)

  datatype Log = Log(lastNumber: nat, trace: seq<Record>, acts: seq<Act>)

  /** The kernel: every traced task, and the status an exit_group in progress will leave. */
  datatype Kernel = Kernel(task: map<Pid, Task>, groupStatus: int)

  datatype State = State(
    reg: Registry, q: Queues, focus: Focus, calls: Calls, dev: Devices, log: Log, kern: Kernel, outcome: Outcome)

  // ----- small helpers

  predicate ScheduledIn(threads: map<Pid, Thread>, p: Pid) { p in threads && threads[p].scheduled }

  predicate IsScheduled(s: State, p: Pid) { ScheduledIn(s.reg.threads, p) }

  function VtidIn(threads: map<Pid, Thread>, p: Pid): Option<Vtid> {
    if p in threads then Some(threads[p].vtid) else None
  }

  function VtidOf(s: State, p: Pid): Option<Vtid> { VtidIn(s.reg.threads, p) }

  function ScheduledPids(s: State): set<Pid> { set p | p in s.reg.threads && s.reg.threads[p].scheduled }

  predicate AnyConcurrent(s: State) { exists p :: p in s.reg.threads && !s.reg.threads[p].scheduled }

  /** `trace_json`. */
  function Emit(s: State, e: Event): State {
    s.(log := s.log.(lastNumber := s.log.lastNumber + 1, trace := s.log.trace + [Record(s.log.lastNumber + 1, e)]))
  }

  /** Log something done to the guest. */
  function Did(s: State, act: Act): State { s.(log := s.log.(acts := s.log.acts + [act])) }

  function SetTask(s: State, p: Pid, t: Task): State { s.(kern := s.kern.(task := s.kern.task[p := t])) }

  function SetCurrent(s: State, current: Option<Pid>): State { s.(focus := s.focus.(current := current)) }

  function PushRunnable(s: State, p: Pid): State { s.(q := s.q.(runnable := s.q.runnable + [p])) }

  function PopRunnable(s: State): State
    requires s.q.runnable != []
  {
    s.(q := s.q.(runnable := s.q.runnable[1..]))
  }

  /** `ptrace::syscall(p, sig)`: only a stopped tracee can be resumed, otherwise the call is ESRCH. */
  function PtraceSyscall(s: State, p: Pid, sig: Option<Signal>): State {
    if p in s.kern.task && (s.kern.task[p].Held? || s.kern.task[p].ExitStop?) then
      Did(SetTask(s, p, if s.kern.task[p].Held? then Resumed else Dying), Resume(VtidOf(s, p), sig))
    else s.(outcome := Failed(Ptrace))
  }

  function SignalFor(s: State, p: Pid): Option<Signal> {
    if p in s.calls.sigPending then Some(s.calls.sigPending[p]) else None
  }

  function ResumeThread(s: State, p: Pid): State {
    PtraceSyscall(s.(calls := s.calls.(sigPending := s.calls.sigPending - {p})), p, SignalFor(s, p))
  }

  function ResumeCurrent(s: State, p: Pid): State {
    if s.focus.current == Some(p) then ResumeThread(s, p) else s
  }

  // ----- the scheduler

  /** Make `tid` the running thread. */
  function Pick(s: State, tid: Pid): State
    requires tid in s.reg.threads
  {
    var to := s.reg.threads[tid].vtid;
    var s1 := if s.focus.lastVtid != Some(to) then Emit(s, Schedule(s.focus.lastVtid, to)) else s;
    ResumeThread(Did(s1.(focus := s1.focus.(lastVtid := Some(to), current := Some(tid))), Turn(to)), tid)
  }

  function ScheduleNext(s: State): State
    decreases |s.q.runnable|
  {
    if s.q.runnable == [] then
      if s.q.pendingStart != {} || AnyConcurrent(s) then s else s.(outcome := Failed(Deadlock))
    else
      var tid := s.q.runnable[0];
      var s1 := PopRunnable(s);
      if tid !in s.reg.threads || tid in s.q.blocked then ScheduleNext(s1) else Pick(s1, tid)
  }

  function YieldCurrent(s: State, p: Pid): State {
    ScheduleNext(if s.focus.current == Some(p) then PushRunnable(SetCurrent(s, None), p) else s)
  }

  // ----- simulated futexes

  function Block(s: State, p: Pid, addr: Addr): State {
    var queue := if addr in s.q.waiting then s.q.waiting[addr] else [];
    Did(s.(q := s.q.(blocked := s.q.blocked + {p}, waiting := s.q.waiting[addr := queue + [p]])), Park(VtidOf(s, p), addr))
  }

  datatype Split = Split(woken: seq<Pid>, left: seq<Pid>)

  /** The wake loop over a detached queue: entries no longer blocked are dropped without counting. */
  function WakeLoop(parked: seq<Pid>, blocked: set<Pid>, cap: nat): Split {
    if cap == 0 || parked == [] then Split([], parked)
    else if parked[0] in blocked then
      var r := WakeLoop(parked[1..], blocked - {parked[0]}, cap - 1);
      Split([parked[0]] + r.woken, r.left)
    else WakeLoop(parked[1..], blocked, cap)
  }

  /** `(val as i64).max(0) as usize`. */
  function Cap(val: u64): nat { if val < I64_LIMIT then val else 0 }

  function SplitUpTo(s: State, addr: Addr, cap: nat): Split {
    if cap == 0 || addr !in s.q.waiting then Split([], [])
    else WakeLoop(s.q.waiting[addr], s.q.blocked, cap)
  }

  function WakeSplit(s: State, addr: Addr, val: u64): Split { SplitUpTo(s, addr, Cap(val)) }

  function Elems(q: seq<Pid>): set<Pid> { set p | p in q }

  function Unparks(names: map<Pid, Thread>, woken: seq<Pid>, addr: Addr): seq<Act> {
    seq(|woken|, i requires 0 <= i < |woken| => Unpark(VtidIn(names, woken[i]), addr))
  }

  function SetQueue(waiting: map<Addr, seq<Pid>>, addr: Addr, q: seq<Pid>): map<Addr, seq<Pid>> {
    if q == [] then waiting - {addr} else waiting[addr := q]
  }

  /** Wake up to `cap` threads parked on `addr`. `names` labels the log. */
  function WakeUpTo(s: State, names: map<Pid, Thread>, addr: Addr, cap: nat): State {
    if cap == 0 || addr !in s.q.waiting then s
    else
      var r := SplitUpTo(s, addr, cap);
      s.(q := s.q.(blocked := s.q.blocked - Elems(r.woken),
                   runnable := s.q.runnable + r.woken,
                   waiting := SetQueue(s.q.waiting, addr, r.left)),
         log := s.log.(acts := s.log.acts + Unparks(names, r.woken, addr)))
  }

  function Wake(s: State, names: map<Pid, Thread>, addr: Addr, val: u64): State { WakeUpTo(s, names, addr, Cap(val)) }

  function WakeCount(s: State, addr: Addr, val: u64): nat { |WakeSplit(s, addr, val).woken| }

  // ----- thread life cycle

  function Enrol(s: State, p: Pid, thread: Thread): State {
    s.(reg := s.reg.(vtidNext := s.reg.vtidNext + 1, threads := s.reg.threads[p := thread]))
  }

  /** Release the child if its attach stop came first, otherwise let it wait for the stop. */
  function Admit(s: State, p: Pid): State {
    if p in s.q.stoppedPending then Release(s.(q := s.q.(stoppedPending := s.q.stoppedPending - {p})), p)
    else s.(q := s.q.(pendingStart := s.q.pendingStart + {p}))
  }

  function Register(s: State, p: Pid, info: CloneInfo): State {
    if p in s.reg.threads then s
    else
      var thread := Thread(s.reg.vtidNext, info.childTid, info.flags, HasCloneThread(info.flags));
      var t := Admit(Enrol(s, p, thread), p);
      if t.outcome.InProgress? then Emit(t, ThreadCreate(thread.vtid, thread.scheduled)) else t
  }

  /** What happens to a registered child once its attach stop is known. */
  function Release(s: State, p: Pid): State {
    if IsScheduled(s, p) then PushRunnable(s, p) else ResumeThread(s, p)
  }

  /** `waiting.values_mut().for_each(retain)` followed by dropping empty queues. */
  function Purge(waiting: map<Addr, seq<Pid>>, p: Pid): map<Addr, seq<Pid>> {
    map a | a in waiting && Without(waiting[a], p) != [] :: Without(waiting[a], p)
  }

  /** The first half of `on_thread_exit`: the thread's own record, its join wake, its trace event. */
  function Retire(s: State, p: Pid, record: bool): State {
    if p !in s.reg.threads then s
    else
      var t := s.reg.threads[p];
      var s1 := s.(reg := s.reg.(threads := s.reg.threads - {p}));
      var s2 := if t.childTid != 0 && HasClearTid(t.flags) then Wake(s1, s.reg.threads, t.childTid, 1) else s1;
      var s3 := if record then Emit(s2, ThreadExit(t.vtid)) else s2;
      Did(s3.(calls := s3.calls.(pending := s3.calls.pending - {p})), Died(t.vtid))
  }

  /** The second half: forget the pid everywhere. */
  function Forget(s: State, p: Pid): State {
    s.(q := Queues(Without(s.q.runnable, p), s.q.pendingStart - {p}, s.q.stoppedPending - {p}, s.q.blocked - {p},
                   Purge(s.q.waiting, p)),
       calls := s.calls.(sigPending := s.calls.sigPending - {p}))
  }

  function OnThreadExit(s: State, p: Pid, record: bool): State {
    Forget(Retire(s, p, record), p)
  }

  // ----- system calls

  function SkipSyscall(s: State, p: Pid, syscall: nat, retval: nat): State {
    Did(s.(calls := s.calls.(pending := s.calls.pending[p := Inject(syscall, retval)])), Skip(VtidOf(s, p), syscall, retval))
  }

  function WriteMem(s: State, p: Pid, addr: Addr, data: Data, writable: bool): State {
    if writable then Did(s, Write(VtidOf(s, p), addr, data))
    else s.(outcome := Failed(Io))
  }

  function InterceptGetRandom(s: State, p: Pid, regs: Regs, mem: Memory): State {
    var buflen := if regs.rsi < GETRANDOM_MAX then regs.rsi else GETRANDOM_MAX;
    var bytes := Filled(s.dev.rng, buflen);
    var s1 := s.(dev := s.dev.(rng := Prng.WordAfter(s.dev.rng, DrawsFor(buflen))));
    var s2 := if buflen > 0 then WriteMem(s1, p, regs.rdi, Random(bytes), mem.writable) else s1;
    if s2.outcome.InProgress? then
      Emit(SkipSyscall(s2, p, SYS_GETRANDOM, buflen), GetRandom(buflen, Hex(bytes)))
    else s2
  }

  /** `regs.rdi as i32`. */
  function AsI32(x: u64): int { var low := x % U32; if low < U32 / 2 then low else low - U32 }

  function InterceptClockGettime(s: State, p: Pid, regs: Regs, mem: Memory): State {
    var clk := AsI32(regs.rdi);
    var r := Clock.Read(s.dev.tick, clk);
    var s1 := WriteMem(s.(dev := s.dev.(tick := Clock.NextTick(s.dev.tick, clk))), p, regs.rsi, Time(r.sec, r.nsec), mem.writable);
    if s1.outcome.InProgress? then
      Emit(SkipSyscall(s1, p, SYS_CLOCK_GETTIME, 0), ClockGettime(clk, r.sec, r.nsec))
    else s1
  }

  function InterceptGetTimeOfDay(s: State, p: Pid, regs: Regs, mem: Memory): State {
    var r := Clock.Read(s.dev.tick, Clock.CLOCK_REALTIME);
    var s1 := WriteMem(s, p, regs.rdi, Time(r.sec, r.nsec / 1_000), mem.writable);
    if s1.outcome.InProgress? then
      Emit(SkipSyscall(s1, p, SYS_GETTIMEOFDAY, 0), GetTimeOfDay(r.sec, r.nsec / 1_000))
    else s1
  }

  function StashClone(s: State, p: Pid, nr: nat, regs: Regs, mem: Memory): State {
    var info := if nr == SYS_CLONE3 then
                  match mem.cloneArgs case Some(args) => args case None => CloneInfo(0, 0)
                else CloneInfo(regs.rdi, regs.r10);
    s.(calls := s.calls.(clonePending := s.calls.clonePending[p := info]))
  }

  function TraceFutex(s: State, p: Pid, cmd: nat, kind: FutexKind): State {
    Emit(s, Futex(cmd, kind, VtidOf(s, p)))
  }

  /** The command of a futex call: `(regs.rsi as i32) & 0x7f`. */
  function FutexCmd(regs: Regs): nat { regs.rsi % 128 }

  predicate IsWait(cmd: nat) { cmd == FUTEX_WAIT || cmd == FUTEX_WAIT_BITSET }
  predicate IsWake(cmd: nat) { cmd == FUTEX_WAKE || cmd == FUTEX_WAKE_BITSET }
  predicate IsRequeue(cmd: nat) { cmd == FUTEX_REQUEUE || cmd == FUTEX_CMP_REQUEUE }

  /** What `intercept_futex` decides to do. */
  datatype FutexPlan = PassThrough | ParkOn(addr: Addr) | WakeOn(addr: Addr, val: u64) | RequeueOn(addr: Addr, val: u64, val2: u64)

  function PlanFutex(s: State, p: Pid, regs: Regs, mem: Memory): FutexPlan {
    var cmd := FutexCmd(regs);
    if !IsScheduled(s, p) || |ScheduledPids(s)| <= 1 then PassThrough
    else if IsWait(cmd) then
      if mem.word == Some(regs.rdx % U32) then ParkOn(regs.rdi) else PassThrough
    else if IsWake(cmd) then WakeOn(regs.rdi, regs.rdx)
    else if IsRequeue(cmd) then
      if cmd == FUTEX_CMP_REQUEUE && mem.word != Some(regs.r9 % U32) then PassThrough
      else RequeueOn(regs.rdi, regs.rdx, regs.r10)
    else PassThrough
  }

  /** Park the thread: its call is skipped with a return value of 0. */
  function ParkThread(s: State, p: Pid, cmd: nat, addr: Addr): State {
    TraceFutex(Block(SkipSyscall(s, p, SYS_FUTEX, 0), p, addr), p, cmd, FutexParked)
  }

  /** Answer a wake: its call is skipped and returns `n`. */
  function AnswerWake(s: State, p: Pid, cmd: nat, n: nat): State {
    TraceFutex(SkipSyscall(s, p, SYS_FUTEX, n), p, cmd, FutexWoke)
  }

  function WakeAt(s: State, addr: Addr, val: u64): State { Wake(s, s.reg.threads, addr, val) }

  function CarryOut(s: State, p: Pid, cmd: nat, plan: FutexPlan): State {
    match plan
    case PassThrough => TraceFutex(s, p, cmd, FutexPass)
    case ParkOn(addr) => ParkThread(s, p, cmd, addr)
    case WakeOn(addr, val) => AnswerWake(WakeAt(s, addr, val), p, cmd, WakeCount(s, addr, val))
    case RequeueOn(addr, val, val2) =>
      var s1 := WakeAt(s, addr, val);
      AnswerWake(WakeAt(s1, addr, val2), p, cmd, WakeCount(s, addr, val) + WakeCount(s1, addr, val2))
  }

  function InterceptFutex(s: State, p: Pid, regs: Regs, mem: Memory): State {
    CarryOut(s, p, FutexCmd(regs), PlanFutex(s, p, regs, mem))
  }

  /** Whether the syscall under way parks its thread. */
  predicate Parks(s: State, p: Pid, regs: Regs, mem: Memory) {
    regs.origRax == SYS_FUTEX && PlanFutex(s, p, regs, mem).ParkOn?
  }

  function OnSyscallEntry(s: State, p: Pid, regs: Regs, mem: Memory): State {
    var nr := regs.origRax;
    if nr == SYS_GETRANDOM then InterceptGetRandom(s, p, regs, mem)
    else if nr == SYS_CLOCK_GETTIME || nr == SYS_CLOCK_GETTIME64 then InterceptClockGettime(s, p, regs, mem)
    else if nr == SYS_GETTIMEOFDAY then InterceptGetTimeOfDay(s, p, regs, mem)
    else if nr == SYS_FUTEX then InterceptFutex(s, p, regs, mem)
    else if nr == SYS_EXIT_GROUP then
      Emit(s.(focus := s.focus.(groupExiting := true), kern := s.kern.(groupStatus := regs.rdi % 256)), Syscall(nr, Pass))
    else if nr == SYS_CLONE || nr == SYS_CLONE3 then Emit(StashClone(s, p, nr, regs, mem), Syscall(nr, Pass))
    else Emit(s, Syscall(nr, Pass))
  }

  function OnSyscallExit(s: State, p: Pid): State {
    if p in s.calls.pending then
      var inject := s.calls.pending[p];
      Emit(Did(s.(calls := s.calls.(pending := s.calls.pending - {p})),
               Return(VtidOf(s, p), inject.syscall, inject.retval)),
           Syscall(inject.syscall, Injected))
    else s
  }

  // ----- one status

  /** What `wait()` itself changes: the kernel's view of the reported tasks. */
  function Deliver(s: State, st: Status): State {
    match st
    case SyscallStop(p, _) => SetTask(s, p, Held)
    case OtherEvent(p) => SetTask(s, p, Held)
    case SignalStop(p, _) => SetTask(s, p, Held)
    case CloneEvent(p, c) => var s1 := SetTask(s, p, Held); if c in s1.kern.task then s1 else SetTask(s1, c, Attaching)
    case ExitEvent(p) => SetTask(s, p, ExitStop)
    case Exited(p, _) => s.(kern := s.kern.(task := s.kern.task - {p}))
    case Killed(p, _) => s.(kern := s.kern.(task := s.kern.task - {p}))
    case Idle => s
  }

  /** A fork child's syscall stop: it keeps running, whatever the intercept said. */
  function ConcurrentSyscall(s: State, p: Pid, op: SyscallOp): State {
    var s1 := match op
              case Entry(regs, mem) => OnSyscallEntry(s, p, regs, mem)
              case Exit => OnSyscallExit(s, p)
              case NoInfo => s;
    if s1.outcome.InProgress? then ResumeThread(s1, p) else s1
  }

  /** A thread's syscall entry: run on, or make room when the call parks the thread. */
  function ScheduledEntry(s: State, p: Pid, regs: Regs, mem: Memory): State {
    var s1 := OnSyscallEntry(s, p, regs, mem);
    if !s1.outcome.InProgress? then s1
    else if Parks(s, p, regs, mem) then SetCurrent(s1, None)
    else ResumeCurrent(s1, p)
  }

  function HandleSyscall(s: State, p: Pid, op: SyscallOp): State {
    if !IsScheduled(s, p) then ConcurrentSyscall(s, p, op)
    else
      match op
      case Entry(regs, mem) => ScheduledEntry(s, p, regs, mem)
      case Exit => YieldCurrent(OnSyscallExit(s, p), p)
      case NoInfo => ResumeCurrent(s, p)
  }

  /** The state after the interception of a syscall stop, before anybody is resumed. */
  function Intercepted(s: State, p: Pid, op: SyscallOp): State {
    match op
    case Entry(regs, mem) => OnSyscallEntry(s, p, regs, mem)
    case Exit => OnSyscallExit(s, p)
    case NoInfo => s
  }

  lemma HandleSyscallCases(s: State, p: Pid, op: SyscallOp)
    ensures var t := Intercepted(s, p, op);
            HandleSyscall(s, p, op) ==
            if !IsScheduled(s, p) then if t.outcome.InProgress? then ResumeThread(t, p) else t
            else if op.Exit? then YieldCurrent(t, p)
            else if op.Entry? && !t.outcome.InProgress? then t
            else if op.Entry? && Parks(s, p, op.regs, op.mem) then SetCurrent(t, None)
            else ResumeCurrent(t, p)
  {
    hide OnSyscallEntry, OnSyscallExit, ResumeThread, ResumeCurrent, YieldCurrent, Parks, IsScheduled;
  }

  /** The end of the clone arm, once the child is released. */
  function Continue(s: State, p: Pid): State {
    if IsScheduled(s, p) then ResumeCurrent(s, p) else ResumeThread(s, p)
  }

  /** The clone arm up to the point where `await_attach` returns or starts to wait. */
  function HandleClone(s: State, p: Pid, c: Pid): State {
    var info := if p in s.calls.clonePending then s.calls.clonePending[p] else CloneInfo(0, 0);
    var s1 := Register(s.(calls := s.calls.(clonePending := s.calls.clonePending - {p})), c, info);
    if !s1.outcome.InProgress? then s1
    else if c in s1.q.pendingStart then s1.(focus := s1.focus.(frames := s1.focus.frames + [Frame(p, c)]))
    else Continue(s1, p)
  }

  function HandleSignalStop(s: State, p: Pid, sig: Signal): State {
    if sig == SIGSTOP then
      if s.focus.current == Some(p) then ResumeThread(s, p)
      else if p in s.q.pendingStart then Release(s.(q := s.q.(pendingStart := s.q.pendingStart - {p})), p)
      else if p !in s.reg.threads then s.(q := s.q.(stoppedPending := s.q.stoppedPending + {p}))
      else s
    else if s.focus.current == Some(p) then PtraceSyscall(s, p, Some(sig))
    else if IsScheduled(s, p) then s.(calls := s.calls.(sigPending := s.calls.sigPending[p := sig]))
    else if p in s.reg.threads then PtraceSyscall(s, p, Some(sig))
    else s
  }

  function HandleDeath(s: State, p: Pid): State {
    var wasCurrent := s.focus.current == Some(p);
    var s1 := OnThreadExit(s, p, wasCurrent);
    if wasCurrent && !s1.focus.groupExiting then ScheduleNext(SetCurrent(s1, None)) else s1
  }

  /** `dispatch`. */
  function Handle(s: State, st: Status): State {
    match st
    case SyscallStop(p, op) => HandleSyscall(s, p, op)
    case CloneEvent(p, c) => HandleClone(s, p, c)
    case ExitEvent(p) => ResumeThread(s, p)
    case OtherEvent(p) => Continue(s, p)
    case SignalStop(p, sig) => HandleSignalStop(s, p, sig)
    case Exited(p, code) =>
      if p == s.reg.init then Emit(s, RunExit(code)).(outcome := Done(code)) else HandleDeath(s, p)
    case Killed(p, sig) =>
      if p == s.reg.init then Emit(s, RunSignal(sig)).(outcome := Done(128 + sig)) else HandleDeath(s, p)
    case Idle => s
  }

  /** The attach stop the innermost activation of `await_attach` is waiting for. */
  predicate Awaited(s: State, st: Status) {
    s.focus.frames != [] && st == SignalStop(s.focus.frames[|s.focus.frames| - 1].child, SIGSTOP)
  }

  /** `await_attach` returns: the child is released, the clone arm of the caller finishes. */
  function FinishAwait(s: State): State
    requires s.focus.frames != []
  {
    var f := s.focus.frames[|s.focus.frames| - 1];
    var s1 := Release(s.(q := s.q.(pendingStart := s.q.pendingStart - {f.child})), f.child);
    if s1.outcome.InProgress? then
      Continue(s1.(focus := s1.focus.(frames := s1.focus.frames[..|s1.focus.frames| - 1])), f.parent)
    else s1
  }

  /** One status handled by whichever loop is waiting. */
  function Inner(s: State, st: Status): State {
    if Awaited(s, st) then FinishAwait(Deliver(s, st)) else Handle(Deliver(s, st), st)
  }

  /** The tail of the loop in `run`, which is only reached outside `await_attach`. */
  function Tail(s: State): State {
    if s.outcome.InProgress? && s.focus.frames == [] && s.focus.current == None then ScheduleNext(s) else s
  }

  function Step(s: State, st: Status): State {
    if s.outcome.InProgress? then Tail(Inner(s, st)) else s
  }

  /** The tables `supervise` starts with; the init is held at its initial stop. */
  function Boot(init: Pid, seed: u64): State {
    State(Registry(init, map[init := Thread(0, 0, 0, true)], 1),
          Queues([init], {}, {}, {}, map[]),
          Focus(None, None, false, []),
          Calls(map[], map[], map[]),
          Devices(Prng.Seeded(seed), 0),
          Log(0, [], []),
          Kernel(map[init := Held], 0),
          InProgress)
  }

  /** The state when `run` first waits. */
  function Start(init: Pid, seed: u64): State { ScheduleNext(Boot(init, seed)) }

  function Run(s: State, sts: seq<Status>): State {
    if sts == [] then s else Step(Run(s, sts[..|sts| - 1]), sts[|sts| - 1])
  }

  lemma {:induction false} RunConcat(s: State, a: seq<Status>, b: seq<Status>)
    ensures Run(s, a + b) == Run(Run(s, a), b)
  {
    hide Step;
    if b == [] {
      assert a + b == a;
    } else {
      assert (a + b)[..|a + b| - 1] == a + b[..|b| - 1];
      RunConcat(s, a, b[..|b| - 1]);
    }
  }

  // ----- steps and runs, unfolded once

  lemma StepIs(s: State, st: Status)
    requires s.outcome.InProgress?
    ensures Step(s, st) == Tail(Inner(s, st))
  {
    hide Tail, Inner;
  }

  /** A run that is over stays as it is. */
  lemma StepOver(s: State, st: Status)
    requires !s.outcome.InProgress?
    ensures Step(s, st) == s
  {
    hide Tail, Inner;
  }

  lemma RunEmpty(s: State)
    ensures Run(s, []) == s
  {
    hide Step;
  }

  lemma RunLast(s: State, sts: seq<Status>)
    requires sts != []
    ensures Run(s, sts) == Step(Run(s, sts[..|sts| - 1]), sts[|sts| - 1])
  {
    hide Step;
  }
}
