/** The trace is enough to replay a run's devices: a reader that knows only the seed predicts every `getrandom`,
    `clock_gettime` and `gettimeofday` event, and what each of them wrote and returned
    (src/runtime/supervisor.rs:10-12, 66-71, 105-113, 691-774). */
module Replay {
  import opened Base
  import opened Machine
  import Clock
  import Prng
  import Recorder
  import Threads

  /** What a device call does to the guest: write a result, return a value. */
  datatype Deed = Wrote(data: Data) | Answered(syscall: nat, retval: nat)

  datatype Player = Player(word: Prng.Word, tick: u64, deeds: seq<Deed>)

  function Beginning(seed: u64): Player { Player(Prng.Seeded(seed), 0, []) }

  predicate IsDevice(e: Event) { e.GetRandom? || e.ClockGettime? || e.GetTimeOfDay? }

  /** The event a player expects, and what it then does. */
  function Play(player: Player, e: Event): Option<Player> {
    match e
    case GetRandom(n, hex) =>
      var bytes := Recorder.Filled(player.word, n);
      if n <= GETRANDOM_MAX && Recorder.Unhex(hex) == Some(bytes) then
        Some(Player(Prng.WordAfter(player.word, Recorder.DrawsFor(n)), player.tick,
                    player.deeds + (if n > 0 then [Wrote(Random(bytes))] else []) + [Answered(SYS_GETRANDOM, n)]))
      else None
    case ClockGettime(clk, sec, nsec) =>
      if Clock.Read(player.tick, clk) == Clock.Reading(sec, nsec) then
        Some(Player(player.word, Clock.NextTick(player.tick, clk),
                    player.deeds + [Wrote(Time(sec, nsec))] + [Answered(SYS_CLOCK_GETTIME, 0)]))
      else None
    case GetTimeOfDay(sec, usec) =>
      if sec == Clock.VIRTUAL_EPOCH && usec == 0 then
        Some(player.(deeds := player.deeds + [Wrote(Time(sec, usec))] + [Answered(SYS_GETTIMEOFDAY, 0)]))
      else None
    case _ => Some(player)
  }

  function PlayAll(seed: u64, events: seq<Event>): Option<Player> {
    if events == [] then Some(Beginning(seed))
    else
      match PlayAll(seed, events[..|events| - 1])
      case None => None
      case Some(player) => Play(player, events[|events| - 1])
  }

  /** The device events of a trace. */
  function DeviceEvents(trace: seq<Record>): seq<Event> {
    if trace == [] then []
    else
      var rest := DeviceEvents(trace[..|trace| - 1]);
      var last := trace[|trace| - 1].event;
      if IsDevice(last) then rest + [last] else rest
  }

  /** What was done to the guest on behalf of device calls. */
  function Deeds(acts: seq<Act>): seq<Deed> {
    if acts == [] then []
    else
      var rest := Deeds(acts[..|acts| - 1]);
      match acts[|acts| - 1]
      case Write(_, _, data) => rest + [Wrote(data)]
      case Skip(_, syscall, retval) => if syscall == SYS_FUTEX then rest else rest + [Answered(syscall, retval)]
      case _ => rest
  }

  /** The devices' part of a state. */
  datatype Panel = Panel(dev: Devices, events: seq<Event>, deeds: seq<Deed>)

  ghost function PanelOf(s: State): Panel { Panel(s.dev, DeviceEvents(s.log.trace), Deeds(s.log.acts)) }

  ghost predicate Played(seed: u64, panel: Panel) {
    PlayAll(seed, panel.events) == Some(Player(panel.dev.rng, panel.dev.tick, panel.deeds))
  }

  lemma EventsPush(trace: seq<Record>, rec: Record)
    ensures DeviceEvents(trace + [rec]) == if IsDevice(rec.event) then DeviceEvents(trace) + [rec.event] else DeviceEvents(trace)
  {
    assert (trace + [rec])[..|trace|] == trace;
  }

  predicate Other(act: Act) { !act.Write? && !(act.Skip? && act.syscall != SYS_FUTEX) }

  lemma DeedsPush(acts: seq<Act>, act: Act)
    ensures Other(act) ==> Deeds(acts + [act]) == Deeds(acts)
    ensures act.Write? ==> Deeds(acts + [act]) == Deeds(acts) + [Wrote(act.data)]
    ensures act.Skip? && act.syscall != SYS_FUTEX ==> Deeds(acts + [act]) == Deeds(acts) + [Answered(act.syscall, act.retval)]
  {
    assert (acts + [act])[..|acts|] == acts;
  }

  lemma {:induction false} DeedsQuiet(acts: seq<Act>, more: seq<Act>)
    requires forall i :: 0 <= i < |more| ==> Other(more[i])
    ensures Deeds(acts + more) == Deeds(acts)
  {
    if more == [] {
      assert acts + more == acts;
    } else {
      var k := |more| - 1;
      DeedsQuiet(acts, more[..k]);
      assert acts + more == acts + more[..k] + [more[k]];
      DeedsPush(acts + more[..k], more[k]);
    }
  }

  // ----- most operations leave the panel alone

  lemma EmitAside(s: State, e: Event)
    requires !IsDevice(e)
    ensures PanelOf(Emit(s, e)) == PanelOf(s)
  {
    EventsPush(s.log.trace, Record(s.log.lastNumber + 1, e));
    hide DeviceEvents, Deeds;
  }

  lemma DidAside(s: State, act: Act)
    requires Other(act)
    ensures PanelOf(Did(s, act)) == PanelOf(s)
  {
    DeedsPush(s.log.acts, act);
    hide DeviceEvents, Deeds;
  }

  /** Only the trace, the log and the devices show on the panel. */
  lemma PanelFrame(s: State, t: State)
    requires t.log == s.log && t.dev == s.dev
    ensures PanelOf(t) == PanelOf(s)
  {
    hide DeviceEvents, Deeds;
  }

  lemma PtraceAside(s: State, p: Pid, sig: Option<Signal>)
    ensures PanelOf(PtraceSyscall(s, p, sig)) == PanelOf(s)
  {
    DidAside(SetTask(s, p, Resumed), Resume(VtidOf(s, p), sig));
    DidAside(SetTask(s, p, Dying), Resume(VtidOf(s, p), sig));
    hide DeviceEvents, Deeds;
  }

  lemma ResumeAside(s: State, p: Pid)
    ensures PanelOf(ResumeThread(s, p)) == PanelOf(s)
    ensures PanelOf(ResumeCurrent(s, p)) == PanelOf(s) && PanelOf(Continue(s, p)) == PanelOf(s)
  {
    PtraceAside(s.(calls := s.calls.(sigPending := s.calls.sigPending - {p})), p, SignalFor(s, p));
    hide PtraceSyscall, DeviceEvents, Deeds;
  }

  lemma ReleaseAside(s: State, p: Pid)
    ensures PanelOf(Release(s, p)) == PanelOf(s)
  {
    ResumeAside(s, p);
    hide ResumeThread, DeviceEvents, Deeds;
  }

  lemma PickAside(s: State, tid: Pid)
    requires tid in s.reg.threads
    ensures PanelOf(Pick(s, tid)) == PanelOf(s)
  {
    var to := s.reg.threads[tid].vtid;
    EmitAside(s, Schedule(s.focus.lastVtid, to));
    var s1 := if s.focus.lastVtid != Some(to) then Emit(s, Schedule(s.focus.lastVtid, to)) else s;
    hide Emit;
    var s2 := s1.(focus := s1.focus.(lastVtid := Some(to), current := Some(tid)));
    DidAside(s2, Turn(to));
    PanelFrame(s1, s2);
    ResumeAside(Did(s2, Turn(to)), tid);
    hide ResumeThread, Did, PanelOf;
  }

  lemma {:induction false} ScheduleAside(s: State)
    ensures PanelOf(ScheduleNext(s)) == PanelOf(s)
    decreases |s.q.runnable|
  {
    hide Pick, DeviceEvents, Deeds;
    if s.q.runnable != [] {
      var tid := s.q.runnable[0];
      if tid !in s.reg.threads || tid in s.q.blocked {
        ScheduleAside(PopRunnable(s));
      } else {
        PickAside(PopRunnable(s), tid);
      }
    }
  }

  lemma YieldAside(s: State, p: Pid)
    ensures PanelOf(YieldCurrent(s, p)) == PanelOf(s)
  {
    ScheduleAside(if s.focus.current == Some(p) then PushRunnable(SetCurrent(s, None), p) else s);
    hide ScheduleNext, DeviceEvents, Deeds;
  }

  lemma WakeAside(s: State, names: map<Pid, Thread>, addr: Addr, val: u64)
    ensures PanelOf(Wake(s, names, addr, val)) == PanelOf(s)
  {
    DeedsQuiet(s.log.acts, Unparks(names, WakeSplit(s, addr, val).woken, addr));
    hide WakeSplit, SetQueue, DeviceEvents, Deeds;
  }

  lemma FutexSkipAside(s: State, p: Pid, n: nat)
    ensures PanelOf(SkipSyscall(s, p, SYS_FUTEX, n)) == PanelOf(s)
  {
    DeedsPush(s.log.acts, Skip(VtidOf(s, p), SYS_FUTEX, n));
    hide DeviceEvents, Deeds;
  }

  lemma AnswerAside(s: State, p: Pid, cmd: nat, n: nat, kind: FutexKind)
    ensures PanelOf(TraceFutex(s, p, cmd, kind)) == PanelOf(s)
    ensures PanelOf(AnswerWake(s, p, cmd, n)) == PanelOf(s)
  {
    EmitAside(s, Futex(cmd, kind, VtidOf(s, p)));
    FutexSkipAside(s, p, n);
    var t := SkipSyscall(s, p, SYS_FUTEX, n);
    EmitAside(t, Futex(cmd, FutexWoke, VtidOf(t, p)));
    hide Emit, SkipSyscall, PanelOf;
  }

  lemma ParkAside(s: State, p: Pid, cmd: nat, addr: Addr)
    ensures PanelOf(ParkThread(s, p, cmd, addr)) == PanelOf(s)
  {
    FutexSkipAside(s, p, 0);
    var t := SkipSyscall(s, p, SYS_FUTEX, 0);
    DeedsPush(t.log.acts, Park(VtidOf(t, p), addr));
    hide SkipSyscall, DeviceEvents, Deeds;
    var u := Block(t, p, addr);
    assert PanelOf(u) == PanelOf(t);
    AnswerAside(u, p, cmd, 0, FutexParked);
    hide Block, TraceFutex;
  }

  lemma CarryOutAside(s: State, p: Pid, cmd: nat, plan: FutexPlan)
    ensures PanelOf(CarryOut(s, p, cmd, plan)) == PanelOf(s)
  {
    hide ParkThread, AnswerWake, TraceFutex, Wake, WakeCount, PanelOf;
    match plan {
      case PassThrough => AnswerAside(s, p, cmd, 0, FutexPass);
      case ParkOn(addr) => ParkAside(s, p, cmd, addr);
      case WakeOn(addr, val) =>
        WakeAside(s, s.reg.threads, addr, val);
        AnswerAside(WakeAt(s, addr, val), p, cmd, WakeCount(s, addr, val), FutexWoke);
      case RequeueOn(addr, val, val2) =>
        WakeAside(s, s.reg.threads, addr, val);
        var u := WakeAt(s, addr, val);
        WakeAside(u, u.reg.threads, addr, val2);
        AnswerAside(WakeAt(u, addr, val2), p, cmd, WakeCount(s, addr, val) + WakeCount(u, addr, val2), FutexWoke);
    }
  }

  lemma ExitAside(s: State, p: Pid, record: bool)
    ensures PanelOf(OnThreadExit(s, p, record)) == PanelOf(s)
  {
    if p in s.reg.threads {
      var t := s.reg.threads[p];
      var s1 := s.(reg := s.reg.(threads := s.reg.threads - {p}));
      WakeAside(s1, s.reg.threads, t.childTid, 1);
      var s2 := if t.childTid != 0 && HasClearTid(t.flags) then Wake(s1, s.reg.threads, t.childTid, 1) else s1;
      EmitAside(s2, ThreadExit(t.vtid));
      var s3 := if record then Emit(s2, ThreadExit(t.vtid)) else s2;
      var s4 := s3.(calls := s3.calls.(pending := s3.calls.pending - {p}));
      DidAside(s4, Died(t.vtid));
      PanelFrame(s, s1);
      PanelFrame(s3, s4);
      PanelFrame(Did(s4, Died(t.vtid)), Forget(Did(s4, Died(t.vtid)), p));
      hide Wake, Emit, Did, PanelOf, Forget;
    } else {
      PanelFrame(s, Forget(s, p));
      hide Forget, PanelOf;
    }
  }

  lemma DeathAside(s: State, p: Pid)
    ensures PanelOf(HandleDeath(s, p)) == PanelOf(s)
  {
    var t := OnThreadExit(s, p, s.focus.current == Some(p));
    ExitAside(s, p, s.focus.current == Some(p));
    PanelFrame(t, SetCurrent(t, None));
    ScheduleAside(SetCurrent(t, None));
    hide OnThreadExit, ScheduleNext, PanelOf;
  }

  lemma CloneAside(s: State, p: Pid, c: Pid)
    ensures PanelOf(HandleClone(s, p, c)) == PanelOf(s)
  {
    var info := if p in s.calls.clonePending then s.calls.clonePending[p] else CloneInfo(0, 0);
    var e := s.(calls := s.calls.(clonePending := s.calls.clonePending - {p}));
    PanelFrame(s, e);
    RegisterAside(e, c, info);
    var t := Register(e, c, info);
    var u := t.(focus := t.focus.(frames := t.focus.frames + [Frame(p, c)]));
    PanelFrame(t, u);
    ResumeAside(t, p);
    hide Register, Continue, PanelOf;
  }

  lemma RegisterAside(s: State, c: Pid, info: CloneInfo)
    ensures PanelOf(Register(s, c, info)) == PanelOf(s)
  {
    var thread := Thread(s.reg.vtidNext, info.childTid, info.flags, HasCloneThread(info.flags));
    var n := Enrol(s, c, thread);
    var m := n.(q := n.q.(stoppedPending := n.q.stoppedPending - {c}));
    var w := n.(q := n.q.(pendingStart := n.q.pendingStart + {c}));
    PanelFrame(s, n);
    PanelFrame(s, m);
    PanelFrame(s, w);
    ReleaseAside(m, c);
    EmitAside(Admit(n, c), ThreadCreate(thread.vtid, thread.scheduled));
    hide Release, Emit, PanelOf;
  }

  lemma FinishAside(s: State)
    requires s.focus.frames != []
    ensures PanelOf(FinishAwait(s)) == PanelOf(s)
  {
    var f := s.focus.frames[|s.focus.frames| - 1];
    var e := s.(q := s.q.(pendingStart := s.q.pendingStart - {f.child}));
    PanelFrame(s, e);
    ReleaseAside(e, f.child);
    var t := Release(e, f.child);
    assert t.focus == s.focus;
    var u := t.(focus := t.focus.(frames := t.focus.frames[..|t.focus.frames| - 1]));
    PanelFrame(t, u);
    ResumeAside(u, f.parent);
    hide Release, Continue, PanelOf;
  }

  lemma SignalAside(s: State, p: Pid, sig: Signal)
    ensures PanelOf(HandleSignalStop(s, p, sig)) == PanelOf(s)
  {
    var e := s.(q := s.q.(pendingStart := s.q.pendingStart - {p}));
    var f := s.(q := s.q.(stoppedPending := s.q.stoppedPending + {p}));
    var g := s.(calls := s.calls.(sigPending := s.calls.sigPending[p := sig]));
    PanelFrame(s, e);
    PanelFrame(s, f);
    PanelFrame(s, g);
    ResumeAside(s, p);
    ReleaseAside(e, p);
    PtraceAside(s, p, Some(sig));
    hide ResumeThread, Release, PtraceSyscall, PanelOf;
  }

  lemma ReturnAside(s: State, p: Pid)
    ensures PanelOf(OnSyscallExit(s, p)) == PanelOf(s)
  {
    if p in s.calls.pending {
      var inject := s.calls.pending[p];
      var e := s.(calls := s.calls.(pending := s.calls.pending - {p}));
      PanelFrame(s, e);
      DidAside(e, Return(VtidOf(s, p), inject.syscall, inject.retval));
      EmitAside(Did(e, Return(VtidOf(s, p), inject.syscall, inject.retval)), Syscall(inject.syscall, Injected));
      hide Did, Emit, PanelOf;
    }
  }

  // ----- the device calls

  lemma {:induction false} PlayNext(seed: u64, events: seq<Event>, e: Event)
    requires PlayAll(seed, events).Some?
    ensures PlayAll(seed, events + [e]) == Play(PlayAll(seed, events).value, e)
  {
    assert (events + [e])[..|events|] == events;
  }

  /** The deeds of one device call, and its event, are the player's. */
  lemma PlayedOn(seed: u64, a: Panel, b: Panel, e: Event)
    requires Played(seed, a) && b.events == a.events + [e]
    requires Play(Player(a.dev.rng, a.dev.tick, a.deeds), e) == Some(Player(b.dev.rng, b.dev.tick, b.deeds))
    ensures Played(seed, b)
  {
    PlayNext(seed, a.events, e);
    hide PlayAll, Play;
  }

  /** Write, skip, record: what the three device calls have in common. */
  function Served(s: State, p: Pid, addr: Addr, data: Option<Data>, syscall: nat, retval: nat, e: Event): State {
    var s1 := if data.Some? then Did(s, Write(VtidOf(s, p), addr, data.value)) else s;
    Emit(SkipSyscall(s1, p, syscall, retval), e)
  }

  lemma ServedPanel(s: State, p: Pid, addr: Addr, data: Option<Data>, syscall: nat, retval: nat, e: Event)
    requires IsDevice(e) && syscall != SYS_FUTEX
    ensures PanelOf(Served(s, p, addr, data, syscall, retval, e))
         == Panel(s.dev, DeviceEvents(s.log.trace) + [e],
                  Deeds(s.log.acts) + (if data.Some? then [Wrote(data.value)] else []) + [Answered(syscall, retval)])
  {
    var s1 := if data.Some? then Did(s, Write(VtidOf(s, p), addr, data.value)) else s;
    if data.Some? { DeedsPush(s.log.acts, Write(VtidOf(s, p), addr, data.value)); }
    assert Deeds(s.log.acts) + [] == Deeds(s.log.acts);
    DeedsPush(s1.log.acts, Skip(VtidOf(s1, p), syscall, retval));
    EventsPush(s.log.trace, Record(s.log.lastNumber + 1, e));
    hide DeviceEvents, Deeds, VtidOf;
  }

  /** Where a state stands: played while the run goes on; a failed run has shown and done nothing more. */
  ghost predicate InStep(seed: u64, s: State) {
    var panel := PanelOf(s);
    if s.outcome.InProgress? then Played(seed, panel)
    else PlayAll(seed, panel.events).Some? && PlayAll(seed, panel.events).value.deeds == panel.deeds
  }

  lemma SameStep(seed: u64, s: State, t: State)
    requires InStep(seed, s) && PanelOf(t) == PanelOf(s) && s.outcome.InProgress?
    ensures InStep(seed, t)
  {
    hide PanelOf, PlayAll;
  }

  lemma FailedStep(seed: u64, s: State, t: State)
    requires InStep(seed, s) && s.outcome.InProgress? && !t.outcome.InProgress? && t.log == s.log
    ensures InStep(seed, t)
  {
    hide PlayAll, DeviceEvents, Deeds;
  }

  lemma GetRandomCases(s: State, p: Pid, regs: Regs, mem: Memory, n: nat, bytes: seq<Recorder.Byte>)
    requires n == (if regs.rsi < GETRANDOM_MAX then regs.rsi else GETRANDOM_MAX) && bytes == Recorder.Filled(s.dev.rng, n)
    ensures var s1 := s.(dev := s.dev.(rng := Prng.WordAfter(s.dev.rng, Recorder.DrawsFor(n))));
            InterceptGetRandom(s, p, regs, mem) ==
            if n > 0 && !mem.writable then s1.(outcome := Failed(Io))
            else if s.outcome.InProgress? then
              Served(s1, p, regs.rdi, if n > 0 then Some(Random(bytes)) else None, SYS_GETRANDOM, n, GetRandom(n, Recorder.Hex(bytes)))
            else InterceptGetRandom(s, p, regs, mem)
  {
    hide Recorder.Filled, Recorder.Hex, Prng.WordAfter, Recorder.DrawsFor, SkipSyscall, Emit;
  }

  lemma GetRandomPlays(seed: u64, s: State, p: Pid, regs: Regs, mem: Memory)
    requires InStep(seed, s) && s.outcome.InProgress?
    ensures InStep(seed, InterceptGetRandom(s, p, regs, mem))
  {
    var n: nat := if regs.rsi < GETRANDOM_MAX then regs.rsi else GETRANDOM_MAX;
    assert n <= GETRANDOM_MAX;
    var bytes := Recorder.Filled(s.dev.rng, n);
    var e := GetRandom(n, Recorder.Hex(bytes));
    GetRandomCases(s, p, regs, mem, n, bytes);
    Recorder.UnhexHex(bytes);
    var word := Prng.WordAfter(s.dev.rng, Recorder.DrawsFor(n));
    var s1 := s.(dev := s.dev.(rng := word));
    hide InterceptGetRandom, Recorder.Unhex, Recorder.Hex, Recorder.Filled, Prng.WordAfter, Recorder.DrawsFor, Served,
      DeviceEvents, Deeds, PlayAll, GETRANDOM_MAX;
    if n > 0 && !mem.writable {
      FailedStep(seed, s, s1.(outcome := Failed(Io)));
    } else {
      var data := if n > 0 then Some(Random(bytes)) else None;
      var t := Served(s1, p, regs.rdi, data, SYS_GETRANDOM, n, e);
      ServedPanel(s1, p, regs.rdi, data, SYS_GETRANDOM, n, e);
      PlayedOn(seed, PanelOf(s), PanelOf(t), e);
      ServedGoesOn(s1, p, regs.rdi, data, SYS_GETRANDOM, n, e);
    }
  }

  lemma ServedGoesOn(s: State, p: Pid, addr: Addr, data: Option<Data>, syscall: nat, retval: nat, e: Event)
    ensures Served(s, p, addr, data, syscall, retval, e).outcome == s.outcome
  {
  }

  lemma ClockCases(s: State, p: Pid, regs: Regs, mem: Memory)
    requires s.outcome.InProgress?
    ensures var clk := AsI32(regs.rdi); var r := Clock.Read(s.dev.tick, clk);
            var s1 := s.(dev := s.dev.(tick := Clock.NextTick(s.dev.tick, clk)));
            InterceptClockGettime(s, p, regs, mem) ==
            if mem.writable then
              Served(s1, p, regs.rsi, Some(Time(r.sec, r.nsec)), SYS_CLOCK_GETTIME, 0, ClockGettime(clk, r.sec, r.nsec))
            else s1.(outcome := Failed(Io))
    ensures InterceptGetTimeOfDay(s, p, regs, mem) ==
            if mem.writable then
              Served(s, p, regs.rdi, Some(Time(Clock.VIRTUAL_EPOCH, 0)), SYS_GETTIMEOFDAY, 0, GetTimeOfDay(Clock.VIRTUAL_EPOCH, 0))
            else s.(outcome := Failed(Io))
  {
    assert Clock.Read(s.dev.tick, Clock.CLOCK_REALTIME) == Clock.Reading(Clock.VIRTUAL_EPOCH, 0);
    hide Clock.Read, Clock.NextTick, SkipSyscall, Emit;
  }

  lemma ClockPlays(seed: u64, s: State, p: Pid, regs: Regs, mem: Memory)
    requires InStep(seed, s) && s.outcome.InProgress?
    ensures InStep(seed, InterceptClockGettime(s, p, regs, mem))
  {
    var clk := AsI32(regs.rdi);
    var r := Clock.Read(s.dev.tick, clk);
    var s1 := s.(dev := s.dev.(tick := Clock.NextTick(s.dev.tick, clk)));
    ClockCases(s, p, regs, mem);
    hide InterceptClockGettime, InterceptGetTimeOfDay, AsI32, Clock.Read, Clock.NextTick, Served, DeviceEvents, Deeds, PlayAll;
    if mem.writable {
      var e := ClockGettime(clk, r.sec, r.nsec);
      var data := Some(Time(r.sec, r.nsec));
      ServedPanel(s1, p, regs.rsi, data, SYS_CLOCK_GETTIME, 0, e);
      ServedGoesOn(s1, p, regs.rsi, data, SYS_CLOCK_GETTIME, 0, e);
      PlayedOn(seed, PanelOf(s), PanelOf(Served(s1, p, regs.rsi, data, SYS_CLOCK_GETTIME, 0, e)), e);
    } else {
      FailedStep(seed, s, s1.(outcome := Failed(Io)));
    }
  }

  lemma TimeOfDayPlays(seed: u64, s: State, p: Pid, regs: Regs, mem: Memory)
    requires InStep(seed, s) && s.outcome.InProgress?
    ensures InStep(seed, InterceptGetTimeOfDay(s, p, regs, mem))
  {
    ClockCases(s, p, regs, mem);
    hide InterceptClockGettime, InterceptGetTimeOfDay, AsI32, Clock.Read, Clock.NextTick, Served, DeviceEvents, Deeds, PlayAll;
    if mem.writable {
      var e := GetTimeOfDay(Clock.VIRTUAL_EPOCH, 0);
      var data := Some(Time(Clock.VIRTUAL_EPOCH, 0));
      ServedPanel(s, p, regs.rdi, data, SYS_GETTIMEOFDAY, 0, e);
      ServedGoesOn(s, p, regs.rdi, data, SYS_GETTIMEOFDAY, 0, e);
      PlayedOn(seed, PanelOf(s), PanelOf(Served(s, p, regs.rdi, data, SYS_GETTIMEOFDAY, 0, e)), e);
    } else {
      FailedStep(seed, s, s.(outcome := Failed(Io)));
    }
  }

  lemma EntryPlays(seed: u64, s: State, p: Pid, regs: Regs, mem: Memory)
    requires InStep(seed, s) && s.outcome.InProgress?
    ensures InStep(seed, OnSyscallEntry(s, p, regs, mem))
  {
    var nr := regs.origRax;
    if nr == SYS_GETRANDOM {
      GetRandomPlays(seed, s, p, regs, mem);
    } else if nr == SYS_CLOCK_GETTIME || nr == SYS_CLOCK_GETTIME64 {
      ClockPlays(seed, s, p, regs, mem);
    } else if nr == SYS_GETTIMEOFDAY {
      TimeOfDayPlays(seed, s, p, regs, mem);
    } else {
      OtherEntry(s, p, regs, mem);
      SameStep(seed, s, OnSyscallEntry(s, p, regs, mem));
    }
    hide InStep, InterceptGetRandom, InterceptClockGettime, InterceptGetTimeOfDay, InterceptFutex, Emit;
  }

  lemma OtherEntry(s: State, p: Pid, regs: Regs, mem: Memory)
    requires var nr := regs.origRax;
             nr != SYS_GETRANDOM && nr != SYS_CLOCK_GETTIME && nr != SYS_CLOCK_GETTIME64 && nr != SYS_GETTIMEOFDAY
    ensures PanelOf(OnSyscallEntry(s, p, regs, mem)) == PanelOf(s)
  {
    var nr := regs.origRax;
    if nr == SYS_FUTEX {
      CarryOutAside(s, p, FutexCmd(regs), PlanFutex(s, p, regs, mem));
      hide CarryOut, PlanFutex, PanelOf;
    } else {
      var e := s.(focus := s.focus.(groupExiting := true), kern := s.kern.(groupStatus := regs.rdi % 256));
      var c := StashClone(s, p, nr, regs, mem);
      PanelFrame(s, e);
      PanelFrame(s, c);
      EmitAside(e, Syscall(nr, Pass));
      EmitAside(c, Syscall(nr, Pass));
      EmitAside(s, Syscall(nr, Pass));
      hide Emit, PanelOf;
    }
  }

  lemma InterceptedPlays(seed: u64, s: State, p: Pid, op: SyscallOp)
    requires InStep(seed, s) && s.outcome.InProgress?
    ensures InStep(seed, Intercepted(s, p, op))
  {
    if op.Entry? {
      EntryPlays(seed, s, p, op.regs, op.mem);
    } else {
      ReturnAside(s, p);
      SameStep(seed, s, Intercepted(s, p, op));
    }
    hide InStep, OnSyscallEntry, OnSyscallExit, PanelOf;
  }

  lemma SyscallPlays(seed: u64, s: State, p: Pid, op: SyscallOp)
    requires InStep(seed, s) && s.outcome.InProgress?
    ensures InStep(seed, HandleSyscall(s, p, op))
  {
    hide *;
    InterceptedPlays(seed, s, p, op);
    var t := Intercepted(s, p, op);
    HandleSyscallCases(s, p, op);
    ExitNeverFails(s, p, op);
    if t.outcome.InProgress? {
      ResumeAside(t, p);
      YieldAside(t, p);
      ParkedAside(t);
      SameStep(seed, t, HandleSyscall(s, p, op));
    }
  }

  lemma ParkedAside(t: State)
    ensures PanelOf(SetCurrent(t, None)) == PanelOf(t)
  {
    hide DeviceEvents, Deeds;
  }

  lemma ExitNeverFails(s: State, p: Pid, op: SyscallOp)
    requires s.outcome.InProgress?
    ensures !op.Entry? ==> Intercepted(s, p, op).outcome.InProgress?
    ensures op.Entry? && Parks(s, p, op.regs, op.mem) ==> Intercepted(s, p, op).outcome.InProgress?
  {
    if op.Entry? { Threads.EntryShape(s, p, op.regs, op.mem); }
    hide OnSyscallEntry, Parks;
  }

  // ----- whole runs

  lemma DeliverAside(s: State, st: Status)
    ensures PanelOf(Deliver(s, st)) == PanelOf(s) && Deliver(s, st).outcome == s.outcome && Deliver(s, st).focus == s.focus
  {
    hide DeviceEvents, Deeds;
  }

  lemma OtherArms(d: State, st: Status)
    requires !st.SyscallStop?
    ensures PanelOf(Handle(d, st)) == PanelOf(d)
  {
    match st {
      case CloneEvent(p, c) => CloneAside(d, p, c); hide HandleClone, PanelOf;
      case ExitEvent(p) => ResumeAside(d, p); hide ResumeThread, PanelOf;
      case OtherEvent(p) => ResumeAside(d, p); hide Continue, PanelOf;
      case SignalStop(p, sig) => SignalAside(d, p, sig); hide HandleSignalStop, PanelOf;
      case Exited(p, code) =>
        EmitAside(d, RunExit(code));
        PanelFrame(Emit(d, RunExit(code)), Emit(d, RunExit(code)).(outcome := Done(code)));
        DeathAside(d, p);
        hide HandleDeath, Emit, PanelOf;
      case Killed(p, sig) =>
        EmitAside(d, RunSignal(sig));
        PanelFrame(Emit(d, RunSignal(sig)), Emit(d, RunSignal(sig)).(outcome := Done(128 + sig)));
        DeathAside(d, p);
        hide HandleDeath, Emit, PanelOf;
      case Idle =>
    }
  }

  lemma InnerIs(s: State, st: Status)
    ensures if Awaited(s, st) then s.focus.frames != [] && Inner(s, st) == FinishAwait(Deliver(s, st)) && !st.SyscallStop?
            else Inner(s, st) == Handle(Deliver(s, st), st)
  {
    hide Handle, Deliver, FinishAwait, HandleSyscall;
  }

  lemma HandleSyscallIs(d: State, st: Status)
    requires st.SyscallStop?
    ensures Handle(d, st) == HandleSyscall(d, st.pid, st.op)
  {
    hide HandleSyscall;
  }

  lemma InnerPlays(seed: u64, s: State, st: Status)
    requires InStep(seed, s) && s.outcome.InProgress?
    ensures InStep(seed, Inner(s, st))
  {
    hide *;
    var d := Deliver(s, st);
    DeliverAside(s, st);
    InnerIs(s, st);
    SameStep(seed, s, d);
    if Awaited(s, st) {
      FinishAside(d);
      SameStep(seed, s, FinishAwait(d));
    } else if st.SyscallStop? {
      HandleSyscallIs(d, st);
      SyscallPlays(seed, d, st.pid, st.op);
    } else {
      OtherArms(d, st);
      SameStep(seed, s, Handle(d, st));
    }
  }

  lemma TailAside(u: State)
    ensures PanelOf(Tail(u)) == PanelOf(u) && (!u.outcome.InProgress? ==> Tail(u) == u)
  {
    ScheduleAside(u);
    hide ScheduleNext, PanelOf;
  }

  lemma StepPlays(seed: u64, s: State, st: Status)
    requires InStep(seed, s)
    ensures InStep(seed, Step(s, st))
  {
    hide *;
    if s.outcome.InProgress? {
      InnerPlays(seed, s, st);
      StepIs(s, st);
      var u := Inner(s, st);
      TailAside(u);
      if u.outcome.InProgress? { SameStep(seed, u, Tail(u)); }
    } else {
      StepOver(s, st);
    }
  }

  lemma StartPlays(init: Pid, seed: u64)
    ensures InStep(seed, Start(init, seed))
  {
    var b := Boot(init, seed);
    assert DeviceEvents(b.log.trace) == [] && Deeds(b.log.acts) == [];
    assert InStep(seed, b);
    ScheduleAside(b);
    hide ScheduleNext, PanelOf, PlayAll;
    SameStep(seed, b, ScheduleNext(b));
  }

  /** The seed determines every device result: over every run, whatever the schedule, the statuses and the pids, a
      player that starts from the seed finds each device event of the trace to be the one it expects — the
      recorded text decodes to its bytes, each clock reading is its reading — and has then done exactly what the
      supervisor did to the guest for its device calls: the same data written, the same values returned, in the
      same order. While the run goes on, its generator and clock are the supervisor's. */
  lemma {:induction false} RunPlays(init: Pid, seed: u64, sts: seq<Status>)
    ensures var t := Run(Start(init, seed), sts); var player := PlayAll(seed, DeviceEvents(t.log.trace));
            && player.Some? && player.value.deeds == Deeds(t.log.acts)
            && (t.outcome.InProgress? ==> player.value.word == t.dev.rng && player.value.tick == t.dev.tick)
  {
    hide *;
    AllPlay(init, seed, sts);
    InStepMeans(seed, Run(Start(init, seed), sts));
  }

  lemma InStepMeans(seed: u64, t: State)
    requires InStep(seed, t)
    ensures var player := PlayAll(seed, DeviceEvents(t.log.trace));
            && player.Some? && player.value.deeds == Deeds(t.log.acts)
            && (t.outcome.InProgress? ==> player.value.word == t.dev.rng && player.value.tick == t.dev.tick)
  {
    hide PlayAll, DeviceEvents, Deeds;
  }

  lemma {:induction false} AllPlay(init: Pid, seed: u64, sts: seq<Status>)
    ensures InStep(seed, Run(Start(init, seed), sts))
  {
    hide Step, Start, InStep;
    if sts == [] {
      StartPlays(init, seed);
    } else {
      AllPlay(init, seed, sts[..|sts| - 1]);
      StepPlays(seed, Run(Start(init, seed), sts[..|sts| - 1]), sts[|sts| - 1]);
    }
  }
}
