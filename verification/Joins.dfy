/** From a clone call to the join it promises: the child has the flags and the tid word the call asked for, and its death
    wakes the thread that joins it (src/runtime/supervisor.rs:283-291, 355-364, 469-527, 593-613). */
module Joins {
  import opened Base
  import opened Machine
  import opened Invariants
  import opened Calls
  import opened Fairness
  import Recorder
  import Prng
  import Clock
  import StaleFlags
  import Confluence
  import Deaths
  import KillOrder

  // ----- what the call asked for

  /** Flags and child_tid of a clone (56) are in rdi and r10; those of a clone3 (435) in its clone_args, and zeros are
      taken when these cannot be read. */
  function Asked(regs: Regs, mem: Memory): CloneInfo {
    if regs.origRax == 56 then CloneInfo(regs.rdi, regs.r10)
    else if mem.cloneArgs.Some? then CloneInfo(mem.cloneArgs.value.flags, mem.cloneArgs.value.childTid)
    else CloneInfo(0, 0)
  }

  /** Another clone or clone3 call of `p`, or a clone event of it. */
  predicate ClonesAgain(st: Status, p: Pid) {
    || (st.CloneEvent? && st.pid == p)
    || (st.SyscallStop? && st.pid == p && st.op.Entry? && st.op.regs.origRax in {56, 435})
  }

  /** Bit 16 of the flags, CLONE_THREAD, and bit 21, CLONE_CHILD_CLEARTID. */
  predicate AsThread(flags: u64) { flags / 65_536 % 2 == 1 }
  predicate ClearsTid(flags: u64) { flags / 2_097_152 % 2 == 1 }

  /** What a clone or clone3 call asks for is what the caller's next clone event gives its child, whatever happens in
      between: the flags, the tid word, a fresh virtual id, and a place in the scheduler exactly for CLONE_THREAD. */
  lemma ChildAsAsked(s: State, p: Pid, regs: Regs, mem: Memory, sts: seq<Status>, c: Pid)
    requires Enters(s, p) && regs.origRax in {56, 435}
    requires var s1 := Step(s, SyscallStop(p, Entry(regs, mem)));
             LegalRun(s1, sts) && (forall i :: 0 <= i < |sts| ==> !ClonesAgain(sts[i], p))
             && Run(s1, sts).outcome.InProgress? && Legal(Run(s1, sts), CloneEvent(p, c))
    ensures var t := Run(Step(s, SyscallStop(p, Entry(regs, mem))), sts); var u := Step(t, CloneEvent(p, c));
            var asked := Asked(regs, mem);
            && c in u.reg.threads
            && u.reg.threads[c] == Thread(t.reg.vtidNext, asked.childTid, asked.flags, AsThread(asked.flags))
            && u.reg.vtidNext == t.reg.vtidNext + 1 && c != u.reg.init
            && (u.outcome.InProgress? ==> Inv(u))
  {
    var st := SyscallStop(p, Entry(regs, mem));
    var s1 := Step(s, st);
    assert Inv(s) && Legal(s, st) && !InitDies(s, st);
    CloneCall(s, p, regs, mem);
    StepKeepsInv(s, st);
    assert Confluence.Stash(s1, p) == Asked(regs, mem);
    forall i | 0 <= i < |sts| ensures !StaleFlags.Restashes(sts[i], p) {
      assert !ClonesAgain(sts[i], p);
    }
    hide Step, Inv, Sound, Legal, LegalRun, Enters, Asked, Confluence.Stash, AsThread, ClonesAgain, StaleFlags.Restashes;
    StaleFlags.RunStash(s1, sts, p);
    InvSound(s1);
    StaleFlags.SoundAlong(s1, sts);
    SoundParts(Run(s1, sts));
    StaleFlags.EventReads(Run(s1, sts), p, c);
    NextId(Run(s1, sts), p, c);
    Named(Run(s1, sts), p);
    ChildNotInit(Run(s1, sts), p, c);
  }

  lemma ChildNotInit(t: State, p: Pid, c: Pid)
    requires Inv(t) && t.outcome.InProgress? && Legal(t, CloneEvent(p, c))
    ensures var u := Step(t, CloneEvent(p, c)); c != u.reg.init && (u.outcome.InProgress? ==> Inv(u))
  {
    StaleFlags.ChildIsNew(t, p, c);
    StepKeepsInv(t, CloneEvent(p, c));
    assert t.reg.init in t.reg.threads;
    hide Step, Inv, Legal;
    RecordStays(t, CloneEvent(p, c), t.reg.init);
  }

  lemma Named(t: State, p: Pid)
    ensures var info := Confluence.Stash(t, p);
            Confluence.ChildOf(t, p) == Thread(t.reg.vtidNext, info.childTid, info.flags, AsThread(info.flags))
  {
    hide Confluence.Stash;
  }

  lemma NextId(t: State, p: Pid, c: Pid)
    requires Inv(t) && t.outcome.InProgress? && Legal(t, CloneEvent(p, c))
    ensures c !in t.reg.threads
    ensures Step(t, CloneEvent(p, c)).reg
         == t.reg.(threads := t.reg.threads[c := Confluence.ChildOf(t, p)], vtidNext := t.reg.vtidNext + 1)
  {
    var st := CloneEvent(p, c);
    StaleFlags.ChildIsNew(t, p, c);
    StepIs(t, st);
    InnerCases(t, st);
    assert !Awaited(t, st);
    var d := Deliver(t, st);
    assert d.reg == t.reg && Confluence.ChildOf(d, p) == Confluence.ChildOf(t, p);
    hide Inner, HandleClone, Deliver, Tail, Step, Legal, Inv, Awaited;
    CloneNumbers(d, p, c);
    StaleFlags.TailStash(Inner(t, st), p);
  }

  lemma CloneNumbers(d: State, p: Pid, c: Pid)
    requires c !in d.reg.threads
    ensures HandleClone(d, p, c).reg
         == d.reg.(threads := d.reg.threads[c := Confluence.ChildOf(d, p)], vtidNext := d.reg.vtidNext + 1)
  {
    var info := Confluence.Stash(d, p);
    var e := d.(calls := d.calls.(clonePending := d.calls.clonePending - {p}));
    var u := Enrol(e, c, Thread(e.reg.vtidNext, info.childTid, info.flags, HasCloneThread(info.flags)));
    ResumeEffect(u.(q := u.q.(stoppedPending := u.q.stoppedPending - {c})), c);
    assert Register(e, c, info).reg == u.reg by { hide ResumeThread, HasCloneThread; }
    ResumeEffect(Register(e, c, info), p);
    hide Register, ResumeThread;
  }

  // ----- the child keeps it while it lives

  lemma RecordStays(s: State, st: Status, c: Pid)
    requires Inv(s) && s.outcome.InProgress? && Legal(s, st) && c in s.reg.threads && !((st.Exited? || st.Killed?) && st.pid == c)
    ensures var t := Step(s, st); c in t.reg.threads && t.reg.threads[c] == s.reg.threads[c] && t.reg.init == s.reg.init
  {
    hide *;
    if st.CloneEvent? || st.Exited? || st.Killed? {
      StepIs(s, st);
      InnerCases(s, st);
      DeliverRegistry(s, st);
      NoAttachStop(s, st);
      match st {
        case CloneEvent(r, x) => CloneRecord(Deliver(s, st), r, x, c);
        case _ => DeathRecord(s, st);
      }
      StaleFlags.TailStash(Inner(s, st), c);
    } else {
      RegistryStays(s, st);
    }
  }

  lemma NoAttachStop(s: State, st: Status)
    requires !st.SignalStop?
    ensures !Awaited(s, st)
  {
  }

  /** Only clone events and deaths change the registry. */
  lemma RegistryStays(s: State, st: Status)
    requires s.outcome.InProgress? && !st.CloneEvent? && !st.Exited? && !st.Killed?
    ensures Step(s, st).reg == s.reg
  {
    hide *;
    StepIs(s, st);
    InnerCases(s, st);
    DeliverRegistry(s, st);
    if Awaited(s, st) {
      FinishRecord(Deliver(s, st));
    } else {
      match st {
        case SyscallStop(r, op) => SyscallRecord(SetTask(s, r, Held), r, op); TaskRegistry(s, r, Held);
        case OtherEvent(r) => ResumeRecord(SetTask(s, r, Held), r); TaskRegistry(s, r, Held);
        case SignalStop(r, sig) => SignalRecord(SetTask(s, r, Held), r, sig); TaskRegistry(s, r, Held);
        case ExitEvent(r) => ResumeRecord(SetTask(s, r, ExitStop), r); TaskRegistry(s, r, ExitStop);
        case Idle =>
      }
    }
    StaleFlags.TailStash(Inner(s, st), s.reg.init);
  }

  lemma TaskRegistry(s: State, r: Pid, task: Task)
    ensures SetTask(s, r, task).reg == s.reg
  {
  }

  lemma DeliverRegistry(s: State, st: Status)
    ensures Deliver(s, st).reg == s.reg && Deliver(s, st).focus == s.focus
  {
  }

  lemma ScheduleRegistry(s: State)
    ensures ScheduleNext(s).reg == s.reg
  {
    StaleFlags.ScheduleStash(s);
  }

  lemma ResumeRecord(s: State, r: Pid)
    ensures ResumeThread(s, r).reg == Continue(s, r).reg == ResumeCurrent(s, r).reg == Release(s, r).reg == s.reg
  {
    ResumeEffect(s, r);
    hide ResumeThread;
  }

  lemma FinishRecord(s: State)
    requires s.focus.frames != []
    ensures FinishAwait(s).reg == s.reg
  {
    var f := s.focus.frames[|s.focus.frames| - 1];
    var e := s.(q := s.q.(pendingStart := s.q.pendingStart - {f.child}));
    ResumeRecord(e, f.child);
    var t := Release(e, f.child);
    assert t.focus == s.focus;
    ResumeRecord(t.(focus := t.focus.(frames := t.focus.frames[..|t.focus.frames| - 1])), f.parent);
    hide Release, Continue;
  }

  lemma WakeRegistry(s: State, names: map<Pid, Thread>, addr: Addr, val: u64)
    ensures Wake(s, names, addr, val).reg == s.reg
  {
    hide SplitUpTo, SetQueue, Unparks, Elems;
  }

  lemma CarryOutRegistry(s: State, p: Pid, cmd: nat, plan: FutexPlan)
    ensures CarryOut(s, p, cmd, plan).reg == s.reg
  {
    match plan {
      case PassThrough =>
      case ParkOn(addr) =>
      case WakeOn(addr, val) => WakeRegistry(s, s.reg.threads, addr, val); hide Wake, WakeCount;
      case RequeueOn(addr, val, val2) =>
        WakeRegistry(s, s.reg.threads, addr, val);
        var u := WakeAt(s, addr, val);
        WakeRegistry(u, u.reg.threads, addr, val2);
        hide Wake, WakeCount;
    }
  }

  lemma EntryRegistry(s: State, r: Pid, regs: Regs, mem: Memory)
    ensures OnSyscallEntry(s, r, regs, mem).reg == s.reg
  {
    CarryOutRegistry(s, r, FutexCmd(regs), PlanFutex(s, r, regs, mem));
    hide CarryOut, PlanFutex, Recorder.Filled, Recorder.Hex, Prng.WordAfter, Recorder.DrawsFor, Clock.Read, Clock.NextTick, AsI32;
  }

  lemma SyscallRecord(d: State, r: Pid, op: SyscallOp)
    ensures HandleSyscall(d, r, op).reg == d.reg
  {
    HandleSyscallCases(d, r, op);
    var t := Intercepted(d, r, op);
    assert t.reg == d.reg by {
      if op.Entry? { EntryRegistry(d, r, op.regs, op.mem); }
      hide OnSyscallEntry;
    }
    hide HandleSyscall, Intercepted, ScheduleNext, Parks;
    ResumeRecord(t, r);
    StaleFlags.ScheduleStash(if t.focus.current == Some(r) then PushRunnable(SetCurrent(t, None), r) else t);
    hide ResumeThread, ResumeCurrent;
  }

  lemma SignalRecord(d: State, r: Pid, sig: Signal)
    ensures HandleSignalStop(d, r, sig).reg == d.reg
  {
    ResumeRecord(d, r);
    ResumeRecord(d.(q := d.q.(pendingStart := d.q.pendingStart - {r})), r);
    hide ResumeThread, Release;
  }

  lemma RegisterInit(e: State, x: Pid, info: CloneInfo)
    ensures Register(e, x, info).reg.init == e.reg.init
  {
    var u := Enrol(e, x, Thread(e.reg.vtidNext, info.childTid, info.flags, HasCloneThread(info.flags)));
    ResumeRecord(u.(q := u.q.(stoppedPending := u.q.stoppedPending - {x})), x);
    hide Release, HasCloneThread;
  }

  lemma CloneRecord(d: State, r: Pid, x: Pid, c: Pid)
    requires c in d.reg.threads
    ensures var t := HandleClone(d, r, x); c in t.reg.threads && t.reg.threads[c] == d.reg.threads[c] && t.reg.init == d.reg.init
  {
    var info := Confluence.Stash(d, r);
    var e := d.(calls := d.calls.(clonePending := d.calls.clonePending - {r}));
    RegisterStill(e, x, info);
    RegisterInit(e, x, info);
    ResumeRecord(Register(e, x, info), r);
    hide Register, Continue, Turns;
  }

  lemma DeathRecord(s: State, st: Status)
    requires Inv(s) && s.outcome.InProgress? && (st.Exited? || st.Killed?) && Legal(s, st)
    ensures Inner(s, st).reg == if st.pid == s.reg.init then s.reg else s.reg.(threads := s.reg.threads - {st.pid})
  {
    if st.pid == s.reg.init {
      assert Inner(s, st).reg == s.reg by { hide Inv, Legal; }
    } else {
      var t, record := DiesAs(s, st);
      StaleFlags.ScheduleStash(SetCurrent(t, None));
      hide Inner, OnThreadExit, Inv, Legal, ScheduleNext;
    }
  }

  lemma {:induction false} RecordKept(s: State, sts: seq<Status>, c: Pid)
    requires Inv(s) && s.outcome.InProgress? && LegalRun(s, sts) && c in s.reg.threads
    requires forall i :: 0 <= i < |sts| ==> !((sts[i].Exited? || sts[i].Killed?) && sts[i].pid == c)
    requires Run(s, sts).outcome.InProgress?
    ensures var t := Run(s, sts); Inv(t) && c in t.reg.threads && t.reg.threads[c] == s.reg.threads[c] && t.reg.init == s.reg.init
  {
    hide Step, Inv, Legal;
    if sts != [] {
      LegalParts(s, sts);
      var t, st := Run(s, sts[..|sts| - 1]), sts[|sts| - 1];
      if !t.outcome.InProgress? {
        StepOver(t, st);
      } else {
        RecordKept(s, sts[..|sts| - 1], c);
        RecordStays(t, st, c);
        if InitDies(t, st) { EndsRun(t, st); }
        StepKeepsInv(t, st);
      }
    }
  }

  lemma EndsRun(t: State, st: Status)
    requires t.outcome.InProgress? && InitDies(t, st)
    ensures !Step(t, st).outcome.InProgress?
  {
    assert Inner(t, st).outcome.Done?;
  }

  // ----- its death

  /** The state after the dead task has left the tables, before anybody is scheduled. */
  lemma DiesAs(s: State, st: Status) returns (t: State, record: bool)
    requires Inv(s) && s.outcome.InProgress? && Legal(s, st) && (st.Exited? || st.Killed?) && st.pid != s.reg.init
    ensures record == (s.focus.current == Some(st.pid))
    ensures Inner(s, st) == if record && !s.focus.groupExiting then ScheduleNext(SetCurrent(t, None)) else t
    ensures Tables(t) && (record ==> Tables(SetCurrent(t, None))) && t.focus == s.focus && t.outcome.InProgress?
    ensures t.reg == s.reg.(threads := s.reg.threads - {st.pid}) && t.q == ForgetIn(AfterJoinWake(s, st.pid).q, st.pid)
    ensures t.calls.pending == s.calls.pending - {st.pid} && st.pid !in t.calls.sigPending
    ensures t.kern.task == s.kern.task - {st.pid}
  {
    var p := st.pid;
    record := s.focus.current == Some(p);
    var d := s.(kern := s.kern.(task := s.kern.task - {p}));
    t := OnThreadExit(d, p, record);
    DeadFacts(s, st, d, record);
    SignalForgotten(d, p, record);
    hide *;
    ExitEffect(d, p, record);
    ExitKeepsTables(d, p, record);
    Deaths.LeftWaitingSame(s, d, p);
    Deaths.LeftWaitingIs(d, p);
    if record {
      Deaths.CurrentDeathFacts(s, st, d);
      IdleAfterDeath(t, p);
    } else {
      KillOrder.OtherInner(s, st);
    }
  }

  lemma DeadFacts(s: State, st: Status, d: State, record: bool)
    requires Inv(s) && s.outcome.InProgress? && (st.Exited? || st.Killed?) && st.pid != s.reg.init
    requires d == s.(kern := s.kern.(task := s.kern.task - {st.pid})) && record == (s.focus.current == Some(st.pid))
    ensures Tables(d) && Identity(d) && (record ==> Deaths.CurrentDies(s, st))
    ensures ForgetIn(AfterJoinWake(d, st.pid).q, st.pid)
         == var q := AfterJoinWake(d, st.pid).q;
            Queues(Without(q.runnable, st.pid), q.pendingStart - {st.pid}, q.stoppedPending - {st.pid}, q.blocked - {st.pid},
                   Purge(q.waiting, st.pid))
  {
    hide PartitionOf, ParkedOf, KernelOf, FramesOf, RunsAmong, AfterJoinWake, Without, Purge;
  }

  lemma SignalForgotten(d: State, p: Pid, record: bool)
    ensures p !in OnThreadExit(d, p, record).calls.sigPending
  {
    hide Retire, Without, Purge;
  }

  /** The joiner a death wakes: the oldest waiter on the tid word, for a task cloned with CLONE_CHILD_CLEARTID and a word. */
  function Joiner(s: State, c: Pid): Option<Pid> {
    if c in s.reg.threads && s.reg.threads[c].childTid != 0 && ClearsTid(s.reg.threads[c].flags)
       && s.reg.threads[c].childTid in s.q.waiting && s.q.waiting[s.reg.threads[c].childTid] != [] then
      Some(s.q.waiting[s.reg.threads[c].childTid][0])
    else None
  }

  /** Nothing names it any more. */
  ghost predicate Forgotten(t: State, c: Pid) {
    && c !in t.reg.threads && c !in t.q.runnable && c !in t.q.blocked && c !in t.q.pendingStart && c !in t.q.stoppedPending
    && c !in t.calls.pending && c !in t.calls.sigPending && c !in t.kern.task
    && forall a :: a in t.q.waiting ==> c !in t.q.waiting[a]
  }

  /** `t` is `u`, or `u` with the head of its queue served. */
  ghost predicate Serves(u: State, t: State) {
    && t.reg == u.reg && t.q == u.q.(runnable := t.q.runnable) && t.calls.pending == u.calls.pending
    && t.calls.sigPending.Keys <= u.calls.sigPending.Keys && t.kern.task.Keys == u.kern.task.Keys
    && (t.q.runnable == u.q.runnable
        || (u.q.runnable != [] && t.focus.current == Some(u.q.runnable[0]) && t.q.runnable == u.q.runnable[1..]))
  }

  lemma SchedulerServes(u: State)
    requires Tables(u)
    ensures Serves(u, ScheduleNext(u)) && ScheduleNext(u).focus.current.Some? == (u.focus.current.Some? || u.q.runnable != [])
    ensures u.q.runnable == [] ==> ScheduleNext(u).q.runnable == []
  {
    if u.q.runnable != [] {
      ScheduleNextHead(u);
      PickServes(u, u.q.runnable[0]);
      hide Pick, ScheduleNext;
    }
  }

  lemma PickServes(u: State, tid: Pid)
    requires u.q.runnable != [] && tid == u.q.runnable[0] && tid in u.reg.threads
    ensures Serves(u, Pick(PopRunnable(u), tid)) && Pick(PopRunnable(u), tid).focus.current == Some(tid)
  {
    assert tid in u.kern.task ==> u.kern.task.Keys + {tid} == u.kern.task.Keys;
  }

  lemma WakesJoiner(s: State, c: Pid)
    requires Tables(s)
    ensures var w := AfterJoinWake(s, c).q; var joiner := Joiner(s, c);
            && w.blocked == s.q.blocked - (if joiner.Some? then {joiner.value} else {})
            && (joiner.Some? ==> joiner.value in s.q.blocked && joiner.value in w.runnable)
  {
    hide PartitionOf, IdentityOf;
    if c in s.reg.threads && s.reg.threads[c].childTid != 0 && ClearsTid(s.reg.threads[c].flags) {
      var addr := s.reg.threads[c].childTid;
      WakeTakesPrefix(s, s.reg.threads, addr, 1);
      var queue := QueueAt(s, addr);
      if queue != [] {
        assert queue[..1] == [queue[0]] && queue[0] in queue && Elems([queue[0]]) == {queue[0]};
      } else {
        assert queue[..0] == [] && Elems([]) == {};
      }
      hide Wake, WakeCount, Unparks;
    }
  }

  lemma ForgetForgets(q: Queues, c: Pid)
    ensures var r := ForgetIn(q, c);
            && c !in r.runnable && c !in r.blocked && c !in r.pendingStart && c !in r.stoppedPending
            && (forall a :: a in r.waiting ==> c !in r.waiting[a])
            && r.blocked == q.blocked - {c} && (forall x :: x in q.runnable && x != c ==> x in r.runnable)
  {
  }

  /** A death, from every reachable state: the dead leaves every table, everybody parked stays parked but the joiner it
      wakes, and that one is in the runnable queue or already running. */
  lemma DeathWakesJoiner(s: State, st: Status)
    requires Inv(s) && s.outcome.InProgress? && Legal(s, st) && (st.Exited? || st.Killed?) && st.pid != s.reg.init
    ensures var c := st.pid; var t := Step(s, st); var joiner := Joiner(s, c);
            && Forgotten(t, c) && t.reg == s.reg.(threads := s.reg.threads - {c})
            && t.q.blocked == s.q.blocked - {c} - (if joiner.Some? then {joiner.value} else {})
            && (joiner.Some? && joiner.value != c ==>
                  joiner.value in s.q.blocked && (joiner.value in t.q.runnable || t.focus.current == Some(joiner.value)))
  {
    hide *;
    var c := st.pid;
    var u, record := DiesAs(s, st);
    Deaths.TablesOf(s);
    WakesJoiner(s, c);
    ForgetForgets(AfterJoinWake(s, c).q, c);
    StepIs(s, st);
    var v := if record && !s.focus.groupExiting then SetCurrent(u, None) else u;
    NobodySet(u);
    if record && !s.focus.groupExiting {
      SchedulerServes(v);
      TailServed(ScheduleNext(v));
      ServedForgotten(s, v, ScheduleNext(v), Step(s, st), c);
    } else {
      TailServes(v);
      ServedForgotten(s, v, Tail(v), Step(s, st), c);
    }
  }

  lemma NobodySet(u: State)
    ensures var v := SetCurrent(u, None); v.reg == u.reg && v.q == u.q && v.calls == u.calls && v.kern == u.kern
  {
  }

  lemma TailServes(v: State)
    requires Tables(v)
    ensures Serves(v, Tail(v)) && Serves(Tail(v), Tail(v))
  {
    SchedulerServes(v);
    hide ScheduleNext, Tables;
  }

  /** A thread was served, or nobody is left to serve. */
  lemma TailServed(t: State)
    requires t.focus.current.Some? || t.q.runnable == []
    ensures Serves(t, Tail(t)) && t.q == Tail(t).q && t.focus.current == Tail(t).focus.current
  {
  }

  lemma ServedForgotten(s: State, v: State, u: State, t: State, c: Pid)
    requires Serves(v, u) && Serves(u, t) && t.q == u.q && t.focus.current == u.focus.current
    requires v.reg == s.reg.(threads := s.reg.threads - {c}) && v.q == ForgetIn(AfterJoinWake(s, c).q, c)
    requires v.calls.pending == s.calls.pending - {c} && c !in v.calls.sigPending && v.kern.task == s.kern.task - {c}
    requires var r := v.q; var w := AfterJoinWake(s, c).q;
             && c !in r.runnable && c !in r.blocked && c !in r.pendingStart && c !in r.stoppedPending
             && (forall a :: a in r.waiting ==> c !in r.waiting[a])
             && r.blocked == w.blocked - {c} && (forall x :: x in w.runnable && x != c ==> x in r.runnable)
    requires var w := AfterJoinWake(s, c).q; var joiner := Joiner(s, c);
             && w.blocked == s.q.blocked - (if joiner.Some? then {joiner.value} else {})
             && (joiner.Some? ==> joiner.value in s.q.blocked && joiner.value in w.runnable)
    ensures var joiner := Joiner(s, c);
            && Forgotten(t, c) && t.reg == s.reg.(threads := s.reg.threads - {c})
            && t.q.blocked == s.q.blocked - {c} - (if joiner.Some? then {joiner.value} else {})
            && (joiner.Some? && joiner.value != c ==>
                  joiner.value in s.q.blocked && (joiner.value in t.q.runnable || t.focus.current == Some(joiner.value)))
  {
    hide AfterJoinWake, ForgetIn, Joiner;
    assert c !in v.calls.sigPending.Keys && c !in v.kern.task.Keys;
    if v.q.runnable != [] {
      assert v.q.runnable == [v.q.runnable[0]] + v.q.runnable[1..];
    }
  }

  // ----- from the call to the join

  /** `w`, parked in `s`, is free in `t`. */
  ghost predicate Freed(s: State, t: State, w: Pid) { w in s.q.blocked && w in t.reg.threads && w !in t.q.blocked }

  /** A thread is cloned, lives through whatever happens, and dies: of those parked on the tid word its clone call named the
      oldest is freed if and only if the call had CLONE_CHILD_CLEARTID, the word is not 0, and it is not the dying
      thread itself; nobody else is freed. */
  lemma JoinAsAsked(s: State, p: Pid, regs: Regs, mem: Memory, sts: seq<Status>, c: Pid, more: seq<Status>, st: Status)
    requires Enters(s, p) && regs.origRax in {56, 435}
    requires var s1 := Step(s, SyscallStop(p, Entry(regs, mem)));
             LegalRun(s1, sts) && (forall i :: 0 <= i < |sts| ==> !ClonesAgain(sts[i], p))
             && Run(s1, sts).outcome.InProgress? && Legal(Run(s1, sts), CloneEvent(p, c))
    requires var u := Step(Run(Step(s, SyscallStop(p, Entry(regs, mem))), sts), CloneEvent(p, c));
             && u.outcome.InProgress? && LegalRun(u, more) && Run(u, more).outcome.InProgress?
             && (forall i :: 0 <= i < |more| ==> !((more[i].Exited? || more[i].Killed?) && more[i].pid == c))
             && (st.Exited? || st.Killed?) && st.pid == c && Legal(Run(u, more), st)
    ensures var v := Run(Step(Run(Step(s, SyscallStop(p, Entry(regs, mem))), sts), CloneEvent(p, c)), more); var t := Step(v, st);
            var word := Asked(regs, mem).childTid; var line := if word in v.q.waiting then v.q.waiting[word] else [];
            && (line != [] ==> (Freed(v, t, line[0]) <==> ClearsTid(Asked(regs, mem).flags) && word != 0 && line[0] != c))
            && (forall q :: Freed(v, t, q) ==> line != [] && q == line[0])
  {
    hide *;
    ChildAsAsked(s, p, regs, mem, sts, c);
    var u := Step(Run(Step(s, SyscallStop(p, Entry(regs, mem))), sts), CloneEvent(p, c));
    RecordKept(u, more, c);
    var v := Run(u, more);
    DeathWakesJoiner(v, st);
    FreedIs(v, Step(v, st), c);
  }

  lemma OldestBlocked(v: State, word: Addr)
    requires Inv(v) && word in v.q.waiting && v.q.waiting[word] != []
    ensures var w := v.q.waiting[word][0]; w in v.q.blocked && w in v.reg.threads
  {
    var w := v.q.waiting[word][0];
    assert QueuesMatch(v.q.waiting, v.q.blocked) && Partition(v);
    hide Inv;
    assert w in v.q.waiting[word];
    assert w in v.q.blocked;
    assert ScheduledIn(v.reg.threads, w);
  }

  lemma FreedIs(v: State, t: State, c: Pid)
    requires Inv(v) && c in v.reg.threads && Forgotten(t, c) && t.reg == v.reg.(threads := v.reg.threads - {c})
    requires var joiner := Joiner(v, c); t.q.blocked == v.q.blocked - {c} - (if joiner.Some? then {joiner.value} else {})
    ensures var word := v.reg.threads[c].childTid; var line := if word in v.q.waiting then v.q.waiting[word] else [];
            && (line != [] ==> (Freed(v, t, line[0]) <==> ClearsTid(v.reg.threads[c].flags) && word != 0 && line[0] != c))
            && (forall q :: Freed(v, t, q) ==> line != [] && q == line[0])
  {
    var word := v.reg.threads[c].childTid;
    var line := if word in v.q.waiting then v.q.waiting[word] else [];
    hide IdentityOf, KernelOf, FramesOf, RunsAmong, ClearsTid;
    if line != [] {
      OldestBlocked(v, word);
    }
    forall q | Freed(v, t, q) ensures line != [] && q == line[0] {
      assert q != c;
    }
  }
}
