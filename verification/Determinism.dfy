/** "The interleaving is fully reproducible" (src/runtime/supervisor.rs:7-12): for multi-threaded workloads without
    outside signals, the seed and the guest determine the trace — whatever pids the host picks, whichever order
    attach stops and clone events arrive in, and whatever order an exit_group reaps threads in. */
module Determinism {
  import opened Base
  import opened Machine
  import opened Invariants
  import opened Threads
  import opened Renaming
  import opened Freshness
  import opened Confluence
  import opened Teardown
  import opened Trace

  // ----- guests

  /** What the thread let run does until its next stop. */
  datatype GuestStop =
    | Calls(regs: Regs, mem: Memory) | Returns | Pauses | Event | Signalled(sig: Signal)
    | Clones | Exits | Gone(code: int) | Shot(sig: Signal) | Silent

  /** A deterministic guest: its next stop depends on what was done to it so far, with threads named by
      their virtual ids, and on nothing else. */
  type Guest = seq<Act> -> GuestStop

  /** How the stop of the current thread is reported. */
  function Reported(stop: GuestStop, p: Pid): Option<Status> {
    match stop
    case Calls(regs, mem) => Some(SyscallStop(p, Entry(regs, mem)))
    case Returns => Some(SyscallStop(p, SyscallOp.Exit))
    case Pauses => Some(SyscallStop(p, NoInfo))
    case Event => Some(OtherEvent(p))
    case Signalled(sig) => if sig == SIGSTOP then None else Some(SignalStop(p, sig))
    case Exits => Some(ExitEvent(p))
    case Gone(code) => Some(Exited(p, code))
    case Shot(sig) => Some(Killed(p, sig))
    case Clones => None
    case Silent => None
  }

  /** A status the guest can be the cause of. A clone may be reported in either order and with any fresh pid; an
      awaited attach stop needs no guest; after an exit_group deaths come in any order, the leader's last and with
      the status passed to exit_group. */
  ghost predicate Causes(g: Guest, s: State, st: Status) {
    || st.Idle?
    || s.focus.frames != []
    || (s.focus.groupExiting && ((st.Exited? || st.Killed?) && st.pid == s.reg.init ==> st == Exited(s.reg.init, s.kern.groupStatus)))
    || (!s.focus.groupExiting && s.focus.current.Some? &&
        if g(s.log.acts).Clones? then st.CloneEvent? || (st.SignalStop? && st.sig == SIGSTOP && Fresh(s, st.pid))
        else Reported(g(s.log.acts), s.focus.current.value) == Some(st))
  }

  ghost predicate Drives(g: Guest, s: State, st: Status) { ThreadsOnly(s, st) && Causes(g, s, st) }

  ghost predicate GuestRun(g: Guest, s: State, sts: seq<Status>) {
    forall i :: 0 <= i < |sts| ==> Drives(g, Run(s, sts[..i]), sts[i])
  }

  // ----- the canonical run

  /** The end of a run whose current thread has called exit_group. */
  ghost function Finale(c: State): State
    requires ExitCalled(c)
  {
    Emit(IssuerReaped(c), RunExit(c.kern.groupStatus)).(outcome := Done(c.kern.groupStatus))
  }

  /** One guest stop, with the choices fixed: a clone takes `FreshPid` and reports the attach stop first. */
  ghost function Macro(g: Guest, c: State): State {
    if !c.outcome.InProgress? || c.focus.current.None? || c.focus.current.value !in c.reg.threads then c
    else if c.focus.groupExiting then Finale(c)
    else
      var p, w := c.focus.current.value, FreshPid(c);
      if g(c.log.acts).Clones? then
        if ThreadsOnly(c, CloneEvent(p, w)) then Step(Step(c, SignalStop(w, SIGSTOP)), CloneEvent(p, w)) else c
      else
        match Reported(g(c.log.acts), p)
        case Some(st) => if ThreadsOnly(c, st) then Step(c, st) else c
        case None => c
  }

  ghost function Canon(g: Guest, seed: u64, k: nat): State {
    if k == 0 then Start(0, seed) else Macro(g, Canon(g, seed, k - 1))
  }

  /** What every canonical state is: about to run its current thread on, or an exit_group just called, or over. */
  ghost predicate Ready(c: State) {
    c.outcome.InProgress? ==>
      && Inv(c) && Waiting(c) && c.focus.current.Some? && c.focus.current.value in c.reg.threads
      && (!c.focus.groupExiting ==> OneRunning(c) && c.q.stoppedPending == {})
  }

  lemma StartReady(init: Pid, seed: u64)
    ensures Ready(Start(init, seed))
  {
    StartSound(init, seed);
    StartWaits(init, seed);
    StartUnstopped(init, seed);
    hide Start, Inv;
  }

  lemma StartUnstopped(init: Pid, seed: u64)
    ensures var s := Start(init, seed);
            s.q.stoppedPending == {} && s.focus.frames == [] && !s.focus.groupExiting && s.log.acts != []
  {
    var b := Boot(init, seed);
    assert ScheduleNext(b) == Pick(PopRunnable(b), init);
    PickEffect(PopRunnable(b), init);
    assert Pick(PopRunnable(b), init).log.acts != [];
  }

  // ----- canonical states stay ready

  /** No activation of `await_attach` starts or ends, no attach stop is parked, and an exit_group can only be
      one the still-current thread has just entered. */
  ghost predicate Steady(s: State, t: State) {
    && t.focus.frames == s.focus.frames && t.q.stoppedPending <= s.q.stoppedPending
    && (t.focus.groupExiting == s.focus.groupExiting
        || (t.focus.groupExiting && t.focus.current == s.focus.current && t.reg == s.reg))
  }

  lemma {:induction false} ScheduleNextSteady(s: State)
    ensures var t := ScheduleNext(s);
            && t.focus.frames == s.focus.frames && t.q.stoppedPending == s.q.stoppedPending
            && t.focus.groupExiting == s.focus.groupExiting && t.reg == s.reg
    decreases |s.q.runnable|
  {
    hide Pick;
    if s.q.runnable != [] {
      var tid := s.q.runnable[0];
      if tid !in s.reg.threads || tid in s.q.blocked {
        ScheduleNextSteady(PopRunnable(s));
      } else {
        PickEffect(PopRunnable(s), tid);
      }
    }
  }

  lemma EntrySteady(d: State, p: Pid, regs: Regs, mem: Memory)
    requires d.focus.current == Some(p)
    ensures Steady(d, Tail(ScheduledEntry(d, p, regs, mem)))
  {
    EntryShape(d, p, regs, mem);
    var t := OnSyscallEntry(d, p, regs, mem);
    ResumeEffect(t, p);
    ScheduleNextSteady(ScheduledEntry(d, p, regs, mem));
    hide OnSyscallEntry, Parks, ResumeThread, ScheduleNext;
    TailSteady(d, ScheduledEntry(d, p, regs, mem));
  }

  lemma ExitSteady(s: State, p: Pid)
    ensures var t := HandleDeath(s, p);
            t.focus.frames == s.focus.frames && t.q.stoppedPending <= s.q.stoppedPending && t.focus.groupExiting == s.focus.groupExiting
  {
    var record := s.focus.current == Some(p);
    var t := OnThreadExit(s, p, record);
    assert t.focus == s.focus && t.q.stoppedPending <= s.q.stoppedPending by { hide WakeSplit, Purge, Without; }
    hide OnThreadExit, ScheduleNext;
    ScheduleNextSteady(SetCurrent(t, None));
  }

  lemma TailSteady(s: State, u: State)
    requires Steady(s, u) && (u.focus.groupExiting == s.focus.groupExiting || u.focus.current.Some?)
    ensures Steady(s, Tail(u))
  {
    ScheduleNextSteady(u);
    hide ScheduleNext;
  }

  lemma StepSteady(s: State, st: Status)
    requires OneRunning(s) && AllScheduled(s.reg.threads) && s.outcome.InProgress? && ThreadsOnly(s, st) && Inv(s)
    requires !st.CloneEvent? && (st.SignalStop? ==> st.sig != SIGSTOP) && !s.focus.groupExiting
    ensures Step(s, st).outcome.Done? || Steady(s, Step(s, st))
  {
    var d := Deliver(s, st);
    assert !Awaited(s, st);
    assert Inner(s, st) == Handle(d, st);
    if st.SyscallStop? {
      ResumedIsCurrent(s, st.pid);
      ScheduledMember(s.reg.threads, st.pid);
      hide Inner, ThreadsOnly, Inv, OneRunning;
      match st.op {
        case Entry(regs, mem) =>
          EntrySteady(d, st.pid, regs, mem);
          hide ScheduledEntry, Tail;
        case Exit =>
          ExitStopEffect(d, st.pid);
          var u := OnSyscallExit(d, st.pid);
          hide OnSyscallExit, ScheduleNext;
          ScheduleNextSteady(if u.focus.current == Some(st.pid) then PushRunnable(SetCurrent(u, None), st.pid) else u);
          TailSteady(s, YieldCurrent(u, st.pid));
        case NoInfo =>
          ResumeEffect(d, st.pid);
          hide ResumeThread;
          TailSteady(s, ResumeCurrent(d, st.pid));
      }
    } else if (st.Exited? || st.Killed?) {
      hide Inner, ThreadsOnly, Inv, OneRunning, HandleDeath, ScheduleNext;
      if st.pid != s.reg.init {
        ExitSteady(d, st.pid);
        TailSteady(s, HandleDeath(d, st.pid));
      }
    } else if !st.Idle? {
      ResumeEffect(d, st.pid);
      hide Inner, ThreadsOnly, Inv, OneRunning, ResumeThread, ScheduleNext;
      if st.SignalStop? { PtraceEffect(d, st.pid, Some(st.sig)); }
      hide PtraceSyscall;
      TailSteady(s, Handle(d, st));
    } else {
      hide Inner, ThreadsOnly, Inv, OneRunning;
      TailSteady(s, d);
    }
  }

  lemma SteadyReady(c: State, t: State)
    requires Steady(c, t) && c.q.stoppedPending == {} && c.focus.frames == [] && !c.focus.groupExiting
    requires c.focus.current.Some? && c.focus.current.value in c.reg.threads && t.outcome.InProgress? && Inv(t) && Waiting(t)
    ensures Ready(t)
  {
    hide Inv;
  }

  lemma AllThreads(c: State)
    requires Ready(c) && c.outcome.InProgress? && !c.focus.groupExiting
    ensures AllScheduled(c.reg.threads)
  {
    hide Inv;
  }

  lemma StepReady(c: State, st: Status)
    requires Ready(c) && c.outcome.InProgress? && !c.focus.groupExiting && ThreadsOnly(c, st)
    requires !st.CloneEvent? && (st.SignalStop? ==> st.sig != SIGSTOP)
    ensures Ready(Step(c, st))
  {
    hide *;
    ReadyFacts(c);
    AllThreads(c);
    StepSteady(c, st);
    if Step(c, st).outcome.InProgress? {
      InvStays(c, st);
      WaitingStays(c, st);
      SteadyReady(c, Step(c, st));
    } else {
      OverReady(Step(c, st));
    }
  }

  lemma OverReady(t: State)
    requires !t.outcome.InProgress?
    ensures Ready(t)
  {
    hide Inv, Waiting, OneRunning;
  }

  /** The clone event is due, so the attach stop may come first. */
  lemma AttachDue(c: State, p: Pid, w: Pid)
    requires ThreadsOnly(c, CloneEvent(p, w)) && c.focus.current == Some(p) && Fresh(c, w) && !c.focus.groupExiting && c.q.stoppedPending == {}
    ensures ThreadsOnly(c, SignalStop(w, SIGSTOP)) && Legal(c, CloneEvent(p, w))
  {
    hide Fresh;
  }

  lemma CloneDue(c: State, p: Pid, w: Pid, s: State)
    requires ThreadsOnly(c, CloneEvent(p, w)) && c.q.stoppedPending == {} && p != w
    requires s == c.(kern := c.kern.(task := c.kern.task[w := Held]), q := c.q.(stoppedPending := c.q.stoppedPending + {w}))
    ensures ThreadsOnly(s, CloneEvent(p, w))
  {
    hide Fresh;
  }

  lemma CloneDistinct(c: State, p: Pid, w: Pid)
    requires ThreadsOnly(c, CloneEvent(p, w))
    ensures p != w
  {
    hide Fresh;
  }

  lemma InvStays(s: State, st: Status)
    requires Inv(s) && s.outcome.InProgress? && ThreadsOnly(s, st) && Step(s, st).outcome.InProgress?
    ensures Inv(Step(s, st))
  {
    hide Step, Inv, Fresh;
    StepKeeps(s, st);
  }

  lemma WaitingStays(s: State, st: Status)
    requires Inv(s) && Waiting(s) && s.outcome.InProgress? && ThreadsOnly(s, st) && Step(s, st).outcome.InProgress?
    ensures Waiting(Step(s, st))
  {
    hide Step, Inv, ThreadsOnly, Waiting;
    StepWaits(s, st);
  }

  /** A whole clone, attach stop first, ends with the parent running on. */
  lemma CloneReady(c: State, p: Pid, w: Pid)
    requires Ready(c) && c.outcome.InProgress? && !c.focus.groupExiting && Fresh(c, w)
    requires c.focus.current == Some(p) && ThreadsOnly(c, CloneEvent(p, w))
    ensures ThreadsOnly(c, SignalStop(w, SIGSTOP)) && Step(c, SignalStop(w, SIGSTOP)).outcome.InProgress?
    ensures ThreadsOnly(Step(c, SignalStop(w, SIGSTOP)), CloneEvent(p, w))
    ensures Step(Step(c, SignalStop(w, SIGSTOP)), CloneEvent(p, w))
         == Step(Step(c, CloneEvent(p, w)), SignalStop(w, SIGSTOP))
    ensures var t := Step(Step(c, SignalStop(w, SIGSTOP)), CloneEvent(p, w)); Ready(t) && t.outcome.InProgress?
  {
    hide *;
    ReadyFacts(c);
    CloneDistinct(c, p, w);
    AttachDue(c, p, w);
    AttachRaceConfluent(c, p, w);
    AttachFirst(c, w);
    var s := Step(c, SignalStop(w, SIGSTOP));
    InvStays(c, SignalStop(w, SIGSTOP));
    WaitingStays(c, SignalStop(w, SIGSTOP));
    CloneDue(c, p, w, s);
    SecondCloneReady(s, p, w);
  }

  lemma ReadyFrom(t: State)
    requires t.outcome.InProgress? && Inv(t) && Waiting(t) && OneRunning(t) && t.q.stoppedPending == {}
    ensures Ready(t)
  {
    hide Inv, Waiting;
  }

  lemma SecondCloneReady(s: State, p: Pid, c: Pid)
    requires Inv(s) && Waiting(s) && s.outcome.InProgress? && !s.focus.groupExiting
    requires ThreadsOnly(s, CloneEvent(p, c)) && c in s.q.stoppedPending
    ensures Ready(Step(s, CloneEvent(p, c))) && Step(s, CloneEvent(p, c)).outcome.InProgress?
  {
    hide *;
    SecondCloneShape(s, p, c);
    OneRunningWaits(Inner(s, CloneEvent(p, c)));
    StepIs(s, CloneEvent(p, c));
    InvStays(s, CloneEvent(p, c));
    ReadyFrom(Step(s, CloneEvent(p, c)));
  }

  lemma MacroReady(g: Guest, c: State)
    requires Ready(c)
    ensures Ready(Macro(g, c))
  {
    hide Step, ThreadsOnly, Inv;
    if c.outcome.InProgress? && !c.focus.groupExiting {
      var p, w := c.focus.current.value, FreshPid(c);
      if g(c.log.acts).Clones? {
        if ThreadsOnly(c, CloneEvent(p, w)) { CloneReady(c, p, w); }
      } else {
        var r := Reported(g(c.log.acts), p);
        if r.Some? && ThreadsOnly(c, r.value) { StepReady(c, r.value); }
      }
    }
    hide Ready;
  }

  lemma {:induction false} CanonReady(g: Guest, seed: u64, k: nat)
    ensures Ready(Canon(g, seed, k))
  {
    hide Ready, Macro, Start;
    if k == 0 {
      StartReady(0, seed);
    } else {
      CanonReady(g, seed, k - 1);
      MacroReady(g, Canon(g, seed, k - 1));
    }
  }

  // ----- the rules do not depend on names either

  lemma KeysRen<V>(pi: Map, m: map<Pid, V>, p: Pid)
    requires Injective(pi) && RMap(pi, m).Keys == {pi(p)}
    ensures m.Keys == {p}
  {
    forall q ensures q in m.Keys <==> q in {p} {
      MapAt(pi, m, q);
      MapAt(pi, m, p);
      assert pi(q) in RMap(pi, m).Keys <==> pi(q) in {pi(p)};
    }
  }

  lemma TaskRen(pi: Map, c: State, p: Pid, t: Task)
    requires Injective(pi)
    ensures IsTask(Ren(pi, c), pi(p), t) <==> IsTask(c, p, t)
    ensures pi(p) in Ren(pi, c).kern.task <==> p in c.kern.task
    ensures p in c.kern.task ==> Ren(pi, c).kern.task[pi(p)] == c.kern.task[p]
  {
    TaskAt(pi, c, p);
    hide Ren;
  }

  lemma MidCloneRen(pi: Map, c: State, p: Pid)
    requires Injective(pi)
    ensures MidClone(Ren(pi, c), pi(p)) <==> MidClone(c, p)
  {
    MapAt(pi, c.calls.clonePending, p);
    hide RMap;
  }

  lemma InitRen(pi: Map, c: State, p: Pid)
    requires Injective(pi)
    ensures pi(p) == Ren(pi, c).reg.init <==> p == c.reg.init
    ensures Ren(pi, c).reg.threads.Keys == {pi(p)} ==> c.reg.threads.Keys == {p}
    ensures Ren(pi, c).q.stoppedPending == {} <==> c.q.stoppedPending == {}
  {
    if Ren(pi, c).reg.threads.Keys == {pi(p)} {
      KeysRen(pi, c.reg.threads, p);
    }
    SetEmpty(pi, c.q.stoppedPending);
    hide RMap, RSet;
  }

  /** A status of the renamed state that is allowed was allowed before the renaming. */
  lemma AllowedRen(pi: Map, c: State, st: Status)
    requires Injective(pi) && !st.CloneEvent? && (st.SignalStop? ==> st.sig != SIGSTOP)
    requires ThreadsOnly(Ren(pi, c), RenStatus(pi, st))
    ensures ThreadsOnly(c, st)
  {
    if !st.Idle? {
      var p := st.pid;
      TaskRen(pi, c, p, Resumed);
      TaskRen(pi, c, p, Dying);
      PendingAt(pi, c, p);
      CurrentRen(pi, c, p);
      InitRen(pi, c, p);
    }
    RenSame(pi, c);
    hide Ren;
  }

  lemma CloneAllowedRen(pi: Map, c: State, p: Pid, w: Pid, q: Pid, x: Pid)
    requires Injective(pi) && Ready(c) && c.outcome.InProgress? && !c.focus.groupExiting && c.focus.current == Some(p) && Fresh(c, w)
    requires ThreadsOnly(Ren(pi, c), CloneEvent(q, x))
    ensures ThreadsOnly(c, CloneEvent(p, w)) && q == pi(p)
  {
    assert IsTask(Ren(pi, c), q, Resumed) && MidClone(Ren(pi, c), q);
    hide Ren, Inv;
    ResumedRen(pi, c, p, q);
    CloneFromParent(pi, c, p, w);
  }

  lemma AttachAllowedRen(pi: Map, c: State, p: Pid, w: Pid, x: Pid)
    requires Injective(pi) && Ready(c) && c.outcome.InProgress? && !c.focus.groupExiting && c.focus.current == Some(p) && Fresh(c, w)
    requires ThreadsOnly(Ren(pi, c), SignalStop(x, SIGSTOP)) && Fresh(Ren(pi, c), x)
    ensures ThreadsOnly(c, CloneEvent(p, w))
  {
    hide *;
    CurrentRen(pi, c, p);
    AttachMeansClone(Ren(pi, c), pi(p), x);
    CloneFromParent(pi, c, p, w);
  }

  lemma AttachMeansClone(a: State, p: Pid, x: Pid)
    requires ThreadsOnly(a, SignalStop(x, SIGSTOP)) && Fresh(a, x) && a.focus.current == Some(p)
    ensures IsTask(a, p, Resumed) && MidClone(a, p)
  {
    hide Fresh;
  }

  lemma CloneFromParent(pi: Map, c: State, p: Pid, w: Pid)
    requires Injective(pi) && Ready(c) && c.outcome.InProgress? && !c.focus.groupExiting && c.focus.current == Some(p) && Fresh(c, w)
    requires IsTask(Ren(pi, c), pi(p), Resumed) && MidClone(Ren(pi, c), pi(p))
    ensures ThreadsOnly(c, CloneEvent(p, w))
  {
    TaskRen(pi, c, p, Resumed);
    MidCloneRen(pi, c, p);
    PidTaken(c, p);
    hide Ren, Inv, Fresh;
  }

  /** In a ready state only the current thread runs, under whatever name. */
  lemma ResumedRen(pi: Map, c: State, p: Pid, x: Pid)
    requires Injective(pi) && Ready(c) && c.outcome.InProgress? && !c.focus.groupExiting && c.focus.current == Some(p)
    requires IsTask(Ren(pi, c), x, Resumed)
    ensures x == pi(p)
  {
    hide Inv;
    var q :| q in c.kern.task && pi(q) == x;
    TaskRen(pi, c, q, Resumed);
    hide Ren;
  }

  // ----- following the canonical run

  /** The state in the middle of a clone, one order or the other. */
  ghost predicate HalfCloned(g: Guest, pi: Map, a: State, c: State)
    requires Injective(pi)
  {
    && c.outcome.InProgress? && !c.focus.groupExiting && c.focus.current.Some? && g(c.log.acts).Clones?
    && var p, w := c.focus.current.value, FreshPid(c);
       && ThreadsOnly(c, CloneEvent(p, w))
       && (a == Ren(pi, Step(c, SignalStop(w, SIGSTOP))) || a == Ren(pi, Step(c, CloneEvent(p, w))))
  }

  /** An exit_group is reaping. */
  ghost predicate Reaping(pi: Map, a: State, c: State)
    requires Injective(pi)
  {
    ExitCalled(c) && ExitCalled(Ren(pi, c)) && Reaped(Ren(pi, c), a)
  }

  ghost predicate Over(a: State, c: State) {
    !c.outcome.InProgress? && a.outcome == c.outcome && a.log.trace == c.log.trace
  }

  ghost predicate Follows(g: Guest, pi: Map, a: State, c: State) {
    Injective(pi) && (a == Ren(pi, c) || HalfCloned(g, pi, a, c) || Reaping(pi, a, c) || Over(a, c))
  }

  /** The guest clones: whichever half is reported first, for whatever fresh pid, is the canonical half renamed. */
  lemma FollowClone(g: Guest, pi: Map, c: State, st: Status) returns (rho: Map)
    requires Injective(pi) && Ready(c) && c.outcome.InProgress? && !c.focus.groupExiting && g(c.log.acts).Clones?
    requires Drives(g, Ren(pi, c), st) && !st.Idle?
    ensures Injective(rho) && HalfCloned(g, rho, Step(Ren(pi, c), st), c)
  {
    var p, w := c.focus.current.value, FreshPid(c);
    StoppedNobody(g, pi, c, st);
    hide Step, Ren, Fresh, Ready, Drives;
    if st.CloneEvent? {
      CloneAllowedRen(pi, c, p, w, st.pid, st.child);
      RedirectWorks(pi, c, w, st.child);
      rho := Redirect(pi, w, st.child);
      PidTaken(c, p);
      hide ThreadsOnly, Redirect;
      StepRen(rho, c, CloneEvent(p, w));
    } else {
      AttachAllowedRen(pi, c, p, w, st.pid);
      RedirectWorks(pi, c, w, st.pid);
      rho := Redirect(pi, w, st.pid);
      hide ThreadsOnly, Redirect;
      StepRen(rho, c, SignalStop(w, SIGSTOP));
    }
  }

  lemma StoppedNobody(g: Guest, pi: Map, c: State, st: Status)
    requires Injective(pi) && Ready(c) && c.outcome.InProgress? && !c.focus.groupExiting && g(c.log.acts).Clones?
    requires Drives(g, Ren(pi, c), st) && !st.Idle?
    ensures ThreadsOnly(Ren(pi, c), st)
    ensures st.CloneEvent? || (st.SignalStop? && st.sig == SIGSTOP)
    ensures Fresh(Ren(pi, c), if st.CloneEvent? then st.child else st.pid)
  {
    RenSame(pi, c);
    InitRen(pi, c, c.focus.current.value);
    CurrentRen(pi, c, c.focus.current.value);
    hide Ren, Inv, Fresh;
  }

  lemma StopRenamed(g: Guest, pi: Map, c: State, st: Status) returns (r: Status)
    requires Injective(pi) && c.outcome.InProgress? && c.focus.current.Some? && !c.focus.groupExiting
    requires !g(c.log.acts).Clones? && Causes(g, Ren(pi, c), st) && !st.Idle? && c.focus.frames == []
    ensures Reported(g(c.log.acts), c.focus.current.value) == Some(r) && st == RenStatus(pi, r)
    ensures !r.CloneEvent? && (r.SignalStop? ==> r.sig != SIGSTOP)
  {
    var p := c.focus.current.value;
    RenSame(pi, c);
    CurrentRen(pi, c, p);
    hide Ren, Fresh;
    r := Reported(g(c.log.acts), p).value;
  }

  lemma MacroPlain(g: Guest, c: State, r: Status)
    requires c.outcome.InProgress? && c.focus.current.Some? && !c.focus.groupExiting && !g(c.log.acts).Clones?
    requires c.focus.current.value in c.reg.threads
    requires Reported(g(c.log.acts), c.focus.current.value) == Some(r) && ThreadsOnly(c, r)
    ensures Macro(g, c) == Step(c, r)
  {
    hide Step, ThreadsOnly, Reported;
  }

  lemma MacroClone(g: Guest, c: State, p: Pid, w: Pid)
    requires c.outcome.InProgress? && c.focus.current == Some(p) && !c.focus.groupExiting && g(c.log.acts).Clones?
    requires p in c.reg.threads && w == FreshPid(c) && ThreadsOnly(c, CloneEvent(p, w))
    ensures Macro(g, c) == Step(Step(c, SignalStop(w, SIGSTOP)), CloneEvent(p, w))
  {
    hide Step, ThreadsOnly, Reported;
  }

  lemma ReadyFacts(c: State)
    requires Ready(c) && c.outcome.InProgress?
    ensures Inv(c) && Waiting(c) && c.focus.current.Some? && c.focus.current.value in c.reg.threads
    ensures !c.focus.groupExiting ==> OneRunning(c) && c.q.stoppedPending == {} && c.focus.frames == []
  {
    hide Inv;
  }

  lemma DrivesFacts(g: Guest, s: State, st: Status)
    requires Drives(g, s, st)
    ensures ThreadsOnly(s, st) && Causes(g, s, st)
  {
    hide ThreadsOnly, Causes;
  }

  /** Any other stop of the guest is the canonical stop renamed. */
  lemma FollowPlain(g: Guest, pi: Map, c: State, st: Status)
    requires Injective(pi) && Ready(c) && c.outcome.InProgress? && !c.focus.groupExiting && !g(c.log.acts).Clones?
    requires Drives(g, Ren(pi, c), st) && !st.Idle?
    ensures Step(Ren(pi, c), st) == Ren(pi, Macro(g, c))
  {
    hide *;
    ReadyFacts(c);
    DrivesFacts(g, Ren(pi, c), st);
    var r := StopRenamed(g, pi, c, st);
    AllowedRen(pi, c, r);
    StepRen(pi, c, r);
    MacroPlain(g, c, r);
  }

  lemma PidTaken(c: State, p: Pid)
    requires c.focus.current == Some(p)
    ensures !Fresh(c, p)
  {
  }

  lemma HalfFacts(g: Guest, pi: Map, a: State, c: State) returns (p: Pid, w: Pid)
    requires Injective(pi) && HalfCloned(g, pi, a, c)
    ensures c.outcome.InProgress? && !c.focus.groupExiting && c.focus.current == Some(p) && g(c.log.acts).Clones?
    ensures w == FreshPid(c) && Fresh(c, w) && ThreadsOnly(c, CloneEvent(p, w)) && p != w
    ensures a == Ren(pi, Step(c, SignalStop(w, SIGSTOP))) || a == Ren(pi, Step(c, CloneEvent(p, w)))
  {
    p, w := c.focus.current.value, FreshPid(c);
    hide Fresh, Ren, Step;
  }

  /** The second half of a clone completes the canonical clone, in either order. */
  lemma FollowSecondHalf(g: Guest, pi: Map, a: State, c: State, st: Status)
    requires Injective(pi) && Ready(c) && HalfCloned(g, pi, a, c) && ThreadsOnly(a, st) && !st.Idle? && Inv(a) && Waiting(a)
    ensures Step(a, st) == Ren(pi, Macro(g, c))
  {
    hide *;
    var p, w := HalfFacts(g, pi, a, c);
    ReadyFacts(c);
    CloneReady(c, p, w);
    MacroClone(g, c, p, w);
    var first := SignalStop(w, SIGSTOP);
    if a == Ren(pi, Step(c, first)) {
      AfterAttach(pi, c, p, w, a, st);
      StepRen(pi, Step(c, first), CloneEvent(p, w));
    } else {
      AfterClone(pi, c, p, w, a, st);
      StepRen(pi, Step(c, CloneEvent(p, w)), first);
    }
  }

  lemma AttachedShape(pi: Map, c: State, p: Pid, w: Pid)
    requires Injective(pi) && Ready(c) && c.outcome.InProgress? && !c.focus.groupExiting && c.focus.current == Some(p) && Fresh(c, w)
    ensures var a := Ren(pi, Step(c, SignalStop(w, SIGSTOP)));
            a.q.stoppedPending == {pi(w)} && a.focus.current == Some(pi(p)) && !a.focus.groupExiting
  {
    hide *;
    ReadyFacts(c);
    AttachFirst(c, w);
    StoppedOneRen(pi, Step(c, SignalStop(w, SIGSTOP)), p, w);
  }

  lemma StoppedOneRen(pi: Map, s: State, p: Pid, w: Pid)
    requires Injective(pi) && s.q.stoppedPending == {} + {w} && s.focus.current == Some(p)
    ensures Ren(pi, s).q.stoppedPending == {pi(w)} && Ren(pi, s).focus.current == Some(pi(p))
    ensures Ren(pi, s).focus.groupExiting == s.focus.groupExiting
  {
    SetPut(pi, {}, w);
    assert RSet(pi, {}) == {};
    hide RMap, RSeq, RWaiting, RFrames, RSet, Injective;
  }

  lemma CloneOfStopped(a: State, w: Pid, st: Status)
    requires Inv(a) && Waiting(a) && !a.focus.groupExiting && a.q.stoppedPending == {w} && ThreadsOnly(a, st) && !st.Idle?
    ensures st.CloneEvent? && st.child == w && a.focus.current == Some(st.pid)
  {
    assert st.CloneEvent? && IsTask(a, st.pid, Resumed);
    hide Inv;
    ResumedIsCurrent(a, st.pid);
  }

  /** With the attach stop parked, only the clone event of its child can come. */
  lemma AfterAttach(pi: Map, c: State, p: Pid, w: Pid, a: State, st: Status)
    requires Injective(pi) && Ready(c) && c.outcome.InProgress? && !c.focus.groupExiting && c.focus.current == Some(p)
    requires Fresh(c, w) && a == Ren(pi, Step(c, SignalStop(w, SIGSTOP))) && Inv(a) && Waiting(a)
    requires ThreadsOnly(a, st) && !st.Idle?
    ensures st == RenStatus(pi, CloneEvent(p, w))
  {
    hide Ren, Step, Fresh, Ready, Inv, Waiting, ThreadsOnly, Injective;
    AttachedShape(pi, c, p, w);
    CloneOfStopped(a, pi(w), st);
  }

  lemma FirstCloneFocus(c: State, p: Pid, w: Pid)
    requires c.outcome.InProgress? && p != w && Fresh(c, w)
    ensures Step(c, CloneEvent(p, w)).focus == c.focus.(frames := c.focus.frames + [Frame(p, w)])
  {
    CloneFirst(c, p, w);
    hide Step, Fresh;
  }

  lemma FrameRenamed(pi: Map, s: State, p: Pid, w: Pid)
    requires Injective(pi) && s.focus.frames == [] + [Frame(p, w)]
    ensures Ren(pi, s).focus.frames != [] && Ren(pi, s).focus.frames[0].child == pi(w)
    ensures RenStatus(pi, SignalStop(w, SIGSTOP)) == SignalStop(pi(w), SIGSTOP)
  {
    hide RMap, RSeq, RSet, RWaiting, Injective;
  }

  /** While the attach stop is awaited, only it can come. */
  lemma AfterClone(pi: Map, c: State, p: Pid, w: Pid, a: State, st: Status)
    requires Injective(pi) && Ready(c) && c.outcome.InProgress? && !c.focus.groupExiting && c.focus.current == Some(p) && p != w
    requires Fresh(c, w) && a == Ren(pi, Step(c, CloneEvent(p, w))) && Waiting(a)
    requires ThreadsOnly(a, st) && !st.Idle?
    ensures st == RenStatus(pi, SignalStop(w, SIGSTOP))
  {
    hide *;
    ReadyFacts(c);
    FirstCloneFocus(c, p, w);
    RenSame(pi, Step(c, CloneEvent(p, w)));
    FrameRenamed(pi, Step(c, CloneEvent(p, w)), p, w);
    OnlyAttachArrives(a, st);
  }

  // ----- exit_group

  lemma ExitCalledRen(pi: Map, c: State)
    requires Injective(pi) && ExitCalled(c)
    ensures ExitCalled(Ren(pi, c)) && Ren(pi, c).reg.init == pi(c.reg.init) && Ren(pi, c).kern.groupStatus == c.kern.groupStatus
    ensures IssuerReaped(Ren(pi, c)).log == IssuerReaped(c).log
  {
    VtidRen(pi, c, Issuer(c));
    CurrentRen(pi, c, Issuer(c));
    RenSame(pi, c);
  }

  lemma ExitReady(c: State)
    requires Ready(c) && c.outcome.InProgress? && c.focus.groupExiting
    ensures ExitCalled(c)
  {
    hide Inv, Waiting;
  }

  lemma MacroExit(g: Guest, c: State)
    requires ExitCalled(c)
    ensures Macro(g, c) == Finale(c)
  {
  }

  lemma ReapedStill(s: State, a: State)
    requires ExitCalled(s) && Reaped(s, a)
    ensures a.focus.groupExiting && a.reg.init == s.reg.init && a.kern.groupStatus == s.kern.groupStatus
    ensures a.focus.frames == s.focus.frames
  {
  }

  lemma EndingFixed(g: Guest, a: State, st: Status)
    requires Causes(g, a, st) && a.focus.groupExiting && a.focus.frames == [] && Ending(st).Some? && st.pid == a.reg.init
    ensures st == Exited(a.reg.init, a.kern.groupStatus)
  {
  }

  lemma ReapingIs(pi: Map, a: State, c: State)
    requires Injective(pi)
    ensures Reaping(pi, a, c) <==> ExitCalled(c) && ExitCalled(Ren(pi, c)) && Reaped(Ren(pi, c), a)
  {
    hide Ren, Reaped, ExitCalled;
  }

  lemma FinaleLog(c: State, u: State, s: State)
    requires ExitCalled(c) && ExitCalled(s) && IssuerReaped(s).log == IssuerReaped(c).log
    requires u.log.trace == Emit(IssuerReaped(s), RunExit(c.kern.groupStatus)).log.trace && u.outcome == Done(c.kern.groupStatus)
    ensures u.outcome == Finale(c).outcome && u.log.trace == Finale(c).log.trace
  {
    hide IssuerReaped, ExitCalled;
  }

  /** One report of a teardown: still reaping, or over with the canonical end. */
  lemma FollowReaping(g: Guest, pi: Map, a: State, c: State, st: Status)
    requires Injective(pi) && ExitCalled(c) && Reaping(pi, a, c) && Inv(a) && Waiting(a) && Drives(g, a, st)
    ensures var u := Step(a, st);
            if u.outcome.InProgress? then Reaping(pi, u, c)
            else u.outcome == Finale(c).outcome && u.log.trace == Finale(c).log.trace
  {
    hide *;
    DrivesFacts(g, a, st);
    ExitCalledRen(pi, c);
    ReapingIs(pi, a, c);
    var s := Ren(pi, c);
    ReapedStill(s, a);
    TearingFrames(a);
    TeardownStep(s, a, st);
    var u := Step(a, st);
    if u.outcome.InProgress? {
      ReapingIs(pi, u, c);
    } else {
      EndingFixed(g, a, st);
      EndingOf(st);
      FinaleLog(c, u, s);
    }
  }

  lemma EndingOf(st: Status)
    ensures st.Exited? ==> Ending(st) == Some(RunExit(st.code))
  {
  }

  lemma TearingFrames(a: State)
    requires Waiting(a) && a.focus.groupExiting
    ensures a.focus.frames == []
  {
  }

  // ----- whole runs

  lemma FollowExit(g: Guest, pi: Map, a: State, c: State, st: Status) returns (moved: bool)
    requires Injective(pi) && ExitCalled(c) && Reaping(pi, a, c) && Inv(a) && Waiting(a) && Drives(g, a, st)
    ensures Follows(g, pi, Step(a, st), if moved then Macro(g, c) else c)
  {
    hide *;
    FollowReaping(g, pi, a, c, st);
    MacroExit(g, c);
    moved := !Step(a, st).outcome.InProgress?;
    if moved {
      FinaleOver(c);
      FollowsOver(g, pi, Step(a, st), Macro(g, c));
    } else {
      FollowsReaping(g, pi, Step(a, st), c);
    }
  }

  lemma FinaleOver(c: State)
    requires ExitCalled(c)
    ensures !Finale(c).outcome.InProgress? && c.log.trace <= IssuerReaped(c).log.trace <= Finale(c).log.trace
  {
  }

  lemma FollowsOver(g: Guest, pi: Map, a: State, c: State)
    requires Injective(pi) && !c.outcome.InProgress? && a.outcome == c.outcome && a.log.trace == c.log.trace
    ensures Follows(g, pi, a, c)
  {
    hide Ren, HalfCloned, Reaping;
  }

  lemma FollowsReaping(g: Guest, pi: Map, a: State, c: State)
    requires Injective(pi) && Reaping(pi, a, c)
    ensures Follows(g, pi, a, c)
  {
    hide Ren, HalfCloned, Reaping;
  }

  lemma FollowsRen(g: Guest, pi: Map, c: State)
    requires Injective(pi)
    ensures Follows(g, pi, Ren(pi, c), c)
  {
    hide Ren, HalfCloned, Reaping;
  }

  lemma FollowsHalf(g: Guest, pi: Map, a: State, c: State)
    requires Injective(pi) && HalfCloned(g, pi, a, c)
    ensures Follows(g, pi, a, c)
  {
    hide Ren, HalfCloned, Reaping;
  }

  lemma FollowsCases(g: Guest, pi: Map, a: State, c: State)
    requires Follows(g, pi, a, c)
    ensures Injective(pi)
    ensures a == Ren(pi, c) || HalfCloned(g, pi, a, c) || Reaping(pi, a, c)
            || (!c.outcome.InProgress? && a.outcome == c.outcome && a.log.trace == c.log.trace)
  {
    hide Ren, HalfCloned, Reaping;
  }

  lemma ReapingStarts(pi: Map, c: State)
    requires Injective(pi) && ExitCalled(c)
    ensures Reaping(pi, Ren(pi, c), c)
  {
    ExitCalledRen(pi, c);
    ReapedSelf(Ren(pi, c));
    hide Ren, Reaped;
  }

  lemma ReapingCalled(pi: Map, a: State, c: State)
    requires Injective(pi) && Reaping(pi, a, c)
    ensures ExitCalled(c)
  {
    hide Ren, Reaped;
  }

  /** One status of any run of the guest: the canonical run is followed, under some renaming. */
  lemma FollowStep(g: Guest, pi: Map, a: State, c: State, st: Status) returns (rho: Map, moved: bool)
    requires Follows(g, pi, a, c) && Ready(c) && a.outcome.InProgress? && Inv(a) && Waiting(a) && Drives(g, a, st)
    ensures Follows(g, rho, Step(a, st), if moved then Macro(g, c) else c)
  {
    hide *;
    FollowsCases(g, pi, a, c);
    DrivesFacts(g, a, st);
    rho, moved := pi, false;
    if st.Idle? {
      IdleWaits(a);
    } else if a == Ren(pi, c) {
      RenSame(pi, c);
      ReadyFacts(c);
      if c.focus.groupExiting {
        ExitReady(c);
        ReapingStarts(pi, c);
        moved := FollowExit(g, pi, a, c, st);
      } else if g(c.log.acts).Clones? {
        rho := FollowClone(g, pi, c, st);
        FollowsHalf(g, rho, Step(a, st), c);
      } else {
        FollowPlain(g, pi, c, st);
        FollowsRen(g, pi, Macro(g, c));
        moved := true;
      }
    } else if HalfCloned(g, pi, a, c) {
      FollowSecondHalf(g, pi, a, c, st);
      FollowsRen(g, pi, Macro(g, c));
      moved := true;
    } else {
      ReapingCalled(pi, a, c);
      moved := FollowExit(g, pi, a, c, st);
    }
  }

  /** The host starts the init under some pid: the canonical start, renamed. */
  lemma StartFollows(g: Guest, init: Pid, seed: u64) returns (pi: Map)
    ensures Follows(g, pi, Start(init, seed), Canon(g, seed, 0))
  {
    pi := (p: Pid) => p + init;
    assert Injective(pi);
    BootRen(pi, init, seed);
    hide *;
    ScheduleNextRen(pi, Boot(0, seed));
    StartIs(0, seed);
    StartIs(init, seed);
    CanonStart(g, seed);
    FollowsRen(g, pi, Start(0, seed));
  }

  lemma StartIs(init: Pid, seed: u64)
    ensures Start(init, seed) == ScheduleNext(Boot(init, seed))
  {
    hide ScheduleNext, Boot;
  }

  lemma CanonStart(g: Guest, seed: u64)
    ensures Canon(g, seed, 0) == Start(0, seed)
  {
    hide Start;
  }

  lemma CanonNext(g: Guest, seed: u64, k: nat)
    ensures Canon(g, seed, k + 1) == Macro(g, Canon(g, seed, k))
  {
    hide Start, Macro;
  }

  lemma SingleRen<V>(pi: Map, init: Pid, v: V)
    requires Injective(pi) && pi(0) == init
    ensures RMap(pi, map[0 := v]) == map[init := v] && RMap<V>(pi, map[]) == map[]
  {
  }

  lemma BootRen(pi: Map, init: Pid, seed: u64)
    requires Injective(pi) && pi(0) == init
    ensures Ren(pi, Boot(0, seed)) == Boot(init, seed)
  {
    SingleRen(pi, init, Thread(0, 0, 0, true));
    SingleRen(pi, init, Held);
    SingleRen(pi, init, Inject(0, 0));
    SingleRen(pi, init, 0);
    SingleRen(pi, init, CloneInfo(0, 0));
    EmptyQueuesRen(pi, init);
    assert RFrames(pi, []) == [];
    hide RMap, RQueues, RFrames, Injective;
  }

  lemma EmptyQueuesRen(pi: Map, init: Pid)
    requires pi(0) == init
    ensures RQueues(pi, Queues([0], {}, {}, {}, map[])) == Queues([init], {}, {}, {}, map[])
  {
    assert RSeq(pi, [0]) == [init];
    assert RSet(pi, {}) == {};
    assert RWaiting(pi, map[]) == map[];
  }

  lemma GuestRunsAreThreads(g: Guest, s: State, sts: seq<Status>)
    requires GuestRun(g, s, sts)
    ensures ThreadsRun(s, sts)
  {
    hide Run, ThreadsOnly, Causes;
    forall i | 0 <= i < |sts| ensures ThreadsOnly(Run(s, sts[..i]), sts[i]) {
      assert Drives(g, Run(s, sts[..i]), sts[i]);
    }
  }

  lemma GuestRunPrefix(g: Guest, s: State, sts: seq<Status>)
    requires GuestRun(g, s, sts) && sts != []
    ensures GuestRun(g, s, sts[..|sts| - 1]) && Drives(g, Run(s, sts[..|sts| - 1]), sts[|sts| - 1])
    ensures Run(s, sts) == Step(Run(s, sts[..|sts| - 1]), sts[|sts| - 1])
  {
    hide Drives, Step;
    var pre := sts[..|sts| - 1];
    forall i | 0 <= i < |pre| ensures Drives(g, Run(s, pre[..i]), pre[i]) {
      assert pre[..i] == sts[..i];
      assert Drives(g, Run(s, sts[..i]), sts[i]);
    }
  }

  lemma RunAlive(g: Guest, init: Pid, seed: u64, sts: seq<Status>)
    requires GuestRun(g, Start(init, seed), sts) && Run(Start(init, seed), sts).outcome.InProgress?
    ensures Inv(Run(Start(init, seed), sts)) && Waiting(Run(Start(init, seed), sts))
  {
    hide Start, Run, Inv, Waiting, GuestRun, ThreadsRun;
    GuestRunsAreThreads(g, Start(init, seed), sts);
    RunWaits(init, seed, sts);
  }

  /** Every run of the guest follows the canonical run. */
  lemma {:induction false} Track(g: Guest, init: Pid, seed: u64, sts: seq<Status>) returns (pi: Map, k: nat)
    requires GuestRun(g, Start(init, seed), sts)
    ensures Follows(g, pi, Run(Start(init, seed), sts), Canon(g, seed, k))
  {
    hide *;
    var s := Start(init, seed);
    if sts == [] {
      pi := StartFollows(g, init, seed);
      k := 0;
      RunEmpty(s);
    } else {
      GuestRunPrefix(g, s, sts);
      var pre, st := sts[..|sts| - 1], sts[|sts| - 1];
      pi, k := Track(g, init, seed, pre);
      var a := Run(s, pre);
      if a.outcome.InProgress? {
        RunAlive(g, init, seed, pre);
        CanonReady(g, seed, k);
        var moved;
        pi, moved := FollowStep(g, pi, a, Canon(g, seed, k), st);
        CanonNext(g, seed, k);
        if moved { k := k + 1; }
      } else {
        StepOver(a, st);
      }
    }
  }

  // ----- between two canonical states

  lemma MacroGrows(g: Guest, c: State)
    ensures c.log.trace <= Macro(g, c).log.trace
  {
    hide Step, ThreadsOnly, Fresh;
    if c.outcome.InProgress? && c.focus.current.Some? && c.focus.current.value in c.reg.threads {
      var p, w := c.focus.current.value, FreshPid(c);
      if c.focus.groupExiting {
        FinaleOver(c);
      } else if g(c.log.acts).Clones? {
        StepGrows(c, SignalStop(w, SIGSTOP));
        StepGrows(Step(c, SignalStop(w, SIGSTOP)), CloneEvent(p, w));
      } else if Reported(g(c.log.acts), p).Some? {
        StepGrows(c, Reported(g(c.log.acts), p).value);
      }
    }
  }

  lemma MacroOver(g: Guest, c: State)
    requires !c.outcome.InProgress?
    ensures Macro(g, c) == c
  {
  }

  lemma HalfBetween(g: Guest, pi: Map, a: State, c: State)
    requires Injective(pi) && HalfCloned(g, pi, a, c) && Ready(c)
    ensures a.outcome.InProgress? && c.log.trace <= a.log.trace <= Macro(g, c).log.trace
  {
    hide *;
    var p, w := HalfFacts(g, pi, a, c);
    ReadyFacts(c);
    CloneReady(c, p, w);
    MeetingsInProgress(c, p, w);
    MacroClone(g, c, p, w);
    var first, second := SignalStop(w, SIGSTOP), CloneEvent(p, w);
    RenSame(pi, Step(c, first));
    RenSame(pi, Step(c, second));
    StepGrew(c, first);
    StepGrew(c, second);
    StepGrew(Step(c, first), second);
    StepGrew(Step(c, second), first);
  }

  lemma StepGrew(s: State, st: Status)
    ensures s.log.trace <= Step(s, st).log.trace
  {
    hide Step;
    StepGrows(s, st);
  }

  lemma ReapingBetween(g: Guest, pi: Map, a: State, c: State)
    requires Injective(pi) && Reaping(pi, a, c)
    ensures a.outcome.InProgress? && c.log.trace <= a.log.trace <= Macro(g, c).log.trace
  {
    ReapingCalled(pi, a, c);
    ExitCalledRen(pi, c);
    RenSame(pi, c);
    MacroExit(g, c);
    hide Ren, Macro;
  }

  /** A run that follows a canonical state has written at least its trace and at most the next one's. */
  lemma Between(g: Guest, pi: Map, a: State, c: State)
    requires Follows(g, pi, a, c) && Ready(c)
    ensures c.log.trace <= a.log.trace <= Macro(g, c).log.trace
    ensures !a.outcome.InProgress? ==> a.outcome == c.outcome && a.log.trace == c.log.trace
  {
    hide *;
    FollowsCases(g, pi, a, c);
    MacroGrows(g, c);
    if a == Ren(pi, c) {
      RenSame(pi, c);
    } else if HalfCloned(g, pi, a, c) {
      HalfBetween(g, pi, a, c);
    } else if Reaping(pi, a, c) {
      ReapingBetween(g, pi, a, c);
    }
  }

  lemma {:induction false} CanonGrows(g: Guest, seed: u64, j: nat, k: nat)
    requires j <= k
    ensures Canon(g, seed, j).log.trace <= Canon(g, seed, k).log.trace
    ensures !Canon(g, seed, j).outcome.InProgress? ==> Canon(g, seed, k) == Canon(g, seed, j)
  {
    hide *;
    if j < k {
      CanonGrows(g, seed, j, k - 1);
      CanonNext(g, seed, k - 1);
      MacroGrows(g, Canon(g, seed, k - 1));
      if !Canon(g, seed, j).outcome.InProgress? { MacroOver(g, Canon(g, seed, j)); }
    }
  }

  /** Where a run stands on the canonical trace. */
  lemma Placed(g: Guest, init: Pid, seed: u64, sts: seq<Status>) returns (k: nat)
    requires GuestRun(g, Start(init, seed), sts)
    ensures var a := Run(Start(init, seed), sts);
            && a.log.trace <= Canon(g, seed, k + 1).log.trace
            && (!a.outcome.InProgress? ==> a.outcome == Canon(g, seed, k).outcome && a.log.trace == Canon(g, seed, k).log.trace)
  {
    hide *;
    var pi;
    pi, k := Track(g, init, seed, sts);
    CanonReady(g, seed, k);
    CanonNext(g, seed, k);
    Between(g, pi, Run(Start(init, seed), sts), Canon(g, seed, k));
  }

  /** Reproducibility: for the same seed and the same guest, any two runs — under any pids, with every clone
      reported in either order, with every teardown reaped in any order — write traces of which one is a prefix
      of the other; a run that is over has written all there is; two runs that are over have written the same
      trace and ended alike. */
  lemma Reproducible(g: Guest, seed: u64, init1: Pid, sts1: seq<Status>, init2: Pid, sts2: seq<Status>)
    requires GuestRun(g, Start(init1, seed), sts1) && GuestRun(g, Start(init2, seed), sts2)
    ensures var a, b := Run(Start(init1, seed), sts1), Run(Start(init2, seed), sts2);
            && (a.log.trace <= b.log.trace || b.log.trace <= a.log.trace)
            && (!a.outcome.InProgress? ==> b.log.trace <= a.log.trace)
            && (!a.outcome.InProgress? && !b.outcome.InProgress? ==> a.log.trace == b.log.trace && a.outcome == b.outcome)
  {
    hide *;
    var j := Placed(g, init1, seed, sts1);
    var k := Placed(g, init2, seed, sts2);
    var m := if j < k then k else j;
    CanonGrows(g, seed, j + 1, m + 1);
    CanonGrows(g, seed, k + 1, m + 1);
    CanonGrows(g, seed, j, m + 1);
    CanonGrows(g, seed, k, m + 1);
  }
}
