/** What the death of the running thread leads to, exactly, with and without an exit_group in flight
    (src/runtime/supervisor.rs:349-364, 406-433, 502-527, 570-573). */
module Deaths {
  import opened Base
  import opened Machine
  import opened Invariants
  import opened Fairness
  import opened Limits
  import Trace

  /** The running thread, not the init, dies. */
  ghost predicate CurrentDies(s: State, st: Status) {
    (st.Exited? || st.Killed?) && s.focus.current == Some(st.pid) && st.pid != s.reg.init
  }

  /** The queue a death leaves: whoever waited, then the joiner it wakes, without the dead. */
  ghost function LeftWaiting(s: State, p: Pid): seq<Pid> { Without(AfterJoinWake(s, p).q.runnable, p) }

  /** Some stop is still expected, so an empty queue is no deadlock. */
  ghost predicate Expecting(s: State) { s.q.pendingStart != {} || AnyConcurrent(s) }

  /** A resume succeeds. */
  ghost predicate CanResume(s: State, p: Pid) { IsTask(s, p, Held) || IsTask(s, p, ExitStop) }

  // ----- up to the scheduler

  lemma CurrentDeathFacts(s: State, st: Status, d: State)
    requires Inv(s) && s.outcome.InProgress? && Legal(s, st) && CurrentDies(s, st)
    requires d == s.(kern := s.kern.(task := s.kern.task - {st.pid}))
    ensures var p := st.pid;
            && p in s.reg.threads && p != s.reg.init && Tables(d) && Partition(d) && Parked(d) && Identity(d)
            && d.focus.current == Some(p) && s.focus.lastVtid == VtidOf(s, p) && p !in s.q.pendingStart && IsScheduled(s, p)
    ensures var t := OnThreadExit(d, st.pid, true);
            t.focus == s.focus ==>
              Inner(s, st) == if s.focus.groupExiting then t else ScheduleNext(SetCurrent(t, None))
  {
    hide ParkedOf, FramesOf, RunsAmong, OnThreadExit, ScheduleNext;
  }

  lemma LeftWaitingSame(s: State, d: State, p: Pid)
    requires d.reg == s.reg && d.q == s.q
    ensures LeftWaiting(d, p) == LeftWaiting(s, p) && AfterJoinWake(d, p).q == AfterJoinWake(s, p).q
  {
    hide Without;
  }

  lemma RecordedDeath(d: State, p: Pid)
    requires p in d.reg.threads
    ensures var t := OnThreadExit(d, p, true).log; var e := Emit(d, ThreadExit(d.reg.threads[p].vtid)).log;
            t.trace == e.trace && t.lastNumber == e.lastNumber
  {
    hide Wake;
    Trace.WakeSilent(d.(reg := d.reg.(threads := d.reg.threads - {p})), d.reg.threads, d.reg.threads[p].childTid, 1);
  }

  lemma DeathTurns(d: State, p: Pid)
    ensures Turns(OnThreadExit(d, p, true).log.acts) == Turns(d.log.acts)
  {
    DeathStill(d, p, true);
    hide OnThreadExit, Turns, Without;
  }

  lemma SetNobody(t: State, u: State)
    requires u == SetCurrent(t, None)
    ensures u.focus == t.focus.(current := None) && u.reg == t.reg && u.q == t.q && u.kern == t.kern && u.log == t.log
    ensures u.outcome == t.outcome
  {
  }

  lemma EmitSame(s: State, d: State, e: Event)
    requires d.log == s.log
    ensures Emit(d, e).log == Emit(s, e).log
  {
  }

  lemma ConcurrentLeft(s: State, u: State, p: Pid)
    requires IsScheduled(s, p) && p !in s.q.pendingStart && u.reg.threads == s.reg.threads - {p}
    requires u.q.pendingStart == s.q.pendingStart - {p}
    ensures Expecting(u) <==> Expecting(s)
  {
    if AnyConcurrent(s) {
      var q :| q in s.reg.threads && !s.reg.threads[q].scheduled;
      assert q in u.reg.threads;
    }
  }

  /** The running thread's death up to the point where the scheduler is called, or not. */
  lemma CurrentDeath(s: State, st: Status) returns (t: State)
    requires Inv(s) && s.outcome.InProgress? && Legal(s, st) && CurrentDies(s, st)
    ensures st.pid in s.reg.threads && Tables(t) && t.focus == s.focus && t.outcome.InProgress?
    ensures Inner(s, st) == if s.focus.groupExiting then t else ScheduleNext(SetCurrent(t, None))
    ensures Tables(SetCurrent(t, None))
    ensures t.reg == s.reg.(threads := s.reg.threads - {st.pid}) && t.kern.task == s.kern.task - {st.pid}
    ensures t.q.runnable == LeftWaiting(s, st.pid) && (Expecting(t) <==> Expecting(s))
    ensures t.q == ForgetIn(AfterJoinWake(s, st.pid).q, st.pid)
    ensures var e := Emit(s, ThreadExit(s.reg.threads[st.pid].vtid)).log;
            t.log.trace == e.trace && t.log.lastNumber == e.lastNumber && Turns(t.log.acts) == Turns(s.log.acts)
    ensures s.focus.lastVtid == VtidOf(s, st.pid)
  {
    var p := st.pid;
    hide *;
    var d := s.(kern := s.kern.(task := s.kern.task - {p}));
    CurrentDeathFacts(s, st, d);
    ExitKeepsTables(d, p, true);
    ExitEffect(d, p, true);
    AfterJoinWakeKeeps(d, p);
    LeftWaitingSame(s, d, p);
    LeftWaitingIs(d, p);
    RecordedDeath(d, p);
    EmitSame(s, d, ThreadExit(s.reg.threads[p].vtid));
    DeathTurns(d, p);
    t := OnThreadExit(d, p, true);
    IdleAfterDeath(t, p);
    ConcurrentLeft(s, t, p);
  }

  lemma LeftWaitingIs(d: State, p: Pid)
    ensures LeftWaiting(d, p) == Without(AfterJoinWake(d, p).q.runnable, p) == ForgetIn(AfterJoinWake(d, p).q, p).runnable
    ensures var q := AfterJoinWake(d, p).q;
            ForgetIn(q, p) == Queues(Without(q.runnable, p), q.pendingStart - {p}, q.stoppedPending - {p}, q.blocked - {p}, Purge(q.waiting, p))
  {
    hide Without, AfterJoinWake;
  }

  // ----- the scheduler after a death

  /** The running thread's exit, and the turn of the next one, if any. */
  ghost function ExitTrace(s: State, p: Pid, next: Option<Pid>): seq<Record>
    requires p in s.reg.threads && (next.Some? ==> next.value in s.reg.threads)
  {
    var vtid := s.reg.threads[p].vtid;
    var e := Emit(s, ThreadExit(vtid));
    (if next.Some? then Emit(e, Schedule(Some(vtid), s.reg.threads[next.value].vtid)) else e).log.trace
  }

  lemma HeadLives(u: State, p: Pid)
    requires Tables(u) && u.q.runnable != [] && p !in u.reg.threads
    ensures Partition(u) && u.q.runnable[0] in u.reg.threads && u.q.runnable[0] != p
  {
    hide ParkedOf, IdentityOf;
    assert u.q.runnable[0] in u.q.runnable;
    assert ScheduledIn(u.reg.threads, u.q.runnable[0]);
  }

  /** A pick of a thread other than the last one: its schedule event, its turn, and ESRCH if it cannot be resumed. */
  lemma PickShows(s: State, tid: Pid)
    requires tid in s.reg.threads && s.focus.lastVtid != VtidOf(s, tid)
    ensures var t := Pick(s, tid); var e := Emit(s, Schedule(s.focus.lastVtid, s.reg.threads[tid].vtid)).log;
            && t.focus.current == Some(tid) && t.focus.groupExiting == s.focus.groupExiting && t.focus.frames == s.focus.frames
            && t.reg == s.reg && t.q == s.q && t.kern.task.Keys == s.kern.task.Keys
            && t.log.trace == e.trace && t.log.lastNumber == e.lastNumber
            && t.outcome == if CanResume(s, tid) then s.outcome else Failed(Ptrace)
  {
    PickEffect(s, tid);
    PickLog(s, tid);
    hide Pick;
  }

  lemma PickLog(s: State, tid: Pid)
    requires tid in s.reg.threads && s.focus.lastVtid != VtidOf(s, tid)
    ensures var t := Pick(s, tid); var e := Emit(s, Schedule(s.focus.lastVtid, s.reg.threads[tid].vtid)).log;
            && t.log.trace == e.trace && t.log.lastNumber == e.lastNumber
            && t.outcome == if CanResume(s, tid) then s.outcome else Failed(Ptrace)
  {
  }

  lemma Popped(u: State)
    requires u.q.runnable != []
    ensures var s := PopRunnable(u);
            && s.reg == u.reg && s.focus == u.focus && s.kern == u.kern && s.log == u.log && s.outcome == u.outcome
            && s.q.runnable == u.q.runnable[1..]
    ensures forall p :: VtidOf(PopRunnable(u), p) == VtidOf(u, p)
  {
  }

  lemma RunningTail(t: State)
    requires t.focus.current.Some?
    ensures Tail(t) == t
  {
  }

  /** With somebody in line, the head is served. */
  lemma ServedHead(u: State, p: Pid)
    requires Tables(u) && p !in u.reg.threads && u.outcome.InProgress? && u.q.runnable != []
    requires u.q.runnable[0] in u.reg.threads ==> u.focus.lastVtid != VtidOf(u, u.q.runnable[0])
    ensures var t := Tail(ScheduleNext(u)); var tid := u.q.runnable[0];
            && tid in u.reg.threads && tid != p && t.focus.current == Some(tid) && t.q.runnable == u.q.runnable[1..]
            && Turns(t.log.acts) == Turns(u.log.acts) + [u.reg.threads[tid].vtid]
            && t.log.trace == Emit(u, Schedule(u.focus.lastVtid, u.reg.threads[tid].vtid)).log.trace
            && t.outcome == (if CanResume(u, tid) then InProgress else Failed(Ptrace))
            && t.focus.groupExiting == u.focus.groupExiting && t.focus.frames == u.focus.frames
            && t.kern.task.Keys == u.kern.task.Keys && t.reg == u.reg
  {
    hide *;
    var tid := u.q.runnable[0];
    HeadLives(u, p);
    Popped(u);
    ScheduleNextHead(u);
    PickServes(PopRunnable(u), tid);
    PickShows(PopRunnable(u), tid);
    EmitSame(u, PopRunnable(u), Schedule(u.focus.lastVtid, u.reg.threads[tid].vtid));
    ResumableSame(u, PopRunnable(u), tid);
    RunningTail(ScheduleNext(u));
  }

  lemma ResumableSame(u: State, s: State, tid: Pid)
    requires s.kern == u.kern
    ensures CanResume(s, tid) == CanResume(u, tid)
  {
  }

  /** With nobody in line, the scheduler waits for an expected stop or declares a deadlock. */
  lemma ServesNobody(u: State)
    requires u.q.runnable == [] && u.outcome.InProgress?
    ensures var t := Tail(ScheduleNext(u));
            t == if Expecting(u) then u else u.(outcome := Failed(Deadlock))
  {
  }

  lemma OtherVtid(s: State, p: Pid, q: Pid)
    requires Inv(s) && p != q && p in s.reg.threads && q in s.reg.threads
    ensures s.reg.threads[p].vtid != s.reg.threads[q].vtid
  {
    hide PartitionOf, ParkedOf, KernelOf, FramesOf, RunsAmong;
  }

  /** A death leaves the head of the queue in place. */
  lemma HeadStays(s: State, p: Pid)
    requires Tables(s) && s.focus.current == Some(p)
    ensures s.q.runnable != [] ==> LeftWaiting(s, p) != [] && LeftWaiting(s, p)[0] == s.q.runnable[0]
  {
    if s.q.runnable != [] {
      AfterJoinWakeGrows(s, p);
      hide AfterJoinWake;
      assert s.q.runnable[0] in s.q.runnable;
      assert s.q.runnable[0] != p;
    }
  }

  lemma AfterJoinWakeGrows(d: State, p: Pid)
    requires Parked(d)
    ensures d.q.runnable <= AfterJoinWake(d, p).q.runnable
  {
    if p in d.reg.threads { WakeTakesPrefix(d, d.reg.threads, d.reg.threads[p].childTid, 1); }
    hide Wake, WakeCount;
  }

  /** What the running thread's death leads to. If an exit_group is in flight, called by whatever task, the scheduler
      is stalled with everybody left in the queue. If not, the head of the queue the death leaves has its turn — the
      run ends with ESRCH if that thread can no longer be resumed — and an empty queue means waiting or deadlock. */
  ghost predicate DeathLeadsTo(s: State, p: Pid, t: State)
    requires p in s.reg.threads
  {
    var line := LeftWaiting(s, p);
    if s.focus.groupExiting then
      Stalled(t) && t.focus == s.focus && t.outcome.InProgress? && t.q.runnable == line
      && Turns(t.log.acts) == Turns(s.log.acts) && t.log.trace == ExitTrace(s, p, None)
    else if line == [] then
      && t.focus.current == None && t.q.runnable == [] && Turns(t.log.acts) == Turns(s.log.acts)
      && t.outcome == (if Expecting(s) then InProgress else Failed(Deadlock))
      && t.log.trace == ExitTrace(s, p, None)
    else
      && line[0] in s.reg.threads && line[0] != p && t.focus.current == Some(line[0]) && t.q.runnable == line[1..]
      && Turns(t.log.acts) == Turns(s.log.acts) + [s.reg.threads[line[0]].vtid]
      && t.outcome == (if CanResume(s, line[0]) then InProgress else Failed(Ptrace))
      && t.log.trace == ExitTrace(s, p, Some(line[0]))
  }

  lemma NextServedExactly(s: State, st: Status)
    requires Inv(s) && s.outcome.InProgress? && Legal(s, st) && CurrentDies(s, st)
    ensures st.pid in s.reg.threads && DeathLeadsTo(s, st.pid, Step(s, st))
    ensures LeftWaiting(s, st.pid) != [] ==>
              (|Turns(Step(s, st).log.acts)| == |Turns(s.log.acts)| + 1 <==> !s.focus.groupExiting)
    ensures s.q.runnable != [] ==> LeftWaiting(s, st.pid) != [] && LeftWaiting(s, st.pid)[0] == s.q.runnable[0]
    ensures Step(s, st).reg == s.reg.(threads := s.reg.threads - {st.pid}) && Step(s, st).focus.frames == s.focus.frames
    ensures Step(s, st).kern.task.Keys == s.kern.task.Keys - {st.pid}
  {
    var p := st.pid;
    assert s.focus.current == Some(p);
    hide *;
    var t := CurrentDeath(s, st);
    TablesOf(s);
    HeadStays(s, p);
    StepIs(s, st);
    if s.focus.groupExiting {
      StallShown(s, p, t);
      RunningTail(t);
    } else {
      var u := SetCurrent(t, None);
      SetNobody(t, u);
      if u.q.runnable != [] {
        HeadLives(u, p);
        OtherVtid(s, p, u.q.runnable[0]);
        VtidsKept(s, u, p, u.q.runnable[0]);
        ServedHead(u, p);
        ServedShown(s, p, u, Step(s, st));
      } else {
        ServesNobody(u);
        SameExpecting(t, u);
        NobodyShown(s, p, u, Step(s, st));
      }
    }
  }

  lemma TablesOf(s: State)
    requires Inv(s)
    ensures Tables(s)
  {
    hide Tables;
  }

  lemma SameExpecting(t: State, u: State)
    requires u.q == t.q && u.reg == t.reg
    ensures Expecting(u) <==> Expecting(t)
  {
  }

  lemma VtidsKept(s: State, u: State, p: Pid, tid: Pid)
    requires u.reg.threads == s.reg.threads - {p} && tid in u.reg.threads && u.focus.lastVtid == s.focus.lastVtid
    requires p in s.reg.threads && s.focus.lastVtid == VtidOf(s, p) && s.reg.threads[p].vtid != s.reg.threads[tid].vtid
    ensures u.focus.lastVtid != VtidOf(u, tid) && u.reg.threads[tid] == s.reg.threads[tid] && tid in s.reg.threads
  {
  }

  lemma StallShown(s: State, p: Pid, t: State)
    requires p in s.reg.threads && s.focus.groupExiting && s.focus.current == Some(p) && t.focus == s.focus && t.outcome.InProgress?
    requires t.reg.threads == s.reg.threads - {p} && t.q.runnable == LeftWaiting(s, p)
    requires t.log.trace == Emit(s, ThreadExit(s.reg.threads[p].vtid)).log.trace && Turns(t.log.acts) == Turns(s.log.acts)
    ensures DeathLeadsTo(s, p, t)
  {
    hide LeftWaiting, Turns;
  }

  lemma NobodyShown(s: State, p: Pid, u: State, t: State)
    requires p in s.reg.threads && !s.focus.groupExiting && u.q.runnable == LeftWaiting(s, p) == [] && u.focus.current == None
    requires t == if Expecting(s) then u else u.(outcome := Failed(Deadlock))
    requires u.outcome.InProgress? && Turns(u.log.acts) == Turns(s.log.acts)
    requires u.log.trace == Emit(s, ThreadExit(s.reg.threads[p].vtid)).log.trace
    ensures DeathLeadsTo(s, p, t) && t.focus.frames == u.focus.frames && t.reg == u.reg && t.kern == u.kern
    ensures Turns(t.log.acts) == Turns(s.log.acts)
  {
    hide LeftWaiting, Turns, Expecting;
  }

  lemma ServedShown(s: State, p: Pid, u: State, t: State)
    requires p in s.reg.threads && !s.focus.groupExiting && u.q.runnable == LeftWaiting(s, p) && u.q.runnable != []
    requires var tid := u.q.runnable[0];
             && tid in u.reg.threads && tid != p && tid in s.reg.threads && u.reg.threads[tid] == s.reg.threads[tid]
             && t.focus.current == Some(tid) && t.q.runnable == u.q.runnable[1..]
             && Turns(t.log.acts) == Turns(u.log.acts) + [u.reg.threads[tid].vtid]
             && t.log.trace == Emit(u, Schedule(u.focus.lastVtid, u.reg.threads[tid].vtid)).log.trace
             && t.outcome == (if CanResume(u, tid) then InProgress else Failed(Ptrace))
    requires Turns(u.log.acts) == Turns(s.log.acts) && u.focus.lastVtid == s.focus.lastVtid == VtidOf(s, p)
    requires u.kern.task == s.kern.task - {p}
    requires var e := Emit(s, ThreadExit(s.reg.threads[p].vtid)).log; u.log.trace == e.trace && u.log.lastNumber == e.lastNumber
    ensures DeathLeadsTo(s, p, t) && |Turns(t.log.acts)| == |Turns(s.log.acts)| + 1
  {
    hide LeftWaiting, Turns;
  }

  /** The next in line can be resumed unless its own exit event has come already. */
  lemma NextCanResume(s: State, p: Pid)
    requires Inv(s) && s.focus.current == Some(p) && p in s.reg.threads && LeftWaiting(s, p) != []
    ensures CanResume(s, LeftWaiting(s, p)[0]) <==> !IsTask(s, LeftWaiting(s, p)[0], Dying)
  {
    var tid := LeftWaiting(s, p)[0];
    AfterJoinWakeKeeps(s, p);
    assert tid in LeftWaiting(s, p);
    var w := AfterJoinWake(s, p);
    assert tid in w.q.runnable && tid != p;
    assert ScheduledIn(w.reg.threads, tid) && tid !in w.q.pendingStart by { hide ParkedOf; }
    hide AfterJoinWake, LeftWaiting, PartitionOf, ParkedOf, IdentityOf, FramesOf, Without;
    assert tid in s.kern.task && !RunsAmong(s.reg.threads, s.kern.task, tid);
  }

  /** The running thread's death ends the run with ESRCH if and only if no exit_group is in flight and the next in line
      has already had its exit event: a fatal signal does that to a multi-threaded group, and the caller gets an
      error instead of 128 + the signal. */
  lemma DeathFailsExactly(s: State, st: Status)
    requires Inv(s) && s.outcome.InProgress? && Legal(s, st) && CurrentDies(s, st)
    ensures var line := LeftWaiting(s, st.pid);
            Step(s, st).outcome == Failed(Ptrace) <==> !s.focus.groupExiting && line != [] && IsTask(s, line[0], Dying)
  {
    var p := st.pid;
    assert s.focus.current == Some(p);
    hide *;
    NextServedExactly(s, st);
    if LeftWaiting(s, p) != [] { NextCanResume(s, p); }
    OutcomeShown(s, p, Step(s, st));
  }

  lemma OutcomeShown(s: State, p: Pid, t: State)
    requires p in s.reg.threads && DeathLeadsTo(s, p, t)
    ensures t.outcome == if s.focus.groupExiting then InProgress
                         else if LeftWaiting(s, p) == [] then (if Expecting(s) then InProgress else Failed(Deadlock))
                         else if CanResume(s, LeftWaiting(s, p)[0]) then InProgress else Failed(Ptrace)
  {
    hide LeftWaiting, Turns, ExitTrace, Stalled, Expecting, CanResume;
  }

  // ----- exit_group by a fork child

  const EXIT_GROUP_CALL := Regs(SYS_EXIT_GROUP, 0, 0, 0, 0, 0)

  /** A fork child's exit_group only marks the supervisor. */
  lemma ForkChildExits(s: State, q: Pid, mem: Memory)
    requires Inv(s) && s.outcome.InProgress? && IsTask(s, q, Resumed) && !IsScheduled(s, q) && q !in s.calls.pending
    requires s.focus.current.Some?
    ensures var st := SyscallStop(q, Entry(EXIT_GROUP_CALL, mem)); var t := Step(s, st);
            && Legal(s, st) && t.outcome.InProgress? && t.focus == s.focus.(groupExiting := true) && t.q == s.q && t.reg == s.reg
            && t.kern.task == s.kern.task && Turns(t.log.acts) == Turns(s.log.acts)
  {
    var st := SyscallStop(q, Entry(EXIT_GROUP_CALL, mem));
    var d := SetTask(s, q, Held);
    var e := OnSyscallEntry(d, q, EXIT_GROUP_CALL, mem);
    assert e.focus == s.focus.(groupExiting := true) && e.q == s.q && e.reg == s.reg && e.outcome.InProgress? && e.kern.task == d.kern.task
      && e.log.acts == s.log.acts;
    hide Turns, Inv, OnSyscallEntry;
    ResumeStill(e, q);
    var u := ResumeThread(e, q);
    assert u.outcome.InProgress? && u.kern.task == s.kern.task[q := Held][q := Resumed] && u.focus == e.focus && u.q == e.q;
    assert s.kern.task[q := Held][q := Resumed] == s.kern.task;
    assert Inner(s, st) == u by { hide ResumeThread; }
    hide Inner, ResumeThread;
  }

  lemma StalledShown(s: State, p: Pid, t: State)
    requires p in s.reg.threads && s.focus.groupExiting && DeathLeadsTo(s, p, t)
    ensures Stalled(t) && t.outcome.InProgress? && t.q.runnable == LeftWaiting(s, p) && Turns(t.log.acts) == Turns(s.log.acts)
  {
    hide LeftWaiting, Turns, ExitTrace, Stalled;
  }

  /** The same death of the running thread: if anybody waits, or the death wakes a joiner, the next in line has its
      turn — unless a fork child has called exit_group in between, then the queue is left as it is and nobody in it
      ever has a turn again (`StalledForever`). */
  lemma ForkChildStalls(s: State, q: Pid, p: Pid, code: int, mem: Memory)
    requires Inv(s) && s.outcome.InProgress? && IsTask(s, q, Resumed) && !IsScheduled(s, q) && q !in s.calls.pending
    requires s.focus.current == Some(p) && p != s.reg.init && p in s.kern.task && !s.focus.groupExiting
    ensures var exits, dies := SyscallStop(q, Entry(EXIT_GROUP_CALL, mem)), Exited(p, code);
            var with, without := Step(Step(s, exits), dies), Step(s, dies); var line := LeftWaiting(s, p);
            && Legal(s, exits) && Legal(Step(s, exits), dies) && Legal(s, dies) && p in s.reg.threads
            && Inv(with) && Stalled(with) && with.outcome.InProgress? && with.q.runnable == line
            && Turns(with.log.acts) == Turns(s.log.acts)
            && (s.q.runnable != [] ==> line != [])
            && (line != [] ==> |Turns(without.log.acts)| == |Turns(s.log.acts)| + 1)
            && DeathLeadsTo(s, p, without)
  {
    var exits, dies := SyscallStop(q, Entry(EXIT_GROUP_CALL, mem)), Exited(p, code);
    var e := Step(s, exits);
    ForkChildExits(s, q, mem);
    assert Legal(s, dies) && CurrentDies(s, dies) && !InitDies(s, exits);
    assert Legal(e, dies) && CurrentDies(e, dies) && !InitDies(e, dies);
    hide *;
    StepKeepsInv(s, exits);
    NextServedExactly(s, dies);
    NextServedExactly(e, dies);
    LeftWaitingSame(s, e, p);
    StalledShown(e, p, Step(e, dies));
    StepKeepsInv(e, dies);
  }
}
