/** Concrete runs, from the start, in which the supervisor falls short: a leader that exits first, a fork child's
    exit_group, deaths whose order shows, a nested wait that never ends, a join wake that is lost, flags of a failed
    clone call (src/runtime/supervisor.rs:301-306, 357-364, 376-399, 475, 506-527, 570-591). States are given up to
    their logs. */
module ConcreteRuns {
  import opened Base
  import opened Machine
  import opened Invariants
  import opened Threads
  import Deaths
  import KillOrder
  import Limits
  import Nesting
  import Fairness
  import Confluence
  import Prng

  const NOTHING := Memory(None, None, true)

  const RETURNS := SyscallStop(1, SyscallOp.Exit)

  const LEADER := Thread(0, 0, 0, true)
  const CHILD := Thread(1, 0, 17, false)

  function Worker(vtid: Vtid): Thread { Thread(vtid, 0, 0x1_0000, true) }

  ghost function At(reg: Registry, runnable: seq<Pid>, starting: set<Pid>, focus: Focus, stash: map<Pid, CloneInfo>,
                    task: map<Pid, Task>, log: Log): State {
    State(reg, Queues(runnable, starting, {}, {}, map[]), focus, Calls(map[], map[], stash),
          Devices(Prng.Seeded(1), 0), log, Kernel(task, 0), InProgress)
  }

  const ALONE := Registry(1, map[1 := LEADER], 1)
  const FORKED := Registry(1, map[1 := LEADER, 3 := CHILD], 2)

  /** The init clones: a fork child, or a thread; `reg` before, `next` after. */
  ghost predicate Clones(reg: Registry, next: Registry, c: Pid, flags: u64, tid: u64) {
    && reg.init == 1 && 1 in reg.threads && reg.threads[1] == LEADER && c !in reg.threads && c != 1
    && next == Registry(1, reg.threads[c := Thread(reg.vtidNext, tid, flags, HasCloneThread(flags))], reg.vtidNext + 1)
  }

  ghost function Running(reg: Registry, runnable: seq<Pid>, task: map<Pid, Task>, log: Log): State {
    At(reg, runnable, {}, Focus(Some(1), Some(0), false, []), map[], task, log)
  }

  lemma StartIs() returns (log: Log)
    ensures Start(1, 1) == Running(ALONE, [], map[1 := Resumed], log)
  {
    var b := Boot(1, 1);
    assert b.q.runnable[1..] == [];
    assert ScheduleNext(b) == Pick(PopRunnable(b), 1);
    hide Prng.Seeded;
    log := Start(1, 1).log;
  }

  /** Inside the clone call. */
  ghost function Called(reg: Registry, runnable: seq<Pid>, task: map<Pid, Task>, flags: u64, tid: u64, log: Log): State {
    At(reg, runnable, {}, Focus(Some(1), Some(0), false, []), map[1 := CloneInfo(flags, tid)], task, log)
  }

  /** The clone event is in, the attach stop is awaited. */
  ghost function Awaiting(reg: Registry, runnable: seq<Pid>, task: map<Pid, Task>, c: Pid, log: Log): State {
    At(reg, runnable, {c}, Focus(Some(1), Some(0), false, [Frame(1, c)]), map[], task[1 := Held][c := Attaching], log)
  }

  ghost function Joined(task: map<Pid, Task>, c: Pid, thread: bool): map<Pid, Task> {
    task[c := if thread then Held else Resumed][1 := Resumed]
  }

  function CloneCall(flags: u64, tid: u64): Status { SyscallStop(1, Entry(Regs(SYS_CLONE, flags, 0, 0, tid, 0), NOTHING)) }

  lemma CallsClone(reg: Registry, runnable: seq<Pid>, task: map<Pid, Task>, flags: u64, tid: u64, log: Log) returns (next: Log)
    requires 1 in reg.threads && reg.threads[1] == LEADER && 1 in task && task[1] == Resumed
    ensures var s := Running(reg, runnable, task, log);
            Legal(s, CloneCall(flags, tid)) && Step(s, CloneCall(flags, tid)) == Called(reg, runnable, task, flags, tid, next)
  {
    hide Prng.Seeded;
    var regs := Regs(SYS_CLONE, flags, 0, 0, tid, 0);
    var s := Running(reg, runnable, task, log);
    var d := SetTask(s, 1, Held);
    assert IsScheduled(d, 1);
    var t := OnSyscallEntry(d, 1, regs, NOTHING);
    assert t == Emit(d.(calls := d.calls.(clonePending := map[1 := CloneInfo(flags, tid)])), Syscall(SYS_CLONE, Pass));
    hide OnSyscallEntry;
    assert task[1 := Held][1 := Resumed] == task;
    next := Step(s, CloneCall(flags, tid)).log;
  }

  lemma Event(reg: Registry, reg2: Registry, runnable: seq<Pid>, task: map<Pid, Task>, c: Pid, flags: u64, tid: u64, log: Log)
    returns (next: Log)
    requires Clones(reg, reg2, c, flags, tid) && 1 in task && task[1] == Resumed && c !in task && c !in runnable
    ensures var s := Called(reg, runnable, task, flags, tid, log);
            Legal(s, CloneEvent(1, c)) && Step(s, CloneEvent(1, c)) == Awaiting(reg2, runnable, task, c, next)
  {
    hide Prng.Seeded;
    var s := Called(reg, runnable, task, flags, tid, log);
    assert Fresh(s, c);
    Confluence.CloneFirst(s, 1, c);
    hide Step, Fresh;
    assert map[1 := CloneInfo(flags, tid)] - {1} == map[];
    assert {} + {c} == {c};
    next := Step(s, CloneEvent(1, c)).log;
  }

  /** The child's attach stop: a thread joins the queue, a process runs; the init goes on. */
  lemma Attached(reg: Registry, runnable: seq<Pid>, task: map<Pid, Task>, c: Pid, log: Log) returns (next: Log)
    requires 1 in reg.threads && reg.threads[1] == LEADER && c in reg.threads && c != 1 && 1 in task
    ensures var s := Awaiting(reg, runnable, task, c, log); var thread := reg.threads[c].scheduled; var st := SignalStop(c, SIGSTOP);
            && Legal(s, st)
            && Step(s, st) == Running(reg, if thread then runnable + [c] else runnable, Joined(task, c, thread), next)
  {
    hide Prng.Seeded;
    var s := Awaiting(reg, runnable, task, c, log);
    var thread := reg.threads[c].scheduled;
    assert Awaited(s, SignalStop(c, SIGSTOP));
    var d := SetTask(s, c, Held);
    var e := d.(q := d.q.(pendingStart := d.q.pendingStart - {c}));
    var r := Release(e, c);
    assert r.outcome.InProgress? && r.focus == s.focus && r.q.pendingStart == {} && r.calls.sigPending == map[];
    hide Release;
    var u := r.(focus := r.focus.(frames := []));
    assert [Frame(1, c)][..0] == [];
    assert FinishAwait(d) == Continue(u, 1);
    next := Step(s, SignalStop(c, SIGSTOP)).log;
    assert task[1 := Held][c := Attaching][c := if thread then Held else Resumed][1 := Resumed] == Joined(task, c, thread);
  }

  /** The init's syscall exit with nobody waiting: its own next turn. */
  lemma ExitAlone(reg: Registry, stash: map<Pid, CloneInfo>, task: map<Pid, Task>, log: Log) returns (next: Log)
    requires 1 in reg.threads && reg.threads[1] == LEADER && 1 in task && task[1] == Resumed
    ensures var f := Focus(Some(1), Some(0), false, []); var s := At(reg, [], {}, f, stash, task, log);
            Legal(s, RETURNS) && Step(s, RETURNS) == At(reg, [], {}, f, stash, task, next)
  {
    hide Prng.Seeded;
    var s := At(reg, [], {}, Focus(Some(1), Some(0), false, []), stash, task, log);
    var d := SetTask(s, 1, Held);
    var u := PushRunnable(SetCurrent(d, None), 1);
    assert u.q.runnable == [1] && u.q.runnable[1..] == [];
    assert OnSyscallExit(d, 1) == d;
    assert ScheduleNext(u) == Pick(PopRunnable(u), 1);
    assert task[1 := Held][1 := Resumed] == task;
    next := Step(s, RETURNS).log;
  }

  lemma ExitRunning(reg: Registry, task: map<Pid, Task>, log: Log) returns (next: Log)
    requires 1 in reg.threads && reg.threads[1] == LEADER && 1 in task && task[1] == Resumed
    ensures var s := Running(reg, [], task, log); Legal(s, RETURNS) && Step(s, RETURNS) == Running(reg, [], task, next)
  {
    next := ExitAlone(reg, map[], task, log);
    hide Step, Legal, Prng.Seeded;
  }

  /** The init's syscall exit with thread `c` next in line: `c` has its turn, the init goes to the back. */
  lemma ExitYields(reg: Registry, task: map<Pid, Task>, c: Pid, rest: seq<Pid>, log: Log) returns (next: Log)
    requires 1 in reg.threads && reg.threads[1] == LEADER && 1 in task && task[1] == Resumed
    requires c in reg.threads && c != 1 && c in task && task[c] == Held
    ensures var s := Running(reg, [c] + rest, task, log); var vtid := reg.threads[c].vtid;
            && Legal(s, RETURNS)
            && Step(s, RETURNS)
               == At(reg, rest + [1], {}, Focus(Some(c), Some(vtid), false, []), map[], task[1 := Held][c := Resumed], next)
  {
    hide Prng.Seeded;
    var s := Running(reg, [c] + rest, task, log);
    var d := SetTask(s, 1, Held);
    var u := PushRunnable(SetCurrent(d, None), 1);
    assert u.q.runnable[0] == c && u.q.runnable[1..] == rest + [1];
    assert OnSyscallExit(d, 1) == d;
    assert ScheduleNext(u) == Pick(PopRunnable(u), c);
    next := Step(s, RETURNS).log;
  }

  /** A legal run leads to `t`. */
  ghost predicate Reaches(sts: seq<Status>, t: State) { LegalRun(Start(1, 1), sts) && Run(Start(1, 1), sts) == t }

  lemma Extend(sts: seq<Status>, t: State, st: Status, u: State)
    requires Reaches(sts, t) && Legal(t, st) && Step(t, st) == u
    ensures Reaches(sts + [st], u)
  {
    hide Step, Legal, Start;
    var s := Start(1, 1);
    var all := sts + [st];
    assert all[..|sts|] == sts;
    forall i | 0 <= i < |all| ensures Legal(Run(s, all[..i]), all[i]) {
      if i < |sts| {
        assert all[..i] == sts[..i];
        assert Legal(Run(s, sts[..i]), sts[i]);
      }
    }
  }

  const BOTH := Registry(1, map[1 := LEADER, 3 := CHILD, 2 := Worker(2)], 3)
  const PAIR := Registry(1, map[1 := LEADER, 2 := Worker(1)], 2)

  lemma Registries()
    ensures Clones(ALONE, FORKED, 3, 17, 0) && Clones(FORKED, BOTH, 2, 0x1_0000, 0) && Clones(ALONE, PAIR, 2, 0x1_0000, 0)
    ensures 1 in FORKED.threads && FORKED.threads[1] == LEADER
    ensures 1 in BOTH.threads && BOTH.threads[1] == LEADER && 2 in BOTH.threads && BOTH.threads[2] == Worker(2)
    ensures HasCloneThread(0x1_0000) && !HasCloneThread(17)
  {
    assert HasCloneThread(0x1_0000) && !HasCloneThread(17);
  }

  /** The init forks a process or clones a thread: call, clone event, attach stop. */
  lemma CloneRun(sts: seq<Status>, reg: Registry, next: Registry, runnable: seq<Pid>, task: map<Pid, Task>, c: Pid, flags: u64,
                 tid: u64, log: Log)
    returns (log2: Log)
    requires Reaches(sts, Running(reg, runnable, task, log)) && Clones(reg, next, c, flags, tid)
    requires 1 in task && task[1] == Resumed && c !in task && c !in runnable
    ensures var thread := HasCloneThread(flags);
            Reaches(sts + [CloneCall(flags, tid)] + [CloneEvent(1, c)] + [SignalStop(c, SIGSTOP)],
                    Running(next, if thread then runnable + [c] else runnable, Joined(task, c, thread), log2))
  {
    hide *;
    CloneFacts(reg, next, c, flags, tid);
    log2 := CallsClone(reg, runnable, task, flags, tid, log);
    var t1 := Called(reg, runnable, task, flags, tid, log2);
    Extend(sts, Running(reg, runnable, task, log), CloneCall(flags, tid), t1);
    log2 := Event(reg, next, runnable, task, c, flags, tid, log2);
    var t2 := Awaiting(next, runnable, task, c, log2);
    Extend(sts + [CloneCall(flags, tid)], t1, CloneEvent(1, c), t2);
    log2 := Attached(next, runnable, task, c, log2);
    Extend(sts + [CloneCall(flags, tid)] + [CloneEvent(1, c)], t2, SignalStop(c, SIGSTOP), Step(t2, SignalStop(c, SIGSTOP)));
  }

  lemma CloneFacts(reg: Registry, next: Registry, c: Pid, flags: u64, tid: u64)
    requires Clones(reg, next, c, flags, tid)
    ensures c != 1 && 1 in reg.threads && reg.threads[1] == LEADER && 1 in next.threads && next.threads[1] == LEADER
    ensures c in next.threads && next.threads[c].scheduled == HasCloneThread(flags)
  {
  }

  lemma Begins() returns (log: Log)
    ensures Reaches([], Running(ALONE, [], map[1 := Resumed], log))
  {
    hide Step, Legal, Start;
    log := StartIs();
  }

  const CLONE_RUN := [CloneCall(0x1_0000, 0), CloneEvent(1, 2), SignalStop(2, SIGSTOP), ExitEvent(1)]

  /** A leader that clones a thread and exits before it: the thread stays in the queue, and the kernel has nothing
      left to report. */
  lemma LeaderExitsFirst()
    ensures var t := Run(Start(1, 1), CLONE_RUN);
            LegalRun(Start(1, 1), CLONE_RUN) && t.outcome.InProgress? && t.q.runnable == [2] && LeaderGone(t)
  {
    hide *;
    Registries();
    var log := Begins();
    log := CloneRun([], ALONE, PAIR, [], map[1 := Resumed], 2, 0x1_0000, 0, log);
    PairTasks();
    assert [] + [2] == [2];
    var s := Running(PAIR, [2], map[1 := Resumed, 2 := Held], log);
    var sts := [] + [CloneCall(0x1_0000, 0)] + [CloneEvent(1, 2)] + [SignalStop(2, SIGSTOP)];
    var t := LeaderExits(log);
    Extend(sts, s, ExitEvent(1), t);
    assert sts + [ExitEvent(1)] == CLONE_RUN by { CloneRunIs(); }
    ReachesMeans(CLONE_RUN, t);
  }

  lemma CloneRunIs()
    ensures [] + [CloneCall(0x1_0000, 0)] + [CloneEvent(1, 2)] + [SignalStop(2, SIGSTOP)] + [ExitEvent(1)] == CLONE_RUN
  {
  }

  lemma ReachesMeans(sts: seq<Status>, t: State)
    requires Reaches(sts, t)
    ensures LegalRun(Start(1, 1), sts) && Run(Start(1, 1), sts) == t
  {
    hide Run, LegalRun, Start;
  }

  lemma PairTasks()
    ensures Joined(map[1 := Resumed], 2, true) == map[1 := Resumed, 2 := Held] && HasCloneThread(0x1_0000)
  {
  }

  lemma LeaderExits(log: Log) returns (t: State)
    ensures var s := Running(PAIR, [2], map[1 := Resumed, 2 := Held], log);
            Legal(s, ExitEvent(1)) && Step(s, ExitEvent(1)) == t
    ensures t.outcome.InProgress? && t.q.runnable == [2] && LeaderGone(t)
  {
    hide Prng.Seeded;
    var s := Running(PAIR, [2], map[1 := Resumed, 2 := Held], log);
    var d := SetTask(s, 1, ExitStop);
    t := ResumeThread(d, 1);
    assert t.kern.task == map[1 := Dying, 2 := Held] && t.reg == PAIR && t.q == s.q && t.focus == s.focus && t.outcome.InProgress?;
    hide ResumeThread;
    assert Inner(s, ExitEvent(1)) == t;
    assert 2 in PAIR.threads.Keys && 2 !in {1};
  }

  // ----- a fork child's exit_group

  const FORK_RUN := [CloneCall(17, 0), CloneEvent(1, 3), SignalStop(3, SIGSTOP), RETURNS]
  const WORKER_RUN := [CloneCall(0x1_0000, 0), CloneEvent(1, 2), SignalStop(2, SIGSTOP), RETURNS]
  const DEATHS := [SyscallStop(3, Entry(Deaths.EXIT_GROUP_CALL, NOTHING)), Exited(2, 0)]

  /** Thread 2 runs, the init waits behind it, the fork child runs beside them. */
  ghost function WorkerRuns(log: Log): State {
    At(BOTH, [1], {}, Focus(Some(2), Some(2), false, []), map[], map[1 := Held, 2 := Resumed, 3 := Resumed], log)
  }

  lemma ForkTasks()
    ensures Joined(map[1 := Resumed], 3, false) == map[1 := Resumed, 3 := Resumed] && !HasCloneThread(17)
    ensures Joined(map[1 := Resumed, 3 := Resumed], 2, true) == map[1 := Resumed, 2 := Held, 3 := Resumed] && HasCloneThread(0x1_0000)
  {
  }

  lemma YieldsToWorker(log: Log) returns (next: Log)
    ensures var s := Running(BOTH, [2], map[1 := Resumed, 2 := Held, 3 := Resumed], log);
            Legal(s, RETURNS) && Step(s, RETURNS) == WorkerRuns(next)
  {
    Registries();
    next := ExitYields(BOTH, map[1 := Resumed, 2 := Held, 3 := Resumed], 2, [], log);
    assert [2] + [] == [2] && [] + [1] == [1];
    hide Step, Legal, Clones, Prng.Seeded, Running;
    assert map[1 := Resumed, 2 := Held, 3 := Resumed][1 := Held][2 := Resumed] == map[1 := Held, 2 := Resumed, 3 := Resumed];
  }

  lemma ForkRunIs()
    ensures [] + [CloneCall(17, 0)] + [CloneEvent(1, 3)] + [SignalStop(3, SIGSTOP)] + [RETURNS] == FORK_RUN
    ensures FORK_RUN + [CloneCall(0x1_0000, 0)] + [CloneEvent(1, 2)] + [SignalStop(2, SIGSTOP)] + [RETURNS] == FORK_RUN + WORKER_RUN
    ensures FORK_RUN + WORKER_RUN + [DEATHS[0]] + [DEATHS[1]] == FORK_RUN + WORKER_RUN + DEATHS
  {
    assert [DEATHS[0]] + [DEATHS[1]] == DEATHS;
  }

  lemma ForkRun() returns (log: Log)
    ensures Reaches(FORK_RUN, Running(FORKED, [], map[1 := Resumed, 3 := Resumed], log))
  {
    hide *;
    Registries();
    ForkTasks();
    TwoTasks();
    ForkRunIs();
    log := Begins();
    log := CloneRun([], ALONE, FORKED, [], map[1 := Resumed], 3, 17, 0, log);
    var sts := [] + [CloneCall(17, 0)] + [CloneEvent(1, 3)] + [SignalStop(3, SIGSTOP)];
    var task := map[1 := Resumed, 3 := Resumed];
    var s := Running(FORKED, [], task, log);
    log := ExitRunning(FORKED, task, log);
    Extend(sts, s, RETURNS, Running(FORKED, [], task, log));
  }

  lemma WorkerRun() returns (log: Log)
    ensures Reaches(FORK_RUN + WORKER_RUN, WorkerRuns(log))
  {
    hide *;
    Registries();
    ForkTasks();
    TwoTasks();
    ForkRunIs();
    log := ForkRun();
    var task := map[1 := Resumed, 3 := Resumed];
    log := CloneRun(FORK_RUN, FORKED, BOTH, [], task, 2, 0x1_0000, 0, log);
    assert [] + [2] == [2];
    var s := Running(BOTH, [2], map[1 := Resumed, 2 := Held, 3 := Resumed], log);
    var sts := FORK_RUN + [CloneCall(0x1_0000, 0)] + [CloneEvent(1, 2)] + [SignalStop(2, SIGSTOP)];
    log := YieldsToWorker(log);
    Extend(sts, s, RETURNS, WorkerRuns(log));
  }

  lemma TwoTasks()
    ensures var task := map[1 := Resumed, 3 := Resumed]; 1 in task && task[1] == Resumed && 2 !in task
    ensures 1 in FORKED.threads && FORKED.threads[1] == LEADER
  {
  }

  lemma WorkerRunsFacts(log: Log)
    ensures var s := WorkerRuns(log);
            && s.outcome.InProgress? && IsTask(s, 3, Resumed) && !IsScheduled(s, 3) && 3 !in s.calls.pending
            && s.focus.current == Some(2) && s.reg.init == 1 && 2 in s.kern.task && !s.focus.groupExiting && s.q.runnable == [1]
  {
    hide Prng.Seeded;
  }

  /** A fork child exits, then the running thread does: the init, alive and next in line, is never run again,
      however the kernel goes on. Had the fork child not exited, it would have been run at once. */
  lemma ForkChildExitsFirst(rest: seq<Status>)
    requires LegalRun(Run(Start(1, 1), FORK_RUN + WORKER_RUN + DEATHS), rest)
    ensures var t := Run(Start(1, 1), FORK_RUN + WORKER_RUN + DEATHS);
            && LegalRun(Start(1, 1), FORK_RUN + WORKER_RUN + DEATHS)
            && t.outcome.InProgress? && t.q.runnable == [1] && Limits.Stalled(t)
            && Fairness.Turns(Run(t, rest).log.acts) == Fairness.Turns(t.log.acts)
    ensures var sts := FORK_RUN + WORKER_RUN + [DEATHS[1]];
            LegalRun(Start(1, 1), sts) && Run(Start(1, 1), sts).focus.current == Some(1) && Run(Start(1, 1), sts).outcome.InProgress?
  {
    hide *;
    var log := WorkerRun();
    var s := WorkerRuns(log);
    ForkRunIs();
    WorkerRunsFacts(log);
    ReachesMeans(FORK_RUN + WORKER_RUN, s);
    ReachesInv(FORK_RUN + WORKER_RUN, s);
    Deaths.ForkChildStalls(s, 3, 2, 0, NOTHING);
    DeathsAre();
    Extend(FORK_RUN + WORKER_RUN, s, DEATHS[0], Step(s, DEATHS[0]));
    var t := Step(Step(s, DEATHS[0]), DEATHS[1]);
    Extend(FORK_RUN + WORKER_RUN + [DEATHS[0]], Step(s, DEATHS[0]), DEATHS[1], t);
    ReachesMeans(FORK_RUN + WORKER_RUN + DEATHS, t);
    Limits.StalledForever(t, rest);
    InitWaits(log);
    var u := Step(s, DEATHS[1]);
    Extend(FORK_RUN + WORKER_RUN, s, DEATHS[1], u);
    ReachesMeans(FORK_RUN + WORKER_RUN + [DEATHS[1]], u);
    InitServed(s, u);
  }

  /** Thread 2 has no tid word: its death leaves just the init in line. */
  lemma InitWaits(log: Log)
    ensures var s := WorkerRuns(log);
            && Deaths.LeftWaiting(s, 2) == [1] && Deaths.CanResume(s, 1) && !s.focus.groupExiting && 2 in s.reg.threads
  {
    hide Prng.Seeded;
    var s := WorkerRuns(log);
    assert AfterJoinWake(s, 2) == s;
    WithoutAbsent([1], 2);
  }

  lemma InitServed(s: State, u: State)
    requires 2 in s.reg.threads && Deaths.DeathLeadsTo(s, 2, u) && Deaths.LeftWaiting(s, 2) == [1] && Deaths.CanResume(s, 1)
    requires !s.focus.groupExiting
    ensures u.focus.current == Some(1) && u.outcome.InProgress?
  {
    hide Deaths.LeftWaiting, Deaths.CanResume, Deaths.ExitTrace, Fairness.Turns;
  }

  lemma DeathsAre()
    ensures DEATHS[0] == SyscallStop(3, Entry(Deaths.EXIT_GROUP_CALL, NOTHING)) && DEATHS[1] == Exited(2, 0)
  {
  }

  lemma ReachesInv(sts: seq<Status>, s: State)
    requires Reaches(sts, s) && s.outcome.InProgress?
    ensures Inv(s)
  {
    hide Inv, LegalRun, Run, Start;
    RunSound(1, 1, sts);
  }

  // ----- deaths whose order shows

  const TRIO := Registry(1, map[1 := LEADER, 2 := Worker(1), 3 := Worker(2)], 3)
  const TWO_CLONES := [CloneCall(0x1_0000, 0), CloneEvent(1, 2), SignalStop(2, SIGSTOP)]
    + [CloneCall(0x1_0000, 0), CloneEvent(1, 3), SignalStop(3, SIGSTOP), RETURNS]

  /** Thread 2 runs, thread 3 is next in line, the init behind it. */
  ghost function TrioRuns(log: Log): State {
    At(TRIO, [3, 1], {}, Focus(Some(2), Some(1), false, []), map[], map[1 := Held, 2 := Resumed, 3 := Held], log)
  }

  lemma TrioFacts()
    ensures Clones(PAIR, TRIO, 3, 0x1_0000, 0) && 2 in TRIO.threads && TRIO.threads[2] == Worker(1)
    ensures 1 in TRIO.threads && TRIO.threads[1] == LEADER
    ensures Joined(map[1 := Resumed, 2 := Held], 3, true) == map[1 := Resumed, 2 := Held, 3 := Held]
    ensures [] + [CloneCall(0x1_0000, 0)] + [CloneEvent(1, 2)] + [SignalStop(2, SIGSTOP)] + [CloneCall(0x1_0000, 0)]
            + [CloneEvent(1, 3)] + [SignalStop(3, SIGSTOP)] + [RETURNS] == TWO_CLONES
  {
    assert HasCloneThread(0x1_0000);
  }

  lemma YieldsInTrio(log: Log) returns (next: Log)
    ensures var s := Running(TRIO, [2, 3], map[1 := Resumed, 2 := Held, 3 := Held], log);
            Legal(s, RETURNS) && Step(s, RETURNS) == TrioRuns(next)
  {
    TrioFacts();
    next := ExitYields(TRIO, map[1 := Resumed, 2 := Held, 3 := Held], 2, [3], log);
    hide Step, Legal, Clones, Prng.Seeded, Running;
    assert [2] + [3] == [2, 3] && [3] + [1] == [3, 1];
    assert map[1 := Resumed, 2 := Held, 3 := Held][1 := Held][2 := Resumed] == map[1 := Held, 2 := Resumed, 3 := Held];
  }

  lemma TrioRunsFacts(log: Log)
    ensures var s := TrioRuns(log);
            && s.outcome.InProgress? && s.focus.current == Some(2) && s.reg.init == 1 && 2 in s.kern.task && 3 in s.kern.task
            && 2 in s.reg.threads && !s.focus.groupExiting && s.q.runnable == [3, 1]
  {
    hide Prng.Seeded;
  }

  lemma TrioRun() returns (log: Log)
    ensures Reaches(TWO_CLONES, TrioRuns(log))
  {
    hide *;
    Registries();
    TrioFacts();
    PairTasks();
    log := Begins();
    log := CloneRun([], ALONE, PAIR, [], map[1 := Resumed], 2, 0x1_0000, 0, log);
    assert [] + [2] == [2] && [2] + [3] == [2, 3];
    var sts := [] + [CloneCall(0x1_0000, 0)] + [CloneEvent(1, 2)] + [SignalStop(2, SIGSTOP)];
    log := CloneRun(sts, PAIR, TRIO, [2], map[1 := Resumed, 2 := Held], 3, 0x1_0000, 0, log);
    sts := sts + [CloneCall(0x1_0000, 0)] + [CloneEvent(1, 3)] + [SignalStop(3, SIGSTOP)];
    var s := Running(TRIO, [2, 3], map[1 := Resumed, 2 := Held, 3 := Held], log);
    log := YieldsInTrio(log);
    Extend(sts, s, RETURNS, TrioRuns(log));
  }

  /** Two threads killed by a signal, the running one and the next in line: the trace tells which was reaped first. */
  lemma KillOrderShows(sig: Signal)
    ensures var a, b := TWO_CLONES + [Killed(2, sig)] + [Killed(3, sig)], TWO_CLONES + [Killed(3, sig)] + [Killed(2, sig)];
            && LegalRun(Start(1, 1), a) && LegalRun(Start(1, 1), b)
            && Run(Start(1, 1), a).log.trace != Run(Start(1, 1), b).log.trace
  {
    hide *;
    var log := TrioRun();
    var t := TrioRuns(log);
    TrioRunsFacts(log);
    ReachesInv(TWO_CLONES, t);
    KillOrder.KillOrderExactly(t, 2, 3, sig);
    KillOrder.HeadDecides(t, 2, 3);
    Extend(TWO_CLONES, t, Killed(2, sig), Step(t, Killed(2, sig)));
    Extend(TWO_CLONES + [Killed(2, sig)], Step(t, Killed(2, sig)), Killed(3, sig), Step(Step(t, Killed(2, sig)), Killed(3, sig)));
    Extend(TWO_CLONES, t, Killed(3, sig), Step(t, Killed(3, sig)));
    Extend(TWO_CLONES + [Killed(3, sig)], Step(t, Killed(3, sig)), Killed(2, sig), Step(Step(t, Killed(3, sig)), Killed(2, sig)));
    ReachesMeans(TWO_CLONES + [Killed(2, sig)] + [Killed(3, sig)], Step(Step(t, Killed(2, sig)), Killed(3, sig)));
    ReachesMeans(TWO_CLONES + [Killed(3, sig)] + [Killed(2, sig)], Step(Step(t, Killed(3, sig)), Killed(2, sig)));
  }

  /** The exit event of the next in line. */
  lemma NextExits(log: Log) returns (u: State)
    ensures var s := TrioRuns(log); Legal(s, ExitEvent(3)) && Step(s, ExitEvent(3)) == u
    ensures u.outcome.InProgress? && u.focus == TrioRuns(log).focus && u.reg == TRIO && u.q == TrioRuns(log).q
    ensures IsTask(u, 3, Dying) && 2 in u.kern.task && Deaths.LeftWaiting(u, 2) == [3, 1]
  {
    hide Prng.Seeded;
    var s := TrioRuns(log);
    u := ResumeThread(SetTask(s, 3, ExitStop), 3);
    assert IsTask(u, 3, Dying) && u.outcome.InProgress? && u.focus == s.focus && u.reg == TRIO && u.q == s.q && 2 in u.kern.task;
    hide ResumeThread;
    assert Inner(s, ExitEvent(3)) == u;
    assert TRIO.threads[2] == Worker(1) && AfterJoinWake(u, 2) == u;
    WithoutAbsent([3, 1], 2);
  }

  /** A fatal signal takes a group of three threads; the next in line has its exit event before the running thread is
      reaped, and the run ends with an error of ptrace. */
  lemma KillTurnsError(sig: Signal)
    ensures var sts := TWO_CLONES + [ExitEvent(3)] + [Killed(2, sig)];
            LegalRun(Start(1, 1), sts) && Run(Start(1, 1), sts).outcome == Failed(Ptrace)
  {
    hide *;
    var log := TrioRun();
    var t := TrioRuns(log);
    var u := NextExits(log);
    Extend(TWO_CLONES, t, ExitEvent(3), u);
    ReachesInv(TWO_CLONES + [ExitEvent(3)], u);
    KilledNext(log, u, sig);
    Deaths.DeathFailsExactly(u, Killed(2, sig));
    Extend(TWO_CLONES + [ExitEvent(3)], u, Killed(2, sig), Step(u, Killed(2, sig)));
    ReachesMeans(TWO_CLONES + [ExitEvent(3)] + [Killed(2, sig)], Step(u, Killed(2, sig)));
  }

  lemma KilledNext(log: Log, u: State, sig: Signal)
    requires u.focus == TrioRuns(log).focus && u.reg == TRIO && 2 in u.kern.task
    ensures Legal(u, Killed(2, sig)) && Deaths.CurrentDies(u, Killed(2, sig)) && !u.focus.groupExiting
    ensures Killed(2, sig).pid == 2 && [3, 1][0] == 3 && [3, 1] != []
  {
    hide Prng.Seeded;
  }

  // ----- a nested wait that never ends

  const FORKED_TWICE := Registry(1, map[1 := LEADER, 3 := CHILD, 4 := Thread(2, 0, 17, false)], 3)
  const FORKED_DEEP := Registry(1, map[1 := LEADER, 3 := CHILD, 4 := Thread(2, 0, 17, false), 5 := Thread(3, 0, 17, false)], 4)
  const CHILD_FORKS := SyscallStop(3, Entry(Regs(SYS_CLONE, 17, 0, 0, 0, 0), NOTHING))
  const NESTED := [CloneCall(17, 0), CloneEvent(1, 4), CHILD_FORKS, CloneEvent(3, 5), SignalStop(4, SIGSTOP)]

  ghost function ChildCalled(log: Log): State {
    At(FORKED_TWICE, [], {4}, Focus(Some(1), Some(0), false, [Frame(1, 4)]), map[3 := CloneInfo(17, 0)],
       map[1 := Held, 3 := Resumed, 4 := Attaching], log)
  }

  ghost function BothAwaited(log: Log): State {
    At(FORKED_DEEP, [], {4, 5}, Focus(Some(1), Some(0), false, [Frame(1, 4), Frame(3, 5)]), map[],
       map[1 := Held, 3 := Held, 4 := Attaching, 5 := Attaching], log)
  }

  lemma ChildForks(log: Log) returns (next: Log)
    ensures var s := Awaiting(FORKED_TWICE, [], map[1 := Resumed, 3 := Resumed], 4, log);
            Legal(s, CHILD_FORKS) && Step(s, CHILD_FORKS) == ChildCalled(next)
  {
    hide Prng.Seeded;
    var s := Awaiting(FORKED_TWICE, [], map[1 := Resumed, 3 := Resumed], 4, log);
    assert s.kern.task == map[1 := Held, 3 := Resumed, 4 := Attaching];
    var regs := Regs(SYS_CLONE, 17, 0, 0, 0, 0);
    var d := SetTask(s, 3, Held);
    assert !IsScheduled(d, 3);
    var t := OnSyscallEntry(d, 3, regs, NOTHING);
    assert t == Emit(d.(calls := d.calls.(clonePending := map[3 := CloneInfo(17, 0)])), Syscall(SYS_CLONE, Pass));
    hide OnSyscallEntry;
    var u := ResumeThread(t, 3);
    assert u.kern.task == map[1 := Held, 3 := Resumed, 4 := Attaching] && u.outcome.InProgress?;
    assert Inner(s, CHILD_FORKS) == u;
    next := Step(s, CHILD_FORKS).log;
  }

  lemma ChildClones(log: Log) returns (next: Log)
    ensures var s := ChildCalled(log); Legal(s, CloneEvent(3, 5)) && Step(s, CloneEvent(3, 5)) == BothAwaited(next)
  {
    hide Prng.Seeded;
    var s := ChildCalled(log);
    assert Fresh(s, 5);
    Confluence.CloneFirst(s, 3, 5);
    hide Step, Fresh;
    assert !HasCloneThread(17);
    assert map[3 := CloneInfo(17, 0)] - {3} == map[];
    assert {4} + {5} == {4, 5};
    assert map[1 := Held, 3 := Resumed, 4 := Attaching][3 := Held][5 := Attaching]
        == map[1 := Held, 3 := Held, 4 := Attaching, 5 := Attaching];
    assert [Frame(1, 4)] + [Frame(3, 5)] == [Frame(1, 4), Frame(3, 5)];
    next := Step(s, CloneEvent(3, 5)).log;
  }

  /** The stop the outer activation waits for arrives while the inner one is reading. */
  lemma WrongStop(log: Log) returns (t: State)
    ensures var s := BothAwaited(log); Legal(s, SignalStop(4, SIGSTOP)) && Step(s, SignalStop(4, SIGSTOP)) == t
    ensures t.outcome.InProgress? && t.focus.frames == [Frame(1, 4), Frame(3, 5)] && IsTask(t, 4, Resumed)
  {
    hide Prng.Seeded;
    var s := BothAwaited(log);
    assert !Awaited(s, SignalStop(4, SIGSTOP));
    var d := SetTask(s, 4, Held);
    var e := d.(q := d.q.(pendingStart := d.q.pendingStart - {4}));
    assert !IsScheduled(e, 4);
    t := ResumeThread(e, 4);
    assert t.outcome.InProgress? && t.focus == s.focus && IsTask(t, 4, Resumed);
    hide ResumeThread;
    assert Inner(s, SignalStop(4, SIGSTOP)) == t;
  }

  lemma NestedFacts()
    ensures Clones(FORKED, FORKED_TWICE, 4, 17, 0)
    ensures FORK_RUN + [CloneCall(17, 0)] + [CloneEvent(1, 4)] + [CHILD_FORKS] + [CloneEvent(3, 5)] + [SignalStop(4, SIGSTOP)]
         == FORK_RUN + NESTED
  {
    assert !HasCloneThread(17);
    assert [CloneCall(17, 0)] + [CloneEvent(1, 4)] + [CHILD_FORKS] + [CloneEvent(3, 5)] + [SignalStop(4, SIGSTOP)] == NESTED;
  }

  /** The init forks 3 and then 4; while 4 is awaited 3 forks 5, and 4's attach stop comes first: the init never leaves
      its clone event again, however the kernel goes on. */
  lemma NestedWaitNeverEnds(more: seq<Status>)
    requires LegalRun(Run(Start(1, 1), FORK_RUN + NESTED), more)
    ensures LegalRun(Start(1, 1), FORK_RUN + NESTED) && Run(Start(1, 1), FORK_RUN + NESTED).outcome.InProgress?
    ensures var t := Run(Run(Start(1, 1), FORK_RUN + NESTED), more); t.focus.frames != [] && t.focus.frames[0] == Frame(1, 4)
  {
    hide *;
    Registries();
    ForkTasks();
    TwoTasks();
    ForkRunIs();
    NestedFacts();
    var log := ForkRun();
    var task := map[1 := Resumed, 3 := Resumed];
    var first := Running(FORKED, [], task, log);
    log := CallsClone(FORKED, [], task, 17, 0, log);
    var called := Called(FORKED, [], task, 17, 0, log);
    Extend(FORK_RUN, first, CloneCall(17, 0), called);
    FourIsNew();
    log := Event(FORKED, FORKED_TWICE, [], task, 4, 17, 0, log);
    var awaiting := Awaiting(FORKED_TWICE, [], task, 4, log);
    var sts := FORK_RUN + [CloneCall(17, 0)] + [CloneEvent(1, 4)];
    Extend(FORK_RUN + [CloneCall(17, 0)], called, CloneEvent(1, 4), awaiting);
    log := ChildForks(log);
    var child := ChildCalled(log);
    Extend(sts, awaiting, CHILD_FORKS, child);
    log := ChildClones(log);
    var both := BothAwaited(log);
    Extend(sts + [CHILD_FORKS], child, CloneEvent(3, 5), both);
    var t := WrongStop(log);
    Extend(sts + [CHILD_FORKS] + [CloneEvent(3, 5)], both, SignalStop(4, SIGSTOP), t);
    ReachesMeans(FORK_RUN + NESTED, t);
    OuterStuck(t);
    Nesting.OutermostReturnsExactly(1, 1, FORK_RUN + NESTED);
    Nesting.StrandedMeans(Frame(1, 4), Run(t, more));
  }

  lemma FourIsNew()
    ensures 4 !in map[1 := Resumed, 3 := Resumed]
  {
  }

  lemma OuterStuck(t: State)
    requires t.focus.frames == [Frame(1, 4), Frame(3, 5)] && IsTask(t, 4, Resumed)
    ensures !Nesting.CanUnwind(t) && t.focus.frames[0] == Frame(1, 4)
  {
    assert !IsTask(t, t.focus.frames[0].child, Attaching);
  }

  // ----- a join wake that is lost

  const WORD: Addr := 4096
  const JOINABLE: u64 := 0x21_0000
  const JOINERS := Registry(1, map[1 := LEADER, 3 := CHILD, 2 := Thread(2, WORD, JOINABLE, true)], 3)
  const WAIT_CALL := Entry(Regs(SYS_FUTEX, WORD, FUTEX_WAIT, 0, 0, 0), Memory(Some(0), None, true))
  const JOIN_RUN := [CloneCall(JOINABLE, WORD), CloneEvent(1, 2), SignalStop(2, SIGSTOP), RETURNS]
  const WAITS := [SyscallStop(2, WAIT_CALL), SyscallStop(1, WAIT_CALL), Killed(2, 9)]

  const WAITED := Inject(SYS_FUTEX, 0)

  ghost function JoinerRuns(log: Log): State {
    At(JOINERS, [1], {}, Focus(Some(2), Some(2), false, []), map[], map[1 := Held, 2 := Resumed, 3 := Resumed], log)
  }

  /** Thread 2 is parked on its own tid word, the init runs. */
  ghost function SelfParked(log: Log): State {
    State(JOINERS, Queues([], {}, {}, {2}, map[WORD := [2]]), Focus(Some(1), Some(0), false, []),
          Calls(map[2 := WAITED], map[], map[]), Devices(Prng.Seeded(1), 0), log,
          Kernel(map[1 := Resumed, 2 := Held, 3 := Resumed], 0), InProgress)
  }

  /** The init is parked behind it; only the fork child runs. */
  ghost function BothParked(log: Log): State {
    State(JOINERS, Queues([], {}, {}, {2, 1}, map[WORD := [2, 1]]), Focus(None, Some(0), false, []),
          Calls(map[2 := WAITED, 1 := WAITED], map[], map[]), Devices(Prng.Seeded(1), 0), log,
          Kernel(map[1 := Held, 2 := Held, 3 := Resumed], 0), InProgress)
  }

  lemma JoinersFacts()
    ensures Clones(FORKED, JOINERS, 2, JOINABLE, WORD) && HasCloneThread(JOINABLE) && HasClearTid(JOINABLE)
    ensures 1 in JOINERS.threads && JOINERS.threads[1] == LEADER && 2 in JOINERS.threads && JOINERS.threads[2].vtid == 2
    ensures Joined(map[1 := Resumed, 3 := Resumed], 2, true) == map[1 := Resumed, 2 := Held, 3 := Resumed]
    ensures FORK_RUN + [CloneCall(JOINABLE, WORD)] + [CloneEvent(1, 2)] + [SignalStop(2, SIGSTOP)] + [RETURNS] == FORK_RUN + JOIN_RUN
    ensures FORK_RUN + JOIN_RUN + [SyscallStop(2, WAIT_CALL)] + [SyscallStop(1, WAIT_CALL)] + [Killed(2, 9)]
         == FORK_RUN + JOIN_RUN + WAITS
  {
    assert HasCloneThread(0x21_0000) && HasClearTid(0x21_0000);
    assert [CloneCall(JOINABLE, WORD)] + [CloneEvent(1, 2)] + [SignalStop(2, SIGSTOP)] + [RETURNS] == JOIN_RUN;
    assert [SyscallStop(2, WAIT_CALL)] + [SyscallStop(1, WAIT_CALL)] + [Killed(2, 9)] == WAITS;
  }

  lemma JoinRun() returns (log: Log)
    ensures Reaches(FORK_RUN + JOIN_RUN, JoinerRuns(log))
  {
    hide *;
    TwoTasks();
    JoinersFacts();
    log := ForkRun();
    var task := map[1 := Resumed, 3 := Resumed];
    log := CloneRun(FORK_RUN, FORKED, JOINERS, [], task, 2, JOINABLE, WORD, log);
    assert [] + [2] == [2];
    var s := Running(JOINERS, [2], map[1 := Resumed, 2 := Held, 3 := Resumed], log);
    var sts := FORK_RUN + [CloneCall(JOINABLE, WORD)] + [CloneEvent(1, 2)] + [SignalStop(2, SIGSTOP)];
    log := YieldsToJoiner(log);
    Extend(sts, s, RETURNS, JoinerRuns(log));
  }

  lemma YieldsToJoiner(log: Log) returns (next: Log)
    ensures var s := Running(JOINERS, [2], map[1 := Resumed, 2 := Held, 3 := Resumed], log);
            Legal(s, RETURNS) && Step(s, RETURNS) == JoinerRuns(next)
  {
    JoinersFacts();
    next := ExitYields(JOINERS, map[1 := Resumed, 2 := Held, 3 := Resumed], 2, [], log);
    hide Step, Legal, Clones, Prng.Seeded, Running;
    assert [2] + [] == [2] && [] + [1] == [1];
    assert map[1 := Resumed, 2 := Held, 3 := Resumed][1 := Held][2 := Resumed] == map[1 := Held, 2 := Resumed, 3 := Resumed];
  }

  /** Two threads share the address space, so a wait on a word that holds 0 parks its caller. */
  lemma WaitParks(s: State, p: Pid)
    requires s.reg == JOINERS && p in {1, 2}
    ensures PlanFutex(s, p, WAIT_CALL.regs, WAIT_CALL.mem) == ParkOn(WORD) && Parks(s, p, WAIT_CALL.regs, WAIT_CALL.mem)
    ensures FutexCmd(WAIT_CALL.regs) == FUTEX_WAIT
  {
    assert ScheduledPids(s) == {1, 2};
  }

  lemma FirstParks(log: Log) returns (next: Log)
    ensures var s := JoinerRuns(log); var st := SyscallStop(2, WAIT_CALL); Legal(s, st) && Step(s, st) == SelfParked(next)
  {
    hide Prng.Seeded;
    var s := JoinerRuns(log);
    var st := SyscallStop(2, WAIT_CALL);
    var d := SetTask(s, 2, Held);
    assert d.kern.task == map[1 := Held, 2 := Held, 3 := Resumed];
    WaitParks(d, 2);
    hide PlanFutex, Parks;
    var t := ParkThread(d, 2, FUTEX_WAIT, WORD);
    assert OnSyscallEntry(d, 2, WAIT_CALL.regs, WAIT_CALL.mem) == t;
    assert {} + {2} == {2} && [] + [2] == [2];
    assert t.q == Queues([1], {}, {}, {2}, map[WORD := [2]]) && t.calls.pending == map[2 := WAITED];
    assert t.outcome.InProgress? && IsScheduled(d, 2) && Parks(d, 2, WAIT_CALL.regs, WAIT_CALL.mem);
    hide OnSyscallEntry, ParkThread;
    var u := SetCurrent(t, None);
    assert ScheduledEntry(d, 2, WAIT_CALL.regs, WAIT_CALL.mem) == u;
    assert Inner(s, st) == u;
    assert u.q.runnable[1..] == [];
    assert ScheduleNext(u) == Pick(PopRunnable(u), 1);
    assert map[1 := Held, 2 := Held, 3 := Resumed][1 := Resumed] == map[1 := Resumed, 2 := Held, 3 := Resumed];
    next := Step(s, st).log;
  }

  lemma SecondParks(log: Log) returns (next: Log)
    ensures var s := SelfParked(log); var st := SyscallStop(1, WAIT_CALL); Legal(s, st) && Step(s, st) == BothParked(next)
  {
    hide Prng.Seeded;
    var s := SelfParked(log);
    var st := SyscallStop(1, WAIT_CALL);
    var d := SetTask(s, 1, Held);
    assert d.kern.task == map[1 := Held, 2 := Held, 3 := Resumed];
    WaitParks(d, 1);
    hide PlanFutex, Parks;
    var t := ParkThread(d, 1, FUTEX_WAIT, WORD);
    assert OnSyscallEntry(d, 1, WAIT_CALL.regs, WAIT_CALL.mem) == t;
    assert {2} + {1} == {2, 1} && [2] + [1] == [2, 1] && map[WORD := [2]][WORD := [2, 1]] == map[WORD := [2, 1]];
    assert t.q == Queues([], {}, {}, {2, 1}, map[WORD := [2, 1]]) && t.calls.pending == map[2 := WAITED, 1 := WAITED];
    assert t.outcome.InProgress? && IsScheduled(d, 1) && Parks(d, 1, WAIT_CALL.regs, WAIT_CALL.mem);
    hide OnSyscallEntry, ParkThread;
    var u := SetCurrent(t, None);
    assert ScheduledEntry(d, 1, WAIT_CALL.regs, WAIT_CALL.mem) == u;
    assert Inner(s, st) == u;
    assert !u.reg.threads[3].scheduled;
    assert ScheduleNext(u) == u;
    next := Step(s, st).log;
  }

  /** The join wake of the killed thread takes it from its own queue; the init stays. */
  lemma JoinerLeaves(log: Log)
    ensures var s := BothParked(log); var d := s.(kern := s.kern.(task := s.kern.task - {2})); var t := OnThreadExit(d, 2, false);
            && t.outcome == s.outcome && t.focus == s.focus && t.reg.threads == JOINERS.threads - {2} && t.reg.init == 1
            && t.q.runnable == [] && t.q.blocked == {1} && t.q.pendingStart == {}
  {
    hide Prng.Seeded;
    JoinersFacts();
    var s := BothParked(log);
    var d := s.(kern := s.kern.(task := s.kern.task - {2}));
    var woken := Wake(d.(reg := d.reg.(threads := d.reg.threads - {2})), d.reg.threads, WORD, 1);
    FirstWoken(d);
    hide WakeSplit, Purge, Unparks;
    assert woken.q.blocked == {1} && woken.q.runnable == [2] && woken.reg.threads == JOINERS.threads - {2};
    assert woken.focus == s.focus && woken.outcome == s.outcome && woken.q.pendingStart == {};
    hide Wake;
    WithoutAbsent([], 2);
    assert [2][1..] == [];
  }

  lemma FirstWoken(d: State)
    requires d.q.waiting == map[WORD := [2, 1]] && d.q.blocked == {2, 1}
    ensures WakeSplit(d.(reg := d.reg.(threads := d.reg.threads - {2})), WORD, 1) == Split([2], [1])
    ensures {2, 1} - Elems([2]) == {1}
  {
    assert WakeLoop([1], {1}, 0) == Split([], [1]);
    assert [2, 1][1..] == [1] && {2, 1} - {2} == {1};
  }

  lemma JoinerDies(log: Log) returns (t: State)
    ensures var s := BothParked(log); var st := Killed(2, 9); Legal(s, st) && Step(s, st) == t
    ensures t.outcome.InProgress? && t.q.runnable == [] && t.q.blocked == {1} && 2 !in t.reg.threads
  {
    hide Prng.Seeded;
    JoinersFacts();
    JoinerLeaves(log);
    var s := BothParked(log);
    t := OnThreadExit(s.(kern := s.kern.(task := s.kern.task - {2})), 2, false);
    hide OnThreadExit;
    assert Inner(s, Killed(2, 9)) == t;
    assert 3 in t.reg.threads && !t.reg.threads[3].scheduled;
    assert ScheduleNext(t) == t;
  }

  /** A thread parked on its own tid word, the init parked behind it to join it, and the thread is killed: its join wake
      goes to itself and the init stays parked. */
  lemma JoinWakeLost()
    ensures var t := Run(Start(1, 1), FORK_RUN + JOIN_RUN + WAITS);
            && LegalRun(Start(1, 1), FORK_RUN + JOIN_RUN + WAITS)
            && t.outcome.InProgress? && t.q.blocked == {1} && t.q.runnable == [] && 2 !in t.reg.threads
  {
    hide *;
    JoinersFacts();
    var log := JoinRun();
    var s := JoinerRuns(log);
    log := FirstParks(log);
    Extend(FORK_RUN + JOIN_RUN, s, SyscallStop(2, WAIT_CALL), SelfParked(log));
    s := SelfParked(log);
    log := SecondParks(log);
    var sts := FORK_RUN + JOIN_RUN + [SyscallStop(2, WAIT_CALL)];
    Extend(sts, s, SyscallStop(1, WAIT_CALL), BothParked(log));
    s := BothParked(log);
    sts := sts + [SyscallStop(1, WAIT_CALL)];
    var t := JoinerDies(log);
    Extend(sts, s, Killed(2, 9), t);
    ReachesMeans(FORK_RUN + JOIN_RUN + WAITS, t);
  }

  // ----- the flags of a failed clone call

  const SYS_FORK := 57
  const FORK_ENTRY := SyscallStop(1, Entry(Regs(SYS_FORK, 0, 0, 0, 0, 0), NOTHING))
  const STALE := [CloneCall(0x1_0000, 0), RETURNS, FORK_ENTRY, CloneEvent(1, 2)]

  lemma ForkCalls(log: Log) returns (next: Log)
    ensures var s := Called(ALONE, [], map[1 := Resumed], 0x1_0000, 0, log);
            Legal(s, FORK_ENTRY) && Step(s, FORK_ENTRY) == Called(ALONE, [], map[1 := Resumed], 0x1_0000, 0, next)
  {
    hide Prng.Seeded;
    var s := Called(ALONE, [], map[1 := Resumed], 0x1_0000, 0, log);
    var d := SetTask(s, 1, Held);
    assert IsScheduled(d, 1);
    var t := OnSyscallEntry(d, 1, FORK_ENTRY.op.regs, NOTHING);
    assert t == Emit(d, Syscall(SYS_FORK, Pass));
    hide OnSyscallEntry;
    assert map[1 := Resumed][1 := Held][1 := Resumed] == map[1 := Resumed];
    next := Step(s, FORK_ENTRY).log;
  }

  lemma StaleReturns(log: Log) returns (next: Log)
    ensures var s := Called(ALONE, [], map[1 := Resumed], 0x1_0000, 0, log);
            Legal(s, RETURNS) && Step(s, RETURNS) == Called(ALONE, [], map[1 := Resumed], 0x1_0000, 0, next)
  {
    next := ExitAlone(ALONE, map[1 := CloneInfo(0x1_0000, 0)], map[1 := Resumed], log);
    hide Step, Legal, Prng.Seeded;
  }

  /** The init's call to clone a thread fails, then it forks: the process is registered as a thread. */
  lemma ForkTakenForThread()
    ensures LegalRun(Start(1, 1), STALE) && IsScheduled(Run(Start(1, 1), STALE), 2)
  {
    hide *;
    Registries();
    AloneFacts();
    var log := Begins();
    var task := map[1 := Resumed];
    var s := Running(ALONE, [], task, log);
    log := CallsClone(ALONE, [], task, 0x1_0000, 0, log);
    Extend([], s, CloneCall(0x1_0000, 0), Called(ALONE, [], task, 0x1_0000, 0, log));
    s := Called(ALONE, [], task, 0x1_0000, 0, log);
    log := StaleReturns(log);
    Extend([] + [CloneCall(0x1_0000, 0)], s, RETURNS, Called(ALONE, [], task, 0x1_0000, 0, log));
    s := Called(ALONE, [], task, 0x1_0000, 0, log);
    log := ForkCalls(log);
    Extend([] + [CloneCall(0x1_0000, 0)] + [RETURNS], s, FORK_ENTRY, Called(ALONE, [], task, 0x1_0000, 0, log));
    s := Called(ALONE, [], task, 0x1_0000, 0, log);
    log := Event(ALONE, PAIR, [], task, 2, 0x1_0000, 0, log);
    var t := Awaiting(PAIR, [], task, 2, log);
    Extend([] + [CloneCall(0x1_0000, 0)] + [RETURNS] + [FORK_ENTRY], s, CloneEvent(1, 2), t);
    ReachesMeans(STALE, t);
    TakenForThread(log);
  }

  lemma AloneFacts()
    ensures 1 in ALONE.threads && ALONE.threads[1] == LEADER && 2 !in map[1 := Resumed]
    ensures [] + [CloneCall(0x1_0000, 0)] + [RETURNS] + [FORK_ENTRY] + [CloneEvent(1, 2)] == STALE
  {
  }

  lemma TakenForThread(log: Log)
    ensures IsScheduled(Awaiting(PAIR, [], map[1 := Resumed], 2, log), 2)
  {
  }
}
