/** The order in which two threads die, with no exit_group or with one: exactly when it shows in the trace
    (src/runtime/supervisor.rs:349-364, 502-527). */
module KillOrder {
  import opened Base
  import opened Machine
  import opened Invariants
  import opened Fairness
  import opened Limits
  import opened Deaths
  import Trace

  /** Who is served when `p`, the running thread, dies. */
  ghost function First(s: State, p: Pid): Option<Pid> {
    if LeftWaiting(s, p) == [] then None else Some(LeftWaiting(s, p)[0])
  }

  /** Who is served when `p` dies after `q` has been reaped. */
  ghost function FirstAfter(s: State, q: Pid, p: Pid): Option<Pid> { First(OnThreadExit(s, q, false), p) }

  /** The order in which the running thread `p` and another task `q` die does not show: an exit_group is in flight;
      or the same thread is next in either order; or nobody is, and the scheduler goes on waiting outside
      `await_attach`, so that whoever `q`'s death wakes is served either way. */
  ghost predicate OrderHidden(s: State, p: Pid, q: Pid) {
    || s.focus.groupExiting
    || First(s, p) == FirstAfter(s, q, p)
    || (First(s, p) == None && Expecting(s) && s.focus.frames == [])
  }

  // ----- the death of a task that is not running

  lemma OtherInner(s: State, st: Status)
    requires Inv(s) && s.outcome.InProgress? && (st.Exited? || st.Killed?) && st.pid != s.reg.init && s.focus.current != Some(st.pid)
    ensures var d := s.(kern := s.kern.(task := s.kern.task - {st.pid}));
            Inner(s, st) == OnThreadExit(d, st.pid, false) && Tables(d) && Identity(d) && Identity(s) && Parked(d) && Partition(d)
  {
    hide PartitionOf, ParkedOf, IdentityOf, KernelOf, FramesOf, RunsAmong, OnThreadExit;
  }

  lemma SilentDeath(d: State, p: Pid)
    ensures var l := OnThreadExit(d, p, false).log; l.trace == d.log.trace && l.lastNumber == d.log.lastNumber
  {
    hide Wake;
    if p in d.reg.threads {
      Trace.WakeSilent(d.(reg := d.reg.(threads := d.reg.threads - {p})), d.reg.threads, d.reg.threads[p].childTid, 1);
    }
  }

  /** Reaped without a record. */
  lemma OtherReaped(s: State, st: Status) returns (t: State)
    requires Inv(s) && s.outcome.InProgress? && (st.Exited? || st.Killed?) && st.pid != s.reg.init && s.focus.current != Some(st.pid)
    ensures Inner(s, st) == t && Tables(t) && t.focus == s.focus && t.outcome.InProgress?
    ensures t.log.trace == s.log.trace && t.log.lastNumber == s.log.lastNumber
    ensures t.reg == s.reg.(threads := s.reg.threads - {st.pid}) && t.kern.task == s.kern.task - {st.pid}
    ensures t.q == OnThreadExit(s, st.pid, false).q && t.reg == OnThreadExit(s, st.pid, false).reg
    ensures t.q.runnable == LeftWaiting(s, st.pid) && t.q == ForgetIn(AfterJoinWake(s, st.pid).q, st.pid)
  {
    hide *;
    var q := st.pid;
    var d := s.(kern := s.kern.(task := s.kern.task - {q}));
    OtherInner(s, st);
    ExitEffect(d, q, false);
    ExitEffect(s, q, false);
    ExitKeepsTables(d, q, false);
    SilentDeath(d, q);
    LeftWaitingSame(s, d, q);
    LeftWaitingIs(d, q);
    LeftWaitingIs(s, q);
    t := OnThreadExit(d, q, false);
  }

  lemma StepReaped(s: State, st: Status) returns (t: State)
    requires Inv(s) && s.outcome.InProgress? && (st.Exited? || st.Killed?) && st.pid != s.reg.init
    requires s.focus.current.Some? && s.focus.current != Some(st.pid)
    ensures Step(s, st) == t && t.focus == s.focus && t.outcome.InProgress?
    ensures t.log.trace == s.log.trace && t.log.lastNumber == s.log.lastNumber
    ensures t.reg == s.reg.(threads := s.reg.threads - {st.pid}) && t.kern.task == s.kern.task - {st.pid}
    ensures t.q == OnThreadExit(s, st.pid, false).q && t.reg == OnThreadExit(s, st.pid, false).reg
  {
    hide *;
    t := OtherReaped(s, st);
    StepIs(s, st);
    RunningTail(t);
  }

  // ----- the other one first

  lemma FirstSame(s: State, t: State, p: Pid)
    requires t.reg == s.reg && t.q == s.q
    ensures First(t, p) == First(s, p)
  {
    LeftWaitingSame(s, t, p);
    hide LeftWaiting, AfterJoinWake;
  }

  lemma ExitTraceSame(s: State, b: State, p: Pid, q: Pid, next: Option<Pid>)
    requires b.log.trace == s.log.trace && b.log.lastNumber == s.log.lastNumber && b.reg.threads == s.reg.threads - {q}
    requires p in b.reg.threads && (next.Some? ==> next.value in b.reg.threads)
    ensures p in s.reg.threads && (next.Some? ==> next.value in s.reg.threads) && ExitTrace(b, p, next) == ExitTrace(s, p, next)
  {
  }

  lemma LeadsTrace(s: State, p: Pid, t: State)
    requires p in s.reg.threads && DeathLeadsTo(s, p, t)
    ensures var next := if s.focus.groupExiting then None else First(s, p);
            (next.Some? ==> next.value in s.reg.threads && next.value != p) && t.log.trace == ExitTrace(s, p, next)
  {
    hide LeftWaiting, Turns, ExitTrace, Stalled, Expecting, CanResume;
  }

  /** The other task first, then the running thread. */
  lemma OtherFirst(s: State, p: Pid, q: Pid, sig: Signal)
    requires Inv(s) && s.outcome.InProgress? && s.focus.current == Some(p) && p != s.reg.init && q != s.reg.init && p != q
    requires p in s.kern.task && q in s.kern.task
    ensures Legal(s, Killed(q, sig)) && Legal(Step(s, Killed(q, sig)), Killed(p, sig))
    ensures var next := if s.focus.groupExiting then None else FirstAfter(s, q, p);
            && p in s.reg.threads && (next.Some? ==> next.value in s.reg.threads && next.value != q)
            && Step(Step(s, Killed(q, sig)), Killed(p, sig)).log.trace == ExitTrace(s, p, next)
  {
    var st, stp := Killed(q, sig), Killed(p, sig);
    hide *;
    KilledLegal(s, q, sig);
    NotInit(s, q, sig);
    var b := StepReaped(s, st);
    StepKeepsInv(s, st);
    KilledLegal(b, p, sig);
    Running(b, p, sig);
    NextServedExactly(b, stp);
    LeadsTrace(b, p, Step(b, stp));
    FirstSame(OnThreadExit(s, q, false), b, p);
    FirstAfterIs(s, q, p);
    var next := if s.focus.groupExiting then None else FirstAfter(s, q, p);
    ExitTraceSame(s, b, p, q, next);
  }

  lemma FirstAfterIs(s: State, q: Pid, p: Pid)
    ensures FirstAfter(s, q, p) == First(OnThreadExit(s, q, false), p)
  {
    hide First, OnThreadExit;
  }

  lemma KilledLegal(s: State, p: Pid, sig: Signal)
    requires p in s.kern.task
    ensures Legal(s, Killed(p, sig))
  {
  }

  lemma NotInit(s: State, p: Pid, sig: Signal)
    requires p != s.reg.init
    ensures !InitDies(s, Killed(p, sig))
  {
  }

  lemma Running(s: State, p: Pid, sig: Signal)
    requires s.focus.current == Some(p) && p != s.reg.init
    ensures CurrentDies(s, Killed(p, sig))
  {
  }

  // ----- the running thread first

  /** Nobody is left to serve, and the scheduler goes on waiting. */
  lemma IdleAfter(s: State, st: Status) returns (u: State)
    requires Inv(s) && s.outcome.InProgress? && Legal(s, st) && CurrentDies(s, st)
    requires !s.focus.groupExiting && LeftWaiting(s, st.pid) == [] && Expecting(s)
    ensures st.pid in s.reg.threads && Step(s, st) == u && u.focus == s.focus.(current := None) && u.outcome.InProgress?
    ensures u.reg == s.reg.(threads := s.reg.threads - {st.pid}) && u.kern.task == s.kern.task - {st.pid}
    ensures u.q == ForgetIn(AfterJoinWake(s, st.pid).q, st.pid) && s.focus.lastVtid == VtidOf(s, st.pid)
    ensures var e := Emit(s, ThreadExit(s.reg.threads[st.pid].vtid)).log; u.log.trace == e.trace && u.log.lastNumber == e.lastNumber
  {
    var p := st.pid;
    hide *;
    var t := CurrentDeath(s, st);
    u := SetCurrent(t, None);
    SetNobody(t, u);
    ServesNobody(u);
    SameExpecting(t, u);
    StepIs(s, st);
  }

  /** A task dies while nobody runs: whoever its death wakes is served, unless an attach stop is awaited. */
  lemma IdleDeath(u: State, st: Status)
    requires Inv(u) && u.outcome.InProgress? && (st.Exited? || st.Killed?) && st.pid != u.reg.init && u.focus.current == None
    requires forall r :: r in u.reg.threads ==> u.focus.lastVtid != VtidOf(u, r)
    ensures var line := LeftWaiting(u, st.pid); var t := Step(u, st);
            if u.focus.frames == [] && line != [] then
              line[0] in u.reg.threads && t.log.trace == Emit(u, Schedule(u.focus.lastVtid, u.reg.threads[line[0]].vtid)).log.trace
            else t.log.trace == u.log.trace
  {
    hide *;
    var t := OtherReaped(u, st);
    StepIs(u, st);
    var line := LeftWaiting(u, st.pid);
    if u.focus.frames == [] {
      IdleTail(t);
      if line != [] {
        HeadLives(t, st.pid);
        HeadVtid(u, t, st.pid, line[0]);
        ServedHead(t, st.pid);
        SettledTail(t);
        EmitTrace(u, t, Schedule(u.focus.lastVtid, u.reg.threads[line[0]].vtid));
      } else {
        ServesNobody(t);
        SettledTail(t);
      }
    } else {
      WaitingTail(t);
    }
  }

  lemma IdleTail(t: State)
    requires t.outcome.InProgress? && t.focus.frames == [] && t.focus.current == None
    ensures Tail(t) == ScheduleNext(t)
  {
    hide ScheduleNext;
  }

  lemma WaitingTail(t: State)
    requires t.focus.frames != []
    ensures Tail(t) == t
  {
  }

  /** Scheduling once more after scheduling adds no record. */
  lemma SettledTail(t: State)
    requires Tables(t) && t.outcome.InProgress? && t.focus.current == None
    ensures Tail(ScheduleNext(t)).log == ScheduleNext(t).log
  {
    hide ParkedOf, IdentityOf;
    if t.q.runnable != [] {
      ScheduleNextHead(t);
      PickEffect(PopRunnable(t), t.q.runnable[0]);
      hide Pick;
    }
  }

  lemma HeadVtid(u: State, t: State, q: Pid, tid: Pid)
    requires t.reg.threads == u.reg.threads - {q} && tid in t.reg.threads && t.focus == u.focus
    requires forall r :: r in u.reg.threads ==> u.focus.lastVtid != VtidOf(u, r)
    ensures tid in u.reg.threads && t.reg.threads[tid] == u.reg.threads[tid] && t.focus.lastVtid != VtidOf(t, tid)
  {
    assert u.focus.lastVtid != VtidOf(u, tid);
  }

  lemma EmitTrace(u: State, t: State, e: Event)
    requires t.log.trace == u.log.trace && t.log.lastNumber == u.log.lastNumber
    ensures Emit(t, e).log.trace == Emit(u, e).log.trace
  {
  }

  /** Nobody has the vtid of a thread that is gone. */
  lemma GoneVtid(s: State, u: State, p: Pid)
    requires Inv(s) && p in s.reg.threads && u.reg.threads == s.reg.threads - {p} && u.focus.lastVtid == VtidOf(s, p)
    ensures forall r :: r in u.reg.threads ==> u.focus.lastVtid != VtidOf(u, r)
  {
    hide PartitionOf, ParkedOf, KernelOf, FramesOf, RunsAmong;
  }

  // ----- nobody next: whoever the other death wakes is the same in either order

  lemma NobodyWoken(s: State, p: Pid)
    requires Tables(s) && s.focus.current == Some(p) && p in s.reg.threads && LeftWaiting(s, p) == []
    ensures AfterJoinWake(s, p).q == s.q && s.q.runnable == []
    ensures Joinable(s, p) ==> s.reg.threads[p].childTid !in s.q.waiting
  {
    AfterJoinWakeKeeps(s, p);
    var w := AfterJoinWake(s, p);
    assert p !in w.q.runnable by { hide ParkedOf, IdentityOf, AfterJoinWake; }
    WithoutAbsent(w.q.runnable, p);
    assert w.q.runnable == [];
    var addr := s.reg.threads[p].childTid;
    WakeTakesPrefix(s, s.reg.threads, addr, 1);
    hide Wake, WakeCount, PartitionOf, IdentityOf, Without;
    if Joinable(s, p) {
      var queue := QueueAt(s, addr);
      var n := Min(Cap(1), |queue|);
      assert s.q.runnable + queue[..n] == [];
      assert n == 0 && queue == [];
      assert s.q.runnable == [] && Elems(queue[..n]) == {};
      assert s.q.blocked - {} == s.q.blocked;
    }
  }

  /** Forgetting a pid that is in no queue. */
  lemma ForgetNobody(s: State, p: Pid)
    requires Tables(s) && s.focus.current == Some(p)
    ensures ForgetIn(s.q, p) == s.q
  {
    WithoutAbsent(s.q.runnable, p);
    PurgeNobody(s.q.waiting, s.q.blocked, p);
    hide Without, Purge, ParkedOf;
    assert s.q.blocked - {p} == s.q.blocked && s.q.pendingStart - {p} == s.q.pendingStart;
    assert s.q.stoppedPending - {p} == s.q.stoppedPending;
  }

  lemma PurgeNobody(waiting: map<Addr, seq<Pid>>, blocked: set<Pid>, p: Pid)
    ensures QueuesMatch(waiting, blocked) && p !in blocked ==> Purge(waiting, p) == waiting
  {
    if QueuesMatch(waiting, blocked) && p !in blocked {
      forall a | a in waiting ensures Without(waiting[a], p) == waiting[a] && waiting[a] != [] {
        WithoutAbsent(waiting[a], p);
      }
    }
  }

  /** The wake of a death looks at its own record and at the queues only. */
  lemma JoinWakeSame(s: State, a: State, q: Pid, p: Pid)
    requires a.q == s.q && a.reg.threads == s.reg.threads - {p} && p != q
    ensures AfterJoinWake(a, q).q == AfterJoinWake(s, q).q && LeftWaiting(a, q) == LeftWaiting(s, q)
  {
    hide Without, Unparks;
  }

  lemma WakeKeysShrink(s: State, q: Pid, addr: Addr)
    requires Parked(s) && addr !in s.q.waiting
    ensures addr !in AfterJoinWake(s, q).q.waiting
  {
    if q in s.reg.threads { WakeTakesPrefix(s, s.reg.threads, s.reg.threads[q].childTid, 1); }
    hide Wake, WakeCount, ParkedOf;
  }

  /** After `q` is forgotten, `p`'s death still wakes nobody. */
  lemma StillNobody(s: State, q: Pid, p: Pid, t: State)
    requires Tables(s) && Tables(t) && s.focus.current == Some(p) && p in s.reg.threads && p != q && LeftWaiting(s, p) == []
    requires t.q == ForgetIn(AfterJoinWake(s, q).q, q) && t.reg.threads == s.reg.threads - {q} && t.focus == s.focus
    ensures LeftWaiting(t, p) == t.q.runnable
  {
    NobodyWoken(s, p);
    var addr := s.reg.threads[p].childTid;
    if Joinable(s, p) {
      PartsOf(s);
      WakeKeysShrink(s, q, addr);
      assert addr !in t.q.waiting by { hide AfterJoinWake, Without; }
    }
    assert AfterJoinWake(t, p).q == t.q by { hide AfterJoinWake, ForgetIn, LeftWaiting; NoWake(s, t, p); }
    assert p !in t.q.runnable by { hide ParkedOf, IdentityOf, AfterJoinWake, ForgetIn, Without; }
    WithoutAbsent(t.q.runnable, p);
    hide AfterJoinWake, ForgetIn, Tables, Without;
  }

  lemma PartsOf(s: State)
    requires Tables(s)
    ensures Partition(s) && Parked(s) && Identity(s)
  {
    hide PartitionOf, ParkedOf, IdentityOf;
  }

  lemma NoWake(s: State, t: State, p: Pid)
    requires p in t.reg.threads && p in s.reg.threads && t.reg.threads[p] == s.reg.threads[p]
    requires Joinable(s, p) ==> s.reg.threads[p].childTid !in t.q.waiting
    ensures AfterJoinWake(t, p).q == t.q
  {
  }

  lemma IdleOrder(s: State, p: Pid, q: Pid, a: State)
    requires Tables(s) && s.focus.current == Some(p) && p in s.reg.threads && p != q && q != s.reg.init && LeftWaiting(s, p) == []
    requires a.q == ForgetIn(AfterJoinWake(s, p).q, p) && a.reg.threads == s.reg.threads - {p}
    ensures FirstAfter(s, q, p) == if LeftWaiting(a, q) == [] then None else Some(LeftWaiting(a, q)[0])
  {
    hide *;
    PartsOf(s);
    NobodyWoken(s, p);
    ForgetNobody(s, p);
    JoinWakeSame(s, a, q, p);
    var t := OnThreadExit(s, q, false);
    ExitEffect(s, q, false);
    ExitKeepsTables(s, q, false);
    LeftWaitingIs(s, q);
    StillNobody(s, q, p, t);
    FirstAfterIs(s, q, p);
    FirstIs(t, p);
  }

  lemma FirstIs(t: State, p: Pid)
    ensures First(t, p) == if LeftWaiting(t, p) == [] then None else Some(LeftWaiting(t, p)[0])
  {
    hide LeftWaiting;
  }

  // ----- comparing the two orders

  /** An exit and a turn tell who got the turn. */
  lemma ExitTracesDiffer(s: State, p: Pid, q: Pid, next: Option<Pid>, more: seq<Record>)
    requires Inv(s) && p in s.reg.threads && q in s.reg.threads && (next.Some? ==> next.value in s.reg.threads)
    requires ExitTrace(s, p, Some(q)) <= more && next != Some(q)
    ensures more != ExitTrace(s, p, next)
  {
    var n := |s.log.trace|;
    assert ExitTrace(s, p, Some(q))[n + 1].event == Schedule(Some(s.reg.threads[p].vtid), s.reg.threads[q].vtid);
    if next.Some? {
      OtherVtid(s, q, next.value);
      assert ExitTrace(s, p, next)[n + 1].event == Schedule(Some(s.reg.threads[p].vtid), s.reg.threads[next.value].vtid);
    }
  }

  /** The running thread first, then the other task. */
  lemma RunningFirst(s: State, p: Pid, q: Pid, sig: Signal)
    requires Inv(s) && s.outcome.InProgress? && s.focus.current == Some(p) && p != s.reg.init && q != s.reg.init && p != q
    requires p in s.kern.task && q in s.kern.task
    ensures Legal(s, Killed(p, sig)) && Legal(Step(s, Killed(p, sig)), Killed(q, sig))
    ensures var last := Step(Step(s, Killed(p, sig)), Killed(q, sig)).log.trace;
            && p in s.reg.threads && (!s.focus.groupExiting && First(s, p).Some? ==> First(s, p).value in s.reg.threads)
            && (FirstAfter(s, q, p).Some? && First(s, p) == None && !s.focus.groupExiting ==> FirstAfter(s, q, p).value in s.reg.threads)
            && if s.focus.groupExiting then last == ExitTrace(s, p, None)
               else if First(s, p) == Some(q) then ExitTrace(s, p, Some(q)) <= last
               else if First(s, p).Some? then last == ExitTrace(s, p, First(s, p))
               else if Expecting(s) && s.focus.frames == [] then last == ExitTrace(s, p, FirstAfter(s, q, p))
               else last == ExitTrace(s, p, None)
  {
    var stp, st := Killed(p, sig), Killed(q, sig);
    var a := Step(s, stp);
    hide *;
    KilledLegal(s, p, sig);
    Running(s, p, sig);
    NotInit(s, p, sig);
    NextServedExactly(s, stp);
    KeysHave(a, q);
    KilledLegal(a, q, sig);
    StepKeepsInv(s, stp);
    LeadsTrace(s, p, a);
    FirstIs(s, p);
    if !s.focus.groupExiting { FirstLives(s, p, a); }
    OutcomeShown(s, p, a);
    CurrentShown(s, p, a);
    OtherFirst(s, p, q, sig);
    if !a.outcome.InProgress? {
      StepOver(a, st);
    } else if s.focus.groupExiting || (First(s, p).Some? && First(s, p) != Some(q)) {
      var t := StepReaped(a, st);
    } else if First(s, p) == Some(q) {
      Trace.StepGrows(a, st);
      GrowsIs(a, Step(a, st));
    } else {
      IdleThenOther(s, p, q, sig, a);
    }
  }

  lemma GrowsIs(a: State, t: State)
    requires Trace.Grows(a, t)
    ensures a.log.trace <= t.log.trace
  {
  }

  lemma KeysHave(a: State, q: Pid)
    requires q in a.kern.task.Keys
    ensures q in a.kern.task
  {
  }

  lemma FirstLives(s: State, p: Pid, t: State)
    requires p in s.reg.threads && DeathLeadsTo(s, p, t) && !s.focus.groupExiting
    ensures First(s, p).Some? ==> First(s, p).value in s.reg.threads
  {
    hide LeftWaiting, Turns, ExitTrace, Stalled, Expecting, CanResume;
  }

  lemma CurrentShown(s: State, p: Pid, t: State)
    requires p in s.reg.threads && DeathLeadsTo(s, p, t)
    ensures !s.focus.groupExiting ==> t.focus.current == First(s, p)
    ensures s.focus.groupExiting ==> t.focus == s.focus
  {
    hide LeftWaiting, Turns, ExitTrace, Expecting, CanResume;
  }

  lemma IdleThenOther(s: State, p: Pid, q: Pid, sig: Signal, a: State)
    requires Inv(s) && s.outcome.InProgress? && s.focus.current == Some(p) && p != s.reg.init && q != s.reg.init && p != q
    requires p in s.reg.threads && Legal(s, Killed(p, sig)) && CurrentDies(s, Killed(p, sig))
    requires !s.focus.groupExiting && First(s, p) == None && a == Step(s, Killed(p, sig)) && a.outcome.InProgress? && Inv(a)
    requires DeathLeadsTo(s, p, a) && (FirstAfter(s, q, p).Some? ==> FirstAfter(s, q, p).value in s.reg.threads)
    ensures var last := Step(a, Killed(q, sig)).log.trace;
            last == if s.focus.frames == [] then ExitTrace(s, p, FirstAfter(s, q, p)) else ExitTrace(s, p, None)
    ensures Expecting(s)
  {
    hide *;
    FirstIs(s, p);
    OutcomeShown(s, p, a);
    var u := IdleAfter(s, Killed(p, sig));
    TablesOf(s);
    IdleOrder(s, p, q, u);
    GoneVtid(s, u, p);
    IdleDeath(u, Killed(q, sig));
    IdleTraces(s, p, u, FirstAfter(s, q, p));
  }

  lemma IdleTraces(s: State, p: Pid, u: State, next: Option<Pid>)
    requires p in s.reg.threads && u.focus.lastVtid == s.focus.lastVtid == VtidOf(s, p) && u.reg.threads == s.reg.threads - {p}
    requires var e := Emit(s, ThreadExit(s.reg.threads[p].vtid)).log; u.log.trace == e.trace && u.log.lastNumber == e.lastNumber
    requires next.Some? ==> next.value in s.reg.threads
    ensures u.log.trace == ExitTrace(s, p, None)
    ensures next.Some? && next.value in u.reg.threads ==>
              Emit(u, Schedule(u.focus.lastVtid, u.reg.threads[next.value].vtid)).log.trace == ExitTrace(s, p, next)
  {
  }

  /** Exactly when the order of two deaths shows, for the running thread and any other task, from every reachable
      state: the traces agree if and only if the order is hidden. */
  lemma KillOrderExactly(s: State, p: Pid, q: Pid, sig: Signal)
    requires Inv(s) && s.outcome.InProgress? && s.focus.current == Some(p) && p != s.reg.init && q != s.reg.init && p != q
    requires p in s.kern.task && q in s.kern.task
    ensures Legal(s, Killed(p, sig)) && Legal(Step(s, Killed(p, sig)), Killed(q, sig))
    ensures Legal(s, Killed(q, sig)) && Legal(Step(s, Killed(q, sig)), Killed(p, sig))
    ensures Step(Step(s, Killed(p, sig)), Killed(q, sig)).log.trace == Step(Step(s, Killed(q, sig)), Killed(p, sig)).log.trace
            <==> OrderHidden(s, p, q)
  {
    hide *;
    RunningFirst(s, p, q, sig);
    OtherFirst(s, p, q, sig);
    OrderHiddenIs(s, p, q);
    var last := Step(Step(s, Killed(p, sig)), Killed(q, sig)).log.trace;
    if !s.focus.groupExiting {
      if First(s, p).Some? {
        var h := First(s, p).value;
        if FirstAfter(s, q, p) != First(s, p) { ExitTracesDiffer(s, p, h, FirstAfter(s, q, p), last); }
      } else if FirstAfter(s, q, p).Some? && !(Expecting(s) && s.focus.frames == []) {
        var z := FirstAfter(s, q, p).value;
        ExitTracesDiffer(s, p, z, None, ExitTrace(s, p, Some(z)));
      }
    }
  }

  lemma OrderHiddenIs(s: State, p: Pid, q: Pid)
    ensures OrderHidden(s, p, q) <==>
            s.focus.groupExiting || First(s, p) == FirstAfter(s, q, p) || (First(s, p) == None && Expecting(s) && s.focus.frames == [])
  {
    hide First, FirstAfter, Expecting;
  }

  // ----- with a queue, and for two threads that both wait

  /** When threads are waiting the head of the queue decides: the order of `p` and `q` is hidden if and only if an
      exit_group is in flight or `q` is not next in line. */
  lemma HeadDecides(s: State, p: Pid, q: Pid)
    requires Inv(s) && s.focus.current == Some(p) && p in s.reg.threads && p != q && q != s.reg.init && s.q.runnable != []
    ensures OrderHidden(s, p, q) <==> s.focus.groupExiting || s.q.runnable[0] != q
  {
    hide *;
    TablesOf(s);
    PartsOf(s);
    HeadStays(s, p);
    FirstIs(s, p);
    var t := OnThreadExit(s, q, false);
    ExitEffect(s, q, false);
    ExitKeepsTables(s, q, false);
    LeftWaitingIs(s, q);
    FirstAfterIs(s, q, p);
    FirstIs(t, p);
    OrderHiddenIs(s, p, q);
    if s.q.runnable[0] == q {
      GoneIsNotFirst(t, q, p);
    } else {
      HeadSurvives(s, q, p);
      HeadStays(t, p);
    }
  }

  lemma GoneIsNotFirst(t: State, q: Pid, p: Pid)
    requires Tables(t) && q !in t.reg.threads
    ensures LeftWaiting(t, p) != [] ==> LeftWaiting(t, p)[0] != q
  {
    PartsOf(t);
    AfterJoinWakeKeeps(t, p);
    hide AfterJoinWake, ParkedOf, IdentityOf, Without;
    if LeftWaiting(t, p) != [] {
      assert LeftWaiting(t, p)[0] in LeftWaiting(t, p);
      assert LeftWaiting(t, p)[0] in AfterJoinWake(t, p).q.runnable;
    }
  }

  lemma HeadSurvives(s: State, q: Pid, p: Pid)
    requires Tables(s) && s.q.runnable != [] && s.q.runnable[0] != q
    ensures LeftWaiting(s, q) != [] && LeftWaiting(s, q)[0] == s.q.runnable[0]
  {
    PartsOf(s);
    AfterJoinWakeGrows(s, q);
    hide AfterJoinWake, PartitionOf, ParkedOf, IdentityOf;
  }

  /** Two deaths while somebody else runs never show. */
  lemma OthersHidden(s: State, p: Pid, q: Pid, sig: Signal)
    requires Inv(s) && s.outcome.InProgress? && s.focus.current.Some? && s.focus.current != Some(p) && s.focus.current != Some(q)
    requires p != s.reg.init && q != s.reg.init && p != q && p in s.kern.task && q in s.kern.task
    ensures Step(Step(s, Killed(p, sig)), Killed(q, sig)).log.trace == s.log.trace
    ensures Step(Step(s, Killed(q, sig)), Killed(p, sig)).log.trace == s.log.trace
  {
    hide *;
    TwoReaped(s, p, q, sig);
    TwoReaped(s, q, p, sig);
  }

  lemma TwoReaped(s: State, p: Pid, q: Pid, sig: Signal)
    requires Inv(s) && s.outcome.InProgress? && s.focus.current.Some? && s.focus.current != Some(p) && s.focus.current != Some(q)
    requires p != s.reg.init && q != s.reg.init && p in s.kern.task
    ensures Step(Step(s, Killed(p, sig)), Killed(q, sig)).log.trace == s.log.trace
  {
    hide *;
    KilledLegal(s, p, sig);
    NotInit(s, p, sig);
    var t := StepReaped(s, Killed(p, sig));
    StepKeepsInv(s, Killed(p, sig));
    var u := StepReaped(t, Killed(q, sig));
  }
}
