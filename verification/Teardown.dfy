/** exit_group: once the running thread has entered it, the order in which the kernel kills and reaps the other
    threads leaves no mark on the trace (src/runtime/supervisor.rs:301-306, 349-364, 502-527, 570-573). */
module Teardown {
  import opened Base
  import opened Machine
  import opened Invariants
  import opened Threads

  /** The running thread has entered exit_group: it is alive and still current. */
  ghost predicate ExitCalled(s: State) {
    s.outcome.InProgress? && s.focus.groupExiting && s.focus.current.Some? && s.focus.current.value in s.reg.threads
  }

  function Issuer(s: State): Pid
    requires ExitCalled(s)
  {
    s.focus.current.value
  }

  /** The one record the reaping itself can write: the exit of the thread that called exit_group, unless that is
      the init, whose death ends the run. */
  function IssuerReaped(s: State): State
    requires ExitCalled(s)
  {
    if Issuer(s) == s.reg.init then s else Emit(s, ThreadExit(s.reg.threads[Issuer(s)].vtid))
  }

  /** Log entries of a teardown: nobody gets a turn, nobody parks, nothing is written or injected. */
  predicate ReapAct(act: Act) { act.Resume? || act.Unpark? || act.Died? }

  ghost predicate OnlyReaped(before: seq<Act>, after: seq<Act>) {
    before <= after && forall i :: |before| <= i < |after| ==> ReapAct(after[i])
  }

  /** `t` is `s` with some of its threads reaped: nobody was scheduled, only dying threads were resumed, and the
      trace tells no more than whether the issuer is gone. */
  ghost predicate Reaped(s: State, t: State)
    requires ExitCalled(s)
  {
    && t.outcome.InProgress? && t.focus == s.focus && t.reg.init == s.reg.init && t.kern.groupStatus == s.kern.groupStatus
    && t.dev == s.dev && t.reg.vtidNext == s.reg.vtidNext
    && (forall p :: p in t.reg.threads ==> p in s.reg.threads && t.reg.threads[p] == s.reg.threads[p])
    && (forall p :: IsTask(t, p, Resumed) ==> IsTask(s, p, Resumed))
    && OnlyReaped(s.log.acts, t.log.acts)
    && var log := if Issuer(s) in t.reg.threads then s.log else IssuerReaped(s).log;
       t.log.trace == log.trace && t.log.lastNumber == log.lastNumber
  }

  /** The last record. */
  function Ending(st: Status): Option<Event> {
    match st
    case Exited(_, code) => Some(RunExit(code))
    case Killed(_, sig) => Some(RunSignal(sig))
    case _ => None
  }

  /** What the join wake and the records of a death add to the log. */
  lemma DeathLog(d: State, p: Pid, record: bool)
    requires p in d.reg.threads
    ensures var t := OnThreadExit(d, p, record); var u := if record then Emit(d, ThreadExit(d.reg.threads[p].vtid)) else d;
            && t.log.trace == u.log.trace && t.log.lastNumber == u.log.lastNumber
            && OnlyReaped(d.log.acts, t.log.acts)
  {
    WakeLog(d.(reg := d.reg.(threads := d.reg.threads - {p})), d.reg.threads, d.reg.threads[p].childTid);
    hide Wake, Forget;
    assert OnThreadExit(d, p, record).log == Retire(d, p, record).log by { ForgetLog(Retire(d, p, record), p); }
  }

  lemma ForgetLog(s: State, p: Pid)
    ensures Forget(s, p).log == s.log
  {
  }

  lemma WakeLog(s: State, names: map<Pid, Thread>, addr: Addr)
    ensures var t := Wake(s, names, addr, 1);
            t.log.trace == s.log.trace && t.log.lastNumber == s.log.lastNumber && OnlyReaped(s.log.acts, t.log.acts)
    ensures Wake(s, names, addr, 1).calls == s.calls && Wake(s, names, addr, 1).reg == s.reg
  {
    hide WakeSplit, SetQueue;
  }

  /** What one death during a teardown changes. */
  lemma DeathEffect(t: State, st: Status)
    requires Inv(t) && Waiting(t) && t.focus.groupExiting && t.outcome.InProgress? && ThreadsOnly(t, st)
    requires (st.Exited? || st.Killed?) && st.pid != t.reg.init
    ensures var p := st.pid; var u := Step(t, st);
            && p in t.reg.threads && u.outcome == t.outcome && u.focus == t.focus && u.dev == t.dev
            && u.reg == t.reg.(threads := t.reg.threads - {p})
            && u.kern == t.kern.(task := t.kern.task - {p})
            && var l := if t.focus.current == Some(p) then Emit(t, ThreadExit(t.reg.threads[p].vtid)).log else t.log;
               u.log.trace == l.trace && u.log.lastNumber == l.lastNumber && OnlyReaped(t.log.acts, u.log.acts)
  {
    hide *;
    DeathFacts(t, st);
    var p := st.pid;
    var d := t.(kern := t.kern.(task := t.kern.task - {p}));
    var record := t.focus.current == Some(p);
    ReapInner(t, st);
    ExitEffect(d, p, record);
    DeathLog(d, p, record);
    var u := OnThreadExit(d, p, record);
    StillTearing(u);
    StepIs(t, st);
    ExitRecord(t, d, p);
  }

  lemma DeathFacts(t: State, st: Status)
    requires Inv(t) && Waiting(t) && t.focus.groupExiting && ThreadsOnly(t, st) && (st.Exited? || st.Killed?)
    ensures TearingDown(t) && st.pid in t.reg.threads && t.focus.current.Some?
  {
    hide PartitionOf, ParkedOf, IdentityOf, FramesOf, RunsAmong;
  }

  lemma StillTearing(u: State)
    requires u.focus.current.Some?
    ensures Tail(u) == u
  {
  }

  lemma ExitRecord(t: State, d: State, p: Pid)
    requires d == t.(kern := d.kern) && p in t.reg.threads
    ensures Emit(d, ThreadExit(d.reg.threads[p].vtid)).log == Emit(t, ThreadExit(t.reg.threads[p].vtid)).log
  {
  }

  lemma ReapThread(s: State, t: State, st: Status)
    requires ExitCalled(s) && Reaped(s, t) && Inv(t) && Waiting(t) && ThreadsOnly(t, st)
    requires (st.Exited? || st.Killed?) && st.pid != t.reg.init
    ensures Reaped(s, Step(t, st))
  {
    hide Inv, Waiting, ThreadsOnly, Step;
    DeathEffect(t, st);
  }

  lemma LetGo(s: State, t: State, p: Pid)
    requires ExitCalled(s) && Reaped(s, t) && Waiting(t)
    ensures Reaped(s, Step(t, ExitEvent(p)))
  {
    var d := SetTask(t, p, ExitStop);
    var u := ResumeThread(d, p);
    assert u.outcome == t.outcome && u.kern.task == t.kern.task[p := Dying] && u.reg == t.reg && u.q == t.q && u.focus == t.focus;
    assert u.log.trace == t.log.trace && OnlyReaped(t.log.acts, u.log.acts) && u.kern.groupStatus == t.kern.groupStatus;
    hide ResumeThread;
    assert Inner(t, ExitEvent(p)) == u;
  }

  lemma StepReaps(s: State, t: State, st: Status)
    requires ExitCalled(s) && Reaped(s, t) && Inv(t) && Waiting(t) && ThreadsOnly(t, st)
    requires (st.Exited? || st.Killed?) ==> st.pid != s.reg.init
    ensures Reaped(s, Step(t, st))
  {
    hide Step, Inv;
    match st {
      case ExitEvent(p) => LetGo(s, t, p);
      case Idle => IdleWaits(t);
      case Exited(_, _) => ReapThread(s, t, st);
      case Killed(_, _) => ReapThread(s, t, st);
    }
  }

  /** The init is reaped last, so by then the issuer is on record. */
  lemma InitEnds(s: State, t: State, st: Status)
    requires ExitCalled(s) && Reaped(s, t) && ThreadsOnly(t, st)
    requires (st.Exited? || st.Killed?) && st.pid == s.reg.init
    ensures var u := Step(t, st); var e := Emit(IssuerReaped(s), Ending(st).value);
            && u.outcome == Done(if st.Exited? then st.code else 128 + st.sig)
            && u.log.trace == e.log.trace && u.log.lastNumber == e.log.lastNumber && OnlyReaped(s.log.acts, u.log.acts)
  {
    assert t.reg.threads.Keys == {s.reg.init};
    assert Issuer(s) in t.reg.threads <==> Issuer(s) in t.reg.threads.Keys;
    hide OnlyReaped, Legal;
  }

  /** Any order of exit events and deaths: while threads are being reaped the trace is the same up to whether the
      issuer is gone, and when the init is reaped it is the same, whatever came before. */
  lemma {:induction false} TeardownOrderBlind(s: State, sts: seq<Status>)
    requires ExitCalled(s) && Inv(s) && Waiting(s) && ThreadsRun(s, sts)
    ensures var t := Run(s, sts);
            if t.outcome.InProgress? then Reaped(s, t) && Inv(t) && Waiting(t)
            else exists i :: 0 <= i < |sts| && Ending(sts[i]).Some?
                             && t.log.trace == Emit(IssuerReaped(s), Ending(sts[i]).value).log.trace
                             && OnlyReaped(s.log.acts, t.log.acts)
  {
    hide Inv, Waiting, ThreadsOnly, Step;
    if sts == [] {
      ReapedSelf(s);
    } else {
      var k := |sts| - 1;
      var pre, st := sts[..k], sts[k];
      assert forall i :: 0 <= i < |pre| ==> pre[..i] == sts[..i];
      TeardownOrderBlind(s, pre);
      var t := Run(s, pre);
      assert ThreadsOnly(Run(s, sts[..k]), sts[k]);
      hide Reaped, IssuerReaped;
      if !t.outcome.InProgress? {
        var i :| 0 <= i < |pre| && Ending(pre[i]).Some? && t.log.trace == Emit(IssuerReaped(s), Ending(pre[i]).value).log.trace;
        assert sts[i] == pre[i];
        StepOver(t, st);
      } else {
        TeardownStep(s, t, st);
      }
    }
  }

  lemma ReapedSelf(s: State)
    requires ExitCalled(s)
    ensures Reaped(s, s)
  {
  }

  lemma TeardownStep(s: State, t: State, st: Status)
    requires ExitCalled(s) && Reaped(s, t) && Inv(t) && Waiting(t) && ThreadsOnly(t, st)
    ensures var u := Step(t, st);
            if u.outcome.InProgress? then Reaped(s, u) && Inv(u) && Waiting(u)
            else Ending(st).Some? && st.pid == s.reg.init && OnlyReaped(s.log.acts, u.log.acts)
                 && u.log.trace == Emit(IssuerReaped(s), Ending(st).value).log.trace
                 && u.outcome == Done(if st.Exited? then st.code else 128 + st.sig)
  {
    assert t.outcome.InProgress? && t.reg.init == s.reg.init;
    assert ThreadsOnly(t, st) ==> Legal(t, st);
    hide Inv, Waiting, ThreadsOnly, Step, Reaped, Legal, IssuerReaped;
    if (st.Exited? || st.Killed?) && st.pid == s.reg.init {
      InitEnds(s, t, st);
    } else {
      StepReaps(s, t, st);
      ReapedInProgress(s, Step(t, st));
      StepWaits(t, st);
      StepKeeps(t, st);
    }
  }

  lemma ReapedInProgress(s: State, t: State)
    requires ExitCalled(s) && Reaped(s, t)
    ensures t.outcome.InProgress?
  {
  }
}
