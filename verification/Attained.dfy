/** The canonical run of `Determinism` is itself a run of the guest: what all runs agree on is reached. */
module Attained {
  import opened Base
  import opened Machine
  import opened Invariants
  import opened Threads
  import opened Freshness
  import opened Confluence
  import opened Teardown
  import opened Determinism

  /** A run of the guest from `s` to `t`. */
  ghost predicate Leads(g: Guest, s: State, sts: seq<Status>, t: State) { GuestRun(g, s, sts) && Run(s, sts) == t }

  lemma LeadsOn(g: Guest, s: State, sts: seq<Status>, t: State, st: Status)
    requires Leads(g, s, sts, t) && Drives(g, t, st)
    ensures Leads(g, s, sts + [st], Step(t, st))
  {
    hide Drives, Step;
    var all := sts + [st];
    assert all[..|sts|] == sts;
    forall i | 0 <= i < |all| ensures Drives(g, Run(s, all[..i]), all[i]) {
      if i < |sts| {
        assert all[..i] == sts[..i];
        assert Drives(g, Run(s, sts[..i]), sts[i]);
      }
    }
  }

  lemma LeadsNowhere(g: Guest, s: State)
    ensures Leads(g, s, [], s)
  {
    hide Drives, Step;
  }

  // ----- before an exit_group

  lemma PlainDrives(g: Guest, c: State, st: Status)
    requires ThreadsOnly(c, st) && c.focus.current.Some? && !c.focus.groupExiting && !g(c.log.acts).Clones?
    requires Reported(g(c.log.acts), c.focus.current.value) == Some(st)
    ensures Drives(g, c, st)
  {
    hide ThreadsOnly;
  }

  lemma AttachDrives(g: Guest, c: State, w: Pid)
    requires ThreadsOnly(c, SignalStop(w, SIGSTOP)) && c.focus.current.Some? && !c.focus.groupExiting && g(c.log.acts).Clones? && Fresh(c, w)
    ensures Drives(g, c, SignalStop(w, SIGSTOP))
  {
    hide ThreadsOnly, Fresh;
  }

  lemma CloneDrives(g: Guest, c: State, s: State, p: Pid, w: Pid)
    requires ThreadsOnly(s, CloneEvent(p, w)) && c.focus.current.Some? && !c.focus.groupExiting && g(c.log.acts).Clones?
    requires s == c.(kern := s.kern, q := s.q)
    ensures Drives(g, s, CloneEvent(p, w))
  {
    hide ThreadsOnly;
  }

  lemma MacroStuck(g: Guest, c: State)
    requires c.outcome.InProgress? && c.focus.current.Some? && c.focus.current.value in c.reg.threads && !c.focus.groupExiting
    requires var p := c.focus.current.value;
             if g(c.log.acts).Clones? then !ThreadsOnly(c, CloneEvent(p, FreshPid(c)))
             else Reported(g(c.log.acts), p).Some? ==> !ThreadsOnly(c, Reported(g(c.log.acts), p).value)
    ensures Macro(g, c) == c
  {
    hide ThreadsOnly, Step;
  }

  /** The guest stops, the canonical choices are made. */
  lemma MacroLeads(g: Guest, s: State, sts: seq<Status>, c: State) returns (more: seq<Status>)
    requires Leads(g, s, sts, c) && Ready(c) && c.outcome.InProgress? && !c.focus.groupExiting
    ensures Leads(g, s, more, Macro(g, c))
  {
    hide *;
    ReadyFacts(c);
    var p, w := c.focus.current.value, FreshPid(c);
    if g(c.log.acts).Clones? && ThreadsOnly(c, CloneEvent(p, w)) {
      CloneReady(c, p, w);
      AttachFirst(c, w);
      var first, second := SignalStop(w, SIGSTOP), CloneEvent(p, w);
      AttachDrives(g, c, w);
      LeadsOn(g, s, sts, c, first);
      CloneDrives(g, c, Step(c, first), p, w);
      LeadsOn(g, s, sts + [first], Step(c, first), second);
      MacroClone(g, c, p, w);
      more := sts + [first] + [second];
    } else if !g(c.log.acts).Clones? && Reported(g(c.log.acts), p).Some? && ThreadsOnly(c, Reported(g(c.log.acts), p).value) {
      var st := Reported(g(c.log.acts), p).value;
      PlainDrives(g, c, st);
      LeadsOn(g, s, sts, c, st);
      MacroPlain(g, c, st);
      more := sts + [st];
    } else {
      MacroStuck(g, c);
      more := sts;
    }
  }

  // ----- the reaping

  lemma ReapDrives(g: Guest, c: State, a: State, q: Pid)
    requires ExitCalled(c) && Reaped(c, a) && Inv(a) && Waiting(a) && q in a.reg.threads && q != a.reg.init
    ensures Drives(g, a, Exited(q, 0))
  {
    assert q in a.kern.task;
    assert a.focus.groupExiting;
  }

  lemma EndDrives(g: Guest, c: State, a: State)
    requires ExitCalled(c) && Reaped(c, a) && Inv(a) && Waiting(a) && a.reg.threads.Keys == {a.reg.init}
    ensures Drives(g, a, Exited(a.reg.init, a.kern.groupStatus))
  {
    assert a.reg.init in a.kern.task;
  }

  /** Everybody but the init is reaped, one after another, then the init. */
  lemma {:induction false} ReapAll(g: Guest, s: State, sts: seq<Status>, c: State, a: State) returns (more: seq<Status>, t: State)
    requires Leads(g, s, sts, a) && ExitCalled(c) && Reaped(c, a) && Inv(a) && Waiting(a)
    ensures Leads(g, s, more, t) && t.outcome == Finale(c).outcome && t.log.trace == Finale(c).log.trace
    decreases |a.reg.threads|
  {
    hide *;
    ReapedInProgress(c, a);
    ReapedStill(c, a);
    if exists q :: q in a.reg.threads && q != a.reg.init {
      var q :| q in a.reg.threads && q != a.reg.init;
      var st := Exited(q, 0);
      ReapDrives(g, c, a, q);
      DrivesFacts(g, a, st);
      LeadsOn(g, s, sts, a, st);
      TeardownStep(c, a, st);
      DeathEffect(a, st);
      FewerThreads(a.reg.threads, q);
      more, t := ReapAll(g, s, sts + [st], c, Step(a, st));
    } else {
      OnlyInit(a);
      var st := Exited(a.reg.init, a.kern.groupStatus);
      EndDrives(g, c, a);
      DrivesFacts(g, a, st);
      LeadsOn(g, s, sts, a, st);
      TeardownStep(c, a, st);
      InitOutcome(a, st);
      EndingOf(st);
      FinaleLog(c, Step(a, st), c);
      more, t := sts + [st], Step(a, st);
    }
  }

  lemma FewerThreads(threads: map<Pid, Thread>, q: Pid)
    requires q in threads
    ensures |threads - {q}| < |threads|
  {
    assert (threads - {q}).Keys == threads.Keys - {q};
    assert |threads - {q}| == |(threads - {q}).Keys| && |threads| == |threads.Keys|;
  }

  lemma OnlyInit(a: State)
    requires Inv(a) && forall q :: q in a.reg.threads ==> q == a.reg.init
    ensures a.reg.threads.Keys == {a.reg.init}
  {
    assert a.reg.init in a.reg.threads;
    assert forall q :: q in a.reg.threads.Keys <==> q in {a.reg.init};
  }

  lemma InitOutcome(a: State, st: Status)
    requires a.outcome.InProgress? && (st.Exited? || st.Killed?) && st.pid == a.reg.init
    ensures Step(a, st).outcome.Done?
  {
  }

  /** For every guest, seed and number of stops there is a run of the guest that writes the canonical trace and ends
      as the canonical run does. */
  lemma {:induction false} CanonAttained(g: Guest, seed: u64, k: nat) returns (sts: seq<Status>)
    ensures GuestRun(g, Start(0, seed), sts)
    ensures var t, c := Run(Start(0, seed), sts), Canon(g, seed, k); t.log.trace == c.log.trace && t.outcome == c.outcome
  {
    hide *;
    var live;
    sts, live := Reach(g, seed, k);
    LeadsMeans(g, Start(0, seed), sts, Run(Start(0, seed), sts));
  }

  lemma LeadsMeans(g: Guest, s: State, sts: seq<Status>, t: State)
    requires exists u :: Leads(g, s, sts, u)
    ensures GuestRun(g, s, sts)
  {
    hide GuestRun, Run;
  }

  lemma LeadsTo(g: Guest, s: State, sts: seq<Status>, t: State)
    requires Leads(g, s, sts, t)
    ensures Run(s, sts) == t
  {
    hide GuestRun, Run;
  }

  /** `live`: the run is at the canonical state itself, otherwise the canonical run is over. */
  lemma {:induction false} Reach(g: Guest, seed: u64, k: nat) returns (sts: seq<Status>, live: bool)
    ensures var t, c := Run(Start(0, seed), sts), Canon(g, seed, k);
            && Leads(g, Start(0, seed), sts, t) && t.log.trace == c.log.trace && t.outcome == c.outcome
            && (live ==> t == c) && (!live ==> !c.outcome.InProgress?)
  {
    hide *;
    var s := Start(0, seed);
    if k == 0 {
      sts, live := [], true;
      LeadsNowhere(g, s);
      LeadsTo(g, s, [], s);
      CanonStart(g, seed);
    } else {
      sts, live := Reach(g, seed, k - 1);
      var c := Canon(g, seed, k - 1);
      CanonNext(g, seed, k - 1);
      if !c.outcome.InProgress? {
        MacroOver(g, c);
      } else {
        CanonReady(g, seed, k - 1);
        ReadyFacts(c);
        if c.focus.groupExiting {
          ExitReady(c);
          ReapedSelf(c);
          MacroExit(g, c);
          FinaleOver(c);
          var t;
          sts, t := ReapAll(g, s, sts, c, c);
          LeadsTo(g, s, sts, t);
          live := false;
        } else {
          sts := MacroLeads(g, s, sts, c);
          LeadsTo(g, s, sts, Macro(g, c));
        }
      }
    }
  }
}
