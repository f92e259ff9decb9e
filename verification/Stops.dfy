/** What the other statuses do, in every reachable state, told without the supervisor's own definitions: the start, exit
    events and other stops, a new child, and the end of the run (src/runtime/supervisor.rs:144-175, 219-233, 283-333,
    349-356, 376-399, 445-500). */
module Stops {
  import opened Base
  import opened Machine
  import opened Invariants
  import opened Calls
  import opened Fairness
  import Confluence
  import Joins
  import Prng
  import Signals

  /** The signal kept for a task. */
  function Kept(s: State, p: Pid): Option<Signal> { if p in s.calls.sigPending then Some(s.calls.sigPending[p]) else None }

  // ----- the start

  /** The run starts with the init running, as virtual thread 0, and one record of that. */
  lemma Starts(init: Pid, seed: u64)
    ensures var s := Start(init, seed);
            && s.reg == Registry(init, map[init := Thread(0, 0, 0, true)], 1)
            && s.q == Queues([], {}, {}, {}, map[])
            && s.focus == Focus(Some(init), Some(0), false, []) && s.calls == Calls(map[], map[], map[])
            && s.dev == Devices(Prng.Seeded(seed), 0) && s.kern.task == map[init := Resumed] && s.outcome == InProgress
            && s.log == Log(1, [Record(1, Schedule(None, 0))], [Turn(0), Resume(Some(0), None)])
  {
    var b := Boot(init, seed);
    assert b.q.runnable[1..] == [];
    assert ScheduleNext(b) == Pick(PopRunnable(b), init);
    hide Prng.Seeded;
    assert map[init := Held][init := Resumed] == map[init := Resumed];
  }

  // ----- stops that let it go on

  /** A stop that is neither a call nor an event of interest: whoever stopped goes on. */
  lemma OtherStop(s: State, p: Pid)
    requires Inv(s) && s.outcome.InProgress? && IsTask(s, p, Resumed)
    ensures p in s.reg.threads
    ensures var t := Step(s, OtherEvent(p));
            t == s.(calls := s.calls.(sigPending := s.calls.sigPending - {p}),
                    log := s.log.(acts := s.log.acts + [Resume(Some(s.reg.threads[p].vtid), Kept(s, p))]))
  {
    CallerFacts(s, p);
    var st := OtherEvent(p);
    StepIs(s, st);
    InnerCases(s, st);
    assert !Awaited(s, st);
    var d := SetTask(s, p, Held);
    assert IsScheduled(d, p) == s.reg.threads[p].scheduled;
    var t := ResumeThread(d, p);
    assert Continue(d, p) == t;
    assert t == s.(calls := s.calls.(sigPending := s.calls.sigPending - {p}), kern := t.kern,
                   log := s.log.(acts := s.log.acts + [Resume(Some(s.reg.threads[p].vtid), Kept(s, p))]));
    assert s.kern.task[p := Held][p := Resumed] == s.kern.task by { assert s.kern.task[p] == Resumed; }
    hide Inv, Inner, Step, Continue, ResumeThread, AnyConcurrent, Awaited;
    assert Tail(t) == t by { TailIdle(s, t, p, s.reg.threads[p].scheduled); }
  }

  /** A syscall stop the kernel tells nothing about: whoever stopped goes on. */
  lemma SilentStop(s: State, p: Pid)
    requires Inv(s) && s.outcome.InProgress? && IsTask(s, p, Resumed)
    ensures p in s.reg.threads
    ensures var t := Step(s, SyscallStop(p, NoInfo));
            && t.outcome.InProgress? && t.reg == s.reg && t.q == s.q && t.focus == s.focus && t.dev == s.dev && t.kern == s.kern
            && t.calls.pending == s.calls.pending && t.calls.clonePending == s.calls.clonePending
            && t.log.trace == s.log.trace && Does(s, t, p, [])
  {
    CallerFacts(s, p);
    assert s.log.acts + [] == s.log.acts;
    hide Inv, Step;
    Onward(s, p, NoInfo, SetTask(s, p, Held));
  }

  /** An exit event, of whatever task, held or running: it is let go to die, and keeps its place in the tables until it is
      reaped. Idle, the scheduler finds nobody. */
  lemma ExitStopLets(s: State, p: Pid)
    requires Inv(s) && s.outcome.InProgress? && Legal(s, ExitEvent(p))
    ensures var t := Step(s, ExitEvent(p));
            && t.reg == s.reg && t.q == s.q && t.focus == s.focus && t.dev == s.dev && t.kern.task == s.kern.task[p := Dying]
            && t.calls == s.calls.(sigPending := s.calls.sigPending - {p}) && t.log.trace == s.log.trace
            && t.log.acts == s.log.acts + [Resume(VtidOf(s, p), Kept(s, p))]
            && t.outcome == if s.focus.current == None && s.focus.frames == [] && s.q.pendingStart == {}
                               && !exists q :: q in s.reg.threads && !s.reg.threads[q].scheduled then Failed(Deadlock) else InProgress
  {
    var st := ExitEvent(p);
    StepIs(s, st);
    InnerCases(s, st);
    assert !Awaited(s, st);
    var t := ResumeThread(SetTask(s, p, ExitStop), p);
    assert t == s.(calls := s.calls.(sigPending := s.calls.sigPending - {p}), kern := t.kern,
                   log := s.log.(acts := s.log.acts + [Resume(VtidOf(s, p), Kept(s, p))]));
    assert t.kern == s.kern.(task := s.kern.task[p := Dying]) by { assert s.kern.task[p := ExitStop][p := Dying] == s.kern.task[p := Dying]; }
    assert s.focus.frames == [] && s.focus.current == None ==> s.q.runnable == [];
    hide Inv, Inner, Step, ResumeThread, Awaited;
    assert AnyConcurrent(t) <==> exists q :: q in s.reg.threads && !s.reg.threads[q].scheduled;
  }

  // ----- a new child

  /** A clone event and the attach stop of its child, at once: the child is a thread at the back of the runnable queue, held
      until its turn, or a process that runs; it has the next virtual id and is recorded; the parent goes on. If the
      scheduler was idle — a fork child has cloned a thread while every other thread is parked — the new thread has its
      turn at once. The other order of the two ends in the same state (`AttachRaceConfluent`). */
  lemma ChildJoins(s: State, p: Pid, c: Pid)
    requires Inv(s) && s.outcome.InProgress? && Legal(s, CloneEvent(p, c)) && Fresh(s, c)
    ensures p in s.reg.threads
    ensures var t := Step(Step(s, CloneEvent(p, c)), SignalStop(c, 19));
            var asked := if p in s.calls.clonePending then s.calls.clonePending[p] else CloneInfo(0, 0);
            var thread := asked.flags / 65_536 % 2 == 1; var id := s.reg.vtidNext;
            var trace := s.log.trace + [Record(s.log.lastNumber + 1, ThreadCreate(id, thread))];
            var acts := s.log.acts + (if thread then [] else [Resume(Some(id), None)])
                        + [Resume(Some(s.reg.threads[p].vtid), Kept(s, p))];
            && t.outcome.InProgress? && t.dev == s.dev
            && t.reg == Registry(s.reg.init, s.reg.threads[c := Thread(id, asked.childTid, asked.flags, thread)], id + 1)
            && t.calls.pending == s.calls.pending && t.calls.clonePending == s.calls.clonePending - {p}
            && if thread && Idle(s) then
                 && t.focus == s.focus.(current := Some(c), lastVtid := Some(id)) && t.q == s.q && s.q.runnable == []
                 && t.kern.task == s.kern.task[c := Resumed] && trace <= t.log.trace
                 && t.log.acts == acts + [Turn(id), Resume(Some(id), None)]
               else
                 && t.focus == s.focus && t.q == s.q.(runnable := if thread then s.q.runnable + [c] else s.q.runnable)
                 && t.kern.task == s.kern.task[c := if thread then Held else Resumed]
                 && t.log.trace == trace && t.log.acts == acts
  {
    var w := Step(s, CloneEvent(p, c));
    ParentFacts(s, p, c);
    hide *;
    Confluence.CloneFirst(s, p, c);
    Confluence.AttachSecond(s, p, c, w);
    Confluence.MeetingsInProgress(s, p, c);
    StepIs(w, SignalStop(c, SIGSTOP));
    NineteenStops();
    JoinedIs(s, p, c);
    var j := GoesOnThere(s, p, c);
    if j.reg.threads[c].scheduled && Idle(s) { ServedAtOnce(s, j, c); } else { NotServed(s, j, c); }
  }

  ghost predicate Idle(s: State) { s.focus.current == None && s.focus.frames == [] }

  lemma NineteenStops()
    ensures SIGSTOP == 19
  {
  }

  lemma ParentFacts(s: State, p: Pid, c: Pid)
    requires Inv(s) && s.outcome.InProgress? && Legal(s, CloneEvent(p, c)) && Fresh(s, c)
    ensures p in s.reg.threads && p != c && IsTask(s, p, Resumed) && c !in s.calls.sigPending && c !in s.kern.task
    ensures s.reg.threads[p].scheduled ==> s.focus.current == Some(p)
    ensures !s.reg.threads[p].scheduled ==> s.focus.current != Some(p)
    ensures !s.reg.threads[p].scheduled && s.focus.current == None && s.focus.frames == [] ==> s.q.runnable == []
    ensures c !in s.q.runnable && c !in s.q.pendingStart
  {
    CallerFacts(s, p);
  }

  /** The child released and recorded. */
  lemma JoinedIs(s: State, p: Pid, c: Pid)
    requires p in s.reg.threads && p != c && c !in s.calls.sigPending && s.outcome.InProgress?
    ensures var j := Confluence.Joined(s, p, c);
            var asked := if p in s.calls.clonePending then s.calls.clonePending[p] else CloneInfo(0, 0);
            var thread := asked.flags / 65_536 % 2 == 1; var id := s.reg.vtidNext;
            && j.outcome.InProgress? && j.focus == s.focus && j.dev == s.dev
            && j.reg == Registry(s.reg.init, s.reg.threads[c := Thread(id, asked.childTid, asked.flags, thread)], id + 1)
            && j.q == s.q.(runnable := if thread then s.q.runnable + [c] else s.q.runnable)
            && j.kern == s.kern.(task := s.kern.task[p := Held][c := if thread then Held else Resumed])
            && j.calls.pending == s.calls.pending && j.calls.clonePending == s.calls.clonePending - {p}
            && j.calls.sigPending == s.calls.sigPending
            && j.log.trace == s.log.trace + [Record(s.log.lastNumber + 1, ThreadCreate(id, thread))]
            && j.log.acts == s.log.acts + (if thread then [] else [Resume(Some(id), None)])
  {
    var m := Confluence.Met(s, p, c);
    var thread := Confluence.ChildOf(s, p);
    assert HasCloneThread(thread.flags) <==> thread.flags / 65_536 % 2 == 1;
    assert s.log.acts + [] == s.log.acts;
    assert m.reg.threads[c] == thread && IsTask(m, c, Held);
    if !thread.scheduled {
      assert s.calls.sigPending - {c} == s.calls.sigPending;
      assert s.kern.task[p := Held][c := Held][c := Resumed] == s.kern.task[p := Held][c := Resumed];
    }
  }

  lemma GoesOnThere(s: State, p: Pid, c: Pid) returns (t: State)
    requires p in s.reg.threads && p != c && c !in s.kern.task && IsTask(s, p, Resumed)
    requires s.reg.threads[p].scheduled ==> s.focus.current == Some(p)
    requires !s.reg.threads[p].scheduled ==> s.focus.current != Some(p)
    requires !s.reg.threads[p].scheduled && s.focus.current == None && s.focus.frames == [] ==> s.q.runnable == []
    requires var j := Confluence.Joined(s, p, c);
             && j.outcome.InProgress? && j.focus == s.focus && c in j.reg.threads && j.reg.threads == s.reg.threads[c := j.reg.threads[c]]
             && j.q == s.q.(runnable := if j.reg.threads[c].scheduled then s.q.runnable + [c] else s.q.runnable)
             && j.kern == s.kern.(task := s.kern.task[p := Held][c := if j.reg.threads[c].scheduled then Held else Resumed])
             && j.calls.sigPending == s.calls.sigPending
    ensures var j := Confluence.Joined(s, p, c);
            && t == Continue(j, p)
            && t == j.(calls := j.calls.(sigPending := s.calls.sigPending - {p}), kern := t.kern,
                       log := j.log.(acts := j.log.acts + [Resume(Some(s.reg.threads[p].vtid), Kept(s, p))]))
            && t.kern.task == s.kern.task[c := if j.reg.threads[c].scheduled then Held else Resumed]
  {
    var j := Confluence.Joined(s, p, c);
    hide Confluence.Joined;
    assert IsScheduled(j, p) == s.reg.threads[p].scheduled;
    t := Continue(j, p);
    assert t == ResumeThread(j, p);
    assert j.kern.task[p := Resumed] == s.kern.task[c := if j.reg.threads[c].scheduled then Held else Resumed] by {
      assert s.kern.task[p] == Resumed;
    }
  }

  lemma NotServed(s: State, t: State, c: Pid)
    requires t.focus == s.focus && c in t.reg.threads && !(t.reg.threads[c].scheduled && Idle(s))
    requires Idle(s) ==> t.q.runnable == []
    ensures Tail(t) == t
  {
    if Idle(s) { assert AnyConcurrent(t); }
  }

  lemma ServedAtOnce(s: State, t: State, c: Pid)
    requires t.focus == s.focus && c in t.reg.threads && Idle(s) && t.q.runnable == [c] && c !in t.q.blocked && t.outcome.InProgress?
    requires IsTask(t, c, Held) && c !in t.calls.sigPending
    ensures var u := Tail(t); var id := t.reg.threads[c].vtid;
            && u.outcome.InProgress? && u.reg == t.reg && u.dev == t.dev && u.q == t.q.(runnable := [])
            && u.calls.pending == t.calls.pending && u.calls.clonePending == t.calls.clonePending
            && u.focus == s.focus.(current := Some(c), lastVtid := Some(id)) && u.kern.task == t.kern.task[c := Resumed]
            && t.log.trace <= u.log.trace && u.log.acts == t.log.acts + [Turn(id), Resume(Some(id), None)]
  {
    assert t.q.runnable[1..] == [];
    assert Tail(t) == Pick(PopRunnable(t), c);
    PickIs(t, c);
    hide Pick, Tail;
  }

  /** The attach stop of a child that some outer wait is for, or none: the child is let in just the same, and nobody else
      goes on. */
  lemma StrayAttach(s: State, c: Pid)
    requires Inv(s) && s.outcome.InProgress? && IsTask(s, c, Attaching)
    requires s.focus.frames != [] ==> s.focus.frames[|s.focus.frames| - 1].child != c
    ensures c in s.reg.threads
    ensures var t := Step(s, SignalStop(c, 19)); var thread := s.reg.threads[c].scheduled; var id := s.reg.threads[c].vtid;
            && t.outcome.InProgress? && t.reg == s.reg && t.dev == s.dev && t.focus.frames == s.focus.frames
            && t.calls.pending == s.calls.pending && t.calls.clonePending == s.calls.clonePending
            && t.q.pendingStart == s.q.pendingStart - {c} && t.q.blocked == s.q.blocked && t.q.waiting == s.q.waiting
            && if !thread then
                 && t.focus == s.focus && t.q.runnable == s.q.runnable && t.kern.task == s.kern.task[c := Resumed]
                 && t.log.trace == s.log.trace && t.log.acts == s.log.acts + [Resume(Some(id), Kept(s, c))]
               else if Idle(s) then t.focus.current == Some(c) && t.q.runnable == [] && IsTask(t, c, Resumed)
               else
                 && t.focus == s.focus && t.q.runnable == s.q.runnable + [c] && t.kern.task == s.kern.task[c := Held]
                 && t.log == s.log
  {
    StrayFacts(s, c);
    var st := SignalStop(c, 19);
    StepIs(s, st);
    InnerCases(s, st);
    assert !Awaited(s, st);
    var e := SetTask(s, c, Held).(q := s.q.(pendingStart := s.q.pendingStart - {c}));
    var u := Release(e, c);
    assert Inner(s, st) == u;
    hide Inv, Inner, Step, Awaited;
    assert s.kern.task[c := Held][c := Resumed] == s.kern.task[c := Resumed];
    if s.reg.threads[c].scheduled && Idle(s) {
      assert u.q.runnable == [c] && u == PushRunnable(e, c);
      hide Release;
      PickIs(u, c);
      assert u.q.runnable[1..] == [];
      assert Tail(u) == Pick(PopRunnable(u), c);
      hide Pick, Tail;
    } else {
      NotServed(s, u, c);
      hide Tail;
    }
  }

  lemma StrayFacts(s: State, c: Pid)
    requires Inv(s) && s.outcome.InProgress? && IsTask(s, c, Attaching)
    ensures c in s.reg.threads && c in s.q.pendingStart && s.focus.current != Some(c) && c !in s.q.blocked
    ensures Idle(s) ==> s.q.runnable == []
  {
  }

  // ----- the end of the run

  /** The init's exit ends the run with its status, its death by a signal with 128 and the signal; each is recorded, and
      nothing else happens. In every state. */
  lemma InitEnds(s: State, code: int, sig: Signal)
    requires s.outcome.InProgress?
    ensures Step(s, Exited(s.reg.init, code))
         == s.(kern := s.kern.(task := s.kern.task - {s.reg.init}), outcome := Done(code),
               log := Log(s.log.lastNumber + 1, s.log.trace + [Record(s.log.lastNumber + 1, RunExit(code))], s.log.acts))
    ensures Step(s, Killed(s.reg.init, sig))
         == s.(kern := s.kern.(task := s.kern.task - {s.reg.init}), outcome := Done(128 + sig),
               log := Log(s.log.lastNumber + 1, s.log.trace + [Record(s.log.lastNumber + 1, RunSignal(sig))], s.log.acts))
  {
    hide ScheduleNext;
  }

  lemma OnlyInitEnds(s: State, st: Status)
    requires Inv(s) && s.outcome.InProgress? && Legal(s, st) && !InitDies(s, st)
    ensures !Step(s, st).outcome.Done?
  {
    assert s.reg.init in s.reg.threads;
    if st.SignalStop? && st.sig != 19 {
      Signals.SignalDelivered(s, st.pid, st.sig);
    } else {
      Signals.KeptUntilResumed(s, st, s.reg.init);
    }
    hide Step, Inv, VtidOf, Signals.Sent;
  }

  lemma {:induction false} InitStays(s: State, sts: seq<Status>)
    requires Inv(s) && LegalRun(s, sts) && Run(s, sts).outcome.InProgress?
    ensures Inv(Run(s, sts)) && Run(s, sts).reg.init == s.reg.init
  {
    hide Step, Inv, Legal;
    if sts != [] {
      var t, st := Run(s, sts[..|sts| - 1]), sts[|sts| - 1];
      LegalParts(s, sts);
      Signals.StillGoing(s, sts);
      InitStays(s, sts[..|sts| - 1]);
      if InitDies(t, st) { Joins.EndsRun(t, st); }
      InitRegistered(t);
      Joins.RecordStays(t, st, t.reg.init);
      StepKeepsInv(t, st);
    }
  }

  lemma InitRegistered(s: State)
    requires Inv(s)
    ensures s.reg.init in s.reg.threads
  {
  }

  lemma CodeOfDeath(t: State, st: Status, code: int)
    requires t.outcome.InProgress? && InitDies(t, st)
    ensures Step(t, st).outcome == Done(code) <==> st == Exited(t.reg.init, code) || st == Killed(t.reg.init, code - 128)
  {
    if st.Exited? { InitEnds(t, st.code, 0); } else { InitEnds(t, 0, st.sig); }
    hide Step;
  }

  /** The code of a run: it ends well with `code` if and only if the init exits with that status, or is killed by the signal
      `code` - 128, while the run goes on. */
  lemma {:induction false} RunCode(init: Pid, seed: u64, sts: seq<Status>, code: int)
    requires LegalRun(Start(init, seed), sts)
    ensures Run(Start(init, seed), sts).outcome == Done(code)
            <==> exists i :: 0 <= i < |sts| && Run(Start(init, seed), sts[..i]).outcome.InProgress?
                     && (sts[i] == Exited(init, code) || sts[i] == Killed(init, code - 128))
  {
    hide Step, Inv, Start, Legal;
    var s := Start(init, seed);
    if sts == [] {
      Starts(init, seed);
    } else {
      var pre, st := sts[..|sts| - 1], sts[|sts| - 1];
      LegalParts(s, sts);
      RunLast(s, sts);
      RunCode(init, seed, pre, code);
      forall i | 0 <= i < |pre| ensures pre[..i] == sts[..i] && pre[i] == sts[i] {}
      assert sts[..|pre|] == pre;
      var t := Run(s, pre);
      hide Run;
      if t.outcome.InProgress? {
        StartSound(init, seed);
        Starts(init, seed);
        InitStays(s, pre);
        if InitDies(t, st) { CodeOfDeath(t, st, code); } else { OnlyInitEnds(t, st); }
      } else {
        StepOver(t, st);
      }
      if i :| 0 <= i < |sts| && Run(s, sts[..i]).outcome.InProgress? && (sts[i] == Exited(init, code) || sts[i] == Killed(init, code - 128)) {
        if i == |pre| { assert st == sts[i]; }
      }
    }
  }
}
