/** The attach race: a new child's attach stop and its parent's clone event may be reported in either order
    (src/runtime/supervisor.rs:283-300, 316-333, 376-399, 469-500). */
module Confluence {
  import opened Base
  import opened Machine
  import opened Invariants

  function Stash(s: State, p: Pid): CloneInfo {
    if p in s.calls.clonePending then s.calls.clonePending[p] else CloneInfo(0, 0)
  }

  function ChildOf(s: State, p: Pid): Thread {
    var info := Stash(s, p);
    Thread(s.reg.vtidNext, info.childTid, info.flags, HasCloneThread(info.flags))
  }

  /** The parent and the child both stopped and reported, the child enrolled: where the two orders meet. */
  function Met(s: State, p: Pid, c: Pid): State {
    var e := Enrol(s, c, ChildOf(s, p));
    e.(calls := e.calls.(clonePending := s.calls.clonePending - {p}),
       kern := e.kern.(task := s.kern.task[p := Held][c := Held]))
  }

  /** The child released, its creation traced. */
  function Joined(s: State, p: Pid, c: Pid): State {
    var thread := ChildOf(s, p);
    Emit(Release(Met(s, p, c), c), ThreadCreate(thread.vtid, thread.scheduled))
  }

  lemma AttachFirst(s: State, c: Pid)
    requires Inv(s) && s.outcome.InProgress? && Fresh(s, c) && (s.focus.current == None ==> s.focus.frames != [] || AnyConcurrent(s))
    ensures Step(s, SignalStop(c, SIGSTOP))
         == s.(kern := s.kern.(task := s.kern.task[c := Held]), q := s.q.(stoppedPending := s.q.stoppedPending + {c}))
  {
    var t := s.(kern := s.kern.(task := s.kern.task[c := Held]), q := s.q.(stoppedPending := s.q.stoppedPending + {c}));
    assert !Awaited(s, SignalStop(c, SIGSTOP)) by {
      if s.focus.frames != [] {
        assert s.focus.frames[|s.focus.frames| - 1] in s.focus.frames;
      }
    }
    assert Inner(s, SignalStop(c, SIGSTOP)) == t;
    hide Inner, Fresh, Tables, KernelView, SingleRunner;
  }

  lemma ReleaseMet(s: State, p: Pid, c: Pid)
    requires s.outcome.InProgress? && p != c
    ensures Release(Met(s, p, c), c).outcome.InProgress? && Release(Met(s, p, c), c).focus == s.focus
    ensures Release(Met(s, p, c), c).q.pendingStart == s.q.pendingStart
  {
  }

  /** Both orders come to `Joined` and then let the parent go on. */
  lemma CloneSecond(s: State, p: Pid, c: Pid)
    requires s.outcome.InProgress? && p != c && Fresh(s, c)
    ensures var t := s.(kern := s.kern.(task := s.kern.task[c := Held]), q := s.q.(stoppedPending := s.q.stoppedPending + {c}));
            Inner(t, CloneEvent(p, c)) == Continue(Joined(s, p, c), p)
  {
    var t := s.(kern := s.kern.(task := s.kern.task[c := Held]), q := s.q.(stoppedPending := s.q.stoppedPending + {c}));
    var d := Deliver(t, CloneEvent(p, c));
    var e := d.(calls := d.calls.(clonePending := d.calls.clonePending - {p}));
    assert d.kern.task == s.kern.task[p := Held][c := Held];
    assert s.q.stoppedPending + {c} - {c} == s.q.stoppedPending;
    var u := Enrol(e, c, ChildOf(s, p));
    assert u.(q := u.q.(stoppedPending := u.q.stoppedPending - {c})) == Met(s, p, c);
    ReleaseMet(s, p, c);
    hide Release, Continue;
    assert Register(e, c, Stash(s, p)) == Joined(s, p, c);
  }

  lemma CloneFirst(s: State, p: Pid, c: Pid)
    requires s.outcome.InProgress? && p != c && Fresh(s, c)
    ensures var thread := ChildOf(s, p); var m := Met(s, p, c);
            var w := Emit(m.(q := m.q.(pendingStart := m.q.pendingStart + {c}),
                             kern := m.kern.(task := s.kern.task[p := Held][c := Attaching]),
                             focus := m.focus.(frames := m.focus.frames + [Frame(p, c)])),
                          ThreadCreate(thread.vtid, thread.scheduled));
            Step(s, CloneEvent(p, c)) == w
  {
    var d := Deliver(s, CloneEvent(p, c));
    var e := d.(calls := d.calls.(clonePending := d.calls.clonePending - {p}));
    var m := Met(s, p, c);
    var thread := ChildOf(s, p);
    var w := Emit(m.(q := m.q.(pendingStart := m.q.pendingStart + {c}),
                     kern := m.kern.(task := s.kern.task[p := Held][c := Attaching]),
                     focus := m.focus.(frames := m.focus.frames + [Frame(p, c)])),
                  ThreadCreate(thread.vtid, thread.scheduled));
    assert Inner(s, CloneEvent(p, c)) == w;
    hide Inner, Fresh;
  }

  lemma AttachSecond(s: State, p: Pid, c: Pid, w: State)
    requires s.outcome.InProgress? && p != c && Fresh(s, c)
    requires var thread := ChildOf(s, p); var m := Met(s, p, c);
             w == Emit(m.(q := m.q.(pendingStart := m.q.pendingStart + {c}),
                          kern := m.kern.(task := s.kern.task[p := Held][c := Attaching]),
                          focus := m.focus.(frames := m.focus.frames + [Frame(p, c)])),
                       ThreadCreate(thread.vtid, thread.scheduled))
    ensures Inner(w, SignalStop(c, SIGSTOP)) == Continue(Joined(s, p, c), p)
  {
    var thread := ChildOf(s, p);
    var m := Met(s, p, c);
    var d := SetTask(w, c, Held);
    assert d.kern.task == m.kern.task;
    assert m.q.pendingStart + {c} - {c} == m.q.pendingStart;
    var e := d.(q := d.q.(pendingStart := d.q.pendingStart - {c}));
    var event := ThreadCreate(thread.vtid, thread.scheduled);
    assert e == Emit(m.(focus := m.focus.(frames := m.focus.frames + [Frame(p, c)])), event);
    hide Fresh;
    ReleaseCommutes(m, c, m.focus.frames + [Frame(p, c)], event);
    ReleaseMet(s, p, c);
    hide Release, Continue;
    assert (m.focus.frames + [Frame(p, c)])[..|m.focus.frames|] == m.focus.frames;
  }

  /** Releasing a child does not look at the trace or at the frames. */
  lemma ReleaseCommutes(m: State, c: Pid, frames: seq<Frame>, event: Event)
    ensures Release(Emit(m.(focus := m.focus.(frames := frames)), event), c)
         == var r := Emit(Release(m, c), event); r.(focus := r.focus.(frames := frames))
  {
  }

  /** From every reachable state, for threads and for fork children, nested or not: the attach stop followed
      by the clone event and the clone event followed by the attach stop end in the same state — same tables,
      same queue with the child at its back, same virtual ids, same trace, same log of resumes. */
  lemma AttachRaceConfluent(s: State, p: Pid, c: Pid)
    requires Inv(s) && s.outcome.InProgress? && Legal(s, CloneEvent(p, c)) && Fresh(s, c)
    ensures Step(Step(s, SignalStop(c, SIGSTOP)), CloneEvent(p, c)) == Step(Step(s, CloneEvent(p, c)), SignalStop(c, SIGSTOP))
  {
    assert s.focus.current == None ==> AnyConcurrent(s) by {
      assert p in s.reg.threads;
      if s.focus.current == None {
        assert !RunsAmong(s.reg.threads, s.kern.task, p);
      }
    }
    AttachFirst(s, c);
    CloneSecond(s, p, c);
    CloneFirst(s, p, c);
    AttachSecond(s, p, c, Step(s, CloneEvent(p, c)));
    MeetingsInProgress(s, p, c);
    hide Fresh, Inv, Inner, Joined, Continue, Tail, Legal;
  }

  lemma MeetingsInProgress(s: State, p: Pid, c: Pid)
    requires s.outcome.InProgress? && p != c && Fresh(s, c)
    ensures Step(s, CloneEvent(p, c)).outcome.InProgress?
  {
    CloneFirst(s, p, c);
    hide Step, Fresh;
  }
}
